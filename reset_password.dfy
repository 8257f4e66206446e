/**
 * The reset-password page: the `ready` flag and `handleUpdate`, split at its
 * one await into the submission and the arrival of the update's result.
 */
module ResetPassword {
  import opened Wrappers

  const MinLength: nat := 8
  const TooShort: string := "Password must be at least 8 characters."
  const Mismatch: string := "Passwords do not match."
  const RecoveryEvent: string := "PASSWORD_RECOVERY"

  /** The validation message for a submission, None when the update may be attempted. */
  function Validate(pwd: string, confirm: string): (err: Option<string>)
    ensures err.None? <==> |pwd| >= MinLength && pwd == confirm
    ensures |pwd| < MinLength ==> err == Some(TooShort)
    ensures |pwd| >= MinLength && pwd != confirm ==> err == Some(Mismatch)
  {
    if |pwd| < MinLength then Some(TooShort)
    else if pwd != confirm then Some(Mismatch)
    else None
  }

  class ResetPasswordPage {
    var ready: bool
    var loading: bool
    var done: bool
    var err: Option<string>
    var updateCalls: seq<string>   // passwords sent to updateUser, in order

    constructor ()
      ensures !ready && !loading && !done && err == None && updateCalls == []
    {
      ready, loading, done, err, updateCalls := false, false, false, None, [];
    }

    /** An auth state change event. */
    method OnAuthEvent(event: string)
      modifies this`ready
      ensures ready == (old(ready) || event == RecoveryEvent)
    {
      if event == RecoveryEvent {
        ready := true;
      }
    }

    /** `getSession()` resolved. */
    method OnSessionResolved()
      modifies this`ready
      ensures ready
    {
      ready := true;
    }

    /** Form submission: clears the error, validates, and starts the update when both checks pass. */
    method Submit(pwd: string, confirm: string) returns (requested: bool)
      modifies this`err, this`loading, this`updateCalls
      ensures requested <==> Validate(pwd, confirm).None?
      ensures err == Validate(pwd, confirm)
      ensures updateCalls == old(updateCalls) + (if requested then [pwd] else [])
      ensures loading == (requested || old(loading))
    {
      err := None;
      if |pwd| < MinLength {
        err := Some(TooShort);
        return false;
      }
      if pwd != confirm {
        err := Some(Mismatch);
        return false;
      }
      loading := true;
      updateCalls := updateCalls + [pwd];
      requested := true;
    }

    /** The update returned, with an error message or without one. */
    method OnUpdateResult(error: Option<string>)
      modifies this`loading, this`err, this`done
      ensures !loading
      ensures error.Some? ==> err == error && done == old(done)
      ensures error.None? ==> done && err == old(err)
    {
      loading := false;
      if error.Some? {
        err := error;
        return;
      }
      done := true;
    }
  }
}
