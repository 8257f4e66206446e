/**
 * The login form: role resolution and routing after a password sign-in,
 * with `handleLogin` split at its awaits into starting and finishing.
 */
module Login {
  import opened Wrappers

  const AdminPath: string := "/admin"
  const DashboardPath: string := "/dashboard"

  /** ASCII `toLowerCase` on one character. */
  function LowerChar(c: char): (r: char)
    ensures 'A' <= c <= 'Z' ==> 'a' <= r <= 'z' && r as int == c as int + 32
    ensures !('A' <= c <= 'Z') ==> r == c
  {
    if 'A' <= c <= 'Z' then (c as int - 'A' as int + 'a' as int) as char else c
  }

  /** `toLowerCase` on ASCII text. */
  function Lower(s: string): (r: string)
    ensures |r| == |s|
    ensures forall i :: 0 <= i < |s| ==> r[i] == LowerChar(s[i])
  {
    if s == [] then [] else [LowerChar(s[0])] + Lower(s[1..])
  }

  /** `x?.toLowerCase()` */
  function LowerOpt(s: Option<string>): (r: Option<string>)
    ensures r.Some? <==> s.Some?
  {
    if s.Some? then Some(Lower(s.value)) else None
  }

  /** `!role`: undefined or empty. */
  predicate Unresolved(role: Option<string>) {
    role.None? || role.value == ""
  }

  /**
   * The role after sign-in: a non-empty metadata role wins, lowercased, and
   * the profile is not consulted; a missing or empty one defers to the
   * lowercased profile role.
   */
  function ResolveRole(metadataRole: Option<string>, profileRole: Option<string>): (r: Option<string>)
    ensures metadataRole.Some? && metadataRole.value != "" ==> r == Some(Lower(metadataRole.value))
    ensures metadataRole.None? || metadataRole.value == "" ==> r == LowerOpt(profileRole)
  {
    var role := LowerOpt(metadataRole);
    if Unresolved(role) then LowerOpt(profileRole) else role
  }

  /** Where a resolved role navigates. */
  function Route(role: Option<string>): (path: string)
    ensures path == AdminPath <==> role == Some("admin")
    ensures path != AdminPath ==> path == DashboardPath
  {
    if role == Some("admin") then AdminPath else DashboardPath
  }

  /** Roles match case-insensitively: every ASCII casing of "admin" routes to the admin page. */
  lemma {:induction false} AdminAnyCase(role: string)
    requires |role| == 5
    requires forall i :: 0 <= i < 5 ==> LowerChar(role[i]) == "admin"[i]
    ensures Route(ResolveRole(Some(role), None)) == AdminPath
  {
    assert Lower(role) == "admin";
  }

  /** What the sign-in round trips returned. */
  datatype SignIn =
    | Threw(message: string)                 // an exception anywhere in the handler
    | SignInError(message: string)
    | NoUser
    | SignedIn(metadataRole: Option<string>, profileRole: Option<string>)
      // profileRole: what the profiles lookup yields, None also when it failed

  class LoginPage {
    var loading: bool
    var navigations: seq<string>
    var alerts: nat
    var profileLookups: nat

    constructor ()
      ensures !loading && navigations == [] && alerts == 0 && profileLookups == 0
    {
      loading, navigations, alerts, profileLookups := false, [], 0, 0;
    }

    /** The button click or Enter in the password field; both are ignored while a login is running. */
    method Trigger() returns (started: bool)
      modifies this`loading
      ensures started <==> !old(loading)
      ensures loading
    {
      started := !loading;
      loading := true;
    }

    /** A key press in the password field. */
    method OnPasswordKey(key: string) returns (started: bool)
      modifies this`loading
      ensures started <==> key == "Enter" && !old(loading)
      ensures loading == (old(loading) || started)
    {
      started := false;
      if key == "Enter" && !loading {
        started := Trigger();
      }
    }

    /** The rest of `handleLogin` once sign-in returned; `loading` is released on every path. */
    method Finish(outcome: SignIn)
      modifies this`loading, this`navigations, this`alerts, this`profileLookups
      ensures !loading
      ensures !outcome.SignedIn? ==> navigations == old(navigations) && alerts == old(alerts) + 1
      ensures outcome.SignedIn? ==>
        navigations == old(navigations) + [Route(ResolveRole(outcome.metadataRole, outcome.profileRole))]
        && alerts == old(alerts)
      ensures profileLookups == old(profileLookups) + (if outcome.SignedIn? && Unresolved(LowerOpt(outcome.metadataRole)) then 1 else 0)
    {
      match outcome {
        case SignedIn(metadataRole, profileRole) =>
          var role := LowerOpt(metadataRole);
          if Unresolved(role) {
            profileLookups := profileLookups + 1;
            role := LowerOpt(profileRole);
          }
          if role == Some("admin") {
            navigations := navigations + [AdminPath];
          } else {
            navigations := navigations + [DashboardPath];
          }
        case _ =>
          alerts := alerts + 1;
      }
      loading := false;
    }
  }
}
