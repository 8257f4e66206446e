/** The student sign-up form: required fields, the full name, the metadata and the outcome. */
module Signup {
  import opened Wrappers

  const EnterClassPath: string := "/enter-class"
  const StudentRole: string := "student"

  datatype Form = Form(firstName: string, lastName: string, email: string, password: string)

  /** The user metadata sent with `signUp`. */
  datatype Metadata = Metadata(name: string, firstName: string, lastName: string, role: string)

  datatype Request = Request(email: string, password: string, data: Metadata)

  /** What `signUp` returned. */
  datatype Response = Failed(message: string) | NoSession | WithSession

  datatype Outcome = MissingFields | SignupFailed(message: string) | CheckEmail | Navigate(path: string)

  /** The whitespace `String.prototype.trim` removes (ASCII part). */
  predicate IsSpace(c: char) {
    c == ' ' || c == '\t' || c == '\n' || c == '\r' || c == '\U{000B}' || c == '\U{000C}'
  }

  function TrimStart(s: string): (r: string)
    ensures |r| <= |s| && r == s[|s| - |r|..]
    ensures r == [] || !IsSpace(r[0])
    ensures forall i :: 0 <= i < |s| - |r| ==> IsSpace(s[i])
  {
    if s != [] && IsSpace(s[0]) then TrimStart(s[1..]) else s
  }

  function TrimEnd(s: string): (r: string)
    ensures |r| <= |s| && r == s[..|r|]
    ensures r == [] || !IsSpace(r[|r| - 1])
    ensures forall i :: |r| <= i < |s| ==> IsSpace(s[i])
  {
    if s != [] && IsSpace(s[|s| - 1]) then TrimEnd(s[..|s| - 1]) else s
  }

  /** `s.trim()` */
  function Trim(s: string): string {
    TrimEnd(TrimStart(s))
  }

  /**
   * `${firstName} ${lastName}`.trim(): no surrounding whitespace, and the
   * plain join when the names carry none at their outer ends.
   */
  function FullName(firstName: string, lastName: string): (r: string)
    ensures r == [] || (!IsSpace(r[0]) && !IsSpace(r[|r| - 1]))
    ensures firstName != [] && lastName != [] && !IsSpace(firstName[0]) && !IsSpace(lastName[|lastName| - 1]) ==>
      r == firstName + " " + lastName
  {
    Trim(firstName + " " + lastName)
  }

  /** The request `handleSignup` sends, or None when a field is empty. */
  function Prepare(f: Form): (r: Option<Request>)
    ensures r.None? <==> f.firstName == "" || f.lastName == "" || f.email == "" || f.password == ""
    ensures r.Some? ==> r.value.email == f.email && r.value.password == f.password
    ensures r.Some? ==> r.value.data == Metadata(FullName(f.firstName, f.lastName), f.firstName, f.lastName, StudentRole)
  {
    if f.firstName == "" || f.lastName == "" || f.email == "" || f.password == "" then None
    else Some(Request(f.email, f.password, Metadata(FullName(f.firstName, f.lastName), f.firstName, f.lastName, StudentRole)))
  }

  /** The whole handler: `response` is what `signUp` returns when it is called. */
  function HandleSignup(f: Form, response: Response): (o: Outcome)
    ensures o.Navigate? <==> Prepare(f).Some? && response.WithSession?
    ensures o.Navigate? ==> o.path == EnterClassPath
    ensures o == MissingFields <==> Prepare(f).None?
  {
    if Prepare(f).None? then MissingFields
    else match response
      case Failed(m) => SignupFailed(m)
      case NoSession => CheckEmail
      case WithSession => Navigate(EnterClassPath)
  }

  /** Fields of whitespace only pass the required-field check. */
  lemma BlankFieldsPass()
    ensures Prepare(Form(" ", " ", " ", " ")).Some?
    ensures FullName(" ", " ") == ""
  {
    assert TrimStart(" " + " " + " ") == [];
  }
}
