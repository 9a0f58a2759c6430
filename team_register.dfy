/**
 * The team registration screen: the one-field form, its validation and
 * the request it sends. Every team registers as a solo team with no
 * members; the server assigns everything else.
 */
module TeamRegister {
  import opened Wrappers
  import opened JsString
  import opened Forms

  const TeamNameField := "teamName"
  const NameRequiredMessage := "Team name is required"
  const RegisterFailedMessage := "Failed to register team"
  const ErrorSeparator := ", "

  /** The body of the registration request. */
  datatype RegistrationPayload = RegistrationPayload(teamName: string, teamSize: string, members: seq<string>)

  /** The request for a team name exactly as typed: a solo team with no members. */
  function PayloadFor(teamName: string): (p: RegistrationPayload)
    ensures p.teamName == teamName && p.teamSize == "Solo" && p.members == []
  {
    RegistrationPayload(teamName, "Solo", [])
  }

  /**
   * The message shown when registration fails: the server's message, else
   * its list of errors joined by commas, else the generic message. It is
   * never empty.
   */
  function FailureMessage(f: Failure): (r: string)
    ensures r != ""
    ensures Present(f.message) ==> r == f.message.value
    ensures !Present(f.message) && f.errors.Some? && f.errors.value !in {[], [""]} ==>
              r == Join(f.errors.value, ErrorSeparator)
    ensures !Present(f.message) && (f.errors.None? || f.errors.value in {[], [""]}) ==> r == RegisterFailedMessage
  {
    if Present(f.message) then f.message.value
    else
      var joined := if f.errors.Some? then Join(f.errors.value, ErrorSeparator) else "";
      JoinEmptyIff(if f.errors.Some? then f.errors.value else [], ErrorSeparator);
      if joined != "" then joined else RegisterFailedMessage
  }

  /** The registration screen's state. */
  class RegisterPage {
    var formData: map<string, string>
    var loading: bool
    var error: string

    /** The form always has its team-name field. */
    ghost predicate Valid()
      reads this
    {
      TeamNameField in formData
    }

    constructor ()
      ensures Valid() && formData == map[TeamNameField := ""] && !loading && error == ""
    {
      formData := map[TeamNameField := ""];
      loading := false;
      error := "";
    }

    /** handleChange: only the named field changes. */
    method HandleChange(name: string, value: string)
      requires Valid()
      modifies this`formData
      ensures Valid()
      ensures formData == SetField(old(formData), name, value)
    {
      formData := SetField(formData, name, value);
    }

    /** validateForm: a blank team name is refused with its message. */
    method ValidateForm() returns (ok: bool)
      requires Valid()
      modifies this`error
      ensures ok <==> !IsBlank(formData[TeamNameField])
      ensures !ok ==> error == NameRequiredMessage
      ensures ok ==> error == old(error)
    {
      if IsBlank(formData[TeamNameField]) {
        error := NameRequiredMessage;
        return false;
      }
      return true;
    }

    /**
     * handleSubmit. `failure` is the request's outcome (none when it
     * succeeds) and is read only when the request is made. The error is
     * cleared first and `loading` is false when the submit ends.
     */
    method Submit(failure: Option<Failure>) returns (req: Option<RegistrationPayload>)
      requires Valid()
      modifies this`loading, this`error
      ensures !loading
      ensures IsBlank(formData[TeamNameField]) ==> req.None? && error == NameRequiredMessage
      ensures !IsBlank(formData[TeamNameField]) ==>
                && req == Some(PayloadFor(formData[TeamNameField]))
                && error == (if failure.Some? then FailureMessage(failure.value) else "")
    {
      var name := formData[TeamNameField];
      ghost var blank := IsBlank(name);
      loading := true;
      error := "";
      var ok := ValidateForm();
      assert formData[TeamNameField] == name;
      assert ok == !blank;
      if !ok {
        loading := false;
        return None;
      }
      req := Some(PayloadFor(name));
      if failure.Some? {
        error := FailureMessage(failure.value);
      }
      loading := false;
    }
  }
}
