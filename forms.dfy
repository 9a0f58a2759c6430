/**
 * Form plumbing shared by several screens: the `{...form, [name]: value}`
 * update of a change handler, the new-password check that two screens
 * repeat word for word, and the message shown when a request fails.
 */
module Forms {
  import opened Wrappers
  import opened JsString

  /** `{...form, [name]: value}`: that field is set and nothing else changes. */
  function SetField(form: map<string, string>, name: string, value: string): (r: map<string, string>)
    ensures r.Keys == form.Keys + {name}
    ensures r[name] == value
    ensures forall k :: k in form && k != name ==> r[k] == form[k]
  {
    form[name := value]
  }

  /** A form field, empty (falsy) when the form lacks it. */
  function Field(form: map<string, string>, name: string): string {
    if name in form then form[name] else ""
  }

  const MismatchMessage := "New passwords do not match"
  const TooShortMessage := "New password must be at least 6 characters long"
  const MinPasswordLength := 6

  /**
   * The message that stops a password change, or none. The mismatch is
   * reported first, so a short mismatched pair reports the mismatch.
   */
  function NewPasswordError(newPassword: string, confirmPassword: string): (r: Option<string>)
    ensures r == Some(MismatchMessage) <==> newPassword != confirmPassword
    ensures r == Some(TooShortMessage) <==>
              newPassword == confirmPassword && Utf16Length(newPassword) < MinPasswordLength
    ensures r == None <==> newPassword == confirmPassword && Utf16Length(newPassword) >= MinPasswordLength
  {
    if newPassword != confirmPassword then Some(MismatchMessage)
    else if Utf16Length(newPassword) < MinPasswordLength then Some(TooShortMessage)
    else None
  }

  /** Body of a password-change request. */
  datatype PasswordRequest = PasswordRequest(currentPassword: string, newPassword: string)

  /** `error.response?.data`: the server's message and list of errors, when it sent them. */
  datatype Failure = Failure(message: Option<string>, errors: Option<seq<string>>)

  /**
   * `message || fallback`: the server's message when it sent a non-empty
   * one, else the fallback, so the message shown is never empty.
   */
  function MessageOr(message: Option<string>, fallback: string): (r: string)
    ensures Present(message) ==> r == message.value
    ensures !Present(message) ==> r == fallback
    ensures fallback != "" ==> r != ""
  {
    if Present(message) then message.value else fallback
  }
}
