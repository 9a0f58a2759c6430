/**
 * The participant's profile screen: the registration progress bar, the
 * status badge, the profile and password forms and the warning shown
 * while the profile is incomplete.
 */
module Profile {
  import opened Wrappers
  import opened JsString
  import opened Teams
  import opened Forms

  /**
   * The progress of a registration, read as the highest rung whose
   * evidence holds: verified 100, both documents 75, a payment id 50,
   * registered 25, no team 0.
   */
  function ProgressOf(team: Option<Team>): (progress: nat)
    ensures progress in {0, 25, 50, 75, 100}
    ensures progress == 0 <==> team.None?
    ensures progress == 100 <==> team.Some? && StatusIs(team.value, Verified)
  {
    if team.None? then 0
    else if StatusIs(team.value, Verified) then 100
    else if Present(team.value.paymentScreenshot) && Present(team.value.idCard) then 75
    else if Present(team.value.razorpayPaymentId) then 50
    else 25
  }

  /** getRegistrationProgress: each later test that holds overwrites the value set before it. */
  method RegistrationProgress(team: Option<Team>) returns (progress: nat)
    ensures progress == ProgressOf(team)
  {
    if team.None? {
      return 0;
    }
    var t := team.value;
    progress := 25;
    if Present(t.razorpayPaymentId) {
      progress := 50;
    }
    if Present(t.paymentScreenshot) && Present(t.idCard) {
      progress := 75;
    }
    if StatusIs(t, Verified) {
      progress := 100;
    }
  }

  /** Both documents give 75 even when no payment id was recorded. */
  lemma DocumentsOutrankPayment(t: Team)
    requires !StatusIs(t, Verified) && Present(t.paymentScreenshot) && Present(t.idCard)
    ensures ProgressOf(Some(t)) == 75
  {
  }

  /** So 75% can be shown for a team with no payment id. */
  lemma SeventyFiveWithoutPaymentId()
    ensures exists t: Team :: ProgressOf(Some(t)) == 75 && !Present(t.razorpayPaymentId)
  {
    var t := Team("t", "n", "r", None, Leader("l", "e", None), None, Some("s"), Some("i"),
                  None, None, Some(Pending), None, None, None);
    assert ProgressOf(Some(t)) == 75;
  }

  /** A team the admin could verify is at 75 or more. */
  lemma VerifiableTeamAtLeast75(t: Team)
    requires CanVerify(t)
    ensures ProgressOf(Some(t)) >= 75
  {
  }

  /** Each fact the ladder tests that holds of `a` also holds of `b`. */
  predicate NoLessEvidence(a: Team, b: Team) {
    && (Present(a.razorpayPaymentId) ==> Present(b.razorpayPaymentId))
    && (Present(a.paymentScreenshot) ==> Present(b.paymentScreenshot))
    && (Present(a.idCard) ==> Present(b.idCard))
    && (StatusIs(a, Verified) ==> StatusIs(b, Verified))
  }

  /** Progress never goes down as evidence is added. */
  lemma ProgressMonotone(a: Team, b: Team)
    requires NoLessEvidence(a, b)
    ensures ProgressOf(Some(a)) <= ProgressOf(Some(b))
  {
  }

  datatype Badge = Badge(background: string, foreground: string, caption: string)

  /** The verified label ends in a check mark stored as the three characters U+201A U+00FA U+00EC. */
  const VerifiedBadge := Badge("bg-green-100", "text-green-800", "Verified \U{201A}\U{00FA}\U{00EC}")
  const PendingBadge := Badge("bg-yellow-100", "text-yellow-800", "Pending Review")
  const RejectedBadge := Badge("bg-red-100", "text-red-800", "Rejected")

  /** getStatusBadge: the three known statuses, and the pending badge for anything else. */
  function StatusBadge(status: Option<string>): (b: Badge)
    ensures b == VerifiedBadge <==> status == Some(Verified)
    ensures b == RejectedBadge <==> status == Some(Rejected)
    ensures b == PendingBadge <==> status != Some(Verified) && status != Some(Rejected)
  {
    if status == Some(Verified) then VerifiedBadge
    else if status == Some(Pending) then PendingBadge
    else if status == Some(Rejected) then RejectedBadge
    else PendingBadge
  }

  const ProfileFields: seq<string> := ["name", "phone", "university", "course", "year"]
  const PasswordFields: seq<string> := ["currentPassword", "newPassword", "confirmPassword"]

  /** The completion warning: some profile field is empty. */
  predicate ProfileIncomplete(form: map<string, string>) {
    Field(form, "name") == "" || Field(form, "phone") == "" || Field(form, "university") == ""
    || Field(form, "course") == "" || Field(form, "year") == ""
  }

  /** The warning shows exactly when one of the listed profile fields is empty or missing. */
  lemma IncompleteIffSomeFieldEmpty(form: map<string, string>)
    ensures ProfileIncomplete(form) <==> exists i :: 0 <= i < |ProfileFields| && Field(form, ProfileFields[i]) == ""
  {
    if ProfileIncomplete(form) {
      var i := if Field(form, "name") == "" then 0
               else if Field(form, "phone") == "" then 1
               else if Field(form, "university") == "" then 2
               else if Field(form, "course") == "" then 3
               else 4;
      assert Field(form, ProfileFields[i]) == "";
    }
  }

  /** A form whose listed fields are all the empty string. */
  function EmptyForm(fields: seq<string>): (r: map<string, string>)
    ensures r.Keys == set i | 0 <= i < |fields| :: fields[i]
    ensures forall k :: k in r ==> r[k] == ""
  {
    if fields == [] then map[] else EmptyForm(fields[1..])[fields[0] := ""]
  }

  /** The signed-in user as the auth context holds it; any detail may be missing. */
  datatype User = User(name: Option<string>, phone: Option<string>, university: Option<string>,
                       course: Option<string>, year: Option<string>)

  /**
   * The profile form the user effect builds: the five listed fields, each
   * the user's value when it is truthy and empty otherwise.
   */
  function UserForm(u: User): (form: map<string, string>)
    ensures form.Keys == {"name", "phone", "university", "course", "year"}
    ensures form["name"] == if Present(u.name) then u.name.value else ""
    ensures form["phone"] == if Present(u.phone) then u.phone.value else ""
    ensures form["university"] == if Present(u.university) then u.university.value else ""
    ensures form["course"] == if Present(u.course) then u.course.value else ""
    ensures form["year"] == if Present(u.year) then u.year.value else ""
    ensures ProfileIncomplete(form) <==>
              !(Present(u.name) && Present(u.phone) && Present(u.university) && Present(u.course) && Present(u.year))
  {
    map["name" := u.name.GetOr(""), "phone" := u.phone.GetOr(""),
        "university" := u.university.GetOr(""), "course" := u.course.GetOr(""),
        "year" := u.year.GetOr("")]
  }

  /** What the profile request comes back with. */
  datatype ProfileOutcome =
    | Saved(user: Option<User>)   // `response.data.user`, possibly absent
    | Refused(failure: Failure)

  const PasswordChangedMessage := "Password changed successfully!"
  const PasswordChangeFailedMessage := "Failed to change password"
  const ProfileUpdatedMessage := "Profile updated successfully!"
  const ProfileUpdateFailedMessage := "Failed to update profile"

  /** The profile screen's form state. */
  class ProfilePage {
    var user: Option<User>
    var profileData: map<string, string>
    var passwordData: map<string, string>
    var loading: bool
    var error: string
    var success: string

    /** Both forms keep every field they start with. */
    ghost predicate Valid()
      reads this`profileData, this`passwordData
    {
      && "name" in profileData && "phone" in profileData && "university" in profileData
      && "course" in profileData && "year" in profileData
      && "currentPassword" in passwordData && "newPassword" in passwordData && "confirmPassword" in passwordData
    }

    /** The forms start empty; `signedIn` is the auth context's user, copied in by UserEffect. */
    constructor (signedIn: Option<User>)
      ensures Valid()
      ensures user == signedIn
      ensures profileData == EmptyForm(ProfileFields) && passwordData == EmptyForm(PasswordFields)
      ensures !loading && error == "" && success == ""
    {
      user := signedIn;
      profileData := EmptyForm(ProfileFields);
      passwordData := EmptyForm(PasswordFields);
      loading := false;
      error := "";
      success := "";
    }

    /**
     * The effect that runs on mount and whenever the user changes: with a
     * user, the profile form is rebuilt from it; without one it is kept.
     */
    method UserEffect()
      requires Valid()
      modifies this`profileData
      ensures Valid()
      ensures user.Some? ==> profileData == UserForm(user.value)
      ensures user.None? ==> profileData == old(profileData)
    {
      if user.Some? {
        profileData := UserForm(user.value);
      }
    }

    /** handleProfileChange: only the named field changes. */
    method ChangeProfileField(name: string, value: string)
      requires Valid()
      modifies this`profileData
      ensures Valid()
      ensures profileData == SetField(old(profileData), name, value)
    {
      profileData := SetField(profileData, name, value);
    }

    /** handlePasswordChange: only the named field changes. */
    method ChangePasswordField(name: string, value: string)
      requires Valid()
      modifies this`passwordData
      ensures Valid()
      ensures passwordData == SetField(old(passwordData), name, value)
    {
      passwordData := SetField(passwordData, name, value);
    }

    /**
     * handleProfileSubmit: the whole profile form is sent. On success the
     * returned user replaces the auth context's user, the user effect runs
     * again, and the success message shows; on failure the server's message
     * (or the fallback) shows and the user and form are kept.
     */
    method SubmitProfile(outcome: ProfileOutcome) returns (req: map<string, string>)
      requires Valid()
      modifies this`user, this`profileData, this`loading, this`error, this`success
      ensures Valid()
      ensures req == old(profileData)
      ensures outcome.Saved? ==> user == outcome.user && success == ProfileUpdatedMessage && error == ""
      ensures outcome.Saved? && outcome.user.Some? ==> profileData == UserForm(outcome.user.value)
      ensures outcome.Saved? && outcome.user.None? ==> profileData == old(profileData)
      ensures outcome.Refused? ==>
                user == old(user) && profileData == old(profileData)
                && error == MessageOr(outcome.failure.message, ProfileUpdateFailedMessage) && success == ""
      ensures !loading
    {
      loading := true;
      error := "";
      success := "";
      req := profileData;
      if outcome.Saved? {
        user := outcome.user;
        UserEffect();
        success := ProfileUpdatedMessage;
      } else {
        error := MessageOr(outcome.failure.message, ProfileUpdateFailedMessage);
      }
      loading := false;
    }

    /**
     * handlePasswordSubmit. A rejected form sends nothing and keeps its
     * fields; `failure` is the request's outcome and is read only when the
     * request is made. Every path ends with `loading` false.
     */
    method SubmitPassword(failure: Option<Failure>) returns (req: Option<PasswordRequest>)
      requires Valid()
      modifies this`passwordData, this`loading, this`error, this`success
      ensures Valid()
      ensures !loading
      ensures var check := NewPasswordError(Field(old(passwordData), "newPassword"),
                                            Field(old(passwordData), "confirmPassword"));
              && (req.None? <==> check.Some?)
              && (check.Some? ==> error == check.value && success == "" && passwordData == old(passwordData))
      ensures req.Some? ==>
                req.value == PasswordRequest(Field(old(passwordData), "currentPassword"),
                                             Field(old(passwordData), "newPassword"))
      ensures req.Some? && failure.None? ==>
                success == PasswordChangedMessage && error == "" && passwordData == EmptyForm(PasswordFields)
      ensures req.Some? && failure.Some? ==>
                error == MessageOr(failure.value.message, PasswordChangeFailedMessage)
                && success == "" && passwordData == old(passwordData)
    {
      loading := true;
      error := "";
      success := "";
      if passwordData["newPassword"] != passwordData["confirmPassword"] {
        error := MismatchMessage;
        loading := false;
        return None;
      }
      if Utf16Length(passwordData["newPassword"]) < MinPasswordLength {
        error := TooShortMessage;
        loading := false;
        return None;
      }
      req := Some(PasswordRequest(passwordData["currentPassword"], passwordData["newPassword"]));
      if failure.None? {
        success := PasswordChangedMessage;
        passwordData := EmptyForm(PasswordFields);
      } else {
        error := MessageOr(failure.value.message, PasswordChangeFailedMessage);
      }
      loading := false;
    }
  }
}
