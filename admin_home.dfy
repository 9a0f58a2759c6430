/**
 * The administrator's registration table: the status filter and its
 * counts, the badge colour, which action buttons a row offers, the row
 * highlight, the list update after a status change, and the
 * change-password form.
 */
module AdminHome {
  import opened Wrappers
  import opened JsString
  import opened Seqs
  import opened Teams
  import opened Forms

  const All := "all"

  /**
   * getFilteredTeams: "all" shows the list unchanged; any other value
   * exactly the teams with that status, in order.
   */
  function FilteredTeams(ts: seq<Team>, statusFilter: string): (r: seq<Team>)
    ensures statusFilter == All ==> r == ts
    ensures IsSubsequence(r, ts)
    ensures statusFilter != All ==> forall t :: t in r <==> t in ts && StatusIs(t, statusFilter)
  {
    if statusFilter == All then
      SubsequenceReflexive(ts);
      ts
    else
      WithStatusSelects(ts, statusFilter);
      WithStatus(ts, statusFilter)
  }

  /** The number shown beside a filter option. */
  function OptionCount(ts: seq<Team>, option: string): nat {
    if option == All then |ts| else |WithStatus(ts, option)|
  }

  /**
   * Each option's count is the length of the list that option shows, none
   * exceeds the total, and the three status counts together do not either.
   */
  lemma OptionCountsConsistent(ts: seq<Team>, option: string)
    ensures OptionCount(ts, option) == |FilteredTeams(ts, option)|
    ensures OptionCount(ts, option) <= OptionCount(ts, All)
    ensures OptionCount(ts, Verified) + OptionCount(ts, Pending) + OptionCount(ts, Rejected) <= |ts|
  {
    StatusCountsBounded(ts, Verified, Pending, Rejected);
  }

  /** getStatusColor: each known status has a colour of its own. */
  function StatusColor(status: Option<string>): (color: string)
    ensures color == "bg-green-100 text-green-800" <==> status == Some(Verified)
    ensures color == "bg-red-100 text-red-800" <==> status == Some(Rejected)
    ensures color == "bg-yellow-100 text-yellow-800" <==> status == Some(Pending)
  {
    if status == Some(Verified) then "bg-green-100 text-green-800"
    else if status == Some(Rejected) then "bg-red-100 text-red-800"
    else if status == Some(Pending) then "bg-yellow-100 text-yellow-800"
    else "bg-gray-100 text-gray-800"
  }

  /** A status outside the three known ones, or none at all, is drawn grey. */
  lemma UnknownStatusIsGrey(status: Option<string>)
    requires status !in {Some(Verified), Some(Rejected), Some(Pending)}
    ensures StatusColor(status) == "bg-gray-100 text-gray-800"
  {
  }

  datatype Button = Hidden | Disabled | Enabled

  /**
   * The Verify button: offered exactly to teams that are not verified, and
   * enabled exactly when the evidence is complete and the row is idle.
   */
  function VerifyButton(t: Team, verifying: Option<string>): (b: Button)
    ensures b != Hidden <==> !StatusIs(t, Verified)
    ensures b == Enabled <==> !StatusIs(t, Verified) && CanVerify(t) && verifying != Some(t.id)
  {
    if StatusIs(t, Verified) then Hidden
    else if !CanVerify(t) || verifying == Some(t.id) then Disabled
    else Enabled
  }

  /** The Reject button: always shown, enabled exactly for a team not rejected on an idle row. */
  function RejectButton(t: Team, verifying: Option<string>): (b: Button)
    ensures b != Hidden
    ensures b == Enabled <==> !StatusIs(t, Rejected) && verifying != Some(t.id)
  {
    if StatusIs(t, Rejected) || verifying == Some(t.id) then Disabled else Enabled
  }

  /** The Pending button: always shown, enabled exactly for a team not pending on an idle row. */
  function PendingButton(t: Team, verifying: Option<string>): (b: Button)
    ensures b != Hidden
    ensures b == Enabled <==> !StatusIs(t, Pending) && verifying != Some(t.id)
  {
    if StatusIs(t, Pending) || verifying == Some(t.id) then Disabled else Enabled
  }

  /** While a row is being updated none of its buttons can be pressed. */
  lemma BusyRowIsLocked(t: Team)
    ensures VerifyButton(t, Some(t.id)) != Enabled
    ensures RejectButton(t, Some(t.id)) != Enabled
    ensures PendingButton(t, Some(t.id)) != Enabled
  {
  }

  /** No button re-applies the status a team already has. */
  lemma NoButtonRepeatsStatus(t: Team, verifying: Option<string>)
    ensures StatusIs(t, Verified) ==> VerifyButton(t, verifying) == Hidden
    ensures StatusIs(t, Rejected) ==> RejectButton(t, verifying) == Disabled
    ensures StatusIs(t, Pending) ==> PendingButton(t, verifying) == Disabled
  {
  }

  /** A row is tinted when the team is pending and its evidence is incomplete. */
  predicate RowHighlighted(t: Team)
    ensures RowHighlighted(t) <==>
              StatusIs(t, Pending)
              && (!Present(t.razorpayPaymentId) || !Present(t.paymentScreenshot) || !Present(t.idCard))
  {
    !CanVerify(t) && StatusIs(t, Pending)
  }

  /** A tinted row never offers an enabled Verify button. */
  lemma HighlightedRowCannotVerify(t: Team, verifying: Option<string>)
    requires RowHighlighted(t)
    ensures VerifyButton(t, verifying) == Disabled
  {
  }

  datatype PasswordForm = PasswordForm(currentPassword: string, newPassword: string, confirmPassword: string)

  /** Body of `PUT /admin/teams/:id/payment-status`. */
  datatype StatusRequest = StatusRequest(teamId: string, paymentStatus: string)

  const PasswordChangedMessage := "Password changed successfully"
  const PasswordChangeFailedMessage := "Failed to change password"

  /** The dashboard component's state. */
  class Dashboard {
    var teams: seq<Team>
    var statusFilter: string
    var verifying: Option<string>
    var passwordData: PasswordForm
    var passwordError: string
    var passwordSuccess: string

    constructor ()
      ensures teams == [] && statusFilter == All && verifying == None
      ensures passwordData == PasswordForm("", "", "")
      ensures passwordError == "" && passwordSuccess == ""
    {
      teams := [];
      statusFilter := All;
      verifying := None;
      passwordData := PasswordForm("", "", "");
      passwordError := "";
      passwordSuccess := "";
    }

    /** fetchData: the list is replaced by the server's. */
    method Load(serverTeams: seq<Team>)
      modifies this`teams
      ensures teams == serverTeams
    {
      teams := serverTeams;
    }

    /** The select's onChange. */
    method SetStatusFilter(value: string)
      modifies this`statusFilter
      ensures statusFilter == value
    {
      statusFilter := value;
    }

    /**
     * handlePaymentStatusChange up to its request: the row is marked busy.
     * `clicked` is the list of the render whose button was pressed; the
     * handler's closure keeps it until the response arrives.
     */
    method BeginStatusChange(teamId: string, newStatus: string) returns (req: StatusRequest, clicked: seq<Team>)
      modifies this`verifying
      ensures verifying == Some(teamId)
      ensures req == StatusRequest(teamId, newStatus)
      ensures clicked == teams
    {
      verifying := Some(teamId);
      req := StatusRequest(teamId, newStatus);
      clicked := teams;
    }

    /**
     * handlePaymentStatusChange after its request: on success the returned
     * team takes the place of every entry with that id in the list the
     * button was clicked on (not the list current when the response
     * arrives); on failure the list is kept. Either way no row is busy
     * afterwards.
     */
    method FinishStatusChange(teamId: string, clicked: seq<Team>, updated: Option<Team>)
      modifies this`teams, this`verifying
      ensures updated.Some? ==> teams == ReplaceById(clicked, teamId, updated.value)
      ensures updated.None? ==> teams == old(teams)
      ensures verifying == None
    {
      if updated.Some? {
        teams := ReplaceById(clicked, teamId, updated.value);
      }
      verifying := None;
    }

    /**
     * handlePasswordChange. `failure` is the outcome of the request (none
     * when it succeeds); it is read only if validation lets the request go.
     */
    method SubmitPasswordChange(failure: Option<Failure>) returns (req: Option<PasswordRequest>)
      modifies this`passwordData, this`passwordError, this`passwordSuccess
      ensures var check := NewPasswordError(old(passwordData).newPassword, old(passwordData).confirmPassword);
              && (req.None? <==> check.Some?)
              && (check.Some? ==> passwordError == check.value && passwordSuccess == ""
                                  && passwordData == old(passwordData))
      ensures req.Some? ==>
                req.value == PasswordRequest(old(passwordData).currentPassword, old(passwordData).newPassword)
      ensures req.Some? && failure.None? ==>
                passwordSuccess == PasswordChangedMessage && passwordError == ""
                && passwordData == PasswordForm("", "", "")
      ensures req.Some? && failure.Some? ==>
                passwordError == MessageOr(failure.value.message, PasswordChangeFailedMessage)
                && passwordSuccess == "" && passwordData == old(passwordData)
    {
      passwordError := "";
      passwordSuccess := "";
      if passwordData.newPassword != passwordData.confirmPassword {
        passwordError := MismatchMessage;
        return None;
      }
      if Utf16Length(passwordData.newPassword) < 6 {
        passwordError := TooShortMessage;
        return None;
      }
      req := Some(PasswordRequest(passwordData.currentPassword, passwordData.newPassword));
      if failure.None? {
        passwordSuccess := PasswordChangedMessage;
        passwordData := PasswordForm("", "", "");
      } else {
        passwordError := MessageOr(failure.value.message, PasswordChangeFailedMessage);
      }
    }
  }
}
