/**
 * The venue check-in dashboard: it loads the verified teams, narrows them
 * by check-in state and by a free-text search, counts checked-in and
 * waiting teams, and toggles one team's check-in.
 */
module AdminCheckin {
  import opened Wrappers
  import opened JsString
  import opened Seqs
  import opened Teams

  const CheckedInFilter := "checkedin"
  const PendingFilter := "pending"

  /** fetchData keeps only the verified teams of the server's list. */
  function VerifiedOnly(serverTeams: seq<Team>): seq<Team> {
    WithStatus(serverTeams, Verified)
  }

  /** The loaded list holds all and only the verified teams, in server order. */
  lemma VerifiedOnlySelects(serverTeams: seq<Team>)
    ensures IsSubsequence(VerifiedOnly(serverTeams), serverTeams)
    ensures forall t :: t in VerifiedOnly(serverTeams) <==> t in serverTeams && StatusIs(t, Verified)
  {
    WithStatusSelects(serverTeams, Verified);
  }

  /** Whether the status step keeps a team. */
  predicate KeepsState(filterStatus: string, t: Team) {
    if filterStatus == CheckedInFilter then IsCheckedIn(t)
    else if filterStatus == PendingFilter then IsNotCheckedIn(t)
    else true
  }

  /**
   * The status step: "checkedin" keeps exactly the teams checked in,
   * "pending" exactly the others, anything else keeps all; order is kept.
   */
  function ByCheckInState(ts: seq<Team>, filterStatus: string): (r: seq<Team>)
    ensures IsSubsequence(r, ts)
    ensures forall t :: t in r <==> t in ts && KeepsState(filterStatus, t)
  {
    if filterStatus == CheckedInFilter then
      FilterIsSubsequence(ts, IsCheckedIn);
      FilterMembership(ts, IsCheckedIn);
      Filter(ts, IsCheckedIn)
    else if filterStatus == PendingFilter then
      FilterIsSubsequence(ts, IsNotCheckedIn);
      FilterMembership(ts, IsNotCheckedIn);
      Filter(ts, IsNotCheckedIn)
    else
      SubsequenceReflexive(ts);
      ts
  }

  /** The fields the search looks in: the ticket number when there is one, then four more. */
  function SearchedFields(t: Team): seq<string> {
    (if t.ticketNumber.Some? then [t.ticketNumber.value] else [])
    + [t.teamName, t.registrationNumber, t.leader.name, t.leader.email]
  }

  /**
   * The search test for a lowered query: it occurs in the lowered ticket
   * number (when there is one), team name, registration number, leader name
   * or leader email.
   */
  predicate MatchesQuery(t: Team, query: string)
    ensures MatchesQuery(t, query) <==> exists f :: f in SearchedFields(t) && Includes(ToLower(f), query)
  {
    var fs := SearchedFields(t);
    var k := if t.ticketNumber.Some? then 1 else 0;
    assert t.ticketNumber.Some? ==> t.ticketNumber.value in fs;
    assert fs[k..] == [t.teamName, t.registrationNumber, t.leader.name, t.leader.email];
    assert forall f :: f in fs <==> (t.ticketNumber.Some? && f == t.ticketNumber.value) || f in fs[k..];
    assert t.teamName in fs && t.registrationNumber in fs && t.leader.name in fs && t.leader.email in fs;
    || (t.ticketNumber.Some? && Includes(ToLower(t.ticketNumber.value), query))
    || Includes(ToLower(t.teamName), query)
    || Includes(ToLower(t.registrationNumber), query)
    || Includes(ToLower(t.leader.name), query)
    || Includes(ToLower(t.leader.email), query)
  }

  function Matches(query: string): Team -> bool {
    t => MatchesQuery(t, query)
  }

  /**
   * The search step: a blank query keeps all; otherwise the query is
   * lowered but not trimmed, and exactly the matching teams are kept, in
   * order.
   */
  function Search(ts: seq<Team>, searchQuery: string): (r: seq<Team>)
    ensures IsBlank(searchQuery) ==> r == ts
    ensures IsSubsequence(r, ts)
    ensures forall t :: t in r <==> t in ts && (IsBlank(searchQuery) || MatchesQuery(t, ToLower(searchQuery)))
  {
    if IsBlank(searchQuery) then
      SubsequenceReflexive(ts);
      ts
    else
      FilterIsSubsequence(ts, Matches(ToLower(searchQuery)));
      FilterMembership(ts, Matches(ToLower(searchQuery)));
      Filter(ts, Matches(ToLower(searchQuery)))
  }

  /**
   * What the dashboard lists: an order-preserving selection of the loaded
   * teams, holding a team exactly when it passes both the status step and
   * the search step.
   */
  function View(ts: seq<Team>, filterStatus: string, searchQuery: string): (r: seq<Team>)
    ensures IsSubsequence(r, ts)
    ensures forall t :: t in r <==>
              && t in ts
              && KeepsState(filterStatus, t)
              && (IsBlank(searchQuery) || MatchesQuery(t, ToLower(searchQuery)))
  {
    var narrowed := ByCheckInState(ts, filterStatus);
    var shown := Search(narrowed, searchQuery);
    SubsequenceTransitive(shown, narrowed, ts);
    shown
  }

  /** A text with no whitespace character. */
  predicate Unspaced(s: string) {
    forall i :: 0 <= i < |s| ==> !IsWhitespace(s[i])
  }

  /**
   * The query is trimmed only to decide whether to search, not for the
   * match itself: a query holding a space (a trailing one, say) finds no
   * team whose searched fields have none, although the trimmed query may.
   */
  lemma UntrimmedQueryMissesUnspacedTeam(t: Team, query: string, j: nat)
    requires !IsBlank(query) && j < |query| && IsWhitespace(query[j])
    requires t.ticketNumber.Some? ==> Unspaced(t.ticketNumber.value)
    requires Unspaced(t.teamName) && Unspaced(t.registrationNumber)
    requires Unspaced(t.leader.name) && Unspaced(t.leader.email)
    ensures Search([t], query) == []
  {
    var q := ToLower(query);
    ToLowerKeepsWhitespace(query);
    assert IsWhitespace(q[j]);
    forall s | s in {t.teamName, t.registrationNumber, t.leader.name, t.leader.email}
                 || (t.ticketNumber.Some? && s == t.ticketNumber.value)
      ensures !Includes(ToLower(s), q)
    {
      ToLowerKeepsWhitespace(s);
      NoWhitespaceExcludes(ToLower(s), q, j);
    }
    assert !MatchesQuery(t, q);
    assert Filter([t], Matches(q)) == Filter([t][1..], Matches(q));
  }

  /** "Checked In (n)" */
  function CheckedInCount(ts: seq<Team>): nat {
    |Filter(ts, IsCheckedIn)|
  }

  /** "Not Checked In (n)" */
  function NotCheckedInCount(ts: seq<Team>): nat {
    |Filter(ts, IsNotCheckedIn)|
  }

  /**
   * The two counts split the list, and each equals the length of the list
   * its option shows while the query is blank.
   */
  lemma CountsPartition(ts: seq<Team>, blankQuery: string)
    requires IsBlank(blankQuery)
    ensures CheckedInCount(ts) + NotCheckedInCount(ts) == |ts|
    ensures CheckedInCount(ts) == |View(ts, CheckedInFilter, blankQuery)|
    ensures NotCheckedInCount(ts) == |View(ts, PendingFilter, blankQuery)|
  {
    FilterPartition(ts, IsCheckedIn, IsNotCheckedIn);
  }

  /** Body of `PUT /admin/teams/:id/checkin`. */
  datatype CheckInUpdate = CheckInUpdate(teamId: string, checkedIn: bool, checkinTime: string)

  /** The request asks for the opposite of the state the button showed. */
  function ToggleRequest(teamId: string, currentStatus: Option<bool>, now: string): (r: CheckInUpdate)
    ensures r.teamId == teamId && r.checkinTime == now
    ensures r.checkedIn <==> currentStatus != Some(true)
  {
    CheckInUpdate(teamId, !(currentStatus == Some(true)), now)
  }

  /** The dashboard shows the "checked in at" line only for a team with `checkinTime`. */
  predicate ShowsCheckinTime(t: Team) {
    IsCheckedIn(t) && Present(t.checkinTime)
  }

  /** A checked-in team that carries only the scanner's `checkInTime` shows no time here. */
  lemma CheckInTimeSpellingIgnored(t: Team)
    requires IsCheckedIn(t) && Present(t.checkInTime) && t.checkinTime.None?
    ensures !ShowsCheckinTime(t)
  {
  }

  /** The dashboard component's state. */
  class CheckinDashboard {
    var teams: seq<Team>
    var filteredTeams: seq<Team>
    var searchQuery: string
    var filterStatus: string
    var checking: Option<string>

    /** The list on screen always reflects the current list, filter and query. */
    ghost predicate Valid()
      reads this
    {
      filteredTeams == View(teams, filterStatus, searchQuery)
    }

    constructor ()
      ensures Valid()
      ensures teams == [] && searchQuery == "" && filterStatus == "all" && checking == None
    {
      teams := [];
      filteredTeams := [];
      searchQuery := "";
      filterStatus := "all";
      checking := None;
      assert IsBlank("");
    }

    /** filterAndSearchTeams, narrowing a local copy step by step. */
    method FilterAndSearchTeams()
      modifies this`filteredTeams
      ensures Valid()
    {
      var filtered := teams;
      if filterStatus == CheckedInFilter {
        filtered := Filter(filtered, IsCheckedIn);
      } else if filterStatus == PendingFilter {
        filtered := Filter(filtered, IsNotCheckedIn);
      }
      if !IsBlank(searchQuery) {
        var query := ToLower(searchQuery);
        filtered := Filter(filtered, Matches(query));
      }
      filteredTeams := filtered;
    }

    /** fetchData: keep the verified teams, then the effect re-filters. */
    method Load(serverTeams: seq<Team>)
      modifies this`teams, this`filteredTeams
      ensures teams == VerifiedOnly(serverTeams)
      ensures Valid()
    {
      var verifiedTeams := VerifiedOnly(serverTeams);
      teams := verifiedTeams;
      filteredTeams := verifiedTeams;
      assert teams == VerifiedOnly(serverTeams);
      FilterAndSearchTeams();
      assert teams == VerifiedOnly(serverTeams);
    }

    /** Typing in the search box, followed by the effect. */
    method SetSearchQuery(q: string)
      modifies this`searchQuery, this`filteredTeams
      ensures searchQuery == q && Valid()
    {
      searchQuery := q;
      FilterAndSearchTeams();
    }

    /** Choosing a status option, followed by the effect. */
    method SetFilterStatus(f: string)
      modifies this`filterStatus, this`filteredTeams
      ensures filterStatus == f && Valid()
    {
      filterStatus := f;
      FilterAndSearchTeams();
    }

    /**
     * handleCheckIn up to its request: the row is marked busy. `clicked` is
     * the list of the render whose button was pressed, kept by the closure.
     */
    method BeginCheckIn(teamId: string, currentStatus: Option<bool>, now: string)
      returns (req: CheckInUpdate, clicked: seq<Team>)
      modifies this`checking
      ensures checking == Some(teamId)
      ensures req == ToggleRequest(teamId, currentStatus, now)
      ensures clicked == teams
    {
      checking := Some(teamId);
      req := CheckInUpdate(teamId, !(currentStatus == Some(true)), now);
      clicked := teams;
    }

    /**
     * handleCheckIn after its request: on success the returned team replaces
     * the entry with that id in the list the button was clicked on, and the
     * effect re-filters; no row is busy afterwards.
     */
    method FinishCheckIn(teamId: string, clicked: seq<Team>, updated: Option<Team>)
      requires Valid()
      modifies this`teams, this`filteredTeams, this`checking
      ensures updated.Some? ==> teams == ReplaceById(clicked, teamId, updated.value)
      ensures updated.None? ==> teams == old(teams)
      ensures checking == None && Valid()
    {
      if updated.Some? {
        teams := ReplaceById(clicked, teamId, updated.value);
        FilterAndSearchTeams();
      }
      checking := None;
    }
  }
}
