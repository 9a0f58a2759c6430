/**
 * The team record as the screens receive it from the server, the
 * predicates several screens evaluate on it, and the list update they
 * apply after the server returns a changed team.
 */
module Teams {
  import opened Wrappers
  import opened JsString
  import opened Seqs

  datatype Leader = Leader(name: string, email: string, phone: Option<string>)

  /**
   * Every field the screens read. Optional fields are missing or empty
   * until the participant or the server fills them. The check-in time
   * appears under two spellings: `checkInTime` (read by the scanner) and
   * `checkinTime` (read by the check-in dashboard).
   */
  datatype Team = Team(
    id: string,
    teamName: string,
    registrationNumber: string,
    teamSize: Option<string>,
    leader: Leader,
    razorpayPaymentId: Option<string>,
    paymentScreenshot: Option<string>,
    idCard: Option<string>,
    qrCode: Option<string>,
    ticketNumber: Option<string>,
    paymentStatus: Option<string>,
    checkedIn: Option<bool>,
    checkInTime: Option<string>,
    checkinTime: Option<string>)

  const Verified := "verified"
  const Pending := "pending"
  const Rejected := "rejected"

  /** `team.paymentStatus === status` */
  predicate StatusIs(t: Team, status: string) {
    t.paymentStatus == Some(status)
  }

  /** `status => team => team.paymentStatus === status`, as one function value. */
  function HasStatus(status: string): Team -> bool {
    t => StatusIs(t, status)
  }

  /** canVerify: payment reference, payment screenshot and ID card are all there and non-empty. */
  predicate CanVerify(t: Team)
    ensures CanVerify(t) <==>
              && t.razorpayPaymentId !in {None, Some("")}
              && t.paymentScreenshot !in {None, Some("")}
              && t.idCard !in {None, Some("")}
  {
    Present(t.razorpayPaymentId) && Present(t.paymentScreenshot) && Present(t.idCard)
  }

  /** `team.checkedIn` is truthy, which for a boolean field is `=== true`. */
  predicate IsCheckedIn(t: Team) {
    t.checkedIn == Some(true)
  }

  predicate IsNotCheckedIn(t: Team) {
    !IsCheckedIn(t)
  }

  /** `teams.filter(t => t.paymentStatus === status)` */
  function WithStatus(ts: seq<Team>, status: string): seq<Team> {
    Filter(ts, HasStatus(status))
  }

  /** Exactly the teams with that status, in their original order. */
  lemma WithStatusSelects(ts: seq<Team>, status: string)
    ensures IsSubsequence(WithStatus(ts, status), ts)
    ensures forall t :: t in WithStatus(ts, status) <==> t in ts && StatusIs(t, status)
    ensures |WithStatus(ts, status)| <= |ts|
  {
    FilterIsSubsequence(ts, HasStatus(status));
    FilterMembership(ts, HasStatus(status));
  }

  /** The counts of three different statuses add up to at most the number of teams. */
  lemma StatusCountsBounded(ts: seq<Team>, a: string, b: string, c: string)
    requires a != b && a != c && b != c
    ensures |WithStatus(ts, a)| + |WithStatus(ts, b)| + |WithStatus(ts, c)| <= |ts|
  {
    FilterExclusiveBound(ts, HasStatus(a), HasStatus(b), HasStatus(c));
  }

  /**
   * `teams.map(team => team._id === id ? updated : team)`: every entry with
   * that id becomes `updated`, every other entry and the length are kept.
   */
  function ReplaceById(ts: seq<Team>, id: string, updated: Team): (r: seq<Team>)
    ensures |r| == |ts|
    ensures forall i :: 0 <= i < |ts| ==> r[i] == (if ts[i].id == id then updated else ts[i])
  {
    if ts == [] then []
    else [if ts[0].id == id then updated else ts[0]] + ReplaceById(ts[1..], id, updated)
  }

  /** No two entries share an id. */
  ghost predicate UniqueIds(ts: seq<Team>) {
    forall i, j :: 0 <= i < j < |ts| ==> ts[i].id != ts[j].id
  }

  /** With unique ids, replacing the entry at `k` by id changes only position `k`. */
  lemma ReplaceUniqueChangesOne(ts: seq<Team>, k: nat, updated: Team)
    requires UniqueIds(ts) && k < |ts|
    ensures ReplaceById(ts, ts[k].id, updated) == ts[k := updated]
  {
  }

  /** An id that no entry carries leaves the list as it was. */
  lemma ReplaceAbsentId(ts: seq<Team>, id: string, updated: Team)
    requires forall i :: 0 <= i < |ts| ==> ts[i].id != id
    ensures ReplaceById(ts, id, updated) == ts
  {
  }

  /**
   * Two updates started from the same list: the second, applied to that
   * list, puts back the first team's old entry, so the first update is lost.
   */
  lemma SnapshotReplaceLosesEarlierUpdate(ts: seq<Team>, k: nat, l: nat, first: Team, second: Team)
    requires UniqueIds(ts) && k < |ts| && l < |ts| && k != l
    ensures ReplaceById(ts, ts[k].id, first)[k] == first
    ensures ReplaceById(ts, ts[l].id, second)[k] == ts[k]
  {
    ReplaceUniqueChangesOne(ts, k, first);
    ReplaceUniqueChangesOne(ts, l, second);
  }
}
