/**
 * The payment dialog: the fee it quotes, the transaction-id check and
 * the hand-off of the typed id to the page that opened it.
 */
module PaymentModal {
  import opened Wrappers
  import opened JsString
  import TeamDetails

  /** PAYMENT_AMOUNT: 500 for a solo team, 800 for a duo, 1200 for every other or missing size. */
  function PaymentAmount(size: Option<string>): (amount: nat)
    ensures size == Some(TeamDetails.Solo) ==> amount == 500
    ensures size == Some(TeamDetails.Duo) ==> amount == 800
    ensures size != Some(TeamDetails.Solo) && size != Some(TeamDetails.Duo) ==> amount == 1200
  {
    if size == Some(TeamDetails.Solo) then 500 else if size == Some(TeamDetails.Duo) then 800 else 1200
  }

  /** The dialog and the team page quote the same fee for each of the three sizes the page lists. */
  lemma FeesAgreeOnListedSizes(size: Option<string>)
    requires size in {Some(TeamDetails.Solo), Some(TeamDetails.Duo), Some(TeamDetails.TeamSize)}
    ensures PaymentAmount(size) == TeamDetails.PaymentAmount(size)
  {
  }

  /** For any other or missing size the dialog asks 1200 while the team page shows 500. */
  lemma FeesDisagreeElsewhere(size: Option<string>)
    requires size !in {Some(TeamDetails.Solo), Some(TeamDetails.Duo), Some(TeamDetails.TeamSize)}
    ensures PaymentAmount(size) == 1200 && TeamDetails.PaymentAmount(size) == 500
  {
  }

  /** The two fee lookups agree exactly on the listed sizes. */
  lemma FeesAgreeIffListed(size: Option<string>)
    ensures PaymentAmount(size) == TeamDetails.PaymentAmount(size) <==>
              size in {Some(TeamDetails.Solo), Some(TeamDetails.Duo), Some(TeamDetails.TeamSize)}
  {
    if size in {Some(TeamDetails.Solo), Some(TeamDetails.Duo), Some(TeamDetails.TeamSize)} {
      FeesAgreeOnListedSizes(size);
    } else {
      FeesDisagreeElsewhere(size);
    }
  }

  /**
   * The submit button's enabled state: idle, and some typed character is
   * not whitespace.
   */
  predicate SubmitEnabled(loading: bool, transactionId: string)
    ensures SubmitEnabled(loading, transactionId) <==>
              !loading && exists i :: 0 <= i < |transactionId| && !IsWhitespace(transactionId[i])
  {
    BlankIffAllWhitespace(transactionId);
    !(loading || IsBlank(transactionId))
  }

  /** What the dialog passes to `onSuccess`: the id exactly as typed and the fee. */
  datatype PaymentSubmission = PaymentSubmission(transactionId: string, amount: nat)

  const MissingIdMessage := "Please enter transaction ID"
  const SubmitFailedMessage := "Failed to submit transaction ID"

  /** The dialog's state. */
  class PaymentForm {
    const teamSize: Option<string>
    var transactionId: string
    var error: string
    var loading: bool

    constructor (size: Option<string>)
      ensures teamSize == size && transactionId == "" && error == "" && !loading
    {
      teamSize := size;
      transactionId := "";
      error := "";
      loading := false;
    }

    /** The text box's onChange. */
    method SetTransactionId(text: string)
      modifies this`transactionId
      ensures transactionId == text
    {
      transactionId := text;
    }

    /**
     * handleSubmit. `callbackThrows` says whether `onSuccess` throws.
     * A blank id calls nothing; otherwise `onSuccess` is called once and
     * `loading` ends false. The handler does not itself look at `loading`:
     * from an idle dialog it makes the call exactly when the button is
     * enabled.
     */
    method Submit(callbackThrows: bool) returns (call: Option<PaymentSubmission>)
      modifies this`error, this`loading
      ensures SubmitEnabled(old(loading), transactionId) ==> call.Some?
      ensures !old(loading) ==> (call.Some? <==> SubmitEnabled(old(loading), transactionId))
      ensures IsBlank(transactionId) ==> call.None? && error == MissingIdMessage && loading == old(loading)
      ensures !IsBlank(transactionId) ==>
                && call == Some(PaymentSubmission(transactionId, PaymentAmount(teamSize)))
                && !loading
                && error == (if callbackThrows then SubmitFailedMessage else "")
    {
      if IsBlank(transactionId) {
        error := MissingIdMessage;
        return None;
      }
      loading := true;
      error := "";
      call := Some(PaymentSubmission(transactionId, PaymentAmount(teamSize)));
      if callbackThrows {
        error := SubmitFailedMessage;
      }
      loading := false;
    }
  }
}
