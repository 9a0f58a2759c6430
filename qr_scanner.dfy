/**
 * The check-in scanner screen. A payload arrives from the camera or the
 * manual-entry box, is parsed, and starts a check-in request; the
 * response is classified as success, already checked in or failure and
 * drives the status panel. The camera, the JSON parser and the server are
 * inputs: `parse` stands for `JSON.parse` (none where it would throw) and
 * an `Outcome` for the awaited request.
 */
module QRScanner {
  import opened Wrappers
  import opened JsString

  /** The fields of a parsed payload, or of a response's team, that this screen reads. */
  datatype Card = Card(registrationNumber: Option<string>, teamName: Option<string>, checkInTime: Option<string>)

  datatype CheckInMethod = QrScan | ManualEntry

  /** The method string sent with the request. */
  function MethodName(m: CheckInMethod): string {
    match m
    case QrScan => "qr_scan"
    case ManualEntry => "manual_entry"
  }

  /** What `checkInTeam` is called with: the registration number and the method string. */
  datatype CheckInRequest = CheckInRequest(registrationNumber: Option<string>, via: string)

  datatype CheckInStatus = CheckInStatus(
    success: bool, message: Option<string>, timestamp: Option<string>, alreadyCheckedIn: bool)

  /** How the awaited `checkInTeam` call ended: a response, or a thrown error with its message. */
  datatype Outcome =
    | Responded(success: bool, alreadyCheckedIn: bool, message: Option<string>,
                team: Option<Card>, checkInTime: Option<string>)
    | Threw(errorMessage: string)

  const InvalidQrMessage := "Invalid QR Code format"
  const InvalidJsonMessage := "Invalid JSON format"
  const EmptyManualMessage := "Please enter QR code data"
  const CheckInFailedError := "Failed to check-in. Please try again."
  const CheckInFailedStatus := "Check-in failed"
  /** The TypeError raised by reading `checkInTime` of a missing team (engine-specific text). */
  const MissingTeamMessage := "Cannot read properties of undefined (reading 'checkInTime')"

  /**
   * The message of the error the catch block sees: the thrown one, or the
   * TypeError of a success response that carries no team.
   */
  function FailureOf(o: Outcome): (failure: Option<string>)
    ensures failure.Some? <==> o.Threw? || (o.success && o.team.None?)
    ensures o.Threw? ==> failure == Some(o.errorMessage)
  {
    match o
    case Threw(m) => Some(m)
    case Responded(success, _, _, team, _) => if success && team.None? then Some(MissingTeamMessage) else None
  }

  /** `checkInStatus` after the request ends, given its value before. */
  function StatusAfter(prev: Option<CheckInStatus>, o: Outcome): (status: Option<CheckInStatus>)
    ensures FailureOf(o).Some? ==>
              && status.Some? && !status.value.success && !status.value.alreadyCheckedIn
              && status.value.timestamp.None? && status.value.message.Some? && status.value.message.value != ""
    ensures FailureOf(o).None? && o.success ==> status.Some? && status.value.success && status.value.message == o.message
    ensures FailureOf(o).None? && !o.success && o.alreadyCheckedIn ==>
              status.Some? && status.value.alreadyCheckedIn && status.value.timestamp == o.checkInTime
    ensures FailureOf(o).None? && !o.success && !o.alreadyCheckedIn ==> status == prev
  {
    if FailureOf(o).Some? then
      Some(CheckInStatus(false, Some(if FailureOf(o).value != "" then FailureOf(o).value else CheckInFailedStatus),
                         None, false))
    else if o.success then Some(CheckInStatus(true, o.message, o.team.value.checkInTime, false))
    else if o.alreadyCheckedIn then Some(CheckInStatus(false, o.message, o.checkInTime, true))
    else prev
  }

  /** `scanResult` after the request ends, given its value before. */
  function ScanResultAfter(prev: Option<Card>, o: Outcome): (card: Option<Card>)
    ensures card == prev || (FailureOf(o).None? && (o.success || o.alreadyCheckedIn) && card == o.team)
    ensures FailureOf(o).None? && (o.success || o.alreadyCheckedIn) ==> card == o.team
  {
    if FailureOf(o).Some? then prev
    else if o.success || o.alreadyCheckedIn then o.team
    else prev
  }

  /** `error` after the request ends, given its value before. */
  function ErrorAfter(prev: Option<string>, o: Outcome): (error: Option<string>)
    ensures FailureOf(o).Some? ==> error.Some? && error.value != ""
    ensures FailureOf(o).Some? && FailureOf(o).value != "" ==> error == FailureOf(o)
    ensures FailureOf(o).None? ==> error == prev
  {
    if FailureOf(o).Some? then
      Some(if FailureOf(o).value != "" then FailureOf(o).value else CheckInFailedError)
    else prev
  }

  datatype Panel = SuccessPanel | AlreadyCheckedInPanel | FailurePanel

  /** The status panel's colour and icon: success first, then already checked in, else failure. */
  function PanelFor(s: CheckInStatus): (panel: Panel)
    ensures panel == SuccessPanel <==> s.success
    ensures panel == AlreadyCheckedInPanel <==> !s.success && s.alreadyCheckedIn
  {
    if s.success then SuccessPanel
    else if s.alreadyCheckedIn then AlreadyCheckedInPanel
    else FailurePanel
  }

  /**
   * How an outcome ought to be shown, read off the outcome alone; none for a
   * response that is neither a success nor an already-checked-in report.
   */
  function OutcomeKind(o: Outcome): Option<Panel> {
    match o
    case Threw(_) => Some(FailurePanel)
    case Responded(success, already, _, team, _) =>
      if success then (if team.Some? then Some(SuccessPanel) else Some(FailurePanel))
      else if already then Some(AlreadyCheckedInPanel)
      else None
  }

  /**
   * Every classified outcome leaves a status whose panel is that
   * classification; an unclassified response leaves the status, the scan
   * result and the error untouched.
   */
  lemma StatusMatchesOutcome(prev: Option<CheckInStatus>, prevCard: Option<Card>,
                             prevError: Option<string>, o: Outcome)
    ensures OutcomeKind(o).Some? ==>
              StatusAfter(prev, o).Some? && PanelFor(StatusAfter(prev, o).value) == OutcomeKind(o).value
    ensures OutcomeKind(o).None? ==>
              StatusAfter(prev, o) == prev && ScanResultAfter(prevCard, o) == prevCard
              && ErrorAfter(prevError, o) == prevError
  {
  }

  /** A success records the team and its `checkInTime` and clears nothing else. */
  lemma SuccessOutcome(prev: Option<CheckInStatus>, prevCard: Option<Card>, prevError: Option<string>, o: Outcome)
    requires o.Responded? && o.success && o.team.Some?
    ensures StatusAfter(prev, o) == Some(CheckInStatus(true, o.message, o.team.value.checkInTime, false))
    ensures ScanResultAfter(prevCard, o) == o.team
    ensures ErrorAfter(prevError, o) == prevError
  {
  }

  /** An already-checked-in report carries the response's own `checkInTime`. */
  lemma AlreadyCheckedInOutcome(prev: Option<CheckInStatus>, prevCard: Option<Card>, o: Outcome)
    requires o.Responded? && !o.success && o.alreadyCheckedIn
    ensures StatusAfter(prev, o) == Some(CheckInStatus(false, o.message, o.checkInTime, true))
    ensures ScanResultAfter(prevCard, o) == o.team
  {
  }

  /** A thrown error yields a failure status with no timestamp and sets the error. */
  lemma ThrownOutcome(prev: Option<CheckInStatus>, prevCard: Option<Card>, prevError: Option<string>, m: string)
    ensures var s := StatusAfter(prev, Threw(m));
            s.Some? && !s.value.success && !s.value.alreadyCheckedIn && s.value.timestamp.None?
    ensures ScanResultAfter(prevCard, Threw(m)) == prevCard
    ensures ErrorAfter(prevError, Threw(m)) == Some(if m != "" then m else CheckInFailedError)
  {
  }

  /** The result section, and with it the status panel, shows only while there is a scan result. */
  predicate ShowsStatusPanel(scanResult: Option<Card>, checkInStatus: Option<CheckInStatus>) {
    scanResult.Some? && checkInStatus.Some?
  }

  /** An already-checked-in report without a team hides its own status panel. */
  lemma AlreadyCheckedInWithoutTeamIsHidden(prev: Option<CheckInStatus>, prevCard: Option<Card>, o: Outcome)
    requires o.Responded? && !o.success && o.alreadyCheckedIn && o.team.None?
    ensures !ShowsStatusPanel(ScanResultAfter(prevCard, o), StatusAfter(prev, o))
  {
  }

  /** The scanner component's state. */
  class Scanner {
    var scanResult: Option<Card>
    var error: Option<string>
    var isScanning: bool
    var manualCode: string
    var checkInStatus: Option<CheckInStatus>
    var processingCheckIn: bool

    constructor ()
      ensures scanResult == None && error == None && !isScanning && manualCode == ""
      ensures checkInStatus == None && !processingCheckIn
    {
      scanResult := None;
      error := None;
      isScanning := false;
      manualCode := "";
      checkInStatus := None;
      processingCheckIn := false;
    }

    /** startScanner: the previous result, error and status are cleared. */
    method StartScanner()
      modifies this`isScanning, this`error, this`scanResult, this`checkInStatus
      ensures isScanning && error == None && scanResult == None && checkInStatus == None
    {
      isScanning := true;
      error := None;
      scanResult := None;
      checkInStatus := None;
    }

    method StopScanner()
      modifies this`isScanning
      ensures !isScanning
    {
      isScanning := false;
    }

    /** The text box's onChange. */
    method SetManualCode(text: string)
      modifies this`manualCode
      ensures manualCode == text
    {
      manualCode := text;
    }

    /** processCheckIn up to its request: busy, and the error cleared. */
    method BeginCheckIn(registrationNumber: Option<string>, m: CheckInMethod) returns (req: CheckInRequest)
      modifies this`processingCheckIn, this`error
      ensures processingCheckIn && error == None
      ensures req == CheckInRequest(registrationNumber, MethodName(m))
    {
      processingCheckIn := true;
      error := None;
      req := CheckInRequest(registrationNumber, MethodName(m));
    }

    /** processCheckIn after its request: the outcome is recorded and the screen is idle again. */
    method FinishCheckIn(o: Outcome)
      modifies this`checkInStatus, this`scanResult, this`error, this`processingCheckIn
      ensures checkInStatus == StatusAfter(old(checkInStatus), o)
      ensures scanResult == ScanResultAfter(old(scanResult), o)
      ensures error == ErrorAfter(old(error), o)
      ensures !processingCheckIn
    {
      var failure: Option<string> := None;
      if o.Threw? {
        failure := Some(o.errorMessage);
      } else if o.success {
        if o.team.None? {
          failure := Some(MissingTeamMessage);
        } else {
          checkInStatus := Some(CheckInStatus(true, o.message, o.team.value.checkInTime, false));
          scanResult := o.team;
        }
      } else if o.alreadyCheckedIn {
        checkInStatus := Some(CheckInStatus(false, o.message, o.checkInTime, true));
        scanResult := o.team;
      }
      if failure.Some? {
        var m := failure.value;
        error := Some(if m != "" then m else CheckInFailedError);
        checkInStatus := Some(CheckInStatus(false, Some(if m != "" then m else CheckInFailedStatus), None, false));
      }
      processingCheckIn := false;
    }

    /**
     * onScanSuccess: a payload that parses is shown and checked in by its
     * registration number, and the camera stops; one that does not only
     * sets the error.
     */
    method OnScanSuccess(decodedText: string, parse: string -> Option<Card>) returns (req: Option<CheckInRequest>)
      modifies this`scanResult, this`error, this`processingCheckIn, this`isScanning
      ensures parse(decodedText).None? ==>
                && req.None? && error == Some(InvalidQrMessage)
                && scanResult == old(scanResult) && processingCheckIn == old(processingCheckIn)
                && isScanning == old(isScanning)
      ensures parse(decodedText).Some? ==>
                && req == Some(CheckInRequest(parse(decodedText).value.registrationNumber, MethodName(QrScan)))
                && scanResult == parse(decodedText) && processingCheckIn && error == None && !isScanning
    {
      var data := parse(decodedText);
      if data.None? {
        error := Some(InvalidQrMessage);
        return None;
      }
      scanResult := data;
      var r := BeginCheckIn(data.value.registrationNumber, QrScan);
      StopScanner();
      req := Some(r);
    }

    /**
     * handleManualEntry: blank text and text that does not parse only set
     * their errors; a payload that parses starts a check-in and empties the box.
     */
    method HandleManualEntry(parse: string -> Option<Card>) returns (req: Option<CheckInRequest>)
      modifies this`scanResult, this`error, this`processingCheckIn, this`manualCode
      ensures IsBlank(old(manualCode)) ==>
                && req.None? && error == Some(EmptyManualMessage) && manualCode == old(manualCode)
                && scanResult == old(scanResult) && processingCheckIn == old(processingCheckIn)
      ensures !IsBlank(old(manualCode)) && parse(old(manualCode)).None? ==>
                && req.None? && error == Some(InvalidJsonMessage) && manualCode == old(manualCode)
                && scanResult == old(scanResult) && processingCheckIn == old(processingCheckIn)
      ensures !IsBlank(old(manualCode)) && parse(old(manualCode)).Some? ==>
                && req == Some(CheckInRequest(parse(old(manualCode)).value.registrationNumber, MethodName(ManualEntry)))
                && scanResult == parse(old(manualCode)) && processingCheckIn && error == None
                && manualCode == ""
    {
      var code := manualCode;
      if IsBlank(code) {
        error := Some(EmptyManualMessage);
        return None;
      }
      var data := parse(code);
      if data.None? {
        error := Some(InvalidJsonMessage);
        return None;
      }
      var r := StartManualCheckIn(data.value);
      req := Some(r);
    }

    /** The parsed branch of handleManualEntry: show the payload, start its check-in, empty the box. */
    method StartManualCheckIn(data: Card) returns (req: CheckInRequest)
      modifies this`scanResult, this`error, this`processingCheckIn, this`manualCode
      ensures req == CheckInRequest(data.registrationNumber, MethodName(ManualEntry))
      ensures scanResult == Some(data) && processingCheckIn && error == None && manualCode == ""
    {
      scanResult := Some(data);
      req := BeginCheckIn(data.registrationNumber, ManualEntry);
      manualCode := "";
    }

    /** handleReset: ready for the next team. */
    method HandleReset()
      modifies this`scanResult, this`error, this`checkInStatus, this`manualCode
      ensures scanResult == None && error == None && checkInStatus == None && manualCode == ""
    {
      scanResult := None;
      error := None;
      checkInStatus := None;
      manualCode := "";
    }
  }
}
