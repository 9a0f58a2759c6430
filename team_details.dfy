/**
 * The participant's team page: the fee it quotes, the QR download, and
 * which banners, sections and badge colours a payment status shows.
 */
module TeamDetails {
  import opened Wrappers
  import opened JsString
  import opened Teams

  const Solo := "Solo"
  const Duo := "Duo"
  const TeamSize := "Team"

  /** getPaymentAmount: the fee table, with 500 for a size it does not list or a missing size. */
  function PaymentAmount(size: Option<string>): (amount: nat)
    ensures size == Some(Solo) ==> amount == 500
    ensures size == Some(Duo) ==> amount == 800
    ensures size == Some(TeamSize) ==> amount == 1200
    ensures size !in {Some(Solo), Some(Duo), Some(TeamSize)} ==> amount == 500
  {
    if size == Some(Solo) then 500
    else if size == Some(Duo) then 800
    else if size == Some(TeamSize) then 1200
    else 500
  }

  /** Only a duo or a full team is charged more than the solo fee. */
  lemma OnlyTeamAndDuoPayMore(size: Option<string>)
    ensures PaymentAmount(size) > 500 <==> size == Some(Duo) || size == Some(TeamSize)
  {
  }

  const QrSuffix := "-QRCode.png"

  /** The download's file name: the registration number, then the suffix. */
  function QrFileName(registrationNumber: string): (name: string)
    ensures |name| == |registrationNumber| + |QrSuffix|
    ensures name[..|registrationNumber|] == registrationNumber
    ensures name[|registrationNumber|..] == QrSuffix
  {
    registrationNumber + QrSuffix
  }

  /** The registration number is recovered from the file name by dropping the suffix. */
  function RegistrationOfFileName(name: string): Option<string> {
    if |name| >= |QrSuffix| && name[|name| - |QrSuffix|..] == QrSuffix then Some(name[..|name| - |QrSuffix|])
    else None
  }

  lemma FileNameRoundTrip(registrationNumber: string)
    ensures RegistrationOfFileName(QrFileName(registrationNumber)) == Some(registrationNumber)
  {
  }

  /** Distinct teams download distinct file names. */
  lemma FileNameInjective(a: string, b: string)
    requires QrFileName(a) == QrFileName(b)
    ensures a == b
  {
    FileNameRoundTrip(a);
    FileNameRoundTrip(b);
  }

  const QrMissingMessage := "QR code not available"

  /** The anchor the download clicks: its file name and the QR data URL. */
  datatype Download = Download(fileName: string, href: string)

  /**
   * What downloadQRCode hands to the browser for a team: nothing without a
   * QR code; otherwise the QR data under a file name that gives back the
   * registration number.
   */
  function DownloadOf(t: Team): (d: Option<Download>)
    ensures d.Some? <==> Present(t.qrCode)
    ensures d.Some? ==> RegistrationOfFileName(d.value.fileName) == Some(t.registrationNumber)
                        && d.value.href == t.qrCode.value
  {
    FileNameRoundTrip(t.registrationNumber);
    if Present(t.qrCode) then Some(Download(QrFileName(t.registrationNumber), t.qrCode.value)) else None
  }

  /**
   * The payment section, like the pending banner, shows for a pending team,
   * and never together with the QR section.
   */
  predicate PaymentSectionVisible(t: Team)
    ensures PaymentSectionVisible(t) ==> !QrSectionVisible(t)
  {
    StatusIs(t, Pending)
  }

  /**
   * The QR section shows for a verified team that has its QR code, so its
   * download button always downloads.
   */
  predicate QrSectionVisible(t: Team)
    ensures QrSectionVisible(t) ==> DownloadOf(t).Some?
  {
    StatusIs(t, Verified) && Present(t.qrCode)
  }

  /** The status badge: green when verified, red when rejected, yellow for anything else. */
  function BadgeColor(status: Option<string>): (color: string)
    ensures status == Some(Verified) ==> color == "bg-green-100 text-green-800"
    ensures status == Some(Rejected) ==> color == "bg-red-100 text-red-800"
    ensures status != Some(Verified) && status != Some(Rejected) ==> color == "bg-yellow-100 text-yellow-800"
  {
    if status == Some(Verified) then "bg-green-100 text-green-800"
    else if status == Some(Rejected) then "bg-red-100 text-red-800"
    else "bg-yellow-100 text-yellow-800"
  }

  /** `toUpperCase` on one character, ASCII letters only. */
  function ToUpperChar(c: char): char {
    if 'a' <= c <= 'z' then (c as int - 32) as char else c
  }

  /** The badge's text: the status with its first character upper-cased. */
  function StatusLabel(status: string): (caption: string)
    ensures |caption| == |status|
    ensures caption != [] ==> caption[0] == ToUpperChar(status[0]) && caption[1..] == status[1..]
  {
    if status == [] then [] else [ToUpperChar(status[0])] + status[1..]
  }

  /** Upper-casing the first letter is undone by lower-casing: the label names the status. */
  lemma StatusLabelNamesStatus(status: string)
    requires status == ToLower(status)
    ensures ToLower(StatusLabel(status)) == status
  {
    if status != [] {
      assert ToLowerChar(status[0]) == status[0];
      assert ToLowerChar(ToUpperChar(status[0])) == status[0];
      assert ToLower(StatusLabel(status))[0] == status[0];
      assert ToLower(StatusLabel(status))[1..] == ToLower(status)[1..];
    }
  }

  /** The team page's state once the team has loaded. */
  class TeamPage {
    var team: Team
    var error: string

    constructor (t: Team)
      ensures team == t && error == ""
    {
      team := t;
      error := "";
    }

    /** downloadQRCode: the guard sets the error and downloads nothing. */
    method DownloadQrCode() returns (d: Option<Download>)
      modifies this`error
      ensures d == DownloadOf(team)
      ensures d.None? ==> error == QrMissingMessage
      ensures d.Some? ==> error == old(error)
    {
      if !Present(team.qrCode) {
        error := QrMissingMessage;
        return None;
      }
      d := Some(Download(QrFileName(team.registrationNumber), team.qrCode.value));
    }
  }
}
