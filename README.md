# HackBits front-end core in Dafny

This project models the logic in the HackBits hackathon web front end that
decides a team's registration, verification and check-in standing, and the
list operations the two admin screens run over teams. The front end is a
set of React screens. Its state updates are modelled as Dafny classes whose
methods reassign the component's state fields. Its pure helpers (filters,
lookups, predicates) are modelled as functions. Server responses, the JSON
parser and the clock are method parameters.

Modules, one per source file plus shared pieces:

- `Wrappers`: `Option`.
- `JsString`: the JavaScript string operations the screens use, which are
  `trim`, `toLowerCase`, `includes`, `length` in UTF-16 code units, `join` and
  the truthiness of a possibly missing string.
- `Seqs`: `Array.prototype.filter` and order-preserving selection (subsequence).
- `Teams`: the team record, status predicates, `canVerify`, and replace-by-`_id`.
- `Forms`: the `{...form, [name]: value}` update, the new-password check
  shared by two screens, and the `message || fallback` error text.
- `AdminHome`: the admin team table (`src/pages/AdminHome.jsx`).
- `AdminCheckin`: the venue check-in dashboard (`src/components/AdminCheckin.jsx`).
- `QRScanner`: the scanner screen's state machine (`src/pages/QRScanner.jsx`).
- `Profile`: the participant profile screen (`src/pages/Profile.jsx`).
- `TeamDetails`: the participant team page (`src/pages/TeamDetails.jsx`).
- `PaymentModal`: the payment dialog (`src/pages/PaymentModal.jsx`).
- `TeamRegister`: the registration screen (`src/pages/TeamRegister.jsx`).

An `async` handler is split into a `Begin…` method and a `Finish…` method.
`Begin…` is the synchronous part up to the request and returns the request
body. `Finish…` is the continuation and takes the response, or its absence
on failure, as a parameter. Where the continuation reads state captured
when the handler started, `Begin…` returns that state too and `Finish…`
takes it back.

The model follows the code where its behaviour is surprising:

- Progress reads 75 with no payment id.
- The check-in search trims the query only to decide whether to search.
- A check-in response that is neither `success` nor `alreadyCheckedIn`
  leaves the scanner's status untouched.
- The check-in time is read as `checkinTime` on the dashboard and
  `checkInTime` on the scanner.
- A status change or a check-in maps over the list of the render in which
  its button was clicked, so when two requests overlap the later response
  undoes the earlier one until the next refresh.
- The team page and the payment dialog quote different fees for a team size
  outside Solo/Duo/Team: 500 on the page, 1200 in the dialog.

## Model

| member | source | states |
|---|---|---|
| JsString.TrimStart | src/components/AdminCheckin.jsx:67 | the result is a suffix of the input that starts with a non-whitespace character, and everything removed is ECMAScript whitespace |
| JsString.TrimEnd | src/components/AdminCheckin.jsx:67 | the result is a prefix of the input that ends with a non-whitespace character, and everything removed is whitespace |
| JsString.BlankIffAllWhitespace | src/components/AdminCheckin.jsx:67 | `!s.trim()` holds exactly when every character of `s` is whitespace |
| JsString.ToLower | src/components/AdminCheckin.jsx:68 | lowering keeps the length and maps each character through the ASCII case fold |
| JsString.ToLowerKeepsWhitespace | src/components/AdminCheckin.jsx:68 | lowering neither creates nor removes a whitespace character at any position |
| JsString.IncludesIffOccurs | src/components/AdminCheckin.jsx:71-75 | `s.includes(q)` holds exactly when `q` occurs at some index of `s` |
| JsString.NoWhitespaceExcludes | src/components/AdminCheckin.jsx:71-75 | a text with no whitespace never includes a query that contains whitespace |
| JsString.Utf16Length | src/pages/AdminHome.jsx:90 | `.length` counts UTF-16 code units: at least one and at most two per character |
| JsString.JoinEmptyIff | src/pages/TeamRegister.jsx:78 | with a non-empty separator, `join` is empty only for no parts or a single empty part |
| Seqs.Filter | src/pages/AdminHome.jsx:136 | a filtered list is no longer than the original, and everything in it is in the original and passes the test |
| Seqs.FilterSelects | src/pages/AdminHome.jsx:136 | `filter` keeps exactly the positions whose element passes, in increasing order |
| Seqs.FilterIsSubsequence | src/components/AdminCheckin.jsx:57-79 | a filtered list is an order-preserving selection of the original |
| Seqs.FilterMembership | src/pages/AdminHome.jsx:136 | an element is kept exactly when it is in the list and passes the test |
| Seqs.FilterPartition | src/components/AdminCheckin.jsx:241-242 | a test and its negation select lists whose lengths add up to the whole |
| Seqs.FilterExclusiveBound | src/pages/AdminHome.jsx:303-305 | three mutually exclusive tests together select at most the whole list |
| Seqs.SubsequenceTransitive | src/components/AdminCheckin.jsx:57-79 | a selection of a selection is a selection of the original, so successive filters preserve order |
| Seqs.SubsequenceReflexive | src/components/AdminCheckin.jsx:57 | the unfiltered copy is a selection of the list |
| Teams.CanVerify | src/pages/AdminHome.jsx:152-154 | a team can be verified exactly when its payment id, payment screenshot and ID card are each there and non-empty |
| Teams.WithStatusSelects | src/pages/AdminHome.jsx:136 | the teams filtered by a status are exactly the teams with that status, in order, and no more numerous than the list |
| Teams.StatusCountsBounded | src/pages/AdminHome.jsx:303-305 | the counts of three distinct statuses add up to at most the number of teams |
| Teams.ReplaceById | src/pages/AdminHome.jsx:63-67 | the mapped list has the same length, and each entry is the returned team where the id matches and is unchanged elsewhere |
| Teams.ReplaceUniqueChangesOne | src/components/AdminCheckin.jsx:91-95 | with unique ids, replacing by the id at position k changes position k only |
| Teams.ReplaceAbsentId | src/pages/AdminHome.jsx:63-67 | an id no entry carries leaves the list as it was |
| Teams.SnapshotReplaceLosesEarlierUpdate | src/pages/AdminHome.jsx:63-67 | two updates mapped over the same clicked-on list: the second result holds the first team's old entry, so the first update is lost |
| Forms.SetField | src/pages/Profile.jsx:53-58 | the spread update sets the named field and keeps every other field and value |
| Forms.NewPasswordError | src/pages/AdminHome.jsx:85-93 | a mismatch is reported whenever the two entries differ, a short password only when they agree and it is under 6 UTF-16 units, and nothing otherwise |
| Forms.MessageOr | src/pages/AdminHome.jsx:110-112 | the server's message when it is present and non-empty, else the fallback, so never an empty message |
| AdminHome.FilteredTeams | src/pages/AdminHome.jsx:132-137 | "all" returns the list unchanged; any other value returns exactly the teams with that status, in order |
| AdminHome.OptionCountsConsistent | src/pages/AdminHome.jsx:302-305 | each option's count is the length of the list it shows, none exceeds the total, and the three status counts sum to at most the total |
| AdminHome.StatusColor | src/pages/AdminHome.jsx:139-150 | green exactly for verified, red exactly for rejected, yellow exactly for pending |
| AdminHome.UnknownStatusIsGrey | src/pages/AdminHome.jsx:139-150 | a missing or unlisted status gets the grey colour |
| AdminHome.VerifyButton | src/pages/AdminHome.jsx:390-403 | Verify is shown exactly when the team is not verified, and enabled exactly when it is not verified, `canVerify` holds and the row is not being updated |
| AdminHome.RejectButton | src/pages/AdminHome.jsx:404-410 | Reject is always shown and enabled exactly for a team not rejected whose row is not being updated |
| AdminHome.PendingButton | src/pages/AdminHome.jsx:411-417 | Pending is always shown and enabled exactly for a team not pending whose row is not being updated |
| AdminHome.BusyRowIsLocked | src/pages/AdminHome.jsx:390-413 | while a row is being updated none of its three buttons is enabled |
| AdminHome.NoButtonRepeatsStatus | src/pages/AdminHome.jsx:390-413 | Verify is hidden for a verified team, Reject disabled for a rejected one and Pending for a pending one |
| AdminHome.RowHighlighted | src/pages/AdminHome.jsx:325 | a row is tinted exactly when the team is pending and its payment id, screenshot or ID card is missing or empty |
| AdminHome.HighlightedRowCannotVerify | src/pages/AdminHome.jsx:325 | a highlighted row (pending and missing evidence) shows Verify disabled |
| AdminHome.Dashboard.constructor | src/pages/AdminHome.jsx:7-21 | no teams, filter "all", no row busy, empty password form and messages |
| AdminHome.Dashboard.Load | src/pages/AdminHome.jsx:37 | the list becomes the server's list |
| AdminHome.Dashboard.SetStatusFilter | src/pages/AdminHome.jsx:299 | the filter becomes the chosen option |
| AdminHome.Dashboard.BeginStatusChange | src/pages/AdminHome.jsx:56-61 | the row is marked busy, the request carries the team id and the new status, and the list of the clicked render is handed to the continuation |
| AdminHome.Dashboard.FinishStatusChange | src/pages/AdminHome.jsx:63-77 | on success the returned team replaces the entries with that id in the list the button was clicked on, on failure the list is kept, and no row is busy afterwards |
| AdminHome.Dashboard.SubmitPasswordChange | src/pages/AdminHome.jsx:80-114 | a request is made exactly when the new-password check passes; a rejected form keeps its data and shows the check's message; success clears the form, failure shows the server's message or the fallback |
| AdminCheckin.VerifiedOnlySelects | src/components/AdminCheckin.jsx:29-31 | the loaded list holds all and only the verified teams, in server order |
| AdminCheckin.ByCheckInState | src/components/AdminCheckin.jsx:59-64 | "checkedin" keeps exactly `checkedIn === true`, "pending" exactly the rest, any other value all, always in order |
| AdminCheckin.MatchesQuery | src/components/AdminCheckin.jsx:68-75 | a team matches exactly when the query is included in one of its searched fields, lowered: the ticket number when there is one, team name, registration number, leader name, leader email |
| AdminCheckin.Search | src/components/AdminCheckin.jsx:66-77 | a blank query keeps the list; otherwise a team is kept exactly when it matches the lowered, untrimmed query; order is kept |
| AdminCheckin.View | src/components/AdminCheckin.jsx:56-80 | the shown list is an order-preserving selection of the loaded list, and a team is shown exactly when it passes both steps |
| AdminCheckin.UntrimmedQueryMissesUnspacedTeam | src/components/AdminCheckin.jsx:67-68 | a non-blank query containing a space finds no team whose searched fields contain none |
| AdminCheckin.CountsPartition | src/components/AdminCheckin.jsx:240-242 | the checked-in and not-checked-in counts sum to the list length and equal the lengths the two options show |
| AdminCheckin.ToggleRequest | src/components/AdminCheckin.jsx:85-88 | the request asks for `checkedIn` true exactly when the team was not checked in, with the given time |
| AdminCheckin.CheckInTimeSpellingIgnored | src/components/AdminCheckin.jsx:306 | a checked-in team carrying only `checkInTime` shows no check-in time on the dashboard |
| AdminCheckin.CheckinDashboard.constructor | src/components/AdminCheckin.jsx:7-13 | empty lists, empty query, filter "all", nothing busy, and the shown list agrees with the filters |
| AdminCheckin.CheckinDashboard.FilterAndSearchTeams | src/components/AdminCheckin.jsx:56-80 | after the step-by-step narrowing, the shown list is the view of the loaded list under the current filter and query |
| AdminCheckin.CheckinDashboard.Load | src/components/AdminCheckin.jsx:29-33 | the list becomes the verified teams of the server's list, and the shown list agrees with the filters |
| AdminCheckin.CheckinDashboard.SetSearchQuery | src/components/AdminCheckin.jsx:52-54 | the query is stored and the shown list agrees with it |
| AdminCheckin.CheckinDashboard.SetFilterStatus | src/components/AdminCheckin.jsx:52-54 | the filter is stored and the shown list agrees with it |
| AdminCheckin.CheckinDashboard.BeginCheckIn | src/components/AdminCheckin.jsx:82-88 | the row is marked busy, the request is the toggle of the team's current state, and the list of the clicked render is handed to the continuation |
| AdminCheckin.CheckinDashboard.FinishCheckIn | src/components/AdminCheckin.jsx:89-104 | on success the returned team replaces the entry by id in the list the button was clicked on and the shown list is re-derived; no row is busy afterwards |
| QRScanner.FailureOf | src/pages/QRScanner.jsx:104-112 | the catch block runs exactly for a thrown error (with its message) or a success response without a team |
| QRScanner.StatusAfter | src/pages/QRScanner.jsx:104-135 | a failure gives a failure status with a non-empty message and no timestamp; a success a success status with the response message; an already-checked-in report that flag with the response's time; any other response keeps the status |
| QRScanner.ScanResultAfter | src/pages/QRScanner.jsx:104-127 | the scan result becomes the response's team after a success or an already-checked-in report, and is kept otherwise |
| QRScanner.ErrorAfter | src/pages/QRScanner.jsx:128-130 | a failure sets a non-empty error, its own message when that is non-empty; anything else keeps the error |
| QRScanner.PanelFor | src/pages/QRScanner.jsx:382-388 | the panel is the success one exactly for a success status and the already-checked-in one exactly for an unsuccessful status with that flag |
| QRScanner.StatusMatchesOutcome | src/pages/QRScanner.jsx:104-135 | every outcome classified as success, already checked in or failure leaves a status whose panel is that class; an outcome of neither kind leaves status, scan result and error untouched |
| QRScanner.SuccessOutcome | src/pages/QRScanner.jsx:104-112 | a success with a team records success, the team's `checkInTime` as timestamp and the team as scan result, and keeps the error |
| QRScanner.AlreadyCheckedInOutcome | src/pages/QRScanner.jsx:119-127 | an already-checked-in report records `alreadyCheckedIn`, the response's `checkInTime` and the response's team |
| QRScanner.ThrownOutcome | src/pages/QRScanner.jsx:128-135 | a thrown error records a failure with no timestamp, keeps the scan result and sets the error to its message or the fallback |
| QRScanner.AlreadyCheckedInWithoutTeamIsHidden | src/pages/QRScanner.jsx:119-127 | an already-checked-in report without a team clears the scan result, so its status panel is not shown |
| QRScanner.Scanner.constructor | src/pages/QRScanner.jsx:6-14 | nothing scanned, no error, not scanning, empty text box, no status, idle |
| QRScanner.Scanner.StartScanner | src/pages/QRScanner.jsx:49-53 | scanning, with the error, scan result and status cleared |
| QRScanner.Scanner.StopScanner | src/pages/QRScanner.jsx:74-80 | not scanning |
| QRScanner.Scanner.SetManualCode | src/pages/QRScanner.jsx:346 | the text box holds the typed text |
| QRScanner.Scanner.BeginCheckIn | src/pages/QRScanner.jsx:97-102 | busy, error cleared, and the request carries the registration number and the method string |
| QRScanner.Scanner.FinishCheckIn | src/pages/QRScanner.jsx:104-138 | status, scan result and error follow the outcome as the classification functions say, and the screen is idle on every path |
| QRScanner.Scanner.OnScanSuccess | src/pages/QRScanner.jsx:82-91 | an unparsable payload sets "Invalid QR Code format" and changes nothing else; a parsed one is shown, checked in with "qr_scan" and stops the camera |
| QRScanner.Scanner.HandleManualEntry | src/pages/QRScanner.jsx:146-160 | blank text sets "Please enter QR code data", unparsable text sets "Invalid JSON format", neither starts a check-in; parsed text is shown, checked in with "manual_entry" and the box is emptied |
| QRScanner.Scanner.StartManualCheckIn | src/pages/QRScanner.jsx:154-156 | the parsed payload is shown, its check-in starts with "manual_entry", and the box is emptied |
| QRScanner.Scanner.HandleReset | src/pages/QRScanner.jsx:162-167 | scan result, error, status and text box are cleared |
| Profile.ProgressOf | src/pages/Profile.jsx:134-141 | progress is one of 0, 25, 50, 75, 100; it is 0 exactly without a team and 100 exactly when verified |
| Profile.RegistrationProgress | src/pages/Profile.jsx:134-141 | the successive overwrites compute the highest rung whose evidence holds |
| Profile.DocumentsOutrankPayment | src/pages/Profile.jsx:138 | an unverified team with both documents is at 75 whatever its payment id |
| Profile.SeventyFiveWithoutPaymentId | src/pages/Profile.jsx:136-138 | some team with no payment id shows 75 |
| Profile.VerifiableTeamAtLeast75 | src/pages/Profile.jsx:134-141 | a team the admin can verify is at 75 or more |
| Profile.ProgressMonotone | src/pages/Profile.jsx:134-141 | adding evidence never lowers the progress |
| Profile.StatusBadge | src/pages/Profile.jsx:120-132 | the verified and rejected badges for exactly those statuses, the pending badge for every other or missing status |
| Profile.IncompleteIffSomeFieldEmpty | src/pages/Profile.jsx:382 | the completion warning shows exactly when one of name, phone, university, course, year is empty |
| Profile.EmptyForm | src/pages/Profile.jsx:10-21 | the initial form has exactly the listed fields, each empty |
| Profile.UserForm | src/pages/Profile.jsx:30-36 | the form has exactly the five profile fields, each the user's value when truthy and empty otherwise, so it is incomplete exactly when some detail is missing or empty |
| Profile.ProfilePage.constructor | src/pages/Profile.jsx:7-26 | the signed-in user is kept; both forms empty with all their fields, idle, no messages |
| Profile.ProfilePage.UserEffect | src/pages/Profile.jsx:28-39 | with a user the profile form is rebuilt from it; without one it is kept |
| Profile.ProfilePage.ChangeProfileField | src/pages/Profile.jsx:53-58 | only the named profile field changes |
| Profile.ProfilePage.ChangePasswordField | src/pages/Profile.jsx:60-65 | only the named password field changes |
| Profile.ProfilePage.SubmitProfile | src/pages/Profile.jsx:67-82 | the whole form is sent; on success the returned user replaces the signed-in one, the form is rebuilt from it (kept when none is returned) and the success message shows; on failure user and form are kept and the server's message or the fallback shows; idle afterwards |
| Profile.ProfilePage.SubmitPassword | src/pages/Profile.jsx:84-118 | a request is made exactly when the new-password check passes; both early exits leave the form and reset loading; success clears the form; every path ends idle |
| TeamDetails.PaymentAmount | src/pages/TeamDetails.jsx:52-59 | Solo 500, Duo 800, Team 1200, and 500 for any other or missing size |
| TeamDetails.OnlyTeamAndDuoPayMore | src/pages/TeamDetails.jsx:52-59 | the fee exceeds 500 exactly for Duo and Team |
| TeamDetails.QrFileName | src/pages/TeamDetails.jsx:47 | the file name is the registration number followed by "-QRCode.png" |
| TeamDetails.FileNameRoundTrip | src/pages/TeamDetails.jsx:47 | dropping the suffix from the file name gives back the registration number |
| TeamDetails.FileNameInjective | src/pages/TeamDetails.jsx:47 | distinct registration numbers give distinct file names |
| TeamDetails.DownloadOf | src/pages/TeamDetails.jsx:39-50 | a download happens exactly when the QR code is there and non-empty; it carries the QR data under a file name that gives back the registration number |
| TeamDetails.PaymentSectionVisible | src/pages/TeamDetails.jsx:301-302 | the payment section shows for a pending team and never together with the QR section |
| TeamDetails.QrSectionVisible | src/pages/TeamDetails.jsx:351-352 | the QR section shows for a verified team with a QR code, so its download button always downloads |
| TeamDetails.BadgeColor | src/pages/TeamDetails.jsx:221-227 | green for verified, red for rejected, yellow for anything else |
| TeamDetails.StatusLabel | src/pages/TeamDetails.jsx:229-230 | the label is the status with its first character upper-cased and the rest unchanged |
| TeamDetails.StatusLabelNamesStatus | src/pages/TeamDetails.jsx:229-230 | lower-casing the label of a lower-case status gives the status back |
| TeamDetails.TeamPage.constructor | src/pages/TeamDetails.jsx:8-12 | the loaded team and no error |
| TeamDetails.TeamPage.DownloadQrCode | src/pages/TeamDetails.jsx:39-50 | without a QR code the error is "QR code not available" and nothing downloads; with one the named file downloads and the error is kept |
| PaymentModal.PaymentAmount | src/pages/PaymentModal.jsx:11 | Solo 500, Duo 800, and 1200 for every other or missing size |
| PaymentModal.FeesAgreeOnListedSizes | src/pages/PaymentModal.jsx:11 | for Solo, Duo and Team the dialog and the team page quote the same fee |
| PaymentModal.FeesDisagreeElsewhere | src/pages/PaymentModal.jsx:11 | for any other or missing size the dialog asks 1200 while the team page shows 500 |
| PaymentModal.FeesAgreeIffListed | src/pages/PaymentModal.jsx:11 | the two fee lookups agree exactly on Solo, Duo and Team |
| PaymentModal.SubmitEnabled | src/pages/PaymentModal.jsx:151 | the submit button is enabled exactly when the dialog is idle and some typed character is not whitespace |
| PaymentModal.PaymentForm.constructor | src/pages/PaymentModal.jsx:4-6 | empty id, no error, idle |
| PaymentModal.PaymentForm.SetTransactionId | src/pages/PaymentModal.jsx:110 | the id holds the typed text |
| PaymentModal.PaymentForm.Submit | src/pages/PaymentModal.jsx:13-35 | from an idle dialog the callback is called exactly when the submit button is enabled; a blank id sets "Please enter transaction ID", calls nothing and leaves loading alone; otherwise the callback gets the untrimmed id and the fee, a throwing callback sets "Failed to submit transaction ID", and loading ends false |
| TeamRegister.PayloadFor | src/pages/TeamRegister.jsx:64-68 | the payload has the team name as typed, size "Solo" and no members |
| TeamRegister.FailureMessage | src/pages/TeamRegister.jsx:76-80 | the server's message, else its errors joined with ", ", else "Failed to register team"; never empty |
| TeamRegister.RegisterPage.constructor | src/pages/TeamRegister.jsx:10-16 | a form with an empty team name, idle, no error |
| TeamRegister.RegisterPage.HandleChange | src/pages/TeamRegister.jsx:37-43 | only the named form field changes |
| TeamRegister.RegisterPage.ValidateForm | src/pages/TeamRegister.jsx:45-51 | the form passes exactly when the team name is not blank, and a failure sets "Team name is required" |
| TeamRegister.RegisterPage.Submit | src/pages/TeamRegister.jsx:53-84 | a blank name sends nothing and sets its message; otherwise the payload is sent and the error is cleared on success or set to the failure message; loading ends false |

## Left out

- Network calls, `Promise.all`, the `fetchData`, `fetchStats` and `fetchHistory` refreshes, `navigate`, `alert`, `window.confirm`, `setTimeout` and `localStorage` are left out. A server response is a parameter; a failed request is `None` or a `Failure` value.
- `src/api/checkInApi.js` (token interceptor and 401 redirect) is not part of this model.
- The camera scanner, `Audio` playback, undo check-in, the history export, and the `Date` formatting of timestamps are left out.
- `JSON.parse` is a parameter `parse: string -> Option<Card>`. A payload that parses to something other than an object, such as `null`, is not distinguished from an object without fields.
- The rupee display `team.paymentAmount / 100` is floating-point display arithmetic and is left out.
- JavaScript object lookups with a status or size that names an `Object.prototype` member (such as "constructor") are left out. The model treats every unlisted key as unlisted.
- JsString.ToLower: folds only A-Z, not the full Unicode case mapping of `toLowerCase`.
- TeamDetails.StatusLabel: upper-cases only a-z, and a missing status is not modelled (the page would throw on it).
- `checkedIn` is modelled as an optional boolean. Non-boolean values, for which `=== true` and truthiness differ, are left out.
- QRScanner.FailureOf: the TypeError raised when a success response lacks its team carries the text modern engines use. The exact text depends on the engine.
- QRScanner.Scanner.OnScanSuccess: the check-in runs asynchronously. The model orders its synchronous start before `stopScanner`, as the code does, and leaves the rest to `FinishCheckIn`.
- Profile.ProfilePage.SubmitProfile: the auth context's `updateUser` is not part of this model. It is taken to replace the signed-in user with the one it is given, which re-runs the user effect.
- Rendering and styling beyond the conditions listed in the table are left out.
- Profile.StatusBadge: the verified label is kept as the code's literal text. That text is a check mark mis-decoded into three characters.
