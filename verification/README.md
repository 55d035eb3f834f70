# Condominium front end — a Dafny model of its handlers

The front end serves the residents and the administrators of an apartment building. Residents register
their vehicles and assign them to parking lots. Administrators manage:

- the parking lots and the vehicles in them;
- user accounts, rooms, fees and complaints;
- guest activation and announcements.

Public pages cover sign-up, log-in and the forgotten-password flow, which has a six-digit code step and a
new-password step.

Almost all of the application draws screens and calls a REST server. This model lifts out the rules
buried in the event handlers:

- the guards that decide whether a request is sent at all;
- the order in which dependent requests go out;
- what each reply does to the screen's state;
- the pure derivations the screens draw from that state.

## How the model is built

- **One module per source file.** Each module mirrors one screen or form file. Two shared modules sit
  beside them:
  - `Common`: optional values, JavaScript's white space and `trim`, `a || b` on strings, dropping a
    leading `"Error: "`, and filtering and updating a list by a predicate, with their lemmas.
  - `Http`: the reply a handler gets from `fetch`.
- **Server replies are parameters.** A reply (`Http.Reply`) is either a rejected request carrying its
  message, or a response carrying a status, a text and that text read as JSON. The JSON reading can fail
  with a syntax error. `response.ok` means a status from 200 to 299. The body is the record of the
  fields the handler reads.
- **Screens are classes.** A screen's React state becomes a class whose fields are the state variables.
  Each handler is a method that updates those fields. Every handler does two more things:
  - it appends the requests it sends to a `requests` log field;
  - it appends the notifications it raises (`message.success`, `toast.error`, …) to a `toasts` field.

  Each method's `ensures` gives the whole new state as a function of the old state and the replies. The
  complaint list's query is given by its keys and their values, which fix it (`QueryDetermined`).
- **Awaits split handlers.** Where the screen is observable between sending a request and getting its
  reply (a disabled button, a "processing" flag), the handler is split at the `await` into two methods.
  Examples are `SubmitVerifyOtp`/`CompleteVerifyOtp` and `StartActivate`/`FinishActivate`.
- **Timers are pending fields.** A pending `setTimeout` is a field holding what it will do, such as
  `redirect` or `pendingRemovals`.
- **Pure code is functions.** Validators, tag mappers, formatting and the list derivations are functions
  and lemmas.
- **Two handlers with two requests are also functions.** The two register-then-assign handlers are also
  written as functions of the two replies (`RegisterAndAssignRun`). Their guard and ordering lemmas are
  stated over those functions. The class methods are proved equal to them.

Four behaviours of the code that a reader might not expect:

- **`fetchMyVehicles` skips failing rooms.** It drops a room whose vehicle request comes back with a
  status that is not ok, and goes on with the next room. Only a rejected request, or an ok reply that is
  not JSON, stops the loop (src/pages/auth/resident/Parking.js:109-126).
- **The admin vehicle screen's `allVehicles` is always empty.** The screen declares it but never stores
  into it (src/pages/auth/admin/Vehicle.js:15). The lot details therefore only ever give the lot's type,
  and the "unassigned vehicles" card never shows. `EmptyVehicleListConsequences` states this. The
  derivations are still modelled for any list.
- **The guest list reads the body whatever the status.** Its load reads the reply body as JSON without
  looking at the status (src/pages/auth/admin/GuestManagement.js:11-34).
- **Activation success carries its message.** A successful activation stores the success message in the
  e-mail's record as well as `success: true` (src/pages/auth/admin/GuestManagement.js:60-63).

## Model

| member | source | states |
|---|---|---|
| Common.Or | src/pages/login/Login.js:45 | `a \|\| b` on strings: the first text when it is not empty, the second otherwise |
| Common.StripErrorPrefix | src/components/views/login/OTPSent.js:66 | `message.replace(/^Error: /, "")`: removes one leading "Error: "; a text without that prefix is shown unchanged |
| Common.StripErrorPrefixInverse | src/components/views/login/Reset.js:59 | a message prefixed with "Error: " is shown as the message itself |
| Common.TrimEmptyIffAllSpace | src/pages/auth/admin/Admin.js:84-90 | `s.trim()` is empty exactly when every character of `s` is JavaScript white space |
| Http.TextFailure | src/components/views/login/OTPSent.js:53-55 | the error of a reply read as text: the rejection's message, or the text, or the fallback when the text is empty |
| Http.ReadThenCheck | src/pages/auth/admin/GuestManagement.js:54-58 | read the body, then check the status: success exactly for an ok status with a JSON body; a body that is not JSON fails with its syntax error even on an ok status; a refused JSON reply fails with its message or the fallback |
| Http.CheckThenRead | src/pages/auth/admin/UserManagement.js:275-278 | check the status, then read the body: no error exactly for an ok status; a refused reply gives its JSON message or the fallback, or the syntax error |
| Plate.FullMatchPositional | src/pages/auth/resident/Parking.js:31-32 | an anchored fixed-width pattern matches exactly when the lengths agree and every position matches its class |
| Plate.ValidateLicensePlate | src/pages/auth/resident/Parking.js:30-41 | CAR is valid iff it is shaped `DDL-DDD.DD`, MOTORBIKE iff `DDLD-DDD.DD`, each failure with its own message; every other type is valid with an empty message |
| Plate.CarPlateShape | src/pages/auth/resident/Parking.js:31-36 | a car plate is valid iff it has 10 characters: two digits, a capital, '-', three digits, '.', two digits |
| Plate.MotorbikePlateShape | src/pages/auth/resident/Parking.js:32-39 | a motorbike plate is valid iff it has 11 characters: two digits, a capital, a digit, '-', three digits, '.', two digits |
| Plate.CarPlateExample | src/pages/auth/resident/Parking.js:30-41 | "51H-123.45" is a car plate and not a motorbike plate |
| Plate.MotorbikePlateExample | src/pages/auth/resident/Parking.js:30-41 | "51H1-123.45" is a motorbike plate and not a car plate |
| Plate.ToUpper | src/pages/auth/resident/Parking.js:142 | upper-casing turns a lower-case letter into an upper-case one and keeps every other character; no lower-case letter remains |
| Plate.NormalizePlate | src/pages/auth/resident/Parking.js:142 | `replace(/\s+/g, '').toUpperCase()`: the result holds no white space and no lower-case letter, and is never longer than the input |
| Plate.UpperCased | src/pages/auth/resident/Parking.js:142 | `toUpperCase()`: same length, each character upper-cased in place |
| Plate.UpperCasedAppend | src/pages/auth/resident/Parking.js:142 | upper-casing a concatenation upper-cases each part |
| Plate.NormalizeIsUpperOfKept | src/pages/auth/resident/Parking.js:142 | cleaning drops exactly the white space, keeps every other character in order, and upper-cases each one |
| Plate.NormalizeUppercases | src/pages/auth/resident/Parking.js:228 | a plate without white space is cleaned character by character: same length, each character upper-cased |
| Plate.NormalizeKeepsCleanPlate | src/pages/auth/resident/Parking.js:228 | a plate with no white space and no lower-case letter is sent unchanged |
| Plate.NormalizeIdempotent | src/pages/auth/resident/Parking.js:142 | cleaning twice is cleaning once |
| Plate.ValidPlateIsClean | src/pages/auth/resident/Parking.js:211-228 | a plate that passes the CAR or MOTORBIKE check is sent exactly as typed |
| Plate.CleanedExample | src/pages/auth/resident/Parking.js:228 | "51h-123.45" is sent as "51H-123.45" |
| Plate.RawInputIsValidated | src/pages/auth/resident/Parking.js:211-215 | the raw input is checked: "51h-123.45" is refused as a car plate although its cleaned form would pass |
| ResidentParking.RegisterAndAssignRun | src/pages/auth/resident/Parking.js:195-269 | the first request, if any, registers the cleaned plate for the room; success exactly when four requests go out, the last two reloading lots and rooms, with the success toast; any failure sends at most two and shows an error |
| ResidentParking.RegisterAndAssignGuards | src/pages/auth/resident/Parking.js:196-215 | no request exactly when the token, a form field or the lot is missing or the plate is invalid; the message is that of the first failing check in that order |
| ResidentParking.RegisterAndAssignOrder | src/pages/auth/resident/Parking.js:217-258 | the first request registers the cleaned plate for the room; assign is sent only after an ok register with an id, and targets (selected lot, new vehicle id) |
| ResidentParking.RegisterAndAssignOutcome | src/pages/auth/resident/Parking.js:217-268 | success exactly when both steps went through; it then reloads lots and vehicles; a failure shows one error |
| ResidentParking.RegisteredPlateIsAsTyped | src/pages/auth/resident/Parking.js:211-230 | for CAR and MOTORBIKE the plate registered is the plate typed |
| ResidentParking.CreateVehicleRun | src/pages/auth/resident/Parking.js:133-167 | nothing is sent exactly when the room id is missing, zero or not numeric; success exactly on an ok reply, which reloads the rooms; "already exists" becomes its own message |
| ResidentParking.NotANumber | src/pages/auth/resident/Parking.js:136 | `isNaN(Number(v))`: a missing value is NaN, a number is not, a blank text reads as 0; a text is read by the string-number grammar of JavaScript (sign, decimal point, exponent, `0x`/`0o`/`0b`, `Infinity`) |
| ResidentParking.CreateGuardCases | src/pages/auth/resident/Parking.js:136 | the guard refuses a missing, zero or empty room id and lets a non-zero number through |
| ResidentParking.CreateGuardRefusesLetter | src/pages/auth/resident/Parking.js:136 | a one-character text that is no digit, sign, dot or white space (such as "x") is refused |
| ResidentParking.CreateGuardAcceptsDigits | src/pages/auth/resident/Parking.js:136 | any non-empty text of digits passes the guard |
| ResidentParking.CreateGuardAcceptsExponent | src/pages/auth/resident/Parking.js:136 | "1e3" passes the guard, as `Number` reads it as 1000 |
| ResidentParking.CreateGuardAcceptsHex | src/pages/auth/resident/Parking.js:136 | "0x1A" passes the guard, as `Number` reads it as 26 |
| ResidentParking.CreateGuardAcceptsInfinity | src/pages/auth/resident/Parking.js:136 | "-Infinity" passes the guard |
| ResidentParking.CreateGuardRefusesBareExponent | src/pages/auth/resident/Parking.js:136 | "1e" is refused, as `Number` reads it as NaN |
| ResidentParking.CollectedMembership | src/pages/auth/resident/Parking.js:109-126 | a vehicle is gathered exactly when some room's ok reply lists it |
| ResidentParking.FirstThrow | src/pages/auth/resident/Parking.js:114-124 | the first room whose reply aborts the loop; none means no room aborts |
| ResidentParking.RoomRequests | src/pages/auth/resident/Parking.js:111-119 | one vehicles request per room, in room order |
| ResidentParking.MyVehiclesWithoutRooms | src/pages/auth/resident/Parking.js:96-131 | when the room list cannot be read nothing more is asked, the list is kept and an error is shown |
| ResidentParking.MyVehiclesOfNoRoom | src/pages/auth/resident/Parking.js:102-106 | a null or empty room list empties the vehicle list, with a warning |
| ResidentParking.MyVehiclesOfRooms | src/pages/auth/resident/Parking.js:108-128 | every room is asked in order until one aborts; without an abort the list becomes the ok rooms' vehicles concatenated in room order |
| ResidentParking.MyVehiclesAreTheOkRooms | src/pages/auth/resident/Parking.js:122-125 | a completed load holds exactly the vehicles of the rooms whose reply was ok |
| ResidentParking.GatherVehicles | src/pages/auth/resident/Parking.js:109-126 | the loop stops at the first aborting room, having asked the rooms up to it; otherwise it asks every room and gathers exactly the ok rooms' vehicles |
| ResidentParking.ParkingView.constructor | src/pages/auth/resident/Parking.js:9-18 | the initial state, with the stored token |
| ResidentParking.ParkingView.ChooseLot | src/pages/auth/resident/Parking.js:354-355 | a free lot is remembered and the register-and-assign modal opens |
| ResidentParking.ParkingView.CancelRegisterAndAssign | src/pages/auth/resident/Parking.js:488-491 | closing the modal forgets the lot |
| ResidentParking.ParkingView.RegisterAndAssign | src/pages/auth/resident/Parking.js:195-269 | requests and toasts are those of `RegisterAndAssignRun`; on success the modal closes, the lot is cleared and the form reset |
| ResidentParking.ParkingView.RegisterThenAssign | src/pages/auth/resident/Parking.js:217-268 | the try block after the guards has the same effect as `RegisterAndAssignRun` |
| ResidentParking.ParkingView.CreateVehicle | src/pages/auth/resident/Parking.js:133-167 | requests and toasts are those of `CreateVehicleRun`; success resets the form and closes the modal |
| ResidentParking.ParkingView.Unassign | src/pages/auth/resident/Parking.js:271-292 | one DELETE; an ok reply reloads lots and vehicles with a success toast, anything else shows an error |
| ResidentParking.ParkingView.FetchLots | src/pages/auth/resident/Parking.js:63-83 | an ok JSON reply replaces the lots; anything else keeps them and shows the failure |
| ResidentParking.RoomsFailure | src/pages/auth/resident/Parking.js:88-100 | a room-list request that yields no list throws the rejection's message, the fixed text for a status that is not ok, or the SyntaxError of an unreadable body |
| ResidentParking.RoomsTry | src/pages/auth/resident/Parking.js:108-127 | the loop never warns, and it either throws or yields a list, never both |
| ResidentParking.ParkingView.TryRooms | src/pages/auth/resident/Parking.js:108-127 | requests, vehicle list and thrown message are those of `RoomsTry` |
| ResidentParking.MyVehiclesTry | src/pages/auth/resident/Parking.js:86-127 | a run that warns of no room never throws and empties the list; a run that throws keeps the list; the first request is always the room list |
| ResidentParking.CaughtToast | src/pages/auth/resident/Parking.js:128-130 | the catch shows an error made of the fixed prefix and the thrown message, or the unknown-error text for an empty message |
| ResidentParking.MyVehiclesOutcome | src/pages/auth/resident/Parking.js:85-131 | the room list is always asked first; an error is shown exactly when the vehicle list is kept; a warning comes with an emptied list; no success toast |
| ResidentParking.ParkingView.TryFetchMyVehicles | src/pages/auth/resident/Parking.js:86-127 | requests, warning and vehicle list are those of `MyVehiclesTry`, and it returns what was thrown |
| ResidentParking.ParkingView.FetchMyVehicles | src/pages/auth/resident/Parking.js:85-131 | requests, vehicle list and toast are those of `MyVehiclesOutcome` |
| AdminVehicle.FirstWithIdIn | src/pages/auth/admin/Vehicle.js:286 | the index of the first vehicle whose id the lot lists; none means no listed vehicle has such an id |
| AdminVehicle.LotVehicleDetails | src/pages/auth/admin/Vehicle.js:280-287 | nothing for a free lot or one without ids; otherwise the first vehicle whose id the lot lists, else only the lot's type |
| AdminVehicle.SortLotsCorrect | src/pages/auth/admin/Vehicle.js:413-415 | the sorted lots are in lot-number order and are a permutation of the input |
| AdminVehicle.RenderParkingLot | src/pages/auth/admin/Vehicle.js:411-428 | exactly rows×cols cells (16 for CAR, 70 otherwise); cell i holds the i-th sorted lot of the type with its details while there is one, an empty placeholder after |
| AdminVehicle.GridCellsAreLotsOfKind | src/pages/auth/admin/Vehicle.js:413-415 | every drawn lot is a lot of the screen of the grid's type, and sorting keeps every lot of that type |
| AdminVehicle.OccupiedCountCorrect | src/pages/auth/admin/Vehicle.js:506-510 | the occupied count is the number of that type's occupied lots and never exceeds the type's lot count |
| AdminVehicle.AssignedIdsMembership | src/pages/auth/admin/Vehicle.js:559 | an id is assigned exactly when some lot lists it |
| AdminVehicle.UnassignedVehiclesCorrect | src/pages/auth/admin/Vehicle.js:555-562 | the unassigned vehicles are exactly those no lot lists, in original order, each as often as before |
| AdminVehicle.ShowsUnassignedSection | src/pages/auth/admin/Vehicle.js:556-562 | the card is drawn exactly when some vehicle is unassigned |
| AdminVehicle.RegisterAndAssignRun | src/pages/auth/admin/Vehicle.js:191-276 | the first request, if any, registers the plate as typed; success exactly when at least three requests go out, the third reloading the lots, at most four, with the success toast; any failure sends at most two and shows an error |
| AdminVehicle.RegisterAndAssignGuards | src/pages/auth/admin/Vehicle.js:191-206 | no request exactly when the token, a form field or the empty lot is missing, each with its message in that order; the plate is not checked and is registered as typed |
| AdminVehicle.RegisterAndAssignOrder | src/pages/auth/admin/Vehicle.js:210-268 | assign follows only an ok register with an id and targets (empty lot, id); success reloads the lots, and the lot's vehicles only when the open lot is that lot |
| AdminVehicle.RegisterFailureNamesStatus | src/pages/auth/admin/Vehicle.js:226-229 | a step refused with a status that is not ok and no `error` field reports "<step> failed (Status: <status>)", 409 written as "409" |
| AdminVehicle.UnassignFailure | src/pages/auth/admin/Vehicle.js:89-127 | a zero id or no open lot fails first; 204 succeeds; a status that is not ok fails with the text or the fallback; success implies an ok reply |
| AdminVehicle.UnassignNoContent | src/pages/auth/admin/Vehicle.js:108-113 | an empty 204 succeeds, and the same empty body with 200 fails on reading it |
| AdminVehicle.ListFailure | src/pages/auth/admin/Vehicle.js:51-78 | a list load fails exactly unless the reply is ok and JSON |
| AdminVehicle.VehicleBoard.constructor | src/pages/auth/admin/Vehicle.js:14-25 | the initial state, with the stored token |
| AdminVehicle.VehicleBoard.ClickLot | src/pages/auth/admin/Vehicle.js:444-457 | an occupied lot is opened and its vehicles requested; a free lot opens register-and-assign with its type |
| AdminVehicle.VehicleBoard.RegisterAndAssign | src/pages/auth/admin/Vehicle.js:191-276 | requests and toasts are those of `RegisterAndAssignRun`; success closes the modal and resets its form |
| AdminVehicle.VehicleBoard.Unassign | src/pages/auth/admin/Vehicle.js:89-127 | nothing is sent before the guards pass; success reloads the open lot's vehicles and then the lots; a failure shows `UnassignFailure` |
| AdminVehicle.VehicleBoard.FetchParkingLots | src/pages/auth/admin/Vehicle.js:40-62 | a readable list replaces the lots; otherwise they are kept and the failure shown |
| AdminVehicle.VehicleBoard.FetchLotVehicles | src/pages/auth/admin/Vehicle.js:64-87 | a readable list replaces the lot's vehicles; otherwise the lot's vehicles are emptied and the failure shown |
| AdminVehicle.EmptyVehicleListConsequences | src/pages/auth/admin/Vehicle.js:280-287 | with the list left empty an occupied lot only shows its type and the unassigned card never shows |
| Signup.EmailPatternMatches | src/pages/signup/Signup.js:27 | the e-mail regular expression: some '@' and a later '.' cut the text into three non-empty runs without white space or '@'; a match has at least 5 characters and an '@' |
| Signup.PasswordPatternMatches | src/pages/signup/Signup.js:28 | the password regular expression with its three lookaheads; a match has at least 8 characters and no white space |
| Signup.EmailShapeMatchesPattern | src/pages/signup/Signup.js:27-35 | the e-mail pattern holds iff there is no white space, exactly one '@' with text before it, and a '.' inside the domain that is neither its first nor its last character |
| Signup.PasswordShapeMatchesPattern | src/pages/signup/Signup.js:28-40 | the password pattern holds iff there are at least 8 characters, only letters, digits and `@$!%*#?&`, and at least one of each kind |
| Signup.PasswordExamples | src/pages/signup/Signup.js:28 | "abc12345@" passes; no special, a '-' or fewer than 8 characters fails |
| Signup.FormProblem | src/pages/signup/Signup.js:25-49 | no problem iff all checks pass; a missing required field (not the names) wins, then the e-mail, then the password |
| Signup.SignupPage.constructor | src/pages/signup/Signup.js:7-16 | the empty form and no message |
| Signup.SignupPage.ValidateForm | src/pages/signup/Signup.js:25-49 | returns true iff `FormProblem` finds nothing; otherwise the first problem's message is set |
| Signup.SignupPage.HandleSignup | src/pages/signup/Signup.js:51-88 | nothing is sent unless the form passes; an ok JSON reply shows success and schedules the move to the login page; anything else shows `SignupError` |
| Signup.SignupError | src/pages/signup/Signup.js:68-84 | never empty; the server's message when the body has one; a rejected request's own message when it has one |
| Signup.SignupErrorExamples | src/pages/signup/Signup.js:68-84 | a refusal without a message shows the fixed failure text; the server's message wins; an ok reply that is not JSON is an error |
| Otp.Join | src/components/views/login/OTPSent.js:43 | `join("")`: empty exactly when every slot is empty, and it starts with the first slot; `JoinSingles` gives the code for one-character slots |
| Otp.JoinSingles | src/components/views/login/OTPSent.js:43-61 | joining one-character slots gives one character per slot, in slot order |
| Otp.FilledSlotsGiveCode | src/components/views/login/OTPSent.js:35-61 | six filled slots join into a six-digit code whose k-th digit is slot k |
| Otp.OtpEntry.constructor | src/components/views/login/OTPSent.js:9-13 | six empty slots, no error, nothing sent |
| Otp.OtpEntry.HandleOtpChange | src/components/views/login/OTPSent.js:22-32 | a digit or "" sets slot `index` only and clears the error; any other value changes nothing; six slots remain |
| Otp.OtpEntry.ConfirmDisabled | src/components/views/login/OTPSent.js:124 | the button is enabled only when not processing and every slot is filled |
| Otp.OtpEntry.SubmitVerifyOtp | src/components/views/login/OTPSent.js:34-52 | sends iff every slot is filled, with the joined code; otherwise it sets the error and sends nothing |
| Otp.OtpEntry.CompleteVerifyOtp | src/components/views/login/OTPSent.js:53-69 | an ok reply moves on with the e-mail and the code sent; a failure shows the message without "Error: " |
| Otp.OtpFailureMessages | src/components/views/login/OTPSent.js:55-66 | a server text "Error: m" shows m; an empty text shows the fallback |
| ResetPassword.ResetRefusal | src/components/views/login/Reset.js:16-25 | no refusal iff e-mail and code are present and the passwords agree; the missing-credentials check comes first |
| ResetPassword.ResetPage.constructor | src/components/views/login/Reset.js:8-11 | the e-mail and code handed over, empty password fields |
| ResetPassword.ResetPage.SubmitDisabled | src/components/views/login/Reset.js:112 | enabled only when not processing and both password fields are filled |
| ResetPassword.ResetPage.SubmitPasswordUpdate | src/components/views/login/Reset.js:16-40 | sends iff `ResetRefusal` finds nothing, after clearing the message and setting processing; otherwise it shows the refusal |
| ResetPassword.ResetPage.CompletePasswordUpdate | src/components/views/login/Reset.js:42-63 | success shows the done message and schedules the login page; a failure shows the text without "Error: " |
| ResetPassword.ResetFailureMessages | src/components/views/login/Reset.js:45-59 | a server text "Error: m" shows m; an empty text shows the fallback |
| Login.Accepted | src/pages/login/Login.js:40-54 | a session exactly for an ok JSON reply with a non-empty token and a non-empty roles list, carrying them |
| Login.LoginError | src/pages/login/Login.js:43-65 | an ok reply without token or roles gives the bad-credentials message; a refused one gives its message or the fallback |
| Login.LoginPage.constructor | src/pages/login/Login.js:11-13 | empty fields, no error, the stored token and roles |
| Login.LoginPage.HandleLogin | src/pages/login/Login.js:20-70 | an empty field stops it with no request and no storage change; acceptance stores token and roles and navigates; any later failure shows the error and removes the token |
| Login.NoRolesNoSession | src/pages/login/Login.js:49-53 | an ok reply with a token but no roles is refused |
| UserManagement.Merge | src/pages/auth/admin/UserManagement.js:221-223 | `{...user, ...patch}`: each field the patch holds takes the patch's value, every other field keeps the user's; an empty patch leaves the user unchanged |
| UserManagement.FormatUser | src/pages/auth/admin/UserManagement.js:83-88 | ids, names, e-mail and roles are kept; an empty first or last name becomes "N/A"; a missing birth date becomes "N/A", a present one is formatted |
| UserManagement.UsersFetch | src/pages/auth/admin/UserManagement.js:50-99 | a list exactly for an ok JSON reply with code 0 and a missing or array result; another code, or a refusal, gives its message |
| UserManagement.LoadedUsersHaveNames | src/pages/auth/admin/UserManagement.js:83-88 | every loaded user has a first and a last name to print |
| UserManagement.WithoutUserCorrect | src/pages/auth/admin/UserManagement.js:175 | deleting keeps exactly the users with another id, in order, each as often as before |
| UserManagement.GrantAdmin | src/pages/auth/admin/UserManagement.js:282-285 | ADMIN is appended after the existing roles and nothing else changes |
| UserManagement.GrantAdminOnlyTouchesUser | src/pages/auth/admin/UserManagement.js:281-286 | only the users with that id change, and only by one more role |
| UserManagement.DeleteButtonShown | src/pages/auth/admin/UserManagement.js:386-389 | shown iff the signed-in user is loaded and has exactly the one role ADMIN |
| UserManagement.DeleteGateAsWritten | src/pages/auth/admin/UserManagement.js:386-389 | the written condition throws exactly when `userInfo` is still null |
| UserManagement.UserCardsAsWritten | src/pages/auth/admin/UserManagement.js:351-389 | with no users the condition is never evaluated |
| UserManagement.DeleteGateAgrees | src/pages/auth/admin/UserManagement.js:386-389 | the cards throw iff there is a user while `userInfo` is null; otherwise they agree with `DeleteButtonShown` |
| UserManagement.DeleteGateCrashExample | src/pages/auth/admin/UserManagement.js:386-389 | one loaded user before the signed-in user's record arrives makes the table throw |
| UserManagement.UpdateOutcome | src/pages/auth/admin/UserManagement.js:181-211 | the patch exactly for an ok JSON reply; a refusal gives its message or the fallback |
| UserManagement.UserTable.constructor | src/pages/auth/admin/UserManagement.js:7-30 | no users, no signed-in record, closed dialogs |
| UserManagement.UserTable.FetchUsers | src/pages/auth/admin/UserManagement.js:50-99 | a good reply replaces the users and clears the error; a failure empties the list and shows the message |
| UserManagement.UserTable.HandleCreateUser | src/pages/auth/admin/UserManagement.js:110-157 | a missing required field stops it; an accepted user is appended at the end and the form reset; a failure shows its message |
| UserManagement.UserTable.DeleteUser | src/pages/auth/admin/UserManagement.js:163-179 | an ok reply removes exactly the users with that id; a failure keeps the list |
| UserManagement.UserTable.HandleUpdateUser | src/pages/auth/admin/UserManagement.js:181-231 | nothing without a selected user; an accepted patch is merged into the users with the selected id only; a failure keeps the list |
| UserManagement.UserTable.MakeAdmin | src/pages/auth/admin/UserManagement.js:262-293 | an ok reply grants ADMIN to the users with that id only and closes the dialog; a failure keeps the list |
| Rooms.Defaulted | src/pages/auth/admin/Admin.js:127-128 | `??` replaces only a missing or null value by "Chưa cập nhật"; 0 and "" are kept |
| Rooms.FormatRoom | src/pages/auth/admin/Admin.js:125-129 | only floor and people count change, and neither is missing afterwards |
| Rooms.ZeroFloorKept | src/pages/auth/admin/Admin.js:127 | a floor of 0 is shown as 0 |
| Rooms.RoomsFetch | src/pages/auth/admin/Admin.js:111-136 | the formatted rooms exactly for an ok JSON array; a refusal gives the fixed message |
| Rooms.WithoutRoomCorrect | src/pages/auth/admin/Admin.js:158 | deleting keeps exactly the rooms with another id, in order |
| Rooms.WithoutMemberCorrect | src/pages/auth/admin/Admin.js:243-250 | only the rooms with that id change, and only by losing every occurrence of the user |
| Rooms.RoomFormIncompleteIsTrimTest | src/pages/auth/admin/Admin.js:84-90 | the guard holds iff one of the three fields trims to "" |
| Rooms.RoomBoard.constructor | src/pages/auth/admin/Admin.js:5-29 | no rooms, the blank form, loading |
| Rooms.RoomBoard.FetchRooms | src/pages/auth/admin/Admin.js:111-136 | a good reply replaces the rooms; a failure keeps them and shows the message |
| Rooms.RoomBoard.HandleAddRoom | src/pages/auth/admin/Admin.js:56-108 | a blank field stops it; a created room is appended with no residents and the form cleared and closed; a failure keeps the list |
| Rooms.RoomBoard.DeleteRoom | src/pages/auth/admin/Admin.js:147-162 | an ok reply removes exactly the rooms with that id |
| Rooms.RoomBoard.HandleRemoveUser | src/pages/auth/admin/Admin.js:220-257 | an ok reply removes the user from that room only; a failure changes no room; either way the outcome is alerted |
| Fees.WithStatusCorrect | src/pages/auth/admin/FeeManagement.js:117-118 | only the fees with that id change, only in status; a status from the selector keeps every status one the selector offers |
| Fees.WithoutFeeCorrect | src/pages/auth/admin/FeeManagement.js:136-138 | deleting keeps exactly the fees with another id, in order |
| Fees.Failure | src/pages/auth/admin/FeeManagement.js:40-44 | a failed request shows an error: the rejection's message or the handler's text |
| Fees.FeeTable.constructor | src/pages/auth/admin/FeeManagement.js:21-26 | no fees, loading, dialog closed |
| Fees.FeeTable.FetchFees | src/pages/auth/admin/FeeManagement.js:31-48 | a good reply replaces the fees; a failure keeps them and notifies |
| Fees.FeeTable.HandleUploadFees | src/pages/auth/admin/FeeManagement.js:78-101 | the upload is always filed as UNPAID; success closes the dialog and reloads |
| Fees.FeeTable.HandleStatusChange | src/pages/auth/admin/FeeManagement.js:104-122 | an ok reply sets the status of the fees with that id; a failure keeps the table |
| Fees.FeeTable.HandleDeleteFee | src/pages/auth/admin/FeeManagement.js:125-142 | an ok reply removes exactly the fees with that id; a failure keeps the table |
| Complaints.QueryKeysUnfold | src/pages/auth/admin/Complain.js:25-28 | the query holds a key per non-empty filter, in the order status, priority, type |
| Complaints.SetKeys | src/pages/auth/admin/Complain.js:25-28 | a key is listed exactly when it is among the candidate keys and its filter is non-empty |
| Complaints.Append | src/pages/auth/admin/Complain.js:26-28 | `params.append` for a set filter adds that key last and every pair still holds its filter's non-empty value |
| Complaints.BuildQuery | src/pages/auth/admin/Complain.js:25-28 | the parameters' keys are exactly the set filters in that order, each with its non-empty value |
| Complaints.QueryDetermined | src/pages/auth/admin/Complain.js:25-28 | the keys and the filters fix the query: two queries with the same keys that carry the filters are equal |
| Complaints.QueryExamples | src/pages/auth/admin/Complain.js:25-28 | no filter gives no parameter; three filters give all three |
| Complaints.Prefill | src/pages/auth/admin/Complain.js:120-128 | the form starts with the complaint's response or "", its priority and its status |
| Complaints.PriorityTag | src/pages/auth/admin/Complain.js:130-137 | the tag shows the value; the colour is "default" exactly for a value other than HIGH, MEDIUM, LOW |
| Complaints.StatusTag | src/pages/auth/admin/Complain.js:139-146 | the same for WAITING, IN_PROGRESS, RESOLVED |
| Complaints.TypeTag | src/pages/auth/admin/Complain.js:148-155 | the same for FACILITY, FEE, SECURITY |
| Complaints.TagColoursDistinct | src/pages/auth/admin/Complain.js:130-155 | within each mapper two known values never share a colour |
| Complaints.WithoutComplaintCorrect | src/pages/auth/admin/Complain.js:111 | deleting keeps exactly the complaints with another id, in order |
| Complaints.ResolveFailure | src/pages/auth/admin/Complain.js:83-92 | the JSON body's message when there is one; otherwise "Request failed with status N"; a rejected request shows its message or "Failed to update complaint" |
| Complaints.ComplaintBoard.constructor | src/pages/auth/admin/Complain.js:9-18 | no complaints, no filters, no selection |
| Complaints.ComplaintBoard.FetchComplaints | src/pages/auth/admin/Complain.js:22-52 | one request whose query lists exactly the set filters in order with their values; a good reply replaces the list, anything else keeps it and shows the failure |
| Complaints.ComplaintBoard.HandleDelete | src/pages/auth/admin/Complain.js:98-118 | only a 204 removes the complaints with that id; any other reply is an error and keeps the list |
| Complaints.ComplaintBoard.OpenResolveModal | src/pages/auth/admin/Complain.js:120-128 | selects the complaint, opens the dialog with `Prefill` |
| Complaints.ComplaintBoard.HandleResolve | src/pages/auth/admin/Complain.js:58-94 | without a selection nothing is sent; success closes the dialog and reloads with the current filters' query; a failure shows `ResolveFailure` |
| Guests.GuestsOf | src/pages/auth/admin/GuestManagement.js:23-24 | an array is the list; any other JSON value is no guests |
| Guests.ActivateDisabled | src/pages/auth/admin/GuestManagement.js:126-139 | the button is disabled exactly while that e-mail's record is loading |
| Guests.WithoutEmailCorrect | src/pages/auth/admin/GuestManagement.js:66-68 | removal keeps exactly the guests with another e-mail, in order |
| Guests.WithoutGuestCorrect | src/pages/auth/admin/GuestManagement.js:94 | deleting keeps exactly the guests with another id, in order |
| Guests.GuestBoard.constructor | src/pages/auth/admin/GuestManagement.js:5-8 | no guests, loading, no activation records |
| Guests.GuestBoard.FetchGuests | src/pages/auth/admin/GuestManagement.js:11-34 | a JSON body becomes the list whatever the status; a rejection or an unreadable body keeps the list and shows the error |
| Guests.GuestBoard.StartActivate | src/pages/auth/admin/GuestManagement.js:36-41 | that e-mail's record becomes loading with an empty message; every other record is kept |
| Guests.GuestBoard.FinishActivate | src/pages/auth/admin/GuestManagement.js:54-75 | that e-mail's record ends in success or in the failure's message, and only a success schedules the guest's removal |
| Guests.GuestBoard.RemoveActivated | src/pages/auth/admin/GuestManagement.js:66-68 | the scheduled removal drops exactly the guests with that e-mail |
| Guests.GuestBoard.HandleDelete | src/pages/auth/admin/GuestManagement.js:78-98 | nothing happens without confirmation; an ok reply drops exactly the guests with that id |
| Notifications.TypeColor | src/pages/auth/admin/Notifications.js:211-220 | gray exactly for a type other than the five |
| Notifications.TypeTag | src/pages/auth/admin/Notifications.js:222-231 | the tag shows the type; "default" exactly for a type other than the five |
| Notifications.TypeColoursDistinct | src/pages/auth/admin/Notifications.js:211-219 | the five types get five different heading colours |
| Notifications.TypeColourMatchesTag | src/pages/auth/admin/Notifications.js:211-231 | for each of the five types the heading colour is `text-<tag colour>-500` |
| Notifications.DisplayName | src/pages/auth/admin/Notifications.js:83 | `` `${first} ${last}`.trim() || 'N/A' ``: never empty, and never starts or ends with white space |
| Notifications.DisplayNameOfBlanks | src/pages/auth/admin/Notifications.js:83 | two blank names display as "N/A" |
| Notifications.DisplayNameOfNames | src/pages/auth/admin/Notifications.js:83 | otherwise the display name is the joined names trimmed, never blank, with no outer white space |
| Notifications.DisplayNameOfTidyNames | src/pages/auth/admin/Notifications.js:83 | for tidy names: both with one space, the one present, or "N/A" |
| Notifications.FormatUser | src/pages/auth/admin/Notifications.js:79-85 | keeps the id; an empty name field becomes "N/A" |
| Notifications.NameColumnShowsLastPlaceholder | src/pages/auth/admin/Notifications.js:81-83 | a user with only a first name is listed as "first N/A" although its name is "first" |
| Notifications.NameColumnShowsBothPlaceholders | src/pages/auth/admin/Notifications.js:81-83 | a user without names is listed as "N/A N/A" although its name is "N/A" |
| Notifications.NameColumnAsWritten | src/pages/auth/admin/Notifications.js:250 | never empty; for a formatted record it is the display name of the names after "N/A" replaced the missing ones |
| Notifications.NameColumn | src/pages/auth/admin/Notifications.js:250 | for a formatted record, the display name of the names as received |
| Notifications.NameColumnCorrect | src/pages/auth/admin/Notifications.js:83 | the intended column lists the names present, with one space between two, and "N/A" only when neither is |
| Notifications.IdsOf | src/pages/auth/admin/Notifications.js:235 | the selected ids, one per row, in selection order |
| Notifications.SendFailure | src/pages/auth/admin/Notifications.js:191-202 | never empty; the JSON body's message when there is one; otherwise "Request failed with status N"; a rejected request shows its message or the fallback |
| Notifications.AnnouncementBoard.constructor | src/pages/auth/admin/Notifications.js:8-15 | no selection, dialog closed, blank form |
| Notifications.AnnouncementBoard.SelectRows | src/pages/auth/admin/Notifications.js:233-238 | the selection becomes the picked users' ids in order |
| Notifications.AnnouncementBoard.HandleSendToSpecific | src/pages/auth/admin/Notifications.js:167-204 | an empty selection only shows an error; otherwise the selected ids are sent; success clears the selection, resets the form and closes the dialog |

## Left out

- Requests and replies are not performed. Each reply is a parameter, and the request is recorded in the
  `requests` log with its method, path and payload fields. URLs, headers and `encodeURIComponent` are
  not modelled.
- `localStorage` is modelled only where the code reads or writes it:
  - the token and roles a screen starts with;
  - the token and roles `Login` stores or removes.
- Navigation is recorded as the route a pending `setTimeout` or `navigate` will go to. Timers do not fire
  by themselves: `Guests.GuestBoard.RemoveActivated` is the timer's callback.
- JSX, antd components, CSS, tooltips and DOM focus are not modelled. Neither is the refresh interval.
- Dates (`new Date`, `toLocaleDateString`, the ISO birth date sign-up sends) become a `formatDate`
  parameter or are kept as text.
- Floating-point formatting is not modelled: the occupancy percentage, amounts with `toFixed` and
  `toLocaleString`.
- The lot-number order (`localeCompare` with `numeric: true`) is an abstract total order parameter `le`.
  The sort is modelled as a stable insertion sort, not the browser's algorithm.
- `Number(...)` conversions are modelled only in the create-vehicle guard, and there only as whether
  the text reads as a number or as NaN. The value it reads is not computed. Elsewhere ids are integers
  and room fields are sent as typed.
- Upper-casing covers ASCII letters only. White space is JavaScript's `\s` set.
- Handlers run one at a time over the current state. Concurrent handlers, stale closures and
  `Promise.all` are not modelled. A reload a handler triggers is a request in the log, and its reply is
  applied by a separate call to the fetch method.
- These handlers are not part of this model. Each is a plain request followed by a reload, with no rule
  beyond the failure message:
  - the admin `handleCreateVehicle` and `handleAssignVehicle`;
  - the resident `handleAssign`;
  - `fetchRoomIds`;
  - the room member dialogs (`addRoomUser`, `showRoomUser`);
  - `handleAddFee`;
  - `fetchUserDetail`;
  - in `Notifications.js`: `fetchAnnouncements`, `createAnnouncement`, `deleteAnnouncement`,
    `sendToAll`.
- `fetchUserInfo` is modelled only through the `userInfo` value the delete gate reads: null until
  loaded, and null again after a failed load.
- The envelope checks of the announcement screen's `fetchUsers` are not modelled. Its per-user
  formatting is.
- `Forgot.js`, `Contribute.js`, `Resident.js`, `Account.js`, the navigation bars and the routing files
  are not part of this model.
- Fees.FeeTable.FetchFees: the fee amount is kept as the server's text; its numeric formatting is not
  modelled.
- UserManagement.UserTable.FetchUsers: the `loading` object's separate flags are one flag per
  operation; the order in which `finally` blocks reset them is not modelled.

## Findings

| source | as written | input that shows it | evidently intended | confidence | as-written member | corrected member |
|---|---|---|---|---|---|---|
| src/pages/auth/admin/UserManagement.js:386-389 | The delete button's condition reads `userInfo.roles` without checking `userInfo`. `userInfo` starts as null (:13) and stays null when `/users/my-info` fails (:312-318). | One loaded user while `userInfo` is still null: evaluating the condition throws a TypeError, and the table fails to render. | Show the button only when the signed-in user is loaded and has exactly the role ADMIN; otherwise hide it. | medium, not executed | UserManagement.UserCardsAsWritten, UserManagement.DeleteGateCrashExample | UserManagement.DeleteButtonShown, UserManagement.DeleteGateAgrees |
| src/pages/auth/admin/Notifications.js:250 | The "Name" column rebuilds the name from `record.firstName` and `record.lastName`. `fetchUsers` has already replaced missing names by "N/A" (:81-82). | firstName "An" and no lastName: the column shows "An N/A", where the `name` computed at :83 is "An". With no names it shows "N/A N/A". | Show the display name computed at :83. | medium, not executed | Notifications.NameColumnAsWritten, Notifications.NameColumnShowsLastPlaceholder, Notifications.NameColumnShowsBothPlaceholders | Notifications.NameColumn, Notifications.NameColumnCorrect |
