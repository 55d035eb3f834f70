/**
 * The resident parking screen: the register-then-assign flow, vehicle creation,
 * unassigning, and the two loaders (all lots; the resident's own vehicles,
 * gathered room by room).
 *
 * The screen's state is a class. Each handler is one method that runs to the
 * end over the current state, with every server reply it awaits passed in as a
 * parameter; the requests it sends are appended to `requests` and the toasts it
 * raises to `toasts`. What each handler does is first stated as a function of
 * its inputs (the `...Run` / `...Outcome` functions), and the properties of the
 * flow are proved about those functions.
 */
module ResidentParking {
  import opened Common
  import opened Http
  import opened Lots
  import opened Plate

  /** Number of '.' characters in `s`. */
  function DotCount(s: string): nat {
    if s == [] then 0 else (if s[0] == '.' then 1 else 0) + DotCount(s[1..])
  }

  /** Digits with at most one decimal point and at least one digit: `12`, `12.5`, `.5`, `12.`. */
  predicate UnsignedDecimal(u: string) {
    (forall i :: 0 <= i < |u| ==> IsDigit(u[i]) || u[i] == '.') &&
    DotCount(u) <= 1 &&
    (exists i :: 0 <= i < |u| && IsDigit(u[i]))
  }

  predicate IsHexDigit(c: char) { IsDigit(c) || 'a' <= c <= 'f' || 'A' <= c <= 'F' }
  predicate IsOctalDigit(c: char) { '0' <= c <= '7' }
  predicate IsBinaryDigit(c: char) { c == '0' || c == '1' }

  /** At least one character, and every one a digit in the sense of `isDigit`. */
  predicate DigitsOf(d: string, isDigit: char -> bool) {
    d != [] && forall i :: 0 <= i < |d| ==> isDigit(d[i])
  }

  /** Decimal digits, with an optional leading sign: the part after the `e` of an exponent. */
  predicate SignedDigits(d: string) {
    if d != [] && (d[0] == '+' || d[0] == '-') then DigitsOf(d[1..], IsDigit)
    else DigitsOf(d, IsDigit)
  }

  /** Index of the first `e` or `E` in `u`, or `|u|` when there is none. */
  function ExponentAt(u: string): (k: nat)
    ensures k <= |u|
    ensures k < |u| ==> u[k] == 'e' || u[k] == 'E'
    ensures forall i :: 0 <= i < k ==> u[i] != 'e' && u[i] != 'E'
  {
    if u == [] || u[0] == 'e' || u[0] == 'E' then 0 else 1 + ExponentAt(u[1..])
  }

  /** An unsigned decimal literal: a mantissa (`12`, `12.5`, `.5`, `12.`) and an optional
      exponent (`e3`, `E-2`). */
  predicate DecimalLiteral(u: string) {
    var k := ExponentAt(u);
    UnsignedDecimal(u[..k]) && (k == |u| || SignedDigits(u[k + 1..]))
  }

  /** An unsigned decimal literal or `Infinity`. */
  predicate UnsignedNumber(u: string) {
    u == "Infinity" || DecimalLiteral(u)
  }

  /** A hexadecimal (`0x1A`), octal (`0o17`) or binary (`0b101`) integer; these take no sign. */
  predicate NonDecimalInteger(t: string) {
    |t| >= 3 && t[0] == '0' &&
    (((t[1] == 'x' || t[1] == 'X') && DigitsOf(t[2..], IsHexDigit)) ||
     ((t[1] == 'o' || t[1] == 'O') && DigitsOf(t[2..], IsOctalDigit)) ||
     ((t[1] == 'b' || t[1] == 'B') && DigitsOf(t[2..], IsBinaryDigit)))
  }

  /** `Number(s)` is a number (not NaN) when the trimmed text is blank (0), a non-decimal
      integer, or a decimal literal or `Infinity` with an optional sign: the
      `StringNumericLiteral` grammar of ECMAScript. */
  predicate NumericText(s: string) {
    var t := Trim(s);
    t == "" ||
    NonDecimalInteger(t) ||
    ((t[0] == '+' || t[0] == '-') && UnsignedNumber(t[1..])) ||
    UnsignedNumber(t)
  }

  /** `isNaN(Number(v))` */
  predicate NotANumber(v: FieldValue)
    ensures v.Absent? ==> NotANumber(v)
    ensures v.Num? ==> !NotANumber(v)
    ensures v.Text? && AllSpace(v.s) ==> !NotANumber(v)
  {
    match v
    case Absent => true
    case Num(_) => false
    case Text(s) => TrimEmptyIffAllSpace(s); !NumericText(s)
  }

  /** A vehicle of the resident's, as `vehicles-with-lots` lists it; `lotNumber` is that of its lot, if any. */
  datatype MyVehicle = MyVehicle(vehicleId: int, licensePlate: string, kind: string, lotNumber: Option<string>)

  datatype Request =
    | GetRooms                                                        // GET /users/room
    | GetLots                                                         // GET /api/vehicles
    | GetRoomVehicles(roomId: int)                                    // GET /api/vehicles/{room}/vehicles-with-lots
    | RegisterVehicle(room: FieldValue, licensePlate: string, kind: string)  // POST /api/vehicles/room/{room}
    | AssignVehicle(lotId: int, vehicleId: int)                      // POST /api/vehicles/{lot}/assign-vehicle/{vehicle}
    | UnassignVehicle(vehicleId: int)                                 // DELETE /api/vehicles/{vehicle}/unassign

  /** The toasts a step raises: none for `Silent`. */
  function Shown(t: Toast): seq<Toast> {
    if t.Silent? then [] else [t]
  }

  const NoTokenMessage := "Không tìm thấy token xác thực. Vui lòng đăng nhập lại."
  const IncompleteFormMessage := "Thiếu thông tin đăng ký xe."
  const NoLotMessage := "Chưa chọn lot để gán."
  const RegisterFailedMessage := "Đăng ký xe thất bại"
  const BadVehicleMessage := "Dữ liệu xe không hợp lệ."
  const AssignFailedMessage := "Gán lot thất bại"
  const UnknownErrorMessage := "Đã xảy ra lỗi không xác định"
  const RegisterAssignedMessage := "Đăng ký và gán lot thành công"

  /** The message of the first register-and-assign guard that fails, in the order the handler
      checks them: token, form fields, selected lot, plate format. */
  function RegisterAndAssignRefusal(token: Option<string>, values: VehicleForm, selected: Option<Lot>): Option<string> {
    if !TokenPresent(token) then Some(NoTokenMessage)
    else if !FormComplete(values) then Some(IncompleteFormMessage)
    else if !LotChosen(selected) then Some(NoLotMessage)
    else if !ValidateLicensePlate(values.kind, values.licensePlate).valid then
      Some(ValidateLicensePlate(values.kind, values.licensePlate).message)
    else None
  }

  /** The id of the registered vehicle: the reply is ok, its body is JSON and `vehicle?.id` is truthy. */
  function RegisteredId(reply: Reply<ServerRecord>): Option<int> {
    if Ok(reply) && reply.body.Json? && IdPresent(reply.body.value.id) then reply.body.value.id else None
  }

  /** The message the register step fails with, when it yields no id. */
  function RegisterFailure(reply: Reply<ServerRecord>, fallback: string): string {
    match reply
    case NetworkError(reason) => Or(reason, UnknownErrorMessage)
    case Response(_, _, body) =>
      if !Ok(reply) then Or(if body.Json? then body.value.error else "", fallback)
      else if body.Unparsable? then Or(body.syntaxError, UnknownErrorMessage)
      else BadVehicleMessage
  }

  /** The assign step succeeds when the reply is ok and its body reads as JSON. */
  predicate AssignAccepted(reply: Reply<ServerRecord>) {
    Ok(reply) && reply.body.Json?
  }

  function AssignFailure(reply: Reply<ServerRecord>): string {
    match reply
    case NetworkError(reason) => Or(reason, UnknownErrorMessage)
    case Response(_, _, body) =>
      if !Ok(reply) then Or(if body.Json? then body.value.error else "", AssignFailedMessage)
      else if body.Unparsable? then Or(body.syntaxError, UnknownErrorMessage)
      else ""
  }

  /** What one run of a handler sends and shows, and whether it reached its success branch. */
  datatype Run = Run(requests: seq<Request>, toast: Toast, succeeded: bool)

  /** `handleRegisterAndAssign`: guards, then register, then assign with the new vehicle's id,
      then reload lots and vehicles (their first requests are listed). */
  function RegisterAndAssignRun(token: Option<string>, values: VehicleForm, selected: Option<Lot>,
                                registerReply: Reply<ServerRecord>, assignReply: Reply<ServerRecord>): (r: Run)
    ensures r.requests != [] ==>
      r.requests[0] == RegisterVehicle(values.roomId, NormalizePlate(values.licensePlate), values.kind)
    ensures r.succeeded <==> |r.requests| == 4
    ensures r.succeeded ==> r.requests[2..] == [GetLots, GetRooms] && r.toast == SuccessToast(RegisterAssignedMessage)
    ensures !r.succeeded ==> |r.requests| <= 2 && r.toast.ErrorToast?
  {
    var refusal := RegisterAndAssignRefusal(token, values, selected);
    if refusal.Some? then Run([], ErrorToast(refusal.value), false)
    else
      var register := RegisterVehicle(values.roomId, NormalizePlate(values.licensePlate), values.kind);
      var id := RegisteredId(registerReply);
      if id.None? then Run([register], ErrorToast(RegisterFailure(registerReply, RegisterFailedMessage)), false)
      else
        var assign := AssignVehicle(selected.value.id, id.value);
        if !AssignAccepted(assignReply) then Run([register, assign], ErrorToast(AssignFailure(assignReply)), false)
        else Run([register, assign, GetLots, GetRooms], SuccessToast(RegisterAssignedMessage), true)
  }

  /** A refused run sends nothing and shows the message of the first guard that failed, checked
      in the order token, form fields, selected lot, plate format. */
  lemma RegisterAndAssignGuards(token: Option<string>, values: VehicleForm, selected: Option<Lot>,
                                registerReply: Reply<ServerRecord>, assignReply: Reply<ServerRecord>)
    ensures var r := RegisterAndAssignRun(token, values, selected, registerReply, assignReply);
      (r.requests == [] <==>
        !TokenPresent(token) || !FormComplete(values) || !LotChosen(selected) ||
        !ValidateLicensePlate(values.kind, values.licensePlate).valid) &&
      (!TokenPresent(token) ==> r.toast == ErrorToast(NoTokenMessage)) &&
      (TokenPresent(token) && !FormComplete(values) ==> r.toast == ErrorToast(IncompleteFormMessage)) &&
      (TokenPresent(token) && FormComplete(values) && !LotChosen(selected) ==> r.toast == ErrorToast(NoLotMessage)) &&
      (TokenPresent(token) && FormComplete(values) && LotChosen(selected) &&
       !ValidateLicensePlate(values.kind, values.licensePlate).valid ==>
         r.toast == ErrorToast(ValidateLicensePlate(values.kind, values.licensePlate).message))
  {
  }

  /** Once the guards pass, the first request registers the cleaned plate for the chosen room;
      the assign request follows only when register was ok and returned an id, and it targets
      exactly (selected lot, returned id). */
  lemma RegisterAndAssignOrder(token: Option<string>, values: VehicleForm, selected: Option<Lot>,
                               registerReply: Reply<ServerRecord>, assignReply: Reply<ServerRecord>)
    ensures var r := RegisterAndAssignRun(token, values, selected, registerReply, assignReply);
      (RegisterAndAssignRefusal(token, values, selected).None? ==>
        |r.requests| >= 1 &&
        r.requests[0] == RegisterVehicle(values.roomId, NormalizePlate(values.licensePlate), values.kind)) &&
      (|r.requests| >= 2 <==>
        RegisterAndAssignRefusal(token, values, selected).None? && RegisteredId(registerReply).Some?) &&
      (|r.requests| >= 2 ==>
        r.requests[1] == AssignVehicle(selected.value.id, RegisteredId(registerReply).value) &&
        RegisteredId(registerReply).value != 0) &&
      (forall i :: 0 <= i < |r.requests| && r.requests[i].AssignVehicle? ==> i == 1) &&
      |r.requests| <= 4 && |r.requests| != 3
  {
  }

  /** The run succeeds exactly when both steps went through; it then reloads lots and vehicles.
      A failed run shows the failing step's message. */
  lemma RegisterAndAssignOutcome(token: Option<string>, values: VehicleForm, selected: Option<Lot>,
                                 registerReply: Reply<ServerRecord>, assignReply: Reply<ServerRecord>)
    ensures var r := RegisterAndAssignRun(token, values, selected, registerReply, assignReply);
      (r.succeeded <==>
        RegisterAndAssignRefusal(token, values, selected).None? &&
        RegisteredId(registerReply).Some? && AssignAccepted(assignReply)) &&
      (r.succeeded ==> r.requests[2..] == [GetLots, GetRooms] && r.toast == SuccessToast(RegisterAssignedMessage)) &&
      (!r.succeeded ==> |r.requests| <= 2 && r.toast.ErrorToast?) &&
      (!r.succeeded && RegisterAndAssignRefusal(token, values, selected).None? ==>
        r.toast == ErrorToast(if RegisteredId(registerReply).None? then RegisterFailure(registerReply, RegisterFailedMessage)
                              else AssignFailure(assignReply)))
  {
  }

  /** A plate that reaches the server on this path passed the CAR/MOTORBIKE format check, so for
      those types it is sent exactly as typed. */
  lemma RegisteredPlateIsAsTyped(token: Option<string>, values: VehicleForm, selected: Option<Lot>,
                                 registerReply: Reply<ServerRecord>, assignReply: Reply<ServerRecord>)
    requires values.kind == CAR || values.kind == MOTORBIKE
    ensures var r := RegisterAndAssignRun(token, values, selected, registerReply, assignReply);
      |r.requests| >= 1 ==> r.requests[0].licensePlate == values.licensePlate
  {
    if RegisterAndAssignRefusal(token, values, selected).None? {
      ValidPlateIsClean(values.kind, values.licensePlate);
    }
  }

  const BadRoomMessage := "roomId không hợp lệ. Vui lòng chọn roomId."
  const CreateFailedMessage := "Không thể tạo xe. Vui lòng kiểm tra biển số."
  const DuplicatePlateMessage := "Biển số đã tồn tại!"
  const CreatedMessage := "Tạo xe thành công"

  /** `!roomId || isNaN(Number(roomId))` is false. */
  predicate RoomIdUsable(v: FieldValue) {
    Truthy(v) && !NotANumber(v)
  }

  /** The catch block of `handleCreateVehicle`: a message mentioning "already exists" becomes the
      duplicate-plate message, any other is shown as it is. */
  function CreateFailureToast(message: string): Toast {
    ErrorToast(if Includes(message, "already exists") then DuplicatePlateMessage else message)
  }

  /** `handleCreateVehicle`. The reply body of a failed create is read as JSON without a catch,
      so an unreadable body fails with its SyntaxError message. */
  function CreateVehicleRun(values: VehicleForm, reply: Reply<ServerRecord>): (r: Run)
    ensures !RoomIdUsable(values.roomId) <==> r.requests == []
    ensures !RoomIdUsable(values.roomId) ==> r.toast == ErrorToast(BadRoomMessage) && !r.succeeded
    ensures RoomIdUsable(values.roomId) ==>
      r.requests[0] == RegisterVehicle(values.roomId, NormalizePlate(values.licensePlate), values.kind)
    ensures r.succeeded <==> RoomIdUsable(values.roomId) && Ok(reply)
    ensures r.succeeded ==> r.requests[1..] == [GetRooms] && r.toast == SuccessToast(CreatedMessage)
    ensures RoomIdUsable(values.roomId) && !r.succeeded ==> |r.requests| == 1 && r.toast.ErrorToast?
    ensures (RoomIdUsable(values.roomId) && reply.Response? && !Ok(reply) && reply.body.Json? &&
             Includes(reply.body.value.error, "already exists")) ==>
      r.toast == ErrorToast(DuplicatePlateMessage)
  {
    if !RoomIdUsable(values.roomId) then Run([], ErrorToast(BadRoomMessage), false)
    else
      var register := RegisterVehicle(values.roomId, NormalizePlate(values.licensePlate), values.kind);
      match reply
      case NetworkError(reason) => Run([register], CreateFailureToast(reason), false)
      case Response(_, _, body) =>
        if Ok(reply) then Run([register, GetRooms], SuccessToast(CreatedMessage), true)
        else if body.Unparsable? then Run([register], CreateFailureToast(body.syntaxError), false)
        else Run([register], CreateFailureToast(Or(body.value.error, CreateFailedMessage)), false)
  }

  lemma {:induction false} NoDotInDigits(s: string)
    requires forall i :: 0 <= i < |s| ==> IsDigit(s[i])
    ensures DotCount(s) == 0
  {
    if s != [] {
      NoDotInDigits(s[1..]);
    }
  }

  /** The create guard refuses a missing, zero or empty room id, and lets through a non-zero
      number. */
  lemma CreateGuardCases()
    ensures !RoomIdUsable(Absent) && !RoomIdUsable(Num(0)) && !RoomIdUsable(Text(""))
    ensures RoomIdUsable(Num(12))
  {
    assert Trim("") == "";
  }

  /** The create guard refuses a one-character text that is neither a digit, a sign, a dot
      nor white space, such as "x". */
  lemma CreateGuardRefusesLetter(x: string)
    requires |x| == 1 && !IsSpace(x[0]) && !IsDigit(x[0]) && x[0] != '+' && x[0] != '-' && x[0] != '.'
    ensures !RoomIdUsable(Text(x))
  {
    TrimKeepsInnerText(x);
    assert x[1..] == [];
  }

  /** The create guard lets through any non-empty text of digits. */
  lemma CreateGuardAcceptsDigits(digits: string)
    requires digits != [] && forall i :: 0 <= i < |digits| ==> IsDigit(digits[i])
    ensures RoomIdUsable(Text(digits))
  {
    TrimKeepsInnerText(digits);
    NoDotInDigits(digits);
    assert IsDigit(digits[0]);
    assert UnsignedDecimal(digits);
  }

  /** The create guard lets through a room id with an exponent, as `Number("1e3")` is 1000. */
  lemma CreateGuardAcceptsExponent()
    ensures RoomIdUsable(Text("1e3"))
  {
    var t := "1e3";
    TrimKeepsInnerText(t);
    assert ExponentAt(t) == 1;
    assert t[..1] == "1" && DotCount("1") == 0 && IsDigit("1"[0]);
    assert t[2..] == "3" && SignedDigits(t[2..]);
    assert DecimalLiteral(t);
    assert NumericText(t);
  }

  /** The create guard lets through a hexadecimal room id, as `Number("0x1A")` is 26. */
  lemma CreateGuardAcceptsHex()
    ensures RoomIdUsable(Text("0x1A"))
  {
    var t := "0x1A";
    TrimKeepsInnerText(t);
    assert t[2..] == "1A" && DigitsOf(t[2..], IsHexDigit);
    assert NonDecimalInteger(t);
    assert NumericText(t);
  }

  /** The create guard lets through a signed `Infinity`. */
  lemma CreateGuardAcceptsInfinity()
    ensures RoomIdUsable(Text("-Infinity"))
  {
    var t := "-Infinity";
    TrimKeepsInnerText(t);
    assert t[1..] == "Infinity";
    assert NumericText(t);
  }

  /** The create guard refuses an exponent without digits, as `Number("1e")` is NaN. */
  lemma CreateGuardRefusesBareExponent()
    ensures !RoomIdUsable(Text("1e"))
  {
    var t := "1e";
    TrimKeepsInnerText(t);
    assert ExponentAt(t) == 1 && t[2..] == "";
    assert !SignedDigits(t[2..]);
    assert !NonDecimalInteger(t) && t[0] != '+' && t[0] != '-' && t != "Infinity";
  }

  const UnassignFailedMessage := "Không thể hủy đăng ký"
  const UnassignedMessage := "Hủy đăng ký lot thành công"
  const LotsFailedMessage := "Không thể tải danh sách lot"
  const RoomsFailedMessage := "Không thể tải danh sách roomId"
  const NoRoomsMessage := "Không tìm thấy phòng nào cho tài khoản này."
  const VehiclesFailedPrefix := "Không thể tải danh sách xe của bạn: "
  const UnknownReasonMessage := "Lỗi không xác định"

  /** A room's vehicle reply aborts the loop: the fetch rejected, or an ok reply's body is not JSON. */
  predicate Throws<B>(reply: Reply<B>) {
    reply.NetworkError? || (Ok(reply) && reply.body.Unparsable?)
  }

  /** The message of what `Throws` throws. */
  function ThrownMessage<B>(reply: Reply<B>): string
    requires Throws(reply)
  {
    if reply.NetworkError? then reply.reason else reply.body.syntaxError
  }

  /** What one room adds to the list: its vehicles when the reply is ok, nothing otherwise. */
  function Contribution(reply: Reply<seq<MyVehicle>>): seq<MyVehicle> {
    if Ok(reply) && reply.body.Json? then reply.body.value else []
  }

  /** The resident's vehicles gathered over `rooms`, in room order. */
  function Collected(rooms: seq<int>, vehiclesOf: int -> Reply<seq<MyVehicle>>): seq<MyVehicle> {
    if rooms == [] then []
    else Collected(rooms[..|rooms| - 1], vehiclesOf) + Contribution(vehiclesOf(rooms[|rooms| - 1]))
  }

  /** Gathering over two stretches of rooms is gathering over each, one after the other. */
  lemma {:induction false} CollectedAppend(a: seq<int>, b: seq<int>, vehiclesOf: int -> Reply<seq<MyVehicle>>)
    ensures Collected(a + b, vehiclesOf) == Collected(a, vehiclesOf) + Collected(b, vehiclesOf)
    decreases |b|
  {
    if b == [] {
      assert a + b == a;
    } else {
      var b' := b[..|b| - 1];
      assert (a + b)[..|a + b| - 1] == a + b';
      CollectedAppend(a, b', vehiclesOf);
    }
  }

  /** A vehicle is in the gathered list exactly when some room's ok reply lists it; rooms whose
      reply is not ok add nothing. */
  lemma {:induction false} CollectedMembership(rooms: seq<int>, vehiclesOf: int -> Reply<seq<MyVehicle>>, v: MyVehicle)
    ensures v in Collected(rooms, vehiclesOf) <==>
      exists i :: 0 <= i < |rooms| && v in Contribution(vehiclesOf(rooms[i]))
  {
    if rooms != [] {
      var init := rooms[..|rooms| - 1];
      CollectedMembership(init, vehiclesOf, v);
      if exists i :: 0 <= i < |rooms| && v in Contribution(vehiclesOf(rooms[i])) {
        var i :| 0 <= i < |rooms| && v in Contribution(vehiclesOf(rooms[i]));
        if i < |rooms| - 1 {
          assert init[i] == rooms[i];
        }
      }
      if v in Collected(init, vehiclesOf) {
        var i :| 0 <= i < |init| && v in Contribution(vehiclesOf(init[i]));
        assert rooms[i] == init[i];
      }
    }
  }

  /** The index of the first room whose reply aborts the loop, if any. */
  function FirstThrow(rooms: seq<int>, vehiclesOf: int -> Reply<seq<MyVehicle>>): (k: Option<nat>)
    ensures k.Some? ==>
      k.value < |rooms| && Throws(vehiclesOf(rooms[k.value])) &&
      (forall j :: 0 <= j < k.value ==> !Throws(vehiclesOf(rooms[j])))
    ensures k.None? ==> forall j :: 0 <= j < |rooms| ==> !Throws(vehiclesOf(rooms[j]))
  {
    if rooms == [] then None
    else if Throws(vehiclesOf(rooms[0])) then Some(0)
    else match FirstThrow(rooms[1..], vehiclesOf)
      case None => None
      case Some(k) => Some(k + 1)
  }

  function RoomRequests(rooms: seq<int>): (r: seq<Request>)
    ensures |r| == |rooms| && forall i :: 0 <= i < |rooms| ==> r[i] == GetRoomVehicles(rooms[i])
  {
    seq(|rooms|, i requires 0 <= i < |rooms| => GetRoomVehicles(rooms[i]))
  }

  /** What one run of `fetchMyVehicles` sends, what `myVehicles` becomes (`None`: left as it was),
      and what it shows. */
  datatype Fetched = Fetched(requests: seq<Request>, vehicles: Option<seq<MyVehicle>>, toast: Toast)

  /** What the `try` block of `fetchMyVehicles` does: the requests it sends, what `myVehicles`
      becomes (`None`: left as it was), whether it warned that there is no room, and the message
      of what it threw, if it threw. */
  datatype Tried = Tried(requests: seq<Request>, vehicles: Option<seq<MyVehicle>>, warned: bool,
                         thrown: Option<string>)

  /** The rooms the first reply lists: `Some` when it is ok and its body is JSON (`None` inside
      for a null body). */
  function RoomsListed(roomsReply: Reply<Option<seq<int>>>): Option<Option<seq<int>>> {
    if Ok(roomsReply) && roomsReply.body.Json? then Some(roomsReply.body.value) else None
  }

  /** The loop of the `try` block over a non-empty room list: the room requests it sends, the
      gathered list, or what the first aborting room threw. */
  function RoomsTry(rooms: seq<int>, vehiclesOf: int -> Reply<seq<MyVehicle>>): (t: Tried)
    ensures !t.warned && (t.thrown.Some? <==> t.vehicles.None?)
  {
    match FirstThrow(rooms, vehiclesOf)
    case None => Tried(RoomRequests(rooms), Some(Collected(rooms, vehiclesOf)), false, None)
    case Some(k) => Tried(RoomRequests(rooms[..k + 1]), None, false, Some(ThrownMessage(vehiclesOf(rooms[k]))))
  }

  /** The message of what the room-list request throws when it yields no room list: the
      rejection's message, the fixed text for a status that is not ok, or the SyntaxError of an
      unreadable body. */
  function RoomsFailure(roomsReply: Reply<Option<seq<int>>>): (m: string)
    requires RoomsListed(roomsReply).None?
    ensures roomsReply.NetworkError? ==> m == roomsReply.reason
    ensures roomsReply.Response? && !Ok(roomsReply) ==> m == RoomsFailedMessage
    ensures Ok(roomsReply) ==> roomsReply.body.Unparsable? && m == roomsReply.body.syntaxError
  {
    if roomsReply.NetworkError? then roomsReply.reason
    else if !Ok(roomsReply) then RoomsFailedMessage
    else roomsReply.body.syntaxError
  }

  /** The `try` block of `fetchMyVehicles()` as a function of the replies it gets. A run that
      warns returns early and so never throws; a run that throws keeps the list. */
  function MyVehiclesTry(roomsReply: Reply<Option<seq<int>>>, vehiclesOf: int -> Reply<seq<MyVehicle>>): (t: Tried)
    ensures t.warned ==> t.thrown.None? && t.vehicles == Some([])
    ensures t.thrown.Some? <==> t.vehicles.None?
    ensures |t.requests| >= 1 && t.requests[0] == GetRooms
  {
    match RoomsListed(roomsReply)
    case None => Tried([GetRooms], None, false, Some(RoomsFailure(roomsReply)))
    case Some(listed) =>
      if listed.None? || listed.value == [] then Tried([GetRooms], Some([]), true, None)
      else
        var r := RoomsTry(listed.value, vehiclesOf);
        r.(requests := [GetRooms] + r.requests)
  }

  /** The `catch` of `fetchMyVehicles()`: the error it shows for what was thrown. */
  function CaughtToast(thrown: string): (t: Toast)
    ensures t.ErrorToast?
    ensures thrown != "" ==> t.text == VehiclesFailedPrefix + thrown
    ensures thrown == "" ==> t.text == VehiclesFailedPrefix + UnknownReasonMessage
  {
    ErrorToast(VehiclesFailedPrefix + Or(thrown, UnknownReasonMessage))
  }

  /** `fetchMyVehicles()` as a function of the replies it gets. */
  function MyVehiclesOutcome(roomsReply: Reply<Option<seq<int>>>, vehiclesOf: int -> Reply<seq<MyVehicle>>): (r: Fetched)
    ensures |r.requests| >= 1 && r.requests[0] == GetRooms
    ensures r.toast.ErrorToast? <==> r.vehicles.None?
    ensures r.toast.WarningToast? ==> r.vehicles == Some([])
    ensures !r.toast.SuccessToast?
  {
    var t := MyVehiclesTry(roomsReply, vehiclesOf);
    Fetched(t.requests, t.vehicles,
            if t.thrown.Some? then CaughtToast(t.thrown.value)
            else if t.warned then WarningToast(NoRoomsMessage)
            else Silent)
  }

  /** When the room list cannot be read, nothing else is asked, the list is kept and an error
      is shown. */
  lemma MyVehiclesWithoutRooms(roomsReply: Reply<Option<seq<int>>>, vehiclesOf: int -> Reply<seq<MyVehicle>>)
    requires RoomsListed(roomsReply).None?
    ensures var r := MyVehiclesOutcome(roomsReply, vehiclesOf);
      r.requests == [GetRooms] && r.vehicles.None? && r.toast.ErrorToast?
  {
  }

  /** A null or empty room list empties the vehicle list, with a warning. */
  lemma MyVehiclesOfNoRoom(roomsReply: Reply<Option<seq<int>>>, vehiclesOf: int -> Reply<seq<MyVehicle>>)
    requires RoomsListed(roomsReply) == Some(None) || RoomsListed(roomsReply) == Some(Some([]))
    ensures MyVehiclesOutcome(roomsReply, vehiclesOf) == Fetched([GetRooms], Some([]), WarningToast(NoRoomsMessage))
  {
  }

  /** Otherwise every room is asked, in order, until one aborts. Without an abort the list
      becomes the rooms' vehicle lists concatenated, skipping the rooms whose reply was not ok;
      after an abort the list is kept and the error is shown. */
  lemma MyVehiclesOfRooms(roomsReply: Reply<Option<seq<int>>>, vehiclesOf: int -> Reply<seq<MyVehicle>>, rooms: seq<int>)
    requires RoomsListed(roomsReply) == Some(Some(rooms)) && rooms != []
    ensures var r := MyVehiclesOutcome(roomsReply, vehiclesOf);
      match FirstThrow(rooms, vehiclesOf)
      case None =>
        r == Fetched([GetRooms] + RoomRequests(rooms), Some(Collected(rooms, vehiclesOf)), Silent)
      case Some(k) =>
        r.requests == [GetRooms] + RoomRequests(rooms[..k + 1]) && r.vehicles.None? &&
        r.toast == ErrorToast(VehiclesFailedPrefix + Or(ThrownMessage(vehiclesOf(rooms[k])), UnknownReasonMessage))
  {
  }

  /** A completed gathering holds exactly the vehicles of the rooms whose reply was ok. */
  lemma MyVehiclesAreTheOkRooms(roomsReply: Reply<Option<seq<int>>>, vehiclesOf: int -> Reply<seq<MyVehicle>>,
                                rooms: seq<int>, v: MyVehicle)
    requires RoomsListed(roomsReply) == Some(Some(rooms))
    requires MyVehiclesOutcome(roomsReply, vehiclesOf).vehicles.Some?
    ensures v in MyVehiclesOutcome(roomsReply, vehiclesOf).vehicles.value <==>
      exists i :: 0 <= i < |rooms| && Ok(vehiclesOf(rooms[i])) && v in Contribution(vehiclesOf(rooms[i]))
  {
    if rooms != [] {
      CollectedMembership(rooms, vehiclesOf, v);
    }
  }

  /** The loop of `fetchMyVehicles` over the listed rooms: asks each room in turn, appends the
      vehicles of an ok reply, skips a reply that is not ok, and stops at the first reply that
      throws (reporting its index). */
  method GatherVehicles(rooms: seq<int>, vehiclesOf: int -> Reply<seq<MyVehicle>>)
    returns (gathered: seq<MyVehicle>, asked: seq<Request>, stop: Option<nat>)
    ensures stop == FirstThrow(rooms, vehiclesOf)
    ensures stop.None? ==> gathered == Collected(rooms, vehiclesOf) && asked == RoomRequests(rooms)
    ensures stop.Some? ==> asked == RoomRequests(rooms[..stop.value + 1])
  {
    gathered, asked, stop := [], [], None;
    var i := 0;
    while i < |rooms|
      invariant 0 <= i <= |rooms|
      invariant gathered == Collected(rooms[..i], vehiclesOf)
      invariant forall j :: 0 <= j < i ==> !Throws(vehiclesOf(rooms[j]))
      invariant asked == RoomRequests(rooms[..i])
    {
      var reply := vehiclesOf(rooms[i]);
      asked := asked + [GetRoomVehicles(rooms[i])];
      assert rooms[..i + 1][..i] == rooms[..i];
      if Throws(reply) {
        FirstThrowIs(rooms, vehiclesOf, i);
        stop := Some(i);
        return;
      }
      gathered := gathered + Contribution(reply);
      i := i + 1;
    }
    assert rooms[..i] == rooms;
    FirstThrowNone(rooms, vehiclesOf);
  }

  /** The first aborting room is the one at `i` when none before it aborts. */
  lemma FirstThrowIs(rooms: seq<int>, vehiclesOf: int -> Reply<seq<MyVehicle>>, i: nat)
    requires i < |rooms| && Throws(vehiclesOf(rooms[i]))
    requires forall j :: 0 <= j < i ==> !Throws(vehiclesOf(rooms[j]))
    ensures FirstThrow(rooms, vehiclesOf) == Some(i)
  {
  }

  lemma FirstThrowNone(rooms: seq<int>, vehiclesOf: int -> Reply<seq<MyVehicle>>)
    requires forall j :: 0 <= j < |rooms| ==> !Throws(vehiclesOf(rooms[j]))
    ensures FirstThrow(rooms, vehiclesOf).None?
  {
  }

  class ParkingView {
    var token: Option<string>
    var parkingLots: seq<Lot>
    var myVehicles: seq<MyVehicle>
    var loading: bool
    var createModalOpen: bool
    var registerAssignModalOpen: bool
    var selectedLot: Option<Lot>
    var unassignLoading: bool
    var registerAssignLoading: bool
    var createForm: VehicleForm
    var registerAssignForm: VehicleForm
    /** Every request the screen has sent, oldest first. */
    var requests: seq<Request>
    /** Every toast the screen has raised, oldest first. */
    var toasts: seq<Toast>

    /** The screen as first rendered, with the token read from local storage. */
    constructor (storedToken: Option<string>)
      ensures token == storedToken && parkingLots == [] && myVehicles == [] && selectedLot.None?
      ensures !loading && !createModalOpen && !registerAssignModalOpen
      ensures !unassignLoading && !registerAssignLoading
      ensures createForm == EmptyForm && registerAssignForm == EmptyForm
      ensures requests == [] && toasts == []
    {
      token := storedToken;
      parkingLots, myVehicles := [], [];
      loading, createModalOpen, registerAssignModalOpen := false, false, false;
      selectedLot := None;
      unassignLoading, registerAssignLoading := false, false;
      createForm, registerAssignForm := EmptyForm, EmptyForm;
      requests, toasts := [], [];
    }

    /** "Đăng ký lot này" on a free lot: remember the lot and open the register-and-assign modal. */
    method ChooseLot(lot: Lot)
      modifies this`selectedLot, this`registerAssignModalOpen
      ensures selectedLot == Some(lot) && registerAssignModalOpen
    {
      selectedLot := Some(lot);
      registerAssignModalOpen := true;
    }

    /** Closing the register-and-assign modal forgets the lot. */
    method CancelRegisterAndAssign()
      modifies this`selectedLot, this`registerAssignModalOpen
      ensures selectedLot.None? && !registerAssignModalOpen
    {
      selectedLot := None;
      registerAssignModalOpen := false;
    }

    /** `handleRegisterAndAssign(values)` with the two replies it awaits. On success the modal
        closes, its form is reset, the lot is forgotten and both reloads start. */
    method RegisterAndAssign(values: VehicleForm, registerReply: Reply<ServerRecord>, assignReply: Reply<ServerRecord>)
      modifies this`requests, this`toasts, this`registerAssignModalOpen, this`registerAssignForm,
               this`selectedLot, this`registerAssignLoading
      ensures var run := RegisterAndAssignRun(old(token), values, old(selectedLot), registerReply, assignReply);
        requests == old(requests) + run.requests && toasts == old(toasts) + [run.toast] &&
        registerAssignModalOpen == (if run.succeeded then false else old(registerAssignModalOpen)) &&
        registerAssignForm == (if run.succeeded then EmptyForm else old(registerAssignForm)) &&
        selectedLot == (if run.succeeded then None else old(selectedLot)) &&
        registerAssignLoading == (if run.requests != [] then false else old(registerAssignLoading))
    {
      if !TokenPresent(token) {
        toasts := toasts + [ErrorToast(NoTokenMessage)];
        return;
      }
      if !FormComplete(values) {
        toasts := toasts + [ErrorToast(IncompleteFormMessage)];
        return;
      }
      if !LotChosen(selectedLot) {
        toasts := toasts + [ErrorToast(NoLotMessage)];
        return;
      }
      var check := ValidateLicensePlate(values.kind, values.licensePlate);
      if !check.valid {
        toasts := toasts + [ErrorToast(check.message)];
        return;
      }
      RegisterThenAssign(values, registerReply, assignReply);
    }

    /** The `try` block of `handleRegisterAndAssign`, reached once every guard has passed. */
    method RegisterThenAssign(values: VehicleForm, registerReply: Reply<ServerRecord>, assignReply: Reply<ServerRecord>)
      requires RegisterAndAssignRefusal(token, values, selectedLot).None?
      modifies this`requests, this`toasts, this`registerAssignModalOpen, this`registerAssignForm,
               this`selectedLot, this`registerAssignLoading
      ensures var run := RegisterAndAssignRun(old(token), values, old(selectedLot), registerReply, assignReply);
        requests == old(requests) + run.requests && toasts == old(toasts) + [run.toast] &&
        registerAssignModalOpen == (if run.succeeded then false else old(registerAssignModalOpen)) &&
        registerAssignForm == (if run.succeeded then EmptyForm else old(registerAssignForm)) &&
        selectedLot == (if run.succeeded then None else old(selectedLot)) &&
        !registerAssignLoading
    {
      registerAssignLoading := true;
      var register := RegisterVehicle(values.roomId, NormalizePlate(values.licensePlate), values.kind);
      requests := requests + [register];
      var id := RegisteredId(registerReply);
      if id.None? {
        toasts := toasts + [ErrorToast(RegisterFailure(registerReply, RegisterFailedMessage))];
      } else {
        requests := requests + [AssignVehicle(selectedLot.value.id, id.value)];
        if !AssignAccepted(assignReply) {
          toasts := toasts + [ErrorToast(AssignFailure(assignReply))];
        } else {
          toasts := toasts + [SuccessToast(RegisterAssignedMessage)];
          registerAssignModalOpen := false;
          registerAssignForm := EmptyForm;
          selectedLot := None;
          requests := requests + [GetLots, GetRooms];
        }
      }
      registerAssignLoading := false;
    }

    /** `handleCreateVehicle(values)` with the reply it awaits. On success the form is reset, the
        modal closes and the vehicle list reload starts. */
    method CreateVehicle(values: VehicleForm, reply: Reply<ServerRecord>)
      modifies this`requests, this`toasts, this`createModalOpen, this`createForm
      ensures var run := CreateVehicleRun(values, reply);
        requests == old(requests) + run.requests && toasts == old(toasts) + [run.toast] &&
        createModalOpen == (if run.succeeded then false else old(createModalOpen)) &&
        createForm == (if run.succeeded then EmptyForm else old(createForm))
    {
      if !Truthy(values.roomId) || NotANumber(values.roomId) {
        toasts := toasts + [ErrorToast(BadRoomMessage)];
        return;
      }
      requests := requests + [RegisterVehicle(values.roomId, NormalizePlate(values.licensePlate), values.kind)];
      if reply.NetworkError? {
        toasts := toasts + [CreateFailureToast(reply.reason)];
      } else if !Ok(reply) {
        if reply.body.Unparsable? {
          toasts := toasts + [CreateFailureToast(reply.body.syntaxError)];
        } else {
          toasts := toasts + [CreateFailureToast(Or(reply.body.value.error, CreateFailedMessage))];
        }
      } else {
        toasts := toasts + [SuccessToast(CreatedMessage)];
        createForm := EmptyForm;
        createModalOpen := false;
        requests := requests + [GetRooms];
      }
    }

    /** `handleUnassign(vehicleId)`: one DELETE; on an ok reply both reloads start, on anything
        else the fixed failure message is shown. */
    method Unassign(vehicleId: int, reply: Reply<ServerRecord>)
      modifies this`requests, this`toasts, this`unassignLoading
      ensures Ok(reply) ==>
        requests == old(requests) + [UnassignVehicle(vehicleId), GetLots, GetRooms] &&
        toasts == old(toasts) + [SuccessToast(UnassignedMessage)]
      ensures !Ok(reply) ==>
        requests == old(requests) + [UnassignVehicle(vehicleId)] &&
        toasts == old(toasts) + [ErrorToast(UnassignFailedMessage)]
      ensures !unassignLoading
    {
      unassignLoading := true;
      requests := requests + [UnassignVehicle(vehicleId)];
      if Ok(reply) {
        toasts := toasts + [SuccessToast(UnassignedMessage)];
        requests := requests + [GetLots, GetRooms];
      } else {
        toasts := toasts + [ErrorToast(UnassignFailedMessage)];
      }
      unassignLoading := false;
    }

    /** `fetchLots()`: an ok reply whose body reads as JSON replaces the lots; anything else keeps
        them and shows an error. */
    method FetchLots(reply: Reply<seq<Lot>>)
      modifies this`requests, this`toasts, this`parkingLots, this`loading
      ensures requests == old(requests) + [GetLots]
      ensures Ok(reply) && reply.body.Json? ==> parkingLots == reply.body.value && toasts == old(toasts)
      ensures !(Ok(reply) && reply.body.Json?) ==> parkingLots == old(parkingLots)
      ensures reply.NetworkError? ==> toasts == old(toasts) + [ErrorToast(Or(reply.reason, LotsFailedMessage))]
      ensures reply.Response? && !Ok(reply) ==> toasts == old(toasts) + [ErrorToast(LotsFailedMessage)]
      ensures Ok(reply) && reply.body.Unparsable? ==>
        toasts == old(toasts) + [ErrorToast(Or(reply.body.syntaxError, LotsFailedMessage))]
      ensures !loading
    {
      loading := true;
      requests := requests + [GetLots];
      if reply.NetworkError? {
        toasts := toasts + [ErrorToast(Or(reply.reason, LotsFailedMessage))];
      } else if !Ok(reply) {
        toasts := toasts + [ErrorToast(LotsFailedMessage)];
      } else if reply.body.Unparsable? {
        toasts := toasts + [ErrorToast(Or(reply.body.syntaxError, LotsFailedMessage))];
      } else {
        parkingLots := reply.body.value;
      }
      loading := false;
    }

    /** `fetchMyVehicles()`: reads the resident's rooms, then asks for each room's vehicles in
        turn, keeping those of the rooms whose reply was ok; anything thrown is shown as an
        error. */
    method FetchMyVehicles(roomsReply: Reply<Option<seq<int>>>, vehiclesOf: int -> Reply<seq<MyVehicle>>)
      modifies this`requests, this`toasts, this`myVehicles
      ensures var out := MyVehiclesOutcome(roomsReply, vehiclesOf);
        requests == old(requests) + out.requests && toasts == old(toasts) + Shown(out.toast) &&
        myVehicles == (if out.vehicles.Some? then out.vehicles.value else old(myVehicles))
    {
      var thrown := TryFetchMyVehicles(roomsReply, vehiclesOf);
      if thrown.Some? {
        toasts := toasts + [CaughtToast(thrown.value)];
      }
    }

    /** The `try` block of `fetchMyVehicles()`: returns the message of what it threw. */
    method TryFetchMyVehicles(roomsReply: Reply<Option<seq<int>>>, vehiclesOf: int -> Reply<seq<MyVehicle>>)
      returns (thrown: Option<string>)
      modifies this`requests, this`toasts, this`myVehicles
      ensures thrown == MyVehiclesTry(roomsReply, vehiclesOf).thrown
      ensures requests == old(requests) + MyVehiclesTry(roomsReply, vehiclesOf).requests
      ensures toasts == old(toasts) + (if MyVehiclesTry(roomsReply, vehiclesOf).warned then [WarningToast(NoRoomsMessage)] else [])
      ensures var vehicles := MyVehiclesTry(roomsReply, vehiclesOf).vehicles;
        myVehicles == (if vehicles.Some? then vehicles.value else old(myVehicles))
    {
      ghost var t := MyVehiclesTry(roomsReply, vehiclesOf);
      requests := requests + [GetRooms];
      thrown := None;
      if RoomsListed(roomsReply).None? {
        thrown := Some(RoomsFailure(roomsReply));
        assert t == Tried([GetRooms], None, false, thrown);
      } else {
        var listed := roomsReply.body.value;
        assert RoomsListed(roomsReply) == Some(listed);
        if listed.None? || listed.value == [] {
          toasts := toasts + [WarningToast(NoRoomsMessage)];
          myVehicles := [];
          assert t == Tried([GetRooms], Some([]), true, None);
        } else {
          ghost var r := RoomsTry(listed.value, vehiclesOf);
          thrown := TryRooms(listed.value, vehiclesOf);
          assert t == r.(requests := [GetRooms] + r.requests);
          assert requests == old(requests) + ([GetRooms] + r.requests);
        }
      }
    }

    /** The loop of the `try` block over a non-empty room list: asks each room in turn, keeps
        the vehicles of the ok replies, and stops at the first reply that throws, returning its
        message and leaving the list as it was. */
    method TryRooms(rooms: seq<int>, vehiclesOf: int -> Reply<seq<MyVehicle>>) returns (thrown: Option<string>)
      modifies this`requests, this`myVehicles
      ensures thrown == RoomsTry(rooms, vehiclesOf).thrown
      ensures requests == old(requests) + RoomsTry(rooms, vehiclesOf).requests
      ensures var vehicles := RoomsTry(rooms, vehiclesOf).vehicles;
        myVehicles == (if vehicles.Some? then vehicles.value else old(myVehicles))
    {
      var gathered, asked, stop := GatherVehicles(rooms, vehiclesOf);
      requests := requests + asked;
      if stop.Some? {
        thrown := Some(ThrownMessage(vehiclesOf(rooms[stop.value])));
      } else {
        thrown := None;
        myVehicles := gathered;
      }
    }
  }
}
