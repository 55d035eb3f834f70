/**
 * The administrator's parking screen: the grid drawn for each vehicle type,
 * the lot-to-vehicle lookup, the occupancy counts, the list of vehicles
 * assigned to no lot, and the register-and-assign and unassign handlers.
 *
 * The screen keeps an `allVehicles` list that nothing ever fills: no handler
 * of the screen stores into it. The derivations that read it are modelled for
 * any list, and the class shows that on the screen itself it stays empty.
 */
module AdminVehicle {
  import opened Common
  import opened Http
  import opened Lots

  datatype Vehicle = Vehicle(id: int, licensePlate: string, kind: string)

  /** What `getLotVehicleDetails` finds for an occupied lot: a vehicle of `allVehicles`, or only
      the lot's type (`{ type: lot.type }`). */
  datatype LotVehicle = Known(vehicle: Vehicle) | TypeOnly(kind: string)

  /** The index of the first vehicle whose id is in `ids` (`find(v => ids.includes(v.id))`). */
  function FirstWithIdIn(vehicles: seq<Vehicle>, ids: seq<int>): (k: Option<nat>)
    ensures k.Some? ==>
      k.value < |vehicles| && vehicles[k.value].id in ids &&
      (forall j :: 0 <= j < k.value ==> vehicles[j].id !in ids)
    ensures k.None? ==> forall j :: 0 <= j < |vehicles| ==> vehicles[j].id !in ids
  {
    if vehicles == [] then None
    else if vehicles[0].id in ids then Some(0)
    else match FirstWithIdIn(vehicles[1..], ids)
      case None => None
      case Some(k) => Some(k + 1)
  }

  /** `getLotVehicleDetails(lot)`: nothing for a free lot or one without vehicle ids; otherwise
      the first listed vehicle whose id the lot holds, or failing that the lot's type. */
  function LotVehicleDetails(lot: Lot, allVehicles: seq<Vehicle>): (r: Option<LotVehicle>)
    ensures r.None? <==> !lot.occupied || lot.vehicleIds == []
    ensures r.Some? && r.value.Known? ==>
      exists k :: 0 <= k < |allVehicles| && allVehicles[k] == r.value.vehicle &&
        allVehicles[k].id in lot.vehicleIds &&
        (forall i :: 0 <= i < k ==> allVehicles[i].id !in lot.vehicleIds)
    ensures r.Some? && r.value.TypeOnly? ==>
      r.value.kind == lot.kind &&
      forall j :: 0 <= j < |allVehicles| ==> allVehicles[j].id !in lot.vehicleIds
  {
    if !lot.occupied || lot.vehicleIds == [] then None
    else match FirstWithIdIn(allVehicles, lot.vehicleIds)
      case Some(k) => Some(Known(allVehicles[k]))
      case None => Some(TypeOnly(lot.kind))
  }

  /** `lot => lot.type === kind` */
  function OfKind(kind: string): Lot -> bool {
    (lot: Lot) => lot.kind == kind
  }

  /** `lot => lot.occupied` */
  function IsOccupied(): Lot -> bool {
    (lot: Lot) => lot.occupied
  }

  /** The lot-number order: `a.lotNumber.localeCompare(b.lotNumber, undefined, { numeric: true }) <= 0`,
      given as a relation that is total (any two lot numbers compare one way or the other). */
  ghost predicate Total(le: (string, string) -> bool) {
    forall a, b :: le(a, b) || le(b, a)
  }

  predicate SortedBy(s: seq<Lot>, le: (string, string) -> bool) {
    forall i :: 0 < i < |s| ==> le(s[i - 1].lotNumber, s[i].lotNumber)
  }

  /** Puts `x` before the first lot it does not come after; equal lot numbers keep their order. */
  function Insert(x: Lot, s: seq<Lot>, le: (string, string) -> bool): (r: seq<Lot>)
    ensures |r| == |s| + 1
    ensures r[0] == x || (s != [] && r[0] == s[0])
  {
    if s == [] || le(x.lotNumber, s[0].lotNumber) then [x] + s
    else [s[0]] + Insert(x, s[1..], le)
  }

  /** A stable sort of the lots by lot number (`Array.prototype.sort` is stable). */
  function SortLots(s: seq<Lot>, le: (string, string) -> bool): (r: seq<Lot>)
    ensures |r| == |s|
  {
    if s == [] then [] else Insert(s[0], SortLots(s[1..], le), le)
  }

  lemma {:induction false} InsertSorted(x: Lot, s: seq<Lot>, le: (string, string) -> bool)
    requires Total(le) && SortedBy(s, le)
    ensures SortedBy(Insert(x, s, le), le)
  {
    if s != [] && !le(x.lotNumber, s[0].lotNumber) {
      assert le(s[0].lotNumber, x.lotNumber);
      assert SortedBy(s[1..], le) by {
        forall i | 0 < i < |s| - 1 ensures le(s[1..][i - 1].lotNumber, s[1..][i].lotNumber) {
          assert s[1..][i - 1] == s[i] && s[1..][i] == s[i + 1];
        }
      }
      InsertSorted(x, s[1..], le);
      var rest := Insert(x, s[1..], le);
      forall i | 0 < i < |rest| + 1 ensures le(([s[0]] + rest)[i - 1].lotNumber, ([s[0]] + rest)[i].lotNumber) {
        if i > 1 {
          assert ([s[0]] + rest)[i - 1] == rest[i - 2] && ([s[0]] + rest)[i] == rest[i - 1];
        } else if rest[0] != x {
          assert rest[0] == s[1];
        }
      }
    }
  }

  lemma {:induction false} InsertMultiset(x: Lot, s: seq<Lot>, le: (string, string) -> bool)
    ensures multiset(Insert(x, s, le)) == multiset(s) + multiset{x}
  {
    if s != [] && !le(x.lotNumber, s[0].lotNumber) {
      InsertMultiset(x, s[1..], le);
      assert s == [s[0]] + s[1..];
    }
  }

  /** The sorted lots are ordered by lot number and are the same lots, each as often as before. */
  lemma {:induction false} SortLotsCorrect(s: seq<Lot>, le: (string, string) -> bool)
    requires Total(le)
    ensures SortedBy(SortLots(s, le), le)
    ensures multiset(SortLots(s, le)) == multiset(s)
  {
    if s != [] {
      SortLotsCorrect(s[1..], le);
      InsertSorted(s[0], SortLots(s[1..], le), le);
      InsertMultiset(s[0], SortLots(s[1..], le), le);
      assert s == [s[0]] + s[1..];
    }
  }

  const CarRows := 4
  const CarCols := 4
  const MotorbikeRows := 14
  const MotorbikeCols := 5

  /** Any type other than CAR is drawn with the motorbike dimensions. */
  function GridSize(kind: string): nat {
    if kind == CAR then CarRows * CarCols else MotorbikeRows * MotorbikeCols
  }

  /** The lots drawn for a type: those of that type, in lot-number order. */
  function GridLots(lots: seq<Lot>, kind: string, le: (string, string) -> bool): seq<Lot> {
    SortLots(Filter(lots, OfKind(kind)), le)
  }

  datatype Cell = LotCell(lot: Lot, details: Option<LotVehicle>) | EmptyCell(index: nat)

  /** `renderParkingLot(type)`: one cell per grid position; the i-th sorted lot of the type while
      there is one, an empty placeholder after that. Lots beyond the grid are not drawn. */
  method RenderParkingLot(kind: string, lots: seq<Lot>, allVehicles: seq<Vehicle>, le: (string, string) -> bool)
    returns (cells: seq<Cell>)
    ensures |cells| == GridSize(kind)
    ensures kind == CAR ==> |cells| == 16
    ensures kind != CAR ==> |cells| == 70
    ensures forall i :: 0 <= i < |cells| ==>
      cells[i] == if i < |GridLots(lots, kind, le)| then LotCell(GridLots(lots, kind, le)[i], LotVehicleDetails(GridLots(lots, kind, le)[i], allVehicles))
                  else EmptyCell(i)
  {
    var filtered := GridLots(lots, kind, le);
    var rowCount := if kind == CAR then CarRows else MotorbikeRows;
    var colCount := if kind == CAR then CarCols else MotorbikeCols;
    var totalCells := rowCount * colCount;
    cells := [];
    for i := 0 to totalCells
      invariant |cells| == i
      invariant forall j :: 0 <= j < i ==>
        cells[j] == if j < |filtered| then LotCell(filtered[j], LotVehicleDetails(filtered[j], allVehicles)) else EmptyCell(j)
    {
      if i < |filtered| {
        var lot := filtered[i];
        cells := cells + [LotCell(lot, LotVehicleDetails(lot, allVehicles))];
      } else {
        cells := cells + [EmptyCell(i)];
      }
    }
  }

  /** Every drawn lot is a lot of the screen, of the grid's type, and sorting drops no lot of
      that type. */
  lemma GridCellsAreLotsOfKind(kind: string, lots: seq<Lot>, le: (string, string) -> bool, i: nat)
    requires Total(le)
    requires i < |GridLots(lots, kind, le)|
    ensures GridLots(lots, kind, le)[i] in lots && GridLots(lots, kind, le)[i].kind == kind
    ensures |GridLots(lots, kind, le)| == |Filter(lots, OfKind(kind))|
  {
    var filtered := Filter(lots, OfKind(kind));
    SortLotsCorrect(filtered, le);
    var x := GridLots(lots, kind, le)[i];
    assert x in multiset(GridLots(lots, kind, le));
    assert x in multiset(filtered);
    assert x in filtered;
  }

  /** Counts the lots of a type that are occupied, one lot at a time. */
  function CountOccupied(lots: seq<Lot>, kind: string): nat {
    if lots == [] then 0
    else (if lots[0].kind == kind && lots[0].occupied then 1 else 0) + CountOccupied(lots[1..], kind)
  }

  /** `carLots.filter(lot => lot.occupied).length` (and the motorbike one). */
  function OccupiedCount(lots: seq<Lot>, kind: string): nat {
    |Filter(Filter(lots, OfKind(kind)), IsOccupied())|
  }

  /** `carLots.length` (and the motorbike one). */
  function LotCount(lots: seq<Lot>, kind: string): nat {
    |Filter(lots, OfKind(kind))|
  }

  /** The occupied count is the number of that type's occupied lots, and never exceeds the type's
      lot count. */
  lemma {:induction false} OccupiedCountCorrect(lots: seq<Lot>, kind: string)
    ensures OccupiedCount(lots, kind) == CountOccupied(lots, kind)
    ensures OccupiedCount(lots, kind) <= LotCount(lots, kind)
  {
    if lots != [] {
      OccupiedCountCorrect(lots[1..], kind);
      var head: seq<Lot> := if lots[0].kind == kind then [lots[0]] else [];
      assert Filter(lots, OfKind(kind)) == head + Filter(lots[1..], OfKind(kind));
      FilterConcat(head, Filter(lots[1..], OfKind(kind)), IsOccupied());
    }
  }

  lemma {:induction false} FilterConcat<T>(a: seq<T>, b: seq<T>, keep: T -> bool)
    ensures Filter(a + b, keep) == Filter(a, keep) + Filter(b, keep)
  {
    if a != [] {
      assert (a + b)[1..] == a[1..] + b;
      FilterConcat(a[1..], b, keep);
    } else {
      assert a + b == b;
    }
  }

  /** Every id listed by some lot (`parkingLots.flatMap(lot => lot.vehicleIds || [])`). */
  function AssignedIds(lots: seq<Lot>): seq<int> {
    if lots == [] then [] else lots[0].vehicleIds + AssignedIds(lots[1..])
  }

  lemma {:induction false} AssignedIdsMembership(lots: seq<Lot>, id: int)
    ensures id in AssignedIds(lots) <==> exists i :: 0 <= i < |lots| && id in lots[i].vehicleIds
  {
    if lots != [] {
      AssignedIdsMembership(lots[1..], id);
      if exists i :: 0 <= i < |lots| && id in lots[i].vehicleIds {
        var i :| 0 <= i < |lots| && id in lots[i].vehicleIds;
        if i > 0 {
          assert lots[1..][i - 1] == lots[i];
        }
      }
      if exists i :: 0 <= i < |lots[1..]| && id in lots[1..][i].vehicleIds {
        var i :| 0 <= i < |lots[1..]| && id in lots[1..][i].vehicleIds;
        assert lots[i + 1] == lots[1..][i];
      }
    }
  }

  /** The vehicles of `allVehicles` that no lot lists. */
  function UnassignedVehicles(allVehicles: seq<Vehicle>, lots: seq<Lot>): seq<Vehicle> {
    Filter(allVehicles, (v: Vehicle) => v.id !in AssignedIds(lots))
  }

  /** Unassigned vehicles are exactly the listed vehicles whose id appears in no lot, in their
      original order, each as often as listed. */
  lemma UnassignedVehiclesCorrect(allVehicles: seq<Vehicle>, lots: seq<Lot>, v: Vehicle)
    ensures v in UnassignedVehicles(allVehicles, lots) <==>
      v in allVehicles && forall i :: 0 <= i < |lots| ==> v.id !in lots[i].vehicleIds
    ensures Subsequence(UnassignedVehicles(allVehicles, lots), allVehicles)
    ensures multiset(UnassignedVehicles(allVehicles, lots))[v] ==
      if v.id in AssignedIds(lots) then 0 else multiset(allVehicles)[v]
  {
    AssignedIdsMembership(lots, v.id);
    FilterMultiset(allVehicles, (w: Vehicle) => w.id !in AssignedIds(lots), v);
    FilterIsSubsequence(allVehicles, (w: Vehicle) => w.id !in AssignedIds(lots));
  }

  /** `renderUnassignedVehicles` draws its card exactly when some vehicle is unassigned. */
  function ShowsUnassignedSection(allVehicles: seq<Vehicle>, lots: seq<Lot>): (shown: bool)
    ensures shown <==> UnassignedVehicles(allVehicles, lots) != []
  {
    if allVehicles == [] then false else UnassignedVehicles(allVehicles, lots) != []
  }

  datatype Request =
    | GetLots                                                          // GET /api/vehicles
    | GetLotVehicles(lotId: int)                                       // GET /admin/api/parking-lots/{lot}/vehicles
    | RegisterVehicle(room: FieldValue, licensePlate: string, kind: string)  // POST /api/vehicles/room/{room}
    | AssignVehicle(lotId: int, vehicleId: int)                       // POST /api/vehicles/{lot}/assign-vehicle/{vehicle}
    | UnassignVehicle(vehicleId: int)                                  // DELETE /admin/api/parking-lots/unassign-vehicle/{vehicle}

  const NoTokenMessage := "Authentication token not found. Please log in again."
  const IncompleteFormMessage := "Missing vehicle registration information."
  const NoLotMessage := "No parking lot selected for assignment."
  const BadVehicleMessage := "Invalid vehicle data returned."
  const UnknownErrorMessage := "An unknown error occurred"
  const RegisterAssignedMessage := "Vehicle registered and assigned to lot successfully"

  /** The first failing guard of the admin register-and-assign, in the order token, form
      fields, selected empty lot. There is no plate-format check on this screen. */
  function RegisterAndAssignRefusal(token: Option<string>, values: VehicleForm, emptyLot: Option<Lot>): Option<string> {
    if !TokenPresent(token) then Some(NoTokenMessage)
    else if !FormComplete(values) then Some(IncompleteFormMessage)
    else if !LotChosen(emptyLot) then Some(NoLotMessage)
    else None
  }

  function RegisteredId(reply: Reply<ServerRecord>): Option<int> {
    if Ok(reply) && reply.body.Json? && IdPresent(reply.body.value.id) then reply.body.value.id else None
  }

  /** The message a failed step shows; `step` names it in the status fallback. */
  function StepFailure(reply: Reply<ServerRecord>, step: string): string {
    match reply
    case NetworkError(reason) => Or(reason, UnknownErrorMessage)
    case Response(status, _, body) =>
      if !Ok(reply) then Or(if body.Json? then body.value.error else "", step + " failed (Status: " + IntText(status) + ")")
      else if body.Unparsable? then Or(body.syntaxError, UnknownErrorMessage)
      else BadVehicleMessage
  }

  predicate AssignAccepted(reply: Reply<ServerRecord>) {
    Ok(reply) && reply.body.Json?
  }

  datatype Run = Run(requests: seq<Request>, toast: Toast, succeeded: bool)

  /** The admin `handleRegisterAndAssign`: guards, register with the plate as typed, assign to
      the selected empty lot, reload the lots, and reload the open lot's vehicles when the open
      lot is the one just filled. */
  function RegisterAndAssignRun(token: Option<string>, values: VehicleForm, emptyLot: Option<Lot>,
                                openLot: Option<Lot>, registerReply: Reply<ServerRecord>,
                                assignReply: Reply<ServerRecord>): (r: Run)
    ensures r.requests != [] ==> r.requests[0] == RegisterVehicle(values.roomId, values.licensePlate, values.kind)
    ensures r.succeeded <==> |r.requests| >= 3
    ensures r.succeeded ==> r.requests[2] == GetLots && |r.requests| <= 4 && r.toast == SuccessToast(RegisterAssignedMessage)
    ensures !r.succeeded ==> |r.requests| <= 2 && r.toast.ErrorToast?
  {
    var refusal := RegisterAndAssignRefusal(token, values, emptyLot);
    if refusal.Some? then Run([], ErrorToast(refusal.value), false)
    else
      var register := RegisterVehicle(values.roomId, values.licensePlate, values.kind);
      var id := RegisteredId(registerReply);
      if id.None? then Run([register], ErrorToast(StepFailure(registerReply, "Vehicle registration")), false)
      else
        var assign := AssignVehicle(emptyLot.value.id, id.value);
        if !AssignAccepted(assignReply) then
          Run([register, assign], ErrorToast(StepFailure(assignReply, "Assignment")), false)
        else
          var reloadOpen := if openLot.Some? && openLot.value.id == emptyLot.value.id then [GetLotVehicles(openLot.value.id)] else [];
          Run([register, assign, GetLots] + reloadOpen, SuccessToast(RegisterAssignedMessage), true)
  }

  /** A refused run sends nothing; the plate format is never checked here. */
  lemma RegisterAndAssignGuards(token: Option<string>, values: VehicleForm, emptyLot: Option<Lot>, openLot: Option<Lot>,
                                registerReply: Reply<ServerRecord>, assignReply: Reply<ServerRecord>)
    ensures var r := RegisterAndAssignRun(token, values, emptyLot, openLot, registerReply, assignReply);
      (r.requests == [] <==> !TokenPresent(token) || !FormComplete(values) || !LotChosen(emptyLot)) &&
      (!TokenPresent(token) ==> r.toast == ErrorToast(NoTokenMessage)) &&
      (TokenPresent(token) && !FormComplete(values) ==> r.toast == ErrorToast(IncompleteFormMessage)) &&
      (TokenPresent(token) && FormComplete(values) && !LotChosen(emptyLot) ==> r.toast == ErrorToast(NoLotMessage)) &&
      (r.requests != [] ==> r.requests[0] == RegisterVehicle(values.roomId, values.licensePlate, values.kind))
  {
  }

  /** Assign follows only a register that was ok and returned an id, and targets (selected empty
      lot, that id); the open lot's vehicles are reloaded only when the open lot is that lot. */
  lemma RegisterAndAssignOrder(token: Option<string>, values: VehicleForm, emptyLot: Option<Lot>, openLot: Option<Lot>,
                               registerReply: Reply<ServerRecord>, assignReply: Reply<ServerRecord>)
    ensures var r := RegisterAndAssignRun(token, values, emptyLot, openLot, registerReply, assignReply);
      (|r.requests| >= 2 <==> RegisterAndAssignRefusal(token, values, emptyLot).None? && RegisteredId(registerReply).Some?) &&
      (|r.requests| >= 2 ==> r.requests[1] == AssignVehicle(emptyLot.value.id, RegisteredId(registerReply).value)) &&
      (r.succeeded <==> |r.requests| >= 2 && AssignAccepted(assignReply)) &&
      (r.succeeded ==> r.requests[2] == GetLots && r.toast == SuccessToast(RegisterAssignedMessage)) &&
      (r.succeeded ==> (|r.requests| == 4 <==> openLot.Some? && openLot.value.id == emptyLot.value.id)) &&
      (|r.requests| == 4 ==> r.requests[3] == GetLotVehicles(emptyLot.value.id)) &&
      (!r.succeeded ==> |r.requests| <= 2 && r.toast.ErrorToast?)
  {
  }

  /** A step refused with a status that is not ok and a body without an `error` field reports
      the step and the status, e.g. "Vehicle registration failed (Status: 409)". */
  lemma RegisterFailureNamesStatus(status: int, text: string, step: string)
    requires !(200 <= status <= 299)
    ensures StepFailure(Response(status, text, Json(ServerRecord(None, ""))), step) ==
      step + " failed (Status: " + IntText(status) + ")"
    ensures IntText(409) == "409"
  {
    var message := step + " failed (Status: " + IntText(status) + ")";
    assert |message| > 0;
  }

  const InvalidVehicleIdMessage := "Invalid vehicle ID"
  const NoOpenLotMessage := "No parking lot selected"
  const UnassignFailedMessage := "Unassignment failed"

  /** The admin `handleUnassign` as a function of the reply: `None` on success, else the message
      shown. A 204 is a success whatever its body; another ok status needs a JSON body; any
      other status fails with the reply text. */
  function UnassignFailure(vehicleId: int, openLot: Option<Lot>, reply: Reply<ServerRecord>): (r: Option<string>)
    ensures vehicleId == 0 ==> r == Some(InvalidVehicleIdMessage)
    ensures vehicleId != 0 && !LotChosen(openLot) ==> r == Some(NoOpenLotMessage)
    ensures vehicleId != 0 && LotChosen(openLot) && reply.Response? && reply.status == 204 ==> r.None?
    ensures vehicleId != 0 && LotChosen(openLot) && reply.Response? && !Ok(reply) ==>
      r == Some(Or(reply.text, UnassignFailedMessage))
    ensures r.None? ==> Ok(reply)
  {
    if vehicleId == 0 then Some(InvalidVehicleIdMessage)
    else if !LotChosen(openLot) then Some(NoOpenLotMessage)
    else match reply
      case NetworkError(reason) => Some(reason)
      case Response(status, text, body) =>
        if status == 204 then None
        else if Ok(reply) then (if body.Unparsable? then Some(body.syntaxError) else None)
        else Some(Or(text, UnassignFailedMessage))
  }

  /** A 204 with an empty body succeeds; a 200 with the same body fails on reading it. */
  lemma UnassignNoContent(lot: Lot)
    requires lot.id != 0
    ensures UnassignFailure(7, Some(lot), Response(204, "", Unparsable("Unexpected end of JSON input"))).None?
    ensures UnassignFailure(7, Some(lot), Response(200, "", Unparsable("Unexpected end of JSON input"))) ==
      Some("Unexpected end of JSON input")
  {
  }

  const LotsFailedPrefix := "Failed to load parking lots: "
  const LotsFailedMessage := "Failed to fetch parking lots"
  const VehiclesFailedPrefix := "Failed to load vehicles: "
  const VehiclesFailedMessage := "Failed to fetch lot vehicles"

  /** Why a list fetch failed: the rejection's reason, the fixed text for a non-ok status, or the
      SyntaxError of an unreadable body. `None` when the list was read. */
  function ListFailure<B>(reply: Reply<B>, notOk: string): (r: Option<string>)
    ensures r.None? <==> Ok(reply) && reply.body.Json?
  {
    match reply
    case NetworkError(reason) => Some(reason)
    case Response(_, _, body) =>
      if !Ok(reply) then Some(notOk)
      else if body.Unparsable? then Some(body.syntaxError)
      else None
  }

  class VehicleBoard {
    var token: Option<string>
    var parkingLots: seq<Lot>
    /** Declared and read by the screen, never stored into. */
    var allVehicles: seq<Vehicle>
    var lotVehicles: seq<Vehicle>
    /** The occupied lot whose vehicles are listed. */
    var selectedLot: Option<Lot>
    /** The free lot the register-and-assign modal fills. */
    var selectedEmptyLot: Option<Lot>
    var registerAssignModal: bool
    var registerAssignForm: VehicleForm
    var loading: bool
    var lotLoading: bool
    var requests: seq<Request>
    var toasts: seq<Toast>

    constructor (storedToken: Option<string>)
      ensures token == storedToken && parkingLots == [] && allVehicles == [] && lotVehicles == []
      ensures selectedLot.None? && selectedEmptyLot.None? && !registerAssignModal
      ensures registerAssignForm == EmptyForm && !loading && !lotLoading
      ensures requests == [] && toasts == []
    {
      token := storedToken;
      parkingLots, allVehicles, lotVehicles := [], [], [];
      selectedLot, selectedEmptyLot := None, None;
      registerAssignModal := false;
      registerAssignForm := EmptyForm;
      loading, lotLoading := false, false;
      requests, toasts := [], [];
    }

    /** A click on a lot cell: an occupied lot is opened and its vehicles requested; a free lot
        is taken for register-and-assign, with the form's type set to the lot's. */
    method ClickLot(lot: Lot)
      modifies this`selectedLot, this`requests, this`selectedEmptyLot, this`registerAssignForm, this`registerAssignModal
      ensures lot.occupied ==>
        selectedLot == Some(lot) && requests == old(requests) + [GetLotVehicles(lot.id)] &&
        selectedEmptyLot == old(selectedEmptyLot) && registerAssignForm == old(registerAssignForm) &&
        registerAssignModal == old(registerAssignModal)
      ensures !lot.occupied ==>
        selectedEmptyLot == Some(lot) && registerAssignForm == old(registerAssignForm).(kind := lot.kind) &&
        registerAssignModal && selectedLot == old(selectedLot) && requests == old(requests)
    {
      if lot.occupied {
        selectedLot := Some(lot);
        requests := requests + [GetLotVehicles(lot.id)];
      } else {
        selectedEmptyLot := Some(lot);
        registerAssignForm := registerAssignForm.(kind := lot.kind);
        registerAssignModal := true;
      }
    }

    /** The admin `handleRegisterAndAssign(values)` with the two replies it awaits. On success the
        modal closes and its form is reset; the selected empty lot is kept. */
    method RegisterAndAssign(values: VehicleForm, registerReply: Reply<ServerRecord>, assignReply: Reply<ServerRecord>)
      modifies this`requests, this`toasts, this`registerAssignModal, this`registerAssignForm, this`loading
      ensures var run := RegisterAndAssignRun(old(token), values, old(selectedEmptyLot), old(selectedLot), registerReply, assignReply);
        requests == old(requests) + run.requests && toasts == old(toasts) + [run.toast] &&
        registerAssignModal == (if run.succeeded then false else old(registerAssignModal)) &&
        registerAssignForm == (if run.succeeded then EmptyForm else old(registerAssignForm)) &&
        loading == (if run.requests != [] then false else old(loading))
    {
      ghost var run := RegisterAndAssignRun(token, values, selectedEmptyLot, selectedLot, registerReply, assignReply);
      if !TokenPresent(token) {
        assert run == Run([], ErrorToast(NoTokenMessage), false);
        toasts := toasts + [ErrorToast(NoTokenMessage)];
        return;
      }
      if !FormComplete(values) {
        assert run == Run([], ErrorToast(IncompleteFormMessage), false);
        toasts := toasts + [ErrorToast(IncompleteFormMessage)];
        return;
      }
      if !LotChosen(selectedEmptyLot) {
        assert run == Run([], ErrorToast(NoLotMessage), false);
        toasts := toasts + [ErrorToast(NoLotMessage)];
        return;
      }
      loading := true;
      var register := RegisterVehicle(values.roomId, values.licensePlate, values.kind);
      requests := requests + [register];
      var id := RegisteredId(registerReply);
      if id.None? {
        assert run == Run([register], ErrorToast(StepFailure(registerReply, "Vehicle registration")), false);
        toasts := toasts + [ErrorToast(StepFailure(registerReply, "Vehicle registration"))];
        loading := false;
        return;
      }
      var assign := AssignVehicle(selectedEmptyLot.value.id, id.value);
      requests := requests + [assign];
      if !AssignAccepted(assignReply) {
        assert run == Run([register, assign], ErrorToast(StepFailure(assignReply, "Assignment")), false);
        toasts := toasts + [ErrorToast(StepFailure(assignReply, "Assignment"))];
        loading := false;
        return;
      }
      var reloadOpen := if selectedLot.Some? && selectedLot.value.id == selectedEmptyLot.value.id then [GetLotVehicles(selectedLot.value.id)] else [];
      assert run == Run([register, assign, GetLots] + reloadOpen, SuccessToast(RegisterAssignedMessage), true);
      toasts := toasts + [SuccessToast(RegisterAssignedMessage)];
      registerAssignModal := false;
      registerAssignForm := EmptyForm;
      requests := requests + [GetLots] + reloadOpen;
      loading := false;
    }

    /** The admin `handleUnassign(vehicleId)`: on success the open lot's vehicles and then the lots
        are reloaded, with no toast; on failure the message is shown. */
    method Unassign(vehicleId: int, reply: Reply<ServerRecord>)
      modifies this`requests, this`toasts
      ensures var failure := UnassignFailure(vehicleId, old(selectedLot), reply);
        (failure.None? ==>
          requests == old(requests) + [UnassignVehicle(vehicleId), GetLotVehicles(old(selectedLot).value.id), GetLots] &&
          toasts == old(toasts)) &&
        (failure.Some? ==> toasts == old(toasts) + [ErrorToast(failure.value)])
      ensures vehicleId == 0 || !LotChosen(old(selectedLot)) ==> requests == old(requests)
      ensures vehicleId != 0 && LotChosen(old(selectedLot)) ==>
        |requests| > |old(requests)| && requests[|old(requests)|] == UnassignVehicle(vehicleId)
    {
      if vehicleId == 0 {
        toasts := toasts + [ErrorToast(InvalidVehicleIdMessage)];
        return;
      }
      if !LotChosen(selectedLot) {
        toasts := toasts + [ErrorToast(NoOpenLotMessage)];
        return;
      }
      requests := requests + [UnassignVehicle(vehicleId)];
      if reply.NetworkError? {
        toasts := toasts + [ErrorToast(reply.reason)];
        return;
      }
      if reply.status == 204 {
      } else if Ok(reply) {
        if reply.body.Unparsable? {
          toasts := toasts + [ErrorToast(reply.body.syntaxError)];
          return;
        }
      } else {
        toasts := toasts + [ErrorToast(Or(reply.text, UnassignFailedMessage))];
        return;
      }
      requests := requests + [GetLotVehicles(selectedLot.value.id), GetLots];
    }

    /** `fetchParkingLots()`: a readable list replaces the lots; anything else keeps them and
        shows why. */
    method FetchParkingLots(reply: Reply<seq<Lot>>)
      modifies this`requests, this`toasts, this`parkingLots, this`lotLoading
      ensures requests == old(requests) + [GetLots] && !lotLoading
      ensures var failure := ListFailure(reply, LotsFailedMessage);
        (failure.None? ==> parkingLots == reply.body.value && toasts == old(toasts)) &&
        (failure.Some? ==> parkingLots == old(parkingLots) && toasts == old(toasts) + [ErrorToast(LotsFailedPrefix + failure.value)])
    {
      lotLoading := true;
      requests := requests + [GetLots];
      var failure := ListFailure(reply, LotsFailedMessage);
      if failure.None? {
        parkingLots := reply.body.value;
      } else {
        toasts := toasts + [ErrorToast(LotsFailedPrefix + failure.value)];
      }
      lotLoading := false;
    }

    /** `fetchLotVehicles(lotId)`: a readable list replaces the lot's vehicles; on any failure the
        list is emptied and the reason shown. */
    method FetchLotVehicles(lotId: int, reply: Reply<seq<Vehicle>>)
      modifies this`requests, this`toasts, this`lotVehicles, this`loading
      ensures requests == old(requests) + [GetLotVehicles(lotId)] && !loading
      ensures var failure := ListFailure(reply, VehiclesFailedMessage);
        (failure.None? ==> lotVehicles == reply.body.value && toasts == old(toasts)) &&
        (failure.Some? ==> lotVehicles == [] && toasts == old(toasts) + [ErrorToast(VehiclesFailedPrefix + failure.value)])
    {
      loading := true;
      requests := requests + [GetLotVehicles(lotId)];
      var failure := ListFailure(reply, VehiclesFailedMessage);
      if failure.None? {
        lotVehicles := reply.body.value;
      } else {
        toasts := toasts + [ErrorToast(VehiclesFailedPrefix + failure.value)];
        lotVehicles := [];
      }
      loading := false;
    }
  }

  /** With `allVehicles` empty, as it stays on this screen, an occupied lot with ids shows only
      its type and the unassigned-vehicles card is never drawn. */
  lemma EmptyVehicleListConsequences(lot: Lot, lots: seq<Lot>)
    requires lot.occupied && lot.vehicleIds != []
    ensures LotVehicleDetails(lot, []) == Some(TypeOnly(lot.kind))
    ensures !ShowsUnassignedSection([], lots)
  {
  }
}
