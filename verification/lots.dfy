/**
 * What the two parking screens share: the parking-lot record they receive from
 * `GET /api/vehicles`, the two vehicle types, the vehicle form they submit and
 * the truthiness tests their guards apply.
 */
module Lots {
  import opened Common

  const CAR := "CAR"
  const MOTORBIKE := "MOTORBIKE"

  /** A lot as the server returns it. A missing `vehicleIds` is read as the empty list: every
      use in the screens treats "missing" and "empty" alike. */
  datatype Lot = Lot(id: int, lotNumber: string, kind: string, occupied: bool, vehicleIds: seq<int>)

  /** `selectedLot?.id` is truthy: a lot is selected and its id is not 0. */
  predicate LotChosen(selected: Option<Lot>) {
    selected.Some? && selected.value.id != 0
  }

  /** `x` is truthy for an optional numeric id: present and not 0. */
  predicate IdPresent(id: Option<int>) {
    id.Some? && id.value != 0
  }

  /** A form field as antd hands it over: missing, a number (the room selector's values), or text. */
  datatype FieldValue = Absent | Num(n: int) | Text(s: string)

  /** JavaScript truthiness of a field value. */
  predicate Truthy(v: FieldValue) {
    match v
    case Absent => false
    case Num(n) => n != 0
    case Text(s) => s != ""
  }

  /** The values of the vehicle forms. An empty `licensePlate` or `kind` is a missing one. */
  datatype VehicleForm = VehicleForm(roomId: FieldValue, licensePlate: string, kind: string)

  const EmptyForm := VehicleForm(Absent, "", "")

  /** The fields the handlers read from a register or assign reply body: `id` and `error`
      (an absent or empty `error` is ""). */
  datatype ServerRecord = ServerRecord(id: Option<int>, error: string)

  /** `localStorage.getItem('authToken')` is truthy. */
  predicate TokenPresent(token: Option<string>) {
    token.Some? && token.value != ""
  }

  /** `values?.roomId && values?.licensePlate && values?.type`: the register-and-assign forms'
      required fields are all there. */
  predicate FormComplete(values: VehicleForm) {
    Truthy(values.roomId) && values.licensePlate != "" && values.kind != ""
  }
}
