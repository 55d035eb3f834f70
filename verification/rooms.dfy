/**
 * The administrator's room list: loading the rooms (with placeholders for a
 * missing floor or head count), adding a room, deleting one, and taking a
 * resident out of a room's member list.
 */
module Rooms {
  import opened Common
  import opened Http

  /** A room field the server may leave out or send as null. `??` replaces only those two
      cases, so a 0 or an empty text is kept. */
  datatype RoomField = Missing | Number(n: int) | Text(s: string)

  const NotUpdated := "Chưa cập nhật"

  /** A room as the list keeps it; `residents` is present only on rooms added in this session. */
  datatype Room = Room(id: int, roomNumber: string, floor: RoomField, peopleCount: RoomField,
                       userIds: seq<int>, residents: Option<seq<int>>)

  /** `room.floor ?? "Chưa cập nhật"` (and the same for `peopleCount`). */
  function Defaulted(f: RoomField): (r: RoomField)
    ensures f.Missing? ==> r == Text(NotUpdated)
    ensures !f.Missing? ==> r == f
  {
    if f.Missing? then Text(NotUpdated) else f
  }

  /** How `fetchRooms` formats each room: only `floor` and `peopleCount` change, and neither is
      missing afterwards. */
  function FormatRoom(room: Room): (f: Room)
    ensures !f.floor.Missing? && !f.peopleCount.Missing?
    ensures f.(floor := room.floor, peopleCount := room.peopleCount) == room
    ensures !room.floor.Missing? && !room.peopleCount.Missing? ==> f == room
  {
    room.(floor := Defaulted(room.floor), peopleCount := Defaulted(room.peopleCount))
  }

  /** A floor of 0 is kept, not replaced by the placeholder. */
  lemma ZeroFloorKept(room: Room)
    requires room.floor == Number(0)
    ensures FormatRoom(room).floor == Number(0)
  {
  }

  /** The body of `GET /demo/admin/room`: an array of rooms, or something `data.map` fails on. */
  datatype RoomsBody = RoomArray(rooms: seq<Room>) | NotArray

  const RoomsFailedMessage := "Lỗi khi lấy danh sách phòng"
  const NotArrayMessage := "data.map is not a function"

  /** The rooms `fetchRooms` installs, or the message of the error it throws. A non-ok status
      fails before the body is read. */
  function RoomsFetch(reply: Reply<RoomsBody>): (o: Outcome<seq<Room>>)
    ensures o.Done? <==> Ok(reply) && reply.body.Json? && reply.body.value.RoomArray?
    ensures o.Done? ==>
      var raw := reply.body.value.rooms;
      |o.value| == |raw| && forall i :: 0 <= i < |raw| ==> o.value[i] == FormatRoom(raw[i])
    ensures reply.Response? && !Ok(reply) ==> o == Failed(RoomsFailedMessage)
  {
    match reply
    case NetworkError(reason) => Failed(reason)
    case Response(_, _, body) =>
      if !Ok(reply) then Failed(RoomsFailedMessage)
      else if body.Unparsable? then Failed(body.syntaxError)
      else match body.value
        case NotArray => Failed(NotArrayMessage)
        case RoomArray(raw) => Done(seq(|raw|, i requires 0 <= i < |raw| => FormatRoom(raw[i])))
  }

  /** The rooms left after deleting `id`. */
  function WithoutRoom(rooms: seq<Room>, id: int): seq<Room> {
    Filter(rooms, (r: Room) => r.id != id)
  }

  /** Deleting removes exactly the rooms with that id and keeps the rest in order. */
  lemma WithoutRoomCorrect(rooms: seq<Room>, id: int)
    ensures forall r :: r in WithoutRoom(rooms, id) <==> r in rooms && r.id != id
    ensures Subsequence(WithoutRoom(rooms, id), rooms)
    ensures forall r :: multiset(WithoutRoom(rooms, id))[r] == if r.id != id then multiset(rooms)[r] else 0
  {
    FilterExactly(rooms, (r: Room) => r.id != id);
  }

  /** `room.userIds.filter(id => id !== userId)` on the rooms with id `roomId`. */
  function WithoutMember(rooms: seq<Room>, roomId: int, userId: int): seq<Room> {
    UpdateWhere(rooms, (r: Room) => r.id == roomId,
                (r: Room) => r.(userIds := Filter(r.userIds, (u: int) => u != userId)))
  }

  /** Removing a resident touches only the rooms with that id and only their member lists:
      every occurrence of the user goes, every other member stays as often as before. */
  lemma WithoutMemberCorrect(rooms: seq<Room>, roomId: int, userId: int)
    ensures |WithoutMember(rooms, roomId, userId)| == |rooms|
    ensures forall i :: 0 <= i < |rooms| && rooms[i].id != roomId ==> WithoutMember(rooms, roomId, userId)[i] == rooms[i]
    ensures forall i :: 0 <= i < |rooms| && rooms[i].id == roomId ==>
      var after := WithoutMember(rooms, roomId, userId)[i];
      after.(userIds := rooms[i].userIds) == rooms[i] && userId !in after.userIds &&
      forall u :: u != userId ==> multiset(after.userIds)[u] == multiset(rooms[i].userIds)[u]
  {
    forall i | 0 <= i < |rooms| && rooms[i].id == roomId
      ensures forall u :: u != userId ==>
        multiset(WithoutMember(rooms, roomId, userId)[i].userIds)[u] == multiset(rooms[i].userIds)[u]
    {
      FilterExactly(rooms[i].userIds, (u: int) => u != userId);
    }
  }

  datatype NewRoom = NewRoom(roomNumber: string, floor: string, peopleCount: string)

  const BlankRoom := NewRoom("", "", "")

  /** The fields of a create reply the handler reads: `message` when refused, the room when
      accepted. */
  datatype CreatedBody = CreatedBody(message: string, room: Room)

  function CreatedMessage(b: CreatedBody): string { b.message }

  datatype Request =
    | GetRooms                                         // GET /demo/admin/room
    | CreateRoom(room: NewRoom)                        // POST /demo/admin/room/new
    | DeleteRoom(id: int)                              // DELETE /demo/admin/room/{id}
    | RemoveMember(roomId: int, userId: int)           // DELETE /demo/admin/room/{roomId}/users/{userId}

  const MissingFieldsMessage := "Vui lòng nhập đầy đủ thông tin!"
  const CreateFailedMessage := "Tạo phòng thất bại"
  const CreateRetryMessage := "Tạo phòng thất bại. Vui lòng thử lại!"
  const DeleteFailedMessage := "Delete failed"
  const RemoveFailedMessage := "Không thể xóa user khỏi phòng"
  const RemovedMessage := "Đã xóa user khỏi phòng thành công"

  /** The guard of `handleAddRoom`: some field is empty or only white space. */
  predicate RoomFormIncomplete(n: NewRoom) {
    AllSpace(n.roomNumber) || AllSpace(n.floor) || AllSpace(n.peopleCount)
  }

  /** The guard is the code's test `!roomNumber.trim() || !floor.trim() || !peopleCount.trim()`. */
  lemma RoomFormIncompleteIsTrimTest(n: NewRoom)
    ensures RoomFormIncomplete(n) <==> Trim(n.roomNumber) == "" || Trim(n.floor) == "" || Trim(n.peopleCount) == ""
  {
    TrimEmptyIffAllSpace(n.roomNumber);
    TrimEmptyIffAllSpace(n.floor);
    TrimEmptyIffAllSpace(n.peopleCount);
  }

  class RoomBoard {
    var rooms: seq<Room>
    var error: string
    var loadingPage: bool
    var loadingForm: bool
    var newRoom: NewRoom
    var showForm: bool
    /** The texts shown with `alert`. */
    var alerts: seq<string>
    var requests: seq<Request>

    constructor ()
      ensures rooms == [] && error == "" && loadingPage && !loadingForm
      ensures newRoom == BlankRoom && !showForm && alerts == [] && requests == []
    {
      rooms := [];
      error := "";
      loadingPage := true;
      loadingForm := false;
      newRoom := BlankRoom;
      showForm := false;
      alerts := [];
      requests := [];
    }

    /** `fetchRooms`: a good reply replaces the list with the formatted rooms; a failure keeps
        the list and shows the error. A success does not clear an earlier error. */
    method FetchRooms(reply: Reply<RoomsBody>)
      modifies this`rooms, this`error, this`loadingPage, this`requests
      ensures requests == old(requests) + [GetRooms] && !loadingPage
      ensures RoomsFetch(reply).Done? ==> rooms == RoomsFetch(reply).value && error == old(error)
      ensures RoomsFetch(reply).Failed? ==> rooms == old(rooms) && error == RoomsFetch(reply).message
    {
      loadingPage := true;
      requests := requests + [GetRooms];
      var outcome := RoomsFetch(reply);
      if outcome.Done? {
        rooms := outcome.value;
      } else {
        error := outcome.message;
      }
      loadingPage := false;
    }

    /** `handleAddRoom`: a blank field stops it before any request; a created room is appended
        with an empty resident list and the form is blanked and closed. */
    method HandleAddRoom(reply: Reply<CreatedBody>)
      modifies this`rooms, this`error, this`loadingForm, this`newRoom, this`showForm, this`requests
      ensures RoomFormIncomplete(old(newRoom)) ==>
        error == MissingFieldsMessage && requests == old(requests) && rooms == old(rooms) &&
        newRoom == old(newRoom) && showForm == old(showForm) && loadingForm == old(loadingForm)
      ensures !RoomFormIncomplete(old(newRoom)) ==> requests == old(requests) + [CreateRoom(old(newRoom))] && !loadingForm
      ensures !RoomFormIncomplete(old(newRoom)) && ReadThenCheck(reply, CreatedMessage, CreateFailedMessage).Done? ==>
        rooms == old(rooms) + [reply.body.value.room.(residents := Some([]))] &&
        newRoom == BlankRoom && !showForm && error == ""
      ensures !RoomFormIncomplete(old(newRoom)) && ReadThenCheck(reply, CreatedMessage, CreateFailedMessage).Failed? ==>
        rooms == old(rooms) && newRoom == old(newRoom) && showForm == old(showForm) &&
        error == Or(ReadThenCheck(reply, CreatedMessage, CreateFailedMessage).message, CreateRetryMessage)
    {
      if RoomFormIncomplete(newRoom) {
        error := MissingFieldsMessage;
        return;
      }
      loadingForm := true;
      requests := requests + [CreateRoom(newRoom)];
      var outcome := ReadThenCheck(reply, CreatedMessage, CreateFailedMessage);
      if outcome.Done? {
        rooms := rooms + [outcome.value.room.(residents := Some([]))];
        newRoom := BlankRoom;
        showForm := false;
        error := "";
      } else {
        error := Or(outcome.message, CreateRetryMessage);
      }
      loadingForm := false;
    }

    /** `deleteRoom(roomId)`: an ok reply removes exactly the rooms with that id. */
    method DeleteRoom(roomId: int, reply: Reply<()>)
      modifies this`rooms, this`error, this`requests
      ensures requests == old(requests) + [Request.DeleteRoom(roomId)]
      ensures Ok(reply) ==> rooms == WithoutRoom(old(rooms), roomId) && error == old(error)
      ensures !Ok(reply) ==> rooms == old(rooms) && error == (if reply.NetworkError? then reply.reason else DeleteFailedMessage)
    {
      requests := requests + [Request.DeleteRoom(roomId)];
      if Ok(reply) {
        rooms := WithoutRoom(rooms, roomId);
      } else {
        error := if reply.NetworkError? then reply.reason else DeleteFailedMessage;
      }
    }

    /** `handleRemoveUser(roomId, userId)`: an ok reply takes the user out of that room's member
        list only; a failure changes no room. Either way the outcome is alerted. */
    method HandleRemoveUser(roomId: int, userId: int, reply: Reply<()>)
      modifies this`rooms, this`alerts, this`requests
      ensures requests == old(requests) + [RemoveMember(roomId, userId)]
      ensures Ok(reply) ==> rooms == WithoutMember(old(rooms), roomId, userId) && alerts == old(alerts) + [RemovedMessage]
      ensures !Ok(reply) ==> rooms == old(rooms) && alerts == old(alerts) + [TextFailure(reply, RemoveFailedMessage)]
    {
      requests := requests + [RemoveMember(roomId, userId)];
      if Ok(reply) {
        rooms := WithoutMember(rooms, roomId, userId);
        alerts := alerts + [RemovedMessage];
      } else {
        alerts := alerts + [TextFailure(reply, RemoveFailedMessage)];
      }
    }
  }
}
