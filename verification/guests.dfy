/**
 * The administrator's guest list: loading the guests (anything but an array
 * reads as no guests), activating a guest's account with a per-e-mail progress
 * record, removing an activated guest once the success message has been shown,
 * and deleting a guest after confirmation.
 */
module Guests {
  import opened Common
  import opened Http

  datatype Guest = Guest(id: int, username: string, lastName: string, email: string, dob: string)

  /** The per-e-mail record `activationStatus` keeps; `success` is absent while running. */
  datatype Activation = Activation(loading: bool, message: string, success: Option<bool>)

  const Running := Activation(true, "", None)
  const ActivatedMessage := "Kích hoạt thành công!"
  const ActivationFailedMessage := "Activation failed"
  const DeleteFailedMessage := "Xóa không thành công"

  /** The body of `GET /demo/users/admin/guest`: an array, or any other JSON value. */
  datatype GuestsBody = GuestArray(guests: seq<Guest>) | NotArray

  /** `Array.isArray(data) ? data : []` */
  function GuestsOf(body: GuestsBody): (r: seq<Guest>)
    ensures body.NotArray? ==> r == []
    ensures body.GuestArray? ==> r == body.guests
  {
    if body.GuestArray? then body.guests else []
  }

  /** `disabled={status.loading}` on a guest's activate button. */
  function ActivateDisabled(status: map<string, Activation>, email: string): (disabled: bool)
    ensures disabled <==> email in status && status[email].loading
    ensures status.Keys == {} ==> !disabled
  {
    email in status && status[email].loading
  }

  /** `prev.filter(guest => guest.email !== email)` */
  function WithoutEmail(guests: seq<Guest>, email: string): seq<Guest> {
    Filter(guests, (g: Guest) => g.email != email)
  }

  /** `prev.filter(guest => guest.id !== guestId)` */
  function WithoutGuest(guests: seq<Guest>, id: int): seq<Guest> {
    Filter(guests, (g: Guest) => g.id != id)
  }

  /** Removing an activated guest drops exactly the guests with that e-mail and keeps the rest
      in order. */
  lemma WithoutEmailCorrect(guests: seq<Guest>, email: string)
    ensures forall g :: g in WithoutEmail(guests, email) <==> g in guests && g.email != email
    ensures Subsequence(WithoutEmail(guests, email), guests)
    ensures forall g :: multiset(WithoutEmail(guests, email))[g] == if g.email != email then multiset(guests)[g] else 0
  {
    FilterExactly(guests, (g: Guest) => g.email != email);
  }

  /** Deleting drops exactly the guests with that id and keeps the rest in order. */
  lemma WithoutGuestCorrect(guests: seq<Guest>, id: int)
    ensures forall g :: g in WithoutGuest(guests, id) <==> g in guests && g.id != id
    ensures Subsequence(WithoutGuest(guests, id), guests)
    ensures forall g :: multiset(WithoutGuest(guests, id))[g] == if g.id != id then multiset(guests)[g] else 0
  {
    FilterExactly(guests, (g: Guest) => g.id != id);
  }

  datatype ActivateBody = ActivateBody(message: string)

  function ActivateMessage(b: ActivateBody): string { b.message }

  datatype Request =
    | GetGuests                 // GET /demo/users/admin/guest
    | Activate(email: string)   // POST /demo/users/admin/activate?email=…
    | DeleteGuest(id: int)      // DELETE /demo/users/admin/guest/{id}

  class GuestBoard {
    var guests: seq<Guest>
    var loading: bool
    var error: string
    var activationStatus: map<string, Activation>
    /** E-mails whose removal a pending `setTimeout` will carry out. */
    var pendingRemovals: seq<string>
    var requests: seq<Request>

    constructor ()
      ensures guests == [] && loading && error == "" && activationStatus == map[]
      ensures pendingRemovals == [] && requests == []
    {
      guests := [];
      loading := true;
      error := "";
      activationStatus := map[];
      pendingRemovals := [];
      requests := [];
    }

    /** `fetchGuests`: the body is read whatever the status; an array becomes the list and any
        other JSON value an empty list. */
    method FetchGuests(reply: Reply<GuestsBody>)
      modifies this`guests, this`loading, this`error, this`requests
      ensures requests == old(requests) + [GetGuests] && !loading
      ensures reply.Response? && reply.body.Json? ==> guests == GuestsOf(reply.body.value) && error == old(error)
      ensures reply.NetworkError? ==> guests == old(guests) && error == reply.reason
      ensures reply.Response? && reply.body.Unparsable? ==> guests == old(guests) && error == reply.body.syntaxError
    {
      requests := requests + [GetGuests];
      loading := false;
      match reply
      case NetworkError(reason) =>
        error := reason;
      case Response(_, _, body) =>
        if body.Unparsable? {
          error := body.syntaxError;
        } else {
          guests := GuestsOf(body.value);
        }
    }

    /** `handleActivate(email)` up to the request: that e-mail's record becomes "running";
        every other e-mail's record is kept. */
    method StartActivate(email: string)
      modifies this`activationStatus, this`requests
      ensures activationStatus == old(activationStatus)[email := Running]
      ensures requests == old(requests) + [Activate(email)]
      ensures ActivateDisabled(activationStatus, email)
    {
      activationStatus := activationStatus[email := Running];
      requests := requests + [Activate(email)];
    }

    /** `handleActivate(email)` after the reply: that e-mail's record ends in success or in the
        failure's message, and a success schedules the guest's removal. */
    method FinishActivate(email: string, reply: Reply<ActivateBody>)
      modifies this`activationStatus, this`pendingRemovals
      ensures ReadThenCheck(reply, ActivateMessage, ActivationFailedMessage).Done? ==>
        activationStatus == old(activationStatus)[email := Activation(false, ActivatedMessage, Some(true))] &&
        pendingRemovals == old(pendingRemovals) + [email]
      ensures ReadThenCheck(reply, ActivateMessage, ActivationFailedMessage).Failed? ==>
        activationStatus == old(activationStatus)[email :=
          Activation(false, ReadThenCheck(reply, ActivateMessage, ActivationFailedMessage).message, Some(false))] &&
        pendingRemovals == old(pendingRemovals)
      ensures !ActivateDisabled(activationStatus, email)
    {
      var outcome := ReadThenCheck(reply, ActivateMessage, ActivationFailedMessage);
      if outcome.Done? {
        activationStatus := activationStatus[email := Activation(false, ActivatedMessage, Some(true))];
        pendingRemovals := pendingRemovals + [email];
      } else {
        activationStatus := activationStatus[email := Activation(false, outcome.message, Some(false))];
      }
    }

    /** The timer a successful activation set: the guests with that e-mail leave the list. */
    method RemoveActivated()
      requires pendingRemovals != []
      modifies this`guests, this`pendingRemovals
      ensures guests == WithoutEmail(old(guests), old(pendingRemovals)[0])
      ensures pendingRemovals == old(pendingRemovals)[1..]
    {
      guests := WithoutEmail(guests, pendingRemovals[0]);
      pendingRemovals := pendingRemovals[1..];
    }

    /** `handleDelete(guestId)`: nothing happens unless the confirmation is accepted; an ok reply
        then drops exactly the guests with that id. */
    method HandleDelete(guestId: int, confirmed: bool, reply: Reply<()>)
      modifies this`guests, this`error, this`requests
      ensures !confirmed ==> guests == old(guests) && error == old(error) && requests == old(requests)
      ensures confirmed ==> requests == old(requests) + [DeleteGuest(guestId)]
      ensures confirmed && Ok(reply) ==> guests == WithoutGuest(old(guests), guestId) && error == old(error)
      ensures confirmed && !Ok(reply) ==>
        guests == old(guests) && error == (if reply.NetworkError? then reply.reason else DeleteFailedMessage)
    {
      if !confirmed {
        return;
      }
      requests := requests + [DeleteGuest(guestId)];
      if Ok(reply) {
        guests := WithoutGuest(guests, guestId);
      } else {
        error := if reply.NetworkError? then reply.reason else DeleteFailedMessage;
      }
    }
  }
}
