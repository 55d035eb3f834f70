/**
 * The one-time-password screen: six one-character input slots, the change
 * handler that accepts a digit or a deletion into one slot, and the verify
 * handler that sends the six slots joined into one code and, on success, hands
 * the e-mail and code on to the reset screen.
 */
module Otp {
  import opened Common
  import opened Http

  const SlotCount := 6

  /** A slot holds nothing or one digit. */
  predicate Slot(s: string) {
    s == "" || (|s| == 1 && IsDigit(s[0]))
  }

  /** `/^\d$/.test(value) || value === ""`: the values the change handler accepts. */
  predicate AcceptedValue(value: string) {
    (|value| == 1 && IsDigit(value[0])) || value == ""
  }

  /** `!otp.some(d => !d)`: no slot is empty. */
  predicate Filled(slots: seq<string>) {
    forall i :: 0 <= i < |slots| ==> slots[i] != ""
  }

  /** `slots.join("")` */
  function Join(slots: seq<string>): (r: string)
    ensures slots == [] ==> r == ""
    ensures r == "" <==> forall i :: 0 <= i < |slots| ==> slots[i] == ""
    ensures slots != [] ==> slots[0] <= r
  {
    if slots == [] then "" else slots[0] + Join(slots[1..])
  }

  /** Joining one-character slots gives one character per slot, in slot order. */
  lemma {:induction false} JoinSingles(slots: seq<string>)
    requires forall i :: 0 <= i < |slots| ==> |slots[i]| == 1
    ensures |Join(slots)| == |slots|
    ensures forall i :: 0 <= i < |slots| ==> Join(slots)[i] == slots[i][0]
  {
    if slots != [] {
      JoinSingles(slots[1..]);
      assert Join(slots) == slots[0] + Join(slots[1..]);
      forall i | 1 <= i < |slots| ensures Join(slots)[i] == slots[i][0] {
        assert Join(slots)[i] == Join(slots[1..])[i - 1];
        assert slots[1..][i - 1] == slots[i];
      }
    }
  }

  /** Six filled slots join into a six-digit code. */
  lemma FilledSlotsGiveCode(slots: seq<string>)
    requires |slots| == SlotCount && Filled(slots)
    requires forall i :: 0 <= i < |slots| ==> Slot(slots[i])
    ensures |Join(slots)| == SlotCount
    ensures forall k :: 0 <= k < SlotCount ==> IsDigit(Join(slots)[k]) && Join(slots)[k] == slots[k][0]
  {
    JoinSingles(slots);
  }

  const MissingOtpMessage := "Vui lòng nhập đầy đủ mã OTP"
  const OtpFailedMessage := "Lỗi xác thực OTP"

  /** POST /demo/auth/verify-otp?email=…&otp=… */
  datatype Request = VerifyOtp(email: string, otp: string)

  /** The navigation state handed to the reset screen. */
  datatype ResetState = ResetState(email: string, otp: string)

  class OtpEntry {
    var email: string
    /** The six input slots; the handler's copy-write-store is one in-place write. */
    const otp: array<string>
    var isProcessing: bool
    var error: string
    var requests: seq<Request>
    /** The verify request whose reply has not arrived yet. */
    var inFlight: Option<Request>
    var navigation: Option<ResetState>

    predicate Valid()
      reads this, otp
    {
      otp.Length == SlotCount && forall i :: 0 <= i < otp.Length ==> Slot(otp[i])
    }

    constructor (email: string)
      ensures Valid() && fresh(otp)
      ensures otp[..] == ["", "", "", "", "", ""]
      ensures this.email == email && !isProcessing && error == ""
      ensures requests == [] && inFlight.None? && navigation.None?
    {
      this.email := email;
      otp := new string[SlotCount](_ => "");
      isProcessing := false;
      error := "";
      requests := [];
      inFlight := None;
      navigation := None;
      new;
      assert otp[..] == ["", "", "", "", "", ""];
    }

    /** `handleOtpChange(index, value)`: a digit or a deletion goes into slot `index` only and
        clears the error; any other value changes nothing. */
    method HandleOtpChange(index: int, value: string)
      requires Valid() && 0 <= index < SlotCount
      modifies otp, this`error
      ensures Valid()
      ensures AcceptedValue(value) ==> otp[..] == old(otp[..])[index := value] && error == ""
      ensures !AcceptedValue(value) ==> otp[..] == old(otp[..]) && error == old(error)
    {
      if !AcceptedValue(value) {
        return;
      }
      otp[index] := value;
      error := "";
    }

    /** `disabled={isProcessing || otp.some(d => !d)}` on the confirm button; while it is
        enabled the slots hold a six-digit code. */
    function ConfirmDisabled(): (disabled: bool)
      requires Valid()
      reads this, otp
      ensures !disabled ==>
        !isProcessing && |Join(otp[..])| == SlotCount && forall k :: 0 <= k < SlotCount ==> IsDigit(Join(otp[..])[k])
    {
      if isProcessing || !Filled(otp[..]) then true
      else FilledSlotsGiveCode(otp[..]); false
    }

    /** `handleVerifyOtp` up to the request: an empty slot sets the error and sends nothing;
        otherwise the joined code is sent and processing starts. */
    method SubmitVerifyOtp() returns (sent: bool)
      requires Valid()
      modifies this`error, this`isProcessing, this`requests, this`inFlight
      ensures sent <==> Filled(otp[..])
      ensures !sent ==>
        error == MissingOtpMessage && requests == old(requests) && isProcessing == old(isProcessing) &&
        inFlight == old(inFlight)
      ensures sent ==>
        isProcessing && error == old(error) && requests == old(requests) + [VerifyOtp(email, Join(otp[..]))] &&
        inFlight == Some(VerifyOtp(email, Join(otp[..])))
    {
      if !Filled(otp[..]) {
        error := MissingOtpMessage;
        return false;
      }
      isProcessing := true;
      var request := VerifyOtp(email, Join(otp[..]));
      requests := requests + [request];
      inFlight := Some(request);
      return true;
    }

    /** `handleVerifyOtp` after the reply: an ok reply passes the e-mail and the code that was
        sent on to the reset screen; otherwise the error shows the failure without a leading
        "Error: ". Processing ends either way. */
    method CompleteVerifyOtp(reply: Reply<()>)
      requires inFlight.Some?
      modifies this`error, this`isProcessing, this`inFlight, this`navigation
      ensures !isProcessing && inFlight.None?
      ensures Ok(reply) ==>
        navigation == Some(ResetState(old(inFlight).value.email, old(inFlight).value.otp)) && error == old(error)
      ensures !Ok(reply) ==>
        navigation == old(navigation) && error == StripErrorPrefix(TextFailure(reply, OtpFailedMessage))
    {
      var request := inFlight.value;
      if Ok(reply) {
        navigation := Some(ResetState(request.email, request.otp));
      } else {
        error := StripErrorPrefix(TextFailure(reply, OtpFailedMessage));
      }
      isProcessing := false;
      inFlight := None;
    }
  }

  /** A rejected verification whose server text starts with "Error: " is shown without it, and a
      rejection with an empty text shows the fallback message. */
  lemma OtpFailureMessages(m: string)
    ensures StripErrorPrefix(TextFailure(Reply<()>.Response(400, ErrorPrefix + m, Unparsable("")), OtpFailedMessage)) == m
    ensures StripErrorPrefix(TextFailure(Reply<()>.Response(400, "", Unparsable("")), OtpFailedMessage)) == OtpFailedMessage
  {
    StripErrorPrefixInverse(m);
    assert OtpFailedMessage[..|ErrorPrefix|][0] != ErrorPrefix[0];
  }
}
