/**
 * The reset-password screen: it receives the e-mail and code from the
 * one-time-password screen, checks them and the two password fields, sends the
 * reset request and reports its outcome in a typed message.
 */
module ResetPassword {
  import opened Common
  import opened Http

  const MissingCredentialsMessage := "Thiếu thông tin xác thực"
  const MismatchMessage := "Mật khẩu xác nhận không khớp!"
  const ResetFailedMessage := "Đặt lại mật khẩu thất bại"
  const ResetDoneMessage := "Cập nhật mật khẩu thành công! Đang chuyển hướng..."

  /** POST /demo/auth/reset-password?email=…&otp=…&newPassword=… */
  datatype Request = ResetRequest(email: string, otp: string, newPassword: string)

  /** The message the guards of `handlePasswordUpdate` set, in their order: missing e-mail or
      code first, then differing passwords; `None` when both pass. */
  function ResetRefusal(email: string, otp: string, newPassword: string, confirmPassword: string): (r: Option<string>)
    ensures r.None? <==> email != "" && otp != "" && newPassword == confirmPassword
    ensures (email == "" || otp == "") ==> r == Some(MissingCredentialsMessage)
    ensures r == Some(MismatchMessage) <==> email != "" && otp != "" && newPassword != confirmPassword
  {
    if email == "" || otp == "" then Some(MissingCredentialsMessage)
    else if newPassword != confirmPassword then Some(MismatchMessage)
    else None
  }

  class ResetPage {
    /** `location.state.email` and `.otp`; a missing one is the empty string. */
    const email: string
    const otp: string
    var newPassword: string
    var confirmPassword: string
    var message: Banner
    var isProcessing: bool
    var requests: seq<Request>
    var inFlight: bool
    /** The route a pending `setTimeout` will navigate to. */
    var redirect: Option<string>

    constructor (email: string, otp: string)
      ensures this.email == email && this.otp == otp
      ensures newPassword == "" && confirmPassword == "" && message == NoBanner
      ensures !isProcessing && requests == [] && !inFlight && redirect.None?
    {
      this.email := email;
      this.otp := otp;
      newPassword := "";
      confirmPassword := "";
      message := NoBanner;
      isProcessing := false;
      requests := [];
      inFlight := false;
      redirect := None;
    }

    /** `disabled={isProcessing || !newPassword || !confirmPassword}` on the submit button.
        While it is enabled, a submit with the credentials present is refused only for
        differing passwords. */
    function SubmitDisabled(): (disabled: bool)
      reads this
      ensures !disabled ==> !isProcessing && newPassword != "" && confirmPassword != ""
      ensures !disabled && email != "" && otp != "" ==>
        (ResetRefusal(email, otp, newPassword, confirmPassword).None? <==> newPassword == confirmPassword)
    {
      isProcessing || newPassword == "" || confirmPassword == ""
    }

    /** `handlePasswordUpdate` up to the request. A refused submit sets the error and sends
        nothing; an accepted one clears the message and starts processing before the request. */
    method SubmitPasswordUpdate() returns (sent: bool)
      modifies this`message, this`isProcessing, this`requests, this`inFlight
      ensures sent <==> ResetRefusal(email, otp, newPassword, confirmPassword).None?
      ensures !sent ==>
        message == Banner("error", ResetRefusal(email, otp, newPassword, confirmPassword).value) &&
        requests == old(requests) && isProcessing == old(isProcessing) && inFlight == old(inFlight)
      ensures sent ==>
        message == NoBanner && isProcessing && inFlight &&
        requests == old(requests) + [ResetRequest(email, otp, newPassword)]
    {
      var refusal := ResetRefusal(email, otp, newPassword, confirmPassword);
      if refusal.Some? {
        message := Banner("error", refusal.value);
        return false;
      }
      isProcessing := true;
      message := NoBanner;
      requests := requests + [ResetRequest(email, otp, newPassword)];
      inFlight := true;
      return true;
    }

    /** `handlePasswordUpdate` after the reply: success schedules the move to the login page;
        a failure shows its message without a leading "Error: ". */
    method CompletePasswordUpdate(reply: Reply<()>)
      requires inFlight
      modifies this`message, this`isProcessing, this`inFlight, this`redirect
      ensures !isProcessing && !inFlight
      ensures Ok(reply) ==> message == Banner("success", ResetDoneMessage) && redirect == Some("/login")
      ensures !Ok(reply) ==>
        message == Banner("error", StripErrorPrefix(TextFailure(reply, ResetFailedMessage))) &&
        redirect == old(redirect)
    {
      if Ok(reply) {
        message := Banner("success", ResetDoneMessage);
        redirect := Some("/login");
      } else {
        message := Banner("error", StripErrorPrefix(TextFailure(reply, ResetFailedMessage)));
      }
      isProcessing := false;
      inFlight := false;
    }
  }

  /** A server text "Error: m" is shown as m; an empty server text shows the fallback. */
  lemma ResetFailureMessages(m: string)
    ensures StripErrorPrefix(TextFailure(Reply<()>.Response(500, ErrorPrefix + m, Unparsable("")), ResetFailedMessage)) == m
    ensures StripErrorPrefix(TextFailure(Reply<()>.Response(500, "", Unparsable("")), ResetFailedMessage)) == ResetFailedMessage
  {
    StripErrorPrefixInverse(m);
    assert ResetFailedMessage[..|ErrorPrefix|][0] != ErrorPrefix[0];
  }
}
