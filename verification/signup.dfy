/**
 * The sign-up form: its three checks (required fields, e-mail pattern,
 * password pattern) and the submit handler they gate.
 *
 * Each regular expression appears twice: as the pattern says it (a split of
 * the text into the pattern's parts, or a lookahead per required class), and
 * as the plain rule a user would state. The two are proved to agree, and the
 * form uses the plain rule.
 */
module Signup {
  import opened Common
  import opened Http

  datatype SignupForm = SignupForm(username: string, password: string, firstName: string,
                                   lastName: string, email: string, dob: string)

  /** `[^\s@]+` */
  predicate LocalPart(s: string) {
    s != [] && forall i :: 0 <= i < |s| ==> !IsSpace(s[i]) && s[i] != '@'
  }

  /** `/^[^\s@]+@[^\s@]+\.[^\s@]+$/.test(s)`: some '@' and some later '.' cut `s` into three
      non-empty runs free of white space and '@'. */
  ghost predicate EmailPatternMatches(s: string)
    ensures EmailPatternMatches(s) ==> |s| >= 5 && '@' in s
  {
    exists at, dot :: 0 < at && at + 1 < dot < |s| - 1 && s[at] == '@' && s[dot] == '.' &&
      LocalPart(s[..at]) && LocalPart(s[at + 1..dot]) && LocalPart(s[dot + 1..])
  }

  /** The index of the first `c` in `s`. */
  function IndexOf(s: string, c: char): (k: Option<nat>)
    ensures k.Some? ==> k.value < |s| && s[k.value] == c && (forall i :: 0 <= i < k.value ==> s[i] != c)
    ensures k.None? ==> forall i :: 0 <= i < |s| ==> s[i] != c
  {
    if s == [] then None
    else if s[0] == c then Some(0)
    else match IndexOf(s[1..], c)
      case None => None
      case Some(k) => Some(k + 1)
  }

  /** The domain holds a '.' that is neither its first nor its last character. */
  predicate InnerDot(d: string) {
    exists p :: 0 < p < |d| - 1 && d[p] == '.'
  }

  /** The e-mail rule in words: no white space, exactly one '@' with something before it, and
      after it a '.' that is neither first nor last. */
  predicate EmailShape(s: string) {
    NoSpace(s) &&
    match IndexOf(s, '@')
    case None => false
    case Some(at) => at > 0 && (forall i :: at < i < |s| ==> s[i] != '@') && InnerDot(s[at + 1..])
  }

  /** A slice is a `[^\s@]+` run exactly when it is non-empty and each of its characters is
      neither white space nor '@'. */
  lemma LocalPartSlice(s: string, lo: int, hi: int)
    requires 0 <= lo <= hi <= |s|
    ensures LocalPart(s[lo..hi]) <==> lo < hi && forall i :: lo <= i < hi ==> !IsSpace(s[i]) && s[i] != '@'
  {
    if forall i :: lo <= i < hi ==> !IsSpace(s[i]) && s[i] != '@' {
      forall j | 0 <= j < hi - lo ensures !IsSpace(s[lo..hi][j]) && s[lo..hi][j] != '@' {
        assert s[lo..hi][j] == s[lo + j];
      }
    }
    if LocalPart(s[lo..hi]) {
      forall i | lo <= i < hi ensures !IsSpace(s[i]) && s[i] != '@' {
        assert s[lo..hi][i - lo] == s[i];
      }
    }
  }

  lemma EmailPatternGivesShape(s: string, at: int, dot: int)
    requires 0 < at && at + 1 < dot < |s| - 1 && s[at] == '@' && s[dot] == '.'
    requires LocalPart(s[..at]) && LocalPart(s[at + 1..dot]) && LocalPart(s[dot + 1..])
    ensures EmailShape(s)
  {
    LocalPartSlice(s, 0, at);
    LocalPartSlice(s, at + 1, dot);
    LocalPartSlice(s, dot + 1, |s|);
    assert s[..at] == s[0..at];
    assert s[dot + 1..] == s[dot + 1..|s|];
    assert IndexOf(s, '@') == Some(at);
    assert s[at + 1..][dot - at - 1] == '.';
  }

  lemma EmailShapeGivesPattern(s: string)
    requires EmailShape(s)
    ensures EmailPatternMatches(s)
  {
    var at := IndexOf(s, '@').value;
    var d := s[at + 1..];
    var p :| 0 < p < |d| - 1 && d[p] == '.';
    var dot := at + 1 + p;
    assert s[dot] == '.';
    LocalPartSlice(s, 0, at);
    LocalPartSlice(s, at + 1, dot);
    LocalPartSlice(s, dot + 1, |s|);
    assert s[..at] == s[0..at];
    assert s[dot + 1..] == s[dot + 1..|s|];
  }

  lemma EmailShapeMatchesPattern(s: string)
    ensures EmailShape(s) <==> EmailPatternMatches(s)
  {
    if EmailPatternMatches(s) {
      var at, dot :| 0 < at && at + 1 < dot < |s| - 1 && s[at] == '@' && s[dot] == '.' &&
        LocalPart(s[..at]) && LocalPart(s[at + 1..dot]) && LocalPart(s[dot + 1..]);
      EmailPatternGivesShape(s, at, dot);
    }
    if EmailShape(s) {
      EmailShapeGivesPattern(s);
    }
  }

  /** `[@$!%*#?&]` */
  predicate IsSpecial(c: char) {
    c in "@$!%*#?&"
  }

  /** `[A-Za-z\d@$!%*#?&]` */
  predicate PasswordChar(c: char) {
    IsLetter(c) || IsDigit(c) || IsSpecial(c)
  }

  /** `(?=.*X)` at the start: some character of class X comes after a stretch free of line
      terminators (JavaScript's `.`). */
  ghost predicate LookaheadFinds(s: string, x: char -> bool) {
    exists i :: 0 <= i < |s| && x(s[i]) && forall j :: 0 <= j < i ==> !IsLineTerminator(s[j])
  }

  /** `/^(?=.*[A-Za-z])(?=.*\d)(?=.*[@$!%*#?&])[A-Za-z\d@$!%*#?&]{8,}$/.test(s)` */
  ghost predicate PasswordPatternMatches(s: string)
    ensures PasswordPatternMatches(s) ==> |s| >= 8 && NoSpace(s)
  {
    LookaheadFinds(s, IsLetter) && LookaheadFinds(s, IsDigit) && LookaheadFinds(s, IsSpecial) &&
    |s| >= 8 && forall i :: 0 <= i < |s| ==> PasswordChar(s[i])
  }

  /** The password rule in words: at least 8 characters, only letters, digits and `@$!%*#?&`,
      and at least one of each of the three kinds. */
  predicate PasswordShape(s: string) {
    |s| >= 8 && (forall i :: 0 <= i < |s| ==> PasswordChar(s[i])) &&
    (exists i :: 0 <= i < |s| && IsLetter(s[i])) &&
    (exists i :: 0 <= i < |s| && IsDigit(s[i])) &&
    (exists i :: 0 <= i < |s| && IsSpecial(s[i]))
  }

  lemma PasswordShapeMatchesPattern(s: string)
    ensures PasswordShape(s) <==> PasswordPatternMatches(s)
  {
    if PasswordShape(s) {
      assert forall j :: 0 <= j < |s| ==> !IsLineTerminator(s[j]) by {
        forall j | 0 <= j < |s| ensures !IsLineTerminator(s[j]) {
          assert PasswordChar(s[j]);
        }
      }
      var a :| 0 <= a < |s| && IsLetter(s[a]);
      var b :| 0 <= b < |s| && IsDigit(s[b]);
      var c :| 0 <= c < |s| && IsSpecial(s[c]);
      assert LookaheadFinds(s, IsLetter) by {
        assert IsLetter(s[a]) && forall j :: 0 <= j < a ==> !IsLineTerminator(s[j]);
      }
      assert LookaheadFinds(s, IsDigit) by {
        assert IsDigit(s[b]) && forall j :: 0 <= j < b ==> !IsLineTerminator(s[j]);
      }
      assert LookaheadFinds(s, IsSpecial) by {
        assert IsSpecial(s[c]) && forall j :: 0 <= j < c ==> !IsLineTerminator(s[j]);
      }
    }
  }

  /** Examples the rule hinges on: letters and digits alone are not enough, and the special
      characters are exactly the eight listed. */
  lemma PasswordExamples()
    ensures PasswordShape("abc12345@")
    ensures !PasswordShape("abcd1234")
    ensures !PasswordShape("abc1234-@")
    ensures !PasswordShape("ab1@")
  {
    var good := "abc12345@";
    assert IsLetter(good[0]) && IsDigit(good[3]) && IsSpecial(good[8]);
    var noSpecial := "abcd1234";
    assert forall i :: 0 <= i < |noSpecial| ==> !IsSpecial(noSpecial[i]);
    var dash := "abc1234-@";
    assert !PasswordChar(dash[7]);
  }

  const MissingFieldsMessage := "Vui lòng điền đầy đủ thông tin"
  const BadEmailMessage := "Email không hợp lệ"
  const BadPasswordMessage := "Mật khẩu cần ít nhất 8 ký tự, bao gồm chữ số và ký tự đặc biệt"
  const SignupFailedMessage := "Đăng ký thất bại"
  const SignupErrorMessage := "Có lỗi xảy ra khi đăng ký"
  const SignedUpMessage := "Đăng ký thành công! Đang chuyển hướng..."

  /** The message of the first check `validateForm` fails, in the order required fields, e-mail,
      password; `None` when the form passes. First and last name are not checked. */
  function FormProblem(f: SignupForm): (r: Option<string>)
    ensures r.None? <==>
      f.username != "" && f.password != "" && f.email != "" && f.dob != "" &&
      EmailPatternMatches(f.email) && PasswordPatternMatches(f.password)
    ensures (f.username == "" || f.password == "" || f.email == "" || f.dob == "") ==> r == Some(MissingFieldsMessage)
    ensures r == Some(BadEmailMessage) <==>
      f.username != "" && f.password != "" && f.email != "" && f.dob != "" && !EmailPatternMatches(f.email)
    ensures r == Some(BadPasswordMessage) <==>
      f.username != "" && f.password != "" && f.email != "" && f.dob != "" &&
      EmailPatternMatches(f.email) && !PasswordPatternMatches(f.password)
  {
    EmailShapeMatchesPattern(f.email);
    PasswordShapeMatchesPattern(f.password);
    if f.username == "" || f.password == "" || f.email == "" || f.dob == "" then Some(MissingFieldsMessage)
    else if !EmailShape(f.email) then Some(BadEmailMessage)
    else if !PasswordShape(f.password) then Some(BadPasswordMessage)
    else None
  }

  /** The field of the reply body `handleSignup` reads. */
  datatype MessageBody = MessageBody(message: string)

  datatype Request = CreateUser(form: SignupForm)   // POST /users/create

  class SignupPage {
    var formData: SignupForm
    var message: Banner
    var loading: bool
    var requests: seq<Request>
    /** The route a pending `setTimeout` will navigate to. */
    var redirect: Option<string>

    constructor ()
      ensures formData == SignupForm("", "", "", "", "", "") && message == NoBanner
      ensures !loading && requests == [] && redirect.None?
    {
      formData := SignupForm("", "", "", "", "", "");
      message := NoBanner;
      loading := false;
      requests := [];
      redirect := None;
    }

    /** `validateForm()`: true when every check passes; otherwise the first failed check's message
        is shown. */
    method ValidateForm() returns (valid: bool)
      modifies this`message
      ensures valid <==> FormProblem(formData).None?
      ensures !valid ==> message == Banner("error", FormProblem(formData).value)
      ensures valid ==> message == old(message)
    {
      var f := formData;
      if f.username == "" || f.password == "" || f.email == "" || f.dob == "" {
        message := Banner("error", MissingFieldsMessage);
        return false;
      }
      if !EmailShape(f.email) {
        message := Banner("error", BadEmailMessage);
        return false;
      }
      if !PasswordShape(f.password) {
        message := Banner("error", BadPasswordMessage);
        return false;
      }
      return true;
    }

    /** `handleSignup`: nothing is sent unless the form passes. The body is read as JSON before
        the status is looked at, so an ok reply whose body is not JSON is reported as an error. */
    method HandleSignup(reply: Reply<MessageBody>)
      modifies this`message, this`loading, this`requests, this`redirect
      ensures FormProblem(old(formData)).Some? ==>
        requests == old(requests) && message == Banner("error", FormProblem(old(formData)).value) &&
        redirect == old(redirect) && loading == old(loading)
      ensures FormProblem(old(formData)).None? ==> requests == old(requests) + [CreateUser(old(formData))] && !loading
      ensures FormProblem(old(formData)).None? && Ok(reply) && reply.body.Json? ==>
        message == Banner("success", SignedUpMessage) && redirect == Some("/login")
      ensures FormProblem(old(formData)).None? && !(Ok(reply) && reply.body.Json?) ==>
        redirect == old(redirect) && message.kind == "error" && message.content == SignupError(reply)
    {
      var valid := ValidateForm();
      if !valid {
        return;
      }
      loading := true;
      requests := requests + [CreateUser(formData)];
      if reply.NetworkError? || reply.body.Unparsable? || !Ok(reply) {
        message := Banner("error", SignupError(reply));
      } else {
        message := Banner("success", SignedUpMessage);
        redirect := Some("/login");
      }
      loading := false;
    }
  }

  /** The message a failed sign-up shows: the server's `message` for a refused request, the
      error's own text otherwise, and the generic text when that is empty. */
  function SignupError(reply: Reply<MessageBody>): (m: string)
    ensures m != ""
    ensures reply.Response? && reply.body.Json? && reply.body.value.message != "" ==> m == reply.body.value.message
    ensures reply.NetworkError? && reply.reason != "" ==> m == reply.reason
  {
    match reply
    case NetworkError(reason) => Or(reason, SignupErrorMessage)
    case Response(_, _, body) =>
      if body.Unparsable? then Or(body.syntaxError, SignupErrorMessage)
      else Or(body.value.message, SignupFailedMessage)
  }

  /** A refused sign-up whose body has no message falls back to "Đăng ký thất bại"; an account
      created with a body that is not JSON is still reported as a failure. */
  lemma SignupErrorExamples()
    ensures SignupError(Response(400, "{}", Json(MessageBody("")))) == SignupFailedMessage
    ensures SignupError(Response(400, "", Json(MessageBody("User existed")))) == "User existed"
    ensures SignupError(Response(201, "", Unparsable(""))) == SignupErrorMessage
  {
  }
}
