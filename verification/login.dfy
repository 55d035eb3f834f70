/**
 * The login screen: the empty-field guard, the acceptance test on the login
 * reply (ok, a token, at least one role), and what happens to the stored
 * session on success and on failure. The browser storage keys `authToken` and
 * `userRoles`, the sign-in context and the router are recorded as effects in
 * the order the handler performs them.
 */
module Login {
  import opened Common
  import opened Http

  const MissingFieldsMessage := "Vui lòng nhập đầy đủ tên đăng nhập và mật khẩu"
  const LoginFailedMessage := "Đăng nhập thất bại"
  const BadCredentialsMessage := "Thông tin xác thực không hợp lệ"
  const Dashboard := "/dashboard"

  /** `data.result` as the handler reads it; a missing `roles` reads as `[]`. */
  datatype LoginResult = LoginResult(token: Option<string>, roles: seq<string>)
  datatype LoginBody = LoginBody(message: string, result: Option<LoginResult>)

  datatype Effect =
    | PostLogin(username: string, password: string)   // POST /demo/auth/login
    | StoreToken(token: string)                        // localStorage.setItem("authToken", …)
    | StoreRoles(roles: seq<string>)                   // localStorage.setItem("userRoles", JSON.stringify(…))
    | SignIn(roles: seq<string>)                       // login(roles) of the auth context
    | Navigate(route: string)
    | RemoveToken                                      // localStorage.removeItem("authToken")

  datatype Session = Session(token: string, roles: seq<string>)

  /** The session an ok reply carries: a non-empty token and a non-empty roles list. */
  function Accepted(reply: Reply<LoginBody>): (s: Option<Session>)
    ensures s.Some? <==>
      Ok(reply) && reply.body.Json? && reply.body.value.result.Some? &&
      reply.body.value.result.value.token.Some? && reply.body.value.result.value.token.value != "" &&
      |reply.body.value.result.value.roles| > 0
    ensures s.Some? ==>
      s.value.token == reply.body.value.result.value.token.value && s.value.roles == reply.body.value.result.value.roles
  {
    if !Ok(reply) || reply.body.Unparsable? then None
    else match reply.body.value.result
      case None => None
      case Some(result) =>
        if result.token.None? || result.token.value == "" || |result.roles| == 0 then None
        else Some(Session(result.token.value, result.roles))
  }

  /** The error a failed login shows: the rejection's or the parse error's own message, the
      server's `message` (or a generic text) for a refused login, and a fixed text for an ok
      reply without token or roles. No "Error: " prefix is stripped here. */
  function LoginError(reply: Reply<LoginBody>): (m: string)
    requires Accepted(reply).None?
    ensures Ok(reply) && reply.body.Json? ==> m == BadCredentialsMessage
    ensures reply.Response? && !Ok(reply) && reply.body.Json? ==> m == Or(reply.body.value.message, LoginFailedMessage)
  {
    match reply
    case NetworkError(reason) => reason
    case Response(_, _, body) =>
      if body.Unparsable? then body.syntaxError
      else if !Ok(reply) then Or(body.value.message, LoginFailedMessage)
      else BadCredentialsMessage
  }

  class LoginPage {
    var username: string
    var password: string
    var error: string
    var loading: bool
    /** The stored `authToken`. */
    var authToken: Option<string>
    /** The stored `userRoles`. */
    var userRoles: Option<seq<string>>
    var effects: seq<Effect>

    constructor (storedToken: Option<string>, storedRoles: Option<seq<string>>)
      ensures username == "" && password == "" && error == "" && !loading
      ensures authToken == storedToken && userRoles == storedRoles && effects == []
    {
      username := "";
      password := "";
      error := "";
      loading := false;
      authToken := storedToken;
      userRoles := storedRoles;
      effects := [];
    }

    /** `handleLogin`. An empty field stops it with an error before any request or storage
        change. Otherwise an accepted reply stores the token and the roles, signs in and
        navigates, in that order; any failure shows the error and removes the stored token. */
    method HandleLogin(reply: Reply<LoginBody>)
      modifies this`error, this`loading, this`authToken, this`userRoles, this`effects
      ensures old(username) == "" || old(password) == "" ==>
        error == MissingFieldsMessage && effects == old(effects) && authToken == old(authToken) &&
        userRoles == old(userRoles) && loading == old(loading)
      ensures old(username) != "" && old(password) != "" ==> !loading
      ensures old(username) != "" && old(password) != "" && Accepted(reply).Some? ==>
        var s := Accepted(reply).value;
        error == "" && authToken == Some(s.token) && userRoles == Some(s.roles) &&
        effects == old(effects) + [PostLogin(username, password), StoreToken(s.token), StoreRoles(s.roles),
                                   SignIn(s.roles), Navigate(Dashboard)]
      ensures old(username) != "" && old(password) != "" && Accepted(reply).None? ==>
        error == LoginError(reply) && authToken.None? && userRoles == old(userRoles) &&
        effects == old(effects) + [PostLogin(username, password), RemoveToken]
    {
      error := "";
      if username == "" || password == "" {
        error := MissingFieldsMessage;
        return;
      }
      loading := true;
      effects := effects + [PostLogin(username, password)];
      var session := Accepted(reply);
      if session.Some? {
        var s := session.value;
        authToken := Some(s.token);
        userRoles := Some(s.roles);
        effects := effects + [StoreToken(s.token), StoreRoles(s.roles), SignIn(s.roles), Navigate(Dashboard)];
      } else {
        error := LoginError(reply);
        authToken := None;
        effects := effects + [RemoveToken];
      }
      loading := false;
    }
  }

  /** A login whose reply is ok but lists no roles is refused, even with a token. */
  lemma NoRolesNoSession(token: string)
    ensures Accepted(Response(200, "", Json(LoginBody("", Some(LoginResult(Some(token), [])))))).None?
    ensures LoginError(Response(200, "", Json(LoginBody("", Some(LoginResult(Some(token), [])))))) == BadCredentialsMessage
  {
  }
}
