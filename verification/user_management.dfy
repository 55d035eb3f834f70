/**
 * The administrator's user table: loading the users, creating, deleting and
 * updating one, granting the ADMIN role, and the role test that decides whether
 * the delete button is drawn.
 */
module UserManagement {
  import opened Common
  import opened Http

  datatype Role = Role(name: string)

  /** A user as the table keeps it. A missing or null text field is the empty string. */
  datatype User = User(id: int, username: string, email: string, firstName: string, lastName: string,
                       dob: string, roles: seq<Role>)

  /** The fields an update reply carries; `{ ...user, ...updatedUser }` takes each present one. */
  datatype UserPatch = UserPatch(id: Option<int>, username: Option<string>, email: Option<string>,
                                 firstName: Option<string>, lastName: Option<string>, dob: Option<string>,
                                 roles: Option<seq<Role>>)

  function Pick<T>(patch: Option<T>, kept: T): T {
    if patch.Some? then patch.value else kept
  }

  /** `{ ...user, ...patch }` */
  function Merge(u: User, p: UserPatch): (m: User)
    ensures p.id.Some? ==> m.id == p.id.value
    ensures p.id.None? ==> m.id == u.id
    ensures p.username.Some? ==> m.username == p.username.value
    ensures p.username.None? ==> m.username == u.username
    ensures p.email.Some? ==> m.email == p.email.value
    ensures p.email.None? ==> m.email == u.email
    ensures p.firstName.Some? ==> m.firstName == p.firstName.value
    ensures p.firstName.None? ==> m.firstName == u.firstName
    ensures p.lastName.Some? ==> m.lastName == p.lastName.value
    ensures p.lastName.None? ==> m.lastName == u.lastName
    ensures p.dob.Some? ==> m.dob == p.dob.value
    ensures p.dob.None? ==> m.dob == u.dob
    ensures p.roles.Some? ==> m.roles == p.roles.value
    ensures p.roles.None? ==> m.roles == u.roles
    ensures p == UserPatch(None, None, None, None, None, None, None) ==> m == u
  {
    User(Pick(p.id, u.id), Pick(p.username, u.username), Pick(p.email, u.email), Pick(p.firstName, u.firstName),
         Pick(p.lastName, u.lastName), Pick(p.dob, u.dob), Pick(p.roles, u.roles))
  }

  /** How `fetchUsers` formats each user: missing names read "N/A", a present birth date is
      passed through the locale date formatter (a parameter here), a missing one reads "N/A". */
  function FormatUser(u: User, formatDate: string -> string): (f: User)
    ensures f.id == u.id && f.username == u.username && f.email == u.email && f.roles == u.roles
    ensures f.firstName != "" && f.lastName != ""
    ensures u.firstName == "" ==> f.firstName == "N/A"
    ensures u.lastName == "" ==> f.lastName == "N/A"
    ensures u.firstName != "" ==> f.firstName == u.firstName
    ensures u.lastName != "" ==> f.lastName == u.lastName
    ensures u.dob == "" ==> f.dob == "N/A"
    ensures u.dob != "" ==> f.dob == formatDate(u.dob)
  {
    u.(firstName := Or(u.firstName, "N/A"), lastName := Or(u.lastName, "N/A"),
       dob := if u.dob == "" then "N/A" else formatDate(u.dob))
  }

  /** `data.result`: missing or falsy, an array of users, or something else. */
  datatype UsersField = NoResult | UserArray(items: seq<User>) | NotArray

  /** The `{ code, message, result }` envelope the user endpoints answer with. */
  datatype UsersBody = UsersBody(code: Option<int>, message: string, result: UsersField)

  function BodyMessage(b: UsersBody): string { b.message }

  const InvalidFormatMessage := "Invalid users data format from server"
  const ServerCodeMessage := "Server returned error code"

  /** The list `fetchUsers` installs, or the message of the error it throws: a non-ok reply, a
      `code` other than 0 and a `result` that is not an array are errors; a missing `result`
      is the empty list. */
  function UsersFetch(reply: Reply<UsersBody>, formatDate: string -> string): (o: Outcome<seq<User>>)
    ensures o.Done? <==>
      Ok(reply) && reply.body.Json? && reply.body.value.code == Some(0) && !reply.body.value.result.NotArray?
    ensures o.Done? && reply.body.value.result.NoResult? ==> o.value == []
    ensures o.Done? && reply.body.value.result.UserArray? ==>
      var raw := reply.body.value.result.items;
      |o.value| == |raw| && forall i :: 0 <= i < |raw| ==> o.value[i] == FormatUser(raw[i], formatDate)
    ensures Ok(reply) && reply.body.Json? && reply.body.value.code != Some(0) ==>
      o == Failed(Or(reply.body.value.message, ServerCodeMessage))
    ensures reply.Response? && !Ok(reply) && reply.body.Json? ==>
      o == Failed(Or(reply.body.value.message, "HTTP error! status: " + StatusText(reply)))
  {
    match CheckThenRead(reply, BodyMessage, if reply.Response? then "HTTP error! status: " + StatusText(reply) else "")
    case Some(m) => Failed(m)
    case None =>
      if reply.body.Unparsable? then Failed(reply.body.syntaxError)
      else if reply.body.value.code != Some(0) then Failed(Or(reply.body.value.message, ServerCodeMessage))
      else match reply.body.value.result
        case NoResult => Done([])
        case NotArray => Failed(InvalidFormatMessage)
        case UserArray(raw) => Done(seq(|raw|, i requires 0 <= i < |raw| => FormatUser(raw[i], formatDate)))
  }

  /** After a load every user shown has a first and a last name to print. */
  lemma LoadedUsersHaveNames(reply: Reply<UsersBody>, formatDate: string -> string)
    requires UsersFetch(reply, formatDate).Done?
    ensures forall u :: u in UsersFetch(reply, formatDate).value ==> u.firstName != "" && u.lastName != ""
  {
    var users := UsersFetch(reply, formatDate).value;
    forall u | u in users ensures u.firstName != "" && u.lastName != "" {
      var i :| 0 <= i < |users| && users[i] == u;
      var raw := reply.body.value.result.items;
      assert u == FormatUser(raw[i], formatDate);
    }
  }

  /** The users left after deleting `id`: exactly those with another id, in their order, each
      as often as before. */
  function WithoutUser(users: seq<User>, id: int): seq<User> {
    Filter(users, (u: User) => u.id != id)
  }

  lemma WithoutUserCorrect(users: seq<User>, id: int)
    ensures forall u :: u in WithoutUser(users, id) <==> u in users && u.id != id
    ensures Subsequence(WithoutUser(users, id), users)
    ensures forall u :: multiset(WithoutUser(users, id))[u] == if u.id != id then multiset(users)[u] else 0
  {
    FilterExactly(users, (u: User) => u.id != id);
  }

  /** `makeAdmin`'s update: the ADMIN role is added after the user's existing roles. */
  function GrantAdmin(u: User): (g: User)
    ensures g.roles == u.roles + [Role("ADMIN")]
    ensures g.(roles := u.roles) == u
  {
    u.(roles := u.roles + [Role("ADMIN")])
  }

  datatype NewUser = NewUser(username: string, password: string, email: string, firstName: string, lastName: string)

  const BlankNewUser := NewUser("", "", "", "", "")

  /** The fields of the edit form that `updateUser` sends. */
  datatype EditUser = EditUser(email: string, firstName: string, lastName: string, password: string, dob: string)

  /** A create reply: a message when refused, the created user when accepted. */
  datatype CreatedBody = CreatedBody(message: string, user: User)

  function CreatedMessage(b: CreatedBody): string { b.message }

  datatype UpdateBody = UpdateBody(message: string, patch: UserPatch)

  function UpdateMessage(b: UpdateBody): string { b.message }

  datatype MessageBody = MessageBody(message: string)

  function PlainMessage(b: MessageBody): string { b.message }

  datatype Request =
    | GetUsers                                  // GET /demo/users/admin
    | CreateUser(user: NewUser)                 // POST /demo/users
    | DeleteUser(id: int)                       // DELETE /demo/users/admin/{id}
    | UpdateUser(id: int, fields: EditUser)     // PUT /demo/users/{id}
    | MakeAdmin(id: int)                        // POST /demo/users/admin/{id}/make-admin

  const MissingFieldsMessage := "Please fill all required fields"
  const CreateFailedMessage := "Create user failed"
  const DeleteFailedMessage := "Delete failed"
  const UpdateFailedMessage := "Update failed"
  const MakeAdminFailedMessage := "Failed to make admin"

  /** `requiredFields.some(field => !newUser[field])` */
  predicate MissingRequired(n: NewUser) {
    n.username == "" || n.password == "" || n.email == "" || n.firstName == "" || n.lastName == ""
  }

  /** The signed-in user's record from `/users/my-info`; `None` for roles that are missing or not
      an array. */
  datatype Info = Info(roles: Option<seq<Role>>)

  /** The role test on the delete button, with `userInfo` null (not loaded yet, or its load
      failed) read as "not an administrator". */
  function DeleteButtonShown(userInfo: Option<Info>): (shown: bool)
    ensures shown <==> userInfo.Some? && userInfo.value.roles == Some([Role("ADMIN")])
  {
    match userInfo
    case None => false
    case Some(info) =>
      if info.roles.Some? && |info.roles.value| == 1 && info.roles.value[0].name == "ADMIN" then
        assert info.roles.value == [Role("ADMIN")];
        true
      else false
  }

  /** What evaluating the delete-button condition of one user card gives. */
  datatype Gate = Crash(error: string) | Drawn(shown: bool)

  /** The condition as it stands: it reads `userInfo.roles` without checking `userInfo`, which
      starts out null. */
  function DeleteGateAsWritten(userInfo: Option<Info>): (g: Gate)
    ensures g.Crash? <==> userInfo.None?
  {
    match userInfo
    case None => Crash("Cannot read properties of null (reading 'roles')")
    case Some(info) => Drawn(info.roles.Some? && |info.roles.value| == 1 && info.roles.value[0].name == "ADMIN")
  }

  /** The card list evaluates the condition once per user; with no users it is never evaluated. */
  function UserCardsAsWritten(users: seq<User>, userInfo: Option<Info>): (g: Gate)
    ensures users == [] ==> g == Drawn(false)
  {
    if users == [] then Drawn(false) else DeleteGateAsWritten(userInfo)
  }

  /** Where the written condition does not crash it agrees with `DeleteButtonShown`; it crashes
      exactly when there is a user to draw and `userInfo` is still null. */
  lemma DeleteGateAgrees(users: seq<User>, userInfo: Option<Info>)
    ensures UserCardsAsWritten(users, userInfo).Crash? <==> users != [] && userInfo.None?
    ensures users != [] && userInfo.Some? ==> UserCardsAsWritten(users, userInfo) == Drawn(DeleteButtonShown(userInfo))
  {
  }

  /** The table renders before `/users/my-info` has answered: one loaded user is enough. */
  lemma DeleteGateCrashExample(u: User)
    ensures UserCardsAsWritten([u], None).Crash?
    ensures !DeleteButtonShown(None)
  {
  }

  class UserTable {
    var users: seq<User>
    var error: string
    var loadingPage: bool
    var loadingForm: bool
    var showCreateModal: bool
    var showEditModal: bool
    var showMakeAdminModal: bool
    var selectedUser: Option<User>
    var userInfo: Option<Info>
    var newUser: NewUser
    var editUser: EditUser
    var requests: seq<Request>

    constructor ()
      ensures users == [] && error == "" && !loadingPage && !loadingForm
      ensures !showCreateModal && !showEditModal && !showMakeAdminModal
      ensures selectedUser.None? && userInfo.None? && newUser == BlankNewUser && requests == []
    {
      users := [];
      error := "";
      loadingPage := false;
      loadingForm := false;
      showCreateModal := false;
      showEditModal := false;
      showMakeAdminModal := false;
      selectedUser := None;
      userInfo := None;
      newUser := BlankNewUser;
      editUser := EditUser("", "", "", "", "");
      requests := [];
    }

    /** `fetchUsers`: the formatted list replaces `users`, or the list is emptied and the error
        shown. */
    method FetchUsers(reply: Reply<UsersBody>, formatDate: string -> string)
      modifies this`users, this`error, this`loadingPage, this`requests
      ensures requests == old(requests) + [GetUsers] && !loadingPage
      ensures UsersFetch(reply, formatDate).Done? ==> users == UsersFetch(reply, formatDate).value && error == ""
      ensures UsersFetch(reply, formatDate).Failed? ==> users == [] && error == UsersFetch(reply, formatDate).message
    {
      loadingPage := true;
      requests := requests + [GetUsers];
      var outcome := UsersFetch(reply, formatDate);
      if outcome.Done? {
        users := outcome.value;
        error := "";
      } else {
        error := outcome.message;
        users := [];
      }
      loadingPage := false;
    }

    /** `handleCreateUser`: a missing required field stops it before any request; an accepted
        create appends the returned user after the existing ones, closes the dialog and blanks
        the form. The reply body is read before its status. */
    method HandleCreateUser(reply: Reply<CreatedBody>)
      modifies this`users, this`error, this`loadingForm, this`requests, this`showCreateModal, this`newUser
      ensures MissingRequired(old(newUser)) ==>
        error == MissingFieldsMessage && requests == old(requests) && users == old(users) &&
        newUser == old(newUser) && loadingForm == old(loadingForm) && showCreateModal == old(showCreateModal)
      ensures !MissingRequired(old(newUser)) ==> requests == old(requests) + [CreateUser(old(newUser))] && !loadingForm
      ensures !MissingRequired(old(newUser)) && ReadThenCheck(reply, CreatedMessage, CreateFailedMessage).Done? ==>
        users == old(users) + [reply.body.value.user] && !showCreateModal && newUser == BlankNewUser && error == ""
      ensures !MissingRequired(old(newUser)) && ReadThenCheck(reply, CreatedMessage, CreateFailedMessage).Failed? ==>
        users == old(users) && newUser == old(newUser) && showCreateModal == old(showCreateModal) &&
        error == ReadThenCheck(reply, CreatedMessage, CreateFailedMessage).message
    {
      if MissingRequired(newUser) {
        error := MissingFieldsMessage;
        return;
      }
      loadingForm := true;
      requests := requests + [CreateUser(newUser)];
      var outcome := ReadThenCheck(reply, CreatedMessage, CreateFailedMessage);
      if outcome.Done? {
        users := users + [outcome.value.user];
        showCreateModal := false;
        newUser := BlankNewUser;
        error := "";
      } else {
        error := outcome.message;
      }
      loadingForm := false;
    }

    /** `deleteUser(userId)`: an ok reply removes exactly the users with that id; any other
        reply leaves the list alone and shows the error. */
    method DeleteUser(userId: int, reply: Reply<()>)
      modifies this`users, this`error, this`requests
      ensures requests == old(requests) + [Request.DeleteUser(userId)]
      ensures Ok(reply) ==> users == WithoutUser(old(users), userId) && error == old(error)
      ensures !Ok(reply) ==> users == old(users) && error == (if reply.NetworkError? then reply.reason else DeleteFailedMessage)
    {
      requests := requests + [Request.DeleteUser(userId)];
      if Ok(reply) {
        users := WithoutUser(users, userId);
      } else {
        error := if reply.NetworkError? then reply.reason else DeleteFailedMessage;
      }
    }

    /** `handleUpdateUser`: nothing happens without a selected user; an accepted update merges
        the reply into the users whose id is the selected user's and leaves every other user
        as it was. */
    method HandleUpdateUser(reply: Reply<UpdateBody>)
      modifies this`users, this`error, this`loadingForm, this`requests, this`showEditModal
      ensures old(selectedUser).None? ==>
        users == old(users) && requests == old(requests) && error == old(error) &&
        loadingForm == old(loadingForm) && showEditModal == old(showEditModal)
      ensures old(selectedUser).Some? ==>
        requests == old(requests) + [UpdateUser(old(selectedUser).value.id, old(editUser))] && !loadingForm
      ensures old(selectedUser).Some? && UpdateOutcome(reply).Done? ==>
        var id := old(selectedUser).value.id;
        users == UpdateWhere(old(users), (u: User) => u.id == id, (u: User) => Merge(u, UpdateOutcome(reply).value)) &&
        !showEditModal && error == ""
      ensures old(selectedUser).Some? && UpdateOutcome(reply).Failed? ==>
        users == old(users) && showEditModal == old(showEditModal) && error == UpdateOutcome(reply).message
    {
      if selectedUser.None? {
        return;
      }
      var id := selectedUser.value.id;
      loadingForm := true;
      requests := requests + [UpdateUser(id, editUser)];
      var outcome := UpdateOutcome(reply);
      if outcome.Done? {
        users := UpdateWhere(users, (u: User) => u.id == id, (u: User) => Merge(u, outcome.value));
        showEditModal := false;
        error := "";
      } else {
        error := outcome.message;
      }
      loadingForm := false;
    }

    /** `makeAdmin(userId)`: an ok reply adds the ADMIN role to the users with that id, keeping
        their roles and every other user unchanged. */
    method MakeAdmin(userId: int, reply: Reply<MessageBody>)
      modifies this`users, this`error, this`requests, this`showMakeAdminModal
      ensures requests == old(requests) + [Request.MakeAdmin(userId)]
      ensures Ok(reply) ==>
        users == UpdateWhere(old(users), (u: User) => u.id == userId, GrantAdmin) && !showMakeAdminModal && error == ""
      ensures !Ok(reply) ==>
        users == old(users) && showMakeAdminModal == old(showMakeAdminModal) &&
        error == CheckThenRead(reply, PlainMessage, MakeAdminFailedMessage).value
    {
      requests := requests + [Request.MakeAdmin(userId)];
      var failure := CheckThenRead(reply, PlainMessage, MakeAdminFailedMessage);
      if failure.None? {
        users := UpdateWhere(users, (u: User) => u.id == userId, GrantAdmin);
        showMakeAdminModal := false;
        error := "";
      } else {
        error := failure.value;
      }
    }
  }

  /** `updateUser`: a refused update's message (its body is read only then), or the patch read
      from an ok reply. */
  function UpdateOutcome(reply: Reply<UpdateBody>): (o: Outcome<UserPatch>)
    ensures o.Done? <==> Ok(reply) && reply.body.Json?
    ensures o.Done? ==> o.value == reply.body.value.patch
    ensures reply.Response? && !Ok(reply) && reply.body.Json? ==> o == Failed(Or(reply.body.value.message, UpdateFailedMessage))
  {
    match CheckThenRead(reply, UpdateMessage, UpdateFailedMessage)
    case Some(m) => Failed(m)
    case None => if reply.body.Unparsable? then Failed(reply.body.syntaxError) else Done(reply.body.value.patch)
  }

  /** Granting ADMIN changes only the users with the given id, and each of them only by one more
      role at the end. */
  lemma GrantAdminOnlyTouchesUser(users: seq<User>, userId: int)
    ensures |UpdateWhere(users, (u: User) => u.id == userId, GrantAdmin)| == |users|
    ensures forall i :: 0 <= i < |users| ==>
      var after := UpdateWhere(users, (u: User) => u.id == userId, GrantAdmin)[i];
      (users[i].id != userId ==> after == users[i]) &&
      (users[i].id == userId ==> after.roles == users[i].roles + [Role("ADMIN")] && after.(roles := users[i].roles) == users[i])
  {
  }
}
