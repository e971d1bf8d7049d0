/** The user routes. DELETE, PUT and GET on `/:userId` pass the owner guard
    first: the path id must be the authenticated id. POST `/login` checks
    credentials and issues a token; POST `/` signs up with a hashed password.
    Every validation failure ends the request (see the PUT defect below). */
module UserRoute {
  import opened Common
  import opened Aggregate
  import opened UserModel

  /** The fields the update and sign-up handlers read from the body. */
  datatype UserBody = UserBody(name: Field<string>, email: Field<string>, password: Field<string>)

  /** The fields the login handler reads from the body. */
  datatype LoginBody = LoginBody(email: Field<string>, password: Field<string>)

  /** A user as GET returns it: the stored document without its password. */
  datatype PublicUser = PublicUser(id: UserId, name: string, email: string, avtar: Option<string>)

  /** The login response `{ id, name, email, token }`. */
  datatype LoginReply = LoginReply(id: UserId, name: string, email: string, token: string)

  /** `bcrypt.hashSync(password, salt)`, with the salt `genSaltSync` drew. */
  type Hasher = (string, string) -> string

  /** `bcrypt.compareSync(plain, hashed)`. */
  type Comparer = (string, string) -> bool

  /** `jwt.sign({ id }, secret, { expiresIn: "1h" })`. */
  type Signer = UserId -> string

  const MissingFieldsMessage: string := "Please provide all fields"
  const UserNotFoundMessage: string := "User not found"
  const InvalidCredentialsMessage: string := "Invalid credentials"
  const DeletedMessage: string := "User deleted"
  /** The schema's message when the stored password (the hash) is empty. */
  const PasswordRequiredMessage: string := "User validation failed: password"

  /** The guard every `/:userId` route applies before anything else. */
  function OwnerGuard(pathId: UserId, caller: UserId): (refusal: Option<Error>)
    ensures refusal.None? <==> pathId == caller
    ensures refusal.Some? ==> HttpStatus(refusal.value) == 403
  {
    if pathId != caller then Some(Forbidden(NotAuthorizedMessage)) else None
  }

  predicate MissingUserFields(body: UserBody)
  {
    !TruthyStr(body.name) || !TruthyStr(body.email) || !TruthyStr(body.password)
  }

  /** `findById(id)`: the position of the user with that id. */
  function FindById(users: seq<User>, id: UserId): Option<nat>
  {
    FirstWhere(users, (u: User) => u.id == id)
  }

  /** `findOne({ email })`: the position of the first user with that email. */
  function FindByEmail(users: seq<User>, email: string): Option<nat>
  {
    FirstWhere(users, (u: User) => u.email == email)
  }

  function Public(u: User): PublicUser
  {
    PublicUser(u.id, u.name, u.email, u.avtar)
  }

  /** DELETE `/:userId`: the response and the table afterwards. */
  function UserDelete(users: seq<User>, caller: UserId, pathId: UserId): (r: (Result<string>, seq<User>))
    ensures r.0.Fail? ==> r.1 == users
    ensures pathId != caller ==> r.0 == Fail(Forbidden(NotAuthorizedMessage))
    ensures pathId == caller && FindById(users, pathId).None? ==> r.0 == Fail(NotFound(UserNotFoundMessage))
    ensures r.0.Ok? <==> pathId == caller && FindById(users, pathId).Some?
    ensures r.0.Ok? ==> multiset(r.1) == multiset(users) - multiset{users[FindById(users, pathId).value]}
    ensures r.0.Ok? ==> |r.1| + 1 == |users|
  {
    var refusal := OwnerGuard(pathId, caller);
    if refusal.Some? then (Fail(refusal.value), users)
    else
      match FindById(users, pathId)
      case None => (Fail(NotFound(UserNotFoundMessage)), users)
      case Some(k) => (Ok(DeletedMessage), RemoveAt(users, k))
  }

  /** The `$set` of name, email and the new hash on the user at `k`; the avatar
      and the id are kept. */
  function WithCredentials(u: User, body: UserBody, hashed: string): User
    requires !MissingUserFields(body)
  {
    u.(name := body.name.value, email := body.email.value, password := hashed)
  }

  /** PUT `/:userId` as intended: the guard and the field check end the request.
      Only the caller's own record can change, and only its name, email and
      password, which becomes the hash of the new password. */
  function UserUpdate(users: seq<User>, caller: UserId, pathId: UserId, body: UserBody,
                      hash: Hasher, salt: string): (r: (Result<UserId>, seq<User>))
    ensures r.0.Fail? ==> r.1 == users
    ensures pathId != caller ==> r.0 == Fail(Forbidden(NotAuthorizedMessage))
    ensures pathId == caller && MissingUserFields(body) ==> r.0 == Fail(BadRequest(MissingFieldsMessage))
    ensures pathId == caller && !MissingUserFields(body) && FindById(users, pathId).None? ==>
      r.0 == Fail(NotFound(UserNotFoundMessage))
    ensures r.0.Ok? ==>
      var k := FindById(users, pathId).value;
      && r.0.value == caller
      && !MissingUserFields(body)
      && |r.1| == |users|
      && (forall i :: 0 <= i < |users| && i != k ==> r.1[i] == users[i])
      && r.1[k].id == caller && r.1[k].avtar == users[k].avtar
      && r.1[k].name == body.name.value && r.1[k].email == body.email.value
      && r.1[k].password == hash(body.password.value, salt)
    ensures (pathId == caller && !MissingUserFields(body) && FindById(users, pathId).Some?
             && EmailTakenByOther(users, body.email.value, FindById(users, pathId).value)) ==>
      r.0 == Fail(DuplicateKey("email"))
    ensures r.0.Ok? <==>
      && pathId == caller && !MissingUserFields(body) && FindById(users, pathId).Some?
      && !EmailTakenByOther(users, body.email.value, FindById(users, pathId).value)
    ensures EmailsUnique(users) ==> EmailsUnique(r.1)
  {
    var refusal := OwnerGuard(pathId, caller);
    if refusal.Some? then (Fail(refusal.value), users)
    else if MissingUserFields(body) then (Fail(BadRequest(MissingFieldsMessage)), users)
    else
      var hashed := hash(body.password.value, salt);
      match FindById(users, pathId)
      case None => (Fail(NotFound(UserNotFoundMessage)), users)
      case Some(k) =>
        if EmailTakenByOther(users, body.email.value, k) then (Fail(DuplicateKey("email")), users)
        else
          var u := WithCredentials(users[k], body, hashed);
          assert EmailsUnique(users) ==> EmailsUnique(users[k := u]) by {
            if EmailsUnique(users) {
              ReplaceKeepsEmailsUnique(users, k, u);
            }
          }
          (Ok(pathId), users[k := u])
  }

  /** PUT `/:userId` as written: after the 403 is sent, `next(error)` returns
      and the handler goes on to update the user named in the path. (For a body
      with all three fields; the field check is taken as an early return.) */
  function UserUpdateAsWritten(users: seq<User>, caller: UserId, pathId: UserId, body: UserBody,
                               hash: Hasher, salt: string): (r: (Result<UserId>, seq<User>))
    ensures pathId != caller ==> r.0 == Fail(Forbidden(NotAuthorizedMessage))
    ensures pathId != caller ==> r.1 == UserUpdate(users, pathId, pathId, body, hash, salt).1
    ensures pathId == caller ==> r == UserUpdate(users, caller, pathId, body, hash, salt)
  {
    var refusal := OwnerGuard(pathId, caller);
    var continued := UserUpdate(users, pathId, pathId, body, hash, salt);
    if refusal.Some? then (Fail(refusal.value), continued.1) else continued
  }

  /** User 1 updating user 2: the intended handler changes nothing; the handler
      as written answers 403 yet replaces user 2's email and password. */
  lemma GuardWithoutReturnOverwritesOtherUser(hash: Hasher, salt: string)
    ensures var users := [User(1, "ann", "ann@example.com", "h1", None), User(2, "bob", "bob@example.com", "h2", None)];
      var body := UserBody(Val("bob"), Val("eve@example.com"), Val("secret"));
      && UserUpdate(users, 1, 2, body, hash, salt) == (Fail(Forbidden(NotAuthorizedMessage)), users)
      && UserUpdateAsWritten(users, 1, 2, body, hash, salt).0 == Fail(Forbidden(NotAuthorizedMessage))
      && UserUpdateAsWritten(users, 1, 2, body, hash, salt).1[1].email == "eve@example.com"
      && UserUpdateAsWritten(users, 1, 2, body, hash, salt).1[1].password == hash("secret", salt)
  {
    var users := [User(1, "ann", "ann@example.com", "h1", None), User(2, "bob", "bob@example.com", "h2", None)];
    var body := UserBody(Val("bob"), Val("eve@example.com"), Val("secret"));
    assert FindById(users, 2) == Some(1) by {
      assert users[0].id != 2;
      assert users[1..][0].id == 2;
    }
    assert !EmailTakenByOther(users, "eve@example.com", 1) by {
      assert users[0].email != "eve@example.com";
    }
  }

  /** GET `/:userId`: the caller's own record without its password; a missing
      record is answered with `{ user: null }`, not with 404. */
  function UserGet(users: seq<User>, caller: UserId, pathId: UserId): (r: Result<Option<PublicUser>>)
    ensures pathId != caller <==> r == Fail(Forbidden(NotAuthorizedMessage))
    ensures pathId == caller ==> r.Ok?
    ensures r.Ok? ==> (r.value.Some? <==> exists i :: 0 <= i < |users| && users[i].id == caller)
    ensures r.Ok? && r.value.Some? ==> exists i :: 0 <= i < |users| && Public(users[i]) == r.value.value && users[i].id == caller
  {
    var refusal := OwnerGuard(pathId, caller);
    if refusal.Some? then Fail(refusal.value)
    else
      match FindById(users, pathId)
      case None => Ok(None)
      case Some(k) => Ok(Some(Public(users[k])))
  }

  /** POST `/login`: 400 without both fields, 404 for an unknown email, 401 when
      the password does not match the stored hash of the user found; otherwise
      that user's id, name and email with a token carrying that id. */
  function UserLogin(users: seq<User>, body: LoginBody, compare: Comparer, sign: Signer): (r: Result<LoginReply>)
    ensures !TruthyStr(body.email) || !TruthyStr(body.password) ==> r == Fail(BadRequest(MissingFieldsMessage))
    ensures TruthyStr(body.email) && TruthyStr(body.password) ==>
      match FindByEmail(users, body.email.value)
      case None => r == Fail(NotFound(UserNotFoundMessage))
      case Some(k) =>
        && users[k].email == body.email.value
        && (compare(body.password.value, users[k].password) ==>
              r == Ok(LoginReply(users[k].id, users[k].name, users[k].email, sign(users[k].id))))
        && (!compare(body.password.value, users[k].password) ==> r == Fail(Unauthorized(InvalidCredentialsMessage)))
  {
    if !TruthyStr(body.email) || !TruthyStr(body.password) then Fail(BadRequest(MissingFieldsMessage))
    else
      match FindByEmail(users, body.email.value)
      case None => Fail(NotFound(UserNotFoundMessage))
      case Some(k) =>
        var u := users[k];
        if !compare(body.password.value, u.password) then Fail(Unauthorized(InvalidCredentialsMessage))
        else Ok(LoginReply(u.id, u.name, u.email, sign(u.id)))
  }

  /** With unique emails, as the index keeps them, a login succeeds exactly when
      some user has the email and the password matches that user's hash, and
      the reply then names that user. */
  lemma LoginWithUniqueEmails(users: seq<User>, body: LoginBody, compare: Comparer, sign: Signer)
    requires EmailsUnique(users)
    ensures UserLogin(users, body, compare, sign).Ok? <==>
      && TruthyStr(body.email) && TruthyStr(body.password)
      && exists i :: 0 <= i < |users| && users[i].email == body.email.value && compare(body.password.value, users[i].password)
    ensures forall i :: 0 <= i < |users| && UserLogin(users, body, compare, sign).Ok? && users[i].email == body.email.value ==>
      UserLogin(users, body, compare, sign).value == LoginReply(users[i].id, users[i].name, users[i].email, sign(users[i].id))
  {
    if TruthyStr(body.email) && TruthyStr(body.password) {
      var found := FindByEmail(users, body.email.value);
      if found.Some? {
        var k := found.value;
        forall i | 0 <= i < |users| && users[i].email == body.email.value
          ensures i == k
        {
        }
      }
    }
  }

  /** POST `/`: the new user gets the fresh id `id` and the hash of the given
      password; the save is refused when the schema or the email index refuses
      it. */
  function UserCreate(users: seq<User>, id: UserId, body: UserBody, hash: Hasher, salt: string): (r: (Result<UserId>, seq<User>))
    ensures r.0.Fail? ==> r.1 == users
    ensures MissingUserFields(body) ==> r.0 == Fail(BadRequest(MissingFieldsMessage))
    ensures r.0.Ok? ==>
      && r.0.value == id
      && r.1 == users + [User(id, body.name.value, body.email.value, hash(body.password.value, salt), None)]
      && UserSchemaValid(r.1[|users|])
      && !EmailTakenByOther(users, body.email.value, -1)
    ensures !MissingUserFields(body) && hash(body.password.value, salt) == "" ==>
      r.0 == Fail(Error(None, PasswordRequiredMessage))
    ensures (!MissingUserFields(body) && hash(body.password.value, salt) != ""
             && EmailTakenByOther(users, body.email.value, -1)) ==> r.0 == Fail(DuplicateKey("email"))
    ensures r.0.Ok? <==>
      !MissingUserFields(body) && hash(body.password.value, salt) != "" && !EmailTakenByOther(users, body.email.value, -1)
    ensures EmailsUnique(users) ==> EmailsUnique(r.1)
  {
    if MissingUserFields(body) then (Fail(BadRequest(MissingFieldsMessage)), users)
    else
      var u := User(id, body.name.value, body.email.value, hash(body.password.value, salt), None);
      if !UserSchemaValid(u) then (Fail(Error(None, PasswordRequiredMessage)), users)
      else if EmailTakenByOther(users, u.email, -1) then (Fail(DuplicateKey("email")), users)
      else
        assert EmailsUnique(users) ==> EmailsUnique(users + [u]) by {
          if EmailsUnique(users) {
            AddKeepsEmailsUnique(users, u);
          }
        }
        (Ok(id), users + [u])
  }

  /** POST `/` as written: after the 400 for a missing field, `next(error)`
      returns and the handler goes on. A missing or `null` password makes
      `hashSync` throw, and an empty name or email fails the schema, so the only
      body that still reaches the table is one with a name, an email and the
      empty password, whose hash is then stored. */
  function UserCreateAsWritten(users: seq<User>, id: UserId, body: UserBody, hash: Hasher, salt: string): (r: (Result<UserId>, seq<User>))
    ensures !MissingUserFields(body) ==> r == UserCreate(users, id, body, hash, salt)
    ensures MissingUserFields(body) ==> r.0 == Fail(BadRequest(MissingFieldsMessage))
    ensures MissingUserFields(body) && r.1 != users ==>
      && TruthyStr(body.name) && TruthyStr(body.email) && body.password == Val("")
      && r.1 == users + [User(id, body.name.value, body.email.value, hash("", salt), None)]
    ensures (MissingUserFields(body) && TruthyStr(body.name) && TruthyStr(body.email) && body.password == Val("")
             && hash("", salt) != "" && !EmailTakenByOther(users, body.email.value, -1)) ==> r.1 != users
    ensures EmailsUnique(users) ==> EmailsUnique(r.1)
  {
    if !MissingUserFields(body) then UserCreate(users, id, body, hash, salt)
    else
      var refused := Fail(BadRequest(MissingFieldsMessage));
      if !(TruthyStr(body.name) && TruthyStr(body.email) && body.password == Val("")) then (refused, users)
      else
        var u := User(id, body.name.value, body.email.value, hash("", salt), None);
        if !UserSchemaValid(u) || EmailTakenByOther(users, u.email, -1) then (refused, users)
        else
          assert EmailsUnique(users) ==> EmailsUnique(users + [u]) by {
            if EmailsUnique(users) {
              AddKeepsEmailsUnique(users, u);
            }
          }
          (refused, users + [u])
  }

  /** Sign-up of "ann" with an empty password: the intended handler stores
      nothing; the handler as written answers 400 yet stores "ann" with the hash
      of the empty password. */
  lemma EmptyPasswordStoredAsWritten(hash: Hasher, salt: string)
    requires hash("", salt) != ""
    ensures var body := UserBody(Val("ann"), Val("ann@example.com"), Val(""));
      && UserCreate([], 0, body, hash, salt) == (Fail(BadRequest(MissingFieldsMessage)), [])
      && UserCreateAsWritten([], 0, body, hash, salt)
           == (Fail(BadRequest(MissingFieldsMessage)), [User(0, "ann", "ann@example.com", hash("", salt), None)])
  {
    var body := UserBody(Val("ann"), Val("ann@example.com"), Val(""));
    assert MissingUserFields(body);
    assert TruthyStr(body.name) && TruthyStr(body.email);
    assert UserSchemaValid(User(0, "ann", "ann@example.com", hash("", salt), None));
    assert !EmailTakenByOther([], "ann@example.com", -1);
    assert UserCreate([], 0, body, hash, salt) == (Fail(BadRequest(MissingFieldsMessage)), []);
    assert UserCreateAsWritten([], 0, body, hash, salt).1 == [User(0, "ann", "ann@example.com", hash("", salt), None)];
  }

  /** A hasher that never gives back the password it was handed (bcrypt's
      output always begins with its "$2" version tag and a cost) leaves no
      plaintext password in the table after a sign-up or an update. */
  lemma NoPlaintextStored(users: seq<User>, caller: UserId, pathId: UserId, id: UserId,
                          body: UserBody, hash: Hasher, salt: string)
    requires forall p, t :: hash(p, t) != p
    ensures var created := UserCreate(users, id, body, hash, salt);
      created.0.Ok? ==> created.1[|users|].password != body.password.value
    ensures var updated := UserUpdate(users, caller, pathId, body, hash, salt);
      updated.0.Ok? ==> updated.1[FindById(users, pathId).value].password != body.password.value
  {
  }

  /** The user collection. */
  class UserTable {
    var users: seq<User>
    var nextId: UserId

    ghost predicate Valid()
      reads this
    {
      && EmailsUnique(users)
      && IdsAscending(users, UserIdOf)
      && (forall i :: 0 <= i < |users| ==> users[i].id < nextId)
    }

    constructor ()
      ensures Valid() && users == []
    {
      users := [];
      nextId := 0;
    }

    method Delete(caller: UserId, pathId: UserId) returns (r: Result<string>)
      requires Valid()
      modifies this
      ensures Valid()
      ensures (r, users) == UserDelete(old(users), caller, pathId)
      ensures nextId == old(nextId)
    {
      var refusal := OwnerGuard(pathId, caller);
      if refusal.Some? {
        return Fail(refusal.value);
      }
      var found := FindById(users, pathId);
      if found.None? {
        return Fail(NotFound(UserNotFoundMessage));
      }
      users := RemoveAt(users, found.value);
      r := Ok(DeletedMessage);
    }

    method Update(caller: UserId, pathId: UserId, body: UserBody, hash: Hasher, salt: string) returns (r: Result<UserId>)
      requires Valid()
      modifies this
      ensures Valid()
      ensures (r, users) == UserUpdate(old(users), caller, pathId, body, hash, salt)
      ensures nextId == old(nextId)
    {
      var refusal := OwnerGuard(pathId, caller);
      if refusal.Some? {
        return Fail(refusal.value);
      }
      if MissingUserFields(body) {
        return Fail(BadRequest(MissingFieldsMessage));
      }
      var hashed := hash(body.password.value, salt);
      var found := FindById(users, pathId);
      if found.None? {
        return Fail(NotFound(UserNotFoundMessage));
      }
      var k := found.value;
      if EmailTakenByOther(users, body.email.value, k) {
        return Fail(DuplicateKey("email"));
      }
      users := users[k := WithCredentials(users[k], body, hashed)];
      r := Ok(pathId);
    }

    method Get(caller: UserId, pathId: UserId) returns (r: Result<Option<PublicUser>>)
      ensures r == UserGet(users, caller, pathId)
    {
      var refusal := OwnerGuard(pathId, caller);
      if refusal.Some? {
        return Fail(refusal.value);
      }
      var found := FindById(users, pathId);
      r := if found.None? then Ok(None) else Ok(Some(Public(users[found.value])));
    }

    method Login(body: LoginBody, compare: Comparer, sign: Signer) returns (r: Result<LoginReply>)
      ensures r == UserLogin(users, body, compare, sign)
    {
      if !TruthyStr(body.email) || !TruthyStr(body.password) {
        return Fail(BadRequest(MissingFieldsMessage));
      }
      var found := FindByEmail(users, body.email.value);
      if found.None? {
        return Fail(NotFound(UserNotFoundMessage));
      }
      var user := users[found.value];
      if !compare(body.password.value, user.password) {
        return Fail(Unauthorized(InvalidCredentialsMessage));
      }
      r := Ok(LoginReply(user.id, user.name, user.email, sign(user.id)));
    }

    method Create(body: UserBody, hash: Hasher, salt: string) returns (r: Result<UserId>)
      requires Valid()
      modifies this
      ensures Valid()
      ensures (r, users) == UserCreate(old(users), old(nextId), body, hash, salt)
      ensures nextId == if r.Ok? then old(nextId) + 1 else old(nextId)
    {
      if MissingUserFields(body) {
        return Fail(BadRequest(MissingFieldsMessage));
      }
      var user := User(nextId, body.name.value, body.email.value, hash(body.password.value, salt), None);
      if !UserSchemaValid(user) {
        return Fail(Error(None, PasswordRequiredMessage));
      }
      if EmailTakenByOther(users, user.email, -1) {
        return Fail(DuplicateKey("email"));
      }
      users := users + [user];
      nextId := nextId + 1;
      r := Ok(user.id);
    }
  }
}
