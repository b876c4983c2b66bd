/** The login operation of the game server: a user record store standing in
    for the MyBatis DAO, and the lookup-or-create operation
    `AsyncGetUserEntity` (its affinity key, its blocking body and its
    completion). */
module Login {
  import opened Wrappers
  import opened JavaInt

  /** A Java `char`: one UTF-16 code unit. */
  newtype JChar = c: int | 0 <= c < 0x1_0000

  /** A non-null Java `String`, as its sequence of code units. */
  type JString = seq<JChar>

  /** "Hero_Shaman", the avatar given to every newly created user. */
  const HERO_SHAMAN: JString := [72, 101, 114, 111, 95, 83, 104, 97, 109, 97, 110]

  /** A row of the user table. */
  datatype UserEntity = UserEntity(userName: JString, password: JString, heroAvatar: JString)

  /** The user table, keyed by user name. */
  type UserTable = map<JString, UserEntity>

  /** Every row is filed under its own user name. */
  ghost predicate WellKeyed(users: UserTable)
  {
    forall name :: name in users ==> users[name].userName == name
  }

  /** The caller-supplied `Function<UserEntity, Void>` continuation; its code is
      not part of this model, only its identity. */
  type Callback = nat

  /** The user DAO (`IUserDao` behind a `SqlSession`) as an in-memory table. */
  class UserDao {
    var users: UserTable

    constructor (users: UserTable)
      ensures this.users == users
    {
      this.users := users;
    }

    /** `getByUserName`: the row filed under `name`, or null. */
    method GetByUserName(name: JString) returns (r: Option<UserEntity>)
      ensures r.Some? <==> name in users
      ensures r.Some? ==> r.value == users[name]
    {
      if name in users {
        r := Some(users[name]);
      } else {
        r := None;
      }
    }

    /** `insertInto`: file `u` under its user name. */
    method InsertInto(u: UserEntity)
      modifies this
      ensures users == old(users)[u.userName := u]
    {
      users := users[u.userName := u];
    }
  }

  /** The state of one `AsyncGetUserEntity` object: the credentials it was
      built with, the continuation the anonymous subclass in `userLogin`
      captured, and the `_userEntity` field that the blocking body fills in. */
  datatype AsyncGetUserEntity = AsyncGetUserEntity(
    userName: JString,
    password: JString,
    callback: Option<Callback>,
    userEntity: Option<UserEntity>)

  /** `getBindId`: 0 for a null name, otherwise the code of the name's last
      character; `charAt(-1)` raises on the empty name. */
  function GetBindId(userName: Option<JString>): (r: Completion<Int32>)
    ensures userName.None? ==> r == Normal(0)
    ensures userName.Some? && userName.value == [] ==> r.Abrupt?
    ensures userName.Some? && userName.value != [] ==>
      r.Normal? && 0 <= r.value as int < 0x1_0000 &&
      r.value as int == userName.value[|userName.value| - 1] as int
  {
    match userName
    case None => Normal(0)
    case Some(name) =>
      if name == [] then Abrupt else Normal(name[|name| - 1] as int as Int32)
  }

  /** What the blocking body leaves behind: the record it recorded (or none)
      and the user table afterwards. */
  datatype LoginOutcome = LoginOutcome(entity: Option<UserEntity>, users: UserTable)

  /** The lookup-or-create of `doAsync` when the DAO does not fail. */
  function Authenticate(users: UserTable, userName: JString, password: JString): (o: LoginOutcome)
    ensures userName in users && users[userName].password == password ==>
      o == LoginOutcome(Some(users[userName]), users)
    ensures userName in users && users[userName].password != password ==>
      o == LoginOutcome(None, users)
    ensures userName !in users ==>
      o.entity == Some(UserEntity(userName, password, HERO_SHAMAN)) &&
      o.users == users[userName := o.entity.value]
    ensures o.entity.Some? ==>
      o.entity.value.password == password && userName in o.users && o.users[userName] == o.entity.value
    ensures WellKeyed(users) ==> WellKeyed(o.users)
    ensures WellKeyed(users) && o.entity.Some? ==> o.entity.value.userName == userName
  {
    if userName in users then
      if users[userName].password == password then LoginOutcome(Some(users[userName]), users)
      else LoginOutcome(None, users)
    else
      var created := UserEntity(userName, password, HERO_SHAMAN);
      LoginOutcome(Some(created), users[userName := created])
  }

  /** `doAsync` as a transition of the operation and the table. When the DAO
      raises (`daoFails`), or the password is wrong, the exception is caught
      inside `doAsync`, `_userEntity` keeps its value and the table is as it
      was; `doAsync` itself always returns normally. */
  function DoAsyncSpec(op: AsyncGetUserEntity, users: UserTable, daoFails: bool): (r: (AsyncGetUserEntity, UserTable))
    ensures daoFails ==> r == (op, users)
    ensures r.0.userName == op.userName && r.0.password == op.password && r.0.callback == op.callback
    ensures !daoFails ==> r.1 == Authenticate(users, op.userName, op.password).users
    ensures !daoFails && Authenticate(users, op.userName, op.password).entity.Some? ==>
      r.0.userEntity == Authenticate(users, op.userName, op.password).entity
    ensures Authenticate(users, op.userName, op.password).entity.None? ==> r == (op, users)
  {
    if daoFails then (op, users)
    else
      var o := Authenticate(users, op.userName, op.password);
      if o.entity.Some? then (op.(userEntity := o.entity), o.users) else (op, users)
  }

  /** `doAsync` against the DAO object. */
  method DoAsync(op: AsyncGetUserEntity, dao: UserDao, daoFails: bool) returns (done: AsyncGetUserEntity)
    modifies dao
    ensures (done, dao.users) == DoAsyncSpec(op, old(dao.users), daoFails)
  {
    done := op;
    if daoFails {
      // the session or a mapper call raised; the catch at the end of doAsync swallows it
      return;
    }
    var entity := dao.GetByUserName(op.userName);
    if entity.Some? {
      if op.password != entity.value.password {
        // "wrong password" is raised and caught: nothing is recorded
        return;
      }
    } else {
      entity := Some(UserEntity(op.userName, op.password, HERO_SHAMAN));
      dao.InsertInto(entity.value);
    }
    done := op.(userEntity := entity);
  }

  /** What `doFinish` of the operation built by `userLogin` does. */
  datatype FinishEffect =
    | CallbackApplied(callback: Callback, result: Option<UserEntity>)
    | NoCallback

  /** `doFinish`: hand `getUserEntity()` (possibly null) to the callback, if there is one. */
  function DoFinish(op: AsyncGetUserEntity): (e: FinishEffect)
    ensures e.NoCallback? <==> op.callback.None?
    ensures e.CallbackApplied? ==> e.callback == op.callback.value && e.result == op.userEntity
  {
    match op.callback
    case None => NoCallback
    case Some(cb) => CallbackApplied(cb, op.userEntity)
  }

  /** Logging in again with the credentials that just succeeded yields the same
      record and leaves the table alone. */
  lemma {:induction false} LoginIsIdempotent(users: UserTable, userName: JString, password: JString)
    requires Authenticate(users, userName, password).entity.Some?
    ensures Authenticate(Authenticate(users, userName, password).users, userName, password) ==
            Authenticate(users, userName, password)
  {
    var o := Authenticate(users, userName, password);
    assert userName in o.users && o.users[userName] == o.entity.value;
  }

  /** After a user exists, a login with any other password records nothing and
      leaves the table alone, whether the user was created or found. */
  lemma {:induction false} OtherPasswordIsRefused(users: UserTable, userName: JString, password: JString, other: JString)
    requires Authenticate(users, userName, password).entity.Some?
    requires other != password
    ensures Authenticate(Authenticate(users, userName, password).users, userName, other) ==
            LoginOutcome(None, Authenticate(users, userName, password).users)
  {
    var o := Authenticate(users, userName, password);
    assert userName in o.users && o.users[userName].password == password;
  }
}
