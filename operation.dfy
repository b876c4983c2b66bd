/** `IAsyncOperation`: a unit of asynchronous work with an affinity key
    (`getBindId`), a blocking body (`doAsync`) run on a shard lane and a
    completion (`doFinish`) run on the main lane. The only implementation
    whose code is part of this model is the login operation; every other
    operation is foreign code, known only by what its `getBindId` does (a
    key, or an exception) and by whether its blocking body returns. */
module Operation {
  import opened Wrappers
  import opened JavaInt
  import Login

  /** The body of an operation object. */
  datatype OpBody =
    | GetUserEntity(login: Login.AsyncGetUserEntity)
    | Foreign(bindId: Completion<Int32>)

  /** An operation object; `id` stands for its identity. */
  datatype Op = Op(id: nat, body: OpBody)

  /** `op.getBindId()`, which may raise. */
  function BindId(op: Op): (r: Completion<Int32>)
    ensures op.body.Foreign? ==> r == op.body.bindId
    ensures op.body.GetUserEntity? ==> r == Login.GetBindId(Some(op.body.login.userName))
    ensures op.body.GetUserEntity? ==> (r.Abrupt? <==> op.body.login.userName == [])
  {
    match op.body
    case GetUserEntity(a) => Login.GetBindId(Some(a.userName))
    case Foreign(b) => b
  }

  /** What running `op.doAsync()` leaves behind: the operation as it then is,
      the user table, and whether the call returned normally. */
  datatype Blocking = Blocking(done: Op, users: Login.UserTable, returned: bool)

  /** `op.doAsync()`. `fault` says whether the external code it calls raises:
      the DAO for the login operation, which catches the exception itself and
      so always returns; the body itself for a foreign operation. */
  function RunBlocking(op: Op, users: Login.UserTable, fault: bool): (b: Blocking)
    ensures b.done.id == op.id
    ensures b.done.body.Foreign? <==> op.body.Foreign?
    ensures BindId(b.done) == BindId(op)
    ensures op.body.Foreign? ==> b == Blocking(op, users, !fault)
    ensures op.body.GetUserEntity? ==>
      b.returned &&
      (b.done.body.login, b.users) == Login.DoAsyncSpec(op.body.login, users, fault)
  {
    match op.body
    case GetUserEntity(a) =>
      var (a', users') := Login.DoAsyncSpec(a, users, fault);
      Blocking(Op(op.id, GetUserEntity(a')), users', true)
    case Foreign(_) => Blocking(op, users, !fault)
  }

  /** `op.doAsync()` against the DAO object. */
  method DoAsync(op: Op, dao: Login.UserDao, fault: bool) returns (done: Op, returned: bool)
    modifies dao
    ensures Blocking(done, dao.users, returned) == RunBlocking(op, old(dao.users), fault)
  {
    match op.body {
      case GetUserEntity(a) =>
        var a' := Login.DoAsync(a, dao, fault);
        done, returned := Op(op.id, GetUserEntity(a')), true;
      case Foreign(_) =>
        done, returned := op, !fault;
    }
  }

  /** What `op.doFinish()` does. */
  datatype Finished =
    | LoginFinished(effect: Login.FinishEffect)
    | ForeignFinished(id: nat)

  /** `op.doFinish()`. */
  function DoFinish(op: Op): (f: Finished)
    ensures op.body.GetUserEntity? ==> f == LoginFinished(Login.DoFinish(op.body.login))
    ensures op.body.Foreign? ==> f == ForeignFinished(op.id)
  {
    match op.body
    case GetUserEntity(a) => LoginFinished(Login.DoFinish(a))
    case Foreign(_) => ForeignFinished(op.id)
  }
}
