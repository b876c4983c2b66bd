/** `LoginService.userLogin`: builds one login operation and submits it to the
    shard pool. */
module LoginService {
  import opened Wrappers
  import opened Login
  import opened Operation
  import opened AsyncProcessor

  /** The operation `userLogin` builds, with `id` standing for the identity of
      the new object: none when the user name or the password is null. */
  function LoginRequest(userName: Option<JString>, password: Option<JString>, callback: Option<Callback>, id: nat): (r: Option<Op>)
    ensures r.Some? <==> userName.Some? && password.Some?
    ensures r.Some? ==>
      r.value.id == id &&
      r.value.body == GetUserEntity(AsyncGetUserEntity(userName.value, password.value, callback, None))
  {
    if userName.None? || password.None? then None
    else Some(Op(id, GetUserEntity(AsyncGetUserEntity(userName.value, password.value, callback, None))))
  }

  /** `userLogin`: exactly one operation submitted when both credentials are
      present, none otherwise. `threw` is the exception `getBindId` raises on
      an empty user name, which reaches the caller of `userLogin`. */
  method UserLogin(userName: Option<JString>, password: Option<JString>, callback: Option<Callback>, id: nat, pool: AsyncOperationProcessor)
    returns (threw: bool)
    requires pool.Valid()
    modifies pool.esArray, pool`accepted
    ensures pool.Valid()
    ensures Submission(pool.esArray[..], threw) == Submit(old(pool.esArray[..]), LoginRequest(userName, password, callback, id))
    ensures threw <==> userName.Some? && password.Some? && userName.value == []
  {
    if userName.None? || password.None? {
      return false;
    }
    var op := Op(id, GetUserEntity(AsyncGetUserEntity(userName.value, password.value, callback, None)));
    threw := pool.Process(Some(op));
  }
}
