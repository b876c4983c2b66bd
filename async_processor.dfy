/** `AsyncOperationProcessor`: the shard pool of eight single-thread
    executors. `process(op)` picks a lane from the operation's affinity key
    and appends one task to it; that task, when the lane runs it, calls the
    blocking body and, if the body returns, hands the completion to the main
    lane. Each executor is modelled as a FIFO queue of operations. */
module AsyncProcessor {
  import opened Wrappers
  import opened JavaInt
  import Login
  import opened Operation
  import opened MainThread

  /** The lane `process(op)` picks: `Math.abs(op.getBindId()) % 8`, or an
      exception when `getBindId` raises. */
  function Route(op: Op): (r: Completion<nat>)
    ensures r.Normal? <==> BindId(op).Normal?
    ensures r.Normal? ==>
      r.value < LANE_COUNT as nat && r.value == Magnitude(BindId(op).value as int) % 8
  {
    match BindId(op)
    case Abrupt => Abrupt
    case Normal(b) => Normal(EsIndex(b) as nat)
  }

  /** The lane queues after `process(op)`, and whether it raised. */
  datatype Submission = Submission(lanes: seq<seq<Op>>, threw: bool)

  /** `process(op)` on the lane queues: nothing for a null operation; nothing
      but the exception when `getBindId` raises; otherwise `op` appended to
      the end of its lane and every other lane as it was. */
  function Submit(lanes: seq<seq<Op>>, op: Option<Op>): (s: Submission)
    requires |lanes| == LANE_COUNT as int
    ensures |s.lanes| == |lanes|
    ensures op.None? ==> s == Submission(lanes, false)
    ensures op.Some? && Route(op.value).Abrupt? ==> s == Submission(lanes, true)
    ensures op.Some? && Route(op.value).Normal? ==>
      !s.threw &&
      s.lanes[Route(op.value).value] == lanes[Route(op.value).value] + [op.value] &&
      forall j :: 0 <= j < |lanes| && j != Route(op.value).value ==> s.lanes[j] == lanes[j]
  {
    match op
    case None => Submission(lanes, false)
    case Some(o) =>
      match Route(o)
      case Abrupt => Submission(lanes, true)
      case Normal(i) => Submission(lanes[i := lanes[i] + [o]], false)
  }

  /** Everything one run of a lane task changes. */
  datatype LaneStep = LaneStep(
    lanes: seq<seq<Op>>,
    main: seq<MainTask>,
    users: Login.UserTable,
    ran: Op,
    blocking: Blocking)

  /** Lane `i` takes its head task and runs it: the blocking body runs once,
      and the completion `op::doFinish` is appended to the main queue if and
      only if the body returned. The lane itself goes on either way. */
  function RunLaneSpec(lanes: seq<seq<Op>>, main: seq<MainTask>, users: Login.UserTable, i: nat, fault: bool): (s: LaneStep)
    requires |lanes| == LANE_COUNT as int && i < |lanes| && lanes[i] != []
    ensures |s.lanes| == |lanes| && s.lanes[i] == lanes[i][1..]
    ensures forall j :: 0 <= j < |lanes| && j != i ==> s.lanes[j] == lanes[j]
    ensures s.ran == lanes[i][0]
    ensures s.blocking == RunBlocking(s.ran, users, fault) && s.users == s.blocking.users
    ensures s.blocking.returned ==> s.main == main + [Run(Finish(s.blocking.done))]
    ensures !s.blocking.returned ==> s.main == main
  {
    var op := lanes[i][0];
    var b := RunBlocking(op, users, fault);
    LaneStep(
      lanes[i := lanes[i][1..]],
      SubmitRunnable(main, if b.returned then Some(Finish(b.done)) else None),
      b.users, op, b)
  }

  /** Two operations with the same affinity key go to the same lane. */
  lemma SameKeySameLane(op1: Op, op2: Op)
    requires BindId(op1) == BindId(op2)
    ensures Route(op1) == Route(op2)
  {
  }

  class AsyncOperationProcessor {
    /** One FIFO queue per single-thread executor (`_esArray`). */
    const esArray: array<seq<Op>>
    /** Per lane, every operation ever appended, in order. */
    ghost var accepted: seq<seq<Op>>
    /** Per lane, every operation taken off the queue and run, in order. */
    ghost var dequeued: seq<seq<Op>>

    /** Eight lanes, and on each lane what has run followed by what is
        pending is exactly what was appended, in order. */
    ghost predicate Valid()
      reads this, esArray
    {
      esArray.Length == LANE_COUNT as int &&
      |accepted| == LANE_COUNT as int && |dequeued| == LANE_COUNT as int &&
      forall i :: 0 <= i < LANE_COUNT as int ==> dequeued[i] + esArray[i] == accepted[i]
    }

    /** The private constructor: eight executors, all idle. */
    constructor ()
      ensures Valid() && fresh(esArray)
      ensures forall i :: 0 <= i < esArray.Length ==> esArray[i] == []
    {
      var a := new seq<Op>[LANE_COUNT];
      for i := 0 to a.Length
        invariant forall k :: 0 <= k < i ==> a[k] == []
      {
        a[i] := [];
      }
      esArray := a;
      accepted := seq(LANE_COUNT, _ => []);
      dequeued := seq(LANE_COUNT, _ => []);
    }

    /** `process(op)`; `threw` reports the exception of `getBindId` to the caller. */
    method Process(op: Option<Op>) returns (threw: bool)
      requires Valid()
      modifies esArray, this`accepted
      ensures Valid() && dequeued == old(dequeued)
      ensures Submission(esArray[..], threw) == Submit(old(esArray[..]), op)
    {
      if op.None? {
        return false;
      }
      var bindId := BindId(op.value);
      if bindId.Abrupt? {
        return true;
      }
      var abs := Abs(bindId.value);
      var esIndex := Rem(abs, esArray.Length as Int32);
      assert esIndex == EsIndex(bindId.value);
      esArray[esIndex] := esArray[esIndex] + [op.value];
      accepted := accepted[esIndex := accepted[esIndex] + [op.value]];
      threw := false;
    }

    /** Lane `i` runs its head task; `fault` says whether the external code
        the blocking body calls raises. */
    method RunLane(i: nat, main: MainThreadProcessor, dao: Login.UserDao, fault: bool) returns (ran: Op, returned: bool)
      requires Valid() && main.Valid()
      requires i < LANE_COUNT as nat && esArray[i] != []
      modifies esArray, this`dequeued, main`queue, main`enqueued, dao
      ensures Valid() && main.Valid() && accepted == old(accepted)
      ensures var s := RunLaneSpec(old(esArray[..]), old(main.queue), old(dao.users), i, fault);
        esArray[..] == s.lanes && main.queue == s.main && dao.users == s.users &&
        ran == s.ran && returned == s.blocking.returned
    {
      ran := esArray[i][0];
      esArray[i] := esArray[i][1..];
      dequeued := dequeued[i := dequeued[i] + [ran]];
      var done;
      done, returned := Operation.DoAsync(ran, dao, fault);
      if returned {
        main.ProcessRunnable(Some(Finish(done)));
      }
    }
  }
}
