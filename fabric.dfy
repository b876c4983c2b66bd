/** The whole dispatch fabric as one sequential state machine: the eight lane
    queues of `AsyncOperationProcessor`, the queue of `MainThreadProcessor`,
    the user table behind the DAO, and a trace of what happened. Threads are
    replaced by explicit steps: any interleaving of submissions and lane steps
    is a sequence of actions. Each step is built from the same functions the
    processors' methods are proved against. */
module Fabric {
  import opened Wrappers
  import opened JavaInt
  import Login
  import opened Operation
  import opened MainThread
  import opened AsyncProcessor
  import LoginService

  /** Something that happened, in the order it happened. */
  datatype Event =
    | Accepted(lane: nat, op: Op)               // `process(op)` appended `op` to a lane
    | Rejected(op: Op)                          // `process(op)` raised in `getBindId`
    | BodyRan(lane: nat, op: Op, returned: bool) // a lane ran `op.doAsync()`
    | Queued(task: MainTask)                    // a task was appended to the main queue
    | Ran(task: MainTask, effect: Effect)       // the main lane ran a task

  datatype Fabric = Fabric(
    handlers: map<MsgClass, Handler>,
    lanes: seq<seq<Op>>,
    main: seq<MainTask>,
    users: Login.UserTable,
    nextId: nat,
    trace: seq<Event>)

  /** One step of the environment or of a lane. */
  datatype Action =
    | SubmitMessage(ctx: Option<Ctx>, msg: Option<Msg>)         // the transport calls `process(ctx, msg)`
    | SubmitRunnable(runnable: Option<nat>)                     // some code calls `process(Runnable)`
    | SubmitForeign(bindId: Completion<Int32>)                  // a handler submits a new foreign operation
    | UserLogin(userName: Option<Login.JString>, password: Option<Login.JString>, callback: Option<Login.Callback>)
    | StepLane(lane: nat, fault: bool)                          // shard lane `lane` runs its head task
    | StepMain(fault: bool)                                     // the main lane runs its head task

  /** The fabric at process start: idle lanes, an empty main queue. */
  function Init(handlers: map<MsgClass, Handler>, users: Login.UserTable): (f: Fabric)
    ensures |f.lanes| == LANE_COUNT as int && f.main == [] && f.trace == []
    ensures forall i :: 0 <= i < |f.lanes| ==> f.lanes[i] == []
  {
    Fabric(handlers, seq(LANE_COUNT, _ => []), [], users, 0, [])
  }

  /** `process(op)` for a newly built operation. */
  function Accept(f: Fabric, op: Op): (g: Fabric)
    requires |f.lanes| == LANE_COUNT as int
    ensures |g.lanes| == LANE_COUNT as int
  {
    f.(lanes := Submit(f.lanes, Some(op)).lanes, nextId := f.nextId + 1,
       trace := f.trace + [AcceptEvent(op)])
  }

  /** The event `process(op)` leaves in the trace. */
  function AcceptEvent(op: Op): (e: Event)
    ensures e.Accepted? <==> Route(op).Normal?
    ensures e.Accepted? ==> e == Accepted(Route(op).value, op)
    ensures e.Rejected? <==> Route(op).Abrupt?
  {
    match Route(op)
    case Abrupt => Rejected(op)
    case Normal(i) => Accepted(i, op)
  }

  function Step(f: Fabric, a: Action): (g: Fabric)
    requires |f.lanes| == LANE_COUNT as int
    ensures |g.lanes| == LANE_COUNT as int && g.handlers == f.handlers
  {
    match a
    case SubmitMessage(ctx, msg) =>
      if ctx.Some? && msg.Some? then
        f.(main := MainThread.SubmitMessage(f.main, ctx, msg),
           trace := f.trace + [Queued(Dispatch(ctx.value, msg.value))])
      else f
    case SubmitRunnable(r) =>
      if r.Some? then
        f.(main := MainThread.SubmitRunnable(f.main, Some(External(r.value))),
           trace := f.trace + [Queued(Run(External(r.value)))])
      else f
    case SubmitForeign(bindId) =>
      Accept(f, Op(f.nextId, Foreign(bindId)))
    case UserLogin(userName, password, callback) =>
      var req := LoginService.LoginRequest(userName, password, callback, f.nextId);
      if req.Some? then Accept(f, req.value) else f
    case StepLane(i, fault) =>
      if i < |f.lanes| && f.lanes[i] != [] then
        var s := RunLaneSpec(f.lanes, f.main, f.users, i, fault);
        f.(lanes := s.lanes, main := s.main, users := s.users,
           trace := f.trace + [BodyRan(i, s.ran, s.blocking.returned)] +
                    if s.blocking.returned then [Queued(Run(Finish(s.blocking.done)))] else [])
      else f
    case StepMain(fault) =>
      if f.main != [] then
        f.(main := f.main[1..],
           trace := f.trace + [Ran(f.main[0], Execute(f.handlers, f.main[0], fault))])
      else f
  }

  /** The fabric after a sequence of actions. */
  function Perform(f: Fabric, acts: seq<Action>): (g: Fabric)
    requires |f.lanes| == LANE_COUNT as int
    ensures |g.lanes| == LANE_COUNT as int
    decreases |acts|
  {
    if acts == [] then f else Step(Perform(f, acts[..|acts| - 1]), acts[|acts| - 1])
  }

  // ---- Views of the trace ----

  /** The operations appended to lane `i`, in order. */
  function AcceptedOn(t: seq<Event>, i: nat): seq<Op>
  {
    if t == [] then []
    else AcceptedOn(t[..|t| - 1], i) +
         (var e := t[|t| - 1]; if e.Accepted? && e.lane == i then [e.op] else [])
  }

  /** The operations whose blocking bodies lane `i` has run, in order. */
  function RanOn(t: seq<Event>, i: nat): seq<Op>
  {
    if t == [] then []
    else RanOn(t[..|t| - 1], i) +
         (var e := t[|t| - 1]; if e.BodyRan? && e.lane == i then [e.op] else [])
  }

  /** The ids of the operations whose blocking bodies returned, in order. */
  function ReturnedIds(t: seq<Event>): seq<nat>
  {
    if t == [] then []
    else ReturnedIds(t[..|t| - 1]) +
         (var e := t[|t| - 1]; if e.BodyRan? && e.returned then [e.op.id] else [])
  }

  /** The tasks appended to the main queue, in order. */
  function QueuedTasks(t: seq<Event>): seq<MainTask>
  {
    if t == [] then []
    else QueuedTasks(t[..|t| - 1]) +
         (var e := t[|t| - 1]; if e.Queued? then [e.task] else [])
  }

  /** The tasks the main lane has run, in order. */
  function RanTasks(t: seq<Event>): seq<MainTask>
  {
    if t == [] then []
    else RanTasks(t[..|t| - 1]) +
         (var e := t[|t| - 1]; if e.Ran? then [e.task] else [])
  }

  /** The ids of the operations whose completions are among `ts`, in order. */
  function FinishIds(ts: seq<MainTask>): seq<nat>
  {
    if ts == [] then []
    else FinishIds(ts[..|ts| - 1]) +
         (var t := ts[|ts| - 1]; if t.Run? && t.r.Finish? then [t.r.op.id] else [])
  }

  lemma {:induction false} FinishIdsConcat(a: seq<MainTask>, b: seq<MainTask>)
    ensures FinishIds(a + b) == FinishIds(a) + FinishIds(b)
    decreases |b|
  {
    if b != [] {
      assert (a + b)[..|a + b| - 1] == a + b[..|b| - 1];
      FinishIdsConcat(a, b[..|b| - 1]);
    } else {
      assert a + b == a;
    }
  }

  /** The lane views of `t + [e]` are those of `t` followed by what `e` adds. */
  lemma LaneViewsOfAppend(t: seq<Event>, e: Event, i: nat)
    ensures AcceptedOn(t + [e], i) == AcceptedOn(t, i) + (if e.Accepted? && e.lane == i then [e.op] else [])
    ensures RanOn(t + [e], i) == RanOn(t, i) + (if e.BodyRan? && e.lane == i then [e.op] else [])
  {
    assert (t + [e])[..|t|] == t;
  }

  /** The main-lane views of `t + [e]` are those of `t` followed by what `e` adds. */
  lemma MainViewsOfAppend(t: seq<Event>, e: Event)
    ensures ReturnedIds(t + [e]) == ReturnedIds(t) + (if e.BodyRan? && e.returned then [e.op.id] else [])
    ensures QueuedTasks(t + [e]) == QueuedTasks(t) + (if e.Queued? then [e.task] else [])
    ensures RanTasks(t + [e]) == RanTasks(t) + (if e.Ran? then [e.task] else [])
  {
    assert (t + [e])[..|t|] == t;
  }

  // ---- The ledger: nothing is lost, nothing runs twice, nothing overtakes ----

  /** Each lane holds only operations whose affinity key routes to it. */
  ghost predicate LanesRouted(t: seq<Event>)
  {
    forall i, k :: 0 <= i < LANE_COUNT as int && 0 <= k < |AcceptedOn(t, i)| ==>
      Route(AcceptedOn(t, i)[k]) == Normal(i)
  }

  /** On each lane, the bodies run so far followed by the pending queue are
      exactly the operations appended, in order: FIFO, none lost, none run twice. */
  ghost predicate LanesFifo(lanes: seq<seq<Op>>, t: seq<Event>)
    requires |lanes| == LANE_COUNT as int
  {
    forall i :: 0 <= i < LANE_COUNT as int ==> RanOn(t, i) + lanes[i] == AcceptedOn(t, i)
  }

  /** On the main lane, the tasks run so far followed by the pending queue are
      exactly the tasks appended, in order. */
  ghost predicate MainFifo(main: seq<MainTask>, t: seq<Event>)
  {
    RanTasks(t) + main == QueuedTasks(t)
  }

  /** The completions ever appended to the main queue are those of the
      blocking bodies that returned, one each, in the order of the lane steps
      that ran them. */
  ghost predicate HandedOff(t: seq<Event>)
  {
    FinishIds(QueuedTasks(t)) == ReturnedIds(t)
  }

  /** The invariant of every reachable fabric. */
  ghost predicate Ledger(f: Fabric)
  {
    |f.lanes| == LANE_COUNT as int &&
    LanesRouted(f.trace) && LanesFifo(f.lanes, f.trace) && MainFifo(f.main, f.trace) && HandedOff(f.trace)
  }

  lemma InitLedger(handlers: map<MsgClass, Handler>, users: Login.UserTable)
    ensures Ledger(Init(handlers, users))
  {
  }

  /** `process(op)` appends `op` to the lane its key routes to, or raises. */
  lemma AcceptKeepsLanes(lanes: seq<seq<Op>>, t: seq<Event>, op: Op)
    requires |lanes| == LANE_COUNT as int && LanesRouted(t) && LanesFifo(lanes, t)
    ensures LanesRouted(t + [AcceptEvent(op)])
    ensures LanesFifo(Submit(lanes, Some(op)).lanes, t + [AcceptEvent(op)])
  {
    var e := AcceptEvent(op);
    var lanes' := Submit(lanes, Some(op)).lanes;
    forall i | 0 <= i < LANE_COUNT as int
      ensures RanOn(t + [e], i) + lanes'[i] == AcceptedOn(t + [e], i)
      ensures forall k :: 0 <= k < |AcceptedOn(t + [e], i)| ==> Route(AcceptedOn(t + [e], i)[k]) == Normal(i)
    {
      LaneViewsOfAppend(t, e, i);
      if e == Accepted(i, op) {
        assert RanOn(t + [e], i) + lanes'[i] == (RanOn(t, i) + lanes[i]) + [op];
      }
    }
  }

  /** An event of the shard pool's submission side leaves the main lane's ledger alone. */
  lemma SubmissionKeepsMain(main: seq<MainTask>, t: seq<Event>, e: Event)
    requires MainFifo(main, t) && HandedOff(t)
    requires e.Accepted? || e.Rejected?
    ensures MainFifo(main, t + [e]) && HandedOff(t + [e])
  {
    MainViewsOfAppend(t, e);
    assert QueuedTasks(t + [e]) == QueuedTasks(t);
    assert ReturnedIds(t + [e]) == ReturnedIds(t);
  }

  lemma AcceptKeepsLedger(f: Fabric, op: Op)
    requires Ledger(f)
    ensures Ledger(Accept(f, op))
  {
    AcceptKeepsLanes(f.lanes, f.trace, op);
    SubmissionKeepsMain(f.main, f.trace, AcceptEvent(op));
  }

  /** The lane half of a lane step: the head of lane `i` moves from the queue to the run list. */
  lemma BodyRanKeepsLanes(lanes: seq<seq<Op>>, lanes': seq<seq<Op>>, t: seq<Event>, i: nat, ran: Op, returned: bool)
    requires |lanes| == LANE_COUNT as int && |lanes'| == LANE_COUNT as int && i < LANE_COUNT as int
    requires LanesRouted(t) && LanesFifo(lanes, t)
    requires lanes[i] == [ran] + lanes'[i]
    requires forall j :: 0 <= j < LANE_COUNT as int && j != i ==> lanes'[j] == lanes[j]
    ensures LanesRouted(t + [BodyRan(i, ran, returned)])
    ensures LanesFifo(lanes', t + [BodyRan(i, ran, returned)])
  {
    var e := BodyRan(i, ran, returned);
    forall j | 0 <= j < LANE_COUNT as int
      ensures AcceptedOn(t + [e], j) == AcceptedOn(t, j)
      ensures RanOn(t + [e], j) + lanes'[j] == AcceptedOn(t + [e], j)
    {
      LaneViewsOfAppend(t, e, j);
      if j == i {
        assert RanOn(t + [e], j) + lanes'[j] == RanOn(t, i) + lanes[i];
      }
    }
  }

  /** An event of the main lane leaves the lane half of the ledger alone. */
  lemma MainEventKeepsLanes(lanes: seq<seq<Op>>, t: seq<Event>, e: Event)
    requires |lanes| == LANE_COUNT as int && LanesRouted(t) && LanesFifo(lanes, t)
    requires e.Queued? || e.Ran?
    ensures LanesRouted(t + [e]) && LanesFifo(lanes, t + [e])
  {
    forall j | 0 <= j < LANE_COUNT as int
      ensures AcceptedOn(t + [e], j) == AcceptedOn(t, j)
      ensures RanOn(t + [e], j) == RanOn(t, j)
    {
      LaneViewsOfAppend(t, e, j);
    }
  }

  /** The main-lane half of a lane step: a completion is appended iff the body returned. */
  lemma HandOffKeepsMain(main: seq<MainTask>, trace: seq<Event>, i: nat, ran: Op, done: Op, returned: bool)
    requires MainFifo(main, trace) && HandedOff(trace)
    requires done.id == ran.id
    ensures var t := trace + [BodyRan(i, ran, returned)] + if returned then [Queued(Run(Finish(done)))] else [];
      MainFifo(if returned then main + [Run(Finish(done))] else main, t) && HandedOff(t)
  {
    var e1 := BodyRan(i, ran, returned);
    var t1 := trace + [e1];
    MainViewsOfAppend(trace, e1);
    if returned {
      var e2 := Queued(Run(Finish(done)));
      MainViewsOfAppend(t1, e2);
      assert QueuedTasks(t1 + [e2]) == QueuedTasks(trace) + [e2.task];
      FinishIdsConcat(QueuedTasks(trace), [e2.task]);
      assert FinishIds([e2.task]) == [ran.id] by {
        assert [e2.task][..0] == [];
      }
    } else {
      assert trace + [e1] + [] == t1;
      assert QueuedTasks(t1) == QueuedTasks(trace) && ReturnedIds(t1) == ReturnedIds(trace);
    }
  }

  lemma StepLaneKeepsLedger(f: Fabric, i: nat, fault: bool)
    requires Ledger(f)
    ensures Ledger(Step(f, StepLane(i, fault)))
  {
    if i < |f.lanes| && f.lanes[i] != [] {
      var g := Step(f, StepLane(i, fault));
      var s := RunLaneSpec(f.lanes, f.main, f.users, i, fault);
      var t1 := f.trace + [BodyRan(i, s.ran, s.blocking.returned)];
      assert g.lanes == s.lanes && g.main == s.main;
      assert f.lanes[i] == [s.ran] + s.lanes[i];
      BodyRanKeepsLanes(f.lanes, s.lanes, f.trace, i, s.ran, s.blocking.returned);
      if s.blocking.returned {
        MainEventKeepsLanes(s.lanes, t1, Queued(Run(Finish(s.blocking.done))));
      } else {
        assert g.trace == t1;
      }
      HandOffKeepsMain(f.main, f.trace, i, s.ran, s.blocking.done, s.blocking.returned);
    }
  }

  lemma StepMainKeepsLedger(f: Fabric, fault: bool)
    requires Ledger(f)
    ensures Ledger(Step(f, StepMain(fault)))
  {
    if f.main != [] {
      var e := Ran(f.main[0], Execute(f.handlers, f.main[0], fault));
      MainViewsOfAppend(f.trace, e);
      MainEventKeepsLanes(f.lanes, f.trace, e);
      assert RanTasks(f.trace + [e]) + f.main[1..] == RanTasks(f.trace) + f.main by {
        assert f.main == [f.main[0]] + f.main[1..];
      }
    }
  }

  /** Appending a task other than a completion to the main queue. */
  lemma QueueKeepsLedger(f: Fabric, task: MainTask)
    requires Ledger(f)
    requires !(task.Run? && task.r.Finish?)
    ensures Ledger(f.(main := f.main + [task], trace := f.trace + [Queued(task)]))
  {
    MainViewsOfAppend(f.trace, Queued(task));
    MainEventKeepsLanes(f.lanes, f.trace, Queued(task));
    FinishIdsConcat(QueuedTasks(f.trace), [task]);
    assert FinishIds([task]) == [] by {
      assert [task][..0] == [];
    }
  }

  lemma SubmitMessageKeepsLedger(f: Fabric, ctx: Option<Ctx>, msg: Option<Msg>)
    requires Ledger(f)
    ensures Ledger(Step(f, SubmitMessage(ctx, msg)))
  {
    if ctx.Some? && msg.Some? {
      var task := Dispatch(ctx.value, msg.value);
      assert MainThread.SubmitMessage(f.main, ctx, msg) == f.main + [task];
      assert Step(f, SubmitMessage(ctx, msg)) == f.(main := f.main + [task], trace := f.trace + [Queued(task)]);
      QueueKeepsLedger(f, task);
    } else {
      assert Step(f, SubmitMessage(ctx, msg)) == f;
    }
  }

  lemma SubmitRunnableKeepsLedger(f: Fabric, r: Option<nat>)
    requires Ledger(f)
    ensures Ledger(Step(f, SubmitRunnable(r)))
  {
    if r.Some? {
      var task := Run(External(r.value));
      assert MainThread.SubmitRunnable(f.main, Some(External(r.value))) == f.main + [task];
      assert Step(f, SubmitRunnable(r)) == f.(main := f.main + [task], trace := f.trace + [Queued(task)]);
      QueueKeepsLedger(f, task);
    } else {
      assert Step(f, SubmitRunnable(r)) == f;
    }
  }

  lemma UserLoginKeepsLedger(f: Fabric, userName: Option<Login.JString>, password: Option<Login.JString>, callback: Option<Login.Callback>)
    requires Ledger(f)
    ensures Ledger(Step(f, UserLogin(userName, password, callback)))
  {
    var req := LoginService.LoginRequest(userName, password, callback, f.nextId);
    if req.Some? {
      AcceptKeepsLedger(f, req.value);
    }
  }

  lemma StepKeepsLedger(f: Fabric, a: Action)
    requires Ledger(f)
    ensures Ledger(Step(f, a))
  {
    match a
    case SubmitMessage(ctx, msg) => SubmitMessageKeepsLedger(f, ctx, msg);
    case SubmitRunnable(r) => SubmitRunnableKeepsLedger(f, r);
    case SubmitForeign(bindId) => AcceptKeepsLedger(f, Op(f.nextId, Foreign(bindId)));
    case UserLogin(userName, password, callback) => UserLoginKeepsLedger(f, userName, password, callback);
    case StepLane(i, fault) => StepLaneKeepsLedger(f, i, fault);
    case StepMain(fault) => StepMainKeepsLedger(f, fault);
  }

  /** The ledger holds after any sequence of actions. */
  lemma {:induction false} RunKeepsLedger(f: Fabric, acts: seq<Action>)
    requires Ledger(f)
    ensures Ledger(Perform(f, acts))
    decreases |acts|
  {
    if acts != [] {
      RunKeepsLedger(f, acts[..|acts| - 1]);
      StepKeepsLedger(Perform(f, acts[..|acts| - 1]), acts[|acts| - 1]);
    }
  }

  // ---- What every run guarantees ----

  /** Whatever the interleaving of submissions and lane steps, the fabric
      keeps its ledger from process start. */
  lemma {:induction false} Reachable(handlers: map<MsgClass, Handler>, users: Login.UserTable, acts: seq<Action>)
    ensures Ledger(Perform(Init(handlers, users), acts))
  {
    InitLedger(handlers, users);
    RunKeepsLedger(Init(handlers, users), acts);
  }

  /** Per-entity ordering: two operations with the same affinity key are on
      the same lane, and if the later one's blocking body has run, the earlier
      one's ran before it. */
  lemma SameKeyRunsInSubmissionOrder(f: Fabric, i: nat, p: nat, q: nat)
    requires Ledger(f) && i < LANE_COUNT as nat
    requires p < q < |AcceptedOn(f.trace, i)|
    ensures BindId(AcceptedOn(f.trace, i)[p]).Normal?
    ensures Route(AcceptedOn(f.trace, i)[p]) == Route(AcceptedOn(f.trace, i)[q]) == Normal(i)
    ensures q < |RanOn(f.trace, i)| ==>
      RanOn(f.trace, i)[p] == AcceptedOn(f.trace, i)[p] && RanOn(f.trace, i)[q] == AcceptedOn(f.trace, i)[q]
  {
    assert RanOn(f.trace, i) + f.lanes[i] == AcceptedOn(f.trace, i);
  }

  /** Every blocking body that returned has its completion either already run
      on the main lane or still pending there, exactly once and in the order
      of the lane steps that ran the bodies; a body that raised has none.
      Across lanes that is the model's step order, not the real-time order
      of the returns. */
  lemma {:induction false} CompletionsFollowReturns(f: Fabric)
    requires Ledger(f)
    ensures FinishIds(RanTasks(f.trace)) + FinishIds(f.main) == ReturnedIds(f.trace)
  {
    FinishIdsConcat(RanTasks(f.trace), f.main);
  }

  /** No lost task: once every lane and the main queue are drained, every
      operation appended to a lane had its blocking body run, in order; every
      task appended to the main queue (each dispatch, each completion) ran, in
      order; and the completions that ran are exactly those of the bodies that
      returned. */
  lemma {:induction false} DrainedRunsEverything(f: Fabric)
    requires Ledger(f)
    requires forall i :: 0 <= i < |f.lanes| ==> f.lanes[i] == []
    requires f.main == []
    ensures forall i :: 0 <= i < LANE_COUNT as int ==> RanOn(f.trace, i) == AcceptedOn(f.trace, i)
    ensures RanTasks(f.trace) == QueuedTasks(f.trace)
    ensures FinishIds(RanTasks(f.trace)) == ReturnedIds(f.trace)
  {
    forall i | 0 <= i < LANE_COUNT as int
      ensures RanOn(f.trace, i) == AcceptedOn(f.trace, i)
    {
      assert RanOn(f.trace, i) + [] == AcceptedOn(f.trace, i);
    }
    assert RanTasks(f.trace) + [] == QueuedTasks(f.trace);
  }

  // ---- Per-entity completion order ----

  /** The ids of the operations whose blocking bodies lane `i` ran and that
      returned, in order. */
  function ReturnedOn(t: seq<Event>, i: nat): seq<nat>
  {
    if t == [] then []
    else ReturnedOn(t[..|t| - 1], i) +
         (var e := t[|t| - 1]; if e.BodyRan? && e.lane == i && e.returned then [e.op.id] else [])
  }

  /** The ids of the completions among `ts` whose operations route to lane `i`, in order. */
  function LaneFinishIds(ts: seq<MainTask>, i: nat): seq<nat>
  {
    if ts == [] then []
    else LaneFinishIds(ts[..|ts| - 1], i) +
         (var t := ts[|ts| - 1]; if t.Run? && t.r.Finish? && Route(t.r.op) == Normal(i) then [t.r.op.id] else [])
  }

  lemma {:induction false} LaneFinishIdsConcat(a: seq<MainTask>, b: seq<MainTask>, i: nat)
    ensures LaneFinishIds(a + b, i) == LaneFinishIds(a, i) + LaneFinishIds(b, i)
    decreases |b|
  {
    if b != [] {
      assert (a + b)[..|a + b| - 1] == a + b[..|b| - 1];
      LaneFinishIdsConcat(a, b[..|b| - 1], i);
    } else {
      assert a + b == a;
    }
  }

  lemma ReturnedOnOfAppend(t: seq<Event>, e: Event, i: nat)
    ensures ReturnedOn(t + [e], i) == ReturnedOn(t, i) + (if e.BodyRan? && e.lane == i && e.returned then [e.op.id] else [])
  {
    assert (t + [e])[..|t|] == t;
  }

  ghost predicate Increasing(xs: seq<nat>)
  {
    forall a, b :: 0 <= a < b < |xs| ==> xs[a] < xs[b]
  }

  ghost predicate IdsIncrease(ops: seq<Op>)
  {
    forall a, b :: 0 <= a < b < |ops| ==> ops[a].id < ops[b].id
  }

  /** The order facts of one lane, over its accepted operations `acc`, the
      ids `ret` of its bodies that returned, its pending operations, the next
      fresh id and the ids `fin` of its completions appended to the main
      queue: operations are accepted in increasing id order, all below the
      next fresh id; the bodies that returned did so in increasing id order,
      before every operation still pending; and the completions are exactly
      those, in that order. */
  ghost predicate OrderFacts(acc: seq<Op>, ret: seq<nat>, pending: seq<Op>, nextId: nat, fin: seq<nat>)
  {
    IdsIncrease(acc) && (forall k :: 0 <= k < |acc| ==> acc[k].id < nextId) &&
    Increasing(ret) && (forall a :: 0 <= a < |ret| ==> ret[a] < nextId) &&
    (forall a, k :: 0 <= a < |ret| && 0 <= k < |pending| ==> ret[a] < pending[k].id) &&
    fin == ret
  }

  ghost predicate LaneOrderOn(f: Fabric, i: nat)
    requires |f.lanes| == LANE_COUNT as int && i < LANE_COUNT as nat
  {
    OrderFacts(AcceptedOn(f.trace, i), ReturnedOn(f.trace, i), f.lanes[i], f.nextId,
               LaneFinishIds(QueuedTasks(f.trace), i))
  }

  /** Running the head of the pending operations keeps the order facts. */
  lemma OrderFactsAfterRun(acc: seq<Op>, ret: seq<nat>, ran: Op, rest: seq<Op>, nextId: nat, returned: bool)
    requires OrderFacts(acc, ret, [ran] + rest, nextId, ret)
    requires IdsIncrease([ran] + rest) && ran.id < nextId
    ensures var ret' := ret + (if returned then [ran.id] else []);
      OrderFacts(acc, ret', rest, nextId, ret')
  {
    assert forall k :: 0 <= k < |rest| ==> rest[k] == ([ran] + rest)[k + 1];
    assert forall a :: 0 <= a < |ret| ==> ret[a] < ([ran] + rest)[0].id;
  }

  ghost predicate LaneOrder(f: Fabric)
    requires |f.lanes| == LANE_COUNT as int
  {
    forall i :: 0 <= i < LANE_COUNT as int ==> LaneOrderOn(f, i)
  }

  lemma InitLaneOrder(handlers: map<MsgClass, Handler>, users: Login.UserTable)
    ensures LaneOrder(Init(handlers, users))
  {
  }

  /** `process(op)` for the next fresh id keeps lane `j`'s order. */
  lemma AcceptKeepsLaneOrderOn(f: Fabric, op: Op, j: nat)
    requires |f.lanes| == LANE_COUNT as int && j < LANE_COUNT as nat
    requires LaneOrderOn(f, j) && op.id == f.nextId
    ensures LaneOrderOn(Accept(f, op), j)
  {
    var e := AcceptEvent(op);
    var g := Accept(f, op);
    LaneViewsOfAppend(f.trace, e, j);
    ReturnedOnOfAppend(f.trace, e, j);
    MainViewsOfAppend(f.trace, e);
    assert QueuedTasks(g.trace) == QueuedTasks(f.trace);
    assert g.nextId == f.nextId + 1;
    if e == Accepted(j, op) {
      assert g.lanes[j] == f.lanes[j] + [op];
      assert AcceptedOn(g.trace, j) == AcceptedOn(f.trace, j) + [op];
    } else {
      assert g.lanes[j] == f.lanes[j];
      assert AcceptedOn(g.trace, j) == AcceptedOn(f.trace, j);
    }
  }

  /** The pending operations of a lane are the tail of those accepted on it,
      so their ids increase and exceed nothing accepted before them. */
  lemma PendingIdsIncrease(f: Fabric, i: nat)
    requires |f.lanes| == LANE_COUNT as int && i < LANE_COUNT as nat && LaneOrderOn(f, i)
    requires RanOn(f.trace, i) + f.lanes[i] == AcceptedOn(f.trace, i)
    ensures IdsIncrease(f.lanes[i])
    ensures forall k :: 0 <= k < |f.lanes[i]| ==> f.lanes[i][k].id < f.nextId
  {
    var acc, r := AcceptedOn(f.trace, i), |RanOn(f.trace, i)|;
    assert forall k :: 0 <= k < |f.lanes[i]| ==> f.lanes[i][k] == acc[r + k];
  }

  /** What the ledger says about one lane that the lane order needs: the
      pending operations are the tail of those accepted, and the head routes
      to the lane. */
  lemma LedgerLaneFacts(f: Fabric, i: nat)
    requires Ledger(f) && i < LANE_COUNT as nat && f.lanes[i] != []
    ensures RanOn(f.trace, i) + f.lanes[i] == AcceptedOn(f.trace, i)
    ensures Route(f.lanes[i][0]) == Normal(i)
  {
    assert RanOn(f.trace, i) + f.lanes[i] == AcceptedOn(f.trace, i);
    assert f.lanes[i][0] == AcceptedOn(f.trace, i)[|RanOn(f.trace, i)|];
  }

  /** A completion appended to the main queue is counted on lane `j` iff the
      operation it completes routes to `j`; it carries the key of the
      operation whose body ran. */
  lemma HandOffLaneFinishIds(q: seq<MainTask>, ran: Op, done: Op, returned: bool, i: nat, j: nat)
    requires Route(ran) == Normal(i) && BindId(done) == BindId(ran) && done.id == ran.id
    ensures LaneFinishIds(q + (if returned then [Run(Finish(done))] else []), j) ==
      LaneFinishIds(q, j) + (if j == i && returned then [ran.id] else [])
  {
    if returned {
      LaneFinishIdsConcat(q, [Run(Finish(done))], j);
      assert LaneFinishIds([Run(Finish(done))], j) == (if j == i then [ran.id] else []) by {
        assert [Run(Finish(done))][..0] == [];
      }
    } else {
      assert q + [] == q;
    }
  }

  /** The views of lane `j` and of the main queue after the events of a step
      of lane `i`. */
  lemma LaneStepTraceViews(t: seq<Event>, i: nat, ran: Op, done: Op, returned: bool, j: nat)
    ensures var t' := t + [BodyRan(i, ran, returned)] + if returned then [Queued(Run(Finish(done)))] else [];
      AcceptedOn(t', j) == AcceptedOn(t, j) &&
      ReturnedOn(t', j) == ReturnedOn(t, j) + (if j == i && returned then [ran.id] else []) &&
      QueuedTasks(t') == QueuedTasks(t) + (if returned then [Run(Finish(done))] else [])
  {
    var e1 := BodyRan(i, ran, returned);
    var t1 := t + [e1];
    LaneViewsOfAppend(t, e1, j);
    ReturnedOnOfAppend(t, e1, j);
    MainViewsOfAppend(t, e1);
    if returned {
      var e2 := Queued(Run(Finish(done)));
      LaneViewsOfAppend(t1, e2, j);
      ReturnedOnOfAppend(t1, e2, j);
      MainViewsOfAppend(t1, e2);
    } else {
      assert t1 + [] == t1;
      assert QueuedTasks(t1) + [] == QueuedTasks(t);
    }
  }

  /** What a step of lane `i` does to the views of lane `j`: nothing is
      accepted, the body's id is added to those returned on `i` iff it
      returned, and so is its completion to those queued for `i`. */
  lemma StepLaneViews(f: Fabric, i: nat, fault: bool, j: nat)
    requires |f.lanes| == LANE_COUNT as int && i < LANE_COUNT as nat && f.lanes[i] != []
    requires Route(f.lanes[i][0]) == Normal(i)
    ensures var g, s := Step(f, StepLane(i, fault)), RunLaneSpec(f.lanes, f.main, f.users, i, fault);
      var added := if j == i && s.blocking.returned then [f.lanes[i][0].id] else [];
      g.lanes == s.lanes && g.nextId == f.nextId &&
      AcceptedOn(g.trace, j) == AcceptedOn(f.trace, j) &&
      ReturnedOn(g.trace, j) == ReturnedOn(f.trace, j) + added &&
      LaneFinishIds(QueuedTasks(g.trace), j) == LaneFinishIds(QueuedTasks(f.trace), j) + added
  {
    var g := Step(f, StepLane(i, fault));
    var s := RunLaneSpec(f.lanes, f.main, f.users, i, fault);
    var ran, done, returned := s.ran, s.blocking.done, s.blocking.returned;
    assert g.trace == f.trace + [BodyRan(i, ran, returned)] + if returned then [Queued(Run(Finish(done)))] else [];
    LaneStepTraceViews(f.trace, i, ran, done, returned, j);
    HandOffLaneFinishIds(QueuedTasks(f.trace), ran, done, returned, i, j);
  }

  /** A step of lane `i` keeps the order of lane `i`. */
  lemma StepLaneKeepsOwnOrder(f: Fabric, i: nat, fault: bool)
    requires |f.lanes| == LANE_COUNT as int && i < LANE_COUNT as nat && f.lanes[i] != []
    requires RanOn(f.trace, i) + f.lanes[i] == AcceptedOn(f.trace, i) && Route(f.lanes[i][0]) == Normal(i)
    requires LaneOrderOn(f, i)
    ensures LaneOrderOn(Step(f, StepLane(i, fault)), i)
  {
    var g := Step(f, StepLane(i, fault));
    var returned := RunLaneSpec(f.lanes, f.main, f.users, i, fault).blocking.returned;
    var ran := f.lanes[i][0];
    StepLaneViews(f, i, fault, i);
    PendingIdsIncrease(f, i);
    assert f.lanes[i] == [ran] + g.lanes[i];
    OrderFactsAfterRun(AcceptedOn(f.trace, i), ReturnedOn(f.trace, i), ran, g.lanes[i], f.nextId, returned);
  }

  /** A step of lane `i` keeps the order of every other lane. */
  lemma StepLaneKeepsOtherOrder(f: Fabric, i: nat, fault: bool, j: nat)
    requires |f.lanes| == LANE_COUNT as int && i < LANE_COUNT as nat && f.lanes[i] != [] && j < LANE_COUNT as nat
    requires j != i && Route(f.lanes[i][0]) == Normal(i)
    requires LaneOrderOn(f, j)
    ensures LaneOrderOn(Step(f, StepLane(i, fault)), j)
  {
    StepLaneViews(f, i, fault, j);
    assert Step(f, StepLane(i, fault)).lanes[j] == f.lanes[j];
  }

  /** An event of the main lane keeps lane `j`'s order. */
  lemma MainEventKeepsLaneOrderOn(f: Fabric, e: Event, main: seq<MainTask>, j: nat)
    requires |f.lanes| == LANE_COUNT as int && j < LANE_COUNT as nat && LaneOrderOn(f, j)
    requires e.Ran? || (e.Queued? && !(e.task.Run? && e.task.r.Finish?))
    ensures LaneOrderOn(f.(main := main, trace := f.trace + [e]), j)
  {
    LaneViewsOfAppend(f.trace, e, j);
    ReturnedOnOfAppend(f.trace, e, j);
    MainViewsOfAppend(f.trace, e);
    if e.Ran? {
      assert QueuedTasks(f.trace + [e]) == QueuedTasks(f.trace);
    } else {
      assert QueuedTasks(f.trace + [e]) == QueuedTasks(f.trace) + [e.task];
      LaneFinishIdsConcat(QueuedTasks(f.trace), [e.task], j);
      assert LaneFinishIds([e.task], j) == [] by {
        assert [e.task][..0] == [];
      }
    }
  }

  lemma StepKeepsLaneOrder(f: Fabric, a: Action)
    requires Ledger(f) && LaneOrder(f)
    ensures LaneOrder(Step(f, a))
  {
    var g := Step(f, a);
    forall j | 0 <= j < LANE_COUNT as int
      ensures LaneOrderOn(g, j)
    {
      match a
      case SubmitMessage(ctx, msg) =>
        if ctx.Some? && msg.Some? {
          var task := Dispatch(ctx.value, msg.value);
          assert g == f.(main := f.main + [task], trace := f.trace + [Queued(task)]);
          MainEventKeepsLaneOrderOn(f, Queued(task), f.main + [task], j);
        }
      case SubmitRunnable(r) =>
        if r.Some? {
          var task := Run(External(r.value));
          assert g == f.(main := f.main + [task], trace := f.trace + [Queued(task)]);
          MainEventKeepsLaneOrderOn(f, Queued(task), f.main + [task], j);
        }
      case SubmitForeign(bindId) =>
        AcceptKeepsLaneOrderOn(f, Op(f.nextId, Foreign(bindId)), j);
      case UserLogin(userName, password, callback) =>
        var req := LoginService.LoginRequest(userName, password, callback, f.nextId);
        if req.Some? {
          AcceptKeepsLaneOrderOn(f, req.value, j);
        }
      case StepLane(i, fault) =>
        if i < |f.lanes| && f.lanes[i] != [] {
          LedgerLaneFacts(f, i);
          if j == i {
            StepLaneKeepsOwnOrder(f, i, fault);
          } else {
            StepLaneKeepsOtherOrder(f, i, fault, j);
          }
        }
      case StepMain(fault) =>
        if f.main != [] {
          MainEventKeepsLaneOrderOn(f, Ran(f.main[0], Execute(f.handlers, f.main[0], fault)), f.main[1..], j);
        }
    }
  }

  /** The lane order holds after any sequence of actions from a fabric that
      keeps both invariants. */
  lemma {:induction false} RunKeepsLaneOrder(f: Fabric, acts: seq<Action>)
    requires Ledger(f) && LaneOrder(f)
    ensures LaneOrder(Perform(f, acts))
    decreases |acts|
  {
    if acts != [] {
      var prefix := acts[..|acts| - 1];
      RunKeepsLaneOrder(f, prefix);
      RunKeepsLedger(f, prefix);
      StepKeepsLaneOrder(Perform(f, prefix), acts[|acts| - 1]);
    }
  }

  /** Whatever the interleaving, every lane keeps its order from process start. */
  lemma {:induction false} ReachableLaneOrder(handlers: map<MsgClass, Handler>, users: Login.UserTable, acts: seq<Action>)
    ensures LaneOrder(Perform(Init(handlers, users), acts))
  {
    InitLedger(handlers, users);
    InitLaneOrder(handlers, users);
    RunKeepsLaneOrder(Init(handlers, users), acts);
  }

  /** For one lane, the completions already run on the main lane followed by
      those pending there are those of the lane's bodies that returned, once
      each, in the order they returned, which is increasing id order. */
  lemma {:induction false} LaneCompletionsFollowReturns(f: Fabric, i: nat)
    requires Ledger(f) && LaneOrder(f) && i < LANE_COUNT as nat
    ensures LaneFinishIds(RanTasks(f.trace), i) + LaneFinishIds(f.main, i) == ReturnedOn(f.trace, i)
    ensures Increasing(ReturnedOn(f.trace, i))
  {
    assert LaneOrderOn(f, i);
    LaneFinishIdsConcat(RanTasks(f.trace), f.main, i);
  }

  /** Per-entity completion order: of two operations accepted on the same
      lane (as every two with the same key are), the earlier one has the
      smaller id, and if both completions have been appended to the main
      queue, the earlier one's was appended first. */
  lemma {:induction false} SameKeyCompletionsInSubmissionOrder(f: Fabric, i: nat, p: nat, q: nat, a: nat, b: nat)
    requires Ledger(f) && LaneOrder(f) && i < LANE_COUNT as nat
    requires p < q < |AcceptedOn(f.trace, i)|
    requires a < |LaneFinishIds(QueuedTasks(f.trace), i)| && b < |LaneFinishIds(QueuedTasks(f.trace), i)|
    requires LaneFinishIds(QueuedTasks(f.trace), i)[a] == AcceptedOn(f.trace, i)[p].id
    requires LaneFinishIds(QueuedTasks(f.trace), i)[b] == AcceptedOn(f.trace, i)[q].id
    ensures AcceptedOn(f.trace, i)[p].id < AcceptedOn(f.trace, i)[q].id
    ensures a < b
  {
    assert LaneOrderOn(f, i);
    var fin := LaneFinishIds(QueuedTasks(f.trace), i);
    assert Increasing(fin);
  }

  // ---- Scenarios ----

  lemma {:induction false} PerformSnoc(f: Fabric, acts: seq<Action>, a: Action)
    requires |f.lanes| == LANE_COUNT as int
    ensures Perform(f, acts + [a]) == Step(Perform(f, acts), a)
  {
    assert (acts + [a])[..|acts|] == acts;
  }

  /** "alice", whose last character 'e' (101) routes to lane 5. */
  const ALICE: Login.JString := [97, 108, 105, 99, 101]

  /** The operation `userLogin(ALICE, password, cb)` builds as the first object of a run. */
  function AliceLogin(password: Login.JString, cb: Login.Callback): Op
  {
    Op(0, GetUserEntity(Login.AsyncGetUserEntity(ALICE, password, Some(cb), None)))
  }

  /** `userLogin` for "alice" at process start puts her operation on lane 5. */
  lemma AliceSubmitted(handlers: map<MsgClass, Handler>, users: Login.UserTable, password: Login.JString, cb: Login.Callback)
    ensures var f1 := Step(Init(handlers, users), UserLogin(Some(ALICE), Some(password), Some(cb)));
      f1.lanes[5] == [AliceLogin(password, cb)] && f1.main == [] && f1.users == users && f1.handlers == handlers
  {
    assert Route(AliceLogin(password, cb)) == Normal(5);
  }

  /** Lane 5 runs the login's blocking body; the body returns, so its completion is queued. */
  lemma AliceBodyRuns(f1: Fabric, password: Login.JString, cb: Login.Callback, fault: bool)
    requires |f1.lanes| == LANE_COUNT as int && f1.lanes[5] == [AliceLogin(password, cb)] && f1.main == []
    ensures var f2 := Step(f1, StepLane(5, fault));
      var b := RunBlocking(AliceLogin(password, cb), f1.users, fault);
      f2.main == [Run(Finish(b.done))] && f2.users == b.users && f2.handlers == f1.handlers
  {
  }

  /** The main lane runs its only task. */
  lemma MainRunsOnlyTask(f2: Fabric, fault: bool)
    requires |f2.lanes| == LANE_COUNT as int && |f2.main| == 1
    ensures var f3 := Step(f2, StepMain(fault));
      f3.main == [] && f3.users == f2.users &&
      f3.trace == f2.trace + [Ran(f2.main[0], Execute(f2.handlers, f2.main[0], fault))]
  {
  }

  /** A first login creates the record, and the completion hands the new
      record, not null, to the callback. */
  lemma ScenarioNewUser(handlers: map<MsgClass, Handler>, password: Login.JString, cb: Login.Callback)
    ensures var created := Login.UserEntity(ALICE, password, Login.HERO_SHAMAN);
      var f := Step(Step(Step(Init(handlers, map[]), UserLogin(Some(ALICE), Some(password), Some(cb))), StepLane(5, false)), StepMain(false));
      f.users == map[ALICE := created] && f.main == [] && f.trace != [] &&
      f.trace[|f.trace| - 1].effect == Completed(LoginFinished(Login.CallbackApplied(cb, Some(created))), false)
  {
    var created := Login.UserEntity(ALICE, password, Login.HERO_SHAMAN);
    var f1 := Step(Init(handlers, map[]), UserLogin(Some(ALICE), Some(password), Some(cb)));
    AliceSubmitted(handlers, map[], password, cb);
    AliceBodyRuns(f1, password, cb, false);
    var done := Op(0, GetUserEntity(Login.AsyncGetUserEntity(ALICE, password, Some(cb), Some(created))));
    assert RunBlocking(AliceLogin(password, cb), map[], false) == Blocking(done, map[ALICE := created], true);
    MainRunsOnlyTask(Step(f1, StepLane(5, false)), false);
  }

  /** A login with the wrong password records nothing: the table is as it was
      and the callback still runs, with null. */
  lemma ScenarioWrongPassword(handlers: map<MsgClass, Handler>, stored: Login.JString, given: Login.JString, cb: Login.Callback)
    requires stored != given
    ensures var users := map[ALICE := Login.UserEntity(ALICE, stored, Login.HERO_SHAMAN)];
      var f := Step(Step(Step(Init(handlers, users), UserLogin(Some(ALICE), Some(given), Some(cb))), StepLane(5, false)), StepMain(false));
      f.users == users && f.main == [] && f.trace != [] &&
      f.trace[|f.trace| - 1].effect == Completed(LoginFinished(Login.CallbackApplied(cb, None)), false)
  {
    var users := map[ALICE := Login.UserEntity(ALICE, stored, Login.HERO_SHAMAN)];
    var f1 := Step(Init(handlers, users), UserLogin(Some(ALICE), Some(given), Some(cb)));
    AliceSubmitted(handlers, users, given, cb);
    AliceBodyRuns(f1, given, cb, false);
    assert RunBlocking(AliceLogin(given, cb), users, false) == Blocking(AliceLogin(given, cb), users, true);
    MainRunsOnlyTask(Step(f1, StepLane(5, false)), false);
  }

  /** A login whose DAO raises: `doAsync` swallows the exception, so the
      completion still runs, with null, and the table is untouched. */
  lemma ScenarioLoginStoreRaises(handlers: map<MsgClass, Handler>, password: Login.JString, cb: Login.Callback)
    ensures var f := Step(Step(Step(Init(handlers, map[]), UserLogin(Some(ALICE), Some(password), Some(cb))), StepLane(5, true)), StepMain(false));
      f.users == map[] && f.main == [] && f.trace != [] &&
      f.trace[|f.trace| - 1].effect == Completed(LoginFinished(Login.CallbackApplied(cb, None)), false)
  {
    var f1 := Step(Init(handlers, map[]), UserLogin(Some(ALICE), Some(password), Some(cb)));
    AliceSubmitted(handlers, map[], password, cb);
    AliceBodyRuns(f1, password, cb, true);
    assert RunBlocking(AliceLogin(password, cb), map[], true) == Blocking(AliceLogin(password, cb), map[], true);
    MainRunsOnlyTask(Step(f1, StepLane(5, true)), false);
  }

  /** Keys 5 and 13 share lane 5, their blocking bodies run in submission
      order, and their completions reach the main queue in that order. */
  lemma ScenarioSharedLane(handlers: map<MsgClass, Handler>)
    ensures var f := Step(Step(Step(Step(Init(handlers, map[]), SubmitForeign(Normal(5))), SubmitForeign(Normal(13))), StepLane(5, false)), StepLane(5, false));
      f.lanes[5] == [] && |f.trace| == 6 &&
      f.trace[2..] == [BodyRan(5, Op(0, Foreign(Normal(5))), true), Queued(Run(Finish(Op(0, Foreign(Normal(5)))))),
                       BodyRan(5, Op(1, Foreign(Normal(13))), true), Queued(Run(Finish(Op(1, Foreign(Normal(13))))))] &&
      f.main == [Run(Finish(Op(0, Foreign(Normal(5))))), Run(Finish(Op(1, Foreign(Normal(13)))))]
  {
    SharedLaneSubmitted(handlers);
    SharedLaneDrained(Step(Step(Init(handlers, map[]), SubmitForeign(Normal(5))), SubmitForeign(Normal(13))));
  }

  /** The two submissions of the shared-lane scenario. */
  lemma SharedLaneSubmitted(handlers: map<MsgClass, Handler>)
    ensures var f2 := Step(Step(Init(handlers, map[]), SubmitForeign(Normal(5))), SubmitForeign(Normal(13)));
      f2.lanes[5] == [Op(0, Foreign(Normal(5))), Op(1, Foreign(Normal(13)))] && f2.main == [] && |f2.trace| == 2
  {
    var op1, op2 := Op(0, Foreign(Normal(5))), Op(1, Foreign(Normal(13)));
    assert Route(op1) == Normal(5) && Route(op2) == Normal(5);
    var f1 := Step(Init(handlers, map[]), SubmitForeign(Normal(5)));
    assert f1.lanes[5] == [op1] && f1.nextId == 1 && |f1.trace| == 1 && f1.main == [];
  }

  /** The two lane steps of the shared-lane scenario. */
  lemma SharedLaneDrained(f2: Fabric)
    requires |f2.lanes| == LANE_COUNT as int && f2.lanes[5] == [Op(0, Foreign(Normal(5))), Op(1, Foreign(Normal(13)))]
    requires f2.main == [] && |f2.trace| == 2
    ensures var f := Step(Step(f2, StepLane(5, false)), StepLane(5, false));
      f.lanes[5] == [] && |f.trace| == 6 &&
      f.trace[2..] == [BodyRan(5, Op(0, Foreign(Normal(5))), true), Queued(Run(Finish(Op(0, Foreign(Normal(5)))))),
                       BodyRan(5, Op(1, Foreign(Normal(13))), true), Queued(Run(Finish(Op(1, Foreign(Normal(13))))))] &&
      f.main == [Run(Finish(Op(0, Foreign(Normal(5))))), Run(Finish(Op(1, Foreign(Normal(13)))))]
  {
    var op1, op2 := Op(0, Foreign(Normal(5))), Op(1, Foreign(Normal(13)));
    var f3 := Step(f2, StepLane(5, false));
    assert f3.lanes[5] == [op2] && f3.main == [Run(Finish(op1))];
    assert f3.trace == f2.trace + [BodyRan(5, op1, true), Queued(Run(Finish(op1)))];
    var f4 := Step(f3, StepLane(5, false));
    assert f4.trace == f3.trace + [BodyRan(5, op2, true), Queued(Run(Finish(op2)))];
  }

  /** A foreign blocking body that raises: the lane goes on, but its
      completion is never handed to the main lane. */
  lemma ScenarioForeignBodyRaises(handlers: map<MsgClass, Handler>, bindId: Int32)
    ensures var f := Perform(Init(handlers, map[]), [SubmitForeign(Normal(bindId)), StepLane(EsIndex(bindId) as nat, true)]);
      f.main == [] && f.lanes == Init(handlers, map[]).lanes && ReturnedIds(f.trace) == []
  {
    var lane := EsIndex(bindId) as nat;
    var a1, a2 := SubmitForeign(Normal(bindId)), StepLane(lane, true);
    var f0 := Init(handlers, map[]);
    PerformSnoc(f0, [], a1);
    PerformSnoc(f0, [a1], a2);
    assert [a1] + [a2] == [a1, a2];
    ForeignSubmitted(handlers, bindId);
    ForeignRaised(Step(f0, a1), bindId);
  }

  lemma ForeignSubmitted(handlers: map<MsgClass, Handler>, bindId: Int32)
    ensures var f1 := Step(Init(handlers, map[]), SubmitForeign(Normal(bindId)));
      f1.lanes == Init(handlers, map[]).lanes[EsIndex(bindId) as nat := [Op(0, Foreign(Normal(bindId)))]] &&
      f1.main == [] && f1.trace == [Accepted(EsIndex(bindId) as nat, Op(0, Foreign(Normal(bindId))))]
  {
    var lane, op := EsIndex(bindId) as nat, Op(0, Foreign(Normal(bindId)));
    var f0 := Init(handlers, map[]);
    assert Route(op) == Normal(lane);
    assert f0.lanes[lane] + [op] == [op];
    assert Submit(f0.lanes, Some(op)).lanes == f0.lanes[lane := [op]];
  }

  lemma ForeignRaised(f1: Fabric, bindId: Int32)
    requires |f1.lanes| == LANE_COUNT as int
    requires f1.lanes[EsIndex(bindId) as nat] == [Op(0, Foreign(Normal(bindId)))]
    requires f1.main == [] && f1.trace == [Accepted(EsIndex(bindId) as nat, Op(0, Foreign(Normal(bindId))))]
    ensures var f2 := Step(f1, StepLane(EsIndex(bindId) as nat, true));
      f2.main == [] && f2.lanes == f1.lanes[EsIndex(bindId) as nat := []] && ReturnedIds(f2.trace) == []
  {
    var lane, op := EsIndex(bindId) as nat, Op(0, Foreign(Normal(bindId)));
    var f2 := Step(f1, StepLane(lane, true));
    assert f2.trace == [Accepted(lane, op)] + [BodyRan(lane, op, false)];
    MainViewsOfAppend([], Accepted(lane, op));
    MainViewsOfAppend([Accepted(lane, op)], BodyRan(lane, op, false));
  }

  /** A foreign operation whose `getBindId` raises: `process(op)` passes the
      exception on, and no lane and no main-lane task is added. */
  lemma ScenarioForeignKeyRaises(handlers: map<MsgClass, Handler>)
    ensures var f := Step(Init(handlers, map[]), SubmitForeign(Abrupt));
      f.lanes == Init(handlers, map[]).lanes && f.main == [] &&
      f.trace == [Rejected(Op(0, Foreign(Abrupt)))]
  {
    assert Route(Op(0, Foreign(Abrupt))) == Abrupt;
  }

  /** A message of an unregistered class calls nothing, and a handler that
      raises does not stop the task queued after it. */
  lemma ScenarioMainLaneContainsFaults(handlers: map<MsgClass, Handler>, ctx: Ctx, unknown: Msg, known: Msg)
    requires unknown.clazz !in handlers && known.clazz in handlers
    ensures var f := Perform(Init(handlers, map[]),
        [SubmitMessage(Some(ctx), Some(known)), SubmitMessage(Some(ctx), Some(unknown)), StepMain(true), StepMain(false)]);
      f.main == [] && |f.trace| >= 2 &&
      f.trace[|f.trace| - 2] == Ran(Dispatch(ctx, known), HandlerCalled(handlers[known.clazz], ctx, Cast(known), true)) &&
      f.trace[|f.trace| - 1] == Ran(Dispatch(ctx, unknown), Unhandled(unknown.clazz))
  {
    var a1, a2, a3, a4 := SubmitMessage(Some(ctx), Some(known)), SubmitMessage(Some(ctx), Some(unknown)), StepMain(true), StepMain(false);
    var f0 := Init(handlers, map[]);
    PerformSnoc(f0, [], a1);
    PerformSnoc(f0, [a1], a2);
    PerformSnoc(f0, [a1, a2], a3);
    PerformSnoc(f0, [a1, a2, a3], a4);
    assert [a1] + [a2] == [a1, a2] && [a1, a2] + [a3] == [a1, a2, a3] && [a1, a2, a3] + [a4] == [a1, a2, a3, a4];
    var f2 := Step(Step(f0, a1), a2);
    assert f2.main == [Dispatch(ctx, known), Dispatch(ctx, unknown)];
    var f3 := Step(f2, a3);
    assert f3.main == [Dispatch(ctx, unknown)];
    assert f3.trace == f2.trace + [Ran(Dispatch(ctx, known), HandlerCalled(handlers[known.clazz], ctx, Cast(known), true))];
    var f4 := Step(f3, a4);
    assert f4.trace == f3.trace + [Ran(Dispatch(ctx, unknown), Unhandled(unknown.clazz))];
  }
}
