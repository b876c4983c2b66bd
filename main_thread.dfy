/** `MainThreadProcessor`: the one single-thread executor on which game state
    is changed. Its executor is modelled as a FIFO queue of tasks together with
    the record of the tasks it has run; running the head task is an explicit
    step. */
module MainThread {
  import opened Wrappers
  import Operation

  /** A Netty channel context; only its identity is modelled. */
  type Ctx = nat

  /** The runtime class of a decoded message. */
  type MsgClass = nat

  /** A command handler produced by `CmdHandlerFactory`; only its identity is modelled. */
  type Handler = nat

  /** A decoded message object: its class, whether it is a protobuf
      `GeneratedMessageV3`, and an opaque payload. In Java the second is a
      property of the class; the model does not tie `isProtobuf` to `clazz`,
      and no property proved here depends on it. */
  datatype Msg = Msg(clazz: MsgClass, isProtobuf: bool, payload: nat)

  /** A `Runnable` handed to `process(Runnable)`: the completion `op::doFinish`
      of an operation, or some other piece of code known only by its identity. */
  datatype Runnable = Finish(op: Operation.Op) | External(id: nat)

  /** A task in the main queue: the dispatch lambda built by
      `process(ctx, msg)`, or a submitted runnable. */
  datatype MainTask = Dispatch(ctx: Ctx, msg: Msg) | Run(r: Runnable)

  /** What running a task did. `faulted` says that the code it called raised;
      in every case the task ends and the lane goes on with the next one. */
  datatype Effect =
    | HandlerCalled(handler: Handler, ctx: Ctx, arg: Option<Msg>, faulted: bool)
    | Unhandled(clazz: MsgClass)
    | Completed(finished: Operation.Finished, faulted: bool)
    | ExternalRan(id: nat, faulted: bool)

  /** One entry of the lane's record: a task and what running it did. */
  datatype Executed = Executed(task: MainTask, effect: Effect)

  /** `cast`: null for a message that is not a protobuf message, otherwise the message itself. */
  function Cast(msg: Msg): (r: Option<Msg>)
    ensures r.Some? <==> msg.isProtobuf
    ensures r.Some? ==> r.value == msg
  {
    if !msg.isProtobuf then None else Some(msg)
  }

  /** `process(ctx, msg)` on the queue: a no-op when either argument is null,
      otherwise exactly one dispatch task appended at the end. */
  function SubmitMessage(queue: seq<MainTask>, ctx: Option<Ctx>, msg: Option<Msg>): (r: seq<MainTask>)
    ensures ctx.None? || msg.None? ==> r == queue
    ensures ctx.Some? && msg.Some? ==>
      |r| == |queue| + 1 && r[..|queue|] == queue && r[|queue|] == Dispatch(ctx.value, msg.value)
  {
    if ctx.None? || msg.None? then queue else queue + [Dispatch(ctx.value, msg.value)]
  }

  /** `process(Runnable r)` on the queue: `r` appended iff it is not null. */
  function SubmitRunnable(queue: seq<MainTask>, r: Option<Runnable>): (q: seq<MainTask>)
    ensures r.None? ==> q == queue
    ensures r.Some? ==> |q| == |queue| + 1 && q[..|queue|] == queue && q[|queue|] == Run(r.value)
  {
    if r.None? then queue else queue + [Run(r.value)]
  }

  /** The body of a task. A dispatch task looks up the handler registered for
      the message's class (`handlers` stands for `CmdHandlerFactory`), calls it
      with the context and `cast(msg)` if there is one, and catches what it
      raises; without a handler nothing is called. A runnable runs; a fault in
      it is captured by the executor's future. */
  function Execute(handlers: map<MsgClass, Handler>, task: MainTask, fault: bool): (e: Effect)
    ensures task.Dispatch? && task.msg.clazz !in handlers ==> e == Unhandled(task.msg.clazz)
    ensures task.Dispatch? && task.msg.clazz in handlers ==>
      e == HandlerCalled(handlers[task.msg.clazz], task.ctx, Cast(task.msg), fault)
    ensures task.Run? && task.r.Finish? ==> e == Completed(Operation.DoFinish(task.r.op), fault)
    ensures task.Run? && task.r.External? ==> e == ExternalRan(task.r.id, fault)
  {
    match task
    case Dispatch(ctx, msg) =>
      if msg.clazz in handlers then HandlerCalled(handlers[msg.clazz], ctx, Cast(msg), fault)
      else Unhandled(msg.clazz)
    case Run(Finish(op)) => Completed(Operation.DoFinish(op), fault)
    case Run(External(id)) => ExternalRan(id, fault)
  }

  /** The tasks of a record, in the order they ran. */
  function Tasks(log: seq<Executed>): (ts: seq<MainTask>)
    ensures |ts| == |log|
    ensures forall k :: 0 <= k < |log| ==> ts[k] == log[k].task
  {
    if log == [] then [] else Tasks(log[..|log| - 1]) + [log[|log| - 1].task]
  }

  /** Moving the head task from the queue to the record keeps the record
      followed by the queue as it was. */
  lemma RecordHead(log: seq<Executed>, x: Executed, rest: seq<MainTask>)
    ensures Tasks(log + [x]) + rest == Tasks(log) + ([x.task] + rest)
  {
    assert (log + [x])[..|log|] == log;
  }

  class MainThreadProcessor {
    /** The command handler registry consulted by dispatch tasks. */
    const handlers: map<MsgClass, Handler>
    /** The executor's pending tasks, head first. */
    var queue: seq<MainTask>
    /** The tasks the executor has run, in order, with their effects. */
    var log: seq<Executed>
    /** Every task ever appended to the queue, in order. */
    ghost var enqueued: seq<MainTask>

    /** What has run followed by what is pending is exactly what was appended, in order. */
    ghost predicate Valid()
      reads this
    {
      Tasks(log) + queue == enqueued
    }

    constructor (handlers: map<MsgClass, Handler>)
      ensures Valid()
      ensures this.handlers == handlers && queue == [] && log == [] && enqueued == []
    {
      this.handlers := handlers;
      queue, log := [], [];
      enqueued := [];
    }

    /** `process(ctx, msg)`. */
    method Process(ctx: Option<Ctx>, msg: Option<Msg>)
      requires Valid()
      modifies this`queue, this`enqueued
      ensures Valid()
      ensures queue == SubmitMessage(old(queue), ctx, msg)
      ensures enqueued == old(enqueued) + (queue[|old(queue)|..])
    {
      if ctx.None? || msg.None? {
        return;
      }
      queue := queue + [Dispatch(ctx.value, msg.value)];
      enqueued := enqueued + [Dispatch(ctx.value, msg.value)];
    }

    /** `process(Runnable r)`. */
    method ProcessRunnable(r: Option<Runnable>)
      requires Valid()
      modifies this`queue, this`enqueued
      ensures Valid()
      ensures queue == SubmitRunnable(old(queue), r)
      ensures enqueued == old(enqueued) + (queue[|old(queue)|..])
    {
      if r.Some? {
        queue := queue + [Run(r.value)];
        enqueued := enqueued + [Run(r.value)];
      }
    }

    /** The executor takes the head task and runs it to the end; `fault` says
      whether the code the task calls raises. */
    method RunNext(fault: bool) returns (e: Effect)
      requires Valid()
      requires queue != []
      modifies this`queue, this`log
      ensures Valid()
      ensures queue == old(queue)[1..]
      ensures e == Execute(handlers, old(queue)[0], fault)
      ensures log == old(log) + [Executed(old(queue)[0], e)]
    {
      var task := queue[0];
      queue := queue[1..];
      match task {
        case Dispatch(ctx, msg) =>
          if msg.clazz in handlers {
            e := HandlerCalled(handlers[msg.clazz], ctx, Cast(msg), fault);
          } else {
            e := Unhandled(msg.clazz);
          }
        case Run(r) =>
          match r {
            case Finish(op) => e := Completed(Operation.DoFinish(op), fault);
            case External(id) => e := ExternalRan(id, fault);
          }
      }
      RecordHead(log, Executed(task, e), queue);
      assert [task] + queue == old(queue);
      log := log + [Executed(task, e)];
    }
  }
}
