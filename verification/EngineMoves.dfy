/** The engine taken apart into atomic moves. A turn of the loop, with all its re-entrant callbacks, is a
    sequence of these; `permits` and `requests` are what sits on the call stack between two moves. */
module EngineMoves {
  import opened Options
  import opened ToolKeys
  import opened Engine
  import opened EngineInvariant
  import InFlightTable
  import Tasks
  import Circuit
  import Retry

  /** `clean` records that every request so far has a name and a hash without newlines. */
  datatype Mach = Mach(s: St, permits: seq<Permit>, requests: multiset<nat>, clean: bool)

  datatype Move =
    | Accept(req: Request)
    | Reply(req: Request, reply: Engine.Reply)
    | Issue(key: ToolKey, req: Request)
    | GiveBack(permit: Permit)
    | TakeOut(tool: string, i: nat)
    | Push(req: Request, key: ToolKey, deadline: nat)
    | Launch(req: Request, key: ToolKey, via: Via, now: nat)
    | Respond(id: nat, reply: Engine.Reply)
    | TimerGone(id: nat)
    | CancelWait(id: nat, now: nat)
    | CancelOrphan(taskId: nat, now: nat)
    | Sweep(now: nat)
    | NewTask(task: Tasks.Task, now: nat)
    | Attach(id: nat, taskId: nat)
    | Absorb(id: nat, klass: Retry.Klass)
    | FireAgain(id: nat, klass: Retry.Klass)
    | Finish(id: nat, klass: Retry.Klass, isError: bool, now: nat)
    | Destroy(id: nat)
    | Read(backend: string, now: nat)
    | Weigh(backend: string, report: Circuit.Event)
    | StartDraining
    | Listing(backend: string, tools: set<string>)

  /** Kinds of moves: sweeping and adding tasks, giving out a task handle or the id of a running call, the
      end of a promote timer, a further attempt of a call that has one, a last answer, cancelling, a report to
      the breaker, a waiter leaving its queue, all that has to do with slots, a change of limits, and what
      leaves the governor alone and does none of these. */
  datatype Kind = Still | Store | Hand | Timer | Again | Settle | Cancel | Report | Leave | Slots | Limits

  const ALL: set<Kind> := {Still, Store, Hand, Timer, Again, Settle, Cancel, Report, Leave, Slots, Limits}
  const RELEASE: set<Kind> := {Still, Leave, Slots}
  const NOTICE: set<Kind> := {Still, Store, Hand}

  function KindOf(v: Move): Kind {
    if (v.Reply? || v.Respond?) && (v.reply.Handle? || v.reply.StillRunning?) then Hand
    else if v.Sweep? || v.NewTask? || v.Attach? then Store
    else if v.TimerGone? then Timer
    else if v.Weigh? then Report
    else if v.Listing? then Limits
    else if v.FireAgain? then Again
    else if v.Finish? then Settle
    else if v.CancelWait? || v.CancelOrphan? then Cancel
    else if v.TakeOut? then Leave
    else if v.Issue? || v.GiveBack? || v.Push? || v.Launch? then Slots
    else Still
  }

  /** A handle that is about to be given out is in the store, belongs to the call it was hit on, and was
      asked for. */
  predicate GoodHandle(m: Mach, req: Request, reply: Engine.Reply) {
    reply.Handle? ==>
      && req.tasksCap
      && reply.inflightId in m.s.calls
      && var c := m.s.calls[reply.inflightId];
      && c.taskId == Some(reply.taskId)
      && reply.taskId in m.s.tasks && m.s.tasks[reply.taskId] == reply.task
      && (m.clean ==> req.who.agentId == c.req.who.agentId)
  }

  /** Moves that change one call, and perhaps the log and the task table. */
  predicate Touches(v: Move) {
    v.Respond? || v.TimerGone? || v.CancelWait? || v.Absorb? || v.FireAgain? || v.Finish? || v.Attach?
  }

  function CallAfter(c: Call, v: Move): Call
    requires Touches(v) && (v.Absorb? || v.Finish? ==> c.outstanding > 0)
  {
    match v
    case Respond(_, _) => c.(responded := true)
    case TimerGone(_) => c.(timer := false)
    case CancelWait(_, _) => c.(cancelled := true, responded := true)
    case Absorb(_, _) => c.(outstanding := c.outstanding - 1, upstreamDone := true)
    case FireAgain(_, _) => c.(attempt := c.attempt + 1, timer := c.timer || c.attempt == 0)
    case Finish(_, _, _, _) =>
      c.(outstanding := c.outstanding - 1, upstreamDone := true, timer := false, responded := true)
    case Attach(_, taskId) => c.(taskId := Some(taskId))
  }

  predicate Valid(cfg: Config, m: Mach, v: Move) {
    var s := m.s;
    match v
    case Accept(req) => req.id == s.arrivals
    case Reply(req, reply) =>
      req.id in m.requests && GoodHandle(m, req, reply)
    case Issue(key, req) => CanTake(cfg, s.gov, Str(key), req.who.agentId)
    case GiveBack(p) => p.Held? && m.permits != [] && m.permits[|m.permits| - 1] == p
    case TakeOut(ts, i) => i < |Queue(s.gov, ts)|
    case Push(req, key, deadline) =>
      req.id in m.requests && req.name == Str(key) && (m.clean ==> CleanRequest(req))
    case Launch(req, key, via, now) =>
      && req.id in m.requests && req.name == Str(key) && (m.clean ==> CleanRequest(req))
      && m.permits != [] && m.permits[|m.permits| - 1] == Held(key, req.who.agentId)
      && (via.Direct? ==> KeyFor(req, key) !in s.inflight.keyToId)
    case Respond(id, reply) =>
      && id in s.calls && !s.calls[id].responded && GoodHandle(m, s.calls[id].req, reply)
      && (reply.Handle? ==> reply.inflightId == id)
    case TimerGone(id) => id in s.calls
    case CancelWait(id, now) => id in s.calls
    case CancelOrphan(tid, now) => tid !in s.byTask
    case Sweep(now) => true
    case NewTask(task, now) => true
    case Attach(id, tid) =>
      && id in s.calls && s.calls[id].taskId.None? && tid + 1 == s.nextId && tid !in s.byTask
      && tid in s.tasks && s.tasks[tid].status.Working?
      && s.tasks[tid].key == s.calls[id].key && s.tasks[tid].createdAt == s.calls[id].startedAt
      && (m.clean ==> s.tasks[tid].agent == s.calls[id].req.who.agentId)
    case Absorb(id, klass) => id in s.calls && s.calls[id].outstanding > 0 && s.calls[id].cancelled
    case FireAgain(id, klass) =>
      && id in s.calls && s.calls[id].outstanding > 0
      && !s.calls[id].responded && !s.calls[id].cancelled && klass != Retry.Timeout
      && s.calls[id].attempt < cfg.retry.maxAttempts
    case Finish(id, klass, isError, now) =>
      id in s.calls && s.calls[id].outstanding > 0 && !s.calls[id].cancelled
    case Destroy(id) => id in s.calls && Unowned(s.calls[id]) && s.calls[id].responded
    case Read(backend, now) => true
    case Weigh(backend, report) => true
    case StartDraining => true
    case Listing(backend, tools) => true
  }

  // ------------------------------------------------------------------ effects, field by field

  function NewCall(s: St, req: Request, key: ToolKey, now: nat): Call {
    Call(req, key, Held(key, req.who.agentId), now, None, false, false, false, 1, 1, true)
  }

  function CallsAfter(cfg: Config, m: Mach, v: Move): map<nat, Call>
    requires Valid(cfg, m, v)
  {
    var s := m.s;
    if Touches(v) then s.calls[v.id := CallAfter(s.calls[v.id], v)]
    else
      match v
      case Launch(req, key, _, now) => s.calls[s.nextId := NewCall(s, req, key, now)]
      case Destroy(id) => s.calls - {id}
      case _ => s.calls
  }

  function LogAfter(cfg: Config, m: Mach, v: Move): seq<Action>
    requires Valid(cfg, m, v)
  {
    var s := m.s;
    match v
    case Reply(req, reply) => s.log + [Replied(req, reply)]
    case Issue(key, req) => s.log + [Admitted(req, Str(key))]
    case Launch(req, key, via, now) =>
      s.log + [Insertion(s, req, key, via)] + [Fired(s.nextId, req)]
    case Respond(id, reply) => s.log + [Replied(s.calls[id].req, reply)]
    case CancelWait(id, _) =>
      if s.calls[id].responded then s.log else s.log + [Replied(s.calls[id].req, CallCancelled)]
    case Absorb(id, klass) => s.log + [Returned(id, klass)]
    case FireAgain(id, klass) => s.log + [Returned(id, klass)] + [Fired(id, s.calls[id].req)]
    case Finish(id, klass, isError, _) =>
      var log := s.log + [Returned(id, klass)];
      if s.calls[id].responded then log else log + [Replied(s.calls[id].req, Result(klass, isError))]
    case _ => s.log
  }

  function GovAfter(cfg: Config, m: Mach, v: Move): Gov
    requires Valid(cfg, m, v)
  {
    var g := m.s.gov;
    match v
    case Issue(key, req) => Take(g, Str(key), req.who.agentId)
    case GiveBack(p) => Engine.GiveBack(g, Str(p.key), p.agent)
    case TakeOut(ts, i) => SetQueue(g, ts, Queue(g, ts)[..i] + Queue(g, ts)[i + 1..])
    case Push(req, key, deadline) => Engine.Push(g, Str(key), req, key, deadline)
    case Listing(backend, tools) => OnToolsListed(cfg, g, backend, tools)
    case _ => g
  }

  function InflightAfter(cfg: Config, m: Mach, v: Move): InFlightTable.Table
    requires Valid(cfg, m, v)
  {
    var s := m.s;
    match v
    case Launch(req, key, _, now) => InFlightTable.Insert(s.inflight, NewEntry(s, req, key, now))
    case Attach(id, tid) => InFlightTable.SetTaskId(s.inflight, id, tid)
    case Destroy(id) => InFlightTable.Erase(s.inflight, id)
    case _ => s.inflight
  }

  function TasksAfter(cfg: Config, m: Mach, v: Move): Tasks.Store
    requires Valid(cfg, m, v)
  {
    var s := m.s;
    match v
    case CancelWait(id, now) =>
      if s.calls[id].taskId.None? then s.tasks
      else Tasks.SetStatus(s.tasks, s.calls[id].taskId.value, Tasks.Cancelled, now)
    case Finish(id, klass, isError, now) =>
      if s.calls[id].taskId.None? then s.tasks
      else Tasks.SetStatus(s.tasks, s.calls[id].taskId.value, Outcome(klass, isError), now)
    case CancelOrphan(tid, now) => Tasks.SetStatus(s.tasks, tid, Tasks.Cancelled, now)
    case Sweep(now) => Tasks.Sweep(s.tasks, now)
    case NewTask(task, now) => Tasks.Insert(s.tasks, cfg.maxTasks, s.nextId, task, now)
    case _ => s.tasks
  }

  function SlotsAfter(cfg: Config, m: Mach, v: Move): Circuit.Slots {
    match v
    case Read(backend, now) =>
      m.s.slots[backend := Circuit.MaybeHalfOpen(Circuit.SlotOf(m.s.slots, backend), now)]
    case Weigh(backend, report) =>
      m.s.slots[backend := Circuit.Apply(cfg.circuit, Circuit.SlotOf(m.s.slots, backend), report)]
    case _ => m.s.slots
  }

  function LiveAfter(m: Mach, v: Move): set<nat> {
    match v
    case Launch(_, _, _, _) => m.s.live + {m.s.nextId}
    case Destroy(id) => m.s.live - {id}
    case _ => m.s.live
  }

  function ByTaskAfter(cfg: Config, m: Mach, v: Move): map<nat, nat>
    requires Valid(cfg, m, v)
  {
    match v
    case Attach(id, tid) => m.s.byTask[tid := id]
    case Destroy(id) =>
      if m.s.calls[id].taskId.Some? then m.s.byTask - {m.s.calls[id].taskId.value} else m.s.byTask
    case _ => m.s.byTask
  }

  function NextIdAfter(m: Mach, v: Move): nat {
    if v.Launch? || v.NewTask? then m.s.nextId + 1 else m.s.nextId
  }

  function PermitsAfter(cfg: Config, m: Mach, v: Move): seq<Permit>
    requires Valid(cfg, m, v)
  {
    match v
    case Issue(key, req) => m.permits + [Held(key, req.who.agentId)]
    case GiveBack(_) => m.permits[..|m.permits| - 1]
    case Launch(_, _, _, _) => m.permits[..|m.permits| - 1]
    case Destroy(id) => m.permits + [m.s.calls[id].permit]
    case _ => m.permits
  }

  function RequestsAfter(cfg: Config, m: Mach, v: Move): multiset<nat>
    requires Valid(cfg, m, v)
  {
    match v
    case Accept(req) => m.requests + multiset{req.id}
    case Reply(req, _) => m.requests - multiset{req.id}
    case TakeOut(ts, i) => m.requests + multiset{Queue(m.s.gov, ts)[i].req.id}
    case Push(req, _, _) => m.requests - multiset{req.id}
    case Launch(req, _, _, _) => m.requests - multiset{req.id}
    case _ => m.requests
  }

  function Do(cfg: Config, m: Mach, v: Move): Mach
    requires Valid(cfg, m, v)
  {
    Mach(St(GovAfter(cfg, m, v),
            InflightAfter(cfg, m, v),
            TasksAfter(cfg, m, v),
            SlotsAfter(cfg, m, v),
            CallsAfter(cfg, m, v),
            LiveAfter(m, v),
            ByTaskAfter(cfg, m, v),
            v.StartDraining? || m.s.stopping,
            NextIdAfter(m, v),
            if v.Accept? then m.s.arrivals + 1 else m.s.arrivals,
            LogAfter(cfg, m, v)),
         PermitsAfter(cfg, m, v),
         RequestsAfter(cfg, m, v),
         m.clean)
  }
}
