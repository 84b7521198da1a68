/** The call-governance engine as a state machine: what every event of the loop does to the tables of
    the governor, the in-flight index, the task store, the breaker and the live calls
    (src/pipeline/Pipeline.cpp, src/govern/LocalGovernor.cpp, src/govern/Governor.cpp).

    Continuations are defunctionalised: a queued callback is the Waiter that captured its request, a
    pending upstream callback is `outstanding`, an armed promote timer is `timer`. The functions below
    call each other exactly as the callbacks do, so dropping a permit runs releaseSlot, tryDequeue and
    the next waiter's callback, which may drop its own permit. */
module Engine {
  import opened Options
  import opened ToolKeys
  import opened Access
  import opened Bags
  import InFlightTable
  import Tasks
  import Circuit
  import Retry

  datatype ToolStatus = Unvalidated | Active | Invalid

  datatype ToolCfg = ToolCfg(maxConcurrency: int, queueWaitMs: nat, status: ToolStatus)

  datatype Config = Config(
    catalog: Catalog,
    tools: map<string, ToolCfg>,
    perTool: int,
    perPrincipal: int,
    queueWaitMs: nat,
    taskTtlMs: nat,
    maxTasks: nat,
    circuit: Circuit.Params,
    retry: Retry.Policy)

  /** One tools/call. `id` is its arrival number; `confirm` is the in-flight id inside an "if_" token. */
  datatype Request = Request(
    id: nat,
    name: string,
    who: Principal,
    hash: string,
    confirm: Option<nat>,
    tasksCap: bool,
    deadline: nat)

  /** A slot of one tool, owned by whoever holds the permit. */
  datatype Permit = NotHeld | Held(key: ToolKey, agent: string)

  datatype Waiter = Waiter(id: nat, req: Request, key: ToolKey, deadline: nat)

  datatype Call = Call(
    req: Request,
    key: ToolKey,
    permit: Permit,
    startedAt: nat,
    taskId: Option<nat>,
    responded: bool,
    cancelled: bool,
    upstreamDone: bool,
    attempt: nat,
    outstanding: nat,
    timer: bool)

  datatype Reply =
    | UnknownTool
    | NotAllowed
    | BuiltinResult
    | StillRunning(inflightId: nat)
    | Handle(inflightId: nat, taskId: nat, task: Tasks.Task)
    | TaskStoreFull
    | TaskNotFound
    | Draining
    | Throttled
    | UpstreamUnavailable
    | MissingCapability
    | CallCancelled
    | Result(klass: Retry.Klass, isError: bool)

  /** How a request came to be inserted into the in-flight table. */
  datatype Via = Direct | Confirmed | Queued

  /** What the outside world, or a counter, can see of a run. */
  datatype Action =
    | Replied(req: Request, reply: Reply)
    | Admitted(req: Request, tool: string)
    | Inserted(id: nat, req: Request, mapKey: string, overwrote: bool, via: Via)
    | Fired(id: nat, req: Request)
    | Returned(id: nat, klass: Retry.Klass)

  /** The governor's tables; `tools` is its own copy of the configuration. */
  datatype Gov = Gov(
    tools: map<string, ToolCfg>,
    toolUse: map<string, int>,
    agentUse: map<string, int>,
    held: int,
    queues: map<string, seq<Waiter>>,
    nextWait: nat)

  /** `calls` are the Call objects in existence; `live` and `byTask` are the pipeline's weak tables. */
  datatype St = St(
    gov: Gov,
    inflight: InFlightTable.Table,
    tasks: Tasks.Store,
    slots: Circuit.Slots,
    calls: map<nat, Call>,
    live: set<nat>,
    byTask: map<nat, nat>,
    stopping: bool,
    nextId: nat,
    arrivals: nat,
    log: seq<Action>)

  /** What an event reads from outside: the clock, and the upstreams the prober holds to be down. */
  datatype Env = Env(now: nat, down: set<string>)

  function Init(cfg: Config): St {
    St(Gov(cfg.tools, map[], map[], 0, map[], 1), InFlightTable.EMPTY, map[], map[], map[], {}, map[],
       false, 0, 0, [])
  }

  function Get(m: map<string, int>, k: string): int {
    if k in m then m[k] else 0
  }

  // ------------------------------------------------------------------ governor tables

  function ToolLimit(cfg: Config, g: Gov, ts: string): int {
    if ts in g.tools && g.tools[ts].status.Active? && g.tools[ts].maxConcurrency > 0
    then g.tools[ts].maxConcurrency
    else cfg.perTool
  }

  function ToolWait(cfg: Config, g: Gov, ts: string): nat {
    if ts in g.tools && g.tools[ts].status.Active? && g.tools[ts].queueWaitMs > 0
    then g.tools[ts].queueWaitMs
    else cfg.queueWaitMs
  }

  predicate CanTake(cfg: Config, g: Gov, ts: string, agent: string) {
    Get(g.toolUse, ts) < ToolLimit(cfg, g, ts) && Get(g.agentUse, agent) < cfg.perPrincipal
  }

  function Take(g: Gov, ts: string, agent: string): Gov {
    g.(toolUse := g.toolUse[ts := Get(g.toolUse, ts) + 1],
       agentUse := g.agentUse[agent := Get(g.agentUse, agent) + 1],
       held := g.held + 1)
  }

  function Decrement(m: map<string, int>, k: string): map<string, int> {
    if k in m && m[k] > 0 then m[k := m[k] - 1] else m
  }

  /** The bookkeeping half of releaseSlot. */
  function GiveBack(g: Gov, ts: string, agent: string): Gov {
    g.(toolUse := Decrement(g.toolUse, ts), agentUse := Decrement(g.agentUse, agent), held := g.held - 1)
  }

  function Queue(g: Gov, ts: string): seq<Waiter> {
    if ts in g.queues then g.queues[ts] else []
  }

  function SetQueue(g: Gov, ts: string, q: seq<Waiter>): Gov {
    g.(queues := g.queues[ts := q])
  }

  function Push(g: Gov, ts: string, req: Request, key: ToolKey, deadline: nat): Gov {
    SetQueue(g, ts, Queue(g, ts) + [Waiter(g.nextWait, req, key, deadline)]).(nextWait := g.nextWait + 1)
  }

  /** Position of a waiter in a queue, or its length when it is gone. */
  function FindWaiter(q: seq<Waiter>, id: nat): (i: nat)
    ensures i <= |q| && (i < |q| ==> q[i].id == id)
    ensures forall j :: 0 <= j < i ==> q[j].id != id
  {
    if q == [] || q[0].id == id then 0 else 1 + FindWaiter(q[1..], id)
  }

  function Listing(backend: string, tools: set<string>, ts: string, tc: ToolCfg): ToolCfg {
    var parsed := Parse(ts);
    if parsed.None? || parsed.value.backend != backend then tc
    else if parsed.value.tool in tools then tc.(status := Active)
    else tc.(status := Invalid)
  }

  function OnToolsListed(cfg: Config, g: Gov, backend: string, tools: set<string>): Gov {
    g.(tools := map ts | ts in g.tools :: Listing(backend, tools, ts, g.tools[ts]))
  }

  // ------------------------------------------------------------------ bags of requests

  function Ids(q: seq<Waiter>): seq<nat> {
    seq(|q|, i requires 0 <= i < |q| => q[i].req.id)
  }

  function WaitingIn(q: seq<Waiter>): multiset<nat> {
    multiset(Ids(q))
  }

  ghost function WaitingBag(queues: map<string, seq<Waiter>>): multiset<nat> {
    MapBag(queues, WaitingIn)
  }

  lemma WaitingInSplit(a: seq<Waiter>, b: seq<Waiter>)
    ensures WaitingIn(a + b) == WaitingIn(a) + WaitingIn(b)
  {
    assert Ids(a + b) == Ids(a) + Ids(b);
  }

  lemma WaitingInOne(w: Waiter)
    ensures WaitingIn([w]) == multiset{w.req.id}
  {
    assert Ids([w]) == [w.req.id];
  }

  lemma WaitingAtSet(g: Gov, ts: string, q: seq<Waiter>)
    ensures forall r :: WaitingBag(SetQueue(g, ts, q).queues)[r] + WaitingIn(Queue(g, ts))[r]
                     == WaitingBag(g.queues)[r] + WaitingIn(q)[r]
  {
    MapBagUpdateAt(g.queues, WaitingIn, ts, q);
    assert Ids([]) == [];
  }

  lemma WaitingBagSet(g: Gov, ts: string, q: seq<Waiter>)
    ensures WaitingBag(SetQueue(g, ts, q).queues) + WaitingIn(Queue(g, ts))
         == WaitingBag(g.queues) + WaitingIn(q)
  {
    MapBagUpdate(g.queues, WaitingIn, ts, q);
    assert Ids([]) == [];
  }

  /** Taking one waiter out of a queue takes exactly its request out of the waiting bag. */
  lemma TakeOut(g: Gov, ts: string, i: nat)
    requires i < |Queue(g, ts)|
    ensures WaitingBag(SetQueue(g, ts, Queue(g, ts)[..i] + Queue(g, ts)[i + 1..]).queues)
            + multiset{Queue(g, ts)[i].req.id} == WaitingBag(g.queues)
  {
    var q := Queue(g, ts);
    WaitingBagSet(g, ts, q[..i] + q[i + 1..]);
    assert q == q[..i] + ([q[i]] + q[i + 1..]);
    WaitingInSplit(q[..i], [q[i]] + q[i + 1..]);
    WaitingInSplit([q[i]], q[i + 1..]);
    WaitingInSplit(q[..i], q[i + 1..]);
    WaitingInOne(q[i]);
    CancelLeft(WaitingBag(SetQueue(g, ts, q[..i] + q[i + 1..]).queues), multiset{q[i].req.id},
               WaitingIn(q[..i] + q[i + 1..]), WaitingBag(g.queues));
  }

  lemma CancelLeft(after: multiset<nat>, one: multiset<nat>, rest: multiset<nat>, before: multiset<nat>)
    requires after + (one + rest) == before + rest
    ensures after + one == before
  {
    forall x ensures (after + one)[x] == before[x] {
      assert (after + (one + rest))[x] == (before + rest)[x];
    }
  }

  lemma PopShrinks(g: Gov, ts: string)
    requires Queue(g, ts) != []
    ensures WaitingBag(SetQueue(g, ts, Queue(g, ts)[1..]).queues) + multiset{Queue(g, ts)[0].req.id}
         == WaitingBag(g.queues)
    ensures |WaitingBag(SetQueue(g, ts, Queue(g, ts)[1..]).queues)| < |WaitingBag(g.queues)|
  {
    TakeOut(g, ts, 0);
    assert Queue(g, ts)[..0] + Queue(g, ts)[1..] == Queue(g, ts)[1..];
    var after := WaitingBag(SetQueue(g, ts, Queue(g, ts)[1..]).queues);
    assert |after + multiset{Queue(g, ts)[0].req.id}| == |after| + 1;
  }

  // ------------------------------------------------------------------ calls

  function Emit(s: St, a: Action): St {
    s.(log := s.log + [a])
  }

  function Answer(s: St, req: Request, reply: Reply): St {
    Emit(s, Replied(req, reply))
  }

  function SetCall(s: St, id: nat, c: Call): St {
    s.(calls := s.calls[id := c])
  }

  function Respond(s: St, id: nat, reply: Reply): St
    requires id in s.calls
  {
    var c := s.calls[id];
    if c.responded then s else SetCall(Answer(s, c.req, reply), id, c.(responded := true))
  }

  function SetStatus(s: St, taskId: nat, status: Tasks.Status, now: nat): St {
    s.(tasks := Tasks.SetStatus(s.tasks, taskId, status, now))
  }

  function CancelWait(s: St, id: nat, now: nat): St
    requires id in s.calls
  {
    var s1 := SetCall(s, id, s.calls[id].(cancelled := true));
    var s2 := Respond(s1, id, CallCancelled);
    if s.calls[id].taskId.Some? then SetStatus(s2, s.calls[id].taskId.value, Tasks.Cancelled, now) else s2
  }

  function AttachTask(s: St, id: nat, taskId: nat): St
    requires id in s.calls
  {
    s.(calls := s.calls[id := s.calls[id].(taskId := Some(taskId))],
       byTask := s.byTask[taskId := id],
       inflight := InFlightTable.SetTaskId(s.inflight, id, taskId))
  }

  function FireAttempt(s: St, id: nat): St
    requires id in s.calls
  {
    var c := s.calls[id];
    SetCall(Emit(s, Fired(id, c.req)), id,
            c.(attempt := c.attempt + 1,
               timer := c.timer || c.attempt == 0,
               outstanding := c.outstanding + 1))
  }

  function NewEntry(s: St, req: Request, key: ToolKey, now: nat): InFlightTable.Entry {
    InFlightTable.Entry(s.nextId, now, None, key, req.who.agentId, req.hash)
  }

  function KeyFor(req: Request, key: ToolKey): string {
    InFlightTable.MapKey(req.who.agentId, Str(key), req.hash)
  }

  /** What an insert leaves on record. */
  function Insertion(s: St, req: Request, key: ToolKey, via: Via): Action {
    Inserted(s.nextId, req, KeyFor(req, key), KeyFor(req, key) in s.inflight.keyToId, via)
  }

  /** InFlight.insert, the Call constructor, and its entry in the live table. */
  function CreateCall(s: St, req: Request, key: ToolKey, permit: Permit, via: Via, now: nat): St {
    var e := NewEntry(s, req, key, now);
    Emit(s, Insertion(s, req, key, via)).(
      inflight := InFlightTable.Insert(s.inflight, e),
      calls := s.calls[e.id := Call(req, key, permit, now, None, false, false, false, 0, 0, false)],
      live := s.live + {e.id},
      nextId := s.nextId + 1)
  }

  function NewTask(cfg: Config, agent: string, key: ToolKey, createdAt: nat, now: nat): Tasks.Task {
    Tasks.Task(agent, key, Tasks.Working, createdAt, now, cfg.taskTtlMs)
  }

  /** A fresh id for a task, and the attempt to store it. */
  function AddTask(cfg: Config, s: St, task: Tasks.Task, now: nat): St {
    s.(nextId := s.nextId + 1, tasks := Tasks.Insert(s.tasks, cfg.maxTasks, s.nextId, task, now))
  }

  // ------------------------------------------------------------------ admission, re-entrant

  function Issue(s: St, ts: string, req: Request): St {
    Emit(s, Admitted(req, ts)).(gov := Take(s.gov, ts, req.who.agentId))
  }

  /** The callback handed to acquire. It runs with a held permit on Go, and without one on Reject. */
  function OnAdmit(cfg: Config, s: St, req: Request, key: ToolKey, permit: Permit, via: Via, env: Env): St
    decreases |WaitingBag(s.gov.queues)|, 3
  {
    if permit.NotHeld? then Answer(s, req, Throttled)
    else
      var slot := Circuit.MaybeHalfOpen(Circuit.SlotOf(s.slots, key.backend), env.now);
      var s1 := s.(slots := s.slots[key.backend := slot]);
      if slot.st.Open? || key.backend in env.down
      then DropPermit(cfg, Answer(s1, req, UpstreamUnavailable), permit, env)
      else FireAttempt(CreateCall(s1, req, key, permit, via, env.now), s1.nextId)
  }

  /** The destructor of a permit: the only way a slot comes back. */
  function DropPermit(cfg: Config, s: St, permit: Permit, env: Env): St
    decreases |WaitingBag(s.gov.queues)|, 2
  {
    if permit.NotHeld? then s else ReleaseSlot(cfg, s, permit.key, permit.agent, env)
  }

  function ReleaseSlot(cfg: Config, s: St, key: ToolKey, agent: string, env: Env): St
    decreases |WaitingBag(s.gov.queues)|, 1
  {
    TryDequeue(cfg, s.(gov := GiveBack(s.gov, Str(key), agent)), Str(key), env)
  }

  function TryDequeue(cfg: Config, s: St, ts: string, env: Env): St
    decreases |WaitingBag(s.gov.queues)|, 0
  {
    var q := Queue(s.gov, ts);
    if q == [] || !CanTake(cfg, s.gov, ts, q[0].req.who.agentId) then s
    else
      var w := q[0];
      PopShrinks(s.gov, ts);
      var s1 := s.(gov := SetQueue(s.gov, ts, q[1..]));
      if env.now >= w.deadline then TryDequeue(cfg, Answer(s1, w.req, Throttled), ts, env)
      else OnAdmit(cfg, Issue(s1, ts, w.req), w.req, w.key, Held(w.key, w.req.who.agentId), Queued, env)
  }

  function Acquire(cfg: Config, s: St, req: Request, key: ToolKey, waitDeadline: nat, via: Via, env: Env): St {
    var ts := Str(key);
    if CanTake(cfg, s.gov, ts, req.who.agentId)
    then OnAdmit(cfg, Issue(s, ts, req), req, key, Held(key, req.who.agentId), via, env)
    else
      var deadline := if waitDeadline == 0 then env.now + ToolWait(cfg, s.gov, ts) else waitDeadline;
      if deadline <= env.now then OnAdmit(cfg, s, req, key, NotHeld, via, env)
      else s.(gov := Push(s.gov, ts, req, key, deadline))
  }

  /** Permit move-assignment: the slot held so far is given back, then the other one is taken over. */
  function MoveAssign(cfg: Config, s: St, dst: Permit, src: Permit, env: Env): (St, Permit, Permit) {
    (DropPermit(cfg, s, dst, env), src, NotHeld)
  }

  // ------------------------------------------------------------------ events

  /** A request whose key is already in flight, and which did not confirm it. */
  function OnDuplicate(cfg: Config, s: St, req: Request, hit: InFlightTable.Entry, env: Env): St {
    if !req.tasksCap then Answer(s, req, StillRunning(hit.id))
    else
      var orig := hit.id in s.live && hit.id in s.calls;
      var known := if hit.taskId.Some? then hit.taskId
                   else if orig then s.calls[hit.id].taskId else None;
      if known.Some? then HandOut(s, req, hit.id, known.value, env.now)
      else
        var tid := s.nextId;
        var task := NewTask(cfg, req.who.agentId, hit.key, hit.startedAt, env.now);
        var s1 := AddTask(cfg, s, task, env.now);
        if !Tasks.HasRoom(s.tasks, cfg.maxTasks, tid, env.now) then Answer(s1, req, TaskStoreFull)
        else if orig then HandOut(AttachTask(s1, hit.id, tid), req, hit.id, tid, env.now)
        else HandOut(s1.(inflight := InFlightTable.SetTaskId(s1.inflight, hit.id, tid)), req, hit.id, tid, env.now)
  }

  function HandOut(s: St, req: Request, id: nat, taskId: nat, now: nat): St {
    var s1 := s.(tasks := Tasks.Sweep(s.tasks, now));
    match Tasks.Find(s.tasks, taskId, now)
    case None => Answer(s1, req, TaskNotFound)
    case Some(t) => Answer(s1, req, Handle(id, taskId, t))
  }

  function WaitDeadline(cfg: Config, ts: string, now: nat): nat {
    now + if ts in cfg.tools && cfg.tools[ts].queueWaitMs > 0 then cfg.tools[ts].queueWaitMs else cfg.queueWaitMs
  }

  function HandleCall(cfg: Config, s: St, req: Request, env: Env): St {
    match Parse(req.name)
    case None => Answer(s, req, UnknownTool)
    case Some(key) =>
      match Authorize(cfg.catalog, req.who, key)
      case Unknown => Answer(s, req, UnknownTool)
      case Deny => Answer(s, req, NotAllowed)
      case Allow =>
        if key.backend == BUILTIN then Answer(s, req, BuiltinResult)
        else Route(cfg, s, req, key, env)
  }

  /** The tool whose slot a request is going to ask for, if handleCall does not answer it right away. */
  function ToGovernor(cfg: Config, s: St, req: Request): Option<ToolKey> {
    var parsed := Parse(req.name);
    if parsed.None? || !Authorize(cfg.catalog, req.who, parsed.value).Allow? || parsed.value.backend == BUILTIN
    then None
    else
      var hit := InFlightTable.Lookup(s.inflight, req.who.agentId, Str(parsed.value), req.hash);
      if s.stopping || (hit.Some? && req.confirm != Some(hit.value.id)) then None else parsed
  }

  function ViaOf(s: St, req: Request, key: ToolKey): Via {
    if InFlightTable.Lookup(s.inflight, req.who.agentId, Str(key), req.hash).Some? then Confirmed else Direct
  }

  /** The steps of handleCall from the in-flight lookup on. */
  function Route(cfg: Config, s: St, req: Request, key: ToolKey, env: Env): St {
    var hit := InFlightTable.Lookup(s.inflight, req.who.agentId, Str(key), req.hash);
    if hit.Some? && req.confirm != Some(hit.value.id) then OnDuplicate(cfg, s, req, hit.value, env)
    else if s.stopping then Answer(s, req, Draining)
    else Acquire(cfg, s, req, key, WaitDeadline(cfg, Str(key), env.now),
                 if hit.Some? then Confirmed else Direct, env)
  }

  /** A tools/call message gets the next arrival number. */
  function Arrived(s: St): St { s.(arrivals := s.arrivals + 1) }

  function Stamped(s: St, req: Request): Request { req.(id := s.arrivals) }

  function OnWaitTimer(s: St, ts: string, waitId: nat): St {
    var q := Queue(s.gov, ts);
    var i := FindWaiter(q, waitId);
    if i == |q| then s
    else Answer(s.(gov := SetQueue(s.gov, ts, q[..i] + q[i + 1..])), q[i].req, Throttled)
  }

  function OnPromote(cfg: Config, s: St, id: nat, now: nat): St
    requires id in s.calls
  {
    var c := s.calls[id];
    if c.responded || c.cancelled then s
    else if !c.req.tasksCap then Respond(s, id, MissingCapability)
    else if c.taskId.Some? then PromoteTo(s, id, c.taskId.value, now)
    else
      var tid := s.nextId;
      var task := NewTask(cfg, c.req.who.agentId, c.key, c.startedAt, now);
      var s1 := AddTask(cfg, s, task, now);
      if !Tasks.HasRoom(s.tasks, cfg.maxTasks, tid, now) then Respond(s1, id, TaskStoreFull)
      else PromoteTo(AttachTask(s1, id, tid), id, tid, now)
  }

  function PromoteTo(s: St, id: nat, taskId: nat, now: nat): St
    requires id in s.calls
  {
    var s1 := s.(tasks := Tasks.Sweep(s.tasks, now));
    match Tasks.Find(s.tasks, taskId, now)
    case None => Respond(s1, id, TaskNotFound)
    case Some(t) => Respond(s1, id, Handle(id, taskId, t))
  }

  /** What an upstream answer does to the breaker; the retry decision uses the value read before. */
  function Judge(cfg: Config, slots: Circuit.Slots, backend: string, good: bool, now: nat): Circuit.Slots {
    var read := Circuit.MaybeHalfOpen(Circuit.SlotOf(slots, backend), now);
    slots[backend := if good then Circuit.AfterSuccess(cfg.circuit, read)
                     else Circuit.AfterFailure(cfg.circuit, read, now).0]
  }

  predicate Retries(cfg: Config, slots: Circuit.Slots, c: Call, klass: Retry.Klass, now: nat) {
    var open := Circuit.MaybeHalfOpen(Circuit.SlotOf(slots, c.key.backend), now).st.Open?;
    var idempotent := if c.key.backend in cfg.catalog then cfg.catalog[c.key.backend].idempotentTools else [];
    var outstanding := c.responded || c.cancelled || klass == Retry.Timeout || klass == Retry.Cancelled;
    && !c.responded && !c.cancelled
    && Retry.MayRetry(cfg.retry, klass, c.key.tool, idempotent, c.attempt, c.req.deadline, open, outstanding, now)
  }

  function Outcome(klass: Retry.Klass, isError: bool): Tasks.Status {
    if klass == Retry.Ok && !isError then Tasks.Completed else Tasks.Failed
  }

  /** An upstream answer is off the wire. */
  function Received(s: St, id: nat, klass: Retry.Klass): St
    requires id in s.calls && s.calls[id].outstanding > 0
  {
    SetCall(Emit(s, Returned(id, klass)), id, s.calls[id].(outstanding := s.calls[id].outstanding - 1))
  }

  /** No further attempt: the timer is off, the task settled, the request answered unless it was before. */
  function Conclude(s: St, id: nat, klass: Retry.Klass, isError: bool, now: nat): St
    requires id in s.calls
  {
    var c := s.calls[id];
    var s1 := SetCall(s, id, c.(upstreamDone := true, timer := false));
    var s2 := if c.taskId.Some? then SetStatus(s1, c.taskId.value, Outcome(klass, isError), now) else s1;
    Respond(s2, id, Result(klass, isError))
  }

  function OnUpstream(cfg: Config, s: St, id: nat, klass: Retry.Klass, isError: bool, now: nat): St
    requires id in s.calls && s.calls[id].outstanding > 0
  {
    var s1 := Received(s, id, klass);
    var c := s1.calls[id];
    if c.cancelled then SetCall(s1, id, c.(upstreamDone := true))
    else
      var s2 := s1.(slots := Judge(cfg, s.slots, c.key.backend, klass == Retry.Ok && !isError, now));
      if Retries(cfg, s.slots, c, klass, now) then FireAttempt(s2, id)
      else Conclude(s2, id, klass, isError, now)
  }

  /** The destructor of a call, up to the destruction of its permit. */
  function Destroy(s: St, id: nat): St
    requires id in s.calls
  {
    var s1 := Respond(s, id, CallCancelled);
    var c := s.calls[id];
    s1.(inflight := InFlightTable.Erase(s1.inflight, id),
        byTask := if c.taskId.Some? then s1.byTask - {c.taskId.value} else s1.byTask,
        live := s1.live - {id},
        calls := s1.calls - {id})
  }

  function OnCancel(s: St, taskId: nat, agent: string, now: nat): St {
    var s1 := s.(tasks := Tasks.Sweep(s.tasks, now));
    match Tasks.Find(s.tasks, taskId, now)
    case None => s1
    case Some(t) =>
      if t.agent != agent then s1
      else
        var s2 := SetStatus(s1, taskId, Tasks.Cancelled, now);
        if taskId in s2.byTask && s2.byTask[taskId] in s2.calls
        then CancelWait(s2, s2.byTask[taskId], now)
        else s2
  }

  /** requestStop visits the live table in `order`. */
  function CancelAll(s: St, order: seq<nat>, now: nat): St
    decreases |order|
  {
    if order == [] then s
    else
      CancelAll(if order[0] in s.calls then CancelWait(s, order[0], now) else s, order[1..], now)
  }

  function RejectQueue(s: St, ts: string): St
    decreases |Queue(s.gov, ts)|
  {
    var q := Queue(s.gov, ts);
    if q == [] then s
    else RejectQueue(Answer(s.(gov := SetQueue(s.gov, ts, q[1..])), q[0].req, Throttled), ts)
  }

  /** rejectAllQueued visits the queues in `order`. */
  function RejectAll(s: St, order: seq<string>): St
    decreases |order|
  {
    if order == [] then s else RejectAll(RejectQueue(s, order[0]), order[1..])
  }

  datatype Event =
    | Arrive(req: Request)
    | WaitTimer(tool: string, waitId: nat)
    | Promote(id: nat)
    | Upstream(id: nat, klass: Retry.Klass, isError: bool)
    | Drop(id: nat)
    | TaskGet
    | TaskCancel(taskId: nat, agent: string)
    | Stop(calls: seq<nat>, queues: seq<string>)
    | ToolsListed(backend: string, tools: set<string>)
    | ProbeOk(backend: string)

  /** A call object dies once neither the timer nor an upstream callback holds it. */
  predicate Unowned(c: Call) {
    !c.timer && c.outstanding == 0
  }

  predicate Enabled(s: St, e: Event) {
    match e
    case Promote(id) => id in s.calls && s.calls[id].timer
    case Upstream(id, _, _) => id in s.calls && s.calls[id].outstanding > 0
    case Drop(id) => id in s.calls && Unowned(s.calls[id])
    case Stop(calls, queues) =>
      && (forall id :: id in calls ==> id in s.live)
      && (forall id :: id in s.live ==> id in calls)
      && (forall ts :: ts in s.gov.queues ==> ts in queues)
    case _ => true
  }

  /** One turn of the loop; an event that is not enabled leaves the state alone. */
  function Step(cfg: Config, s: St, e: Event, env: Env): St {
    if !Enabled(s, e) then s
    else
      match e
      case Arrive(req) => HandleCall(cfg, Arrived(s), Stamped(s, req), env)
      case WaitTimer(ts, waitId) => OnWaitTimer(s, ts, waitId)
      case Promote(id) =>
        var s1 := OnPromote(cfg, s, id, env.now);
        SetCall(s1, id, s1.calls[id].(timer := false))
      case Upstream(id, klass, isError) => OnUpstream(cfg, s, id, klass, isError, env.now)
      case Drop(id) => DropPermit(cfg, Destroy(s, id), s.calls[id].permit, env)
      case TaskGet => s.(tasks := Tasks.Sweep(s.tasks, env.now))
      case TaskCancel(taskId, agent) => OnCancel(s, taskId, agent, env.now)
      case Stop(calls, queues) => RejectAll(CancelAll(s.(stopping := true), calls, env.now), queues)
      case ToolsListed(backend, tools) => s.(gov := OnToolsListed(cfg, s.gov, backend, tools))
      case ProbeOk(backend) =>
        s.(slots := s.slots[backend := Circuit.AfterProbe(cfg.circuit, Circuit.SlotOf(s.slots, backend))])
  }

  datatype Turn = Turn(event: Event, env: Env)

  function RunFrom(cfg: Config, s: St, turns: seq<Turn>): St {
    if turns == [] then s
    else
      var last := turns[|turns| - 1];
      Step(cfg, RunFrom(cfg, s, turns[..|turns| - 1]), last.event, last.env)
  }

  function Run(cfg: Config, turns: seq<Turn>): St {
    RunFrom(cfg, Init(cfg), turns)
  }
}
