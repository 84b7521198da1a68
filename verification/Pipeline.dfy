/** The pipeline and its calls as objects that change in place (src/pipeline/Pipeline.cpp). Every method
    is proved against the engine function of the same name, so all that is proved about runs of the
    engine holds of this code. The requests that have their reply are recorded in `log`. */
module Pipeline {
  import opened Options
  import opened ToolKeys
  import opened Access
  import opened Engine
  import opened Governor
  import InFlightTable
  import Tasks
  import Circuit
  import Retry

  /** One upstream call. `outstanding` and `timer` say which closures keep the object alive. */
  class Call {
    const id: nat
    const req: Request
    const key: ToolKey
    const startedAt: nat
    var permit: Permit
    var taskId: Option<nat>
    var responded: bool
    var cancelled: bool
    var upstreamDone: bool
    var attempt: nat
    var outstanding: nat
    var timer: bool

    ghost function Value(): Engine.Call
      reads this
    {
      Engine.Call(req, key, permit, startedAt, taskId, responded, cancelled, upstreamDone, attempt,
                  outstanding, timer)
    }

    constructor (id: nat, req: Request, key: ToolKey, permit: Permit, now: nat)
      ensures this.id == id
      ensures Value() == Engine.Call(req, key, permit, now, None, false, false, false, 0, 0, false)
    {
      this.id, this.req, this.key, startedAt := id, req, key, now;
      this.permit, taskId := permit, None;
      responded, cancelled, upstreamDone, timer := false, false, false, false;
      attempt, outstanding := 0, 0;
    }

    /** One more attempt is on its way; the first one arms the promote timer. */
    method Sent()
      modifies this
      ensures Value() == old(Value()).(attempt := old(attempt) + 1, timer := old(timer) || old(attempt) == 0,
                                       outstanding := old(outstanding) + 1)
    {
      attempt := attempt + 1;
      if attempt == 1 { timer := true; }
      outstanding := outstanding + 1;
    }
  }

  /** A permit as an object that can be moved from and assigned to (src/govern/Governor.cpp). */
  class PermitBox {
    var permit: Permit

    constructor (permit: Permit)
      ensures this.permit == permit
    {
      this.permit := permit;
    }
  }

  lemma NothingDequeued(cfg: Config, s: St, ts: string, env: Env)
    requires Queue(s.gov, ts) == [] || !CanTake(cfg, s.gov, ts, Queue(s.gov, ts)[0].req.who.agentId)
    ensures Engine.TryDequeue(cfg, s, ts, env) == s
  {
  }

  /** One round of the loop of tryDequeue. */
  lemma HeadDequeued(cfg: Config, s: St, ts: string, env: Env)
    requires Queue(s.gov, ts) != [] && CanTake(cfg, s.gov, ts, Queue(s.gov, ts)[0].req.who.agentId)
    ensures var w := Queue(s.gov, ts)[0];
            var s1 := s.(gov := SetQueue(s.gov, ts, Queue(s.gov, ts)[1..]));
            && |WaitingBag(s1.gov.queues)| < |WaitingBag(s.gov.queues)|
            && Engine.TryDequeue(cfg, s, ts, env)
               == if env.now >= w.deadline then Engine.TryDequeue(cfg, Engine.Answer(s1, w.req, Throttled), ts, env)
                  else Engine.OnAdmit(cfg, Engine.Issue(s1, ts, w.req), w.req, w.key,
                                      Held(w.key, w.req.who.agentId), Queued, env)
  {
    PopShrinks(s.gov, ts);
  }

  /** The breaker slot of a backend after it was read. */
  ghost function Read(s: St, backend: string, now: nat): (t: St)
    ensures backend in t.slots
  {
    s.(slots := s.slots[backend := Circuit.MaybeHalfOpen(Circuit.SlotOf(s.slots, backend), now)])
  }

  ghost function Decided(s: St, id: nat, klass: Retry.Klass, isError: bool, now: nat, again: bool): St
    requires id in s.calls
  {
    if again then Engine.FireAttempt(s, id) else Engine.Conclude(s, id, klass, isError, now)
  }

  lemma UpstreamInSteps(cfg: Config, s: St, id: nat, klass: Retry.Klass, isError: bool, now: nat, again: bool)
    requires id in s.calls && s.calls[id].outstanding > 0
    requires again == Retries(cfg, s.slots, Received(s, id, klass).calls[id], klass, now)
    ensures var r := Received(s, id, klass);
            var good := klass == Retry.Ok && !isError;
            Engine.OnUpstream(cfg, s, id, klass, isError, now)
            == if r.calls[id].cancelled then SetCall(r, id, r.calls[id].(upstreamDone := true))
               else Decided(r.(slots := Engine.Judge(cfg, s.slots, r.calls[id].key.backend, good, now)),
                            id, klass, isError, now, again)
  {
  }

  /** Counting an answer into a slot that has been read is counting it into the slot. */
  lemma JudgedInSteps(cfg: Config, slots: Circuit.Slots, server: string, good: bool, now: nat)
    ensures var read := Circuit.MaybeHalfOpen(Circuit.SlotOf(slots, server), now);
            var s1 := slots[server := read];
            Engine.Judge(cfg, slots, server, good, now)
            == s1[server := if good then Circuit.AfterSuccess(cfg.circuit, Circuit.SlotOf(s1, server))
                            else Circuit.AfterFailure(cfg.circuit, Circuit.SlotOf(s1, server), now).0]
  {
  }

  class Pipeline {
    const cfg: Config
    const gov: LocalGovernor
    const inflight: InFlightTable.InFlight
    const tasks: Tasks.MemTaskStore
    const circuit: Circuit.CountCircuit
    /** The call objects in existence, and the weak tables over them. */
    var calls: map<nat, Call>
    var live: set<nat>
    var byTask: map<nat, nat>
    var stopping: bool
    var nextId: nat
    var arrivals: nat
    ghost var log: seq<Action>

    ghost predicate Valid()
      reads this`calls, gov
    {
      && gov.Valid() && gov.cfg == cfg
      && tasks.maxTasks == cfg.maxTasks && circuit.p == cfg.circuit
      && forall id :: id in calls ==> calls[id].id == id
    }

    ghost function Objects(): set<object>
      reads this`calls
    {
      set id | id in calls :: calls[id]
    }

    ghost function Footprint(): set<object>
      reads this`calls
    {
      {this, gov, inflight, tasks, circuit} + Objects()
    }

    ghost function CallValues(): map<nat, Engine.Call>
      reads this`calls, Objects()
    {
      map id | id in calls :: assert calls[id] in Objects(); calls[id].Value()
    }

    /** The state of the engine that this object represents. */
    ghost function State(): St
      reads Footprint()
    {
      St(gov.Contents(), inflight.Contents(), tasks.byId, circuit.slots, CallValues(), live, byTask,
         stopping, nextId, arrivals, log)
    }

    constructor (cfg: Config)
      ensures Valid() && fresh(Footprint())
      ensures this.cfg == cfg.(maxTasks := if cfg.maxTasks == 0 then 1 else cfg.maxTasks)
      ensures State() == Init(this.cfg)
    {
      var c := cfg.(maxTasks := if cfg.maxTasks == 0 then 1 else cfg.maxTasks);
      this.cfg := c;
      gov := new LocalGovernor(c);
      inflight := new InFlightTable.InFlight();
      tasks := new Tasks.MemTaskStore(cfg.maxTasks);
      circuit := new Circuit.CountCircuit(cfg.circuit);
      calls, live, byTask, stopping, nextId, arrivals, log := map[], {}, map[], false, 0, 0, [];
    }

    // ---------------------------------------------------------------- replies and calls

    /** The transport's callback. */
    method Answer(req: Request, reply: Reply)
      requires Valid()
      modifies this`log
      ensures Valid() && State() == Engine.Answer(old(State()), req, reply)
    {
      log := log + [Replied(req, reply)];
    }

    /** Only the fields of one call have changed, and perhaps fields of the tables. */
    twostate lemma CallChanged(c: Call)
      requires old(Valid()) && calls == old(calls) && c.id in calls && calls[c.id] == c
      requires forall d :: d in Objects() && d != c ==> unchanged(d)
      ensures CallValues() == old(CallValues())[c.id := c.Value()]
    {
      forall id | id in calls && id != c.id ensures unchanged(calls[id]) {
        assert calls[id] in Objects() && calls[id] != c;
      }
    }

    method Respond(c: Call, reply: Reply)
      requires Valid() && c.id in calls && calls[c.id] == c
      modifies this`log, c
      ensures Valid() && State() == Engine.Respond(old(State()), c.id, reply)
      ensures c.taskId == old(c.taskId) && c.permit == old(c.permit)
    {
      if c.responded { return; }
      c.responded := true;
      log := log + [Replied(c.req, reply)];
      CallChanged(c);
    }

    method CancelWait(c: Call, now: nat)
      requires Valid() && c.id in calls && calls[c.id] == c
      modifies this`log, c, tasks
      ensures Valid() && State() == Engine.CancelWait(old(State()), c.id, now)
    {
      c.cancelled := true;
      CallChanged(c);
      ghost var s1 := SetCall(old(State()), c.id, old(c.Value()).(cancelled := true));
      assert State() == s1;
      Respond(c, CallCancelled);
      assert State() == Engine.Respond(s1, c.id, CallCancelled);
      if c.taskId.Some? { SetTaskStatus(c.taskId.value, Tasks.Cancelled, now); }
    }

    method SetTaskStatus(taskId: nat, status: Tasks.Status, now: nat)
      requires Valid()
      modifies tasks
      ensures Valid() && State() == Engine.SetStatus(old(State()), taskId, status, now)
    {
      tasks.UpdateStatus(taskId, status, now);
    }

    method AttachTask(c: Call, taskId: nat)
      requires Valid() && c.id in calls && calls[c.id] == c
      modifies this`byTask, c, inflight
      ensures Valid() && State() == Engine.AttachTask(old(State()), c.id, taskId) && c.taskId == Some(taskId)
    {
      c.taskId := Some(taskId);
      byTask := byTask[taskId := c.id];
      inflight.AttachTask(c.id, taskId);
      CallChanged(c);
    }

    method FireAttempt(c: Call)
      requires Valid() && c.id in calls && calls[c.id] == c
      modifies this`log, c
      ensures Valid() && State() == Engine.FireAttempt(old(State()), c.id)
    {
      ghost var s := State();
      assert s.calls[c.id] == c.Value();
      c.Sent();
      log := log + [Fired(c.id, c.req)];
      CallChanged(c);
      assert CallValues() == Engine.FireAttempt(s, c.id).calls;
    }

    // ---------------------------------------------------------------- admission, re-entrant

    /** A new call object joins the ones in existence. */
    twostate lemma CallAdded(new c: Call)
      requires old(Valid()) && fresh(c) && calls == old(calls)[c.id := c]
      requires forall d :: d in old(Objects()) ==> unchanged(d)
      ensures CallValues() == old(CallValues())[c.id := c.Value()]
      ensures fresh(Objects() - old(Objects()))
    {
      forall id | id in calls && id != c.id ensures unchanged(calls[id]) {
        assert calls[id] in old(Objects());
      }
    }

    method CreateCall(req: Request, key: ToolKey, permit: Permit, ghost via: Via, now: nat) returns (c: Call)
      requires Valid()
      modifies this`calls, this`live, this`nextId, this`log, inflight
      ensures Valid() && c.id in calls && calls[c.id] == c && c.id == old(nextId) && fresh(c)
      ensures State() == Engine.CreateCall(old(State()), req, key, permit, via, now)
      ensures fresh(Objects() - old(Objects()))
    {
      var id := nextId;
      nextId := nextId + 1;
      log := log + [Inserted(id, req, KeyFor(req, key), KeyFor(req, key) in inflight.keyToId, via)];
      inflight.Add(id, req.who.agentId, key, req.hash, now);
      c := new Call(id, req, key, permit, now);
      calls := calls[id := c];
      live := live + {id};
      CallAdded(c);
    }

    /** isOpen, which may move an expired slot to half-open. */
    method ReadBreaker(backend: string, now: nat) returns (open: bool)
      requires Valid()
      modifies circuit
      ensures Valid() && State() == Read(old(State()), backend, now)
      ensures open == State().slots[backend].st.Open?
    {
      open := circuit.IsOpen(backend, now);
    }

    /** The callback of acquire: without a permit the request is turned away, with one it is started
        unless its upstream is unavailable, and then the permit is dropped again. */
    method OnAdmit(req: Request, key: ToolKey, permit: Permit, ghost via: Via, env: Env)
      requires Valid()
      modifies Footprint()
      ensures Valid() && fresh(Objects() - old(Objects()))
      ensures State() == Engine.OnAdmit(cfg, old(State()), req, key, permit, via, env)
      decreases |WaitingBag(gov.queues)|, 4
    {
      if permit.NotHeld? {
        Answer(req, Throttled);
        return;
      }
      ghost var s1 := Read(State(), key.backend, env.now);
      var open := ReadBreaker(key.backend, env.now);
      assert State() == s1;
      if open || key.backend in env.down {
        Answer(req, UpstreamUnavailable);
        assert State() == Engine.Answer(s1, req, UpstreamUnavailable);
        DropPermit(permit, env);
        return;
      }
      StartUpstream(req, key, permit, via, env.now);
    }

    method StartUpstream(req: Request, key: ToolKey, permit: Permit, ghost via: Via, now: nat)
      requires Valid()
      modifies this`calls, this`live, this`nextId, this`log, inflight
      ensures Valid() && fresh(Objects() - old(Objects())) && gov.queues == old(gov.queues)
      ensures State() == Engine.FireAttempt(Engine.CreateCall(old(State()), req, key, permit, via, now), old(nextId))
    {
      var c := CreateCall(req, key, permit, via, now);
      FireAttempt(c);
    }

    method DropPermit(permit: Permit, env: Env)
      requires Valid()
      modifies Footprint()
      ensures Valid() && fresh(Objects() - old(Objects()))
      ensures State() == Engine.DropPermit(cfg, old(State()), permit, env)
      decreases |WaitingBag(gov.queues)|, 3
    {
      if permit.Held? { ReleaseSlot(permit.key, permit.agent, env); }
    }

    method ReleaseSlot(key: ToolKey, agent: string, env: Env)
      requires Valid()
      modifies Footprint()
      ensures Valid() && fresh(Objects() - old(Objects()))
      ensures State() == Engine.ReleaseSlot(cfg, old(State()), key, agent, env)
      decreases |WaitingBag(gov.queues)|, 2
    {
      ghost var s := State();
      gov.ReturnSlot(Str(key), agent);
      assert State() == s.(gov := Engine.GiveBack(s.gov, Str(key), agent));
      TryDequeue(Str(key), env);
    }

    method TryDequeue(ts: string, env: Env)
      requires Valid()
      modifies Footprint()
      ensures Valid() && fresh(Objects() - old(Objects()))
      ensures State() == Engine.TryDequeue(cfg, old(State()), ts, env)
      decreases |WaitingBag(gov.queues)|, 1
    {
      ghost var goal := Engine.TryDequeue(cfg, State(), ts, env);
      while ts in gov.queues && gov.queues[ts] != []
        invariant Valid() && calls == old(calls)
        invariant Engine.TryDequeue(cfg, State(), ts, env) == goal
        invariant |WaitingBag(gov.queues)| <= old(|WaitingBag(gov.queues)|)
        decreases |WaitingBag(gov.queues)|
      {
        var again := OfferHead(ts, env);
        if !again { return; }
      }
      NothingDequeued(cfg, State(), ts, env);
    }

    /** The body of that loop: the head of the queue cannot take a slot, is timed out, or is served. */
    method OfferHead(ts: string, env: Env) returns (again: bool)
      requires Valid() && Queue(gov.Contents(), ts) != []
      modifies Footprint()
      ensures Valid() && fresh(Objects() - old(Objects()))
      ensures again ==>
        && calls == old(calls) && |WaitingBag(gov.queues)| < old(|WaitingBag(gov.queues)|)
        && Engine.TryDequeue(cfg, State(), ts, env) == Engine.TryDequeue(cfg, old(State()), ts, env)
      ensures !again ==> State() == Engine.TryDequeue(cfg, old(State()), ts, env)
      decreases |WaitingBag(gov.queues)|, 0, 1
    {
      ghost var s := State();
      var ok := gov.MayTake(ts, gov.queues[ts][0].req.who.agentId);
      assert State() == s;
      if ok {
        again := ServeHead(ts, env);
      } else {
        NothingDequeued(cfg, s, ts, env);
        again := false;
      }
    }

    method PopHead(ts: string) returns (w: Waiter)
      requires Valid() && Queue(gov.Contents(), ts) != []
      modifies gov
      ensures Valid() && w == Queue(old(gov.Contents()), ts)[0] && Str(w.key) == ts
      ensures var s := old(State()); State() == s.(gov := SetQueue(s.gov, ts, Queue(s.gov, ts)[1..]))
    {
      w := gov.PopFront(ts);
    }

    method ServeHead(ts: string, env: Env) returns (again: bool)
      requires Valid() && Queue(gov.Contents(), ts) != []
      requires CanTake(cfg, gov.Contents(), ts, Queue(gov.Contents(), ts)[0].req.who.agentId)
      modifies Footprint()
      ensures Valid() && fresh(Objects() - old(Objects()))
      ensures again ==>
        && calls == old(calls) && |WaitingBag(gov.queues)| < old(|WaitingBag(gov.queues)|)
        && Engine.TryDequeue(cfg, State(), ts, env) == Engine.TryDequeue(cfg, old(State()), ts, env)
      ensures !again ==> State() == Engine.TryDequeue(cfg, old(State()), ts, env)
      decreases |WaitingBag(gov.queues)|, 0, 0
    {
      ghost var s := State();
      HeadDequeued(cfg, s, ts, env);
      var w := PopHead(ts);
      ghost var s1 := s.(gov := SetQueue(s.gov, ts, Queue(s.gov, ts)[1..]));
      assert State() == s1;
      if env.now >= w.deadline {
        Answer(w.req, Throttled);
        return true;
      }
      var permit := Issue(w.key, w.req);
      assert State() == Engine.Issue(s1, ts, w.req);
      OnAdmit(w.req, w.key, permit, Queued, env);
      return false;
    }

    method Issue(key: ToolKey, req: Request) returns (permit: Permit)
      requires Valid()
      modifies this`log, gov
      ensures Valid() && permit == Held(key, req.who.agentId)
      ensures gov.queues == old(gov.queues)
      ensures State() == Engine.Issue(old(State()), Str(key), req)
    {
      log := log + [Admitted(req, Str(key))];
      permit := gov.Issue(key, req.who.agentId);
    }

    method Acquire(req: Request, key: ToolKey, waitDeadline: nat, ghost via: Via, env: Env)
      requires Valid()
      modifies Footprint()
      ensures Valid() && fresh(Objects() - old(Objects()))
      ensures State() == Engine.Acquire(cfg, old(State()), req, key, waitDeadline, via, env)
    {
      ghost var s := State();
      var ok := gov.MayTake(Str(key), req.who.agentId);
      assert State() == s;
      if ok {
        var permit := Issue(key, req);
        OnAdmit(req, key, permit, via, env);
      } else {
        Wait(req, key, waitDeadline, via, env);
      }
    }

    /** No slot is free: the request queues, unless it has no time left to wait. */
    method Wait(req: Request, key: ToolKey, waitDeadline: nat, ghost via: Via, env: Env)
      requires Valid() && !CanTake(cfg, gov.Contents(), Str(key), req.who.agentId)
      modifies Footprint()
      ensures Valid() && fresh(Objects() - old(Objects()))
      ensures State() == Engine.Acquire(cfg, old(State()), req, key, waitDeadline, via, env)
    {
      var deadline := waitDeadline;
      if deadline == 0 {
        ghost var s := State();
        var wait := gov.ToolWaitOf(Str(key));
        assert State() == s;
        deadline := env.now + wait;
      }
      if deadline <= env.now {
        OnAdmit(req, key, NotHeld, via, env);
      } else {
        gov.Enqueue(req, key, deadline);
      }
    }

    // ---------------------------------------------------------------- arrivals

    /** get from the task store, and the reply that comes of it. */
    method FetchTask(inflightId: nat, taskId: nat, now: nat) returns (reply: Reply)
      requires Valid()
      modifies tasks
      ensures Valid() && State() == old(State()).(tasks := Tasks.Sweep(old(tasks.byId), now))
      ensures var found := Tasks.Find(old(tasks.byId), taskId, now);
              reply == if found.Some? then Handle(inflightId, taskId, found.value) else TaskNotFound
    {
      var t := tasks.Get(taskId, now);
      if t.None? { return TaskNotFound; }
      return Handle(inflightId, taskId, t.value);
    }

    method HandOut(req: Request, id: nat, taskId: nat, now: nat)
      requires Valid()
      modifies this`log, tasks
      ensures Valid() && State() == Engine.HandOut(old(State()), req, id, taskId, now)
    {
      var reply := FetchTask(id, taskId, now);
      Answer(req, reply);
    }

    /** A task under a fresh id, if the store has room for it. */
    method AddTask(agent: string, key: ToolKey, createdAt: nat, now: nat) returns (tid: nat, ok: bool)
      requires Valid()
      modifies this`nextId, tasks
      ensures Valid() && tid == old(nextId) && ok == Tasks.HasRoom(old(tasks.byId), cfg.maxTasks, tid, now)
      ensures State() == Engine.AddTask(cfg, old(State()), Engine.NewTask(cfg, agent, key, createdAt, now), now)
    {
      tid := nextId;
      nextId := nextId + 1;
      ok := tasks.Add(tid, Tasks.Task(agent, key, Tasks.Working, createdAt, now, cfg.taskTtlMs), now);
    }

    method OnDuplicate(req: Request, hit: InFlightTable.Entry, env: Env)
      requires Valid()
      modifies Footprint()
      ensures Valid() && calls == old(calls)
      ensures State() == Engine.OnDuplicate(cfg, old(State()), req, hit, env)
    {
      if !req.tasksCap {
        Answer(req, StillRunning(hit.id));
        return;
      }
      var known := hit.taskId;
      var orig := hit.id in live && hit.id in calls;
      if known.None? && orig { known := calls[hit.id].taskId; }
      if known.Some? {
        HandOut(req, hit.id, known.value, env.now);
      } else {
        FirstHandle(req, hit, orig, env);
      }
    }

    /** The duplicate that turns the running call into a task. */
    method FirstHandle(req: Request, hit: InFlightTable.Entry, orig: bool, env: Env)
      requires Valid() && req.tasksCap && hit.taskId.None? && orig == (hit.id in live && hit.id in calls)
      requires orig ==> calls[hit.id].taskId.None?
      modifies Footprint()
      ensures Valid() && calls == old(calls)
      ensures State() == Engine.OnDuplicate(cfg, old(State()), req, hit, env)
    {
      ghost var s := State();
      var tid, ok := AddTask(req.who.agentId, hit.key, hit.startedAt, env.now);
      ghost var s1 := State();
      assert s1.live == s.live && s1.calls == s.calls;
      if ok {
        StoreHandle(req, hit.id, tid, orig, env.now);
      } else {
        Answer(req, TaskStoreFull);
      }
    }

    method StoreHandle(req: Request, id: nat, tid: nat, orig: bool, now: nat)
      requires Valid() && orig == (id in live && id in calls)
      modifies Footprint()
      ensures Valid() && calls == old(calls)
      ensures var s := old(State());
              State() == Engine.HandOut(if orig then Engine.AttachTask(s, id, tid)
                                        else s.(inflight := InFlightTable.SetTaskId(s.inflight, id, tid)),
                                        req, id, tid, now)
    {
      AttachHit(id, tid, orig);
      HandOut(req, id, tid, now);
    }

    method AttachHit(id: nat, tid: nat, orig: bool)
      requires Valid() && orig == (id in live && id in calls)
      modifies this`byTask, inflight, Objects()
      ensures Valid()
      ensures var s := old(State());
              State() == if orig then Engine.AttachTask(s, id, tid)
                         else s.(inflight := InFlightTable.SetTaskId(s.inflight, id, tid))
    {
      if orig {
        AttachTask(calls[id], tid);
      } else {
        inflight.AttachTask(id, tid);
      }
    }

    method HandleCall(req: Request, env: Env)
      requires Valid()
      modifies Footprint()
      ensures Valid() && fresh(Objects() - old(Objects()))
      ensures State() == Engine.HandleCall(cfg, old(State()), req, env)
    {
      var parsed := Parse(req.name);
      if parsed.None? {
        Answer(req, UnknownTool);
        return;
      }
      var decision := Authorize(cfg.catalog, req.who, parsed.value);
      if decision != Allow {
        Answer(req, if decision == Unknown then UnknownTool else NotAllowed);
      } else if parsed.value.backend == BUILTIN {
        Answer(req, BuiltinResult);
      } else {
        Route(req, parsed.value, env);
      }
    }

    /** handleCall from the in-flight lookup on. */
    method Route(req: Request, key: ToolKey, env: Env)
      requires Valid()
      modifies Footprint()
      ensures Valid() && fresh(Objects() - old(Objects()))
      ensures State() == Engine.Route(cfg, old(State()), req, key, env)
    {
      ghost var s := State();
      var hit := inflight.Find(req.who.agentId, Str(key), req.hash);
      assert State() == s;
      if hit.Some? && req.confirm != Some(hit.value.id) {
        OnDuplicate(req, hit.value, env);
      } else if stopping {
        Answer(req, Draining);
      } else {
        Enter(req, key, if hit.Some? then Confirmed else Direct, env);
      }
    }

    /** The request goes to the governor, with a deadline from the configuration. */
    method Enter(req: Request, key: ToolKey, ghost via: Via, env: Env)
      requires Valid()
      modifies Footprint()
      ensures Valid() && fresh(Objects() - old(Objects()))
      ensures State() == Engine.Acquire(cfg, old(State()), req, key, WaitDeadline(cfg, Str(key), env.now), via, env)
    {
      var ts, wait := Str(key), cfg.queueWaitMs;
      if ts in cfg.tools && cfg.tools[ts].queueWaitMs > 0 { wait := cfg.tools[ts].queueWaitMs; }
      Acquire(req, key, env.now + wait, via, env);
    }

    // ---------------------------------------------------------------- timers and upstream answers

    method OnWaitTimer(ts: string, waitId: nat)
      requires Valid()
      modifies this`log, gov
      ensures Valid() && State() == Engine.OnWaitTimer(old(State()), ts, waitId)
    {
      var w := gov.RemoveWaiter(ts, waitId);
      if w.Some? { Answer(w.value.req, Throttled); }
    }

    method OnPromote(c: Call, now: nat)
      requires Valid() && c.id in calls && calls[c.id] == c
      modifies this`log, this`nextId, this`byTask, c, tasks, inflight
      ensures Valid() && State() == Engine.OnPromote(cfg, old(State()), c.id, now)
    {
      if c.responded || c.cancelled { return; }
      if !c.req.tasksCap {
        Respond(c, MissingCapability);
        return;
      }
      if c.taskId.None? {
        var tid, ok := AddTask(c.req.who.agentId, c.key, c.startedAt, now);
        if !ok {
          Respond(c, TaskStoreFull);
          return;
        }
        AttachTask(c, tid);
      }
      PromoteTo(c, now);
    }

    method PromoteTo(c: Call, now: nat)
      requires Valid() && c.id in calls && calls[c.id] == c && c.taskId.Some?
      modifies this`log, c, tasks
      ensures Valid() && State() == Engine.PromoteTo(old(State()), c.id, old(c.taskId.value), now)
    {
      var reply := FetchTask(c.id, c.taskId.value, now);
      Respond(c, reply);
    }

    /** The verdict of the breaker on one upstream answer. */
    method Judge(server: string, good: bool, now: nat) returns (open: bool)
      requires Valid()
      modifies circuit
      ensures Valid()
      ensures open == Circuit.MaybeHalfOpen(Circuit.SlotOf(old(circuit.slots), server), now).st.Open?
      ensures State() == old(State()).(slots := Engine.Judge(cfg, old(circuit.slots), server, good, now))
    {
      ghost var slots := circuit.slots;
      open := circuit.IsOpen(server, now);
      if good {
        circuit.OnSuccess(server);
      } else {
        var becameOpen := circuit.OnFailure(server, now);
      }
      JudgedInSteps(cfg, slots, server, good, now);
    }

    /** The answer is off the wire. */
    method Receive(c: Call, klass: Retry.Klass)
      requires Valid() && c.id in calls && calls[c.id] == c && c.outstanding > 0
      modifies this`log, c
      ensures Valid() && State() == Received(old(State()), c.id, klass)
    {
      ghost var s := State();
      assert s.calls[c.id] == c.Value();
      c.outstanding := c.outstanding - 1;
      log := log + [Returned(c.id, klass)];
      CallChanged(c);
      assert CallValues() == Received(s, c.id, klass).calls;
    }

    method OnUpstream(c: Call, klass: Retry.Klass, isError: bool, now: nat)
      requires Valid() && c.id in calls && calls[c.id] == c && c.outstanding > 0
      modifies this`log, c, circuit, tasks
      ensures Valid() && State() == Engine.OnUpstream(cfg, old(State()), c.id, klass, isError, now)
    {
      ghost var s, slots := State(), circuit.slots;
      Receive(c, klass);
      assert State() == Received(s, c.id, klass);
      ghost var v := c.Value();
      ghost var verdict := Retries(cfg, slots, v, klass, now);
      UpstreamInSteps(cfg, s, c.id, klass, isError, now, verdict);
      if c.cancelled {
        Absorb(c);
      } else {
        Weigh(c, klass, isError, v, verdict, now);
      }
    }

    /** The breaker counts the answer; the retry decision uses what it said before. */
    method Weigh(c: Call, klass: Retry.Klass, isError: bool, ghost v: Engine.Call, ghost verdict: bool, now: nat)
      requires Valid() && c.id in calls && calls[c.id] == c
      requires v == c.Value() && verdict == Retries(cfg, circuit.slots, v, klass, now)
      modifies this`log, c, circuit, tasks
      ensures Valid()
      ensures var s := old(State());
              var slots := Engine.Judge(cfg, s.slots, c.key.backend, klass == Retry.Ok && !isError, now);
              State() == Decided(s.(slots := slots), c.id, klass, isError, now, verdict)
    {
      ghost var slots := circuit.slots;
      ghost var s1 := State().(slots :=
        Engine.Judge(cfg, slots, c.key.backend, klass == Retry.Ok && !isError, now));
      var open := Judge(c.key.backend, klass == Retry.Ok && !isError, now);
      assert State() == s1;
      var again := WantsRetry(c, klass, open, slots, v, verdict, now);
      assert State() == s1;
      Settle(c, klass, isError, again, now);
    }

    method Absorb(c: Call)
      requires Valid() && c.id in calls && calls[c.id] == c
      modifies c
      ensures Valid()
      ensures State() == SetCall(old(State()), c.id, old(c.Value()).(upstreamDone := true))
    {
      c.upstreamDone := true;
      CallChanged(c);
    }

    /** shouldRetry, with the arguments the call gives it; `open` was read from `slots`, before this
        answer was counted. */
    method WantsRetry(c: Call, klass: Retry.Klass, open: bool, ghost slots: Circuit.Slots, ghost v: Engine.Call,
                      ghost verdict: bool, now: nat)
      returns (again: bool)
      requires open == Circuit.MaybeHalfOpen(Circuit.SlotOf(slots, c.key.backend), now).st.Open?
      requires v == c.Value() && verdict == Retries(cfg, slots, v, klass, now)
      ensures again == verdict
    {
      if c.responded || c.cancelled { return false; }
      var idempotent := if c.key.backend in cfg.catalog then cfg.catalog[c.key.backend].idempotentTools else [];
      var outstanding := klass == Retry.Timeout || klass == Retry.Cancelled;
      again := Retry.ShouldRetry(cfg.retry, klass, c.key.tool, idempotent, c.attempt, c.req.deadline, open,
                                 outstanding, now);
    }

    method Settle(c: Call, klass: Retry.Klass, isError: bool, again: bool, now: nat)
      requires Valid() && c.id in calls && calls[c.id] == c
      modifies this`log, c, tasks
      ensures Valid() && State() == Decided(old(State()), c.id, klass, isError, now, again)
    {
      if again {
        FireAttempt(c);
      } else {
        Conclude(c, klass, isError, now);
      }
    }

    method Conclude(c: Call, klass: Retry.Klass, isError: bool, now: nat)
      requires Valid() && c.id in calls && calls[c.id] == c
      modifies this`log, c, tasks
      ensures Valid() && State() == Engine.Conclude(old(State()), c.id, klass, isError, now)
    {
      c.upstreamDone := true;
      c.timer := false;
      CallChanged(c);
      ghost var s1 := SetCall(old(State()), c.id, old(c.Value()).(upstreamDone := true, timer := false));
      assert State() == s1;
      if c.taskId.Some? {
        SetTaskStatus(c.taskId.value, Outcome(klass, isError), now);
      }
      Respond(c, Result(klass, isError));
    }

    // ---------------------------------------------------------------- the end of a call

    twostate lemma CallRemoved(c: Call)
      requires old(Valid()) && calls == old(calls) - {c.id}
      requires forall d :: d in Objects() ==> unchanged(d)
      ensures CallValues() == old(CallValues()) - {c.id}
    {
      forall id | id in calls ensures unchanged(calls[id]) {
        assert calls[id] in Objects();
      }
    }

    /** The destructor of a call, up to the destruction of its permit. */
    method Destroy(c: Call) returns (permit: Permit)
      requires Valid() && c.id in calls && calls[c.id] == c
      modifies this, c, inflight
      ensures Valid() && Objects() <= old(Objects()) && gov.queues == old(gov.queues)
      ensures permit == old(c.permit) && State() == Engine.Destroy(old(State()), c.id)
    {
      ghost var s := State();
      assert s.calls[c.id] == c.Value();
      permit := c.permit;
      Withdraw(c);
      Forget(c);
    }

    method Withdraw(c: Call)
      requires Valid() && c.id in calls && calls[c.id] == c
      modifies this`log, c, inflight
      ensures Valid() && c.taskId == old(c.taskId)
      ensures var s1 := Engine.Respond(old(State()), c.id, CallCancelled);
              State() == s1.(inflight := InFlightTable.Erase(s1.inflight, c.id))
    {
      Respond(c, CallCancelled);
      inflight.Remove(c.id);
    }

    method Forget(c: Call)
      requires Valid() && c.id in calls && calls[c.id] == c
      modifies this
      ensures Valid() && Objects() <= old(Objects())
      ensures var s1 := old(State());
              State() == s1.(byTask := if c.taskId.Some? then s1.byTask - {c.taskId.value} else s1.byTask,
                             live := s1.live - {c.id}, calls := s1.calls - {c.id})
    {
      if c.taskId.Some? { byTask := byTask - {c.taskId.value}; }
      live := live - {c.id};
      calls := calls - {c.id};
      CallRemoved(c);
    }

    // ---------------------------------------------------------------- cancel and stop

    method CancelTask(taskId: nat, agent: string, now: nat)
      requires Valid()
      modifies Footprint()
      ensures Valid() && calls == old(calls)
      ensures State() == OnCancel(old(State()), taskId, agent, now)
    {
      var t := tasks.Get(taskId, now);
      if t.None? || t.value.agent != agent { return; }
      SetTaskStatus(taskId, Tasks.Cancelled, now);
      if taskId in byTask && byTask[taskId] in calls {
        CancelWait(calls[byTask[taskId]], now);
      }
    }

    method CancelOne(id: nat, now: nat)
      requires Valid()
      modifies Footprint()
      ensures Valid() && calls == old(calls)
      ensures var s := old(State());
              State() == if id in s.calls then Engine.CancelWait(s, id, now) else s
    {
      if id in calls { CancelWait(calls[id], now); }
    }

    /** requestStop of the pipeline; `order` is the order in which the live table is walked. */
    method RequestStop(order: seq<nat>, now: nat)
      requires Valid()
      modifies Footprint()
      ensures Valid() && calls == old(calls)
      ensures State() == CancelAll(old(State()).(stopping := true), order, now)
    {
      stopping := true;
      ghost var goal := CancelAll(State(), order, now);
      var i := 0;
      while i < |order|
        invariant 0 <= i <= |order|
        invariant Valid() && calls == old(calls)
        invariant CancelAll(State(), order[i..], now) == goal
      {
        CancelOne(order[i], now);
        i := i + 1;
      }
    }

    method RejectHead(ts: string)
      requires Valid() && Queue(gov.Contents(), ts) != []
      modifies this`log, gov
      ensures Valid() && |Queue(gov.Contents(), ts)| < old(|Queue(gov.Contents(), ts)|)
      ensures RejectQueue(State(), ts) == RejectQueue(old(State()), ts)
    {
      ghost var s := State();
      var w := gov.PopFront(ts);
      assert State() == s.(gov := SetQueue(s.gov, ts, Queue(s.gov, ts)[1..]));
      Answer(w.req, Throttled);
    }

    method RejectQueued(ts: string)
      requires Valid()
      modifies this`log, gov
      ensures Valid() && State() == RejectQueue(old(State()), ts)
    {
      ghost var goal := RejectQueue(State(), ts);
      while ts in gov.queues && gov.queues[ts] != []
        invariant Valid() && RejectQueue(State(), ts) == goal
        decreases |Queue(gov.Contents(), ts)|
      {
        RejectHead(ts);
      }
    }

    /** rejectAllQueued of the governor; `order` is the order in which the queues are walked. */
    method RejectAllQueued(order: seq<string>)
      requires Valid()
      modifies this`log, gov
      ensures Valid() && State() == RejectAll(old(State()), order)
    {
      ghost var goal := RejectAll(State(), order);
      var i := 0;
      while i < |order|
        invariant 0 <= i <= |order|
        invariant Valid() && RejectAll(State(), order[i..]) == goal
      {
        RejectQueued(order[i]);
        i := i + 1;
      }
    }

    // ---------------------------------------------------------------- permits as objects

    /** The destructor of a permit. */
    method DestroyPermit(box: PermitBox, env: Env)
      requires Valid() && box !in Footprint()
      modifies Footprint(), box
      ensures Valid() && fresh(Objects() - old(Objects()))
      ensures box.permit == NotHeld && State() == Engine.DropPermit(cfg, old(State()), old(box.permit), env)
    {
      var mine := box.permit;
      box.permit := NotHeld;
      assert State() == old(State());
      DropPermit(mine, env);
    }

    /** Move-assignment of a permit: what `dst` held so far goes back, and may wake a waiter, before it
        takes over what `src` holds. */
    method MovePermit(dst: PermitBox, src: PermitBox, env: Env)
      requires Valid() && dst !in Footprint() && src !in Footprint()
      modifies Footprint(), dst, src
      ensures Valid() && fresh(Objects() - old(Objects()))
      ensures dst == src ==> State() == old(State()) && dst.permit == old(dst.permit)
      ensures dst != src ==>
        (State(), dst.permit, src.permit)
        == Engine.MoveAssign(cfg, old(State()), old(dst.permit), old(src.permit), env)
    {
      if dst == src { return; }
      DestroyPermit(dst, env);
      ghost var s1 := State();
      dst.permit, src.permit := src.permit, NotHeld;
      assert State() == s1;
    }

    // ---------------------------------------------------------------- the loop

    method HandlePromote(c: Call, env: Env)
      requires Valid() && c.id in calls && calls[c.id] == c
      modifies Footprint()
      ensures Valid() && Objects() == old(Objects())
      ensures var s1 := Engine.OnPromote(cfg, old(State()), c.id, env.now);
              c.id in s1.calls && State() == SetCall(s1, c.id, s1.calls[c.id].(timer := false))
    {
      OnPromote(c, env.now);
      label L:
      ghost var s1 := State();
      assert s1.calls[c.id] == c.Value();
      c.timer := false;
      CallChanged@L(c);
    }

    /** The last owner of a call lets go of it. */
    method HandleDrop(c: Call, env: Env)
      requires Valid() && c.id in calls && calls[c.id] == c
      modifies Footprint()
      ensures Valid() && fresh(Objects() - old(Objects()))
      ensures State() == Engine.DropPermit(cfg, Engine.Destroy(old(State()), c.id), old(c.permit), env)
    {
      var permit := Destroy(c);
      DropPermit(permit, env);
    }

    method HandleArrive(req: Request, env: Env)
      requires Valid()
      modifies Footprint()
      ensures Valid() && fresh(Objects() - old(Objects()))
      ensures State() == Engine.HandleCall(cfg, Arrived(old(State())), Stamped(old(State()), req), env)
    {
      ghost var s := State();
      var r := req.(id := arrivals);
      arrivals := arrivals + 1;
      assert State() == Arrived(s) && r == Stamped(s, req);
      HandleCall(r, env);
    }

    /** requestStop of the gateway: the calls first, then the queues. */
    method HandleStop(order: seq<nat>, queues: seq<string>, env: Env)
      requires Valid()
      modifies Footprint()
      ensures Valid() && Objects() == old(Objects())
      ensures State() == RejectAll(CancelAll(old(State()).(stopping := true), order, env.now), queues)
    {
      RequestStop(order, env.now);
      RejectAllQueued(queues);
    }

    method HandleGet(now: nat)
      requires Valid()
      modifies tasks
      ensures Valid() && State() == old(State()).(tasks := Tasks.Sweep(old(State()).tasks, now))
    {
      tasks.SweepExpired(now);
    }

    method HandleListed(backend: string, listed: set<string>)
      requires Valid()
      modifies gov
      ensures Valid()
      ensures State() == old(State()).(gov := Engine.OnToolsListed(cfg, old(State()).gov, backend, listed))
    {
      gov.OnToolsListed(backend, listed);
    }

    method HandleProbe(backend: string)
      requires Valid()
      modifies circuit
      ensures Valid()
      ensures var s := old(State());
              State() == s.(slots :=
                s.slots[backend := Circuit.AfterProbe(cfg.circuit, Circuit.SlotOf(s.slots, backend))])
    {
      circuit.OnProbeSuccess(backend);
    }

    /** One turn of the loop. The event must be one that can happen: a timer that is armed, an answer
        that is outstanding, a call that nobody owns. */
    method Turn(e: Event, env: Env)
      requires Valid() && Enabled(State(), e)
      modifies Footprint()
      ensures Valid() && fresh(Objects() - old(Objects()))
      ensures State() == Step(cfg, old(State()), e, env)
    {
      if e.Promote? || e.Upstream? || e.Drop? {
        CallTurn(e, env);
      } else {
        OtherTurn(e, env);
      }
    }

    method CallTurn(e: Event, env: Env)
      requires Valid() && Enabled(State(), e) && (e.Promote? || e.Upstream? || e.Drop?)
      modifies Footprint()
      ensures Valid() && fresh(Objects() - old(Objects()))
      ensures State() == Step(cfg, old(State()), e, env)
    {
      var c := calls[e.id];
      assert State().calls[e.id] == c.Value();
      match e
      case Promote(id) => HandlePromote(c, env);
      case Upstream(id, klass, isError) => OnUpstream(c, klass, isError, env.now);
      case Drop(id) => HandleDrop(c, env);
    }

    method OtherTurn(e: Event, env: Env)
      requires Valid() && Enabled(State(), e) && !e.Promote? && !e.Upstream? && !e.Drop?
      modifies Footprint()
      ensures Valid() && fresh(Objects() - old(Objects()))
      ensures State() == Step(cfg, old(State()), e, env)
    {
      match e
      case Arrive(req) => HandleArrive(req, env);
      case WaitTimer(ts, waitId) => OnWaitTimer(ts, waitId);
      case TaskCancel(taskId, agent) => CancelTask(taskId, agent, env.now);
      case Stop(order, queues) => HandleStop(order, queues, env);
      case TaskGet => HandleGet(env.now);
      case ToolsListed(backend, listed) => HandleListed(backend, listed);
      case ProbeOk(backend) => HandleProbe(backend);
    }

    /** Any number of turns: the object runs exactly as the engine does. */
    method Serve(turns: seq<Engine.Turn>)
      requires Valid()
      requires forall n :: 0 <= n < |turns| ==> Enabled(RunFrom(cfg, State(), turns[..n]), turns[n].event)
      modifies Footprint()
      ensures Valid() && fresh(Objects() - old(Objects()))
      ensures State() == RunFrom(cfg, old(State()), turns)
    {
      var n := 0;
      while n < |turns|
        invariant 0 <= n <= |turns|
        invariant Valid() && fresh(Objects() - old(Objects()))
        invariant State() == RunFrom(cfg, old(State()), turns[..n])
      {
        assert turns[..n + 1][..n] == turns[..n];
        Turn(turns[n].event, turns[n].env);
        n := n + 1;
      }
      assert turns[..n] == turns;
    }
  }
}
