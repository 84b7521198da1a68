/** Every turn of the loop, re-entrant callbacks included, is a sequence of valid atomic moves that
    starts and ends with an empty stack. */
module EngineTurns {
  import opened Options
  import opened ToolKeys
  import opened Access
  import opened Engine
  import opened EngineInvariant
  import opened EngineMoves
  import opened EngineKeeps
  import InFlightTable
  import Tasks
  import Circuit
  import Retry

  type Relation = (Mach, Mach) -> bool

  /** The induction principle over moves: R holds along every run of valid moves of the kinds K. */
  ghost predicate Closed(cfg: Config, R: Relation, K: set<Kind>) {
    && (forall m :: R(m, m))
    && (forall m, v :: Valid(cfg, m, v) && KindOf(v) in K ==> R(m, Do(cfg, m, v)))
    && (forall m, k, n :: R(m, k) && R(k, n) ==> R(m, n))
  }

  lemma ReachesSelf(cfg: Config, R: Relation, K: set<Kind>, m: Mach)
    requires Closed(cfg, R, K)
    ensures R(m, m)
  {
  }

  lemma ReachesOne(cfg: Config, R: Relation, K: set<Kind>, m: Mach, v: Move)
    requires Closed(cfg, R, K) && Valid(cfg, m, v) && KindOf(v) in K
    ensures R(m, Do(cfg, m, v))
  {
  }

  lemma ReachesThen(cfg: Config, R: Relation, K: set<Kind>, m: Mach, k: Mach, n: Mach)
    requires Closed(cfg, R, K) && R(m, k) && R(k, n)
    ensures R(m, n)
  {
  }

  // ------------------------------------------------------------------ single moves, in the engine's words

  lemma ByReply(cfg: Config, R: Relation, K: set<Kind>, m: Mach, req: Request, reply: Engine.Reply)
    requires Closed(cfg, R, K) && KindOf(Move.Reply(req, reply)) in K
    requires Valid(cfg, m, Reply(req, reply))
    ensures R(m, m.(s := Answer(m.s, req, reply), requests := m.requests - multiset{req.id}))
  {
    ReachesOne(cfg, R, K, m, Reply(req, reply));
  }

  lemma ByIssue(cfg: Config, R: Relation, K: set<Kind>, m: Mach, key: ToolKey, req: Request)
    requires Closed(cfg, R, K) && Slots in K
    requires CanTake(cfg, m.s.gov, Str(key), req.who.agentId)
    ensures R(m, m.(s := Engine.Issue(m.s, Str(key), req),
                               permits := m.permits + [Held(key, req.who.agentId)]))
  {
    ReachesOne(cfg, R, K, m, Issue(key, req));
  }

  lemma ByTakeOut(cfg: Config, R: Relation, K: set<Kind>, m: Mach, ts: string, i: nat)
    requires Closed(cfg, R, K) && Leave in K
    requires i < |Queue(m.s.gov, ts)|
    ensures var q := Queue(m.s.gov, ts);
            R(m, m.(s := m.s.(gov := SetQueue(m.s.gov, ts, q[..i] + q[i + 1..])),
                               requests := m.requests + multiset{q[i].req.id}))
  {
    ReachesOne(cfg, R, K, m, TakeOut(ts, i));
  }

  lemma ByPop(cfg: Config, R: Relation, K: set<Kind>, m: Mach, ts: string)
    requires Closed(cfg, R, K) && Leave in K
    requires Queue(m.s.gov, ts) != []
    ensures var q := Queue(m.s.gov, ts);
            R(m, m.(s := m.s.(gov := SetQueue(m.s.gov, ts, q[1..])),
                               requests := m.requests + multiset{q[0].req.id}))
  {
    var q := Queue(m.s.gov, ts);
    assert q[..0] + q[1..] == q[1..];
    ByTakeOut(cfg, R, K, m, ts, 0);
  }

  lemma ByGiveBack(cfg: Config, R: Relation, K: set<Kind>, m: Mach, p: Permit)
    requires Closed(cfg, R, K) && Slots in K
    requires p.Held? && m.permits != [] && m.permits[|m.permits| - 1] == p
    ensures R(m, m.(s := m.s.(gov := Engine.GiveBack(m.s.gov, Str(p.key), p.agent)),
                               permits := m.permits[..|m.permits| - 1]))
  {
    ReachesOne(cfg, R, K, m, GiveBack(p));
  }

  lemma ByRead(cfg: Config, R: Relation, K: set<Kind>, m: Mach, key: ToolKey, now: nat)
    requires Closed(cfg, R, K) && Still in K
    ensures R(m, m.(s := ReadSlot(m.s, key, now)))
  {
    ReachesOne(cfg, R, K, m, Read(key.backend, now));
  }

  lemma ByWeigh(cfg: Config, R: Relation, K: set<Kind>, m: Mach, backend: string, report: Circuit.Event)
    requires Closed(cfg, R, K) && Report in K
    ensures var slot := Circuit.Apply(cfg.circuit, Circuit.SlotOf(m.s.slots, backend), report);
            R(m, m.(s := m.s.(slots := m.s.slots[backend := slot])))
  {
    ReachesOne(cfg, R, K, m, Weigh(backend, report));
  }

  lemma ByPush(cfg: Config, R: Relation, K: set<Kind>, m: Mach, req: Request, key: ToolKey, deadline: nat)
    requires Closed(cfg, R, K) && Slots in K
    requires req.name == Str(key) && req.id in m.requests && (m.clean ==> CleanRequest(req))
    ensures R(m, m.(s := m.s.(gov := Engine.Push(m.s.gov, Str(key), req, key, deadline)),
                               requests := m.requests - multiset{req.id}))
  {
    ReachesOne(cfg, R, K, m, Push(req, key, deadline));
  }

  lemma ByLaunch(cfg: Config, R: Relation, K: set<Kind>, m: Mach, req: Request, key: ToolKey, via: Via, now: nat)
    requires Closed(cfg, R, K) && Slots in K
    requires Valid(cfg, m, Launch(req, key, via, now))
    ensures var s1 := CreateCall(m.s, req, key, Held(key, req.who.agentId), via, now);
            R(m, m.(s := FireAttempt(s1, m.s.nextId),
                               permits := m.permits[..|m.permits| - 1],
                               requests := m.requests - multiset{req.id}))
  {
    var s1 := CreateCall(m.s, req, key, Held(key, req.who.agentId), via, now);
    var s2 := FireAttempt(s1, m.s.nextId);
    var n := Do(cfg, m, Launch(req, key, via, now));
    assert n.s.calls == s2.calls;
    assert n.s == s2;
    ReachesOne(cfg, R, K, m, Launch(req, key, via, now));
  }

  // ------------------------------------------------------------------ admission

  lemma Cancels(R: multiset<nat>, x: nat)
    ensures R + multiset{x} - multiset{x} == R
  {
  }

  lemma NoneLeft(x: nat)
    ensures multiset{x} - multiset{x} == multiset{}
  {
  }

  /** What is left of a dropped permit: the books, then the queue of its tool. */
  function Released(g: St, p: Permit): St
    requires p.Held?
  {
    g.(gov := Engine.GiveBack(g.gov, Str(p.key), p.agent))
  }

  lemma DropIsRelease(cfg: Config, s: St, p: Permit, env: Env)
    requires p.Held?
    ensures DropPermit(cfg, s, p, env) == TryDequeue(cfg, Released(s, p), Str(p.key), env)
  {
  }

  /** The breaker slot as the admission callback reads it. */
  function ReadSlot(s: St, key: ToolKey, now: nat): St {
    s.(slots := s.slots[key.backend := Circuit.MaybeHalfOpen(Circuit.SlotOf(s.slots, key.backend), now)])
  }

  predicate Blocked(s: St, key: ToolKey, env: Env) {
    ReadSlot(s, key, env.now).slots[key.backend].st.Open? || key.backend in env.down
  }

  function Started(s: St, req: Request, key: ToolKey, via: Via, now: nat): St {
    FireAttempt(CreateCall(s, req, key, Held(key, req.who.agentId), via, now), s.nextId)
  }

  lemma OnAdmitIs(cfg: Config, s: St, req: Request, key: ToolKey, via: Via, env: Env)
    ensures var p := Held(key, req.who.agentId);
            var s1 := ReadSlot(s, key, env.now);
            OnAdmit(cfg, s, req, key, p, via, env)
            == if Blocked(s, key, env)
               then TryDequeue(cfg, Released(Answer(s1, req, UpstreamUnavailable), p), Str(key), env)
               else Started(s1, req, key, via, env.now)
  {
    DropIsRelease(cfg, Answer(ReadSlot(s, key, env.now), req, UpstreamUnavailable),
                  Held(key, req.who.agentId), env);
  }

  lemma {:induction false} BlockedTurn(cfg: Config, R: Relation, K: set<Kind>, m: Mach, req: Request, key: ToolKey,
                                       env: Env)
    requires Closed(cfg, R, K) && RELEASE <= K
    requires m.permits != [] && m.permits[|m.permits| - 1] == Held(key, req.who.agentId)
    requires req.id in m.requests && (m.clean ==> CleanRequest(req)) && Keyed(m.clean, m.s.gov.queues)
    ensures var s1 := Answer(ReadSlot(m.s, key, env.now), req, UpstreamUnavailable);
            var u := TryDequeue(cfg, Released(s1, Held(key, req.who.agentId)), Str(key), env);
            R(m, m.(s := u, permits := m.permits[..|m.permits| - 1],
                               requests := m.requests - multiset{req.id}))
    decreases |WaitingBag(m.s.gov.queues)|, 2
  {
    var permit := Held(key, req.who.agentId);
    var m1 := m.(s := ReadSlot(m.s, key, env.now));
    ByRead(cfg, R, K, m, key, env.now);
    ByReply(cfg, R, K, m1, req, UpstreamUnavailable);
    var m2 := m1.(s := Answer(m1.s, req, UpstreamUnavailable), requests := m1.requests - multiset{req.id});
    ReachesThen(cfg, R, K, m, m1, m2);
    ReleaseTurn(cfg, R, K, m2, permit, env);
    ReachesThen(cfg, R, K, m, m2, m2.(s := TryDequeue(cfg, Released(m2.s, permit), Str(key), env),
                                permits := m2.permits[..|m2.permits| - 1]));
  }

  lemma StartedTurn(cfg: Config, R: Relation, K: set<Kind>, m: Mach, req: Request, key: ToolKey, via: Via, now: nat)
    requires Closed(cfg, R, K) && RELEASE <= K
    requires m.permits != [] && m.permits[|m.permits| - 1] == Held(key, req.who.agentId)
    requires req.id in m.requests && (m.clean ==> CleanRequest(req))
    requires via.Direct? ==> KeyFor(req, key) !in m.s.inflight.keyToId
    requires req.name == Str(key)
    ensures R(m, m.(s := Started(ReadSlot(m.s, key, now), req, key, via, now),
                               permits := m.permits[..|m.permits| - 1],
                               requests := m.requests - multiset{req.id}))
  {
    var m1 := m.(s := ReadSlot(m.s, key, now));
    ByRead(cfg, R, K, m, key, now);
    ByLaunch(cfg, R, K, m1, req, key, via, now);
    ReachesThen(cfg, R, K, m, m1, m1.(s := Started(m1.s, req, key, via, now),
                                permits := m1.permits[..|m1.permits| - 1],
                                requests := m1.requests - multiset{req.id}));
  }

  lemma {:induction false} OnAdmitTurn(cfg: Config, R: Relation, K: set<Kind>, m: Mach, req: Request, key: ToolKey,
                                       via: Via, env: Env)
    requires Closed(cfg, R, K) && RELEASE <= K
    requires m.permits != [] && m.permits[|m.permits| - 1] == Held(key, req.who.agentId)
    requires req.id in m.requests && (m.clean ==> CleanRequest(req)) && Keyed(m.clean, m.s.gov.queues)
    requires via.Direct? ==> KeyFor(req, key) !in m.s.inflight.keyToId
    requires req.name == Str(key)
    ensures R(m, m.(s := OnAdmit(cfg, m.s, req, key, Held(key, req.who.agentId), via, env),
                               permits := m.permits[..|m.permits| - 1],
                               requests := m.requests - multiset{req.id}))
    decreases |WaitingBag(m.s.gov.queues)|, 3
  {
    OnAdmitIs(cfg, m.s, req, key, via, env);
    if Blocked(m.s, key, env) {
      BlockedTurn(cfg, R, K, m, req, key, env);
    } else {
      StartedTurn(cfg, R, K, m, req, key, via, env.now);
    }
  }

  lemma {:induction false} ReleaseTurn(cfg: Config, R: Relation, K: set<Kind>, m: Mach, p: Permit, env: Env)
    requires Closed(cfg, R, K) && RELEASE <= K
    requires p.Held? && m.permits != [] && m.permits[|m.permits| - 1] == p && Keyed(m.clean, m.s.gov.queues)
    ensures R(m, m.(s := TryDequeue(cfg, Released(m.s, p), Str(p.key), env),
                               permits := m.permits[..|m.permits| - 1]))
    decreases |WaitingBag(m.s.gov.queues)|, 1
  {
    ByGiveBack(cfg, R, K, m, p);
    var m1 := m.(s := Released(m.s, p), permits := m.permits[..|m.permits| - 1]);
    TryDequeueTurn(cfg, R, K, m1, Str(p.key), env);
    ReachesThen(cfg, R, K, m, m1, m1.(s := TryDequeue(cfg, m1.s, Str(p.key), env)));
  }

  lemma {:induction false} TryDequeueTurn(cfg: Config, R: Relation, K: set<Kind>, m: Mach, ts: string, env: Env)
    requires Closed(cfg, R, K) && RELEASE <= K
    requires Keyed(m.clean, m.s.gov.queues)
    ensures R(m, m.(s := TryDequeue(cfg, m.s, ts, env)))
    decreases |WaitingBag(m.s.gov.queues)|, 0
  {
    var q := Queue(m.s.gov, ts);
    if q == [] || !CanTake(cfg, m.s.gov, ts, q[0].req.who.agentId) {
      ReachesSelf(cfg, R, K, m);
    } else {
      var w := q[0];
      PopShrinks(m.s.gov, ts);
      ByPop(cfg, R, K, m, ts);
      var m1 := m.(s := m.s.(gov := SetQueue(m.s.gov, ts, q[1..])), requests := m.requests + multiset{w.req.id});
      Cancels(m.requests, w.req.id);
      PopKeyed(m, ts);
      if env.now >= w.deadline {
        ByReply(cfg, R, K, m1, w.req, Throttled);
        var m2 := m.(s := Answer(m1.s, w.req, Throttled));
        TryDequeueTurn(cfg, R, K, m2, ts, env);
        var m3 := m2.(s := TryDequeue(cfg, m2.s, ts, env));
        ReachesThen(cfg, R, K, m1, m2, m3);
        ReachesThen(cfg, R, K, m, m1, m3);
      } else {
        var permit := Held(w.key, w.req.who.agentId);
        ByIssue(cfg, R, K, m1, w.key, w.req);
        var m2 := m1.(s := Engine.Issue(m1.s, ts, w.req), permits := m1.permits + [permit]);
        OnAdmitTurn(cfg, R, K, m2, w.req, w.key, Queued, env);
        assert m2.permits[..|m2.permits| - 1] == m.permits;
        var m3 := m.(s := OnAdmit(cfg, m2.s, w.req, w.key, permit, Queued, env));
        ReachesThen(cfg, R, K, m1, m2, m3);
        ReachesThen(cfg, R, K, m, m1, m3);
      }
    }
  }

  lemma PopKeyed(m: Mach, ts: string)
    requires Keyed(m.clean, m.s.gov.queues) && Queue(m.s.gov, ts) != []
    ensures Keyed(m.clean, SetQueue(m.s.gov, ts, Queue(m.s.gov, ts)[1..]).queues)
    ensures var w := Queue(m.s.gov, ts)[0];
            Str(w.key) == ts == w.req.name && (m.clean ==> CleanRequest(w.req))
  {
  }

  // ------------------------------------------------------------------ arrivals

  lemma GoTurn(cfg: Config, R: Relation, K: set<Kind>, m: Mach, req: Request, key: ToolKey, via: Via, env: Env)
    requires Closed(cfg, R, K) && RELEASE <= K
    requires m.permits == [] && m.requests == multiset{req.id}
    requires (m.clean ==> CleanRequest(req)) && Keyed(m.clean, m.s.gov.queues)
    requires via.Direct? ==> KeyFor(req, key) !in m.s.inflight.keyToId
    requires CanTake(cfg, m.s.gov, Str(key), req.who.agentId)
    requires req.name == Str(key)
    ensures var u := OnAdmit(cfg, Engine.Issue(m.s, Str(key), req), req, key, Held(key, req.who.agentId), via, env);
            R(m, m.(s := u, requests := multiset{}))
  {
    NoneLeft(req.id);
    var p := Held(key, req.who.agentId);
    var m1 := m.(s := Engine.Issue(m.s, Str(key), req), permits := m.permits + [p]);
    ByIssue(cfg, R, K, m, key, req);
    OnAdmitTurn(cfg, R, K, m1, req, key, via, env);
    assert m1.permits[..|m1.permits| - 1] == m.permits;
    ReachesThen(cfg, R, K, m, m1, m.(s := OnAdmit(cfg, m1.s, req, key, p, via, env), requests := multiset{}));
  }

  lemma AcquireTurn(cfg: Config, R: Relation, K: set<Kind>, m: Mach, req: Request, key: ToolKey, waitDeadline: nat,
                    via: Via, env: Env)
    requires Closed(cfg, R, K) && RELEASE <= K
    requires m.permits == [] && m.requests == multiset{req.id}
    requires (m.clean ==> CleanRequest(req)) && Keyed(m.clean, m.s.gov.queues)
    requires via.Direct? ==> KeyFor(req, key) !in m.s.inflight.keyToId
    requires req.name == Str(key)
    ensures R(m, m.(s := Acquire(cfg, m.s, req, key, waitDeadline, via, env), requests := multiset{}))
  {
    NoneLeft(req.id);
    if CanTake(cfg, m.s.gov, Str(key), req.who.agentId) {
      GoTurn(cfg, R, K, m, req, key, via, env);
    } else {
      var deadline := if waitDeadline == 0 then env.now + ToolWait(cfg, m.s.gov, Str(key)) else waitDeadline;
      if deadline <= env.now {
        ByReply(cfg, R, K, m, req, Throttled);
      } else {
        ByPush(cfg, R, K, m, req, key, deadline);
      }
    }
  }

  lemma BySweep(cfg: Config, R: Relation, K: set<Kind>, m: Mach, now: nat)
    requires Closed(cfg, R, K) && Store in K
    ensures R(m, m.(s := m.s.(tasks := Tasks.Sweep(m.s.tasks, now))))
  {
    ReachesOne(cfg, R, K, m, Sweep(now));
  }

  lemma ByNewTask(cfg: Config, R: Relation, K: set<Kind>, m: Mach, task: Tasks.Task, now: nat)
    requires Closed(cfg, R, K) && Store in K
    ensures R(m, m.(s := AddTask(cfg, m.s, task, now)))
  {
    ReachesOne(cfg, R, K, m, NewTask(task, now));
  }

  lemma ByAttach(cfg: Config, R: Relation, K: set<Kind>, m: Mach, id: nat, tid: nat)
    requires Closed(cfg, R, K) && Store in K
    requires Valid(cfg, m, Attach(id, tid))
    ensures R(m, m.(s := AttachTask(m.s, id, tid)))
  {
    ReachesOne(cfg, R, K, m, Attach(id, tid));
  }

  lemma HandOutTurn(cfg: Config, R: Relation, K: set<Kind>, m: Mach, req: Request, id: nat, tid: nat, now: nat)
    requires Closed(cfg, R, K) && NOTICE <= K
    requires req.tasksCap
    requires m.requests == multiset{req.id} && (m.clean ==> CleanRequest(req))
    requires id in m.s.calls && m.s.calls[id].taskId == Some(tid)
    requires m.clean ==> req.who.agentId == m.s.calls[id].req.who.agentId
    ensures R(m, m.(s := HandOut(m.s, req, id, tid, now), requests := multiset{}))
  {
    BySweep(cfg, R, K, m, now);
    var m1 := m.(s := m.s.(tasks := Tasks.Sweep(m.s.tasks, now)));
    var found := Tasks.Find(m.s.tasks, tid, now);
    var reply := if found.None? then TaskNotFound else Handle(id, tid, found.value);
    ByReply(cfg, R, K, m1, req, reply);
    NoneLeft(req.id);
    ReachesThen(cfg, R, K, m, m1, m1.(s := Answer(m1.s, req, reply), requests := multiset{}));
  }

  /** What the duplicate path relies on: the hit is the entry of a live call with the same key. */
  lemma HitIsLive(cfg: Config, m: Mach, req: Request, key: ToolKey)
    requires TablesOf(m) && Discipline(cfg, m.clean, m.s.calls) && (m.clean ==> CleanRequest(req))
    requires InFlightTable.Lookup(m.s.inflight, req.who.agentId, Str(key), req.hash).Some?
    requires req.name == Str(key)
    ensures var hit := InFlightTable.Lookup(m.s.inflight, req.who.agentId, Str(key), req.hash).value;
            && hit.id in m.s.calls && hit.id in m.s.live
            && hit.taskId == m.s.calls[hit.id].taskId && hit.key == m.s.calls[hit.id].key
            && hit.startedAt == m.s.calls[hit.id].startedAt
            && (m.clean ==> req.who.agentId == m.s.calls[hit.id].req.who.agentId)
  {
    var hit := InFlightTable.Lookup(m.s.inflight, req.who.agentId, Str(key), req.hash).value;
    var c := m.s.calls[hit.id];
    assert Matches(c, hit) && Disciplined(cfg, m.clean, c);
    if m.clean {
      InFlightTable.MapKeyInjective(req.who.agentId, Str(key), req.hash, hit.agent, Str(hit.key), hit.hash);
    }
  }

  lemma DuplicateTurn(cfg: Config, R: Relation, K: set<Kind>, m: Mach, req: Request, hit: InFlightTable.Entry, env: Env)
    requires Closed(cfg, R, K) && NOTICE <= K
    requires m.requests == multiset{req.id} && (m.clean ==> CleanRequest(req))
    requires TaskLinks(m.s.calls, m.s.byTask, m.s.nextId)
    requires hit.id in m.s.calls && hit.id in m.s.live
    requires hit.taskId == m.s.calls[hit.id].taskId && hit.key == m.s.calls[hit.id].key
    requires hit.startedAt == m.s.calls[hit.id].startedAt
    requires m.clean ==> req.who.agentId == m.s.calls[hit.id].req.who.agentId
    ensures R(m, m.(s := OnDuplicate(cfg, m.s, req, hit, env), requests := multiset{}))
  {
    NoneLeft(req.id);
    if !req.tasksCap {
      ByReply(cfg, R, K, m, req, StillRunning(hit.id));
    } else if hit.taskId.Some? {
      HandOutTurn(cfg, R, K, m, req, hit.id, hit.taskId.value, env.now);
    } else {
      FirstHandleTurn(cfg, R, K, m, req, hit, env);
    }
  }

  /** The tail of FirstHandleTurn once the new task is stored. */
  lemma AttachedTurn(cfg: Config, R: Relation, K: set<Kind>, m: Mach, req: Request, id: nat, tid: nat, now: nat)
    requires Closed(cfg, R, K) && NOTICE <= K
    requires req.tasksCap
    requires m.requests == multiset{req.id} && (m.clean ==> CleanRequest(req))
    requires Valid(cfg, m, Attach(id, tid))
    requires m.clean ==> req.who.agentId == m.s.calls[id].req.who.agentId
    ensures R(m, m.(s := HandOut(AttachTask(m.s, id, tid), req, id, tid, now), requests := multiset{}))
  {
    NoneLeft(req.id);
    ByAttach(cfg, R, K, m, id, tid);
    var m2 := m.(s := AttachTask(m.s, id, tid));
    HandOutTurn(cfg, R, K, m2, req, id, tid, now);
    ReachesThen(cfg, R, K, m, m2, m2.(s := HandOut(m2.s, req, id, tid, now), requests := multiset{}));
  }

  lemma NewTaskAttachable(cfg: Config, m: Mach, task: Tasks.Task, id: nat, now: nat)
    requires TaskLinks(m.s.calls, m.s.byTask, m.s.nextId)
    requires id in m.s.calls && m.s.calls[id].taskId.None?
    requires Tasks.HasRoom(m.s.tasks, cfg.maxTasks, m.s.nextId, now)
    requires task.key == m.s.calls[id].key && task.createdAt == m.s.calls[id].startedAt
    requires task.status.Working? && (m.clean ==> task.agent == m.s.calls[id].req.who.agentId)
    ensures Valid(cfg, m.(s := AddTask(cfg, m.s, task, now)), Attach(id, m.s.nextId))
  {
  }

  lemma FirstHandleTurn(cfg: Config, R: Relation, K: set<Kind>, m: Mach, req: Request, hit: InFlightTable.Entry,
                        env: Env)
    requires Closed(cfg, R, K) && NOTICE <= K
    requires m.requests == multiset{req.id} && (m.clean ==> CleanRequest(req))
    requires TaskLinks(m.s.calls, m.s.byTask, m.s.nextId)
    requires hit.id in m.s.calls && hit.id in m.s.live && req.tasksCap
    requires hit.taskId.None? && m.s.calls[hit.id].taskId.None? && hit.key == m.s.calls[hit.id].key
    requires hit.startedAt == m.s.calls[hit.id].startedAt
    requires m.clean ==> req.who.agentId == m.s.calls[hit.id].req.who.agentId
    ensures R(m, m.(s := OnDuplicate(cfg, m.s, req, hit, env), requests := multiset{}))
  {
    NoneLeft(req.id);
    var tid, now, c := m.s.nextId, env.now, m.s.calls[hit.id];
    var task := Engine.NewTask(cfg, req.who.agentId, hit.key, hit.startedAt, now);
    var m1 := m.(s := AddTask(cfg, m.s, task, now));
    ByNewTask(cfg, R, K, m, task, now);
    var n := m.(s := OnDuplicate(cfg, m.s, req, hit, env), requests := multiset{});
    if !Tasks.HasRoom(m.s.tasks, cfg.maxTasks, tid, now) {
      ByReply(cfg, R, K, m1, req, TaskStoreFull);
      assert n.s == Answer(m1.s, req, TaskStoreFull);
    } else {
      NewTaskAttachable(cfg, m, task, hit.id, now);
      AttachedTurn(cfg, R, K, m1, req, hit.id, tid, now);
      assert n.s == HandOut(AttachTask(m1.s, hit.id, tid), req, hit.id, tid, now);
    }
    ReachesThen(cfg, R, K, m, m1, n);
  }

  /** The requests that the policy turns away, or that are for a built-in tool. */
  lemma RefusedTurn(cfg: Config, R: Relation, K: set<Kind>, m: Mach, req: Request, env: Env)
    requires Closed(cfg, R, K) && Still in K && m.requests == multiset{req.id}
    requires var parsed := Parse(req.name);
             || parsed.None? || !Authorize(cfg.catalog, req.who, parsed.value).Allow? || parsed.value.backend == BUILTIN
    ensures R(m, m.(s := HandleCall(cfg, m.s, req, env), requests := multiset{}))
  {
    NoneLeft(req.id);
    var parsed := Parse(req.name);
    var reply := if parsed.None? || Authorize(cfg.catalog, req.who, parsed.value).Unknown? then UnknownTool
                 else if Authorize(cfg.catalog, req.who, parsed.value).Deny? then NotAllowed
                 else BuiltinResult;
    ByReply(cfg, R, K, m, req, reply);
  }

  lemma HandleCallTurn(cfg: Config, R: Relation, K: set<Kind>, m: Mach, req: Request, env: Env)
    requires Closed(cfg, R, K) && Still in K && (if ToGovernor(cfg, m.s, req).None? then NOTICE <= K else RELEASE <= K)
    requires m.permits == [] && m.requests == multiset{req.id} && (m.clean ==> CleanRequest(req))
    requires TablesOf(m) && Discipline(cfg, m.clean, m.s.calls) && Keyed(m.clean, m.s.gov.queues)
    ensures R(m, m.(s := HandleCall(cfg, m.s, req, env), requests := multiset{}))
  {
    var parsed := Parse(req.name);
    if parsed.None? || !Authorize(cfg.catalog, req.who, parsed.value).Allow? || parsed.value.backend == BUILTIN {
      RefusedTurn(cfg, R, K, m, req, env);
    } else {
      AllowedTurn(cfg, R, K, m, req, parsed.value, env);
    }
  }

  lemma HitTurn(cfg: Config, R: Relation, K: set<Kind>, m: Mach, req: Request, key: ToolKey, env: Env)
    requires Closed(cfg, R, K) && NOTICE <= K
    requires m.requests == multiset{req.id} && (m.clean ==> CleanRequest(req))
    requires TablesOf(m) && Discipline(cfg, m.clean, m.s.calls) && Parse(req.name) == Some(key)
    requires var hit := InFlightTable.Lookup(m.s.inflight, req.who.agentId, Str(key), req.hash);
             hit.Some? && req.confirm != Some(hit.value.id)
    ensures R(m, m.(s := Route(cfg, m.s, req, key, env), requests := multiset{}))
  {
    HitIsLive(cfg, m, req, key);
    var hit := InFlightTable.Lookup(m.s.inflight, req.who.agentId, Str(key), req.hash).value;
    DuplicateTurn(cfg, R, K, m, req, hit, env);
  }

  lemma AskTurn(cfg: Config, R: Relation, K: set<Kind>, m: Mach, req: Request, key: ToolKey, env: Env)
    requires Closed(cfg, R, K) && RELEASE <= K
    requires m.permits == [] && m.requests == multiset{req.id} && (m.clean ==> CleanRequest(req))
    requires InFlightTable.Sound(m.s.inflight) && Keyed(m.clean, m.s.gov.queues) && Parse(req.name) == Some(key)
    requires var hit := InFlightTable.Lookup(m.s.inflight, req.who.agentId, Str(key), req.hash);
             !m.s.stopping && (hit.Some? ==> req.confirm == Some(hit.value.id))
    ensures R(m, m.(s := Route(cfg, m.s, req, key, env), requests := multiset{}))
  {
    AcquireTurn(cfg, R, K, m, req, key, WaitDeadline(cfg, Str(key), env.now), ViaOf(m.s, req, key), env);
  }

  lemma AllowedTurn(cfg: Config, R: Relation, K: set<Kind>, m: Mach, req: Request, key: ToolKey, env: Env)
    requires Closed(cfg, R, K) && Still in K
    requires m.permits == [] && m.requests == multiset{req.id} && (m.clean ==> CleanRequest(req))
    requires TablesOf(m) && Discipline(cfg, m.clean, m.s.calls) && Keyed(m.clean, m.s.gov.queues)
    requires Parse(req.name) == Some(key)
    requires var hit := InFlightTable.Lookup(m.s.inflight, req.who.agentId, Str(key), req.hash);
             if hit.Some? && req.confirm != Some(hit.value.id) then NOTICE <= K else m.s.stopping || RELEASE <= K
    ensures R(m, m.(s := Route(cfg, m.s, req, key, env), requests := multiset{}))
  {
    NoneLeft(req.id);
    var hit := InFlightTable.Lookup(m.s.inflight, req.who.agentId, Str(key), req.hash);
    if hit.Some? && req.confirm != Some(hit.value.id) {
      HitTurn(cfg, R, K, m, req, key, env);
    } else if m.s.stopping {
      ByReply(cfg, R, K, m, req, Draining);
    } else {
      AskTurn(cfg, R, K, m, req, key, env);
    }
  }

  lemma AcceptTurn(cfg: Config, R: Relation, K: set<Kind>, m: Mach, req: Request)
    requires Closed(cfg, R, K) && Still in K && m.requests == multiset{}
    ensures var r := Stamped(m.s, req); R(m, m.(s := Arrived(m.s), requests := multiset{r.id}))
  {
    var r := Stamped(m.s, req);
    ReachesOne(cfg, R, K, m, Accept(r));
    assert m.requests + multiset{r.id} == multiset{r.id};
  }

  lemma ArriveTurn(cfg: Config, R: Relation, K: set<Kind>, m: Mach, req: Request, env: Env)
    requires Closed(cfg, R, K) && Still in K
    requires if ToGovernor(cfg, Arrived(m.s), Stamped(m.s, req)).None? then NOTICE <= K else RELEASE <= K
    requires TablesOf(m) && Discipline(cfg, m.clean, m.s.calls) && Keyed(m.clean, m.s.gov.queues)
    requires m.permits == [] && m.requests == multiset{} && (m.clean ==> CleanRequest(req))
    ensures R(m, m.(s := HandleCall(cfg, Arrived(m.s), Stamped(m.s, req), env)))
  {
    var r := Stamped(m.s, req);
    var m1 := m.(s := Arrived(m.s), requests := multiset{r.id});
    AcceptTurn(cfg, R, K, m, req);
    HandleCallTurn(cfg, R, K, m1, r, env);
    ReachesThen(cfg, R, K, m, m1, m.(s := HandleCall(cfg, m1.s, r, env)));
  }

  // ------------------------------------------------------------------ timers and upstream answers

  lemma WaitTimerTurn(cfg: Config, R: Relation, K: set<Kind>, m: Mach, ts: string, waitId: nat)
    requires Closed(cfg, R, K) && Still in K && Leave in K
    requires Keyed(m.clean, m.s.gov.queues)
    ensures R(m, m.(s := OnWaitTimer(m.s, ts, waitId)))
  {
    var q := Queue(m.s.gov, ts);
    var i := FindWaiter(q, waitId);
    if i == |q| {
      ReachesSelf(cfg, R, K, m);
    } else {
      ByTakeOut(cfg, R, K, m, ts, i);
      var m1 := m.(s := m.s.(gov := SetQueue(m.s.gov, ts, q[..i] + q[i + 1..])),
                   requests := m.requests + multiset{q[i].req.id});
      ByReply(cfg, R, K, m1, q[i].req, Throttled);
      Cancels(m.requests, q[i].req.id);
      ReachesThen(cfg, R, K, m, m1, m.(s := Answer(m1.s, q[i].req, Throttled)));
    }
  }

  lemma ByRespond(cfg: Config, R: Relation, K: set<Kind>, m: Mach, id: nat, reply: Engine.Reply)
    requires Closed(cfg, R, K) && KindOf(Move.Respond(id, reply)) in K
    requires Valid(cfg, m, Respond(id, reply))
    ensures R(m, m.(s := Engine.Respond(m.s, id, reply)))
  {
    ReachesOne(cfg, R, K, m, Respond(id, reply));
  }

  lemma PromoteToTurn(cfg: Config, R: Relation, K: set<Kind>, m: Mach, id: nat, tid: nat, now: nat)
    requires Closed(cfg, R, K) && NOTICE <= K
    requires id in m.s.calls && m.s.calls[id].req.tasksCap
    requires id in m.s.calls && !m.s.calls[id].responded && m.s.calls[id].taskId == Some(tid)
    ensures R(m, m.(s := PromoteTo(m.s, id, tid, now)))
  {
    BySweep(cfg, R, K, m, now);
    var m1 := m.(s := m.s.(tasks := Tasks.Sweep(m.s.tasks, now)));
    var found := Tasks.Find(m.s.tasks, tid, now);
    var reply := if found.None? then TaskNotFound else Handle(id, tid, found.value);
    ByRespond(cfg, R, K, m1, id, reply);
    ReachesThen(cfg, R, K, m, m1, m1.(s := Engine.Respond(m1.s, id, reply)));
  }

  lemma FirstPromoteTurn(cfg: Config, R: Relation, K: set<Kind>, m: Mach, id: nat, now: nat)
    requires Closed(cfg, R, K) && NOTICE <= K
    requires TaskLinks(m.s.calls, m.s.byTask, m.s.nextId)
    requires id in m.s.calls && !m.s.calls[id].responded && !m.s.calls[id].cancelled
    requires m.s.calls[id].taskId.None? && m.s.calls[id].req.tasksCap
    ensures R(m, m.(s := OnPromote(cfg, m.s, id, now)))
  {
    var tid, c := m.s.nextId, m.s.calls[id];
    var task := Engine.NewTask(cfg, c.req.who.agentId, c.key, c.startedAt, now);
    var m1 := m.(s := AddTask(cfg, m.s, task, now));
    ByNewTask(cfg, R, K, m, task, now);
    var n := m.(s := OnPromote(cfg, m.s, id, now));
    if !Tasks.HasRoom(m.s.tasks, cfg.maxTasks, tid, now) {
      ByRespond(cfg, R, K, m1, id, TaskStoreFull);
      assert n.s == Engine.Respond(m1.s, id, TaskStoreFull);
    } else {
      NewTaskAttachable(cfg, m, task, id, now);
      ByAttach(cfg, R, K, m1, id, tid);
      var m2 := m1.(s := AttachTask(m1.s, id, tid));
      PromoteToTurn(cfg, R, K, m2, id, tid, now);
      assert n.s == PromoteTo(m2.s, id, tid, now);
      ReachesThen(cfg, R, K, m1, m2, n);
    }
    ReachesThen(cfg, R, K, m, m1, n);
  }

  lemma OnPromoteTurn(cfg: Config, R: Relation, K: set<Kind>, m: Mach, id: nat, now: nat)
    requires Closed(cfg, R, K) && NOTICE <= K
    requires TaskLinks(m.s.calls, m.s.byTask, m.s.nextId) && id in m.s.calls
    ensures R(m, m.(s := OnPromote(cfg, m.s, id, now)))
  {
    var c := m.s.calls[id];
    if c.responded || c.cancelled {
      ReachesSelf(cfg, R, K, m);
    } else if !c.req.tasksCap {
      ByRespond(cfg, R, K, m, id, MissingCapability);
    } else if c.taskId.Some? {
      PromoteToTurn(cfg, R, K, m, id, c.taskId.value, now);
    } else {
      FirstPromoteTurn(cfg, R, K, m, id, now);
    }
  }

  lemma PromoteTurn(cfg: Config, R: Relation, K: set<Kind>, m: Mach, id: nat, now: nat)
    requires Closed(cfg, R, K) && NOTICE <= K && Timer in K
    requires TaskLinks(m.s.calls, m.s.byTask, m.s.nextId) && id in m.s.calls
    ensures var s1 := OnPromote(cfg, m.s, id, now);
            id in s1.calls && R(m, m.(s := SetCall(s1, id, s1.calls[id].(timer := false))))
  {
    var m1 := m.(s := OnPromote(cfg, m.s, id, now));
    OnPromoteTurn(cfg, R, K, m, id, now);
    ReachesOne(cfg, R, K, m1, TimerGone(id));
    ReachesThen(cfg, R, K, m, m1, m.(s := SetCall(m1.s, id, m1.s.calls[id].(timer := false))));
  }

  lemma AbsorbTurn(cfg: Config, R: Relation, K: set<Kind>, m: Mach, id: nat, klass: Retry.Klass, isError: bool,
                   now: nat)
    requires Closed(cfg, R, K) && Still in K
    requires id in m.s.calls && m.s.calls[id].outstanding > 0 && m.s.calls[id].cancelled
    ensures R(m, m.(s := OnUpstream(cfg, m.s, id, klass, isError, now)))
  {
    var c := m.s.calls[id].(outstanding := m.s.calls[id].outstanding - 1);
    assert m.s.calls[id := c][id := c.(upstreamDone := true)] == m.s.calls[id := c.(upstreamDone := true)];
    ReachesOne(cfg, R, K, m, Absorb(id, klass));
  }

  function Refired(s: St, id: nat, klass: Retry.Klass): St
    requires id in s.calls && s.calls[id].outstanding > 0
  {
    FireAttempt(Received(s, id, klass), id)
  }

  lemma RetryTurn(cfg: Config, R: Relation, K: set<Kind>, m: Mach, id: nat, klass: Retry.Klass)
    requires Closed(cfg, R, K) && Again in K
    requires Valid(cfg, m, FireAgain(id, klass))
    ensures R(m, m.(s := Refired(m.s, id, klass)))
  {
    var u := Refired(m.s, id, klass);
    assert u.calls == m.s.calls[id := u.calls[id]];
    ReachesOne(cfg, R, K, m, FireAgain(id, klass));
  }

  function Concluded(s: St, id: nat, klass: Retry.Klass, isError: bool, now: nat): St
    requires id in s.calls && s.calls[id].outstanding > 0
  {
    Conclude(Received(s, id, klass), id, klass, isError, now)
  }

  /** Conclude, field by field: a call answered before is not answered again. */
  lemma ConcludeIs(s: St, id: nat, klass: Retry.Klass, isError: bool, now: nat)
    requires id in s.calls
    ensures var c := s.calls[id];
            Conclude(s, id, klass, isError, now)
            == s.(calls := s.calls[id := c.(upstreamDone := true, timer := false, responded := true)],
                  log := if c.responded then s.log else s.log + [Replied(c.req, Result(klass, isError))],
                  tasks := if c.taskId.None? then s.tasks
                           else Tasks.SetStatus(s.tasks, c.taskId.value, Outcome(klass, isError), now))
  {
    var c := s.calls[id].(upstreamDone := true, timer := false);
    var s1 := SetCall(s, id, c);
    var s2 := if c.taskId.Some? then SetStatus(s1, c.taskId.value, Outcome(klass, isError), now) else s1;
    assert s2.calls == s1.calls && s2.log == s.log;
    RespondIs(s2, id, Result(klass, isError));
    assert s.calls[id := c][id := c.(responded := true)] == s.calls[id := c.(responded := true)];
  }

  /** Respond, field by field. */
  lemma RespondIs(s: St, id: nat, reply: Engine.Reply)
    requires id in s.calls
    ensures var c := s.calls[id];
            Engine.Respond(s, id, reply)
            == s.(calls := s.calls[id := c.(responded := true)],
                  log := if c.responded then s.log else s.log + [Replied(c.req, reply)])
  {
    var c := s.calls[id];
    if c.responded {
      assert c == c.(responded := true) && s.calls[id := c] == s.calls;
    }
  }

  /** The same from the moment the answer comes in. */
  lemma ConcludedIs(s: St, id: nat, klass: Retry.Klass, isError: bool, now: nat)
    requires id in s.calls && s.calls[id].outstanding > 0
    ensures var c := s.calls[id];
            Concluded(s, id, klass, isError, now)
            == s.(calls := s.calls[id := CallAfter(c, Finish(id, klass, isError, now))],
                  log := if c.responded then s.log + [Returned(id, klass)]
                         else s.log + [Returned(id, klass)] + [Replied(c.req, Result(klass, isError))],
                  tasks := if c.taskId.None? then s.tasks
                           else Tasks.SetStatus(s.tasks, c.taskId.value, Outcome(klass, isError), now))
  {
    var c := s.calls[id].(outstanding := s.calls[id].outstanding - 1);
    var d := CallAfter(s.calls[id], Finish(id, klass, isError, now));
    ConcludeIs(Received(s, id, klass), id, klass, isError, now);
    assert s.calls[id := c][id := d] == s.calls[id := d];
  }

  lemma FinishTurn(cfg: Config, R: Relation, K: set<Kind>, m: Mach, id: nat, klass: Retry.Klass, isError: bool,
                   now: nat)
    requires Closed(cfg, R, K) && Settle in K
    requires id in m.s.calls && m.s.calls[id].outstanding > 0 && !m.s.calls[id].cancelled
    ensures R(m, m.(s := Concluded(m.s, id, klass, isError, now)))
  {
    ConcludedIs(m.s, id, klass, isError, now);
    ReachesOne(cfg, R, K, m, Finish(id, klass, isError, now));
  }

  /** The breaker as the upstream callback leaves it. */
  function Judged(cfg: Config, s: St, id: nat, klass: Retry.Klass, isError: bool, now: nat): St
    requires id in s.calls
  {
    s.(slots := Judge(cfg, s.slots, s.calls[id].key.backend, klass == Retry.Ok && !isError, now))
  }

  predicate RetriesOn(cfg: Config, s: St, id: nat, klass: Retry.Klass, now: nat)
    requires id in s.calls && s.calls[id].outstanding > 0
  {
    Retries(cfg, s.slots, s.calls[id].(outstanding := s.calls[id].outstanding - 1), klass, now)
  }

  /** It makes no difference to the tables whether the breaker counts before or after the call does. */
  lemma JudgedReceived(cfg: Config, s: St, id: nat, klass: Retry.Klass, isError: bool, now: nat)
    requires id in s.calls && s.calls[id].outstanding > 0
    ensures var s1 := Judged(cfg, s, id, klass, isError, now);
            Received(s1, id, klass) == Received(s, id, klass).(slots := s1.slots)
  {
  }

  lemma OnUpstreamIs(cfg: Config, s: St, id: nat, klass: Retry.Klass, isError: bool, now: nat)
    requires id in s.calls && s.calls[id].outstanding > 0 && !s.calls[id].cancelled
    ensures var s1 := Judged(cfg, s, id, klass, isError, now);
            OnUpstream(cfg, s, id, klass, isError, now)
            == if RetriesOn(cfg, s, id, klass, now) then Refired(s1, id, klass)
               else Concluded(s1, id, klass, isError, now)
  {
    var s1 := Judged(cfg, s, id, klass, isError, now);
    JudgedReceived(cfg, s, id, klass, isError, now);
    var c := Received(s, id, klass).calls[id];
    assert c == s.calls[id].(outstanding := s.calls[id].outstanding - 1);
  }

  lemma RetryIsValid(cfg: Config, m: Mach, id: nat, klass: Retry.Klass, now: nat)
    requires id in m.s.calls && m.s.calls[id].outstanding > 0 && RetriesOn(cfg, m.s, id, klass, now)
    ensures Valid(cfg, m, FireAgain(id, klass))
  {
  }

  /** What an answer tells the breaker. */
  function ReportOf(klass: Retry.Klass, isError: bool, now: nat): Circuit.Event {
    if klass == Retry.Ok && !isError then Circuit.Success else Circuit.Failure(now)
  }

  lemma JudgedTurn(cfg: Config, R: Relation, K: set<Kind>, m: Mach, id: nat, klass: Retry.Klass, isError: bool,
                   now: nat)
    requires Closed(cfg, R, K) && Still in K && Report in K && id in m.s.calls
    ensures R(m, m.(s := Judged(cfg, m.s, id, klass, isError, now)))
  {
    var key := m.s.calls[id].key;
    var m1 := m.(s := ReadSlot(m.s, key, now));
    var n := m.(s := Judged(cfg, m.s, id, klass, isError, now));
    ByRead(cfg, R, K, m, key, now);
    ByWeigh(cfg, R, K, m1, key.backend, ReportOf(klass, isError, now));
    assert n.s.slots == m1.s.slots[key.backend := n.s.slots[key.backend]];
    ReachesThen(cfg, R, K, m, m1, n);
  }

  lemma UpstreamTurn(cfg: Config, R: Relation, K: set<Kind>, m: Mach, id: nat, klass: Retry.Klass, isError: bool,
                     now: nat)
    requires Closed(cfg, R, K) && Still in K
    requires id in m.s.calls && m.s.calls[id].outstanding > 0
    requires m.s.calls[id].cancelled || (Again in K && Settle in K && Report in K)
    ensures R(m, m.(s := OnUpstream(cfg, m.s, id, klass, isError, now)))
  {
    if m.s.calls[id].cancelled {
      AbsorbTurn(cfg, R, K, m, id, klass, isError, now);
    } else {
      OnUpstreamIs(cfg, m.s, id, klass, isError, now);
      var m1 := m.(s := Judged(cfg, m.s, id, klass, isError, now));
      JudgedTurn(cfg, R, K, m, id, klass, isError, now);
      if RetriesOn(cfg, m.s, id, klass, now) {
        RetryIsValid(cfg, m, id, klass, now);
        RetryTurn(cfg, R, K, m1, id, klass);
        ReachesThen(cfg, R, K, m, m1, m.(s := Refired(m1.s, id, klass)));
      } else {
        FinishTurn(cfg, R, K, m1, id, klass, isError, now);
        ReachesThen(cfg, R, K, m, m1, m.(s := Concluded(m1.s, id, klass, isError, now)));
      }
    }
  }

  // ------------------------------------------------------------------ the end of a call

  lemma DropTurn(cfg: Config, R: Relation, K: set<Kind>, m: Mach, id: nat, env: Env)
    requires Closed(cfg, R, K) && RELEASE <= K
    requires Discipline(cfg, m.clean, m.s.calls) && Keyed(m.clean, m.s.gov.queues) && m.permits == []
    requires id in m.s.calls && Unowned(m.s.calls[id])
    ensures R(m, m.(s := DropPermit(cfg, Engine.Destroy(m.s, id), m.s.calls[id].permit, env)))
  {
    var p := m.s.calls[id].permit;
    assert Disciplined(cfg, m.clean, m.s.calls[id]);
    ReachesOne(cfg, R, K, m, Destroy(id));
    var m1 := m.(s := Engine.Destroy(m.s, id), permits := m.permits + [p]);
    ReleaseTurn(cfg, R, K, m1, p, env);
    DropIsRelease(cfg, m1.s, p, env);
    assert m1.permits[..|m1.permits| - 1] == m.permits;
    ReachesThen(cfg, R, K, m, m1, m.(s := DropPermit(cfg, m1.s, p, env)));
  }

  lemma ByCancelWait(cfg: Config, R: Relation, K: set<Kind>, m: Mach, id: nat, now: nat)
    requires Closed(cfg, R, K) && Cancel in K
    requires id in m.s.calls
    ensures R(m, m.(s := Engine.CancelWait(m.s, id, now)))
  {
    var u := Engine.CancelWait(m.s, id, now);
    assert u.calls == m.s.calls[id := u.calls[id]];
    ReachesOne(cfg, R, K, m, CancelWait(id, now));
  }

  lemma SetStatusTwice(m: Tasks.Store, id: nat, status: Tasks.Status, now: nat)
    ensures Tasks.SetStatus(Tasks.SetStatus(m, id, status, now), id, status, now)
         == Tasks.SetStatus(m, id, status, now)
  {
  }

  lemma SetStatusCancelWait(s: St, tid: nat, id: nat, now: nat)
    requires id in s.calls && s.calls[id].taskId == Some(tid)
    ensures Engine.CancelWait(SetStatus(s, tid, Tasks.Cancelled, now), id, now) == Engine.CancelWait(s, id, now)
  {
    SetStatusTwice(s.tasks, tid, Tasks.Cancelled, now);
  }

  lemma TaskCancelTurn(cfg: Config, R: Relation, K: set<Kind>, m: Mach, tid: nat, agent: string, now: nat)
    requires Closed(cfg, R, K) && Store in K && Cancel in K
    requires TaskLinks(m.s.calls, m.s.byTask, m.s.nextId)
    ensures R(m, m.(s := OnCancel(m.s, tid, agent, now)))
  {
    var m1 := m.(s := m.s.(tasks := Tasks.Sweep(m.s.tasks, now)));
    BySweep(cfg, R, K, m, now);
    var found := Tasks.Find(m.s.tasks, tid, now);
    if found.Some? && found.value.agent == agent {
      var n := m.(s := OnCancel(m.s, tid, agent, now));
      if tid in m.s.byTask {
        SetStatusCancelWait(m1.s, tid, m.s.byTask[tid], now);
        ByCancelWait(cfg, R, K, m1, m.s.byTask[tid], now);
      } else {
        ReachesOne(cfg, R, K, m1, CancelOrphan(tid, now));
      }
      ReachesThen(cfg, R, K, m, m1, n);
    }
  }

  lemma {:induction false} CancelAllTurn(cfg: Config, R: Relation, K: set<Kind>, m: Mach, order: seq<nat>, now: nat)
    requires Closed(cfg, R, K) && Cancel in K
    ensures R(m, m.(s := CancelAll(m.s, order, now)))
    decreases |order|
  {
    if order == [] {
      ReachesSelf(cfg, R, K, m);
    } else {
      var m1 := m.(s := if order[0] in m.s.calls then Engine.CancelWait(m.s, order[0], now) else m.s);
      if order[0] in m.s.calls { ByCancelWait(cfg, R, K, m, order[0], now); } else { ReachesSelf(cfg, R, K, m); }
      CancelAllTurn(cfg, R, K, m1, order[1..], now);
      ReachesThen(cfg, R, K, m, m1, m.(s := CancelAll(m.s, order, now)));
    }
  }

  lemma {:induction false} RejectQueueTurn(cfg: Config, R: Relation, K: set<Kind>, m: Mach, ts: string)
    requires Closed(cfg, R, K) && Still in K && Leave in K
    requires Keyed(m.clean, m.s.gov.queues)
    ensures R(m, m.(s := RejectQueue(m.s, ts)))
    ensures Keyed(m.clean, RejectQueue(m.s, ts).gov.queues)
    decreases |Queue(m.s.gov, ts)|
  {
    var q := Queue(m.s.gov, ts);
    if q == [] {
      ReachesSelf(cfg, R, K, m);
    } else {
      var m1 := m.(s := m.s.(gov := SetQueue(m.s.gov, ts, q[1..])), requests := m.requests + multiset{q[0].req.id});
      ByPop(cfg, R, K, m, ts);
      PopKeyed(m, ts);
      ByReply(cfg, R, K, m1, q[0].req, Throttled);
      Cancels(m.requests, q[0].req.id);
      var m2 := m.(s := Answer(m1.s, q[0].req, Throttled));
      ReachesThen(cfg, R, K, m, m1, m2);
      RejectQueueTurn(cfg, R, K, m2, ts);
      ReachesThen(cfg, R, K, m, m2, m.(s := RejectQueue(m2.s, ts)));
    }
  }

  lemma {:induction false} RejectAllTurn(cfg: Config, R: Relation, K: set<Kind>, m: Mach, order: seq<string>)
    requires Closed(cfg, R, K) && Still in K && Leave in K
    requires Keyed(m.clean, m.s.gov.queues)
    ensures R(m, m.(s := RejectAll(m.s, order)))
    decreases |order|
  {
    if order == [] {
      ReachesSelf(cfg, R, K, m);
    } else {
      RejectQueueTurn(cfg, R, K, m, order[0]);
      var m1 := m.(s := RejectQueue(m.s, order[0]));
      RejectAllTurn(cfg, R, K, m1, order[1..]);
      ReachesThen(cfg, R, K, m, m1, m.(s := RejectAll(m1.s, order[1..])));
    }
  }

  lemma {:induction false} CancelAllQueues(s: St, order: seq<nat>, now: nat)
    ensures CancelAll(s, order, now).gov == s.gov
    decreases |order|
  {
    if order != [] {
      CancelAllQueues(if order[0] in s.calls then Engine.CancelWait(s, order[0], now) else s, order[1..], now);
    }
  }

  lemma StopTurn(cfg: Config, R: Relation, K: set<Kind>, m: Mach, calls: seq<nat>, queues: seq<string>, now: nat)
    requires Closed(cfg, R, K) && Still in K && Cancel in K && Leave in K
    requires Keyed(m.clean, m.s.gov.queues)
    ensures R(m, m.(s := RejectAll(CancelAll(m.s.(stopping := true), calls, now), queues)))
  {
    var m1 := m.(s := m.s.(stopping := true));
    ReachesOne(cfg, R, K, m, StartDraining);
    CancelAllTurn(cfg, R, K, m1, calls, now);
    CancelAllQueues(m1.s, calls, now);
    var m2 := m.(s := CancelAll(m1.s, calls, now));
    ReachesThen(cfg, R, K, m, m1, m2);
    RejectAllTurn(cfg, R, K, m2, queues);
    ReachesThen(cfg, R, K, m, m2, m.(s := RejectAll(m2.s, queues)));
  }

  predicate CleanEvent(e: Event) { e.Arrive? ==> CleanRequest(e.req) }

  function Idle(s: St, clean: bool): Mach { Mach(s, [], multiset{}, clean) }

  /** The kinds of moves that the turn of an event is made of. */
  function TurnKinds(cfg: Config, s: St, e: Event): set<Kind> {
    if !Enabled(s, e) then {}
    else
      match e
      case Arrive(req) =>
        if ToGovernor(cfg, Arrived(s), Stamped(s, req)).None? then NOTICE else RELEASE
      case WaitTimer(_, _) => {Still, Leave}
      case Promote(_) => NOTICE + {Timer}
      case Upstream(id, _, _) => if s.calls[id].cancelled then {Still} else {Still, Again, Settle, Report}
      case Drop(_) => RELEASE
      case TaskGet => {Store}
      case TaskCancel(_, _) => {Store, Cancel}
      case Stop(_, _) => {Still, Cancel, Leave}
      case ToolsListed(_, _) => {Limits}
      case ProbeOk(_) => {Report}
  }

  /** The decomposition: whatever the event, its turn is a run of valid moves, of the kinds that belong to
      the event, from idle to idle. */
  lemma StepTurn(cfg: Config, R: Relation, K: set<Kind>, clean: bool, s: St, e: Event, env: Env)
    requires Closed(cfg, R, K) && TurnKinds(cfg, s, e) <= K
    requires Inv(cfg, Idle(s, clean)) && (clean ==> CleanEvent(e))
    ensures R(Idle(s, clean), Idle(Step(cfg, s, e, env), clean))
  {
    var m := Idle(s, clean);
    if !Enabled(s, e) {
      ReachesSelf(cfg, R, K, m);
    } else if e.Arrive? {
      ArriveTurn(cfg, R, K, m, e.req, env);
    } else if e.Promote? || e.Upstream? || e.Drop? {
      CallTurn(cfg, R, K, clean, s, e, env);
    } else if e.TaskCancel? || e.Stop? || e.WaitTimer? {
      TableTurn(cfg, R, K, clean, s, e, env);
    } else {
      SmallTurn(cfg, R, K, clean, s, e, env);
    }
  }

  lemma CallTurn(cfg: Config, R: Relation, K: set<Kind>, clean: bool, s: St, e: Event, env: Env)
    requires Closed(cfg, R, K) && TurnKinds(cfg, s, e) <= K && Enabled(s, e)
    requires (e.Promote? || e.Upstream? || e.Drop?)
    requires Discipline(cfg, clean, s.calls) && Keyed(clean, s.gov.queues)
    requires TaskLinks(s.calls, s.byTask, s.nextId)
    ensures R(Idle(s, clean), Idle(Step(cfg, s, e, env), clean))
  {
    var m := Idle(s, clean);
    if e.Promote? {
      PromoteTurn(cfg, R, K, m, e.id, env.now);
    } else if e.Upstream? {
      UpstreamTurn(cfg, R, K, m, e.id, e.klass, e.isError, env.now);
    } else {
      DropTurn(cfg, R, K, m, e.id, env);
    }
  }

  lemma TableTurn(cfg: Config, R: Relation, K: set<Kind>, clean: bool, s: St, e: Event, env: Env)
    requires Closed(cfg, R, K) && TurnKinds(cfg, s, e) <= K && Enabled(s, e)
    requires (e.TaskCancel? || e.Stop? || e.WaitTimer?)
    requires Keyed(clean, s.gov.queues) && TaskLinks(s.calls, s.byTask, s.nextId)
    ensures R(Idle(s, clean), Idle(Step(cfg, s, e, env), clean))
  {
    var m := Idle(s, clean);
    if e.TaskCancel? {
      TaskCancelTurn(cfg, R, K, m, e.taskId, e.agent, env.now);
    } else if e.Stop? {
      StopTurn(cfg, R, K, m, e.calls, e.queues, env.now);
    } else {
      WaitTimerTurn(cfg, R, K, m, e.tool, e.waitId);
    }
  }

  lemma SmallTurn(cfg: Config, R: Relation, K: set<Kind>, clean: bool, s: St, e: Event, env: Env)
    requires Closed(cfg, R, K) && TurnKinds(cfg, s, e) <= K
    requires (e.TaskGet? || e.ToolsListed? || e.ProbeOk?)
    ensures R(Idle(s, clean), Idle(Step(cfg, s, e, env), clean))
  {
    var m := Idle(s, clean);
    if e.TaskGet? {
      BySweep(cfg, R, K, m, env.now);
    } else if e.ToolsListed? {
      ReachesOne(cfg, R, K, m, Listing(e.backend, e.tools));
    } else {
      ByWeigh(cfg, R, K, m, e.backend, Circuit.Probe);
    }
  }

  ghost predicate KeepsInv(cfg: Config, m: Mach, n: Mach) {
    Inv(cfg, m) ==> Inv(cfg, n)
  }

  lemma KeepsInvClosed(cfg: Config)
    ensures Closed(cfg, (m, n) => KeepsInv(cfg, m, n), ALL)
  {
    forall m, v | Valid(cfg, m, v) ensures KeepsInv(cfg, m, Do(cfg, m, v)) {
      if Inv(cfg, m) { InvKept(cfg, m, v); }
    }
  }

  lemma AllKinds(cfg: Config, s: St, e: Event)
    ensures TurnKinds(cfg, s, e) <= ALL
  {
  }

  lemma StepKeeps(cfg: Config, clean: bool, s: St, e: Event, env: Env)
    requires Inv(cfg, Idle(s, clean)) && (clean ==> CleanEvent(e))
    ensures Inv(cfg, Idle(Step(cfg, s, e, env), clean))
  {
    KeepsInvClosed(cfg);
    AllKinds(cfg, s, e);
    StepTurn(cfg, (m, n) => KeepsInv(cfg, m, n), ALL, clean, s, e, env);
    assert KeepsInv(cfg, Idle(s, clean), Idle(Step(cfg, s, e, env), clean));
  }

  predicate CleanTurns(turns: seq<Turn>) {
    forall i :: 0 <= i < |turns| ==> CleanEvent(turns[i].event)
  }

  lemma {:induction false} RunKeeps(cfg: Config, clean: bool, s: St, turns: seq<Turn>)
    requires Inv(cfg, Idle(s, clean)) && (clean ==> CleanTurns(turns))
    ensures Inv(cfg, Idle(RunFrom(cfg, s, turns), clean))
  {
    if turns != [] {
      var last := turns[|turns| - 1];
      RunKeeps(cfg, clean, s, turns[..|turns| - 1]);
      StepKeeps(cfg, clean, RunFrom(cfg, s, turns[..|turns| - 1]), last.event, last.env);
    }
  }

  /** Every state any run can reach satisfies the whole invariant. */
  lemma RunInv(cfg: Config, clean: bool, turns: seq<Turn>)
    requires clean ==> CleanTurns(turns)
    ensures Inv(cfg, Idle(Run(cfg, turns), clean))
  {
    InvStart(cfg, clean);
    RunKeeps(cfg, clean, Init(cfg), turns);
  }
}
