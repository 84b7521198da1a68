/** What a request is told, and why: every reply of every run with its ground in the tables, the clock and the
    configuration (src/pipeline/Pipeline.cpp:159-369, 382-405, 511-560, 596-604). */
module EngineReplies {
  import opened Options
  import opened ToolKeys
  import opened Access
  import opened Engine
  import opened EngineInvariant
  import opened EngineMoves
  import opened EngineKeeps
  import opened EngineTurns
  import EngineCauses
  import InFlightTable
  import Tasks

  // ------------------------------------------------------------------ replies about a task

  /** A task that is stored and alive is handed out as it is. */
  function HandleOf(tasks: Tasks.Store, id: nat, tid: nat, now: nat): Reply {
    if tid in tasks && Tasks.Alive(tasks[tid], now) then Handle(id, tid, tasks[tid]) else TaskNotFound
  }

  /** What `agent` is told about the task of call `id`: the one that it has, or a new one if there is room for it. */
  function TaskReply(cfg: Config, s: St, id: nat, agent: string, now: nat): Reply
    requires id in s.calls
  {
    var c := s.calls[id];
    if c.taskId.Some? then HandleOf(s.tasks, id, c.taskId.value, now)
    else if |Tasks.AliveIds(s.tasks, now)| >= cfg.maxTasks then TaskStoreFull
    else HandleOf(map[s.nextId := Tasks.Task(agent, c.key, Tasks.Working, c.startedAt, now, cfg.taskTtlMs)],
                id, s.nextId, now)
  }

  lemma FoundIs(m: Tasks.Store, id: nat, tid: nat, now: nat)
    ensures var found := Tasks.Find(m, tid, now);
            HandleOf(m, id, tid, now) == if found.Some? then Handle(id, tid, found.value) else TaskNotFound
  {
  }

  lemma AddedIs(cfg: Config, s: St, task: Tasks.Task, id: nat, now: nat)
    requires s.nextId !in s.tasks
    ensures Tasks.HasRoom(s.tasks, cfg.maxTasks, s.nextId, now) <==> |Tasks.AliveIds(s.tasks, now)| < cfg.maxTasks
    ensures Tasks.HasRoom(s.tasks, cfg.maxTasks, s.nextId, now) ==>
              HandleOf(AddTask(cfg, s, task, now).tasks, id, s.nextId, now)
              == HandleOf(map[s.nextId := task], id, s.nextId, now)
  {
    assert Tasks.Sweep(s.tasks, now).Keys == Tasks.AliveIds(s.tasks, now);
  }

  lemma HandOutSays(s: St, req: Request, id: nat, tid: nat, now: nat)
    ensures HandOut(s, req, id, tid, now).log == s.log + [Replied(req, HandleOf(s.tasks, id, tid, now))]
  {
    FoundIs(s.tasks, id, tid, now);
  }

  lemma PromoteToSays(s: St, id: nat, tid: nat, now: nat)
    requires id in s.calls && !s.calls[id].responded
    ensures var t := PromoteTo(s, id, tid, now);
            && t.log == s.log + [Replied(s.calls[id].req, HandleOf(s.tasks, id, tid, now))]
            && t.calls == s.calls[id := s.calls[id].(responded := true)]
  {
    FoundIs(s.tasks, id, tid, now);
  }

  lemma FirstHandleSays(cfg: Config, s: St, req: Request, hit: InFlightTable.Entry, env: Env)
    requires s.nextId !in s.tasks && hit.id in s.calls && hit.id in s.live
    requires req.tasksCap && hit.taskId.None? && s.calls[hit.id].taskId.None?
    requires hit.key == s.calls[hit.id].key && hit.startedAt == s.calls[hit.id].startedAt
    ensures OnDuplicate(cfg, s, req, hit, env).log
         == s.log + [Replied(req, TaskReply(cfg, s, hit.id, req.who.agentId, env.now))]
  {
    var task := Engine.NewTask(cfg, req.who.agentId, hit.key, hit.startedAt, env.now);
    var s1 := AddTask(cfg, s, task, env.now);
    AddedIs(cfg, s, task, hit.id, env.now);
    HandOutSays(AttachTask(s1, hit.id, s.nextId), req, hit.id, s.nextId, env.now);
  }

  lemma DuplicateSays(cfg: Config, s: St, req: Request, hit: InFlightTable.Entry, env: Env)
    requires s.nextId !in s.tasks && hit.id in s.calls && hit.id in s.live
    requires hit.taskId == s.calls[hit.id].taskId
    requires hit.key == s.calls[hit.id].key && hit.startedAt == s.calls[hit.id].startedAt
    ensures OnDuplicate(cfg, s, req, hit, env).log
         == s.log + [Replied(req, if req.tasksCap then TaskReply(cfg, s, hit.id, req.who.agentId, env.now)
                                  else StillRunning(hit.id))]
  {
    if req.tasksCap {
      if hit.taskId.Some? {
        HandOutSays(s, req, hit.id, hit.taskId.value, env.now);
      } else {
        FirstHandleSays(cfg, s, req, hit, env);
      }
    }
  }

  // ------------------------------------------------------------------ the promote timer

  lemma FirstPromoteSays(cfg: Config, s: St, id: nat, now: nat)
    requires s.nextId !in s.tasks && id in s.calls
    requires !s.calls[id].responded && !s.calls[id].cancelled && s.calls[id].req.tasksCap && s.calls[id].taskId.None?
    ensures var c, t := s.calls[id], OnPromote(cfg, s, id, now);
            && t.log == s.log + [Replied(c.req, TaskReply(cfg, s, id, c.req.who.agentId, now))]
            && id in t.calls && t.calls[id].responded
  {
    var c := s.calls[id];
    var task := Engine.NewTask(cfg, c.req.who.agentId, c.key, c.startedAt, now);
    var s1 := AddTask(cfg, s, task, now);
    AddedIs(cfg, s, task, id, now);
    PromoteToSays(AttachTask(s1, id, s.nextId), id, s.nextId, now);
  }

  lemma PromoteSays(cfg: Config, s: St, id: nat, now: nat)
    requires s.nextId !in s.tasks && id in s.calls && !s.calls[id].responded && !s.calls[id].cancelled
    ensures var c, t := s.calls[id], OnPromote(cfg, s, id, now);
            && t.log == s.log + [Replied(c.req, if c.req.tasksCap then TaskReply(cfg, s, id, c.req.who.agentId, now)
                                                else MissingCapability)]
            && id in t.calls && t.calls[id].responded
  {
    var c := s.calls[id];
    if c.req.tasksCap {
      if c.taskId.Some? {
        PromoteToSays(s, id, c.taskId.value, now);
      } else {
        FirstPromoteSays(cfg, s, id, now);
      }
    }
  }

  /** When the promote timer of a call fires, its request is answered in that turn, unless it was before: without
      the tasks capability by the demand for it, and otherwise by the handle of its task, by `TaskStoreFull` if there
      is no room for a new one, or by `TaskNotFound` if its time is over. */
  lemma PromoteAnswers(cfg: Config, turns: seq<Turn>, id: nat, env: Env)
    requires Enabled(Run(cfg, turns), Promote(id))
    ensures var s := Run(cfg, turns);
            var c, t := s.calls[id], Step(cfg, s, Promote(id), env);
            && t.log == s.log + (if c.responded then []
                                 else if !c.req.tasksCap then [Replied(c.req, MissingCapability)]
                                 else [Replied(c.req, TaskReply(cfg, s, id, c.req.who.agentId, env.now))])
            && id in t.calls && t.calls[id].responded && !t.calls[id].timer
  {
    var s := Run(cfg, turns);
    RunInv(cfg, false, turns);
    PromoteAnswersIn(cfg, s, id, env);
  }

  lemma PromoteAnswersIn(cfg: Config, s: St, id: nat, env: Env)
    requires Discipline(cfg, false, s.calls) && TaskBounds(cfg, s.tasks, s.nextId) && Enabled(s, Promote(id))
    ensures var c, t := s.calls[id], Step(cfg, s, Promote(id), env);
            && t.log == s.log + (if c.responded then []
                                 else if !c.req.tasksCap then [Replied(c.req, MissingCapability)]
                                 else [Replied(c.req, TaskReply(cfg, s, id, c.req.who.agentId, env.now))])
            && id in t.calls && t.calls[id].responded && !t.calls[id].timer
  {
    assert Disciplined(cfg, false, s.calls[id]);
    if !s.calls[id].responded { PromoteSays(cfg, s, id, env.now); }
  }

  // ------------------------------------------------------------------ arrivals

  /** What tells two calls apart. */
  function CallKey(r: Request): string {
    r.who.agentId + ['\n'] + r.name + ['\n'] + r.hash
  }

  predicate KeysLive(s: St) {
    forall mk :: mk in s.inflight.keyToId ==> s.inflight.keyToId[mk] in s.calls
  }

  /** The reply that an arrival gets right away, if it gets one before the governor is asked. */
  function AnswerAtOnce(cfg: Config, s: St, r: Request, now: nat): Option<Reply>
    requires KeysLive(s)
  {
    var parsed, running := Parse(r.name), s.inflight.keyToId;
    if parsed.None? || MustNotKnow(cfg.catalog, r.who, parsed.value) then Some(UnknownTool)
    else if !MayUse(cfg.catalog, r.who, parsed.value) then Some(NotAllowed)
    else if parsed.value.backend == "perfacet" then Some(BuiltinResult)
    else if CallKey(r) in running && r.confirm != Some(running[CallKey(r)]) then
      if r.tasksCap then Some(TaskReply(cfg, s, running[CallKey(r)], r.who.agentId, now))
      else Some(StillRunning(running[CallKey(r)]))
    else if s.stopping then Some(Draining)
    else None
  }

  lemma KeysAreLive(s: St)
    requires InFlightTable.Sound(s.inflight) && SameKeys(s.calls, s.live, s.inflight.byId)
    ensures KeysLive(s)
  {
  }

  lemma HitIsMapped(cfg: Config, s: St, r: Request, key: ToolKey)
    requires TablesOf(Idle(s, false)) && Parse(r.name) == Some(key)
    ensures var hit := InFlightTable.Lookup(s.inflight, r.who.agentId, Str(key), r.hash);
            && (hit.Some? <==> CallKey(r) in s.inflight.keyToId)
            && (hit.Some? ==>
                  && hit.value.id == s.inflight.keyToId[CallKey(r)]
                  && hit.value.id in s.calls && hit.value.id in s.live
                  && hit.value.taskId == s.calls[hit.value.id].taskId && hit.value.key == s.calls[hit.value.id].key
                  && hit.value.startedAt == s.calls[hit.value.id].startedAt)
  {
    assert CallKey(r) == InFlightTable.MapKey(r.who.agentId, Str(key), r.hash);
    var hit := InFlightTable.Lookup(s.inflight, r.who.agentId, Str(key), r.hash);
    if hit.Some? { assert Matches(s.calls[hit.value.id], hit.value); }
  }

  /** The requests that get past the policy, to a tool of an upstream. */
  predicate GetsPast(cfg: Config, r: Request) {
    Parse(r.name).Some? && MayUse(cfg.catalog, r.who, Parse(r.name).value) && Parse(r.name).value.backend != "perfacet"
  }

  lemma RefusedSays(cfg: Config, s: St, r: Request, env: Env)
    requires KeysLive(s) && !GetsPast(cfg, r)
    ensures ToGovernor(cfg, s, r).None? && AnswerAtOnce(cfg, s, r, env.now).Some?
    ensures HandleCall(cfg, s, r, env).log == s.log + [Replied(r, AnswerAtOnce(cfg, s, r, env.now).value)]
  {
    if Parse(r.name).Some? { DecidedExactly(cfg.catalog, r.who, Parse(r.name).value); }
  }

  lemma PassedIs(cfg: Config, s: St, r: Request, env: Env)
    requires GetsPast(cfg, r)
    ensures var key := Parse(r.name).value;
            var hit := InFlightTable.Lookup(s.inflight, r.who.agentId, Str(key), r.hash);
            && !MustNotKnow(cfg.catalog, r.who, key)
            && HandleCall(cfg, s, r, env) == Route(cfg, s, r, key, env)
            && ToGovernor(cfg, s, r)
               == if s.stopping || (hit.Some? && r.confirm != Some(hit.value.id)) then None else Some(key)
  {
    DecidedExactly(cfg.catalog, r.who, Parse(r.name).value);
  }

  lemma PassedSays(cfg: Config, s: St, r: Request, env: Env)
    requires TablesOf(Idle(s, false)) && KeysLive(s) && s.nextId !in s.tasks && GetsPast(cfg, r)
    ensures AnswerAtOnce(cfg, s, r, env.now).None? <==> ToGovernor(cfg, s, r) == Some(Parse(r.name).value)
    ensures AnswerAtOnce(cfg, s, r, env.now).Some? <==> ToGovernor(cfg, s, r).None?
    ensures AnswerAtOnce(cfg, s, r, env.now).Some? ==>
              HandleCall(cfg, s, r, env).log == s.log + [Replied(r, AnswerAtOnce(cfg, s, r, env.now).value)]
  {
    var key := Parse(r.name).value;
    PassedIs(cfg, s, r, env);
    HitIsMapped(cfg, s, r, key);
    var hit := InFlightTable.Lookup(s.inflight, r.who.agentId, Str(key), r.hash);
    if hit.Some? && r.confirm != Some(hit.value.id) { DuplicateSays(cfg, s, r, hit.value, env); }
  }

  lemma AnsweredIn(cfg: Config, s: St, req: Request, env: Env)
    requires TablesOf(Idle(s, false)) && TaskBounds(cfg, s.tasks, s.nextId)
    ensures KeysLive(s)
    ensures var r, t := Stamped(s, req), Step(cfg, s, Arrive(req), env);
            var reply, asks := AnswerAtOnce(cfg, s, r, env.now), ToGovernor(cfg, Arrived(s), r);
            && (reply.Some? ==> t.log == s.log + [Replied(r, reply.value)] && asks.None?)
            && (reply.None? ==> asks.Some? && asks == Parse(req.name))
  {
    var s1, r := Arrived(s), Stamped(s, req);
    KeysAreLive(s);
    assert AnswerAtOnce(cfg, s1, r, env.now) == AnswerAtOnce(cfg, s, r, env.now);
    if GetsPast(cfg, r) {
      PassedSays(cfg, s1, r, env);
    } else {
      RefusedSays(cfg, s1, r, env);
    }
  }

  /** Every arrival of every run is answered in its turn with exactly the reply its situation calls for: refused by
      the policy, served by the gateway itself, told of the call that already runs on its key, or turned away while
      draining. All others, and only they, ask for a slot of the tool that they named. */
  lemma ArrivalAnswered(cfg: Config, turns: seq<Turn>, req: Request, env: Env)
    ensures KeysLive(Run(cfg, turns))
    ensures var s := Run(cfg, turns);
            var r, t := Stamped(s, req), Step(cfg, s, Arrive(req), env);
            var reply, asks := AnswerAtOnce(cfg, s, r, env.now), ToGovernor(cfg, Arrived(s), r);
            && (reply.Some? ==> t.log == s.log + [Replied(r, reply.value)] && asks.None?)
            && (reply.None? ==> asks.Some? && asks == Parse(req.name))
  {
    RunInv(cfg, false, turns);
    AnsweredIn(cfg, Run(cfg, turns), req, env);
  }

  /** A first promotion of a call that is younger than the time to live, with room in the store, gives a handle. */
  lemma FirstPromotionHands(cfg: Config, turns: seq<Turn>, id: nat, env: Env)
    requires Enabled(Run(cfg, turns), Promote(id))
    requires var s := Run(cfg, turns);
             var c := s.calls[id];
             && !c.responded && c.req.tasksCap && c.taskId.None?
             && |Tasks.AliveIds(s.tasks, env.now)| < cfg.maxTasks
             && (cfg.taskTtlMs == 0 || env.now < c.startedAt + cfg.taskTtlMs)
    ensures var s := Run(cfg, turns);
            var c := s.calls[id];
            var task := Tasks.Task(c.req.who.agentId, c.key, Tasks.Working, c.startedAt, env.now, cfg.taskTtlMs);
            Step(cfg, s, Promote(id), env).log == s.log + [Replied(c.req, Handle(id, s.nextId, task))]
  {
    PromoteAnswers(cfg, turns, id, env);
  }

  // ------------------------------------------------------------------ the notice and its token

  predicate IsNotice(a: Action) { a.Replied? && a.reply.StillRunning? }

  predicate NoNotice(a: seq<Action>, b: seq<Action>) {
    a <= b && forall k :: |a| <= k < |b| ==> !IsNotice(b[k])
  }

  lemma NoNoticeThen(a: seq<Action>, b: seq<Action>, c: seq<Action>)
    requires NoNotice(a, b) && NoNotice(b, c)
    ensures NoNotice(a, c)
  {
    assert forall k :: |a| <= k < |b| ==> c[k] == b[k];
  }

  lemma NoNoticeOne(cfg: Config, m: Mach, v: Move)
    requires Valid(cfg, m, v) && KindOf(v) in EngineCauses.UNHANDED
    ensures NoNotice(m.s.log, LogAfter(cfg, m, v))
  {
  }

  lemma NoNoticeClosed(cfg: Config)
    ensures Closed(cfg, (m: Mach, n: Mach) => NoNotice(m.s.log, n.s.log), EngineCauses.UNHANDED)
  {
    var R := (m: Mach, n: Mach) => NoNotice(m.s.log, n.s.log);
    forall m, v | Valid(cfg, m, v) && KindOf(v) in EngineCauses.UNHANDED ensures R(m, Do(cfg, m, v)) {
      NoNoticeOne(cfg, m, v);
    }
    forall m, k, n | R(m, k) && R(k, n) ensures R(m, n) { NoNoticeThen(m.s.log, k.s.log, n.s.log); }
  }

  lemma UnhandedTurn(cfg: Config, s: St, e: Event, env: Env)
    requires Inv(cfg, Idle(s, false)) && TurnKinds(cfg, s, e) <= EngineCauses.UNHANDED
    ensures NoNotice(s.log, Step(cfg, s, e, env).log)
  {
    var R := (m: Mach, n: Mach) => NoNotice(m.s.log, n.s.log);
    NoNoticeClosed(cfg);
    StepTurn(cfg, R, EngineCauses.UNHANDED, false, s, e, env);
    assert R(Idle(s, false), Idle(Step(cfg, s, e, env), false));
  }

  /** The notice tells the newcomer the id of the call that its key is mapped to, which exists, and which is not the
      one that it sent along itself. */
  predicate NoticeOf(s: St, e: Event, a: Action) {
    && e.Arrive? && IsNotice(a) && a.req == Stamped(s, e.req)
    && CallKey(e.req) in s.inflight.keyToId
    && a.reply.inflightId == s.inflight.keyToId[CallKey(e.req)] && a.reply.inflightId in s.calls
    && e.req.confirm != Some(a.reply.inflightId) && !e.req.tasksCap
  }

  lemma NoticeAtOnce(cfg: Config, s: St, e: Event, now: nat)
    requires KeysLive(s) && e.Arrive?
    requires var reply := AnswerAtOnce(cfg, s, Stamped(s, e.req), now); reply.Some? && reply.value.StillRunning?
    ensures NoticeOf(s, e, Replied(Stamped(s, e.req), AnswerAtOnce(cfg, s, Stamped(s, e.req), now).value))
  {
    assert CallKey(Stamped(s, e.req)) == CallKey(e.req);
  }

  lemma ArriveNotice(cfg: Config, s: St, e: Event, env: Env, k: nat)
    requires TablesOf(Idle(s, false)) && TaskBounds(cfg, s.tasks, s.nextId)
    requires e.Arrive? && ToGovernor(cfg, Arrived(s), Stamped(s, e.req)).None?
    requires var t := Step(cfg, s, e, env); |s.log| <= k < |t.log| && IsNotice(t.log[k])
    ensures NoticeOf(s, e, Step(cfg, s, e, env).log[k])
  {
    AnsweredIn(cfg, s, e.req, env);
    NoticeAtOnce(cfg, s, e, env.now);
  }

  lemma OneMoreReply(log: seq<Action>, a: Action)
    requires !IsNotice(a)
    ensures NoNotice(log, log + [a])
  {
  }

  lemma PromoteGivesNone(cfg: Config, s: St, id: nat, env: Env)
    requires Discipline(cfg, false, s.calls) && TaskBounds(cfg, s.tasks, s.nextId) && Enabled(s, Promote(id))
    ensures NoNotice(s.log, Step(cfg, s, Promote(id), env).log)
  {
    var c := s.calls[id];
    PromoteAnswersIn(cfg, s, id, env);
    OneMoreReply(s.log, Replied(c.req, MissingCapability));
    OneMoreReply(s.log, Replied(c.req, TaskReply(cfg, s, id, c.req.who.agentId, env.now)));
    assert s.log + [] == s.log;
  }

  lemma OthersGiveNone(cfg: Config, s: St, e: Event, env: Env)
    requires Inv(cfg, Idle(s, false))
    requires e.Arrive? ==> ToGovernor(cfg, Arrived(s), Stamped(s, e.req)).Some?
    ensures NoNotice(s.log, Step(cfg, s, e, env).log)
  {
    if e.Promote? && Enabled(s, e) {
      PromoteGivesNone(cfg, s, e.id, env);
    } else {
      EngineCauses.UnhandedKinds(cfg, s, e);
      UnhandedTurn(cfg, s, e, env);
    }
  }

  lemma NoticeIn(cfg: Config, s: St, e: Event, env: Env, k: nat)
    requires Inv(cfg, Idle(s, false))
    requires var t := Step(cfg, s, e, env); |s.log| <= k < |t.log| && IsNotice(t.log[k])
    ensures NoticeOf(s, e, Step(cfg, s, e, env).log[k])
  {
    if e.Arrive? && ToGovernor(cfg, Arrived(s), Stamped(s, e.req)).None? {
      ArriveNotice(cfg, s, e, env, k);
    } else {
      OthersGiveNone(cfg, s, e, env);
    }
  }

  /** Every `StillRunning` that any turn of any run gives out names the mapped call of the request's own key. */
  lemma NoticeIsToken(cfg: Config, turns: seq<Turn>, e: Event, env: Env, k: nat)
    requires var s, t := Run(cfg, turns), Step(cfg, Run(cfg, turns), e, env);
             |s.log| <= k < |t.log| && IsNotice(t.log[k])
    ensures NoticeOf(Run(cfg, turns), e, Step(cfg, Run(cfg, turns), e, env).log[k])
  {
    RunInv(cfg, false, turns);
    NoticeIn(cfg, Run(cfg, turns), e, env, k);
  }

  lemma TokenAsks(cfg: Config, s: St, req: Request, env: Env)
    requires TablesOf(Idle(s, false)) && TaskBounds(cfg, s.tasks, s.nextId) && GetsPast(cfg, req)
    requires var running := s.inflight.keyToId; CallKey(req) in running && req.confirm == Some(running[CallKey(req)])
    ensures ToGovernor(cfg, Arrived(s), Stamped(s, req)) == if s.stopping then None else Parse(req.name)
    ensures var log := Step(cfg, s, Arrive(req), env).log;
            s.stopping ==> log == s.log + [Replied(Stamped(s, req), Draining)] && NoNotice(s.log, log)
  {
    DecidedExactly(cfg.catalog, req.who, Parse(req.name).value);
    assert CallKey(Stamped(s, req)) == CallKey(req);
    AnsweredIn(cfg, s, req, env);
  }

  /** Sending a token back: while it is the mapped id of the key, a request that carries it and passes the policy asks
      for a slot, unless the gateway is draining, and is never told that its call is still running. */
  lemma TokenWorks(cfg: Config, turns: seq<Turn>, req: Request, env: Env)
    requires GetsPast(cfg, req)
    requires var running := Run(cfg, turns).inflight.keyToId;
             CallKey(req) in running && req.confirm == Some(running[CallKey(req)])
    ensures var s := Run(cfg, turns);
            var t := Step(cfg, s, Arrive(req), env);
            && ToGovernor(cfg, Arrived(s), Stamped(s, req)) == (if s.stopping then None else Parse(req.name))
            && (s.stopping ==> t.log == s.log + [Replied(Stamped(s, req), Draining)])
            && NoNotice(s.log, t.log)
  {
    var s := Run(cfg, turns);
    RunInv(cfg, false, turns);
    TokenAsks(cfg, s, req, env);
    if !s.stopping { OthersGiveNone(cfg, s, Arrive(req), env); }
  }

  /** Whatever a turn answers with a notice passes the policy, and changes no table. */
  lemma NoticeChangesNothing(cfg: Config, s: St, req: Request, env: Env)
    requires Inv(cfg, Idle(s, false))
    requires var t := Step(cfg, s, Arrive(req), env); |t.log| == |s.log| + 1 && IsNotice(t.log[|s.log|])
    ensures GetsPast(cfg, req) && Step(cfg, s, Arrive(req), env).inflight == s.inflight
  {
    if ToGovernor(cfg, Arrived(s), Stamped(s, req)).Some? {
      OthersGiveNone(cfg, s, Arrive(req), env);
    } else {
      NoticeIsDuplicate(cfg, s, req, env);
    }
  }

  lemma NoticeIsDuplicate(cfg: Config, s: St, req: Request, env: Env)
    requires TablesOf(Idle(s, false)) && TaskBounds(cfg, s.tasks, s.nextId)
    requires ToGovernor(cfg, Arrived(s), Stamped(s, req)).None?
    requires var t := Step(cfg, s, Arrive(req), env); |t.log| == |s.log| + 1 && IsNotice(t.log[|s.log|])
    ensures GetsPast(cfg, req) && Step(cfg, s, Arrive(req), env).inflight == s.inflight
  {
    AnsweredIn(cfg, s, req, env);
    NoticeKeepsTables(cfg, Arrived(s), Stamped(s, req), env);
  }

  lemma NotifiedIs(cfg: Config, s: St, r: Request, key: ToolKey, env: Env)
    requires var hit := InFlightTable.Lookup(s.inflight, r.who.agentId, Str(key), r.hash);
             hit.Some? && r.confirm != Some(hit.value.id) && !r.tasksCap
    ensures Route(cfg, s, r, key, env).inflight == s.inflight
  {
  }

  lemma NoticeKeepsTables(cfg: Config, s: St, r: Request, env: Env)
    requires TablesOf(Idle(s, false)) && KeysLive(s)
    requires var reply := AnswerAtOnce(cfg, s, r, env.now); reply.Some? && reply.value.StillRunning?
    ensures GetsPast(cfg, r) && HandleCall(cfg, s, r, env).inflight == s.inflight
  {
    PassedIs(cfg, s, r, env);
    HitIsMapped(cfg, s, r, Parse(r.name).value);
    NotifiedIs(cfg, s, r, Parse(r.name).value, env);
  }

  /** And so the id in a notice confirms: the same request, sent next with it, asks for a slot. */
  lemma NoticeConfirms(cfg: Config, turns: seq<Turn>, req: Request, env: Env, later: Env)
    requires var s := Run(cfg, turns);
             var t := Step(cfg, s, Arrive(req), env);
             |t.log| == |s.log| + 1 && IsNotice(t.log[|s.log|])
    ensures var s := Run(cfg, turns);
            var t := Step(cfg, s, Arrive(req), env);
            var again := req.(confirm := Some(t.log[|s.log|].reply.inflightId));
            && ToGovernor(cfg, Arrived(t), Stamped(t, again)) == (if t.stopping then None else Parse(req.name))
            && NoNotice(t.log, Step(cfg, t, Arrive(again), later).log)
  {
    var s := Run(cfg, turns);
    var t := Step(cfg, s, Arrive(req), env);
    var again := req.(confirm := Some(t.log[|s.log|].reply.inflightId));
    RunInv(cfg, false, turns);
    NoticeChangesNothing(cfg, s, req, env);
    NoticeIn(cfg, s, Arrive(req), env, |s.log|);
    var more := turns + [Turn(Arrive(req), env)];
    assert more[..|more| - 1] == turns;
    assert Run(cfg, more) == t;
    TokenWorks(cfg, more, again, later);
  }
}
