/** The life of a call, turn by turn: how it begins, what each event makes of its timer, its attempts and its
    cancellation, and when it ends (src/pipeline/Pipeline.cpp:40-157, 382-469, 511-604). */
module EngineCalls {
  import opened Options
  import opened ToolKeys
  import Access
  import opened Engine
  import opened EngineInvariant
  import opened EngineKeeps
  import opened EngineTurns
  import opened EngineLimits
  import opened EngineReplies
  import opened EngineRetries
  import opened EngineGrounds
  import EngineCauses
  import EngineDrain
  import EngineHistory
  import EngineTaskLife
  import InFlightTable
  import Tasks
  import Retry

  // ------------------------------------------------------------------ what an event makes of a call

  predicate Answers(s: St, e: Event, id: nat) {
    e.Upstream? && e.id == id && id in s.calls && s.calls[id].outstanding > 0
  }

  /** The event is an answer to the call that is followed by a further attempt. */
  predicate FiresAgain(cfg: Config, s: St, e: Event, env: Env, id: nat)
    requires id in s.calls
  {
    Answers(s, e, id) && MayFireAgain(cfg, s, id, e.klass, env.now)
  }

  /** It is requestStop, or its owner's tasks/cancel of the call's living task. */
  predicate CancelsCall(s: St, e: Event, env: Env, id: nat)
    requires id in s.calls
  {
    || (e.Stop? && Enabled(s, e))
    || (e.TaskCancel? && s.calls[id].taskId == Some(e.taskId) && e.taskId in s.tasks
        && Tasks.Alive(s.tasks[e.taskId], env.now) && s.tasks[e.taskId].agent == e.agent)
  }

  /** What the call is after the turn: its promote timer stays armed but for its own firing and a concluding answer,
      every answer counts once, and nothing else than these two cancels it. */
  predicate Becomes(cfg: Config, s: St, e: Event, env: Env, id: nat, d: Call)
    requires id in s.calls
  {
    var c := s.calls[id];
    var again := FiresAgain(cfg, s, e, env, id);
    && d.req == c.req && d.key == c.key && d.permit == c.permit && d.startedAt == c.startedAt
    && (d.timer <==> c.timer && e != Promote(id) && (Answers(s, e, id) ==> again || c.cancelled))
    && d.attempt == c.attempt + (if again then 1 else 0)
    && d.outstanding == c.outstanding - (if Answers(s, e, id) && !again then 1 else 0)
    && (d.cancelled <==> c.cancelled || CancelsCall(s, e, env, id))
  }

  ghost predicate AllBecome(cfg: Config, s: St, t: St, e: Event, env: Env) {
    forall id :: id in s.calls && id in t.calls ==> Becomes(cfg, s, e, env, id, t.calls[id])
  }

  /** A call whose task id or reply is new, and nothing else. */
  predicate Only(c: Call, d: Call) {
    d == c.(taskId := d.taskId, responded := d.responded)
  }

  // ------------------------------------------------------------------ arrivals and promotions

  lemma HandOutCalls(s: St, req: Request, id: nat, tid: nat, now: nat)
    ensures HandOut(s, req, id, tid, now).calls == s.calls
  {
  }

  lemma KnownCalls(cfg: Config, s: St, req: Request, hit: InFlightTable.Entry, env: Env)
    requires EngineTaskLife.KnownTask(s, hit).Some? || !req.tasksCap
    ensures OnDuplicate(cfg, s, req, hit, env).calls == s.calls
  {
    if req.tasksCap { HandOutCalls(s, req, hit.id, EngineTaskLife.KnownTask(s, hit).value, env.now); }
  }

  lemma DuplicateCalls(cfg: Config, s: St, req: Request, hit: InFlightTable.Entry, env: Env)
    ensures var t := OnDuplicate(cfg, s, req, hit, env);
            || t.calls == s.calls
            || (hit.id in s.calls && t.calls == s.calls[hit.id := s.calls[hit.id].(taskId := Some(s.nextId))])
  {
    if EngineTaskLife.KnownTask(s, hit).Some? || !req.tasksCap {
      KnownCalls(cfg, s, req, hit, env);
    } else {
      var tid, now := s.nextId, env.now;
      var s1 := AddTask(cfg, s, Engine.NewTask(cfg, req.who.agentId, hit.key, hit.startedAt, now), now);
      HandOutCalls(s1.(inflight := InFlightTable.SetTaskId(s1.inflight, hit.id, tid)), req, hit.id, tid, now);
      if hit.id in s.calls { HandOutCalls(AttachTask(s1, hit.id, tid), req, hit.id, tid, now); }
    }
  }

  lemma AnsweredCalls(cfg: Config, s: St, r: Request, env: Env)
    requires ToGovernor(cfg, s, r).None?
    ensures var t := HandleCall(cfg, s, r, env);
            && t.calls.Keys == s.calls.Keys
            && forall id :: id in s.calls ==> Only(s.calls[id], t.calls[id])
  {
    if GetsPast(cfg, r) {
      PassedIs(cfg, s, r, env);
      var hit := InFlightTable.Lookup(s.inflight, r.who.agentId, Str(Parse(r.name).value), r.hash);
      if hit.Some? { DuplicateCalls(cfg, s, r, hit.value, env); }
    } else {
      RefusedCalls(cfg, s, r, env);
    }
  }

  lemma RefusedCalls(cfg: Config, s: St, r: Request, env: Env)
    requires !GetsPast(cfg, r)
    ensures HandleCall(cfg, s, r, env).calls == s.calls
  {
    if Parse(r.name).Some? { Access.DecidedExactly(cfg.catalog, r.who, Parse(r.name).value); }
  }

  lemma RespondCalls(s: St, id: nat, reply: Reply)
    requires id in s.calls
    ensures Engine.Respond(s, id, reply).calls == s.calls[id := s.calls[id].(responded := true)]
  {
    if s.calls[id].responded { assert s.calls[id] == s.calls[id].(responded := true); }
  }

  lemma PromoteToCalls(s: St, id: nat, tid: nat, now: nat)
    requires id in s.calls
    ensures PromoteTo(s, id, tid, now).calls == s.calls[id := s.calls[id].(responded := true)]
  {
    var s1, found := s.(tasks := Tasks.Sweep(s.tasks, now)), Tasks.Find(s.tasks, tid, now);
    RespondCalls(s1, id, if found.None? then TaskNotFound else Handle(id, tid, found.value));
  }

  lemma FirstPromoteCalls(cfg: Config, s: St, id: nat, now: nat)
    requires id in s.calls && s.calls[id].taskId.None? && s.calls[id].req.tasksCap
    requires !s.calls[id].responded && !s.calls[id].cancelled
    ensures var t := OnPromote(cfg, s, id, now);
            id in t.calls && Only(s.calls[id], t.calls[id]) && t.calls == s.calls[id := t.calls[id]]
  {
    var c := s.calls[id];
    var s1 := AddTask(cfg, s, Engine.NewTask(cfg, c.req.who.agentId, c.key, c.startedAt, now), now);
    RespondCalls(s1, id, TaskStoreFull);
    PromoteToCalls(AttachTask(s1, id, s.nextId), id, s.nextId, now);
  }

  lemma PromoteCalls(cfg: Config, s: St, id: nat, now: nat)
    requires id in s.calls
    ensures var t := OnPromote(cfg, s, id, now);
            id in t.calls && Only(s.calls[id], t.calls[id]) && t.calls == s.calls[id := t.calls[id]]
  {
    var c := s.calls[id];
    if !c.responded && !c.cancelled {
      if !c.req.tasksCap {
        RespondCalls(s, id, MissingCapability);
      } else if c.taskId.Some? {
        PromoteToCalls(s, id, c.taskId.value, now);
      } else {
        FirstPromoteCalls(cfg, s, id, now);
      }
    }
  }

  // ------------------------------------------------------------------ answers, cancels, and the rest

  lemma RefiredCalls(s: St, id: nat, klass: Retry.Klass)
    requires id in s.calls && s.calls[id].outstanding > 0 && s.calls[id].attempt > 0
    ensures Refired(s, id, klass).calls == s.calls[id := s.calls[id].(attempt := s.calls[id].attempt + 1)]
  {
    var c := s.calls[id];
    var received := c.(outstanding := c.outstanding - 1);
    assert s.calls[id := received][id := c.(attempt := c.attempt + 1)] == s.calls[id := c.(attempt := c.attempt + 1)];
  }

  lemma AbsorbedCalls(cfg: Config, s: St, id: nat, klass: Retry.Klass, isError: bool, now: nat)
    requires id in s.calls && s.calls[id].outstanding > 0 && s.calls[id].cancelled
    ensures var c := s.calls[id];
            OnUpstream(cfg, s, id, klass, isError, now).calls
            == s.calls[id := c.(outstanding := c.outstanding - 1, upstreamDone := true)]
  {
    var c := s.calls[id];
    var received := c.(outstanding := c.outstanding - 1);
    assert s.calls[id := received][id := received.(upstreamDone := true)]
        == s.calls[id := received.(upstreamDone := true)];
  }

  lemma UpstreamCalls(cfg: Config, s: St, id: nat, klass: Retry.Klass, isError: bool, now: nat)
    requires id in s.calls && s.calls[id].outstanding > 0 && s.calls[id].attempt > 0
    ensures var c, t := s.calls[id], OnUpstream(cfg, s, id, klass, isError, now);
            t.calls == s.calls[id :=
              if c.cancelled then c.(outstanding := c.outstanding - 1, upstreamDone := true)
              else if RetriesOn(cfg, s, id, klass, now) then c.(attempt := c.attempt + 1)
              else c.(outstanding := c.outstanding - 1, upstreamDone := true, timer := false, responded := true)]
  {
    if s.calls[id].cancelled {
      AbsorbedCalls(cfg, s, id, klass, isError, now);
    } else {
      var s1 := Judged(cfg, s, id, klass, isError, now);
      OnUpstreamIs(cfg, s, id, klass, isError, now);
      if RetriesOn(cfg, s, id, klass, now) {
        RefiredCalls(s1, id, klass);
      } else {
        ConcludedIs(s1, id, klass, isError, now);
      }
    }
  }

  /** The call that is answered, after the answer. */
  function AfterAnswer(cfg: Config, s: St, e: Event, env: Env): Call
    requires e.Upstream? && Enabled(s, e)
  {
    var c := s.calls[e.id];
    if c.cancelled then c.(outstanding := c.outstanding - 1, upstreamDone := true)
    else if MayFireAgain(cfg, s, e.id, e.klass, env.now) then c.(attempt := c.attempt + 1)
    else c.(outstanding := c.outstanding - 1, upstreamDone := true, timer := false, responded := true)
  }

  lemma AnsweredBecomes(cfg: Config, s: St, e: Event, env: Env, id: nat)
    requires e.Upstream? && Enabled(s, e) && id in s.calls
    ensures Becomes(cfg, s, e, env, id, if id == e.id then AfterAnswer(cfg, s, e, env) else s.calls[id])
  {
  }

  lemma AnswerCalls(cfg: Config, s: St, e: Event, env: Env)
    requires e.Upstream? && Enabled(s, e) && s.calls[e.id].attempt > 0
    requires RetriesOn(cfg, s, e.id, e.klass, env.now) <==> MayFireAgain(cfg, s, e.id, e.klass, env.now)
    ensures OnUpstream(cfg, s, e.id, e.klass, e.isError, env.now).calls
         == s.calls[e.id := AfterAnswer(cfg, s, e, env)]
  {
    UpstreamCalls(cfg, s, e.id, e.klass, e.isError, env.now);
  }

  lemma AfterAnswerIs(cfg: Config, s: St, e: Event, env: Env)
    requires Discipline(cfg, false, s.calls) && AttemptsOf(cfg, Idle(s, false)) && e.Upstream? && Enabled(s, e)
    ensures Step(cfg, s, e, env).calls == s.calls[e.id := AfterAnswer(cfg, s, e, env)]
  {
    assert Disciplined(cfg, false, s.calls[e.id]);
    EngineHistory.UpstreamIs(cfg, s, e.id, e.klass, e.isError, env);
    AttemptsCounted(cfg, s, e.id);
    RetriesExactly(cfg, s, e.id, e.klass, env.now);
    AnswerCalls(cfg, s, e, env);
  }

  lemma UpstreamBecomes(cfg: Config, s: St, e: Event, env: Env)
    requires Discipline(cfg, false, s.calls) && AttemptsOf(cfg, Idle(s, false)) && e.Upstream? && Enabled(s, e)
    ensures AllBecome(cfg, s, Step(cfg, s, e, env), e, env) && Step(cfg, s, e, env).calls.Keys == s.calls.Keys
  {
    AfterAnswerIs(cfg, s, e, env);
    forall id | id in s.calls
      ensures Becomes(cfg, s, e, env, id, if id == e.id then AfterAnswer(cfg, s, e, env) else s.calls[id])
    {
      AnsweredBecomes(cfg, s, e, env, id);
    }
  }

  lemma PromoteBecomes(cfg: Config, s: St, e: Event, env: Env)
    requires e.Promote? && Enabled(s, e)
    ensures AllBecome(cfg, s, Step(cfg, s, e, env), e, env) && Step(cfg, s, e, env).calls.Keys == s.calls.Keys
  {
    PromoteCalls(cfg, s, e.id, env.now);
  }

  lemma {:induction false} CancelAllCalls(s: St, order: seq<nat>, now: nat, id: nat)
    requires id in s.calls
    ensures var t := CancelAll(s, order, now);
            && t.calls.Keys == s.calls.Keys
            && t.calls[id] == if id in order then s.calls[id].(cancelled := true, responded := true) else s.calls[id]
    decreases |order|
  {
    if order != [] {
      var s1 := if order[0] in s.calls then Engine.CancelWait(s, order[0], now) else s;
      if order[0] in s.calls { CancelWaitSays(s, order[0], now); }
      CancelAllCalls(s1, order[1..], now, id);
      assert order == [order[0]] + order[1..];
    }
  }

  lemma StopBecomes(cfg: Config, s: St, e: Event, env: Env)
    requires SameKeys(s.calls, s.live, s.inflight.byId) && e.Stop? && Enabled(s, e)
    ensures AllBecome(cfg, s, Step(cfg, s, e, env), e, env) && Step(cfg, s, e, env).calls.Keys == s.calls.Keys
  {
    var s1 := s.(stopping := true);
    var s2 := CancelAll(s1, e.calls, env.now);
    EngineDrain.CancelAllCancels(s1, e.calls, env.now);
    EngineDrain.RejectAllEmpties(s2, e.queues);
    forall id | id in s.calls ensures Becomes(cfg, s, e, env, id, s2.calls[id]) {
      CancelAllCalls(s1, e.calls, env.now, id);
    }
  }

  /** tasks/cancel reaches the call that this task belongs to. */
  predicate Reached(s: St, e: Event, now: nat)
    requires e.TaskCancel?
  {
    && e.taskId in s.tasks && Tasks.Alive(s.tasks[e.taskId], now) && s.tasks[e.taskId].agent == e.agent
    && e.taskId in s.byTask
  }

  lemma ReachedBecomes(cfg: Config, s: St, t: St, e: Event, env: Env)
    requires TaskLinks(s.calls, s.byTask, s.nextId) && e.TaskCancel?
    requires t.calls == if Reached(s, e, env.now)
                        then s.calls[s.byTask[e.taskId] :=
                               s.calls[s.byTask[e.taskId]].(cancelled := true, responded := true)]
                        else s.calls
    ensures AllBecome(cfg, s, t, e, env) && t.calls.Keys == s.calls.Keys
  {
  }

  lemma TaskCancelBecomes(cfg: Config, s: St, e: Event, env: Env)
    requires TaskLinks(s.calls, s.byTask, s.nextId) && e.TaskCancel?
    ensures AllBecome(cfg, s, Step(cfg, s, e, env), e, env) && Step(cfg, s, e, env).calls.Keys == s.calls.Keys
  {
    CancelReaches(s, e.taskId, e.agent, env.now);
    ReachedBecomes(cfg, s, Step(cfg, s, e, env), e, env);
  }

  // ------------------------------------------------------------------ beginnings and ends

  /** The newcomer, or a waiter of the tool whose slot the event hands out: in time, and with an open upstream. */
  predicate Begins(cfg: Config, s: St, t: St, e: Event, env: Env, d: Call) {
    && d == Beginning(d.req, d.key, env.now)
    && !Shut(s.slots, d.key.backend, env) && HasRead(s.slots, t.slots, d.key.backend)
    && ((e.Arrive? && d.req == Stamped(s, e.req) && Parse(e.req.name) == Some(d.key)
         && HasRoom(cfg, s.gov.tools, s.calls, e.req.name, e.req.who.agentId))
        || exists w :: w in Queue(s.gov, EngineCauses.SlotTool(s, e)) && w.req == d.req && w.key == d.key
                       && env.now < w.deadline)
  }

  ghost predicate CallsGoOn(cfg: Config, s: St, t: St, e: Event, env: Env) {
    && AllBecome(cfg, s, t, e, env)
    && (forall id :: id in s.calls ==>
          (id !in t.calls <==> e == Drop(id) && !s.calls[id].timer && s.calls[id].outstanding == 0))
    && (forall id :: id in t.calls && id !in s.calls ==> id == s.nextId && Begins(cfg, s, t, e, env, t.calls[id]))
  }

  /** An event that has nothing to do with a call leaves it as it is, but for a task id or a reply. */
  predicate Aside(e: Event) { !e.Promote? && !e.Upstream? && !e.TaskCancel? && !e.Stop? }

  lemma AsideBecomes(cfg: Config, s: St, e: Event, env: Env, id: nat, d: Call)
    requires Aside(e) && id in s.calls && Only(s.calls[id], d)
    ensures Becomes(cfg, s, e, env, id, d)
  {
  }

  lemma AsideGoesOn(cfg: Config, s: St, t: St, e: Event, env: Env)
    requires Aside(e) && (e.Drop? ==> !Enabled(s, e)) && t.calls.Keys == s.calls.Keys
    requires forall id :: id in s.calls ==> Only(s.calls[id], t.calls[id])
    ensures CallsGoOn(cfg, s, t, e, env)
  {
    forall id | id in s.calls ensures Becomes(cfg, s, e, env, id, t.calls[id]) {
      AsideBecomes(cfg, s, e, env, id, t.calls[id]);
    }
  }

  lemma OneGoesOn(cfg: Config, s: St, t: St, e: Event, env: Env, d: Call)
    requires s.nextId !in s.calls && Aside(e) && Begins(cfg, s, t, e, env, d)
    requires t.calls == (if e.Drop? && Enabled(s, e) then s.calls - {e.id} else s.calls)[s.nextId := d]
    ensures CallsGoOn(cfg, s, t, e, env)
  {
    forall id | id in s.calls && id in t.calls ensures Becomes(cfg, s, e, env, id, t.calls[id]) {
      AsideBecomes(cfg, s, e, env, id, t.calls[id]);
    }
  }

  lemma DroppedGoesOn(cfg: Config, s: St, t: St, e: Event, env: Env)
    requires e.Drop? && Enabled(s, e) && t.calls == s.calls - {e.id}
    ensures CallsGoOn(cfg, s, t, e, env)
  {
    forall id | id in s.calls && id in t.calls ensures Becomes(cfg, s, e, env, id, t.calls[id]) {
      AsideBecomes(cfg, s, e, env, id, t.calls[id]);
    }
  }

  lemma BegunGoOn(cfg: Config, s: St, t: St, e: Event, env: Env, calls: map<nat, Call>)
    requires s.nextId !in s.calls && Aside(e)
    requires BegunInLine(Queue(s.gov, EngineCauses.SlotTool(s, e)), s.slots, env, calls, s.nextId, t)
    requires calls == if e.Drop? && Enabled(s, e) then s.calls - {e.id} else s.calls
    ensures CallsGoOn(cfg, s, t, e, env)
  {
    if t.calls == calls {
      if e.Drop? && Enabled(s, e) { DroppedGoesOn(cfg, s, t, e, env); } else { AsideGoesOn(cfg, s, t, e, env); }
    } else {
      var w :| w in Queue(s.gov, EngineCauses.SlotTool(s, e)) && MayBegin(s.slots, env, w)
               && HasRead(s.slots, t.slots, w.key.backend)
               && t.calls == calls[s.nextId := Beginning(w.req, w.key, env.now)];
      OneGoesOn(cfg, s, t, e, env, Beginning(w.req, w.key, env.now));
    }
  }

  lemma AskedGoesOn(cfg: Config, s: St, t: St, e: Event, env: Env)
    requires s.nextId !in s.calls && e.Arrive? && AskingBegins(cfg, s, Stamped(s, e.req), env, t)
    ensures CallsGoOn(cfg, s, t, e, env)
  {
    var r := Stamped(s, e.req);
    if BegunInLine(Queue(s.gov, r.name), s.slots, env, s.calls, s.nextId, t) {
      BegunGoOn(cfg, s, t, e, env, s.calls);
    } else {
      OneGoesOn(cfg, s, t, e, env, Beginning(r, Parse(r.name).value, env.now));
    }
  }

  lemma AnsweredGoesOn(cfg: Config, s: St, e: Event, env: Env)
    requires e.Arrive? && ToGovernor(cfg, Arrived(s), Stamped(s, e.req)).None?
    ensures CallsGoOn(cfg, s, Step(cfg, s, e, env), e, env)
  {
    AnsweredCalls(cfg, Arrived(s), Stamped(s, e.req), env);
    AsideGoesOn(cfg, s, Step(cfg, s, e, env), e, env);
  }

  lemma ArriveGoesOn(cfg: Config, s: St, e: Event, env: Env)
    requires LedgerOf(cfg, Idle(s, false)) && Keyed(false, s.gov.queues) && SameLimits(cfg, s.gov.tools)
    requires s.nextId !in s.calls && e.Arrive?
    ensures CallsGoOn(cfg, s, Step(cfg, s, e, env), e, env)
  {
    if ToGovernor(cfg, Arrived(s), Stamped(s, e.req)).Some? {
      AskingTurn(cfg, s, e.req, env);
      AskedGoesOn(cfg, s, Step(cfg, s, e, env), e, env);
    } else {
      AnsweredGoesOn(cfg, s, e, env);
    }
  }

  lemma DropGoesOn(cfg: Config, s: St, e: Event, env: Env)
    requires LedgerOf(cfg, Idle(s, false)) && Keyed(false, s.gov.queues) && Discipline(cfg, false, s.calls)
    requires s.nextId !in s.calls && e.Drop? && Enabled(s, e)
    ensures CallsGoOn(cfg, s, Step(cfg, s, e, env), e, env)
  {
    DropFair(cfg, s, e.id, env);
    BegunGoOn(cfg, s, Step(cfg, s, e, env), e, env, s.calls - {e.id});
  }

  lemma ConcernedGoesOn(cfg: Config, s: St, e: Event, env: Env)
    requires Inv(cfg, Idle(s, false)) && Enabled(s, e) && !Aside(e)
    ensures CallsGoOn(cfg, s, Step(cfg, s, e, env), e, env)
  {
    if e.Promote? {
      PromoteBecomes(cfg, s, e, env);
    } else if e.Upstream? {
      UpstreamBecomes(cfg, s, e, env);
    } else if e.TaskCancel? {
      TaskCancelBecomes(cfg, s, e, env);
    } else {
      StopBecomes(cfg, s, e, env);
    }
  }

  lemma IdleCalls(cfg: Config, s: St, e: Event, env: Env)
    requires !Enabled(s, e) || e.WaitTimer? || e.TaskGet? || e.ToolsListed? || e.ProbeOk?
    ensures Step(cfg, s, e, env).calls == s.calls
  {
    if e.WaitTimer? { WaitTimerSays(s, e.tool, e.waitId); }
  }

  lemma DisabledGoesOn(cfg: Config, s: St, e: Event, env: Env)
    requires !Enabled(s, e)
    ensures CallsGoOn(cfg, s, s, e, env)
  {
  }

  lemma OthersGoOn(cfg: Config, s: St, e: Event, env: Env)
    requires LedgerOf(cfg, Idle(s, false)) && Keyed(false, s.gov.queues) && SameLimits(cfg, s.gov.tools)
    requires Discipline(cfg, false, s.calls) && s.nextId !in s.calls && Enabled(s, e) && Aside(e)
    ensures CallsGoOn(cfg, s, Step(cfg, s, e, env), e, env)
  {
    if e.Arrive? {
      ArriveGoesOn(cfg, s, e, env);
    } else if e.Drop? {
      DropGoesOn(cfg, s, e, env);
    } else {
      IdleCalls(cfg, s, e, env);
      AsideGoesOn(cfg, s, Step(cfg, s, e, env), e, env);
    }
  }

  /** The calls of every run, turn by turn: a call begins only for the newcomer or for a waiter that was in time,
      under the next id, fresh, fired once and with its promote timer armed; each event makes of each call exactly
      what it may; and a call ends exactly when it is dropped with nothing outstanding and no timer. */
  lemma CallsLive(cfg: Config, turns: seq<Turn>, e: Event, env: Env)
    ensures var s := Run(cfg, turns); CallsGoOn(cfg, s, Step(cfg, s, e, env), e, env)
  {
    var s := Run(cfg, turns);
    RunInv(cfg, false, turns);
    assert s.nextId !in s.calls;
    if !Enabled(s, e) {
      DisabledGoesOn(cfg, s, e, env);
    } else if Aside(e) {
      OthersGoOn(cfg, s, e, env);
    } else {
      ConcernedGoesOn(cfg, s, e, env);
    }
  }
}
