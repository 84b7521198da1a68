/** How long a task lives, over a run: a handle that was given out is good until the time to live is over, counted
    from the start of its call (src/task/MemTaskStore.cpp:8-41, src/pipeline/Pipeline.cpp:316-347, 511-531). */
module EngineTaskLife {
  import opened Options
  import opened ToolKeys
  import opened Access
  import opened Engine
  import opened EngineInvariant
  import opened EngineMoves
  import opened EngineKeeps
  import opened EngineTurns
  import opened EngineHistory
  import opened EngineOutcomes
  import opened EngineFifo
  import EngineCauses
  import InFlightTable
  import Tasks

  /** The same task, but perhaps for its status. */
  predicate SameTask(a: Tasks.Task, b: Tasks.Task) {
    b.agent == a.agent && b.key == a.key && b.createdAt == a.createdAt && b.ttl == a.ttl
  }

  /** What a part of a turn at `now` may do to the store: every living task of before stays, and whatever is new has a
      new id and the configured time to live. */
  predicate Ages(cfg: Config, a: Tasks.Store, b: Tasks.Store, bound: nat, now: nat) {
    && (forall x :: x in a && Tasks.Alive(a[x], now) ==> x in b)
    && (forall x :: x in a && x in b ==> SameTask(a[x], b[x]))
    && (forall x :: x in b && x !in a ==> x >= bound && b[x].ttl == cfg.taskTtlMs)
  }

  predicate Bounded(a: Tasks.Store, bound: nat) {
    forall x :: x in a ==> x < bound
  }

  lemma AgesThen(cfg: Config, a: Tasks.Store, b: Tasks.Store, c: Tasks.Store, bound: nat, now: nat)
    requires Bounded(a, bound) && Ages(cfg, a, b, bound, now) && Ages(cfg, b, c, bound, now)
    ensures Ages(cfg, a, c, bound, now)
  {
  }

  lemma SweepAges(cfg: Config, a: Tasks.Store, bound: nat, now: nat)
    ensures Ages(cfg, a, Tasks.Sweep(a, now), bound, now)
  {
  }

  lemma SetStatusAges(cfg: Config, a: Tasks.Store, id: nat, status: Tasks.Status, bound: nat, now: nat)
    ensures Ages(cfg, a, Tasks.SetStatus(a, id, status, now), bound, now)
  {
  }

  lemma InsertAges(cfg: Config, a: Tasks.Store, maxTasks: nat, id: nat, task: Tasks.Task, now: nat)
    requires Bounded(a, id) && task.ttl == cfg.taskTtlMs
    ensures Ages(cfg, a, Tasks.Insert(a, maxTasks, id, task, now), id, now)
  {
  }

  lemma AddedAges(cfg: Config, a: Tasks.Store, maxTasks: nat, id: nat, task: Tasks.Task, now: nat)
    requires Bounded(a, id) && task.ttl == cfg.taskTtlMs
    ensures Ages(cfg, a, Tasks.Sweep(Tasks.Insert(a, maxTasks, id, task, now), now), id, now)
  {
    var b := Tasks.Insert(a, maxTasks, id, task, now);
    InsertAges(cfg, a, maxTasks, id, task, now);
    SweepAges(cfg, b, id, now);
    AgesThen(cfg, a, b, Tasks.Sweep(b, now), id, now);
  }

  // ------------------------------------------------------------------ turns that leave the store alone

  const UNSTORED: set<Kind> := ALL - {Store, Settle, Cancel}

  lemma UnstoredClosed(cfg: Config)
    ensures Closed(cfg, (m: Mach, n: Mach) => n.s.tasks == m.s.tasks, UNSTORED)
  {
    forall m, v | Valid(cfg, m, v) && KindOf(v) in UNSTORED ensures TasksAfter(cfg, m, v) == m.s.tasks {
    }
  }

  lemma UnstoredTurn(cfg: Config, s: St, e: Event, env: Env)
    requires Inv(cfg, Idle(s, false)) && TurnKinds(cfg, s, e) <= UNSTORED
    ensures Step(cfg, s, e, env).tasks == s.tasks
  {
    var R := (m: Mach, n: Mach) => n.s.tasks == m.s.tasks;
    UnstoredClosed(cfg);
    StepTurn(cfg, R, UNSTORED, false, s, e, env);
    assert R(Idle(s, false), Idle(Step(cfg, s, e, env), false));
  }

  lemma UnstoredKinds(cfg: Config, s: St, e: Event)
    requires e.Arrive? ==> ToGovernor(cfg, Arrived(s), Stamped(s, e.req)).Some?
    requires !e.Promote? && !e.Upstream? && !e.TaskGet? && !e.TaskCancel? && !e.Stop?
    ensures TurnKinds(cfg, s, e) <= UNSTORED
  {
  }

  // ------------------------------------------------------------------ the others

  /** The store after a handle was asked for: swept if there is a task already, and otherwise with a new one. */
  function Handed(cfg: Config, a: Tasks.Store, known: Option<nat>, id: nat, task: Tasks.Task, now: nat): Tasks.Store {
    if known.Some? then Tasks.Sweep(a, now)
    else
      var b := Tasks.Insert(a, cfg.maxTasks, id, task, now);
      if Tasks.HasRoom(a, cfg.maxTasks, id, now) then Tasks.Sweep(b, now) else b
  }

  lemma HandedAges(cfg: Config, a: Tasks.Store, known: Option<nat>, id: nat, task: Tasks.Task, now: nat)
    requires Bounded(a, id) && task.ttl == cfg.taskTtlMs
    ensures Ages(cfg, a, Handed(cfg, a, known, id, task, now), id, now)
  {
    SweepAges(cfg, a, id, now);
    InsertAges(cfg, a, cfg.maxTasks, id, task, now);
    AddedAges(cfg, a, cfg.maxTasks, id, task, now);
  }

  lemma HandOutTasks(s: St, req: Request, id: nat, tid: nat, now: nat)
    ensures HandOut(s, req, id, tid, now).tasks == Tasks.Sweep(s.tasks, now)
  {
  }

  lemma PromoteToTasks(s: St, id: nat, tid: nat, now: nat)
    requires id in s.calls
    ensures PromoteTo(s, id, tid, now).tasks == Tasks.Sweep(s.tasks, now)
  {
  }

  /** The task that a duplicate's call is known to have. */
  function KnownTask(s: St, hit: InFlightTable.Entry): Option<nat> {
    if hit.taskId.Some? then hit.taskId
    else if hit.id in s.live && hit.id in s.calls then s.calls[hit.id].taskId
    else None
  }

  lemma KnownTasks(cfg: Config, s: St, req: Request, hit: InFlightTable.Entry, env: Env)
    requires req.tasksCap && KnownTask(s, hit).Some?
    ensures OnDuplicate(cfg, s, req, hit, env).tasks == Tasks.Sweep(s.tasks, env.now)
  {
    HandOutTasks(s, req, hit.id, KnownTask(s, hit).value, env.now);
  }

  lemma DuplicateTasks(cfg: Config, s: St, req: Request, hit: InFlightTable.Entry, env: Env)
    ensures var task := Engine.NewTask(cfg, req.who.agentId, hit.key, hit.startedAt, env.now);
            OnDuplicate(cfg, s, req, hit, env).tasks
            == if req.tasksCap then Handed(cfg, s.tasks, KnownTask(s, hit), s.nextId, task, env.now) else s.tasks
  {
    if req.tasksCap {
      var tid, now := s.nextId, env.now;
      if KnownTask(s, hit).Some? {
        KnownTasks(cfg, s, req, hit, env);
      } else {
        var s1 := AddTask(cfg, s, Engine.NewTask(cfg, req.who.agentId, hit.key, hit.startedAt, now), now);
        var s2 := s1.(inflight := InFlightTable.SetTaskId(s1.inflight, hit.id, tid));
        if hit.id in s.calls { HandOutTasks(AttachTask(s1, hit.id, tid), req, hit.id, tid, now); }
        HandOutTasks(s2, req, hit.id, tid, now);
      }
    }
  }

  lemma DuplicateAges(cfg: Config, s: St, req: Request, hit: InFlightTable.Entry, env: Env)
    requires Bounded(s.tasks, s.nextId)
    ensures Ages(cfg, s.tasks, OnDuplicate(cfg, s, req, hit, env).tasks, s.nextId, env.now)
  {
    var task := Engine.NewTask(cfg, req.who.agentId, hit.key, hit.startedAt, env.now);
    DuplicateTasks(cfg, s, req, hit, env);
    HandedAges(cfg, s.tasks, KnownTask(s, hit), s.nextId, task, env.now);
  }

  /** The request gets past the policy, to a tool of an upstream. */
  predicate Allowed(cfg: Config, req: Request) {
    var parsed := Parse(req.name);
    parsed.Some? && Authorize(cfg.catalog, req.who, parsed.value).Allow? && parsed.value.backend != BUILTIN
  }

  lemma RefusedTasks(cfg: Config, s: St, req: Request, env: Env)
    requires !Allowed(cfg, req)
    ensures HandleCall(cfg, s, req, env).tasks == s.tasks
  {
  }

  lemma AllowedIs(cfg: Config, s: St, req: Request, env: Env)
    requires Allowed(cfg, req)
    ensures HandleCall(cfg, s, req, env) == Route(cfg, s, req, Parse(req.name).value, env)
  {
  }

  lemma ArriveTasks(cfg: Config, s: St, req: Request, env: Env)
    requires ToGovernor(cfg, s, req).None? && Allowed(cfg, req)
    ensures var t := HandleCall(cfg, s, req, env);
            var hit := InFlightTable.Lookup(s.inflight, req.who.agentId, Str(Parse(req.name).value), req.hash);
            t.tasks == s.tasks || (hit.Some? && t == OnDuplicate(cfg, s, req, hit.value, env))
  {
    AllowedIs(cfg, s, req, env);
  }

  lemma ArriveAges(cfg: Config, s: St, req: Request, env: Env)
    requires Bounded(s.tasks, s.nextId) && ToGovernor(cfg, s, req).None?
    ensures Ages(cfg, s.tasks, HandleCall(cfg, s, req, env).tasks, s.nextId, env.now)
  {
    if Allowed(cfg, req) {
      ArriveTasks(cfg, s, req, env);
      var hit := InFlightTable.Lookup(s.inflight, req.who.agentId, Str(Parse(req.name).value), req.hash);
      if hit.Some? { DuplicateAges(cfg, s, req, hit.value, env); }
    } else {
      RefusedTasks(cfg, s, req, env);
    }
  }

  lemma PromoteTasks(cfg: Config, s: St, id: nat, now: nat)
    requires id in s.calls
    ensures var c := s.calls[id];
            var task := Engine.NewTask(cfg, c.req.who.agentId, c.key, c.startedAt, now);
            OnPromote(cfg, s, id, now).tasks
            == if !c.responded && !c.cancelled && c.req.tasksCap
               then Handed(cfg, s.tasks, c.taskId, s.nextId, task, now) else s.tasks
  {
    var c := s.calls[id];
    if !c.responded && !c.cancelled && c.req.tasksCap {
      if c.taskId.Some? {
        PromoteToTasks(s, id, c.taskId.value, now);
      } else {
        var s1 := AddTask(cfg, s, Engine.NewTask(cfg, c.req.who.agentId, c.key, c.startedAt, now), now);
        PromoteToTasks(AttachTask(s1, id, s.nextId), id, s.nextId, now);
      }
    }
  }

  lemma PromoteAges(cfg: Config, s: St, id: nat, now: nat)
    requires Bounded(s.tasks, s.nextId) && id in s.calls
    ensures Ages(cfg, s.tasks, OnPromote(cfg, s, id, now).tasks, s.nextId, now)
  {
    var c := s.calls[id];
    PromoteTasks(cfg, s, id, now);
    HandedAges(cfg, s.tasks, c.taskId, s.nextId, Engine.NewTask(cfg, c.req.who.agentId, c.key, c.startedAt, now), now);
  }

  lemma {:induction false} CancelAllAges(cfg: Config, s: St, order: seq<nat>, bound: nat, now: nat)
    requires Bounded(s.tasks, bound)
    ensures Ages(cfg, s.tasks, CancelAll(s, order, now).tasks, bound, now)
    decreases |order|
  {
    if order != [] {
      var s1 := if order[0] in s.calls then Engine.CancelWait(s, order[0], now) else s;
      if order[0] in s.calls {
        CancelWaitTasks(s, order[0], now);
        if s.calls[order[0]].taskId.Some? {
          SetStatusAges(cfg, s.tasks, s.calls[order[0]].taskId.value, Tasks.Cancelled, bound, now);
        }
      }
      CancelAllAges(cfg, s1, order[1..], bound, now);
      AgesThen(cfg, s.tasks, s1.tasks, CancelAll(s, order, now).tasks, bound, now);
    }
  }

  lemma StopAges(cfg: Config, s: St, e: Event, env: Env)
    requires Bounded(s.tasks, s.nextId) && e.Stop? && Enabled(s, e)
    ensures Ages(cfg, s.tasks, Step(cfg, s, e, env).tasks, s.nextId, env.now)
  {
    var s1 := s.(stopping := true);
    CancelAllAges(cfg, s1, e.calls, s.nextId, env.now);
    RejectAllTasks(CancelAll(s1, e.calls, env.now), e.queues);
  }

  lemma UpstreamAges(cfg: Config, s: St, e: Event, env: Env)
    requires e.Upstream? && Enabled(s, e)
    ensures Ages(cfg, s.tasks, Step(cfg, s, e, env).tasks, s.nextId, env.now)
  {
    UpstreamIs(cfg, s, e.id, e.klass, e.isError, env);
    UpstreamTasks(cfg, s, e.id, e.klass, e.isError, env.now);
    if s.calls[e.id].taskId.Some? {
      SetStatusAges(cfg, s.tasks, s.calls[e.id].taskId.value, Outcome(e.klass, e.isError), s.nextId, env.now);
    }
  }

  lemma TaskCancelAges(cfg: Config, s: St, e: Event, env: Env)
    requires TaskLinks(s.calls, s.byTask, s.nextId) && e.TaskCancel?
    ensures Ages(cfg, s.tasks, Step(cfg, s, e, env).tasks, s.nextId, env.now)
  {
    TaskCancelWrites(s, e.taskId, e.agent, env.now);
    SweepAges(cfg, s.tasks, s.nextId, env.now);
    SetStatusAges(cfg, s.tasks, e.taskId, Tasks.Cancelled, s.nextId, env.now);
  }

  lemma CallAges(cfg: Config, s: St, e: Event, env: Env)
    requires Bounded(s.tasks, s.nextId) && TaskLinks(s.calls, s.byTask, s.nextId) && Enabled(s, e)
    requires e.Promote? || e.Upstream? || e.TaskGet? || e.TaskCancel? || e.Stop?
    ensures Ages(cfg, s.tasks, Step(cfg, s, e, env).tasks, s.nextId, env.now)
  {
    if e.Promote? {
      PromoteAges(cfg, s, e.id, env.now);
    } else if e.Upstream? {
      UpstreamAges(cfg, s, e, env);
    } else if e.TaskGet? {
      SweepAges(cfg, s.tasks, s.nextId, env.now);
    } else if e.TaskCancel? {
      TaskCancelAges(cfg, s, e, env);
    } else {
      StopAges(cfg, s, e, env);
    }
  }

  /** No turn loses a living task, or makes one with another time to live. */
  lemma StepAges(cfg: Config, s: St, e: Event, env: Env)
    requires Inv(cfg, Idle(s, false))
    ensures Ages(cfg, s.tasks, Step(cfg, s, e, env).tasks, s.nextId, env.now)
  {
    assert Bounded(s.tasks, s.nextId);
    if !Enabled(s, e) {
    } else if e.Arrive? && ToGovernor(cfg, Arrived(s), Stamped(s, e.req)).None? {
      ArriveAges(cfg, Arrived(s), Stamped(s, e.req), env);
    } else if e.Promote? || e.Upstream? || e.TaskGet? || e.TaskCancel? || e.Stop? {
      CallAges(cfg, s, e, env);
    } else {
      UnstoredKinds(cfg, s, e);
      UnstoredTurn(cfg, s, e, env);
    }
  }

  /** tasks/get and tasks/cancel leave of the tasks exactly those that are alive. */
  lemma AskedExactly(cfg: Config, s: St, e: Event, env: Env, tid: nat)
    requires TaskLinks(s.calls, s.byTask, s.nextId) && (e.TaskGet? || e.TaskCancel?)
    ensures tid in Step(cfg, s, e, env).tasks <==> tid in s.tasks && Tasks.Alive(s.tasks[tid], env.now)
  {
    if e.TaskCancel? {
      TaskCancelWrites(s, e.taskId, e.agent, env.now);
    }
  }

  // ------------------------------------------------------------------ over a run

  /** Every stored task has the configured time to live. */
  lemma {:induction false} TtlIsConfigured(cfg: Config, turns: seq<Turn>, tid: nat)
    requires tid in Run(cfg, turns).tasks
    ensures Run(cfg, turns).tasks[tid].ttl == cfg.taskTtlMs
    decreases |turns|
  {
    if turns != [] {
      var k := |turns| - 1;
      var s := After(cfg, turns, k);
      AfterStep(cfg, turns);
      StepAges(cfg, s, turns[k].event, turns[k].env);
      if tid in s.tasks { TtlIsConfigured(cfg, turns[..k], tid); }
    }
  }

  /** A task that is stored stays, with its owner, its tool and its birth, as long as the clock of the turns stays below
      the end of its time; without a time to live, for ever. */
  lemma {:induction false} TaskLasts(cfg: Config, turns: seq<Turn>, more: seq<Turn>, tid: nat)
    requires tid in Run(cfg, turns).tasks
    requires forall n :: 0 <= n < |more| ==> Tasks.Alive(Run(cfg, turns).tasks[tid], more[n].env.now)
    ensures tid in Run(cfg, turns + more).tasks
    ensures SameTask(Run(cfg, turns).tasks[tid], Run(cfg, turns + more).tasks[tid])
    decreases |more|
  {
    if more == [] {
      assert turns + more == turns;
    } else {
      var k := |more| - 1;
      LaterStep(cfg, turns, more);
      TaskLasts(cfg, turns, more[..k], tid);
      StepAges(cfg, Later(cfg, turns, more, k), more[k].event, more[k].env);
    }
  }

  /** The handle that entry i of the log gives out is from the last turn of this run. */
  predicate GivenLast(cfg: Config, turns: seq<Turn>, i: nat) {
    && turns != [] && i < |Run(cfg, turns).log| && HandsOut(Run(cfg, turns).log[i])
    && |Run(cfg, turns[..|turns| - 1]).log| <= i
  }

  /** A handle is good for its whole time: its task carries the configured time to live and the start of its call, and
      through any continuation whose clock stays below the end of that time it is stored, under the same id and
      owner. */
  lemma HandleLasts(cfg: Config, turns: seq<Turn>, i: nat, more: seq<Turn>)
    requires GivenLast(cfg, turns, i)
    requires var task := Run(cfg, turns).log[i].reply.task;
             forall n :: 0 <= n < |more| ==>
               cfg.taskTtlMs == 0 || more[n].env.now < task.createdAt + cfg.taskTtlMs
    ensures var s, reply := Run(cfg, turns), Run(cfg, turns).log[i].reply;
            && reply.task.ttl == cfg.taskTtlMs
            && (reply.inflightId in s.calls ==> reply.task.createdAt == s.calls[reply.inflightId].startedAt
                                                && reply.task.key == s.calls[reply.inflightId].key)
            && reply.taskId in Run(cfg, turns + more).tasks
            && SameTask(reply.task, Run(cfg, turns + more).tasks[reply.taskId])
  {
    HandleIsStored(cfg, turns, i);
    var s, reply := Run(cfg, turns), Run(cfg, turns).log[i].reply;
    TtlIsConfigured(cfg, turns, reply.taskId);
    TaskLasts(cfg, turns, more, reply.taskId);
    HandleIsOfCall(cfg, turns, i);
  }

  lemma HandleIsStored(cfg: Config, turns: seq<Turn>, i: nat)
    requires GivenLast(cfg, turns, i)
    ensures var t, reply := Run(cfg, turns), Run(cfg, turns).log[i].reply;
            reply.taskId in t.tasks && t.tasks[reply.taskId] == reply.task
  {
    var front, last := turns[..|turns| - 1], turns[|turns| - 1];
    EngineCauses.HandleAtHand(cfg, front, last.event, last.env, i);
  }

  lemma HandleIsOfCall(cfg: Config, turns: seq<Turn>, i: nat)
    requires GivenLast(cfg, turns, i)
    ensures var s, reply := Run(cfg, turns), Run(cfg, turns).log[i].reply;
            reply.inflightId in s.calls ==> reply.task.createdAt == s.calls[reply.inflightId].startedAt
                                            && reply.task.key == s.calls[reply.inflightId].key
  {
    var s, reply := Run(cfg, turns), Run(cfg, turns).log[i].reply;
    RunInv(cfg, false, turns);
    HandleIsStored(cfg, turns, i);
    assert HandlesOf(Idle(s, false)) && TaskStates(false, s.tasks, s.calls);
    if reply.inflightId in s.calls {
      assert Consistent(false, s.calls[reply.inflightId], s.tasks[reply.taskId]);
    }
  }
}
