/** The status of a task, turn by turn: which events write another one, and so when an outcome stays
    (src/pipeline/Pipeline.cpp:70-75, 195-213, 458-469, 596-604). */
module EngineOutcomes {
  import opened Options
  import opened Engine
  import opened EngineInvariant
  import opened EngineMoves
  import opened EngineKeeps
  import opened EngineTurns
  import opened EngineHistory
  import EngineDrain
  import Tasks
  import Retry

  // ------------------------------------------------------------------ turns that write no status

  const KEEPING: set<Kind> := ALL - {Settle, Cancel}

  /** Whatever task of before is still stored has the status it had. */
  predicate SameStatuses(s: St, t: St) {
    && s.nextId <= t.nextId
    && forall tid :: tid in t.tasks && tid < s.nextId ==>
         tid in s.tasks && t.tasks[tid].status == s.tasks[tid].status
  }

  lemma KeepingMove(cfg: Config, m: Mach, v: Move)
    requires Valid(cfg, m, v) && KindOf(v) in KEEPING
    ensures SameStatuses(m.s, Do(cfg, m, v).s)
  {
  }

  lemma KeepingClosed(cfg: Config)
    ensures Closed(cfg, (m: Mach, n: Mach) => SameStatuses(m.s, n.s), KEEPING)
  {
    forall m, v | Valid(cfg, m, v) && KindOf(v) in KEEPING ensures SameStatuses(m.s, Do(cfg, m, v).s) {
      KeepingMove(cfg, m, v);
    }
  }

  lemma KeepingTurn(cfg: Config, s: St, e: Event, env: Env)
    requires Inv(cfg, Idle(s, false)) && TurnKinds(cfg, s, e) <= KEEPING
    ensures SameStatuses(s, Step(cfg, s, e, env))
  {
    var R := (m: Mach, n: Mach) => SameStatuses(m.s, n.s);
    KeepingClosed(cfg);
    StepTurn(cfg, R, KEEPING, false, s, e, env);
    assert R(Idle(s, false), Idle(Step(cfg, s, e, env), false));
  }

  // ------------------------------------------------------------------ the three that do

  /** The event writes a status over the one that the task has, and another one. */
  predicate Recasts(cfg: Config, s: St, e: Event, env: Env, tid: nat)
    requires tid in s.tasks
  {
    match e
    case TaskCancel(id, agent) => id == tid && agent == s.tasks[tid].agent && !s.tasks[tid].status.Cancelled?
    case Stop(_, _) => Enabled(s, e) && tid in s.byTask && !s.tasks[tid].status.Cancelled?
    case Upstream(id, klass, _) =>
      Enabled(s, e) && s.calls[id].taskId == Some(tid) && !s.calls[id].cancelled
      && !RetriesOn(cfg, s, id, klass, env.now)
    case _ => false
  }

  /** And this is the one it writes. */
  function Written(e: Event): Tasks.Status {
    if !e.Upstream? then Tasks.Cancelled
    else if e.klass == Retry.Ok && !e.isError then Tasks.Completed
    else Tasks.Failed
  }

  /** What becomes of one task in a turn, if it is still stored when the turn is over. */
  predicate Becomes(cfg: Config, s: St, t: St, e: Event, env: Env, tid: nat)
    requires tid in s.tasks
  {
    tid in t.tasks ==>
      && (t.tasks[tid].status != s.tasks[tid].status <==> Recasts(cfg, s, e, env, tid))
      && (Recasts(cfg, s, e, env, tid) ==> t.tasks[tid].status == Written(e))
  }

  lemma TaskCancelWrites(s: St, tid: nat, agent: string, now: nat)
    requires TaskLinks(s.calls, s.byTask, s.nextId)
    ensures OnCancel(s, tid, agent, now).tasks
         == if tid in Tasks.Sweep(s.tasks, now) && s.tasks[tid].agent == agent
            then Tasks.SetStatus(s.tasks, tid, Tasks.Cancelled, now) else Tasks.Sweep(s.tasks, now)
  {
    var s1 := s.(tasks := Tasks.Sweep(s.tasks, now));
    assert Tasks.Sweep(s1.tasks, now) == s1.tasks;
    if tid in s.byTask {
      SetStatusCancelWait(s1, tid, s.byTask[tid], now);
    }
  }

  lemma TaskCancelBecomes(cfg: Config, s: St, e: Event, env: Env, tid: nat)
    requires TaskLinks(s.calls, s.byTask, s.nextId) && e.TaskCancel? && tid in s.tasks
    ensures Becomes(cfg, s, Step(cfg, s, e, env), e, env, tid)
  {
    TaskCancelWrites(s, e.taskId, e.agent, env.now);
  }

  /** One of these calls carries the task. */
  predicate Carried(calls: map<nat, Call>, order: seq<nat>, tid: nat) {
    exists id :: id in order && id in calls && calls[id].taskId == Some(tid)
  }

  lemma CancelWaitTasks(s: St, id: nat, now: nat)
    requires id in s.calls
    ensures var t := Engine.CancelWait(s, id, now);
            && t.tasks == (if s.calls[id].taskId.None? then s.tasks
                           else Tasks.SetStatus(s.tasks, s.calls[id].taskId.value, Tasks.Cancelled, now))
            && t.calls.Keys == s.calls.Keys
            && forall x :: x in s.calls ==> t.calls[x].taskId == s.calls[x].taskId
  {
    EngineDrain.CancelWaitCalls(s, id, now);
  }

  lemma {:induction false} CancelAllTasks(s: St, order: seq<nat>, now: nat, tid: nat)
    ensures var t := CancelAll(s, order, now);
            && (tid in t.tasks ==>
                  tid in s.tasks && t.tasks[tid].status == if Carried(s.calls, order, tid) then Tasks.Cancelled
                                                          else s.tasks[tid].status)
            && (tid in s.tasks && !Tasks.Expired(s.tasks[tid], now) ==> tid in t.tasks)
    decreases |order|
  {
    if order != [] {
      var s1 := if order[0] in s.calls then Engine.CancelWait(s, order[0], now) else s;
      if order[0] in s.calls { CancelWaitTasks(s, order[0], now); }
      CancelAllTasks(s1, order[1..], now, tid);
      assert order == [order[0]] + order[1..];
      assert Carried(s.calls, order, tid) <==>
             (order[0] in s.calls && s.calls[order[0]].taskId == Some(tid)) || Carried(s.calls, order[1..], tid);
      assert Carried(s1.calls, order[1..], tid) == Carried(s.calls, order[1..], tid);
    }
  }

  lemma {:induction false} RejectQueueTasks(s: St, ts: string)
    ensures RejectQueue(s, ts).tasks == s.tasks
    decreases |Queue(s.gov, ts)|
  {
    var q := Queue(s.gov, ts);
    if q != [] { RejectQueueTasks(Answer(s.(gov := SetQueue(s.gov, ts, q[1..])), q[0].req, Throttled), ts); }
  }

  lemma {:induction false} RejectAllTasks(s: St, order: seq<string>)
    ensures RejectAll(s, order).tasks == s.tasks
    decreases |order|
  {
    if order != [] {
      RejectQueueTasks(s, order[0]);
      RejectAllTasks(RejectQueue(s, order[0]), order[1..]);
    }
  }

  /** requestStop cancels exactly the tasks of the calls that exist. */
  lemma StopTasks(cfg: Config, s: St, e: Event, env: Env, tid: nat)
    requires SameKeys(s.calls, s.live, s.inflight.byId) && TaskLinks(s.calls, s.byTask, s.nextId)
    requires e.Stop? && Enabled(s, e) && tid in s.tasks
    ensures var t := Step(cfg, s, e, env);
            && (tid in t.tasks ==> t.tasks[tid].status == if tid in s.byTask then Tasks.Cancelled
                                                         else s.tasks[tid].status)
            && (!Tasks.Expired(s.tasks[tid], env.now) ==> tid in t.tasks)
  {
    var s1 := s.(stopping := true);
    CancelAllTasks(s1, e.calls, env.now, tid);
    RejectAllTasks(CancelAll(s1, e.calls, env.now), e.queues);
    if tid in s.byTask { assert s.byTask[tid] in e.calls; }
    assert Carried(s.calls, e.calls, tid) <==> tid in s.byTask;
  }

  /** The task of a call that has an answer to come and was not cancelled is being worked on. */
  lemma AwaitedIsWorking(cfg: Config, s: St, id: nat, tid: nat)
    requires TaskStates(false, s.tasks, s.calls) && Discipline(cfg, false, s.calls)
    requires id in s.calls && s.calls[id].outstanding > 0 && !s.calls[id].cancelled
    requires s.calls[id].taskId == Some(tid) && tid in s.tasks
    ensures s.tasks[tid].status.Working?
  {
    assert Disciplined(cfg, false, s.calls[id]) && Consistent(false, s.calls[id], s.tasks[tid]);
  }

  /** The tasks after an answer. */
  lemma UpstreamTasks(cfg: Config, s: St, id: nat, klass: Retry.Klass, isError: bool, now: nat)
    requires id in s.calls && s.calls[id].outstanding > 0
    ensures var c := s.calls[id];
            OnUpstream(cfg, s, id, klass, isError, now).tasks
            == if c.cancelled || RetriesOn(cfg, s, id, klass, now) || c.taskId.None? then s.tasks
               else Tasks.SetStatus(s.tasks, c.taskId.value, Outcome(klass, isError), now)
  {
    if !s.calls[id].cancelled {
      OnUpstreamIs(cfg, s, id, klass, isError, now);
      ConcludedIs(Judged(cfg, s, id, klass, isError, now), id, klass, isError, now);
    }
  }

  lemma AnswerBecomes(cfg: Config, s: St, t: St, e: Event, env: Env, tid: nat)
    requires e.Upstream? && Enabled(s, e) && tid in s.tasks
    requires var c := s.calls[e.id];
             && (c.taskId == Some(tid) && !c.cancelled ==> s.tasks[tid].status.Working?)
             && t.tasks == if c.cancelled || RetriesOn(cfg, s, e.id, e.klass, env.now) || c.taskId.None? then s.tasks
                           else Tasks.SetStatus(s.tasks, c.taskId.value, Outcome(e.klass, e.isError), env.now)
    ensures Becomes(cfg, s, t, e, env, tid)
  {
  }

  lemma UpstreamBecomes(cfg: Config, s: St, e: Event, env: Env, tid: nat)
    requires TaskStates(false, s.tasks, s.calls) && Discipline(cfg, false, s.calls)
    requires e.Upstream? && Enabled(s, e) && tid in s.tasks
    ensures Becomes(cfg, s, Step(cfg, s, e, env), e, env, tid)
  {
    var c, t := s.calls[e.id], Step(cfg, s, e, env);
    UpstreamIs(cfg, s, e.id, e.klass, e.isError, env);
    UpstreamTasks(cfg, s, e.id, e.klass, e.isError, env.now);
    if !c.cancelled && c.taskId == Some(tid) { AwaitedIsWorking(cfg, s, e.id, tid); }
    AnswerBecomes(cfg, s, t, e, env, tid);
  }

  lemma KeepingKinds(cfg: Config, s: St, e: Event)
    requires !e.TaskCancel? && !e.Stop? && !e.Upstream?
    ensures TurnKinds(cfg, s, e) <= KEEPING
  {
  }

  lemma KeptBecomes(cfg: Config, s: St, e: Event, env: Env, tid: nat)
    requires Inv(cfg, Idle(s, false)) && tid in s.tasks && Enabled(s, e)
    requires !e.TaskCancel? && !e.Stop? && !e.Upstream?
    ensures Becomes(cfg, s, Step(cfg, s, e, env), e, env, tid)
  {
    KeepingKinds(cfg, s, e);
    KeepingTurn(cfg, s, e, env);
  }

  /** The life of a task: a turn writes another status over the one it has if and only if it is its owner's
      tasks/cancel, a requestStop while its call exists, or the last answer to its call. */
  lemma StatusChanges(cfg: Config, s: St, e: Event, env: Env, tid: nat)
    requires Inv(cfg, Idle(s, false)) && tid in s.tasks
    ensures Becomes(cfg, s, Step(cfg, s, e, env), e, env, tid)
  {
    if !Enabled(s, e) {
    } else if e.TaskCancel? {
      TaskCancelBecomes(cfg, s, e, env, tid);
    } else if e.Stop? {
      StopTasks(cfg, s, e, env, tid);
    } else if e.Upstream? {
      UpstreamBecomes(cfg, s, e, env, tid);
    } else {
      KeptBecomes(cfg, s, e, env, tid);
    }
  }

  // ------------------------------------------------------------------ an outcome, over a run

  /** The event takes an outcome back. */
  predicate TakesBack(s: St, e: Event, tid: nat)
    requires tid in s.tasks
  {
    || e == TaskCancel(tid, s.tasks[tid].agent)
    || (e.Stop? && Enabled(s, e) && tid in s.byTask)
  }

  lemma SettledIsAnswered(cfg: Config, s: St, e: Event, env: Env, tid: nat)
    requires TaskStates(false, s.tasks, s.calls) && Discipline(cfg, false, s.calls)
    requires tid in s.tasks && Settled(s.tasks[tid])
    ensures Recasts(cfg, s, e, env, tid) <==> TakesBack(s, e, tid)
  {
    assert forall id :: id in s.calls && s.calls[id].taskId == Some(tid) ==>
             Disciplined(cfg, false, s.calls[id]) && Consistent(false, s.calls[id], s.tasks[tid]);
  }

  /** A settled task that is still stored after a turn has another status if and only if the event was its
      owner's tasks/cancel, or requestStop while its call still exists. */
  lemma OutcomeTakenBack(cfg: Config, s: St, e: Event, env: Env, tid: nat)
    requires Inv(cfg, Idle(s, false)) && tid in s.tasks && Settled(s.tasks[tid])
    requires tid in Step(cfg, s, e, env).tasks
    ensures Step(cfg, s, e, env).tasks[tid].status != s.tasks[tid].status <==> TakesBack(s, e, tid)
  {
    StatusChanges(cfg, s, e, env, tid);
    SettledIsAnswered(cfg, s, e, env, tid);
  }

  function Later(cfg: Config, turns: seq<Turn>, more: seq<Turn>, n: nat): St
    requires n <= |more|
  {
    Run(cfg, turns + more[..n])
  }

  /** Turn n of the continuation takes the outcome back. */
  predicate TakenBackAt(cfg: Config, turns: seq<Turn>, more: seq<Turn>, tid: nat, n: nat) {
    && n < |more| && tid in Later(cfg, turns, more, n).tasks
    && TakesBack(Later(cfg, turns, more, n), more[n].event, tid)
  }

  lemma RunLast(cfg: Config, turns: seq<Turn>)
    requires turns != []
    ensures var k := |turns| - 1; Run(cfg, turns) == Step(cfg, Run(cfg, turns[..k]), turns[k].event, turns[k].env)
  {
  }

  lemma LaterStep(cfg: Config, turns: seq<Turn>, more: seq<Turn>)
    requires more != []
    ensures var k := |more| - 1;
            && Inv(cfg, Idle(Later(cfg, turns, more, k), false))
            && Later(cfg, turns, more, k) == Run(cfg, turns + more[..k])
            && Run(cfg, turns + more) == Step(cfg, Later(cfg, turns, more, k), more[k].event, more[k].env)
  {
    var k, all := |more| - 1, turns + more;
    RunInv(cfg, false, turns + more[..k]);
    assert all[..|all| - 1] == turns + more[..k];
    RunLast(cfg, all);
    assert all[|all| - 1] == more[k];
  }

  predicate NeverTakenBack(cfg: Config, turns: seq<Turn>, more: seq<Turn>, tid: nat) {
    forall n: nat :: n < |more| ==> !TakenBackAt(cfg, turns, more, tid, n)
  }

  lemma TakenBackFront(cfg: Config, turns: seq<Turn>, more: seq<Turn>, tid: nat)
    requires more != []
    ensures var k := |more| - 1;
            NeverTakenBack(cfg, turns, more, tid)
            <==> NeverTakenBack(cfg, turns, more[..k], tid) && !TakenBackAt(cfg, turns, more, tid, k)
  {
    var k := |more| - 1;
    forall n: nat | n < k
      ensures TakenBackAt(cfg, turns, more[..k], tid, n) == TakenBackAt(cfg, turns, more, tid, n)
    {
      assert more[..k][..n] == more[..n];
    }
  }

  /** The outcome the task had, or else cancelled; and the former exactly if nothing took it back. */
  predicate Stays(cfg: Config, turns: seq<Turn>, more: seq<Turn>, tid: nat, was: Tasks.Status, now: Tasks.Status) {
    && (now == was <==> NeverTakenBack(cfg, turns, more, tid))
    && (now == was || now.Cancelled?)
  }

  lemma StaysOn(cfg: Config, turns: seq<Turn>, more: seq<Turn>, tid: nat, s: St, t: St, was: Tasks.Status)
    requires more != [] && (was.Completed? || was.Failed?)
    requires var k := |more| - 1;
             && s == Later(cfg, turns, more, k) && t == Step(cfg, s, more[k].event, more[k].env)
             && Inv(cfg, Idle(s, false)) && tid in s.tasks && tid in t.tasks
             && Stays(cfg, turns, more[..k], tid, was, s.tasks[tid].status)
    ensures Stays(cfg, turns, more, tid, was, t.tasks[tid].status)
  {
    var k := |more| - 1;
    TakenBackFront(cfg, turns, more, tid);
    StepOutcome(cfg, s, more[k].event, more[k].env, tid, was);
  }

  /** An outcome is final but for these. In every run and every continuation at whose end the task is still
      stored: it has the outcome it had if and only if no turn of the continuation took it back; and if one
      did, it is cancelled. */
  lemma {:induction false} OutcomeStaysExactly(cfg: Config, turns: seq<Turn>, more: seq<Turn>, tid: nat)
    requires tid in Run(cfg, turns).tasks && Settled(Run(cfg, turns).tasks[tid])
    requires tid in Run(cfg, turns + more).tasks
    ensures var was, now := Run(cfg, turns).tasks[tid].status, Run(cfg, turns + more).tasks[tid].status;
            && (now == was <==> forall n: nat :: n < |more| ==> !TakenBackAt(cfg, turns, more, tid, n))
            && (now == was || now.Cancelled?)
    decreases |more|
  {
    var was := Run(cfg, turns).tasks[tid].status;
    if more == [] {
      assert turns + more == turns;
    } else {
      var k := |more| - 1;
      var s := Later(cfg, turns, more, k);
      LaterStep(cfg, turns, more);
      StillStored(cfg, turns, more, tid);
      OutcomeStaysExactly(cfg, turns, more[..k], tid);
      StaysOn(cfg, turns, more, tid, s, Run(cfg, turns + more), was);
    }
  }

  /** What is stored at the end was stored all along. */
  lemma StillStored(cfg: Config, turns: seq<Turn>, more: seq<Turn>, tid: nat)
    requires more != [] && tid in Run(cfg, turns).tasks && tid in Run(cfg, turns + more).tasks
    ensures tid in Later(cfg, turns, more, |more| - 1).tasks
  {
    var k := |more| - 1;
    RunInv(cfg, false, turns);
    RunOnward(cfg, Run(cfg, turns), more[..k]);
    RunAppend(cfg, Init(cfg), turns, more[..k]);
    LaterStep(cfg, turns, more);
    StoredBefore(cfg, Later(cfg, turns, more, k), more[k].event, more[k].env, tid);
  }

  /** What is stored after a turn and is not new was stored before it. */
  lemma StoredBefore(cfg: Config, s: St, e: Event, env: Env, tid: nat)
    requires Inv(cfg, Idle(s, false)) && tid < s.nextId && tid in Step(cfg, s, e, env).tasks
    ensures tid in s.tasks
  {
    StepOnward(cfg, false, s, e, env);
  }

  lemma StepOutcome(cfg: Config, s: St, e: Event, env: Env, tid: nat, was: Tasks.Status)
    requires Inv(cfg, Idle(s, false)) && (was.Completed? || was.Failed?)
    requires tid in s.tasks && (s.tasks[tid].status == was || s.tasks[tid].status.Cancelled?)
    requires tid in Step(cfg, s, e, env).tasks
    ensures var now := Step(cfg, s, e, env).tasks[tid].status;
            && (now == was <==> s.tasks[tid].status == was && !TakesBack(s, e, tid))
            && (now == was || now.Cancelled?)
  {
    StatusChanges(cfg, s, e, env, tid);
    if s.tasks[tid].status == was {
      OutcomeTakenBack(cfg, s, e, env, tid);
    }
    StepOnward(cfg, false, s, e, env);
  }
}
