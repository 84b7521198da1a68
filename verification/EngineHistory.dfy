/** What can never be undone: how the state of a run relates to every later state. */
module EngineHistory {
  import opened Options
  import opened ToolKeys
  import opened Engine
  import opened EngineInvariant
  import opened EngineMoves
  import opened EngineKeeps
  import opened EngineTurns
  import InFlightTable
  import Tasks
  import Retry

  // ------------------------------------------------------------------ tasks

  /** The only ways a status may move: to cancelled from anywhere, and from working to an outcome. */
  predicate Follows(x: Tasks.Status, y: Tasks.Status) {
    y == x || y.Cancelled? || (x.Working? && !y.Working?)
  }

  /** Old task ids keep their owner, their tool and their birth, and are never stored again once gone. */
  predicate TasksOnward(a: Tasks.Store, b: Tasks.Store, bound: nat) {
    forall t :: t in b && t < bound ==>
      t in a && Follows(a[t].status, b[t].status)
      && b[t].agent == a[t].agent && b[t].key == a[t].key && b[t].createdAt == a[t].createdAt
  }

  lemma FinishOnward(cfg: Config, m: Mach, v: Move)
    requires Valid(cfg, m, v) && v.Finish?
    requires TaskStates(m.clean, m.s.tasks, m.s.calls) && Discipline(cfg, m.clean, m.s.calls)
    ensures TasksOnward(m.s.tasks, TasksAfter(cfg, m, v), m.s.nextId)
  {
    var c := m.s.calls[v.id];
    assert Disciplined(cfg, m.clean, c);
    if c.taskId.Some? && c.taskId.value in m.s.tasks {
      assert Consistent(m.clean, c, m.s.tasks[c.taskId.value]);
    }
  }

  lemma TasksMoveOn(cfg: Config, m: Mach, v: Move)
    requires Valid(cfg, m, v)
    requires TaskStates(m.clean, m.s.tasks, m.s.calls) && Discipline(cfg, m.clean, m.s.calls)
    ensures TasksOnward(m.s.tasks, TasksAfter(cfg, m, v), m.s.nextId)
  {
    if v.Finish? { FinishOnward(cfg, m, v); }
  }

  lemma TasksOnwardThen(a: Tasks.Store, b: Tasks.Store, c: Tasks.Store, i: nat, j: nat)
    requires i <= j && TasksOnward(a, b, i) && TasksOnward(b, c, j)
    ensures TasksOnward(a, c, i)
  {
  }

  // ------------------------------------------------------------------ tokens

  predicate Mapped(t: InFlightTable.Table, id: nat) {
    InFlightTable.Mapped(t, id)
  }

  predicate TokensOnward(a: InFlightTable.Table, b: InFlightTable.Table, bound: nat) {
    forall id: nat :: id < bound && Mapped(b, id) ==> Mapped(a, id)
  }

  lemma TokensMoveOn(cfg: Config, m: Mach, v: Move)
    requires Valid(cfg, m, v)
    ensures TokensOnward(m.s.inflight, InflightAfter(cfg, m, v), m.s.nextId)
  {
    var a, b := m.s.inflight, InflightAfter(cfg, m, v);
    forall id: nat | id < m.s.nextId && Mapped(b, id) ensures Mapped(a, id) {
      var mk :| mk in b.keyToId && b.keyToId[mk] == id;
      assert mk in a.keyToId && a.keyToId[mk] == id;
    }
  }

  // ------------------------------------------------------------------ both along every run

  ghost predicate Onward(cfg: Config, m: Mach, n: Mach) {
    Inv(cfg, m) ==>
      && Inv(cfg, n)
      && m.s.nextId <= n.s.nextId
      && m.s.log <= n.s.log
      && TasksOnward(m.s.tasks, n.s.tasks, m.s.nextId)
      && TokensOnward(m.s.inflight, n.s.inflight, m.s.nextId)
  }

  lemma LogMovesOn(cfg: Config, m: Mach, v: Move)
    requires Valid(cfg, m, v)
    ensures m.s.log <= LogAfter(cfg, m, v)
  {
  }

  lemma OnwardOne(cfg: Config, m: Mach, v: Move)
    requires Valid(cfg, m, v)
    ensures Onward(cfg, m, Do(cfg, m, v))
  {
    if Inv(cfg, m) {
      InvKept(cfg, m, v);
      LogMovesOn(cfg, m, v);
      TasksMoveOn(cfg, m, v);
      TokensMoveOn(cfg, m, v);
      assert m.s.nextId <= NextIdAfter(m, v);
    }
  }

  lemma OnwardThen(cfg: Config, m: Mach, k: Mach, n: Mach)
    requires Onward(cfg, m, k) && Onward(cfg, k, n)
    ensures Onward(cfg, m, n)
  {
    if Inv(cfg, m) {
      TasksOnwardThen(m.s.tasks, k.s.tasks, n.s.tasks, m.s.nextId, k.s.nextId);
    }
  }

  lemma OnwardClosed(cfg: Config)
    ensures Closed(cfg, (m, n) => Onward(cfg, m, n), ALL)
  {
    var R := (m, n) => Onward(cfg, m, n);
    forall m ensures R(m, m) {
    }
    forall m, v | Valid(cfg, m, v) ensures R(m, Do(cfg, m, v)) {
      OnwardOne(cfg, m, v);
    }
    forall m, k, n | R(m, k) && R(k, n) ensures R(m, n) {
      OnwardThen(cfg, m, k, n);
    }
  }

  lemma StepOnward(cfg: Config, clean: bool, s: St, e: Event, env: Env)
    requires Inv(cfg, Idle(s, clean)) && (clean ==> CleanEvent(e))
    ensures Onward(cfg, Idle(s, clean), Idle(Step(cfg, s, e, env), clean))
  {
    var R := (m: Mach, n: Mach) => Onward(cfg, m, n);
    OnwardClosed(cfg);
    AllKinds(cfg, s, e);
    StepTurn(cfg, R, ALL, clean, s, e, env);
    assert R(Idle(s, clean), Idle(Step(cfg, s, e, env), clean));
  }

  lemma {:induction false} RunOnward(cfg: Config, s: St, turns: seq<Turn>)
    requires Inv(cfg, Idle(s, false))
    ensures Onward(cfg, Idle(s, false), Idle(RunFrom(cfg, s, turns), false))
  {
    if turns != [] {
      var last, front := turns[|turns| - 1], turns[..|turns| - 1];
      RunOnward(cfg, s, front);
      StepOnward(cfg, false, RunFrom(cfg, s, front), last.event, last.env);
      OnwardThen(cfg, Idle(s, false), Idle(RunFrom(cfg, s, front), false),
                 Idle(RunFrom(cfg, s, turns), false));
    }
  }

  lemma {:induction false} RunAppend(cfg: Config, s: St, turns: seq<Turn>, more: seq<Turn>)
    ensures RunFrom(cfg, s, turns + more) == RunFrom(cfg, RunFrom(cfg, s, turns), more)
    decreases |more|
  {
    if more == [] {
      assert turns + more == turns;
    } else {
      var front := more[..|more| - 1];
      RunAppend(cfg, s, turns, front);
      assert (turns + more)[..|turns + more| - 1] == turns + front;
    }
  }

  // ------------------------------------------------------------------ main results

  /** A task that was cancelled stays cancelled for as long as it is stored, whatever late answers,
      retries, promotions or cancels follow; one that has an outcome can only still be cancelled; and
      an id that has left the store never names a task again. */
  lemma CancelledIsAbsorbing(cfg: Config, turns: seq<Turn>, more: seq<Turn>, tid: nat)
    requires tid < Run(cfg, turns).nextId
    requires tid in Run(cfg, turns + more).tasks
    ensures tid in Run(cfg, turns).tasks
    ensures var was, now := Run(cfg, turns).tasks[tid], Run(cfg, turns + more).tasks[tid];
            && (was.status.Cancelled? ==> now.status.Cancelled?)
            && (Settled(was) ==> now.status == was.status || now.status.Cancelled?)
            && now.agent == was.agent && now.key == was.key && now.createdAt == was.createdAt
  {
    RunInv(cfg, false, turns);
    RunOnward(cfg, Run(cfg, turns), more);
    RunAppend(cfg, Init(cfg), turns, more);
  }

  lemma OwnerCancels(s: St, tid: nat, now: nat)
    requires TaskLinks(s.calls, s.byTask, s.nextId)
    requires tid in s.tasks && !Tasks.Expired(s.tasks[tid], now)
    ensures var t := OnCancel(s, tid, s.tasks[tid].agent, now);
            && tid in t.tasks && t.tasks[tid].status.Cancelled?
            && (tid in s.byTask ==> s.byTask[tid] in t.calls && t.calls[s.byTask[tid]].cancelled)
  {
    var s1 := SetStatus(s.(tasks := Tasks.Sweep(s.tasks, now)), tid, Tasks.Cancelled, now);
    assert tid in s1.tasks && s1.tasks[tid].status.Cancelled?;
    if tid in s.byTask {
      var id := s.byTask[tid];
      assert Engine.CancelWait(s1, id, now).calls[id].cancelled;
    }
  }

  /** tasks/cancel from the owner cancels whatever the status was, a completed task included. */
  lemma CancelOverwrites(cfg: Config, turns: seq<Turn>, tid: nat, env: Env)
    requires tid in Run(cfg, turns).tasks && !Tasks.Expired(Run(cfg, turns).tasks[tid], env.now)
    ensures var s := Run(cfg, turns);
            var t := Step(cfg, s, TaskCancel(tid, s.tasks[tid].agent), env);
            && tid in t.tasks && t.tasks[tid].status.Cancelled?
            && (tid in s.byTask ==> s.byTask[tid] in t.calls && t.calls[s.byTask[tid]].cancelled)
  {
    RunInv(cfg, false, turns);
    OwnerCancels(Run(cfg, turns), tid, env.now);
  }

  /** The tasks after an upstream answer that is neither absorbed nor retried. */
  lemma ConcludedSettles(s: St, id: nat, klass: Retry.Klass, isError: bool, now: nat, tid: nat)
    requires id in s.calls && s.calls[id].outstanding > 0
    requires tid in s.tasks && tid in Concluded(s, id, klass, isError, now).tasks
    requires Concluded(s, id, klass, isError, now).tasks[tid].status != s.tasks[tid].status
    ensures s.calls[id].taskId == Some(tid)
    ensures var t := Concluded(s, id, klass, isError, now);
            t.tasks[tid].status == Outcome(klass, isError) && t.calls[id].upstreamDone && t.calls[id].responded
  {
    ConcludedIs(s, id, klass, isError, now);
  }

  predicate StatusMoved(s: St, t: St, tid: nat) {
    tid in s.tasks && tid in t.tasks && s.tasks[tid].status != t.tasks[tid].status
  }

  /** The answer to call `id` has settled its own task, which was being worked on. */
  predicate SettledBy(s: St, t: St, id: nat, klass: Retry.Klass, isError: bool, tid: nat) {
    && id in s.calls && s.calls[id].taskId == Some(tid)
    && tid in s.tasks && s.tasks[tid].status.Working?
    && tid in t.tasks && t.tasks[tid].status == Outcome(klass, isError)
    && id in t.calls && t.calls[id].upstreamDone && t.calls[id].responded
  }

  lemma AnswerSettles(cfg: Config, s: St, id: nat, klass: Retry.Klass, isError: bool, now: nat, tid: nat)
    requires id in s.calls && s.calls[id].outstanding > 0
    requires TaskStates(false, s.tasks, s.calls) && Discipline(cfg, false, s.calls)
    requires StatusMoved(s, OnUpstream(cfg, s, id, klass, isError, now), tid)
    ensures SettledBy(s, OnUpstream(cfg, s, id, klass, isError, now), id, klass, isError, tid)
  {
    var c := s.calls[id];
    assert Disciplined(cfg, false, c);
    if !c.cancelled {
      OnUpstreamIs(cfg, s, id, klass, isError, now);
      if !RetriesOn(cfg, s, id, klass, now) {
        ConcludedSettles(Judged(cfg, s, id, klass, isError, now), id, klass, isError, now, tid);
        assert Consistent(false, c, s.tasks[tid]);
      }
    }
  }

  lemma UpstreamIs(cfg: Config, s: St, id: nat, klass: Retry.Klass, isError: bool, env: Env)
    requires Enabled(s, Upstream(id, klass, isError))
    ensures Step(cfg, s, Upstream(id, klass, isError), env) == OnUpstream(cfg, s, id, klass, isError, env.now)
  {
  }

  /** An upstream answer settles at most the task of its own call, and only out of the working state. */
  lemma UpstreamSettles(cfg: Config, turns: seq<Turn>, id: nat, klass: Retry.Klass, isError: bool, env: Env, tid: nat)
    requires Enabled(Run(cfg, turns), Upstream(id, klass, isError))
    requires StatusMoved(Run(cfg, turns), Step(cfg, Run(cfg, turns), Upstream(id, klass, isError), env), tid)
    ensures SettledBy(Run(cfg, turns), Step(cfg, Run(cfg, turns), Upstream(id, klass, isError), env), id, klass,
                      isError, tid)
  {
    var s := Run(cfg, turns);
    RunInv(cfg, false, turns);
    UpstreamIs(cfg, s, id, klass, isError, env);
    AnswerSettles(cfg, s, id, klass, isError, env.now, tid);
  }

  /** And it does settle it: an answer to a call that was not cancelled, and that is not retried, leaves
      the call's task, if it is still stored, with the outcome of that answer. */
  lemma LastAnswerSettles(cfg: Config, turns: seq<Turn>, id: nat, klass: Retry.Klass, isError: bool, env: Env, tid: nat)
    requires var s := Run(cfg, turns);
             && Enabled(s, Upstream(id, klass, isError)) && !s.calls[id].cancelled
             && !RetriesOn(cfg, s, id, klass, env.now)
             && s.calls[id].taskId == Some(tid)
             && tid in s.tasks && !Tasks.Expired(s.tasks[tid], env.now)
    ensures var t := Step(cfg, Run(cfg, turns), Upstream(id, klass, isError), env);
            tid in t.tasks && t.tasks[tid].status == Outcome(klass, isError) && t.calls[id].responded
  {
    var s := Run(cfg, turns);
    OnUpstreamIs(cfg, s, id, klass, isError, env.now);
    ConcludedIs(Judged(cfg, s, id, klass, isError, env.now), id, klass, isError, env.now);
  }

  /** A confirm token dies for good with its mapping: erased or superseded, it is never accepted again. */
  lemma TokenDies(cfg: Config, turns: seq<Turn>, more: seq<Turn>, token: nat,
                  agent: string, tool: string, hash: string)
    requires token < Run(cfg, turns).nextId && !InFlightTable.Mapped(Run(cfg, turns).inflight, token)
    ensures !InFlightTable.Confirms(Run(cfg, turns + more).inflight, agent, tool, hash, token)
  {
    var s, u := Run(cfg, turns), Run(cfg, turns + more);
    RunInv(cfg, false, turns);
    RunOnward(cfg, s, more);
    RunAppend(cfg, Init(cfg), turns, more);
    assert !Mapped(u.inflight, token);
    assert InFlightTable.Sound(u.inflight);
  }

  /** In every reachable state a key maps to a live call of exactly that agent, tool and hash, whatever
      the agents are called. */
  lemma HitsAreExact(cfg: Config, turns: seq<Turn>, agent: string, key: ToolKey, hash: string)
    requires CleanTurns(turns) && InFlightTable.NoNewline(Str(key)) && InFlightTable.NoNewline(hash)
    ensures var s := Run(cfg, turns);
            var hit := InFlightTable.Lookup(s.inflight, agent, Str(key), hash);
            hit.Some? ==>
              && hit.value.id in s.calls
              && var c := s.calls[hit.value.id];
              && c.req.who.agentId == agent && Str(c.key) == Str(key) && c.req.hash == hash
              && hit.value.taskId == c.taskId
  {
    var s := Run(cfg, turns);
    RunInv(cfg, true, turns);
    var hit := InFlightTable.Lookup(s.inflight, agent, Str(key), hash);
    if hit.Some? {
      var c := s.calls[hit.value.id];
      assert Matches(c, hit.value) && Disciplined(cfg, true, c);
      InFlightTable.MapKeyInjective(agent, Str(key), hash, c.req.who.agentId, Str(c.key), c.req.hash);
    }
  }

  /** All handles ever given out for one in-flight id are one task id, and while the call lives that is
      the task it will settle; the store never exceeds its bound. */
  lemma OneHandlePerCall(cfg: Config, turns: seq<Turn>, i: nat, j: nat)
    requires var log := Run(cfg, turns).log;
             i < |log| && j < |log| && HandsOut(log[i]) && HandsOut(log[j])
             && log[i].reply.inflightId == log[j].reply.inflightId
    ensures var s := Run(cfg, turns);
            var id, tid := s.log[i].reply.inflightId, s.log[i].reply.taskId;
            && tid == s.log[j].reply.taskId
            && (id in s.calls ==> s.calls[id].taskId == Some(tid) && tid in s.byTask && s.byTask[tid] == id)
            && |s.tasks| <= cfg.maxTasks
  {
    RunInv(cfg, false, turns);
    assert HandlesOf(Idle(Run(cfg, turns), false));
  }

  /** Live calls on one (agent, tool, hash) number at most one more than the inserts that overwrote a
      mapping of that key, and no such insert came straight from an unconfirmed new request. */
  lemma RetryDoesNotAmplify(cfg: Config, turns: seq<Turn>, mapKey: string, i: nat)
    ensures var s := Run(cfg, turns);
            && Running(s.calls, mapKey) <= 1 + Overwrites(s.log, mapKey)
            && (i < |s.log| && Overwrote(s.log[i], mapKey) ==> s.log[i].via.Confirmed? || s.log[i].via.Queued?)
  {
    var s := Run(cfg, turns);
    RunInv(cfg, false, turns);
    assert AmplifiedOf(Idle(s, false));
    assert Running(s.calls, mapKey) <= Overwrites(s.log, mapKey) + if mapKey in s.inflight.keyToId then 1 else 0;
  }
}
