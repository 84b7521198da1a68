/** Draining: once requestStop has run, nothing is ever sent upstream again, the queues stay empty, and
    every request has its reply (src/cli/Gateway.cpp:74-81, src/pipeline/Pipeline.cpp:70-75). */
module EngineDrain {
  import opened ToolKeys
  import opened Engine
  import opened EngineInvariant
  import opened EngineMoves
  import opened EngineKeeps
  import opened EngineTurns
  import opened EngineOffer
  import opened EngineResults
  import EngineHistory

  predicate Empty(g: Gov) {
    forall ts :: ts in g.queues ==> g.queues[ts] == []
  }

  predicate AllCancelled(calls: map<nat, Call>) {
    forall id :: id in calls ==> calls[id].cancelled
  }

  predicate Stopped(s: St) {
    s.stopping && Empty(s.gov) && AllCancelled(s.calls)
  }

  /** Upstream attempts made so far, first ones and retries. */
  function Fires(log: seq<Action>): nat {
    if log == [] then 0
    else Fires(log[..|log| - 1]) + if log[|log| - 1].Fired? then 1 else 0
  }

  lemma FirePush(log: seq<Action>, a: Action)
    requires !a.Fired?
    ensures Fires(log + [a]) == Fires(log)
  {
    assert (log + [a])[..|log|] == log;
  }

  // ------------------------------------------------------------------ moves that start nothing

  const QUIET: set<Kind> := {Still, Store, Hand, Timer, Cancel, Report, Leave}

  /** What stays true of a stopping gateway, move by move. */
  predicate Quiet(s: St, t: St) {
    && Fires(t.log) == Fires(s.log)
    && (s.stopping ==> t.stopping)
    && (Empty(s.gov) ==> Empty(t.gov))
    && (AllCancelled(s.calls) ==> AllCancelled(t.calls))
  }

  lemma QuietLog(cfg: Config, m: Mach, v: Move)
    requires Valid(cfg, m, v) && KindOf(v) in QUIET
    ensures Fires(LogAfter(cfg, m, v)) == Fires(m.s.log)
  {
    if LogAfter(cfg, m, v) != m.s.log {
      var a := LogAfter(cfg, m, v)[|m.s.log|];
      assert LogAfter(cfg, m, v) == m.s.log + [a];
      FirePush(m.s.log, a);
    }
  }

  lemma QuietCalls(cfg: Config, m: Mach, v: Move)
    requires Valid(cfg, m, v) && KindOf(v) in QUIET && AllCancelled(m.s.calls)
    ensures AllCancelled(CallsAfter(cfg, m, v))
  {
  }

  lemma QuietQueues(cfg: Config, m: Mach, v: Move)
    requires Valid(cfg, m, v) && KindOf(v) in QUIET && Empty(m.s.gov)
    ensures Empty(GovAfter(cfg, m, v))
  {
  }

  lemma QuietClosed(cfg: Config)
    ensures Closed(cfg, (m: Mach, n: Mach) => Quiet(m.s, n.s), QUIET)
  {
    forall m, v | Valid(cfg, m, v) && KindOf(v) in QUIET ensures Quiet(m.s, Do(cfg, m, v).s) {
      QuietLog(cfg, m, v);
      if AllCancelled(m.s.calls) { QuietCalls(cfg, m, v); }
      if Empty(m.s.gov) { QuietQueues(cfg, m, v); }
    }
  }

  lemma TurnQuiet(cfg: Config, s: St, e: Event, env: Env)
    requires Inv(cfg, Idle(s, false)) && TurnKinds(cfg, s, e) <= QUIET
    ensures Quiet(s, Step(cfg, s, e, env))
  {
    var R := (m: Mach, n: Mach) => Quiet(m.s, n.s);
    QuietClosed(cfg);
    StepTurn(cfg, R, QUIET, false, s, e, env);
    assert R(Idle(s, false), Idle(Step(cfg, s, e, env), false));
  }

  // ------------------------------------------------------------------ the stop itself

  /** cancelWait cancels its own call and uncancels none. */
  lemma CancelWaitCalls(s: St, id: nat, now: nat)
    requires id in s.calls
    ensures Engine.CancelWait(s, id, now).calls
         == s.calls[id := s.calls[id].(cancelled := true, responded := true)]
  {
    var c := s.calls[id].(cancelled := true);
    assert s.calls[id := c][id := c.(responded := true)] == s.calls[id := c.(responded := true)];
    if c.responded { assert c == c.(responded := true); }
  }

  lemma {:induction false} CancelAllCancels(s: St, order: seq<nat>, now: nat)
    ensures var t := CancelAll(s, order, now);
            && t.stopping == s.stopping && t.calls.Keys == s.calls.Keys
            && (forall x :: x in s.calls && (x in order || s.calls[x].cancelled) ==> t.calls[x].cancelled)
    decreases |order|
  {
    if order != [] {
      if order[0] in s.calls { CancelWaitCalls(s, order[0], now); }
      CancelAllCancels(if order[0] in s.calls then Engine.CancelWait(s, order[0], now) else s, order[1..], now);
    }
  }

  lemma {:induction false} RejectQueueEmpties(s: St, ts: string)
    ensures var t := RejectQueue(s, ts);
            && t.stopping == s.stopping && t.calls == s.calls && Queue(t.gov, ts) == []
            && t.gov.queues.Keys <= s.gov.queues.Keys + {ts}
            && (forall x :: x in s.gov.queues && x != ts ==> x in t.gov.queues && t.gov.queues[x] == s.gov.queues[x])
    decreases |Queue(s.gov, ts)|
  {
    var q := Queue(s.gov, ts);
    if q != [] {
      RejectQueueEmpties(Answer(s.(gov := SetQueue(s.gov, ts, q[1..])), q[0].req, Throttled), ts);
    }
  }

  /** The refusals of a whole queue, from its head on. */
  function Refusals(q: seq<Waiter>): seq<Action> {
    if q == [] then [] else [Replied(q[0].req, Throttled)] + Refusals(q[1..])
  }

  /** A queue is refused in the order in which it waited. */
  lemma {:induction false} RejectedInOrder(s: St, ts: string)
    ensures RejectQueue(s, ts).log == s.log + Refusals(Queue(s.gov, ts))
    decreases |Queue(s.gov, ts)|
  {
    var q := Queue(s.gov, ts);
    if q != [] {
      RejectedInOrder(Answer(s.(gov := SetQueue(s.gov, ts, q[1..])), q[0].req, Throttled), ts);
    }
  }

  lemma {:induction false} RejectAllEmpties(s: St, order: seq<string>)
    ensures var t := RejectAll(s, order);
            && t.stopping == s.stopping && t.calls == s.calls
            && (forall x :: x in t.gov.queues && (x in order || x !in s.gov.queues || s.gov.queues[x] == []) ==>
                  t.gov.queues[x] == [])
            && (forall x :: x in t.gov.queues && x !in order ==> x in s.gov.queues)
    decreases |order|
  {
    if order != [] {
      RejectQueueEmpties(s, order[0]);
      RejectAllEmpties(RejectQueue(s, order[0]), order[1..]);
    }
  }

  /** requestStop leaves no waiter in any queue and no call uncancelled, and sends nothing. */
  lemma StopStops(cfg: Config, s: St, e: Event, env: Env)
    requires e.Stop? && Enabled(s, e) && Inv(cfg, Idle(s, false))
    ensures var t := Step(cfg, s, e, env); Stopped(t) && Fires(t.log) == Fires(s.log)
  {
    TurnQuiet(cfg, s, e, env);
    StopLeaves(cfg, s, e, env);
  }

  lemma StopLeaves(cfg: Config, s: St, e: Event, env: Env)
    requires e.Stop? && Enabled(s, e) && SameKeys(s.calls, s.live, s.inflight.byId)
    ensures Stopped(Step(cfg, s, e, env))
  {
    var s1 := s.(stopping := true);
    CancelAllCancels(s1, e.calls, env.now);
    RejectAllEmpties(CancelAll(s1, e.calls, env.now), e.queues);
    CancelAllQueues(s1, e.calls, env.now);
  }

  // ------------------------------------------------------------------ after the stop

  /** A slot that comes back to an empty queue wakes nobody. */
  lemma DropQuiet(cfg: Config, s: St, id: nat, env: Env)
    requires Stopped(s) && Discipline(cfg, false, s.calls) && Enabled(s, Drop(id))
    ensures var t := Step(cfg, s, Drop(id), env); Stopped(t) && Fires(t.log) == Fires(s.log)
  {
    DropIs(cfg, s, id, env);
    EndedIs(cfg, s, id);
    assert Queue(Ended(s, id).gov, Str(s.calls[id].key)) == [];
  }

  /** A stopped gateway answers whoever arrives right away, and absorbs the answers. */
  lemma QuietKinds(cfg: Config, s: St, e: Event)
    requires Stopped(s) && (e.Drop? ==> !Enabled(s, e)) && !e.ToolsListed?
    ensures TurnKinds(cfg, s, e) <= QUIET
  {
  }

  lemma ListedQuiet(cfg: Config, s: St, e: Event, env: Env)
    requires Stopped(s) && e.ToolsListed?
    ensures var t := Step(cfg, s, e, env); Stopped(t) && Fires(t.log) == Fires(s.log)
  {
  }

  lemma StepQuiet(cfg: Config, s: St, e: Event, env: Env)
    requires Stopped(s) && Inv(cfg, Idle(s, false))
    ensures var t := Step(cfg, s, e, env); Stopped(t) && Fires(t.log) == Fires(s.log)
  {
    if e.Drop? && Enabled(s, e) {
      DropQuiet(cfg, s, e.id, env);
    } else if e.ToolsListed? {
      ListedQuiet(cfg, s, e, env);
    } else {
      QuietKinds(cfg, s, e);
      TurnQuiet(cfg, s, e, env);
    }
  }

  lemma {:induction false} RunQuiet(cfg: Config, s: St, turns: seq<Turn>)
    requires Stopped(s) && Inv(cfg, Idle(s, false))
    ensures var t := RunFrom(cfg, s, turns); Stopped(t) && Fires(t.log) == Fires(s.log)
  {
    if turns != [] {
      var front, last := turns[..|turns| - 1], turns[|turns| - 1];
      RunQuiet(cfg, s, front);
      RunKeeps(cfg, false, s, front);
      StepQuiet(cfg, RunFrom(cfg, s, front), last.event, last.env);
    }
  }

  /** With no waiter and no call that owes a reply, every request so far has been answered. */
  lemma AllAnswered(cfg: Config, turns: seq<Turn>, r: nat)
    requires Stopped(Run(cfg, turns)) && r < Run(cfg, turns).arrivals
    ensures Replies(Run(cfg, turns).log, r) == 1
  {
    var s := Run(cfg, turns);
    RunInv(cfg, false, turns);
    ExactlyOneReply(cfg, turns, r);
    assert forall id :: id in s.calls ==> Disciplined(cfg, false, s.calls[id]);
  }

  /** Drain. Whatever ran before requestStop and whatever follows it: no attempt is ever sent upstream
      again, not even a retry; the queues are empty and stay empty; every call there still is has been
      cancelled and answered; and every request that ever arrived, before or after, has its reply. */
  lemma Drain(cfg: Config, before: seq<Turn>, stop: Turn, after: seq<Turn>, r: nat)
    requires stop.event.Stop? && Enabled(Run(cfg, before), stop.event)
    ensures var s0, s := Run(cfg, before), Run(cfg, before + [stop] + after);
            && Fires(s.log) == Fires(s0.log)
            && s.stopping && Empty(s.gov)
            && (forall id :: id in s.calls ==> s.calls[id].cancelled && s.calls[id].responded)
            && (r < s.arrivals ==> Replies(s.log, r) == 1)
  {
    var s0, s1 := Run(cfg, before), Run(cfg, before + [stop]);
    var s := Run(cfg, before + [stop] + after);
    RunInv(cfg, false, before);
    assert (before + [stop])[..|before|] == before;
    assert s1 == Step(cfg, s0, stop.event, stop.env);
    StopStops(cfg, s0, stop.event, stop.env);
    RunInv(cfg, false, before + [stop]);
    EngineHistory.RunAppend(cfg, Init(cfg), before + [stop], after);
    RunQuiet(cfg, s1, after);
    RunInv(cfg, false, before + [stop] + after);
    assert forall id :: id in s.calls ==> Disciplined(cfg, false, s.calls[id]);
    if r < s.arrivals { AllAnswered(cfg, before + [stop] + after, r); }
  }
}
