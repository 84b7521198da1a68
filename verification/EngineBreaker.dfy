/** The breaker of each backend over a run of the gateway: it follows the answers and probes that came in for that
    backend, and what it has read in between changes nothing (src/pipeline/Pipeline.cpp:382-405, 576-595). */
module EngineBreaker {
  import opened Engine
  import opened EngineMoves
  import opened EngineKeeps
  import opened EngineTurns
  import Circuit
  import Retry

  /** A history without its queries. */
  function Reports(h: seq<Circuit.Event>): seq<Circuit.Event> {
    if h == [] then []
    else Reports(h[..|h| - 1]) + if h[|h| - 1].Query? then [] else [h[|h| - 1]]
  }

  /** What one turn tells the breaker of a backend: an answer that was not to a cancelled call, good only without
      any error, or a probe. */
  function ToldBy(s: St, turn: Turn, backend: string): seq<Circuit.Event> {
    var e := turn.event;
    if e.ProbeOk? && e.backend == backend then [Circuit.Probe]
    else if e.Upstream? && Enabled(s, e) && !s.calls[e.id].cancelled && s.calls[e.id].key.backend == backend
    then [if e.klass == Retry.Ok && !e.isError then Circuit.Success else Circuit.Failure(turn.env.now)]
    else []
  }

  /** What a run has told it. */
  function Told(cfg: Config, turns: seq<Turn>, backend: string): seq<Circuit.Event> {
    if turns == [] then []
    else
      var front := turns[..|turns| - 1];
      Told(cfg, front, backend) + ToldBy(Run(cfg, front), turns[|turns| - 1], backend)
  }

  // ------------------------------------------------------------------ histories one after the other

  lemma {:induction false} ReplayThen(p: Circuit.Params, s: Circuit.Slot, a: seq<Circuit.Event>, b: seq<Circuit.Event>)
    ensures Circuit.Replay(p, s, a + b) == Circuit.Replay(p, Circuit.Replay(p, s, a), b)
    decreases |b|
  {
    if b == [] {
      assert a + b == a;
    } else {
      var k := |b| - 1;
      ReplayThen(p, s, a, b[..k]);
      assert (a + b)[..|a + b| - 1] == a + b[..k];
    }
  }

  lemma {:induction false} ReportsThen(a: seq<Circuit.Event>, b: seq<Circuit.Event>)
    ensures Reports(a + b) == Reports(a) + Reports(b)
    decreases |b|
  {
    if b == [] {
      assert a + b == a;
    } else {
      var k := |b| - 1;
      ReportsThen(a, b[..k]);
      assert (a + b)[..|a + b| - 1] == a + b[..k];
    }
  }

  lemma {:induction false} TrailingReports(h: seq<Circuit.Event>)
    ensures Circuit.Trailing(Reports(h)) == Circuit.Trailing(h)
  {
    if h != [] {
      var front, last := h[..|h| - 1], h[|h| - 1];
      TrailingReports(front);
      if !last.Query? {
        assert Reports(h)[..|Reports(h)| - 1] == Reports(front);
      } else {
        assert Reports(h) == Reports(front);
      }
    }
  }

  /** The slot of the backend went from the one to the other by a history with these reports. */
  ghost predicate Moved(cfg: Config, s: St, t: St, backend: string, reports: seq<Circuit.Event>) {
    exists h :: Reports(h) == reports
      && Circuit.SlotOf(t.slots, backend) == Circuit.Replay(cfg.circuit, Circuit.SlotOf(s.slots, backend), h)
  }

  lemma MovedThen(cfg: Config, s: St, u: St, t: St, backend: string, a: seq<Circuit.Event>, b: seq<Circuit.Event>)
    requires Moved(cfg, s, u, backend, a) && Moved(cfg, u, t, backend, b)
    ensures Moved(cfg, s, t, backend, a + b)
  {
    var p := cfg.circuit;
    var g :| Reports(g) == a
             && Circuit.SlotOf(u.slots, backend) == Circuit.Replay(p, Circuit.SlotOf(s.slots, backend), g);
    var h :| Reports(h) == b
             && Circuit.SlotOf(t.slots, backend) == Circuit.Replay(p, Circuit.SlotOf(u.slots, backend), h);
    ReplayThen(p, Circuit.SlotOf(s.slots, backend), g, h);
    ReportsThen(g, h);
  }

  lemma MovedBy(cfg: Config, s: St, t: St, backend: string, event: Circuit.Event)
    requires Circuit.SlotOf(t.slots, backend) == Circuit.Apply(cfg.circuit, Circuit.SlotOf(s.slots, backend), event)
    ensures Moved(cfg, s, t, backend, if event.Query? then [] else [event])
  {
    var h := [event];
    assert h[..0] == [];
    assert Reports(h[..0]) == [];
    assert Circuit.Replay(cfg.circuit, Circuit.SlotOf(s.slots, backend), h[..0]) == Circuit.SlotOf(s.slots, backend);
    assert Reports(h) == if event.Query? then [] else [event];
  }

  lemma MovedNot(cfg: Config, s: St, t: St, backend: string)
    requires Circuit.SlotOf(t.slots, backend) == Circuit.SlotOf(s.slots, backend)
    ensures Moved(cfg, s, t, backend, [])
  {
    assert Reports([]) == [];
    assert Circuit.Replay(cfg.circuit, Circuit.SlotOf(s.slots, backend), []) == Circuit.SlotOf(t.slots, backend);
  }

  // ------------------------------------------------------------------ turns that only read

  const READING: set<Kind> := ALL - {Report}

  lemma ReadingOne(cfg: Config, m: Mach, v: Move, backend: string)
    requires Valid(cfg, m, v) && KindOf(v) in READING
    ensures Moved(cfg, m.s, Do(cfg, m, v).s, backend, [])
  {
    var t := Do(cfg, m, v).s;
    if v.Read? && v.backend == backend {
      MovedBy(cfg, m.s, t, backend, Circuit.Query(v.now));
    } else {
      MovedNot(cfg, m.s, t, backend);
    }
  }

  lemma ReadingClosed(cfg: Config, backend: string)
    ensures Closed(cfg, (m: Mach, n: Mach) => Moved(cfg, m.s, n.s, backend, []), READING)
  {
    var R := (m: Mach, n: Mach) => Moved(cfg, m.s, n.s, backend, []);
    forall m ensures R(m, m) { MovedNot(cfg, m.s, m.s, backend); }
    forall m, v | Valid(cfg, m, v) && KindOf(v) in READING ensures R(m, Do(cfg, m, v)) {
      ReadingOne(cfg, m, v, backend);
    }
    forall m, k, n | R(m, k) && R(k, n) ensures R(m, n) {
      MovedThen(cfg, m.s, k.s, n.s, backend, [], []);
    }
  }

  lemma ReadingKinds(cfg: Config, s: St, e: Event)
    requires !e.ProbeOk? && (e.Upstream? && Enabled(s, e) ==> s.calls[e.id].cancelled)
    ensures TurnKinds(cfg, s, e) <= READING
  {
  }

  lemma ReadingTurn(cfg: Config, s: St, e: Event, env: Env, backend: string)
    requires Inv(cfg, Idle(s, false)) && TurnKinds(cfg, s, e) <= READING
    ensures Moved(cfg, s, Step(cfg, s, e, env), backend, [])
  {
    var R := (m: Mach, n: Mach) => Moved(cfg, m.s, n.s, backend, []);
    ReadingClosed(cfg, backend);
    StepTurn(cfg, R, READING, false, s, e, env);
    assert R(Idle(s, false), Idle(Step(cfg, s, e, env), false));
  }

  // ------------------------------------------------------------------ turns that report

  /** An uncancelled answer reads the breaker of its backend and then reports to it, and to no other. */
  lemma AnswerTold(cfg: Config, s: St, e: Event, env: Env, backend: string)
    requires e.Upstream? && Enabled(s, e) && !s.calls[e.id].cancelled
    ensures Moved(cfg, s, Step(cfg, s, e, env), backend, ToldBy(s, Turn(e, env), backend))
  {
    var c, t := s.calls[e.id], Step(cfg, s, e, env);
    AnswerSlots(cfg, s, e.id, e.klass, e.isError, env.now);
    assert t == OnUpstream(cfg, s, e.id, e.klass, e.isError, env.now);
    var report := ReportOf(e.klass, e.isError, env.now);
    if c.key.backend == backend {
      var u := ReadSlot(s, c.key, env.now);
      MovedBy(cfg, s, u, backend, Circuit.Query(env.now));
      MovedBy(cfg, u, t, backend, report);
      MovedThen(cfg, s, u, t, backend, [], [report]);
      assert [] + [report] == [report];
    } else {
      MovedNot(cfg, s, t, backend);
    }
  }

  lemma AnswerSlots(cfg: Config, s: St, id: nat, klass: Retry.Klass, isError: bool, now: nat)
    requires id in s.calls && s.calls[id].outstanding > 0 && !s.calls[id].cancelled
    ensures OnUpstream(cfg, s, id, klass, isError, now).slots
         == Judge(cfg, s.slots, s.calls[id].key.backend, klass == Retry.Ok && !isError, now)
  {
    OnUpstreamIs(cfg, s, id, klass, isError, now);
    ConcludedIs(Judged(cfg, s, id, klass, isError, now), id, klass, isError, now);
  }

  lemma StepTold(cfg: Config, s: St, turn: Turn, backend: string)
    requires Inv(cfg, Idle(s, false))
    ensures Moved(cfg, s, Step(cfg, s, turn.event, turn.env), backend, ToldBy(s, turn, backend))
  {
    var e := turn.event;
    if e.ProbeOk? {
      ProbeTold(cfg, s, turn, backend);
    } else if e.Upstream? && Enabled(s, e) && !s.calls[e.id].cancelled {
      AnswerTold(cfg, s, e, turn.env, backend);
    } else {
      ReadingKinds(cfg, s, e);
      ReadingTurn(cfg, s, e, turn.env, backend);
    }
  }

  lemma ProbeTold(cfg: Config, s: St, turn: Turn, backend: string)
    requires turn.event.ProbeOk?
    ensures Moved(cfg, s, Step(cfg, s, turn.event, turn.env), backend, ToldBy(s, turn, backend))
  {
    var t := Step(cfg, s, turn.event, turn.env);
    if turn.event.backend == backend {
      MovedBy(cfg, s, t, backend, Circuit.Probe);
    } else {
      MovedNot(cfg, s, t, backend);
    }
  }

  /** In every run the breaker of a backend is where a fresh one would be after exactly the answers and probes of
      that backend, with some queries in between. */
  lemma {:induction false} BreakerFollowsRun(cfg: Config, turns: seq<Turn>, backend: string)
    ensures Moved(cfg, Init(cfg), Run(cfg, turns), backend, Told(cfg, turns, backend))
    decreases |turns|
  {
    if turns == [] {
      MovedNot(cfg, Init(cfg), Init(cfg), backend);
    } else {
      var front, last := turns[..|turns| - 1], turns[|turns| - 1];
      BreakerFollowsRun(cfg, front, backend);
      RunInv(cfg, false, front);
      StepTold(cfg, Run(cfg, front), last, backend);
      MovedThen(cfg, Init(cfg), Run(cfg, front), Run(cfg, turns), backend, Told(cfg, front, backend),
                ToldBy(Run(cfg, front), last, backend));
    }
  }

  /** So a closed breaker has counted exactly the failures at the end of what the run has told it, and they are too
      few to open it. */
  lemma ClosedCountsFailures(cfg: Config, turns: seq<Turn>, backend: string)
    requires cfg.circuit.openAfter >= 1
    ensures var slot := Circuit.SlotOf(Run(cfg, turns).slots, backend);
            slot.st == Circuit.Closed ==>
              slot.fails == Circuit.Trailing(Told(cfg, turns, backend)) && slot.fails < cfg.circuit.openAfter
  {
    BreakerFollowsRun(cfg, turns, backend);
    var h :| Reports(h) == Told(cfg, turns, backend)
             && Circuit.SlotOf(Run(cfg, turns).slots, backend)
                == Circuit.Replay(cfg.circuit, Circuit.SlotOf(Init(cfg).slots, backend), h);
    Circuit.HistoryExplains(cfg.circuit, h);
    TrailingReports(h);
  }
}
