/** Runs that disturb the line, turn by turn: one slot for each tool, and one for each principal. */
module EngineFifoRuns {
  import opened Options
  import opened ToolKeys
  import opened Access
  import opened Engine
  import opened EngineTurns
  import opened EngineOffer
  import opened EngineFifo
  import InFlightTable
  import Circuit
  import Retry

  const ONE_EACH := Config(
    map["x" := Meta(0, false, []), "y" := Meta(0, false, [])], map[], 1, 1, 1000, 60000, 10,
    Circuit.Params(3, 1000, 1), Retry.Policy(1, [], []))

  const X := ToolKey("x", "t")
  const Y := ToolKey("y", "t")

  const NOW := Env(0, {})

  function Ask(agent: string, key: ToolKey): Turn {
    Turn(Arrive(Request(0, Str(key), Principal(agent, 0, 0, true, false), "h", None, true, 0)), NOW)
  }

  const ANSWER := Turn(Upstream(0, Retry.Ok, false), NOW)
  const END := Turn(Drop(0), NOW)

  // ------------------------------------------------------------------ one turn at a time

  lemma Parsed(key: ToolKey)
    requires key == X || key == Y
    ensures Parse(Str(key)) == Some(key)
  {
    assert |key.backend| == 1 && !SepAt(key.backend, 0);
    assert FindSep(key.backend, 0) == 1;
    ParseStr(key);
  }

  /** A first request for a key goes to the governor. */
  lemma Governed(s: St, agent: string, key: ToolKey)
    requires key == X || key == Y
    requires !s.stopping && InFlightTable.MapKey(agent, Str(key), "h") !in s.inflight.keyToId
    ensures var r := Stamped(s, Ask(agent, key).event.req);
            ToGovernor(ONE_EACH, Arrived(s), r) == Some(key) && ViaOf(Arrived(s), r, key) == Direct
  {
    Parsed(key);
  }

  /** What the first call leaves behind. */
  predicate Busy(s: St, agent: string) {
    && s.gov == Take(Init(ONE_EACH).gov, Str(X), agent)
    && s.inflight.keyToId == map[InFlightTable.MapKey(agent, Str(X), "h") := 0]
    && 0 in s.calls && !s.stopping
    && var c := s.calls[0];
    && c.key == X && c.req.who.agentId == agent && c.outstanding == 1 && c.attempt == 1 && !c.cancelled
  }

  /** And what the promote timer will find. */
  predicate Unpromoted(s: St) {
    && s.nextId == 1 && s.tasks == map[] && s.byTask == map[] && s.live == {0} && s.gov.queues == map[]
    && 0 in s.calls
    && var c := s.calls[0];
    c.timer && !c.responded && c.taskId.None? && c.req.tasksCap
  }

  lemma FirstCall(agent: string)
    ensures var turn := Ask(agent, X);
            var s := Step(ONE_EACH, Init(ONE_EACH), turn.event, turn.env);
            Busy(s, agent) && Unpromoted(s)
  {
    var s, req := Arrived(Init(ONE_EACH)), Stamped(Init(ONE_EACH), Ask(agent, X).event.req);
    Governed(Init(ONE_EACH), agent, X);
    HandleCallIs(ONE_EACH, s, req, NOW);
    SeatedIs(ONE_EACH, s, Str(X), req, X, Direct, NOW);
    EnteredIsBusy(s, req, agent);
  }

  lemma EnteredIsBusy(s: St, req: Request, agent: string)
    requires s == Arrived(Init(ONE_EACH)) && req.who.agentId == agent && req.hash == "h" && req.tasksCap
    ensures Busy(Entered(s, Str(X), req, X, Direct, 0), agent) && Unpromoted(Entered(s, Str(X), req, X, Direct, 0))
  {
    EnteredLogs(s, Str(X), req, X, Direct, 0);
  }

  /** The same agent asks for the other tool, and waits: its principal is at the limit. */
  predicate HeadBlocked(s: St, agent: string) {
    && s.gov.tools == map[] && s.gov.toolUse == map[Str(X) := 1] && s.gov.agentUse == map[agent := 1]
    && Str(X) !in s.gov.queues
    && |Queue(s.gov, Str(Y))| == 1
    && var w := Queue(s.gov, Str(Y))[0];
    && w.req.who.agentId == agent && w.deadline == 1000
  }

  lemma SecondWaits(s: St, agent: string)
    requires Busy(s, agent)
    ensures var turn := Ask(agent, Y); var t := Step(ONE_EACH, s, turn.event, turn.env);
            HeadBlocked(t, agent) && t.calls == s.calls && t.inflight == s.inflight && !t.stopping
  {
    var req := Stamped(s, Ask(agent, Y).event.req);
    assert InFlightTable.MapKey(agent, Str(X), "h")[|agent| + 1] == 'x';
    assert InFlightTable.MapKey(agent, Str(Y), "h")[|agent| + 1] == 'y';
    Governed(s, agent, Y);
    HandleCallIs(ONE_EACH, Arrived(s), req, NOW);
    AcquireWaits(ONE_EACH, Arrived(s), req, Y, 1000, Direct, NOW);
  }

  /** The answer comes in; the governor is not told of it. */
  lemma AnswerIs(s: St, agent: string)
    requires HeadBlocked(s, agent)
    requires 0 in s.calls && s.calls[0].key == X && s.calls[0].req.who.agentId == agent
    requires s.calls[0].outstanding == 1 && s.calls[0].attempt == 1 && !s.calls[0].cancelled
    ensures var t := Step(ONE_EACH, s, ANSWER.event, NOW);
            && t.gov == s.gov && Enabled(t, Drop(0))
            && t.calls[0].key == X && t.calls[0].req.who.agentId == agent
  {
    OnUpstreamIs(ONE_EACH, s, 0, Retry.Ok, false, 0);
    ConcludedIs(Judged(ONE_EACH, s, 0, Retry.Ok, false, 0), 0, Retry.Ok, false, 0);
  }

  lemma EndStrands(s: St, agent: string)
    requires HeadBlocked(s, agent) && Enabled(s, Drop(0))
    requires s.calls[0].key == X && s.calls[0].req.who.agentId == agent
    ensures !Stranded(ONE_EACH, s.gov, Str(Y)) && Strands(ONE_EACH, s, END.event, NOW, Str(Y))
  {
    assert Str(X)[0] == 'x' && Str(Y)[0] == 'y';
    assert Queue(s.gov, Str(X)) == [];
    assert Offer(ONE_EACH, Engine.GiveBack(s.gov, Str(X), agent), s.slots, NOW, Str(X), []) == Offered([], None, []);
  }

  lemma OtherOvertakes(s: St, agent: string, other: string)
    requires HeadBlocked(s, agent) && agent != other && !s.stopping
    requires s.inflight.keyToId == map[InFlightTable.MapKey(agent, Str(X), "h") := 0]
    ensures var turn := Ask(other, Y); Overtakes(ONE_EACH, s, turn.event, turn.env, Str(Y))
  {
    assert Str(X)[0] == 'x' && Str(Y)[0] == 'y';
    if InFlightTable.MapKey(agent, Str(X), "h") == InFlightTable.MapKey(other, Str(Y), "h") {
      InFlightTable.MapKeyInjective(agent, Str(X), "h", other, Str(Y), "h");
    }
    Governed(s, other, Y);
    assert Queue(s.gov, Str(Y))[0] in Queue(s.gov, Str(Y));
  }

  // ------------------------------------------------------------------ the runs

  lemma RunMore(turns: seq<Turn>, turn: Turn)
    ensures Run(ONE_EACH, turns + [turn]) == Step(ONE_EACH, Run(ONE_EACH, turns), turn.event, turn.env)
  {
    assert (turns + [turn])[..|turns|] == turns;
  }

  lemma TwoAsked(agent: string)
    ensures var s := Run(ONE_EACH, [Ask(agent, X)] + [Ask(agent, Y)]);
            && HeadBlocked(s, agent) && !s.stopping
            && s.inflight.keyToId == map[InFlightTable.MapKey(agent, Str(X), "h") := 0]
            && 0 in s.calls && s.calls[0].key == X && s.calls[0].req.who.agentId == agent
            && s.calls[0].outstanding == 1 && s.calls[0].attempt == 1 && !s.calls[0].cancelled
  {
    assert [] + [Ask(agent, X)] == [Ask(agent, X)];
    assert Run(ONE_EACH, []) == Init(ONE_EACH);
    RunMore([], Ask(agent, X));
    RunMore([Ask(agent, X)], Ask(agent, Y));
    FirstCall(agent);
    SecondWaits(Run(ONE_EACH, [Ask(agent, X)]), agent);
  }

  /** A waiter whose principal was at its limit on another tool is not woken when that other call ends:
      it stays in its queue although its tool has a free slot and its principal is below its limit again. */
  lemma StrandedWaiter(agent: string)
    ensures var s := Run(ONE_EACH, [Ask(agent, X)] + [Ask(agent, Y)] + [ANSWER] + [END]);
            Stranded(ONE_EACH, s.gov, Str(Y))
  {
    var two := [Ask(agent, X)] + [Ask(agent, Y)];
    TwoAsked(agent);
    RunMore(two, ANSWER);
    AnswerIs(Run(ONE_EACH, two), agent);
    RunMore(two + [ANSWER], END);
    EndStrands(Run(ONE_EACH, two + [ANSWER]), agent);
    RunInv(ONE_EACH, false, two + [ANSWER]);
    StepIdle(ONE_EACH, Run(ONE_EACH, two + [ANSWER]), END.event, NOW, Str(Y));
  }

  /** A newcomer of another principal is let past such a waiter. */
  lemma OvertakenWaiter(agent: string, other: string)
    requires agent != other
    ensures InOrder(Run(ONE_EACH, [Ask(agent, X)] + [Ask(agent, Y)]), Str(Y))
    ensures !InOrder(Run(ONE_EACH, [Ask(agent, X)] + [Ask(agent, Y)] + [Ask(other, Y)]), Str(Y))
  {
    var two, turn := [Ask(agent, X)] + [Ask(agent, Y)], Ask(other, Y);
    TwoAsked(agent);
    TwoInOrder(agent);
    RunMore(two, turn);
    OtherOvertakes(Run(ONE_EACH, two), agent, other);
    RunInv(ONE_EACH, false, two);
    StepOrder(ONE_EACH, Run(ONE_EACH, two), turn.event, turn.env, Str(Y));
  }

  lemma OneInOrder(agent: string)
    ensures InOrder(Run(ONE_EACH, [Ask(agent, X)]), Str(Y))
  {
    assert [] + [Ask(agent, X)] == [Ask(agent, X)];
    RunMore([], Ask(agent, X));
    RunInv(ONE_EACH, false, []);
    StartsOrderly(ONE_EACH, Str(Y));
    StepOrder(ONE_EACH, Run(ONE_EACH, []), Ask(agent, X).event, NOW, Str(Y));
  }

  lemma TwoInOrder(agent: string)
    ensures InOrder(Run(ONE_EACH, [Ask(agent, X)] + [Ask(agent, Y)]), Str(Y))
  {
    var s1 := Run(ONE_EACH, [Ask(agent, X)]);
    OneInOrder(agent);
    assert [] + [Ask(agent, X)] == [Ask(agent, X)];
    RunMore([], Ask(agent, X));
    RunMore([Ask(agent, X)], Ask(agent, Y));
    FirstCall(agent);
    SecondWaits(s1, agent);
    RunInv(ONE_EACH, false, [Ask(agent, X)]);
    StepOrder(ONE_EACH, s1, Ask(agent, Y).event, NOW, Str(Y));
  }
}
