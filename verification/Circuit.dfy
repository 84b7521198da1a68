/** The consecutive-failure circuit breaker, one slot per upstream (src/health/CountCircuit.cpp). */
module Circuit {

  datatype CState = Closed | Open | HalfOpen

  datatype Slot = Slot(st: CState, fails: int, halfOk: int, openUntil: nat)

  datatype Params = Params(openAfter: int, cooldown: nat, halfOpenProbes: int)

  type Slots = map<string, Slot>

  const FRESH := Slot(Closed, 0, 0, 0)

  function SlotOf(slots: Slots, server: string): Slot {
    if server in slots then slots[server] else FRESH
  }

  function MaybeHalfOpen(s: Slot, now: nat): Slot {
    if s.st.Open? && now >= s.openUntil then s.(st := HalfOpen, halfOk := 0) else s
  }

  function AfterSuccess(p: Params, s: Slot): Slot {
    if s.st.HalfOpen? then
      if s.halfOk + 1 >= p.halfOpenProbes
      then s.(halfOk := s.halfOk + 1, st := Closed, fails := 0)
      else s.(halfOk := s.halfOk + 1)
    else s.(fails := 0, st := Closed)
  }

  /** The slot after a failure, and whether this failure opened the breaker. */
  function AfterFailure(p: Params, s0: Slot, now: nat): (Slot, bool) {
    var s := MaybeHalfOpen(s0, now);
    if s.st.HalfOpen? then (s.(st := Open, openUntil := now + p.cooldown, fails := 0), true)
    else if s.fails + 1 >= p.openAfter && !s.st.Open? then
      (s.(fails := s.fails + 1, st := Open, openUntil := now + p.cooldown), true)
    else (s.(fails := s.fails + 1), false)
  }

  function AfterProbe(p: Params, s: Slot): Slot {
    if s.st.HalfOpen? then
      if s.halfOk + 1 >= p.halfOpenProbes
      then s.(halfOk := 0, st := Closed, fails := 0)
      else s.(halfOk := s.halfOk + 1)
    else if s.st.Closed? then s.(fails := 0)
    else s
  }

  class CountCircuit {
    const p: Params
    var slots: Slots

    constructor (p: Params)
      ensures this.p == p && slots == map[]
    {
      this.p := p;
      slots := map[];
    }

    method State(server: string, now: nat) returns (st: CState)
      modifies this
      ensures slots == old(slots)[server := MaybeHalfOpen(SlotOf(old(slots), server), now)]
      ensures st == slots[server].st
    {
      var s := SlotOf(slots, server);
      if s.st == Open && now >= s.openUntil {
        s := s.(st := HalfOpen);
        s := s.(halfOk := 0);
      }
      slots := slots[server := s];
      st := s.st;
    }

    method IsOpen(server: string, now: nat) returns (open: bool)
      modifies this
      ensures slots == old(slots)[server := MaybeHalfOpen(SlotOf(old(slots), server), now)]
      ensures open == slots[server].st.Open?
    {
      var st := State(server, now);
      open := st == Open;
    }

    method OnSuccess(server: string)
      modifies this
      ensures slots == old(slots)[server := AfterSuccess(p, SlotOf(old(slots), server))]
    {
      var s := SlotOf(slots, server);
      if s.st == HalfOpen {
        s := s.(halfOk := s.halfOk + 1);
        if s.halfOk >= p.halfOpenProbes {
          s := s.(st := Closed);
          s := s.(fails := 0);
        }
      } else {
        s := s.(fails := 0);
        s := s.(st := Closed);
      }
      slots := slots[server := s];
    }

    method OnFailure(server: string, now: nat) returns (becameOpen: bool)
      modifies this
      ensures slots == old(slots)[server := AfterFailure(p, SlotOf(old(slots), server), now).0]
      ensures becameOpen == AfterFailure(p, SlotOf(old(slots), server), now).1
    {
      var s := SlotOf(slots, server);
      if s.st == Open && now >= s.openUntil {
        s := s.(st := HalfOpen, halfOk := 0);
      }
      becameOpen := false;
      if s.st == HalfOpen {
        s := s.(st := Open);
        s := s.(openUntil := now + p.cooldown);
        s := s.(fails := 0);
        becameOpen := true;
      } else {
        s := s.(fails := s.fails + 1);
        if s.fails >= p.openAfter && s.st != Open {
          s := s.(st := Open);
          s := s.(openUntil := now + p.cooldown);
          becameOpen := true;
        }
      }
      slots := slots[server := s];
    }

    method OnProbeSuccess(server: string)
      modifies this
      ensures slots == old(slots)[server := AfterProbe(p, SlotOf(old(slots), server))]
    {
      var s := SlotOf(slots, server);
      if s.st == HalfOpen {
        s := s.(halfOk := s.halfOk + 1);
        if s.halfOk >= p.halfOpenProbes {
          s := s.(st := Closed);
          s := s.(fails := 0);
          s := s.(halfOk := 0);
        }
      } else if s.st == Closed {
        s := s.(fails := 0);
      }
      slots := slots[server := s];
    }
  }

  // ------------------------------------------------------------- the breaker and its history

  /** Everything that happens to one slot. A query is isOpen or state. */
  datatype Event = Query(now: nat) | Failure(now: nat) | Success | Probe

  predicate Good(e: Event) { e.Success? || e.Probe? }

  function Apply(p: Params, s: Slot, e: Event): Slot {
    match e
    case Query(now) => MaybeHalfOpen(s, now)
    case Failure(now) => AfterFailure(p, s, now).0
    case Success => AfterSuccess(p, s)
    case Probe => AfterProbe(p, s)
  }

  function Replay(p: Params, s: Slot, h: seq<Event>): Slot {
    if h == [] then s else Apply(p, Replay(p, s, h[..|h| - 1]), h[|h| - 1])
  }

  /** Length of the run of failures at the end of the history; queries do not interrupt it. */
  function Trailing(h: seq<Event>): nat {
    if h == [] then 0
    else
      match h[|h| - 1]
      case Failure(_) => 1 + Trailing(h[..|h| - 1])
      case Query(_) => Trailing(h[..|h| - 1])
      case _ => 0
  }

  function GoodCount(h: seq<Event>): nat {
    if h == [] then 0
    else GoodCount(h[..|h| - 1]) + if Good(h[|h| - 1]) then 1 else 0
  }

  function Needed(p: Params): nat {
    if p.halfOpenProbes <= 1 then 1 else p.halfOpenProbes
  }

  /** Events an open breaker sits out: no business success, and nothing at or after `until`. */
  predicate SatOut(h: seq<Event>, until: nat) {
    forall j :: 0 <= j < |h| ==>
      match h[j]
      case Query(now) => now < until
      case Failure(now) => now < until
      case Success => false
      case Probe => true
  }

  predicate NoFailure(h: seq<Event>) {
    forall j :: 0 <= j < |h| ==> !h[j].Failure?
  }

  /** h[i] is the failure that opened the breaker, and nothing since could end the open phase. */
  predicate OpenedAt(p: Params, h: seq<Event>, i: nat, until: nat) {
    && i < |h| && h[i].Failure?
    && until == h[i].now + p.cooldown
    && SatOut(h[i + 1..], until)
  }

  /** h[i] is the query that found the cooldown over, and no failure followed it. */
  predicate HalfOpenedAt(h: seq<Event>, i: nat, halfOk: int) {
    && i < |h| && h[i].Query?
    && NoFailure(h[i + 1..])
    && halfOk == GoodCount(h[i + 1..])
  }

  /** The state of a slot read off its history alone. */
  ghost predicate Explains(p: Params, h: seq<Event>, s: Slot) {
    match s.st
    case Closed => s.fails == Trailing(h) && s.fails < p.openAfter
    case Open => exists i :: OpenedAt(p, h, i, s.openUntil)
    case HalfOpen => s.halfOk < Needed(p) && exists i :: HalfOpenedAt(h, i, s.halfOk)
  }

  /** Breaker equals its history, for every history of queries, failures, successes and probes. */
  lemma {:induction false} HistoryExplains(p: Params, h: seq<Event>)
    requires p.openAfter >= 1
    ensures Explains(p, h, Replay(p, FRESH, h))
  {
    if h != [] {
      var g, e := h[..|h| - 1], h[|h| - 1];
      HistoryExplains(p, g);
      StepExplains(p, g, Replay(p, FRESH, g), e);
      assert h == g + [e];
    }
  }

  lemma {:induction false} StepExplains(p: Params, g: seq<Event>, s: Slot, e: Event)
    requires p.openAfter >= 1 && Explains(p, g, s)
    ensures Explains(p, g + [e], Apply(p, s, e))
  {
    match s.st
    case Closed => StepFromClosed(p, g, s, e);
    case Open => StepFromOpen(p, g, s, e);
    case HalfOpen => StepFromHalfOpen(p, g, s, e);
  }

  /** The counters over one more event. */
  lemma CountersOver(g: seq<Event>, e: Event)
    ensures Trailing(g + [e]) == match e { case Failure(_) => 1 + Trailing(g) case Query(_) => Trailing(g) case _ => 0 }
    ensures GoodCount(g + [e]) == GoodCount(g) + if Good(e) then 1 else 0
  {
    assert (g + [e])[..|g|] == g;
  }

  lemma JustOpened(p: Params, g: seq<Event>, now: nat)
    ensures OpenedAt(p, g + [Failure(now)], |g|, now + p.cooldown)
  {
    assert (g + [Failure(now)])[|g| + 1..] == [];
  }

  lemma StepFromClosed(p: Params, g: seq<Event>, s: Slot, e: Event)
    requires p.openAfter >= 1 && s.st.Closed? && Explains(p, g, s)
    ensures Explains(p, g + [e], Apply(p, s, e))
  {
    CountersOver(g, e);
    if e.Failure? { JustOpened(p, g, e.now); }
  }

  lemma StepFromOpen(p: Params, g: seq<Event>, s: Slot, e: Event)
    requires p.openAfter >= 1 && s.st.Open? && Explains(p, g, s)
    ensures Explains(p, g + [e], Apply(p, s, e))
  {
    CountersOver(g, e);
    var h := g + [e];
    if SatOut([e], s.openUntil) {
      assert SatOut([e], s.openUntil) && [e][0] == e;
      var i :| OpenedAt(p, g, i, s.openUntil);
      assert h[i + 1..] == g[i + 1..] + [e];
      assert OpenedAt(p, h, i, s.openUntil);
    } else if e.Failure? {
      JustOpened(p, g, e.now);
    } else if e.Query? {
      assert h[|g| + 1..] == [];
      assert HalfOpenedAt(h, |g|, 0);
    }
  }

  lemma StepFromHalfOpen(p: Params, g: seq<Event>, s: Slot, e: Event)
    requires p.openAfter >= 1 && s.st.HalfOpen? && Explains(p, g, s)
    ensures Explains(p, g + [e], Apply(p, s, e))
  {
    CountersOver(g, e);
    if e.Failure? {
      JustOpened(p, g, e.now);
    } else if Apply(p, s, e).st.HalfOpen? {
      var h := g + [e];
      var i :| HalfOpenedAt(g, i, s.halfOk);
      assert h[i + 1..] == g[i + 1..] + [e];
      CountersOver(g[i + 1..], e);
      assert HalfOpenedAt(h, i, Apply(p, s, e).halfOk);
    }
  }

  /** A failure opens a closed breaker exactly when it is the openAfter-th in a row; it re-opens any
      other breaker exactly when the cooldown is over. */
  lemma OpensOnTheNth(p: Params, h: seq<Event>, now: nat)
    requires p.openAfter >= 1
    ensures var s := Replay(p, FRESH, h);
            AfterFailure(p, s, now).1 <==>
            match s.st
            case Closed => Trailing(h + [Failure(now)]) == p.openAfter
            case Open => now >= s.openUntil
            case HalfOpen => true
  {
    HistoryExplains(p, h);
    var g := h + [Failure(now)];
    assert g[..|g| - 1] == h;
  }

  /** With no business success an open breaker stays open, with its deadline unmoved, through any
      number of failures and probes before the deadline; and it answers open exactly until then. */
  lemma {:induction false} OpenLastsUntilCooldown(p: Params, s: Slot, h: seq<Event>, t: nat)
    requires s.st.Open? && SatOut(h, s.openUntil)
    ensures Replay(p, s, h).st.Open? && Replay(p, s, h).openUntil == s.openUntil
    ensures MaybeHalfOpen(Replay(p, s, h), t).st.Open? <==> t < s.openUntil
  {
    if h != [] {
      OpenLastsUntilCooldown(p, s, h[..|h| - 1], t);
    }
  }

  /** A half-open breaker that sees no failure closes exactly when its successes and probes reach the
      configured number (one, if none is configured). */
  lemma {:induction false} HalfOpenClosesOnEnough(p: Params, s: Slot, h: seq<Event>)
    requires s.st.HalfOpen? && s.halfOk == 0 && NoFailure(h)
    ensures Replay(p, s, h).st == (if GoodCount(h) >= Needed(p) then Closed else HalfOpen)
    ensures GoodCount(h) < Needed(p) ==> Replay(p, s, h).halfOk == GoodCount(h)
  {
    if h != [] {
      HalfOpenClosesOnEnough(p, s, h[..|h| - 1]);
    }
  }

  /** One failure ends the half-open phase whatever was counted before it. */
  lemma HalfOpenFailureReopens(p: Params, s: Slot, h: seq<Event>, now: nat)
    requires s.st.HalfOpen? && s.halfOk == 0 && NoFailure(h) && GoodCount(h) < Needed(p)
    ensures AfterFailure(p, Replay(p, s, h), now).1
    ensures AfterFailure(p, Replay(p, s, h), now).0.openUntil == now + p.cooldown
  {
    HalfOpenClosesOnEnough(p, s, h);
  }

  /** Nothing at or after `until`; successes and probes carry no time. */
  predicate Early(h: seq<Event>, until: nat) {
    forall j :: 0 <= j < |h| ==> match h[j]
                                 case Query(now) => now < until
                                 case Failure(now) => now < until
                                 case _ => true
  }

  lemma ClosedBySuccess(p: Params, s: Slot, h: seq<Event>, j: nat)
    requires s.st.Open? && Early(h, s.openUntil) && j < |h| && h[j] == Success && Success !in h[..j]
    ensures Replay(p, s, h[..j]).st.Open? && Replay(p, s, h[..j + 1]).st.Closed?
  {
    assert forall i :: 0 <= i < j ==> h[..j][i] == h[i] && h[..j][i] in h[..j];
    OpenLastsUntilCooldown(p, s, h[..j], 0);
    assert h[..j + 1][..j] == h[..j];
  }

  lemma {:induction false} FirstSuccess(h: seq<Event>) returns (j: nat)
    requires Success in h
    ensures j < |h| && h[j] == Success && Success !in h[..j]
  {
    if h[0] == Success {
      j := 0;
    } else {
      assert h == [h[0]] + h[1..];
      var i := FirstSuccess(h[1..]);
      j := i + 1;
      assert h[..j] == [h[0]] + h[1..][..i];
    }
  }

  /** Before its deadline an open breaker stays open all the way if and only if no business success comes in;
      the first one closes it at once. So the cooldown is not the only way out of the open state: probes and
      failures do not end it early, a late upstream answer does. */
  lemma OnlySuccessClosesOpen(p: Params, s: Slot, h: seq<Event>)
    requires s.st.Open? && Early(h, s.openUntil)
    ensures (forall n: nat :: n <= |h| ==> Replay(p, s, h[..n]).st.Open?) <==> Success !in h
    ensures forall j: nat :: j < |h| && h[j] == Success && Success !in h[..j] ==> Replay(p, s, h[..j + 1]).st.Closed?
  {
    forall j: nat | j < |h| && h[j] == Success && Success !in h[..j] ensures Replay(p, s, h[..j + 1]).st.Closed? {
      ClosedBySuccess(p, s, h, j);
    }
    if Success in h {
      var j := FirstSuccess(h);
      ClosedBySuccess(p, s, h, j);
    } else {
      forall n: nat | n <= |h| ensures Replay(p, s, h[..n]).st.Open? {
        assert forall i :: 0 <= i < n ==> h[..n][i] == h[i] && h[i] in h;
        OpenLastsUntilCooldown(p, s, h[..n], 0);
      }
    }
  }
}
