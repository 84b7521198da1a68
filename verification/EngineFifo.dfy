/** Order and idle slots, through all re-entrant releases (src/govern/LocalGovernor.cpp:55-111). A waiter is
    served first in, first out, and never sits in front of a slot it could have, except for what
    `Overtakes` and `Strands` describe: for every run, what they say of the state before a turn decides
    whether the turn breaks the order, or leaves a slot idle. */
module EngineFifo {
  import opened ToolKeys
  import opened Engine
  import opened EngineInvariant
  import opened EngineKeeps
  import opened EngineMoves
  import opened EngineTurns
  import opened EngineOffer
  import Circuit
  import EngineDrain

  /** Everyone served so far, then everyone waiting. */
  function LineAt(s: St, ts: string): seq<nat> {
    Granted(s.log, ts) + Ids(Queue(s.gov, ts))
  }

  predicate Rising(l: seq<nat>, n: nat) {
    && (forall i, j :: 0 <= i < j < |l| ==> l[i] < l[j])
    && (forall i :: 0 <= i < |l| ==> l[i] < n)
  }

  /** Slots were granted in order of arrival, and whoever waits arrived after everyone who was served. */
  predicate InOrder(s: St, ts: string) {
    Rising(LineAt(s, ts), s.arrivals)
  }

  /** The head of the queue could have a slot, and nobody is going to offer it one. */
  predicate Stranded(cfg: Config, g: Gov, ts: string) {
    Queue(g, ts) != [] && CanTake(cfg, g, ts, Queue(g, ts)[0].req.who.agentId)
  }

  // ------------------------------------------------------------------ the line

  lemma RisingGrows(l: seq<nat>, n: nat)
    requires Rising(l, n)
    ensures Rising(l + [n], n + 1)
  {
  }

  lemma RisingWithout(l: seq<nat>, n: nat, i: nat)
    requires Rising(l, n) && i < |l|
    ensures Rising(l[..i] + l[i + 1..], n)
  {
    var p := l[..i] + l[i + 1..];
    assert forall k :: 0 <= k < |p| ==> p[k] == if k < i then l[k] else l[k + 1];
  }

  lemma RisingFront(l: seq<nat>, r: seq<nat>, n: nat)
    requires Rising(l + r, n)
    ensures Rising(l, n)
  {
    assert forall i :: 0 <= i < |l| ==> l[i] == (l + r)[i];
  }

  /** One waiter leaves the queue without a slot. */
  lemma RisingLeave(granted: seq<nat>, q: seq<Waiter>, n: nat, i: nat)
    requires Rising(granted + Ids(q), n) && i < |q|
    ensures Rising(granted + Ids(q[..i] + q[i + 1..]), n)
  {
    var l := granted + Ids(q);
    RisingWithout(l, n, |granted| + i);
    assert Ids(q[..i] + q[i + 1..]) == Ids(q)[..i] + Ids(q)[i + 1..];
    assert l[..|granted| + i] == granted + Ids(q)[..i];
    assert l[|granted| + i + 1..] == Ids(q)[i + 1..];
    assert granted + Ids(q[..i] + q[i + 1..]) == l[..|granted| + i] + l[|granted| + i + 1..];
  }

  lemma IdsHead(granted: seq<nat>, q: seq<Waiter>)
    requires q != []
    ensures granted + Ids(q) == (granted + [q[0].req.id]) + Ids(q[1..])
  {
    assert Ids(q) == [q[0].req.id] + Ids(q[1..]);
  }

  /** A pass down the queue serves some and drops some, and moves nobody forward past another. */
  lemma {:induction false} RisingPass(cfg: Config, g: Gov, slots: Circuit.Slots, env: Env, ts: string,
                                      granted: seq<nat>, q: seq<Waiter>, n: nat)
    requires Rising(granted + Ids(q), n)
    ensures var o := Offer(cfg, g, slots, env, ts, q); Rising(granted + Ids(o.Granted()) + Ids(o.rest), n)
    decreases |q|
  {
    var o := Offer(cfg, g, slots, env, ts, q);
    if q == [] || !CanTake(cfg, g, ts, q[0].req.who.agentId) {
      assert granted + Ids([]) == granted;
    } else if env.now >= q[0].deadline {
      RisingLeave(granted, q, n, 0);
      assert q[..0] + q[1..] == q[1..];
      RisingPass(cfg, g, slots, env, ts, granted, q[1..], n);
    } else if Unavailable(slots, q[0].key.backend, env) {
      IdsHead(granted, q);
      RisingPass(cfg, g, slots, env, ts, granted + [q[0].req.id], q[1..], n);
      var p := Offer(cfg, g, slots, env, ts, q[1..]);
      assert o.Granted() == [q[0]] + p.Granted();
      assert granted + Ids(o.Granted()) == granted + [q[0].req.id] + Ids(p.Granted());
    } else {
      IdsHead(granted, q);
      assert [] + [q[0]] == [q[0]] && Ids([q[0]]) == [q[0].req.id];
    }
  }

  // ------------------------------------------------------------------ turns that grant nothing

  const UNGRANTED: set<Kind> := {Still, Store, Hand, Timer, Again, Settle, Cancel, Report, Leave}

  ghost predicate KeepsOrder(s: St, t: St, ts: string) {
    s.arrivals <= t.arrivals && (InOrder(s, ts) ==> InOrder(t, ts))
  }

  lemma UngrantedLog(cfg: Config, m: Mach, v: Move, ts: string)
    requires Valid(cfg, m, v) && KindOf(v) in UNGRANTED
    ensures Granted(LogAfter(cfg, m, v), ts) == Granted(m.s.log, ts)
  {
    if v.Finish? {
      GrantPush(m.s.log, Returned(v.id, v.klass), ts);
      GrantPush(m.s.log + [Returned(v.id, v.klass)], Replied(m.s.calls[v.id].req, Result(v.klass, v.isError)), ts);
    } else if v.FireAgain? {
      GrantPush(m.s.log, Returned(v.id, v.klass), ts);
      GrantPush(m.s.log + [Returned(v.id, v.klass)], Fired(v.id, m.s.calls[v.id].req), ts);
    } else if LogAfter(cfg, m, v) != m.s.log {
      var a := LogAfter(cfg, m, v)[|m.s.log|];
      assert LogAfter(cfg, m, v) == m.s.log + [a];
      GrantPush(m.s.log, a, ts);
    }
  }

  lemma UngrantedOrder(cfg: Config, m: Mach, v: Move, ts: string)
    requires Valid(cfg, m, v) && KindOf(v) in UNGRANTED
    ensures KeepsOrder(m.s, Do(cfg, m, v).s, ts)
  {
    var t := Do(cfg, m, v).s;
    UngrantedLog(cfg, m, v, ts);
    if v.TakeOut? && v.tool == ts && InOrder(m.s, ts) {
      RisingLeave(Granted(m.s.log, ts), Queue(m.s.gov, ts), m.s.arrivals, v.i);
    } else {
      assert Queue(t.gov, ts) == Queue(m.s.gov, ts) || v.TakeOut?;
    }
  }

  lemma OrderClosed(cfg: Config, ts: string)
    ensures Closed(cfg, (m: Mach, n: Mach) => KeepsOrder(m.s, n.s, ts), UNGRANTED)
  {
    forall m, v | Valid(cfg, m, v) && KindOf(v) in UNGRANTED ensures KeepsOrder(m.s, Do(cfg, m, v).s, ts) {
      UngrantedOrder(cfg, m, v, ts);
    }
  }

  lemma UngrantedTurn(cfg: Config, s: St, e: Event, env: Env, ts: string)
    requires Inv(cfg, Idle(s, false)) && TurnKinds(cfg, s, e) <= UNGRANTED
    ensures KeepsOrder(s, Step(cfg, s, e, env), ts)
  {
    var R := (m: Mach, n: Mach) => KeepsOrder(m.s, n.s, ts);
    OrderClosed(cfg, ts);
    StepTurn(cfg, R, UNGRANTED, false, s, e, env);
    assert R(Idle(s, false), Idle(Step(cfg, s, e, env), false));
  }

  // ------------------------------------------------------------------ turns that grant

  /** Somebody waits who would not be swept out as timed out if the slot came by now. */
  predicate StillInLine(cfg: Config, g: Gov, ts: string, q: seq<Waiter>, now: nat) {
    exists w :: w in q && !(CanTake(cfg, g, ts, w.req.who.agentId) && now >= w.deadline)
  }

  lemma {:induction false} PassIsEmpty(cfg: Config, g: Gov, slots: Circuit.Slots, env: Env, ts: string, q: seq<Waiter>)
    ensures var o := Offer(cfg, g, slots, env, ts, q);
            StillInLine(cfg, g, ts, q, env.now) <==> o.Granted() + o.rest != []
  {
    if q != [] {
      assert q == [q[0]] + q[1..];
      PassIsEmpty(cfg, g, slots, env, ts, q[1..]);
      assert StillInLine(cfg, g, ts, q, env.now) <==>
             !(CanTake(cfg, g, ts, q[0].req.who.agentId) && env.now >= q[0].deadline)
             || StillInLine(cfg, g, ts, q[1..], env.now);
    }
  }

  /** An arrival gets a slot while somebody who came before is still in line. */
  predicate Overtakes(cfg: Config, s: St, e: Event, env: Env, ts: string) {
    && e.Arrive?
    && var key := ToGovernor(cfg, Arrived(s), Stamped(s, e.req));
    && key.Some? && Str(key.value) == ts && CanTake(cfg, s.gov, ts, e.req.who.agentId)
    && if Unavailable(s.slots, key.value.backend, env) then StillInLine(cfg, s.gov, ts, Queue(s.gov, ts), env.now)
       else Queue(s.gov, ts) != []
  }

  /** The newcomer `id` was served, and then `later` of those who were in line before. */
  lemma ServedAhead(granted: seq<nat>, q: seq<Waiter>, id: nat, later: seq<nat>)
    requires Rising(granted + Ids(q), id) && (forall x :: x in later ==> x in Ids(q))
    ensures Rising(granted + [id] + later, id + 1) <==> later == []
    ensures forall n :: later != [] ==> !Rising(granted + [id] + later, n)
  {
    var l := granted + [id] + later;
    if later == [] {
      RisingFront(granted, Ids(q), id);
      RisingGrows(granted, id);
      assert l == granted + [id];
    } else {
      assert later[0] in Ids(q);
      var j :| 0 <= j < |Ids(q)| && Ids(q)[j] == later[0];
      assert (granted + Ids(q))[|granted| + j] < id;
      assert l[|granted|] == id && l[|granted| + 1] == later[0];
    }
  }

  /** Who is still in line, or was served from it, once the newcomer has had its slot. */
  function Behind(cfg: Config, s: St, key: ToolKey, env: Env): seq<nat> {
    var o := OfferTo(cfg, s, Str(key), env);
    if Unavailable(s.slots, key.backend, env) then Ids(o.Granted()) + Ids(o.rest) else Ids(Queue(s.gov, Str(key)))
  }

  lemma EnteredLine(cfg: Config, s: St, req: Request, key: ToolKey, via: Via, now: nat, ts: string)
    ensures var t := Entered(s, Str(key), req, key, via, now);
            && t.arrivals == s.arrivals
            && LineAt(t, ts) == if ts == Str(key) then Granted(s.log, ts) + [req.id] + Ids(Queue(s.gov, ts))
                                else LineAt(s, ts)
  {
    var t := Entered(s, Str(key), req, key, via, now);
    EnteredLogs(s, Str(key), req, key, via, now);
    assert Granted(t.log, ts) == Granted(s.log, ts) + (if ts == Str(key) then [req.id] else []);
    assert Queue(t.gov, ts) == Queue(s.gov, ts);
  }

  /** The line once a pass is through: `ids` had the slot, then the pass served some. */
  lemma PassLine(s: St, t: St, t0: string, ids: seq<nat>, o: Offered, ts: string)
    requires Left(s, t, t0, o, ts)
    requires Granted(t.log, ts) == Granted(s.log, ts) + (if ts == t0 then ids + Ids(o.Granted()) else [])
    ensures LineAt(t, ts) == if ts == t0 then Granted(s.log, ts) + ids + (Ids(o.Granted()) + Ids(o.rest))
                             else LineAt(s, ts)
  {
    if ts == t0 {
      assert LineAt(t, ts) == Granted(s.log, ts) + (ids + Ids(o.Granted())) + Ids(o.rest);
    }
  }

  lemma TurnedAwayLine(cfg: Config, s: St, req: Request, key: ToolKey, env: Env, ts: string)
    requires Sane(s)
    ensures var t := TryDequeue(cfg, TurnedAway(s, Str(key), req, key, env.now), Str(key), env);
            var o := OfferTo(cfg, s, Str(key), env);
            && t.arrivals == s.arrivals
            && LineAt(t, ts) == if ts == Str(key)
                                then Granted(s.log, ts) + [req.id] + (Ids(o.Granted()) + Ids(o.rest))
                                else LineAt(s, ts)
  {
    TurnedAwayPass(cfg, s, req, key, env, ts);
    PassLine(s, TryDequeue(cfg, TurnedAway(s, Str(key), req, key, env.now), Str(key), env), Str(key), [req.id],
             OfferTo(cfg, s, Str(key), env), ts);
  }

  /** The line after an arrival that gets a slot. */
  lemma GoLine(cfg: Config, s: St, req: Request, key: ToolKey, wait: nat, via: Via, env: Env, ts: string)
    requires Sane(s) && CanTake(cfg, s.gov, Str(key), req.who.agentId)
    ensures var t := Acquire(cfg, s, req, key, wait, via, env);
            && t.arrivals == s.arrivals
            && LineAt(t, ts) == if ts == Str(key) then Granted(s.log, ts) + [req.id] + Behind(cfg, s, key, env)
                                else LineAt(s, ts)
  {
    SeatedIs(cfg, s, Str(key), req, key, via, env);
    if Unavailable(s.slots, key.backend, env) {
      TurnedAwayLine(cfg, s, req, key, env, ts);
    } else {
      EnteredLine(cfg, s, req, key, via, env.now, ts);
    }
  }

  lemma PushLine(s: St, req: Request, key: ToolKey, deadline: nat, ts: string)
    ensures var t := s.(gov := Engine.Push(s.gov, Str(key), req, key, deadline));
            LineAt(t, ts) == LineAt(s, ts) + if ts == Str(key) then [req.id] else []
  {
    var q, w := Queue(s.gov, ts), Waiter(s.gov.nextWait, req, key, deadline);
    assert Ids(q + [w]) == Ids(q) + [req.id];
  }

  /** The line after one that does not: it joins at the end, or is refused at once. */
  lemma WaitLine(cfg: Config, s: St, req: Request, key: ToolKey, wait: nat, via: Via, env: Env, ts: string)
    requires !CanTake(cfg, s.gov, Str(key), req.who.agentId)
    ensures var t := Acquire(cfg, s, req, key, wait, via, env);
            && t.arrivals == s.arrivals
            && (LineAt(t, ts) == LineAt(s, ts) || LineAt(t, ts) == LineAt(s, ts) + [req.id])
  {
    var deadline := if wait == 0 then env.now + ToolWait(cfg, s.gov, Str(key)) else wait;
    AcquireWaits(cfg, s, req, key, wait, via, env);
    SilentPush(s.log, Replied(req, Throttled), ts);
    PushLine(s, req, key, deadline, ts);
  }

  lemma {:induction false} BehindWereInLine(cfg: Config, s: St, key: ToolKey, env: Env)
    ensures forall x :: x in Behind(cfg, s, key, env) ==> x in Ids(Queue(s.gov, Str(key)))
  {
    var q, o := Queue(s.gov, Str(key)), OfferTo(cfg, s, Str(key), env);
    forall x | x in Behind(cfg, s, key, env) && Unavailable(s.slots, key.backend, env) ensures x in Ids(q) {
      var w: Waiter :| w.req.id == x && (w in o.Granted() || w in o.rest);
      OfferedInTime(cfg, s.gov, s.slots, env, Str(key), q, w);
      var i :| 0 <= i < |q| && q[i] == w;
      assert Ids(q)[i] == x;
    }
  }

  lemma BehindIsEmpty(cfg: Config, s: St, key: ToolKey, env: Env)
    ensures Behind(cfg, s, key, env) != []
            <==> if Unavailable(s.slots, key.backend, env)
                 then StillInLine(cfg, s.gov, Str(key), Queue(s.gov, Str(key)), env.now)
                 else Queue(s.gov, Str(key)) != []
  {
    PassIsEmpty(cfg, s.gov, s.slots, env, Str(key), Queue(s.gov, Str(key)));
  }

  lemma AcquireOrder(cfg: Config, s: St, req: Request, key: ToolKey, wait: nat, via: Via, env: Env, ts: string)
    requires Sane(s) && Rising(LineAt(s, ts), req.id) && s.arrivals == req.id + 1
    ensures InOrder(Acquire(cfg, s, req, key, wait, via, env), ts)
            <==> !(Str(key) == ts && CanTake(cfg, s.gov, ts, req.who.agentId) && Behind(cfg, s, key, env) != [])
  {
    RisingGrows(LineAt(s, ts), req.id);
    if CanTake(cfg, s.gov, Str(key), req.who.agentId) {
      GoLine(cfg, s, req, key, wait, via, env, ts);
      BehindWereInLine(cfg, s, key, env);
      if ts == Str(key) { ServedAhead(Granted(s.log, ts), Queue(s.gov, ts), req.id, Behind(cfg, s, key, env)); }
    } else {
      WaitLine(cfg, s, req, key, wait, via, env, ts);
    }
  }

  lemma ArriveOrder(cfg: Config, s: St, e: Event, env: Env, ts: string)
    requires Sane(s) && InOrder(s, ts) && e.Arrive? && ToGovernor(cfg, Arrived(s), Stamped(s, e.req)).Some?
    ensures InOrder(Step(cfg, s, e, env), ts) <==> !Overtakes(cfg, s, e, env, ts)
  {
    var s1, r := Arrived(s), Stamped(s, e.req);
    var key := ToGovernor(cfg, s1, r).value;
    HandleCallIs(cfg, s1, r, env);
    assert LineAt(s1, ts) == LineAt(s, ts);
    AcquireOrder(cfg, s1, r, key, WaitDeadline(cfg, Str(key), env.now), ViaOf(s1, r, key), env, ts);
    BehindIsEmpty(cfg, s1, key, env);
  }

  lemma Regroup(a: seq<nat>, b: seq<nat>, c: seq<nat>)
    ensures a + [] + (b + c) == a + b + c
  {
  }

  lemma PassOrder(cfg: Config, g: Gov, s: St, t: St, t0: string, env: Env, ts: string)
    requires InOrder(s, ts) && t.arrivals == s.arrivals
    requires var o := Offer(cfg, g, s.slots, env, t0, Queue(s.gov, t0));
             LineAt(t, ts) == if ts == t0 then Granted(s.log, ts) + [] + (Ids(o.Granted()) + Ids(o.rest))
                              else LineAt(s, ts)
    ensures InOrder(t, ts)
  {
    if ts == t0 {
      var o := Offer(cfg, g, s.slots, env, t0, Queue(s.gov, t0));
      RisingPass(cfg, g, s.slots, env, t0, Granted(s.log, ts), Queue(s.gov, ts), s.arrivals);
      Regroup(Granted(s.log, ts), Ids(o.Granted()), Ids(o.rest));
    }
  }

  lemma DropOrder(cfg: Config, s: St, id: nat, env: Env, ts: string)
    requires LedgerOf(cfg, Idle(s, false)) && Keyed(false, s.gov.queues) && Discipline(cfg, false, s.calls)
    requires InOrder(s, ts) && Enabled(s, Drop(id))
    ensures InOrder(Step(cfg, s, Drop(id), env), ts)
  {
    var c, t := s.calls[id], Step(cfg, s, Drop(id), env);
    var o := DropOffer(cfg, s, c, env);
    DropPass(cfg, s, id, env, ts);
    assert [] + Ids(o.Granted()) == Ids(o.Granted());
    PassLine(s, t, Str(c.key), [], o, ts);
    PassOrder(cfg, Engine.GiveBack(s.gov, Str(c.key), c.req.who.agentId), s, t, Str(c.key), env, ts);
  }

  lemma ListedOrder(cfg: Config, s: St, e: Event, env: Env, ts: string)
    requires InOrder(s, ts) && e.ToolsListed?
    ensures InOrder(Step(cfg, s, e, env), ts)
  {
    assert LineAt(Step(cfg, s, e, env), ts) == LineAt(s, ts);
  }

  lemma UngrantedKinds(cfg: Config, s: St, e: Event)
    requires e.Arrive? ==> ToGovernor(cfg, Arrived(s), Stamped(s, e.req)).None?
    requires (e.Drop? ==> !Enabled(s, e)) && !e.ToolsListed?
    ensures TurnKinds(cfg, s, e) <= UNGRANTED
  {
  }

  /** What is no arrival that asks for a slot keeps the order, and overtakes nobody. */
  lemma OthersInOrder(cfg: Config, s: St, e: Event, env: Env, ts: string)
    requires Inv(cfg, Idle(s, false)) && InOrder(s, ts)
    requires e.Arrive? ==> ToGovernor(cfg, Arrived(s), Stamped(s, e.req)).None?
    ensures InOrder(Step(cfg, s, e, env), ts)
  {
    if e.Drop? && Enabled(s, e) {
      DropOrder(cfg, s, e.id, env, ts);
    } else if e.ToolsListed? {
      ListedOrder(cfg, s, e, env, ts);
    } else {
      UngrantedKinds(cfg, s, e);
      UngrantedTurn(cfg, s, e, env, ts);
    }
  }

  /** One turn with all its nested releases keeps the order if and only if it is not an arrival that
      overtakes. */
  lemma StepOrder(cfg: Config, s: St, e: Event, env: Env, ts: string)
    requires Inv(cfg, Idle(s, false)) && InOrder(s, ts)
    ensures InOrder(Step(cfg, s, e, env), ts) <==> !Overtakes(cfg, s, e, env, ts)
  {
    if e.Arrive? && ToGovernor(cfg, Arrived(s), Stamped(s, e.req)).Some? {
      CountersOf(cfg, s);
      ArriveOrder(cfg, s, e, env, ts);
    } else {
      OthersInOrder(cfg, s, e, env, ts);
    }
  }

  // ------------------------------------------------------------------ idle slots

  const IDLE: set<Kind> := {Still, Store, Hand, Timer, Again, Settle, Cancel, Report}

  predicate SameGov(m: Mach, n: Mach) { n.s.gov == m.s.gov }

  lemma SameGovClosed(cfg: Config)
    ensures Closed(cfg, (m, n) => SameGov(m, n), IDLE)
  {
    forall m, v | Valid(cfg, m, v) && KindOf(v) in IDLE ensures SameGov(m, Do(cfg, m, v)) {
      assert GovAfter(cfg, m, v) == m.s.gov;
    }
  }

  lemma IdleTurn(cfg: Config, s: St, e: Event, env: Env)
    requires Inv(cfg, Idle(s, false)) && TurnKinds(cfg, s, e) <= IDLE
    ensures Step(cfg, s, e, env).gov == s.gov
  {
    SameGovClosed(cfg);
    StepTurn(cfg, (m, n) => SameGov(m, n), IDLE, false, s, e, env);
    assert SameGov(Idle(s, false), Idle(Step(cfg, s, e, env), false));
  }

  lemma StrandedAlike(cfg: Config, g: Gov, h: Gov, ts: string)
    requires h.queues == g.queues && SameUse(g, h)
    ensures Stranded(cfg, h, ts) == Stranded(cfg, g, ts)
  {
  }

  /** A newcomer that is turned away while nobody can take its slot changes nothing for anybody. */
  lemma TurnedAwayStill(cfg: Config, s: St, req: Request, key: ToolKey, env: Env)
    requires Counters(s.gov) && !Stranded(cfg, s.gov, Str(key))
    ensures var u := TurnedAway(s, Str(key), req, key, env.now);
            TryDequeue(cfg, u, Str(key), env) == u && u.gov.queues == s.gov.queues && SameUse(s.gov, u.gov)
  {
    var u := TurnedAway(s, Str(key), req, key, env.now);
    TurnedAwayAlike(s, req, key, env);
    StrandedAlike(cfg, s.gov, u.gov, Str(key));
  }

  lemma TakenFromAll(cfg: Config, g: Gov, t0: string, agent: string, ts: string)
    requires !Stranded(cfg, g, ts)
    ensures !Stranded(cfg, Take(g, t0, agent), ts)
  {
  }

  lemma PushedBehind(cfg: Config, g: Gov, req: Request, key: ToolKey, deadline: nat, ts: string)
    requires !Stranded(cfg, g, ts) && !CanTake(cfg, g, Str(key), req.who.agentId)
    ensures !Stranded(cfg, Engine.Push(g, Str(key), req, key, deadline), ts)
  {
    var h := Engine.Push(g, Str(key), req, key, deadline);
    if ts == Str(key) && Queue(g, ts) != [] { assert Queue(h, ts)[0] == Queue(g, ts)[0]; }
  }

  /** Whoever takes a slot leaves less for the others. */
  lemma OthersStay(cfg: Config, g: Gov, h: Gov, t0: string, o: Offered, ts: string)
    requires !Stranded(cfg, g, ts) && ts != t0 && Queue(h, ts) == Queue(g, ts)
    requires Queue(g, ts) != [] ==> EngineOffer.Counted(g, h, t0, o, ts, Queue(g, ts)[0].req.who.agentId)
    ensures !Stranded(cfg, h, ts)
  {
  }

  lemma TurnedAwayOthers(cfg: Config, s: St, u: St, t0: string, env: Env, ts: string)
    requires Sane(s) && Alike(s, u, env) && !Stranded(cfg, s.gov, ts) && ts != t0
    ensures !Stranded(cfg, TryDequeue(cfg, u, t0, env).gov, ts)
  {
    CountersAlike(s, u, env);
    StrandedAlike(cfg, s.gov, u.gov, ts);
    ReleaseQueues(cfg, u, t0, env, ts);
    if Queue(u.gov, ts) != [] { ReleaseCounts(cfg, u, t0, env, ts, Queue(u.gov, ts)[0].req.who.agentId); }
    OthersStay(cfg, u.gov, TryDequeue(cfg, u, t0, env).gov, t0, OfferTo(cfg, u, t0, env), ts);
  }

  lemma GoStrandsNobody(cfg: Config, s: St, req: Request, key: ToolKey, wait: nat, via: Via, env: Env, ts: string)
    requires Sane(s) && !Stranded(cfg, s.gov, ts) && CanTake(cfg, s.gov, Str(key), req.who.agentId)
    ensures !Stranded(cfg, Acquire(cfg, s, req, key, wait, via, env).gov, ts)
  {
    var u := TurnedAway(s, Str(key), req, key, env.now);
    SeatedIs(cfg, s, Str(key), req, key, via, env);
    if !Unavailable(s.slots, key.backend, env) {
      EnteredLogs(s, Str(key), req, key, via, env.now);
      TakenFromAll(cfg, s.gov, Str(key), req.who.agentId, ts);
    } else if ts == Str(key) {
      TurnedAwayStill(cfg, s, req, key, env);
      StrandedAlike(cfg, s.gov, u.gov, ts);
    } else {
      TurnedAwayAlike(s, req, key, env);
      TurnedAwayOthers(cfg, s, u, Str(key), env, ts);
    }
  }

  lemma AcquireStrandsNobody(cfg: Config, s: St, req: Request, key: ToolKey, wait: nat, via: Via, env: Env, ts: string)
    requires Sane(s) && !Stranded(cfg, s.gov, ts)
    ensures !Stranded(cfg, Acquire(cfg, s, req, key, wait, via, env).gov, ts)
  {
    if CanTake(cfg, s.gov, Str(key), req.who.agentId) {
      GoStrandsNobody(cfg, s, req, key, wait, via, env, ts);
    } else {
      AcquireWaits(cfg, s, req, key, wait, via, env);
      PushedBehind(cfg, s.gov, req, key, if wait == 0 then env.now + ToolWait(cfg, s.gov, Str(key)) else wait, ts);
    }
  }

  /** What a caller sees before the end of call `c` strands the queue of a tool: the tool is below its limit,
      and the head of its queue belongs to the agent of the call, which is what held it up. */
  predicate HeldUpBy(cfg: Config, g: Gov, c: Call, ts: string) {
    && Queue(g, ts) != [] && Get(g.toolUse, ts) < ToolLimit(cfg, g, ts)
    && Queue(g, ts)[0].req.who.agentId == c.req.who.agentId
  }

  /** It does so if, for another tool, no waiter of that agent takes the slot over; and if, for its own tool,
      somebody does take it over and the next in line could have a slot as well. */
  predicate DropStrands(cfg: Config, s: St, c: Call, env: Env, ts: string) {
    var g := Engine.GiveBack(s.gov, Str(c.key), c.req.who.agentId);
    var o := DropOffer(cfg, s, c, env);
    && HeldUpBy(cfg, s.gov, c, ts)
    && if ts != Str(c.key) then !o.KeptBy(c.req.who.agentId)
       else && o.kept.Some? && o.rest != []
            && CanTake(cfg, Take(g, ts, o.kept.value.req.who.agentId), ts, o.rest[0].req.who.agentId)
  }

  lemma DropOther(cfg: Config, s: St, c: Call, h: Gov, o: Offered, ts: string)
    requires !Stranded(cfg, s.gov, ts) && ts != Str(c.key) && Queue(h, ts) == Queue(s.gov, ts)
    requires Queue(s.gov, ts) != [] ==> Settles(s.gov, c, h, o, ts, Queue(s.gov, ts)[0].req.who.agentId)
    requires Get(s.gov.agentUse, c.req.who.agentId) >= 1 && AgentsWithin(cfg, s.gov.agentUse)
    ensures Stranded(cfg, h, ts) <==> HeldUpBy(cfg, s.gov, c, ts) && !o.KeptBy(c.req.who.agentId)
  {
    assert Get(s.gov.agentUse, c.req.who.agentId) <= Max(0, cfg.perPrincipal);
  }

  lemma DropOwn(cfg: Config, s: St, c: Call, g: Gov, h: Gov, o: Offered)
    requires g == Engine.GiveBack(s.gov, Str(c.key), c.req.who.agentId)
    requires Get(s.gov.toolUse, Str(c.key)) >= 1 && Get(s.gov.agentUse, c.req.who.agentId) >= 1
    requires Queue(h, Str(c.key)) == o.rest
    requires o.rest != [] ==> Settles(s.gov, c, h, o, Str(c.key), o.rest[0].req.who.agentId)
    requires o.kept.None? ==> o.rest == [] || !CanTake(cfg, g, Str(c.key), o.rest[0].req.who.agentId)
    ensures Stranded(cfg, h, Str(c.key)) <==>
            && o.kept.Some? && o.rest != []
            && CanTake(cfg, Take(g, Str(c.key), o.kept.value.req.who.agentId), Str(c.key), o.rest[0].req.who.agentId)
  {
  }

  /** A slot that comes back to a tool and could serve two was not the one that was missing. */
  lemma OwnHeadHeldUp(cfg: Config, s: St, c: Call, g: Gov, o: Offered, next: string)
    requires g == Engine.GiveBack(s.gov, Str(c.key), c.req.who.agentId) && !Stranded(cfg, s.gov, Str(c.key))
    requires Get(s.gov.toolUse, Str(c.key)) >= 1 && o.kept.Some?
    requires Queue(s.gov, Str(c.key)) != [] && CanTake(cfg, g, Str(c.key), Queue(s.gov, Str(c.key))[0].req.who.agentId)
    requires CanTake(cfg, Take(g, Str(c.key), o.kept.value.req.who.agentId), Str(c.key), next)
    ensures HeldUpBy(cfg, s.gov, c, Str(c.key))
  {
  }

  lemma DropIdle(cfg: Config, s: St, id: nat, env: Env, ts: string)
    requires LedgerOf(cfg, Idle(s, false)) && Keyed(false, s.gov.queues) && Discipline(cfg, false, s.calls)
    requires !Stranded(cfg, s.gov, ts) && Enabled(s, Drop(id))
    ensures Stranded(cfg, Step(cfg, s, Drop(id), env).gov, ts) <==> DropStrands(cfg, s, s.calls[id], env, ts)
  {
    var c, h := s.calls[id], Step(cfg, s, Drop(id), env).gov;
    var g, o := Engine.GiveBack(s.gov, Str(c.key), c.req.who.agentId), DropOffer(cfg, s, c, env);
    DropPass(cfg, s, id, env, ts);
    CallIsCounted(cfg, s, id);
    if Queue(h, ts) != [] { DropCounts(cfg, s, id, env, ts, Queue(h, ts)[0].req.who.agentId); }
    if ts == Str(c.key) {
      OfferEnds(cfg, g, s.slots, env, ts, Queue(s.gov, ts));
      DropOwn(cfg, s, c, g, h, o);
      if Stranded(cfg, h, ts) { OwnHeadHeldUp(cfg, s, c, g, o, o.rest[0].req.who.agentId); }
    } else {
      DropOther(cfg, s, c, h, o, ts);
    }
  }

  /** The wait of the head of the queue ends, and the next in line could have a slot at once. */
  predicate WaitStrands(cfg: Config, g: Gov, t0: string, waitId: nat, ts: string) {
    var q := Queue(g, ts);
    t0 == ts && |q| > 1 && q[0].id == waitId && CanTake(cfg, g, ts, q[1].req.who.agentId)
  }

  lemma WaitIdle(cfg: Config, s: St, t0: string, waitId: nat, ts: string)
    requires !Stranded(cfg, s.gov, ts)
    ensures Stranded(cfg, OnWaitTimer(s, t0, waitId).gov, ts) <==> WaitStrands(cfg, s.gov, t0, waitId, ts)
  {
    var q := Queue(s.gov, ts);
    var i := FindWaiter(q, waitId);
    if t0 == ts && i < |q| {
      assert i > 0 ==> (q[..i] + q[i + 1..])[0] == q[0];
      assert i == 0 ==> q[..i] + q[i + 1..] == q[1..];
    }
  }

  /** A listing raises the limit of the tool above its use, while the head of the queue is below its own. */
  predicate ListingStrands(cfg: Config, g: Gov, backend: string, tools: set<string>, ts: string) {
    && Queue(g, ts) != [] && Get(g.agentUse, Queue(g, ts)[0].req.who.agentId) < cfg.perPrincipal
    && ToolLimit(cfg, g, ts) <= Get(g.toolUse, ts) < ToolLimit(cfg, OnToolsListed(cfg, g, backend, tools), ts)
  }

  /** What leaves a waiter in front of a slot it could have. */
  predicate Strands(cfg: Config, s: St, e: Event, env: Env, ts: string) {
    match e
    case Drop(id) => Enabled(s, e) && DropStrands(cfg, s, s.calls[id], env, ts)
    case WaitTimer(t0, waitId) => WaitStrands(cfg, s.gov, t0, waitId, ts)
    case ToolsListed(backend, tools) => ListingStrands(cfg, s.gov, backend, tools, ts)
    case _ => false
  }

  lemma AdmitIdle(cfg: Config, s: St, req: Request, env: Env, ts: string)
    requires Sane(s) && !Stranded(cfg, s.gov, ts) && ToGovernor(cfg, s, req).Some?
    ensures !Stranded(cfg, HandleCall(cfg, s, req, env).gov, ts)
  {
    var key := ToGovernor(cfg, s, req).value;
    HandleCallIs(cfg, s, req, env);
    AcquireStrandsNobody(cfg, s, req, key, WaitDeadline(cfg, Str(key), env.now), ViaOf(s, req, key), env, ts);
  }

  lemma ArriveIdle(cfg: Config, s: St, e: Event, env: Env, ts: string)
    requires Inv(cfg, Idle(s, false)) && !Stranded(cfg, s.gov, ts) && e.Arrive?
    ensures !Stranded(cfg, Step(cfg, s, e, env).gov, ts)
  {
    if ToGovernor(cfg, Arrived(s), Stamped(s, e.req)).Some? {
      CountersOf(cfg, s);
      AdmitIdle(cfg, Arrived(s), Stamped(s, e.req), env, ts);
    } else {
      IdleTurn(cfg, s, e, env);
    }
  }

  lemma StopIdle(cfg: Config, s: St, e: Event, env: Env, ts: string)
    requires Inv(cfg, Idle(s, false)) && e.Stop? && Enabled(s, e)
    ensures !Stranded(cfg, Step(cfg, s, e, env).gov, ts)
  {
    EngineDrain.StopStops(cfg, s, e, env);
  }

  lemma ListingIdle(cfg: Config, s: St, e: Event, env: Env, ts: string)
    requires !Stranded(cfg, s.gov, ts) && e.ToolsListed?
    ensures Stranded(cfg, Step(cfg, s, e, env).gov, ts) <==> Strands(cfg, s, e, env, ts)
  {
  }

  lemma GovernorIdle(cfg: Config, s: St, e: Event, env: Env, ts: string)
    requires LedgerOf(cfg, Idle(s, false)) && Keyed(false, s.gov.queues) && Discipline(cfg, false, s.calls)
    requires !Stranded(cfg, s.gov, ts) && Enabled(s, e) && (e.Drop? || e.WaitTimer? || e.ToolsListed?)
    ensures Stranded(cfg, Step(cfg, s, e, env).gov, ts) <==> Strands(cfg, s, e, env, ts)
  {
    if e.Drop? {
      DropIdle(cfg, s, e.id, env, ts);
    } else if e.WaitTimer? {
      WaitIdle(cfg, s, e.tool, e.waitId, ts);
    } else {
      ListingIdle(cfg, s, e, env, ts);
    }
  }

  lemma IdleKinds(cfg: Config, s: St, e: Event)
    requires !e.Arrive? && !e.Drop? && !e.WaitTimer? && !e.ToolsListed? && !e.Stop?
    ensures TurnKinds(cfg, s, e) <= IDLE
  {
  }

  /** One turn with all its nested releases leaves a waiter in front of a slot it could have, having found
      none, if and only if it is one that strands. */
  lemma StepIdle(cfg: Config, s: St, e: Event, env: Env, ts: string)
    requires Inv(cfg, Idle(s, false)) && !Stranded(cfg, s.gov, ts)
    ensures Stranded(cfg, Step(cfg, s, e, env).gov, ts) <==> Strands(cfg, s, e, env, ts)
  {
    if !Enabled(s, e) {
    } else if e.Arrive? {
      ArriveIdle(cfg, s, e, env, ts);
    } else if e.Drop? || e.WaitTimer? || e.ToolsListed? {
      GovernorIdle(cfg, s, e, env, ts);
    } else if e.Stop? {
      StopIdle(cfg, s, e, env, ts);
    } else {
      IdleKinds(cfg, s, e);
      IdleTurn(cfg, s, e, env);
    }
  }

  // ------------------------------------------------------------------ every run

  /** A fault that a state may have, and what a caller sees before the turn that brings it about. */
  type Fault = St -> bool
  type Cause = (St, Turn) -> bool

  function After(cfg: Config, turns: seq<Turn>, n: nat): St
    requires n <= |turns|
  {
    Run(cfg, turns[..n])
  }

  /** No state of the run, from the start to the end, has the fault. */
  ghost predicate Faultless(cfg: Config, turns: seq<Turn>, fault: Fault) {
    forall n: nat :: n <= |turns| ==> !fault(After(cfg, turns, n))
  }

  /** No turn of the run is one that brings it about. */
  ghost predicate Avoids(cfg: Config, turns: seq<Turn>, cause: Cause) {
    forall n: nat :: n < |turns| ==> !cause(After(cfg, turns, n), turns[n])
  }

  ghost predicate Explains(cfg: Config, cause: Cause, fault: Fault) {
    && !fault(Init(cfg))
    && forall s: St, turn: Turn :: Inv(cfg, Idle(s, false)) && !fault(s) ==>
         (fault(Step(cfg, s, turn.event, turn.env)) <==> cause(s, turn))
  }

  lemma AfterFront(cfg: Config, turns: seq<Turn>, k: nat, n: nat)
    requires n <= k <= |turns|
    ensures After(cfg, turns[..k], n) == After(cfg, turns, n)
  {
    assert turns[..k][..n] == turns[..n];
  }

  lemma FaultlessFront(cfg: Config, turns: seq<Turn>, fault: Fault)
    requires turns != []
    ensures var k := |turns| - 1;
            Faultless(cfg, turns, fault) <==> Faultless(cfg, turns[..k], fault) && !fault(After(cfg, turns, k + 1))
  {
    var k := |turns| - 1;
    forall n: nat | n <= k ensures After(cfg, turns[..k], n) == After(cfg, turns, n) { AfterFront(cfg, turns, k, n); }
  }

  lemma AvoidsFront(cfg: Config, turns: seq<Turn>, cause: Cause)
    requires turns != []
    ensures var k := |turns| - 1;
            Avoids(cfg, turns, cause) <==> Avoids(cfg, turns[..k], cause) && !cause(After(cfg, turns, k), turns[k])
  {
    var k := |turns| - 1;
    forall n: nat | n <= k ensures After(cfg, turns[..k], n) == After(cfg, turns, n) { AfterFront(cfg, turns, k, n); }
  }

  lemma AfterStep(cfg: Config, turns: seq<Turn>)
    requires turns != []
    ensures var k := |turns| - 1;
            && Inv(cfg, Idle(After(cfg, turns, k), false))
            && After(cfg, turns, k + 1) == Step(cfg, After(cfg, turns, k), turns[k].event, turns[k].env)
            && After(cfg, turns, k + 1) == Run(cfg, turns)
  {
    var k := |turns| - 1;
    RunInv(cfg, false, turns[..k]);
    assert turns[..k + 1] == turns;
  }

  /** When every fault has its cause, turn by turn, a run is free of faults exactly if it avoids the causes. */
  lemma {:induction false} RunExplained(cfg: Config, turns: seq<Turn>, cause: Cause, fault: Fault)
    requires Explains(cfg, cause, fault)
    ensures Faultless(cfg, turns, fault) <==> Avoids(cfg, turns, cause)
    decreases |turns|
  {
    if turns == [] {
      assert After(cfg, turns, 0) == Init(cfg);
    } else {
      var k := |turns| - 1;
      RunExplained(cfg, turns[..k], cause, fault);
      FaultlessFront(cfg, turns, fault);
      AvoidsFront(cfg, turns, cause);
      AfterStep(cfg, turns);
      AfterFront(cfg, turns, k, k);
    }
  }

  /** In order, and nobody in front of a slot it could have. */
  predicate Orderly(cfg: Config, s: St, ts: string) {
    InOrder(s, ts) && !Stranded(cfg, s.gov, ts)
  }

  predicate Disturbs(cfg: Config, s: St, turn: Turn, ts: string) {
    Overtakes(cfg, s, turn.event, turn.env, ts) || Strands(cfg, s, turn.event, turn.env, ts)
  }

  lemma StartsOrderly(cfg: Config, ts: string)
    ensures Orderly(cfg, Init(cfg), ts)
  {
  }

  /** First in, first out, for every run: the order holds all the way if and only if no arrival of the run
      overtakes. */
  lemma InOrderExactly(cfg: Config, turns: seq<Turn>, ts: string)
    ensures (forall n: nat :: n <= |turns| ==> InOrder(After(cfg, turns, n), ts))
       <==> (forall n: nat :: n < |turns| ==>
               !Overtakes(cfg, After(cfg, turns, n), turns[n].event, turns[n].env, ts))
  {
    var fault := (s: St) => !InOrder(s, ts);
    var cause := (s: St, turn: Turn) => Overtakes(cfg, s, turn.event, turn.env, ts);
    StartsOrderly(cfg, ts);
    forall s: St, turn: Turn | Inv(cfg, Idle(s, false)) && !fault(s)
      ensures fault(Step(cfg, s, turn.event, turn.env)) <==> cause(s, turn)
    {
      StepOrder(cfg, s, turn.event, turn.env, ts);
    }
    RunExplained(cfg, turns, cause, fault);
  }

  /** No idle slot, for every run: nobody ever waits in front of a slot it could have if and only if no turn
      of the run strands a waiter. */
  lemma NoIdleSlotExactly(cfg: Config, turns: seq<Turn>, ts: string)
    ensures (forall n: nat :: n <= |turns| ==> !Stranded(cfg, After(cfg, turns, n).gov, ts))
       <==> (forall n: nat :: n < |turns| ==>
               !Strands(cfg, After(cfg, turns, n), turns[n].event, turns[n].env, ts))
  {
    var fault := (s: St) => Stranded(cfg, s.gov, ts);
    var cause := (s: St, turn: Turn) => Strands(cfg, s, turn.event, turn.env, ts);
    StartsOrderly(cfg, ts);
    forall s: St, turn: Turn | Inv(cfg, Idle(s, false)) && !fault(s)
      ensures fault(Step(cfg, s, turn.event, turn.env)) <==> cause(s, turn)
    {
      StepIdle(cfg, s, turn.event, turn.env, ts);
    }
    RunExplained(cfg, turns, cause, fault);
  }

  /** Both together, and what they say of any state on the way. */
  lemma StrictFifo(cfg: Config, turns: seq<Turn>, ts: string)
    ensures (forall n: nat :: n <= |turns| ==> Orderly(cfg, After(cfg, turns, n), ts))
       <==> (forall n: nat :: n < |turns| ==> !Disturbs(cfg, After(cfg, turns, n), turns[n], ts))
  {
    InOrderExactly(cfg, turns, ts);
    NoIdleSlotExactly(cfg, turns, ts);
    if forall n: nat :: n <= |turns| ==> Orderly(cfg, After(cfg, turns, n), ts) {
      assert forall n: nat :: n <= |turns| ==> InOrder(After(cfg, turns, n), ts);
      assert forall n: nat :: n <= |turns| ==> !Stranded(cfg, After(cfg, turns, n).gov, ts);
    }
  }

  /** The order, waiter by waiter. */
  predicate OneByOne(granted: seq<nat>, q: seq<Waiter>, n: nat) {
    && (forall i, j :: 0 <= i < j < |granted| ==> granted[i] < granted[j])
    && (forall i, k :: 0 <= i < |granted| && 0 <= k < |q| ==> granted[i] < q[k].req.id)
    && (forall i, j :: 0 <= i < j < |q| ==> q[i].req.id < q[j].req.id)
    && (forall i :: 0 <= i < |granted| ==> granted[i] < n)
    && (forall k :: 0 <= k < |q| ==> q[k].req.id < n)
  }

  lemma OneByOneIsRising(granted: seq<nat>, q: seq<Waiter>, n: nat)
    requires OneByOne(granted, q, n)
    ensures Rising(granted + Ids(q), n)
  {
    var l := granted + Ids(q);
    assert forall i :: 0 <= i < |l| ==> l[i] == if i < |granted| then granted[i] else q[i - |granted|].req.id;
  }

  lemma RisingIsOneByOne(granted: seq<nat>, q: seq<Waiter>, n: nat)
    requires Rising(granted + Ids(q), n)
    ensures OneByOne(granted, q, n)
  {
    var l := granted + Ids(q);
    assert forall i :: 0 <= i < |granted| ==> l[i] == granted[i];
    assert forall k :: 0 <= k < |q| ==> l[|granted| + k] == q[k].req.id;
  }

  /** What the order says: among those served, between them and those waiting, and among those waiting. */
  lemma InOrderMeans(s: St, ts: string)
    ensures InOrder(s, ts) <==> OneByOne(Granted(s.log, ts), Queue(s.gov, ts), s.arrivals)
  {
    var granted, q := Granted(s.log, ts), Queue(s.gov, ts);
    if InOrder(s, ts) { RisingIsOneByOne(granted, q, s.arrivals); }
    if OneByOne(granted, q, s.arrivals) { OneByOneIsRising(granted, q, s.arrivals); }
  }

  // ------------------------------------------------------------------ only limits of principals disturb

  /** While nobody is stranded, only somebody whose principal is at its own limit can be overtaken, and only
      by somebody of another principal. */
  lemma OvertakenIsBlocked(cfg: Config, s: St, e: Event, env: Env, ts: string)
    requires !Stranded(cfg, s.gov, ts)
    ensures Overtakes(cfg, s, e, env, ts) <==>
            && e.Arrive?
            && var key := ToGovernor(cfg, Arrived(s), Stamped(s, e.req));
            && key.Some? && Str(key.value) == ts && CanTake(cfg, s.gov, ts, e.req.who.agentId)
            && Queue(s.gov, ts) != []
    ensures Overtakes(cfg, s, e, env, ts) ==>
            var head := Queue(s.gov, ts)[0].req.who.agentId;
            Get(s.gov.agentUse, head) >= cfg.perPrincipal && head != e.req.who.agentId
  {
    var q := Queue(s.gov, ts);
    if q != [] {
      assert q[0] in q && !CanTake(cfg, s.gov, ts, q[0].req.who.agentId);
    }
  }

  /** More than that: while nobody is stranded, whatever disturbs the line, but for a listing, finds a tool
      with a free slot and a head that is held up by the limit of its own principal. */
  lemma DisturbedIsBlocked(cfg: Config, s: St, turn: Turn, ts: string)
    requires !Stranded(cfg, s.gov, ts) && Disturbs(cfg, s, turn, ts) && !turn.event.ToolsListed?
    ensures var q := Queue(s.gov, ts);
            && q != [] && Get(s.gov.toolUse, ts) < ToolLimit(cfg, s.gov, ts)
            && Get(s.gov.agentUse, q[0].req.who.agentId) >= cfg.perPrincipal
  {
    OvertakenIsBlocked(cfg, s, turn.event, turn.env, ts);
  }
}
