/** Every atomic move keeps every part of the invariant, one part at a time. Most parts are split into
    the moves that touch one call and the others, to keep each proof small. */
module EngineKeeps {
  import opened ToolKeys
  import opened Bags
  import opened Engine
  import opened EngineInvariant
  import opened EngineMoves
  import InFlightTable
  import Tasks

  // ------------------------------------------------------------------ tables

  ghost predicate TablesOf(m: Mach) {
    && InFlightTable.Sound(m.s.inflight)
    && SameKeys(m.s.calls, m.s.live, m.s.inflight.byId)
    && Linked(m.s.calls, m.s.inflight.byId, m.s.nextId)
    && TaskLinks(m.s.calls, m.s.byTask, m.s.nextId)
  }

  lemma SoundKept(cfg: Config, m: Mach, v: Move)
    requires Valid(cfg, m, v) && InFlightTable.Sound(m.s.inflight)
    requires SameKeys(m.s.calls, m.s.live, m.s.inflight.byId)
    requires Linked(m.s.calls, m.s.inflight.byId, m.s.nextId)
    ensures InFlightTable.Sound(InflightAfter(cfg, m, v))
  {
    if v.Launch? {
      InFlightTable.InsertKeepsSound(m.s.inflight, NewEntry(m.s, v.req, v.key, v.now));
    } else if v.Attach? {
      InFlightTable.SetTaskKeepsSound(m.s.inflight, v.id, v.taskId);
    } else if v.Destroy? {
      InFlightTable.EraseKeepsSound(m.s.inflight, v.id);
    }
  }

  lemma SameKeysKept(cfg: Config, m: Mach, v: Move)
    requires Valid(cfg, m, v) && SameKeys(m.s.calls, m.s.live, m.s.inflight.byId)
    ensures SameKeys(CallsAfter(cfg, m, v), LiveAfter(m, v), InflightAfter(cfg, m, v).byId)
  {
  }

  lemma LinkedTouched(cfg: Config, m: Mach, v: Move)
    requires Valid(cfg, m, v) && Touches(v) && !v.Attach?
    requires Linked(m.s.calls, m.s.inflight.byId, m.s.nextId)
    ensures Linked(CallsAfter(cfg, m, v), InflightAfter(cfg, m, v).byId, NextIdAfter(m, v))
  {
  }

  lemma LinkedAttached(cfg: Config, m: Mach, v: Move)
    requires Valid(cfg, m, v) && v.Attach?
    requires Linked(m.s.calls, m.s.inflight.byId, m.s.nextId)
    requires SameKeys(m.s.calls, m.s.live, m.s.inflight.byId)
    ensures Linked(CallsAfter(cfg, m, v), InflightAfter(cfg, m, v).byId, NextIdAfter(m, v))
  {
  }

  lemma LinkedKept(cfg: Config, m: Mach, v: Move)
    requires Valid(cfg, m, v) && Linked(m.s.calls, m.s.inflight.byId, m.s.nextId)
    requires SameKeys(m.s.calls, m.s.live, m.s.inflight.byId)
    ensures Linked(CallsAfter(cfg, m, v), InflightAfter(cfg, m, v).byId, NextIdAfter(m, v))
  {
    if v.Attach? {
      LinkedAttached(cfg, m, v);
    } else if Touches(v) {
      LinkedTouched(cfg, m, v);
    }
  }

  lemma TaskLinksTouched(cfg: Config, m: Mach, v: Move)
    requires Valid(cfg, m, v) && Touches(v)
    requires TaskLinks(m.s.calls, m.s.byTask, m.s.nextId)
    ensures TaskLinks(CallsAfter(cfg, m, v), ByTaskAfter(cfg, m, v), NextIdAfter(m, v))
  {
  }

  lemma TaskLinksMoved(cfg: Config, m: Mach, v: Move)
    requires Valid(cfg, m, v) && (v.Launch? || v.Destroy?)
    requires TaskLinks(m.s.calls, m.s.byTask, m.s.nextId)
    requires m.s.nextId !in m.s.calls
    ensures TaskLinks(CallsAfter(cfg, m, v), ByTaskAfter(cfg, m, v), NextIdAfter(m, v))
  {
  }

  lemma TaskLinksKept(cfg: Config, m: Mach, v: Move)
    requires Valid(cfg, m, v) && TaskLinks(m.s.calls, m.s.byTask, m.s.nextId)
    requires m.s.nextId !in m.s.calls
    ensures TaskLinks(CallsAfter(cfg, m, v), ByTaskAfter(cfg, m, v), NextIdAfter(m, v))
  {
    if Touches(v) {
      TaskLinksTouched(cfg, m, v);
    } else if v.Launch? || v.Destroy? {
      TaskLinksMoved(cfg, m, v);
    }
  }

  lemma TablesKept(cfg: Config, m: Mach, v: Move)
    requires Valid(cfg, m, v) && TablesOf(m)
    ensures TablesOf(Do(cfg, m, v))
  {
    SoundKept(cfg, m, v);
    SameKeysKept(cfg, m, v);
    LinkedKept(cfg, m, v);
    TaskLinksKept(cfg, m, v);
  }

  // ------------------------------------------------------------------ ledger

  ghost predicate LedgerOf(cfg: Config, m: Mach) {
    && ToolLedger(m.s.gov.toolUse, m.s.calls, m.permits)
    && AgentLedger(m.s.gov.agentUse, m.s.calls, m.permits)
    && m.s.gov.held == |m.s.calls| + |m.permits|
    && ToolsWithin(cfg, m.s.gov.toolUse)
    && AgentsWithin(cfg, m.s.gov.agentUse)
    && SameLimits(cfg, m.s.gov.tools)
  }

  /** A bag over the calls does not change when the contribution of the touched call does not. */
  lemma SameBag<X>(calls: map<nat, Call>, id: nat, c: Call, f: Call -> multiset<X>)
    requires id in calls && f(calls[id]) == f(c)
    ensures forall x :: MapBag(calls[id := c], f)[x] == MapBag(calls, f)[x]
  {
    MapBagUpdateAt(calls, f, id, c);
  }

  lemma AddToBag<X>(calls: map<nat, Call>, id: nat, c: Call, f: Call -> multiset<X>)
    requires id !in calls
    ensures forall x :: MapBag(calls[id := c], f)[x] == MapBag(calls, f)[x] + f(c)[x]
  {
    MapBagUpdateAt(calls, f, id, c);
  }

  lemma HeldPop(P: seq<Permit>)
    requires P != []
    ensures var p, Q := P[|P| - 1], P[..|P| - 1];
            && (forall t :: ToolsHeld(P, t) == ToolsHeld(Q, t) + if p.Held? && Str(p.key) == t then 1 else 0)
            && (forall a :: AgentsHeld(P, a) == AgentsHeld(Q, a) + if p.Held? && p.agent == a then 1 else 0)
  {
  }

  lemma ToolLedgerTouched(cfg: Config, m: Mach, v: Move)
    requires Valid(cfg, m, v) && Touches(v) && ToolLedger(m.s.gov.toolUse, m.s.calls, m.permits)
    ensures ToolLedger(m.s.gov.toolUse, CallsAfter(cfg, m, v), m.permits)
  {
    SameBag(m.s.calls, v.id, CallAfter(m.s.calls[v.id], v), ToolOf);
  }

  lemma AgentLedgerTouched(cfg: Config, m: Mach, v: Move)
    requires Valid(cfg, m, v) && Touches(v) && AgentLedger(m.s.gov.agentUse, m.s.calls, m.permits)
    ensures AgentLedger(m.s.gov.agentUse, CallsAfter(cfg, m, v), m.permits)
  {
    SameBag(m.s.calls, v.id, CallAfter(m.s.calls[v.id], v), AgentOf);
  }

  lemma ToolLedgerTaken(use: map<string, int>, calls: map<nat, Call>, P: seq<Permit>, p: Permit)
    requires ToolLedger(use, calls, P) && p.Held?
    ensures ToolLedger(use[Str(p.key) := Get(use, Str(p.key)) + 1], calls, P + [p])
  {
    HeldPush(P, p);
  }

  lemma AgentLedgerTaken(use: map<string, int>, calls: map<nat, Call>, P: seq<Permit>, p: Permit)
    requires AgentLedger(use, calls, P) && p.Held?
    ensures AgentLedger(use[p.agent := Get(use, p.agent) + 1], calls, P + [p])
  {
    HeldPush(P, p);
  }

  /** The guards of releaseSlot never bite: a permit on the stack is on the books. */
  lemma GiveBackExact(m: Mach)
    requires m.permits != [] && m.permits[|m.permits| - 1].Held?
    requires ToolLedger(m.s.gov.toolUse, m.s.calls, m.permits)
    requires AgentLedger(m.s.gov.agentUse, m.s.calls, m.permits)
    ensures var p := m.permits[|m.permits| - 1];
            && Str(p.key) in m.s.gov.toolUse && m.s.gov.toolUse[Str(p.key)] > 0
            && p.agent in m.s.gov.agentUse && m.s.gov.agentUse[p.agent] > 0
  {
    var p := m.permits[|m.permits| - 1];
    HeldPop(m.permits);
    assert Get(m.s.gov.toolUse, Str(p.key)) > 0;
    assert Get(m.s.gov.agentUse, p.agent) > 0;
  }

  lemma ToolLedgerGiven(use: map<string, int>, calls: map<nat, Call>, P: seq<Permit>)
    requires P != [] && P[|P| - 1].Held? && ToolLedger(use, calls, P)
    ensures ToolLedger(Decrement(use, Str(P[|P| - 1].key)), calls, P[..|P| - 1])
  {
    HeldPop(P);
    assert Get(use, Str(P[|P| - 1].key)) > 0;
  }

  lemma AgentLedgerGiven(use: map<string, int>, calls: map<nat, Call>, P: seq<Permit>)
    requires P != [] && P[|P| - 1].Held? && AgentLedger(use, calls, P)
    ensures AgentLedger(Decrement(use, P[|P| - 1].agent), calls, P[..|P| - 1])
  {
    HeldPop(P);
    assert Get(use, P[|P| - 1].agent) > 0;
  }

  /** The permit on top of the stack moves into a new call. */
  lemma ToolLedgerLaunched(use: map<string, int>, calls: map<nat, Call>, P: seq<Permit>, id: nat, c: Call)
    requires ToolLedger(use, calls, P)
    requires id !in calls && P != [] && P[|P| - 1] == Held(c.key, c.req.who.agentId)
    ensures ToolLedger(use, calls[id := c], P[..|P| - 1])
  {
    HeldPop(P);
    AddToBag(calls, id, c, ToolOf);
    forall t ensures Get(use, t) == MapBag(calls[id := c], ToolOf)[t] + ToolsHeld(P[..|P| - 1], t) {
      assert Get(use, t) == MapBag(calls, ToolOf)[t] + ToolsHeld(P, t);
    }
  }

  lemma AgentLedgerLaunched(use: map<string, int>, calls: map<nat, Call>, P: seq<Permit>, id: nat, c: Call)
    requires AgentLedger(use, calls, P)
    requires id !in calls && P != [] && P[|P| - 1] == Held(c.key, c.req.who.agentId)
    ensures AgentLedger(use, calls[id := c], P[..|P| - 1])
  {
    HeldPop(P);
    AddToBag(calls, id, c, AgentOf);
    forall a ensures Get(use, a) == MapBag(calls[id := c], AgentOf)[a] + AgentsHeld(P[..|P| - 1], a) {
      assert Get(use, a) == MapBag(calls, AgentOf)[a] + AgentsHeld(P, a);
    }
  }

  /** The permit of a dying call moves onto the stack. */
  lemma ToolLedgerDestroyed(use: map<string, int>, calls: map<nat, Call>, P: seq<Permit>, id: nat)
    requires ToolLedger(use, calls, P)
    requires id in calls && calls[id].permit == Held(calls[id].key, calls[id].req.who.agentId)
    ensures ToolLedger(use, calls - {id}, P + [calls[id].permit])
  {
    HeldPush(P, calls[id].permit);
    MapBagRemoveAt(calls, ToolOf, id);
    forall t ensures Get(use, t) == MapBag(calls - {id}, ToolOf)[t] + ToolsHeld(P + [calls[id].permit], t) {
      assert Get(use, t) == MapBag(calls, ToolOf)[t] + ToolsHeld(P, t);
    }
  }

  lemma AgentLedgerDestroyed(use: map<string, int>, calls: map<nat, Call>, P: seq<Permit>, id: nat)
    requires AgentLedger(use, calls, P)
    requires id in calls && calls[id].permit == Held(calls[id].key, calls[id].req.who.agentId)
    ensures AgentLedger(use, calls - {id}, P + [calls[id].permit])
  {
    HeldPush(P, calls[id].permit);
    MapBagRemoveAt(calls, AgentOf, id);
    forall a ensures Get(use, a) == MapBag(calls - {id}, AgentOf)[a] + AgentsHeld(P + [calls[id].permit], a) {
      assert Get(use, a) == MapBag(calls, AgentOf)[a] + AgentsHeld(P, a);
    }
  }

  lemma ToolLedgerKept(cfg: Config, m: Mach, v: Move)
    requires Valid(cfg, m, v) && m.s.nextId !in m.s.calls && Discipline(cfg, m.clean, m.s.calls)
    requires ToolLedger(m.s.gov.toolUse, m.s.calls, m.permits)
    ensures ToolLedger(GovAfter(cfg, m, v).toolUse, CallsAfter(cfg, m, v), PermitsAfter(cfg, m, v))
  {
    var use, calls, P := m.s.gov.toolUse, m.s.calls, m.permits;
    if Touches(v) {
      ToolLedgerTouched(cfg, m, v);
    } else if v.Issue? {
      ToolLedgerTaken(use, calls, P, Held(v.key, v.req.who.agentId));
    } else if v.GiveBack? {
      ToolLedgerGiven(use, calls, P);
    } else if v.Launch? {
      ToolLedgerLaunched(use, calls, P, m.s.nextId, NewCall(m.s, v.req, v.key, v.now));
    } else if v.Destroy? {
      ToolLedgerDestroyed(use, calls, P, v.id);
    }
  }

  lemma AgentLedgerKept(cfg: Config, m: Mach, v: Move)
    requires Valid(cfg, m, v) && m.s.nextId !in m.s.calls && Discipline(cfg, m.clean, m.s.calls)
    requires AgentLedger(m.s.gov.agentUse, m.s.calls, m.permits)
    ensures AgentLedger(GovAfter(cfg, m, v).agentUse, CallsAfter(cfg, m, v), PermitsAfter(cfg, m, v))
  {
    var use, calls, P := m.s.gov.agentUse, m.s.calls, m.permits;
    if Touches(v) {
      AgentLedgerTouched(cfg, m, v);
    } else if v.Issue? {
      AgentLedgerTaken(use, calls, P, Held(v.key, v.req.who.agentId));
    } else if v.GiveBack? {
      AgentLedgerGiven(use, calls, P);
    } else if v.Launch? {
      AgentLedgerLaunched(use, calls, P, m.s.nextId, NewCall(m.s, v.req, v.key, v.now));
    } else if v.Destroy? {
      AgentLedgerDestroyed(use, calls, P, v.id);
    }
  }

  lemma CardAdd<K, V>(m: map<K, V>, k: K, v: V)
    ensures |m[k := v]| == |m| + if k in m then 0 else 1
  {
    assert m[k := v].Keys == m.Keys + {k};
  }

  lemma CardRemove<K, V>(m: map<K, V>, k: K)
    requires k in m
    ensures |m - {k}| == |m| - 1
  {
    assert (m - {k}).Keys == m.Keys - {k};
  }

  lemma HeldKept(cfg: Config, m: Mach, v: Move)
    requires Valid(cfg, m, v) && m.s.nextId !in m.s.calls
    requires m.s.gov.held == |m.s.calls| + |m.permits|
    ensures GovAfter(cfg, m, v).held == |CallsAfter(cfg, m, v)| + |PermitsAfter(cfg, m, v)|
  {
    var calls := m.s.calls;
    if Touches(v) {
      CardAdd(calls, v.id, CallAfter(calls[v.id], v));
    } else if v.Launch? {
      CardAdd(calls, m.s.nextId, NewCall(m.s, v.req, v.key, v.now));
    } else if v.Destroy? {
      CardRemove(calls, v.id);
    }
  }

  lemma LimitsTaken(cfg: Config, g: Gov, ts: string, agent: string)
    requires ToolsWithin(cfg, g.toolUse) && AgentsWithin(cfg, g.agentUse) && SameLimits(cfg, g.tools)
    requires CanTake(cfg, g, ts, agent)
    ensures ToolsWithin(cfg, Take(g, ts, agent).toolUse) && AgentsWithin(cfg, Take(g, ts, agent).agentUse)
  {
    assert ToolLimit(cfg, g, ts) <= Ceiling(cfg, ts);
    var h := Take(g, ts, agent);
    forall t ensures Get(h.toolUse, t) <= Ceiling(cfg, t) {
      assert Get(g.toolUse, t) <= Ceiling(cfg, t);
    }
    forall a ensures Get(h.agentUse, a) <= Max(0, cfg.perPrincipal) {
      assert Get(g.agentUse, a) <= Max(0, cfg.perPrincipal);
    }
  }

  lemma LimitsGiven(cfg: Config, g: Gov, ts: string, agent: string)
    requires ToolsWithin(cfg, g.toolUse) && AgentsWithin(cfg, g.agentUse)
    ensures var h := Engine.GiveBack(g, ts, agent);
            ToolsWithin(cfg, h.toolUse) && AgentsWithin(cfg, h.agentUse)
  {
    var h := Engine.GiveBack(g, ts, agent);
    forall t ensures Get(h.toolUse, t) <= Ceiling(cfg, t) {
      assert Get(g.toolUse, t) <= Ceiling(cfg, t);
    }
    forall a ensures Get(h.agentUse, a) <= Max(0, cfg.perPrincipal) {
      assert Get(g.agentUse, a) <= Max(0, cfg.perPrincipal);
    }
  }

  lemma LimitsKept(cfg: Config, m: Mach, v: Move)
    requires Valid(cfg, m, v)
    requires ToolsWithin(cfg, m.s.gov.toolUse) && AgentsWithin(cfg, m.s.gov.agentUse)
    requires SameLimits(cfg, m.s.gov.tools)
    ensures ToolsWithin(cfg, GovAfter(cfg, m, v).toolUse)
    ensures AgentsWithin(cfg, GovAfter(cfg, m, v).agentUse)
    ensures SameLimits(cfg, GovAfter(cfg, m, v).tools)
  {
    if v.Issue? {
      LimitsTaken(cfg, m.s.gov, Str(v.key), v.req.who.agentId);
    } else if v.GiveBack? {
      LimitsGiven(cfg, m.s.gov, Str(v.permit.key), v.permit.agent);
    }
  }

  lemma LedgerKept(cfg: Config, m: Mach, v: Move)
    requires Valid(cfg, m, v) && LedgerOf(cfg, m)
    requires m.s.nextId !in m.s.calls && Discipline(cfg, m.clean, m.s.calls)
    ensures LedgerOf(cfg, Do(cfg, m, v))
  {
    ToolLedgerKept(cfg, m, v);
    AgentLedgerKept(cfg, m, v);
    HeldKept(cfg, m, v);
    LimitsKept(cfg, m, v);
  }

  // ------------------------------------------------------------------ conservation

  ghost predicate ConservedOf(m: Mach) {
    Conserved(m.s.log, m.s.gov.queues, m.s.calls, m.s.arrivals, m.requests)
  }

  lemma PlusOne(R: multiset<nat>, x: nat)
    ensures forall r :: (R + multiset{x})[r] == R[r] + if r == x then 1 else 0
  {
  }

  lemma MinusOne(R: multiset<nat>, x: nat)
    requires x in R
    ensures forall r :: (R - multiset{x})[r] + (if r == x then 1 else 0) == R[r]
  {
  }

  predicate AnswersNow(c: Call, v: Move)
    requires Touches(v) && (v.Absorb? || v.Finish? ==> c.outstanding > 0)
  {
    !c.responded && CallAfter(c, v).responded
  }

  lemma LogReturned(cfg: Config, m: Mach, v: Move)
    requires Valid(cfg, m, v) && (v.Absorb? || v.FireAgain? || v.Finish?)
    ensures var c := m.s.calls[v.id];
            forall r :: Replies(LogAfter(cfg, m, v), r)
                     == Replies(m.s.log, r) + if v.Finish? && !c.responded && r == c.req.id then 1 else 0
  {
    var log, c := m.s.log, m.s.calls[v.id];
    RepliesPush(log, Returned(v.id, v.klass));
    if v.FireAgain? {
      RepliesPush(log + [Returned(v.id, v.klass)], Fired(v.id, c.req));
    } else if v.Finish? {
      RepliesPush(log + [Returned(v.id, v.klass)], Replied(c.req, Result(v.klass, v.isError)));
    }
  }

  /** The log gains a reply exactly when the touched call goes from unanswered to answered ... */
  lemma LogTouched(cfg: Config, m: Mach, v: Move)
    requires Valid(cfg, m, v) && Touches(v)
    ensures var c := m.s.calls[v.id];
            forall r :: Replies(LogAfter(cfg, m, v), r)
                     == Replies(m.s.log, r) + if AnswersNow(c, v) && r == c.req.id then 1 else 0
  {
    var log, c := m.s.log, m.s.calls[v.id];
    if v.Respond? {
      RepliesPush(log, Replied(c.req, v.reply));
    } else if v.CancelWait? {
      RepliesPush(log, Replied(c.req, CallCancelled));
    } else if v.Absorb? || v.FireAgain? || v.Finish? {
      LogReturned(cfg, m, v);
      assert AnswersNow(c, v) <==>
               (v.Finish? && !c.responded) || (v.Absorb? && !c.responded && CallAfter(c, v).responded);
    }
  }

  /** ... and so do the calls stop owing one. */
  lemma CallsTouched(calls: map<nat, Call>, id: nat, v: Move)
    requires id in calls && Touches(v) && (v.Absorb? || v.Finish? ==> calls[id].outstanding > 0)
    requires v.FireAgain? || v.Absorb? || v.TimerGone? || v.Attach? || CallAfter(calls[id], v).responded
    ensures var c := calls[id];
            forall r :: Unanswered(calls[id := CallAfter(c, v)], r)
                        + (if AnswersNow(c, v) && r == c.req.id then 1 else 0)
                     == Unanswered(calls, r)
  {
    MapBagUpdateAt(calls, UnansweredIn, id, CallAfter(calls[id], v));
  }

  lemma ConservedTouched(cfg: Config, m: Mach, v: Move)
    requires Valid(cfg, m, v) && Touches(v) && ConservedOf(m)
    ensures ConservedOf(Do(cfg, m, v))
  {
    var s, log, calls := m.s, LogAfter(cfg, m, v), m.s.calls[v.id := CallAfter(m.s.calls[v.id], v)];
    LogTouched(cfg, m, v);
    CallsTouched(s.calls, v.id, v);
    Answered(s.log, log, s.calls, calls, s.calls[v.id].req.id, AnswersNow(s.calls[v.id], v));
    TouchedBalance(s.log, log, s.gov.queues, s.calls, calls, s.arrivals, m.requests);
  }

  lemma TouchedBalance(log: seq<Action>, log2: seq<Action>, queues: map<string, seq<Waiter>>, calls: map<nat, Call>,
                       calls2: map<nat, Call>, arrivals: nat, R: multiset<nat>)
    requires Conserved(log, queues, calls, arrivals, R)
    requires forall r: nat :: Replies(log2, r) + Unanswered(calls2, r) == Replies(log, r) + Unanswered(calls, r)
    ensures Conserved(log2, queues, calls2, arrivals, R)
  {
    forall r: nat
      ensures Replies(log2, r) + Waiting(queues, r) + Unanswered(calls2, r) + R[r] == if r < arrivals then 1 else 0
    {
      assert Replies(log, r) + Waiting(queues, r) + Unanswered(calls, r) + R[r] == if r < arrivals then 1 else 0;
    }
  }

  /** A reply moves a request from its call to the log. */
  lemma Answered(log: seq<Action>, log2: seq<Action>, calls: map<nat, Call>, calls2: map<nat, Call>, id: nat, now: bool)
    requires forall r :: Replies(log2, r) == Replies(log, r) + if now && r == id then 1 else 0
    requires forall r :: Unanswered(calls2, r) + (if now && r == id then 1 else 0) == Unanswered(calls, r)
    ensures forall r: nat :: Replies(log2, r) + Unanswered(calls2, r) == Replies(log, r) + Unanswered(calls, r)
  {
  }

  /** Moves of the queues, seen from the bags. */
  lemma QueuesTaken(g: Gov, ts: string, i: nat)
    requires i < |Queue(g, ts)|
    ensures forall r :: Waiting(SetQueue(g, ts, Queue(g, ts)[..i] + Queue(g, ts)[i + 1..]).queues, r)
                        + (if r == Queue(g, ts)[i].req.id then 1 else 0) == Waiting(g.queues, r)
  {
    Engine.TakeOut(g, ts, i);
    var after := WaitingBag(SetQueue(g, ts, Queue(g, ts)[..i] + Queue(g, ts)[i + 1..]).queues);
    forall r ensures after[r] + (if r == Queue(g, ts)[i].req.id then 1 else 0) == WaitingBag(g.queues)[r] {
      assert (after + multiset{Queue(g, ts)[i].req.id})[r] == WaitingBag(g.queues)[r];
    }
  }

  lemma QueuesPushed(g: Gov, ts: string, w: Waiter)
    ensures forall r :: Waiting(SetQueue(g, ts, Queue(g, ts) + [w]).queues, r)
                     == Waiting(g.queues, r) + if r == w.req.id then 1 else 0
  {
    WaitingAtSet(g, ts, Queue(g, ts) + [w]);
    WaitingInSplit(Queue(g, ts), [w]);
    WaitingInOne(w);
  }

  /** The books balance for every request when each of the four places changes as stated. */
  lemma Rebalanced(log: seq<Action>, queues: map<string, seq<Waiter>>, calls: map<nat, Call>, arrivals: nat,
                   R: multiset<nat>, log2: seq<Action>, queues2: map<string, seq<Waiter>>, R2: multiset<nat>)
    requires Conserved(log, queues, calls, arrivals, R)
    requires forall r: nat :: Replies(log2, r) + Waiting(queues2, r) + R2[r]
                           == Replies(log, r) + Waiting(queues, r) + R[r]
    ensures Conserved(log2, queues2, calls, arrivals, R2)
  {
    forall r: nat
      ensures Replies(log2, r) + Waiting(queues2, r) + Unanswered(calls, r) + R2[r] == if r < arrivals then 1 else 0
    {
      assert Replies(log, r) + Waiting(queues, r) + Unanswered(calls, r) + R[r] == if r < arrivals then 1 else 0;
      assert Replies(log2, r) + Waiting(queues2, r) + R2[r] == Replies(log, r) + Waiting(queues, r) + R[r];
    }
  }

  lemma ConservedTaken(cfg: Config, m: Mach, v: Move)
    requires Valid(cfg, m, v) && v.TakeOut? && ConservedOf(m)
    ensures ConservedOf(Do(cfg, m, v))
  {
    TakenBalance(m.s.log, m.s.gov, m.s.calls, m.s.arrivals, m.requests, v.tool, v.i);
  }

  lemma TakenBalance(log: seq<Action>, g: Gov, calls: map<nat, Call>, arrivals: nat, R: multiset<nat>,
                     ts: string, i: nat)
    requires Conserved(log, g.queues, calls, arrivals, R) && i < |Queue(g, ts)|
    ensures var q := Queue(g, ts);
            Conserved(log, SetQueue(g, ts, q[..i] + q[i + 1..]).queues, calls, arrivals, R + multiset{q[i].req.id})
  {
    var q := Queue(g, ts);
    var after := SetQueue(g, ts, q[..i] + q[i + 1..]).queues;
    QueuesTaken(g, ts, i);
    Moved(g.queues, after, R, q[i].req.id);
    Rebalanced(log, g.queues, calls, arrivals, R, log, after, R + multiset{q[i].req.id});
  }

  /** A request that leaves the queues for the stack. */
  lemma Moved(queues: map<string, seq<Waiter>>, after: map<string, seq<Waiter>>, R: multiset<nat>, id: nat)
    requires forall r :: Waiting(after, r) + (if r == id then 1 else 0) == Waiting(queues, r)
    ensures forall r: nat :: Waiting(after, r) + (R + multiset{id})[r] == Waiting(queues, r) + R[r]
  {
    PlusOne(R, id);
  }

  /** A request that leaves the stack for a queue. */
  lemma Parked(g: Gov, ts: string, w: Waiter, R: multiset<nat>)
    requires w.req.id in R
    ensures forall r: nat :: Waiting(SetQueue(g, ts, Queue(g, ts) + [w]).queues, r) + (R - multiset{w.req.id})[r]
                          == Waiting(g.queues, r) + R[r]
  {
    QueuesPushed(g, ts, w);
    MinusOne(R, w.req.id);
  }

  lemma ConservedPushed(cfg: Config, m: Mach, v: Move)
    requires Valid(cfg, m, v) && v.Push? && ConservedOf(m)
    ensures ConservedOf(Do(cfg, m, v))
  {
    var s, w := m.s, Waiter(m.s.gov.nextWait, v.req, v.key, v.deadline);
    Parked(s.gov, Str(v.key), w, m.requests);
    Rebalanced(s.log, s.gov.queues, s.calls, s.arrivals, m.requests, s.log, GovAfter(cfg, m, v).queues,
               RequestsAfter(cfg, m, v));
  }

  /** A request that leaves the stack with a reply. */
  lemma Discharged(log: seq<Action>, req: Request, reply: Engine.Reply, R: multiset<nat>)
    requires req.id in R
    ensures forall r: nat :: Replies(log + [Replied(req, reply)], r) + (R - multiset{req.id})[r]
                          == Replies(log, r) + R[r]
  {
    RepliesPush(log, Replied(req, reply));
    MinusOne(R, req.id);
  }

  lemma ConservedAnswered(cfg: Config, m: Mach, v: Move)
    requires Valid(cfg, m, v) && v.Reply? && ConservedOf(m)
    ensures ConservedOf(Do(cfg, m, v))
  {
    var s := m.s;
    AnsweredBalance(s.log, s.gov.queues, s.calls, s.arrivals, m.requests, v.req, v.reply);
  }

  lemma AnsweredBalance(log: seq<Action>, queues: map<string, seq<Waiter>>, calls: map<nat, Call>, arrivals: nat,
                        R: multiset<nat>, req: Request, reply: Engine.Reply)
    requires Conserved(log, queues, calls, arrivals, R) && req.id in R
    ensures Conserved(log + [Replied(req, reply)], queues, calls, arrivals, R - multiset{req.id})
  {
    Discharged(log, req, reply, R);
    Rebalanced(log, queues, calls, arrivals, R, log + [Replied(req, reply)], queues, R - multiset{req.id});
  }

  lemma ConservedIssued(cfg: Config, m: Mach, v: Move)
    requires Valid(cfg, m, v) && v.Issue? && ConservedOf(m)
    ensures ConservedOf(Do(cfg, m, v))
  {
    RepliesPush(m.s.log, Admitted(v.req, Str(v.key)));
  }

  lemma ConservedDestroyed(cfg: Config, m: Mach, v: Move)
    requires Valid(cfg, m, v) && v.Destroy? && ConservedOf(m)
    ensures ConservedOf(Do(cfg, m, v))
  {
    MapBagRemoveAt(m.s.calls, UnansweredIn, v.id);
  }

  lemma ConservedAccepted(cfg: Config, m: Mach, v: Move)
    requires Valid(cfg, m, v) && v.Accept? && ConservedOf(m)
    ensures ConservedOf(Do(cfg, m, v))
  {
  }

  /** A launch logs no reply, and its new call owes one. */
  lemma LaunchLogged(cfg: Config, m: Mach, v: Move)
    requires Valid(cfg, m, v) && v.Launch?
    ensures forall r :: Replies(LogAfter(cfg, m, v), r) == Replies(m.s.log, r)
  {
    var s := m.s;
    var a := Insertion(s, v.req, v.key, v.via);
    RepliesPush(s.log, a);
    RepliesPush(s.log + [a], Fired(s.nextId, v.req));
  }

  /** A request that leaves the stack for a new call. */
  lemma Owed(calls: map<nat, Call>, id: nat, c: Call, R: multiset<nat>)
    requires id !in calls && !c.responded && c.req.id in R
    ensures forall r: nat :: Unanswered(calls[id := c], r) + (R - multiset{c.req.id})[r] == Unanswered(calls, r) + R[r]
  {
    AddToBag(calls, id, c, UnansweredIn);
    MinusOne(R, c.req.id);
  }

  lemma ConservedLaunched(cfg: Config, m: Mach, v: Move)
    requires Valid(cfg, m, v) && v.Launch? && ConservedOf(m) && m.s.nextId !in m.s.calls
    ensures ConservedOf(Do(cfg, m, v))
  {
    var s, R, log, calls := m.s, RequestsAfter(cfg, m, v), LogAfter(cfg, m, v), CallsAfter(cfg, m, v);
    Owed(s.calls, s.nextId, NewCall(s, v.req, v.key, v.now), m.requests);
    LaunchLogged(cfg, m, v);
    forall r: nat
      ensures Replies(log, r) + Waiting(s.gov.queues, r) + Unanswered(calls, r) + R[r]
           == if r < s.arrivals then 1 else 0
    {
      assert Replies(s.log, r) + Waiting(s.gov.queues, r) + Unanswered(s.calls, r) + m.requests[r]
          == if r < s.arrivals then 1 else 0;
      assert Unanswered(calls, r) + R[r] == Unanswered(s.calls, r) + m.requests[r];
    }
  }

  lemma ConservedKept(cfg: Config, m: Mach, v: Move)
    requires Valid(cfg, m, v) && ConservedOf(m) && m.s.nextId !in m.s.calls
    ensures ConservedOf(Do(cfg, m, v))
  {
    var s := m.s;
    if Touches(v) {
      ConservedTouched(cfg, m, v);
    } else if v.TakeOut? {
      ConservedTaken(cfg, m, v);
    } else if v.Push? {
      ConservedPushed(cfg, m, v);
    } else if v.Launch? {
      ConservedLaunched(cfg, m, v);
    } else if v.Destroy? {
      ConservedDestroyed(cfg, m, v);
    } else if v.Reply? {
      ConservedAnswered(cfg, m, v);
    } else if v.Issue? {
      ConservedIssued(cfg, m, v);
    } else if v.Accept? {
      ConservedAccepted(cfg, m, v);
    }
  }

  lemma KeyedKept(cfg: Config, m: Mach, v: Move)
    requires Valid(cfg, m, v) && Keyed(m.clean, m.s.gov.queues)
    ensures Keyed(m.clean, GovAfter(cfg, m, v).queues)
  {
  }

  // ------------------------------------------------------------------ calls

  lemma DisciplineTouched(cfg: Config, m: Mach, v: Move)
    requires Valid(cfg, m, v) && Touches(v) && Discipline(cfg, m.clean, m.s.calls)
    ensures Discipline(cfg, m.clean, CallsAfter(cfg, m, v))
  {
  }

  lemma DisciplineKept(cfg: Config, m: Mach, v: Move)
    requires Valid(cfg, m, v) && Discipline(cfg, m.clean, m.s.calls)
    ensures Discipline(cfg, m.clean, CallsAfter(cfg, m, v))
  {
    if Touches(v) { DisciplineTouched(cfg, m, v); }
  }

  // ------------------------------------------------------------------ attempts

  ghost predicate AttemptsOf(cfg: Config, m: Mach) {
    && Counted(m.s.log, m.s.calls, m.s.nextId)
    && FewAttempts(cfg, m.s.log)
    && TimeoutsFinal(m.s.log, m.s.calls, m.s.nextId)
    && Ordered(m.s.log)
  }

  predicate Fires(m: Mach, v: Move, id: nat) {
    (v.Launch? && id == m.s.nextId) || (v.FireAgain? && id == v.id)
  }

  predicate Answers(v: Move, id: nat) {
    (v.Absorb? || v.FireAgain? || v.Finish?) && id == v.id
  }

  lemma AttemptsLaunched(cfg: Config, m: Mach, v: Move)
    requires Valid(cfg, m, v) && v.Launch?
    ensures forall id :: FiredCount(LogAfter(cfg, m, v), id)
                      == FiredCount(m.s.log, id) + if Fires(m, v, id) then 1 else 0
    ensures forall id :: ReturnedCount(LogAfter(cfg, m, v), id) == ReturnedCount(m.s.log, id)
  {
    var s := m.s;
    var a := Insertion(s, v.req, v.key, v.via);
    AttemptsPush(s.log, a);
    AttemptsPush(s.log + [a], Fired(s.nextId, v.req));
  }

  lemma AttemptsReturned(cfg: Config, m: Mach, v: Move)
    requires Valid(cfg, m, v) && (v.Absorb? || v.FireAgain? || v.Finish?)
    ensures forall id :: FiredCount(LogAfter(cfg, m, v), id)
                      == FiredCount(m.s.log, id) + if Fires(m, v, id) then 1 else 0
    ensures forall id :: ReturnedCount(LogAfter(cfg, m, v), id)
                      == ReturnedCount(m.s.log, id) + if Answers(v, id) then 1 else 0
  {
    var s, a := m.s, Returned(v.id, v.klass);
    AttemptsPush(s.log, a);
    if v.FireAgain? {
      AttemptsPush(s.log + [a], Fired(v.id, s.calls[v.id].req));
    } else if v.Finish? {
      AttemptsPush(s.log + [a], Replied(s.calls[v.id].req, Result(v.klass, v.isError)));
    }
  }

  lemma AttemptsUntold(cfg: Config, m: Mach, v: Move)
    requires Valid(cfg, m, v) && !v.Launch? && !v.Absorb? && !v.FireAgain? && !v.Finish?
    ensures forall id :: FiredCount(LogAfter(cfg, m, v), id) == FiredCount(m.s.log, id)
    ensures forall id :: ReturnedCount(LogAfter(cfg, m, v), id) == ReturnedCount(m.s.log, id)
  {
    var was, log := m.s.log, LogAfter(cfg, m, v);
    if log != was {
      assert log == was + [log[|was|]];
      AttemptsPush(was, log[|was|]);
    }
  }

  /** How many attempts and answers a move adds to the log for each call. */
  lemma AttemptsLogged(cfg: Config, m: Mach, v: Move)
    requires Valid(cfg, m, v)
    ensures forall id :: FiredCount(LogAfter(cfg, m, v), id)
                      == FiredCount(m.s.log, id) + if Fires(m, v, id) then 1 else 0
    ensures forall id :: ReturnedCount(LogAfter(cfg, m, v), id)
                      == ReturnedCount(m.s.log, id) + if Answers(v, id) then 1 else 0
  {
    if v.Launch? {
      AttemptsLaunched(cfg, m, v);
    } else if v.Absorb? || v.FireAgain? || v.Finish? {
      AttemptsReturned(cfg, m, v);
    } else {
      AttemptsUntold(cfg, m, v);
    }
  }

  lemma CountedTouched(cfg: Config, m: Mach, v: Move)
    requires Valid(cfg, m, v) && Touches(v) && Counted(m.s.log, m.s.calls, m.s.nextId)
    requires forall id :: id in m.s.calls ==> id < m.s.nextId
    ensures Counted(LogAfter(cfg, m, v), CallsAfter(cfg, m, v), NextIdAfter(m, v))
  {
    AttemptsLogged(cfg, m, v);
    var c := m.s.calls[v.id];
    assert CallAfter(c, v).attempt == c.attempt + if v.FireAgain? then 1 else 0;
    assert CallAfter(c, v).outstanding == c.outstanding - if v.Absorb? || v.Finish? then 1 else 0;
  }

  lemma CountedKept(cfg: Config, m: Mach, v: Move)
    requires Valid(cfg, m, v) && Counted(m.s.log, m.s.calls, m.s.nextId)
    requires forall id :: id in m.s.calls ==> id < m.s.nextId
    ensures Counted(LogAfter(cfg, m, v), CallsAfter(cfg, m, v), NextIdAfter(m, v))
  {
    if Touches(v) {
      CountedTouched(cfg, m, v);
    } else {
      AttemptsLogged(cfg, m, v);
    }
  }

  lemma FewAttemptsKept(cfg: Config, m: Mach, v: Move)
    requires Valid(cfg, m, v) && FewAttempts(cfg, m.s.log)
    requires Counted(m.s.log, m.s.calls, m.s.nextId)
    ensures FewAttempts(cfg, LogAfter(cfg, m, v))
  {
    AttemptsLogged(cfg, m, v);
    forall id: nat ensures FiredCount(LogAfter(cfg, m, v), id) <= MaxAttempts(cfg) {
      assert FiredCount(m.s.log, id) <= MaxAttempts(cfg);
    }
  }

  lemma TimeoutsFinalKept(cfg: Config, m: Mach, v: Move)
    requires Valid(cfg, m, v) && TimeoutsFinal(m.s.log, m.s.calls, m.s.nextId)
    requires forall id :: id in m.s.calls ==> id < m.s.nextId && m.s.calls[id].outstanding <= 1
    ensures TimeoutsFinal(LogAfter(cfg, m, v), CallsAfter(cfg, m, v), NextIdAfter(m, v))
  {
  }

  lemma OrderedPush(log: seq<Action>, a: Action)
    requires Ordered(log)
    requires a.Fired? ==> forall i :: 0 <= i < |log| ==> !RepliesTo(log[i], a.req.id) && !TimedOut(log[i], a.id)
    ensures Ordered(log + [a])
  {
  }

  lemma NotTimedOut(m: Mach, id: nat)
    requires TimeoutsFinal(m.s.log, m.s.calls, m.s.nextId)
    requires id >= m.s.nextId || (id in m.s.calls && m.s.calls[id].outstanding > 0)
    ensures forall i :: 0 <= i < |m.s.log| ==> !TimedOut(m.s.log[i], id)
  {
  }

  /** A request that sits in a call, or on the stack, has no reply yet. */
  lemma NoReplyYet(m: Mach, r: nat)
    requires ConservedOf(m) && (r in m.requests || Unanswered(m.s.calls, r) > 0)
    ensures forall i :: 0 <= i < |m.s.log| ==> !RepliesTo(m.s.log[i], r)
  {
    assert Replies(m.s.log, r) + Waiting(m.s.gov.queues, r) + Unanswered(m.s.calls, r) + m.requests[r]
        == if r < m.s.arrivals then 1 else 0;
    NoReplyInLog(m.s.log, r);
  }

  lemma OwesReply(calls: map<nat, Call>, id: nat)
    requires id in calls && !calls[id].responded
    ensures Unanswered(calls, calls[id].req.id) > 0
  {
    MapBagRemoveAt(calls, UnansweredIn, id);
  }

  lemma OrderedFired(cfg: Config, m: Mach, v: Move)
    requires Valid(cfg, m, v) && (v.Launch? || v.FireAgain?) && Ordered(m.s.log)
    requires TimeoutsFinal(m.s.log, m.s.calls, m.s.nextId) && ConservedOf(m)
    ensures Ordered(LogAfter(cfg, m, v))
  {
    var s := m.s;
    if v.Launch? {
      NotTimedOut(m, s.nextId);
      NoReplyYet(m, v.req.id);
      var a := Insertion(s, v.req, v.key, v.via);
      OrderedPush(s.log, a);
      OrderedPush(s.log + [a], Fired(s.nextId, v.req));
    } else {
      NotTimedOut(m, v.id);
      OwesReply(s.calls, v.id);
      NoReplyYet(m, s.calls[v.id].req.id);
      OrderedPush(s.log, Returned(v.id, v.klass));
      OrderedPush(s.log + [Returned(v.id, v.klass)], Fired(v.id, s.calls[v.id].req));
    }
  }

  lemma OrderedKept(cfg: Config, m: Mach, v: Move)
    requires Valid(cfg, m, v) && Ordered(m.s.log)
    requires TimeoutsFinal(m.s.log, m.s.calls, m.s.nextId) && ConservedOf(m)
    ensures Ordered(LogAfter(cfg, m, v))
  {
    if v.Launch? || v.FireAgain? {
      OrderedFired(cfg, m, v);
    }
  }

  lemma AttemptsKept(cfg: Config, m: Mach, v: Move)
    requires Valid(cfg, m, v) && AttemptsOf(cfg, m) && ConservedOf(m)
    requires forall id :: id in m.s.calls ==> id < m.s.nextId && m.s.calls[id].outstanding <= 1
    ensures AttemptsOf(cfg, Do(cfg, m, v))
  {
    CountedKept(cfg, m, v);
    FewAttemptsKept(cfg, m, v);
    TimeoutsFinalKept(cfg, m, v);
    OrderedKept(cfg, m, v);
  }

  // ------------------------------------------------------------------ tasks and handles

  lemma TaskBoundsKept(cfg: Config, m: Mach, v: Move)
    requires Valid(cfg, m, v) && TaskBounds(cfg, m.s.tasks, m.s.nextId)
    ensures TaskBounds(cfg, TasksAfter(cfg, m, v), NextIdAfter(m, v))
  {
    var s := m.s;
    var any := Tasks.Task("", ToolKey("", ""), Tasks.Working, 0, 0, 0);
    if v.CancelWait? && s.calls[v.id].taskId.Some? {
      Tasks.BoundKept(s.tasks, cfg.maxTasks, s.calls[v.id].taskId.value, any, Tasks.Cancelled, v.now);
    } else if v.Finish? && s.calls[v.id].taskId.Some? {
      Tasks.BoundKept(s.tasks, cfg.maxTasks, s.calls[v.id].taskId.value, any, Outcome(v.klass, v.isError), v.now);
    } else if v.CancelOrphan? {
      Tasks.BoundKept(s.tasks, cfg.maxTasks, v.taskId, any, Tasks.Cancelled, v.now);
    } else if v.Sweep? {
      Tasks.BoundKept(s.tasks, cfg.maxTasks, 0, any, Tasks.Working, v.now);
    } else if v.NewTask? {
      Tasks.BoundKept(s.tasks, cfg.maxTasks, s.nextId, v.task, Tasks.Working, v.now);
    }
  }

  lemma TaskStatesTouched(cfg: Config, m: Mach, v: Move)
    requires Valid(cfg, m, v) && Touches(v) && TaskStates(m.clean, m.s.tasks, m.s.calls)
    requires TaskLinks(m.s.calls, m.s.byTask, m.s.nextId)
    ensures TaskStates(m.clean, TasksAfter(cfg, m, v), CallsAfter(cfg, m, v))
  {
  }

  lemma TaskStatesKept(cfg: Config, m: Mach, v: Move)
    requires Valid(cfg, m, v) && TaskStates(m.clean, m.s.tasks, m.s.calls)
    requires TaskLinks(m.s.calls, m.s.byTask, m.s.nextId)
    ensures TaskStates(m.clean, TasksAfter(cfg, m, v), CallsAfter(cfg, m, v))
  {
    if Touches(v) { TaskStatesTouched(cfg, m, v); }
  }

  ghost predicate HandlesOf(m: Mach) {
    && HandlesLive(m.s.log, m.s.calls, m.s.nextId)
    && OneHandle(m.s.log)
    && HandlesOwned(m.clean, m.s.log)
    && HandlesDeclared(m.s.log)
  }

  lemma HandlesLiveKept(cfg: Config, m: Mach, v: Move)
    requires Valid(cfg, m, v) && HandlesLive(m.s.log, m.s.calls, m.s.nextId)
    requires forall id :: id in m.s.calls ==> id < m.s.nextId
    ensures HandlesLive(LogAfter(cfg, m, v), CallsAfter(cfg, m, v), NextIdAfter(m, v))
  {
  }

  lemma OneHandleKept(cfg: Config, m: Mach, v: Move)
    requires Valid(cfg, m, v) && OneHandle(m.s.log) && HandlesLive(m.s.log, m.s.calls, m.s.nextId)
    ensures OneHandle(LogAfter(cfg, m, v))
  {
  }

  lemma HandlesDeclaredKept(cfg: Config, m: Mach, v: Move)
    requires Valid(cfg, m, v) && HandlesDeclared(m.s.log)
    ensures HandlesDeclared(LogAfter(cfg, m, v))
  {
  }

  lemma HandlesOwnedKept(cfg: Config, m: Mach, v: Move)
    requires Valid(cfg, m, v) && HandlesOwned(m.clean, m.s.log)
    requires TaskStates(m.clean, m.s.tasks, m.s.calls)
    ensures HandlesOwned(m.clean, LogAfter(cfg, m, v))
  {
    if m.clean && v.Reply? && v.reply.Handle? {
      var c := m.s.calls[v.reply.inflightId];
      assert Consistent(m.clean, c, v.reply.task);
    }
  }

  // ------------------------------------------------------------------ amplification

  ghost predicate AmplifiedOf(m: Mach) {
    && Amplified(m.s.log, m.s.inflight.keyToId, m.s.calls)
    && OverwritesExplained(m.s.log)
  }

  lemma OverwritesLogged(cfg: Config, m: Mach, v: Move)
    requires Valid(cfg, m, v)
    ensures forall mk :: Overwrites(LogAfter(cfg, m, v), mk) == Overwrites(m.s.log, mk)
              + if v.Launch? && mk == KeyFor(v.req, v.key)
                   && mk in m.s.inflight.keyToId then 1 else 0
  {
    var s := m.s;
    if v.Reply? {
      OverwritesPush(s.log, Replied(v.req, v.reply));
    } else if v.Issue? {
      OverwritesPush(s.log, Admitted(v.req, Str(v.key)));
    } else if v.Launch? {
      var a := Insertion(s, v.req, v.key, v.via);
      OverwritesPush(s.log, a);
      OverwritesPush(s.log + [a], Fired(s.nextId, v.req));
    } else if v.Respond? {
      OverwritesPush(s.log, Replied(s.calls[v.id].req, v.reply));
    } else if v.CancelWait? {
      OverwritesPush(s.log, Replied(s.calls[v.id].req, CallCancelled));
    } else if v.Absorb? || v.FireAgain? || v.Finish? {
      OverwritesPush(s.log, Returned(v.id, v.klass));
      OverwritesPush(s.log + [Returned(v.id, v.klass)], Fired(v.id, s.calls[v.id].req));
      if v.Finish? {
        OverwritesPush(s.log + [Returned(v.id, v.klass)], Replied(s.calls[v.id].req, Result(v.klass, v.isError)));
      }
    }
  }

  lemma AmplifiedLaunched(cfg: Config, m: Mach, v: Move)
    requires Valid(cfg, m, v) && v.Launch? && m.s.nextId !in m.s.calls
    requires Amplified(m.s.log, m.s.inflight.keyToId, m.s.calls)
    ensures Amplified(LogAfter(cfg, m, v), InflightAfter(cfg, m, v).keyToId, CallsAfter(cfg, m, v))
  {
    OverwritesLogged(cfg, m, v);
    AddToBag(m.s.calls, m.s.nextId, NewCall(m.s, v.req, v.key, v.now), KeyIn);
  }

  lemma AmplifiedDestroyed(cfg: Config, m: Mach, v: Move)
    requires Valid(cfg, m, v) && v.Destroy?
    requires v.id in m.s.inflight.byId && Matches(m.s.calls[v.id], m.s.inflight.byId[v.id])
    requires Amplified(m.s.log, m.s.inflight.keyToId, m.s.calls)
    ensures Amplified(LogAfter(cfg, m, v), InflightAfter(cfg, m, v).keyToId, CallsAfter(cfg, m, v))
  {
    MapBagRemoveAt(m.s.calls, KeyIn, v.id);
  }

  lemma SameKey(c: Call, d: Call)
    requires c.req == d.req && c.key == d.key
    ensures KeyIn(c) == KeyIn(d)
  {
  }

  lemma RunningSame(calls: map<nat, Call>, id: nat, d: Call)
    requires id in calls && calls[id].req == d.req && calls[id].key == d.key
    ensures forall mk :: Running(calls[id := d], mk) == Running(calls, mk)
  {
    SameKey(calls[id], d);
    SameBag(calls, id, d, KeyIn);
  }

  lemma AmplifiedTouched(cfg: Config, m: Mach, v: Move)
    requires Valid(cfg, m, v) && Touches(v)
    requires Amplified(m.s.log, m.s.inflight.keyToId, m.s.calls)
    ensures Amplified(LogAfter(cfg, m, v), InflightAfter(cfg, m, v).keyToId, CallsAfter(cfg, m, v))
  {
    OverwritesLogged(cfg, m, v);
    RunningSame(m.s.calls, v.id, CallAfter(m.s.calls[v.id], v));
    assert InflightAfter(cfg, m, v).keyToId == m.s.inflight.keyToId;
    forall mk
      ensures Running(CallsAfter(cfg, m, v), mk)
           <= Overwrites(LogAfter(cfg, m, v), mk) + if mk in m.s.inflight.keyToId then 1 else 0
    {
      assert Running(m.s.calls, mk) <= Overwrites(m.s.log, mk) + if mk in m.s.inflight.keyToId then 1 else 0;
    }
  }

  lemma AmplifiedKept(cfg: Config, m: Mach, v: Move)
    requires Valid(cfg, m, v) && Amplified(m.s.log, m.s.inflight.keyToId, m.s.calls)
    requires SameKeys(m.s.calls, m.s.live, m.s.inflight.byId)
    requires Linked(m.s.calls, m.s.inflight.byId, m.s.nextId)
    ensures Amplified(LogAfter(cfg, m, v), InflightAfter(cfg, m, v).keyToId, CallsAfter(cfg, m, v))
  {
    if Touches(v) {
      AmplifiedTouched(cfg, m, v);
    } else if v.Launch? {
      AmplifiedLaunched(cfg, m, v);
    } else if v.Destroy? {
      AmplifiedDestroyed(cfg, m, v);
    } else {
      OverwritesLogged(cfg, m, v);
    }
  }

  lemma OverwritesExplainedKept(cfg: Config, m: Mach, v: Move)
    requires Valid(cfg, m, v) && OverwritesExplained(m.s.log)
    ensures OverwritesExplained(LogAfter(cfg, m, v))
  {
  }

  // ------------------------------------------------------------------ all of it

  ghost predicate Inv(cfg: Config, m: Mach) {
    && TablesOf(m)
    && LedgerOf(cfg, m)
    && ConservedOf(m)
    && Keyed(m.clean, m.s.gov.queues)
    && Discipline(cfg, m.clean, m.s.calls)
    && AttemptsOf(cfg, m)
    && TaskBounds(cfg, m.s.tasks, m.s.nextId)
    && TaskStates(m.clean, m.s.tasks, m.s.calls)
    && HandlesOf(m)
    && AmplifiedOf(m)
  }

  lemma InvStart(cfg: Config, clean: bool)
    ensures Inv(cfg, Mach(Init(cfg), [], multiset{}, clean))
  {
  }

  lemma CallsBelow(cfg: Config, m: Mach)
    requires SameKeys(m.s.calls, m.s.live, m.s.inflight.byId)
    requires Linked(m.s.calls, m.s.inflight.byId, m.s.nextId) && Discipline(cfg, m.clean, m.s.calls)
    ensures forall id :: id in m.s.calls ==> id < m.s.nextId && m.s.calls[id].outstanding <= 1
    ensures m.s.nextId !in m.s.calls
  {
  }

  lemma InvKept(cfg: Config, m: Mach, v: Move)
    requires Valid(cfg, m, v) && Inv(cfg, m)
    ensures Inv(cfg, Do(cfg, m, v))
  {
    CallsBelow(cfg, m);
    TablesKept(cfg, m, v);
    LedgerKept(cfg, m, v);
    ConservedKept(cfg, m, v);
    KeyedKept(cfg, m, v);
    DisciplineKept(cfg, m, v);
    AttemptsKept(cfg, m, v);
    TaskBoundsKept(cfg, m, v);
    TaskStatesKept(cfg, m, v);
    HandlesLiveKept(cfg, m, v);
    OneHandleKept(cfg, m, v);
    HandlesOwnedKept(cfg, m, v);
    HandlesDeclaredKept(cfg, m, v);
    AmplifiedKept(cfg, m, v);
    OverwritesExplainedKept(cfg, m, v);
  }
}
