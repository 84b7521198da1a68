/** What the configured limits do: who gets a slot, who waits and how long, and who is turned away, all told
    by the calls that run and the numbers in the configuration (src/govern/LocalGovernor.cpp:17-84,
    src/pipeline/Pipeline.cpp:371-411). */
module EngineLimits {
  import opened Options
  import opened ToolKeys
  import opened Bags
  import opened Engine
  import opened EngineInvariant
  import opened EngineMoves
  import opened EngineKeeps
  import opened EngineTurns
  import opened EngineOffer
  import opened EngineFifo
  import opened EngineCauses
  import Circuit

  // ------------------------------------------------------------------ the numbers

  function CallsOn(calls: map<nat, Call>, ts: string): set<nat> {
    set id | id in calls && Str(calls[id].key) == ts
  }

  function CallsOf(calls: map<nat, Call>, agent: string): set<nat> {
    set id | id in calls && calls[id].req.who.agentId == agent
  }

  /** The tool may have `n` calls more than none: its own number counts while it is validated and positive. */
  predicate Admits(cfg: Config, tools: map<string, ToolCfg>, ts: string, n: int) {
    if ts in tools && tools[ts].status == Active && tools[ts].maxConcurrency > 0 then n < tools[ts].maxConcurrency
    else n < cfg.perTool
  }

  /** One more call would be within the limits of the tool and of the agent. */
  predicate HasRoom(cfg: Config, tools: map<string, ToolCfg>, calls: map<nat, Call>, ts: string, agent: string) {
    Admits(cfg, tools, ts, |CallsOn(calls, ts)|) && |CallsOf(calls, agent)| < cfg.perPrincipal
  }

  /** The breaker of the backend is open and its cooldown not over, or its upstream is held to be down. */
  predicate Shut(slots: Circuit.Slots, backend: string, env: Env) {
    || (backend in slots && slots[backend].st == Circuit.Open && env.now < slots[backend].openUntil)
    || backend in env.down
  }

  lemma CallsOnWithout(calls: map<nat, Call>, id: nat, ts: string)
    requires id in calls
    ensures |CallsOn(calls, ts)| == |CallsOn(calls - {id}, ts)| + if Str(calls[id].key) == ts then 1 else 0
  {
    var rest := CallsOn(calls - {id}, ts);
    assert CallsOn(calls, ts) == if Str(calls[id].key) == ts then rest + {id} else rest;
  }

  lemma CallsOfWithout(calls: map<nat, Call>, id: nat, agent: string)
    requires id in calls
    ensures |CallsOf(calls, agent)|
         == |CallsOf(calls - {id}, agent)| + if calls[id].req.who.agentId == agent then 1 else 0
  {
    var rest := CallsOf(calls - {id}, agent);
    assert CallsOf(calls, agent) == if calls[id].req.who.agentId == agent then rest + {id} else rest;
  }

  lemma {:induction false} BagsAreCalls(calls: map<nat, Call>, ts: string, agent: string)
    ensures MapBag(calls, ToolOf)[ts] == |CallsOn(calls, ts)|
    ensures MapBag(calls, AgentOf)[agent] == |CallsOf(calls, agent)|
    decreases |calls|
  {
    if calls != map[] {
      var p :| p in calls;
      MapBagRemove(calls, ToolOf, p);
      MapBagRemove(calls, AgentOf, p);
      CallsOnWithout(calls, p, ts);
      CallsOfWithout(calls, p, agent);
      BagsAreCalls(calls - {p}, ts, agent);
    }
  }

  lemma CountersAreCalls(cfg: Config, s: St, ts: string, agent: string)
    requires LedgerOf(cfg, Idle(s, false))
    ensures Get(s.gov.toolUse, ts) == |CallsOn(s.calls, ts)|
    ensures Get(s.gov.agentUse, agent) == |CallsOf(s.calls, agent)|
  {
    BagsAreCalls(s.calls, ts, agent);
    assert Get(s.gov.toolUse, ts) == MapBag(s.calls, ToolOf)[ts] + ToolsHeld([], ts);
    assert Get(s.gov.agentUse, agent) == MapBag(s.calls, AgentOf)[agent] + AgentsHeld([], agent);
  }

  lemma RoomIsCounted(cfg: Config, s: St, ts: string, agent: string)
    requires LedgerOf(cfg, Idle(s, false))
    ensures CanTake(cfg, s.gov, ts, agent) <==> HasRoom(cfg, s.gov.tools, s.calls, ts, agent)
  {
    CountersAreCalls(cfg, s, ts, agent);
  }

  lemma ShutExactly(slots: Circuit.Slots, backend: string, env: Env)
    ensures Unavailable(slots, backend, env) <==> Shut(slots, backend, env)
  {
  }

  // ------------------------------------------------------------------ arrivals

  lemma LogGrowsClosed(cfg: Config)
    ensures Closed(cfg, (m: Mach, n: Mach) => m.s.log <= n.s.log, ALL)
  {
    forall m, v | Valid(cfg, m, v) ensures m.s.log <= LogAfter(cfg, m, v) {
    }
  }

  lemma ReleaseGrows(cfg: Config, s: St, ts: string, env: Env)
    requires Keyed(false, s.gov.queues)
    ensures s.log <= TryDequeue(cfg, s, ts, env).log
  {
    var R := (m: Mach, n: Mach) => m.s.log <= n.s.log;
    LogGrowsClosed(cfg);
    TryDequeueTurn(cfg, R, ALL, Idle(s, false), ts, env);
    assert R(Idle(s, false), Idle(s, false).(s := TryDequeue(cfg, s, ts, env)));
  }

  /** What an arrival that reaches the governor starts its log with: its slot, or not. */
  predicate Seats(s: St, t: St, r: Request) {
    |t.log| > |s.log| && t.log[|s.log|] == Admitted(r, r.name)
  }

  /** The new call, as it begins. */
  function Beginning(r: Request, key: ToolKey, now: nat): Call {
    Call(r, key, Held(key, r.who.agentId), now, None, false, false, false, 1, 1, true)
  }

  /** A seated arrival whose upstream is shut is told so; any other one is under way, in flight, with its first
      attempt sent and its promote timer armed. */
  predicate Goes(s: St, t: St, r: Request, key: ToolKey, env: Env) {
    if Shut(s.slots, key.backend, env)
    then |t.log| > |s.log| + 1 && t.log[|s.log| + 1] == Replied(r, UpstreamUnavailable)
    else
      && |t.log| == |s.log| + 3 && t.log[|s.log| + 1].Inserted? && t.log[|s.log| + 1].id == s.nextId
      && t.log[|s.log| + 2] == Fired(s.nextId, r)
      && t.calls == s.calls[s.nextId := Beginning(r, key, env.now)]
  }

  lemma TurnedAwayGoes(cfg: Config, s: St, req: Request, key: ToolKey, env: Env)
    requires Keyed(false, s.gov.queues)
    ensures var t := TryDequeue(cfg, TurnedAway(s, Str(key), req, key, env.now), Str(key), env);
            && |t.log| > |s.log| + 1 && t.log[|s.log|] == Admitted(req, Str(key))
            && t.log[|s.log| + 1] == Replied(req, UpstreamUnavailable)
  {
    var u := TurnedAway(s, Str(key), req, key, env.now);
    assert u.log == s.log + [Admitted(req, Str(key))] + [Replied(req, UpstreamUnavailable)];
    ReleaseGrows(cfg, u, Str(key), env);
    var t := TryDequeue(cfg, u, Str(key), env);
    assert t.log[|s.log|] == u.log[|s.log|] && t.log[|s.log| + 1] == u.log[|s.log| + 1];
  }

  lemma EnteredGoes(s: St, req: Request, key: ToolKey, via: Via, now: nat)
    ensures var t := Entered(s, Str(key), req, key, via, now);
            && t.log == s.log + [Admitted(req, Str(key)), Insertion(s, req, key, via), Fired(s.nextId, req)]
            && t.calls == s.calls[s.nextId := Beginning(req, key, now)]
  {
    EnteredBegins(s, Str(key), req, key, via, now);
  }

  lemma AcquireSeats(cfg: Config, s: St, req: Request, key: ToolKey, wait: nat, via: Via, env: Env)
    requires Keyed(false, s.gov.queues) && req.name == Str(key)
    ensures var t := Acquire(cfg, s, req, key, wait, via, env);
            && (Seats(s, t, req) <==> CanTake(cfg, s.gov, Str(key), req.who.agentId))
            && (Seats(s, t, req) ==> Goes(s, t, req, key, env))
  {
    ShutExactly(s.slots, key.backend, env);
    if CanTake(cfg, s.gov, Str(key), req.who.agentId) {
      SeatedIs(cfg, s, Str(key), req, key, via, env);
      if Unavailable(s.slots, key.backend, env) {
        TurnedAwayGoes(cfg, s, req, key, env);
      } else {
        EnteredGoes(s, req, key, via, env.now);
      }
    } else {
      AcquireWaits(cfg, s, req, key, wait, via, env);
    }
  }

  /** An arrival that reaches the governor gets a slot if and only if the calls of its tool and of its agent are
      fewer than the configuration allows; and with a slot it goes ahead if and only if its upstream is not shut. */
  lemma ArrivalIsSeated(cfg: Config, turns: seq<Turn>, req: Request, env: Env)
    requires ToGovernor(cfg, Arrived(Run(cfg, turns)), Stamped(Run(cfg, turns), req)).Some?
    ensures var s := Run(cfg, turns);
            var t, r := Step(cfg, s, Arrive(req), env), Stamped(s, req);
            && (Seats(s, t, r) <==> HasRoom(cfg, s.gov.tools, s.calls, req.name, req.who.agentId))
            && (Seats(s, t, r) ==> Goes(s, t, r, Parse(req.name).value, env))
  {
    var s := Run(cfg, turns);
    RunInv(cfg, false, turns);
    SeatedArrival(cfg, s, req, env);
  }

  lemma SeatedArrival(cfg: Config, s: St, req: Request, env: Env)
    requires LedgerOf(cfg, Idle(s, false)) && Keyed(false, s.gov.queues)
    requires ToGovernor(cfg, Arrived(s), Stamped(s, req)).Some?
    ensures var t, r := Step(cfg, s, Arrive(req), env), Stamped(s, req);
            && (Seats(s, t, r) <==> HasRoom(cfg, s.gov.tools, s.calls, req.name, req.who.agentId))
            && (Seats(s, t, r) ==> Goes(s, t, r, Parse(req.name).value, env))
  {
    var s1, r := Arrived(s), Stamped(s, req);
    var key := ToGovernor(cfg, s1, r).value;
    HandleCallIs(cfg, s1, r, env);
    AcquireSeats(cfg, s1, r, key, WaitDeadline(cfg, Str(key), env.now), ViaOf(s1, r, key), env);
    RoomIsCounted(cfg, s, req.name, req.who.agentId);
  }

  /** How long a call of this tool may wait: its own number if it has one, the default otherwise. */
  predicate WaitsFor(cfg: Config, ts: string, ms: nat) {
    ms == if ts in cfg.tools && cfg.tools[ts].queueWaitMs > 0 then cfg.tools[ts].queueWaitMs else cfg.queueWaitMs
  }

  lemma AcquireQueues(cfg: Config, s: St, req: Request, key: ToolKey, via: Via, env: Env, ms: nat)
    requires SameLimits(cfg, s.gov.tools) && WaitsFor(cfg, Str(key), ms)
    requires !CanTake(cfg, s.gov, Str(key), req.who.agentId)
    ensures var t := Acquire(cfg, s, req, key, WaitDeadline(cfg, Str(key), env.now), via, env);
            && t.calls == s.calls
            && (ms == 0 ==> t.gov == s.gov && t.log == s.log + [Replied(req, Throttled)])
            && (ms > 0 ==>
                  && t.log == s.log
                  && Queue(t.gov, Str(key))
                     == Queue(s.gov, Str(key)) + [Waiter(s.gov.nextWait, req, key, env.now + ms)])
  {
    AcquireWaits(cfg, s, req, key, WaitDeadline(cfg, Str(key), env.now), via, env);
  }

  lemma WaitingArrival(cfg: Config, s: St, req: Request, env: Env, ms: nat)
    requires LedgerOf(cfg, Idle(s, false)) && SameLimits(cfg, s.gov.tools)
    requires ToGovernor(cfg, Arrived(s), Stamped(s, req)).Some? && WaitsFor(cfg, req.name, ms)
    requires !HasRoom(cfg, s.gov.tools, s.calls, req.name, req.who.agentId)
    ensures var t, r := Step(cfg, s, Arrive(req), env), Stamped(s, req);
            && (ms == 0 ==> t.log == s.log + [Replied(r, Throttled)])
            && (ms > 0 ==>
                  && t.log == s.log && Parse(req.name).Some?
                  && Queue(t.gov, req.name) == Queue(s.gov, req.name)
                                              + [Waiter(s.gov.nextWait, r, Parse(req.name).value, env.now + ms)])
  {
    var s1, r := Arrived(s), Stamped(s, req);
    var key := ToGovernor(cfg, s1, r).value;
    HandleCallIs(cfg, s1, r, env);
    RoomIsCounted(cfg, s, req.name, req.who.agentId);
    AcquireQueues(cfg, s1, r, key, ViaOf(s1, r, key), env, ms);
  }

  /** One that finds no room waits at the end of its queue, for exactly the configured time, or is refused at once
      if that is zero. */
  lemma ArrivalWaits(cfg: Config, turns: seq<Turn>, req: Request, env: Env, ms: nat)
    requires ToGovernor(cfg, Arrived(Run(cfg, turns)), Stamped(Run(cfg, turns), req)).Some?
    requires WaitsFor(cfg, req.name, ms)
    requires var s := Run(cfg, turns); !HasRoom(cfg, s.gov.tools, s.calls, req.name, req.who.agentId)
    ensures var s := Run(cfg, turns);
            var t, r := Step(cfg, s, Arrive(req), env), Stamped(s, req);
            && (ms == 0 ==> t.log == s.log + [Replied(r, Throttled)])
            && (ms > 0 ==>
                  && t.log == s.log && Parse(req.name).Some?
                  && Queue(t.gov, req.name) == Queue(s.gov, req.name)
                                              + [Waiter(s.gov.nextWait, r, Parse(req.name).value, env.now + ms)])
  {
    RunInv(cfg, false, turns);
    WaitingArrival(cfg, Run(cfg, turns), req, env, ms);
  }

  // ------------------------------------------------------------------ waiters

  /** Whoever a pass lets have the slot could take it. */
  lemma {:induction false} OfferedCanTake(cfg: Config, g: Gov, slots: Circuit.Slots, env: Env, ts: string,
                                          q: seq<Waiter>, w: Waiter)
    requires w in Offer(cfg, g, slots, env, ts, q).Granted()
    ensures w in q && CanTake(cfg, g, ts, w.req.who.agentId)
  {
    var o := Offer(cfg, g, slots, env, ts, q);
    assert w in o.passedOn || o.kept == Some(w);
    if q != [] && CanTake(cfg, g, ts, q[0].req.who.agentId) && w != q[0] {
      OfferedCanTake(cfg, g, slots, env, ts, q[1..], w);
    }
  }

  /** The calls there are while an event hands out slots: without the one that ends. */
  function CallsDuring(s: St, e: Event): map<nat, Call> {
    if e.Drop? then s.calls - {e.id} else s.calls
  }

  /** Somebody with this request id, the newcomer or a waiter for the tool, for whom there is room. */
  predicate Entitled(cfg: Config, s: St, e: Event, ts: string, id: nat) {
    || (e.Arrive? && id == s.arrivals && e.req.name == ts
        && HasRoom(cfg, s.gov.tools, CallsDuring(s, e), ts, e.req.who.agentId))
    || exists w :: w in Queue(s.gov, ts) && w.req.id == id
                   && HasRoom(cfg, s.gov.tools, CallsDuring(s, e), ts, w.req.who.agentId)
  }

  ghost predicate GrantsEntitled(cfg: Config, s: St, t: St, e: Event, ts: string) {
    forall k :: |Granted(s.log, ts)| <= k < |Granted(t.log, ts)| ==> Entitled(cfg, s, e, ts, Granted(t.log, ts)[k])
  }

  lemma PassEntitled(cfg: Config, g: Gov, s: St, t: St, e: Event, env: Env, ts: string, ids: seq<nat>)
    requires Granted(t.log, ts)
          == Granted(s.log, ts) + (ids + Ids(Offer(cfg, g, s.slots, env, ts, Queue(s.gov, ts)).Granted()))
    requires forall i :: 0 <= i < |ids| ==> Entitled(cfg, s, e, ts, ids[i])
    requires forall agent :: CanTake(cfg, g, ts, agent) ==> HasRoom(cfg, s.gov.tools, CallsDuring(s, e), ts, agent)
    ensures GrantsEntitled(cfg, s, t, e, ts)
  {
    var q := Queue(s.gov, ts);
    var o := Offer(cfg, g, s.slots, env, ts, q);
    forall k | |Granted(s.log, ts)| <= k < |Granted(t.log, ts)| ensures Entitled(cfg, s, e, ts, Granted(t.log, ts)[k]) {
      var i := k - |Granted(s.log, ts)| - |ids|;
      if i >= 0 {
        var w := o.Granted()[i];
        OfferedCanTake(cfg, g, s.slots, env, ts, q, w);
        assert Granted(t.log, ts)[k] == w.req.id;
      } else {
        assert Granted(t.log, ts)[k] == ids[k - |Granted(s.log, ts)|];
      }
    }
  }

  /** With the ended call's slot back, the counters are those of the calls that remain. */
  lemma EndedRoom(cfg: Config, s: St, id: nat, ts: string, agent: string)
    requires LedgerOf(cfg, Idle(s, false)) && id in s.calls
    ensures var c := s.calls[id];
            CanTake(cfg, Engine.GiveBack(s.gov, Str(c.key), c.req.who.agentId), ts, agent)
            <==> HasRoom(cfg, s.gov.tools, s.calls - {id}, ts, agent)
  {
    CountersAreCalls(cfg, s, ts, agent);
    CallIsCounted(cfg, s, id);
    CallsOnWithout(s.calls, id, ts);
    CallsOfWithout(s.calls, id, agent);
  }

  lemma DropEntitled(cfg: Config, s: St, id: nat, env: Env, ts: string)
    requires LedgerOf(cfg, Idle(s, false)) && Keyed(false, s.gov.queues) && Discipline(cfg, false, s.calls)
    requires Enabled(s, Drop(id))
    ensures GrantsEntitled(cfg, s, Step(cfg, s, Drop(id), env), Drop(id), ts)
  {
    var c := s.calls[id];
    var g := Engine.GiveBack(s.gov, Str(c.key), c.req.who.agentId);
    DropPass(cfg, s, id, env, ts);
    if ts == Str(c.key) {
      forall agent
        ensures CanTake(cfg, g, ts, agent) ==> HasRoom(cfg, s.gov.tools, CallsDuring(s, Drop(id)), ts, agent)
      {
        EndedRoom(cfg, s, id, ts, agent);
      }
      assert [] + Ids(DropOffer(cfg, s, c, env).Granted()) == Ids(DropOffer(cfg, s, c, env).Granted());
      PassEntitled(cfg, g, s, Step(cfg, s, Drop(id), env), Drop(id), env, ts, []);
    }
  }

  lemma NewcomerEntitled(cfg: Config, s: St, t: St, e: Event, env: Env, ts: string)
    requires LedgerOf(cfg, Idle(s, false)) && e.Arrive?
    requires Granted(t.log, ts) != Granted(s.log, ts) ==>
               ts == e.req.name && HasRoom(cfg, s.gov.tools, s.calls, ts, e.req.who.agentId)
    requires var served := Ids(Offer(cfg, s.gov, s.slots, env, ts, Queue(s.gov, ts)).Granted());
             || Granted(t.log, ts) == Granted(s.log, ts)
             || Granted(t.log, ts) == Granted(s.log, ts) + [s.arrivals]
             || Granted(t.log, ts) == Granted(s.log, ts) + ([s.arrivals] + served)
    ensures GrantsEntitled(cfg, s, t, e, ts)
  {
    if Granted(t.log, ts) != Granted(s.log, ts) && Granted(t.log, ts) != Granted(s.log, ts) + [s.arrivals] {
      forall agent ensures CanTake(cfg, s.gov, ts, agent) ==> HasRoom(cfg, s.gov.tools, CallsDuring(s, e), ts, agent) {
        RoomIsCounted(cfg, s, ts, agent);
      }
      PassEntitled(cfg, s.gov, s, t, e, env, ts, [s.arrivals]);
    }
  }

  lemma ArriveEntitled(cfg: Config, s: St, e: Event, env: Env, ts: string)
    requires LedgerOf(cfg, Idle(s, false)) && Sane(s)
    requires e.Arrive? && ToGovernor(cfg, Arrived(s), Stamped(s, e.req)).Some?
    ensures GrantsEntitled(cfg, s, Step(cfg, s, e, env), e, ts)
  {
    var s1, r := Arrived(s), Stamped(s, e.req);
    var key := ToGovernor(cfg, s1, r).value;
    HandleCallIs(cfg, s1, r, env);
    AcquireGrants(cfg, s1, r, key, WaitDeadline(cfg, Str(key), env.now), ViaOf(s1, r, key), env, ts);
    RoomIsCounted(cfg, s, e.req.name, e.req.who.agentId);
    NewcomerEntitled(cfg, s, Step(cfg, s, e, env), e, env, ts);
  }

  lemma OthersGrantNone(cfg: Config, s: St, e: Event, env: Env, ts: string)
    requires Inv(cfg, Idle(s, false))
    requires e.Arrive? ==> ToGovernor(cfg, Arrived(s), Stamped(s, e.req)).None?
    requires e.Drop? ==> !Enabled(s, e)
    ensures GrantsEntitled(cfg, s, Step(cfg, s, e, env), e, ts)
  {
    UneventfulTurn(cfg, s, e, env, ts);
  }

  /** Whoever gets a slot in a turn of a run, nested releases included, gets it while the calls that run, without
      the one that ends in this turn, leave room for it under the limits of the tool and of its agent. */
  lemma GrantsWithinLimits(cfg: Config, turns: seq<Turn>, e: Event, env: Env, ts: string)
    ensures var s := Run(cfg, turns); GrantsEntitled(cfg, s, Step(cfg, s, e, env), e, ts)
  {
    var s := Run(cfg, turns);
    RunInv(cfg, false, turns);
    if e.Arrive? && ToGovernor(cfg, Arrived(s), Stamped(s, e.req)).Some? {
      CountersOf(cfg, s);
      ArriveEntitled(cfg, s, e, env, ts);
    } else if e.Drop? && Enabled(s, e) {
      DropEntitled(cfg, s, e.id, env, ts);
    } else {
      OthersGrantNone(cfg, s, e, env, ts);
    }
  }

  // ------------------------------------------------------------------ a limit that stands

  /** At this moment the tool may have up to `limit` calls. */
  predicate LimitIs(cfg: Config, tools: map<string, ToolCfg>, ts: string, limit: int) {
    limit == if ts in tools && tools[ts].status == Active && tools[ts].maxConcurrency > 0
             then tools[ts].maxConcurrency else cfg.perTool
  }

  const STANDING: set<Kind> := ALL - {Limits}

  ghost predicate KeepsLimit(cfg: Config, g: Gov, h: Gov, ts: string, limit: int) {
    && h.tools == g.tools
    && (LimitIs(cfg, g.tools, ts, limit) && Get(g.toolUse, ts) <= Max(0, limit) ==> Get(h.toolUse, ts) <= Max(0, limit))
  }

  lemma KeepsLimitOne(cfg: Config, m: Mach, v: Move, ts: string, limit: int)
    requires Valid(cfg, m, v) && KindOf(v) in STANDING
    ensures KeepsLimit(cfg, m.s.gov, GovAfter(cfg, m, v), ts, limit)
  {
  }

  lemma KeepsLimitClosed(cfg: Config, ts: string, limit: int)
    ensures Closed(cfg, (m: Mach, n: Mach) => KeepsLimit(cfg, m.s.gov, n.s.gov, ts, limit), STANDING)
  {
    forall m, v | Valid(cfg, m, v) && KindOf(v) in STANDING
      ensures KeepsLimit(cfg, m.s.gov, Do(cfg, m, v).s.gov, ts, limit)
    {
      KeepsLimitOne(cfg, m, v, ts, limit);
    }
  }

  lemma LimitTurn(cfg: Config, s: St, e: Event, env: Env, ts: string, limit: int)
    requires Inv(cfg, Idle(s, false)) && LimitIs(cfg, s.gov.tools, ts, limit) && Get(s.gov.toolUse, ts) <= Max(0, limit)
    ensures Get(Step(cfg, s, e, env).gov.toolUse, ts) <= Max(0, limit)
  {
    if !e.ToolsListed? {
      var R := (m: Mach, n: Mach) => KeepsLimit(cfg, m.s.gov, n.s.gov, ts, limit);
      KeepsLimitClosed(cfg, ts, limit);
      StandingKinds(cfg, s, e);
      StepTurn(cfg, R, STANDING, false, s, e, env);
      assert R(Idle(s, false), Idle(Step(cfg, s, e, env), false));
    }
  }

  lemma StandingKinds(cfg: Config, s: St, e: Event)
    requires !e.ToolsListed?
    ensures TurnKinds(cfg, s, e) <= STANDING
  {
  }

  ghost predicate Stands(cfg: Config, turns: seq<Turn>, ts: string, limit: int) {
    forall n: nat :: n <= |turns| ==> LimitIs(cfg, After(cfg, turns, n).gov.tools, ts, limit)
  }

  lemma StandsFront(cfg: Config, turns: seq<Turn>, ts: string, limit: int)
    requires Stands(cfg, turns, ts, limit) && turns != []
    ensures Stands(cfg, turns[..|turns| - 1], ts, limit)
    ensures LimitIs(cfg, After(cfg, turns, |turns| - 1).gov.tools, ts, limit)
  {
    var k := |turns| - 1;
    forall n: nat | n <= k ensures After(cfg, turns[..k], n) == After(cfg, turns, n) { AfterFront(cfg, turns, k, n); }
  }

  lemma {:induction false} UseWithin(cfg: Config, turns: seq<Turn>, ts: string, limit: int)
    requires Stands(cfg, turns, ts, limit)
    ensures Get(Run(cfg, turns).gov.toolUse, ts) <= Max(0, limit)
    decreases |turns|
  {
    if turns != [] {
      var k := |turns| - 1;
      StandsFront(cfg, turns, ts, limit);
      UseWithin(cfg, turns[..k], ts, limit);
      AfterStep(cfg, turns);
      LimitTurn(cfg, After(cfg, turns, k), turns[k].event, turns[k].env, ts, limit);
    }
  }

  /** In a run through which the limit of a tool stands, its own while it is validated or the default, its calls
      never exceed it, even when the default is larger. */
  lemma OwnLimitHolds(cfg: Config, turns: seq<Turn>, ts: string, limit: int)
    requires forall n: nat :: n <= |turns| ==> LimitIs(cfg, After(cfg, turns, n).gov.tools, ts, limit)
    ensures |CallsOn(Run(cfg, turns).calls, ts)| <= Max(0, limit)
  {
    UseWithin(cfg, turns, ts, limit);
    RunInv(cfg, false, turns);
    CountersAreCalls(cfg, Run(cfg, turns), ts, "");
  }

  // ------------------------------------------------------------------ listings

  /** A listing validates the configured tools of its own backend that it names, invalidates the others of that
      backend, and leaves all that belongs to other backends, and every number, as they were. */
  lemma ListingValidates(cfg: Config, s: St, backend: string, tools: set<string>, env: Env, key: ToolKey)
    requires Addressable(key.backend) && key.tool != "" && Str(key) in s.gov.tools
    ensures var was, h := s.gov.tools[Str(key)], Step(cfg, s, ToolsListed(backend, tools), env).gov.tools;
            && Str(key) in h
            && h[Str(key)].maxConcurrency == was.maxConcurrency && h[Str(key)].queueWaitMs == was.queueWaitMs
            && h[Str(key)].status == if key.backend != backend then was.status
                                     else if key.tool in tools then Active else Invalid
  {
    ParseStr(key);
  }
}
