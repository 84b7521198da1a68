/** What one turn can have caused: where a slot, an overwritten mapping and a handle come from. */
module EngineCauses {
  import opened Options
  import opened ToolKeys
  import opened Access
  import opened Engine
  import opened EngineInvariant
  import opened EngineMoves
  import opened EngineKeeps
  import opened EngineTurns
  import opened EngineOffer
  import opened EngineFifo
  import EngineHistory
  import Circuit
  import InFlightTable

  // ------------------------------------------------------------------ turns that start nothing

  lemma UngrantedInserts(cfg: Config, m: Mach, v: Move)
    requires Valid(cfg, m, v) && KindOf(v) in UNGRANTED
    ensures Inserts(LogAfter(cfg, m, v)) == Inserts(m.s.log)
  {
    if v.Finish? {
      InsertPush(m.s.log, Returned(v.id, v.klass));
      InsertPush(m.s.log + [Returned(v.id, v.klass)], Replied(m.s.calls[v.id].req, Result(v.klass, v.isError)));
    } else if v.FireAgain? {
      InsertPush(m.s.log, Returned(v.id, v.klass));
      InsertPush(m.s.log + [Returned(v.id, v.klass)], Fired(v.id, m.s.calls[v.id].req));
    } else if LogAfter(cfg, m, v) != m.s.log {
      var a := LogAfter(cfg, m, v)[|m.s.log|];
      assert LogAfter(cfg, m, v) == m.s.log + [a];
      InsertPush(m.s.log, a);
    }
  }

  /** Neither a slot of the tool nor an insert. */
  ghost predicate Uneventful(s: St, t: St, ts: string) {
    Inserts(t.log) == Inserts(s.log) && Granted(t.log, ts) == Granted(s.log, ts)
  }

  lemma UneventfulClosed(cfg: Config, ts: string)
    ensures Closed(cfg, (m: Mach, n: Mach) => Uneventful(m.s, n.s, ts), UNGRANTED)
  {
    forall m, v | Valid(cfg, m, v) && KindOf(v) in UNGRANTED ensures Uneventful(m.s, Do(cfg, m, v).s, ts) {
      UngrantedInserts(cfg, m, v);
      UngrantedLog(cfg, m, v, ts);
    }
  }

  lemma UngrantedUneventful(cfg: Config, s: St, e: Event, env: Env, ts: string)
    requires Inv(cfg, Idle(s, false)) && TurnKinds(cfg, s, e) <= UNGRANTED
    ensures Uneventful(s, Step(cfg, s, e, env), ts)
  {
    var R := (m: Mach, n: Mach) => Uneventful(m.s, n.s, ts);
    UneventfulClosed(cfg, ts);
    StepTurn(cfg, R, UNGRANTED, false, s, e, env);
    assert R(Idle(s, false), Idle(Step(cfg, s, e, env), false));
  }

  lemma ListedUneventful(cfg: Config, s: St, e: Event, env: Env, ts: string)
    requires e.ToolsListed?
    ensures Uneventful(s, Step(cfg, s, e, env), ts)
  {
  }

  lemma UneventfulTurn(cfg: Config, s: St, e: Event, env: Env, ts: string)
    requires Inv(cfg, Idle(s, false)) && (TurnKinds(cfg, s, e) <= UNGRANTED || e.ToolsListed?)
    ensures Uneventful(s, Step(cfg, s, e, env), ts)
  {
    if e.ToolsListed? {
      ListedUneventful(cfg, s, e, env, ts);
    } else {
      UngrantedUneventful(cfg, s, e, env, ts);
    }
  }

  // ------------------------------------------------------------------ where an insert comes from

  /** The tool whose slot an event asks for or gives back. */
  function SlotTool(s: St, e: Event): string {
    if e.Arrive? then e.req.name
    else if e.Drop? && e.id in s.calls then Str(s.calls[e.id].key)
    else ""
  }

  /** The request of this arrival, whose key was not mapped. */
  predicate FromArrival(s: St, e: Event, a: Action) {
    && e.Arrive? && a.Inserted? && a.req == Stamped(s, e.req) && a.via.Direct?
    && !a.overwrote && a.mapKey !in s.inflight.keyToId
  }

  /** The request of this arrival, whose token is the id that was mapped for its key. */
  predicate FromToken(s: St, e: Event, a: Action) {
    && e.Arrive? && a.Inserted? && a.req == Stamped(s, e.req) && a.via.Confirmed?
    && a.mapKey in s.inflight.keyToId && e.req.confirm == Some(s.inflight.keyToId[a.mapKey])
  }

  /** The request of a waiter of the tool the event is about, with that key, and with time left. */
  predicate FromQueue(s: St, e: Event, a: Action, now: nat) {
    && a.Inserted? && a.via.Queued?
    && exists w :: w in Queue(s.gov, SlotTool(s, e)) && w.req == a.req && KeyFor(w.req, w.key) == a.mapKey
                   && now < w.deadline
  }

  predicate HasCause(s: St, e: Event, a: Action, now: nat) {
    FromArrival(s, e, a) || FromToken(s, e, a) || FromQueue(s, e, a, now)
  }

  /** At most one insert was added, and it has its cause. */
  ghost predicate StartsOne(s: St, t: St, e: Event, now: nat) {
    || Inserts(t.log) == Inserts(s.log)
    || (&& |Inserts(t.log)| == |Inserts(s.log)| + 1 && Inserts(s.log) <= Inserts(t.log)
        && HasCause(s, e, Inserts(t.log)[|Inserts(s.log)|], now))
  }

  /** The one insert of a pass is that of a waiter in time. */
  lemma PassStarts(cfg: Config, g: Gov, s: St, u: St, t: St, e: Event, env: Env, ts: string)
    requires ts == SlotTool(s, e)
    requires Inserts(t.log) == Inserts(s.log) + Starts(u, Offer(cfg, g, s.slots, env, ts, Queue(s.gov, ts)))
    ensures StartsOne(s, t, e, env.now)
  {
    var o := Offer(cfg, g, s.slots, env, ts, Queue(s.gov, ts));
    if o.kept.Some? {
      var w := o.kept.value;
      OfferedInTime(cfg, g, s.slots, env, ts, Queue(s.gov, ts), w);
      assert FromQueue(s, e, Insertion(u, w.req, w.key, Queued), env.now);
    }
  }

  lemma DropStarts(cfg: Config, s: St, id: nat, env: Env)
    requires LedgerOf(cfg, Idle(s, false)) && Keyed(false, s.gov.queues) && Discipline(cfg, false, s.calls)
    requires Enabled(s, Drop(id))
    ensures StartsOne(s, Step(cfg, s, Drop(id), env), Drop(id), env.now)
  {
    var c := s.calls[id];
    DropPass(cfg, s, id, env, Str(c.key));
    PassStarts(cfg, Engine.GiveBack(s.gov, Str(c.key), c.req.who.agentId), s, Ended(s, id),
               Step(cfg, s, Drop(id), env), Drop(id), env, Str(c.key));
  }

  /** An unmapped key is Direct, and a mapped one was confirmed with the mapped id. */
  lemma OwnInsert(cfg: Config, s: St, e: Event, key: ToolKey)
    requires InFlightTable.Sound(s.inflight) && e.Arrive?
    requires ToGovernor(cfg, Arrived(s), Stamped(s, e.req)) == Some(key)
    ensures var r := Stamped(s, e.req);
            var a := Insertion(Arrived(s), r, key, ViaOf(Arrived(s), r, key));
            FromArrival(s, e, a) || FromToken(s, e, a)
  {
  }

  lemma AcquireStarts(cfg: Config, s: St, req: Request, key: ToolKey, wait: nat, via: Via, env: Env)
    requires Sane(s)
    ensures var t := Acquire(cfg, s, req, key, wait, via, env);
            || Inserts(t.log) == Inserts(s.log)
            || Inserts(t.log) == Inserts(s.log) + [Insertion(s, req, key, via)]
            || Inserts(t.log) == Inserts(s.log) + Starts(s, OfferTo(cfg, s, Str(key), env))
  {
    if CanTake(cfg, s.gov, Str(key), req.who.agentId) {
      SeatedIs(cfg, s, Str(key), req, key, via, env);
      if Unavailable(s.slots, key.backend, env) {
        TurnedAwayPass(cfg, s, req, key, env, Str(key));
      } else {
        EnteredLogs(s, Str(key), req, key, via, env.now);
      }
    } else {
      AcquireWaits(cfg, s, req, key, wait, via, env);
      InsertPush(s.log, Replied(req, Throttled));
    }
  }

  lemma ArriveStarts(cfg: Config, s: St, e: Event, env: Env)
    requires Sane(s) && InFlightTable.Sound(s.inflight)
    requires e.Arrive? && ToGovernor(cfg, Arrived(s), Stamped(s, e.req)).Some?
    ensures StartsOne(s, Step(cfg, s, e, env), e, env.now)
  {
    var s1, r, t := Arrived(s), Stamped(s, e.req), Step(cfg, s, e, env);
    var key := ToGovernor(cfg, s1, r).value;
    HandleCallIs(cfg, s1, r, env);
    AcquireStarts(cfg, s1, r, key, WaitDeadline(cfg, Str(key), env.now), ViaOf(s1, r, key), env);
    OwnInsert(cfg, s, e, key);
    if Inserts(t.log) == Inserts(s.log) + Starts(s1, OfferTo(cfg, s1, Str(key), env)) {
      PassStarts(cfg, s.gov, s, s1, t, e, env, Str(key));
    }
  }

  /** A turn inserts at most one entry into the in-flight table: for its own arrival, with an unmapped key or
      with the token of the mapped call, or for somebody who waited for a slot of the tool it is about. */
  lemma StepStarts(cfg: Config, s: St, e: Event, env: Env)
    requires Inv(cfg, Idle(s, false))
    ensures StartsOne(s, Step(cfg, s, e, env), e, env.now)
  {
    if e.Arrive? && ToGovernor(cfg, Arrived(s), Stamped(s, e.req)).Some? {
      CountersOf(cfg, s);
      ArriveStarts(cfg, s, e, env);
    } else if e.Drop? && Enabled(s, e) {
      DropStarts(cfg, s, e.id, env);
    } else {
      UneventfulTurn(cfg, s, e, env, "");
    }
  }

  lemma {:induction false} InsertsOfLog(log: seq<Action>, a: Action)
    ensures a in Inserts(log) <==> a in log && a.Inserted?
  {
    if log != [] {
      InsertsOfLog(log[..|log| - 1], a);
      assert log == log[..|log| - 1] + [log[|log| - 1]];
    }
  }

  /** Turn n of the run put this insert on record. */
  predicate LoggedAt(cfg: Config, turns: seq<Turn>, n: nat, a: Action) {
    && n < |turns|
    && a !in Inserts(After(cfg, turns, n).log) && a in Inserts(After(cfg, turns, n + 1).log)
  }

  /** And it had its cause there. */
  predicate CausedAt(cfg: Config, turns: seq<Turn>, n: nat, a: Action) {
    LoggedAt(cfg, turns, n, a) && HasCause(After(cfg, turns, n), turns[n].event, a, turns[n].env.now)
  }

  lemma NewInsert(s: St, t: St, e: Event, now: nat, a: Action)
    requires StartsOne(s, t, e, now) && a in Inserts(t.log) && a !in Inserts(s.log)
    ensures HasCause(s, e, a, now)
  {
    var was, became := Inserts(s.log), Inserts(t.log);
    assert forall i :: 0 <= i < |was| ==> became[i] == was[i] && was[i] in was;
    var i :| 0 <= i < |became| && became[i] == a;
  }

  lemma CausedLater(cfg: Config, turns: seq<Turn>, k: nat, n: nat, a: Action)
    requires k <= |turns| && CausedAt(cfg, turns[..k], n, a)
    ensures CausedAt(cfg, turns, n, a)
  {
    AfterFront(cfg, turns, k, n);
    AfterFront(cfg, turns, k, n + 1);
  }

  /** Every insert of every run has its cause in the turn of the run that put it on record. */
  lemma {:induction false} InsertHasCause(cfg: Config, turns: seq<Turn>, a: Action) returns (n: nat)
    requires a in Inserts(Run(cfg, turns).log)
    ensures CausedAt(cfg, turns, n, a)
    decreases |turns|
  {
    if turns == [] {
      assert false;
    } else {
      n := |turns| - 1;
      var s := After(cfg, turns, n);
      AfterStep(cfg, turns);
      if a in Inserts(s.log) {
        var k := n;
        n := InsertHasCause(cfg, turns[..k], a);
        CausedLater(cfg, turns, k, n, a);
      } else {
        StepStarts(cfg, s, turns[n].event, turns[n].env);
        NewInsert(s, Run(cfg, turns), turns[n].event, turns[n].env.now, a);
      }
    }
  }

  /** Turn n put it on record for an arrival with the mapped call's own token, or for a waiter. */
  predicate OverwrittenAt(cfg: Config, turns: seq<Turn>, n: nat, a: Action) {
    && LoggedAt(cfg, turns, n, a)
    && var s, turn := After(cfg, turns, n), turns[n];
    FromToken(s, turn.event, a) || FromQueue(s, turn.event, a, turn.env.now)
  }

  /** Every overwrite of a mapping, in every run, was for a request that in the turn that logged it either
      arrived with the mapped call's own token, or stood in the queue of the tool the turn was about. */
  lemma OverwriteHasCause(cfg: Config, turns: seq<Turn>, a: Action)
    requires a in Run(cfg, turns).log && a.Inserted? && a.overwrote
    ensures exists n: nat :: OverwrittenAt(cfg, turns, n, a)
  {
    InsertsOfLog(Run(cfg, turns).log, a);
    var n := InsertHasCause(cfg, turns, a);
    assert OverwrittenAt(cfg, turns, n, a);
  }

  // ------------------------------------------------------------------ in time

  /** Some waiter in the queue has this id, and time left at `now`. */
  predicate InTime(q: seq<Waiter>, id: nat, now: nat) {
    exists w :: w in q && w.req.id == id && now < w.deadline
  }

  /** Everyone a pass serves is in time. */
  lemma PassInTime(cfg: Config, g: Gov, slots: Circuit.Slots, env: Env, ts: string, q: seq<Waiter>, k: nat)
    requires k < |Ids(Offer(cfg, g, slots, env, ts, q).Granted())|
    ensures InTime(q, Ids(Offer(cfg, g, slots, env, ts, q).Granted())[k], env.now)
  {
    var w := Offer(cfg, g, slots, env, ts, q).Granted()[k];
    OfferedInTime(cfg, g, slots, env, ts, q, w);
    assert w in q && env.now < w.deadline;
  }

  /** All new grants of the tool are for the newcomer, or for waiters in time. */
  ghost predicate FairGrants(s: St, t: St, e: Event, now: nat, ts: string) {
    && Granted(s.log, ts) <= Granted(t.log, ts)
    && forall k :: |Granted(s.log, ts)| <= k < |Granted(t.log, ts)| ==>
         (e.Arrive? && e.req.name == ts && Granted(t.log, ts)[k] == s.arrivals)
         || (ts == SlotTool(s, e) && InTime(Queue(s.gov, ts), Granted(t.log, ts)[k], now))
  }

  lemma PassGrants(cfg: Config, g: Gov, s: St, t: St, e: Event, env: Env, ts: string, ids: seq<nat>)
    requires ts == SlotTool(s, e) && (ids == [] || (e.Arrive? && ids == [s.arrivals]))
    requires Granted(t.log, ts)
          == Granted(s.log, ts) + (ids + Ids(Offer(cfg, g, s.slots, env, ts, Queue(s.gov, ts)).Granted()))
    ensures FairGrants(s, t, e, env.now, ts)
  {
    var served := Ids(Offer(cfg, g, s.slots, env, ts, Queue(s.gov, ts)).Granted());
    forall k | |Granted(s.log, ts)| <= k < |Granted(t.log, ts)|
      ensures (e.Arrive? && e.req.name == ts && Granted(t.log, ts)[k] == s.arrivals)
           || InTime(Queue(s.gov, ts), Granted(t.log, ts)[k], env.now)
    {
      var i := k - |Granted(s.log, ts)| - |ids|;
      if i >= 0 { PassInTime(cfg, g, s.slots, env, ts, Queue(s.gov, ts), i); }
    }
  }

  lemma DropGrants(cfg: Config, s: St, id: nat, env: Env, ts: string)
    requires LedgerOf(cfg, Idle(s, false)) && Keyed(false, s.gov.queues) && Discipline(cfg, false, s.calls)
    requires Enabled(s, Drop(id))
    ensures FairGrants(s, Step(cfg, s, Drop(id), env), Drop(id), env.now, ts)
  {
    var c := s.calls[id];
    DropPass(cfg, s, id, env, ts);
    if ts == Str(c.key) {
      assert [] + Ids(DropOffer(cfg, s, c, env).Granted()) == Ids(DropOffer(cfg, s, c, env).Granted());
      PassGrants(cfg, Engine.GiveBack(s.gov, Str(c.key), c.req.who.agentId), s, Step(cfg, s, Drop(id), env),
                 Drop(id), env, ts, []);
    }
  }

  lemma AcquireGrants(cfg: Config, s: St, req: Request, key: ToolKey, wait: nat, via: Via, env: Env, ts: string)
    requires Sane(s)
    ensures var t := Acquire(cfg, s, req, key, wait, via, env);
            || Granted(t.log, ts) == Granted(s.log, ts)
            || (ts == Str(key) && CanTake(cfg, s.gov, ts, req.who.agentId)
                && (Granted(t.log, ts) == Granted(s.log, ts) + [req.id]
                    || Granted(t.log, ts) == Granted(s.log, ts) + ([req.id] + Ids(OfferTo(cfg, s, ts, env).Granted()))))
  {
    if CanTake(cfg, s.gov, Str(key), req.who.agentId) {
      SeatedIs(cfg, s, Str(key), req, key, via, env);
      if Unavailable(s.slots, key.backend, env) {
        TurnedAwayPass(cfg, s, req, key, env, ts);
      } else {
        EnteredLogs(s, Str(key), req, key, via, env.now);
      }
    } else {
      AcquireWaits(cfg, s, req, key, wait, via, env);
      SilentPush(s.log, Replied(req, Throttled), ts);
    }
  }

  lemma ArriveGrants(cfg: Config, s: St, e: Event, env: Env, ts: string)
    requires Sane(s) && e.Arrive? && ToGovernor(cfg, Arrived(s), Stamped(s, e.req)).Some?
    ensures FairGrants(s, Step(cfg, s, e, env), e, env.now, ts)
  {
    var s1, r, t := Arrived(s), Stamped(s, e.req), Step(cfg, s, e, env);
    var key := ToGovernor(cfg, s1, r).value;
    HandleCallIs(cfg, s1, r, env);
    AcquireGrants(cfg, s1, r, key, WaitDeadline(cfg, Str(key), env.now), ViaOf(s1, r, key), env, ts);
    var served := Ids(OfferTo(cfg, s1, ts, env).Granted());
    if ts == Str(key) && Granted(t.log, ts) == Granted(s.log, ts) + ([r.id] + served) {
      PassGrants(cfg, s.gov, s, t, e, env, ts, [r.id]);
    }
  }

  /** A slot only ever goes to the newcomer that asks for it, or to a waiter of its own tool whose time has
      not run out, even if its timer has yet to fire. */
  lemma GrantedInTime(cfg: Config, turns: seq<Turn>, e: Event, env: Env, ts: string)
    ensures FairGrants(Run(cfg, turns), Step(cfg, Run(cfg, turns), e, env), e, env.now, ts)
  {
    var s := Run(cfg, turns);
    RunInv(cfg, false, turns);
    if e.Arrive? && ToGovernor(cfg, Arrived(s), Stamped(s, e.req)).Some? {
      CountersOf(cfg, s);
      ArriveGrants(cfg, s, e, env, ts);
    } else if e.Drop? && Enabled(s, e) {
      DropGrants(cfg, s, e.id, env, ts);
    } else {
      UneventfulTurn(cfg, s, e, env, ts);
    }
  }

  // ------------------------------------------------------------------ handles

  /** Handles given out so far. */
  function Handles(log: seq<Action>): nat {
    if log == [] then 0
    else Handles(log[..|log| - 1]) + if HandsOut(log[|log| - 1]) then 1 else 0
  }

  lemma HandlePush(log: seq<Action>, a: Action)
    ensures Handles(log + [a]) == Handles(log) + if HandsOut(a) then 1 else 0
  {
    assert (log + [a])[..|log|] == log;
  }

  const UNHANDED: set<Kind> := ALL - {Hand}

  predicate NoHandle(s: St, t: St) { Handles(t.log) == Handles(s.log) }

  lemma UnhandedLog(cfg: Config, m: Mach, v: Move)
    requires Valid(cfg, m, v) && KindOf(v) in UNHANDED
    ensures Handles(LogAfter(cfg, m, v)) == Handles(m.s.log)
  {
    var log := LogAfter(cfg, m, v);
    if |log| == |m.s.log| + 1 {
      assert log == m.s.log + [log[|m.s.log|]];
      HandlePush(m.s.log, log[|m.s.log|]);
    } else if log != m.s.log {
      var a, b := log[|m.s.log|], log[|m.s.log| + 1];
      assert log == m.s.log + [a] + [b];
      HandlePush(m.s.log, a);
      HandlePush(m.s.log + [a], b);
    }
  }

  lemma NoHandleClosed(cfg: Config)
    ensures Closed(cfg, (m: Mach, n: Mach) => NoHandle(m.s, n.s), UNHANDED)
  {
    forall m, v | Valid(cfg, m, v) && KindOf(v) in UNHANDED ensures NoHandle(m.s, Do(cfg, m, v).s) {
      UnhandedLog(cfg, m, v);
    }
  }

  /** Releases, refusals, cancels and answers hand out nothing. */
  lemma UnhandedTurn(cfg: Config, s: St, e: Event, env: Env)
    requires Inv(cfg, Idle(s, false)) && TurnKinds(cfg, s, e) <= UNHANDED
    ensures NoHandle(s, Step(cfg, s, e, env))
  {
    var R := (m: Mach, n: Mach) => NoHandle(m.s, n.s);
    NoHandleClosed(cfg);
    StepTurn(cfg, R, UNHANDED, false, s, e, env);
    assert R(Idle(s, false), Idle(Step(cfg, s, e, env), false));
  }

  /** A handle is given out exactly when its task is in the store, and as the store has it. */
  lemma HandOutIsStored(s: St, req: Request, id: nat, tid: nat, now: nat)
    ensures var t := HandOut(s, req, id, tid, now);
            && t.log == s.log + [Replied(req, if tid in t.tasks then Handle(id, tid, t.tasks[tid]) else TaskNotFound)]
            && Handles(t.log) == Handles(s.log) + if tid in t.tasks then 1 else 0
  {
    var t := HandOut(s, req, id, tid, now);
    HandlePush(s.log, t.log[|s.log|]);
  }

  /** The last entry of the log is a handle to a task that the store holds. */
  predicate GaveHandle(t: St) {
    && t.log != [] && HandsOut(t.log[|t.log| - 1])
    && var r := t.log[|t.log| - 1].reply;
    r.taskId in t.tasks && t.tasks[r.taskId] == r.task
  }

  /** A part of a turn gave at most one handle, as the last thing it did, for a stored task. */
  predicate HandsFairly(s: St, t: St) {
    Handles(t.log) == Handles(s.log) || (Handles(t.log) == Handles(s.log) + 1 && GaveHandle(t))
  }

  lemma AnswerFair(s: St, req: Request, reply: Reply)
    requires !reply.Handle?
    ensures HandsFairly(s, Answer(s, req, reply))
  {
    HandlePush(s.log, Replied(req, reply));
  }

  lemma HandOutFair(s: St, req: Request, id: nat, tid: nat, now: nat)
    ensures HandsFairly(s, HandOut(s, req, id, tid, now))
  {
    HandOutIsStored(s, req, id, tid, now);
  }

  lemma DuplicateFair(cfg: Config, s: St, req: Request, hit: InFlightTable.Entry, env: Env)
    ensures HandsFairly(s, OnDuplicate(cfg, s, req, hit, env))
  {
    var orig := hit.id in s.live && hit.id in s.calls;
    var known := if hit.taskId.Some? then hit.taskId else if orig then s.calls[hit.id].taskId else None;
    if !req.tasksCap {
      AnswerFair(s, req, StillRunning(hit.id));
    } else if known.Some? {
      HandOutFair(s, req, hit.id, known.value, env.now);
    } else {
      var tid := s.nextId;
      var s1 := AddTask(cfg, s, Engine.NewTask(cfg, req.who.agentId, hit.key, hit.startedAt, env.now), env.now);
      AnswerFair(s1, req, TaskStoreFull);
      if orig { HandOutFair(AttachTask(s1, hit.id, tid), req, hit.id, tid, env.now); }
      HandOutFair(s1.(inflight := InFlightTable.SetTaskId(s1.inflight, hit.id, tid)), req, hit.id, tid, env.now);
    }
  }

  /** The arrivals that do not go to the governor. */
  lemma AnsweredFair(cfg: Config, s: St, req: Request, env: Env)
    requires ToGovernor(cfg, s, req).None?
    ensures HandsFairly(s, HandleCall(cfg, s, req, env))
  {
    var parsed := Parse(req.name);
    if parsed.None? || !Authorize(cfg.catalog, req.who, parsed.value).Allow? || parsed.value.backend == BUILTIN {
      AnswerFair(s, req, UnknownTool);
      AnswerFair(s, req, NotAllowed);
      AnswerFair(s, req, BuiltinResult);
    } else {
      var hit := InFlightTable.Lookup(s.inflight, req.who.agentId, Str(parsed.value), req.hash);
      AnswerFair(s, req, Draining);
      if hit.Some? { DuplicateFair(cfg, s, req, hit.value, env); }
    }
  }

  lemma RespondFair(s: St, id: nat, reply: Reply)
    requires id in s.calls && !reply.Handle?
    ensures HandsFairly(s, Engine.Respond(s, id, reply))
  {
    AnswerFair(s, s.calls[id].req, reply);
  }

  lemma PromoteToFair(s: St, id: nat, tid: nat, now: nat)
    requires id in s.calls && !s.calls[id].responded
    ensures HandsFairly(s, PromoteTo(s, id, tid, now))
  {
    HandlePush(s.log, PromoteTo(s, id, tid, now).log[|s.log|]);
  }

  lemma PromoteFair(cfg: Config, s: St, id: nat, now: nat)
    requires id in s.calls
    ensures HandsFairly(s, OnPromote(cfg, s, id, now))
  {
    var c, tid := s.calls[id], s.nextId;
    if !c.responded && !c.cancelled {
      RespondFair(s, id, MissingCapability);
      if c.taskId.Some? { PromoteToFair(s, id, c.taskId.value, now); }
      var s1 := AddTask(cfg, s, Engine.NewTask(cfg, c.req.who.agentId, c.key, c.startedAt, now), now);
      RespondFair(s1, id, TaskStoreFull);
      PromoteToFair(AttachTask(s1, id, tid), id, tid, now);
    }
  }

  lemma PromoteTurnFair(cfg: Config, s: St, id: nat, env: Env)
    requires Enabled(s, Promote(id))
    ensures HandsFairly(s, Step(cfg, s, Promote(id), env))
  {
    PromoteFair(cfg, s, id, env.now);
  }

  lemma ArriveFair(cfg: Config, s: St, e: Event, env: Env)
    requires e.Arrive? && ToGovernor(cfg, Arrived(s), Stamped(s, e.req)).None?
    ensures HandsFairly(s, Step(cfg, s, e, env))
  {
    AnsweredFair(cfg, Arrived(s), Stamped(s, e.req), env);
  }

  lemma UnhandedKinds(cfg: Config, s: St, e: Event)
    requires e.Arrive? ==> ToGovernor(cfg, Arrived(s), Stamped(s, e.req)).Some?
    requires e.Promote? ==> !Enabled(s, e)
    ensures TurnKinds(cfg, s, e) <= UNHANDED
  {
  }

  lemma StepFair(cfg: Config, s: St, e: Event, env: Env)
    requires Inv(cfg, Idle(s, false))
    ensures HandsFairly(s, Step(cfg, s, e, env))
  {
    if e.Arrive? && ToGovernor(cfg, Arrived(s), Stamped(s, e.req)).None? {
      ArriveFair(cfg, s, e, env);
    } else if e.Promote? && Enabled(s, e) {
      PromoteTurnFair(cfg, s, e.id, env);
    } else {
      UnhandedKinds(cfg, s, e);
      UnhandedTurn(cfg, s, e, env);
    }
  }

  lemma {:induction false} HandlesGrow(a: seq<Action>, b: seq<Action>)
    requires a <= b
    ensures Handles(a) <= Handles(b)
    decreases |b|
  {
    if |a| < |b| { HandlesGrow(a, b[..|b| - 1]); } else { assert a == b; }
  }

  lemma {:induction false} NewHandleCounts(a: seq<Action>, b: seq<Action>, i: nat)
    requires a <= b && |a| <= i < |b| && HandsOut(b[i])
    ensures Handles(b) > Handles(a)
    decreases |b|
  {
    var front := b[..|b| - 1];
    if i < |front| { NewHandleCounts(a, front, i); } else { HandlesGrow(a, front); }
  }

  lemma OnlyLastHandle(s: St, t: St, i: nat)
    requires HandsFairly(s, t) && s.log <= t.log && |s.log| <= i < |t.log| && HandsOut(t.log[i])
    ensures GaveHandle(t) && i == |t.log| - 1
  {
    NewHandleCounts(s.log, t.log, i);
    if i < |t.log| - 1 { NewHandleCounts(s.log, t.log[..|t.log| - 1], i); }
  }

  /** The handle that a turn gives out names a task that is in the store when the turn ends, as it is
      there; a turn gives out no other. */
  lemma HandleAtHand(cfg: Config, turns: seq<Turn>, e: Event, env: Env, i: nat)
    requires var s, t := Run(cfg, turns), Step(cfg, Run(cfg, turns), e, env);
             |s.log| <= i < |t.log| && HandsOut(t.log[i])
    ensures var t := Step(cfg, Run(cfg, turns), e, env);
            GaveHandle(t) && i == |t.log| - 1
  {
    var s, t := Run(cfg, turns), Step(cfg, Run(cfg, turns), e, env);
    RunInv(cfg, false, turns);
    StepFair(cfg, s, e, env);
    EngineHistory.StepOnward(cfg, false, s, e, env);
    OnlyLastHandle(s, t, i);
  }

  /** Every handle ever given out went to the agent that owns the task. */
  lemma HandlesGoToOwners(cfg: Config, turns: seq<Turn>, i: nat)
    requires CleanTurns(turns) && i < |Run(cfg, turns).log| && HandsOut(Run(cfg, turns).log[i])
    ensures var a := Run(cfg, turns).log[i]; a.reply.task.agent == a.req.who.agentId
  {
    RunInv(cfg, true, turns);
    assert HandlesOf(Idle(Run(cfg, turns), true));
  }

  /** No handle ever goes to a request that did not itself declare the tasks capability, whatever an
      earlier request for the same call declared. */
  lemma HandlesNeedCapability(cfg: Config, turns: seq<Turn>, i: nat)
    requires i < |Run(cfg, turns).log| && HandsOut(Run(cfg, turns).log[i])
    ensures Run(cfg, turns).log[i].req.tasksCap
  {
    RunInv(cfg, false, turns);
    assert HandlesOf(Idle(Run(cfg, turns), false));
  }
}
