/** The ground of every reply, the beginning of every call and the life of every promote timer, turn by turn
    (src/pipeline/Pipeline.cpp:59-100, 371-469, 474-560, 596-604, src/govern/LocalGovernor.cpp:52-147). */
module EngineGrounds {
  import opened Options
  import opened ToolKeys
  import opened Engine
  import opened EngineInvariant
  import opened EngineMoves
  import opened EngineKeeps
  import opened EngineTurns
  import opened EngineOffer
  import opened EngineLimits
  import opened EngineReplies
  import opened EngineRetries
  import EngineDrain
  import EngineHistory
  import Circuit
  import Tasks

  // ------------------------------------------------------------------ what a release tells the waiters

  /** This waiter is told that its time is over, when it is, or that its upstream is shut, when that is so. */
  predicate ToldTo(w: Waiter, slots: Circuit.Slots, env: Env, reply: Reply) {
    || (reply == Throttled && env.now >= w.deadline)
    || (reply == UpstreamUnavailable && env.now < w.deadline && Shut(slots, w.key.backend, env))
  }

  predicate ToldInLine(q: seq<Waiter>, slots: Circuit.Slots, env: Env, a: Action) {
    a.Replied? && exists w :: w in q && w.req == a.req && ToldTo(w, slots, env, a.reply)
  }

  predicate AllTold(q: seq<Waiter>, slots: Circuit.Slots, env: Env, log: seq<Action>, later: seq<Action>) {
    log <= later && forall k :: |log| <= k < |later| && later[k].Replied? ==> ToldInLine(q, slots, env, later[k])
  }

  ghost predicate SameShut(a: Circuit.Slots, b: Circuit.Slots, env: Env) {
    forall backend :: Shut(a, backend, env) == Shut(b, backend, env)
  }

  lemma BarsAreShut(a: Circuit.Slots, b: Circuit.Slots, env: Env)
    requires SameBars(a, b, env)
    ensures SameShut(a, b, env)
  {
    forall backend ensures Shut(a, backend, env) == Shut(b, backend, env) {
      ShutExactly(a, backend, env);
      ShutExactly(b, backend, env);
      assert Reading(a, backend, env.now) == Reading(b, backend, env.now);
    }
  }

  lemma ToldWider(q: seq<Waiter>, r: seq<Waiter>, a: Circuit.Slots, b: Circuit.Slots, env: Env, x: Action)
    requires ToldInLine(r, b, env, x) && SameShut(a, b, env) && forall w :: w in r ==> w in q
    ensures ToldInLine(q, a, env, x)
  {
    var w :| w in r && w.req == x.req && ToldTo(w, b, env, x.reply);
    assert Shut(a, w.key.backend, env) == Shut(b, w.key.backend, env);
    assert w in q && ToldTo(w, a, env, x.reply);
  }

  /** What is right of a shorter queue after these entries is right of the whole. */
  lemma ToldLater(q: seq<Waiter>, r: seq<Waiter>, a: Circuit.Slots, b: Circuit.Slots, env: Env, log: seq<Action>,
                  more: seq<Action>, later: seq<Action>)
    requires SameShut(a, b, env) && AllTold(r, b, env, log + more, later) && forall w :: w in r ==> w in q
    requires forall k :: 0 <= k < |more| && more[k].Replied? ==> ToldInLine(q, a, env, more[k])
    ensures AllTold(q, a, env, log, later)
  {
    forall k | |log| <= k < |later| && later[k].Replied? ensures ToldInLine(q, a, env, later[k]) {
      if k < |log + more| {
        assert later[k] == (log + more)[k];
      } else {
        ToldWider(q, r, a, b, env, later[k]);
      }
    }
  }

  /** The calls after a release: one more, of whoever keeps the slot, or the same. */
  function Begun(s: St, o: Offered, now: nat): map<nat, Call> {
    if o.kept.Some? then s.calls[s.nextId := Beginning(o.kept.value.req, o.kept.value.key, now)] else s.calls
  }

  /** Whoever keeps the slot has read the breaker of its upstream. */
  predicate KeeperRead(a: Circuit.Slots, b: Circuit.Slots, o: Offered, now: nat) {
    o.kept.Some? ==>
      var backend := o.kept.value.key.backend; Circuit.SlotOf(b, backend) == Reading(a, backend, now)
  }

  predicate Fair(s: St, t: St, ts: string, o: Offered, env: Env) {
    && AllTold(Queue(s.gov, ts), s.slots, env, s.log, t.log)
    && t.calls == Begun(s, o, env.now) && KeeperRead(s.slots, t.slots, o, env.now)
  }

  /** The round that a waiter gets no call out of. */
  lemma FairLater(s: St, u: St, t: St, ts: string, o: Offered, env: Env, ids: seq<nat>, more: seq<Action>)
    requires Passed(s, u, ts, env, ids) && Fair(u, t, ts, o, env) && u.log == s.log + more
    requires forall k :: 0 <= k < |more| && more[k].Replied? ==> ToldInLine(Queue(s.gov, ts), s.slots, env, more[k])
    ensures Fair(s, t, ts, o, env)
  {
    var q := Queue(s.gov, ts);
    assert Queue(u.gov, ts) == q[1..];
    BarsAreShut(s.slots, u.slots, env);
    ToldLater(q, q[1..], s.slots, u.slots, env, s.log, more, t.log);
  }

  lemma FairExpired(s: St, u: St, t: St, ts: string, o: Offered, env: Env)
    requires ExpiredStep(s, u, ts, env) && Fair(u, t, ts, o, env)
    ensures Fair(s, t, ts, o, env)
  {
    var w := Head(s, ts);
    assert w in Queue(s.gov, ts) && ToldTo(w, s.slots, env, Throttled);
    FairLater(s, u, t, ts, o, env, [], [Replied(w.req, Throttled)]);
  }

  lemma FairBounced(s: St, u: St, t: St, ts: string, o: Offered, env: Env)
    requires BouncedStep(s, u, ts, env) && Fair(u, t, ts, o, env)
    ensures Fair(s, t, ts, o.After(Head(s, ts)), env)
  {
    var w := Head(s, ts);
    ShutExactly(s.slots, w.key.backend, env);
    assert w in Queue(s.gov, ts) && ToldTo(w, s.slots, env, UpstreamUnavailable);
    FairLater(s, u, t, ts, o, env, [w.req.id], [Admitted(w.req, ts), Replied(w.req, UpstreamUnavailable)]);
  }

  lemma FairServed(s: St, t: St, ts: string, env: Env)
    requires ServedStep(s, t, ts, env.now)
    ensures Fair(s, t, ts, Offered([], Some(Head(s, ts)), Queue(s.gov, ts)[1..]), env)
  {
  }

  lemma ReleaseIsFair(cfg: Config, s: St, ts: string, env: Env)
    requires Sane(s)
    ensures Fair(s, TryDequeue(cfg, s, ts, env), ts, OfferTo(cfg, s, ts, env), env)
  {
    var P := (s: St, t: St, o: Offered) => Fair(s, t, ts, o, env);
    forall s: St, t: St | ServedStep(s, t, ts, env.now)
      ensures P(s, t, Offered([], Some(Head(s, ts)), Queue(s.gov, ts)[1..]))
    {
      FairServed(s, t, ts, env);
    }
    forall s: St, u: St, t: St, o: Offered | ExpiredStep(s, u, ts, env) && P(u, t, o) ensures P(s, t, o) {
      FairExpired(s, u, t, ts, o, env);
    }
    forall s: St, u: St, t: St, o: Offered {:trigger BouncedStep(s, u, ts, env), P(u, t, o)}
      | BouncedStep(s, u, ts, env) && P(u, t, o)
      ensures P(s, t, o.After(Head(s, ts)))
    {
      FairBounced(s, u, t, ts, o, env);
    }
    ReleaseIs(cfg, s, ts, env, P);
    assert P(s, TryDequeue(cfg, s, ts, env), OfferTo(cfg, s, ts, env));
  }

  // ------------------------------------------------------------------ the turns that release a slot

  /** The waiter has time left, and its upstream is not shut. */
  predicate MayBegin(slots: Circuit.Slots, env: Env, w: Waiter) {
    env.now < w.deadline && !Shut(slots, w.key.backend, env)
  }

  /** The breaker of an upstream that is not shut, after it was read: half-open if it was open. */
  predicate HasRead(a: Circuit.Slots, b: Circuit.Slots, backend: string) {
    var x := Circuit.SlotOf(a, backend);
    Circuit.SlotOf(b, backend) == if x.st == Circuit.Open then x.(st := Circuit.HalfOpen, halfOk := 0) else x
  }

  /** No call has begun, or one, of somebody in this queue. */
  predicate BegunInLine(q: seq<Waiter>, slots: Circuit.Slots, env: Env, calls: map<nat, Call>, id: nat, t: St) {
    || t.calls == calls
    || exists w :: w in q && MayBegin(slots, env, w) && HasRead(slots, t.slots, w.key.backend)
                   && t.calls == calls[id := Beginning(w.req, w.key, env.now)]
  }

  lemma BegunIsInLine(cfg: Config, s: St, ts: string, env: Env, t: St)
    requires Fair(s, t, ts, OfferTo(cfg, s, ts, env), env)
    ensures BegunInLine(Queue(s.gov, ts), s.slots, env, s.calls, s.nextId, t)
  {
    var o := OfferTo(cfg, s, ts, env);
    if o.kept.Some? {
      var w := o.kept.value;
      OfferedInTime(cfg, s.gov, s.slots, env, ts, Queue(s.gov, ts), w);
      ShutExactly(s.slots, w.key.backend, env);
      assert Reading(s.slots, w.key.backend, env.now) == Circuit.SlotOf(t.slots, w.key.backend);
      assert w in Queue(s.gov, ts) && MayBegin(s.slots, env, w) && HasRead(s.slots, t.slots, w.key.backend);
    }
  }

  lemma EndedCalls(cfg: Config, s: St, id: nat)
    requires Discipline(cfg, false, s.calls) && id in s.calls && Unowned(s.calls[id])
    ensures Ended(s, id).calls == s.calls - {id} && Ended(s, id).gov.queues == s.gov.queues
  {
    assert Disciplined(cfg, false, s.calls[id]);
  }

  /** The end of a call tells only waiters of its tool anything, and lets at most one of them begin. */
  lemma DropFair(cfg: Config, s: St, id: nat, env: Env)
    requires LedgerOf(cfg, Idle(s, false)) && Keyed(false, s.gov.queues) && Discipline(cfg, false, s.calls)
    requires Enabled(s, Drop(id))
    ensures var q, t := Queue(s.gov, Str(s.calls[id].key)), Step(cfg, s, Drop(id), env);
            && AllTold(q, s.slots, env, s.log, t.log)
            && BegunInLine(q, s.slots, env, s.calls - {id}, s.nextId, t)
  {
    var u, ts := Ended(s, id), Str(s.calls[id].key);
    DropIs(cfg, s, id, env);
    EndedIs(cfg, s, id);
    EndedCalls(cfg, s, id);
    CountersOf(cfg, s);
    EndedSane(s, s.calls[id], u);
    ReleaseIsFair(cfg, u, ts, env);
    BegunIsInLine(cfg, u, ts, env, Step(cfg, s, Drop(id), env));
  }

  /** An arrival that asks for a slot is told that there is none, or that its upstream is shut; or it begins. */
  predicate ToldAsking(cfg: Config, s: St, r: Request, env: Env, a: Action) {
    && a.Replied? && a.req == r && Parse(r.name).Some?
    && var room := HasRoom(cfg, s.gov.tools, s.calls, r.name, r.who.agentId);
    || (a.reply == Throttled && !room && WaitsFor(cfg, r.name, 0))
    || (a.reply == UpstreamUnavailable && room && Shut(s.slots, Parse(r.name).value.backend, env))
  }

  lemma TurnedAwayFair(cfg: Config, s: St, req: Request, key: ToolKey, env: Env)
    requires Sane(s)
    ensures var q := Queue(s.gov, Str(key));
            var t := TryDequeue(cfg, TurnedAway(s, Str(key), req, key, env.now), Str(key), env);
            && AllTold(q, s.slots, env, s.log + [Admitted(req, Str(key)), Replied(req, UpstreamUnavailable)], t.log)
            && BegunInLine(q, s.slots, env, s.calls, s.nextId, t)
  {
    var ts, u := Str(key), TurnedAway(s, Str(key), req, key, env.now);
    var t, o := TryDequeue(cfg, u, ts, env), OfferTo(cfg, s, ts, env);
    TurnedAwayAlike(s, req, key, env);
    CountersAlike(s, u, env);
    OfferAlike(cfg, s, u, ts, env);
    ReleaseIsFair(cfg, u, ts, env);
    BarsAreShut(s.slots, u.slots, env);
    assert u.log + [] == u.log;
    ToldLater(Queue(s.gov, ts), Queue(s.gov, ts), s.slots, u.slots, env, u.log, [], t.log);
    assert u.log == s.log + [Admitted(req, ts), Replied(req, UpstreamUnavailable)];
    BegunSame(cfg, s, u, ts, env, t);
  }

  lemma BegunSame(cfg: Config, s: St, u: St, ts: string, env: Env, t: St)
    requires Alike(s, u, env) && t.calls == Begun(u, OfferTo(cfg, u, ts, env), env.now)
    requires KeeperRead(u.slots, t.slots, OfferTo(cfg, u, ts, env), env.now)
    requires OfferTo(cfg, u, ts, env) == OfferTo(cfg, s, ts, env)
    ensures BegunInLine(Queue(s.gov, ts), s.slots, env, s.calls, s.nextId, t)
  {
    var o := OfferTo(cfg, s, ts, env);
    if o.kept.Some? {
      var w := o.kept.value;
      OfferedInTime(cfg, s.gov, s.slots, env, ts, Queue(s.gov, ts), w);
      ShutExactly(s.slots, w.key.backend, env);
      assert Reading(s.slots, w.key.backend, env.now) == Circuit.SlotOf(t.slots, w.key.backend);
      assert w in Queue(s.gov, ts) && MayBegin(s.slots, env, w) && HasRead(s.slots, t.slots, w.key.backend);
    }
  }

  /** Every new reply of this part of a turn is to the newcomer or to a waiter of its queue. */
  predicate AskingFair(cfg: Config, s: St, r: Request, env: Env, log: seq<Action>) {
    && s.log <= log
    && forall k :: |s.log| <= k < |log| && log[k].Replied? ==>
         ToldAsking(cfg, s, r, env, log[k]) || ToldInLine(Queue(s.gov, r.name), s.slots, env, log[k])
  }

  /** The calls after it: those of before, and perhaps one of the newcomer or of a waiter of its queue. */
  predicate AskingBegins(cfg: Config, s: St, r: Request, env: Env, t: St) {
    || BegunInLine(Queue(s.gov, r.name), s.slots, env, s.calls, s.nextId, t)
    || (Parse(r.name).Some?
        && HasRoom(cfg, s.gov.tools, s.calls, r.name, r.who.agentId)
        && !Shut(s.slots, Parse(r.name).value.backend, env)
        && HasRead(s.slots, t.slots, Parse(r.name).value.backend)
        && t.calls == s.calls[s.nextId := Beginning(r, Parse(r.name).value, env.now)])
  }

  lemma AwayFair(cfg: Config, s: St, r: Request, env: Env, log: seq<Action>)
    requires ToldAsking(cfg, s, r, env, Replied(r, UpstreamUnavailable))
    requires AllTold(Queue(s.gov, r.name), s.slots, env,
                     s.log + [Admitted(r, r.name), Replied(r, UpstreamUnavailable)], log)
    ensures AskingFair(cfg, s, r, env, log)
  {
    var was := s.log + [Admitted(r, r.name), Replied(r, UpstreamUnavailable)];
    assert forall k :: |s.log| <= k < |was| ==> log[k] == was[k];
  }

  lemma GoIs(cfg: Config, s: St, r: Request, key: ToolKey, via: Via, wait: nat, env: Env)
    requires CanTake(cfg, s.gov, Str(key), r.who.agentId)
    ensures Acquire(cfg, s, r, key, wait, via, env)
         == if Shut(s.slots, key.backend, env)
            then TryDequeue(cfg, TurnedAway(s, Str(key), r, key, env.now), Str(key), env)
            else Entered(s, Str(key), r, key, via, env.now)
  {
    ShutExactly(s.slots, key.backend, env);
    SeatedIs(cfg, s, Str(key), r, key, via, env);
  }

  lemma EnteredFair(cfg: Config, s: St, r: Request, key: ToolKey, via: Via, env: Env)
    requires Parse(r.name) == Some(key) && !Shut(s.slots, key.backend, env)
    requires HasRoom(cfg, s.gov.tools, s.calls, r.name, r.who.agentId)
    ensures var t := Entered(s, Str(key), r, key, via, env.now);
            AskingFair(cfg, s, r, env, t.log) && AskingBegins(cfg, s, r, env, t)
  {
    EnteredGoes(s, r, key, via, env.now);
    EnteredBegins(s, Str(key), r, key, via, env.now);
  }

  lemma GoFair(cfg: Config, s: St, r: Request, key: ToolKey, via: Via, wait: nat, env: Env)
    requires Sane(s) && LedgerOf(cfg, Idle(s, false)) && Parse(r.name) == Some(key)
    requires CanTake(cfg, s.gov, Str(key), r.who.agentId)
    ensures var t := Acquire(cfg, s, r, key, wait, via, env);
            AskingFair(cfg, s, r, env, t.log) && AskingBegins(cfg, s, r, env, t)
  {
    GoIs(cfg, s, r, key, via, wait, env);
    RoomIsCounted(cfg, s, r.name, r.who.agentId);
    if Shut(s.slots, key.backend, env) {
      TurnedAwayFair(cfg, s, r, key, env);
      AwayFair(cfg, s, r, env, Acquire(cfg, s, r, key, wait, via, env).log);
    } else {
      EnteredFair(cfg, s, r, key, via, env);
    }
  }

  lemma WaitFair(cfg: Config, s: St, r: Request, key: ToolKey, via: Via, env: Env)
    requires LedgerOf(cfg, Idle(s, false)) && SameLimits(cfg, s.gov.tools) && Parse(r.name) == Some(key)
    requires !CanTake(cfg, s.gov, Str(key), r.who.agentId)
    ensures var t := Acquire(cfg, s, r, key, WaitDeadline(cfg, Str(key), env.now), via, env);
            AskingFair(cfg, s, r, env, t.log) && AskingBegins(cfg, s, r, env, t)
  {
    RoomIsCounted(cfg, s, r.name, r.who.agentId);
    var ms := WaitDeadline(cfg, Str(key), env.now) - env.now;
    AcquireQueues(cfg, s, r, key, via, env, ms);
  }

  lemma AskingTurn(cfg: Config, s: St, req: Request, env: Env)
    requires LedgerOf(cfg, Idle(s, false)) && Keyed(false, s.gov.queues) && SameLimits(cfg, s.gov.tools)
    requires ToGovernor(cfg, Arrived(s), Stamped(s, req)).Some?
    ensures var r, t := Stamped(s, req), Step(cfg, s, Arrive(req), env);
            AskingFair(cfg, s, r, env, t.log) && AskingBegins(cfg, s, r, env, t)
  {
    var s1, r := Arrived(s), Stamped(s, req);
    var key := ToGovernor(cfg, s1, r).value;
    HandleCallIs(cfg, s1, r, env);
    CountersOf(cfg, s);
    if CanTake(cfg, s1.gov, Str(key), r.who.agentId) {
      GoFair(cfg, s1, r, key, ViaOf(s1, r, key), WaitDeadline(cfg, Str(key), env.now), env);
    } else {
      WaitFair(cfg, s1, r, key, ViaOf(s1, r, key), env);
    }
    AskedBefore(cfg, s, r, env, Step(cfg, s, Arrive(req), env));
  }

  /** The arrival number has nothing to do with it. */
  lemma AskedBefore(cfg: Config, s: St, r: Request, env: Env, t: St)
    requires AskingFair(cfg, Arrived(s), r, env, t.log) && AskingBegins(cfg, Arrived(s), r, env, t)
    ensures AskingFair(cfg, s, r, env, t.log) && AskingBegins(cfg, s, r, env, t)
  {
    forall k | |s.log| <= k < |t.log| && t.log[k].Replied?
      ensures ToldAsking(cfg, s, r, env, t.log[k]) || ToldInLine(Queue(s.gov, r.name), s.slots, env, t.log[k])
    {
      assert ToldAsking(cfg, Arrived(s), r, env, t.log[k])
          || ToldInLine(Queue(Arrived(s).gov, r.name), Arrived(s).slots, env, t.log[k]);
    }
  }

  // ------------------------------------------------------------------ waiters whose time is over, and cancels

  /** The wait timer throttles the waiter it was armed for. */
  predicate ToldLate(q: seq<Waiter>, waitId: nat, a: Action) {
    exists w :: w in q && w.id == waitId && a == Replied(w.req, Throttled)
  }

  lemma WaitTimerSays(s: St, ts: string, waitId: nat)
    ensures var q, t := Queue(s.gov, ts), OnWaitTimer(s, ts, waitId);
            && t.calls == s.calls
            && (t.log == s.log || (|t.log| == |s.log| + 1 && s.log <= t.log && ToldLate(q, waitId, t.log[|s.log|])))
  {
    var q := Queue(s.gov, ts);
    var i := FindWaiter(q, waitId);
    if i < |q| { assert q[i] in q; }
  }

  /** An unanswered call whose request learns that it was cancelled. */
  predicate ToldCancelled(calls: map<nat, Call>, a: Action) {
    exists id :: id in calls && !calls[id].responded && a == Replied(calls[id].req, CallCancelled)
  }

  predicate ToldThrottled(queues: map<string, seq<Waiter>>, a: Action) {
    exists ts :: ts in queues && exists w :: w in queues[ts] && a == Replied(w.req, Throttled)
  }

  lemma CancelWaitSays(s: St, id: nat, now: nat)
    requires id in s.calls
    ensures var c, t := s.calls[id], Engine.CancelWait(s, id, now);
            && t.log == s.log + (if c.responded then [] else [Replied(c.req, CallCancelled)])
            && t.calls == s.calls[id := c.(cancelled := true, responded := true)]
  {
    EngineDrain.CancelWaitCalls(s, id, now);
  }

  predicate AllCancelled(calls: map<nat, Call>, log: seq<Action>, later: seq<Action>) {
    log <= later && forall k :: |log| <= k < |later| ==> ToldCancelled(calls, later[k])
  }

  lemma CancelledLater(calls: map<nat, Call>, id: nat, a: Action)
    requires id in calls && ToldCancelled(calls[id := calls[id].(cancelled := true, responded := true)], a)
    ensures ToldCancelled(calls, a)
  {
  }

  lemma {:induction false} CancelAllSays(s: St, order: seq<nat>, now: nat)
    ensures AllCancelled(s.calls, s.log, CancelAll(s, order, now).log)
    decreases |order|
  {
    if order != [] {
      var id := order[0];
      var s1 := if id in s.calls then Engine.CancelWait(s, id, now) else s;
      var log := CancelAll(s, order, now).log;
      CancelAllSays(s1, order[1..], now);
      if id in s.calls {
        CancelWaitSays(s, id, now);
        CancelledOn(s, s1, id, log);
      }
    }
  }

  lemma CancelledOn(s: St, s1: St, id: nat, log: seq<Action>)
    requires id in s.calls && AllCancelled(s1.calls, s1.log, log)
    requires var c := s.calls[id];
             && s1.log == s.log + (if c.responded then [] else [Replied(c.req, CallCancelled)])
             && s1.calls == s.calls[id := c.(cancelled := true, responded := true)]
    ensures AllCancelled(s.calls, s.log, log)
  {
    forall k | |s.log| <= k < |log| ensures ToldCancelled(s.calls, log[k]) {
      if k >= |s1.log| { CancelledLater(s.calls, id, log[k]); }
    }
  }

  predicate AllThrottled(queues: map<string, seq<Waiter>>, log: seq<Action>, later: seq<Action>) {
    log <= later && forall k :: |log| <= k < |later| ==> ToldThrottled(queues, later[k])
  }

  /** Every waiter of these queues is one of those. */
  predicate Fewer(few: map<string, seq<Waiter>>, many: map<string, seq<Waiter>>) {
    forall ts :: ts in few && few[ts] != [] ==> ts in many && forall w :: w in few[ts] ==> w in many[ts]
  }

  lemma ThrottledWider(few: map<string, seq<Waiter>>, many: map<string, seq<Waiter>>, a: Action)
    requires Fewer(few, many) && ToldThrottled(few, a)
    ensures ToldThrottled(many, a)
  {
    var ts :| ts in few && exists w :: w in few[ts] && a == Replied(w.req, Throttled);
    var w :| w in few[ts] && a == Replied(w.req, Throttled);
    assert few[ts] != [];
    assert ts in many && w in many[ts];
  }

  lemma ThrottledOn(s: St, s1: St, log: seq<Action>)
    requires AllThrottled(s.gov.queues, s.log, s1.log) && AllThrottled(s1.gov.queues, s1.log, log)
    requires Fewer(s1.gov.queues, s.gov.queues)
    ensures AllThrottled(s.gov.queues, s.log, log)
  {
    forall k | |s.log| <= k < |log| ensures ToldThrottled(s.gov.queues, log[k]) {
      if k < |s1.log| {
        assert log[k] == s1.log[k];
      } else {
        ThrottledWider(s1.gov.queues, s.gov.queues, log[k]);
      }
    }
  }

  lemma PoppedFewer(s: St, ts: string)
    requires Queue(s.gov, ts) != []
    ensures var s1 := EngineOffer.Expired(s, ts);
            AllThrottled(s.gov.queues, s.log, s1.log) && Fewer(s1.gov.queues, s.gov.queues)
  {
    var w := Queue(s.gov, ts)[0];
    assert ts in s.gov.queues && w in s.gov.queues[ts];
    assert ToldThrottled(s.gov.queues, Replied(w.req, Throttled));
  }

  lemma {:induction false} RejectQueueSays(s: St, ts: string)
    ensures var t := RejectQueue(s, ts);
            AllThrottled(s.gov.queues, s.log, t.log) && Fewer(t.gov.queues, s.gov.queues)
    decreases |Queue(s.gov, ts)|
  {
    if Queue(s.gov, ts) != [] {
      var s1 := EngineOffer.Expired(s, ts);
      PoppedFewer(s, ts);
      RejectQueueSays(s1, ts);
      ThrottledOn(s, s1, RejectQueue(s, ts).log);
    }
  }

  lemma {:induction false} RejectAllSays(s: St, order: seq<string>)
    ensures AllThrottled(s.gov.queues, s.log, RejectAll(s, order).log)
    decreases |order|
  {
    if order != [] {
      var s1 := RejectQueue(s, order[0]);
      RejectQueueSays(s, order[0]);
      RejectAllSays(s1, order[1..]);
      ThrottledOn(s, s1, RejectAll(s, order).log);
    }
  }

  // ------------------------------------------------------------------ the ground of every reply

  /** What the turn of this event may tell somebody, and on what ground. */
  predicate Grounded(cfg: Config, s: St, e: Event, env: Env, a: Action)
    requires KeysLive(s)
  {
    match e
    case Arrive(req) =>
      var r := Stamped(s, req);
      var reply := AnswerAtOnce(cfg, s, r, env.now);
      if reply.Some? then a == Replied(r, reply.value)
      else ToldAsking(cfg, s, r, env, a) || ToldInLine(Queue(s.gov, r.name), s.slots, env, a)
    case Drop(id) => id in s.calls && ToldInLine(Queue(s.gov, Str(s.calls[id].key)), s.slots, env, a)
    case WaitTimer(ts, waitId) => ToldLate(Queue(s.gov, ts), waitId, a)
    case Promote(id) =>
      && id in s.calls && !s.calls[id].responded
      && var c := s.calls[id];
      a == Replied(c.req, if c.req.tasksCap then TaskReply(cfg, s, id, c.req.who.agentId, env.now)
                          else MissingCapability)
    case Upstream(id, klass, isError) =>
      && id in s.calls && !s.calls[id].responded && !s.calls[id].cancelled
      && !MayFireAgain(cfg, s, id, klass, env.now)
      && a == Replied(s.calls[id].req, Result(klass, isError))
    case TaskCancel(tid, agent) =>
      && tid in s.tasks && Tasks.Alive(s.tasks[tid], env.now) && s.tasks[tid].agent == agent
      && exists id :: id in s.calls && s.calls[id].taskId == Some(tid) && !s.calls[id].responded
                      && a == Replied(s.calls[id].req, CallCancelled)
    case Stop(_, _) => ToldCancelled(s.calls, a) || ToldThrottled(s.gov.queues, a)
    case _ => false
  }

  ghost predicate AllGrounded(cfg: Config, s: St, t: St, e: Event, env: Env) {
    && KeysLive(s) && s.log <= t.log
    && forall k :: |s.log| <= k < |t.log| && t.log[k].Replied? ==> Grounded(cfg, s, e, env, t.log[k])
  }

  lemma AskingGrounded(cfg: Config, s: St, e: Event, env: Env)
    requires LedgerOf(cfg, Idle(s, false)) && Keyed(false, s.gov.queues) && SameLimits(cfg, s.gov.tools)
    requires KeysLive(s) && e.Arrive? && AnswerAtOnce(cfg, s, Stamped(s, e.req), env.now).None?
    requires ToGovernor(cfg, Arrived(s), Stamped(s, e.req)).Some?
    ensures AllGrounded(cfg, s, Step(cfg, s, e, env), e, env)
  {
    AskingTurn(cfg, s, e.req, env);
  }

  lemma ArriveGrounded(cfg: Config, s: St, e: Event, env: Env)
    requires Inv(cfg, Idle(s, false)) && e.Arrive?
    ensures AllGrounded(cfg, s, Step(cfg, s, e, env), e, env)
  {
    AnsweredIn(cfg, s, e.req, env);
    if AnswerAtOnce(cfg, s, Stamped(s, e.req), env.now).None? {
      AskingGrounded(cfg, s, e, env);
    }
  }

  lemma DropGrounded(cfg: Config, s: St, e: Event, env: Env)
    requires LedgerOf(cfg, Idle(s, false)) && Keyed(false, s.gov.queues) && Discipline(cfg, false, s.calls)
    requires KeysLive(s) && e.Drop? && Enabled(s, e)
    ensures AllGrounded(cfg, s, Step(cfg, s, e, env), e, env)
  {
    DropFair(cfg, s, e.id, env);
  }

  lemma UpstreamGrounded(cfg: Config, s: St, e: Event, env: Env)
    requires AttemptsOf(cfg, Idle(s, false)) && KeysLive(s) && e.Upstream? && Enabled(s, e)
    ensures AllGrounded(cfg, s, Step(cfg, s, e, env), e, env)
  {
    EngineHistory.UpstreamIs(cfg, s, e.id, e.klass, e.isError, env);
    AttemptsCounted(cfg, s, e.id);
    RetriesExactly(cfg, s, e.id, e.klass, env.now);
    AnswerLogged(cfg, s, e.id, e.klass, e.isError, env.now);
  }

  lemma PromoteGrounded(cfg: Config, s: St, e: Event, env: Env)
    requires Discipline(cfg, false, s.calls) && TaskBounds(cfg, s.tasks, s.nextId)
    requires KeysLive(s) && e.Promote? && Enabled(s, e)
    ensures AllGrounded(cfg, s, Step(cfg, s, e, env), e, env)
  {
    PromoteAnswersIn(cfg, s, e.id, env);
  }

  /** tasks/cancel reaches a call exactly if its task is stored and alive and the asker's own: then the call is
      cancelled, and answered unless it was before. */
  lemma CancelReaches(s: St, tid: nat, agent: string, now: nat)
    requires TaskLinks(s.calls, s.byTask, s.nextId)
    ensures var t := OnCancel(s, tid, agent, now);
            if tid in s.tasks && Tasks.Alive(s.tasks[tid], now) && s.tasks[tid].agent == agent && tid in s.byTask
            then var c := s.calls[s.byTask[tid]];
                 && t.log == s.log + (if c.responded then [] else [Replied(c.req, CallCancelled)])
                 && t.calls == s.calls[s.byTask[tid] := c.(cancelled := true, responded := true)]
            else t.log == s.log && t.calls == s.calls
  {
    if tid in s.byTask {
      var s2 := SetStatus(s.(tasks := Tasks.Sweep(s.tasks, now)), tid, Tasks.Cancelled, now);
      CancelWaitSays(s2, s.byTask[tid], now);
    }
  }

  lemma TaskCancelGrounded(cfg: Config, s: St, e: Event, env: Env)
    requires TaskLinks(s.calls, s.byTask, s.nextId) && KeysLive(s) && e.TaskCancel?
    ensures AllGrounded(cfg, s, Step(cfg, s, e, env), e, env)
  {
    CancelReaches(s, e.taskId, e.agent, env.now);
  }

  lemma StopGrounded(cfg: Config, s: St, e: Event, env: Env)
    requires KeysLive(s) && e.Stop? && Enabled(s, e)
    ensures AllGrounded(cfg, s, Step(cfg, s, e, env), e, env)
  {
    var s1 := s.(stopping := true);
    var s2 := CancelAll(s1, e.calls, env.now);
    CancelAllSays(s1, e.calls, env.now);
    CancelAllQueues(s1, e.calls, env.now);
    RejectAllSays(s2, e.queues);
    var log := RejectAll(s2, e.queues).log;
    assert forall k :: |s.log| <= k < |s2.log| ==> log[k] == s2.log[k];
  }

  lemma WaitTimerGrounded(cfg: Config, s: St, e: Event, env: Env)
    requires KeysLive(s) && e.WaitTimer?
    ensures AllGrounded(cfg, s, Step(cfg, s, e, env), e, env)
  {
    WaitTimerSays(s, e.tool, e.waitId);
  }

  lemma CallGrounded(cfg: Config, s: St, e: Event, env: Env)
    requires Inv(cfg, Idle(s, false)) && KeysLive(s) && Enabled(s, e)
    requires e.Drop? || e.Upstream? || e.Promote?
    ensures AllGrounded(cfg, s, Step(cfg, s, e, env), e, env)
  {
    if e.Drop? {
      DropGrounded(cfg, s, e, env);
    } else if e.Upstream? {
      UpstreamGrounded(cfg, s, e, env);
    } else {
      PromoteGrounded(cfg, s, e, env);
    }
  }

  /** Every reply that any turn of any run gives has its ground in the state before that turn. */
  lemma RepliesGrounded(cfg: Config, turns: seq<Turn>, e: Event, env: Env)
    ensures var s := Run(cfg, turns); AllGrounded(cfg, s, Step(cfg, s, e, env), e, env)
  {
    var s := Run(cfg, turns);
    RunInv(cfg, false, turns);
    KeysAreLive(s);
    if !Enabled(s, e) {
    } else if e.Arrive? {
      ArriveGrounded(cfg, s, e, env);
    } else if e.Drop? || e.Upstream? || e.Promote? {
      CallGrounded(cfg, s, e, env);
    } else if e.TaskCancel? {
      TaskCancelGrounded(cfg, s, e, env);
    } else if e.Stop? {
      StopGrounded(cfg, s, e, env);
    } else if e.WaitTimer? {
      WaitTimerGrounded(cfg, s, e, env);
    }
  }

  // ------------------------------------------------------------------ the wait timer

  predicate Numbered(q: seq<Waiter>, n: nat) {
    && (forall i, j :: 0 <= i < j < |q| ==> q[i].id < q[j].id)
    && (forall i :: 0 <= i < |q| ==> q[i].id < n)
  }

  predicate AllNumbered(g: Gov) {
    forall ts :: ts in g.queues ==> Numbered(g.queues[ts], g.nextWait)
  }

  lemma NumberedWithout(q: seq<Waiter>, n: nat, i: nat)
    requires Numbered(q, n) && i < |q|
    ensures Numbered(q[..i] + q[i + 1..], n)
  {
  }

  lemma NumberedMove(cfg: Config, m: Mach, v: Move)
    requires Valid(cfg, m, v) && AllNumbered(m.s.gov)
    ensures AllNumbered(GovAfter(cfg, m, v))
  {
    if v.TakeOut? { NumberedWithout(Queue(m.s.gov, v.tool), m.s.gov.nextWait, v.i); }
  }

  lemma NumberedClosed(cfg: Config)
    ensures Closed(cfg, (m: Mach, n: Mach) => AllNumbered(m.s.gov) ==> AllNumbered(n.s.gov), ALL)
  {
    forall m, v | Valid(cfg, m, v) && AllNumbered(m.s.gov) ensures AllNumbered(Do(cfg, m, v).s.gov) {
      NumberedMove(cfg, m, v);
    }
  }

  lemma NumberedTurn(cfg: Config, s: St, e: Event, env: Env)
    requires Inv(cfg, Idle(s, false)) && AllNumbered(s.gov)
    ensures AllNumbered(Step(cfg, s, e, env).gov)
  {
    var R := (m: Mach, n: Mach) => AllNumbered(m.s.gov) ==> AllNumbered(n.s.gov);
    NumberedClosed(cfg);
    AllKinds(cfg, s, e);
    StepTurn(cfg, R, ALL, false, s, e, env);
    assert R(Idle(s, false), Idle(Step(cfg, s, e, env), false));
  }

  /** The waiters of a queue carry different timers, in the order they joined it. */
  lemma {:induction false} WaitersNumbered(cfg: Config, turns: seq<Turn>)
    ensures AllNumbered(Run(cfg, turns).gov)
    decreases |turns|
  {
    if turns != [] {
      var front, last := turns[..|turns| - 1], turns[|turns| - 1];
      WaitersNumbered(cfg, front);
      RunInv(cfg, false, front);
      NumberedTurn(cfg, Run(cfg, front), last.event, last.env);
    }
  }

  /** When the timer of the waiter at position i fires, exactly that waiter leaves its queue, and is throttled; a
      timer whose waiter has left does nothing. */
  lemma WaitTimerExactly(cfg: Config, turns: seq<Turn>, ts: string, waitId: nat, i: nat, env: Env)
    ensures var s := Run(cfg, turns);
            var q, t := Queue(s.gov, ts), Step(cfg, s, WaitTimer(ts, waitId), env);
            && (i < |q| && q[i].id == waitId ==>
                  && t.log == s.log + [Replied(q[i].req, Throttled)]
                  && Queue(t.gov, ts) == q[..i] + q[i + 1..])
            && ((forall j :: 0 <= j < |q| ==> q[j].id != waitId) ==> t == s)
  {
    var s := Run(cfg, turns);
    var q := Queue(s.gov, ts);
    WaitersNumbered(cfg, turns);
    var j := FindWaiter(q, waitId);
    if i < |q| && q[i].id == waitId {
      assert Numbered(q, s.gov.nextWait);
      assert j <= i;
    }
  }
}
