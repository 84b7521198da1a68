/** What a released slot amounts to. The re-entrant recursion through releaseSlot, tryDequeue, the waiter's
    callback and its permit's destructor comes to one pass down one queue: `Offer` says which waiters are
    timed out, which get the slot and hand it straight on, and which one keeps it. */
module EngineOffer {
  import opened Options
  import opened ToolKeys
  import opened Bags
  import opened Engine
  import opened EngineInvariant
  import opened EngineMoves
  import opened EngineKeeps
  import opened EngineTurns
  import Circuit

  // ------------------------------------------------------------------ what the log records

  predicate AdmittedTo(a: Action, ts: string) { a.Admitted? && a.tool == ts }

  /** The requests that got a slot of the tool, in the order they got it. */
  function Granted(log: seq<Action>, ts: string): seq<nat> {
    if log == [] then []
    else
      var a := log[|log| - 1];
      Granted(log[..|log| - 1], ts) + if AdmittedTo(a, ts) then [a.req.id] else []
  }

  /** The inserts into the in-flight table, in order. */
  function Inserts(log: seq<Action>): seq<Action> {
    if log == [] then []
    else
      var a := log[|log| - 1];
      Inserts(log[..|log| - 1]) + if a.Inserted? then [a] else []
  }

  lemma GrantPush(log: seq<Action>, a: Action, ts: string)
    ensures Granted(log + [a], ts) == Granted(log, ts) + if AdmittedTo(a, ts) then [a.req.id] else []
  {
    assert (log + [a])[..|log|] == log;
  }

  lemma InsertPush(log: seq<Action>, a: Action)
    ensures Inserts(log + [a]) == Inserts(log) + if a.Inserted? then [a] else []
  {
    assert (log + [a])[..|log|] == log;
  }

  /** The two histories, for every tool, after one more entry of another sort. */
  predicate Silent(a: Action) { !a.Admitted? && !a.Inserted? }

  lemma SilentPush(log: seq<Action>, a: Action, ts: string)
    requires Silent(a)
    ensures Granted(log + [a], ts) == Granted(log, ts) && Inserts(log + [a]) == Inserts(log)
  {
    GrantPush(log, a, ts);
    InsertPush(log, a);
  }

  // ------------------------------------------------------------------ the pass down the queue

  /** The upstream is not to be called: breaker open, or held to be down. */
  predicate Unavailable(slots: Circuit.Slots, backend: string, env: Env) {
    Circuit.MaybeHalfOpen(Circuit.SlotOf(slots, backend), env.now).st.Open? || backend in env.down
  }

  /** `passedOn` got a slot, in this order, found their upstream unavailable and gave it back; `kept` is who
      keeps it; `rest` still waits. */
  datatype Offered = Offered(passedOn: seq<Waiter>, kept: Option<Waiter>, rest: seq<Waiter>) {
    /** Everyone who got the slot. */
    function Granted(): seq<Waiter> {
      passedOn + if kept.Some? then [kept.value] else []
    }

    function After(w: Waiter): Offered { Offered([w] + passedOn, kept, rest) }

    predicate KeptBy(agent: string) { kept.Some? && kept.value.req.who.agentId == agent }
  }

  function Offer(cfg: Config, g: Gov, slots: Circuit.Slots, env: Env, ts: string, q: seq<Waiter>): Offered {
    if q == [] || !CanTake(cfg, g, ts, q[0].req.who.agentId) then Offered([], None, q)
    else if env.now >= q[0].deadline then Offer(cfg, g, slots, env, ts, q[1..])
    else if Unavailable(slots, q[0].key.backend, env) then Offer(cfg, g, slots, env, ts, q[1..]).After(q[0])
    else Offered([], Some(q[0]), q[1..])
  }

  /** Whoever gets the slot stood in the queue and had time left; who keeps it has its upstream, and the
      others do not. */
  lemma {:induction false} OfferedInTime(cfg: Config, g: Gov, slots: Circuit.Slots, env: Env, ts: string,
                                         q: seq<Waiter>, w: Waiter)
    ensures var o := Offer(cfg, g, slots, env, ts, q);
            && (w in o.passedOn ==> w in q && env.now < w.deadline && Unavailable(slots, w.key.backend, env))
            && (o.kept == Some(w) ==> w in q && env.now < w.deadline && !Unavailable(slots, w.key.backend, env))
            && (w in o.rest ==> w in q)
  {
    if q != [] {
      OfferedInTime(cfg, g, slots, env, ts, q[1..], w);
    }
  }

  /** A pass after which nobody keeps the slot ends with an empty queue, or in front of a waiter that cannot
      take it. */
  lemma {:induction false} OfferEnds(cfg: Config, g: Gov, slots: Circuit.Slots, env: Env, ts: string, q: seq<Waiter>)
    ensures var o := Offer(cfg, g, slots, env, ts, q);
            o.kept.None? ==> o.rest == [] || !CanTake(cfg, g, ts, o.rest[0].req.who.agentId)
  {
    if q != [] && CanTake(cfg, g, ts, q[0].req.who.agentId) {
      OfferEnds(cfg, g, slots, env, ts, q[1..]);
    }
  }

  // ------------------------------------------------------------------ one round

  ghost predicate Counters(g: Gov) {
    (forall t :: Get(g.toolUse, t) >= 0) && (forall a :: Get(g.agentUse, a) >= 0)
  }

  ghost predicate SameUse(g: Gov, h: Gov) {
    && h.tools == g.tools && h.held == g.held
    && (forall t :: Get(h.toolUse, t) == Get(g.toolUse, t))
    && (forall a :: Get(h.agentUse, a) == Get(g.agentUse, a))
  }

  /** The slot of the backend, as a query at this time finds and leaves it. */
  function Reading(slots: Circuit.Slots, backend: string, now: nat): Circuit.Slot {
    Circuit.MaybeHalfOpen(Circuit.SlotOf(slots, backend), now)
  }

  ghost predicate SameBars(a: Circuit.Slots, b: Circuit.Slots, env: Env) {
    forall backend :: Reading(a, backend, env.now) == Reading(b, backend, env.now)
  }

  lemma {:induction false} OfferSame(cfg: Config, g: Gov, h: Gov, a: Circuit.Slots, b: Circuit.Slots, env: Env,
                                     ts: string, q: seq<Waiter>)
    requires SameUse(g, h) && SameBars(a, b, env)
    ensures Offer(cfg, g, a, env, ts, q) == Offer(cfg, h, b, env, ts, q)
  {
    if q != [] {
      OfferSame(cfg, g, h, a, b, env, ts, q[1..]);
      assert CanTake(cfg, g, ts, q[0].req.who.agentId) == CanTake(cfg, h, ts, q[0].req.who.agentId);
      assert Reading(a, q[0].key.backend, env.now) == Reading(b, q[0].key.backend, env.now);
    }
  }

  /** What taking a slot and giving it back leaves of the counters. */
  lemma TakenAndGiven(g: Gov, ts: string, agent: string)
    requires Counters(g)
    ensures var h := Engine.GiveBack(Take(g, ts, agent), ts, agent); h.queues == g.queues && SameUse(g, h)
  {
    assert Get(g.toolUse, ts) >= 0 && Get(g.agentUse, agent) >= 0;
  }

  /** Reading the breaker twice at one time reads the same twice. */
  lemma ReadTwice(s: St, key: ToolKey, env: Env)
    ensures SameBars(s.slots, ReadSlot(s, key, env.now).slots, env)
  {
  }

  lemma BlockedIs(s: St, key: ToolKey, env: Env)
    ensures Blocked(s, key, env) == Unavailable(s.slots, key.backend, env)
  {
  }

  /** A request got a slot, and the callback has read the breaker. */
  function Seated(s: St, ts: string, req: Request, key: ToolKey, now: nat): St {
    ReadSlot(Engine.Issue(s, ts, req), key, now)
  }

  /** It found its upstream unavailable, and gave the slot back. */
  function TurnedAway(s: St, ts: string, req: Request, key: ToolKey, now: nat): St {
    Released(Answer(Seated(s, ts, req, key, now), req, UpstreamUnavailable), Held(key, req.who.agentId))
  }

  /** It kept the slot, and its call has begun. */
  function Entered(s: St, ts: string, req: Request, key: ToolKey, via: Via, now: nat): St {
    Started(Seated(s, ts, req, key, now), req, key, via, now)
  }

  /** The waiter at the head of the queue is taken out. */
  function Popped(s: St, ts: string): St
    requires Queue(s.gov, ts) != []
  {
    s.(gov := SetQueue(s.gov, ts, Queue(s.gov, ts)[1..]))
  }

  function Expired(s: St, ts: string): St
    requires Queue(s.gov, ts) != []
  {
    Answer(Popped(s, ts), Queue(s.gov, ts)[0].req, Throttled)
  }

  function Bounced(s: St, ts: string, now: nat): St
    requires Queue(s.gov, ts) != []
  {
    var w := Queue(s.gov, ts)[0];
    TurnedAway(Popped(s, ts), ts, w.req, w.key, now)
  }

  function Served(s: St, ts: string, now: nat): St
    requires Queue(s.gov, ts) != []
  {
    var w := Queue(s.gov, ts)[0];
    Entered(Popped(s, ts), ts, w.req, w.key, Queued, now)
  }

  /** The admission callback with a slot in hand. */
  lemma SeatedIs(cfg: Config, s: St, ts: string, req: Request, key: ToolKey, via: Via, env: Env)
    requires Str(key) == ts
    ensures OnAdmit(cfg, Engine.Issue(s, ts, req), req, key, Held(key, req.who.agentId), via, env)
         == if Unavailable(s.slots, key.backend, env)
            then TryDequeue(cfg, TurnedAway(s, ts, req, key, env.now), ts, env)
            else Entered(s, ts, req, key, via, env.now)
  {
    BlockedIs(Engine.Issue(s, ts, req), key, env);
    OnAdmitIs(cfg, Engine.Issue(s, ts, req), req, key, via, env);
  }

  /** tryDequeue, one waiter at a time. */
  lemma TryDequeueIs(cfg: Config, s: St, ts: string, env: Env)
    requires Queue(s.gov, ts) != [] && Keyed(false, s.gov.queues)
    requires CanTake(cfg, s.gov, ts, Queue(s.gov, ts)[0].req.who.agentId)
    ensures var w := Queue(s.gov, ts)[0];
            TryDequeue(cfg, s, ts, env)
            == if env.now >= w.deadline then TryDequeue(cfg, Expired(s, ts), ts, env)
               else if Unavailable(s.slots, w.key.backend, env) then TryDequeue(cfg, Bounced(s, ts, env.now), ts, env)
               else Served(s, ts, env.now)
    ensures |WaitingBag(Popped(s, ts).gov.queues)| < |WaitingBag(s.gov.queues)|
    ensures Keyed(false, Popped(s, ts).gov.queues)
  {
    var w := Queue(s.gov, ts)[0];
    PopKeyed(Idle(s, false), ts);
    PopShrinks(s.gov, ts);
    SeatedIs(cfg, Popped(s, ts), ts, w.req, w.key, Queued, env);
  }

  /** Two states that a later round cannot tell apart, but for their logs. */
  ghost predicate Alike(s: St, u: St, env: Env) {
    && u.gov.queues == s.gov.queues
    && SameUse(s.gov, u.gov) && SameBars(s.slots, u.slots, env)
    && u.inflight == s.inflight && u.nextId == s.nextId && u.arrivals == s.arrivals && u.stopping == s.stopping
    && u.calls == s.calls
  }

  lemma TurnedAwayAlike(s: St, req: Request, key: ToolKey, env: Env)
    requires Counters(s.gov)
    ensures Alike(s, TurnedAway(s, Str(key), req, key, env.now), env)
  {
    TakenAndGiven(s.gov, Str(key), req.who.agentId);
    ReadTwice(Engine.Issue(s, Str(key), req), key, env);
  }

  /** What part of a turn puts on record: who got a slot of this tool, and the inserts. */
  ghost predicate Logs(s: St, u: St, ts: string, ids: seq<nat>, inserts: seq<Action>) {
    && (forall x :: Granted(u.log, x) == Granted(s.log, x) + (if x == ts then ids else []))
    && Inserts(u.log) == Inserts(s.log) + inserts
  }

  lemma SilentLogs(s: St, u: St, ts: string, a: Action)
    requires Silent(a) && u.log == s.log + [a]
    ensures Logs(s, u, ts, [], [])
  {
    forall x ensures Granted(u.log, x) == Granted(s.log, x) + [] { SilentPush(s.log, a, x); }
    SilentPush(s.log, a, ts);
  }

  lemma SeatedLogs(s: St, ts: string, req: Request, key: ToolKey, now: nat)
    ensures Logs(s, Seated(s, ts, req, key, now), ts, [req.id], [])
  {
    var u, a := Seated(s, ts, req, key, now), Admitted(req, ts);
    forall x ensures Granted(u.log, x) == Granted(s.log, x) + (if x == ts then [req.id] else []) {
      GrantPush(s.log, a, x);
    }
    InsertPush(s.log, a);
  }

  lemma LogsThen(s: St, u: St, t: St, ts: string, ids: seq<nat>, more: seq<Action>)
    requires Logs(s, u, ts, ids, []) && Logs(u, t, ts, [], more)
    ensures Logs(s, t, ts, ids, more)
  {
    forall x ensures Granted(t.log, x) == Granted(s.log, x) + (if x == ts then ids else []) {
      assert Granted(t.log, x) == Granted(u.log, x) + [];
      assert Granted(u.log, x) == Granted(s.log, x) + (if x == ts then ids else []);
    }
  }

  lemma TurnedAwayLogs(s: St, ts: string, req: Request, key: ToolKey, now: nat)
    ensures Logs(s, TurnedAway(s, ts, req, key, now), ts, [req.id], [])
  {
    var u := Seated(s, ts, req, key, now);
    SeatedLogs(s, ts, req, key, now);
    SilentLogs(u, TurnedAway(s, ts, req, key, now), ts, Replied(req, UpstreamUnavailable));
    LogsThen(s, u, TurnedAway(s, ts, req, key, now), ts, [req.id], []);
  }

  lemma StartedLogs(s: St, ts: string, req: Request, key: ToolKey, via: Via, now: nat)
    ensures Logs(s, Started(s, req, key, via, now), ts, [], [Insertion(s, req, key, via)])
  {
    var t, a := Started(s, req, key, via, now), Insertion(s, req, key, via);
    assert t.log == s.log + [a] + [Fired(s.nextId, req)];
    forall x ensures Granted(t.log, x) == Granted(s.log, x) + [] {
      GrantPush(s.log, a, x);
      SilentPush(s.log + [a], Fired(s.nextId, req), x);
    }
    InsertPush(s.log, a);
    SilentPush(s.log + [a], Fired(s.nextId, req), ts);
  }

  lemma EnteredLogs(s: St, ts: string, req: Request, key: ToolKey, via: Via, now: nat)
    ensures var t := Entered(s, ts, req, key, via, now);
            && t.gov == Take(s.gov, ts, req.who.agentId) && t.arrivals == s.arrivals
            && Logs(s, t, ts, [req.id], [Insertion(s, req, key, via)])
  {
    var u := Seated(s, ts, req, key, now);
    SeatedLogs(s, ts, req, key, now);
    StartedLogs(u, ts, req, key, via, now);
    assert Insertion(u, req, key, via) == Insertion(s, req, key, via);
    LogsThen(s, u, Entered(s, ts, req, key, via, now), ts, [req.id], [Insertion(s, req, key, via)]);
  }

  // ------------------------------------------------------------------ the recursion is the pass

  /** The log and the calls of a start, entry by entry. */
  lemma EnteredBegins(s: St, ts: string, req: Request, key: ToolKey, via: Via, now: nat)
    ensures var t := Entered(s, ts, req, key, via, now);
            && t.log == s.log + [Admitted(req, ts), Insertion(s, req, key, via), Fired(s.nextId, req)]
            && t.calls == s.calls[s.nextId := NewCall(s, req, key, now)]
            && t.slots == s.slots[key.backend := Reading(s.slots, key.backend, now)]
  {
    var t := Entered(s, ts, req, key, via, now);
    assert Insertion(Seated(s, ts, req, key, now), req, key, via) == Insertion(s, req, key, via);
    assert t.log == s.log + [Admitted(req, ts)] + [Insertion(s, req, key, via)] + [Fired(s.nextId, req)];
  }

  function OfferTo(cfg: Config, s: St, ts: string, env: Env): Offered {
    Offer(cfg, s.gov, s.slots, env, ts, Queue(s.gov, ts))
  }

  lemma OfferAlike(cfg: Config, s: St, u: St, ts: string, env: Env)
    requires Alike(s, u, env)
    ensures OfferTo(cfg, u, ts, env) == OfferTo(cfg, s, ts, env)
  {
    OfferSame(cfg, s.gov, u.gov, s.slots, u.slots, env, ts, Queue(u.gov, ts));
  }

  lemma CountersAlike(s: St, u: St, env: Env)
    requires Alike(s, u, env) && Counters(s.gov)
    ensures Counters(u.gov)
  {
    forall t ensures Get(u.gov.toolUse, t) >= 0 { assert Get(s.gov.toolUse, t) >= 0; }
    forall a ensures Get(u.gov.agentUse, a) >= 0 { assert Get(s.gov.agentUse, a) >= 0; }
  }

  function Head(s: St, ts: string): Waiter
    requires Queue(s.gov, ts) != []
  {
    Queue(s.gov, ts)[0]
  }

  /** A round that leaves the slot free takes the head out of the queue; `ids` got the slot in between. */
  ghost predicate Passed(s: St, u: St, ts: string, env: Env, ids: seq<nat>) {
    && Queue(s.gov, ts) != []
    && Alike(Popped(s, ts), u, env)
    && Logs(s, u, ts, ids, [])
  }

  ghost predicate ExpiredStep(s: St, u: St, ts: string, env: Env) {
    && Queue(s.gov, ts) != [] && Passed(s, u, ts, env, [])
    && var w := Head(s, ts);
    env.now >= w.deadline && u.log == s.log + [Replied(w.req, Throttled)]
  }

  ghost predicate BouncedStep(s: St, u: St, ts: string, env: Env) {
    && Queue(s.gov, ts) != [] && Passed(s, u, ts, env, [Head(s, ts).req.id])
    && var w := Head(s, ts);
    && env.now < w.deadline && Unavailable(s.slots, w.key.backend, env)
    && u.log == s.log + [Admitted(w.req, ts), Replied(w.req, UpstreamUnavailable)]
  }

  ghost predicate ServedStep(s: St, t: St, ts: string, now: nat) {
    && Queue(s.gov, ts) != []
    && var w := Head(s, ts);
    && t.gov == Take(Popped(s, ts).gov, ts, w.req.who.agentId) && t.arrivals == s.arrivals
    && Logs(s, t, ts, [w.req.id], [Insertion(s, w.req, w.key, Queued)])
    && t.log == s.log + [Admitted(w.req, ts), Insertion(s, w.req, w.key, Queued), Fired(s.nextId, w.req)]
    && t.calls == s.calls[s.nextId := NewCall(s, w.req, w.key, now)]
    && t.slots == s.slots[w.key.backend := Reading(s.slots, w.key.backend, now)]
  }

  lemma ExpiredIsStep(s: St, ts: string, env: Env)
    requires Queue(s.gov, ts) != [] && env.now >= Head(s, ts).deadline
    ensures ExpiredStep(s, Expired(s, ts), ts, env)
  {
    SilentLogs(s, Expired(s, ts), ts, Replied(Head(s, ts).req, Throttled));
  }

  lemma BouncedIsStep(s: St, ts: string, env: Env)
    requires Queue(s.gov, ts) != [] && Sane(s)
    requires env.now < Head(s, ts).deadline && Unavailable(s.slots, Head(s, ts).key.backend, env)
    ensures BouncedStep(s, Bounced(s, ts, env.now), ts, env)
  {
    var w, p := Head(s, ts), Popped(s, ts);
    PopKeyed(Idle(s, false), ts);
    TurnedAwayAlike(p, w.req, w.key, env);
    TurnedAwayLogs(p, ts, w.req, w.key, env.now);
  }

  lemma ServedIsStep(s: St, ts: string, now: nat)
    requires Queue(s.gov, ts) != []
    ensures ServedStep(s, Served(s, ts, now), ts, now)
  {
    var w, p := Head(s, ts), Popped(s, ts);
    EnteredLogs(p, ts, w.req, w.key, Queued, now);
    EnteredBegins(p, ts, w.req, w.key, Queued, now);
    assert Insertion(p, w.req, w.key, Queued) == Insertion(s, w.req, w.key, Queued);
  }

  ghost predicate Sane(s: St) { Keyed(false, s.gov.queues) && Counters(s.gov) }

  /** What a release can be said to do: a relation between the states before and after, and the pass. */
  type Account = (St, St, Offered) -> bool

  /** The account is right of every single round. */
  ghost predicate Rounds(ts: string, env: Env, P: Account) {
    && (forall s: St :: P(s, s, Offered([], None, Queue(s.gov, ts))))
    && (forall s: St, t: St :: ServedStep(s, t, ts, env.now) ==>
          P(s, t, Offered([], Some(Head(s, ts)), Queue(s.gov, ts)[1..])))
    && (forall s: St, u: St, t: St, o: Offered :: ExpiredStep(s, u, ts, env) && P(u, t, o) ==> P(s, t, o))
    && (forall s: St, u: St, t: St, o: Offered {:trigger BouncedStep(s, u, ts, env), P(u, t, o)} ::
          BouncedStep(s, u, ts, env) && P(u, t, o) ==> P(s, t, o.After(Head(s, ts))))
  }

  lemma OfferIs(cfg: Config, s: St, u: St, ts: string, env: Env, ids: seq<nat>)
    requires Passed(s, u, ts, env, ids) && CanTake(cfg, s.gov, ts, Head(s, ts).req.who.agentId)
    ensures var w := Head(s, ts);
            && (env.now >= w.deadline ==> OfferTo(cfg, s, ts, env) == OfferTo(cfg, u, ts, env))
            && (env.now < w.deadline && Unavailable(s.slots, w.key.backend, env) ==>
                  OfferTo(cfg, s, ts, env) == OfferTo(cfg, u, ts, env).After(w))
  {
    var p := Popped(s, ts);
    OfferAlike(cfg, p, u, ts, env);
    OfferSame(cfg, s.gov, p.gov, s.slots, p.slots, env, ts, Queue(p.gov, ts));
  }

  /** Whatever is right of single rounds is right of the whole recursion, and its pass. */
  lemma {:induction false} ReleaseIs(cfg: Config, s: St, ts: string, env: Env, P: Account)
    requires Sane(s) && Rounds(ts, env, P)
    ensures P(s, TryDequeue(cfg, s, ts, env), OfferTo(cfg, s, ts, env))
    decreases |WaitingBag(s.gov.queues)|
  {
    var q := Queue(s.gov, ts);
    if q != [] && CanTake(cfg, s.gov, ts, q[0].req.who.agentId) {
      TryDequeueIs(cfg, s, ts, env);
      if env.now >= q[0].deadline {
        var u := Expired(s, ts);
        ExpiredIsStep(s, ts, env);
        OfferIs(cfg, s, u, ts, env, []);
        ReleaseIs(cfg, u, ts, env, P);
      } else if Unavailable(s.slots, q[0].key.backend, env) {
        var u := Bounced(s, ts, env.now);
        BouncedIsStep(s, ts, env);
        CountersAlike(Popped(s, ts), u, env);
        OfferIs(cfg, s, u, ts, env, [q[0].req.id]);
        ReleaseIs(cfg, u, ts, env, P);
      } else {
        ServedIsStep(s, ts, env.now);
      }
    }
  }

  predicate Left(s: St, t: St, ts: string, o: Offered, x: string) {
    Queue(t.gov, x) == if x == ts then o.rest else Queue(s.gov, x)
  }

  lemma LeftLater(s: St, u: St, t: St, ts: string, env: Env, ids: seq<nat>, o: Offered, x: string)
    requires Passed(s, u, ts, env, ids) && Left(u, t, ts, o, x)
    ensures Left(s, t, ts, o, x) && Left(s, t, ts, o.After(Head(s, ts)), x)
  {
    assert Queue(u.gov, x) == Queue(Popped(s, ts).gov, x);
  }

  lemma LeftServed(s: St, t: St, ts: string, now: nat, x: string)
    requires ServedStep(s, t, ts, now)
    ensures Left(s, t, ts, Offered([], Some(Head(s, ts)), Queue(s.gov, ts)[1..]), x)
  {
    assert Queue(t.gov, x) == Queue(Popped(s, ts).gov, x);
  }

  /** The queues after a release: its own as the pass leaves it, all others as they were. */
  lemma ReleaseQueues(cfg: Config, s: St, ts: string, env: Env, x: string)
    requires Sane(s)
    ensures Queue(TryDequeue(cfg, s, ts, env).gov, x)
         == if x == ts then OfferTo(cfg, s, ts, env).rest else Queue(s.gov, x)
  {
    var P := (s: St, t: St, o: Offered) => Left(s, t, ts, o, x);
    forall s: St, t: St | ServedStep(s, t, ts, env.now)
      ensures P(s, t, Offered([], Some(Head(s, ts)), Queue(s.gov, ts)[1..]))
    {
      LeftServed(s, t, ts, env.now, x);
    }
    forall s: St, u: St, t: St, o: Offered | ExpiredStep(s, u, ts, env) && P(u, t, o) ensures P(s, t, o) {
      LeftLater(s, u, t, ts, env, [], o, x);
    }
    forall s: St, u: St, t: St, o: Offered {:trigger BouncedStep(s, u, ts, env), P(u, t, o)}
      | BouncedStep(s, u, ts, env) && P(u, t, o)
      ensures P(s, t, o.After(Head(s, ts)))
    {
      LeftLater(s, u, t, ts, env, [Head(s, ts).req.id], o, x);
    }
    ReleaseIs(cfg, s, ts, env, P);
    assert P(s, TryDequeue(cfg, s, ts, env), OfferTo(cfg, s, ts, env));
  }

  /** The counters after it: one slot of the tool, and of the agent who keeps it, or none. */
  predicate Counted(g: Gov, h: Gov, ts: string, o: Offered, x: string, a: string) {
    && h.tools == g.tools && h.held == g.held + (if o.kept.Some? then 1 else 0)
    && Get(h.toolUse, x) == Get(g.toolUse, x) + (if o.kept.Some? && x == ts then 1 else 0)
    && Get(h.agentUse, a) == Get(g.agentUse, a) + (if o.KeptBy(a) then 1 else 0)
  }

  lemma CountedSame(f: Gov, g: Gov, h: Gov, ts: string, w: Waiter, o: Offered, x: string, a: string)
    requires SameUse(f, g) && Counted(g, h, ts, o, x, a)
    ensures Counted(f, h, ts, o, x, a) && Counted(f, h, ts, o.After(w), x, a)
  {
    assert Get(g.toolUse, x) == Get(f.toolUse, x) && Get(g.agentUse, a) == Get(f.agentUse, a);
  }

  lemma CountedServed(s: St, t: St, ts: string, now: nat, x: string, a: string)
    requires ServedStep(s, t, ts, now)
    ensures Counted(s.gov, t.gov, ts, Offered([], Some(Head(s, ts)), Queue(s.gov, ts)[1..]), x, a)
  {
  }

  lemma ReleaseCounts(cfg: Config, s: St, ts: string, env: Env, x: string, a: string)
    requires Sane(s)
    ensures Counted(s.gov, TryDequeue(cfg, s, ts, env).gov, ts, OfferTo(cfg, s, ts, env), x, a)
  {
    var P := (s: St, t: St, o: Offered) => Counted(s.gov, t.gov, ts, o, x, a);
    forall s: St, t: St | ServedStep(s, t, ts, env.now)
      ensures P(s, t, Offered([], Some(Head(s, ts)), Queue(s.gov, ts)[1..]))
    {
      CountedServed(s, t, ts, env.now, x, a);
    }
    forall s: St, u: St, t: St, o: Offered | ExpiredStep(s, u, ts, env) && P(u, t, o) ensures P(s, t, o) {
      CountedSame(s.gov, u.gov, t.gov, ts, Head(s, ts), o, x, a);
    }
    forall s: St, u: St, t: St, o: Offered {:trigger BouncedStep(s, u, ts, env), P(u, t, o)}
      | BouncedStep(s, u, ts, env) && P(u, t, o)
      ensures P(s, t, o.After(Head(s, ts)))
    {
      CountedSame(s.gov, u.gov, t.gov, ts, Head(s, ts), o, x, a);
    }
    ReleaseIs(cfg, s, ts, env, P);
  }

  /** The inserts of a release: one for whoever keeps the slot, or none. */
  function Starts(s: St, o: Offered): seq<Action> {
    if o.kept.Some? then [Insertion(s, o.kept.value.req, o.kept.value.key, Queued)] else []
  }

  /** The history of a release: everyone granted is on record in order, and one insert for who keeps the slot. */
  predicate Recorded(s: St, t: St, ts: string, o: Offered, x: string) {
    && Granted(t.log, x) == Granted(s.log, x) + (if x == ts then Ids(o.Granted()) else [])
    && Inserts(t.log) == Inserts(s.log) + Starts(s, o)
    && t.arrivals == s.arrivals
  }

  lemma RecordedBounce(s: St, u: St, t: St, ts: string, env: Env, o: Offered, x: string)
    requires BouncedStep(s, u, ts, env) && Recorded(u, t, ts, o, x)
    ensures Recorded(s, t, ts, o.After(Head(s, ts)), x)
  {
    var w := Head(s, ts);
    assert o.After(w).Granted() == [w] + o.Granted();
    assert Ids([w] + o.Granted()) == [w.req.id] + Ids(o.Granted());
    assert Starts(u, o) == Starts(s, o.After(w));
    assert Granted(u.log, x) == Granted(s.log, x) + (if x == ts then [w.req.id] else []);
  }

  lemma RecordedExpired(s: St, u: St, t: St, ts: string, env: Env, o: Offered, x: string)
    requires ExpiredStep(s, u, ts, env) && Recorded(u, t, ts, o, x)
    ensures Recorded(s, t, ts, o, x)
  {
    assert Starts(u, o) == Starts(s, o);
    assert Granted(u.log, x) == Granted(s.log, x) + [];
  }

  lemma RecordedServed(s: St, t: St, ts: string, now: nat, x: string)
    requires ServedStep(s, t, ts, now)
    ensures Recorded(s, t, ts, Offered([], Some(Head(s, ts)), Queue(s.gov, ts)[1..]), x)
  {
    var w := Head(s, ts);
    assert [] + [w] == [w] && Ids([w]) == [w.req.id];
    assert Granted(t.log, x) == Granted(s.log, x) + (if x == ts then [w.req.id] else []);
  }

  lemma ReleaseLogged(cfg: Config, s: St, ts: string, env: Env, x: string)
    requires Sane(s)
    ensures Recorded(s, TryDequeue(cfg, s, ts, env), ts, OfferTo(cfg, s, ts, env), x)
  {
    var P := (s: St, t: St, o: Offered) => Recorded(s, t, ts, o, x);
    forall s: St ensures P(s, s, Offered([], None, Queue(s.gov, ts))) {
      assert Ids([]) == [];
    }
    forall s: St, t: St | ServedStep(s, t, ts, env.now)
      ensures P(s, t, Offered([], Some(Head(s, ts)), Queue(s.gov, ts)[1..]))
    {
      RecordedServed(s, t, ts, env.now, x);
    }
    forall s: St, u: St, t: St, o: Offered | ExpiredStep(s, u, ts, env) && P(u, t, o) ensures P(s, t, o) {
      RecordedExpired(s, u, t, ts, env, o, x);
    }
    forall s: St, u: St, t: St, o: Offered {:trigger BouncedStep(s, u, ts, env), P(u, t, o)}
      | BouncedStep(s, u, ts, env) && P(u, t, o)
      ensures P(s, t, o.After(Head(s, ts)))
    {
      RecordedBounce(s, u, t, ts, env, o, x);
    }
    ReleaseIs(cfg, s, ts, env, P);
  }

  // ------------------------------------------------------------------ arrivals

  /** A call that handleCall does not answer by itself goes to acquire. */
  lemma HandleCallIs(cfg: Config, s: St, req: Request, env: Env)
    requires ToGovernor(cfg, s, req).Some?
    ensures var key := ToGovernor(cfg, s, req).value;
            && HandleCall(cfg, s, req, env)
               == Acquire(cfg, s, req, key, WaitDeadline(cfg, Str(key), env.now), ViaOf(s, req, key), env)
            && (ViaOf(s, req, key).Direct? || ViaOf(s, req, key).Confirmed?)
  {
  }

  /** A newcomer that gets no slot is refused at once, or joins the queue of its tool at the end. */
  lemma AcquireWaits(cfg: Config, s: St, req: Request, key: ToolKey, wait: nat, via: Via, env: Env)
    requires !CanTake(cfg, s.gov, Str(key), req.who.agentId)
    ensures var t := Acquire(cfg, s, req, key, wait, via, env);
            var deadline := if wait == 0 then env.now + ToolWait(cfg, s.gov, Str(key)) else wait;
            t == if deadline <= env.now then Answer(s, req, Throttled)
                 else s.(gov := Engine.Push(s.gov, Str(key), req, key, deadline))
  {
  }

  /** What a release does to the queues and to the history. */
  predicate Passes(s: St, t: St, ts: string, o: Offered, x: string) {
    Left(s, t, ts, o, x) && Recorded(s, t, ts, o, x)
  }

  lemma AwayPasses(s: St, u: St, t: St, ts: string, env: Env, id: nat, o: Offered, x: string)
    requires Alike(s, u, env) && Logs(s, u, ts, [id], []) && Passes(u, t, ts, o, x)
    ensures Left(s, t, ts, o, x) && t.arrivals == s.arrivals
    ensures Granted(t.log, x) == Granted(s.log, x) + (if x == ts then [id] + Ids(o.Granted()) else [])
    ensures Inserts(t.log) == Inserts(s.log) + Starts(s, o)
  {
    assert Granted(u.log, x) == Granted(s.log, x) + (if x == ts then [id] else []);
    assert Queue(u.gov, x) == Queue(s.gov, x);
  }

  /** The newcomer that finds its upstream unavailable sets off a pass down the queue, as a release does. */
  lemma TurnedAwayPass(cfg: Config, s: St, req: Request, key: ToolKey, env: Env, x: string)
    requires Sane(s)
    ensures var ts := Str(key);
            var t, o := TryDequeue(cfg, TurnedAway(s, ts, req, key, env.now), ts, env), OfferTo(cfg, s, ts, env);
            && Left(s, t, ts, o, x) && t.arrivals == s.arrivals
            && Granted(t.log, x) == Granted(s.log, x) + (if x == ts then [req.id] + Ids(o.Granted()) else [])
            && Inserts(t.log) == Inserts(s.log) + Starts(s, o)
  {
    var ts := Str(key);
    var u := TurnedAway(s, ts, req, key, env.now);
    TurnedAwayAlike(s, req, key, env);
    TurnedAwayLogs(s, ts, req, key, env.now);
    AlikePass(cfg, s, u, ts, env, req.id, x);
  }

  lemma AlikePass(cfg: Config, s: St, u: St, ts: string, env: Env, id: nat, x: string)
    requires Sane(s) && Alike(s, u, env) && Logs(s, u, ts, [id], [])
    ensures var t, o := TryDequeue(cfg, u, ts, env), OfferTo(cfg, s, ts, env);
            && Left(s, t, ts, o, x) && t.arrivals == s.arrivals
            && Granted(t.log, x) == Granted(s.log, x) + (if x == ts then [id] + Ids(o.Granted()) else [])
            && Inserts(t.log) == Inserts(s.log) + Starts(s, o)
  {
    CountersAlike(s, u, env);
    OfferAlike(cfg, s, u, ts, env);
    ReleaseQueues(cfg, u, ts, env, x);
    ReleaseLogged(cfg, u, ts, env, x);
    AwayPasses(s, u, TryDequeue(cfg, u, ts, env), ts, env, id, OfferTo(cfg, s, ts, env), x);
  }

  // ------------------------------------------------------------------ the end of a call

  /** The pass that the end of a call sets off. */
  function DropOffer(cfg: Config, s: St, c: Call, env: Env): Offered {
    var ts := Str(c.key);
    Offer(cfg, Engine.GiveBack(s.gov, ts, c.req.who.agentId), s.slots, env, ts, Queue(s.gov, ts))
  }

  /** The slot of a live call is on the books of its tool and of its agent. */
  lemma CallIsCounted(cfg: Config, s: St, id: nat)
    requires LedgerOf(cfg, Idle(s, false)) && id in s.calls
    ensures var c := s.calls[id];
            Get(s.gov.toolUse, Str(c.key)) >= 1 && Get(s.gov.agentUse, c.req.who.agentId) >= 1
  {
    var ts, agent := Str(s.calls[id].key), s.calls[id].req.who.agentId;
    MapBagMember(s.calls, ToolOf, ts);
    MapBagMember(s.calls, AgentOf, agent);
    assert ts in ToolOf(s.calls[id]) && agent in AgentOf(s.calls[id]);
    assert Get(s.gov.toolUse, ts) == MapBag(s.calls, ToolOf)[ts] + ToolsHeld([], ts);
    assert Get(s.gov.agentUse, agent) == MapBag(s.calls, AgentOf)[agent] + AgentsHeld([], agent);
  }

  lemma CountersOf(cfg: Config, s: St)
    requires LedgerOf(cfg, Idle(s, false))
    ensures Counters(s.gov)
  {
    forall t ensures Get(s.gov.toolUse, t) >= 0 {
      assert Get(s.gov.toolUse, t) == MapBag(s.calls, ToolOf)[t] + ToolsHeld([], t);
    }
    forall a ensures Get(s.gov.agentUse, a) >= 0 {
      assert Get(s.gov.agentUse, a) == MapBag(s.calls, AgentOf)[a] + AgentsHeld([], a);
    }
  }

  /** The call is gone and its slot is back, but has not been offered yet. */
  function Ended(s: St, id: nat): St
    requires id in s.calls
  {
    var c := s.calls[id];
    Released(Engine.Destroy(s, id), Held(c.key, c.req.who.agentId))
  }

  lemma EndedCounters(g: Gov, ts: string, agent: string)
    requires Counters(g)
    ensures Counters(Engine.GiveBack(g, ts, agent))
  {
    var h := Engine.GiveBack(g, ts, agent);
    forall t ensures Get(h.toolUse, t) >= 0 { assert Get(g.toolUse, t) >= 0; }
    forall a ensures Get(h.agentUse, a) >= 0 { assert Get(g.agentUse, a) >= 0; }
  }

  /** A destroyed call has answered, so that its end is not heard of; only the slot comes back. */
  predicate Ends(s: St, c: Call, u: St) {
    && u.gov == Engine.GiveBack(s.gov, Str(c.key), c.req.who.agentId)
    && u.slots == s.slots && u.log == s.log && u.arrivals == s.arrivals && u.nextId == s.nextId
  }

  lemma EndedIs(cfg: Config, s: St, id: nat)
    requires Discipline(cfg, false, s.calls) && id in s.calls && Unowned(s.calls[id])
    ensures Ends(s, s.calls[id], Ended(s, id))
  {
    assert Disciplined(cfg, false, s.calls[id]);
  }

  lemma DropIs(cfg: Config, s: St, id: nat, env: Env)
    requires Discipline(cfg, false, s.calls) && Enabled(s, Drop(id))
    ensures Step(cfg, s, Drop(id), env) == TryDequeue(cfg, Ended(s, id), Str(s.calls[id].key), env)
  {
    var c := s.calls[id];
    assert Disciplined(cfg, false, c);
    DropIsRelease(cfg, Engine.Destroy(s, id), c.permit, env);
  }

  lemma EndedSane(s: St, c: Call, u: St)
    requires Ends(s, c, u) && Sane(s)
    ensures Sane(u)
  {
    EndedCounters(s.gov, Str(c.key), c.req.who.agentId);
  }

  lemma DropOfferIs(cfg: Config, s: St, c: Call, u: St, env: Env)
    requires Ends(s, c, u)
    ensures OfferTo(cfg, u, Str(c.key), env) == DropOffer(cfg, s, c, env)
  {
  }

  lemma EndedCounts(s: St, c: Call, u: St, h: Gov, o: Offered, x: string, a: string)
    requires Ends(s, c, u) && Counted(u.gov, h, Str(c.key), o, x, a)
    requires Get(s.gov.toolUse, Str(c.key)) >= 1 && Get(s.gov.agentUse, c.req.who.agentId) >= 1
    ensures Settles(s.gov, c, h, o, x, a)
  {
  }

  /** Exactly the slot of the call is back, and exactly the slot of whoever keeps it is gone again. */
  predicate Settles(g: Gov, c: Call, h: Gov, o: Offered, x: string, a: string) {
    && h.tools == g.tools && h.held == g.held + (if o.kept.Some? then 1 else 0) - 1
    && Get(h.toolUse, x) == Get(g.toolUse, x) + (if x == Str(c.key) then (if o.kept.Some? then 1 else 0) - 1 else 0)
    && Get(h.agentUse, a)
       == Get(g.agentUse, a) - (if a == c.req.who.agentId then 1 else 0) + (if o.KeptBy(a) then 1 else 0)
  }

  /** The counters of every tool and every agent after the end of a call, with all releases nested in it. */
  lemma DropCounts(cfg: Config, s: St, id: nat, env: Env, x: string, a: string)
    requires LedgerOf(cfg, Idle(s, false)) && Keyed(false, s.gov.queues) && Discipline(cfg, false, s.calls)
    requires Enabled(s, Drop(id))
    ensures Settles(s.gov, s.calls[id], Step(cfg, s, Drop(id), env).gov, DropOffer(cfg, s, s.calls[id], env), x, a)
  {
    var c, u := s.calls[id], Ended(s, id);
    var t, o := Step(cfg, s, Drop(id), env), DropOffer(cfg, s, c, env);
    DropIs(cfg, s, id, env);
    EndedIs(cfg, s, id);
    CountersOf(cfg, s);
    EndedSane(s, c, u);
    CallIsCounted(cfg, s, id);
    DropOfferIs(cfg, s, c, u, env);
    ReleaseCounts(cfg, u, Str(c.key), env, x, a);
    EndedCounts(s, c, u, t.gov, o, x, a);
  }

  lemma EndedPasses(s: St, c: Call, u: St, t: St, o: Offered, x: string)
    requires Ends(s, c, u) && Passes(u, t, Str(c.key), o, x)
    ensures Left(s, t, Str(c.key), o, x) && t.arrivals == s.arrivals
    ensures Granted(t.log, x) == Granted(s.log, x) + (if x == Str(c.key) then Ids(o.Granted()) else [])
    ensures Inserts(t.log) == Inserts(s.log) + Starts(u, o)
  {
  }

  /** The queues and the history after the end of a call. */
  lemma DropPass(cfg: Config, s: St, id: nat, env: Env, x: string)
    requires LedgerOf(cfg, Idle(s, false)) && Keyed(false, s.gov.queues) && Discipline(cfg, false, s.calls)
    requires Enabled(s, Drop(id))
    ensures var c, t := s.calls[id], Step(cfg, s, Drop(id), env);
            var o := DropOffer(cfg, s, c, env);
            && Left(s, t, Str(c.key), o, x) && t.arrivals == s.arrivals
            && Granted(t.log, x) == Granted(s.log, x) + (if x == Str(c.key) then Ids(o.Granted()) else [])
            && Inserts(t.log) == Inserts(s.log) + Starts(Ended(s, id), o)
  {
    var c, u, ts := s.calls[id], Ended(s, id), Str(s.calls[id].key);
    DropIs(cfg, s, id, env);
    EndedIs(cfg, s, id);
    CountersOf(cfg, s);
    EndedSane(s, c, u);
    DropOfferIs(cfg, s, c, u, env);
    ReleaseQueues(cfg, u, ts, env, x);
    ReleaseLogged(cfg, u, ts, env, x);
    EndedPasses(s, c, u, Step(cfg, s, Drop(id), env), DropOffer(cfg, s, c, env), x);
  }
}
