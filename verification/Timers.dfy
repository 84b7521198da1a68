/** The timers of the event loop: a heap of deadlines, lazy cancellation, and callbacks that may arm and
    cancel timers themselves (netlib/src/EventLoop.cpp:192-250). */
module Timers {
  import opened Options

  datatype Timer = Timer(id: nat, when: nat, interval: nat)

  /** What happened so far: the history that the guarantees are about. */
  datatype Fact = Armed(t: Timer) | Cancelled(id: nat) | Ran(t: Timer, at: nat)

  /** The loop's tables, and where it stands inside processExpiredTimers: the batch still to be looked
      at, and the timer whose callback is running. `since` and `due` remember how the batch started. */
  datatype Loop = Loop(
    heap: multiset<Timer>,
    canceled: set<nat>,
    callbacks: set<nat>,
    armed: set<nat>,
    batch: seq<Timer>,
    running: Option<Timer>,
    now: nat,
    since: nat,
    due: seq<Timer>,
    trace: seq<Fact>)

  const START := Loop(multiset{}, {}, {}, {}, [], None, 0, 0, [], [])

  /** One step. `Collect` pops everything that is due, in an order the heap allows; `Begin` takes the
      next timer of the batch; `End` is the return of its callback. */
  datatype Act =
    | Arm(id: nat, when: nat, interval: nat)
    | Cancel(id: nat)
    | Collect(now: nat, order: seq<Timer>)
    | Begin
    | End

  predicate Sorted(order: seq<Timer>) {
    forall i, j :: 0 <= i < j < |order| ==> order[i].when <= order[j].when
  }

  /** `order` is exactly what is due at `now`, earliest deadline first. */
  ghost predicate AllDue(heap: multiset<Timer>, now: nat, order: seq<Timer>) {
    && Sorted(order)
    && multiset(order) <= heap
    && (forall t :: t in order ==> t.when <= now)
    && (forall t :: t in heap - multiset(order) ==> t.when > now)
  }

  ghost predicate Can(s: Loop, a: Act) {
    match a
    case Arm(id, _, _) => id !in s.armed
    case Cancel(_) => true
    case Collect(now, order) => s.batch == [] && s.running.None? && s.now <= now && AllDue(s.heap, now, order)
    case Begin => s.batch != [] && s.running.None?
    case End => s.running.Some?
  }

  function Do(s: Loop, a: Act): Loop
    requires Can(s, a)
  {
    match a
    case Arm(id, when, interval) =>
      var t := Timer(id, when, interval);
      s.(heap := s.heap + multiset{t}, callbacks := s.callbacks + {id}, armed := s.armed + {id},
         trace := s.trace + [Armed(t)])
    case Cancel(id) =>
      s.(canceled := s.canceled + {id}, callbacks := s.callbacks - {id}, trace := s.trace + [Cancelled(id)])
    case Collect(now, order) =>
      s.(heap := s.heap - multiset(order), batch := order, now := now, since := |s.trace|, due := order)
    case Begin =>
      var t := s.batch[0];
      if t.id in s.canceled then
        s.(canceled := s.canceled - {t.id}, callbacks := s.callbacks - {t.id}, batch := s.batch[1..])
      else
        s.(callbacks := s.callbacks - {t.id}, batch := s.batch[1..], running := Some(t),
           trace := if t.id in s.callbacks then s.trace + [Ran(t, s.now)] else s.trace)
    case End =>
      var t := s.running.value;
      if t.interval > 0 && t.id !in s.canceled then
        s.(running := None, callbacks := s.callbacks + {t.id},
           heap := s.heap + multiset{t.(when := s.now + t.interval)})
      else s.(running := None)
  }

  // ------------------------------------------------------------------ invariant

  /** How often a timer is pending: in the heap, in the batch, or running. */
  function Times(s: Loop, t: Timer): nat {
    s.heap[t] + multiset(s.batch)[t] + if s.running == Some(t) then 1 else 0
  }

  /** A timer is pending at most once, and under its own id only. */
  ghost predicate Single(s: Loop) {
    && (forall t :: Times(s, t) <= 1)
    && (forall t :: Times(s, t) > 0 ==> t.id in s.armed)
    && (forall t, u :: Times(s, t) > 0 && Times(s, u) > 0 && t.id == u.id ==> t == u)
  }

  predicate Runnable(s: Loop, t: Timer) { t in s.heap || t in s.batch }

  predicate IsPending(s: Loop, t: Timer) { Runnable(s, t) || s.running == Some(t) }

  ghost predicate HaveCallbacks(s: Loop) {
    forall t :: Runnable(s, t) ==> t.id in s.callbacks || t.id in s.canceled
  }

  /** A cancellation on record still holds back whatever is, or will be, pending under its id. */
  ghost predicate CancelsKnown(s: Loop) {
    && (forall id :: Cancelled(id) in s.trace && id !in s.armed ==> id in s.canceled)
    && (forall t :: IsPending(s, t) && Cancelled(t.id) in s.trace ==> t.id in s.canceled)
    && (forall id :: id in s.canceled ==> Cancelled(id) in s.trace)
  }

  predicate RanAs(f: Fact, id: nat) { f.Ran? && f.t.id == id }

  ghost predicate NeverAfterCancel(trace: seq<Fact>) {
    forall i, j :: 0 <= i < j < |trace| && trace[i].Cancelled? ==> !RanAs(trace[j], trace[i].id)
  }

  /** Whatever ran was armed; it is runnable again only if it is periodic, and keeps its interval. */
  ghost predicate Remembered(s: Loop) {
    && (forall i :: 0 <= i < |s.trace| && s.trace[i].Ran? ==> s.trace[i].t.id in s.armed)
    && (forall i, t :: 0 <= i < |s.trace| && IsPending(s, t) && RanAs(s.trace[i], t.id) ==>
          t.interval == s.trace[i].t.interval)
    && (forall i, t :: 0 <= i < |s.trace| && Runnable(s, t) && RanAs(s.trace[i], t.id) ==> t.interval > 0)
  }

  ghost predicate OneShotsOnce(trace: seq<Fact>) {
    forall i, j :: 0 <= i < j < |trace| && trace[i].Ran? && RanAs(trace[j], trace[i].t.id) ==>
      trace[j].t.interval == trace[i].t.interval > 0
  }

  /** The deadline of t is the one it was armed with, or one interval after it last ran. */
  ghost predicate Scheduled(trace: seq<Fact>, n: nat, t: Timer) {
    exists i :: 0 <= i < n <= |trace| && (trace[i] == Armed(t) || Rearmed(trace[i], t))
  }

  predicate Rearmed(f: Fact, t: Timer) {
    f.Ran? && f.t.interval > 0 && t == f.t.(when := f.at + f.t.interval)
  }

  ghost predicate OnSchedule(s: Loop) {
    && (forall t :: Runnable(s, t) ==> Scheduled(s.trace, |s.trace|, t))
    && (s.running.Some? ==> Ran(s.running.value, s.now) in s.trace)
    && (forall j :: 0 <= j < |s.trace| && s.trace[j].Ran? ==> Scheduled(s.trace, j, s.trace[j].t))
  }

  ghost predicate NoneEarly(s: Loop) {
    && (forall t :: t in s.batch ==> t.when <= s.now)
    && (forall j :: 0 <= j < |s.trace| && s.trace[j].Ran? ==> s.trace[j].t.when <= s.trace[j].at)
  }

  /** Since the batch was collected, timers started in the order of their deadlines. */
  ghost predicate BatchOrder(s: Loop) {
    && s.since <= |s.trace|
    && Sorted(s.batch)
    && (forall i, j :: s.since <= i < j < |s.trace| && s.trace[i].Ran? && s.trace[j].Ran? ==>
          s.trace[i].t.when <= s.trace[j].t.when)
    && (forall i, t :: s.since <= i < |s.trace| && s.trace[i].Ran? && t in s.batch ==>
          s.trace[i].t.when <= t.when)
  }

  predicate RanSince(trace: seq<Fact>, since: nat, t: Timer, at: nat) {
    exists i :: since <= i < |trace| && trace[i] == Ran(t, at)
  }

  /** What was due is still in the batch, or has run since it was collected, or was cancelled. */
  ghost predicate DueServed(s: Loop) {
    forall t :: t in s.due ==> t in s.batch || RanSince(s.trace, s.since, t, s.now) || Cancelled(t.id) in s.trace
  }

  /** A one-shot is pending or has run; a periodic timer is pending, whatever its next deadline is. */
  ghost predicate Lives(s: Loop, t: Timer) {
    if t.interval == 0 then IsPending(s, t) || exists f :: f in s.trace && f.Ran? && f.t == t
    else exists u :: IsPending(s, u) && u.id == t.id && u.interval == t.interval
  }

  ghost predicate NoneLost(s: Loop) {
    forall f :: f in s.trace && f.Armed? && Cancelled(f.t.id) !in s.trace ==> Lives(s, f.t)
  }

  ghost predicate Inv(s: Loop) {
    && NoneLost(s)
    && Single(s)
    && HaveCallbacks(s)
    && CancelsKnown(s)
    && NeverAfterCancel(s.trace)
    && Remembered(s)
    && OneShotsOnce(s.trace)
    && OnSchedule(s)
    && NoneEarly(s)
    && BatchOrder(s)
    && DueServed(s)
  }

  // ------------------------------------------------------------------ every step keeps it

  lemma HeadOf(batch: seq<Timer>)
    requires batch != []
    ensures forall t :: multiset(batch)[t] == multiset(batch[1..])[t] + if t == batch[0] then 1 else 0
    ensures forall t :: t in batch <==> t == batch[0] || t in batch[1..]
  {
    assert batch == [batch[0]] + batch[1..];
  }

  lemma TimesArm(s: Loop, a: Act, t: Timer)
    requires a.Arm? && Can(s, a)
    ensures Times(Do(s, a), t) == Times(s, t) + if t == Timer(a.id, a.when, a.interval) then 1 else 0
  {
  }

  lemma TimesSame(s: Loop, a: Act, t: Timer)
    requires (a.Cancel? || a.Collect?) && Can(s, a)
    ensures Times(Do(s, a), t) == Times(s, t)
  {
    if a.Collect? {
      assert multiset(a.order)[t] <= s.heap[t];
      assert (s.heap - multiset(a.order))[t] == s.heap[t] - multiset(a.order)[t];
    }
  }

  lemma TimesBegin(s: Loop, t: Timer)
    requires Can(s, Begin)
    ensures var d := Do(s, Begin);
            Times(d, t) == if s.batch[0].id in s.canceled && t == s.batch[0] then Times(s, t) - 1 else Times(s, t)
  {
    HeadOf(s.batch);
  }

  lemma TimesEnd(s: Loop, t: Timer)
    requires Can(s, End)
    ensures var d, r := Do(s, End), s.running.value;
            Times(d, t) + (if t == r then 1 else 0)
            == Times(s, t)
               + if r.interval > 0 && r.id !in s.canceled && t == r.(when := s.now + r.interval) then 1 else 0
  {
  }

  lemma SingleArm(s: Loop, a: Act)
    requires a.Arm? && Can(s, a) && Single(s)
    ensures Single(Do(s, a))
  {
    var d := Do(s, a);
    forall t ensures Times(d, t) == Times(s, t) + if t == Timer(a.id, a.when, a.interval) then 1 else 0 {
      TimesArm(s, a, t);
    }
    assert forall t :: Times(s, t) > 0 ==> t.id != a.id;
  }

  lemma SingleSame(s: Loop, a: Act)
    requires (a.Cancel? || a.Collect?) && Can(s, a) && Single(s)
    ensures Single(Do(s, a))
  {
    forall t ensures Times(Do(s, a), t) == Times(s, t) { TimesSame(s, a, t); }
  }

  lemma SingleBegin(s: Loop)
    requires Can(s, Begin) && Single(s)
    ensures Single(Do(s, Begin))
  {
    forall t ensures Times(Do(s, Begin), t) <= Times(s, t) { TimesBegin(s, t); }
  }

  lemma SingleEnd(s: Loop)
    requires Can(s, End) && Single(s)
    ensures Single(Do(s, End))
  {
    var d, r := Do(s, End), s.running.value;
    var u := r.(when := s.now + r.interval);
    assert Times(s, r) == 1;
    forall t ensures Times(d, t) <= 1 && (Times(d, t) > 0 ==> t == u || (t != r && Times(s, t) > 0)) {
      TimesEnd(s, t);
      if t == u && u != r { assert t.id == r.id; }
    }
    forall t, v | Times(d, t) > 0 && Times(d, v) > 0 && t.id == v.id ensures t == v {
    }
  }

  lemma SingleKept(s: Loop, a: Act)
    requires Can(s, a) && Single(s)
    ensures Single(Do(s, a))
  {
    if a.Arm? {
      SingleArm(s, a);
    } else if a.Begin? {
      SingleBegin(s);
    } else if a.End? {
      SingleEnd(s);
    } else {
      SingleSame(s, a);
    }
  }

  /** After the head of the batch is taken, nothing runnable has its id. */
  lemma HeadOnce(s: Loop, u: Timer)
    requires Single(s) && s.batch != [] && (u in s.heap || u in s.batch[1..])
    ensures u.id != s.batch[0].id
  {
    var t := s.batch[0];
    HeadOf(s.batch);
    assert Times(s, t) <= 1 && Times(s, t) > 0 && Times(s, u) > 0;
  }

  /** Where what is runnable after a step comes from. */
  lemma RunnableAfter(s: Loop, a: Act, u: Timer)
    requires Can(s, a) && Runnable(Do(s, a), u)
    ensures || Runnable(s, u)
            || (a.Arm? && u == Timer(a.id, a.when, a.interval))
            || (a.End? && u == s.running.value.(when := s.now + s.running.value.interval)
                && u.interval > 0 && u.id !in s.canceled && u.id in Do(s, a).callbacks)
    ensures a.Begin? ==> u in s.heap || u in s.batch[1..]
  {
    if a.Begin? { HeadOf(s.batch); }
  }

  lemma CallbacksKept(s: Loop, a: Act)
    requires Can(s, a) && Single(s) && HaveCallbacks(s)
    ensures HaveCallbacks(Do(s, a))
  {
    var d := Do(s, a);
    forall u | Runnable(d, u) ensures u.id in d.callbacks || u.id in d.canceled {
      RunnableAfter(s, a, u);
      if a.Begin? { HeadOnce(s, u); }
    }
  }

  /** What a step adds to the history: at most one fact. */
  function News(s: Loop, a: Act): seq<Fact>
    requires Can(s, a)
  {
    match a
    case Arm(id, when, interval) => [Armed(Timer(id, when, interval))]
    case Cancel(id) => [Cancelled(id)]
    case Begin =>
      var t := s.batch[0];
      if t.id !in s.canceled && t.id in s.callbacks then [Ran(t, s.now)] else []
    case _ => []
  }

  lemma TraceAfter(s: Loop, a: Act)
    requires Can(s, a)
    ensures Do(s, a).trace == s.trace + News(s, a)
    ensures forall f :: f in Do(s, a).trace <==> f in s.trace || f in News(s, a)
  {
  }

  lemma CancelsKept(s: Loop, a: Act)
    requires Can(s, a) && Single(s) && CancelsKnown(s)
    ensures CancelsKnown(Do(s, a))
  {
    var d := Do(s, a);
    TraceAfter(s, a);
    forall t | IsPending(d, t) && Cancelled(t.id) in d.trace ensures t.id in d.canceled {
      if Runnable(d, t) {
        RunnableAfter(s, a, t);
        if a.Begin? { HeadOnce(s, t); }
      }
    }
    forall id | Cancelled(id) in d.trace && id !in d.armed ensures id in d.canceled {
      if a.Begin? { assert Times(s, s.batch[0]) > 0; }
    }
  }

  lemma RanKept(s: Loop, a: Act)
    requires Can(s, a) && CancelsKnown(s) && NeverAfterCancel(s.trace)
    ensures NeverAfterCancel(Do(s, a).trace)
  {
    TraceAfter(s, a);
    if a.Begin? && News(s, a) != [] {
      assert IsPending(s, s.batch[0]);
      assert Cancelled(s.batch[0].id) !in s.trace;
      forall i | 0 <= i < |s.trace| && s.trace[i].Cancelled? ensures s.trace[i].id != s.batch[0].id {
        assert s.trace[i] == Cancelled(s.trace[i].id);
      }
    }
  }

  lemma OnceKept(s: Loop, a: Act)
    requires Can(s, a) && Remembered(s) && OneShotsOnce(s.trace)
    ensures OneShotsOnce(Do(s, a).trace)
  {
    TraceAfter(s, a);
    if a.Begin? { assert Runnable(s, s.batch[0]); }
  }

  lemma RememberedBegin(s: Loop)
    requires Can(s, Begin) && Single(s) && Remembered(s)
    ensures Remembered(Do(s, Begin))
  {
    var d, t := Do(s, Begin), s.batch[0];
    TraceAfter(s, Begin);
    assert Times(s, t) > 0 && IsPending(s, t);
    forall u | Runnable(d, u) ensures Runnable(s, u) && u.id != t.id {
      RunnableAfter(s, Begin, u);
      HeadOnce(s, u);
    }
  }

  lemma RememberedEnd(s: Loop)
    requires Can(s, End) && Remembered(s)
    ensures Remembered(Do(s, End))
  {
    var d := Do(s, End);
    forall i, u | 0 <= i < |d.trace| && Runnable(d, u) && RanAs(d.trace[i], u.id)
      ensures u.interval > 0 && u.interval == d.trace[i].t.interval
    {
      RunnableAfter(s, End, u);
      if !Runnable(s, u) { assert IsPending(s, s.running.value) && RanAs(s.trace[i], s.running.value.id); }
    }
  }

  lemma RememberedOther(s: Loop, a: Act)
    requires Can(s, a) && !a.Begin? && !a.End? && Remembered(s)
    ensures Remembered(Do(s, a))
  {
    var d := Do(s, a);
    TraceAfter(s, a);
    forall i, u | 0 <= i < |d.trace| && IsPending(d, u) && RanAs(d.trace[i], u.id)
      ensures u.interval == d.trace[i].t.interval && (Runnable(d, u) ==> u.interval > 0)
    {
      assert i < |s.trace| && d.trace[i] == s.trace[i];
      if Runnable(d, u) { RunnableAfter(s, a, u); }
    }
  }

  lemma RememberedKept(s: Loop, a: Act)
    requires Can(s, a) && Single(s) && Remembered(s)
    ensures Remembered(Do(s, a))
  {
    if a.Begin? {
      RememberedBegin(s);
    } else if a.End? {
      RememberedEnd(s);
    } else {
      RememberedOther(s, a);
    }
  }

  lemma ScheduledLater(trace: seq<Fact>, news: seq<Fact>, n: nat, t: Timer)
    requires Scheduled(trace, n, t)
    ensures Scheduled(trace + news, n, t)
  {
    var i :| 0 <= i < n <= |trace| && (trace[i] == Armed(t) || Rearmed(trace[i], t));
    assert (trace + news)[i] == trace[i];
  }

  /** The timers that a step makes runnable are on schedule. */
  lemma NewlyScheduled(s: Loop, a: Act, u: Timer)
    requires Can(s, a) && OnSchedule(s) && Runnable(Do(s, a), u)
    ensures Scheduled(Do(s, a).trace, |Do(s, a).trace|, u)
  {
    var d := Do(s, a);
    TraceAfter(s, a);
    RunnableAfter(s, a, u);
    if Runnable(s, u) {
      ScheduledLater(s.trace, News(s, a), |s.trace|, u);
    } else if a.Arm? {
      assert d.trace[|s.trace|] == Armed(u);
    } else {
      var i :| 0 <= i < |s.trace| && s.trace[i] == Ran(s.running.value, s.now);
      assert Rearmed(d.trace[i], u);
    }
  }

  lemma ScheduleKept(s: Loop, a: Act)
    requires Can(s, a) && HaveCallbacks(s) && OnSchedule(s)
    ensures OnSchedule(Do(s, a))
  {
    var d := Do(s, a);
    TraceAfter(s, a);
    forall u | Runnable(d, u) ensures Scheduled(d.trace, |d.trace|, u) { NewlyScheduled(s, a, u); }
    forall j | 0 <= j < |d.trace| && d.trace[j].Ran? ensures Scheduled(d.trace, j, d.trace[j].t) {
      if j < |s.trace| {
        ScheduledLater(s.trace, News(s, a), j, s.trace[j].t);
      } else {
        assert Runnable(s, s.batch[0]);
        ScheduledLater(s.trace, News(s, a), |s.trace|, s.batch[0]);
      }
    }
    if a.Begin? { assert Runnable(s, s.batch[0]); }
  }

  lemma EarlyKept(s: Loop, a: Act)
    requires Can(s, a) && NoneEarly(s)
    ensures NoneEarly(Do(s, a))
  {
    TraceAfter(s, a);
  }

  lemma OrderBegin(s: Loop)
    requires Can(s, Begin) && BatchOrder(s)
    ensures BatchOrder(Do(s, Begin))
  {
    var d, t := Do(s, Begin), s.batch[0];
    TraceAfter(s, Begin);
    HeadOf(s.batch);
    forall u | u in d.batch ensures t.when <= u.when {
      var k :| 0 <= k < |s.batch| && s.batch[k] == u;
    }
    forall i | d.since <= i < |d.trace| && d.trace[i].Ran? ensures d.trace[i].t.when <= t.when {
      assert t in s.batch;
      if i < |s.trace| { assert d.trace[i] == s.trace[i]; }
    }
    forall i, j | d.since <= i < j < |d.trace| && d.trace[i].Ran? && d.trace[j].Ran?
      ensures d.trace[i].t.when <= d.trace[j].t.when
    {
      assert d.trace[i] == s.trace[i];
      if j < |s.trace| { assert d.trace[j] == s.trace[j]; }
    }
    forall i, u | d.since <= i < |d.trace| && d.trace[i].Ran? && u in d.batch ensures d.trace[i].t.when <= u.when {
    }
  }

  lemma OrderOther(s: Loop, a: Act)
    requires Can(s, a) && !a.Begin? && BatchOrder(s)
    ensures BatchOrder(Do(s, a))
  {
    var d := Do(s, a);
    TraceAfter(s, a);
    forall i, u | d.since <= i < |d.trace| && d.trace[i].Ran? && u in d.batch ensures d.trace[i].t.when <= u.when {
      assert !a.Collect? && i < |s.trace| && d.trace[i] == s.trace[i];
    }
    forall i, j | d.since <= i < j < |d.trace| && d.trace[i].Ran? && d.trace[j].Ran?
      ensures d.trace[i].t.when <= d.trace[j].t.when
    {
      assert !a.Collect? && j < |s.trace| && d.trace[i] == s.trace[i] && d.trace[j] == s.trace[j];
    }
  }

  lemma OrderKept(s: Loop, a: Act)
    requires Can(s, a) && BatchOrder(s)
    ensures BatchOrder(Do(s, a))
  {
    if a.Begin? { OrderBegin(s); } else { OrderOther(s, a); }
  }

  lemma RanSinceLater(trace: seq<Fact>, news: seq<Fact>, since: nat, t: Timer, at: nat)
    requires RanSince(trace, since, t, at)
    ensures RanSince(trace + news, since, t, at)
  {
    var i :| since <= i < |trace| && trace[i] == Ran(t, at);
    assert (trace + news)[i] == trace[i];
  }

  lemma DueKept(s: Loop, a: Act)
    requires Can(s, a) && HaveCallbacks(s) && CancelsKnown(s) && BatchOrder(s) && DueServed(s)
    ensures DueServed(Do(s, a))
  {
    var d := Do(s, a);
    TraceAfter(s, a);
    forall t | t in d.due && t !in d.batch
      ensures RanSince(d.trace, d.since, t, d.now) || Cancelled(t.id) in d.trace
    {
      if !a.Collect? && RanSince(s.trace, s.since, t, s.now) {
        RanSinceLater(s.trace, News(s, a), s.since, t, s.now);
      } else if a.Begin? && t in s.batch {
        HeadOf(s.batch);
        assert Runnable(s, t);
        if t.id !in s.canceled { assert d.trace[|s.trace|] == Ran(t, s.now); }
      }
    }
  }

  /** What is pending stays so, unless its callback has just returned. */
  lemma PendingAfter(s: Loop, a: Act, u: Timer)
    requires Can(s, a) && CancelsKnown(s) && IsPending(s, u) && Cancelled(u.id) !in Do(s, a).trace
    ensures IsPending(Do(s, a), u) || (a.End? && s.running == Some(u))
    ensures a.End? && s.running == Some(u) && u.interval > 0 ==> IsPending(Do(s, a), u.(when := s.now + u.interval))
  {
    TraceAfter(s, a);
    if a.Collect? {
      assert u in s.heap ==> u in s.heap - multiset(a.order) || u in multiset(a.order);
    } else if a.Begin? {
      HeadOf(s.batch);
    }
  }

  lemma LivesOn(s: Loop, a: Act, t: Timer)
    requires Can(s, a) && CancelsKnown(s) && OnSchedule(s) && Lives(s, t) && Cancelled(t.id) !in Do(s, a).trace
    ensures Lives(Do(s, a), t)
  {
    TraceAfter(s, a);
    if t.interval == 0 {
      if IsPending(s, t) {
        PendingAfter(s, a, t);
        if a.End? && s.running == Some(t) { assert Ran(t, s.now) in Do(s, a).trace; }
      } else {
        var f :| f in s.trace && f.Ran? && f.t == t;
        assert f in Do(s, a).trace;
      }
    } else {
      var u :| IsPending(s, u) && u.id == t.id && u.interval == t.interval;
      PendingAfter(s, a, u);
    }
  }

  lemma NoneLostKept(s: Loop, a: Act)
    requires Can(s, a) && CancelsKnown(s) && OnSchedule(s) && NoneLost(s)
    ensures NoneLost(Do(s, a))
  {
    var d := Do(s, a);
    TraceAfter(s, a);
    forall f | f in d.trace && f.Armed? && Cancelled(f.t.id) !in d.trace ensures Lives(d, f.t) {
      if f in s.trace {
        LivesOn(s, a, f.t);
      } else {
        assert IsPending(d, f.t);
      }
    }
  }

  lemma InvKept(s: Loop, a: Act)
    requires Can(s, a) && Inv(s)
    ensures Inv(Do(s, a))
  {
    NoneLostKept(s, a);
    SingleKept(s, a);
    CallbacksKept(s, a);
    CancelsKept(s, a);
    RanKept(s, a);
    OnceKept(s, a);
    RememberedKept(s, a);
    ScheduleKept(s, a);
    EarlyKept(s, a);
    OrderKept(s, a);
    DueKept(s, a);
  }

  // ------------------------------------------------------------------ every run

  ghost predicate AllCan(s: Loop, acts: seq<Act>)
    decreases |acts|
  {
    acts == [] || (Can(s, acts[0]) && AllCan(Do(s, acts[0]), acts[1..]))
  }

  function Exec(s: Loop, acts: seq<Act>): Loop
    requires AllCan(s, acts)
    decreases |acts|
  {
    if acts == [] then s else Exec(Do(s, acts[0]), acts[1..])
  }

  lemma {:induction false} ExecKeeps(s: Loop, acts: seq<Act>)
    requires Inv(s) && AllCan(s, acts)
    ensures Inv(Exec(s, acts))
    decreases |acts|
  {
    if acts != [] {
      InvKept(s, acts[0]);
      ExecKeeps(Do(s, acts[0]), acts[1..]);
    }
  }

  lemma RunInv(acts: seq<Act>)
    requires AllCan(START, acts)
    ensures Inv(Exec(START, acts))
  {
    ExecKeeps(START, acts);
  }

  /** A timer that was cancelled before its callback started never runs from then on, even when the
      cancel came from an earlier callback of the very batch that holds it. */
  lemma CancelledNeverRuns(acts: seq<Act>, i: nat, j: nat)
    requires AllCan(START, acts)
    requires var h := Exec(START, acts).trace; i < j < |h| && h[i].Cancelled? && h[j].Ran?
    ensures var h := Exec(START, acts).trace; h[j].t.id != h[i].id
  {
    RunInv(acts);
    var h := Exec(START, acts).trace;
    assert !RanAs(h[j], h[i].id);
  }

  /** No timer is lost: in every history, one that was armed and not cancelled has run, or is pending, if it
      is a one-shot; and is pending, with its interval, if it is periodic. */
  lemma NoTimerIsLost(acts: seq<Act>, t: Timer)
    requires AllCan(START, acts)
    requires var h := Exec(START, acts).trace; Armed(t) in h && Cancelled(t.id) !in h
    ensures var s := Exec(START, acts);
            if t.interval == 0 then IsPending(s, t) || exists f :: f in s.trace && f.Ran? && f.t == t
            else exists u :: IsPending(s, u) && u.id == t.id && u.interval == t.interval
  {
    RunInv(acts);
    assert Lives(Exec(START, acts), Armed(t).t);
  }

  /** A one-shot runs at most once. */
  lemma OneShotRunsOnce(acts: seq<Act>, i: nat, j: nat)
    requires AllCan(START, acts)
    requires var h := Exec(START, acts).trace;
             i < |h| && j < |h| && h[i].Ran? && h[j].Ran? && h[i].t.id == h[j].t.id && h[i].t.interval == 0
    ensures i == j
  {
    RunInv(acts);
    var h := Exec(START, acts).trace;
    assert RanAs(h[i], h[j].t.id) && RanAs(h[j], h[i].t.id);
  }

  /** No callback starts before its deadline, and that deadline is the one the timer was armed with, or
      one interval after the batch of its previous run. */
  lemma NoneRunsEarly(acts: seq<Act>, j: nat)
    requires AllCan(START, acts) && j < |Exec(START, acts).trace| && Exec(START, acts).trace[j].Ran?
    ensures var h := Exec(START, acts).trace;
            && h[j].t.when <= h[j].at
            && exists i :: 0 <= i < j && (h[i] == Armed(h[j].t) || Rearmed(h[i], h[j].t))
  {
    RunInv(acts);
    var h := Exec(START, acts).trace;
    assert Scheduled(h, j, h[j].t);
  }

  /** Within a batch callbacks start in the order of their deadlines. */
  lemma BatchInDeadlineOrder(acts: seq<Act>, i: nat, j: nat)
    requires AllCan(START, acts)
    requires var s := Exec(START, acts); s.since <= i < j < |s.trace| && s.trace[i].Ran? && s.trace[j].Ran?
    ensures var h := Exec(START, acts).trace; h[i].t.when <= h[j].t.when
  {
    RunInv(acts);
  }

  /** When a batch is through, everything that was due when it was collected has run in it, or was
      cancelled; and no timer, periodic or not, has two entries in the heap. */
  lemma BatchServesAllDue(acts: seq<Act>, t: Timer, u: Timer)
    requires AllCan(START, acts) && Exec(START, acts).batch == []
    ensures var s := Exec(START, acts);
            && (t in s.due ==> RanSince(s.trace, s.since, t, s.now) || Cancelled(t.id) in s.trace)
            && s.heap[t] <= 1
            && (t in s.heap && u in s.heap && t.id == u.id ==> t == u)
  {
    RunInv(acts);
    var s := Exec(START, acts);
    assert Times(s, t) <= 1;
    if t in s.heap && u in s.heap && t.id == u.id { assert Times(s, t) > 0 && Times(s, u) > 0; }
  }

  // ------------------------------------------------------------------ the loop as an object

  /** What a callback does to the timers. */
  datatype Command = RunAfter(when: nat, interval: nat) | CancelTimer(id: nat)

  lemma {:induction false} EarliestExists(heap: multiset<Timer>)
    requires heap != multiset{}
    ensures exists t :: t in heap && forall u :: u in heap ==> t.when <= u.when
    decreases |heap|
  {
    var t :| t in heap;
    var rest := heap - multiset{t};
    assert forall u :: u in heap ==> u == t || u in rest;
    if rest == multiset{} {
      assert t in heap && forall u :: u in heap ==> t.when <= u.when;
    } else {
      EarliestExists(rest);
      var e :| e in rest && forall u :: u in rest ==> e.when <= u.when;
      var m := if t.when <= e.when then t else e;
      assert m in heap && forall u :: u in heap ==> m.when <= u.when;
    }
  }

  lemma {:induction false} ExecPush(s: Loop, acts: seq<Act>, a: Act)
    requires AllCan(s, acts) && Can(Exec(s, acts), a)
    ensures AllCan(s, acts + [a]) && Exec(s, acts + [a]) == Do(Exec(s, acts), a)
    decreases |acts|
  {
    if acts == [] {
      assert (acts + [a])[1..] == [];
    } else {
      ExecPush(Do(s, acts[0]), acts[1..], a);
      assert (acts + [a])[1..] == acts[1..] + [a];
    }
  }

  /** The heap is being taken apart: `expired` came off first, in order, and is due. */
  ghost predicate Split(before: multiset<Timer>, heap: multiset<Timer>, expired: seq<Timer>, now: nat) {
    && heap + multiset(expired) == before && Sorted(expired)
    && (forall t :: t in expired ==> t.when <= now)
    && (forall t, u :: t in expired && u in heap ==> t.when <= u.when)
  }

  lemma SplitNext(before: multiset<Timer>, heap: multiset<Timer>, expired: seq<Timer>, t: Timer, now: nat)
    requires Split(before, heap, expired, now)
    requires t in heap && t.when <= now && forall u :: u in heap ==> t.when <= u.when
    ensures Split(before, heap - multiset{t}, expired + [t], now)
  {
    assert multiset(expired + [t]) == multiset(expired) + multiset{t};
    assert heap == (heap - multiset{t}) + multiset{t};
    assert forall u :: u in expired + [t] ==> u in expired || u == t;
    assert forall u :: u in heap - multiset{t} ==> u in heap;
  }

  lemma Popped(before: multiset<Timer>, heap: multiset<Timer>, expired: seq<Timer>, now: nat)
    requires Split(before, heap, expired, now) && forall u :: u in heap ==> u.when > now
    ensures AllDue(before, now, expired) && heap == before - multiset(expired)
  {
    assert before - multiset(expired) == heap;
  }

  lemma DueTaken(heap: multiset<Timer>, now: nat, order: seq<Timer>)
    requires AllDue(heap, now, order)
    ensures forall t :: t in heap && t.when <= now ==> t in order
  {
    forall t | t in heap && t.when <= now ensures t in order {
      assert t !in heap - multiset(order);
    }
  }

  ghost predicate Traced(acts: seq<Act>, view: Loop) {
    AllCan(START, acts) && view == Exec(START, acts)
  }

  predicate Below(ids: set<nat>, bound: nat) {
    forall id :: id in ids ==> id < bound
  }

  /** The model's tables are those of the object. */
  predicate Shows(view: Loop, heap: multiset<Timer>, canceled: set<nat>, callbacks: set<nat>, nextId: nat) {
    heap == view.heap && canceled == view.canceled && callbacks == view.callbacks && Below(view.armed, nextId)
  }

  /** The loop's tables, and as ghosts all the steps it has taken and where they have led. */
  class EventLoop {
    var heap: multiset<Timer>
    var canceled: set<nat>
    var callbacks: set<nat>
    var nextId: nat
    ghost var acts: seq<Act>
    ghost var view: Loop

    ghost predicate Valid()
      reads this
    {
      Traced(acts, view) && Shows(view, heap, canceled, callbacks, nextId)
    }

    constructor ()
      ensures Valid() && view == START
    {
      heap, canceled, callbacks, nextId, acts, view := multiset{}, {}, {}, 1, [], START;
    }

    ghost method Record(a: Act)
      requires Traced(acts, view) && Can(view, a)
      modifies this`acts, this`view
      ensures Traced(acts, view) && view == Do(old(view), a)
    {
      ExecPush(START, acts, a);
      acts := acts + [a];
      view := Do(view, a);
    }

    method InsertTimer(when: nat, interval: nat) returns (id: nat)
      requires Valid()
      modifies this
      ensures Valid() && Can(old(view), Act.Arm(id, when, interval))
      ensures view == Do(old(view), Act.Arm(id, when, interval))
    {
      id := nextId;
      nextId := nextId + 1;
      callbacks := callbacks + {id};
      heap := heap + multiset{Timer(id, when, interval)};
      Record(Act.Arm(id, when, interval));
    }

    method CancelInLoop(id: nat)
      requires Valid()
      modifies this
      ensures Valid() && view == Do(old(view), Act.Cancel(id))
    {
      canceled := canceled + {id};
      callbacks := callbacks - {id};
      Record(Act.Cancel(id));
    }

    /** The top of the heap; among equal deadlines any may be on top. */
    method Top() returns (t: Timer)
      requires heap != multiset{}
      ensures t in heap && forall u :: u in heap ==> t.when <= u.when
    {
      EarliestExists(heap);
      t :| t in heap && forall u :: u in heap ==> t.when <= u.when;
    }

    /** Where a callback may take the loop: it does not touch the batch it is part of. */
    ghost predicate Within(before: Loop)
      reads this
    {
      && view.batch == before.batch && view.running == before.running && view.now == before.now
      && view.since == before.since && view.due == before.due && before.trace <= view.trace
    }

    method Callback(commands: seq<Command>)
      requires Valid()
      modifies this
      ensures Valid() && Within(old(view))
    {
      for i := 0 to |commands|
        invariant Valid() && Within(old(view))
      {
        match commands[i]
        case RunAfter(when, interval) => var id := InsertTimer(when, interval);
        case CancelTimer(id) => CancelInLoop(id);
      }
    }

    /** Pops what is due, earliest first. */
    method PopDue(now: nat) returns (expired: seq<Timer>)
      modifies `heap
      ensures AllDue(old(heap), now, expired) && heap == old(heap) - multiset(expired)
    {
      expired := [];
      ghost var before := heap;
      while heap != multiset{}
        invariant Split(before, heap, expired, now)
        decreases |heap|
      {
        var t := Top();
        if t.when > now { break; }
        SplitNext(before, heap, expired, t, now);
        heap := heap - multiset{t};
        expired := expired + [t];
      }
      Popped(before, heap, expired, now);
    }

    /** `before` is the heap that `order` came from. */
    ghost method RecordBatch(now: nat, order: seq<Timer>, before: multiset<Timer>)
      requires Traced(acts, view) && Shows(view, before, canceled, callbacks, nextId)
      requires heap == before - multiset(order)
      requires view.batch == [] && view.running.None? && view.now <= now && AllDue(before, now, order)
      modifies this`acts, this`view
      ensures Valid() && view.batch == order == view.due && view.running.None? && view.now == now
      ensures view.since == |old(view).trace| && view.trace == old(view).trace
    {
      Record(Collect(now, order));
    }

    /** What is due moves from the heap to the batch. */
    method Gather(now: nat) returns (expired: seq<Timer>)
      requires Valid() && view.batch == [] && view.running.None? && view.now <= now
      modifies this
      ensures Valid() && view.batch == expired == view.due && view.running.None? && view.now == now
      ensures view.since == |old(view).trace| && view.trace == old(view).trace
      ensures forall t :: t in old(heap) && t.when <= now ==> t in expired
    {
      ghost var before := heap;
      expired := PopDue(now);
      DueTaken(before, now, expired);
      RecordBatch(now, expired, before);
    }

    /** The loop over the batch. */
    method RunBatch(expired: seq<Timer>, now: nat, script: seq<seq<Command>>)
      requires Valid() && view.batch == expired && view.running.None? && view.now == now
      modifies this
      ensures Valid() && view.batch == [] && view.running.None? && view.now == now
      ensures view.since == old(view).since && view.due == old(view).due && old(view).trace <= view.trace
    {
      var started := 0;
      for k := 0 to |expired|
        invariant Valid() && view.batch == expired[k..] && view.running.None? && view.now == now
        invariant view.since == old(view).since && view.due == old(view).due && old(view).trace <= view.trace
      {
        assert expired[k..][0] == expired[k] && expired[k..][1..] == expired[k + 1..];
        started := RunOne(expired[k], now, script, started);
      }
    }

    /** processExpiredTimers; the i-th callback that starts does what `script` says. */
    method ProcessExpired(now: nat, script: seq<seq<Command>>)
      requires Valid() && view.batch == [] && view.running.None? && view.now <= now
      modifies this
      ensures Valid() && view.batch == [] && view.running.None? && view.now == now
      ensures view.since == |old(view).trace| && old(view).trace <= view.trace
      ensures forall t :: t in old(heap) && t.when <= now ==>
                RanSince(view.trace, view.since, t, now) || Cancelled(t.id) in view.trace
    {
      var expired := Gather(now);
      RunBatch(expired, now, script);
      RunInv(acts);
    }

    method RunOne(t: Timer, now: nat, script: seq<seq<Command>>, started: nat) returns (next: nat)
      requires Valid() && view.batch != [] && view.batch[0] == t && view.running.None? && view.now == now
      modifies this
      ensures Valid() && view.batch == old(view).batch[1..] && view.running.None?
      ensures view.now == now && view.since == old(view).since && view.due == old(view).due
      ensures old(view).trace <= view.trace
    {
      next := started;
      if t.id in canceled {
        Discard(t);
      } else {
        var has := Start(t);
        if has {
          Callback(if started < |script| then script[started] else []);
          next := started + 1;
        }
        Finish(t, now);
      }
    }

    method Discard(t: Timer)
      requires Valid() && Can(view, Begin) && view.batch[0] == t && t.id in canceled
      modifies this
      ensures Valid() && view == Do(old(view), Begin)
    {
      canceled := canceled - {t.id};
      callbacks := callbacks - {t.id};
      Record(Begin);
    }

    /** The callback is moved out of the table before it runs. */
    method Start(t: Timer) returns (has: bool)
      requires Valid() && Can(view, Begin) && view.batch[0] == t && t.id !in canceled
      modifies this
      ensures Valid() && view == Do(old(view), Begin) && has == (t.id in old(callbacks))
    {
      has := t.id in callbacks;
      callbacks := callbacks - {t.id};
      Record(Begin);
    }

    method Finish(t: Timer, now: nat)
      requires Valid() && view.running == Some(t) && view.now == now
      modifies this
      ensures Valid() && view == Do(old(view), End)
    {
      if t.interval > 0 && t.id !in canceled {
        callbacks := callbacks + {t.id};
        heap := heap + multiset{t.(when := now + t.interval)};
      }
      Record(End);
    }
  }
}
