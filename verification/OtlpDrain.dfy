/** Handing finished spans over to one background drainer (src/observe/OtlpHttpJsonTracer.cpp:32-45,
    115-155). Threads interleave between critical sections in any way; every step below is one critical
    section, or one piece of code outside the lock. */
module OtlpDrain {
  import opened Options

  type Item = string

  datatype Destructor = Running | Waiting | Returned

  /** The shared fields, and how many threads stand at each point of enqueue and drain: about to call
      the pool (`kicks`), with a failed pool call to undo (`failing`), as a job in the pool (`scheduled`),
      at the top of the loop (`looping`), with an item in hand before and after the unlocked look at
      closed_ (`held`, `posting`). `crashed` says that a post has thrown out of its drain. */
  datatype Proto = Proto(
    q: seq<Item>,
    draining: bool,
    closed: bool,
    kicks: nat,
    failing: nat,
    scheduled: nat,
    looping: nat,
    held: seq<Item>,
    posting: seq<Item>,
    crashed: nat,
    dtor: Destructor,
    accepted: seq<Item>,
    posted: seq<Item>,
    stranded: bool,
    failedAdds: nat)

  const START := Proto([], false, false, 0, 0, 0, 0, [], [], 0, Running, [], [], false, 0)

  datatype Act =
    | Enqueue(item: Item)
    | AddOk
    | AddFails
    | GiveUp
    | StartJob
    | Take
    | Look(i: nat, sawClosed: bool)
    | Post(i: nat)
    | PostThrows(i: nat)
    | Close
    | Poll

  /** Once the destructor has returned there is no object left to act on. The look at closed_ is not
      synchronised: it may miss a close, but does not see one that has not happened. */
  predicate Can(s: Proto, a: Act) {
    match a
    case Enqueue(_) => s.dtor != Returned
    case AddOk => s.kicks > 0
    case AddFails => s.kicks > 0
    case GiveUp => s.failing > 0
    case StartJob => s.scheduled > 0
    case Take => s.looping > 0
    case Look(i, saw) => i < |s.held| && (saw ==> s.closed)
    case Post(i) => i < |s.posting|
    case PostThrows(i) => i < |s.posting|
    case Close => s.dtor == Running
    case Poll => s.dtor == Waiting
  }

  function Without(l: seq<Item>, i: nat): seq<Item>
    requires i < |l|
  {
    l[..i] + l[i + 1..]
  }

  function Do(max: nat, s: Proto, a: Act): Proto
    requires Can(s, a)
  {
    match a
    case Enqueue(item) =>
      if s.closed || |s.q| >= max then s
      else
        var t := s.(q := s.q + [item], accepted := s.accepted + [item]);
        if s.draining then t else t.(draining := true, kicks := s.kicks + 1, stranded := false)
    case AddOk => s.(kicks := s.kicks - 1, scheduled := s.scheduled + 1)
    case AddFails => s.(kicks := s.kicks - 1, failing := s.failing + 1, failedAdds := s.failedAdds + 1)
    case GiveUp => s.(failing := s.failing - 1, draining := false, stranded := true)
    case StartJob => s.(scheduled := s.scheduled - 1, looping := s.looping + 1)
    case Take =>
      if s.closed || s.q == [] then s.(draining := false, looping := s.looping - 1)
      else s.(q := s.q[1..], looping := s.looping - 1, held := s.held + [s.q[0]])
    case Look(i, saw) =>
      var t := s.(held := Without(s.held, i));
      if saw then t.(looping := s.looping + 1) else t.(posting := s.posting + [s.held[i]])
    case Post(i) =>
      s.(posting := Without(s.posting, i), posted := s.posted + [s.posting[i]], looping := s.looping + 1)
    case PostThrows(i) => s.(posting := Without(s.posting, i), crashed := s.crashed + 1)
    case Close => s.(closed := true, q := [], dtor := Waiting)
    case Poll => if s.draining then s else s.(dtor := Returned)
  }

  /** Every thread that is on its way to drain, or draining. */
  function Drainers(s: Proto): nat {
    s.kicks + s.failing + s.scheduled + s.looping + |s.held| + |s.posting|
  }

  predicate Inv(max: nat, s: Proto) {
    && Drainers(s) + s.crashed == (if s.draining then 1 else 0)
    && |s.q| <= max
    && s.posted + s.posting + s.held <= s.accepted
    && (!s.closed && s.crashed == 0 ==> s.accepted == s.posted + s.posting + s.held + s.q)
    && (s.closed ==> s.q == [])
    && (s.q != [] && !s.draining ==> s.stranded)
    && (s.stranded || s.failing > 0 ==> s.failedAdds > 0)
    && (s.dtor != Running <==> s.closed)
    && (s.dtor == Returned ==> !s.draining)
  }

  // ------------------------------------------------------------------ every step keeps it

  lemma EnqueueKeeps(max: nat, s: Proto, a: Act)
    requires Inv(max, s) && Can(s, a) && a.Enqueue?
    ensures Inv(max, Do(max, s, a))
  {
    if !s.closed && |s.q| < max && s.crashed == 0 {
      assert s.accepted + [a.item] == s.posted + s.posting + s.held + (s.q + [a.item]);
    }
  }

  lemma TakeKeeps(max: nat, s: Proto)
    requires Inv(max, s) && Can(s, Take)
    ensures Inv(max, Do(max, s, Take))
  {
    if !s.closed && s.q != [] {
      assert s.q == [s.q[0]] + s.q[1..];
      assert s.posted + s.posting + (s.held + [s.q[0]]) + s.q[1..] == s.posted + s.posting + s.held + s.q;
    }
  }

  lemma LookSaw(max: nat, s: Proto)
    requires Inv(max, s) && Can(s, Look(0, true))
    ensures Inv(max, Do(max, s, Look(0, true)))
  {
    var t := Do(max, s, Look(0, true));
    assert t.held == [] && t.posting == [] == s.posting;
    assert t.posted + t.posting + t.held == s.posted;
    assert s.posted <= s.posted + s.posting + s.held;
  }

  lemma LookMissed(max: nat, s: Proto)
    requires Inv(max, s) && Can(s, Look(0, false))
    ensures Inv(max, Do(max, s, Look(0, false)))
  {
    var t := Do(max, s, Look(0, false));
    assert s.posting == [] && s.held == [s.held[0]];
    assert t.held == [] && t.posting == s.held;
    assert t.posted + t.posting + t.held == s.posted + s.posting + s.held;
  }

  lemma LookKeeps(max: nat, s: Proto, a: Act)
    requires Inv(max, s) && Can(s, a) && a.Look?
    ensures Inv(max, Do(max, s, a))
  {
    assert a.i == 0;
    if a.sawClosed { LookSaw(max, s); } else { LookMissed(max, s); }
  }

  lemma PostKeeps(max: nat, s: Proto, a: Act)
    requires Inv(max, s) && Can(s, a) && (a.Post? || a.PostThrows?)
    ensures Inv(max, Do(max, s, a))
  {
    assert s.posting == [s.posting[0]] && s.held == [];
    var t := Do(max, s, a);
    assert s.posted + s.posting + s.held == s.posted + s.posting;
    assert t.posted + t.posting + t.held == t.posted;
  }

  lemma InvKept(max: nat, s: Proto, a: Act)
    requires Inv(max, s) && Can(s, a)
    ensures Inv(max, Do(max, s, a))
  {
    if a.Enqueue? {
      EnqueueKeeps(max, s, a);
    } else if a.Take? {
      TakeKeeps(max, s);
    } else if a.Look? {
      LookKeeps(max, s, a);
    } else if a.Post? || a.PostThrows? {
      PostKeeps(max, s, a);
    }
  }

  predicate AllCan(max: nat, s: Proto, acts: seq<Act>)
    decreases |acts|
  {
    acts == [] || (Can(s, acts[0]) && AllCan(max, Do(max, s, acts[0]), acts[1..]))
  }

  function Exec(max: nat, s: Proto, acts: seq<Act>): Proto
    requires AllCan(max, s, acts)
    decreases |acts|
  {
    if acts == [] then s else Exec(max, Do(max, s, acts[0]), acts[1..])
  }

  lemma {:induction false} ExecKeeps(max: nat, s: Proto, acts: seq<Act>)
    requires Inv(max, s) && AllCan(max, s, acts)
    ensures Inv(max, Exec(max, s, acts))
    decreases |acts|
  {
    if acts != [] {
      InvKept(max, s, acts[0]);
      ExecKeeps(max, Do(max, s, acts[0]), acts[1..]);
    }
  }

  // ------------------------------------------------------------------ main results

  /** Over all interleavings: draining_ is set exactly while one thread is on its way to drain, or
      draining, or has died of a throwing post; there are never two; the queue stays within its bound. */
  lemma SingleDrainer(max: nat, acts: seq<Act>)
    requires AllCan(max, START, acts)
    ensures var s := Exec(max, START, acts);
            && Drainers(s) + s.crashed <= 1
            && (s.draining <==> Drainers(s) == 1 || s.crashed == 1)
            && |s.q| <= max
  {
    ExecKeeps(max, START, acts);
  }

  /** What was posted is always a prefix of what was accepted; before the close nothing is lost, unless a
      post threw: posted, in hand and queued together are everything accepted, in order. */
  lemma PostsInOrder(max: nat, acts: seq<Act>)
    requires AllCan(max, START, acts)
    ensures var s := Exec(max, START, acts);
            && s.posted <= s.accepted
            && (!s.closed && s.crashed == 0 ==> s.accepted == s.posted + s.posting + s.held + s.q)
  {
    ExecKeeps(max, START, acts);
    var s := Exec(max, START, acts);
    assert s.posted <= s.posted + s.posting + s.held;
  }

  /** Nobody drains, and nobody is on the way to. */
  predicate Quiet(s: Proto) { Drainers(s) == 0 && s.crashed == 0 }

  /** A queue that is not empty has its drainer, unless the last attempt to get one failed in the pool or
      a post threw. After a failed attempt a span brings a new one if and only if the queue has room for it. */
  lemma QueueIsServed(max: nat, acts: seq<Act>, item: Item)
    requires AllCan(max, START, acts) && Exec(max, START, acts).q != []
    ensures var s := Exec(max, START, acts);
            && (Drainers(s) == 1 || s.crashed == 1 || (s.stranded && s.failedAdds > 0))
            && (Quiet(s) && Can(s, Enqueue(item)) ==>
                  (Drainers(Do(max, s, Enqueue(item))) == 1 <==> |s.q| < max))
  {
    ExecKeeps(max, START, acts);
    var s := Exec(max, START, acts);
    if Can(s, Enqueue(item)) { InvKept(max, s, Enqueue(item)); }
  }

  /** A full queue that nobody drains is never drained again: enqueue returns before it would ask for a
      drainer, so nothing more is accepted and nothing more is posted, whatever happens. */
  lemma {:induction false} FullQueueIsFinal(max: nat, s: Proto, acts: seq<Act>)
    requires Inv(max, s) && Quiet(s) && (s.closed || |s.q| >= max) && AllCan(max, s, acts)
    ensures var t := Exec(max, s, acts);
            Quiet(t) && (t.closed || |t.q| >= max) && t.posted == s.posted && t.accepted == s.accepted
    decreases |acts|
  {
    if acts != [] {
      InvKept(max, s, acts[0]);
      FullQueueIsFinal(max, Do(max, s, acts[0]), acts[1..]);
    }
  }

  lemma ExecCons(max: nat, s: Proto, a: Act, rest: seq<Act>)
    requires Can(s, a) && AllCan(max, Do(max, s, a), rest)
    ensures AllCan(max, s, [a] + rest) && Exec(max, s, [a] + rest) == Exec(max, Do(max, s, a), rest)
  {
    assert ([a] + rest)[1..] == rest;
  }

  /** A job in the pool takes the head of the queue and posts it. */
  const ONE_POST: seq<Act> := [Take] + ([Look(0, false)] + ([Post(0)] + []))

  lemma OnePost(max: nat, s: Proto)
    requires s.looping > 0 && s.held == [] && s.posting == [] && !s.closed && s.q != []
    ensures AllCan(max, s, ONE_POST) && Exec(max, s, ONE_POST).posted == s.posted + [s.q[0]]
  {
    var s1 := Do(max, s, Take);
    assert s1.held == [s.q[0]];
    var s2 := Do(max, s1, Look(0, false));
    assert s2.posting == [s.q[0]];
    ExecCons(max, s2, Post(0), []);
    ExecCons(max, s1, Look(0, false), [Post(0)] + []);
    ExecCons(max, s, Take, [Look(0, false)] + ([Post(0)] + []));
  }

  /** What happens when one more span comes and nothing goes wrong. */
  function Rescue(item: Item): seq<Act> {
    [Enqueue(item)] + ([AddOk] + ([StartJob] + ONE_POST))
  }

  lemma RescuePosts(max: nat, s: Proto, item: Item)
    requires Inv(max, s) && Quiet(s) && !s.closed && |s.q| < max
    ensures AllCan(max, s, Rescue(item)) && Exec(max, s, Rescue(item)).posted == s.posted + [(s.q + [item])[0]]
  {
    var s1 := Do(max, s, Enqueue(item));
    var s2 := Do(max, s1, AddOk);
    OnePost(max, Do(max, s2, StartJob));
    ExecCons(max, s2, StartJob, ONE_POST);
    ExecCons(max, s1, AddOk, [StartJob] + ONE_POST);
    ExecCons(max, s, Enqueue(item), [AddOk] + ([StartJob] + ONE_POST));
  }

  predicate Continues(max: nat, s: Proto, acts: seq<Act>) {
    AllCan(max, s, acts) && Exec(max, s, acts).posted != s.posted
  }

  /** With nobody draining, anything can ever be posted again if and only if the tracer is open and its queue
      has room. */
  lemma PostingGoesOn(max: nat, s: Proto)
    requires Inv(max, s) && Quiet(s)
    ensures (exists acts :: Continues(max, s, acts)) <==> !s.closed && |s.q| < max
  {
    if !s.closed && |s.q| < max {
      RescuePosts(max, s, "");
      assert Continues(max, s, Rescue(""));
    }
    if acts :| Continues(max, s, acts) && (s.closed || |s.q| >= max) {
      FullQueueIsFinal(max, s, acts);
    }
  }

  /** And the other case is reached: one failed pool call is enough when the queue holds one span. */
  lemma StrandedForGood(item: Item)
    ensures var acts := [Enqueue(item), AddFails, GiveUp];
            && AllCan(1, START, acts)
            && var s := Exec(1, START, acts);
            && s.q == [item] && Quiet(s) && !s.closed && s.posted == []
            && forall more :: !Continues(1, s, more)
  {
    var acts := [Enqueue(item), AddFails, GiveUp];
    var s1 := Do(1, START, Enqueue(item));
    var s2 := Do(1, s1, AddFails);
    var s3 := Do(1, s2, GiveUp);
    ExecCons(1, s2, GiveUp, []);
    ExecCons(1, s1, AddFails, [GiveUp] + []);
    ExecCons(1, START, Enqueue(item), [AddFails] + ([GiveUp] + []));
    assert acts == [Enqueue(item)] + ([AddFails] + ([GiveUp] + []));
    ExecKeeps(1, START, acts);
    PostingGoesOn(1, s3);
  }

  /** When the destructor returns no thread is left that could touch the object, and none will be. */
  lemma NoneLeftBehind(max: nat, acts: seq<Act>, a: Act)
    requires AllCan(max, START, acts) && Exec(max, START, acts).dtor == Returned
    ensures var s := Exec(max, START, acts); Drainers(s) == 0 && s.crashed == 0 && !Can(s, a)
  {
    ExecKeeps(max, START, acts);
  }

  /** Once a post has thrown, draining_ stays set for ever, nothing is ever posted again, and the destructor
      never returns. */
  lemma {:induction false} ThrowingPostIsFinal(max: nat, s: Proto, acts: seq<Act>)
    requires Inv(max, s) && s.crashed == 1 && AllCan(max, s, acts)
    ensures var t := Exec(max, s, acts);
            t.crashed == 1 && t.draining && t.posted == s.posted && t.dtor != Returned
    decreases |acts|
  {
    if acts != [] {
      InvKept(max, s, acts[0]);
      assert Do(max, s, acts[0]).crashed == 1 && Do(max, s, acts[0]).posted == s.posted;
      ThrowingPostIsFinal(max, Do(max, s, acts[0]), acts[1..]);
    }
  }

  /** What the one drainer still has to do after the close before the flag is cleared. */
  function WayOut(s: Proto): seq<Act> {
    if s.kicks > 0 then [AddOk] + ([StartJob] + ([Take] + []))
    else if s.failing > 0 then [GiveUp] + []
    else if s.scheduled > 0 then [StartJob] + ([Take] + [])
    else if s.looping > 0 then [Take] + []
    else if s.held != [] then [Look(0, true)] + ([Take] + [])
    else if s.posting != [] then [Post(0)] + ([Take] + [])
    else []
  }

  /** A run that ends with the flag cleared, the tracer closed and its destructor waiting. */
  predicate LeadsOut(max: nat, s: Proto, acts: seq<Act>) {
    && AllCan(max, s, acts)
    && var t := Exec(max, s, acts); !t.draining && t.dtor == Waiting
  }

  lemma OutAfter(max: nat, s: Proto, a: Act, rest: seq<Act>)
    requires Can(s, a) && LeadsOut(max, Do(max, s, a), rest)
    ensures LeadsOut(max, s, [a] + rest)
  {
    ExecCons(max, s, a, rest);
  }

  lemma TakeLeadsOut(max: nat, s: Proto)
    requires s.looping > 0 && s.closed && s.dtor == Waiting
    ensures LeadsOut(max, s, [Take] + [])
  {
    OutAfter(max, s, Take, []);
  }

  lemma JobLeadsOut(max: nat, s: Proto)
    requires s.scheduled > 0 && s.closed && s.dtor == Waiting
    ensures LeadsOut(max, s, [StartJob] + ([Take] + []))
  {
    TakeLeadsOut(max, Do(max, s, StartJob));
    OutAfter(max, s, StartJob, [Take] + []);
  }

  lemma WayOutLeadsOut(max: nat, s: Proto)
    requires Inv(max, s) && s.crashed == 0 && s.dtor == Waiting
    ensures LeadsOut(max, s, WayOut(s))
  {
    if s.kicks > 0 {
      JobLeadsOut(max, Do(max, s, AddOk));
      OutAfter(max, s, AddOk, [StartJob] + ([Take] + []));
    } else if s.failing > 0 {
      OutAfter(max, s, GiveUp, []);
    } else if s.scheduled > 0 {
      JobLeadsOut(max, s);
    } else if s.looping > 0 {
      TakeLeadsOut(max, s);
    } else if s.held != [] {
      TakeLeadsOut(max, Do(max, s, Look(0, true)));
      OutAfter(max, s, Look(0, true), [Take] + []);
    } else if s.posting != [] {
      TakeLeadsOut(max, Do(max, s, Post(0)));
      OutAfter(max, s, Post(0), [Take] + []);
    }
  }

  predicate Ends(max: nat, s: Proto, acts: seq<Act>) {
    AllCan(max, s, acts) && Exec(max, s, acts).dtor == Returned
  }

  lemma {:induction false} ThenPoll(max: nat, s: Proto, acts: seq<Act>)
    requires LeadsOut(max, s, acts)
    ensures Ends(max, s, acts + [Poll])
    decreases |acts|
  {
    if acts == [] {
      assert acts + [Poll] == [Poll] + [];
      ExecCons(max, s, Poll, []);
    } else {
      ThenPoll(max, Do(max, s, acts[0]), acts[1..]);
      assert acts + [Poll] == [acts[0]] + (acts[1..] + [Poll]);
      ExecCons(max, s, acts[0], acts[1..] + [Poll]);
    }
  }

  lemma WaitingEnds(max: nat, s: Proto)
    requires Inv(max, s) && s.crashed == 0 && s.dtor == Waiting
    ensures Ends(max, s, WayOut(s) + [Poll])
  {
    WayOutLeadsOut(max, s);
    ThenPoll(max, s, WayOut(s));
  }

  /** The destructor's wait can end if and only if no post has thrown: from every other state, wherever the one
      drainer stands, there is a way to clear the flag and return. */
  lemma DestructorCanReturn(max: nat, s: Proto)
    requires Inv(max, s)
    ensures (exists acts :: Ends(max, s, acts)) <==> s.crashed == 0
  {
    if s.crashed == 0 {
      if s.dtor == Returned {
        assert Ends(max, s, []);
      } else if s.dtor == Waiting {
        WaitingEnds(max, s);
        assert Ends(max, s, WayOut(s) + [Poll]);
      } else {
        var t := Do(max, s, Close);
        InvKept(max, s, Close);
        WaitingEnds(max, t);
        ExecCons(max, s, Close, WayOut(t) + [Poll]);
        assert Ends(max, s, [Close] + (WayOut(t) + [Poll]));
      }
    }
    if acts :| Ends(max, s, acts) && s.crashed == 1 {
      ThrowingPostIsFinal(max, s, acts);
    }
  }

  /** And a run in which one throws: its destructor never returns, whatever follows. */
  lemma HangsForGood(item: Item)
    ensures var acts := [Enqueue(item), AddOk, StartJob, Take, Look(0, false), PostThrows(0)];
            && AllCan(1, START, acts)
            && Exec(1, START, acts).crashed == 1
            && forall more :: !Ends(1, Exec(1, START, acts), more)
  {
    var acts := [Enqueue(item), AddOk, StartJob, Take, Look(0, false), PostThrows(0)];
    var s1 := Do(1, START, Enqueue(item));
    var s3 := Do(1, Do(1, s1, AddOk), StartJob);
    var s4 := Do(1, s3, Take);
    assert s4.held == [item];
    var s5 := Do(1, s4, Look(0, false));
    assert s5.posting == [item];
    ExecCons(1, s5, PostThrows(0), []);
    ExecCons(1, s4, Look(0, false), [PostThrows(0)] + []);
    ExecCons(1, s3, Take, [Look(0, false)] + ([PostThrows(0)] + []));
    ExecCons(1, Do(1, s1, AddOk), StartJob, [Take] + ([Look(0, false)] + ([PostThrows(0)] + [])));
    ExecCons(1, s1, AddOk, [StartJob] + ([Take] + ([Look(0, false)] + ([PostThrows(0)] + []))));
    ExecCons(1, START, Enqueue(item), [AddOk] + ([StartJob] + ([Take] + ([Look(0, false)] + ([PostThrows(0)] + [])))));
    assert acts == [Enqueue(item)] + ([AddOk] + ([StartJob] + ([Take] + ([Look(0, false)] + ([PostThrows(0)] + [])))));
    ExecKeeps(1, START, acts);
    DestructorCanReturn(1, Exec(1, START, acts));
  }

  // ------------------------------------------------------------------ the object

  /** The tracer's queue and flags; each method is one critical section. */
  class Tracer {
    const max: nat
    var q: seq<Item>
    var draining: bool
    var closed: bool
    ghost var view: Proto

    ghost predicate Valid()
      reads this
    {
      q == view.q && draining == view.draining && closed == view.closed && Inv(max, view)
    }

    constructor (max: nat)
      ensures Valid() && this.max == max && view == START
    {
      this.max := max;
      q, draining, closed, view := [], false, false, START;
    }

    /** Any step that leaves the shared fields alone happens outside. */
    ghost method Outside(a: Act)
      requires Valid() && Can(view, a)
      requires a.AddOk? || a.AddFails? || a.StartJob? || a.Look? || a.Post? || a.PostThrows?
      modifies this`view
      ensures Valid() && view == Do(max, old(view), a)
    {
      InvKept(max, view, a);
      view := Do(max, view, a);
    }

    method EnqueueLocked(item: Item) returns (kick: bool)
      requires Valid() && Can(view, Enqueue(item))
      modifies this
      ensures Valid() && view == Do(max, old(view), Enqueue(item))
      ensures kick <==> view.kicks == old(view).kicks + 1
      ensures view.q == if old(closed) || |old(q)| >= max then old(q) else old(q) + [item]
    {
      InvKept(max, view, Enqueue(item));
      kick := false;
      if closed || |q| >= max { return; }
      q := q + [item];
      if !draining {
        draining := true;
        kick := true;
      }
      view := Do(max, view, Enqueue(item));
    }

    method GiveUpLocked()
      requires Valid() && Can(view, GiveUp)
      modifies this
      ensures Valid() && view == Do(max, old(view), GiveUp)
    {
      InvKept(max, view, GiveUp);
      draining := false;
      view := Do(max, view, GiveUp);
    }

    method TakeLocked() returns (item: Option<Item>)
      requires Valid() && Can(view, Take)
      modifies this
      ensures Valid() && view == Do(max, old(view), Take)
      ensures item == if old(closed) || old(q) == [] then None else Some(old(q)[0])
    {
      InvKept(max, view, Take);
      if closed || q == [] {
        draining := false;
        item := None;
      } else {
        item := Some(q[0]);
        q := q[1..];
      }
      view := Do(max, view, Take);
    }

    /** The loop of drain when nobody interferes: everything queued is posted, in order, and the flag is
        cleared on the way out. */
    method DrainAlone() returns (posts: seq<Item>)
      requires Valid() && view.looping == 1 && !closed
      modifies this
      ensures Valid() && posts == old(q) && q == [] && !draining
      ensures view.posted == old(view).posted + posts && Drainers(view) == 0
    {
      posts := [];
      while true
        invariant Valid() && view.looping == 1 && !closed
        invariant posts + q == old(q) && view.posted == old(view).posted + posts
        decreases |q|
      {
        ghost var before := q;
        var item := TakeLocked();
        if item.None? { break; }
        assert before == [item.value] + q;
        posts := posts + [item.value];
        PostHeld(item.value);
      }
    }

    /** The item in hand is posted, outside the lock. */
    ghost method PostHeld(item: Item)
      requires Valid() && view.held == [item] && !closed
      modifies this`view
      ensures Valid() && view.looping == 1 && view.posted == old(view).posted + [item]
    {
      assert view.posting == [] && view.looping == 0;
      Outside(Look(0, false));
      assert view.posting == [item];
      Outside(Post(0));
    }

    method CloseLocked()
      requires Valid() && Can(view, Close)
      modifies this
      ensures Valid() && view == Do(max, old(view), Close) && closed && q == []
    {
      InvKept(max, view, Close);
      closed := true;
      q := [];
      view := Do(max, view, Close);
    }

    /** One round of the destructor's wait. */
    method PollLocked() returns (done: bool)
      requires Valid() && Can(view, Poll)
      modifies this
      ensures Valid() && view == Do(max, old(view), Poll) && (done <==> Drainers(view) == 0 && view.crashed == 0)
    {
      InvKept(max, view, Poll);
      done := !draining;
      view := Do(max, view, Poll);
    }
  }
}
