/** The write side of a connection: direct writes, the output buffer behind them, and the orderly close
    (netlib/src/TcpConnection.cpp:42-84,108-198). What the kernel answers to each write is given. */
module Connection {
  import opened Buffers

  datatype State = Connected | Disconnecting | Disconnected

  /** The answer to one write call; more than what was offered counts as all of it. */
  datatype Answer = Wrote(n: nat) | Again | Interrupted | HardError

  /** `accepted` is what the socket took so far, `closing` the number of posted closeInLoop calls;
      a connection that is no longer attached gets no events from its socket. */
  datatype Conn =
    Conn(output: seq<bv8>, writing: bool, state: State, attached: bool, closing: nat, accepted: seq<bv8>)

  const FRESH := Conn([], false, Connected, true, 0, [])

  function Min(a: nat, b: nat): nat { if a < b then a else b }

  /** The first answer that is not an interruption; a kernel that says nothing more would block. */
  function Settled(kernel: seq<Answer>): Answer {
    if kernel == [] then Again
    else if kernel[0].Interrupted? then Settled(kernel[1..])
    else kernel[0]
  }

  /** A direct write is tried only when nothing is waiting to be written. */
  predicate Direct(c: Conn) { !c.writing && c.output == [] }

  function Send(c: Conn, bytes: seq<bv8>, kernel: seq<Answer>): Conn {
    if c.state.Disconnected? then c
    else if Direct(c) then
      match Settled(kernel)
      case Wrote(n) =>
        var m := Min(n, |bytes|);
        Queued(c.(accepted := c.accepted + bytes[..m]), bytes[m..])
      case HardError => c
      case _ => Queued(c, bytes)
    else Queued(c, bytes)
  }

  function Queued(c: Conn, rest: seq<bv8>): Conn {
    if rest == [] then c else c.(output := c.output + rest, writing := true)
  }

  lemma SendDirect(c: Conn, bytes: seq<bv8>, kernel: seq<Answer>)
    requires !c.state.Disconnected? && Direct(c) && !Settled(kernel).HardError?
    ensures var m := if Settled(kernel).Wrote? then Min(Settled(kernel).n, |bytes|) else 0;
            Send(c, bytes, kernel) == Queued(c.(accepted := c.accepted + bytes[..m]), bytes[m..])
  {
    assert bytes[0..] == bytes && c.accepted + bytes[..0] == c.accepted;
  }

  function HandleClose(c: Conn): Conn {
    if c.state.Disconnected? then c else c.(state := Disconnected, attached := false)
  }

  function Close(c: Conn): Conn {
    if c.output == [] then HandleClose(c) else c.(state := Disconnecting)
  }

  /** The write loop, one answer at a time. */
  function Drain(c: Conn, kernel: seq<Answer>): Conn
    decreases |kernel|
  {
    if c.output == [] then
      var d := c.(writing := false);
      if d.state.Disconnecting? then Close(d) else d
    else if kernel == [] then c
    else
      match kernel[0]
      case Wrote(n) =>
        if n == 0 then c
        else
          var m := Min(n, |c.output|);
          Drain(c.(accepted := c.accepted + c.output[..m], output := c.output[m..]), kernel[1..])
      case Interrupted => Drain(c, kernel[1..])
      case _ => c
  }

  function HandleWrite(c: Conn, kernel: seq<Answer>): Conn {
    if c.writing then Drain(c, kernel) else c
  }

  // ------------------------------------------------------------------ the object

  class TcpConnection {
    const output: Buffer
    var writing: bool
    var state: State
    var attached: bool
    var closing: nat
    ghost var accepted: seq<bv8>

    ghost predicate Valid()
      reads this, output
    {
      output.Valid()
    }

    ghost function Model(): Conn
      requires Valid()
      reads this, output, output.data
    {
      Conn(output.Contents(), writing, state, attached, closing, accepted)
    }

    constructor ()
      ensures Valid() && fresh(output) && fresh(output.data) && Model() == FRESH
    {
      output := new Buffer(1024);
      writing, state, attached, closing, accepted := false, Connected, true, 0, [];
    }

    /** sendBufferInLoop: `buf` holds the bytes to send and is left to the caller. */
    method SendBufferInLoop(buf: Buffer, kernel: seq<Answer>)
      requires Valid() && buf.Valid() && buf != output && buf.data != output.data
      modifies this, output, output.data
      ensures Valid() && (output.data == old(output.data) || fresh(output.data))
      ensures buf.Contents() == old(buf.Contents())
      ensures Model() == Send(old(Model()), old(buf.Contents()), kernel)
    {
      if state == Disconnected { return; }
      var remaining := buf.ReadableBytes();
      if !writing && output.ReadableBytes() == 0 {
        ghost var c := Model();
        var failed;
        remaining, failed := WriteDirect(buf, kernel);
        if failed { return; }
        SendDirect(c, buf.Contents(), kernel);
      }
      Keep(buf, remaining);
    }

    /** What is left of the message after one direct write, or that it failed hard. */
    method WriteDirect(buf: Buffer, kernel: seq<Answer>) returns (remaining: nat, failed: bool)
      requires Valid() && buf.Valid()
      modifies this`accepted
      ensures failed <==> Settled(kernel).HardError?
      ensures var all := buf.ReadableBytes();
              remaining == all - (if Settled(kernel).Wrote? then Min(Settled(kernel).n, all) else 0)
      ensures accepted == old(accepted) + buf.Contents()[..buf.ReadableBytes() - remaining]
    {
      remaining := buf.ReadableBytes();
      var answer := FirstAnswer(kernel);
      failed := answer == HardError;
      if answer.Wrote? {
        var m := Min(answer.n, remaining);
        accepted := accepted + buf.Contents()[..m];
        remaining := remaining - m;
      }
    }

    /** The direct write, repeated while it is interrupted. */
    method FirstAnswer(kernel: seq<Answer>) returns (answer: Answer)
      ensures answer == Settled(kernel)
    {
      var i := 0;
      while i < |kernel| && kernel[i].Interrupted?
        invariant 0 <= i <= |kernel|
        invariant Settled(kernel) == Settled(kernel[i..])
      {
        i := i + 1;
      }
      answer := if i < |kernel| then kernel[i] else Again;
    }

    /** The last `remaining` bytes of the message go behind what is buffered already. */
    method Keep(buf: Buffer, remaining: nat)
      requires Valid() && buf.Valid() && buf != output && buf.data != output.data
      requires remaining <= buf.ReadableBytes()
      modifies this`writing, output, output.data
      ensures Valid() && (output.data == old(output.data) || fresh(output.data))
      ensures buf.Contents() == old(buf.Contents())
      ensures Model() == Queued(old(Model()), buf.Contents()[buf.ReadableBytes() - remaining..])
    {
      if remaining > 0 {
        var rest := buf.Peek(buf.ReadableBytes() - remaining);
        output.Append(rest);
        if !writing { writing := true; }
      }
    }

    method HandleWritable(kernel: seq<Answer>)
      requires Valid()
      modifies this, output
      ensures Valid() && output.data == old(output.data)
      ensures Model() == HandleWrite(old(Model()), kernel)
    {
      if !writing { return; }
      ghost var goal := Drain(Model(), kernel);
      var i := 0;
      while output.ReadableBytes() > 0
        invariant 0 <= i <= |kernel|
        invariant Valid() && output.data == old(output.data)
        invariant Drain(Model(), kernel[i..]) == goal
        decreases |kernel| - i
      {
        if i == |kernel| { return; }
        var answer := kernel[i];
        i := i + 1;
        assert kernel[i - 1..][1..] == kernel[i..];
        if answer.Wrote? && answer.n > 0 {
          var m := Min(answer.n, output.ReadableBytes());
          accepted := accepted + output.Contents()[..m];
          output.Retrieve(m);
        } else if answer.Interrupted? {
          continue;
        } else {
          return;
        }
      }
      writing := false;
      if state == Disconnecting { CloseInLoop(); }
    }

    method CloseInLoop()
      requires Valid()
      modifies this
      ensures Valid() && Model() == Close(old(Model()))
    {
      if output.ReadableBytes() == 0 {
        HandleClosed();
      } else {
        state := Disconnecting;
      }
    }

    method HandleClosed()
      requires Valid()
      modifies this
      ensures Valid() && Model() == HandleClose(old(Model()))
    {
      if state == Disconnected { return; }
      attached := false;
      state := Disconnected;
    }

    /** shutdown and forceClose post closeInLoop; only the first insists on a connected socket. */
    method RequestClose(force: bool)
      requires Valid()
      modifies this
      ensures Valid() && Model() == AskClose(old(Model()), force)
    {
      if if force then state == Disconnected else state != Connected { return; }
      state := Disconnecting;
      closing := closing + 1;
    }
  }

  // ------------------------------------------------------------------ every run

  function AskClose(c: Conn, force: bool): Conn {
    if if force then c.state.Disconnected? else !c.state.Connected? then c
    else c.(state := Disconnecting, closing := c.closing + 1)
  }

  datatype Event =
    | Deliver(bytes: seq<bv8>, kernel: seq<Answer>)
    | Writable(kernel: seq<Answer>)
    | Shutdown
    | ForceClose
    | RunClose
    | PeerGone

  function Step(c: Conn, e: Event): Conn {
    match e
    case Deliver(bytes, kernel) => Send(c, bytes, kernel)
    case Writable(kernel) => if c.attached then HandleWrite(c, kernel) else c
    case Shutdown => AskClose(c, false)
    case ForceClose => AskClose(c, true)
    case RunClose => if c.closing > 0 then Close(c.(closing := c.closing - 1)) else c
    case PeerGone => if c.attached then HandleClose(c) else c
  }

  function Run(events: seq<Event>): Conn {
    if events == [] then FRESH else Step(Run(events[..|events| - 1]), events[|events| - 1])
  }

  /** What a delivery hands over to the stream: nothing once disconnected, and nothing when the direct
      write it is owed fails hard. */
  function Taken(c: Conn, e: Event): seq<bv8> {
    if e.Deliver? && !c.state.Disconnected? && !(Direct(c) && Settled(e.kernel).HardError?) then e.bytes else []
  }

  /** All payloads handed over so far, one after the other. */
  function Sent(events: seq<Event>): seq<bv8> {
    if events == [] then []
    else
      var front := events[..|events| - 1];
      Sent(front) + Taken(Run(front), events[|events| - 1])
  }

  /** What a delivery does to an idle connection: the first answer that is not an interruption decides. A write
      takes what it can, and the rest is buffered; a refusal leaves it all in the buffer; a hard error drops it. */
  lemma {:induction false} IdleDelivers(c: Conn, bytes: seq<bv8>, k: nat, kernel: seq<Answer>)
    requires !c.state.Disconnected? && !c.writing && c.output == []
    requires k < |kernel| && !kernel[k].Interrupted? && forall i :: 0 <= i < k ==> kernel[i].Interrupted?
    ensures var d := Step(c, Deliver(bytes, kernel));
            var m := if !kernel[k].Wrote? then 0 else if kernel[k].n < |bytes| then kernel[k].n else |bytes|;
            && d.accepted == c.accepted + bytes[..m]
            && d.output == (if kernel[k].HardError? then [] else bytes[m..])
            && (d.writing <==> d.output != []) && d.state == c.state
  {
    FirstSettles(k, kernel);
  }

  lemma {:induction false} FirstSettles(k: nat, kernel: seq<Answer>)
    requires k < |kernel| && !kernel[k].Interrupted? && forall i :: 0 <= i < k ==> kernel[i].Interrupted?
    ensures Settled(kernel) == kernel[k]
    decreases k
  {
    if k > 0 { FirstSettles(k - 1, kernel[1..]); }
  }

  /** A delivery to a connection that still has bytes to write goes behind them, without a write. */
  lemma BusyDelivers(c: Conn, bytes: seq<bv8>, kernel: seq<Answer>)
    requires !c.state.Disconnected? && c.writing
    ensures Step(c, Deliver(bytes, kernel)) == c.(output := c.output + bytes)
  {
    assert c.output + [] == c.output;
  }

  /** shutdown on a connected socket, and forceClose on any that is not disconnected, close it as soon as the
      posted call runs if nothing is buffered, and otherwise leave it waiting for its last bytes. */
  lemma CloseTakes(c: Conn, force: bool)
    requires if force then !c.state.Disconnected? else c.state.Connected?
    ensures var d := Step(Step(c, if force then ForceClose else Shutdown), RunClose);
            && d.closing == c.closing && d.output == c.output && d.accepted == c.accepted
            && d.state == (if c.output == [] then Disconnected else Disconnecting)
            && (c.output == [] ==> !d.attached) && (c.output != [] ==> d.attached == c.attached)
  {
  }

  predicate Sound(c: Conn) {
    && (c.writing <==> c.output != [])
    && (c.attached ==> !c.state.Disconnected?)
    && (!c.attached ==> c.state.Disconnected? || c.output != [])
  }

  lemma SendKeeps(c: Conn, bytes: seq<bv8>, kernel: seq<Answer>)
    requires Sound(c)
    ensures var d := Send(c, bytes, kernel);
            Sound(d) && d.accepted + d.output == c.accepted + c.output + Taken(c, Deliver(bytes, kernel))
  {
    var d := Send(c, bytes, kernel);
    if !c.state.Disconnected? && Direct(c) && Settled(kernel).Wrote? {
      var m := Min(Settled(kernel).n, |bytes|);
      assert bytes == bytes[..m] + bytes[m..];
    }
  }

  /** The write loop moves bytes from the buffer to the socket, in order, and closes only when it is done. */
  lemma {:induction false} DrainKeeps(c: Conn, kernel: seq<Answer>)
    requires (c.writing || c.output == []) && c.attached && !c.state.Disconnected?
    ensures var d := Drain(c, kernel);
            && d.accepted + d.output == c.accepted + c.output
            && (d.writing <==> d.output != [])
            && (d.attached <==> !d.state.Disconnected?)
            && (!d.attached ==> d.output == [] && c.state.Disconnecting?)
    decreases |kernel|
  {
    if c.output != [] && kernel != [] {
      if kernel[0].Wrote? && kernel[0].n > 0 {
        var m := Min(kernel[0].n, |c.output|);
        var c1 := c.(accepted := c.accepted + c.output[..m], output := c.output[m..]);
        assert c.output == c.output[..m] + c.output[m..];
        DrainKeeps(c1, kernel[1..]);
      } else if kernel[0].Interrupted? {
        DrainKeeps(c, kernel[1..]);
      }
    }
  }

  lemma StepKeeps(c: Conn, e: Event)
    requires Sound(c)
    ensures var d := Step(c, e);
            Sound(d) && d.accepted + d.output == c.accepted + c.output + Taken(c, e)
  {
    if e.Deliver? {
      SendKeeps(c, e.bytes, e.kernel);
    } else if e.Writable? && c.attached && c.writing {
      DrainKeeps(c, e.kernel);
    }
  }

  /** The output stream is FIFO: under any pattern of short, refused and interrupted writes, and through
      closing, the bytes the socket accepted followed by the buffered ones are the payloads in the order
      they were sent, and the connection waits for writability exactly when something is buffered. */
  lemma {:induction false} StreamIsFifo(events: seq<Event>)
    ensures var c := Run(events);
            && c.accepted + c.output == Sent(events)
            && (c.writing <==> c.output != [])
            && Sound(c)
  {
    if events != [] {
      var front := events[..|events| - 1];
      StreamIsFifo(front);
      StepKeeps(Run(front), events[|events| - 1]);
    }
  }

  /** Our own side closes only when the socket has accepted every byte that was sent. */
  lemma ClosesOnlyDrained(events: seq<Event>, e: Event)
    requires Run(events).attached && !Step(Run(events), e).attached && !e.PeerGone?
    ensures Step(Run(events), e).accepted == Sent(events + [e]) && Sent(events + [e]) == Sent(events)
  {
    var c := Run(events);
    StreamIsFifo(events);
    assert (events + [e])[..|events|] == events;
    StepKeeps(c, e);
    if e.Writable? && c.writing { DrainKeeps(c, e.kernel); }
  }

  /** How many bytes the answers of one turn can take, up to the first refusal. */
  function Capacity(kernel: seq<Answer>): nat {
    if kernel == [] then 0
    else
      match kernel[0]
      case Wrote(n) => if n == 0 then 0 else n + Capacity(kernel[1..])
      case Interrupted => Capacity(kernel[1..])
      case _ => 0
  }

  function Total(kernels: seq<seq<Answer>>): nat {
    if kernels == [] then 0 else Total(kernels[..|kernels| - 1]) + Capacity(kernels[|kernels| - 1])
  }

  /** The socket becomes writable again and again. */
  function Turns(kernels: seq<seq<Answer>>): seq<Event> {
    seq(|kernels|, i requires 0 <= i < |kernels| => Writable(kernels[i]))
  }

  /** The connection once the first `m` buffered bytes are accepted; when they are all, it is closed. */
  function Moved(c: Conn, m: nat): Conn
    requires m <= |c.output|
  {
    var d := c.(accepted := c.accepted + c.output[..m], output := c.output[m..]);
    if m < |c.output| then d else d.(writing := false, state := Disconnected, attached := false)
  }

  lemma MovedTwice(c: Conn, m: nat, n: nat)
    requires m < |c.output| && m + n <= |c.output|
    ensures Moved(Moved(c, m), n) == Moved(c, m + n)
  {
    assert c.output[m..][..n] == c.output[m..m + n];
    assert c.output[..m] + c.output[m..m + n] == c.output[..m + n];
    assert c.accepted + c.output[..m] + c.output[m..m + n] == c.accepted + c.output[..m + n];
    assert c.output[m..][n..] == c.output[m + n..];
  }

  lemma {:induction false} DrainMoves(c: Conn, kernel: seq<Answer>)
    requires c.writing && c.attached && c.state.Disconnecting? && c.output != []
    ensures Drain(c, kernel) == Moved(c, Min(Capacity(kernel), |c.output|))
    decreases |kernel|
  {
    if kernel != [] && kernel[0].Wrote? && kernel[0].n > 0 {
      var m := Min(kernel[0].n, |c.output|);
      var d := c.(accepted := c.accepted + c.output[..m], output := c.output[m..]);
      if m < |c.output| {
        DrainMoves(d, kernel[1..]);
        MovedTwice(c, m, Min(Capacity(kernel[1..]), |d.output|));
      }
    } else if kernel != [] && kernel[0].Interrupted? {
      DrainMoves(c, kernel[1..]);
    }
  }

  lemma TurnsLast(events: seq<Event>, kernels: seq<seq<Answer>>)
    requires kernels != []
    ensures var k := |kernels| - 1;
            Run(events + Turns(kernels)) == Step(Run(events + Turns(kernels[..k])), Writable(kernels[k]))
  {
    var k := |kernels| - 1;
    var all := events + Turns(kernels);
    assert all[..|all| - 1] == events + Turns(kernels[..k]);
  }

  /** One more turn moves on from where the earlier ones stopped. */
  lemma MovesOn(c: Conn, total: nat, kernel: seq<Answer>)
    requires c.attached && c.state.Disconnecting? && c.writing && c.output != []
    ensures Step(Moved(c, Min(total, |c.output|)), Writable(kernel))
         == Moved(c, Min(total + Capacity(kernel), |c.output|))
  {
    var m := Min(total, |c.output|);
    if m < |c.output| {
      var d := Moved(c, m);
      DrainMoves(d, kernel);
      MovedTwice(c, m, Min(Capacity(kernel), |d.output|));
    }
  }

  lemma NoTurnsMove(events: seq<Event>)
    requires Run(events).output != []
    ensures Run(events + Turns([])) == Moved(Run(events), 0)
  {
    assert events + Turns([]) == events;
    assert Run(events).accepted + [] == Run(events).accepted;
  }

  lemma {:induction false} TurnsMove(events: seq<Event>, kernels: seq<seq<Answer>>)
    requires var c := Run(events); c.attached && c.state.Disconnecting? && c.writing && c.output != []
    ensures Run(events + Turns(kernels)) == Moved(Run(events), Min(Total(kernels), |Run(events).output|))
    decreases |kernels|
  {
    if kernels == [] {
      NoTurnsMove(events);
    } else {
      var k := |kernels| - 1;
      TurnsMove(events, kernels[..k]);
      TurnsLast(events, kernels);
      MovesOn(Run(events), Total(kernels[..k]), kernels[k]);
    }
  }

  /** After shutdown, whatever the pattern of short, interrupted and refused writes over any number of turns:
      the connection is closed if and only if the socket has had room for all that was buffered, and then it
      has accepted every byte that was sent. */
  lemma ShutdownCompletes(events: seq<Event>, kernels: seq<seq<Answer>>)
    requires var c := Run(events); c.attached && c.state.Disconnecting? && c.writing
    ensures var c, d := Run(events), Run(events + Turns(kernels));
            && (d.state.Disconnected? <==> Total(kernels) >= |c.output|)
            && (d.state.Disconnected? ==> d.output == [] && d.accepted == Sent(events))
            && (!d.state.Disconnected? ==> d.accepted == c.accepted + c.output[..Total(kernels)])
  {
    var c := Run(events);
    StreamIsFifo(events);
    TurnsMove(events, kernels);
    assert c.output[..|c.output|] == c.output;
  }

  /** Disconnected is not final, and this is how it ends: a posted closeInLoop runs, with bytes still
      buffered, after the peer has gone. */
  lemma RevertsExactly(events: seq<Event>, e: Event)
    requires Run(events).state.Disconnected?
    ensures var c := Run(events);
            !Run(events + [e]).state.Disconnected? <==> e.RunClose? && c.closing > 0 && c.output != []
    ensures !Run(events + [e]).attached && Run(events + [e]).accepted == Run(events).accepted
  {
    StreamIsFifo(events);
    assert (events + [e])[..|events|] == events;
  }

  /** A run in which it happens. */
  lemma DisconnectedCanRevert()
    ensures var gone := [Deliver([1], []), ForceClose, PeerGone];
            Run(gone).state.Disconnected? && Run(gone + [RunClose]).state.Disconnecting?
  {
    var one := [Deliver([1], [])];
    var two := one + [ForceClose];
    var gone := two + [PeerGone];
    var all := gone + [RunClose];
    assert one[..0] == [] && two[..1] == one && gone[..2] == two && all[..3] == gone;
    assert Run(one) == Conn([1], true, Connected, true, 0, []);
    assert Run(two) == Conn([1], true, Disconnecting, true, 1, []);
    assert Run(gone) == Conn([1], true, Disconnected, false, 1, []);
    assert gone == [Deliver([1], []), ForceClose, PeerGone];
  }

  lemma DetachedAcceptsNothing(events: seq<Event>, e: Event)
    requires !Run(events).attached
    ensures !Step(Run(events), e).attached && Step(Run(events), e).accepted == Run(events).accepted
  {
    StreamIsFifo(events);
  }
}
