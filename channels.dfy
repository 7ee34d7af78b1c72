/** The application's error channel: a Go `chan error` made with capacity 1, onto which
    HandleError sends one error and which it then closes.

    Go's run-time semantics of the three channel operations the handle uses (send, close and
    receive) are given as pure step functions on the channel's state; the class
    `ErrorChannel` is the channel object itself, shared by reference, and its methods are
    proved against those functions. */
module Channels {

  /** A Go `error` value: nil, or an error carrying its message. */
  datatype Error = NilError | Err(message: string)

  /** The buffer size given to make(chan error, 1). */
  const Capacity := 1

  /** Go's run-time panic messages for the two misuses of a closed channel. */
  const SendOnClosed := "send on closed channel"
  const CloseOfClosed := "close of closed channel"

  /** The observable state of a buffered channel: the values sent and not yet received,
      oldest first, and whether it has been closed. */
  datatype ChanState = ChanState(buf: seq<Error>, closed: bool)

  /** A freshly made channel. */
  const Empty := ChanState([], false)

  /** How a send or close ended: it completed, it panicked with Go's run-time message, or
      it would block forever (nothing else in the model can unblock it). */
  datatype Outcome = Done | Panic(message: string) | Blocks

  /** How a receive `v, ok := <-ch` ended: with a value and Go's `ok` flag, or blocked. */
  datatype Received = Received(value: Error, ok: bool) | WouldBlock

  /** `ch <- e`: panics on a closed channel, blocks on a full one, otherwise queues `e`. */
  function SendStep(s: ChanState, e: Error): (Outcome, ChanState) {
    if s.closed then (Panic(SendOnClosed), s)
    else if |s.buf| < Capacity then (Done, ChanState(s.buf + [e], false))
    else (Blocks, s)
  }

  /** `close(ch)`: panics when already closed; buffered values stay receivable. */
  function CloseStep(s: ChanState): (Outcome, ChanState) {
    if s.closed then (Panic(CloseOfClosed), s)
    else (Done, ChanState(s.buf, true))
  }

  /** `v, ok := <-ch`: the oldest buffered value first; once the channel is closed and
      drained, the zero value (nil) and false; on an open empty channel, it blocks. */
  function RecvStep(s: ChanState): (Received, ChanState) {
    if s.buf != [] then (Received(s.buf[0], true), ChanState(s.buf[1..], s.closed))
    else if s.closed then (Received(NilError, false), s)
    else (WouldBlock, s)
  }

  /** The body of HandleError once the channel exists: send `e`, and close the channel
      if the send completed (a panicking send never reaches the close). */
  function SendThenClose(s: ChanState, e: Error): (Outcome, ChanState) {
    var (o, t) := SendStep(s, e);
    if o == Done then CloseStep(t) else (o, t)
  }

  /** What `n` successive receives on a channel in state `s` observe. */
  function Drain(s: ChanState, n: nat): seq<Received>
    decreases n
  {
    if n == 0 then []
    else
      var (r, t) := RecvStep(s);
      [r] + Drain(t, n - 1)
  }

  /** The invariant that makes the error channel single-shot: it never holds more than its
      capacity, and it holds a value only once it has been closed. */
  predicate SingleShot(s: ChanState) {
    |s.buf| <= Capacity && (s.buf != [] ==> s.closed)
  }

  /** On a fresh channel, HandleError completes, and leaves the channel closed holding
      exactly the error sent. */
  lemma FirstHandleErrorDelivers(e: Error)
    ensures SendThenClose(Empty, e) == (Done, ChanState([e], true))
  {
    assert [] + [e] == [e];
  }

  /** HandleError keeps the single-shot invariant, never blocks, and always leaves the channel
      closed: it either delivers and closes an open channel, or panics on a closed one
      without changing it. */
  lemma SendThenCloseSingleShot(s: ChanState, e: Error)
    requires SingleShot(s)
    ensures var (o, t) := SendThenClose(s, e);
      SingleShot(t) && t.closed && o != Blocks &&
      (o == Done <==> !s.closed) &&
      (o == Done ==> t == ChanState([e], true)) &&
      (o != Done ==> o == Panic(SendOnClosed) && t == s)
  {
  }

  /** A second HandleError, after any first one, panics because it sends on a closed
      channel, and leaves the channel as it was. */
  lemma SecondHandleErrorPanics(s: ChanState, e1: Error, e2: Error)
    requires SingleShot(s)
    ensures var t := SendThenClose(s, e1).1;
      SendThenClose(t, e2) == (Panic(SendOnClosed), t)
  {
    SendThenCloseSingleShot(s, e1);
  }

  /** A receive keeps the single-shot invariant and never blocks on a closed channel. */
  lemma RecvSingleShot(s: ChanState)
    requires SingleShot(s)
    ensures SingleShot(RecvStep(s).1)
    ensures s.closed ==> RecvStep(s).0 != WouldBlock && RecvStep(s).1.closed
  {
  }

  /** Every receive on a closed, drained channel yields nil and false, and changes nothing. */
  lemma {:induction false} DrainedStaysDrained(n: nat)
    ensures |Drain(ChanState([], true), n)| == n
    ensures forall k :: 0 <= k < n ==> Drain(ChanState([], true), n)[k] == Received(NilError, false)
  {
    if n > 0 {
      DrainedStaysDrained(n - 1);
    }
  }

  /** After HandleError(e) on a fresh channel, the first receive yields `e` and true, and
      every later receive yields nil and false. */
  lemma {:induction false} ReceivesAfterHandleError(e: Error, n: nat)
    ensures var rs := Drain(SendThenClose(Empty, e).1, n + 1);
      |rs| == n + 1 && rs[0] == Received(e, true) &&
      forall k :: 1 <= k <= n ==> rs[k] == Received(NilError, false)
  {
    FirstHandleErrorDelivers(e);
    assert [e][1..] == [];
    assert RecvStep(ChanState([e], true)) == (Received(e, true), ChanState([], true));
    DrainedStaysDrained(n);
  }

  /** The channel object that make(chan error, 1) returns; Go channels are references, so
      every holder of it observes the same state. */
  class ErrorChannel {
    var buf: seq<Error>
    var closed: bool

    /** The channel's state as the step functions see it. */
    function State(): ChanState
      reads this
    {
      ChanState(buf, closed)
    }

    /** The buffer never exceeds its capacity. */
    ghost predicate Valid()
      reads this
    {
      |buf| <= Capacity
    }

    /** make(chan error, 1): an open, empty channel. */
    constructor ()
      ensures Valid() && State() == Empty
    {
      buf, closed := [], false;
    }

    /** `ch <- e`. */
    method Send(e: Error) returns (o: Outcome)
      requires Valid()
      modifies this
      ensures Valid()
      ensures (o, State()) == SendStep(old(State()), e)
    {
      if closed {
        o := Panic(SendOnClosed);
      } else if |buf| < Capacity {
        buf := buf + [e];
        o := Done;
      } else {
        o := Blocks;
      }
    }

    /** `close(ch)`. */
    method Close() returns (o: Outcome)
      requires Valid()
      modifies this
      ensures Valid()
      ensures (o, State()) == CloseStep(old(State()))
    {
      if closed {
        o := Panic(CloseOfClosed);
      } else {
        closed := true;
        o := Done;
      }
    }

    /** `v, ok := <-ch`. */
    method Receive() returns (r: Received)
      requires Valid()
      modifies this
      ensures Valid()
      ensures (r, State()) == RecvStep(old(State()))
    {
      if buf != [] {
        r := Received(buf[0], true);
        buf := buf[1..];
      } else if closed {
        r := Received(NilError, false);
      } else {
        r := WouldBlock;
      }
    }
  }
}
