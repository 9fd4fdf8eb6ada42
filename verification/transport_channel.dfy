/**
 * The lifecycle of one transport connection: a status state machine guarded by
 * compare-and-set, a first-writer-wins failure cause, a close callback, the
 * remote handshake data, and the writes and closes issued on the underlying
 * netty channel (kept as an append-only log of requests, not of completions).
 *
 * Every mutating method of `TransportChannel` is specified by `Step`, a pure
 * function on a `ChannelState` snapshot; `Run` folds `Step` over a trace of
 * operations, and the lemmas below state what holds over whole traces.
 */
module Transport {
  import opened Wrappers
  import opened Protocol

  datatype Status = ConnectInProgress | Connected | HandshakeInProgress | HandshakePassed | Ready | Closed

  /** Identity of the underlying netty channel; its behaviour is foreign. */
  type ConnectionId = nat

  /** Identity of the function object registered as the close callback. */
  type CallbackId = nat

  /** The metadata received from the remote side during the handshake. */
  datatype TransportData = TransportData(originEndpoint: Option<TransportEndpoint>, originEndpointId: Option<string>)

  /** A failure cause: the default one names the channel that was closed. */
  datatype Cause = TransportClosed(channel: TransportChannel) | Raised(exception: string)

  /** What a call on the channel raises instead of returning normally. */
  datatype ChannelError =
    | TransportBroken(expected: Status, update: Status, actual: Status)
    | IllegalArgument
    | NullPointer

  /** How a call ended: normally, by failing the caller's promise, or by raising. */
  datatype Reply = Done | PromiseFailed(cause: Cause) | Error(error: ChannelError)

  /** A request issued on the netty channel, with the promise linked to its future. */
  datatype NettyOp = NettyWrite(message: Message, promise: Option<Promise>) | NettyClose(promise: Option<Promise>)

  /** A settable future: once an exception is set it stays. */
  class Promise {
    var exception: Option<Cause>

    constructor ()
      ensures exception == None
    {
      exception := None;
    }

    method SetException(c: Cause) returns (accepted: bool)
      modifies this
      ensures accepted == old(exception).None?
      ensures exception == if accepted then Some(c) else old(exception)
    {
      accepted := exception.None?;
      if accepted {
        exception := Some(c);
      }
    }
  }

  function PromiseSet(p: Option<Promise>): (ps: set<Promise>) {
    if p.Some? then {p.value} else {}
  }

  /** Everything about a channel that its operations read or write. */
  datatype ChannelState = ChannelState(
    status: Status,
    cause: Option<Cause>,
    whenClose: Option<CallbackId>,
    remoteHandshake: Option<TransportData>,
    closeCalls: nat,
    netty: seq<NettyOp>)

  /** A freshly built channel in status `initial`. */
  function Initial(initial: Status): (s: ChannelState) {
    ChannelState(initial, None, None, None, 0, [])
  }

  /** One call on a channel; `None` stands for a Java `null` argument. */
  datatype Op =
    | FlipOp(expected: Status, update: Status)
    | CloseOp(closeCause: Option<Cause>, closePromise: Option<Promise>)
    | SendOp(message: Option<Message>, sendPromise: Option<Promise>)
    | HandshakeOp(data: Option<TransportData>)
    | SetCallbackOp(callback: Option<CallbackId>)

  /**
   * The effect of one call on the channel `self`, read as a sequential step.
   * Whatever the call: a recorded cause stays, only a close records one, the
   * netty log only grows and by at most one request, a call other than close
   * that raises changes nothing, and only a non-null handshake changes the
   * handshake data, to itself.
   */
  function Step(s: ChannelState, op: Op, self: TransportChannel): (r: (ChannelState, Reply))
    ensures s.cause.Some? ==> r.0.cause == s.cause
    ensures s.cause.None? && r.0.cause.Some? ==> op.CloseOp?
    ensures s.netty <= r.0.netty && |r.0.netty| <= |s.netty| + 1
    ensures r.1.Error? && !op.CloseOp? ==> r.0 == s
    ensures r.0.remoteHandshake != s.remoteHandshake ==> op == HandshakeOp(r.0.remoteHandshake) && r.0.remoteHandshake.Some?
  {
    match op
    case FlipOp(expected, update) =>
      if s.status == expected then (s.(status := update), Done)
      else (s, Error(TransportBroken(expected, update, s.status)))
    case CloseOp(c, p) =>
      var recorded := if s.cause.Some? then s.cause else Some(c.GetOr(TransportClosed(self)));
      var s1 := s.(cause := recorded, status := Closed);
      if s1.whenClose.None? then (s1, Error(NullPointer))
      else (s1.(closeCalls := s1.closeCalls + 1, netty := s1.netty + [NettyClose(p)]), Done)
    case SendOp(m, p) =>
      if m.None? then (s, Error(IllegalArgument))
      else if p.Some? && s.cause.Some? then (s, PromiseFailed(s.cause.value))
      else (s.(netty := s.netty + [NettyWrite(m.value, p)]), Done)
    case HandshakeOp(d) =>
      if d.None? then (s, Error(IllegalArgument)) else (s.(remoteHandshake := d), Done)
    case SetCallbackOp(f) =>
      (s.(whenClose := f), Done)
  }

  /** The state after a trace of calls; a call that raised leaves what it wrote. */
  function Run(s: ChannelState, ops: seq<Op>, self: TransportChannel): (r: ChannelState)
    ensures s.netty <= r.netty
    decreases |ops|
  {
    if ops == [] then s else Run(Step(s, ops[0], self).0, ops[1..], self)
  }

  class TransportChannel {
    const channel: ConnectionId
    var status: Status
    var cause: Option<Cause>
    var whenClose: Option<CallbackId>
    var remoteHandshake: Option<TransportData>
    /** How many times the close callback has been invoked. */
    var closeCalls: nat
    /** The writes and closes requested on the netty channel, in order. */
    var netty: seq<NettyOp>

    function State(): (s: ChannelState)
      reads this
    {
      ChannelState(status, cause, whenClose, remoteHandshake, closeCalls, netty)
    }

    /** Only the builder creates channels, and it sets the initial status at once. */
    constructor (channel: ConnectionId, initial: Status)
      ensures this.channel == channel
      ensures State() == Initial(initial)
    {
      this.channel := channel;
      status := initial;
      cause := None;
      whenClose := None;
      remoteHandshake := None;
      closeCalls := 0;
      netty := [];
    }

    method SetRemoteHandshake(data: Option<TransportData>) returns (r: Reply)
      modifies this
      ensures (State(), r) == Step(old(State()), HandshakeOp(data), this)
    {
      if data.None? {
        return Error(IllegalArgument);
      }
      remoteHandshake := data;
      r := Done;
    }

    /** The remote origin endpoint, or null before the handshake data is set. */
    function GetRemoteEndpoint(): (r: Option<TransportEndpoint>)
      reads this
      ensures remoteHandshake.None? ==> r.None?
      ensures remoteHandshake.Some? ==> r == remoteHandshake.value.originEndpoint
    {
      if remoteHandshake.Some? then remoteHandshake.value.originEndpoint else None
    }

    /** The remote origin endpoint id, or null before the handshake data is set. */
    function GetRemoteEndpointId(): (r: Option<string>)
      reads this
      ensures remoteHandshake.None? ==> r.None?
      ensures remoteHandshake.Some? ==> r == remoteHandshake.value.originEndpointId
    {
      if remoteHandshake.Some? then remoteHandshake.value.originEndpointId else None
    }

    /** The recorded failure cause, or null while none is recorded. */
    function GetCause(): (r: Option<Cause>)
      reads this
      ensures r == State().cause
    {
      cause
    }

    method Send(message: Option<Message>, promise: Option<Promise>) returns (r: Reply)
      modifies this, PromiseSet(promise)
      ensures (State(), r) == Step(old(State()), SendOp(message, promise), this)
      ensures promise.Some? && r.PromiseFailed? ==>
        promise.value.exception == if old(promise.value.exception).None? then Some(r.cause) else old(promise.value.exception)
      ensures promise.Some? && !r.PromiseFailed? ==> promise.value.exception == old(promise.value.exception)
    {
      if message.None? {
        return Error(IllegalArgument);
      }
      var c := GetCause();
      if promise.Some? && c.Some? {
        var _ := promise.value.SetException(c.value);
        return PromiseFailed(c.value);
      }
      netty := netty + [NettyWrite(message.value, promise)];
      r := Done;
    }

    method Close(closeCause: Option<Cause>, promise: Option<Promise>) returns (r: Reply)
      modifies this
      ensures (State(), r) == Step(old(State()), CloseOp(closeCause, promise), this)
    {
      if cause.None? {
        cause := Some(closeCause.GetOr(TransportClosed(this)));
      }
      status := Closed;
      if whenClose.None? {
        return Error(NullPointer);
      }
      closeCalls := closeCalls + 1;
      netty := netty + [NettyClose(promise)];
      r := Done;
    }

    method Flip(expected: Status, update: Status) returns (r: Reply)
      modifies this
      ensures (State(), r) == Step(old(State()), FlipOp(expected, update), this)
    {
      if status != expected {
        return Error(TransportBroken(expected, update, status));
      }
      status := update;
      r := Done;
    }
  }

  /** The builder: `Connector` for outbound channels, `Acceptor` for accepted ones. */
  class Builder {
    var target: TransportChannel

    constructor Connector(channel: ConnectionId)
      ensures fresh(target)
      ensures target.channel == channel && target.State() == Initial(ConnectInProgress)
    {
      target := new TransportChannel(channel, ConnectInProgress);
    }

    constructor Acceptor(channel: ConnectionId)
      ensures fresh(target)
      ensures target.channel == channel && target.State() == Initial(Connected)
    {
      target := new TransportChannel(channel, Connected);
    }

    /** Registers the close callback on the channel under construction; a null one unregisters it. */
    method Set(callback: Option<CallbackId>) returns (b: Builder)
      modifies target
      ensures b == this
      ensures target.State() == Step(old(target.State()), SetCallbackOp(callback), target).0
    {
      target.whenClose := callback;
      b := this;
    }

    method Build() returns (t: TransportChannel)
      ensures t == target
    {
      t := target;
    }
  }

  /**
   * A connector-built channel with a close callback, closed twice: it ends
   * CLOSED with the first call's cause (or the default one naming it), and
   * the callback and the netty close have both run twice.
   */
  method CloseTwice(channel: ConnectionId, callback: CallbackId, first: Option<Cause>, second: Option<Cause>)
    returns (ch: TransportChannel, r1: Reply, r2: Reply)
    ensures r1 == Done && r2 == Done
    ensures ch.status == Closed
    ensures ch.cause == Some(first.GetOr(TransportClosed(ch)))
    ensures ch.closeCalls == 2
    ensures ch.netty == [NettyClose(None), NettyClose(None)]
  {
    var builder := new Builder.Connector(channel);
    var _ := builder.Set(Some(callback));
    ch := builder.Build();
    r1 := ch.Close(first, None);
    r2 := ch.Close(second, None);
  }

  /**
   * An acceptor-built channel knows no remote endpoint until handshake data is
   * set; a null argument is refused and leaves it unknown.
   */
  method RemoteEndpointAfterHandshake(channel: ConnectionId, data: TransportData)
    returns (before: Option<TransportEndpoint>, refused: Reply, afterNull: Option<string>,
             endpoint: Option<TransportEndpoint>, endpointId: Option<string>)
    ensures before == None && afterNull == None
    ensures refused == Error(IllegalArgument)
    ensures endpoint == data.originEndpoint && endpointId == data.originEndpointId
  {
    var builder := new Builder.Acceptor(channel);
    var ch := builder.Build();
    before := ch.GetRemoteEndpoint();
    refused := ch.SetRemoteHandshake(None);
    afterNull := ch.GetRemoteEndpointId();
    var _ := ch.SetRemoteHandshake(Some(data));
    endpoint := ch.GetRemoteEndpoint();
    endpointId := ch.GetRemoteEndpointId();
  }

  // ---------------------------------------------------------------------------
  // Single calls

  /** A compare-and-set: it succeeds exactly when the status is `expected`, and only then writes. */
  lemma FlipSucceedsIff(s: ChannelState, expected: Status, update: Status, self: TransportChannel)
    ensures Step(s, FlipOp(expected, update), self).1 == Done <==> s.status == expected
    ensures s.status == expected ==> Step(s, FlipOp(expected, update), self).0 == s.(status := update)
    ensures s.status != expected ==>
      Step(s, FlipOp(expected, update), self) == (s, Error(TransportBroken(expected, update, s.status)))
  {
  }

  /** After a close, every flip that does not expected CLOSED raises and changes nothing. */
  lemma FlipAfterCloseFails(s: ChannelState, c: Option<Cause>, p: Option<Promise>,
                            expected: Status, update: Status, self: TransportChannel)
    requires expected != Closed
    ensures var closed := Step(s, CloseOp(c, p), self).0;
      closed.status == Closed && closed.cause.Some? &&
      Step(closed, FlipOp(expected, update), self) == (closed, Error(TransportBroken(expected, update, Closed)))
  {
  }

  /** A closed channel fails a caller's promise with exactly the recorded cause and writes nothing. */
  lemma SendOnFailedChannel(s: ChannelState, m: Message, p: Promise, self: TransportChannel)
    requires s.cause.Some?
    ensures Step(s, SendOp(Some(m), Some(p)), self) == (s, PromiseFailed(s.cause.value))
    ensures Step(s, SendOp(Some(m), None), self).0.netty == s.netty + [NettyWrite(m, None)]
  {
  }

  // ---------------------------------------------------------------------------
  // Traces of calls

  predicate IsClose(op: Op) { op.CloseOp? }

  function CountCloses(ops: seq<Op>): (n: nat)
    ensures n <= |ops|
  {
    if ops == [] then 0 else (if ops[0].CloseOp? then 1 else 0) + CountCloses(ops[1..])
  }

  function CountNettyCloses(log: seq<NettyOp>): (n: nat) {
    if log == [] then 0 else CountNettyCloses(log[..|log| - 1]) + (if log[|log| - 1].NettyClose? then 1 else 0)
  }

  lemma {:induction false} RunAppend(s: ChannelState, a: seq<Op>, b: seq<Op>, self: TransportChannel)
    ensures Run(s, a + b, self) == Run(Run(s, a, self), b, self)
    decreases |a|
  {
    if a == [] {
      assert a + b == b;
    } else {
      assert (a + b)[1..] == a[1..] + b;
      RunAppend(Step(s, a[0], self).0, a[1..], b, self);
    }
  }

  /** Once a cause is recorded, no later call replaces it. */
  lemma {:induction false} CauseIsStable(s: ChannelState, ops: seq<Op>, self: TransportChannel)
    requires s.cause.Some?
    ensures Run(s, ops, self).cause == s.cause
    decreases |ops|
  {
    if ops != [] {
      CauseIsStable(Step(s, ops[0], self).0, ops[1..], self);
    }
  }

  /** Only a close records a cause. */
  lemma {:induction false} NoCauseWithoutClose(s: ChannelState, ops: seq<Op>, self: TransportChannel)
    requires s.cause.None?
    requires forall i :: 0 <= i < |ops| ==> !IsClose(ops[i])
    ensures Run(s, ops, self).cause.None?
    decreases |ops|
  {
    if ops != [] {
      assert !IsClose(ops[0]);
      NoCauseWithoutClose(Step(s, ops[0], self).0, ops[1..], self);
    }
  }

  /**
   * First writer wins: the cause after any trace is the one the first close
   * recorded, its explicit cause or else a TransportClosed naming this channel.
   */
  lemma FirstCloseCauseWins(s: ChannelState, before: seq<Op>, c: Option<Cause>, p: Option<Promise>,
                            after: seq<Op>, self: TransportChannel)
    requires s.cause.None?
    requires forall i :: 0 <= i < |before| ==> !IsClose(before[i])
    ensures Run(s, before + [CloseOp(c, p)] + after, self).cause == Some(c.GetOr(TransportClosed(self)))
  {
    RunAppend(s, before + [CloseOp(c, p)], after, self);
    RunAppend(s, before, [CloseOp(c, p)], self);
    NoCauseWithoutClose(s, before, self);
    var closed := Run(s, before + [CloseOp(c, p)], self);
    assert closed == Step(Run(s, before, self), CloseOp(c, p), self).0;
    CauseIsStable(closed, after, self);
  }

  /** A `set(null)`: it unregisters the close callback. */
  predicate UnsetsCallback(op: Op) { op == SetCallbackOp(None) }

  /**
   * With a callback registered, every close invokes it and issues one netty
   * close, however many closes came before: close is idempotent only on status
   * and cause. This holds while no call unregisters the callback.
   */
  lemma {:induction false} CallbackOnEveryClose(s: ChannelState, ops: seq<Op>, self: TransportChannel)
    requires s.whenClose.Some?
    requires forall i :: 0 <= i < |ops| ==> !UnsetsCallback(ops[i])
    ensures Run(s, ops, self).closeCalls == s.closeCalls + CountCloses(ops)
    ensures CountNettyCloses(Run(s, ops, self).netty) == CountNettyCloses(s.netty) + CountCloses(ops)
    decreases |ops|
  {
    if ops != [] {
      var s1 := Step(s, ops[0], self).0;
      assert !UnsetsCallback(ops[0]);
      if s1.netty != s.netty {
        assert s1.netty[..|s1.netty| - 1] == s.netty;
      }
      CallbackOnEveryClose(s1, ops[1..], self);
    }
  }

  /** A `set(func)` with a non-null function: it registers a close callback. */
  predicate SetsCallback(op: Op) { op.SetCallbackOp? && op.callback.Some? }

  /**
   * Without a registered callback (never set, or unset by `set(null)`), no
   * sequence of calls that registers none runs a callback or closes the netty
   * channel: every close records its cause and sets CLOSED, then raises a
   * NullPointerException.
   */
  lemma {:induction false} NoCallbackNoNettyClose(s: ChannelState, ops: seq<Op>, self: TransportChannel)
    requires s.whenClose.None?
    requires forall i :: 0 <= i < |ops| ==> !SetsCallback(ops[i])
    ensures Run(s, ops, self).closeCalls == s.closeCalls
    ensures CountNettyCloses(Run(s, ops, self).netty) == CountNettyCloses(s.netty)
    ensures Run(s, ops, self).whenClose.None?
    decreases |ops|
  {
    if ops != [] {
      var s1 := Step(s, ops[0], self).0;
      assert !SetsCallback(ops[0]);
      if s1.netty != s.netty {
        assert s1.netty[..|s1.netty| - 1] == s.netty;
      }
      NoCallbackNoNettyClose(s1, ops[1..], self);
    }
  }

  /**
   * CLOSED is left only by a flip that expects CLOSED; no other call, a close
   * included, moves the status away from it.
   */
  lemma {:induction false} ClosedStaysClosed(s: ChannelState, ops: seq<Op>, self: TransportChannel)
    requires s.status == Closed
    requires forall i :: 0 <= i < |ops| ==> !(ops[i].FlipOp? && ops[i].expected == Closed)
    ensures Run(s, ops, self).status == Closed
    decreases |ops|
  {
    if ops != [] {
      assert !(ops[0].FlipOp? && ops[0].expected == Closed);
      ClosedStaysClosed(Step(s, ops[0], self).0, ops[1..], self);
    }
  }

  predicate SetsHandshake(op: Op) { op.HandshakeOp? && op.data.Some? }

  /** Only a call that sets non-null handshake data changes it. */
  lemma {:induction false} HandshakeStable(s: ChannelState, ops: seq<Op>, self: TransportChannel)
    requires forall i :: 0 <= i < |ops| ==> !SetsHandshake(ops[i])
    ensures Run(s, ops, self).remoteHandshake == s.remoteHandshake
    decreases |ops|
  {
    if ops != [] {
      assert !SetsHandshake(ops[0]);
      HandshakeStable(Step(s, ops[0], self).0, ops[1..], self);
    }
  }

  /**
   * The remote endpoint and its id stay unknown over any calls until handshake
   * data is set: a null argument does not set it.
   */
  lemma HandshakeUnsetUntilData(s: ChannelState, ops: seq<Op>, self: TransportChannel)
    requires s.remoteHandshake.None?
    requires forall i :: 0 <= i < |ops| ==> !SetsHandshake(ops[i])
    ensures Run(s, ops, self).remoteHandshake.None?
  {
    HandshakeStable(s, ops, self);
  }

  /** The last non-null handshake data set is the one kept, whatever other calls follow. */
  lemma LastHandshakeWins(s: ChannelState, before: seq<Op>, data: TransportData, after: seq<Op>, self: TransportChannel)
    requires forall i :: 0 <= i < |after| ==> !SetsHandshake(after[i])
    ensures Run(s, before + [HandshakeOp(Some(data))] + after, self).remoteHandshake == Some(data)
  {
    RunAppend(s, before + [HandshakeOp(Some(data))], after, self);
    RunAppend(s, before, [HandshakeOp(Some(data))], self);
    var withData := Run(s, before + [HandshakeOp(Some(data))], self);
    assert withData == Step(Run(s, before, self), HandshakeOp(Some(data)), self).0;
    HandshakeStable(withData, after, self);
  }

  predicate AllSendsPromised(ops: seq<Op>) {
    forall i :: 0 <= i < |ops| ==> (ops[i].SendOp? ==> ops[i].sendPromise.Some?)
  }

  /**
   * The netty log only grows; on a channel with a recorded cause, sends that
   * carry a promise add no write to it (only closes are appended).
   */
  lemma {:induction false} NoWritesOnFailedChannel(s: ChannelState, ops: seq<Op>, self: TransportChannel)
    requires s.cause.Some?
    requires AllSendsPromised(ops)
    ensures |s.netty| <= |Run(s, ops, self).netty|
    ensures Run(s, ops, self).netty[..|s.netty|] == s.netty
    ensures forall i :: |s.netty| <= i < |Run(s, ops, self).netty| ==> Run(s, ops, self).netty[i].NettyClose?
    decreases |ops|
  {
    if ops != [] {
      var s1 := Step(s, ops[0], self).0;
      assert AllSendsPromised(ops[1..]) by {
        forall i | 0 <= i < |ops[1..]| ensures ops[1..][i].SendOp? ==> ops[1..][i].sendPromise.Some? {
          assert ops[1..][i] == ops[i + 1];
        }
      }
      assert ops[0].SendOp? ==> ops[0].sendPromise.Some?;
      assert s1.cause.Some?;
      assert |s.netty| <= |s1.netty| && s1.netty[..|s.netty|] == s.netty;
      assert forall i :: |s.netty| <= i < |s1.netty| ==> s1.netty[i].NettyClose?;
      NoWritesOnFailedChannel(s1, ops[1..], self);
      var r := Run(s1, ops[1..], self);
      assert r == Run(s, ops, self);
      assert r.netty[..|s.netty|] == r.netty[..|s1.netty|][..|s.netty|];
    }
  }
}
