/**
 * The socket.io signaling client of the examples
 * (`example/client/signaling.socketio.js`). Connecting asks the relay's
 * `/admin` namespace to create the channel and opens the channel's own
 * socket only once the relay acknowledges with `created`. Sockets are
 * numbered handles handed out in order; `live` holds the channel sockets
 * still open, each of which delivers its `signal` messages.
 */
module SocketIoModel {
  import opened Media
  import opened Identity
  import opened Signal

  /** One `emit('signal', payload)` and the socket it went out on. */
  datatype Emit = Emit(socket: nat, payload: Envelope)

  datatype SigState = SigState(
    channel: string,
    /** `_socket`. */
    socket: Option<nat>,
    /** admin sockets whose `created` handler is still registered. */
    pending: set<nat>,
    /** channel sockets not disconnected. */
    live: set<nat>,
    /** the next handle `io(...)` returns. */
    next: nat,
    /** the channels asked for with `admin.emit('create', { channel })`. */
    requests: seq<string>,
    emitted: seq<Emit>,
    /** the payloads passed to `dispatchSignal`, in order. */
    dispatched: seq<Envelope>,
    /** the sockets disconnected, in order. */
    closed: seq<nat>)

  /** Every handle is one `io(...)` returned; `_socket` is one of the open sockets. */
  ghost predicate Wf(s: SigState)
  {
    && (s.socket.Some? ==> s.socket.value in s.live)
    && (forall h :: h in s.pending ==> h < s.next)
    && (forall h :: h in s.live ==> h < s.next)
    && s.pending !! s.live
  }

  /** The constructor's test: `!channel || !/^([a-z0-9\-].*){4,}$/.test(channel)` throws 975600. */
  function CheckChannel(channel: string): (r: Result<string>)
    ensures r.Ok? <==> ChannelRegex(channel)
    ensures r.Ok? ==> r.value == channel
    ensures r.Err? ==> r.code == ErrInvalidChannel
  {
    ChannelRegexIsPlain(channel);
    if ValidChannel(channel) then Ok(channel) else Err(ErrInvalidChannel)
  }

  /** The state right after construction: nothing opened. */
  function Init(channel: string): (r: SigState)
    ensures Wf(r) && r.socket.None?
  {
    SigState(channel, None, {}, {}, 0, [], [], [], [])
  }

  /** `get connected()`: `!!this._socket`. */
  predicate Connected(s: SigState)
  {
    s.socket.Some?
  }

  /**
   * `connect()`: nothing when connected; otherwise a new admin socket whose
   * `created` handler is registered, and the `create` request for the channel.
   * The channel socket is not opened yet.
   */
  function Connect(s: SigState): (r: SigState)
    requires Wf(s)
    ensures Wf(r) && r.socket == s.socket && r.live == s.live
    ensures Connected(s) ==> r == s
    ensures !Connected(s) ==> r.pending == s.pending + {s.next} && s.next !in s.pending
    ensures !Connected(s) ==> r.requests == s.requests + [s.channel]
    ensures r.(pending := s.pending, next := s.next, requests := s.requests) == s
  {
    if s.socket.Some? then s
    else s.(pending := s.pending + {s.next}, next := s.next + 1, requests := s.requests + [s.channel])
  }

  /**
   * The admin socket `admin` receives `created`: the channel socket is opened
   * and becomes `_socket` (replacing any earlier one), and the admin socket is
   * disconnected. An admin socket whose handler is gone delivers nothing.
   */
  function OnCreated(s: SigState, admin: nat): (r: SigState)
    requires Wf(s)
    ensures Wf(r)
    ensures admin !in s.pending ==> r == s
    ensures admin in s.pending ==> && Connected(r) && r.socket.value !in s.live && r.socket.value !in s.pending
                                   && r.live == s.live + {r.socket.value}
                                   && r.pending == s.pending - {admin}
                                   && r.closed == s.closed + [admin]
    ensures r.requests == s.requests && r.emitted == s.emitted && r.dispatched == s.dispatched
  {
    if admin !in s.pending then s
    else s.(socket := Some(s.next), live := s.live + {s.next}, next := s.next + 1,
            pending := s.pending - {admin}, closed := s.closed + [admin])
  }

  /** `disconnect()`: the channel socket, if any, is disconnected and `_socket` cleared. */
  function Disconnect(s: SigState): (r: SigState)
    requires Wf(s)
    ensures Wf(r) && !Connected(r)
    ensures !Connected(s) ==> r == s
    ensures Connected(s) ==> r.live == s.live - {s.socket.value} && r.closed == s.closed + [s.socket.value]
    ensures r.(socket := s.socket, live := s.live, closed := s.closed) == s
  {
    if s.socket.Some? then s.(socket := None, live := s.live - {s.socket.value}, closed := s.closed + [s.socket.value])
    else s
  }

  /** `send(payload)`: emitted unchanged on `_socket`, silently dropped while not connected. */
  function Send(s: SigState, payload: Envelope): (r: SigState)
    ensures !Connected(s) ==> r == s
    ensures Connected(s) ==> r.emitted == s.emitted + [Emit(s.socket.value, payload)]
    ensures r.(emitted := s.emitted) == s
  {
    if s.socket.Some? then s.(emitted := s.emitted + [Emit(s.socket.value, payload)]) else s
  }

  /**
   * The `signal` handler of channel socket `h`; `payload` is `None` for a
   * falsy value. Only a truthy payload is dispatched, and only an open socket
   * delivers.
   */
  function OnSignal(s: SigState, h: nat, payload: Option<Envelope>): (r: SigState)
    ensures r.dispatched == s.dispatched + (if h in s.live && payload.Some? then [payload.value] else [])
    ensures r.(dispatched := s.dispatched) == s
  {
    if h in s.live && payload.Some? then s.(dispatched := s.dispatched + [payload.value]) else s
  }

  // ---- Traces ---------------------------------------------------------------------

  datatype Op = ConnectOp | Created(admin: nat) | DisconnectOp | SendOp(payload: Envelope) | Receive(socket: nat, data: Option<Envelope>)

  function Step(s: SigState, op: Op): (r: SigState)
    requires Wf(s)
    ensures Wf(r)
  {
    match op
    case ConnectOp => Connect(s)
    case Created(a) => OnCreated(s, a)
    case DisconnectOp => Disconnect(s)
    case SendOp(p) => Send(s, p)
    case Receive(h, p) => OnSignal(s, h, p)
  }

  /** The operations applied in order. */
  function Run(s: SigState, ops: seq<Op>): (r: SigState)
    requires Wf(s)
    ensures Wf(r)
    decreases |ops|
  {
    if ops == [] then s else Run(Step(s, ops[0]), ops[1..])
  }

  /** The truthy payloads that open sockets deliver over a trace without connection changes. */
  function Truthy(ops: seq<Op>, live: set<nat>): seq<Envelope>
  {
    if ops == [] then []
    else (if ops[0].Receive? && ops[0].socket in live && ops[0].data.Some? then [ops[0].data.value] else [])
         + Truthy(ops[1..], live)
  }

  /** The payloads of a trace's sends, each on `h`. */
  function Emits(ops: seq<Op>, h: nat): seq<Emit>
  {
    if ops == [] then [] else (if ops[0].SendOp? then [Emit(h, ops[0].payload)] else []) + Emits(ops[1..], h)
  }

  /** No channel socket is opened without a `created` acknowledgement. */
  predicate NoAck(ops: seq<Op>)
  {
    forall i :: 0 <= i < |ops| ==> !ops[i].Created?
  }

  /**
   * Until an acknowledgement arrives, a client that is not connected stays so,
   * and every send in the meantime is dropped.
   */
  lemma {:induction false} NotConnectedUntilAck(s: SigState, ops: seq<Op>)
    requires Wf(s) && !Connected(s) && NoAck(ops)
    ensures !Connected(Run(s, ops)) && Run(s, ops).emitted == s.emitted
    decreases |ops|
  {
    if ops != [] {
      assert NoAck(ops[1..]) by {
        forall i | 0 <= i < |ops| - 1 ensures !ops[1..][i].Created? { assert ops[1..][i] == ops[i + 1]; }
      }
      NotConnectedUntilAck(Step(s, ops[0]), ops[1..]);
    }
  }

  /** Only connection changes move `_socket`. */
  predicate Steady(ops: seq<Op>)
  {
    forall i :: 0 <= i < |ops| ==> ops[i].SendOp? || ops[i].Receive?
  }

  /**
   * While the connection does not change, every send goes out unchanged on
   * `_socket`, in order, and exactly the truthy payloads of the open sockets are
   * dispatched, in order.
   */
  lemma {:induction false} SteadyRun(s: SigState, ops: seq<Op>)
    requires Wf(s) && Connected(s) && Steady(ops)
    ensures Run(s, ops).socket == s.socket && Run(s, ops).live == s.live
    ensures Run(s, ops).emitted == s.emitted + Emits(ops, s.socket.value)
    ensures Run(s, ops).dispatched == s.dispatched + Truthy(ops, s.live)
    decreases |ops|
  {
    if ops == [] {
      assert s.emitted + [] == s.emitted && s.dispatched + [] == s.dispatched;
    } else {
      var w := Step(s, ops[0]);
      assert Steady(ops[1..]) by {
        forall i | 0 <= i < |ops| - 1 ensures ops[1..][i].SendOp? || ops[1..][i].Receive? { assert ops[1..][i] == ops[i + 1]; }
      }
      assert w.socket == s.socket && w.live == s.live;
      SteadyRun(w, ops[1..]);
      AppendAssoc(s.emitted, if ops[0].SendOp? then [Emit(s.socket.value, ops[0].payload)] else [], Emits(ops[1..], s.socket.value));
      AppendAssoc(s.dispatched, if ops[0].Receive? && ops[0].socket in s.live && ops[0].data.Some? then [ops[0].data.value] else [],
                  Truthy(ops[1..], s.live));
    }
  }

  /** Connecting again while connected changes nothing; disconnecting twice is disconnecting once. */
  lemma Idempotent(s: SigState)
    requires Wf(s)
    ensures Connected(s) ==> Connect(s) == s
    ensures Disconnect(Disconnect(s)) == Disconnect(s)
  {
  }

  /**
   * Two `connect()` calls before the first acknowledgement both register a
   * `created` handler: after both acknowledgements two channel sockets are
   * open, `_socket` is the second, and the first still dispatches what it
   * receives; `disconnect()` closes only the second.
   */
  lemma DoubleConnect(channel: string, e: Envelope)
    ensures var s := Run(Init(channel), [ConnectOp, ConnectOp, Created(0), Created(1)]);
      && s.socket == Some(3) && s.live == {2, 3}
      && OnSignal(s, 2, Some(e)).dispatched == [e]
      && Disconnect(s).live == {2}
  {
    var s0 := Init(channel);
    var s1 := Connect(s0);
    var s2 := Connect(s1);
    var s3 := OnCreated(s2, 0);
    var s4 := OnCreated(s3, 1);
    assert s2.pending == {0, 1};
    assert s4.live == {2, 3};
    assert Run(s0, [ConnectOp, ConnectOp, Created(0), Created(1)]) == s4 by {
      assert [ConnectOp, ConnectOp, Created(0), Created(1)][1..] == [ConnectOp, Created(0), Created(1)];
      assert [ConnectOp, Created(0), Created(1)][1..] == [Created(0), Created(1)];
      assert [Created(0), Created(1)][1..] == [Created(1)];
    }
  }
}
