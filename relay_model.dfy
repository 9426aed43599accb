/**
 * The example relay server (`example/server/index.js`): the `/admin`
 * namespace creates channel namespaces on request, and each channel
 * namespace relays every `signal` to the other sockets connected to it.
 * `rooms` maps each registered channel name to its connected sockets, in
 * connection order.
 */
module RelayModel {
  import opened Media
  import opened Identity
  import opened Signal

  /** One `socket.emit('signal', payload)` towards socket `to` of namespace `ns`; `None` is a falsy payload. */
  datatype Delivery = Delivery(ns: string, to: nat, payload: Option<Envelope>)

  datatype RelayState = RelayState(
    /** `namespaces`, and each namespace's connected sockets. */
    rooms: map<string, seq<nat>>,
    /** the admin sockets sent `created`, in order. */
    acks: seq<nat>,
    deliveries: seq<Delivery>)

  /** No socket is connected twice to one namespace. */
  ghost predicate Wf(s: RelayState)
  {
    forall ns :: ns in s.rooms ==> Distinct(s.rooms[ns])
  }

  function Init(): (r: RelayState)
    ensures Wf(r) && r.rooms == map[]
  {
    RelayState(map[], [], [])
  }

  /** `!name`: a missing channel or the empty string. */
  predicate Falsy(name: Option<string>)
  {
    name.None? || name.value == ""
  }

  /** `namespaces[name]` is truthy, as written: an own key, or one inherited from `Object.prototype`. */
  predicate KnownAsWritten(s: RelayState, name: string)
  {
    name in s.rooms || name in ObjectPrototypeNames
  }

  /** The `create` handler as written. */
  function CreateAsWritten(s: RelayState, admin: nat, name: Option<string>): (r: RelayState)
    requires Wf(s)
    ensures Wf(r) && r.deliveries == s.deliveries
    ensures Falsy(name) ==> r == s
    ensures !Falsy(name) ==> r.acks == s.acks + [admin]
    ensures !Falsy(name) && KnownAsWritten(s, name.value) ==> r.rooms == s.rooms
    ensures !Falsy(name) && !KnownAsWritten(s, name.value) ==> r.rooms == s.rooms[name.value := []]
  {
    if Falsy(name) then s
    else if KnownAsWritten(s, name.value) then s.(acks := s.acks + [admin])
    else s.(rooms := s.rooms[name.value := []], acks := s.acks + [admin])
  }

  /**
   * The `create` handler with the registry consulted for its own keys only:
   * a falsy name changes nothing and is not acknowledged; a known name is
   * acknowledged without registering again; a new name is registered with no
   * socket, then acknowledged.
   */
  function Create(s: RelayState, admin: nat, name: Option<string>): (r: RelayState)
    requires Wf(s)
    ensures Wf(r) && r.deliveries == s.deliveries
    ensures Falsy(name) ==> r == s
    ensures !Falsy(name) ==> r.acks == s.acks + [admin] && name.value in r.rooms
    ensures !Falsy(name) ==> r.rooms == if name.value in s.rooms then s.rooms else s.rooms[name.value := []]
  {
    if Falsy(name) then s
    else if name.value in s.rooms then s.(acks := s.acks + [admin])
    else s.(rooms := s.rooms[name.value := []], acks := s.acks + [admin])
  }

  /** A `connection` on `/ns`: only a registered namespace has a handler that accepts it. */
  function Connection(s: RelayState, ns: string, socket: nat): (r: RelayState)
    requires Wf(s)
    ensures Wf(r) && r.acks == s.acks && r.deliveries == s.deliveries && r.rooms.Keys == s.rooms.Keys
    ensures ns in s.rooms ==> socket in r.rooms[ns]
    ensures forall k :: k in s.rooms && k != ns ==> r.rooms[k] == s.rooms[k]
  {
    if ns in s.rooms && socket !in s.rooms[ns] then
      var r := s.(rooms := s.rooms[ns := s.rooms[ns] + [socket]]);
      assert Distinct(r.rooms[ns]) by {
        forall i, j | 0 <= i < j < |r.rooms[ns]| ensures r.rooms[ns][i] != r.rooms[ns][j] {
          if j == |s.rooms[ns]| { assert s.rooms[ns][i] in s.rooms[ns]; }
        }
      }
      r
    else s
  }

  /** The sockets of `members` other than `from`, each sent `payload` unchanged, in order. */
  function Broadcast(members: seq<nat>, ns: string, from: nat, payload: Option<Envelope>): (r: seq<Delivery>)
    ensures forall d :: d in r <==> d.ns == ns && d.payload == payload && d.to in members && d.to != from
    ensures |r| <= |members|
  {
    if members == [] then []
    else (if members[0] == from then [] else [Delivery(ns, members[0], payload)]) + Broadcast(members[1..], ns, from, payload)
  }

  /**
   * A `signal` from `from` on `/ns`: `socket.broadcast.emit('signal', payload)`.
   * Whatever the envelope's `includeMe` says, the sender is not among the recipients.
   */
  function Relay(s: RelayState, ns: string, from: nat, payload: Option<Envelope>): (r: RelayState)
    ensures r.rooms == s.rooms && r.acks == s.acks
    ensures ns in s.rooms && from in s.rooms[ns] ==> r.deliveries == s.deliveries + Broadcast(s.rooms[ns], ns, from, payload)
    ensures !(ns in s.rooms && from in s.rooms[ns]) ==> r == s
  {
    if ns in s.rooms && from in s.rooms[ns] then s.(deliveries := s.deliveries + Broadcast(s.rooms[ns], ns, from, payload))
    else s
  }

  /** Creating the same name twice leaves the registry as creating it once; both requests are acknowledged. */
  lemma CreateTwice(s: RelayState, a: nat, b: nat, name: Option<string>)
    requires Wf(s)
    ensures Create(Create(s, a, name), b, name).rooms == Create(s, a, name).rooms
    ensures !Falsy(name) ==> Create(Create(s, a, name), b, name).acks == s.acks + [a, b]
  {
    var r := Create(s, a, name);
    if !Falsy(name) {
      assert name.value in r.rooms;
      assert Create(r, b, name).acks == s.acks + [a] + [b];
    }
  }

  /**
   * A relayed signal reaches every other socket of the namespace exactly as
   * sent and never its sender, nor any socket outside the namespace.
   */
  lemma RelayReachesOthers(s: RelayState, ns: string, from: nat, payload: Option<Envelope>)
    requires Wf(s) && ns in s.rooms && from in s.rooms[ns]
    ensures var sent := Relay(s, ns, from, payload).deliveries[|s.deliveries|..];
      && (forall m :: m in s.rooms[ns] && m != from ==> Delivery(ns, m, payload) in sent)
      && (forall d :: d in sent ==> d.to != from && d.to in s.rooms[ns] && d.payload == payload && d.ns == ns)
  {
    var r := Relay(s, ns, from, payload);
    assert r.deliveries[|s.deliveries|..] == Broadcast(s.rooms[ns], ns, from, payload);
  }

  /**
   * `constructor` passes the client's channel test, yet the relay, finding
   * `namespaces.constructor` inherited, acknowledges it without creating the
   * namespace: the acknowledged client's `connection` is accepted by no
   * handler and none of its signals is relayed.
   */
  lemma ConstructorNeverRelayed(admin: nat, a: nat, b: nat, payload: Option<Envelope>)
    ensures ChannelRegex("constructor")
    ensures var s := CreateAsWritten(Init(), admin, Some("constructor"));
      && s.acks == [admin] && "constructor" !in s.rooms
      && Relay(Connection(Connection(s, "constructor", a), "constructor", b), "constructor", a, payload).deliveries == []
  {
    ConstructorAccepted();
    assert "constructor" in ObjectPrototypeNames;
  }

  /** The client accepts the channel name `constructor`. */
  lemma ConstructorAccepted()
    ensures ChannelRegex("constructor")
  {
    var c := "constructor";
    assert |c| == 11 && forall i :: 0 <= i < |c| ==> 'a' <= c[i] <= 'z';
    LowerCaseChannel(c);
    ChannelRegexIsPlain(c);
  }

  /** With own-key lookup, the acknowledged channel relays between its sockets. */
  lemma ConstructorRelayed(admin: nat, a: nat, b: nat, payload: Option<Envelope>)
    requires a != b
    ensures var s := Connection(Connection(Create(Init(), admin, Some("constructor")), "constructor", a), "constructor", b);
      Relay(s, "constructor", a, payload).deliveries == [Delivery("constructor", b, payload)]
  {
    var s0 := Create(Init(), admin, Some("constructor"));
    assert s0.rooms["constructor"] == [];
    var s := Connection(Connection(s0, "constructor", a), "constructor", b);
    assert s.rooms["constructor"] == [a, b];
    assert Broadcast([a, b], "constructor", a, payload) == [Delivery("constructor", b, payload)] by {
      assert [a, b][1..] == [b];
      assert Broadcast([b], "constructor", a, payload) == [Delivery("constructor", b, payload)] + Broadcast([], "constructor", a, payload);
    }
  }
}
