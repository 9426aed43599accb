/**
 * The hub client (`src/index.js`) and its older variant (`src/sfu/index.js`) as
 * a state machine over values: one shared uplink that carries the local stream
 * to the hub, and one downlink per remote peer, keyed by the peer's socket id,
 * on which the hub offers that peer's media.
 */
module HubModel {
  import opened Media
  import opened Transport
  import opened Signal

  /** The words of the hub protocol. */
  const WordHello := "hello"
  const WordSdp := "sdp"
  const WordCdt := "cdt"

  /** Which of the two clients: `src/index.js` or the older `src/sfu/index.js`. */
  datatype Variant = Current | Legacy

  /** A directory entry: the peer's socket id, its downlink and the stream received on it. */
  datatype Peer = Peer(socketId: string, ipc: LinkState, stream: Option<seq<Track>>)

  /** The entry `_addPeer` stores: the current client gives it an empty stream, the older one none. */
  function NewPeer(variant: Variant, socketId: string): Peer
  {
    Peer(socketId, FreshLink, if variant == Current then Some([]) else None)
  }

  /**
   * The client's observable state. `signaling` names the joined signaling
   * object, `opc` is the uplink, `order` the enumeration order of the
   * directory; `outbox` holds every envelope sent, `events` every event
   * dispatched, `stopped` every track stopped, `retired` every link closed
   * and dropped, and `disconnected` every signaling object disconnected, in
   * order. `length` is the `length` of the directory, an array: it grows
   * when an id that is an array index is stored, and no `delete` lowers it.
   */
  datatype HubView = HubView(
    variant: Variant,
    signaling: Option<nat>,
    opc: Option<LinkState>,
    peers: map<string, Peer>,
    order: seq<string>,
    stream: seq<Track>,
    outbox: seq<Envelope>,
    events: seq<Event>,
    stopped: seq<Track>,
    retired: seq<LinkState>,
    disconnected: seq<nat>,
    length: nat)

  /** The directory: the order lists each key once and every entry is stored under its socket id. */
  predicate Directory(v: HubView)
  {
    Distinct(v.order)
    && (forall k :: k in v.peers ==> k in v.order)
    && (forall k :: k in v.order ==> k in v.peers)
    && (forall k :: k in v.peers ==> v.peers[k].socketId == k)
  }

  /**
   * The client's invariant: the uplink exists exactly while joined, nobody is
   * in the directory while not joined, and in the current client every entry
   * holds a stream.
   */
  predicate Wf(v: HubView)
  {
    Directory(v)
    && (v.signaling.Some? <==> v.opc.Some?)
    && (v.signaling.None? ==> v.peers == map[])
    && (v.variant == Current ==> forall k :: k in v.peers ==> v.peers[k].stream.Some?)
  }

  /** The constructor: not joined, nobody in the directory, an empty local stream. */
  function Init(variant: Variant): (r: HubView)
    ensures Wf(r) && r.variant == variant
    ensures r.signaling.None? && r.opc.None? && r.peers == map[] && r.stream == []
    ensures r.outbox == [] && r.events == [] && r.stopped == [] && r.retired == [] && r.disconnected == []
    ensures r.length == 0
  {
    HubView(variant, None, None, map[], [], [], [], [], [], [], [], 0)
  }

  // ---- Projections ------------------------------------------------------------------

  /** What `peer()` and `peers()` report of an entry. */
  datatype Snap = Snap(socketId: Option<string>, stream: Option<seq<Track>>)

  /**
   * `peer(s)`: nothing for an unknown socket id. The current client reports
   * the stream, an empty one by default; the older one reports `null` until a
   * track arrives. The directory is an array, so a name it inherits (such as
   * `map` or `constructor`), and `length` once it is positive, is found too:
   * the current client strips that value to no socket id and an empty
   * stream, the older one reports the asked id with no stream.
   */
  function PeerOf(v: HubView, s: string): (r: Option<Snap>)
    requires Directory(v)
    ensures r.None? <==> s !in v.peers && !InheritedName(s, v.length)
    ensures s in v.peers ==> r.value.socketId == Some(s)
    ensures s in v.peers && v.variant == Current ==> r.value.stream == Some(TracksOf(v.peers[s].stream))
    ensures s in v.peers && v.variant == Legacy ==> r.value.stream == v.peers[s].stream
    ensures s !in v.peers && InheritedName(s, v.length) ==>
      r == Some(if v.variant == Current then Snap(None, Some([])) else Snap(Some(s), None))
  {
    if s in v.peers then
      if v.variant == Current then Some(Strip(v.peers[s])) else Some(Snap(Some(s), v.peers[s].stream))
    else if InheritedName(s, v.length) then
      if v.variant == Current then Some(Snap(None, Some([]))) else Some(Snap(Some(s), None))
    else None
  }

  /** `_stripPeer`: the socket id and the stream, an empty stream by default. */
  function Strip(p: Peer): Snap
  {
    Snap(Some(p.socketId), Some(TracksOf(p.stream)))
  }

  /**
   * `peers()`: one snapshot per entry in directory order. The older client
   * projects the never-set `peer.id`, so no snapshot carries an id.
   */
  function Peers(v: HubView): (r: seq<Snap>)
    requires Directory(v)
    ensures |r| == |v.order|
    ensures v.variant == Current ==> forall i :: 0 <= i < |r| ==> r[i] == PeerOf(v, v.order[i]).value
    ensures v.variant == Legacy ==> forall i :: 0 <= i < |r| ==> r[i] == Snap(None, PeerOf(v, v.order[i]).value.stream)
  {
    seq(|v.order|, i requires 0 <= i < |v.order| =>
      var p := v.peers[v.order[i]];
      if v.variant == Current then Strip(p) else Snap(None, p.stream))
  }

  /** In the current client every entry has a snapshot in `peers()`, and it is the one `peer()` reports. */
  lemma EveryPeerListed(v: HubView, s: string)
    requires Directory(v) && v.variant == Current && s in v.peers
    ensures exists i :: 0 <= i < |Peers(v)| && Peers(v)[i] == PeerOf(v, s).value
  {
    var i :| 0 <= i < |v.order| && v.order[i] == s;
    assert Peers(v)[i] == PeerOf(v, s).value;
  }

  // ---- Directory --------------------------------------------------------------------

  /**
   * `_addPeer(s)`: a fresh entry under `s`, replacing any existing one without
   * closing its downlink; other entries are untouched; peer-entered is
   * dispatched. For `s` = `length` the assignment throws a RangeError before
   * anything is stored or dispatched.
   */
  function AddPeer(v: HubView, s: string): (r: HubView)
    requires Wf(v) && v.signaling.Some?
    ensures Wf(r)
    ensures s == "length" ==> r == v
    ensures s != "length" ==>
      && r.peers == v.peers[s := NewPeer(v.variant, s)]
      && r.order == (if s in v.peers then v.order else v.order + [s])
      && r.events == v.events + [PeerEntered(s)]
      && r.length == GrownLength(v.length, s)
    ensures r.(peers := v.peers, order := v.order, events := v.events, length := v.length) == v
  {
    if s == "length" then v
    else
    var order := if s in v.peers then v.order else v.order + [s];
    var r := v.(peers := v.peers[s := NewPeer(v.variant, s)], order := order, events := v.events + [PeerEntered(s)],
                length := GrownLength(v.length, s));
    assert Distinct(r.order) by {
      forall i, j | 0 <= i < j < |r.order| ensures r.order[i] != r.order[j] {
        if j == |v.order| { assert v.order[i] in v.peers; }
      }
    }
    r
  }

  /**
   * Right after `_addPeer(s)`, `peer(s)` reports an empty stream (current) or
   * `null` (older), and every other id except `length` reports as before;
   * `_addPeer(length)` changes no report.
   */
  lemma FreshPeerReport(v: HubView, s: string)
    requires Wf(v) && v.signaling.Some?
    ensures s != "length" ==> PeerOf(AddPeer(v, s), s) == Some(Snap(Some(s), if v.variant == Current then Some([]) else None))
    ensures forall t :: t != s && t != "length" ==> PeerOf(AddPeer(v, s), t) == PeerOf(v, t)
    ensures s == "length" ==> forall t :: PeerOf(AddPeer(v, s), t) == PeerOf(v, t)
  {
  }

  /**
   * The ids `payload.data.forEach(_addPeer)` reaches before `_addPeer` throws:
   * everything before the first `length`.
   */
  function BeforeLength(ids: seq<string>): (r: seq<string>)
    ensures r <= ids && "length" !in r
    ensures "length" in ids <==> |r| < |ids|
    ensures |r| < |ids| ==> ids[|r|] == "length"
  {
    if ids == [] then []
    else if ids[0] == "length" then []
    else
      var t := BeforeLength(ids[1..]);
      assert ids == [ids[0]] + ids[1..];
      [ids[0]] + t
  }

  /** The peer-entered events of a run of `_addPeer` over `ids`, in order. */
  function Entered(ids: seq<string>): (r: seq<Event>)
    ensures |r| == |ids|
    ensures forall i :: 0 <= i < |ids| ==> r[i] == PeerEntered(ids[i])
  {
    if ids == [] then [] else Entered(ids[..|ids| - 1]) + [PeerEntered(ids[|ids| - 1])]
  }

  /** `_addPeer` for each listed socket id, in order. */
  function AddPeers(v: HubView, ids: seq<string>): (r: HubView)
    requires Wf(v) && v.signaling.Some?
    ensures Wf(r) && r.signaling == v.signaling
    ensures r.(peers := v.peers, order := v.order, events := v.events, length := v.length) == v
  {
    if ids == [] then v else AddPeer(AddPeers(v, ids[..|ids| - 1]), ids[|ids| - 1])
  }

  /** Adding the ids one more at a time. */
  lemma AddPeersStep(v: HubView, ids: seq<string>, i: nat)
    requires Wf(v) && v.signaling.Some? && i < |ids|
    ensures AddPeers(v, ids[..i + 1]) == AddPeer(AddPeers(v, ids[..i]), ids[i])
  {
    assert ids[..i + 1][..i] == ids[..i];
  }

  /**
   * A hello adds one entry per socket id listed before the first `length`,
   * each fresh, leaves every other entry as it was, and dispatches
   * peer-entered once per added id; without `length` that is every listed id.
   */
  lemma HelloAddsEach(v: HubView, ids: seq<string>)
    requires Wf(v) && v.signaling.Some?
    ensures var pre := BeforeLength(ids); var r := AddPeers(v, pre);
      && ("length" !in ids ==> pre == ids)
      && (forall k :: k in r.peers <==> k in v.peers || k in pre)
      && (forall k :: k in pre ==> r.peers[k] == NewPeer(v.variant, k))
      && (forall k :: k in v.peers && k !in pre ==> r.peers[k] == v.peers[k])
      && r.events == v.events + Entered(pre)
  {
    var pre := BeforeLength(ids);
    HelloEntries(v, pre);
    HelloEvents(v, pre);
  }

  lemma {:induction false} HelloEntries(v: HubView, ids: seq<string>)
    requires Wf(v) && v.signaling.Some? && "length" !in ids
    ensures var r := AddPeers(v, ids);
      && (forall k :: k in r.peers <==> k in v.peers || k in ids)
      && (forall k :: k in ids ==> r.peers[k] == NewPeer(v.variant, k))
      && (forall k :: k in v.peers && k !in ids ==> r.peers[k] == v.peers[k])
  {
    if ids != [] {
      var init := ids[..|ids| - 1];
      var last := ids[|ids| - 1];
      assert "length" !in init by { assert forall k :: k in init ==> k in ids; }
      HelloEntries(v, init);
      var w := AddPeers(v, init);
      assert AddPeers(v, ids) == AddPeer(w, last);
      assert AddPeer(w, last).peers == w.peers[last := NewPeer(v.variant, last)];
      assert ids == init + [last];
      AddedStep(v.variant, v.peers, w.peers, init, last);
    }
  }

  /** One more `_addPeer` extends the hello facts from `init` to `init + [last]`. */
  lemma AddedStep(variant: Variant, before: map<string, Peer>, after: map<string, Peer>, init: seq<string>, last: string)
    requires forall k :: k in after <==> k in before || k in init
    requires forall k :: k in init ==> after[k] == NewPeer(variant, k)
    requires forall k :: k in before && k !in init ==> after[k] == before[k]
    ensures var r := after[last := NewPeer(variant, last)];
      && (forall k :: k in r <==> k in before || k in init + [last])
      && (forall k :: k in init + [last] ==> r[k] == NewPeer(variant, k))
      && (forall k :: k in before && k !in init + [last] ==> r[k] == before[k])
  {
    assert forall k :: k in init + [last] <==> k in init || k == last;
  }

  lemma {:induction false} HelloEvents(v: HubView, ids: seq<string>)
    requires Wf(v) && v.signaling.Some? && "length" !in ids
    ensures AddPeers(v, ids).events == v.events + Entered(ids)
  {
    if ids != [] {
      var init := ids[..|ids| - 1];
      var last := ids[|ids| - 1];
      assert "length" !in init by { assert forall k :: k in init ==> k in ids; }
      HelloEvents(v, init);
      assert AddPeers(v, ids) == AddPeer(AddPeers(v, init), last);
      AppendAssoc(v.events, Entered(init), [PeerEntered(last)]);
    }
  }

  /** `_removePeer`: the downlink is closed and dropped, only that entry goes, peer-left is dispatched. */
  function RemovePeer(v: HubView, s: string): (r: HubView)
    requires Wf(v) && s in v.peers
    ensures Wf(r)
    ensures r.peers == v.peers - {s}
    ensures r.order == Without(v.order, s)
    ensures r.retired == v.retired + [v.peers[s].ipc.(closed := true)]
    ensures r.events == v.events + [PeerLeft(s)]
    ensures r.(peers := v.peers, order := v.order, retired := v.retired, events := v.events) == v
  {
    v.(peers := v.peers - {s}, order := Without(v.order, s),
       retired := v.retired + [v.peers[s].ipc.(closed := true)],
       events := v.events + [PeerLeft(s)])
  }

  /** `_onEnter`: one entry for the entering socket; for `length`, `_addPeer` throws and nothing changes. */
  function OnEnter(v: HubView, s: string): (r: HubView)
    requires Wf(v) && v.signaling.Some?
    ensures Wf(r)
    ensures s == "length" ==> r == v
    ensures s != "length" ==> s in r.peers && r.peers[s] == NewPeer(v.variant, s)
    ensures s != "length" ==> r.peers.Keys == v.peers.Keys + {s}
    ensures forall k :: k in v.peers && k != s ==> r.peers[k] == v.peers[k]
  {
    AddPeer(v, s)
  }

  /**
   * A leave signal. The current client removes a known peer and ignores an
   * unknown one; the older client's handler does nothing, so the peer stays.
   */
  function OnLeave(v: HubView, s: string): (r: HubView)
    requires Wf(v)
    ensures Wf(r)
    ensures v.variant == Legacy || s !in v.peers ==> r == v
    ensures v.variant == Current && s in v.peers ==> r == RemovePeer(v, s)
  {
    if v.variant == Current && s in v.peers then RemovePeer(v, s) else v
  }

  // ---- Messages ---------------------------------------------------------------------

  /** The engine's own configuration is the same in `w` as in `v`: a message handler never changes it. */
  predicate Kept(v: HubView, w: HubView)
  {
    w.variant == v.variant && w.signaling == v.signaling && w.stream == v.stream
    && w.stopped == v.stopped && w.retired == v.retired && w.disconnected == v.disconnected
  }

  /**
   * A received offer on the downlink of the peer `on` names: on success the
   * downlink holds the offer and the answer, and the answer goes back carrying
   * the same `on`; otherwise error 352177. Nothing else changes.
   */
  function AnswerOn(v: HubView, on: Option<string>, d: Desc, route: Step): (r: HubView)
    requires Wf(v) && KeyOf(on) in v.peers
    ensures Wf(r) && Kept(v, r) && r.opc == v.opc
    ensures route.ok ==>
      var p := v.peers[KeyOf(on)];
      && r.peers == v.peers[KeyOf(on) := p.(ipc := Answered(p.ipc, d, route.sdp))]
      && r.outbox == v.outbox + [HubEnv(WordSdp, on, Session(Desc(Answer, route.sdp)))]
      && r.events == v.events
    ensures !route.ok ==> r == v.(events := v.events + [Error(ErrAnswerOffer)])
  {
    var p := v.peers[KeyOf(on)];
    if route.ok then
      v.(peers := v.peers[KeyOf(on) := p.(ipc := Answered(p.ipc, d, route.sdp))],
         outbox := v.outbox + [HubEnv(WordSdp, on, Session(Desc(Answer, route.sdp)))])
    else v.(events := v.events + [Error(ErrAnswerOffer)])
  }

  /** A received answer on the uplink: its remote description, or error 645167. */
  function AnswerUplink(v: HubView, d: Desc, route: Step): (r: HubView)
    requires Wf(v) && v.opc.Some?
    ensures Wf(r) && Kept(v, r) && r.peers == v.peers && r.outbox == v.outbox
    ensures route.ok ==> r.opc == Some(v.opc.value.(remoteDesc := Some(d))) && r.events == v.events
    ensures !route.ok ==> r == v.(events := v.events + [Error(ErrApplyAnswer)])
  {
    if route.ok then v.(opc := Some(v.opc.value.(remoteDesc := Some(d))))
    else v.(events := v.events + [Error(ErrApplyAnswer)])
  }

  /**
   * `sdp`: a payload that is no session description throws; an offer for a
   * peer not in the directory throws (`peer.ipc` of `undefined`); an offer is
   * answered on that peer's downlink and an answer applied to the uplink,
   * whatever `on` says; other types change nothing.
   */
  function OnSdp(v: HubView, e: Envelope, route: Step): (r: (HubView, Outcome))
    requires Wf(v) && v.signaling.Some?
    ensures Wf(r.0) && Kept(v, r.0)
    ensures r.1 != Ignored
    ensures r.1 == Thrown <==> !e.data.Session? || (e.data.desc.kind == Offer && KeyOf(e.on) !in v.peers)
    ensures r.1 == Thrown ==> r.0 == v
    ensures r.1 == Handled && e.data.desc.kind == Offer ==> r.0 == AnswerOn(v, e.on, e.data.desc, route)
    ensures r.1 == Handled && e.data.desc.kind == Answer ==> r.0 == AnswerUplink(v, e.data.desc, route)
    ensures r.1 == Handled && e.data.desc.kind != Offer && e.data.desc.kind != Answer ==> r.0 == v
  {
    if !e.data.Session? then (v, Thrown)
    else
      var d := e.data.desc;
      match d.kind
      case Offer => if KeyOf(e.on) in v.peers then (AnswerOn(v, e.on, d, route), Handled) else (v, Thrown)
      case Answer => (AnswerUplink(v, d, route), Handled)
      case _ => (v, Handled)
  }

  /**
   * `cdt`: with a truthy `on` the candidate goes to that peer's downlink
   * (throwing for an unknown peer), otherwise to the uplink; a failure is
   * error 518450 and changes nothing else; a payload that is no candidate throws.
   */
  function OnCdt(v: HubView, e: Envelope, route: Step): (r: (HubView, Outcome))
    requires Wf(v) && v.signaling.Some?
    ensures Wf(r.0) && Kept(v, r.0) && r.0.outbox == v.outbox
    ensures r.1 != Ignored
    ensures r.1 == Thrown <==> !e.data.Candidate? || (Truthy(e.on) && e.on.value !in v.peers)
    ensures r.1 == Thrown ==> r.0 == v
    ensures r.1 == Handled && !route.ok ==> r.0 == v.(events := v.events + [Error(ErrAddCandidate)])
    ensures r.1 == Handled && route.ok && Truthy(e.on) ==>
      var p := v.peers[e.on.value];
      r.0 == v.(peers := v.peers[e.on.value := p.(ipc := p.ipc.(candidates := p.ipc.candidates + [e.data.cdt]))])
    ensures r.1 == Handled && route.ok && !Truthy(e.on) ==>
      r.0 == v.(opc := Some(v.opc.value.(candidates := v.opc.value.candidates + [e.data.cdt])))
  {
    if !e.data.Candidate? then (v, Thrown)
    else if Truthy(e.on) then
      if e.on.value !in v.peers then (v, Thrown)
      else if !route.ok then (v.(events := v.events + [Error(ErrAddCandidate)]), Handled)
      else
        var p := v.peers[e.on.value];
        (v.(peers := v.peers[e.on.value := p.(ipc := p.ipc.(candidates := p.ipc.candidates + [e.data.cdt]))]), Handled)
    else if !route.ok then (v.(events := v.events + [Error(ErrAddCandidate)]), Handled)
    else (v.(opc := Some(v.opc.value.(candidates := v.opc.value.candidates + [e.data.cdt]))), Handled)
  }

  /**
   * `_onMessage`: while not joined no handler is listening; `hello` adds one
   * peer per listed socket id (a payload that is no list throws, and the
   * loop throws at an id `length`, keeping the peers added before it), `sdp`
   * and `cdt` are routed by `on`, any other word is ignored.
   */
  function OnMessage(v: HubView, e: Envelope, route: Step): (r: (HubView, Outcome))
    requires Wf(v)
    ensures Wf(r.0) && Kept(v, r.0)
    ensures r.1 == Ignored ==> r.0 == v
    ensures r.1 == Thrown && e.word != WordHello ==> r.0 == v
    ensures v.signaling.None? || e.word !in {WordHello, WordSdp, WordCdt} ==> r.1 == Ignored
    ensures v.signaling.Some? && e.word == WordHello ==>
      && (r.1 == Thrown <==> Strings(e.data).None? || "length" in Strings(e.data).value)
      && (Strings(e.data).None? ==> r.0 == v)
      && (Strings(e.data).Some? ==> r.0 == AddPeers(v, BeforeLength(Strings(e.data).value)))
    ensures v.signaling.Some? && e.word == WordSdp ==> r == OnSdp(v, e, route)
    ensures v.signaling.Some? && e.word == WordCdt ==> r == OnCdt(v, e, route)
  {
    if v.signaling.None? then (v, Ignored)
    else if e.word == WordHello then
      match Strings(e.data)
      case None => (v, Thrown)
      case Some(ids) => (AddPeers(v, BeforeLength(ids)), if "length" in ids then Thrown else Handled)
    else if e.word == WordSdp then OnSdp(v, e, route)
    else if e.word == WordCdt then OnCdt(v, e, route)
    else (v, Ignored)
  }

  /**
   * A hello whose list has a first `length` after `pre` adds exactly the ids
   * of `pre` and then throws: nothing listed after `length` is added.
   */
  lemma HelloStopsAtLength(v: HubView, pre: seq<string>, post: seq<string>, route: Step)
    requires Wf(v) && v.signaling.Some? && "length" !in pre
    ensures OnMessage(v, HubEnv(WordHello, None, SocketIds(pre + ["length"] + post)), route) == (AddPeers(v, pre), Thrown)
  {
    var ids := pre + ["length"] + post;
    BeforeFirstLength(pre, post);
    assert ids[|pre|] == "length";
    assert Strings(SocketIds(ids)) == Some(ids);
  }

  lemma {:induction false} BeforeFirstLength(pre: seq<string>, post: seq<string>)
    requires "length" !in pre
    ensures BeforeLength(pre + ["length"] + post) == pre
  {
    var ids := pre + ["length"] + post;
    if pre == [] {
      assert ids[0] == "length";
    } else {
      assert pre[0] in pre;
      assert ids[0] == pre[0] && ids[0] != "length";
      assert "length" !in pre[1..] by { assert forall k :: k in pre[1..] ==> k in pre; }
      BeforeFirstLength(pre[1..], post);
      assert ids[1..] == pre[1..] + ["length"] + post;
      assert BeforeLength(ids) == [ids[0]] + BeforeLength(ids[1..]);
      assert pre == [pre[0]] + pre[1..];
    }
  }

  // ---- Link events ------------------------------------------------------------------

  /**
   * `_onICECandidate` on the uplink (`link` is `None`) or on the downlink of
   * peer `link.value`: a gathered candidate is sent, carrying `on` only for a
   * downlink; the end of gathering sends nothing.
   */
  function OnIceCandidate(v: HubView, link: Option<string>, candidate: Option<string>): (r: HubView)
    requires Wf(v)
    ensures r.(outbox := v.outbox) == v
    ensures candidate.None? || v.signaling.None? ==> r == v
    ensures candidate.Some? && v.signaling.Some? ==>
      r.outbox == v.outbox + [HubEnv(WordCdt, link, Candidate(candidate.value))]
  {
    if candidate.None? || v.signaling.None? then v
    else v.(outbox := v.outbox + [HubEnv(WordCdt, link, Candidate(candidate.value))])
  }

  /**
   * A link reports a state change: it is dispatched and nothing else happens;
   * neither client cleans up after a disconnection.
   */
  function OnStateChange(v: HubView, subject: Option<string>, which: string, value: string): (r: HubView)
    ensures r.events == v.events + [StateChanged(subject, which, value)]
    ensures r.(events := v.events) == v
  {
    v.(events := v.events + [StateChanged(subject, which, value)])
  }

  /** `_onTrack` on the downlink of `key`: its first stream becomes the peer's stream. */
  function OnTrack(v: HubView, key: string, streams: seq<seq<Track>>): (r: HubView)
    requires Wf(v)
    ensures Wf(r)
    ensures streams == [] || key !in v.peers ==> r == v
    ensures streams != [] && key in v.peers ==>
      && r.peers == v.peers[key := v.peers[key].(stream := Some(streams[0]))]
      && r.events == v.events + [TrackAdded(key)]
      && r.(peers := v.peers, events := v.events) == v
  {
    if streams == [] || key !in v.peers then v
    else v.(peers := v.peers[key := v.peers[key].(stream := Some(streams[0]))], events := v.events + [TrackAdded(key)])
  }

  // ---- Leaving and joining -----------------------------------------------------------

  /**
   * The first two steps of `leave`: the signaling object is released (only
   * the current client disconnects it) and the uplink is closed and dropped.
   */
  function Release(v: HubView): (r: HubView)
    requires Directory(v)
    ensures Directory(r) && r.signaling.None? && r.opc.None?
    ensures r.disconnected == v.disconnected + (if v.variant == Current && v.signaling.Some? then [v.signaling.value] else [])
    ensures r.retired == v.retired + (if v.opc.Some? then [v.opc.value.(closed := true)] else [])
    ensures r.(signaling := v.signaling, opc := v.opc, retired := v.retired, disconnected := v.disconnected) == v
  {
    var w := if v.signaling.Some? then
        v.(signaling := None, disconnected := v.disconnected + (if v.variant == Current then [v.signaling.value] else []))
      else v;
    if w.opc.Some? then w.(opc := None, retired := w.retired + [w.opc.value.(closed := true)]) else w
  }

  /** One step of the `leave` loop: the peer's stream is stopped, its downlink closed, its entry deleted. */
  function Retire(v: HubView, key: string): (r: HubView)
    requires Directory(v) && key in v.peers
    ensures Directory(r)
    ensures r.peers == v.peers - {key} && r.order == Without(v.order, key)
    ensures r.stopped == v.stopped + TracksOf(v.peers[key].stream)
    ensures r.retired == v.retired + [v.peers[key].ipc.(closed := true)]
    ensures r.(peers := v.peers, order := v.order, stopped := v.stopped, retired := v.retired) == v
  {
    var p := v.peers[key];
    v.(peers := v.peers - {key}, order := Without(v.order, key),
       stopped := v.stopped + TracksOf(p.stream), retired := v.retired + [p.ipc.(closed := true)])
  }

  /** The tracks of the streams held by the entries `ks`, in that order. */
  function StreamsOf(peers: map<string, Peer>, ks: seq<string>): seq<Track>
    requires forall k :: k in ks ==> k in peers
  {
    if ks == [] then [] else TracksOf(peers[ks[0]].stream) + StreamsOf(peers, ks[1..])
  }

  /** The downlinks of the entries `ks`, closed, in that order. */
  function Downlinks(peers: map<string, Peer>, ks: seq<string>): seq<LinkState>
    requires forall k :: k in ks ==> k in peers
  {
    if ks == [] then [] else [peers[ks[0]].ipc.(closed := true)] + Downlinks(peers, ks[1..])
  }

  /** The `leave` loop over `Object.values(_peers)`: every entry is retired, in directory order. */
  function RetireAll(v: HubView): (r: HubView)
    requires Directory(v)
    decreases |v.order|
    ensures Directory(r) && r.peers == map[] && r.order == []
    ensures r.(peers := v.peers, order := v.order, stopped := v.stopped, retired := v.retired) == v
  {
    if v.order == [] then
      assert v.peers.Keys == {};
      v
    else
      RetireAll(Retire(v, v.order[0]))
  }

  /** The loop stops every held track and closes every downlink, in directory order. */
  lemma {:induction false} RetireAllEffect(v: HubView)
    requires Directory(v)
    decreases |v.order|
    ensures RetireAll(v).stopped == v.stopped + StreamsOf(v.peers, v.order)
    ensures RetireAll(v).retired == v.retired + Downlinks(v.peers, v.order)
  {
    if v.order != [] {
      var k0 := v.order[0];
      var w := Retire(v, k0);
      assert w.order == v.order[1..];
      RetireAllEffect(w);
      StreamsFrame(w.peers, v.peers, w.order);
      DownlinksFrame(w.peers, v.peers, w.order);
      AppendAssoc(v.stopped, TracksOf(v.peers[k0].stream), StreamsOf(v.peers, v.order[1..]));
      AppendAssoc(v.retired, [v.peers[k0].ipc.(closed := true)], Downlinks(v.peers, v.order[1..]));
    }
  }

  lemma {:induction false} StreamsFrame(p1: map<string, Peer>, p2: map<string, Peer>, ks: seq<string>)
    requires forall k :: k in ks ==> k in p1 && k in p2 && p1[k] == p2[k]
    ensures StreamsOf(p1, ks) == StreamsOf(p2, ks)
  {
    if ks != [] {
      StreamsFrame(p1, p2, ks[1..]);
    }
  }

  lemma {:induction false} DownlinksFrame(p1: map<string, Peer>, p2: map<string, Peer>, ks: seq<string>)
    requires forall k :: k in ks ==> k in p1 && k in p2 && p1[k] == p2[k]
    ensures Downlinks(p1, ks) == Downlinks(p2, ks)
  {
    if ks != [] {
      DownlinksFrame(p1, p2, ks[1..]);
    }
  }

  /**
   * `leave`: afterwards the client is not joined, has no uplink and an empty
   * directory; nothing is sent or dispatched and the local stream is kept.
   */
  function Leave(v: HubView): (r: HubView)
    requires Directory(v)
    ensures Wf(r) && r.signaling.None? && r.opc.None? && r.peers == map[] && r.order == []
    ensures r.variant == v.variant && r.stream == v.stream && r.outbox == v.outbox && r.events == v.events
  {
    RetireAll(Release(v))
  }

  /**
   * What `leave` releases: the current client disconnects the signaling
   * object, the older one only drops it; the uplink and then every downlink
   * are closed, and every stream a peer held is stopped, in directory order.
   */
  lemma LeaveReleasesAll(v: HubView)
    requires Directory(v)
    ensures var r := Leave(v);
      && r.disconnected == v.disconnected + (if v.variant == Current && v.signaling.Some? then [v.signaling.value] else [])
      && r.retired == v.retired + (if v.opc.Some? then [v.opc.value.(closed := true)] else []) + Downlinks(v.peers, v.order)
      && r.stopped == v.stopped + StreamsOf(v.peers, v.order)
  {
    var w := Release(v);
    RetireAllEffect(w);
  }

  /** Leaving twice is leaving once. */
  lemma LeaveIdempotent(v: HubView)
    requires Directory(v)
    ensures Leave(Leave(v)) == Leave(v)
  {
    var r := Leave(v);
    assert Release(r) == r;
  }

  /**
   * `join`: it always leaves first; once the signaling object has connected
   * the client is joined to it with a fresh uplink, and if connecting fails it
   * stays left.
   */
  function Join(v: HubView, sig: nat, connected: bool): (r: HubView)
    requires Directory(v)
    ensures Wf(r)
    ensures r.(signaling := None, opc := None) == Leave(v)
    ensures connected ==> r.signaling == Some(sig) && r.opc == Some(FreshLink)
    ensures !connected ==> r == Leave(v)
  {
    var w := Leave(v);
    if connected then w.(signaling := Some(sig), opc := Some(FreshLink)) else w
  }

  // ---- The local stream --------------------------------------------------------------

  /**
   * `setStreams`: the local stream becomes the concatenation of the given
   * streams' tracks; with an uplink its senders become exactly those tracks and
   * one offer is attempted; the previous stream's tracks are stopped.
   */
  function SetStreams(v: HubView, streams: seq<seq<Track>>, step: Step): (r: HubView)
    requires Wf(v)
    ensures Wf(r)
    ensures r.stream == Flatten(streams) && r.stopped == v.stopped + v.stream
    ensures r.(stream := v.stream, stopped := v.stopped, opc := v.opc, outbox := v.outbox, events := v.events) == v
    ensures v.opc.None? ==> r.opc.None? && r.outbox == v.outbox && r.events == v.events
    ensures v.opc.Some? ==> r.opc == Some(Negotiated(v.opc.value, Flatten(streams), step))
    ensures v.opc.Some? && step.ok ==>
      r.outbox == v.outbox + [HubEnv(WordSdp, None, Session(Desc(Offer, step.sdp)))] && r.events == v.events
    ensures v.opc.Some? && !step.ok ==> r.outbox == v.outbox && r.events == v.events + [Error(ErrNegotiation)]
  {
    var tracks := Flatten(streams);
    var w := v.(stream := tracks, stopped := v.stopped + v.stream);
    if v.opc.None? then w
    else if step.ok then
      w.(opc := Some(Negotiated(v.opc.value, tracks, step)),
         outbox := v.outbox + [HubEnv(WordSdp, None, Session(Desc(Offer, step.sdp)))])
    else w.(opc := Some(Negotiated(v.opc.value, tracks, step)), events := v.events + [Error(ErrNegotiation)])
  }
}
