/**
 * The hub client (`src/index.js`, and `src/sfu/index.js` when `variant` is
 * `Legacy`) as an object whose operations update its fields in place: the
 * uplink is a `Link` object and the local stream a `MediaStream` object that
 * callers may hold on to. Each operation is proved to move the client's view
 * exactly as `HubModel` prescribes.
 */
module HubClient {
  import opened Media
  import opened Transport
  import opened Signal
  import opened HubModel

  class Client {
    const variant: Variant
    var signaling: Option<nat>
    /** `_.opc`, absent while not joined. */
    var opc: Link?
    /** `_._peers` and its enumeration order. */
    var peers: map<string, Peer>
    var order: seq<string>
    /** `_.stream`. */
    var stream: MediaStream
    var outbox: seq<Envelope>
    var events: seq<Event>
    var stopped: seq<Track>
    var retired: seq<LinkState>
    var disconnected: seq<nat>
    /** The `length` of `_._peers`, an array. */
    var length: nat

    ghost function View(): HubView
      reads this, opc, stream
    {
      HubView(variant, signaling, if opc == null then None else Some(opc.State()), peers, order,
              stream.tracks, outbox, events, stopped, retired, disconnected, length)
    }

    ghost predicate Valid()
      reads this, opc, stream
    {
      Wf(View())
    }

    constructor (variant: Variant)
      ensures Valid() && View() == Init(variant) && fresh(stream)
    {
      this.variant := variant;
      signaling, opc, peers, order := None, null, map[], [];
      stream := new MediaStream([]);
      outbox, events, stopped, retired, disconnected := [], [], [], [], [];
      length := 0;
    }

    /** `peer(s)`. */
    method PeerOf(s: string) returns (r: Option<Snap>)
      requires Valid()
      ensures r == HubModel.PeerOf(View(), s)
    {
      if s !in peers {
        if InheritedName(s, length) {
          r := Some(if variant == Current then Snap(None, Some([])) else Snap(Some(s), None));
        } else {
          r := None;
        }
        return;
      }
      var p := peers[s];
      if variant == Current {
        r := Some(Snap(Some(p.socketId), Some(TracksOf(p.stream))));
      } else {
        r := Some(Snap(Some(s), p.stream));
      }
    }

    /** `peers()`: `Object.values(_peers).map(...)`. */
    method Peers() returns (r: seq<Snap>)
      requires Valid()
      ensures r == HubModel.Peers(View())
    {
      ghost var spec := HubModel.Peers(View());
      r := [];
      var i := 0;
      while i < |order|
        invariant 0 <= i <= |order|
        invariant |spec| == |order| && r == spec[..i]
      {
        var p := peers[order[i]];
        var snap := if variant == Current then Snap(Some(p.socketId), Some(TracksOf(p.stream))) else Snap(None, p.stream);
        assert snap == spec[i];
        r := r + [snap];
        i := i + 1;
      }
      assert spec[..|order|] == spec;
    }

    /** `_addPeer`. */
    method AddPeer(s: string)
      requires Valid() && signaling.Some?
      modifies this
      ensures View() == HubModel.AddPeer(old(View()), s)
    {
      if s == "length" {
        return;
      }
      if s !in peers {
        order := order + [s];
      }
      peers := peers[s := NewPeer(variant, s)];
      length := GrownLength(length, s);
      events := events + [PeerEntered(s)];
    }

    /** `_removePeer`: the downlink is closed and the entry deleted. */
    method RemovePeer(s: string)
      requires Valid() && s in peers
      modifies this
      ensures View() == HubModel.RemovePeer(old(View()), s)
    {
      var p := peers[s];
      retired := retired + [p.ipc.(closed := true)];
      peers := peers - {s};
      order := Without(order, s);
      events := events + [PeerLeft(s)];
    }

    /** `_onEnter`. */
    method OnEnter(s: string)
      requires Valid() && signaling.Some?
      modifies this
      ensures View() == HubModel.OnEnter(old(View()), s)
    {
      AddPeer(s);
    }

    /** `_onLeave`. */
    method OnLeave(s: string)
      requires Valid()
      modifies this
      ensures View() == HubModel.OnLeave(old(View()), s)
    {
      if variant == Current && s in peers {
        RemovePeer(s);
      }
    }

    /**
     * The `hello` case: `payload.data.forEach(_addPeer)`. `_addPeer(length)`
     * throws, ending the loop, so the loop runs over the ids before the first
     * `length` and the outcome says whether it was cut short.
     */
    method AddPeers(ids: seq<string>) returns (outcome: Outcome)
      requires Valid() && signaling.Some?
      modifies this
      ensures View() == HubModel.AddPeers(old(View()), BeforeLength(ids))
      ensures outcome == if |BeforeLength(ids)| < |ids| then Thrown else Handled
    {
      ghost var w := View();
      var reached := BeforeLength(ids);
      var i := 0;
      while i < |reached|
        invariant 0 <= i <= |reached|
        invariant View() == HubModel.AddPeers(w, reached[..i])
      {
        AddPeersStep(w, reached, i);
        AddPeer(reached[i]);
        i := i + 1;
      }
      assert reached[..|reached|] == reached;
      outcome := if |reached| < |ids| then Thrown else Handled;
    }

    /** The `sdp` case. */
    method OnSdp(e: Envelope, route: Step) returns (outcome: Outcome)
      requires Valid() && signaling.Some?
      modifies this, opc
      ensures (View(), outcome) == HubModel.OnSdp(old(View()), e, route)
    {
      if !e.data.Session? {
        return Thrown;
      }
      var d := e.data.desc;
      if d.kind == Offer {
        var key := KeyOf(e.on);
        if key !in peers {
          return Thrown;
        }
        if route.ok {
          var p := peers[key];
          peers := peers[key := p.(ipc := Answered(p.ipc, d, route.sdp))];
          outbox := outbox + [HubEnv(WordSdp, e.on, Session(Desc(Answer, route.sdp)))];
        } else {
          events := events + [Error(ErrAnswerOffer)];
        }
      } else if d.kind == Answer {
        if route.ok {
          opc.ApplyRemote(d);
        } else {
          events := events + [Error(ErrApplyAnswer)];
        }
      }
      outcome := Handled;
    }

    /** The `cdt` case. */
    method OnCdt(e: Envelope, route: Step) returns (outcome: Outcome)
      requires Valid() && signaling.Some?
      modifies this, opc
      ensures (View(), outcome) == HubModel.OnCdt(old(View()), e, route)
    {
      if !e.data.Candidate? || (Truthy(e.on) && e.on.value !in peers) {
        return Thrown;
      }
      if !route.ok {
        events := events + [Error(ErrAddCandidate)];
      } else if Truthy(e.on) {
        var p := peers[e.on.value];
        peers := peers[e.on.value := p.(ipc := p.ipc.(candidates := p.ipc.candidates + [e.data.cdt]))];
      } else {
        opc.AddCandidate(e.data.cdt);
      }
      outcome := Handled;
    }

    /** `_onMessage`. */
    method OnMessage(e: Envelope, route: Step) returns (outcome: Outcome)
      requires Valid()
      modifies this, opc
      ensures Valid()
      ensures (View(), outcome) == HubModel.OnMessage(old(View()), e, route)
    {
      if signaling.None? {
        outcome := Ignored;
      } else if e.word == WordHello {
        var ids := Strings(e.data);
        if ids.None? {
          outcome := Thrown;
        } else {
          outcome := AddPeers(ids.value);
        }
      } else if e.word == WordSdp {
        outcome := OnSdp(e, route);
      } else if e.word == WordCdt {
        outcome := OnCdt(e, route);
      } else {
        outcome := Ignored;
      }
    }

    /** `_onICECandidate`; `link` names the downlink's peer, or is `None` for the uplink. */
    method OnIceCandidate(link: Option<string>, candidate: Option<string>)
      requires Valid()
      modifies this
      ensures View() == HubModel.OnIceCandidate(old(View()), link, candidate)
    {
      if candidate.Some? && signaling.Some? {
        outbox := outbox + [HubEnv(WordCdt, link, Candidate(candidate.value))];
      }
    }

    /** The link state change handlers. */
    method OnStateChange(subject: Option<string>, which: string, value: string)
      modifies this
      ensures View() == HubModel.OnStateChange(old(View()), subject, which, value)
    {
      events := events + [StateChanged(subject, which, value)];
    }

    /** `_onTrack` on the downlink of `key`. */
    method OnTrack(key: string, streams: seq<seq<Track>>)
      requires Valid()
      modifies this
      ensures View() == HubModel.OnTrack(old(View()), key, streams)
    {
      if streams != [] && key in peers {
        peers := peers[key := peers[key].(stream := Some(streams[0]))];
        events := events + [TrackAdded(key)];
      }
    }

    /** One step of the `leave` loop. */
    method Retire(key: string)
      requires Directory(View()) && key in peers
      modifies this
      ensures View() == HubModel.Retire(old(View()), key)
    {
      var p := peers[key];
      stopped := stopped + TracksOf(p.stream);
      retired := retired + [p.ipc.(closed := true)];
      peers := peers - {key};
      order := Without(order, key);
    }

    /** The first two steps of `leave`: release the signaling object, close and drop the uplink. */
    method Release()
      requires Directory(View())
      modifies this, opc
      ensures View() == HubModel.Release(old(View()))
    {
      if signaling.Some? {
        if variant == Current {
          disconnected := disconnected + [signaling.value];
        }
        signaling := None;
      }
      if opc != null {
        opc.Close();
        retired := retired + [opc.State()];
        opc := null;
      }
    }

    /** The `leave` loop over `Object.values(_peers)`. */
    method RetireAll()
      requires Directory(View()) && opc == null
      modifies this
      ensures View() == HubModel.RetireAll(old(View()))
    {
      ghost var v0 := View();
      while order != []
        invariant Directory(View()) && opc == null
        invariant HubModel.RetireAll(View()) == HubModel.RetireAll(v0)
        decreases |order|
      {
        Retire(order[0]);
      }
      assert peers.Keys == {};
    }

    /** `leave`. */
    method Leave()
      requires Directory(View())
      modifies this, opc
      ensures View() == HubModel.Leave(old(View()))
    {
      Release();
      RetireAll();
    }

    /** `join`: leave, then, once `signaling.connect()` resolved, attach to it with a fresh uplink. */
    method Join(sig: nat, connected: bool)
      requires Directory(View())
      modifies this, opc
      ensures View() == HubModel.Join(old(View()), sig, connected)
    {
      Leave();
      if connected {
        signaling := Some(sig);
        opc := new Link();
      }
    }

    /**
     * `setStreams`: the new stream object is returned; the previous one ends
     * empty, each of its tracks stopped.
     */
    method SetStreams(streams: seq<seq<Track>>, step: Step) returns (s: MediaStream)
      requires Valid()
      modifies this, opc, stream
      ensures fresh(s) && s == stream
      ensures old(stream).tracks == []
      ensures View() == HubModel.SetStreams(old(View()), streams, step)
    {
      var tracks := Collect(streams);
      var previous := stream;
      stream := new MediaStream(tracks);
      if opc != null {
        opc.ReplaceSenders(tracks);
        if step.ok {
          opc.MakeOffer(step.sdp);
          outbox := outbox + [HubEnv(WordSdp, None, Session(Desc(Offer, step.sdp)))];
        } else {
          events := events + [Error(ErrNegotiation)];
        }
      }
      var ended := StopAll(previous);
      stopped := stopped + ended;
      s := stream;
    }
  }

  /** The `reduce` of `setStreams`: every stream's tracks, appended in order. */
  method Collect(streams: seq<seq<Track>>) returns (tracks: seq<Track>)
    ensures tracks == Flatten(streams)
  {
    tracks := [];
    var i := 0;
    while i < |streams|
      invariant 0 <= i <= |streams|
      invariant tracks == Flatten(streams[..i])
    {
      FlattenAppend(streams[..i], streams[i]);
      assert streams[..i + 1] == streams[..i] + [streams[i]];
      tracks := tracks + streams[i];
      i := i + 1;
    }
    assert streams[..|streams|] == streams;
  }

  /**
   * `Array.from(previous.getTracks()).forEach((t) => { t.stop(); previous.removeTrack(t); })`:
   * the tracks stopped, in order, and the stream left empty.
   */
  method StopAll(previous: MediaStream) returns (ended: seq<Track>)
    modifies previous
    ensures previous.tracks == [] && ended == old(previous.tracks)
  {
    var ts := previous.tracks;
    ended := [];
    var i := 0;
    RemainingNone(ts);
    while i < |ts|
      invariant 0 <= i <= |ts|
      invariant ended == ts[..i]
      invariant previous.tracks == Remaining(ts[i..], ts[..i])
    {
      RemainingStep(ts, i);
      PrefixStep(ts, i);
      ended := ended + [ts[i]];
      previous.RemoveTrack(ts[i]);
      i := i + 1;
    }
    assert ts[..|ts|] == ts;
  }
}
