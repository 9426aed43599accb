/**
 * The mesh engine (`index.js`) as a state machine over values: one entry per
 * remote participant, each with an outbound link that carries the local stream
 * and an inbound link that carries the participant's stream.
 */
module MeshModel {
  import opened Media
  import opened Transport
  import opened Signal
  import opened Streams
  import Identity

  /** A participant record: its `id` field, its two links and the streams kept for it. */
  datatype PView = PView(
    pid: Option<string>,
    out: LinkState,
    inn: LinkState,
    incoming: Option<seq<Track>>,
    user: Option<seq<Track>>,
    display: Option<seq<Track>>)

  /** A participant right after `_addParticipant` created it. */
  function Newcomer(pid: Option<string>): PView
  {
    PView(pid, FreshLink, FreshLink, None, None, None)
  }

  /**
   * The engine's observable state. `signaling` names the attached signaling
   * object, `order` is the enumeration order of the participant directory,
   * `outbox` every envelope sent, `events` every event dispatched on the
   * engine, `stopped` every track stopped and `retired` every link closed, in
   * order. `length` is the `length` of the directory, an array: it grows when
   * an id that is an array index is stored, and no `delete` lowers it.
   */
  datatype MeshView = MeshView(
    id: string,
    signaling: Option<nat>,
    dir: map<string, PView>,
    order: seq<string>,
    stream: seq<Track>,
    outbox: seq<Envelope>,
    events: seq<Event>,
    stopped: seq<Track>,
    retired: seq<LinkState>,
    length: nat)

  /**
   * The engine's invariant: a valid own id, the enumeration order lists each
   * key once, every participant is stored under its own id, and without a
   * signaling object there are no participants.
   */
  predicate Wf(v: MeshView)
  {
    Identity.ValidId(v.id)
    && Distinct(v.order)
    && (forall k :: k in v.dir ==> k in v.order)
    && (forall k :: k in v.order ==> k in v.dir)
    && (forall k :: k in v.dir ==> KeyOf(v.dir[k].pid) == k)
    && (v.signaling.None? ==> v.dir == map[])
  }

  /** The constructor: a valid id gives an empty engine, any other id error 596850. */
  function Init(id: string): (r: Result<MeshView>)
    ensures r.Ok? <==> Identity.ValidId(id)
    ensures r.Err? ==> r.code == Identity.ErrInvalidId
    ensures r.Ok? ==> Wf(r.value) && r.value.id == id && r.value.dir == map[] && r.value.signaling.None?
    ensures r.Ok? ==> r.value.stream == [] && r.value.outbox == [] && r.value.events == [] && r.value.stopped == []
    ensures r.Ok? ==> r.value.retired == [] && r.value.length == 0
  {
    if Identity.ValidId(id) then Ok(MeshView(id, None, map[], [], [], [], [], [], [], 0))
    else Err(Identity.ErrInvalidId)
  }

  /** The `participants` getter's element: id and the two split streams, nothing else. */
  datatype Snapshot = Snapshot(id: Option<string>, user: Option<seq<Track>>, display: Option<seq<Track>>)

  /** `participants`: one snapshot per participant, in directory order. */
  function Participants(v: MeshView): (r: seq<Snapshot>)
    requires Wf(v)
    ensures |r| == |v.order|
    ensures forall i :: 0 <= i < |r| ==> r[i].id == v.dir[v.order[i]].pid
    ensures forall i :: 0 <= i < |r| ==> r[i].user == v.dir[v.order[i]].user && r[i].display == v.dir[v.order[i]].display
    ensures forall k :: k in v.dir ==> exists i :: 0 <= i < |r| && KeyOf(r[i].id) == k
  {
    var r := seq(|v.order|, i requires 0 <= i < |v.order| =>
      var p := v.dir[v.order[i]]; Snapshot(p.pid, p.user, p.display));
    assert forall k :: k in v.dir ==> exists i :: 0 <= i < |r| && KeyOf(r[i].id) == k by {
      forall k | k in v.dir ensures exists i :: 0 <= i < |r| && KeyOf(r[i].id) == k {
        var i :| 0 <= i < |v.order| && v.order[i] == k;
        assert KeyOf(r[i].id) == k;
      }
    }
    r
  }

  // ---- Participants ---------------------------------------------------------------

  /**
   * `_participants[key]` answers with a value the directory inherits: truthy,
   * yet no participant. The directory is an array (`[]`).
   */
  predicate Inherited(v: MeshView, key: string)
  {
    key !in v.dir && InheritedName(key, v.length)
  }

  /**
   * No participant can be found or stored under `key`: an inherited name, or
   * `length`, whose lookup is the array's length and whose assignment throws.
   */
  predicate Barred(v: MeshView, key: string)
  {
    key !in v.dir && (key in ArrayPrototypeNames || key == "length")
  }

  /**
   * `_addParticipant`: the participant stored under the sender's key, created
   * if the lookup is falsy. An inherited name is truthy, so nothing is created
   * and what the caller gets back is no participant; storing under `length`
   * throws, so nothing is created under it either.
   */
  function AddParticipant(v: MeshView, from: Option<string>): (r: MeshView)
    requires Wf(v) && v.signaling.Some?
    ensures Wf(r)
    ensures KeyOf(from) in r.dir <==> !Barred(v, KeyOf(from))
    ensures r.dir.Keys == v.dir.Keys + (if Barred(v, KeyOf(from)) then {} else {KeyOf(from)})
    ensures forall k :: k in v.dir ==> r.dir[k] == v.dir[k]
    ensures KeyOf(from) in v.dir || Barred(v, KeyOf(from)) ==> r == v
    ensures KeyOf(from) !in v.dir && !Barred(v, KeyOf(from)) ==>
      && r.dir[KeyOf(from)] == Newcomer(from) && r.order == v.order + [KeyOf(from)]
      && r.length == GrownLength(v.length, KeyOf(from))
    ensures r.(dir := v.dir, order := v.order, length := v.length) == v
  {
    var key := KeyOf(from);
    if key in v.dir || key in ArrayPrototypeNames || key == "length" then v
    else
      var r := v.(dir := v.dir[key := Newcomer(from)], order := v.order + [key], length := GrownLength(v.length, key));
      assert Distinct(r.order) by {
        forall i, j | 0 <= i < j < |r.order| ensures r.order[i] != r.order[j] {
          if j == |v.order| { assert v.order[i] in v.dir; }
        }
      }
      r
  }

  /** The offer a participant receives once its outbound negotiation resolved. */
  function OfferTo(self: string, p: PView, sdp: string): Envelope
  {
    MeshEnv("sdp", self, p.pid, Session(Desc(Offer, sdp)))
  }

  /**
   * `_addStreamToParticipant` followed by `_onNegotiationNeeded`: the outbound link
   * is made to send exactly the local stream, and exactly one negotiation attempt
   * is made, whose result is either one offer sent or one error 884761.
   */
  function Push(v: MeshView, key: string, step: Step): (r: MeshView)
    requires key in v.dir
    ensures r.(dir := v.dir, outbox := v.outbox, events := v.events) == v
    ensures key in r.dir && r.dir == v.dir[key := r.dir[key]]
    ensures r.dir[key] == v.dir[key].(out := Negotiated(v.dir[key].out, v.stream, step))
    ensures step.ok ==> r.outbox == v.outbox + [OfferTo(v.id, v.dir[key], step.sdp)] && r.events == v.events
    ensures !step.ok ==> r.outbox == v.outbox && r.events == v.events + [Error(ErrNegotiation)]
    ensures |r.outbox| + |r.events| == |v.outbox| + |v.events| + 1
    ensures Wf(v) ==> Wf(r)
  {
    var p := v.dir[key];
    var q := p.(out := Negotiated(p.out, v.stream, step));
    if step.ok then v.(dir := v.dir[key := q], outbox := v.outbox + [OfferTo(v.id, p, step.sdp)])
    else v.(dir := v.dir[key := q], events := v.events + [Error(ErrNegotiation)])
  }

  /** The offers a run of pushes over `ids` sends: one per resolved chain, in order. */
  function Offers(v: MeshView, ids: seq<string>, steps: string -> Step): (r: seq<Envelope>)
    requires forall k :: k in ids ==> k in v.dir
    ensures |r| <= |ids|
  {
    if ids == [] then []
    else
      var last := ids[|ids| - 1];
      Offers(v, ids[..|ids| - 1], steps)
        + (if steps(last).ok then [OfferTo(v.id, v.dir[last], steps(last).sdp)] else [])
  }

  /** The errors a run of pushes over `ids` dispatches: one 884761 per rejected chain. */
  function Failures(ids: seq<string>, steps: string -> Step): (r: seq<Event>)
    ensures |r| <= |ids|
    ensures forall i :: 0 <= i < |r| ==> r[i] == Error(ErrNegotiation)
  {
    if ids == [] then []
    else
      var last := ids[|ids| - 1];
      Failures(ids[..|ids| - 1], steps) + (if steps(last).ok then [] else [Error(ErrNegotiation)])
  }

  /** Every push ends in exactly one of an offer and an error. */
  lemma {:induction false} OneAttemptEach(v: MeshView, ids: seq<string>, steps: string -> Step)
    requires forall k :: k in ids ==> k in v.dir
    ensures |Offers(v, ids, steps)| + |Failures(ids, steps)| == |ids|
  {
    if ids != [] {
      OneAttemptEach(v, ids[..|ids| - 1], steps);
    }
  }

  /** The last element of a non-empty sequence is either the last one or in the prefix, which excludes it. */
  lemma SplitLast(ids: seq<string>)
    requires Distinct(ids) && ids != []
    ensures Distinct(ids[..|ids| - 1]) && ids[|ids| - 1] !in ids[..|ids| - 1]
    ensures forall k :: k in ids <==> k in ids[..|ids| - 1] || k == ids[|ids| - 1]
  {
    var init := ids[..|ids| - 1];
    forall i, j | 0 <= i < j < |init| ensures init[i] != init[j] { assert init[i] == ids[i] && init[j] == ids[j]; }
    forall i | 0 <= i < |init| ensures init[i] != ids[|ids| - 1] { assert init[i] == ids[i]; }
    assert ids == init + [ids[|ids| - 1]];
  }

  /** `forEach(_addStreamToParticipant)` over `ids`: only the directory, the outbox and the events change. */
  function PushAll(v: MeshView, ids: seq<string>, steps: string -> Step): (r: MeshView)
    requires forall k :: k in ids ==> k in v.dir
    requires Distinct(ids)
    decreases |ids|
    ensures r.(dir := v.dir, outbox := v.outbox, events := v.events) == v
    ensures r.dir.Keys == v.dir.Keys
    ensures Wf(v) ==> Wf(r)
  {
    if ids == [] then v
    else
      var last := ids[|ids| - 1];
      SplitLast(ids);
      Push(PushAll(v, ids[..|ids| - 1], steps), last, steps(last))
  }

  /**
   * After `PushAll`, each listed participant's outbound link sends the local
   * stream and has made one attempt, nobody else changed, and the outbox and
   * the events grew by exactly the offers and the errors of those attempts.
   */
  lemma PushAllEffect(v: MeshView, ids: seq<string>, steps: string -> Step)
    requires forall k :: k in ids ==> k in v.dir
    requires Distinct(ids)
    ensures var r := PushAll(v, ids, steps);
      && (forall k :: k in v.dir && k !in ids ==> r.dir[k] == v.dir[k])
      && (forall k :: k in ids ==> r.dir[k] == v.dir[k].(out := Negotiated(v.dir[k].out, v.stream, steps(k))))
      && r.outbox == v.outbox + Offers(v, ids, steps)
      && r.events == v.events + Failures(ids, steps)
  {
    PushAllLinks(v, ids, steps);
    PushAllLogs(v, ids, steps);
  }

  /** `PushAll` renegotiates exactly the outbound links of the listed participants. */
  lemma {:induction false} PushAllLinks(v: MeshView, ids: seq<string>, steps: string -> Step)
    requires forall k :: k in ids ==> k in v.dir
    requires Distinct(ids)
    decreases |ids|
    ensures var r := PushAll(v, ids, steps);
      && (forall k :: k in v.dir && k !in ids ==> r.dir[k] == v.dir[k])
      && (forall k :: k in ids ==> r.dir[k] == v.dir[k].(out := Negotiated(v.dir[k].out, v.stream, steps(k))))
  {
    if ids != [] {
      var last := ids[|ids| - 1];
      var init := ids[..|ids| - 1];
      SplitLast(ids);
      PushAllLinks(v, init, steps);
      var w := PushAll(v, init, steps);
      assert PushAll(v, ids, steps) == Push(w, last, steps(last));
    }
  }

  /** `PushAll` appends the offers and the errors of its attempts, in order, and nothing else. */
  lemma PushAllLogs(v: MeshView, ids: seq<string>, steps: string -> Step)
    requires forall k :: k in ids ==> k in v.dir
    requires Distinct(ids)
    ensures var r := PushAll(v, ids, steps);
      && r.outbox == v.outbox + Offers(v, ids, steps)
      && r.events == v.events + Failures(ids, steps)
  {
    PushAllOffers(v, ids, steps);
    PushAllFailures(v, ids, steps);
  }

  lemma {:induction false} PushAllOffers(v: MeshView, ids: seq<string>, steps: string -> Step)
    requires forall k :: k in ids ==> k in v.dir
    requires Distinct(ids)
    decreases |ids|
    ensures PushAll(v, ids, steps).outbox == v.outbox + Offers(v, ids, steps)
  {
    if ids != [] {
      var last := ids[|ids| - 1];
      var init := ids[..|ids| - 1];
      SplitLast(ids);
      PushAllOffers(v, init, steps);
      PushAllLinks(v, init, steps);
      var w := PushAll(v, init, steps);
      assert w.dir[last] == v.dir[last] && w.id == v.id;
      var tail := if steps(last).ok then [OfferTo(v.id, v.dir[last], steps(last).sdp)] else [];
      assert Push(w, last, steps(last)).outbox == w.outbox + tail;
      assert Offers(v, ids, steps) == Offers(v, init, steps) + tail;
      assert PushAll(v, ids, steps) == Push(w, last, steps(last));
      AppendAssoc(v.outbox, Offers(v, init, steps), tail);
    }
  }

  lemma {:induction false} PushAllFailures(v: MeshView, ids: seq<string>, steps: string -> Step)
    requires forall k :: k in ids ==> k in v.dir
    requires Distinct(ids)
    decreases |ids|
    ensures PushAll(v, ids, steps).events == v.events + Failures(ids, steps)
  {
    if ids != [] {
      var last := ids[|ids| - 1];
      var init := ids[..|ids| - 1];
      SplitLast(ids);
      PushAllFailures(v, init, steps);
      var w := PushAll(v, init, steps);
      var tail := if steps(last).ok then [] else [Error(ErrNegotiation)];
      assert Push(w, last, steps(last)).events == w.events + tail;
      assert Failures(ids, steps) == Failures(init, steps) + tail;
      assert PushAll(v, ids, steps) == Push(w, last, steps(last));
      AppendAssoc(v.events, Failures(init, steps), tail);
    }
  }

  // ---- Departure --------------------------------------------------------------------

  /** The tracks stopped when a participant departs: its user, display and incoming streams. */
  function Held(p: PView): seq<Track>
  {
    TracksOf(p.user) + TracksOf(p.display) + TracksOf(p.incoming)
  }

  /** The links closed when a participant departs: its outbound link, then its inbound one. */
  function Closed(p: PView): seq<LinkState>
  {
    [p.out.(closed := true), p.inn.(closed := true)]
  }

  /**
   * A participant leaves: its streams' tracks are stopped, its two links
   * closed and its entry deleted.
   */
  function Drop(v: MeshView, key: string): (r: MeshView)
    requires Wf(v) && key in v.dir
    ensures Wf(r)
    ensures r.dir == v.dir - {key}
    ensures r.order == Without(v.order, key)
    ensures r.stopped == v.stopped + Held(v.dir[key])
    ensures r.retired == v.retired + Closed(v.dir[key])
    ensures forall l :: l in r.retired[|v.retired|..] ==> l.closed
    ensures r.(dir := v.dir, order := v.order, stopped := v.stopped, retired := v.retired) == v
  {
    v.(dir := v.dir - {key}, order := Without(v.order, key), stopped := v.stopped + Held(v.dir[key]),
       retired := v.retired + Closed(v.dir[key]))
  }

  /** The tracks stopped when the participants listed in `ks` all depart, in that order. */
  function HeldAll(dir: map<string, PView>, ks: seq<string>): seq<Track>
    requires forall k :: k in ks ==> k in dir
  {
    if ks == [] then [] else Held(dir[ks[0]]) + HeldAll(dir, ks[1..])
  }

  /** The links closed when the participants listed in `ks` all depart, in that order. */
  function ClosedAll(dir: map<string, PView>, ks: seq<string>): seq<LinkState>
    requires forall k :: k in ks ==> k in dir
  {
    if ks == [] then [] else Closed(dir[ks[0]]) + ClosedAll(dir, ks[1..])
  }

  lemma {:induction false} ClosedAllFrame(d1: map<string, PView>, d2: map<string, PView>, ks: seq<string>)
    requires forall k :: k in ks ==> k in d1 && k in d2 && d1[k] == d2[k]
    ensures ClosedAll(d1, ks) == ClosedAll(d2, ks)
  {
    if ks != [] {
      ClosedAllFrame(d1, d2, ks[1..]);
    }
  }

  lemma {:induction false} HeldAllFrame(d1: map<string, PView>, d2: map<string, PView>, ks: seq<string>)
    requires forall k :: k in ks ==> k in d1 && k in d2 && d1[k] == d2[k]
    ensures HeldAll(d1, ks) == HeldAll(d2, ks)
  {
    if ks != [] {
      HeldAllFrame(d1, d2, ks[1..]);
    }
  }

  /**
   * The teardown loop of `setSignaling`: every participant departs, in
   * directory order, and the directory ends empty.
   */
  function TeardownAll(v: MeshView): (r: MeshView)
    requires Wf(v)
    decreases |v.order|
    ensures Wf(r)
    ensures r.dir == map[] && r.order == []
    ensures r.(dir := v.dir, order := v.order, stopped := v.stopped, retired := v.retired) == v
  {
    if v.order == [] then
      assert v.dir.Keys == {};
      v
    else
      TeardownAll(Drop(v, v.order[0]))
  }

  /** The teardown stops the held tracks of every participant, in directory order. */
  lemma {:induction false} TeardownStops(v: MeshView)
    requires Wf(v)
    decreases |v.order|
    ensures TeardownAll(v).stopped == v.stopped + HeldAll(v.dir, v.order)
  {
    if v.order != [] {
      var k0 := v.order[0];
      var w := Drop(v, k0);
      assert w.order == v.order[1..];
      calc {
        TeardownAll(v).stopped;
        TeardownAll(w).stopped;
        { TeardownStops(w); }
        w.stopped + HeldAll(w.dir, w.order);
        { HeldAllFrame(w.dir, v.dir, w.order); }
        w.stopped + HeldAll(v.dir, v.order[1..]);
        (v.stopped + Held(v.dir[k0])) + HeldAll(v.dir, v.order[1..]);
        { AppendAssoc(v.stopped, Held(v.dir[k0]), HeldAll(v.dir, v.order[1..])); }
        v.stopped + (Held(v.dir[k0]) + HeldAll(v.dir, v.order[1..]));
        v.stopped + HeldAll(v.dir, v.order);
      }
    }
  }

  /** The teardown closes both links of every participant, in directory order. */
  lemma {:induction false} TeardownCloses(v: MeshView)
    requires Wf(v)
    decreases |v.order|
    ensures TeardownAll(v).retired == v.retired + ClosedAll(v.dir, v.order)
  {
    if v.order != [] {
      var k0 := v.order[0];
      var w := Drop(v, k0);
      assert w.order == v.order[1..];
      TeardownCloses(w);
      ClosedAllFrame(w.dir, v.dir, w.order);
      AppendAssoc(v.retired, Closed(v.dir[k0]), ClosedAll(v.dir, v.order[1..]));
    }
  }

  /**
   * A participant reports a link state change (`connectionState`,
   * `iceConnectionState`, `iceGatheringState` or `signalingState`): the change
   * is dispatched with the participant's `id`, and a `connectionState` of
   * "disconnected" makes the participant depart and dispatches
   * participants-changed.
   */
  function OnStateChange(v: MeshView, key: string, which: string, value: string): (r: MeshView)
    requires Wf(v)
    ensures Wf(r)
    ensures key !in v.dir ==> r == v
    ensures key in v.dir && (which != "connectionState" || value != "disconnected") ==>
      r == v.(events := v.events + [StateChanged(v.dir[key].pid, which, value)])
    ensures key in v.dir && which == "connectionState" && value == "disconnected" ==>
      && r.dir == v.dir - {key}
      && r.order == Without(v.order, key)
      && r.stopped == v.stopped + Held(v.dir[key])
      && r.retired == v.retired + Closed(v.dir[key])
      && r.events == v.events + [StateChanged(v.dir[key].pid, which, value), ParticipantsChanged]
      && r.(dir := v.dir, order := v.order, stopped := v.stopped, retired := v.retired, events := v.events) == v
  {
    if key !in v.dir then v
    else
      var w := v.(events := v.events + [StateChanged(v.dir[key].pid, which, value)]);
      if which == "connectionState" && value == "disconnected" then
        var d := Drop(w, key);
        d.(events := d.events + [ParticipantsChanged])
      else w
  }

  /** `_onICECandidate`: a gathered candidate is sent to the participant; the end of gathering sends nothing. */
  function OnIceCandidate(v: MeshView, key: string, candidate: Option<string>): (r: MeshView)
    ensures key in v.dir && candidate.Some? ==>
      r == v.(outbox := v.outbox + [MeshEnv("cdt", v.id, v.dir[key].pid, Candidate(candidate.value))])
    ensures key !in v.dir || candidate.None? ==> r == v
  {
    if key in v.dir && candidate.Some? then
      v.(outbox := v.outbox + [MeshEnv("cdt", v.id, v.dir[key].pid, Candidate(candidate.value))])
    else v
  }

  /**
   * `_applyContentHint`: the hints are written onto the incoming tracks they
   * name, the incoming stream is split into the user and display streams, and
   * participants-changed is dispatched. No other participant changes.
   */
  function ApplyContentHint(v: MeshView, key: string, hints: map<string, string>): (r: MeshView)
    requires Wf(v) && key in v.dir && v.dir[key].incoming.Some?
    ensures Wf(r)
    ensures r.(dir := v.dir, events := v.events) == v
    ensures r.events == v.events + [ParticipantsChanged]
    ensures key in r.dir && r.dir == v.dir[key := r.dir[key]]
    ensures var p := r.dir[key];
      var labelled := ApplyHints(v.dir[key].incoming.value, hints);
      && p.(incoming := v.dir[key].incoming, user := v.dir[key].user, display := v.dir[key].display) == v.dir[key]
      && p.incoming == Some(labelled)
      && p.user.Some? && (forall t :: t in p.user.value <==> t in labelled && (IsMotion(t) || t.kind == Audio))
      && p.display.Some? && (forall t :: t in p.display.value <==> t in labelled && IsDetail(t))
  {
    var p := v.dir[key];
    var labelled := ApplyHints(p.incoming.value, hints);
    var split := SplitStream(labelled);
    var q := p.(incoming := Some(labelled), user := Some(split.user), display := Some(split.display));
    v.(dir := v.dir[key := q], events := v.events + [ParticipantsChanged])
  }

  /**
   * `_onTrack` on a participant's inbound link: the event's first stream
   * becomes the incoming stream; if it has video tracks their ids are sent to
   * the participant with needcontenthint, otherwise the stream is split at
   * once, all of it audio on the user side.
   */
  function OnTrack(v: MeshView, key: string, streams: seq<seq<Track>>): (r: MeshView)
    requires Wf(v)
    ensures Wf(r)
    ensures key !in v.dir || streams == [] ==> r == v
    ensures key in v.dir && streams != [] ==>
      && r.dir.Keys == v.dir.Keys
      && (forall k :: k in v.dir && k != key ==> r.dir[k] == v.dir[k])
      && r.dir[key].incoming == Some(streams[0])
      && r.(dir := v.dir, outbox := v.outbox, events := v.events) == v
    ensures key in v.dir && streams != [] && Videos(streams[0]) != [] ==>
      && r.outbox == v.outbox + [MeshEnv("needcontenthint", v.id, v.dir[key].pid, TrackIds(Ids(Videos(streams[0]))))]
      && r.events == v.events
      && r.dir[key] == v.dir[key].(incoming := Some(streams[0]))
    ensures key in v.dir && streams != [] && Videos(streams[0]) == [] ==>
      && r.outbox == v.outbox
      && r.events == v.events + [ParticipantsChanged]
      && r.dir[key] == v.dir[key].(incoming := Some(streams[0]), user := Some(Audios(streams[0])), display := Some([]))
  {
    if key !in v.dir || streams == [] then v
    else
      var s := streams[0];
      var w := v.(dir := v.dir[key := v.dir[key].(incoming := Some(s))]);
      var vids := Ids(Videos(s));
      if vids != [] then
        w.(outbox := w.outbox + [MeshEnv("needcontenthint", v.id, v.dir[key].pid, TrackIds(vids))])
      else
        NoVideoSplit(s);
        ApplyContentHint(w, key, map[])
  }

  /** A stream without video tracks splits into its audio tracks and an empty display stream. */
  lemma NoVideoSplit(s: seq<Track>)
    requires Ids(Videos(s)) == []
    ensures ApplyHints(s, map[]) == s
    ensures SplitStream(s) == Split(Audios(s), [])
  {
    assert |Videos(s)| == 0;
    assert ApplyHints(s, map[]) == s;
  }

  // ---- Signals ----------------------------------------------------------------------

  /** The engine's own configuration is the same in `w` as in `v`: a signal handler never changes it. */
  predicate Kept(v: MeshView, w: MeshView)
  {
    w.id == v.id && w.signaling == v.signaling && w.stream == v.stream && w.stopped == v.stopped
    && w.retired == v.retired
  }

  /** The guard at the top of `_onSignal`: addressed to someone else, or sent by this engine. */
  predicate Filtered(self: string, e: Envelope)
  {
    (Truthy(e.to) && e.to.value != self) || (Truthy(e.from) && e.from.value == self)
  }

  /**
   * `hello` from `from`: the sender is a participant afterwards (created if it
   * was not), its outbound link sends the local stream, and exactly one
   * negotiation attempt is made, even when the local stream is empty. A
   * sender named like an inherited property throws, changing nothing, since
   * the value `_addParticipant` returns has no outbound link; so does a sender
   * named `length`, whatever the directory's length.
   */
  function OnHello(v: MeshView, from: Option<string>, push: Step): (r: (MeshView, Outcome))
    requires Wf(v) && v.signaling.Some?
    ensures Wf(r.0)
    ensures r.1 != Ignored
    ensures r.1 == Thrown <==> Barred(v, KeyOf(from))
    ensures r.1 == Thrown ==> r.0 == v
    ensures r.1 == Handled ==> var key := KeyOf(from);
      && r.0.dir.Keys == v.dir.Keys + {key}
      && (forall k :: k in v.dir && k != key ==> r.0.dir[k] == v.dir[k])
      && r.0.dir[key].out.senders == v.stream
      && (key in v.dir ==>
            r.0.order == v.order && r.0.length == v.length
            && r.0.dir[key] == v.dir[key].(out := Negotiated(v.dir[key].out, v.stream, push)))
      && (key !in v.dir ==>
            r.0.order == v.order + [key] && r.0.length == GrownLength(v.length, key)
            && r.0.dir[key] == Newcomer(from).(out := Negotiated(FreshLink, v.stream, push)))
      && (push.ok ==> r.0.outbox == v.outbox + [MeshEnv("sdp", v.id, r.0.dir[key].pid, Session(Desc(Offer, push.sdp)))] && r.0.events == v.events)
      && (!push.ok ==> r.0.outbox == v.outbox && r.0.events == v.events + [Error(ErrNegotiation)])
    ensures r.0.(dir := v.dir, order := v.order, outbox := v.outbox, events := v.events, length := v.length) == v
    ensures Kept(v, r.0)
  {
    var w := AddParticipant(v, from);
    if KeyOf(from) !in w.dir then (v, Thrown) else (Push(w, KeyOf(from), push), Handled)
  }

  /**
   * Every array answers `map`: a `hello` from a participant of that name
   * throws and leaves the engine as it was.
   */
  lemma InheritedNameHello(v: MeshView, push: Step, route: Step)
    requires Wf(v) && v.signaling.Some? && "map" !in v.dir && v.id != "map"
    ensures OnSignal(v, MeshEnv("hello", "map", None, NoData), push, route) == (v, Thrown)
  {
    assert "map" in ArrayPrototypeNames;
  }

  /**
   * A `hello` from a participant named `length` throws and leaves the engine
   * as it was: on a directory of length 0 the assignment at the end of
   * `_addParticipant` throws, on a longer one the lookup answers a number,
   * which has no outbound link.
   */
  lemma LengthNameHello(v: MeshView, push: Step, route: Step)
    requires Wf(v) && v.signaling.Some? && "length" !in v.dir && v.id != "length"
    ensures OnSignal(v, MeshEnv("hello", "length", None, NoData), push, route) == (v, Thrown)
  {
  }

  /**
   * A rollback from `length` throws exactly while the directory's length is
   * 0: then it is admitted and the admission throws; afterwards the lookup is
   * truthy and nothing happens.
   */
  lemma LengthNameRollback(v: MeshView, sdp: string, push: Step, route: Step)
    requires Wf(v) && v.signaling.Some? && "length" !in v.dir && v.id != "length"
    ensures var e := MeshEnv("sdp", "length", None, Session(Desc(Rollback, sdp)));
      OnSignal(v, e, push, route) == (v, if v.length == 0 then Thrown else Handled)
  {
    var e := MeshEnv("sdp", "length", None, Session(Desc(Rollback, sdp)));
    assert Barred(v, "length") && (Inherited(v, "length") <==> v.length > 0);
    assert OnSignal(v, e, push, route) == OnSdp(v, e, push, route);
  }

  /**
   * A hello from `0` makes the directory's length positive, and it stays so
   * after that participant has gone.
   */
  lemma IndexIdRaisesLength(v: MeshView, push: Step)
    requires Wf(v) && v.signaling.Some? && "0" !in v.dir
    ensures OnHello(v, Some("0"), push).1 == Handled
    ensures OnHello(v, Some("0"), push).0.length >= 1
    ensures Drop(OnHello(v, Some("0"), push).0, "0").length >= 1
  {
    ZeroStored(v);
  }

  /** `0` is an array index: storing under it makes the length at least 1. */
  lemma ZeroStored(v: MeshView)
    requires "0" !in v.dir
    ensures !Barred(v, "0") && GrownLength(v.length, "0") >= 1
  {
    assert "0" !in ArrayPrototypeNames;
    assert "0" == ['0'];
    DigitIndex('0', v.length);
  }

  /**
   * `needcontenthint`: the sender is answered with a contenthint envelope
   * mapping each requested id that names a local track to that track's hint
   * and nothing else. A payload that is not a list throws.
   */
  function OnNeedContentHint(v: MeshView, e: Envelope): (r: (MeshView, Outcome))
    ensures Strings(e.data).None? ==> r == (v, Thrown)
    ensures Strings(e.data).Some? ==>
      var ids := Strings(e.data).value;
      var m := HintReply(ids, v.stream);
      && r == (v.(outbox := v.outbox + [MeshEnv("contenthint", v.id, e.from, Hints(m))]), Handled)
      && (forall id :: id in m <==> id in ids && exists t :: t in v.stream && t.id == id)
      && (forall id :: id in m ==> m[id] == FindTrack(v.stream, id).value.hint)
    ensures Kept(v, r.0)
  {
    match Strings(e.data)
    case None => (v, Thrown)
    case Some(ids) => (v.(outbox := v.outbox + [MeshEnv("contenthint", v.id, e.from, Hints(HintReply(ids, v.stream)))]), Handled)
  }

  /** The hints a contenthint payload carries; any other payload names no track. */
  function HintsOf(d: Payload): map<string, string>
  {
    if d.Hints? then d.hints else map[]
  }

  /**
   * `contenthint`: the sender's incoming stream is labelled and split. It
   * throws, changing nothing, when the sender is unknown or no stream has
   * arrived from it yet.
   */
  function OnContentHint(v: MeshView, e: Envelope): (r: (MeshView, Outcome))
    requires Wf(v)
    ensures Wf(r.0)
    ensures r.1 != Ignored
    ensures r.1 == Handled <==> KeyOf(e.from) in v.dir && v.dir[KeyOf(e.from)].incoming.Some?
    ensures r.1 == Thrown ==> r.0 == v
    ensures r.1 == Handled ==> r.0 == ApplyContentHint(v, KeyOf(e.from), HintsOf(e.data))
    ensures Kept(v, r.0)
  {
    var key := KeyOf(e.from);
    if key in v.dir && v.dir[key].incoming.Some? then (ApplyContentHint(v, key, HintsOf(e.data)), Handled)
    else (v, Thrown)
  }

  /**
   * The first half of `sdp`: a sender whose lookup is falsy is treated as if
   * it had said hello. An inherited name is truthy, so it is not admitted;
   * nor is `length`, whose hello throws.
   */
  function Admit(v: MeshView, from: Option<string>, push: Step): (r: MeshView)
    requires Wf(v) && v.signaling.Some?
    ensures Wf(r)
    ensures KeyOf(from) in r.dir <==> !Barred(v, KeyOf(from))
    ensures r.dir.Keys == v.dir.Keys + (if Barred(v, KeyOf(from)) then {} else {KeyOf(from)})
    ensures KeyOf(from) in v.dir || Barred(v, KeyOf(from)) ==> r == v
    ensures KeyOf(from) !in v.dir && !Barred(v, KeyOf(from)) ==> r == OnHello(v, from, push).0
    ensures Kept(v, r)
  {
    if KeyOf(from) in v.dir || Barred(v, KeyOf(from)) then v else OnHello(v, from, push).0
  }

  /**
   * A received offer on the inbound link: on success the link holds the offer
   * as remote and the answer as local description, and the answer is sent to
   * the participant; otherwise error 352177. Nothing else changes.
   */
  function AnswerOffer(v: MeshView, key: string, d: Desc, route: Step): (r: MeshView)
    requires key in v.dir
    ensures Wf(v) ==> Wf(r)
    ensures route.ok ==>
      var p := v.dir[key];
      r == v.(dir := v.dir[key := p.(inn := Answered(p.inn, d, route.sdp))],
              outbox := v.outbox + [MeshEnv("sdp", v.id, p.pid, Session(Desc(Answer, route.sdp)))])
    ensures !route.ok ==> r == v.(events := v.events + [Error(ErrAnswerOffer)])
  {
    var p := v.dir[key];
    if route.ok then
      v.(dir := v.dir[key := p.(inn := Answered(p.inn, d, route.sdp))],
         outbox := v.outbox + [MeshEnv("sdp", v.id, p.pid, Session(Desc(Answer, route.sdp)))])
    else v.(events := v.events + [Error(ErrAnswerOffer)])
  }

  /** A received answer on the outbound link: its remote description, or error 645167. */
  function ApplyAnswer(v: MeshView, key: string, d: Desc, route: Step): (r: MeshView)
    requires key in v.dir
    ensures Wf(v) ==> Wf(r)
    ensures route.ok ==>
      var p := v.dir[key];
      r == v.(dir := v.dir[key := p.(out := p.out.(remoteDesc := Some(d)))])
    ensures !route.ok ==> r == v.(events := v.events + [Error(ErrApplyAnswer)])
  {
    var p := v.dir[key];
    if route.ok then v.(dir := v.dir[key := p.(out := p.out.(remoteDesc := Some(d)))])
    else v.(events := v.events + [Error(ErrApplyAnswer)])
  }

  /**
   * `sdp`: a payload that is no session description throws before anything
   * happens. Otherwise the sender is admitted, an offer is answered on the
   * inbound link and an answer applied to the outbound link; other types stop
   * after the admission. A sender named like an inherited property has no
   * links, so an offer or an answer from it throws, changing nothing. A
   * sender named `length` while the directory's length is 0 is admitted, and
   * the admission throws.
   */
  function OnSdp(v: MeshView, e: Envelope, push: Step, route: Step): (r: (MeshView, Outcome))
    requires Wf(v) && v.signaling.Some?
    ensures Wf(r.0)
    ensures r.1 != Ignored
    ensures r.1 == Thrown <==>
      (|| !e.data.Session?
       || (Barred(v, KeyOf(e.from))
           && (e.data.desc.kind == Offer || e.data.desc.kind == Answer || !Inherited(v, KeyOf(e.from)))))
    ensures r.1 == Thrown ==> r.0 == v
    ensures e.data.Session? && Barred(v, KeyOf(e.from)) ==> r.0 == v
    ensures e.data.Session? && !Barred(v, KeyOf(e.from)) ==>
      var w := Admit(v, e.from, push);
      var d := e.data.desc;
      && (d.kind == Offer ==> r.0 == AnswerOffer(w, KeyOf(e.from), d, route))
      && (d.kind == Answer ==> r.0 == ApplyAnswer(w, KeyOf(e.from), d, route))
      && (d.kind != Offer && d.kind != Answer ==> r.0 == w)
    ensures Kept(v, r.0)
  {
    if !e.data.Session? then (v, Thrown)
    else
      var d := e.data.desc;
      if Barred(v, KeyOf(e.from)) then
        (v, if d.kind == Offer || d.kind == Answer || !Inherited(v, KeyOf(e.from)) then Thrown else Handled)
      else
      var w := Admit(v, e.from, push);
      match d.kind
      case Offer => (AnswerOffer(w, KeyOf(e.from), d, route), Handled)
      case Answer => (ApplyAnswer(w, KeyOf(e.from), d, route), Handled)
      case _ => (w, Handled)
  }

  /**
   * `cdt`: the candidate is added to the sender's outbound link, or error
   * 518450 if that fails. It throws, changing nothing, on a payload that is no
   * candidate or a sender that is not a participant.
   */
  function OnCdt(v: MeshView, e: Envelope, route: Step): (r: (MeshView, Outcome))
    requires Wf(v)
    ensures Wf(r.0)
    ensures r.1 != Ignored
    ensures r.1 == Thrown <==> !e.data.Candidate? || KeyOf(e.from) !in v.dir
    ensures r.1 == Thrown ==> r.0 == v
    ensures r.1 == Handled && route.ok ==>
      var p := v.dir[KeyOf(e.from)];
      r.0 == v.(dir := v.dir[KeyOf(e.from) := p.(out := p.out.(candidates := p.out.candidates + [e.data.cdt]))])
    ensures r.1 == Handled && !route.ok ==> r.0 == v.(events := v.events + [Error(ErrAddCandidate)])
    ensures Kept(v, r.0)
  {
    var key := KeyOf(e.from);
    if !e.data.Candidate? || key !in v.dir then (v, Thrown)
    else if route.ok then
      var p := v.dir[key];
      (v.(dir := v.dir[key := p.(out := p.out.(candidates := p.out.candidates + [e.data.cdt]))]), Handled)
    else (v.(events := v.events + [Error(ErrAddCandidate)]), Handled)
  }

  /**
   * `_onSignal`: with no signaling attached no handler is listening; an
   * envelope addressed elsewhere or sent by this engine, or with an unknown
   * word, is ignored; a thrown handler changes nothing. `push` and `route` are
   * the outcomes of the outbound negotiation and of the link operation the
   * envelope starts.
   */
  function OnSignal(v: MeshView, e: Envelope, push: Step, route: Step): (r: (MeshView, Outcome))
    requires Wf(v)
    ensures Wf(r.0)
    ensures r.1 != Handled ==> r.0 == v
    ensures v.signaling.None? || Filtered(v.id, e) ==> r.1 == Ignored
    ensures e.from == Some(v.id) ==> r.1 == Ignored
    ensures e.word !in {"hello", "needcontenthint", "contenthint", "sdp", "cdt"} ==> r.1 == Ignored
    ensures v.signaling.Some? && !Filtered(v.id, e) ==> r == Dispatch(v, e, push, route)
    ensures Kept(v, r.0)
  {
    if v.signaling.None? || Filtered(v.id, e) then (v, Ignored)
    else Dispatch(v, e, push, route)
  }

  /** The handler `_onSignal` runs for an envelope that passed its guard, chosen by the word. */
  function Dispatch(v: MeshView, e: Envelope, push: Step, route: Step): (r: (MeshView, Outcome))
    requires Wf(v) && v.signaling.Some?
    ensures Wf(r.0)
    ensures r.1 != Handled ==> r.0 == v
    ensures e.word !in {"hello", "needcontenthint", "contenthint", "sdp", "cdt"} ==> r.1 == Ignored
    ensures e.word == "hello" ==> r == OnHello(v, e.from, push)
    ensures e.word == "needcontenthint" ==> r == OnNeedContentHint(v, e)
    ensures e.word == "contenthint" ==> r == OnContentHint(v, e)
    ensures e.word == "sdp" ==> r == OnSdp(v, e, push, route)
    ensures e.word == "cdt" ==> r == OnCdt(v, e, route)
    ensures Kept(v, r.0)
  {
    if e.word == "hello" then OnHello(v, e.from, push)
    else if e.word == "needcontenthint" then OnNeedContentHint(v, e)
    else if e.word == "contenthint" then OnContentHint(v, e)
    else if e.word == "sdp" then OnSdp(v, e, push, route)
    else if e.word == "cdt" then OnCdt(v, e, route)
    else (v, Ignored)
  }

  // ---- Configuration ----------------------------------------------------------------

  /**
   * `setStreamConfiguration` once capture resolved with `user`, `display` and
   * `audio`: the local stream becomes the tagged composition, every
   * participant's outbound link is re-negotiated once with it, and only then
   * the previous stream's tracks are stopped. `steps` gives each
   * participant's negotiation outcome.
   */
  function SetStreamConfiguration(v: MeshView, user: seq<Track>, display: seq<Track>, audio: seq<Track>,
                                  steps: string -> Step): (r: MeshView)
    requires Wf(v)
    ensures Wf(r)
    ensures r.stream == Compose(user, display, audio)
    ensures r.stopped == v.stopped + v.stream
    ensures r.dir.Keys == v.dir.Keys && r.order == v.order
    ensures forall k :: k in v.dir ==> r.dir[k] == v.dir[k].(out := Negotiated(v.dir[k].out, r.stream, steps(k)))
    ensures |r.outbox| + |r.events| == |v.outbox| + |v.events| + |v.order|
    ensures r.id == v.id && r.signaling == v.signaling
  {
    var w := v.(stream := Compose(user, display, audio));
    var pushed := PushAll(w, w.order, steps);
    PushAllEffect(w, w.order, steps);
    OneAttemptEach(w, w.order, steps);
    pushed.(stopped := pushed.stopped + v.stream)
  }

  /** The hello a newly attached signaling object carries. */
  function Hello(self: string): Envelope
  {
    MeshEnv("hello", self, None, NoData)
  }

  /**
   * `setSignaling` as written: a previous signaling object is detached and
   * every participant torn down, then the new one (if any) is attached and
   * greeted. The participants-changed event of the teardown is dispatched on
   * the global `self`, so the engine's own event stream does not receive it.
   */
  function SetSignalingAsWritten(v: MeshView, sig: Option<nat>): (r: MeshView)
    requires Wf(v)
    ensures Wf(r)
    ensures r.signaling == sig && r.events == v.events
    ensures v.signaling.Some? ==> r.dir == map[] && r.order == []
    ensures v.signaling.Some? ==> r.stopped == v.stopped + HeldAll(v.dir, v.order)
    ensures v.signaling.Some? ==> r.retired == v.retired + ClosedAll(v.dir, v.order)
    ensures v.signaling.None? ==> r.dir == v.dir && r.order == v.order && r.stopped == v.stopped && r.retired == v.retired
    ensures r.outbox == v.outbox + (if sig.Some? then [Hello(v.id)] else [])
  {
    var torn := if v.signaling.Some? then TeardownStops(v); TeardownCloses(v); TeardownAll(v) else v;
    var w := torn.(signaling := sig);
    if sig.Some? then w.(outbox := w.outbox + [Hello(v.id)]) else w
  }

  /** `setSignaling` with the teardown's participants-changed dispatched on the engine. */
  function SetSignaling(v: MeshView, sig: Option<nat>): (r: MeshView)
    requires Wf(v)
    ensures Wf(r)
    ensures r.signaling == sig
    ensures v.signaling.Some? ==> r.dir == map[] && r.order == [] && r.events == v.events + [ParticipantsChanged]
    ensures v.signaling.Some? ==> r.stopped == v.stopped + HeldAll(v.dir, v.order)
    ensures v.signaling.Some? ==> r.retired == v.retired + ClosedAll(v.dir, v.order)
    ensures v.signaling.None? ==> r.dir == v.dir && r.events == v.events && r.stopped == v.stopped && r.retired == v.retired
    ensures r.outbox == v.outbox + (if sig.Some? then [Hello(v.id)] else [])
    ensures r.id == v.id && r.stream == v.stream
  {
    var torn := if v.signaling.Some? then
      TeardownStops(v);
      TeardownCloses(v);
      var t := TeardownAll(v); t.(events := t.events + [ParticipantsChanged])
    else v;
    var w := torn.(signaling := sig);
    if sig.Some? then w.(outbox := w.outbox + [Hello(v.id)]) else w
  }

  /**
   * As written, replacing the signaling of an engine with one participant
   * removes that participant while the engine's event stream receives no
   * participants-changed; the corrected member dispatches it.
   */
  lemma TeardownEventLost()
    ensures var p := Newcomer(Some("bob"));
      var v := MeshView("alice", Some(1), map["bob" := p], ["bob"], [], [], [], [], [], 0);
      && Wf(v)
      && Participants(v) != Participants(SetSignalingAsWritten(v, Some(2)))
      && SetSignalingAsWritten(v, Some(2)).events == []
      && SetSignaling(v, Some(2)).events == [ParticipantsChanged]
  {
    var p := Newcomer(Some("bob"));
    var v := MeshView("alice", Some(1), map["bob" := p], ["bob"], [], [], [], [], [], 0);
    assert Identity.IdChar('a') && Identity.IdChar('l') && Identity.IdChar('i') && Identity.IdChar('c') && Identity.IdChar('e');
    assert Wf(v);
    assert |Participants(v)| == 1;
  }
}
