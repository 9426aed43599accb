/**
 * The multi-configuration example (`example/multicfg/index.js`): each
 * participant announces, out of band, the intent of each of its tracks
 * (`camera`, `microphone` or `screen`), and a viewer splits a remote stream
 * into a camera stream and a screen stream by those intents. A viewer asks a
 * participant for its intents once per distinct stream, with
 * `example-needintents`, and files the split under the stream's key.
 */
module MultiCfgModel {
  import opened Media
  import opened Signal
  import opened StreamKey

  const WordNeedIntents: string := "example-needintents"
  const WordIntents: string := "example-intents"

  /** `data[id]` of an envelope's data: only an intents object holds entries. */
  function IntentOf(data: Payload, id: string): Option<string>
  {
    if data.Hints? && id in data.hints then Some(data.hints[id]) else None
  }

  /** The streams a received intents map splits a participant's stream into. */
  datatype Entry = Entry(camera: seq<Track>, screen: seq<Track>)

  predicate IsScreen(data: Payload, t: Track) { IsVideo(t) && IntentOf(data, t.id) == Some("screen") }
  predicate IsCamera(data: Payload, t: Track) { IsVideo(t) && IntentOf(data, t.id) == Some("camera") }
  predicate IsMicrophone(data: Payload, t: Track) { IsAudio(t) && IntentOf(data, t.id) == Some("microphone") }

  /** `p.stream.getVideoTracks().filter((t) => data[t.id] === 'screen')`. */
  function Screen(tracks: seq<Track>, data: Payload): (r: seq<Track>)
    ensures forall t :: t in r <==> t in tracks && IsScreen(data, t)
  {
    Filter(Videos(tracks), t => IsScreen(data, t))
  }

  /** The camera tracks, then the microphone tracks: `[...camera, ...microphone]`. */
  function Camera(tracks: seq<Track>, data: Payload): (r: seq<Track>)
    ensures forall t :: t in r <==> t in tracks && (IsCamera(data, t) || IsMicrophone(data, t))
  {
    Filter(Videos(tracks), t => IsCamera(data, t)) + Filter(Audios(tracks), t => IsMicrophone(data, t))
  }

  /**
   * The split of the intents handler: the screen stream holds the video tracks
   * whose intent is `screen`; the camera stream the video tracks whose intent
   * is `camera`, then the audio tracks whose intent is `microphone`. A track
   * with any other intent, or none, is in neither, and none is in both.
   */
  function Split(tracks: seq<Track>, data: Payload): (r: Entry)
    ensures forall t :: t in r.screen <==> t in tracks && IsScreen(data, t)
    ensures forall t :: t in r.camera <==> t in tracks && (IsCamera(data, t) || IsMicrophone(data, t))
    ensures forall t :: !(t in r.camera && t in r.screen)
  {
    Entry(Camera(tracks, data), Screen(tracks, data))
  }

  /** In the camera stream every video track comes before every audio track. */
  lemma CameraVideosFirst(tracks: seq<Track>, data: Payload)
    ensures var c := Camera(tracks, data);
      forall i, j :: 0 <= i < j < |c| && IsAudio(c[i]) ==> IsAudio(c[j])
  {
    var camera := Filter(Videos(tracks), t => IsCamera(data, t));
    var microphone := Filter(Audios(tracks), t => IsMicrophone(data, t));
    var c := camera + microphone;
    forall i | 0 <= i < |c| ensures IsAudio(c[i]) <==> i >= |camera| {
      if i < |camera| { assert c[i] == camera[i] && camera[i] in Videos(tracks); }
      else { assert c[i] == microphone[i - |camera|]; }
    }
  }

  /** A participant's stream waiting for its intents: `p.id`, `streamId` and the tracks. */
  datatype Pending = Pending(pid: string, streamId: string, tracks: seq<Track>)

  datatype CfgView = CfgView(
    /** `state.id`. */
    self: string,
    /** `state.currentStreamStruct.intents`: `None` until a configuration is chosen. */
    current: Option<Payload>,
    /** `state.streams`. */
    streams: map<string, map<string, Entry>>,
    /** the registered intents handlers, in registration order. */
    handlers: seq<Pending>,
    /** the envelopes passed to `state.signaling.send`. */
    outbox: seq<Envelope>,
    /** how many handlers threw. */
    errors: nat)

  /** A registered handler files into an existing `state.streams[p.id]`. */
  ghost predicate Wf(v: CfgView)
  {
    forall i :: 0 <= i < |v.handlers| ==> v.handlers[i].pid in v.streams
  }

  /** The request sent to participant `pid`. */
  function NeedIntents(self: string, pid: string): Envelope
  {
    Envelope(WordNeedIntents, Some(self), Some(pid), None, NoData, true)
  }

  /**
   * `onSignal`: only an envelope addressed to this participant is looked at
   * (a broadcast has no `to`); an `example-needintents` is answered to its
   * sender with the current intents and `includeMe`. Before any configuration
   * was chosen, reading the intents throws.
   */
  function OnSignal(v: CfgView, e: Envelope): (r: (CfgView, Outcome))
    ensures e.to != Some(v.self) || e.word != WordNeedIntents ==> r == (v, Ignored)
    ensures e.to == Some(v.self) && e.word == WordNeedIntents && v.current.None? ==> r == (v, Thrown)
    ensures e.to == Some(v.self) && e.word == WordNeedIntents && v.current.Some? ==>
      && r.1 == Handled
      && r.0 == v.(outbox := v.outbox + [Envelope(WordIntents, Some(v.self), e.from, None, v.current.value, true)])
  {
    if e.to != Some(v.self) then (v, Ignored)
    else if e.word == WordNeedIntents then
      if v.current.None? then (v, Thrown)
      else (v.(outbox := v.outbox + [Envelope(WordIntents, Some(v.self), e.from, None, v.current.value, true)]), Handled)
    else (v, Ignored)
  }

  /** `state.streams[pid] && state.streams[pid][streamId]`. */
  predicate Cached(v: CfgView, pid: string, streamId: string)
  {
    pid in v.streams && streamId in v.streams[pid]
  }

  /**
   * The template of `renderParticipants` for one participant: a stream already
   * split is reused and nothing is sent; otherwise `state.streams[p.id]` is
   * reset, a handler is registered for the stream and its intents are requested.
   */
  function Render(v: CfgView, pid: string, tracks: seq<Track>): (r: CfgView)
    requires Wf(v)
    ensures Wf(r) && r.self == v.self && r.current == v.current && r.errors == v.errors
    ensures Cached(v, pid, StreamId(tracks)) ==> r == v
    ensures !Cached(v, pid, StreamId(tracks)) ==>
      && r.streams == v.streams[pid := map[]]
      && r.handlers == v.handlers + [Pending(pid, StreamId(tracks), tracks)]
      && r.outbox == v.outbox + [NeedIntents(v.self, pid)]
  {
    var key := StreamId(tracks);
    if Cached(v, pid, key) then v
    else v.(streams := v.streams[pid := map[]], handlers := v.handlers + [Pending(pid, key, tracks)],
            outbox := v.outbox + [NeedIntents(v.self, pid)])
  }

  /** A participant, as rendered: its id and its stream's tracks. */
  datatype Participant = Participant(id: string, tracks: seq<Track>)

  /** `renderParticipants`: the template for each participant, in order. */
  function RenderAll(v: CfgView, ps: seq<Participant>): (r: CfgView)
    requires Wf(v)
    ensures Wf(r) && r.self == v.self && r.current == v.current
  {
    if ps == [] then v else Render(RenderAll(v, ps[..|ps| - 1]), ps[|ps| - 1].id, ps[|ps| - 1].tracks)
  }

  /** The same ids in any order hit the same entry: nothing is requested again. */
  lemma CachedAnyOrder(v: CfgView, pid: string, a: seq<Track>, b: seq<Track>)
    requires Wf(v) && Cached(v, pid, StreamId(a)) && multiset(Ids(a)) == multiset(Ids(b))
    ensures Render(v, pid, b) == v
  {
    OrderIndependent(a, b);
  }

  // ---- The intents handlers ------------------------------------------------------

  /** The handler of `h` reacts: `example-intents`, addressed to self, sent by `h`'s participant. */
  predicate Matches(self: string, e: Envelope, h: Pending)
  {
    e.word == WordIntents && e.to == Some(self) && e.from == Some(h.pid)
  }

  /** What dispatching one signal leaves: the entries, the handlers still registered, the errors. */
  datatype Dispatched = Dispatched(streams: map<string, map<string, Entry>>, kept: seq<Pending>, errors: nat)

  /** Every handler still registered files into an existing entry. */
  ghost predicate KeptIn(d: Dispatched)
  {
    forall i :: 0 <= i < |d.kept| ==> d.kept[i].pid in d.streams
  }

  /**
   * One handler's turn: a non-matching handler stays registered; a matching
   * one unregisters itself and, when the participant's container is on the page,
   * files the split. Indexing data that is not an object throws once a track is
   * looked at.
   */
  function Handle(self: string, e: Envelope, mounted: set<string>, d: Dispatched, h: Pending): (r: Dispatched)
    requires h.pid in d.streams
    ensures r.streams.Keys == d.streams.Keys && (KeptIn(d) ==> KeptIn(r))
    ensures !Matches(self, e, h) ==> r == d.(kept := d.kept + [h])
    ensures Matches(self, e, h) ==> r.kept == d.kept
    ensures Matches(self, e, h) && h.pid !in mounted ==> r == d
    ensures Matches(self, e, h) && h.pid in mounted && e.data.NoData? && h.tracks != [] ==> r == d.(errors := d.errors + 1)
    ensures Matches(self, e, h) && h.pid in mounted && !(e.data.NoData? && h.tracks != []) ==>
      && r.errors == d.errors
      && r.streams[h.pid] == d.streams[h.pid][h.streamId := Split(h.tracks, e.data)]
      && (forall k :: k in d.streams && k != h.pid ==> r.streams[k] == d.streams[k])
  {
    if !Matches(self, e, h) then d.(kept := d.kept + [h])
    else if h.pid !in mounted then d
    else if e.data.NoData? && h.tracks != [] then d.(errors := d.errors + 1)
    else d.(streams := d.streams[h.pid := d.streams[h.pid][h.streamId := Split(h.tracks, e.data)]])
  }

  /** The handlers `hs` take their turns in registration order. */
  function HandleAll(self: string, e: Envelope, mounted: set<string>, d: Dispatched, hs: seq<Pending>): (r: Dispatched)
    requires forall i :: 0 <= i < |hs| ==> hs[i].pid in d.streams
    ensures r.streams.Keys == d.streams.Keys && (KeptIn(d) ==> KeptIn(r))
  {
    if hs == [] then d
    else
      var prev := HandleAll(self, e, mounted, d, hs[..|hs| - 1]);
      Handle(self, e, mounted, prev, hs[|hs| - 1])
  }

  /** A signal delivered to every registered intents handler. */
  function Deliver(v: CfgView, e: Envelope, mounted: set<string>): (r: CfgView)
    requires Wf(v)
    ensures Wf(r) && r.self == v.self && r.current == v.current && r.outbox == v.outbox
  {
    var d := HandleAll(v.self, e, mounted, Dispatched(v.streams, [], v.errors), v.handlers);
    v.(streams := d.streams, handlers := d.kept, errors := d.errors)
  }

  /**
   * Each handler is one-shot: dispatching removes exactly the matching
   * handlers and keeps the others, in order.
   */
  lemma {:induction false} OneShot(self: string, e: Envelope, mounted: set<string>, d: Dispatched, hs: seq<Pending>)
    requires forall i :: 0 <= i < |hs| ==> hs[i].pid in d.streams
    ensures HandleAll(self, e, mounted, d, hs).kept == d.kept + Filter(hs, h => !Matches(self, e, h))
  {
    var keep := (h: Pending) => !Matches(self, e, h);
    if hs == [] {
      assert d.kept + [] == d.kept;
    } else {
      var init := hs[..|hs| - 1];
      var last := hs[|hs| - 1];
      OneShot(self, e, mounted, d, init);
      assert hs == init + [last];
      FilterAppend(init, [last], keep);
      assert Filter([last], keep) == (if keep(last) then [last] else []) + Filter([], keep);
      AppendAssoc(d.kept, Filter(init, keep), Filter([last], keep));
    }
  }

  /** A signal no handler matches keeps every handler and changes no entry. */
  lemma {:induction false} NoMatchNoChange(self: string, e: Envelope, mounted: set<string>, d: Dispatched, hs: seq<Pending>)
    requires forall i :: 0 <= i < |hs| ==> hs[i].pid in d.streams
    requires forall i :: 0 <= i < |hs| ==> !Matches(self, e, hs[i])
    ensures HandleAll(self, e, mounted, d, hs) == d.(kept := d.kept + hs)
  {
    if hs == [] {
      assert d.kept + [] == d.kept;
    } else {
      var init := hs[..|hs| - 1];
      NoMatchNoChange(self, e, mounted, d, init);
      assert hs == init + [hs[|hs| - 1]];
      AppendAssoc(d.kept, init, [hs[|hs| - 1]]);
    }
  }

  /**
   * The request and its answer complete the cache: a viewer that misses a
   * participant's stream, and has no other request out to that participant,
   * receives the participant's answer and files the split under the stream's
   * key; the handler is gone and rendering the stream again sends nothing.
   */
  lemma IntentsRoundTrip(a: CfgView, b: CfgView, tracks: seq<Track>, mounted: set<string>)
    requires Wf(a) && a.self != b.self && b.self in mounted && b.current.Some?
    requires !Cached(a, b.self, StreamId(tracks))
    requires forall i :: 0 <= i < |a.handlers| ==> a.handlers[i].pid != b.self
    requires b.current.value.Hints? || tracks == []
    ensures var a1 := Render(a, b.self, tracks);
      var b1 := OnSignal(b, a1.outbox[|a1.outbox| - 1]).0;
      var a2 := Deliver(a1, b1.outbox[|b1.outbox| - 1], mounted);
      && a2.handlers == a.handlers
      && Cached(a2, b.self, StreamId(tracks))
      && a2.streams[b.self][StreamId(tracks)] == Split(tracks, b.current.value)
      && Render(a2, b.self, tracks) == a2
  {
    var a1 := Render(a, b.self, tracks);
    var reply := Answer(a, b, tracks);
    ReplyFiled(a, a1, reply, b.self, tracks, mounted);
  }

  /** The answer `b` sends to the request `a` sends when it misses `b`'s stream. */
  lemma Answer(a: CfgView, b: CfgView, tracks: seq<Track>) returns (reply: Envelope)
    requires Wf(a) && !Cached(a, b.self, StreamId(tracks)) && b.current.Some?
    ensures var a1 := Render(a, b.self, tracks);
      var b1 := OnSignal(b, a1.outbox[|a1.outbox| - 1]).0;
      && b1.outbox[|b1.outbox| - 1] == reply
      && reply == Envelope(WordIntents, Some(b.self), Some(a.self), None, b.current.value, true)
  {
    var a1 := Render(a, b.self, tracks);
    assert a1.outbox[|a1.outbox| - 1] == NeedIntents(a.self, b.self);
    reply := Envelope(WordIntents, Some(b.self), Some(a.self), None, b.current.value, true);
  }

  /** Delivering the answer to the viewer that registered its handler last. */
  lemma ReplyFiled(a: CfgView, a1: CfgView, reply: Envelope, pid: string, tracks: seq<Track>, mounted: set<string>)
    requires Wf(a) && !Cached(a, pid, StreamId(tracks)) && a1 == Render(a, pid, tracks) && pid in mounted
    requires forall i :: 0 <= i < |a.handlers| ==> a.handlers[i].pid != pid
    requires reply.word == WordIntents && reply.to == Some(a.self) && reply.from == Some(pid)
    requires reply.data.Hints? || tracks == []
    ensures var a2 := Deliver(a1, reply, mounted);
      && a2.handlers == a.handlers
      && Cached(a2, pid, StreamId(tracks))
      && a2.streams[pid][StreamId(tracks)] == Split(tracks, reply.data)
      && Render(a2, pid, tracks) == a2
  {
    var d0 := Dispatched(a1.streams, [], a1.errors);
    var h := Pending(pid, StreamId(tracks), tracks);
    assert a1.handlers == a.handlers + [h];
    assert forall i :: 0 <= i < |a.handlers| ==> a.handlers[i].pid in d0.streams;
    LastMatches(a.self, reply, mounted, d0, a.handlers, h);
  }

  /** Only the last of the handlers matches: the others stay, and the last files its split. */
  lemma LastMatches(self: string, e: Envelope, mounted: set<string>, d: Dispatched, hs: seq<Pending>, h: Pending)
    requires forall i :: 0 <= i < |hs| ==> hs[i].pid in d.streams && !Matches(self, e, hs[i])
    requires h.pid in d.streams && h.pid in mounted && Matches(self, e, h) && (e.data.Hints? || h.tracks == [])
    ensures HandleAll(self, e, mounted, d, hs + [h])
         == Dispatched(d.streams[h.pid := d.streams[h.pid][h.streamId := Split(h.tracks, e.data)]], d.kept + hs, d.errors)
  {
    assert (hs + [h])[..|hs + [h]| - 1] == hs;
    NoMatchNoChange(self, e, mounted, d, hs);
  }

  // ---- Loop steps ----------------------------------------------------------------

  lemma RenderAllStep(v: CfgView, ps: seq<Participant>, i: nat)
    requires Wf(v) && i < |ps|
    ensures RenderAll(v, ps[..i + 1]) == Render(RenderAll(v, ps[..i]), ps[i].id, ps[i].tracks)
  {
    assert ps[..i + 1][..i] == ps[..i];
  }

  lemma HandleAllStep(self: string, e: Envelope, mounted: set<string>, d: Dispatched, hs: seq<Pending>, i: nat)
    requires forall k :: 0 <= k < |hs| ==> hs[k].pid in d.streams
    requires i < |hs|
    ensures HandleAll(self, e, mounted, d, hs[..i + 1]) == Handle(self, e, mounted, HandleAll(self, e, mounted, d, hs[..i]), hs[i])
  {
    assert hs[..i + 1][..i] == hs[..i];
  }
}
