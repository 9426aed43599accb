/**
 * The mesh engine's stream composer: tagging local tracks by role, answering a
 * content-hint request, applying received hints and splitting a received stream.
 */
module Streams {
  import opened Media

  const Motion := "motion"
  const Detail := "detail"

  /** The two streams `splitStream` returns. */
  datatype Split = Split(user: seq<Track>, display: seq<Track>)

  predicate IsMotion(t: Track) { t.kind == Video && t.hint == Motion }
  predicate IsDetail(t: Track) { t.kind == Video && t.hint == Detail }
  predicate HintedMotion(t: Track) { t.hint == Motion }
  predicate HintedDetail(t: Track) { t.hint == Detail }

  /**
   * `VieroWebRTCVideoChat.splitStream`: `userStream` is the `motion` video tracks
   * followed by every audio track; `displayStream` is the `detail` video tracks.
   */
  function SplitStream(s: seq<Track>): (r: Split)
    ensures forall t :: t in r.user <==> t in s && (IsMotion(t) || t.kind == Audio)
    ensures forall t :: t in r.display <==> t in s && IsDetail(t)
    ensures forall i, j :: 0 <= i < j < |r.user| && r.user[i].kind == Audio ==> r.user[j].kind == Audio
    ensures forall t :: t in s && t.kind == Video && t.hint != Motion && t.hint != Detail ==>
      t !in r.user && t !in r.display
  {
    var motion := Filter(Videos(s), HintedMotion);
    var detail := Filter(Videos(s), HintedDetail);
    var audio := Audios(s);
    assert forall i :: |motion| <= i < |motion + audio| ==> (motion + audio)[i] in audio;
    Split(motion + audio, detail)
  }

  /** Set `contentHint` on every track of a list (`tracks.forEach((t) => t.contentHint = hint)`). */
  function Tag(ts: seq<Track>, hint: string): (r: seq<Track>)
    ensures |r| == |ts|
    ensures forall i :: 0 <= i < |ts| ==> r[i].id == ts[i].id && r[i].kind == ts[i].kind && r[i].hint == hint
  {
    seq(|ts|, i requires 0 <= i < |ts| => ts[i].(hint := hint))
  }

  /**
   * The stream `setStreamConfiguration` builds: user tracks tagged `motion`,
   * then display tracks tagged `detail`, then audio tracks as captured.
   */
  function Compose(user: seq<Track>, display: seq<Track>, audio: seq<Track>): (r: seq<Track>)
    ensures |r| == |user| + |display| + |audio|
    ensures Ids(r) == Ids(user) + Ids(display) + Ids(audio)
    ensures forall i :: 0 <= i < |user| ==> r[i].hint == Motion && r[i].kind == user[i].kind
    ensures forall i :: 0 <= i < |display| ==> r[|user| + i].hint == Detail && r[|user| + i].kind == display[i].kind
    ensures r[|user| + |display|..] == audio
  {
    var tu, td := Tag(user, Motion), Tag(display, Detail);
    assert Ids(tu) == Ids(user) && Ids(td) == Ids(display);
    IdsAppend(tu, td);
    IdsAppend(tu + td, audio);
    tu + td + audio
  }

  /**
   * The `needcontenthint` reply: a left fold over the requested ids that maps
   * every id naming a local track to that track's `contentHint`.
   */
  function HintReply(requested: seq<string>, local: seq<Track>): (r: map<string, string>)
    ensures forall id :: id in r <==> id in requested && exists t :: t in local && t.id == id
    ensures forall id :: id in r ==> r[id] == FindTrack(local, id).value.hint
    decreases |requested|
  {
    if requested == [] then map[]
    else
      var acc := HintReply(requested[..|requested| - 1], local);
      var id := requested[|requested| - 1];
      assert forall x :: x in requested <==> x in requested[..|requested| - 1] || x == id;
      match FindTrack(local, id)
      case Some(t) => acc[id := t.hint]
      case None => acc
  }

  /**
   * `_applyContentHint`'s update: for each hinted id, the track `getTrackById`
   * finds, the first with that id, takes the hint; later tracks with the same
   * id, and ids outside the stream, change nothing.
   */
  function ApplyHints(s: seq<Track>, hints: map<string, string>): (r: seq<Track>)
    ensures |r| == |s|
    ensures forall i :: 0 <= i < |s| ==> r[i].id == s[i].id && r[i].kind == s[i].kind
    ensures forall i :: 0 <= i < |s| ==>
      r[i].hint == if s[i].id in hints && FirstWith(s, i, s[i].id) then hints[s[i].id] else s[i].hint
  {
    seq(|s|, i requires 0 <= i < |s| =>
      if s[i].id in hints && FirstWith(s, i, s[i].id) then s[i].(hint := hints[s[i].id]) else s[i])
  }

  /** `stream.getTrackById(id).contentHint = hint`: only the first track with id `id` takes the hint. */
  function Relabel(s: seq<Track>, id: string, hint: string): (r: seq<Track>)
    ensures |r| == |s|
    ensures forall i :: 0 <= i < |s| ==> r[i] == if FirstWith(s, i, id) then s[i].(hint := hint) else s[i]
    ensures FindTrack(s, id).None? ==> r == s
  {
    if s == [] then []
    else if s[0].id == id then [s[0].(hint := hint)] + s[1..]
    else
      var t := Relabel(s[1..], id, hint);
      assert forall i :: 0 < i < |s| ==> (FirstWith(s, i, id) <==> FirstWith(s[1..], i - 1, id)) by {
        forall i | 0 < i < |s| ensures FirstWith(s, i, id) <==> FirstWith(s[1..], i - 1, id) {
          if FirstWith(s[1..], i - 1, id) {
            forall j | 0 <= j < i ensures s[j].id != id { if j > 0 { assert s[j] == s[1..][j - 1]; } }
          }
          if FirstWith(s, i, id) {
            forall j | 0 <= j < i - 1 ensures s[1..][j].id != id { assert s[1..][j] == s[j + 1]; }
          }
        }
      }
      [s[0]] + t
  }

  /** The hints for the ids in `ks` only. */
  function Restrict(m: map<string, string>, ks: set<string>): (r: map<string, string>)
    ensures r.Keys == m.Keys * ks
    ensures forall k :: k in r ==> r[k] == m[k]
  {
    map k | k in ks && k in m :: m[k]
  }

  /** One more step of the `needcontenthint` fold. */
  lemma HintReplyStep(requested: seq<string>, i: nat, local: seq<Track>)
    requires i < |requested|
    ensures HintReply(requested[..i + 1], local) ==
      match FindTrack(local, requested[i])
      case Some(t) => HintReply(requested[..i], local)[requested[i] := t.hint]
      case None => HintReply(requested[..i], local)
  {
    assert requested[..i + 1][..i] == requested[..i];
  }

  /** Writing the hints one id at a time, in any order, builds `ApplyHints`. */
  lemma RelabelStep(s: seq<Track>, hints: map<string, string>, id: string, hint: string)
    requires id !in hints
    ensures Relabel(ApplyHints(s, hints), id, hint) == ApplyHints(s, hints[id := hint])
  {
    var h := ApplyHints(s, hints);
    var a := Relabel(h, id, hint);
    var b := ApplyHints(s, hints[id := hint]);
    forall i | 0 <= i < |s| ensures a[i] == b[i] {
      FirstWithSameIds(h, s, i, id);
      if s[i].id == id {
        assert h[i] == s[i];
      } else {
        assert !FirstWith(s, i, id);
      }
    }
  }

  /** Two streams with the same ids, position for position, have their first tracks of each id at the same places. */
  lemma FirstWithSameIds(a: seq<Track>, b: seq<Track>, i: int, id: string)
    requires |a| == |b| && forall j :: 0 <= j < |a| ==> a[j].id == b[j].id
    ensures FirstWith(a, i, id) <==> FirstWith(b, i, id)
  {
  }

  /** Of two tracks sharing an id, only the first takes the hint; the second keeps its own. */
  lemma DuplicateIdHintedOnce(a: Track, b: Track, hint: string)
    requires a.id == b.id
    ensures ApplyHints([a, b], map[a.id := hint]) == [a.(hint := hint), b]
  {
    assert FirstWith([a, b], 0, a.id) && !FirstWith([a, b], 1, b.id);
  }

  /** Hints for ids that no track of the stream carries have no effect. */
  lemma {:induction false} ForeignHintsIgnored(s: seq<Track>, hints: map<string, string>, extra: map<string, string>)
    requires forall id :: id in extra ==> id !in Ids(s) && id !in hints
    ensures ApplyHints(s, hints + extra) == ApplyHints(s, hints)
  {
    var a, b := ApplyHints(s, hints + extra), ApplyHints(s, hints);
    forall i | 0 <= i < |s| ensures a[i] == b[i] {
      assert s[i].id == Ids(s)[i];
    }
  }

  predicate UniqueIds(s: seq<Track>)
  {
    forall i, j :: 0 <= i < j < |s| ==> s[i].id != s[j].id
  }

  /** What reaches the remote side: the wire keeps ids and kinds but not `contentHint`. */
  function Received(s: seq<Track>): (r: seq<Track>)
    ensures |r| == |s|
    ensures forall i :: 0 <= i < |s| ==> r[i] == Track(s[i].id, s[i].kind, "")
  {
    seq(|s|, i requires 0 <= i < |s| => Track(s[i].id, s[i].kind, ""))
  }

  /**
   * Splitting the composed stream with its own hints gives back the sources:
   * `userStream` is the user tracks (tagged `motion`) followed by the audio
   * tracks, `displayStream` is the display tracks (tagged `detail`).
   */
  lemma {:induction false} ComposeThenSplit(user: seq<Track>, display: seq<Track>, audio: seq<Track>)
    requires forall t :: t in user ==> t.kind == Video
    requires forall t :: t in display ==> t.kind == Video
    requires forall t :: t in audio ==> t.kind == Audio
    ensures SplitStream(Compose(user, display, audio)) == Split(Tag(user, Motion) + audio, Tag(display, Detail))
  {
    var u, d := Tag(user, Motion), Tag(display, Detail);
    TagKeepsKind(user, Motion);
    TagKeepsKind(display, Detail);
    var c := Compose(user, display, audio);
    assert c == u + d + audio;
    KindFilters(u, d, audio);
    HintFilters(u, d);
    assert SplitStream(c) == Split(Filter(Videos(c), HintedMotion) + Audios(c), Filter(Videos(c), HintedDetail));
  }

  lemma TagKeepsKind(ts: seq<Track>, hint: string)
    ensures forall t :: t in Tag(ts, hint) ==> t.hint == hint && exists x :: x in ts && x.kind == t.kind
  {
    forall t | t in Tag(ts, hint) ensures t.hint == hint && exists x :: x in ts && x.kind == t.kind {
      var i :| 0 <= i < |ts| && Tag(ts, hint)[i] == t;
      assert ts[i] in ts;
    }
  }

  lemma KindFilters(u: seq<Track>, d: seq<Track>, a: seq<Track>)
    requires forall t :: t in u ==> t.kind == Video
    requires forall t :: t in d ==> t.kind == Video
    requires forall t :: t in a ==> t.kind == Audio
    ensures Videos(u + d + a) == u + d && Audios(u + d + a) == a
  {
    FilterAppend(u + d, a, IsVideo);
    FilterAppend(u, d, IsVideo);
    FilterAll(u, IsVideo);
    FilterAll(d, IsVideo);
    FilterNone(a, IsVideo);
    FilterAppend(u + d, a, IsAudio);
    FilterAppend(u, d, IsAudio);
    FilterNone(u, IsAudio);
    FilterNone(d, IsAudio);
    FilterAll(a, IsAudio);
  }

  lemma HintFilters(u: seq<Track>, d: seq<Track>)
    requires forall t :: t in u ==> t.hint == Motion
    requires forall t :: t in d ==> t.hint == Detail
    ensures Filter(u + d, HintedMotion) == u && Filter(u + d, HintedDetail) == d
  {
    FilterAppend(u, d, HintedMotion);
    FilterAll(u, HintedMotion);
    FilterNone(d, HintedMotion);
    FilterAppend(u, d, HintedDetail);
    FilterNone(u, HintedDetail);
    FilterAll(d, HintedDetail);
  }

  /**
   * The whole content-hint exchange of the mesh protocol. The remote side
   * receives the composed stream without hints, asks for the hints of its
   * video tracks, applies the reply, and splits: it obtains the user tracks
   * and the display tracks with the labels the sender gave them, and the audio
   * tracks (whose hints are never requested) with the default hint.
   */
  lemma ContentHintExchange(user: seq<Track>, display: seq<Track>, audio: seq<Track>)
    requires forall t :: t in user ==> t.kind == Video
    requires forall t :: t in display ==> t.kind == Video
    requires forall t :: t in audio ==> t.kind == Audio
    requires UniqueIds(Compose(user, display, audio))
    ensures
      var local := Compose(user, display, audio);
      var incoming := Received(local);
      var reply := HintReply(Ids(Videos(incoming)), local);
      SplitStream(ApplyHints(incoming, reply)) == Split(Tag(user, Motion) + Received(audio), Tag(display, Detail))
  {
    ExchangeLabels(user, display, audio);
    ExchangeSplit(user, display, audio);
  }

  /** The labelled stream the remote side obtains is the sender's composition with unlabelled audio. */
  lemma ExchangeLabels(user: seq<Track>, display: seq<Track>, audio: seq<Track>)
    requires forall t :: t in user ==> t.kind == Video
    requires forall t :: t in display ==> t.kind == Video
    requires forall t :: t in audio ==> t.kind == Audio
    requires UniqueIds(Compose(user, display, audio))
    ensures
      var local := Compose(user, display, audio);
      var incoming := Received(local);
      ApplyHints(incoming, HintReply(Ids(Videos(incoming)), local)) == Compose(user, display, Received(audio))
  {
    var local := Compose(user, display, audio);
    var incoming := Received(local);
    ReplyRestoresVideoHints(local);
    LabelledIsSources(user, display, audio, ApplyHints(incoming, HintReply(Ids(Videos(incoming)), local)));
  }

  /** Splitting a composition whose audio was received unlabelled. */
  lemma ExchangeSplit(user: seq<Track>, display: seq<Track>, audio: seq<Track>)
    requires forall t :: t in user ==> t.kind == Video
    requires forall t :: t in display ==> t.kind == Video
    requires forall t :: t in audio ==> t.kind == Audio
    ensures SplitStream(Compose(user, display, Received(audio))) == Split(Tag(user, Motion) + Received(audio), Tag(display, Detail))
  {
    AudioReceived(audio);
    ComposeThenSplit(user, display, Received(audio));
  }

  lemma AudioReceived(audio: seq<Track>)
    requires forall t :: t in audio ==> t.kind == Audio
    ensures forall t :: t in Received(audio) ==> t.kind == Audio
  {
    forall t | t in Received(audio) ensures t.kind == Audio {
      var j :| 0 <= j < |Received(audio)| && Received(audio)[j] == t;
      assert audio[j] in audio;
    }
  }

  lemma LabelledIsSources(user: seq<Track>, display: seq<Track>, audio: seq<Track>, labelled: seq<Track>)
    requires forall t :: t in user ==> t.kind == Video
    requires forall t :: t in display ==> t.kind == Video
    requires forall t :: t in audio ==> t.kind == Audio
    requires VideoRestored(Compose(user, display, audio), labelled)
    ensures labelled == Compose(user, display, Received(audio))
  {
    var local := Compose(user, display, audio);
    var tu, td, ra := Tag(user, Motion), Tag(display, Detail), Received(audio);
    assert local == tu + td + audio;
    var n := |tu| + |td|;
    forall i | 0 <= i < |local| ensures labelled[i] == (tu + td + ra)[i] {
      if i < |tu| {
        assert local[i].kind == user[i].kind && user[i] in user;
      } else if i < n {
        assert local[i].kind == display[i - |tu|].kind && display[i - |tu|] in display;
      } else {
        assert local[i] == audio[i - n] && audio[i - n] in audio;
      }
    }
    assert Compose(user, display, ra) == tu + td + ra;
  }

  /** `labelled` is `local` as received, with every video track's hint restored. */
  predicate VideoRestored(local: seq<Track>, labelled: seq<Track>)
  {
    |labelled| == |local| &&
    forall i :: 0 <= i < |local| ==> labelled[i] == if local[i].kind == Video then local[i] else Received(local)[i]
  }

  /**
   * Answering the remote side's request for the hints of its video tracks and
   * applying the reply restores every video track's hint; audio tracks keep
   * the default hint.
   */
  lemma ReplyRestoresVideoHints(local: seq<Track>)
    requires UniqueIds(local)
    ensures VideoRestored(local, ApplyHints(Received(local), HintReply(Ids(Videos(Received(local))), local)))
  {
    var incoming := Received(local);
    var reply := HintReply(Ids(Videos(incoming)), local);
    var labelled := ApplyHints(incoming, reply);
    forall i | 0 <= i < |local|
      ensures labelled[i] == if local[i].kind == Video then local[i] else incoming[i]
    {
      ReplyAt(local, i);
      assert FirstWith(incoming, i, incoming[i].id) by {
        forall j | 0 <= j < i ensures incoming[j].id != incoming[i].id { assert local[j].id != local[i].id; }
      }
    }
  }

  /** In a stream with unique ids, an id requested as a video id of the received stream names a video track. */
  lemma RequestedIsVideo(local: seq<Track>, i: nat)
    requires UniqueIds(local) && i < |local|
    ensures local[i].id in Ids(Videos(Received(local))) ==> local[i].kind == Video
  {
    var incoming := Received(local);
    var vids := Videos(incoming);
    if local[i].id in Ids(vids) {
      var j :| 0 <= j < |vids| && Ids(vids)[j] == local[i].id;
      assert vids[j] in incoming;
      var k :| 0 <= k < |incoming| && incoming[k] == vids[j];
      assert local[k].id == local[i].id;
      assert k == i;
    }
  }

  lemma ReplyAt(local: seq<Track>, i: nat)
    requires UniqueIds(local) && i < |local|
    ensures
      var reply := HintReply(Ids(Videos(Received(local))), local);
      (local[i].kind == Video ==> local[i].id in reply && reply[local[i].id] == local[i].hint) &&
      (local[i].kind != Video ==> local[i].id !in reply)
  {
    var incoming := Received(local);
    var vids := Videos(incoming);
    var requested := Ids(vids);
    var id := local[i].id;
    if local[i].kind == Video {
      assert IsVideo(incoming[i]);
      assert incoming[i] in vids;
      IdInIds(vids, incoming[i]);
      assert local[i] in local;
      FindUnique(local, i);
    } else {
      RequestedIsVideo(local, i);
    }
  }

  lemma IdInIds(s: seq<Track>, t: Track)
    requires t in s
    ensures t.id in Ids(s)
  {
    var i :| 0 <= i < |s| && s[i] == t;
    assert Ids(s)[i] == t.id;
  }


  /** In a stream with unique ids, `getTrackById` finds the track at its own position. */
  lemma {:induction false} FindUnique(s: seq<Track>, i: nat)
    requires UniqueIds(s) && i < |s|
    ensures FindTrack(s, s[i].id) == Some(s[i])
  {
    if i > 0 {
      assert s[0].id != s[i].id;
      assert UniqueIds(s[1..]) by {
        forall a, b | 0 <= a < b < |s| - 1 ensures s[1..][a].id != s[1..][b].id {
          assert s[a + 1].id != s[b + 1].id;
        }
      }
      FindUnique(s[1..], i - 1);
    }
  }
}
