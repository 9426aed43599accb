/**
 * The mesh engine (`index.js`) as an object whose operations update its
 * fields in place. Each operation is proved to move the engine's view exactly
 * as the state machine in `MeshModel` prescribes.
 */
module MeshEngine {
  import opened Media
  import opened Transport
  import opened Signal
  import opened Streams
  import opened MeshModel
  import Identity

  class Mesh {
    const id: string
    var signaling: Option<nat>
    /** `_participants`: each record with the states of its two links. */
    var dir: map<string, PView>
    /** The enumeration order of `_participants`. */
    var order: seq<string>
    var stream: seq<Track>
    var outbox: seq<Envelope>
    var events: seq<Event>
    var stopped: seq<Track>
    /** The states of the links closed so far, in order. */
    var retired: seq<LinkState>
    /** The `length` of `_participants`, an array. */
    var length: nat

    ghost function View(): MeshView
      reads this
    {
      MeshView(id, signaling, dir, order, stream, outbox, events, stopped, retired, length)
    }

    ghost predicate Valid()
      reads this
    {
      Wf(View())
    }

    constructor (id: string)
      requires Identity.ValidId(id)
      ensures Valid() && Init(id) == Ok(View())
    {
      this.id := id;
      signaling, dir, order, stream, outbox, events, stopped, retired := None, map[], [], [], [], [], [], [];
      length := 0;
    }

    /** `participants`. */
    method GetParticipants() returns (r: seq<Snapshot>)
      requires Valid()
      ensures r == MeshModel.Participants(View())
    {
      var o, d := order, dir;
      r := seq(|o|, i requires 0 <= i < |o| && o[i] in d => var p := d[o[i]]; Snapshot(p.pid, p.user, p.display));
      ghost var spec := MeshModel.Participants(View());
      assert forall i :: 0 <= i < |r| ==> r[i] == spec[i];
    }

    /** `_addParticipant`. */
    method AddParticipant(from: Option<string>)
      requires Valid() && signaling.Some?
      modifies this
      ensures View() == MeshModel.AddParticipant(old(View()), from)
    {
      var key := KeyOf(from);
      if key !in dir && key !in ArrayPrototypeNames && key != "length" {
        dir := dir[key := Newcomer(from)];
        order := order + [key];
        length := GrownLength(length, key);
      }
    }

    /** `_addStreamToParticipant` and `_onNegotiationNeeded` for the participant under `key`. */
    method Push(key: string, step: Step)
      requires key in dir
      modifies this
      ensures View() == MeshModel.Push(old(View()), key, step)
    {
      var p := dir[key];
      var out := p.out.(senders := stream);
      if step.ok {
        out := Offered(out, step.sdp);
        outbox := outbox + [OfferTo(id, p, step.sdp)];
      } else {
        events := events + [Error(ErrNegotiation)];
      }
      dir := dir[key := p.(out := out)];
    }

    /** `_applyContentHint`: the hints are written one id at a time, then the stream is split. */
    method ApplyContentHint(key: string, hints: map<string, string>)
      requires Valid() && key in dir && dir[key].incoming.Some?
      modifies this
      ensures View() == MeshModel.ApplyContentHint(old(View()), key, hints)
    {
      var p := dir[key];
      var labelled := p.incoming.value;
      var pending := hints.Keys;
      ghost var done: set<string> := {};
      assert Restrict(hints, done) == map[];
      while pending != {}
        invariant unchanged(this)
        invariant pending + done == hints.Keys && pending !! done
        invariant labelled == ApplyHints(p.incoming.value, Restrict(hints, done))
        decreases pending
      {
        var k :| k in pending;
        RelabelStep(p.incoming.value, Restrict(hints, done), k, hints[k]);
        assert Restrict(hints, done)[k := hints[k]] == Restrict(hints, done + {k});
        labelled := Relabel(labelled, k, hints[k]);
        pending := pending - {k};
        done := done + {k};
      }
      assert Restrict(hints, done) == hints;
      var split := SplitStream(labelled);
      dir := dir[key := p.(incoming := Some(labelled), user := Some(split.user), display := Some(split.display))];
      events := events + [ParticipantsChanged];
    }

    /** A link of the participant under `key` changed state. */
    method OnStateChange(key: string, which: string, value: string)
      requires Valid()
      modifies this
      ensures View() == MeshModel.OnStateChange(old(View()), key, which, value)
    {
      if key in dir {
        events := events + [StateChanged(dir[key].pid, which, value)];
        if which == "connectionState" && value == "disconnected" {
          Depart(key);
          events := events + [ParticipantsChanged];
        }
      }
    }

    /** `_onICECandidate`. */
    method OnIceCandidate(key: string, candidate: Option<string>)
      modifies this
      ensures View() == MeshModel.OnIceCandidate(old(View()), key, candidate)
    {
      if key in dir && candidate.Some? {
        outbox := outbox + [MeshEnv("cdt", id, dir[key].pid, Candidate(candidate.value))];
      }
    }

    /** `_onTrack`. */
    method OnTrack(key: string, streams: seq<seq<Track>>)
      requires Valid()
      modifies this
      ensures View() == MeshModel.OnTrack(old(View()), key, streams)
    {
      if key in dir && streams != [] {
        var s := streams[0];
        dir := dir[key := dir[key].(incoming := Some(s))];
        var vids := Ids(Videos(s));
        if vids != [] {
          outbox := outbox + [MeshEnv("needcontenthint", id, dir[key].pid, TrackIds(vids))];
        } else {
          ApplyContentHint(key, map[]);
        }
      }
    }

    /** `hello`. */
    method OnHello(from: Option<string>, push: Step) returns (outcome: Outcome)
      requires Valid() && signaling.Some?
      modifies this
      ensures (View(), outcome) == MeshModel.OnHello(old(View()), from, push)
    {
      AddParticipant(from);
      if KeyOf(from) !in dir {
        return Thrown;
      }
      Push(KeyOf(from), push);
      outcome := Handled;
    }

    /** `needcontenthint`: the reply is folded over the requested ids. */
    method OnNeedContentHint(e: Envelope) returns (outcome: Outcome)
      modifies this
      ensures (View(), outcome) == MeshModel.OnNeedContentHint(old(View()), e)
    {
      if Strings(e.data).None? {
        return Thrown;
      }
      var ids := Strings(e.data).value;
      var acc: map<string, string> := map[];
      var i := 0;
      while i < |ids|
        invariant 0 <= i <= |ids|
        invariant acc == HintReply(ids[..i], stream)
        invariant unchanged(this)
      {
        HintReplyStep(ids, i, stream);
        var track := FindTrack(stream, ids[i]);
        if track.Some? {
          acc := acc[ids[i] := track.value.hint];
        }
        i := i + 1;
      }
      assert ids[..|ids|] == ids;
      outbox := outbox + [MeshEnv("contenthint", id, e.from, Hints(acc))];
      outcome := Handled;
    }

    /** `contenthint`. */
    method OnContentHint(e: Envelope) returns (outcome: Outcome)
      requires Valid()
      modifies this
      ensures (View(), outcome) == MeshModel.OnContentHint(old(View()), e)
    {
      var key := KeyOf(e.from);
      if key in dir && dir[key].incoming.Some? {
        ApplyContentHint(key, HintsOf(e.data));
        outcome := Handled;
      } else {
        outcome := Thrown;
      }
    }

    /** `sdp`. */
    method OnSdp(e: Envelope, push: Step, route: Step) returns (outcome: Outcome)
      requires Valid() && signaling.Some?
      modifies this
      ensures (View(), outcome) == MeshModel.OnSdp(old(View()), e, push, route)
    {
      if !e.data.Session? {
        return Thrown;
      }
      var key := KeyOf(e.from);
      var d := e.data.desc;
      if key !in dir && (key in ArrayPrototypeNames || key == "length") {
        var truthy := key in ArrayPrototypeNames || length > 0;
        return if d.kind == Offer || d.kind == Answer || !truthy then Thrown else Handled;
      }
      if key !in dir {
        var _ := OnHello(e.from, push);
      }
      match d.kind {
        case Offer => AnswerOffer(key, d, route);
        case Answer => ApplyAnswer(key, d, route);
        case _ =>
      }
      outcome := Handled;
    }

    /** A received offer, answered on the inbound link. */
    method AnswerOffer(key: string, d: Desc, route: Step)
      requires key in dir
      modifies this
      ensures View() == MeshModel.AnswerOffer(old(View()), key, d, route)
    {
      var p := dir[key];
      if route.ok {
        dir := dir[key := p.(inn := Answered(p.inn, d, route.sdp))];
        outbox := outbox + [MeshEnv("sdp", id, p.pid, Session(Desc(Answer, route.sdp)))];
      } else {
        events := events + [Error(ErrAnswerOffer)];
      }
    }

    /** A received answer, applied to the outbound link. */
    method ApplyAnswer(key: string, d: Desc, route: Step)
      requires key in dir
      modifies this
      ensures View() == MeshModel.ApplyAnswer(old(View()), key, d, route)
    {
      if route.ok {
        var p := dir[key];
        dir := dir[key := p.(out := p.out.(remoteDesc := Some(d)))];
      } else {
        events := events + [Error(ErrApplyAnswer)];
      }
    }

    /** `cdt`. */
    method OnCdt(e: Envelope, route: Step) returns (outcome: Outcome)
      requires Valid()
      modifies this
      ensures (View(), outcome) == MeshModel.OnCdt(old(View()), e, route)
    {
      var key := KeyOf(e.from);
      if !e.data.Candidate? || key !in dir {
        return Thrown;
      }
      if route.ok {
        var p := dir[key];
        dir := dir[key := p.(out := p.out.(candidates := p.out.candidates + [e.data.cdt]))];
      } else {
        events := events + [Error(ErrAddCandidate)];
      }
      outcome := Handled;
    }

    /** `_onSignal`, the listener on the attached signaling object. */
    method OnSignal(e: Envelope, push: Step, route: Step) returns (outcome: Outcome)
      requires Valid()
      modifies this
      ensures Valid()
      ensures (View(), outcome) == MeshModel.OnSignal(old(View()), e, push, route)
    {
      if signaling.None? || Filtered(id, e) {
        outcome := Ignored;
      } else if e.word == "hello" {
        outcome := OnHello(e.from, push);
      } else if e.word == "needcontenthint" {
        outcome := OnNeedContentHint(e);
      } else if e.word == "contenthint" {
        outcome := OnContentHint(e);
      } else if e.word == "sdp" {
        outcome := OnSdp(e, push, route);
      } else if e.word == "cdt" {
        outcome := OnCdt(e, route);
      } else {
        outcome := Ignored;
      }
    }

    /** `Object.values(_participants).forEach(_addStreamToParticipant)`. */
    method PushEach(steps: string -> Step)
      requires Valid()
      modifies this
      ensures View() == PushAll(old(View()), old(order), steps)
    {
      ghost var w := View();
      var i := 0;
      while i < |order|
        invariant 0 <= i <= |order| && order == w.order
        invariant Distinct(order[..i])
        invariant View() == PushAll(w, order[..i], steps)
      {
        DistinctPrefix(order, i + 1);
        assert order[..i + 1][..i] == order[..i];
        Push(order[i], steps(order[i]));
        i := i + 1;
      }
      assert order[..|order|] == order;
    }

    /**
     * `setStreamConfiguration` once capture resolved: the composed stream is
     * installed, pushed to every participant in directory order, and the
     * previous stream's tracks are stopped. The new stream is returned.
     */
    method SetStreamConfiguration(user: seq<Track>, display: seq<Track>, audio: seq<Track>, steps: string -> Step)
      returns (s: seq<Track>)
      requires Valid()
      modifies this
      ensures View() == MeshModel.SetStreamConfiguration(old(View()), user, display, audio, steps)
      ensures s == stream
    {
      var previous := stream;
      stream := Compose(user, display, audio);
      PushEach(steps);
      stopped := stopped + previous;
      s := stream;
    }

    /** A participant departs: the tracks of its streams are stopped, its links closed and its record deleted. */
    method Depart(key: string)
      requires Valid() && key in dir
      modifies this
      ensures Valid()
      ensures View() == Drop(old(View()), key)
    {
      var p := dir[key];
      stopped := stopped + Held(p);
      retired := retired + [p.out.(closed := true), p.inn.(closed := true)];
      dir := dir - {key};
      order := Without(order, key);
    }

    /** The teardown loop of `setSignaling`: participants depart in directory order. */
    method Teardown()
      requires Valid()
      modifies this
      ensures View() == TeardownAll(old(View()))
    {
      ghost var v0 := View();
      while order != []
        invariant Valid()
        invariant TeardownAll(View()) == TeardownAll(v0)
        decreases |order|
      {
        ghost var prev := View();
        Depart(order[0]);
        assert TeardownAll(prev) == TeardownAll(View());
      }
      assert dir.Keys == {};
    }

    /**
     * `setSignaling`: a previous signaling object is detached and every
     * participant torn down, with participants-changed dispatched on the
     * engine; then the new one (if any) is attached and greeted.
     */
    method SetSignaling(sig: Option<nat>)
      requires Valid()
      modifies this
      ensures View() == MeshModel.SetSignaling(old(View()), sig)
    {
      if signaling.Some? {
        Teardown();
        events := events + [ParticipantsChanged];
      }
      signaling := sig;
      if sig.Some? {
        outbox := outbox + [Hello(id)];
      }
    }
  }

  /** `new VieroWebRTCVideoChat(id)`: an engine for a valid id, error 596850 for any other. */
  method New(id: string) returns (r: Result<Mesh>)
    ensures r.Err? <==> Init(id).Err?
    ensures r.Err? ==> r.code == Identity.ErrInvalidId
    ensures r.Ok? ==> fresh(r.value) && r.value.Valid() && Init(id) == Ok(r.value.View())
  {
    if Identity.ValidId(id) {
      var m := new Mesh(id);
      r := Ok(m);
    } else {
      r := Err(Identity.ErrInvalidId);
    }
  }
}
