/** The multi-configuration example's page state, updated in place by its handlers. */
module MultiCfg {
  import opened Media
  import opened Signal
  import opened StreamKey
  import opened MultiCfgModel

  class Roster {
    /** `state.id`. */
    const self: string
    /** `state.currentStreamStruct.intents`. */
    var current: Option<Payload>
    /** `state.streams`. */
    var streams: map<string, map<string, Entry>>
    var handlers: seq<Pending>
    var outbox: seq<Envelope>
    var errors: nat

    ghost function View(): CfgView
      reads this
    {
      CfgView(self, current, streams, handlers, outbox, errors)
    }

    constructor (self: string)
      ensures View() == CfgView(self, None, map[], [], [], 0)
    {
      this.self := self;
      current, streams, handlers, outbox, errors := None, map[], [], [], 0;
    }

    /** A configuration button's `state.currentStreamStruct = struct`: its intents become the answer. */
    method Choose(intents: Payload)
      modifies this
      ensures View() == old(View()).(current := Some(intents))
    {
      current := Some(intents);
    }

    /** `onSignal`. */
    method OnSignal(e: Envelope) returns (outcome: Outcome)
      modifies this
      ensures (View(), outcome) == MultiCfgModel.OnSignal(old(View()), e)
    {
      if e.to != Some(self) || e.word != WordNeedIntents {
        return Ignored;
      }
      if current.None? {
        return Thrown;
      }
      outbox := outbox + [Envelope(WordIntents, Some(self), e.from, None, current.value, true)];
      outcome := Handled;
    }

    /** The template of `renderParticipants` for participant `pid`. */
    method Render(pid: string, tracks: seq<Track>)
      requires Wf(View())
      modifies this
      ensures View() == MultiCfgModel.Render(old(View()), pid, tracks)
    {
      var key := StreamId(tracks);
      if pid in streams && key in streams[pid] {
        return;
      }
      streams := streams[pid := map[]];
      handlers := handlers + [Pending(pid, key, tracks)];
      outbox := outbox + [NeedIntents(self, pid)];
    }

    /** `renderParticipants`. */
    method RenderAll(ps: seq<Participant>)
      requires Wf(View())
      modifies this
      ensures View() == MultiCfgModel.RenderAll(old(View()), ps)
    {
      ghost var v0 := View();
      var i := 0;
      while i < |ps|
        invariant 0 <= i <= |ps|
        invariant View() == MultiCfgModel.RenderAll(v0, ps[..i])
      {
        RenderAllStep(v0, ps, i);
        Render(ps[i].id, ps[i].tracks);
        i := i + 1;
      }
      assert ps[..|ps|] == ps;
    }

    /** One handler's turn at a signal; `kept` collects the handlers that stay registered. */
    method Turn(h: Pending, e: Envelope, mounted: set<string>, kept: seq<Pending>) returns (kept': seq<Pending>)
      requires h.pid in streams
      modifies this
      ensures Dispatched(streams, kept', errors) == Handle(self, e, mounted, Dispatched(old(streams), kept, old(errors)), h)
      ensures current == old(current) && outbox == old(outbox) && handlers == old(handlers)
    {
      kept' := kept;
      if !Matches(self, e, h) {
        kept' := kept + [h];
      } else if h.pid in mounted {
        if e.data.NoData? && h.tracks != [] {
          errors := errors + 1;
        } else {
          streams := streams[h.pid := streams[h.pid][h.streamId := Split(h.tracks, e.data)]];
        }
      }
    }

    /**
     * A signal reaches the registered intents handlers in registration order;
     * each one that matches unregisters itself (`removeEventListener`).
     */
    method Deliver(e: Envelope, mounted: set<string>)
      requires Wf(View())
      modifies this
      ensures View() == MultiCfgModel.Deliver(old(View()), e, mounted)
    {
      var hs := handlers;
      ghost var d0 := Dispatched(streams, [], errors);
      var kept := [];
      var i := 0;
      while i < |hs|
        invariant 0 <= i <= |hs| && handlers == hs == old(handlers)
        invariant current == old(current) && outbox == old(outbox)
        invariant Dispatched(streams, kept, errors) == HandleAll(self, e, mounted, d0, hs[..i])
        invariant streams.Keys == d0.streams.Keys
      {
        HandleAllStep(self, e, mounted, d0, hs, i);
        kept := Turn(hs[i], e, mounted, kept);
        i := i + 1;
      }
      assert hs[..|hs|] == hs;
      handlers := kept;
    }
  }
}
