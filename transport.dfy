/**
 * One transport link (an `RTCPeerConnection` seen from the negotiation engine).
 * The engine behind it is foreign: session descriptions and candidates are opaque
 * values, and each asynchronous chain the engine runs is one atomic step whose
 * outcome is handed in as a `Step`.
 */
module Transport {
  import opened Media

  datatype SdpType = Offer | Answer | Pranswer | Rollback

  /** A session description (`RTCSessionDescription`): its type and its opaque text. */
  datatype Desc = Desc(kind: SdpType, sdp: string)

  /**
   * The outcome of one promise chain run by the foreign engine: whether it
   * resolved, and the description it produced (`createOffer`/`createAnswer`).
   */
  datatype Step = Step(ok: bool, sdp: string)

  /** What the negotiation engine can observe of a link. */
  datatype LinkState = LinkState(
    closed: bool,
    senders: seq<Track>,
    localDesc: Option<Desc>,
    remoteDesc: Option<Desc>,
    candidates: seq<string>,
    offersCreated: nat)

  /** A link right after `new RTCPeerConnection(...)`. */
  const FreshLink := LinkState(false, [], None, None, [], 0)

  /** `createOffer` then `setLocalDescription(offer)` resolved. */
  function Offered(l: LinkState, sdp: string): (r: LinkState)
    ensures r.localDesc == Some(Desc(Offer, sdp)) && r.offersCreated == l.offersCreated + 1
    ensures r.(localDesc := l.localDesc, offersCreated := l.offersCreated) == l
  {
    l.(localDesc := Some(Desc(Offer, sdp)), offersCreated := l.offersCreated + 1)
  }

  /** `setRemoteDescription(offer)`, `createAnswer`, `setLocalDescription(answer)` resolved. */
  function Answered(l: LinkState, offer: Desc, sdp: string): (r: LinkState)
    ensures r.remoteDesc == Some(offer) && r.localDesc == Some(Desc(Answer, sdp))
    ensures r.(localDesc := l.localDesc, remoteDesc := l.remoteDesc) == l
  {
    l.(remoteDesc := Some(offer), localDesc := Some(Desc(Answer, sdp)))
  }

  /** A link renegotiated with `stream`: its senders are replaced by `stream`, then it offers if the chain resolved. */
  function Negotiated(l: LinkState, stream: seq<Track>, step: Step): (r: LinkState)
    ensures r.senders == stream
    ensures r.offersCreated == l.offersCreated + (if step.ok then 1 else 0)
    ensures r.localDesc == if step.ok then Some(Desc(Offer, step.sdp)) else l.localDesc
    ensures r.(senders := l.senders, offersCreated := l.offersCreated, localDesc := l.localDesc) == l
  {
    if step.ok then Offered(l.(senders := stream), step.sdp) else l.(senders := stream)
  }

  class Link {
    var closed: bool
    var senders: seq<Track>
    var localDesc: Option<Desc>
    var remoteDesc: Option<Desc>
    var candidates: seq<string>
    var offersCreated: nat

    function State(): LinkState
      reads this
    {
      LinkState(closed, senders, localDesc, remoteDesc, candidates, offersCreated)
    }

    constructor ()
      ensures State() == FreshLink
    {
      closed, senders, localDesc, remoteDesc, candidates, offersCreated := false, [], None, None, [], 0;
    }

    /**
     * `getSenders().forEach(removeTrack)` followed by `tracks.forEach(addTrack)`:
     * afterwards the link sends exactly `tracks`, in order.
     */
    method ReplaceSenders(tracks: seq<Track>)
      modifies this
      ensures State() == old(State()).(senders := tracks)
    {
      while senders != []
        invariant State() == old(State()).(senders := senders)
        decreases |senders|
      {
        senders := senders[1..];
      }
      var i := 0;
      while i < |tracks|
        invariant 0 <= i <= |tracks|
        invariant State() == old(State()).(senders := tracks[..i])
      {
        senders := senders + [tracks[i]];
        i := i + 1;
      }
    }

    method MakeOffer(sdp: string)
      modifies this
      ensures State() == Offered(old(State()), sdp)
    {
      localDesc := Some(Desc(Offer, sdp));
      offersCreated := offersCreated + 1;
    }

    method ApplyRemote(d: Desc)
      modifies this
      ensures State() == old(State()).(remoteDesc := Some(d))
    {
      remoteDesc := Some(d);
    }

    method AddCandidate(c: string)
      modifies this
      ensures State() == old(State()).(candidates := old(candidates) + [c])
    {
      candidates := candidates + [c];
    }

    method Close()
      modifies this
      ensures State() == old(State()).(closed := true)
    {
      closed := true;
    }
  }
}
