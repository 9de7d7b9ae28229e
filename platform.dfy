/**
 * The browser objects the call hook drives: media tracks (`MediaStreamTrack`),
 * media streams (`MediaStream`) and peer connections (`RTCPeerConnection`).
 * Session descriptions and ICE candidates are opaque strings; what the
 * browser's engine does with them is not modelled.
 */
module Platform {
  import opened Common

  type CallId = string
  type Sdp = string
  type Candidate = string

  datatype Kind = Audio | Video

  /** A capture track: the hook flips `enabled` to mute and calls `stop()` to release the device. */
  class Track {
    const id: string
    const kind: Kind
    var enabled: bool
    var stopped: bool

    /** A freshly captured track is live and enabled. */
    constructor (id: string, kind: Kind)
      ensures this.id == id && this.kind == kind
      ensures enabled && !stopped
    {
      this.id := id;
      this.kind := kind;
      enabled := true;
      stopped := false;
    }

    /** `track.stop()`: ends capture; the enabled flag is left as it was. */
    method Stop()
      modifies this
      ensures stopped && enabled == old(enabled)
    {
      stopped := true;
    }
  }

  /** A local or remote stream: its id and its tracks in `getTracks()` order. */
  datatype Stream = Stream(id: string, tracks: seq<Track>)

  /** The tracks of a possibly absent stream (`localStream?.getTracks() ?? []`). */
  function TracksOf(s: Option<Stream>): seq<Track>
  {
    if s.Some? then s.value.tracks else []
  }

  /**
   * The position of `getAudioTracks()[0]` (kind Audio) or `getVideoTracks()[0]`
   * (kind Video) in `tracks`: the first track of that kind, if there is one.
   */
  function FirstOfKind(tracks: seq<Track>, kind: Kind): (r: Option<nat>)
    ensures r.Some? ==> r.value < |tracks| && tracks[r.value].kind == kind
    ensures r.Some? ==> forall j :: 0 <= j < r.value ==> tracks[j].kind != kind
    ensures r.None? ==> forall j :: 0 <= j < |tracks| ==> tracks[j].kind != kind
  {
    if tracks == [] then None
    else if tracks[0].kind == kind then Some(0)
    else match FirstOfKind(tracks[1..], kind)
      case None => None
      case Some(i) => Some(i + 1)
  }

  /** Every track of `tracks` is now stopped, and its enabled flag is what it was. */
  twostate predicate AllStopped(tracks: set<Track>)
    reads tracks
  {
    forall t :: t in tracks ==> t.stopped && t.enabled == old(t.enabled)
  }

  /** `localStream.getTracks().forEach((track) => track.stop())`. */
  method StopAll(tracks: seq<Track>)
    modifies set t | t in tracks
    ensures forall t :: t in tracks ==> t.stopped && t.enabled == old(t.enabled)
  {
    for i := 0 to |tracks|
      invariant forall j :: 0 <= j < i ==> tracks[j].stopped
      invariant forall t :: t in tracks ==> t.enabled == old(t.enabled)
    {
      tracks[i].Stop();
    }
  }

  /** What a peer connection has accumulated in negotiation, apart from being closed. */
  datatype Negotiation = Negotiation(
    senders: seq<Track>,
    localDescription: Option<Sdp>,
    remoteDescription: Option<Sdp>,
    candidates: seq<Candidate>)

  /**
   * An `RTCPeerConnection` as the hook sees it. `peerId` and `callId` are the
   * values its `onicecandidate` and `ontrack` callbacks captured when it was created.
   */
  class PeerConnection {
    const peerId: UserId
    const callId: Option<CallId>
    var senders: seq<Track>
    var localDescription: Option<Sdp>
    var remoteDescription: Option<Sdp>
    var candidates: seq<Candidate>
    var closed: bool

    ghost function State(): Negotiation
      reads this
    {
      Negotiation(senders, localDescription, remoteDescription, candidates)
    }

    /** `new RTCPeerConnection(config)`: nothing attached, nothing negotiated, open. */
    constructor (peerId: UserId, callId: Option<CallId>)
      ensures this.peerId == peerId && this.callId == callId
      ensures State() == Negotiation([], None, None, []) && !closed
    {
      this.peerId := peerId;
      this.callId := callId;
      senders := [];
      localDescription := None;
      remoteDescription := None;
      candidates := [];
      closed := false;
    }

    /** `addTrack(track, stream)`: one more sender, at the end. */
    method AddTrack(t: Track)
      modifies this
      ensures State() == old(State()).(senders := old(senders) + [t])
      ensures closed == old(closed)
    {
      senders := senders + [t];
    }

    /** `setLocalDescription(d)`, with `d` the engine's offer or answer. */
    method SetLocalDescription(d: Sdp)
      modifies this
      ensures State() == old(State()).(localDescription := Some(d))
      ensures closed == old(closed)
    {
      localDescription := Some(d);
    }

    /** `setRemoteDescription(new RTCSessionDescription(d))`. */
    method SetRemoteDescription(d: Sdp)
      modifies this
      ensures State() == old(State()).(remoteDescription := Some(d))
      ensures closed == old(closed)
    {
      remoteDescription := Some(d);
    }

    /**
     * `addIceCandidate(new RTCIceCandidate(c))`; `accepted` is the engine's verdict.
     * A rejected candidate raises, which the caller catches, so nothing changes.
     */
    method AddIceCandidate(c: Candidate, accepted: bool)
      modifies this
      ensures accepted ==> State() == old(State()).(candidates := old(candidates) + [c]) && closed == old(closed)
      ensures !accepted ==> unchanged(this)
    {
      if accepted {
        candidates := candidates + [c];
      }
    }

    /** `close()`: the connection is closed; what it negotiated stays as it was. */
    method Close()
      modifies this
      ensures closed && State() == old(State())
    {
      closed := true;
    }
  }

  /** Every connection of `pcs` is now closed, and what it negotiated is what it was. */
  twostate predicate AllClosed(pcs: set<PeerConnection>)
    reads pcs
  {
    forall p :: p in pcs ==> p.closed && p.State() == old(p.State())
  }

  /** `Object.values(peerConnectionsRef.current).forEach((pc) => pc.close())`, in no particular order. */
  method CloseAll(pcs: set<PeerConnection>)
    modifies pcs
    ensures AllClosed(pcs)
  {
    var open := pcs;
    while open != {}
      invariant open <= pcs
      invariant forall p :: p in pcs && p !in open ==> p.closed
      invariant forall p :: p in pcs ==> p.State() == old(p.State())
      decreases open
    {
      var p :| p in open;
      p.Close();
      open := open - {p};
    }
  }
}
