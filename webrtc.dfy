/**
 * The call-session controller of the `useWebRTC(userId, receiverId)` hook:
 * its React state, the peer table and the current call id, the six socket
 * handlers, the user intents, and the callbacks it installs on each peer
 * connection. Socket emits are appended to `outbox`.
 */
module UseWebRtc {
  import opened Common
  import opened Platform

  // The status strings the hook writes into `callStatus`.
  const StatusCalling := "Calling..."
  const StatusAccepting := "Accepting call..."
  const StatusConnected := "Connected"
  const StatusIncoming := "Incoming call..."
  const StatusRejected := "Call rejected"
  const StatusOffline := "User is offline"
  const StatusConnectionFailed := "Connection failed"
  const StatusMediaFailed := "Failed to access camera/microphone"

  /** Every value `callStatus` can hold: the initial `''` and the eight strings above. */
  const Statuses: set<string> := {"", StatusCalling, StatusAccepting, StatusConnected, StatusIncoming,
                                  StatusRejected, StatusOffline, StatusConnectionFailed, StatusMediaFailed}

  /** Payload of an inbound `incoming-call`, kept whole as `incomingCall`. */
  datatype Invite = Invite(from: UserId, offer: Sdp, callId: Option<CallId>)

  /** Payload of an inbound `call-accepted`. */
  datatype Answer = Answer(from: UserId, answer: Sdp, callId: Option<CallId>)

  /** Outbound socket events, named after the event strings the hook emits; `to` may be undefined. */
  datatype Event =
    | UserCallEvent(to: Option<UserId>, offer: Sdp)                            // 'user-call'
    | CallAcceptedEvent(to: Option<UserId>, answer: Sdp, callId: Option<CallId>) // 'call-accepted'
    | CallRejectedEvent(to: Option<UserId>, callId: Option<CallId>)            // 'call-rejected'
    | EndCallEvent(to: Option<UserId>, callId: Option<CallId>)                 // 'end-call'
    | NegotiationEvent(to: Option<UserId>, candidate: Candidate, callId: Option<CallId>) // 'peer-negotiation-needed'

  /** `RTCPeerConnection.connectionState`. */
  datatype ConnectionState = New | Connecting | Connected | Disconnected | Failed | Closed

  /** The hook's state fields and refs, as one value (everything but the outbox). */
  datatype Session = Session(
    localStream: Option<Stream>,
    remoteStreams: map<UserId, Stream>,
    isCallActive: bool,
    incomingCall: Option<Invite>,
    callStatus: string,
    isMicOn: bool,
    isCameraOn: bool,
    isFullScreen: bool,
    peers: map<UserId, PeerConnection>,
    currentCallId: Option<CallId>)

  /**
   * The state `endCall` leaves behind, whatever it started from: no stream,
   * no remote streams, no peers, no call id, inactive, empty status. The
   * incoming invite and the mic, camera and fullscreen flags are not reset.
   */
  function Ended(s: Session): Session
  {
    s.(localStream := None, remoteStreams := map[], isCallActive := false,
       callStatus := "", peers := map[], currentCallId := None)
  }

  /**
   * The state `startCall` leaves, given the table it ends with: without a
   * receiver nothing changes; when media fails only the status does; otherwise
   * the stream is stored, the call is active and the status is "Calling...".
   */
  function Started(s: Session, receiverId: Option<UserId>, media: Option<Stream>,
                   peers: map<UserId, PeerConnection>): Session
  {
    if !Present(receiverId) then s
    else if media.None? then s.(callStatus := StatusMediaFailed)
    else s.(localStream := media, isCallActive := true, callStatus := StatusCalling, peers := peers)
  }

  /**
   * The state `acceptCall(call)` leaves, given the table it ends with: the call
   * id is recorded in any case; when media fails the status says so and the
   * invite stays; otherwise the stream is stored, the call is active, the
   * invite is cleared and the status is "Connected".
   */
  function Accepted(s: Session, call: Invite, media: Option<Stream>,
                    peers: map<UserId, PeerConnection>): Session
  {
    if media.None? then s.(callStatus := StatusMediaFailed, currentCallId := call.callId)
    else s.(localStream := media, isCallActive := true, incomingCall := None,
            callStatus := StatusConnected, currentCallId := call.callId, peers := peers)
  }

  /** A connection's negotiation after the remote description (if any) and then the local one are applied. */
  function Described(n: Negotiation, remote: Option<Sdp>, local: Sdp): Negotiation
  {
    n.(remoteDescription := if remote.Some? then remote else n.remoteDescription, localDescription := Some(local))
  }

  /** The events `acceptCall(call)` emits for a given media outcome. */
  function AcceptCallEmits(call: Invite, media: Option<Stream>, answer: Sdp): seq<Event>
  {
    if media.Some? then [CallAcceptedEvent(Some(call.from), answer, call.callId)] else []
  }

  /** The events `startCall` emits for a given receiver and media outcome. */
  function StartCallEmits(receiverId: Option<UserId>, media: Option<Stream>, offer: Sdp): seq<Event>
  {
    if Present(receiverId) && media.Some? then [UserCallEvent(receiverId, offer)] else []
  }

  class WebRtcSession {
    const userId: Option<UserId>
    const receiverId: Option<UserId>

    var localStream: Option<Stream>
    var remoteStreams: map<UserId, Stream>
    var isCallActive: bool
    var incomingCall: Option<Invite>
    var callStatus: string
    var isMicOn: bool
    var isCameraOn: bool
    var isFullScreen: bool
    var peers: map<UserId, PeerConnection>   // peerConnectionsRef.current
    var currentCallId: Option<CallId>        // currentCallIdRef.current
    var outbox: seq<Event>                   // what was passed to socket.emit, in order

    /**
     * Every table entry is the open connection created for its own key, a call
     * is only active with a local stream, and the status is one the hook writes.
     */
    ghost predicate Valid()
      reads this, peers.Values
    {
      && (forall k :: k in peers ==> peers[k].peerId == k && !peers[k].closed)
      && (isCallActive ==> localStream.Some?)
      && callStatus in Statuses
    }

    ghost function Snapshot(): Session
      reads this
    {
      Session(localStream, remoteStreams, isCallActive, incomingCall, callStatus,
              isMicOn, isCameraOn, isFullScreen, peers, currentCallId)
    }

    /** The tracks of the current local stream, as a frame. */
    ghost function LocalTracks(): set<Track>
      reads this
    {
      set t | t in TracksOf(localStream)
    }

    /** The connection in the table under `id`, as a frame. */
    ghost function PeerFor(id: Option<UserId>): set<PeerConnection>
      reads this
    {
      if id.Some? && id.value in peers then {peers[id.value]} else {}
    }

    /** `localStream.getAudioTracks()[0]` or `getVideoTracks()[0]`, if there is a stream and such a track. */
    function FirstTrack(kind: Kind): (r: Option<Track>)
      reads this
      ensures r.Some? ==> exists i :: 0 <= i < |TracksOf(localStream)| && TracksOf(localStream)[i] == r.value
                                     && r.value.kind == kind
                                     && forall j :: 0 <= j < i ==> TracksOf(localStream)[j].kind != kind
      ensures r.None? ==> forall i :: 0 <= i < |TracksOf(localStream)| ==> TracksOf(localStream)[i].kind != kind
    {
      var tracks := TracksOf(localStream);
      match FirstOfKind(tracks, kind)
        case None => None
        case Some(i) => Some(tracks[i])
    }

    ghost function TrackFrame(kind: Kind): set<Track>
      reads this
    {
      if FirstTrack(kind).Some? then {FirstTrack(kind).value} else {}
    }

    /**
     * The receiver `r`'s connection once `startCall` has dialled with `offer`:
     * an existing one now also holds the offer as its local description; a new
     * one, under no call id, holds every local track and the offer.
     */
    twostate predicate Dialled(r: UserId, offer: Sdp)
      reads this, peers.Values
    {
      && r in peers
      && (r in old(peers) ==>
            && peers == old(peers)
            && peers[r].State() == old(peers[r].State()).(localDescription := Some(offer)))
      && (r !in old(peers) ==>
            && fresh(peers[r])
            && peers == old(peers)[r := peers[r]]
            && peers[r].callId == None
            && peers[r].State() == Negotiation(TracksOf(localStream), Some(offer), None, []))
    }

    /**
     * The inviter's connection once `acceptCall(call)` has answered: the offer
     * is its remote and the answer its local description, on the existing
     * connection or on a new one that holds every local track under the call id.
     */
    twostate predicate Answered(call: Invite, answer: Sdp)
      reads this, peers.Values
    {
      var f := call.from;
      && f in peers
      && (f in old(peers) ==>
            && peers == old(peers)
            && peers[f].State() == Described(old(peers[f].State()), Some(call.offer), answer))
      && (f !in old(peers) ==>
            && fresh(peers[f])
            && peers == old(peers)[f := peers[f]]
            && peers[f].callId == call.callId
            && peers[f].State() == Described(Negotiation(TracksOf(localStream), None, None, []), Some(call.offer), answer))
    }

    /** The hook's initial state. */
    constructor (userId: Option<UserId>, receiverId: Option<UserId>)
      ensures Valid()
      ensures this.userId == userId && this.receiverId == receiverId
      ensures Snapshot() == Session(None, map[], false, None, "", true, true, false, map[], None)
      ensures outbox == []
    {
      this.userId := userId;
      this.receiverId := receiverId;
      localStream := None;
      remoteStreams := map[];
      isCallActive := false;
      incomingCall := None;
      callStatus := "";
      isMicOn := true;
      isCameraOn := true;
      isFullScreen := false;
      peers := map[];
      currentCallId := None;
      outbox := [];
    }

    /**
     * `startLocalStream`: `media` is what `getUserMedia` yields (None when it throws).
     * Success stores the stream; failure only sets the failure status.
     */
    method StartLocalStream(media: Option<Stream>) returns (stream: Option<Stream>)
      requires Valid()
      modifies this
      ensures Valid()
      ensures stream == media
      ensures media.Some? ==> Snapshot() == old(Snapshot()).(localStream := media)
      ensures media.None? ==> Snapshot() == old(Snapshot()).(callStatus := StatusMediaFailed)
      ensures outbox == old(outbox)
    {
      if media.Some? {
        localStream := media;
      } else {
        callStatus := StatusMediaFailed;
      }
      stream := media;
    }

    /**
     * `createPeerConnection(peerId, callId)`: an existing entry is returned as it
     * is; otherwise a new connection carrying every track of the current local
     * stream is added under `peerId`, and no other entry changes.
     */
    method CreatePeerConnection(peerId: UserId, callId: Option<CallId>) returns (pc: PeerConnection)
      requires Valid()
      modifies this
      ensures Valid()
      ensures peerId in peers && peers[peerId] == pc
      ensures peerId in old(peers) ==> pc == old(peers[peerId]) && Snapshot() == old(Snapshot())
      ensures peerId !in old(peers) ==>
        && fresh(pc)
        && Snapshot() == old(Snapshot()).(peers := old(peers)[peerId := pc])
        && pc.peerId == peerId && pc.callId == callId
        && pc.State() == Negotiation(TracksOf(localStream), None, None, [])
      ensures outbox == old(outbox)
    {
      if peerId in peers {
        return peers[peerId];
      }
      pc := new PeerConnection(peerId, callId);
      var tracks := TracksOf(localStream);
      for i := 0 to |tracks|
        modifies pc
        invariant pc.State() == Negotiation(tracks[..i], None, None, []) && !pc.closed
      {
        pc.AddTrack(tracks[i]);
      }
      assert tracks[..|tracks|] == tracks;
      peers := peers[peerId := pc];
    }

    /**
     * The shared tail of `startCall` and `acceptCall`: get the peer's connection
     * (new or existing), apply the remote description if there is one, then the
     * local one. Only the table and that connection change.
     */
    method Negotiate(peerId: UserId, callId: Option<CallId>, remote: Option<Sdp>, local: Sdp)
      requires Valid()
      modifies this, PeerFor(Some(peerId))
      ensures Valid()
      ensures peerId in peers
      ensures Snapshot() == old(Snapshot()).(peers := peers)
      ensures outbox == old(outbox)
      ensures peerId in old(peers) ==>
        && peers == old(peers)
        && peers[peerId].State() == Described(old(peers[peerId].State()), remote, local)
      ensures peerId !in old(peers) ==>
        && fresh(peers[peerId])
        && peers == old(peers)[peerId := peers[peerId]]
        && peers[peerId].callId == callId
        && peers[peerId].State() == Described(Negotiation(TracksOf(localStream), None, None, []), remote, local)
    {
      var pc := CreatePeerConnection(peerId, callId);
      if remote.Some? {
        pc.SetRemoteDescription(remote.value);
      }
      pc.SetLocalDescription(local);
    }

    /**
     * `startCall()`: without a receiver nothing happens; when media fails the
     * status says so and nothing is sent; otherwise the call is active, the
     * receiver's connection (created with no call id, or the existing one) holds
     * the offer as its local description, and one `user-call` carries it.
     */
    method StartCall(media: Option<Stream>, offer: Sdp)
      requires Valid()
      modifies this, PeerFor(receiverId)
      ensures Valid()
      ensures Snapshot() == Started(old(Snapshot()), receiverId, media, peers)
      ensures outbox == old(outbox) + StartCallEmits(receiverId, media, offer)
      ensures Present(receiverId) && media.Some? ==> Dialled(receiverId.value, offer)
      ensures !(Present(receiverId) && media.Some?) ==> unchanged(PeerFor(receiverId))
    {
      if !Present(receiverId) {
        return;
      }
      callStatus := StatusCalling;
      var stream := StartLocalStream(media);
      if stream.Some? {
        Dial(offer);
      }
    }

    /**
     * What `startCall` does once media is acquired: activate, negotiate with the
     * receiver under no call id, and send the offer in one `user-call`.
     */
    method Dial(offer: Sdp)
      requires Valid() && localStream.Some? && Present(receiverId)
      modifies this, PeerFor(receiverId)
      ensures Valid()
      ensures Snapshot() == old(Snapshot()).(isCallActive := true, peers := peers)
      ensures outbox == old(outbox) + [UserCallEvent(receiverId, offer)]
      ensures Dialled(receiverId.value, offer)
    {
      isCallActive := true;
      Negotiate(receiverId.value, None, None, offer);
      outbox := outbox + [UserCallEvent(receiverId, offer)];
    }

    /**
     * `acceptCall(call)`: the call id is recorded first. When media fails the
     * invite stays in place and nothing is sent. Otherwise the invite is
     * cleared, the call is active, the caller's connection holds the offer as
     * remote and the answer as local description, one `call-accepted` goes to
     * the caller with the call id, and the status ends as "Connected".
     */
    method AcceptCall(call: Invite, media: Option<Stream>, answer: Sdp)
      requires Valid()
      modifies this, PeerFor(Some(call.from))
      ensures Valid()
      ensures Snapshot() == Accepted(old(Snapshot()), call, media, peers)
      ensures outbox == old(outbox) + AcceptCallEmits(call, media, answer)
      ensures media.Some? ==> Answered(call, answer)
      ensures media.None? ==> unchanged(PeerFor(Some(call.from)))
    {
      callStatus := StatusAccepting;
      currentCallId := call.callId;
      var stream := StartLocalStream(media);
      if stream.Some? {
        AnswerInvite(call, answer);
      }
    }

    /**
     * What `acceptCall` does once media is acquired: activate, clear the
     * invite, negotiate with the caller, send `call-accepted`, report "Connected".
     */
    method AnswerInvite(call: Invite, answer: Sdp)
      requires Valid() && localStream.Some?
      modifies this, PeerFor(Some(call.from))
      ensures Valid()
      ensures Snapshot() == old(Snapshot()).(isCallActive := true, incomingCall := None,
                                             callStatus := StatusConnected, peers := peers)
      ensures outbox == old(outbox) + [CallAcceptedEvent(Some(call.from), answer, call.callId)]
      ensures Answered(call, answer)
    {
      isCallActive := true;
      incomingCall := None;
      Negotiate(call.from, call.callId, Some(call.offer), answer);
      outbox := outbox + [CallAcceptedEvent(Some(call.from), answer, call.callId)];
      callStatus := StatusConnected;
    }

    /** `rejectCall(callId)`: one `call-rejected` to the inviter (undefined when there is none); the invite is cleared. */
    method RejectCall(callId: Option<CallId>)
      requires Valid()
      modifies this
      ensures Valid()
      ensures outbox == old(outbox) + [CallRejectedEvent(
                if old(incomingCall).Some? then Some(old(incomingCall).value.from) else None, callId)]
      ensures Snapshot() == old(Snapshot()).(incomingCall := None)
    {
      var to := if incomingCall.Some? then Some(incomingCall.value.from) else None;
      outbox := outbox + [CallRejectedEvent(to, callId)];
      incomingCall := None;
    }

    /**
     * `endCall()`: every local track is stopped, every connection in the table
     * is closed and the table emptied, one `end-call` goes to the receiver with
     * the call id of the call being ended, and the state is `Ended` of the old one.
     */
    method EndCall()
      requires Valid()
      modifies this, peers.Values, LocalTracks()
      ensures Valid()
      ensures Snapshot() == Ended(old(Snapshot()))
      ensures outbox == old(outbox) + [EndCallEvent(receiverId, old(currentCallId))]
      ensures AllClosed(old(peers.Values))
      ensures AllStopped(old(LocalTracks()))
    {
      StopAll(TracksOf(localStream));
      CloseAll(peers.Values);
      ClearCall();
    }

    /** The state setters and the emit of `endCall`; the emit reads the call id before it is cleared. */
    method ClearCall()
      modifies this
      ensures Valid()
      ensures Snapshot() == Ended(old(Snapshot()))
      ensures outbox == old(outbox) + [EndCallEvent(receiverId, old(currentCallId))]
    {
      peers, remoteStreams, outbox := map[], map[], outbox + [EndCallEvent(receiverId, currentCallId)];
      localStream, isCallActive, callStatus, currentCallId := None, false, "", None;
    }

    /**
     * Calling `endCall` a second time leaves the same state as calling it once;
     * only a second `end-call`, now without a call id, is sent.
     */
    method EndCallTwice()
      requires Valid()
      modifies this, peers.Values, LocalTracks()
      ensures Valid()
      ensures Snapshot() == Ended(old(Snapshot()))
      ensures outbox == old(outbox) + [EndCallEvent(receiverId, old(currentCallId)), EndCallEvent(receiverId, None)]
      ensures AllClosed(old(peers.Values))
      ensures AllStopped(old(LocalTracks()))
    {
      EndCall();
      ghost var once := Snapshot();
      EndCall();
      assert Snapshot() == once;
    }

    /**
     * `toggleMic()`: with a stream that has an audio track, that track's
     * `enabled` is negated and `isMicOn` takes the new value; otherwise a no-op.
     */
    method ToggleMic()
      requires Valid()
      modifies this, TrackFrame(Audio)
      ensures Valid()
      ensures outbox == old(outbox)
      ensures old(FirstTrack(Audio)).None? ==> Snapshot() == old(Snapshot())
      ensures old(FirstTrack(Audio)).Some? ==>
        var t := old(FirstTrack(Audio)).value;
        && t.enabled == !old(t.enabled) && t.stopped == old(t.stopped)
        && Snapshot() == old(Snapshot()).(isMicOn := t.enabled)
    {
      var audio := FirstTrack(Audio);
      if audio.Some? {
        var t := audio.value;
        t.enabled := !t.enabled;
        isMicOn := t.enabled;
      }
    }

    /** `toggleCamera()`: the same as `toggleMic`, for the first video track and `isCameraOn`. */
    method ToggleCamera()
      requires Valid()
      modifies this, TrackFrame(Video)
      ensures Valid()
      ensures outbox == old(outbox)
      ensures old(FirstTrack(Video)).None? ==> Snapshot() == old(Snapshot())
      ensures old(FirstTrack(Video)).Some? ==>
        var t := old(FirstTrack(Video)).value;
        && t.enabled == !old(t.enabled) && t.stopped == old(t.stopped)
        && Snapshot() == old(Snapshot()).(isCameraOn := t.enabled)
    {
      var video := FirstTrack(Video);
      if video.Some? {
        var t := video.value;
        t.enabled := !t.enabled;
        isCameraOn := t.enabled;
      }
    }

    /**
     * Toggling the microphone twice gives the track back its old flag and leaves
     * `isMicOn` equal to it, so a state whose flag agreed with the track is restored.
     */
    method ToggleMicTwice()
      requires Valid()
      modifies this, TrackFrame(Audio)
      ensures Valid()
      ensures outbox == old(outbox)
      ensures old(FirstTrack(Audio)).None? ==> Snapshot() == old(Snapshot())
      ensures old(FirstTrack(Audio)).Some? ==>
        var t := old(FirstTrack(Audio)).value;
        && t.enabled == old(t.enabled) && t.stopped == old(t.stopped)
        && Snapshot() == old(Snapshot()).(isMicOn := old(t.enabled))
    {
      ToggleMic();
      ToggleMic();
    }

    /** Toggling the camera twice, likewise. */
    method ToggleCameraTwice()
      requires Valid()
      modifies this, TrackFrame(Video)
      ensures Valid()
      ensures outbox == old(outbox)
      ensures old(FirstTrack(Video)).None? ==> Snapshot() == old(Snapshot())
      ensures old(FirstTrack(Video)).Some? ==>
        var t := old(FirstTrack(Video)).value;
        && t.enabled == old(t.enabled) && t.stopped == old(t.stopped)
        && Snapshot() == old(Snapshot()).(isCameraOn := old(t.enabled))
    {
      ToggleCamera();
      ToggleCamera();
    }

    /** `toggleFullScreen()`: flips `isFullScreen` when the call container exists, else nothing. */
    method ToggleFullScreen(containerExists: bool)
      requires Valid()
      modifies this
      ensures Valid()
      ensures outbox == old(outbox)
      ensures Snapshot() == if containerExists then old(Snapshot()).(isFullScreen := !old(isFullScreen))
                            else old(Snapshot())
    {
      if !containerExists {
        return;
      }
      isFullScreen := !isFullScreen;
    }

    // Socket handlers. They are only registered when `userId` is truthy.

    /** 'incoming-call': the invite overwrites any earlier one (there is no busy check). */
    method OnIncomingCall(data: Invite)
      requires Valid()
      modifies this
      ensures Valid()
      ensures outbox == old(outbox)
      ensures Snapshot() == if Present(userId) then old(Snapshot()).(incomingCall := Some(data), callStatus := StatusIncoming)
                            else old(Snapshot())
    {
      if !Present(userId) {
        return;
      }
      incomingCall := Some(data);
      callStatus := StatusIncoming;
    }

    /**
     * 'call-accepted': the call id and "Connected" are recorded in any case; the
     * answer becomes the remote description only of a connection already in the table.
     */
    method OnCallAccepted(data: Answer)
      requires Valid()
      modifies this, PeerFor(Some(data.from))
      ensures Valid()
      ensures outbox == old(outbox)
      ensures !Present(userId) ==> Snapshot() == old(Snapshot()) && unchanged(PeerFor(Some(data.from)))
      ensures Present(userId) ==>
        Snapshot() == old(Snapshot()).(currentCallId := data.callId, callStatus := StatusConnected)
      ensures Present(userId) && data.from in old(peers) ==>
        peers[data.from].State() == old(peers[data.from].State()).(remoteDescription := Some(data.answer))
    {
      if !Present(userId) {
        return;
      }
      currentCallId := data.callId;
      callStatus := StatusConnected;
      if data.from in peers {
        var pc := peers[data.from];
        pc.SetRemoteDescription(data.answer);
      }
    }

    /** 'call-rejected': "Call rejected", then `endCall`, whose empty status is what remains. */
    method OnCallRejected()
      requires Valid()
      modifies this, peers.Values, LocalTracks()
      ensures Valid()
      ensures !Present(userId) ==>
        Snapshot() == old(Snapshot()) && outbox == old(outbox)
        && unchanged(peers.Values) && unchanged(LocalTracks())
      ensures Present(userId) ==>
        && Snapshot() == Ended(old(Snapshot()))
        && outbox == old(outbox) + [EndCallEvent(receiverId, old(currentCallId))]
        && AllClosed(old(peers.Values))
        && AllStopped(old(LocalTracks()))
    {
      if !Present(userId) {
        return;
      }
      callStatus := StatusRejected;
      EndCall();
    }

    /**
     * 'peer-negotiation-needed' (an inbound ICE candidate): added only to a
     * connection already in the table and only when a candidate is present;
     * one the engine rejects changes nothing. No other state is touched.
     */
    method OnIceCandidate(from: UserId, candidate: Option<Candidate>, accepted: bool)
      requires Valid()
      modifies PeerFor(Some(from))
      ensures Valid()
      ensures Present(userId) && from in peers && candidate.Some? && accepted ==>
        peers[from].State() == old(peers[from].State()).(candidates := old(peers[from].candidates) + [candidate.value])
      ensures !(Present(userId) && from in peers && candidate.Some? && accepted) ==> unchanged(PeerFor(Some(from)))
    {
      if !Present(userId) {
        return;
      }
      if from in peers && candidate.Some? {
        var pc := peers[from];
        pc.AddIceCandidate(candidate.value, accepted);
      }
    }

    /** 'end-call': `endCall`. */
    method OnEndCall()
      requires Valid()
      modifies this, peers.Values, LocalTracks()
      ensures Valid()
      ensures !Present(userId) ==>
        Snapshot() == old(Snapshot()) && outbox == old(outbox)
        && unchanged(peers.Values) && unchanged(LocalTracks())
      ensures Present(userId) ==>
        && Snapshot() == Ended(old(Snapshot()))
        && outbox == old(outbox) + [EndCallEvent(receiverId, old(currentCallId))]
        && AllClosed(old(peers.Values))
        && AllStopped(old(LocalTracks()))
    {
      if !Present(userId) {
        return;
      }
      EndCall();
    }

    /** 'user-offline': "User is offline", then `endCall`, whose empty status is what remains. */
    method OnUserOffline()
      requires Valid()
      modifies this, peers.Values, LocalTracks()
      ensures Valid()
      ensures !Present(userId) ==>
        Snapshot() == old(Snapshot()) && outbox == old(outbox)
        && unchanged(peers.Values) && unchanged(LocalTracks())
      ensures Present(userId) ==>
        && Snapshot() == Ended(old(Snapshot()))
        && outbox == old(outbox) + [EndCallEvent(receiverId, old(currentCallId))]
        && AllClosed(old(peers.Values))
        && AllStopped(old(LocalTracks()))
    {
      if !Present(userId) {
        return;
      }
      callStatus := StatusOffline;
      EndCall();
    }

    // Callbacks installed on each peer connection by `createPeerConnection`.

    /** `onicecandidate`: a gathered candidate goes to the connection's peer with the call id captured at creation. */
    method OnLocalIceCandidate(pc: PeerConnection, candidate: Option<Candidate>)
      requires Valid()
      modifies this
      ensures Valid()
      ensures Snapshot() == old(Snapshot())
      ensures outbox == old(outbox) + if candidate.Some? then [NegotiationEvent(Some(pc.peerId), candidate.value, pc.callId)] else []
    {
      if candidate.Some? {
        outbox := outbox + [NegotiationEvent(Some(pc.peerId), candidate.value, pc.callId)];
      }
    }

    /** `onconnectionstatechange`: "Connected" on connected, "Connection failed" on failed, otherwise nothing. */
    method OnConnectionStateChange(state: ConnectionState)
      requires Valid()
      modifies this
      ensures Valid()
      ensures outbox == old(outbox)
      ensures Snapshot() == match state
        case Connected => old(Snapshot()).(callStatus := StatusConnected)
        case Failed => old(Snapshot()).(callStatus := StatusConnectionFailed)
        case _ => old(Snapshot())
    {
      if state == Connected {
        callStatus := StatusConnected;
      } else if state == Failed {
        callStatus := StatusConnectionFailed;
      }
    }

    /** `ontrack`: the remote stream is stored under the connection's peer id. */
    method OnTrack(pc: PeerConnection, stream: Stream)
      requires Valid()
      modifies this
      ensures Valid()
      ensures outbox == old(outbox)
      ensures Snapshot() == old(Snapshot()).(remoteStreams := old(remoteStreams)[pc.peerId := stream])
    {
      remoteStreams := remoteStreams[pc.peerId := stream];
    }
  }
}
