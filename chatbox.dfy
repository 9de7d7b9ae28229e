/**
 * The chat page: its message list and the transforms applied to it (the
 * optimistic send, the filtered and sorted receive, the sorted fetch), and
 * the buttons through which the page drives the call session.
 */
module ChatPage {
  import opened Common
  import opened Platform
  import opened UseWebRtc

  /** `_id`: `Date.now()` (a number) for a temporary message, a server key (a string) otherwise. */
  datatype MessageId = TempId(stamp: nat) | StoredId(key: string)

  datatype MessageType = TextMessage | ImageMessage

  /** A chosen image file, known by name. */
  type ImageFile = string

  /** A message; `createdAt` is its timestamp in milliseconds. */
  datatype Message = Message(
    id: MessageId,
    sender: UserId,
    receiver: UserId,
    text: string,
    messageType: MessageType,
    mediaUrl: Option<string>,
    createdAt: int)

  const SendFailed := "Failed to send message."
  const LoadFailed := "Failed to load messages."

  // ---------------------------------------------------------------------------
  // The optimistic update: replace the temporary entry, or remove it

  /** `prev.map((msg) => (msg._id === id ? stored : msg))`. */
  function ReplaceById(ms: seq<Message>, id: MessageId, stored: Message): (r: seq<Message>)
    ensures |r| == |ms|
    ensures forall i :: 0 <= i < |ms| ==> r[i] == if ms[i].id == id then stored else ms[i]
  {
    if ms == [] then []
    else [if ms[0].id == id then stored else ms[0]] + ReplaceById(ms[1..], id, stored)
  }

  /** `a` is `b` with some entries left out and the rest in their order. */
  predicate IsSubsequence(a: seq<Message>, b: seq<Message>)
    decreases |b|
  {
    if a == [] then true
    else if b == [] then false
    else if a[0] == b[0] then IsSubsequence(a[1..], b[1..])
    else IsSubsequence(a, b[1..])
  }

  /**
   * `prev.filter((msg) => msg._id !== id)`: no entry with that id is left,
   * every other entry is kept as often as it occurred, in its order.
   */
  function RemoveById(ms: seq<Message>, id: MessageId): (r: seq<Message>)
    ensures forall i :: 0 <= i < |r| ==> r[i].id != id
    ensures forall m: Message :: m.id != id ==> multiset(r)[m] == multiset(ms)[m]
    ensures IsSubsequence(r, ms)
  {
    if ms == [] then []
    else
      var rest := RemoveById(ms[1..], id);
      assert ms == [ms[0]] + ms[1..];
      if ms[0].id == id then rest
      else
        assert ([ms[0]] + rest)[1..] == rest;
        [ms[0]] + rest
  }

  /** Removing the temporary entry from a list it was appended to gives the list back. */
  lemma {:induction false} RemoveUndoesAppend(ms: seq<Message>, temp: Message)
    requires forall i :: 0 <= i < |ms| ==> ms[i].id != temp.id
    ensures RemoveById(ms + [temp], temp.id) == ms
  {
    if ms != [] {
      assert (ms + [temp])[1..] == ms[1..] + [temp];
      RemoveUndoesAppend(ms[1..], temp);
    }
  }

  /** Replacing the temporary entry of a list it was appended to puts the stored message in its place. */
  lemma {:induction false} ReplaceCompletesAppend(ms: seq<Message>, temp: Message, stored: Message)
    requires forall i :: 0 <= i < |ms| ==> ms[i].id != temp.id
    ensures ReplaceById(ms + [temp], temp.id, stored) == ms + [stored]
  {
    var r := ReplaceById(ms + [temp], temp.id, stored);
    forall i | 0 <= i < |r|
      ensures r[i] == (ms + [stored])[i]
    {
      if i < |ms| {
        assert (ms + [temp])[i] == ms[i];
      }
    }
  }

  // ---------------------------------------------------------------------------
  // Sorting by `createdAt`

  predicate SortedByTime(ms: seq<Message>)
  {
    forall i, j :: 0 <= i < j < |ms| ==> ms[i].createdAt <= ms[j].createdAt
  }

  /** Appending a message no earlier than every entry keeps a list in time order. */
  lemma AppendLatest(ms: seq<Message>, m: Message)
    requires SortedByTime(ms)
    requires forall i :: 0 <= i < |ms| ==> ms[i].createdAt <= m.createdAt
    ensures SortedByTime(ms + [m])
  {
  }

  /** A bound on every entry of `b` and on `m` bounds every entry of a permutation of `b + [m]`. */
  lemma BoundedPermutation(a: seq<Message>, b: seq<Message>, m: Message, bound: int)
    requires multiset(a) == multiset(b) + multiset{m}
    requires forall i :: 0 <= i < |b| ==> b[i].createdAt <= bound
    requires m.createdAt <= bound
    ensures forall i :: 0 <= i < |a| ==> a[i].createdAt <= bound
  {
    forall i | 0 <= i < |a|
      ensures a[i].createdAt <= bound
    {
      assert a[i] in multiset(a);
      if a[i] != m {
        assert a[i] in multiset(b);
        var k :| 0 <= k < |b| && b[k] == a[i];
      }
    }
  }

  /**
   * Insert `m` into a sorted list after every entry that is not later than it,
   * which is where a stable sort of `sorted + [m]` puts it.
   */
  function InsertByTime(sorted: seq<Message>, m: Message): (r: seq<Message>)
    requires SortedByTime(sorted)
    ensures SortedByTime(r)
    ensures multiset(r) == multiset(sorted) + multiset{m}
  {
    if sorted == [] then [m]
    else
      var last := sorted[|sorted| - 1];
      var init := sorted[..|sorted| - 1];
      assert sorted == init + [last];
      if last.createdAt <= m.createdAt then
        AppendLatest(sorted, m);
        sorted + [m]
      else
        var r' := InsertByTime(init, m);
        BoundedPermutation(r', init, m, last.createdAt);
        AppendLatest(r', last);
        r' + [last]
  }

  /** `ms.sort((a, b) => new Date(a.createdAt) - new Date(b.createdAt))`: a stable insertion sort. */
  function SortByTime(ms: seq<Message>): (r: seq<Message>)
    ensures SortedByTime(r)
    ensures multiset(r) == multiset(ms)
  {
    if ms == [] then []
    else
      assert ms == ms[..|ms| - 1] + [ms[|ms| - 1]];
      InsertByTime(SortByTime(ms[..|ms| - 1]), ms[|ms| - 1])
  }

  /** A list that is already in time order is left exactly as it is. */
  lemma {:induction false} SortKeepsSorted(ms: seq<Message>)
    requires SortedByTime(ms)
    ensures SortByTime(ms) == ms
  {
    if ms != [] {
      var init, last := ms[..|ms| - 1], ms[|ms| - 1];
      assert ms == init + [last];
      assert SortedByTime(init);
      SortKeepsSorted(init);
      if init != [] {
        assert init[|init| - 1] == ms[|ms| - 2];
      }
      assert InsertByTime(init, last) == ms;
    }
  }

  /** Sorting a sorted list with one message appended inserts that message in place. */
  lemma SortAfterAppend(ms: seq<Message>, m: Message)
    requires SortedByTime(ms)
    ensures SortByTime(ms + [m]) == InsertByTime(ms, m)
  {
    assert (ms + [m])[..|ms|] == ms;
    SortKeepsSorted(ms);
  }

  // ---------------------------------------------------------------------------
  // What the page shows

  /** The `receive-message` filter: the message travels between the signed-in user and the chat's peer. */
  predicate Relevant(me: UserId, peer: UserId, m: Message)
  {
    (m.sender == me && m.receiver == peer) || (m.sender == peer && m.receiver == me)
  }

  datatype VideoAction = StartCallAction | EndCallAction

  /** The video button's `onClick`. */
  function VideoButtonAction(isCallActive: bool): VideoAction
  {
    if isCallActive then EndCallAction else StartCallAction
  }

  /** The video button is disabled while an invite is pending. */
  predicate VideoButtonDisabled(incomingCall: Option<Invite>)
  {
    incomingCall.Some?
  }

  /** The retry button: a status is shown at all and it includes 'Failed'. */
  predicate ShowsRetry(callStatus: string)
  {
    callStatus != "" && Contains(callStatus, "Failed")
  }

  /**
   * Of the statuses the call session writes, only the media failure offers a
   * retry; "Connection failed" has a lower-case "f" and offers none.
   */
  lemma RetryOnlyAfterMediaFailure(s: string)
    requires s in Statuses
    ensures ShowsRetry(s) <==> s == StatusMediaFailed
  {
    if s == StatusMediaFailed {
      assert s[0..6] == "Failed";
    } else if s != "" {
      LacksFirstChar(s, "Failed");
    }
  }

  /**
   * The temporary message of `sendMessage`: id and timestamp from the same
   * instant, of type image with the preview URL exactly when an image is chosen.
   */
  function TempMessage(me: UserId, peer: UserId, text: string, image: Option<ImageFile>,
                       objectUrl: string, now: nat): (r: Message)
    ensures r.id == TempId(now) && r.createdAt == now
    ensures r.sender == me && r.receiver == peer && r.text == text
    ensures r.messageType == ImageMessage <==> image.Some?
    ensures r.mediaUrl.Some? <==> image.Some?
    ensures r.mediaUrl.Some? ==> r.mediaUrl.value == objectUrl
  {
    Message(TempId(now), me, peer, text,
            if image.Some? then ImageMessage else TextMessage,
            if image.Some? then Some(objectUrl) else None, now)
  }

  // ---------------------------------------------------------------------------
  // The page's state

  class ChatBox {
    const me: UserId               // user._id
    const peer: UserId             // the route's userId
    const call: WebRtcSession      // useWebRTC(user?._id, userId)

    var messages: seq<Message>
    var text: string
    var image: Option<ImageFile>
    var error: string
    var isLoading: bool

    constructor (me: UserId, peer: UserId, call: WebRtcSession)
      requires call.userId == Some(me) && call.receiverId == Some(peer)
      ensures this.me == me && this.peer == peer && this.call == call
      ensures messages == [] && text == "" && image.None? && error == "" && !isLoading
    {
      this.me := me;
      this.peer := peer;
      this.call := call;
      messages := [];
      text := "";
      image := None;
      error := "";
      isLoading := false;
    }

    /** The text input's `onChange`. */
    method SetText(s: string)
      modifies this
      ensures text == s
      ensures messages == old(messages) && image == old(image) && error == old(error) && isLoading == old(isLoading)
    {
      text := s;
    }

    /** The file input's `onChange`. */
    method SetImage(f: Option<ImageFile>)
      modifies this
      ensures image == f
      ensures messages == old(messages) && text == old(text) && error == old(error) && isLoading == old(isLoading)
    {
      image := f;
    }

    /**
     * `fetchMessages`: `reply` is the server's list, None when the request fails.
     * The list is stored in time order as a permutation of what was fetched.
     */
    method FetchMessages(reply: Option<seq<Message>>)
      modifies this
      ensures reply.Some? ==>
        && messages == SortByTime(reply.value)
        && SortedByTime(messages) && multiset(messages) == multiset(reply.value)
        && error == old(error)
      ensures reply.None? ==> messages == old(messages) && error == LoadFailed
      ensures !isLoading && text == old(text) && image == old(image)
    {
      isLoading := true;
      if reply.Some? {
        messages := SortByTime(reply.value);
      } else {
        error := LoadFailed;
      }
      isLoading := false;
    }

    /**
     * The first half of `sendMessage`, up to the request: with no text and no
     * image nothing happens; otherwise a temporary message stamped `now` is
     * appended and the input is cleared. `objectUrl` is the image's preview URL.
     */
    method PostOptimistic(now: nat, objectUrl: string) returns (temp: Option<Message>)
      modifies this
      ensures old(text) == "" && old(image).None? ==> temp.None? && unchanged(this)
      ensures !(old(text) == "" && old(image).None?) ==>
        && temp == Some(TempMessage(me, peer, old(text), old(image), objectUrl, now))
        && messages == old(messages) + [temp.value]
        && text == "" && image.None?
        && error == old(error) && isLoading == old(isLoading)
    {
      if text == "" && image.None? {
        return None;
      }
      var m := TempMessage(me, peer, text, image, objectUrl, now);
      messages := messages + [m];
      text := "";
      image := None;
      temp := Some(m);
    }

    /**
     * The second half of `sendMessage`: `reply` is the stored message, None when
     * the request fails. Success replaces the temporary entry; failure removes
     * it and reports the error.
     */
    method SettleSend(temp: Message, reply: Option<Message>)
      modifies this
      ensures reply.Some? ==> messages == ReplaceById(old(messages), temp.id, reply.value) && error == old(error)
      ensures reply.None? ==> messages == RemoveById(old(messages), temp.id) && error == SendFailed
      ensures text == old(text) && image == old(image) && isLoading == old(isLoading)
    {
      if reply.Some? {
        messages := ReplaceById(messages, temp.id, reply.value);
      } else {
        error := SendFailed;
        messages := RemoveById(messages, temp.id);
      }
    }

    /**
     * `sendMessage` with no message arriving in between. When no entry already
     * carries the new temporary id, success ends with the stored message
     * appended and failure ends with the list as it was before the send.
     */
    method SendMessage(now: nat, objectUrl: string, reply: Option<Message>)
      modifies this
      ensures old(text) == "" && old(image).None? ==> unchanged(this)
      ensures !(old(text) == "" && old(image).None?) ==>
        && text == "" && image.None? && isLoading == old(isLoading)
        && error == (if reply.Some? then old(error) else SendFailed)
      ensures !(old(text) == "" && old(image).None?) ==>
        var t := TempMessage(me, peer, old(text), old(image), objectUrl, now);
        messages == if reply.Some? then ReplaceById(old(messages) + [t], t.id, reply.value)
                    else RemoveById(old(messages) + [t], t.id)
      ensures !(old(text) == "" && old(image).None?) && (forall i :: 0 <= i < |old(messages)| ==> old(messages)[i].id != TempId(now)) ==>
        messages == if reply.Some? then old(messages) + [reply.value] else old(messages)
    {
      ghost var before := messages;
      var temp := PostOptimistic(now, objectUrl);
      if temp.None? {
        return;
      }
      SettleSend(temp.value, reply);
      if forall i :: 0 <= i < |before| ==> before[i].id != TempId(now) {
        if reply.Some? {
          ReplaceCompletesAppend(before, temp.value, reply.value);
        } else {
          RemoveUndoesAppend(before, temp.value);
        }
      }
    }

    /**
     * The `receive-message` handler: a message between the two parties is
     * added and the list re-sorted by time; any other message is ignored.
     */
    method ReceiveMessage(m: Message)
      modifies this
      ensures Relevant(me, peer, m) ==>
        && messages == SortByTime(old(messages) + [m])
        && SortedByTime(messages)
        && multiset(messages) == multiset(old(messages)) + multiset{m}
      ensures Relevant(me, peer, m) && SortedByTime(old(messages)) ==> messages == InsertByTime(old(messages), m)
      ensures !Relevant(me, peer, m) ==> messages == old(messages)
      ensures text == old(text) && image == old(image) && error == old(error) && isLoading == old(isLoading)
    {
      if Relevant(me, peer, m) {
        if SortedByTime(messages) {
          SortAfterAppend(messages, m);
        }
        messages := SortByTime(messages + [m]);
      }
    }

    /**
     * The video button: disabled while an invite is pending (a click does nothing);
     * otherwise it ends an active call and starts one when none is active.
     */
    method PressVideoButton(media: Option<Stream>, offer: Sdp)
      requires call.Valid()
      modifies call, call.peers.Values, call.LocalTracks()
      ensures call.Valid()
      ensures VideoButtonDisabled(old(call.incomingCall)) ==>
        && call.Snapshot() == old(call.Snapshot()) && call.outbox == old(call.outbox)
        && unchanged(call.peers.Values) && unchanged(call.LocalTracks())
      ensures !VideoButtonDisabled(old(call.incomingCall)) && VideoButtonAction(old(call.isCallActive)) == EndCallAction ==>
        && call.Snapshot() == Ended(old(call.Snapshot()))
        && call.outbox == old(call.outbox) + [EndCallEvent(call.receiverId, old(call.currentCallId))]
        && AllClosed(old(call.peers.Values))
        && AllStopped(old(call.LocalTracks()))
      ensures !VideoButtonDisabled(old(call.incomingCall)) && VideoButtonAction(old(call.isCallActive)) == StartCallAction ==>
        && call.Snapshot() == Started(old(call.Snapshot()), call.receiverId, media, call.peers)
        && call.outbox == old(call.outbox) + StartCallEmits(call.receiverId, media, offer)
        && (Present(call.receiverId) && media.Some? ==> call.Dialled(call.receiverId.value, offer))
        && (!(Present(call.receiverId) && media.Some?) ==> unchanged(call.PeerFor(call.receiverId)))
        && unchanged(old(call.peers.Values) - old(call.PeerFor(call.receiverId)))
        && unchanged(old(call.LocalTracks()))
    {
      if VideoButtonDisabled(call.incomingCall) {
        return;
      }
      if VideoButtonAction(call.isCallActive) == EndCallAction {
        call.EndCall();
      } else {
        call.StartCall(media, offer);
      }
    }

    /** The retry button, shown only for a failed status, starts the call again. */
    method PressRetry(media: Option<Stream>, offer: Sdp)
      requires call.Valid()
      modifies call, call.PeerFor(call.receiverId)
      ensures call.Valid()
      ensures !ShowsRetry(old(call.callStatus)) ==>
        call.Snapshot() == old(call.Snapshot()) && call.outbox == old(call.outbox)
        && unchanged(call.PeerFor(call.receiverId))
      ensures ShowsRetry(old(call.callStatus)) ==>
        && old(call.callStatus) == StatusMediaFailed
        && call.Snapshot() == Started(old(call.Snapshot()), call.receiverId, media, call.peers)
        && call.outbox == old(call.outbox) + StartCallEmits(call.receiverId, media, offer)
        && (Present(call.receiverId) && media.Some? ==> call.Dialled(call.receiverId.value, offer))
        && (!(Present(call.receiverId) && media.Some?) ==> unchanged(call.PeerFor(call.receiverId)))
    {
      RetryOnlyAfterMediaFailure(call.callStatus);
      if ShowsRetry(call.callStatus) {
        call.StartCall(media, offer);
      }
    }

    /**
     * The invite dialog's Accept, shown while an invite is pending: `acceptCall(incomingCall)`.
     * When media fails the invite stays, so Accept can be pressed again.
     */
    method PressAccept(media: Option<Stream>, answer: Sdp)
      requires call.Valid()
      modifies call, call.peers.Values
      ensures call.Valid()
      ensures old(call.incomingCall).None? ==>
        call.Snapshot() == old(call.Snapshot()) && call.outbox == old(call.outbox) && unchanged(call.peers.Values)
      ensures old(call.incomingCall).Some? ==>
        var invite := old(call.incomingCall).value;
        && call.Snapshot() == Accepted(old(call.Snapshot()), invite, media, call.peers)
        && call.outbox == old(call.outbox) + AcceptCallEmits(invite, media, answer)
        && (media.Some? ==> call.Answered(invite, answer))
        && (media.None? ==> unchanged(call.PeerFor(Some(invite.from))))
        && unchanged(old(call.peers.Values) - old(call.PeerFor(Some(invite.from))))
    {
      if call.incomingCall.Some? {
        call.AcceptCall(call.incomingCall.value, media, answer);
      }
    }

    /** The invite dialog's Decline: `rejectCall(incomingCall.callId)`. */
    method PressDecline()
      requires call.Valid()
      modifies call
      ensures call.Valid()
      ensures old(call.incomingCall).None? ==> call.Snapshot() == old(call.Snapshot()) && call.outbox == old(call.outbox)
      ensures old(call.incomingCall).Some? ==>
        var invite := old(call.incomingCall).value;
        && call.Snapshot() == old(call.Snapshot()).(incomingCall := None)
        && call.outbox == old(call.outbox) + [CallRejectedEvent(Some(invite.from), invite.callId)]
    {
      if call.incomingCall.Some? {
        call.RejectCall(call.incomingCall.value.callId);
      }
    }
  }
}
