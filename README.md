# Chat page and video-call session, modelled in Dafny

This project models the client side of a one-to-one chat with video calling.

**The call controller.** The `useWebRTC(userId, receiverId)` hook (module `UseWebRtc`) is a class, `WebRtcSession`. Its fields are:

- the hook's React state: `localStream`, `remoteStreams`, `isCallActive`, `incomingCall`, `callStatus`, `isMicOn`, `isCameraOn`, `isFullScreen`;
- its two refs: the peer table `peers` and `currentCallId`;
- an `outbox` that records every `socket.emit` in order.

Every user intent is a method: start, accept, reject, end, toggle microphone, toggle camera, toggle fullscreen. So is each of the six socket handlers and each callback installed on a peer connection. The browser objects the hook drives live in module `Platform`:

- media tracks, whose `enabled` and `stopped` flags are changed in place;
- streams;
- peer connections, which accumulate attached tracks, descriptions and candidates, and can be closed.

Each method states its whole new state. It does so by comparing a `Snapshot()` of the fields with the old one, plus the events appended to the outbox and what happened to each track and connection. Every method keeps the invariant `Valid()`:

- each table entry is the open connection created for its key;
- a call is active only with a local stream;
- the status is one of the strings the hook writes.

**The chat page.** `ChatBox` (module `ChatPage`) holds the message list and the input fields. Its message-list transforms are functions:

- the by-id replace and remove of the optimistic send;
- a stable sort by `createdAt`;
- the conversation filter of `receive-message`.

Lemmas connect them: removing the temporary entry undoes the append, replacing it completes the append, and sorting a sorted list changes nothing. The page's buttons drive the call session through the conditions the page renders them under. Lemma `RetryOnlyAfterMediaFailure` shows that, of all the statuses the hook can write, only the media failure shows the retry button.

Platform outcomes are method parameters:

- what `getUserMedia` yields;
- the engine's offer or answer;
- whether `addIceCandidate` succeeds;
- whether the call container exists;
- the server's reply;
- the current time;
- the image's object URL.

## Model

| member | source | states |
|---|---|---|
| Common.Contains | client/src/pages/ChatBox.jsx:312 | `includes(sub)` is true exactly when `sub` occurs in `s` at some position |
| Common.Present | client/src/hooks/useWebRTC.jsx:109 | JavaScript truthiness of the `receiverId` and `userId` guards (also line 229): null, undefined and the empty string are falsy |
| Common.LacksFirstChar | client/src/pages/ChatBox.jsx:312 | a string without the first character of a non-empty `sub` does not include it |
| Platform.FirstOfKind | client/src/hooks/useWebRTC.jsx:191-192 | the result is the index of the first track of the kind (earlier tracks are of another kind), or there is no track of that kind |
| UseWebRtc.WebRtcSession.FirstTrack | client/src/hooks/useWebRTC.jsx:190-191 | `getAudioTracks()[0]` / `getVideoTracks()[0]` of the local stream: a track of the kind with no earlier one of that kind, or none when there is no stream or no such track |
| Platform.Track.Stop | client/src/hooks/useWebRTC.jsx:166 | the track is stopped; its enabled flag is kept |
| Platform.StopAll | client/src/hooks/useWebRTC.jsx:165-167 | every track of the stream is stopped, and no enabled flag changes |
| Platform.PeerConnection.constructor | client/src/hooks/useWebRTC.jsx:59 | a new connection is open, with no senders, no descriptions and no candidates |
| Platform.PeerConnection.AddTrack | client/src/hooks/useWebRTC.jsx:64 | exactly one sender is appended; nothing else changes |
| Platform.PeerConnection.SetLocalDescription | client/src/hooks/useWebRTC.jsx:119 | only the local description changes |
| Platform.PeerConnection.SetRemoteDescription | client/src/hooks/useWebRTC.jsx:139 | only the remote description changes |
| Platform.PeerConnection.AddIceCandidate | client/src/hooks/useWebRTC.jsx:261-265 | an accepted candidate is appended; a rejected one changes nothing |
| Platform.PeerConnection.Close | client/src/hooks/useWebRTC.jsx:170 | the connection is closed and keeps what it negotiated |
| Platform.CloseAll | client/src/hooks/useWebRTC.jsx:170 | every connection of the table is closed, in any order, with its negotiation unchanged |
| UseWebRtc.WebRtcSession.constructor | client/src/hooks/useWebRTC.jsx:4-17 | the initial state: no stream, empty tables, call inactive, no invite, empty status, mic and camera on, not fullscreen, no call id, nothing sent |
| UseWebRtc.WebRtcSession.StartLocalStream | client/src/hooks/useWebRTC.jsx:27-51 | on success the stream is stored and returned; on failure null is returned and only the status changes, to the media-failure message |
| UseWebRtc.WebRtcSession.CreatePeerConnection | client/src/hooks/useWebRTC.jsx:54-105 | an existing entry is returned and the whole state is unchanged; otherwise exactly one fresh, open entry is added under `peerId`, with that call id and every track of the current local stream attached in order (none without a stream), and all other entries are kept |
| UseWebRtc.WebRtcSession.Negotiate | client/src/hooks/useWebRTC.jsx:138-142 | the peer's connection (existing or new) ends with the remote description applied if one was given, and the local one; only the table and that connection change |
| UseWebRtc.WebRtcSession.StartCall | client/src/hooks/useWebRTC.jsx:108-125 | the new state is `Started` of the old one: without a receiver nothing changes; on media failure only the status changes, to the media-failure message, and nothing is sent; on success the stream is stored, the call is active, the status is "Calling...", the receiver's connection (new with no call id and every local track, or existing) holds the offer (`Dialled`), and exactly one `user-call` to the receiver is sent |
| UseWebRtc.WebRtcSession.Dial | client/src/hooks/useWebRTC.jsx:115-124 | once media is acquired: the call is active, the receiver's connection holds the offer as its local description, and one `user-call` is sent |
| UseWebRtc.WebRtcSession.AcceptCall | client/src/hooks/useWebRTC.jsx:128-151 | the new state is `Accepted` of the old one: the invite's call id is recorded whether or not media is acquired; on media failure the invite stays, the status reports it, no connection changes and nothing is sent; on success the invite is cleared, the call is active, the caller's connection holds the offer as remote and the answer as local description (`Answered`), one `call-accepted` goes to the caller with the call id, and the status ends as "Connected" |
| UseWebRtc.WebRtcSession.AnswerInvite | client/src/hooks/useWebRTC.jsx:135-150 | once media is acquired: the state reached on a successful accept, with exactly one `call-accepted` |
| UseWebRtc.WebRtcSession.RejectCall | client/src/hooks/useWebRTC.jsx:154-160 | one `call-rejected` goes to the inviter (undefined without an invite) with the given id; the invite is cleared and nothing else changes |
| UseWebRtc.WebRtcSession.EndCall | client/src/hooks/useWebRTC.jsx:163-186 | every old local track is stopped; every old connection is closed with its negotiation unchanged; the state is `Ended` of the old one (no stream, no remote streams, empty table, inactive, empty status, no call id; invite and flags kept); exactly one `end-call` goes to the receiver with the old call id |
| UseWebRtc.WebRtcSession.ClearCall | client/src/hooks/useWebRTC.jsx:171-185 | the state setters of `endCall`: the state becomes `Ended` of the old one, and the `end-call` carries the call id read before it is cleared |
| UseWebRtc.WebRtcSession.EndCallTwice | client/src/hooks/useWebRTC.jsx:163-186 | ending twice leaves the same state as ending once: the `Ended` state, every original track still stopped and every original connection still closed; the second `end-call` carries no call id |
| UseWebRtc.WebRtcSession.ToggleMic | client/src/hooks/useWebRTC.jsx:189-197 | with a stream and an audio track, the first audio track's `enabled` is negated and `isMicOn` equals the new value; otherwise nothing changes; nothing is sent and the table is untouched |
| UseWebRtc.WebRtcSession.ToggleCamera | client/src/hooks/useWebRTC.jsx:200-208 | the same for the first video track and `isCameraOn` |
| UseWebRtc.WebRtcSession.ToggleMicTwice | client/src/hooks/useWebRTC.jsx:189-197 | toggling twice restores the track's `enabled` flag and keeps its `stopped` flag, and `isMicOn` ends equal to it |
| UseWebRtc.WebRtcSession.ToggleCameraTwice | client/src/hooks/useWebRTC.jsx:200-208 | toggling twice restores the video track's `enabled` flag and keeps its `stopped` flag, and `isCameraOn` ends equal to it |
| UseWebRtc.WebRtcSession.ToggleFullScreen | client/src/hooks/useWebRTC.jsx:211-225 | `isFullScreen` flips when the container exists; otherwise nothing changes |
| UseWebRtc.WebRtcSession.OnIncomingCall | client/src/hooks/useWebRTC.jsx:229-236 | a signed-in user's handler stores the invite, overwriting any pending one, and sets "Incoming call..."; without a user nothing changes |
| UseWebRtc.WebRtcSession.OnCallAccepted | client/src/hooks/useWebRTC.jsx:239-248 | the call id and "Connected" are recorded; the answer becomes the remote description only of a connection already in the table |
| UseWebRtc.WebRtcSession.OnCallRejected | client/src/hooks/useWebRTC.jsx:251-255 | the `endCall` post-state, with status `''` since `endCall` writes it last |
| UseWebRtc.WebRtcSession.OnIceCandidate | client/src/hooks/useWebRTC.jsx:258-267 | the candidate is appended only when the peer entry and the candidate exist and the engine accepts it; otherwise no connection changes; no session field changes |
| UseWebRtc.WebRtcSession.OnEndCall | client/src/hooks/useWebRTC.jsx:270-273 | the `endCall` post-state |
| UseWebRtc.WebRtcSession.OnUserOffline | client/src/hooks/useWebRTC.jsx:276-279 | the `endCall` post-state; the "User is offline" status is overwritten by `''` |
| UseWebRtc.WebRtcSession.OnLocalIceCandidate | client/src/hooks/useWebRTC.jsx:83-91 | a gathered candidate is sent once to the connection's peer with the call id captured at creation; a null one sends nothing; no state changes |
| UseWebRtc.WebRtcSession.OnConnectionStateChange | client/src/hooks/useWebRTC.jsx:94-101 | "connected" sets "Connected", "failed" sets "Connection failed", and every other state changes nothing |
| UseWebRtc.WebRtcSession.OnTrack | client/src/hooks/useWebRTC.jsx:69-80 | the remote stream is stored under the connection's peer id; other entries are kept |
| ChatPage.ReplaceById | client/src/pages/ChatBox.jsx:218 | same length; each entry with the id is the stored message, and every other entry is unchanged in place |
| ChatPage.RemoveById | client/src/pages/ChatBox.jsx:221 | no entry with the id remains; every other message keeps its multiplicity; the result is a subsequence of the input (order preserved) |
| ChatPage.RemoveUndoesAppend | client/src/pages/ChatBox.jsx:201-221 | removing a fresh temporary entry after appending it gives the original list back |
| ChatPage.ReplaceCompletesAppend | client/src/pages/ChatBox.jsx:201-218 | replacing a fresh temporary entry after appending it gives the list with the stored message appended |
| ChatPage.InsertByTime | client/src/pages/ChatBox.jsx:236 | inserting into a time-ordered list gives a time-ordered permutation of the list plus the message |
| ChatPage.SortByTime | client/src/pages/ChatBox.jsx:180 | the result is in ascending `createdAt` order and is a permutation of the input |
| ChatPage.SortKeepsSorted | client/src/pages/ChatBox.jsx:180 | a list already in time order is returned exactly as it is |
| ChatPage.SortAfterAppend | client/src/pages/ChatBox.jsx:236 | sorting a time-ordered list with one message appended inserts that message in place |
| ChatPage.Relevant | client/src/pages/ChatBox.jsx:232-235 | the `receive-message` filter: the message goes from the signed-in user to the chat's peer or from the peer to the user |
| ChatPage.VideoButtonAction | client/src/pages/ChatBox.jsx:291 | the video button ends the call while one is active and starts one otherwise |
| ChatPage.VideoButtonDisabled | client/src/pages/ChatBox.jsx:294 | the video button is disabled exactly while an invite is pending |
| ChatPage.ShowsRetry | client/src/pages/ChatBox.jsx:303-312 | the retry button is rendered when the status is non-empty and includes "Failed" |
| ChatPage.RetryOnlyAfterMediaFailure | client/src/pages/ChatBox.jsx:303-319 | for every status the call session writes, the retry button shows exactly when the status is "Failed to access camera/microphone" |
| ChatPage.TempMessage | client/src/pages/ChatBox.jsx:192-200 | the temporary message of a send: from the signed-in user to the chat's peer with the typed text, its id and `createdAt` from the same instant, of type image with the preview URL exactly when an image is chosen, otherwise text with no URL |
| ChatPage.ChatBox.constructor | client/src/pages/ChatBox.jsx:130-159 | the page starts with no messages, empty text, no image, no error, not loading, and drives the call session built for the signed-in user and the chat's peer |
| ChatPage.ChatBox.SetText | client/src/pages/ChatBox.jsx:100 | only the text changes |
| ChatPage.ChatBox.SetImage | client/src/pages/ChatBox.jsx:115 | only the image changes |
| ChatPage.ChatBox.FetchMessages | client/src/pages/ChatBox.jsx:176-187 | on success the list is the fetched one in ascending time order, as a permutation; on failure the list is kept and the error is "Failed to load messages."; loading ends false either way |
| ChatPage.ChatBox.PostOptimistic | client/src/pages/ChatBox.jsx:191-203 | with no text and no image nothing changes; otherwise exactly one temporary message is appended, stamped `now`, of type image exactly when an image was chosen, and the inputs are cleared |
| ChatPage.ChatBox.SettleSend | client/src/pages/ChatBox.jsx:213-223 | on success the entries with the temporary id are replaced by the stored message; on failure they are removed and the error is "Failed to send message." |
| ChatPage.ChatBox.SendMessage | client/src/pages/ChatBox.jsx:190-224 | with nothing to send nothing changes; otherwise the inputs are cleared, and the list is the old list plus the temporary message with every entry carrying the temporary id replaced by the stored message (success) or removed (failure); when that id is fresh this is the old list plus the stored message, or the old list |
| ChatPage.ChatBox.ReceiveMessage | client/src/pages/ChatBox.jsx:231-237 | a message between the two parties makes the list a time-ordered permutation of the old list plus it (inserted in place when the list was ordered); any other message changes nothing |
| ChatPage.ChatBox.PressVideoButton | client/src/pages/ChatBox.jsx:290-297 | while an invite is pending a click changes nothing; otherwise it ends an active call (`Ended` state, every old track stopped, every old connection closed, one `end-call`) or starts one (`Started` state, the receiver's connection `Dialled`, the `startCall` emits, no track and no other connection touched) |
| ChatPage.ChatBox.PressRetry | client/src/pages/ChatBox.jsx:312-319 | the button exists only after a media failure, and pressing it leaves exactly what `startCall` leaves (`Started` state, `Dialled` connection, its emits); otherwise nothing changes |
| ChatPage.ChatBox.PressAccept | client/src/pages/ChatBox.jsx:327-330 | with no invite nothing changes; with one it leaves exactly what `acceptCall(incomingCall)` leaves: the `Accepted` state (call id recorded in any case, "Connected" on success, the invite kept on media failure), the inviter's connection `Answered` on success and untouched on failure, every other connection untouched, and at most one `call-accepted` |
| ChatPage.ChatBox.PressDecline | client/src/pages/ChatBox.jsx:327-331 | with a pending invite, one `call-rejected` to the inviter with the invite's call id, and the invite is cleared |

## Left out

- Rendering, animation and formatting are not modelled. This covers the JSX, framer-motion, `moment(...).fromNow()`, the image preview and scrolling to the latest message. They produce no state.
- The REST calls and the socket transport are not modelled; they are I/O. A server reply is a parameter (`None` when the request throws), and emits are appended to `outbox`. Registering and unregistering the socket listeners is not modelled.
- SDP and ICE internals are not modelled. Offers, answers and candidates are opaque strings supplied as parameters, and the STUN configuration is not used.
- `getUserMedia` is modelled as a parameter, not as a call. As written, the media constraints read `isVideoCall`, which is never defined (useWebRTC.jsx:31). Inside the `try` that ReferenceError is caught, so every `startLocalStream` would take the failure path. The `[isVideoCall]` dependency list (useWebRTC.jsx:51) is evaluated outside the `try`, during render, so the hook would throw before any of it runs. The model assumes a defined flag and takes the media outcome as given.
- The DOM is not modelled. The requests to enter or exit fullscreen and the `srcObject` assignments are left out; only the `isFullScreen` flag is kept.
- Concurrency is not modelled: async interleaving, React's batching of state updates, and stale `useCallback` closures. Each handler runs atomically on the current state. In the source, `startCall` and `acceptCall` call the `createPeerConnection` of the render they were created in (useWebRTC.jsx:125, 151). That closure saw `localStream` still null (lines 62, 105). So a call started or accepted from idle attaches no tracks at all. The model attaches the freshly acquired stream's tracks.
- `fetchReceiver`, the receiver record, and the loading, error and "User not found" screens are not modelled. The video button, the retry button and the invite dialog are modelled without the loading, error and receiver checks (ChatBox.jsx:257-267) that come before they are rendered.
- `Date.now()` and `new Date()` of one send are modelled as a single instant `now`, which serves as both the temporary id and `createdAt`. Timestamps are integers.
- SortByTime: its contract states order and permutation. Stability (equal timestamps keep their input order) is not stated in general. It is shown only through SortKeepsSorted and SortAfterAppend, and through the construction of InsertByTime.
- Behaviour the code does not have is not modelled. There is no busy rejection of a second invite and no buffering of early ICE candidates. It does not drop events by call id. A "failed" connection only sets its status and does not end the call.
- `endCall` does not reset `isMicOn`/`isCameraOn`. The model keeps them, as `Ended` shows. After a call that ended muted, the next call's flag can disagree with its fresh, enabled track.
- StartCall: `createOffer` and `setLocalDescription` (useWebRTC.jsx:118-119) are assumed to succeed. In the source they are awaited without a `try`, so a rejection stops `startCall` part-way: `isCallActive` is true and the receiver's entry is in the table, but no `user-call` is sent. The model does not have that stuck state.
- AcceptCall: `setRemoteDescription`, `createAnswer` and `setLocalDescription` (useWebRTC.jsx:139-142) are assumed to succeed. A rejection in the source stops `acceptCall` part-way: `isCallActive` is true, `incomingCall` is null and the status stays "Accepting call...", but no `call-accepted` is sent. The model does not have that stuck state.
- OnCallAccepted: `setRemoteDescription` (useWebRTC.jsx:246) is assumed to succeed. A rejection there only leaves the connection without a remote description, after the call id and "Connected" are already recorded.
