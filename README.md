# Hey chat: a verified model

This project models the logic of Hey, a demo chat web application (its relay server calls itself Hi.com), in Dafny and proves properties of that model. The app has several parts:

- a peer-to-peer session layer and the chat hook built on it;
- a call state machine over a simulated signalling channel;
- a contact verification service, which matches device contacts against registered users and detects mutual contacts;
- the sign-in, chat and call screens, with their validators, formatters and view rules;
- a Socket.IO relay server;
- the two page routers, which keep the session in `localStorage`.

There is one module per source file:

| module | file | source |
|---|---|---|
| `P2PService` | `p2p_service.dfy` | `lib/p2p-service.ts` |
| `P2PChat` | `p2p_chat.dfy` | `hooks/use-p2p-chat.ts` |
| `Signaling` | `signaling.dfy` | `lib/signaling-service.ts` |
| `CallService` | `call_service.dfy` | `hooks/use-call-service.ts` |
| `ContactVerification` | `contact_verification.dfy` | `lib/contact-verification-service.ts` |
| `PhoneAuth` | `phone_auth.dfy` | `components/phone-auth.tsx` |
| `ChatInterface` | `chat_interface.dfy` | `components/chat-interface.tsx` |
| `MutualContactChat` | `mutual_contact_chat.dfy` | `components/mutual-contact-chat.tsx` |
| `CallInterface` | `call_interface.dfy` | `components/call-interface.tsx` |
| `RelayServer` | `relay_server.dfy` | `server.js` |
| `HiChatApp` | `hi_chat_app.dfy` | `app/page.tsx` |
| `P2PPage` | `p2p_page.dfy` | `app/p2p/page.tsx` |

Some modules are shared support rather than a source file:

- `Wrappers`: optional values.
- `Seqs`: the order-preserving filter behind every `Array.prototype.filter`.
- `Text`: the string operations, over `seq<char>`.
- `OrderedMaps`: JavaScript `Map`, with insertion-ordered keys.
- `Storage`: `localStorage`.

## How the source is modelled

**State.** Objects and React components whose state changes step by step are classes. Their fields are updated in place by methods with `modifies` clauses. Validators, formatters and filters are functions.

**Timers.** Each `setTimeout` or `setInterval` callback is an event method. A counter or queue of pending timers says which events may fire.

**Callbacks and emissions.**
- Subscriber callbacks are numbered handles.
- Every message sent, notice delivered, alert shown or callback made is appended to a log field. Contracts state exactly what each operation appends.

**Nondeterministic inputs.**
- Random codes, `Date.now()` ids and `new Date()` timestamps are parameters.
- The outcome of each foreign operation is a parameter. These are PeerJS connection attempts, media acquisition, and offer and answer creation.

**Proof structure.** Each stateful operation is proved against a specification function of the inputs and the old state. That function's own properties are proved as lemmas: counts, order, partitions, round trips and invariants. Scenario methods chain the operations and prove end-to-end outcomes, such as:
- a full sign-in;
- an outgoing call answered by the simulated peer;
- a session restored after a reload.

## Model

| member | source | states |
|---|---|---|
| Signaling.SimulatedReply | lib/signaling-service.ts:33-67 | exactly a call request or an offer gets a reply; it goes from the recipient back to the sender; a call request is accepted with the same call type, an offer answered with payload type `answer` and the simulated SDP |
| Signaling.ReplyIsFinal | lib/signaling-service.ts:38-66 | a reply is never itself answered, so the simulated exchange stops after one reply |
| Signaling.ReplyTo | lib/signaling-service.ts:33-67 | sending one message schedules at most one reply, exactly when the simulated peer answers it, and that reply |
| Signaling.Replies | lib/signaling-service.ts:33-67 | a run of sends schedules no more replies than messages sent |
| Signaling.RepliesSnoc | lib/signaling-service.ts:33-67 | one more send adds its own reply, if any, after the earlier ones |
| Signaling.RepliesConcat | lib/signaling-service.ts:33-67 | the replies to two runs of sends are the replies to the first followed by those to the second |
| Signaling.RepliesNone | lib/signaling-service.ts:33-67 | sending only answers, candidates, accepts, rejects and ends schedules nothing |
| Signaling.FireKeepsAccount | lib/signaling-service.ts:40-51 | when any pending reply's timer fires, pending and fired replies together are still exactly the replies to what was sent |
| Signaling.SendKeepsAccount | lib/signaling-service.ts:33-67 | scheduling the reply to one more message keeps pending and fired replies equal, as a multiset, to the replies to everything sent |
| Signaling.SignalingService.constructor | lib/signaling-service.ts:11-15 | no callback registered, nothing sent, scheduled or delivered |
| Signaling.SignalingService.Connect | lib/signaling-service.ts:18-30 | `connect` only starts a timer: one more connection report pending |
| Signaling.SignalingService.ConnectTimerFired | lib/signaling-service.ts:23-28 | the timer reports `connected` to the state callback registered now, and to nobody when none is |
| Signaling.SignalingService.SendMessage | lib/signaling-service.ts:33-67 | the message is logged and its reply, if any, scheduled; every pending or fired reply still answers exactly one sent message |
| Signaling.SignalingService.TakePending | lib/signaling-service.ts:40-42 | a firing timer removes exactly its own reply from the scheduled ones, keeping the others in order |
| Signaling.SignalingService.ReplyTimerFired | lib/signaling-service.ts:40-50 | the fired reply goes to the message callback registered at that moment if there is one, and is dropped otherwise; the other scheduled replies stay |
| Signaling.SignalingService.OnMessage | lib/signaling-service.ts:71-73 | the new message callback replaces any earlier one |
| Signaling.SignalingService.OnConnectionStateChange | lib/signaling-service.ts:76-78 | the new state callback replaces any earlier one |
| Signaling.SignalingService.Disconnect | lib/signaling-service.ts:81-87 | `disconnected` goes to the state callback if one is registered, and nothing happens otherwise |
| CallService.StartCallStep | hooks/use-call-service.ts:121-143 | the whole new state: the current call becomes an outgoing one with the given contact, the contact's name and the type, the state becomes `connecting`, and nothing else changes; exactly one call request goes to the contact, from the user, carrying the caller's name and the call type |
| CallService.AcceptStep | hooks/use-call-service.ts:170-183 | without a current call nothing changes and nothing is sent; otherwise only the state becomes `connecting` and one `call-accepted`, sent by the user with the user's name, goes to the caller |
| CallService.RejectStep | hooks/use-call-service.ts:186-198 | without a current call nothing happens; otherwise one `call-rejected`, sent by the user, goes to the caller, the call is dropped and the state is `idle` |
| CallService.EndStep | hooks/use-call-service.ts:201-222 | without a current call nothing happens; otherwise one `call-ended`, sent by the user, goes to the contact, both streams and the call are dropped, the state is `ended` and a return-to-idle timer starts |
| CallService.EndTwice | hooks/use-call-service.ts:201-202 | ending a call that has just ended changes nothing and sends nothing |
| CallService.WebRTCStep | hooks/use-call-service.ts:146-167 | denied media ends the call; acquired media becomes the local stream with video exactly as asked; a created offer, sent by the user, goes to the recipient with the created sdp, and a failed one ends the call |
| CallService.SignalStep | hooks/use-call-service.ts:67-118 | a call request replaces the current call with an incoming one from its sender and leaves the state alone; an acceptance starts media towards its sender, with video exactly for a video call; a rejection or an end ends the call; an offer is answered to its sender when the media layer gives an answer; answers and candidates change nothing |
| CallService.MediaStep | hooks/use-call-service.ts:41-47 | `connected` sets the state to `connected`; `disconnected`, `failed` and `closed` end the call; other states change nothing |
| CallService.ToggleMuteView | hooks/use-call-service.ts:225-231 | the mute flag flips, audio is then on exactly when not muted, and nothing else changes |
| CallService.ToggleVideoView | hooks/use-call-service.ts:234-240 | outside a video call nothing changes; in one the video flag flips and the video tracks follow it, and nothing else changes |
| CallService.ToggleMuteTwice | hooks/use-call-service.ts:225-231 | muting twice restores the state |
| CallService.OutgoingHandshake | hooks/use-call-service.ts:67-167 | against the simulated peer, a call request is accepted by the contact; the hook then sends one offer to the contact, with video exactly for a video call; the answer changes nothing; a connected peer connection leaves the same call connected |
| CallService.CallService.constructor | hooks/use-call-service.ts:15-64 | the mount effect creates the signalling service, subscribes to it and connects; the hook starts idle with no call and no streams, unmuted, video on |
| CallService.CallService.StartCall | hooks/use-call-service.ts:121-143 | performs `StartCallStep`: the new state is its state and its message is handed to the signalling service |
| CallService.CallService.AcceptCall | hooks/use-call-service.ts:170-183 | performs `AcceptStep` on the hook's state and the signalling service |
| CallService.CallService.RejectCall | hooks/use-call-service.ts:186-198 | performs `RejectStep` on the hook's state and the signalling service |
| CallService.CallService.EndCall | hooks/use-call-service.ts:201-222 | performs `EndStep` on the hook's state and the signalling service |
| CallService.CallService.IdleTimerFired | hooks/use-call-service.ts:219-221 | the return-to-idle timer sets the state to `idle` whatever it is, and nothing else changes |
| CallService.CallService.HandleSignalingMessage | hooks/use-call-service.ts:67-118 | performs `SignalStep` for a delivered message, sending what it emits |
| CallService.CallService.MediaStateChanged | hooks/use-call-service.ts:41-47 | performs `MediaStep` for a peer-connection state |
| CallService.CallService.RemoteStreamArrived | hooks/use-call-service.ts:37-39 | the remote stream is set and nothing else changes |
| CallService.CallService.ToggleMute | hooks/use-call-service.ts:225-231 | the new state is `ToggleMuteView` of the old one |
| CallService.CallService.ToggleVideo | hooks/use-call-service.ts:234-240 | the new state is `ToggleVideoView` of the old one |
| CallService.CallService.Unmount | hooks/use-call-service.ts:56-63 | the cleanup disconnects the signalling service, which notifies its state callback if one is registered |
| CallService.Ring | hooks/use-call-service.ts:121-143 | starting a call sends exactly one call request; when its reply's timer fires, the contact's acceptance is delivered to the hook |
| CallService.Offer | hooks/use-call-service.ts:81-84 | the acceptance makes the hook send one offer to the contact, with video exactly for a video call, and the simulated answer is scheduled |
| CallService.OutgoingCall | hooks/use-call-service.ts:121-222 | a whole outgoing call against the simulated peer sends, in order, the call request, the offer and the end to the contact, and ends in `ended` with no call and nothing pending |
| CallService.HangUp | hooks/use-call-service.ts:201-222 | hanging up sends `call-ended` to the contact, which schedules no reply, and leaves the call `ended` |
| CallService.Answered | hooks/use-call-service.ts:41-47 | the simulated answer is delivered and changes nothing; a connected peer connection then sets the state to `connected` |
| P2PService.DeliveriesSnoc | lib/p2p-service.ts:176-184 | sending to one more peer appends exactly that delivery after the earlier ones |
| P2PService.SendablePeersSnoc | lib/p2p-service.ts:176-184 | trying one more connection adds that peer exactly when a send to it succeeds; the peers sent to are never more than the peers tried |
| P2PService.SendablePeers | lib/p2p-service.ts:176-184 | no tried peer whose send would succeed is missed by a broadcast |
| P2PService.SendablePeersBound | lib/p2p-service.ts:176-184 | every peer a broadcast sends to is one of the peers tried, and its send succeeds |
| P2PService.P2PService.constructor | lib/p2p-service.ts:23-35 | a new service has no peer yet, no local user, no connections, no discovered users and no subscribers |
| P2PService.P2PService.PeerCreated | lib/p2p-service.ts:37-48 | once the PeerJS object is created the peer exists but has no id |
| P2PService.P2PService.PeerOpened | lib/p2p-service.ts:50-53 | the peer's `open` event gives it its id and announces the local user, if any, to every connection it can send on |
| P2PService.P2PService.GetPeerId | lib/p2p-service.ts:329-331 | the id is present exactly when the peer is open with a non-empty id, and is that id |
| P2PService.P2PService.SetLocalUser | lib/p2p-service.ts:68-83 | while the peer has no id nothing happens; otherwise the local user is recorded online with the peer's id and announced to every connection that can send |
| P2PService.P2PService.ConnectToPeer | lib/p2p-service.ts:86-112 | the result is true exactly when there is a peer, no connection to that peer id exists yet and the connection opens first; only then is it stored, every connection subscriber told `(peerId, true)`, and the local user's info sent to the new peer when there is a local user and that connection can send; otherwise nothing changes |
| P2PService.P2PService.HandleConnection | lib/p2p-service.ts:122-139 | the connection is stored under its peer id, every connection subscriber is told `(peerId, true)` in order, and the local user's info goes to the peer only when there is a local user and the send succeeds |
| P2PService.P2PService.ConnectViaPeerId | lib/p2p-service.ts:334-336 | connecting by a shared peer id behaves exactly as `connectToPeer`: the same result, stored connection, connection notices and user-info send, and no change on failure |
| P2PService.P2PService.HandleConnectionLost | lib/p2p-service.ts:147-157 | on close or error the peer id is removed, so it is no longer among the connected peers, and every connection subscriber is told `(peerId, false)` |
| P2PService.P2PService.SendToPeer | lib/p2p-service.ts:161-173 | true exactly when a connection for the peer exists, is open and its send does not throw; the message goes out only then |
| P2PService.AddressedDeliveries | lib/p2p-service.ts:187-205 | an addressed send hands at most one message to the transport, that message, on a connection that can send, and none without a local user or for an undiscovered recipient |
| P2PService.P2PService.Broadcast | lib/p2p-service.ts:176-184 | the message goes, in connection order, to every connection that can send; the count returned is the number of those sends and never exceeds the number of connections |
| P2PService.P2PService.SendAddressed | lib/p2p-service.ts:200-204 | an addressed send succeeds exactly when there is a local user, the recipient has been discovered and a send to its recorded peer id succeeds; only then is the message sent, to that peer id |
| P2PService.P2PService.SendMessage | lib/p2p-service.ts:187-205 | false without a local user or for an undiscovered recipient; otherwise one `message` with the text goes to the recipient's recorded peer id exactly when that send succeeds |
| P2PService.P2PService.SendContactRequest | lib/p2p-service.ts:208-225 | the same refusals and send as `sendMessage`, with a `contact-request` carrying the local user |
| P2PService.P2PService.AcceptContactRequest | lib/p2p-service.ts:228-245 | the same refusals and send as `sendMessage`, with a `contact-accept` carrying the local user |
| P2PService.P2PService.BroadcastUserInfo | lib/p2p-service.ts:248-261 | without a local user nothing is sent; otherwise its `user-info` goes to every connection that can send |
| P2PService.P2PService.HandleMessage | lib/p2p-service.ts:264-278 | a `user-info` carrying a user record upserts the registry and tells the user subscribers; the five other known kinds go to every message subscriber in subscription order and leave the registry alone; any other kind changes nothing |
| P2PService.P2PService.HandleUserInfo | lib/p2p-service.ts:281-284 | the user is stored under its id, replacing an earlier record in place, and every user subscriber gets the full list |
| P2PService.P2PService.GetDiscoveredUsers | lib/p2p-service.ts:287-289 | the discovered users, one per id, in first-discovery order |
| P2PService.P2PService.GetConnectedPeers | lib/p2p-service.ts:292-294 | exactly the peer ids that have a connection, each once |
| P2PService.P2PService.OnMessage | lib/p2p-service.ts:297-299 | the subscriber is added after the earlier ones |
| P2PService.P2PService.OnUserUpdate | lib/p2p-service.ts:302-304 | the subscriber is added after the earlier ones |
| P2PService.P2PService.OnConnectionUpdate | lib/p2p-service.ts:307-309 | the subscriber is added after the earlier ones |
| P2PService.P2PService.Disconnect | lib/p2p-service.ts:312-326 | afterwards there are no connections, no connected peers and no peer id |
| OrderedMaps.Get | lib/p2p-service.ts:201-202 | `Map.get` finds a value exactly for a present key, and it is that key's value |
| OrderedMaps.Set | lib/p2p-service.ts:282 | `Map.set` maps the key to the value; a present key keeps its place in the order, a new one goes last |
| OrderedMaps.Delete | lib/p2p-service.ts:148 | `Map.delete` drops the key from the entries and from the order, keeping the other keys in order |
| OrderedMaps.Values | lib/p2p-service.ts:288 | the values in key order, one per key |
| OrderedMaps.Empty | lib/p2p-service.ts:25 | a new map has no keys |
| P2PChat.Conversation | hooks/use-p2p-chat.ts:182-184 | an unknown conversation reads as empty; a known one reads as its log |
| P2PChat.AppendMessage | hooks/use-p2p-chat.ts:114-129 | the message goes at the end of its conversation, which is created if absent; every other conversation is unchanged |
| P2PChat.AppendMessagePrefix | hooks/use-p2p-chat.ts:114-129 | every conversation log only grows at its end: the messages already there stay, in order |
| P2PChat.PeersAfterConnect | hooks/use-p2p-chat.ts:47-48 | on connect the peer ends up in the list exactly once, at the end; the other peers are kept |
| P2PChat.PeersAfterDisconnect | hooks/use-p2p-chat.ts:49-50 | on disconnect every occurrence of the peer is removed; the other peers are kept |
| P2PChat.PeersUpdateDistinct | hooks/use-p2p-chat.ts:46-52 | a connected-peers list without repeats stays without repeats under both updates |
| P2PChat.ConnectThenDisconnect | hooks/use-p2p-chat.ts:46-52 | connecting then disconnecting a peer leaves exactly the other peers, in their order |
| P2PChat.WithoutRequestsFrom | hooks/use-p2p-chat.ts:172 | every request from the sender is dropped and every other request kept |
| P2PChat.WithoutRequestsFromConcat | hooks/use-p2p-chat.ts:172 | dropping a sender's requests works piecewise, so the kept requests keep their arrival order |
| P2PChat.MutualUsers | hooks/use-p2p-chat.ts:187-189 | exactly the discovered users whose id is a contact, and no more of them than were discovered |
| P2PChat.MutualUsersConcat | hooks/use-p2p-chat.ts:187-189 | the filter keeps discovery order: the mutual users of two runs of discovered users are those of the first run followed by those of the second |
| P2PChat.MutualUsersSingle | hooks/use-p2p-chat.ts:187-189 | one discovered user is kept exactly when their id is a contact; with MutualUsersConcat this pins the result user by user, in order |
| P2PChat.P2PChat.constructor | hooks/use-p2p-chat.ts:24-52 | the mount effect creates the service, subscribes the three handlers and calls `setLocalUser`, which is ignored because the new service has no peer yet; the hook starts empty and unconnected |
| P2PChat.P2PChat.CheckPeerIdAsWritten | hooks/use-p2p-chat.ts:55-64 | as written: once the service has a peer id it is recorded and the hook is connected, and nothing else happens; without one nothing changes |
| P2PChat.P2PChat.CheckPeerId | hooks/use-p2p-chat.ts:26-33 | corrected: when the peer id is recorded the local user is also set on the service, with that id |
| P2PChat.P2PChat.HandleIncomingMessage | hooks/use-p2p-chat.ts:92-111 | a chat message is logged under its sender exactly when the sender is a contact; a contact request is queued, duplicates included; a contact accept adds the sender to the contact set; nothing else changes |
| P2PChat.P2PChat.AddMessage | hooks/use-p2p-chat.ts:114-129 | the conversations become `AppendMessage` of the old ones |
| P2PChat.P2PChat.UsersUpdated | hooks/use-p2p-chat.ts:41-43 | the discovered users become the service's list |
| P2PChat.P2PChat.ConnectionUpdated | hooks/use-p2p-chat.ts:46-52 | the connected peers are updated by `PeersAfterConnect` or `PeersAfterDisconnect` |
| P2PChat.P2PChat.Deliver | hooks/use-p2p-chat.ts:36-52 | a logged callback runs only the handler subscribed under its handle, and changes nothing that handler does not; a message notice logs a chat message from a contact, queues a contact request and adds the sender of a contact accept to the contacts |
| P2PChat.P2PChat.SendMessage | hooks/use-p2p-chat.ts:132-152 | refused, with nothing sent, for a non-contact; for a contact the service's chat message goes to the recipient's peer exactly when there is a local user, the recipient is discovered and its connection can send; it succeeds exactly when that send happens, and exactly then the message is logged at the end of the recipient's conversation |
| P2PChat.P2PChat.SendContactRequest | hooks/use-p2p-chat.ts:155-158 | the request goes through the service: it is sent, and true, exactly when the service can send it |
| P2PChat.P2PChat.AcceptContactRequest | hooks/use-p2p-chat.ts:161-173 | whatever the send gives, the requester becomes a contact and all their pending requests are dropped, the others kept in order |
| P2PChat.P2PChat.ConnectToPeer | hooks/use-p2p-chat.ts:176-179 | the result is true exactly when there is a peer, no connection to that peer id exists and the connection opens first; then the connection is stored, the connection subscribers are told and the local user's info is sent to the new peer when it can be; otherwise the service is unchanged |
| P2PChat.P2PChat.GetMessages | hooks/use-p2p-chat.ts:182-184 | a known conversation gives its stored log, an unknown one an empty list |
| P2PChat.P2PChat.GetMutualContacts | hooks/use-p2p-chat.ts:187-189 | exactly the discovered users that are contacts; its value is `MutualUsers` of the hook's state, whose order the two lemmas above state |
| P2PChat.P2PChat.Unmount | hooks/use-p2p-chat.ts:86-88 | the cleanup leaves the service with no connected peers and no peer id |
| P2PChat.Befriend | hooks/use-p2p-chat.ts:161-173 | a friend who connects over an open connection and announces itself, then is accepted, is a discovered contact that can be sent to |
| P2PChat.SendAfterMountAsWritten | hooks/use-p2p-chat.ts:26-33 | as written, after the peer opens and a friend is connected, discovered and accepted, a chat message to the friend is still refused and nothing is logged |
| P2PChat.SendAfterMount | hooks/use-p2p-chat.ts:26-33 | with the corrected `CheckPeerId`, the same sequence sends the message and logs exactly it in the friend's conversation |
| ContactVerification.NormalizePhone | lib/contact-verification-service.ts:74-85 | the result is either the number as given or an international `+94…` number, and it is international whenever the digits of the input begin with `0` or `94`; the exact value follows from NormalizeIgnoresSeparators with NormalizeLocalAndInternational |
| ContactVerification.NormalizeIgnoresSeparators | lib/contact-verification-service.ts:74-85 | when the digits begin with `0` or `94`, spaces, dashes and other non-digits make no difference: the result is that of the bare digits |
| ContactVerification.NormalizeInternational | lib/contact-verification-service.ts:74-85 | an international `+94…` number is left unchanged |
| ContactVerification.NormalizeIdempotent | lib/contact-verification-service.ts:74-85 | normalising a normalised number changes nothing |
| ContactVerification.NormalizeLocalAndInternational | lib/contact-verification-service.ts:79-83 | the local spelling `0…` and the spelling `94…` of the same subscriber number both normalise to `+94…` |
| ContactVerification.FirstWithPhone | lib/contact-verification-service.ts:139 | the position found is the first registered user with that phone, or the end when no user has it |
| ContactVerification.FindRegistered | lib/contact-verification-service.ts:139 | nothing is found exactly when no registered user has the phone; a found user is registered and has that phone |
| ContactVerification.MatchOne | lib/contact-verification-service.ts:138-162 | one device contact yields one entry exactly when its normalised number is registered; the entry is on the service, in my contacts, mutual exactly when they have my number, stamped with the current time |
| ContactVerification.Entry | lib/contact-verification-service.ts:142-159 | the recorded entry is well formed, carries the registered user's id, the normalised number and the current time, and is mutual exactly when the user has my number |
| ContactVerification.Matched | lib/contact-verification-service.ts:133-163 | the sync loop builds at most one entry per device contact, each well formed and stamped with the current time |
| ContactVerification.MatchedSnoc | lib/contact-verification-service.ts:137-163 | one more device contact appends its own entry, if any, after the earlier ones |
| ContactVerification.MatchedLength | lib/contact-verification-service.ts:133-167 | the number of entries equals the number of device contacts whose normalised number is registered |
| ContactVerification.MatchedOrigin | lib/contact-verification-service.ts:148-158 | every entry carries a device contact's name, its normalised phone and the id of the registered user with that phone |
| ContactVerification.LexLeq | lib/contact-verification-service.ts:173 | every name is ordered before itself |
| ContactVerification.LexLeqTotal | lib/contact-verification-service.ts:173 | any two names are ordered one way or the other |
| ContactVerification.LexLeqAntisymmetric | lib/contact-verification-service.ts:173 | two names each ordered before the other are the same name |
| ContactVerification.LexLeqTransitive | lib/contact-verification-service.ts:173 | the name order is transitive |
| ContactVerification.SortsBefore | lib/contact-verification-service.ts:169-174 | every entry may come before itself |
| ContactVerification.SortsBeforeTotal | lib/contact-verification-service.ts:169-174 | the comparator orders any two entries one way or the other |
| ContactVerification.SortsBeforeTransitive | lib/contact-verification-service.ts:169-174 | the comparator (mutual first, then online, then by name) is transitive |
| ContactVerification.Insert | lib/contact-verification-service.ts:169-174 | inserting an entry gives the old entries plus that one, as a multiset |
| ContactVerification.InsertSorted | lib/contact-verification-service.ts:169-174 | inserting into a sorted list keeps it sorted |
| ContactVerification.InsertCount | lib/contact-verification-service.ts:169-174 | inserting an entry adds one to the count of entries with any property it has and leaves the other counts alone |
| ContactVerification.SortContacts | lib/contact-verification-service.ts:169-174 | sorting returns a permutation of the entries |
| ContactVerification.SortContactsSorted | lib/contact-verification-service.ts:169-174 | the sorted list puts mutual entries first, then online ones, then orders by name |
| ContactVerification.SortContactsCount | lib/contact-verification-service.ts:165-174 | sorting keeps the number of entries with any property, so the mutual count still describes the sorted list |
| ContactVerification.ConsistentSet | lib/contact-verification-service.ts:161 | filing a well-formed entry under its own id keeps every stored entry well formed and under its own id |
| ContactVerification.Recorded | lib/contact-verification-service.ts:160-161 | after recording a run of entries, every earlier id is still present, every recorded id is present, and the last entry recorded is the one stored under its id |
| ContactVerification.RecordedConsistent | lib/contact-verification-service.ts:137-163 | recording well-formed entries keeps the map consistent |
| ContactVerification.MutualCount | lib/contact-verification-service.ts:134-146 | the tally never exceeds the number of entries |
| ContactVerification.MutualCountFilter | lib/contact-verification-service.ts:134-146 | the `mutualCount` tally equals the number of mutual entries |
| ContactVerification.SyncResult | lib/contact-verification-service.ts:165-175 | the result counts every device contact, no more matched users than device contacts and no more mutual contacts than matched users, and holds one entry per matched user |
| ContactVerification.SyncResultFacts | lib/contact-verification-service.ts:165-175 | the result counts all device contacts, holds one entry per registered device contact, counts exactly its mutual entries, holds the matched entries as a permutation, all well formed, sorted mutual first, then online, then by name |
| ContactVerification.WellFormedPartition | lib/contact-verification-service.ts:190-199 | over entries built by the sync, the mutual and the one-way filters split the list exactly |
| ContactVerification.SyncStep | lib/contact-verification-service.ts:138-161 | a registered device contact appends its entry to the list, files it under the user's id and adds one to the mutual count exactly when that user has my number |
| ContactVerification.SyncSkip | lib/contact-verification-service.ts:141 | a device contact whose number is not registered adds nothing |
| ContactVerification.ContactVerificationService.constructor | lib/contact-verification-service.ts:23-30 | a new service remembers the user's phone and has no verified contacts |
| ContactVerification.ContactVerificationService.SyncContactsWithHey | lib/contact-verification-service.ts:88-176 | the map gains the entries of the matched device contacts, in device order, keeping its consistency; the result is the sync result whose facts are proved above |
| ContactVerification.ContactVerificationService.CanMessageContact | lib/contact-verification-service.ts:179-182 | messaging is allowed only for a known contact, and for a known one exactly when it is mutual |
| ContactVerification.ContactVerificationService.VerifyMutualContact | lib/contact-verification-service.ts:202-207 | an unknown id is refused; a known contact is verified exactly when they have my number |
| ContactVerification.ContactVerificationService.GetContactInfo | lib/contact-verification-service.ts:185-187 | the stored entry exactly when the id is known, otherwise none |
| ContactVerification.ContactVerificationService.CanMessageIffVerified | lib/contact-verification-service.ts:179-207 | in a consistent service the messaging check and the mutual verification always agree, and a stored entry carries its own id |
| ContactVerification.ContactVerificationService.GetMutualContacts | lib/contact-verification-service.ts:190-192 | exactly the stored entries that are mutual |
| ContactVerification.ContactVerificationService.GetOneWayContacts | lib/contact-verification-service.ts:195-199 | exactly the stored entries on the service, in my contacts, that do not have my number |
| ContactVerification.ContactVerificationService.MutualAndOneWayPartition | lib/contact-verification-service.ts:190-199 | the two views are disjoint and together hold every stored entry exactly once, so their sizes add up to the number of known contacts |
| ContactVerification.ContactVerificationService.UpdateContactStatus | lib/contact-verification-service.ts:210-217 | a known contact gets the new online flag and a new `lastSeen` and nothing else changes; an unknown id changes nothing |
| PhoneAuth.FormatPhoneNumber | components/phone-auth.tsx:38-46 | a number comes back either as given or in international `+94…` form, and every accepted number comes back international; the exact value is stated by FormatIgnoresSeparators |
| PhoneAuth.FormatIgnoresSeparators | components/phone-auth.tsx:38-46 | an accepted number formats as its bare digits do: `+94` and the digits after the leading `0`, or `+` and the digits when they begin with `94` |
| PhoneAuth.FormatValid | components/phone-auth.tsx:27-46 | every accepted number formats to `+947` followed by 8 digits |
| PhoneAuth.ValidExactly | components/phone-auth.tsx:27-36 | a number is accepted exactly when its digits are `947` and 8 more, or `07` and 8 more, whatever separators surround them |
| PhoneAuth.LocalAndInternationalAgree | components/phone-auth.tsx:27-46 | the local `07…` and the international `947…` spelling of the same mobile number are both accepted and both format to `+947…` |
| PhoneAuth.FormattedStaysValid | components/phone-auth.tsx:27-46 | a formatted valid number is itself valid, and formatting it again changes nothing |
| PhoneAuth.SanitizeOtp | components/phone-auth.tsx:365 | the OTP field holds only digits, at most 6, the first ones typed, and all 6 when at least 6 were typed |
| PhoneAuth.SanitizeOtpIdempotent | components/phone-auth.tsx:365 | sanitising an already sanitised value keeps it |
| PhoneAuth.GeneratedCodeHasSixDigits | components/phone-auth.tsx:48-50 | every code in `generateOTP`'s range renders as exactly 6 digits and passes the OTP field unchanged |
| PhoneAuth.PhoneAuthForm.constructor | components/phone-auth.tsx:16-24 | the form starts at the phone step with empty fields, no error, no banner, pending permission and no timers |
| PhoneAuth.PhoneAuthForm.SetPhoneNumber | components/phone-auth.tsx:299 | the phone field holds what was typed |
| PhoneAuth.PhoneAuthForm.SetOtp | components/phone-auth.tsx:365 | the OTP field holds the sanitised input |
| PhoneAuth.PhoneAuthForm.SetName | components/phone-auth.tsx:438 | the name field holds what was typed |
| PhoneAuth.PhoneAuthForm.HandlePhoneSubmit | components/phone-auth.tsx:52-62 | the banner is cleared; an invalid number sets the phone error and schedules nothing; a valid one clears the error, starts loading and schedules one SMS |
| PhoneAuth.PhoneAuthForm.SmsTimerFired | components/phone-auth.tsx:63-74 | the drawn code, 6 digits long, becomes the expected code, the banner shows the formatted number and the code, the step becomes OTP and loading stops |
| PhoneAuth.PhoneAuthForm.HandleOtpSubmit | components/phone-auth.tsx:77-87 | the banner is cleared; a code not 6 long sets the length error and schedules nothing; otherwise loading starts and one comparison of the entered with the expected code is scheduled |
| PhoneAuth.PhoneAuthForm.OtpTimerFired | components/phone-auth.tsx:88-96 | the oldest pending comparison is answered: a match shows the verified banner and moves to the profile step, a mismatch sets the mismatch error and keeps the step; loading stops |
| PhoneAuth.PhoneAuthForm.ChangeNumber | components/phone-auth.tsx:399 | the form goes back to the phone step |
| PhoneAuth.PhoneAuthForm.HandleResendOtp | components/phone-auth.tsx:130-134 | error and banner are cleared, loading starts and one resend is scheduled |
| PhoneAuth.PhoneAuthForm.ResendTimerFired | components/phone-auth.tsx:135-146 | the new code replaces the expected code, the entered code is cleared, the banner shows the new code and loading stops |
| PhoneAuth.PhoneAuthForm.HandleProfileSubmit | components/phone-auth.tsx:99-106 | a blank name sets the name error and keeps the step; any other name moves to the contacts step |
| PhoneAuth.PhoneAuthForm.RequestContactsAccess | components/phone-auth.tsx:108-111 | loading starts, the error is cleared and the permission prompt is scheduled |
| PhoneAuth.PhoneAuthForm.GrantTimerFired | components/phone-auth.tsx:112-116 | permission is granted, the granted banner shows, loading stops and the report is scheduled |
| PhoneAuth.PhoneAuthForm.ReportTimerFired | components/phone-auth.tsx:117-120 | `onAuthSuccess` receives the formatted number and the trimmed name |
| PhoneAuth.PhoneAuthForm.SkipContactsAccess | components/phone-auth.tsx:124-128 | permission is denied and `onAuthSuccess` receives the formatted number and the trimmed name at once |
| PhoneAuth.ReceiveCode | components/phone-auth.tsx:52-74 | submitting a valid number and receiving the SMS leaves the form at the OTP step expecting the drawn code, with nothing reported |
| PhoneAuth.EnterCode | components/phone-auth.tsx:77-96 | typing the received code in full and submitting it moves the form to the profile step |
| PhoneAuth.SignIn | components/phone-auth.tsx:52-128 | a full sign-in with a valid number, the right code, a non-blank name and contacts skipped reports exactly once, with the number in 12-character `+947…` form and the trimmed name |
| PhoneAuth.WrongCode | components/phone-auth.tsx:77-96 | a full 6-digit code different from the drawn one leaves the form at the OTP step with the mismatch error and nothing reported |
| ChatInterface.CompleteNumber | components/chat-interface.tsx:199 | a complete number has 10 digits exactly when it starts with `0`, and 11 exactly when it starts with `94` |
| ChatInterface.ValidateNewChat | components/chat-interface.tsx:192-208 | the new chat is accepted exactly when the digits have a Sri Lankan prefix with its full length and the name is not blank; a number with neither prefix is refused as invalid; a missing-name refusal means the number was complete |
| ChatInterface.SignInNumbersAccepted | components/chat-interface.tsx:192-208 | every mobile number the sign-in screen accepts is accepted by the new-chat form, given a name |
| ChatInterface.NonMobileAccepted | components/chat-interface.tsx:192-208 | a complete `94` number whose next digit is not `7` passes the new-chat form although sign-in refuses it |
| ChatInterface.FormatNewChatPhone | components/chat-interface.tsx:217-221 | for input made only of digits the stored number agrees with the contact service's normalisation |
| ChatInterface.SeparatorKeepsRawInput | components/chat-interface.tsx:192-221 | an input with a separator before a complete number passes validation but is stored as typed, not in `+94` form |
| ChatInterface.EmptyQueryMatches | components/chat-interface.tsx:127-129 | the empty search query matches every contact |
| ChatInterface.SearchMatch | components/chat-interface.tsx:127-129 | a contact matches exactly when the lower-cased query occurs somewhere in its lower-cased name, or the query as typed occurs somewhere in its phone |
| ChatInterface.FilteredContacts | components/chat-interface.tsx:127-129 | the search results are the listed contacts that match the query, no more and no fewer, never more than the list |
| ChatInterface.EmptyQueryKeepsAll | components/chat-interface.tsx:127-129 | with the empty query the whole contact list is shown, in order |
| ChatInterface.FilteredAfterPrepend | components/chat-interface.tsx:127-129 | a contact added at the front heads the search results exactly when it matches the query, and the other results are unchanged |
| ChatInterface.MarkDelivered | components/chat-interface.tsx:145-147 | every message with the delivered id becomes delivered; no other message and no other field changes, and the list keeps its length |
| ChatInterface.MarkDeliveredIdempotent | components/chat-interface.tsx:145-147 | marking a message delivered twice is the same as once |
| ChatInterface.MarkDeliveredAppend | components/chat-interface.tsx:142-147 | a later message with another id is not disturbed by an earlier delivery |
| ChatInterface.ChatInterface.constructor | components/chat-interface.tsx:104-113 | the screen starts with the given contact list, nothing selected, no messages, empty fields, the new-chat form hidden, no alerts and no timers |
| ChatInterface.ChatInterface.Visible | components/chat-interface.tsx:127-129 | every shown contact is in the list and matches the current query |
| ChatInterface.ChatInterface.SetSearchQuery | components/chat-interface.tsx:287 | the query holds what was typed |
| ChatInterface.ChatInterface.SelectContact | components/chat-interface.tsx:318 | the clicked contact is selected |
| ChatInterface.ChatInterface.Back | components/chat-interface.tsx:480 | no contact is selected |
| ChatInterface.ChatInterface.SetNewMessage | components/chat-interface.tsx:651 | the draft holds what was typed |
| ChatInterface.ChatInterface.OpenNewChat | components/chat-interface.tsx:306 | the new-chat form is shown |
| ChatInterface.ChatInterface.SetNewChatPhone | components/chat-interface.tsx:407 | the new-chat number holds what was typed |
| ChatInterface.ChatInterface.SetNewChatName | components/chat-interface.tsx:419 | the new-chat name holds what was typed |
| ChatInterface.ChatInterface.CancelNewChat | components/chat-interface.tsx:382-386 | the new-chat form is hidden and both its fields are cleared |
| ChatInterface.ChatInterface.SendMessage | components/chat-interface.tsx:131-148 | with a blank draft or no contact selected nothing changes; otherwise exactly one message with the trimmed text, the user as sender and status `sent` is appended, the draft cleared and its delivery scheduled |
| ChatInterface.OutgoingMessage | components/chat-interface.tsx:134-140 | the appended message has the given id, the user as sender and status `sent`, and a non-blank draft goes out without surrounding white space |
| ChatInterface.ChatInterface.HandleKeyPress | components/chat-interface.tsx:150-154 | Enter sends as above; any other key changes nothing |
| ChatInterface.ChatInterface.DeliveryTimerFired | components/chat-interface.tsx:145-147 | the oldest scheduled message is marked delivered |
| ChatInterface.ChatInterface.CreateNewChat | components/chat-interface.tsx:210-242 | a failing check is alerted with its message and nothing else changes; otherwise the new contact, with the trimmed name and formatted number, goes to the front of the list and is selected, and the form is hidden and cleared |
| ChatInterface.NewContact | components/chat-interface.tsx:223-232 | the new contact has the given id, no unread messages, is offline and not from the device; a digits-only number is stored in normalised form, and a non-blank name without surrounding white space |
| ChatInterface.SendAndDeliver | components/chat-interface.tsx:131-148 | a message with a new id sent to a selected contact and then delivered appears once, at the end, trimmed and delivered |
| MutualContactChat.MutualContacts | components/mutual-contact-chat.tsx:79 | the mutual group holds exactly the listed contacts marked mutual |
| MutualContactChat.OneWayContacts | components/mutual-contact-chat.tsx:80 | the one-way group holds exactly the listed contacts not marked mutual |
| MutualContactChat.GroupsPartition | components/mutual-contact-chat.tsx:79-80 | the mutual and one-way groups are disjoint, hold only contacts of their kind, and together hold every contact exactly once |
| MutualContactChat.GroupsKeepOrder | components/mutual-contact-chat.tsx:79-80 | each group keeps list order: the group of a concatenation is the concatenation of the groups |
| MutualContactChat.FilteredMutual | components/mutual-contact-chat.tsx:82-84 | the searched mutual group holds exactly the mutual contacts that match the query |
| MutualContactChat.FilteredOneWay | components/mutual-contact-chat.tsx:86-88 | the searched one-way group holds exactly the one-way contacts that match the query |
| MutualContactChat.FilteredGroups | components/mutual-contact-chat.tsx:79-88 | each searched group is exactly the contacts of that kind that match the query, in list order |
| MutualContactChat.FilteredGroupsPartition | components/mutual-contact-chat.tsx:79-88 | together the two searched groups hold exactly the matching contacts, each once |
| MutualContactChat.EmptyQueryShowsGroups | components/mutual-contact-chat.tsx:82-88 | with the empty query each searched group is the whole group |
| MutualContactChat.MarkDelivered | components/mutual-contact-chat.tsx:105-107 | every message with the delivered id becomes delivered; no other message and no other field changes |
| MutualContactChat.MarkDeliveredAbsent | components/mutual-contact-chat.tsx:105-107 | a list without a message of that id is left as it is |
| MutualContactChat.MutualContactChat.constructor | components/mutual-contact-chat.tsx:49-59 | the screen starts with the given contacts, nothing selected, no messages, empty fields and no timers |
| MutualContactChat.MutualContactChat.SelectContact | components/mutual-contact-chat.tsx:386 | the clicked contact is selected, and the composer is available exactly when that contact is mutual |
| MutualContactChat.MutualContactChat.Back | components/mutual-contact-chat.tsx:124 | no contact is selected and the composer is unavailable |
| MutualContactChat.MutualContactChat.SetSearchQuery | components/mutual-contact-chat.tsx:333 | the query holds what was typed |
| MutualContactChat.MutualContactChat.SetNewMessage | components/mutual-contact-chat.tsx:273 | the draft holds what was typed |
| MutualContactChat.MutualContactChat.SendMessage | components/mutual-contact-chat.tsx:90-108 | with a blank draft or without a selected mutual contact nothing changes; otherwise exactly one message from this user, trimmed and `sent`, is appended, the draft cleared and its delivery scheduled |
| MutualContactChat.MutualContactChat.HandleKeyPress | components/mutual-contact-chat.tsx:110-114 | Enter sends as above; any other key changes nothing |
| MutualContactChat.MutualContactChat.DeliveryTimerFired | components/mutual-contact-chat.tsx:105-107 | the oldest scheduled message is marked delivered |
| MutualContactChat.OneWayCannotSend | components/mutual-contact-chat.tsx:91 | nothing can be sent to a one-way contact, whatever the draft |
| MutualContactChat.SendAndDeliver | components/mutual-contact-chat.tsx:90-108 | a message with a new id sent to a mutual contact and then delivered appears once, at the end, trimmed and delivered |
| CallInterface.TwoDigits | components/call-interface.tsx:60 | the padded number is all digits, at least two of them, and exactly two below 100 |
| CallInterface.FormatDuration | components/call-interface.tsx:57-61 | the display is at least `mm:ss` long, with the `:` before the last two characters |
| CallInterface.ParseTwoDigits | components/call-interface.tsx:60 | padding with a leading zero does not change the number the digits denote |
| CallInterface.FormatDurationLength | components/call-interface.tsx:57-61 | under 100 minutes the display is exactly five characters with `:` in the middle |
| CallInterface.FormatDurationSeconds | components/call-interface.tsx:57-61 | the seconds field always reads `00` to `59` |
| CallInterface.FormatDurationRoundTrip | components/call-interface.tsx:57-61 | both fields are digits, and minutes times 60 plus seconds read back from the display is the duration |
| CallInterface.CallScreen.constructor | components/call-interface.tsx:27-47 | the screen opens connecting, unmuted, speaker off, with video on exactly for a video call, a zero duration, and the connection delay started only for an outgoing call |
| CallInterface.CallScreen.ConnectTimerFiredAsWritten | components/call-interface.tsx:39-47 | when the connection delay elapses the call becomes connected and its duration starts, whatever the call's state |
| CallInterface.CallScreen.ConnectTimerFired | components/call-interface.tsx:39-54 | when the connection delay elapses a call still connecting becomes connected and its duration starts, while an ended call stays ended |
| CallInterface.CallScreen.Tick | components/call-interface.tsx:50-54 | each second of a running duration adds one |
| CallInterface.CallScreen.Accept | components/call-interface.tsx:215-219 | accepting a ringing call calls `onAccept` once, connects the call and starts its duration |
| CallInterface.CallScreen.Reject | components/call-interface.tsx:209 | rejecting a ringing call calls `onReject` once and changes nothing on the screen |
| CallInterface.CallScreen.HandleEndCall | components/call-interface.tsx:64-68 | ending stops the duration, marks the call ended and schedules `onEndCall` |
| CallInterface.CallScreen.EndTimerFired | components/call-interface.tsx:69-71 | after the delay `onEndCall` is called once |
| CallInterface.CallScreen.ToggleMute | components/call-interface.tsx:106-109 | the mute flag flips |
| CallInterface.CallScreen.ToggleVideo | components/call-interface.tsx:112-115 | on a video call, the only kind whose screen shows the video toggle (`components/call-interface.tsx:238`), the video flag flips |
| CallInterface.CallScreen.ToggleSpeaker | components/call-interface.tsx:118-121 | the speaker flag flips |
| CallInterface.EndBeforeConnectAsWritten | components/call-interface.tsx:39-72 | an outgoing call ended before its connection delay elapses shows as connected again, with its duration running, when the delay elapses before the screen is gone |
| CallInterface.EndBeforeConnect | components/call-interface.tsx:39-72 | with the delay ignored after the end, such a call stays ended and its duration stays stopped |
| CallInterface.OutgoingCallRuns | components/call-interface.tsx:39-61 | an outgoing call connects after the delay and, after `n` ticks, its duration is `n`, and the `mm:ss` display read back gives `n` |
| RelayServer.Last | server.js:40 | `slice(-n)` gives the last `n` elements, or all of them when there are fewer |
| RelayServer.LastSnoc | server.js:57-62 | cutting the log back to its last `n` after every append keeps exactly the last `n` of everything appended |
| RelayServer.LastOfLast | server.js:40-62 | the last 50 of the last 100 are the last 50 |
| RelayServer.Server.constructor | server.js:22-23 | the server starts with no users, an empty log and nothing sent |
| RelayServer.Server.Join | server.js:29-43 | the user is stored, or replaced, under the socket id; every client gets the users list and the joiner the last 50 accepted messages, in order; the log stays the last 100 accepted messages |
| RelayServer.Server.Message | server.js:46-67 | a socket that has not joined changes nothing; otherwise the message, with the sender's stored name and colour, is accepted, broadcast to every client, and the log becomes the last 100 accepted messages, never longer |
| RelayServer.Server.Disconnect | server.js:70-79 | a joined socket's user is removed and the users list re-sent; an unknown socket changes nothing |
| RelayServer.TwoMessages | server.js:46-67 | two messages from a joined socket are both accepted in order, and the second is last in the log |
| HiChatApp.RestoredStep | app/page.tsx:14-33 | a reload opens the chat exactly when the three session keys and a contact list are stored, the sync screen exactly when the session keys are stored without contacts, and sign-in exactly when a session key is missing or empty |
| HiChatApp.RestoreAfterSignIn | app/page.tsx:14-42 | after signing in with a non-empty phone and name a reload opens the sync screen, or the chat if contacts were already stored |
| HiChatApp.RestoreAfterLogout | app/page.tsx:14-64 | after logging out a reload opens the sign-in screen, whatever was stored before |
| HiChatApp.RestoreAfterSync | app/page.tsx:14-53 | in a signed-in session a reload after a sync opens the chat, and after a resync request the sync screen |
| HiChatApp.HiChatApp.constructor | app/page.tsx:8-12 | the page starts at sign-in with no user and no contacts, over the browser's store |
| HiChatApp.HiChatApp.Rendered | app/page.tsx:66-82 | exactly one screen is rendered for each step, and the sync and chat screens get the current phone and name |
| HiChatApp.HiChatApp.Restore | app/page.tsx:14-33 | a stored session restores the phone, the name and the step, and the contacts when stored; without one nothing changes |
| HiChatApp.SignInStore | app/page.tsx:38-40 | with a non-empty phone and name the stored session is signed in; a well-formed store stays well formed, and every other key is kept |
| HiChatApp.HiChatApp.HandleAuthSuccess | app/page.tsx:35-42 | the phone and name are kept and stored with the session flag, and the sync screen shown |
| HiChatApp.HiChatApp.HandleSyncComplete | app/page.tsx:44-48 | the synced contacts are kept and stored, and the chat shown |
| HiChatApp.HiChatApp.HandleResyncContacts | app/page.tsx:50-53 | only the stored contact list is dropped, and the sync screen shown |
| HiChatApp.LogoutStore | app/page.tsx:60-63 | the stored session is signed out with no contact list, a well-formed store stays well formed, and every other key is kept |
| HiChatApp.HiChatApp.HandleLogout | app/page.tsx:55-64 | the page is reset to sign-in and exactly the four session keys are removed |
| HiChatApp.SignInSyncReload | app/page.tsx:14-48 | signing in, syncing and reloading opens the chat with the same user and contacts |
| HiChatApp.LogoutReload | app/page.tsx:14-64 | logging out and reloading opens the sign-in screen |
| P2PPage.RestoredAuth | app/p2p/page.tsx:12-23 | a reload is authenticated exactly when the three session keys are set and non-empty |
| P2PPage.RestoreAfterLogout | app/p2p/page.tsx:34-41 | after logging out here a reload of either page shows sign-in, and a stored contact list is kept |
| P2PPage.SessionShared | app/p2p/page.tsx:25-32 | a sign-in on this page is a sign-in on the main page too, because both write the same three keys |
| P2PPage.P2PPage.constructor | app/p2p/page.tsx:7-10 | the page starts unauthenticated with no user, over the browser's store |
| P2PPage.P2PPage.Rendered | app/p2p/page.tsx:43-47 | the chat is rendered exactly when authenticated, with the phone number as both the user id and the phone |
| P2PPage.P2PPage.Restore | app/p2p/page.tsx:12-23 | a stored session restores the phone and the name and authenticates; without one nothing changes |
| P2PPage.P2PPage.HandleAuthSuccess | app/p2p/page.tsx:25-32 | the page is authenticated with the phone and name, which are stored with the session flag |
| P2PPage.LogoutStore | app/p2p/page.tsx:38-40 | the stored session is signed out, and every other key, the contact list among them, is kept |
| P2PPage.P2PPage.HandleLogout | app/p2p/page.tsx:34-41 | the page is reset and exactly the three session keys are removed |
| P2PPage.SignInReload | app/p2p/page.tsx:12-32 | signing in and reloading shows the chat for the same user |
| P2PPage.LogoutReload | app/p2p/page.tsx:12-41 | logging out and reloading shows sign-in |
| Text.Digits | components/phone-auth.tsx:28 | stripping non-digits leaves only digits, never more characters than given, and leaves a digit string as it is |
| Text.DigitsConcat | lib/contact-verification-service.ts:76 | stripping non-digits from a concatenation strips each part separately |
| Text.Contains | components/chat-interface.tsx:128 | the empty string occurs in every string, and a string occurs only in strings at least as long |
| Text.ContainsAt | components/chat-interface.tsx:128 | `includes` holds exactly when the substring occurs at some position |
| Text.ToLower | components/chat-interface.tsx:128 | lower-casing keeps the length, leaves no upper-case ASCII letter and changes no other character |
| Text.TrimStartSuffix | components/phone-auth.tsx:100 | trimming the start removes a run of white space only, and what is left starts with another character |
| Text.TrimEndPrefix | components/phone-auth.tsx:100 | trimming the end removes a run of white space only, and what is left ends with another character |
| Text.Trim | components/phone-auth.tsx:100 | trimming gives a contiguous piece of the string with only white space around it, which neither starts nor ends with white space |
| Text.BlankIffAllSpace | components/phone-auth.tsx:100 | a string trims to empty exactly when every character is white space |
| Text.TrimIdempotent | components/phone-auth.tsx:119 | trimming a trimmed string changes nothing |
| Text.IndexOf | components/chat-interface.tsx:186 | the index found holds the character and no earlier position does |
| Text.Split | components/chat-interface.tsx:186 | splitting gives at least one part and no part contains the separator |
| Text.JoinSplit | components/chat-interface.tsx:186 | joining the parts with the separator gives back the original string |
| Text.SplitConcat | components/chat-interface.tsx:186 | splitting two strings joined by the separator gives the parts of the first followed by those of the second |
| Text.Heads | components/chat-interface.tsx:187-188 | the first characters of the parts number at most the parts |
| Text.HeadsSingle | components/chat-interface.tsx:187-188 | one part contributes its first character, or nothing when it is empty; with HeadsConcat this fixes every character of the result |
| Text.HeadsConcat | components/chat-interface.tsx:187-188 | the first characters of two runs of parts are those of each run, concatenated |
| Text.Initials | components/chat-interface.tsx:184-190 | initials hold no lower-case ASCII letter; which letters they are is stated by InitialsWord and InitialsConcat |
| Text.InitialsWord | components/chat-interface.tsx:184-190 | the initial of a single non-empty word is its first character, upper-cased |
| Text.ToUpper | components/chat-interface.tsx:189 | upper-casing keeps the length, leaves no lower-case ASCII letter and changes no other character |
| Text.InitialsConcat | components/chat-interface.tsx:184-190 | the initials of two names joined by a space are the initials of each, run together |
| Text.InitialsBound | components/chat-interface.tsx:184-190 | there is at most one initial per word, and a name without spaces has one initial, or none when it is empty |
| Text.NatToString | components/phone-auth.tsx:49 | the decimal rendering is non-empty, all digits, two or more digits exactly from 10 on, and at most two below 100 |
| Text.ParseNatToString | components/call-interface.tsx:60 | reading back the decimal rendering gives the number |
| Text.ParseNatLeadingZero | components/call-interface.tsx:60 | a leading zero does not change the number a digit string denotes |
| Text.PadStart | components/call-interface.tsx:60 | padding reaches the requested length, or keeps the string when it is already long enough, ends with the string, and fills the front with the pad character |
| Seqs.Filter | components/mutual-contact-chat.tsx:79-80 | `filter` keeps exactly the elements satisfying the test, each an element of the original, and never more of any value than the original holds |
| Seqs.FilterAll | components/chat-interface.tsx:127-129 | a test every element passes keeps the whole list |
| Seqs.FilterConcat | components/mutual-contact-chat.tsx:79-80 | filtering a concatenation filters each part, so the kept elements keep their order |
| Seqs.FilterFilter | components/mutual-contact-chat.tsx:79-88 | filtering a filtered list is filtering once with both tests |
| Seqs.FilterPartition | components/mutual-contact-chat.tsx:79-80 | filtering with a test and with its complement splits the list into two parts holding every element exactly once |
| Seqs.RemoveAll | hooks/use-p2p-chat.ts:50 | removing a value leaves no occurrence of it, keeps every other element and adds none |
| Seqs.RemoveAllDistinct | hooks/use-p2p-chat.ts:48 | removing a value from a list without repetitions keeps it without repetitions |
| Seqs.FilterIdempotent | hooks/use-p2p-chat.ts:172 | filtering twice with the same test is filtering once |
| Seqs.RemoveAllAgain | hooks/use-p2p-chat.ts:48-50 | removing a value twice is removing it once, and an occurrence appended at the end is removed with the rest |

## Left out

- PeerJS is not modelled: peer creation, the peer server and the dynamic import (`lib/p2p-service.ts:37-65`). A data connection is a record with an `open` flag and whether `send` throws, and messages handed to it go to an outbox.
- The outcome of the 10-second race in `connectToPeer` is the parameter `ConnectOutcome`.
- P2PService.P2PService.HandleMessage: a `user-info` message whose content is not a user record is ignored here. The source casts the content without checking it (`lib/p2p-service.ts:266-268`). For an object without an `id` it stores that object under the key `undefined` and notifies the user subscribers. For `null` content it throws. The registry holds only user records keyed by string ids, so neither outcome is modelled.
- P2PService.P2PService.SetLocalUser: the copy of the local user written to `localStorage` under `p2p-user` (`lib/p2p-service.ts:79`) is not modelled. Nothing in the source reads that key back.
- `lib/webrtc-service.ts` is not part of this model. Media acquisition, offer creation and the answer to an offer are parameters, so either success or failure can be passed in.
- Express, Socket.IO and CORS wiring, the port, and all console logging are left out.
- Timer delays and Promise ordering are not modelled as time. Each delayed callback is an event that may fire whenever it is pending, in any order the model allows.
- `Date.now()` ids and `new Date()` timestamps are parameters. The message `timestamp` fields are dropped.
- The random draw of `generateOTP` is a parameter. Every event that delivers a code requires it to be in the source's range, 100000 to 999999.
- The file upload simulation (`components/chat-interface.tsx:156-182`) is left out. Its progress is floating point and random.
- `localStorage` is a map from keys to values. A JSON-serialised contact list is an opaque value that reads back as the list it was written from.
- HiChatApp.HiChatApp.Restore and P2PPage.P2PPage.Restore require a well-formed store. A store holding something this page never writes, which `JSON.parse` might reject, is not modelled.
- The chat hook's persistence of contacts and messages under `p2p-contacts` and `p2p-messages` is left out. This covers both loading at mount and saving.
- `toLowerCase` and `toUpperCase` map ASCII letters only.
- `localeCompare` is plain lexicographic order on character codes.
- ContactVerification.SortContacts is an insertion sort. It is proved to give a sorted permutation. `Array.prototype.sort` is stable, and so is this sort, but stability is not stated.
- `requestContactAccess` and `getDeviceContacts` are left out: they only resolve fixed, simulated results after a delay. The device contacts and the registered-user fixture are parameters of `SyncContactsWithHey`.
- `updateContactStatus` changes the stored object in place. So an entry already returned by an earlier sync, which is the same object, sees the change too. The model stores values, so this aliasing is not captured.
- React closures capture state as it was when a handler was created. The model runs every handler against the current state:
  - `handleIncomingMessage` reads the contacts captured at mount (`hooks/use-p2p-chat.ts:95-106`);
  - the call hook's signalling handler reads `currentCall` and `endCall` as of setup;
  - phone-auth's delayed callbacks read the phone, code and name as of the click. The OTP comparison is fixed when the code is submitted, as in the source.
- The chat module keeps the module-level `phoneContacts` array as a field of the screen. It is seeded by the constructor, so it does not survive across screen instances.
- The return-to-idle timer of `endCall` sets the state to `idle` even when a new call has started since. The model keeps that behaviour and claims no finding for it, because nothing in the source shows which outcome was intended.
- Local video capture and its cleanup in the call screen are left out (`components/call-interface.tsx:75-103`). The same goes for audio and video track enabling beyond the flags.
- Presentation is left out: status labels, banners' exact wording beyond their kind, initials rendering, scrolling, theme toggling, `maxLength` attributes on inputs, and the files `components/p2p-chat-interface.tsx`, `components/contact-sync-interface.tsx`, `contexts/theme-context.tsx`, `app/layout.tsx` and `public/electron.js`.
- `typing` and `read-receipt` messages are only forwarded to subscribers, as in the source. Nothing acts on them, and no message ever becomes `read`.

## Findings

| source | as written | input that shows it | evidently intended | confidence | as-written member | corrected member |
|---|---|---|---|---|---|---|
| hooks/use-p2p-chat.ts:26-33 | `setLocalUser` is called at mount, right after the service is created. The peer has no id yet, so the call returns without setting anything (`lib/p2p-service.ts:69`). Nothing sets the local user later, so every send, contact request and accept returns false. | Mount the hook, let the peer open with any id, add a friend as contact and discovered user, then send a message: the send returns false and the conversation stays empty. | The local user is set once the peer id is known. The same sequence then sends the message and logs it in the friend's conversation. | not executed | P2PChat.SendAfterMountAsWritten | P2PChat.SendAfterMount |
| components/call-interface.tsx:39-72 | The 2-second connection timer of an outgoing call is cleared only when the screen unmounts. `handleEndCall` marks the call ended but leaves that timer running. | End an outgoing call within 2 seconds of opening the screen, and let the connection timer fire before `onEndCall` removes the screen 0.5 seconds later. The call shows as connected again, and its duration interval starts. Nothing ever clears that interval. | A call that has ended stays ended, and its duration stays stopped. | not executed | CallInterface.EndBeforeConnectAsWritten | CallInterface.EndBeforeConnect |
