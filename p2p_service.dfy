/**
 * The peer session layer (`P2PService`): a registry of discovered users keyed by
 * user id, a map of live data connections keyed by peer id, typed message
 * routing, and subscriber notification.
 *
 * The PeerJS transport is abstracted: a data connection is a record telling
 * whether it is `open` and whether `send` would throw; every message handed to
 * a connection is appended to `outbox`. Subscriber callbacks are numbered
 * handles, and every callback invocation is appended to `notices`, in the
 * order the service makes them.
 */
module P2PService {
  import opened Wrappers
  import opened Seqs
  import opened OrderedMaps

  /** The `type` tag of a message; a tag outside the six known ones arrives as `Other`. */
  datatype Kind = UserInfo | Chat | ContactRequest | ContactAccept | Typing | ReadReceipt | Other(tag: string)

  datatype P2PUser = P2PUser(id: string, name: string, phone: string, peerId: string, online: bool)

  /** The `content` of a message: a user record (user-info), `{ text }` (chat), `{ userInfo }` (contact request/accept), or anything else. */
  datatype Content = UserRecord(user: P2PUser) | TextBody(text: string) | UserInfoBody(userInfo: P2PUser) | OtherContent

  datatype P2PMessage = P2PMessage(id: string, kind: Kind, sender: string, senderName: string, recipient: Option<string>, content: Content)

  /** What the transport reports about one data connection: `conn.open`, and whether `conn.send` throws. */
  datatype DataConnection = DataConnection(open: bool, sendThrows: bool)

  /** The PeerJS object: not created (or destroyed), created but not yet opened, or opened with its id. */
  datatype PeerState = NoPeer | Unopened | Ready(id: string)

  /** How a `connectToPeer` attempt settles: the connection opened first, or an error or the 10 s timeout came first. */
  datatype ConnectOutcome = OpenedFirst(conn: DataConnection) | FailedFirst

  /** One `conn.send(message)` on the connection to `peerId`. */
  datatype Delivery = Delivery(peerId: string, message: P2PMessage)

  /** One invocation of a subscriber callback. */
  datatype Notice =
    | MessageNotice(subscriber: nat, message: P2PMessage)
    | UsersNotice(subscriber: nat, users: seq<P2PUser>)
    | ConnectionNotice(subscriber: nat, peerId: string, connected: bool)

  type Connections = OrderedMap<string, DataConnection>

  /** `sendToPeer` succeeds: a connection for `peerId` exists, is open, and `send` does not throw. */
  predicate Sendable(connections: Connections, peerId: string)
  {
    peerId in connections.entries && connections.entries[peerId].open && !connections.entries[peerId].sendThrows
  }

  /** The peers of `peers` a send to would succeed on, in order: none of them is missed. */
  function SendablePeers(connections: Connections, peers: seq<string>): (r: seq<string>)
    ensures forall p :: p in peers && Sendable(connections, p) ==> p in r
  {
    if peers == [] then []
    else
      var p := peers[|peers| - 1];
      SendablePeers(connections, peers[..|peers| - 1]) + (if Sendable(connections, p) then [p] else [])
  }

  /** `m` sent to each of `peers`, in order. */
  function Deliveries(peers: seq<string>, m: P2PMessage): seq<Delivery>
  {
    if peers == [] then [] else Deliveries(peers[..|peers| - 1], m) + [Delivery(peers[|peers| - 1], m)]
  }

  lemma DeliveriesSnoc(peers: seq<string>, p: string, m: P2PMessage)
    ensures Deliveries(peers + [p], m) == Deliveries(peers, m) + [Delivery(p, m)]
  {
    assert (peers + [p])[..|peers|] == peers;
  }

  /** The message subscribers, told of `m` in subscription order. */
  function MessageNotices(subscribers: seq<nat>, m: P2PMessage): seq<Notice>
  {
    seq(|subscribers|, i requires 0 <= i < |subscribers| => MessageNotice(subscribers[i], m))
  }

  function UsersNotices(subscribers: seq<nat>, users: seq<P2PUser>): seq<Notice>
  {
    seq(|subscribers|, i requires 0 <= i < |subscribers| => UsersNotice(subscribers[i], users))
  }

  function ConnectionNotices(subscribers: seq<nat>, peerId: string, connected: bool): seq<Notice>
  {
    seq(|subscribers|, i requires 0 <= i < |subscribers| => ConnectionNotice(subscribers[i], peerId, connected))
  }

  /** The `user-info` announcement of the local user. */
  function UserInfoMessage(msgId: string, user: P2PUser): P2PMessage
  {
    P2PMessage(msgId, UserInfo, user.id, user.name, None, UserRecord(user))
  }

  /** The envelope of a chat message, contact request or contact accept from `user` to `recipientId`. */
  function Addressed(msgId: string, kind: Kind, user: P2PUser, recipientId: string, content: Content): P2PMessage
  {
    P2PMessage(msgId, kind, user.id, user.name, Some(recipientId), content)
  }

  /**
   * What an addressed send hands to the transport: `m`, to the recipient's
   * recorded peer id, when there is a local user, the recipient has been
   * discovered and its connection can send; nothing otherwise.
   */
  function AddressedDeliveries(localUser: Option<P2PUser>, discovered: OrderedMap<string, P2PUser>, connections: Connections, recipientId: string, m: P2PMessage): (r: seq<Delivery>)
    ensures |r| <= 1
    ensures r != [] ==> r[0].message == m && Sendable(connections, r[0].peerId)
    ensures localUser.None? || recipientId !in discovered.entries ==> r == []
  {
    if localUser.Some? && recipientId in discovered.entries && Sendable(connections, discovered.entries[recipientId].peerId)
    then [Delivery(discovered.entries[recipientId].peerId, m)]
    else []
  }

  /** Whether `handleMessage` passes a message of this kind to the message subscribers. */
  predicate Forwarded(k: Kind)
  {
    k.Chat? || k.ContactRequest? || k.ContactAccept? || k.Typing? || k.ReadReceipt?
  }

  /** Broadcasting sends to each connection it can send on, once, in connection order; so never to more peers than there are connections. */
  lemma {:induction false} SendablePeersSnoc(connections: Connections, peers: seq<string>, p: string)
    ensures SendablePeers(connections, peers + [p]) == SendablePeers(connections, peers) + (if Sendable(connections, p) then [p] else [])
    ensures |SendablePeers(connections, peers)| <= |peers|
  {
    assert (peers + [p])[..|peers|] == peers;
    SendablePeersBound(connections, peers);
  }

  /** Each peer is sent to at most once. */
  lemma {:induction false} SendablePeersBound(connections: Connections, peers: seq<string>)
    ensures |SendablePeers(connections, peers)| <= |peers|
    ensures forall p :: p in SendablePeers(connections, peers) ==> p in peers && Sendable(connections, p)
  {
    if peers != [] {
      SendablePeersBound(connections, peers[..|peers| - 1]);
    }
  }

  class P2PService {
    var peer: PeerState
    var connections: Connections
    var localUser: Option<P2PUser>
    var discoveredUsers: OrderedMap<string, P2PUser>
    var messageCallbacks: seq<nat>
    var userUpdateCallbacks: seq<nat>
    var connectionCallbacks: seq<nat>
    /** Every message handed to a connection's `send`, in order. */
    var outbox: seq<Delivery>
    /** Every subscriber callback invocation, in order. */
    var notices: seq<Notice>

    ghost predicate Valid()
      reads this
    {
      connections.Valid() && discoveredUsers.Valid()
    }

    /** `new P2PService()`: no peer yet (creating it is asynchronous), nothing connected, discovered or subscribed. */
    constructor ()
      ensures Valid()
      ensures peer == NoPeer && localUser == None
      ensures connections == Empty() && discoveredUsers == Empty()
      ensures messageCallbacks == [] && userUpdateCallbacks == [] && connectionCallbacks == []
      ensures outbox == [] && notices == []
    {
      peer := NoPeer;
      connections := Empty();
      localUser := None;
      discoveredUsers := Empty();
      messageCallbacks := [];
      userUpdateCallbacks := [];
      connectionCallbacks := [];
      outbox := [];
      notices := [];
    }

    /** The PeerJS object has been created (the dynamic import succeeded); it has no id until it opens. */
    method PeerCreated()
      requires Valid()
      modifies this`peer
      ensures Valid() && peer == Unopened
    {
      peer := Unopened;
    }

    /** The peer's `open` event: it now has an id, and the local user (if any) is announced to every connection. */
    method PeerOpened(id: string, msgId: string)
      requires Valid() && peer == Unopened
      modifies this`peer, this`outbox
      ensures Valid() && peer == Ready(id)
      ensures outbox == old(outbox) + (if localUser.Some? then Deliveries(SendablePeers(connections, connections.keys), UserInfoMessage(msgId, localUser.value)) else [])
    {
      peer := Ready(id);
      BroadcastUserInfo(msgId);
    }

    /** `getPeerId()`: `peer?.id || null`, so an empty id reads as none. */
    function GetPeerId(): (r: Option<string>)
      reads this
      ensures r.Some? <==> peer.Ready? && peer.id != ""
      ensures r.Some? ==> r.value == peer.id
    {
      if peer.Ready? && peer.id != "" then Some(peer.id) else None
    }

    /** `setLocalUser`: ignored while the peer has no id; otherwise records the user with the peer id and announces it. */
    method SetLocalUser(id: string, name: string, phone: string, msgId: string)
      requires Valid()
      modifies this`localUser, this`outbox
      ensures Valid()
      ensures old(GetPeerId()).None? ==> localUser == old(localUser) && outbox == old(outbox)
      ensures old(GetPeerId()).Some? ==>
        localUser == Some(P2PUser(id, name, phone, old(GetPeerId()).value, true)) &&
        outbox == old(outbox) + Deliveries(SendablePeers(connections, connections.keys), UserInfoMessage(msgId, localUser.value))
    {
      if GetPeerId().None? {
        return;
      }
      localUser := Some(P2PUser(id, name, phone, peer.id, true));
      BroadcastUserInfo(msgId);
    }

    /**
     * `connectToPeer`: refused without a peer object or when a connection to
     * `peerId` already exists. Otherwise the result is whether the connection
     * opened before an error or the timeout; only then is it established here
     * (a connection opening after the timeout arrives later as `HandleConnection`).
     */
    method ConnectToPeer(peerId: string, outcome: ConnectOutcome, msgId: string) returns (ok: bool)
      requires Valid()
      modifies this`connections, this`notices, this`outbox
      ensures Valid()
      ensures ok <==> !old(peer).NoPeer? && peerId !in old(connections.entries) && outcome.OpenedFirst?
      ensures !ok ==> connections == old(connections) && notices == old(notices) && outbox == old(outbox)
      ensures ok ==> connections == old(connections).Set(peerId, outcome.conn)
      ensures ok ==> notices == old(notices) + ConnectionNotices(connectionCallbacks, peerId, true)
      ensures ok ==> (outbox == old(outbox) +
        (if localUser.Some? && outcome.conn.open && !outcome.conn.sendThrows then [Delivery(peerId, UserInfoMessage(msgId, localUser.value))] else []))
    {
      if peer.NoPeer? || peerId in connections.entries {
        return false;
      }
      if outcome.FailedFirst? {
        return false;
      }
      HandleConnection(peerId, outcome.conn, msgId);
      ok := true;
    }

    /**
     * An established connection (ours or incoming): stored under its peer id,
     * every connection subscriber told `(peerId, true)`, and the local user's
     * info sent to it when there is a local user.
     */
    method HandleConnection(peerId: string, conn: DataConnection, msgId: string)
      requires Valid()
      modifies this`connections, this`notices, this`outbox
      ensures Valid()
      ensures connections == old(connections).Set(peerId, conn)
      ensures notices == old(notices) + ConnectionNotices(connectionCallbacks, peerId, true)
      ensures outbox == old(outbox) +
        (if localUser.Some? && conn.open && !conn.sendThrows then [Delivery(peerId, UserInfoMessage(msgId, localUser.value))] else [])
    {
      connections := connections.Set(peerId, conn);
      notices := notices + ConnectionNotices(connectionCallbacks, peerId, true);
      if localUser.Some? {
        var _ := SendToPeer(peerId, UserInfoMessage(msgId, localUser.value));
      }
    }

    /** `connectViaPeerId` (connecting by a peer id shared by QR code): the same as `connectToPeer`. */
    method ConnectViaPeerId(peerId: string, outcome: ConnectOutcome, msgId: string) returns (ok: bool)
      requires Valid()
      modifies this`connections, this`notices, this`outbox
      ensures Valid()
      ensures ok <==> !old(peer).NoPeer? && peerId !in old(connections.entries) && outcome.OpenedFirst?
      ensures !ok ==> connections == old(connections) && notices == old(notices) && outbox == old(outbox)
      ensures ok ==> connections == old(connections).Set(peerId, outcome.conn)
      ensures ok ==> notices == old(notices) + ConnectionNotices(connectionCallbacks, peerId, true)
      ensures ok ==> (outbox == old(outbox) +
        (if localUser.Some? && outcome.conn.open && !outcome.conn.sendThrows then [Delivery(peerId, UserInfoMessage(msgId, localUser.value))] else []))
    {
      ok := ConnectToPeer(peerId, outcome, msgId);
    }

    /** The connection's `close` or `error` event: the peer id is dropped and every connection subscriber told `(peerId, false)`. */
    method HandleConnectionLost(peerId: string)
      requires Valid()
      modifies this`connections, this`notices
      ensures Valid()
      ensures connections == old(connections).Delete(peerId)
      ensures peerId !in GetConnectedPeers()
      ensures notices == old(notices) + ConnectionNotices(connectionCallbacks, peerId, false)
    {
      connections := connections.Delete(peerId);
      notices := notices + ConnectionNotices(connectionCallbacks, peerId, false);
    }

    /** `sendToPeer`: sends only over an open connection whose `send` does not throw, and reports whether it did. */
    method SendToPeer(peerId: string, m: P2PMessage) returns (ok: bool)
      modifies this`outbox
      ensures ok == Sendable(connections, peerId)
      ensures outbox == old(outbox) + (if ok then [Delivery(peerId, m)] else [])
    {
      if peerId in connections.entries {
        var conn := connections.entries[peerId];
        if conn.open {
          if conn.sendThrows {
            return false;
          }
          outbox := outbox + [Delivery(peerId, m)];
          return true;
        }
      }
      return false;
    }

    /** `broadcast`: tries every connection in order and counts the sends that succeeded. */
    method Broadcast(m: P2PMessage) returns (sent: nat)
      requires Valid()
      modifies this`outbox
      ensures outbox == old(outbox) + Deliveries(SendablePeers(connections, connections.keys), m)
      ensures sent == |SendablePeers(connections, connections.keys)| <= |connections.keys|
    {
      sent := 0;
      var i := 0;
      var conns := connections;
      var peers := conns.keys;
      ghost var start := outbox;
      ghost var done: seq<string> := [];
      while i < |peers|
        invariant 0 <= i <= |peers|
        invariant connections == conns
        invariant done == SendablePeers(conns, peers[..i])
        invariant outbox == start + Deliveries(done, m)
        invariant sent == |done|
      {
        var ok := SendToPeer(peers[i], m);
        BroadcastStep(conns, peers, i);
        if ok {
          DeliveriesSnoc(done, peers[i], m);
          done := done + [peers[i]];
          sent := sent + 1;
        }
        i := i + 1;
      }
      assert peers[..i] == peers;
      SendablePeersSnoc(conns, peers, "");
    }

    /** One loop step of `Broadcast`: the prefix grows by one peer, which is kept when sendable. */
    static lemma BroadcastStep(conns: Connections, peers: seq<string>, i: nat)
      requires i < |peers|
      ensures SendablePeers(conns, peers[..i + 1]) == SendablePeers(conns, peers[..i]) + (if Sendable(conns, peers[i]) then [peers[i]] else [])
    {
      assert peers[..i + 1] == peers[..i] + [peers[i]];
      SendablePeersSnoc(conns, peers[..i], peers[i]);
    }

    /** Shared tail of the three addressed sends: refused without a local user or for an undiscovered recipient. */
    method SendAddressed(recipientId: string, m: P2PMessage) returns (ok: bool)
      requires Valid()
      modifies this`outbox
      ensures ok <==> localUser.Some? && recipientId in discoveredUsers.entries && Sendable(connections, discoveredUsers.entries[recipientId].peerId)
      ensures outbox == old(outbox) + (if ok then [Delivery(discoveredUsers.entries[recipientId].peerId, m)] else [])
    {
      if localUser.None? {
        return false;
      }
      var recipient := discoveredUsers.Get(recipientId);
      if recipient.None? {
        return false;
      }
      ok := SendToPeer(recipient.value.peerId, m);
    }

    /** `sendMessage`: a `message` with `{ text }` to the recipient's recorded peer id. */
    method SendMessage(recipientId: string, text: string, msgId: string) returns (ok: bool)
      requires Valid()
      modifies this`outbox
      ensures ok <==> localUser.Some? && recipientId in discoveredUsers.entries && Sendable(connections, discoveredUsers.entries[recipientId].peerId)
      ensures localUser.None? ==> outbox == old(outbox)
      ensures localUser.Some? ==>
        outbox == old(outbox) + AddressedDeliveries(localUser, discoveredUsers, connections, recipientId, Addressed(msgId, Chat, localUser.value, recipientId, TextBody(text)))
    {
      if localUser.None? {
        return false;
      }
      ok := SendAddressed(recipientId, Addressed(msgId, Chat, localUser.value, recipientId, TextBody(text)));
    }

    /** `sendContactRequest`: a `contact-request` carrying the local user. */
    method SendContactRequest(recipientId: string, msgId: string) returns (ok: bool)
      requires Valid()
      modifies this`outbox
      ensures ok <==> localUser.Some? && recipientId in discoveredUsers.entries && Sendable(connections, discoveredUsers.entries[recipientId].peerId)
      ensures localUser.None? ==> outbox == old(outbox)
      ensures localUser.Some? ==>
        outbox == old(outbox) + AddressedDeliveries(localUser, discoveredUsers, connections, recipientId, Addressed(msgId, ContactRequest, localUser.value, recipientId, UserInfoBody(localUser.value)))
    {
      if localUser.None? {
        return false;
      }
      ok := SendAddressed(recipientId, Addressed(msgId, ContactRequest, localUser.value, recipientId, UserInfoBody(localUser.value)));
    }

    /** `acceptContactRequest`: a `contact-accept` carrying the local user. */
    method AcceptContactRequest(requesterId: string, msgId: string) returns (ok: bool)
      requires Valid()
      modifies this`outbox
      ensures ok <==> localUser.Some? && requesterId in discoveredUsers.entries && Sendable(connections, discoveredUsers.entries[requesterId].peerId)
      ensures localUser.None? ==> outbox == old(outbox)
      ensures localUser.Some? ==>
        outbox == old(outbox) + AddressedDeliveries(localUser, discoveredUsers, connections, requesterId, Addressed(msgId, ContactAccept, localUser.value, requesterId, UserInfoBody(localUser.value)))
    {
      if localUser.None? {
        return false;
      }
      ok := SendAddressed(requesterId, Addressed(msgId, ContactAccept, localUser.value, requesterId, UserInfoBody(localUser.value)));
    }

    /** `broadcastUserInfo`: announces the local user to every connection; nothing without a local user. */
    method BroadcastUserInfo(msgId: string)
      requires Valid()
      modifies this`outbox
      ensures outbox == old(outbox) + (if localUser.Some? then Deliveries(SendablePeers(connections, connections.keys), UserInfoMessage(msgId, localUser.value)) else [])
    {
      if localUser.None? {
        return;
      }
      var _ := Broadcast(UserInfoMessage(msgId, localUser.value));
    }

    /**
     * `handleMessage` (a connection's `data` event): `user-info` updates the
     * registry; the five other known kinds go to every message subscriber in
     * subscription order; other kinds are ignored.
     */
    method HandleMessage(m: P2PMessage)
      requires Valid()
      modifies this`discoveredUsers, this`notices
      ensures Valid()
      ensures m.kind.UserInfo? && m.content.UserRecord? ==>
        discoveredUsers == old(discoveredUsers).Set(m.content.user.id, m.content.user) &&
        notices == old(notices) + UsersNotices(userUpdateCallbacks, discoveredUsers.Values())
      ensures Forwarded(m.kind) ==> discoveredUsers == old(discoveredUsers) && notices == old(notices) + MessageNotices(messageCallbacks, m)
      ensures !(m.kind.UserInfo? && m.content.UserRecord?) && !Forwarded(m.kind) ==>
        discoveredUsers == old(discoveredUsers) && notices == old(notices)
    {
      match m.kind
      case UserInfo =>
        if m.content.UserRecord? {
          HandleUserInfo(m.content.user);
        }
      case Chat =>
        notices := notices + MessageNotices(messageCallbacks, m);
      case ContactRequest =>
        notices := notices + MessageNotices(messageCallbacks, m);
      case ContactAccept =>
        notices := notices + MessageNotices(messageCallbacks, m);
      case Typing =>
        notices := notices + MessageNotices(messageCallbacks, m);
      case ReadReceipt =>
        notices := notices + MessageNotices(messageCallbacks, m);
      case Other(_) =>
    }

    /** `handleUserInfo`: upsert by user id (a newer record replaces the older one in place), then tell every user subscriber the full list. */
    method HandleUserInfo(user: P2PUser)
      requires Valid()
      modifies this`discoveredUsers, this`notices
      ensures Valid()
      ensures discoveredUsers == old(discoveredUsers).Set(user.id, user)
      ensures user.id in discoveredUsers.entries && discoveredUsers.entries[user.id] == user
      ensures notices == old(notices) + UsersNotices(userUpdateCallbacks, discoveredUsers.Values())
    {
      discoveredUsers := discoveredUsers.Set(user.id, user);
      notices := notices + UsersNotices(userUpdateCallbacks, discoveredUsers.Values());
    }

    /** `getDiscoveredUsers()`: the registered users in first-discovery order. */
    function GetDiscoveredUsers(): (r: seq<P2PUser>)
      reads this
      requires Valid()
      ensures |r| == |discoveredUsers.keys|
      ensures forall i :: 0 <= i < |r| ==> r[i] == discoveredUsers.entries[discoveredUsers.keys[i]]
    {
      discoveredUsers.Values()
    }

    /** `getConnectedPeers()`: exactly the peer ids that have a connection, each once. */
    function GetConnectedPeers(): (r: seq<string>)
      reads this
      requires Valid()
      ensures Distinct(r)
      ensures forall p :: p in r <==> p in connections.entries
    {
      assert forall p :: p in connections.entries ==> exists i :: 0 <= i < |connections.keys| && connections.keys[i] == p;
      connections.keys
    }

    method OnMessage(subscriber: nat)
      modifies this`messageCallbacks
      ensures messageCallbacks == old(messageCallbacks) + [subscriber]
    {
      messageCallbacks := messageCallbacks + [subscriber];
    }

    method OnUserUpdate(subscriber: nat)
      modifies this`userUpdateCallbacks
      ensures userUpdateCallbacks == old(userUpdateCallbacks) + [subscriber]
    {
      userUpdateCallbacks := userUpdateCallbacks + [subscriber];
    }

    method OnConnectionUpdate(subscriber: nat)
      modifies this`connectionCallbacks
      ensures connectionCallbacks == old(connectionCallbacks) + [subscriber]
    {
      connectionCallbacks := connectionCallbacks + [subscriber];
    }

    /**
     * `disconnect()`: every connection is asked to close and the map is cleared;
     * the peer is destroyed. (Each closed connection's `close` event arrives
     * later as `HandleConnectionLost`.)
     */
    method Disconnect()
      requires Valid()
      modifies this`connections, this`peer
      ensures Valid()
      ensures connections == Empty() && GetConnectedPeers() == []
      ensures peer == NoPeer && GetPeerId() == None
    {
      connections := Empty();
      peer := NoPeer;
    }
  }
}
