/**
 * The chat hook over the peer session (`useP2PChat`): a contact set, the
 * pending contact requests, per-conversation append-only message logs, the
 * discovered users and the connected peers, all kept in React state and
 * updated by the service's subscriber callbacks and by the user's actions.
 *
 * React state is modelled as fields updated in place. The service's three
 * callbacks are registered under the handles below; `Deliver` runs the
 * hook's handler for one notice the service logged. `Date.now()` ids are
 * parameters.
 */
module P2PChat {
  import opened Wrappers
  import opened Seqs
  import opened OrderedMaps
  import opened P2PService

  const MessageHandle: nat := 0
  const UsersHandle: nat := 1
  const ConnectionHandle: nat := 2

  type Conversations = map<string, seq<P2PMessage>>

  /** `getMessages`: the log of a conversation, empty when there is none yet. */
  function Conversation(messages: Conversations, conversationId: string): (r: seq<P2PMessage>)
    ensures conversationId !in messages ==> r == []
    ensures conversationId in messages ==> r == messages[conversationId]
  {
    if conversationId in messages then messages[conversationId] else []
  }

  /** `addMessage`'s updater: `m` at the end of its conversation (created if absent); every other conversation as it was. */
  function AppendMessage(messages: Conversations, conversationId: string, m: P2PMessage): (r: Conversations)
    ensures r.Keys == messages.Keys + {conversationId}
    ensures Conversation(r, conversationId) == Conversation(messages, conversationId) + [m]
    ensures forall c :: c != conversationId ==> Conversation(r, c) == Conversation(messages, c)
  {
    messages[conversationId := Conversation(messages, conversationId) + [m]]
  }

  /** Appending to one conversation never changes the messages already in any conversation: each log only grows at its end. */
  lemma AppendMessagePrefix(messages: Conversations, conversationId: string, m: P2PMessage, c: string)
    ensures |Conversation(AppendMessage(messages, conversationId, m), c)| >= |Conversation(messages, c)|
    ensures Conversation(AppendMessage(messages, conversationId, m), c)[..|Conversation(messages, c)|] == Conversation(messages, c)
  {
    var before := Conversation(messages, c);
    assert (before + [m])[..|before|] == before;
  }

  /** The connected-peers updater on connect: every earlier occurrence of `peerId` dropped, then `peerId` appended. */
  function PeersAfterConnect(prev: seq<string>, peerId: string): (r: seq<string>)
    ensures |r| >= 1 && r[|r| - 1] == peerId && peerId !in r[..|r| - 1]
    ensures forall q :: q != peerId ==> (q in r <==> q in prev)
  {
    var kept := RemoveAll(prev, peerId);
    assert (kept + [peerId])[..|kept|] == kept;
    kept + [peerId]
  }

  /** The connected-peers updater on disconnect: every occurrence of `peerId` dropped. */
  function PeersAfterDisconnect(prev: seq<string>, peerId: string): (r: seq<string>)
    ensures peerId !in r
    ensures forall q :: q != peerId ==> (q in r <==> q in prev)
  {
    RemoveAll(prev, peerId)
  }

  /** A list of connected peers without repetitions stays so under both updates. */
  lemma PeersUpdateDistinct(prev: seq<string>, peerId: string)
    requires Distinct(prev)
    ensures Distinct(PeersAfterConnect(prev, peerId))
    ensures Distinct(PeersAfterDisconnect(prev, peerId))
  {
    RemoveAllDistinct(prev, peerId);
    var kept := RemoveAll(prev, peerId);
    var r := kept + [peerId];
    forall i, j | 0 <= i < j < |r| ensures r[i] != r[j] {
      if j == |r| - 1 {
        assert r[i] in kept;
      }
    }
  }

  /** Connecting then disconnecting the same peer leaves exactly the other peers, in their order. */
  lemma ConnectThenDisconnect(prev: seq<string>, peerId: string)
    ensures PeersAfterDisconnect(PeersAfterConnect(prev, peerId), peerId) == PeersAfterDisconnect(prev, peerId)
  {
    RemoveAllAgain(prev, peerId);
    RemoveAllAgain(RemoveAll(prev, peerId), peerId);
  }

  /** Is the request from someone other than `sender`? */
  function SentByOther(sender: string): P2PMessage -> bool
  {
    (req: P2PMessage) => req.sender != sender
  }

  /** The request-list updater of `acceptContactRequest`: every request from `sender` dropped, the others kept in order. */
  function WithoutRequestsFrom(requests: seq<P2PMessage>, sender: string): (r: seq<P2PMessage>)
    ensures forall i :: 0 <= i < |r| ==> r[i].sender != sender && r[i] in requests
    ensures forall i :: 0 <= i < |requests| && requests[i].sender != sender ==> requests[i] in r
  {
    Filter(requests, SentByOther(sender))
  }

  /** Dropping a sender's requests works piecewise, so the kept requests stay in their arrival order. */
  lemma WithoutRequestsFromConcat(a: seq<P2PMessage>, b: seq<P2PMessage>, sender: string)
    ensures WithoutRequestsFrom(a + b, sender) == WithoutRequestsFrom(a, sender) + WithoutRequestsFrom(b, sender)
  {
    FilterConcat(a, b, SentByOther(sender));
  }

  /** Is the user in the contact set? */
  function InContacts(contacts: set<string>): P2PUser -> bool
  {
    (u: P2PUser) => u.id in contacts
  }

  /** `getMutualContacts`: the discovered users that are contacts, in discovery order. */
  function MutualUsers(discovered: seq<P2PUser>, contacts: set<string>): (r: seq<P2PUser>)
    ensures forall u :: u in r <==> u in discovered && u.id in contacts
    ensures |r| <= |discovered|
  {
    Filter(discovered, InContacts(contacts))
  }

  /** The mutual users of a concatenation are those of each part, in turn: discovery order is kept. */
  lemma MutualUsersConcat(a: seq<P2PUser>, b: seq<P2PUser>, contacts: set<string>)
    ensures MutualUsers(a + b, contacts) == MutualUsers(a, contacts) + MutualUsers(b, contacts)
  {
    FilterConcat(a, b, InContacts(contacts));
  }

  /** One discovered user is a mutual user exactly when it is a contact. */
  lemma MutualUsersSingle(u: P2PUser, contacts: set<string>)
    ensures MutualUsers([u], contacts) == if u.id in contacts then [u] else []
  {
    assert Filter([u], InContacts(contacts)) == (if u.id in contacts then [u] else []) + Filter([u][1..], InContacts(contacts));
  }

  /** The message the hook logs for its own chat message. */
  function OwnChatMessage(msgId: string, userId: string, userName: string, recipientId: string, text: string): P2PMessage
  {
    P2PMessage(msgId, Chat, userId, userName, Some(recipientId), TextBody(text))
  }

  class P2PChat {
    const userId: string
    const userName: string
    const userPhone: string
    /** The service held in `p2pServiceRef`, created by the mount effect. */
    const service: P2PService

    var isConnected: bool
    var peerId: Option<string>
    var discoveredUsers: seq<P2PUser>
    var connectedPeers: seq<string>
    var messages: Conversations
    var contactRequests: seq<P2PMessage>
    var contacts: set<string>

    ghost predicate Valid()
      reads this, service
    {
      service.Valid()
    }

    /**
     * The mount effect as written: the service is created (its peer appears
     * only later, asynchronously), the local user is set on it straight away,
     * and the three callbacks are subscribed. As the peer has no id yet,
     * `setLocalUser` is ignored.
     */
    constructor (userId: string, userName: string, userPhone: string, msgId: string)
      ensures Valid() && fresh(service)
      ensures this.userId == userId && this.userName == userName && this.userPhone == userPhone
      ensures service.peer == NoPeer && service.localUser == None
      ensures service.connections == Empty() && service.discoveredUsers == Empty()
      ensures service.messageCallbacks == [MessageHandle] && service.userUpdateCallbacks == [UsersHandle]
      ensures service.connectionCallbacks == [ConnectionHandle]
      ensures service.outbox == [] && service.notices == []
      ensures !isConnected && peerId == None
      ensures discoveredUsers == [] && connectedPeers == [] && messages == map[] && contactRequests == [] && contacts == {}
    {
      var s := new P2PService();
      s.SetLocalUser(userId, userName, userPhone, msgId);
      s.OnMessage(MessageHandle);
      s.OnUserUpdate(UsersHandle);
      s.OnConnectionUpdate(ConnectionHandle);
      this.userId := userId;
      this.userName := userName;
      this.userPhone := userPhone;
      service := s;
      isConnected := false;
      peerId := None;
      discoveredUsers := [];
      connectedPeers := [];
      messages := map[];
      contactRequests := [];
      contacts := {};
    }

    /** `checkPeerId` as written: once the service has a peer id it is recorded and the hook is connected; otherwise the poll is retried later. */
    method CheckPeerIdAsWritten()
      requires Valid()
      modifies this`peerId, this`isConnected
      ensures Valid()
      ensures old(service.GetPeerId()).None? ==> peerId == old(peerId) && isConnected == old(isConnected)
      ensures old(service.GetPeerId()).Some? ==> peerId == old(service.GetPeerId()) && isConnected
    {
      var id := service.GetPeerId();
      if id.Some? {
        peerId := id;
        isConnected := true;
      }
    }

    /**
     * `checkPeerId`, corrected: when the peer id becomes available the local
     * user is set on the service (which then announces it), since setting it
     * at mount time is ignored.
     */
    method CheckPeerId(msgId: string)
      requires Valid()
      modifies this`peerId, this`isConnected, service`localUser, service`outbox
      ensures Valid()
      ensures old(service.GetPeerId()).None? ==>
        peerId == old(peerId) && isConnected == old(isConnected) && service.localUser == old(service.localUser) && service.outbox == old(service.outbox)
      ensures old(service.GetPeerId()).Some? ==>
        peerId == old(service.GetPeerId()) && isConnected &&
        service.localUser == Some(P2PUser(userId, userName, userPhone, peerId.value, true))
    {
      var id := service.GetPeerId();
      if id.Some? {
        peerId := id;
        isConnected := true;
        service.SetLocalUser(userId, userName, userPhone, msgId);
      }
    }

    /**
     * `handleIncomingMessage`: a chat message is logged under its sender only
     * when the sender is a contact; a contact request is queued (duplicates
     * included); a contact accept adds the sender to the contacts; anything
     * else is ignored.
     */
    method HandleIncomingMessage(m: P2PMessage)
      modifies this`messages, this`contactRequests, this`contacts
      ensures m.kind.Chat? && m.sender in old(contacts) ==> messages == AppendMessage(old(messages), m.sender, m)
      ensures !(m.kind.Chat? && m.sender in old(contacts)) ==> messages == old(messages)
      ensures contactRequests == old(contactRequests) + (if m.kind.ContactRequest? then [m] else [])
      ensures contacts == old(contacts) + (if m.kind.ContactAccept? then {m.sender} else {})
    {
      match m.kind
      case Chat =>
        if m.sender in contacts {
          AddMessage(m.sender, m);
        }
      case ContactRequest =>
        contactRequests := contactRequests + [m];
      case ContactAccept =>
        contacts := contacts + {m.sender};
      case _ =>
    }

    /** `addMessage`. */
    method AddMessage(conversationId: string, m: P2PMessage)
      modifies this`messages
      ensures messages == AppendMessage(old(messages), conversationId, m)
    {
      messages := AppendMessage(messages, conversationId, m);
    }

    /** The user-update callback: the discovered users become the service's list. */
    method UsersUpdated(users: seq<P2PUser>)
      modifies this`discoveredUsers
      ensures discoveredUsers == users
    {
      discoveredUsers := users;
    }

    /** The connection-update callback. */
    method ConnectionUpdated(peerId: string, connected: bool)
      modifies this`connectedPeers
      ensures connected ==> connectedPeers == PeersAfterConnect(old(connectedPeers), peerId)
      ensures !connected ==> connectedPeers == PeersAfterDisconnect(old(connectedPeers), peerId)
    {
      if connected {
        connectedPeers := PeersAfterConnect(connectedPeers, peerId);
      } else {
        connectedPeers := PeersAfterDisconnect(connectedPeers, peerId);
      }
    }

    /** One callback invocation logged by the service, run by the handler subscribed under its handle. */
    method Deliver(n: Notice)
      modifies this`messages, this`contactRequests, this`contacts, this`discoveredUsers, this`connectedPeers
      ensures n.MessageNotice? && n.subscriber == MessageHandle ==>
        messages == (if n.message.kind.Chat? && n.message.sender in old(contacts) then AppendMessage(old(messages), n.message.sender, n.message) else old(messages)) &&
        contactRequests == old(contactRequests) + (if n.message.kind.ContactRequest? then [n.message] else []) &&
        contacts == old(contacts) + (if n.message.kind.ContactAccept? then {n.message.sender} else {})
      ensures n.UsersNotice? && n.subscriber == UsersHandle ==> discoveredUsers == n.users
      ensures n.ConnectionNotice? && n.subscriber == ConnectionHandle ==>
        connectedPeers == (if n.connected then PeersAfterConnect(old(connectedPeers), n.peerId) else PeersAfterDisconnect(old(connectedPeers), n.peerId))
      ensures !(n.MessageNotice? && n.subscriber == MessageHandle) ==>
        messages == old(messages) && contactRequests == old(contactRequests) && contacts == old(contacts)
      ensures !(n.UsersNotice? && n.subscriber == UsersHandle) ==> discoveredUsers == old(discoveredUsers)
      ensures !(n.ConnectionNotice? && n.subscriber == ConnectionHandle) ==> connectedPeers == old(connectedPeers)
    {
      match n
      case MessageNotice(subscriber, m) =>
        if subscriber == MessageHandle {
          HandleIncomingMessage(m);
        }
      case UsersNotice(subscriber, users) =>
        if subscriber == UsersHandle {
          UsersUpdated(users);
        }
      case ConnectionNotice(subscriber, p, connected) =>
        if subscriber == ConnectionHandle {
          ConnectionUpdated(p, connected);
        }
    }

    /**
     * `sendMessage`: refused for a recipient who is not a contact; otherwise
     * the service sends it, and exactly when that succeeds the message is
     * logged at the end of the recipient's conversation.
     */
    method SendMessage(recipientId: string, text: string, msgId: string) returns (ok: bool)
      requires Valid()
      modifies this`messages, service`outbox
      ensures Valid()
      ensures recipientId !in contacts ==> !ok && service.outbox == old(service.outbox)
      ensures recipientId in contacts ==>
        (ok <==> AddressedDeliveries(service.localUser, service.discoveredUsers, service.connections, recipientId, OwnChatMessage(msgId, userId, userName, recipientId, text)) != [])
      ensures recipientId in contacts && service.localUser.None? ==> service.outbox == old(service.outbox)
      ensures recipientId in contacts && service.localUser.Some? ==>
        service.outbox == old(service.outbox) + AddressedDeliveries(service.localUser, service.discoveredUsers, service.connections, recipientId,
          Addressed(msgId, Chat, service.localUser.value, recipientId, TextBody(text)))
      ensures messages == if ok then AppendMessage(old(messages), recipientId, OwnChatMessage(msgId, userId, userName, recipientId, text)) else old(messages)
    {
      if recipientId !in contacts {
        return false;
      }
      ok := service.SendMessage(recipientId, text, msgId);
      if ok {
        AddMessage(recipientId, OwnChatMessage(msgId, userId, userName, recipientId, text));
      }
    }

    /** `sendContactRequest`: handed to the service. */
    method SendContactRequest(recipientId: string, msgId: string) returns (ok: bool)
      requires Valid()
      modifies service`outbox
      ensures Valid()
      ensures service.localUser.None? ==> !ok && service.outbox == old(service.outbox)
      ensures service.localUser.Some? ==>
        var sent := AddressedDeliveries(service.localUser, service.discoveredUsers, service.connections, recipientId,
          Addressed(msgId, ContactRequest, service.localUser.value, recipientId, UserInfoBody(service.localUser.value)));
        (ok <==> sent != []) && service.outbox == old(service.outbox) + sent
    {
      ok := service.SendContactRequest(recipientId, msgId);
    }

    /**
     * `acceptContactRequest`: the acceptance is handed to the service, and
     * whatever it reports the requester becomes a contact and all of their
     * pending requests are dropped.
     */
    method AcceptContactRequest(requesterId: string, msgId: string)
      requires Valid()
      modifies this`contacts, this`contactRequests, service`outbox
      ensures Valid()
      ensures contacts == old(contacts) + {requesterId}
      ensures contactRequests == WithoutRequestsFrom(old(contactRequests), requesterId)
      ensures service.localUser.None? ==> service.outbox == old(service.outbox)
      ensures service.localUser.Some? ==>
        service.outbox == old(service.outbox) + AddressedDeliveries(service.localUser, service.discoveredUsers, service.connections, requesterId,
          Addressed(msgId, ContactAccept, service.localUser.value, requesterId, UserInfoBody(service.localUser.value)))
    {
      var _ := service.AcceptContactRequest(requesterId, msgId);
      contacts := contacts + {requesterId};
      contactRequests := WithoutRequestsFrom(contactRequests, requesterId);
    }

    /** `connectToPeer`: handed to the service's `connectViaPeerId`. */
    method ConnectToPeer(peerId: string, outcome: ConnectOutcome, msgId: string) returns (ok: bool)
      requires Valid()
      modifies service`connections, service`notices, service`outbox
      ensures Valid()
      ensures ok <==> !old(service.peer).NoPeer? && peerId !in old(service.connections.entries) && outcome.OpenedFirst?
      ensures !ok ==> service.connections == old(service.connections) && service.notices == old(service.notices) && service.outbox == old(service.outbox)
      ensures ok ==> service.connections == old(service.connections).Set(peerId, outcome.conn)
      ensures ok ==> service.notices == old(service.notices) + ConnectionNotices(service.connectionCallbacks, peerId, true)
      ensures ok ==> (service.outbox == old(service.outbox) +
        (if service.localUser.Some? && outcome.conn.open && !outcome.conn.sendThrows
         then [Delivery(peerId, UserInfoMessage(msgId, service.localUser.value))] else []))
    {
      ok := service.ConnectViaPeerId(peerId, outcome, msgId);
    }

    /** `getMessages`. */
    function GetMessages(conversationId: string): (r: seq<P2PMessage>)
      reads this
      ensures conversationId !in messages ==> r == []
      ensures conversationId in messages ==> r == messages[conversationId]
    {
      Conversation(messages, conversationId)
    }

    /** `getMutualContacts`. */
    function GetMutualContacts(): (r: seq<P2PUser>)
      reads this
      ensures forall u :: u in r <==> u in discoveredUsers && u.id in contacts
    {
      MutualUsers(discoveredUsers, contacts)
    }

    /** The unmount cleanup: the service disconnects. */
    method Unmount()
      requires Valid()
      modifies service`connections, service`peer
      ensures Valid()
      ensures service.GetConnectedPeers() == [] && service.GetPeerId() == None
    {
      service.Disconnect();
    }
  }

  /** A friend connects over an open data connection, announces itself, and becomes a contact. */
  method Befriend(chat: P2PChat, friend: P2PUser)
    requires chat.Valid()
    modifies chat`contacts, chat`contactRequests
    modifies chat.service`connections, chat.service`notices, chat.service`outbox, chat.service`discoveredUsers
    ensures chat.Valid()
    ensures chat.service.localUser == old(chat.service.localUser) && chat.messages == old(chat.messages)
    ensures friend.id in chat.contacts
    ensures friend.id in chat.service.discoveredUsers.entries && chat.service.discoveredUsers.entries[friend.id] == friend
    ensures Sendable(chat.service.connections, friend.peerId)
  {
    ghost var localUser, messages := chat.service.localUser, chat.messages;
    chat.service.HandleConnection(friend.peerId, DataConnection(true, false), "m2");
    ghost var connections := chat.service.connections;
    assert Sendable(connections, friend.peerId);
    assert chat.service.localUser == localUser && chat.messages == messages;
    chat.service.HandleUserInfo(friend);
    ghost var users := chat.service.discoveredUsers;
    assert chat.service.localUser == localUser && chat.messages == messages;
    chat.AcceptContactRequest(friend.id, "m3");
    assert chat.service.connections == connections && chat.service.discoveredUsers == users;
    assert chat.service.localUser == localUser && chat.messages == messages;
  }

  /**
   * The mount sequence as written, then everything a chat message needs: the
   * peer opens and its id is picked up, a friend connects over an open data
   * connection and announces itself, and the friend becomes a contact. The
   * message is still refused and nothing is logged, because the local user
   * set at mount time was ignored and is never set again.
   */
  method SendAfterMountAsWritten(userId: string, userName: string, userPhone: string, ownPeerId: string, friend: P2PUser, text: string)
    returns (ok: bool, log: seq<P2PMessage>)
    ensures !ok && log == []
  {
    var chat := new P2PChat(userId, userName, userPhone, "m0");
    chat.service.PeerCreated();
    chat.service.PeerOpened(ownPeerId, "m1");
    chat.CheckPeerIdAsWritten();
    assert chat.service.localUser == None && chat.messages == map[];
    Befriend(chat, friend);
    assert AddressedDeliveries(chat.service.localUser, chat.service.discoveredUsers, chat.service.connections, friend.id, OwnChatMessage("m4", userId, userName, friend.id, text)) == [];
    ok := chat.SendMessage(friend.id, text, "m4");
    log := chat.GetMessages(friend.id);
  }

  /** The same sequence with the corrected `CheckPeerId`: the message goes out and is logged in the friend's conversation. */
  method SendAfterMount(userId: string, userName: string, userPhone: string, ownPeerId: string, friend: P2PUser, text: string)
    returns (ok: bool, log: seq<P2PMessage>)
    requires ownPeerId != ""
    ensures ok && log == [OwnChatMessage("m4", userId, userName, friend.id, text)]
  {
    var chat := new P2PChat(userId, userName, userPhone, "m0");
    chat.service.PeerCreated();
    chat.service.PeerOpened(ownPeerId, "m1");
    chat.CheckPeerId("m1");
    Befriend(chat, friend);
    ok := chat.SendMessage(friend.id, text, "m4");
    log := chat.GetMessages(friend.id);
  }
}
