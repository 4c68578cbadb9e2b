/**
 * The chat screen over synchronised contacts (`MutualContactChat`): the
 * contact list split into mutual and one-way contacts, the search over each
 * group, and sending, which only mutual contacts allow.
 *
 * The contacts are a property and never change here. Message ids
 * (`Date.now()`) are parameters and the delivery delay is the event
 * `DeliveryTimerFired`.
 */
module MutualContactChat {
  import opened Wrappers
  import opened Seqs
  import opened Text
  import opened ContactVerification
  import ChatInterface

  /** Delivery states are those of the chat screen; only the message record differs, carrying the sender's name. */
  type Status = ChatInterface.Status

  datatype Message = Message(id: string, senderId: string, senderName: string, text: string, status: Status)

  predicate NotMutual(c: ContactInfo)
  {
    !c.isMutual
  }

  /** `mutualContacts`: the contacts marked mutual. */
  function MutualContacts(contacts: seq<ContactInfo>): (r: seq<ContactInfo>)
    ensures forall c :: c in r <==> c in contacts && c.isMutual
  {
    Filter(contacts, IsMutualEntry)
  }

  /** `oneWayContacts`: the contacts not marked mutual. */
  function OneWayContacts(contacts: seq<ContactInfo>): (r: seq<ContactInfo>)
    ensures forall c :: c in r <==> c in contacts && !c.isMutual
  {
    Filter(contacts, NotMutual)
  }

  /** The two groups split the contacts: no contact is in both, together they hold every contact once, and each keeps list order. */
  lemma GroupsPartition(contacts: seq<ContactInfo>)
    ensures forall c :: c in MutualContacts(contacts) ==> c.isMutual && c !in OneWayContacts(contacts)
    ensures forall c :: c in OneWayContacts(contacts) ==> !c.isMutual
    ensures multiset(MutualContacts(contacts)) + multiset(OneWayContacts(contacts)) == multiset(contacts)
    ensures |MutualContacts(contacts)| + |OneWayContacts(contacts)| == |contacts|
  {
    FilterPartition(contacts, IsMutualEntry, NotMutual);
  }

  /** Each group keeps the order of the list: the group of a concatenation is the concatenation of the groups. */
  lemma GroupsKeepOrder(a: seq<ContactInfo>, b: seq<ContactInfo>)
    ensures MutualContacts(a + b) == MutualContacts(a) + MutualContacts(b)
    ensures OneWayContacts(a + b) == OneWayContacts(a) + OneWayContacts(b)
  {
    FilterConcat(a, b, IsMutualEntry);
    FilterConcat(a, b, NotMutual);
  }

  predicate Matches(c: ContactInfo, query: string)
  {
    ChatInterface.SearchMatch(c.name, c.phone, query)
  }

  function Matcher(query: string): ContactInfo -> bool
  {
    c => Matches(c, query)
  }

  function MutualMatcher(query: string): ContactInfo -> bool
  {
    (c: ContactInfo) => c.isMutual && Matches(c, query)
  }

  function OneWayMatcher(query: string): ContactInfo -> bool
  {
    (c: ContactInfo) => !c.isMutual && Matches(c, query)
  }

  /** `filteredMutualContacts`: the mutual contacts matching the query. */
  function FilteredMutual(contacts: seq<ContactInfo>, query: string): (r: seq<ContactInfo>)
    ensures forall c :: c in r <==> c in contacts && c.isMutual && Matches(c, query)
  {
    Filter(MutualContacts(contacts), Matcher(query))
  }

  /** `filteredOneWayContacts`: the one-way contacts matching the query. */
  function FilteredOneWay(contacts: seq<ContactInfo>, query: string): (r: seq<ContactInfo>)
    ensures forall c :: c in r <==> c in contacts && !c.isMutual && Matches(c, query)
  {
    Filter(OneWayContacts(contacts), Matcher(query))
  }

  /**
   * Each searched group is the subsequence of the whole list holding the
   * contacts of that group that match the query.
   */
  lemma FilteredGroups(contacts: seq<ContactInfo>, query: string)
    ensures FilteredMutual(contacts, query) == Filter(contacts, MutualMatcher(query))
    ensures FilteredOneWay(contacts, query) == Filter(contacts, OneWayMatcher(query))
  {
    FilterFilter(contacts, IsMutualEntry, Matcher(query), MutualMatcher(query));
    FilterFilter(contacts, NotMutual, Matcher(query), OneWayMatcher(query));
  }

  /** Together the two searched groups hold exactly the matching contacts, each once. */
  lemma FilteredGroupsPartition(contacts: seq<ContactInfo>, query: string)
    ensures multiset(FilteredMutual(contacts, query)) + multiset(FilteredOneWay(contacts, query)) == multiset(Filter(contacts, Matcher(query)))
  {
    var matching := Filter(contacts, Matcher(query));
    FilterFilter(contacts, Matcher(query), IsMutualEntry, MutualMatcher(query));
    FilterFilter(contacts, Matcher(query), NotMutual, OneWayMatcher(query));
    FilteredGroups(contacts, query);
    FilterPartition(matching, IsMutualEntry, NotMutual);
  }

  /** With an empty query the searched groups are the groups. */
  lemma EmptyQueryShowsGroups(contacts: seq<ContactInfo>)
    ensures FilteredMutual(contacts, "") == MutualContacts(contacts)
    ensures FilteredOneWay(contacts, "") == OneWayContacts(contacts)
  {
    forall c: ContactInfo
      ensures Matcher("")(c)
    {
      ChatInterface.EmptyQueryMatches(c.name, c.phone);
    }
    FilterAll(MutualContacts(contacts), Matcher(""));
    FilterAll(OneWayContacts(contacts), Matcher(""));
  }

  /** The delivery update: each message with this id becomes `delivered`; no other message and no other field changes. */
  function MarkDelivered(messages: seq<Message>, id: string): (r: seq<Message>)
    ensures |r| == |messages|
    ensures forall i :: 0 <= i < |r| ==> r[i].(status := messages[i].status) == messages[i]
    ensures forall i :: 0 <= i < |r| ==> r[i].status == if messages[i].id == id then ChatInterface.Delivered else messages[i].status
  {
    seq(|messages|, i requires 0 <= i < |messages| => if messages[i].id == id then messages[i].(status := ChatInterface.Delivered) else messages[i])
  }

  /** A list with no message of this id is left as it is. */
  lemma MarkDeliveredAbsent(messages: seq<Message>, id: string)
    requires forall i :: 0 <= i < |messages| ==> messages[i].id != id
    ensures MarkDelivered(messages, id) == messages
  {
  }

  class MutualContactChat {
    const userPhone: string
    const userName: string
    const contacts: seq<ContactInfo>
    var selectedContact: Option<ContactInfo>
    var messages: seq<Message>
    var newMessage: string
    var searchQuery: string
    /** Ids of sent messages whose delivery timer has not fired, in firing order. */
    var deliveryTimers: seq<string>

    constructor (userPhone: string, userName: string, contacts: seq<ContactInfo>)
      ensures this.userPhone == userPhone && this.userName == userName && this.contacts == contacts
      ensures selectedContact == None && messages == [] && newMessage == "" && searchQuery == "" && deliveryTimers == []
    {
      this.userPhone := userPhone;
      this.userName := userName;
      this.contacts := contacts;
      selectedContact := None;
      messages := [];
      newMessage := "";
      searchQuery := "";
      deliveryTimers := [];
    }

    /** The message composer is shown, and the call buttons enabled, for a selected mutual contact only. */
    predicate CanCompose()
      reads this
    {
      selectedContact.Some? && selectedContact.value.isMutual
    }

    method SelectContact(c: ContactInfo)
      modifies this`selectedContact
      ensures selectedContact == Some(c)
      ensures CanCompose() <==> c.isMutual
    {
      selectedContact := Some(c);
    }

    method Back()
      modifies this`selectedContact
      ensures selectedContact == None && !CanCompose()
    {
      selectedContact := None;
    }

    method SetSearchQuery(query: string)
      modifies this`searchQuery
      ensures searchQuery == query
    {
      searchQuery := query;
    }

    method SetNewMessage(text: string)
      modifies this`newMessage
      ensures newMessage == text
    {
      newMessage := text;
    }

    /**
     * `sendMessage`: nothing happens with a blank draft or without a selected
     * mutual contact; otherwise one message from this user with the trimmed
     * text and status `sent` is appended, the draft cleared, and its delivery
     * scheduled.
     */
    method SendMessage(id: string)
      modifies this`messages, this`newMessage, this`deliveryTimers
      ensures IsBlank(old(newMessage)) || !CanCompose() ==>
        messages == old(messages) && newMessage == old(newMessage) && deliveryTimers == old(deliveryTimers)
      ensures !IsBlank(old(newMessage)) && CanCompose() ==>
        messages == old(messages) + [Message(id, userPhone, userName, Trim(old(newMessage)), ChatInterface.Sent)] &&
        newMessage == "" && deliveryTimers == old(deliveryTimers) + [id]
    {
      if IsBlank(newMessage) || selectedContact.None? || !selectedContact.value.isMutual {
        return;
      }
      messages := messages + [Message(id, userPhone, userName, Trim(newMessage), ChatInterface.Sent)];
      newMessage := "";
      deliveryTimers := deliveryTimers + [id];
    }

    /** `handleKeyPress`: Enter sends. */
    method HandleKeyPress(key: string, id: string)
      modifies this`messages, this`newMessage, this`deliveryTimers
      ensures key != "Enter" || IsBlank(old(newMessage)) || !CanCompose() ==>
        messages == old(messages) && newMessage == old(newMessage) && deliveryTimers == old(deliveryTimers)
      ensures key == "Enter" && !IsBlank(old(newMessage)) && CanCompose() ==>
        messages == old(messages) + [Message(id, userPhone, userName, Trim(old(newMessage)), ChatInterface.Sent)] &&
        newMessage == "" && deliveryTimers == old(deliveryTimers) + [id]
    {
      if key == "Enter" {
        SendMessage(id);
      }
    }

    /** The oldest delivery timer fires: its message is marked delivered. */
    method DeliveryTimerFired()
      requires deliveryTimers != []
      modifies this`messages, this`deliveryTimers
      ensures messages == MarkDelivered(old(messages), old(deliveryTimers[0]))
      ensures deliveryTimers == old(deliveryTimers[1..])
    {
      messages := MarkDelivered(messages, deliveryTimers[0]);
      deliveryTimers := deliveryTimers[1..];
    }
  }

  /** Nothing can be sent to a one-way contact, whatever the draft. */
  method OneWayCannotSend(chat: MutualContactChat, c: ContactInfo, text: string, id: string)
    requires !c.isMutual
    modifies chat
    ensures chat.messages == old(chat.messages) && chat.deliveryTimers == old(chat.deliveryTimers)
    ensures chat.newMessage == text
  {
    chat.SelectContact(c);
    chat.SetNewMessage(text);
    chat.SendMessage(id);
  }

  /** A message sent to a mutual contact and then delivered is appended once, trimmed and `delivered`, provided its id is new. */
  method SendAndDeliver(chat: MutualContactChat, c: ContactInfo, text: string, id: string)
    requires c.isMutual && !IsBlank(text) && chat.deliveryTimers == []
    requires forall i :: 0 <= i < |chat.messages| ==> chat.messages[i].id != id
    modifies chat
    ensures chat.messages == old(chat.messages) + [Message(id, chat.userPhone, chat.userName, Trim(text), ChatInterface.Delivered)]
    ensures chat.newMessage == "" && chat.deliveryTimers == []
  {
    chat.SelectContact(c);
    chat.SetNewMessage(text);
    chat.SendMessage(id);
    var before := old(chat.messages);
    chat.DeliveryTimerFired();
    MarkDeliveredAbsent(before, id);
    assert chat.messages == MarkDelivered(before + [Message(id, chat.userPhone, chat.userName, Trim(text), ChatInterface.Sent)], id);
  }
}
