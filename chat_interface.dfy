/**
 * The chat screen (`ChatInterface`): the contact list with search, the
 * new-chat form with its validation and phone formatting, and the message
 * list with its simulated delivery.
 *
 * The contact list is the module-level `phoneContacts` array, which
 * `createNewChat` extends at the front; here it is a field whose initial
 * value is given to the constructor. Message ids (`Date.now()`) are
 * parameters, the delivery delay is the event `DeliveryTimerFired`, and the
 * `alert` calls are the log `alerts`.
 */
module ChatInterface {
  import opened Wrappers
  import opened Seqs
  import opened Text
  import ContactVerification
  import PhoneAuth

  datatype Contact = Contact(
    id: string,
    name: string,
    phone: string,
    lastMessage: string,
    timestamp: string,
    unread: nat,
    online: bool,
    isFromContacts: bool)

  datatype Status = Sent | Delivered | Read

  datatype Message = Message(id: string, senderId: string, text: string, status: Status)

  const InvalidNumber := "Please enter a valid Sri Lankan number"
  const IncompleteNumber := "Please enter a complete phone number"
  const MissingName := "Please enter a name for this contact"

  // ---------------------------------------------------------------------------
  // New chat: validation and formatting

  /**
   * The digit string has a Sri Lankan prefix and the length that prefix calls
   * for; the two prefixes cannot both apply, so the length tells which one it is.
   */
  predicate CompleteNumber(digits: string)
    ensures CompleteNumber(digits) ==> |digits| >= 10 && (|digits| == 10 <==> digits[0] == '0') && (|digits| == 11 <==> digits[..2] == "94")
  {
    PrefixesExclusive(digits);
    (StartsWith(digits, "94") && |digits| == 11) || (StartsWith(digits, "0") && |digits| == 10)
  }

  /**
   * `validateAndCreateNewChat`: the first failing check, in order: the digits
   * start with neither `94` nor `0`; they are not as long as that prefix
   * requires; the name is blank.
   */
  function ValidateNewChat(phone: string, name: string): (r: Option<string>)
    ensures r.None? <==> CompleteNumber(Digits(phone)) && !IsBlank(name)
    ensures r.Some? ==> r.value in {InvalidNumber, IncompleteNumber, MissingName}
    ensures !StartsWith(Digits(phone), "94") && !StartsWith(Digits(phone), "0") ==> r == Some(InvalidNumber)
    ensures r == Some(MissingName) ==> CompleteNumber(Digits(phone))
  {
    var digits := Digits(phone);
    PrefixesExclusive(digits);
    if !StartsWith(digits, "94") && !StartsWith(digits, "0") then Some(InvalidNumber)
    else if (StartsWith(digits, "94") && |digits| != 11) || (StartsWith(digits, "0") && |digits| != 10) then Some(IncompleteNumber)
    else if IsBlank(name) then Some(MissingName)
    else None
  }

  lemma PrefixesExclusive(digits: string)
    ensures !(StartsWith(digits, "94") && StartsWith(digits, "0"))
  {
    if StartsWith(digits, "94") {
      assert digits[..1] == digits[..2][..1] == "9";
    }
  }

  /** Every number the sign-in screen accepts is accepted here too (with a name). */
  lemma SignInNumbersAccepted(phone: string, name: string)
    requires PhoneAuth.ValidSriLankanPhone(phone) && !IsBlank(name)
    ensures ValidateNewChat(phone, name) == None
  {
    PhoneAuth.ValidExactly(phone);
    var d := Digits(phone);
    if |d| == 11 {
      assert d[..2] == d[..3][..2];
    } else {
      assert d[..1] == d[..2][..1];
    }
  }

  /**
   * The converse fails: a complete `94` number whose subscriber part does not
   * start with `7` (a landline) passes here but not at sign-in.
   */
  lemma NonMobileAccepted(rest: string, name: string)
    requires AllDigits(rest) && |rest| == 9 && rest[0] != '7' && !IsBlank(name)
    ensures ValidateNewChat("94" + rest, name) == None
    ensures !PhoneAuth.ValidSriLankanPhone("94" + rest)
  {
    var n := "94" + rest;
    assert AllDigits(n);
    assert n[..2] == "94";
    assert n[..3][2] == rest[0];
  }

  /**
   * `createNewChat`'s formatting, applied to the input as typed (not to its
   * digits): a leading `0` becomes `+94`, a leading `94` gets a `+`, anything
   * else is kept. For an input of digits only it agrees with the contact
   * service's normalisation.
   */
  function FormatNewChatPhone(raw: string): (r: string)
    ensures AllDigits(raw) ==> r == ContactVerification.NormalizePhone(raw)
  {
    if StartsWith(raw, "0") then "+94" + raw[1..]
    else if StartsWith(raw, "94") then "+" + raw
    else raw
  }

  lemma DigitsAfterSeparator(sep: char, digits: string)
    requires !IsDigit(sep) && AllDigits(digits)
    ensures Digits([sep] + digits) == digits
  {
    DigitsConcat([sep], digits);
    assert Digits([sep]) == [] + Digits([]);
  }

  /**
   * An input with a separator before its digits (a space, a bracket, a dash)
   * passes validation, because validation looks only at the digits, but is
   * stored as typed and not in `+94` form.
   */
  lemma SeparatorKeepsRawInput(sep: char, number: string, name: string)
    requires !IsDigit(sep) && sep != '+'
    requires AllDigits(number) && CompleteNumber(number) && !IsBlank(name)
    ensures ValidateNewChat([sep] + number, name) == None
    ensures FormatNewChatPhone([sep] + number) == [sep] + number
    ensures !StartsWith(FormatNewChatPhone([sep] + number), "+94")
  {
    var raw := [sep] + number;
    DigitsAfterSeparator(sep, number);
    assert !StartsWith(raw, "0") && !StartsWith(raw, "94") && !StartsWith(raw, "+94") by {
      assert |raw| >= 3 && raw[0] == sep;
      assert raw[..1][0] == raw[..2][0] == raw[..3][0] == sep;
    }
  }

  /**
   * The contact `createNewChat` puts at the front of the list: a new, offline,
   * unread-free contact whose name is trimmed and whose phone, when typed as
   * digits only, is in the contact service's normalised form.
   */
  function NewContact(id: string, raw: string, name: string): (r: Contact)
    ensures r.id == id && r.unread == 0 && !r.online && !r.isFromContacts
    ensures AllDigits(raw) ==> r.phone == ContactVerification.NormalizePhone(raw)
    ensures !IsBlank(name) ==> r.name != [] && !IsSpace(r.name[0]) && !IsSpace(r.name[|r.name| - 1])
  {
    Contact(id, Trim(name), FormatNewChatPhone(raw), "Start a conversation...", "now", 0, false, false)
  }

  // ---------------------------------------------------------------------------
  // Search

  /** The search test of both chat lists: the lower-cased name contains the lower-cased query, or the phone contains the query as typed. */
  predicate SearchMatch(name: string, phone: string, query: string)
    ensures SearchMatch(name, phone, query) <==>
      (exists i :: OccursAt(ToLower(name), ToLower(query), i)) || (exists i :: OccursAt(phone, query, i))
  {
    ContainsAt(ToLower(name), ToLower(query));
    ContainsAt(phone, query);
    Contains(ToLower(name), ToLower(query)) || Contains(phone, query)
  }

  /** The empty query matches every name. */
  lemma EmptyQueryMatches(name: string, phone: string)
    ensures SearchMatch(name, phone, "")
  {
    assert ToLower("") == "";
    assert StartsWith(ToLower(name), "");
  }

  predicate MatchesQuery(c: Contact, query: string)
  {
    SearchMatch(c.name, c.phone, query)
  }

  function Matcher(query: string): Contact -> bool
  {
    c => MatchesQuery(c, query)
  }

  /** `filteredContacts`: the contacts matching the query, in list order. */
  function FilteredContacts(contacts: seq<Contact>, query: string): (r: seq<Contact>)
    ensures |r| <= |contacts|
    ensures forall i :: 0 <= i < |r| ==> r[i] in contacts && MatchesQuery(r[i], query)
    ensures forall i :: 0 <= i < |contacts| && MatchesQuery(contacts[i], query) ==> contacts[i] in r
  {
    Filter(contacts, Matcher(query))
  }

  /** The empty query keeps every contact. */
  lemma EmptyQueryKeepsAll(contacts: seq<Contact>)
    ensures FilteredContacts(contacts, "") == contacts
  {
    forall i | 0 <= i < |contacts|
      ensures Matcher("")(contacts[i])
    {
      EmptyQueryMatches(contacts[i].name, contacts[i].phone);
    }
    FilterAll(contacts, Matcher(""));
  }

  /** A contact added at the front of the list heads the search results exactly when it matches; the rest are unchanged. */
  lemma FilteredAfterPrepend(c: Contact, contacts: seq<Contact>, query: string)
    ensures FilteredContacts([c] + contacts, query) == (if MatchesQuery(c, query) then [c] else []) + FilteredContacts(contacts, query)
  {
    FilterConcat([c], contacts, Matcher(query));
    assert Filter([c], Matcher(query)) == (if MatchesQuery(c, query) then [c] else []) + Filter([c][1..], Matcher(query));
  }

  // ---------------------------------------------------------------------------
  // Messages

  /** The delivery update: each message with this id becomes `delivered`; no other message and no other field changes. */
  function MarkDelivered(messages: seq<Message>, id: string): (r: seq<Message>)
    ensures |r| == |messages|
    ensures forall i :: 0 <= i < |r| ==> r[i].(status := messages[i].status) == messages[i]
    ensures forall i :: 0 <= i < |r| ==> r[i].status == if messages[i].id == id then Delivered else messages[i].status
  {
    seq(|messages|, i requires 0 <= i < |messages| => if messages[i].id == id then messages[i].(status := Delivered) else messages[i])
  }

  /** Marking twice is marking once. */
  lemma MarkDeliveredIdempotent(messages: seq<Message>, id: string)
    ensures MarkDelivered(MarkDelivered(messages, id), id) == MarkDelivered(messages, id)
  {
  }

  /** A message appended later is not disturbed by the delivery of an earlier one with a different id. */
  lemma MarkDeliveredAppend(messages: seq<Message>, m: Message, id: string)
    requires m.id != id
    ensures MarkDelivered(messages + [m], id) == MarkDelivered(messages, id) + [m]
  {
  }

  /** The message `sendMessage` appends: sent by the user, not yet delivered, its text trimmed. */
  function OutgoingMessage(id: string, userPhone: string, text: string): (r: Message)
    ensures r.id == id && r.senderId == userPhone && r.status == Sent
    ensures !IsBlank(text) ==> r.text != [] && !IsSpace(r.text[0]) && !IsSpace(r.text[|r.text| - 1])
  {
    Message(id, userPhone, Trim(text), Sent)
  }

  class ChatInterface {
    const userPhone: string
    const userName: string
    /** The module-level `phoneContacts` array. */
    var contacts: seq<Contact>
    var selectedContact: Option<Contact>
    var messages: seq<Message>
    var newMessage: string
    var searchQuery: string
    var showNewChat: bool
    var newChatPhone: string
    var newChatName: string
    /** Every `alert`, in order. */
    var alerts: seq<string>
    /** Ids of sent messages whose delivery timer has not fired, in firing order. */
    var deliveryTimers: seq<string>

    constructor (userPhone: string, userName: string, phoneContacts: seq<Contact>)
      ensures this.userPhone == userPhone && this.userName == userName && contacts == phoneContacts
      ensures selectedContact == None && messages == [] && newMessage == "" && searchQuery == ""
      ensures !showNewChat && newChatPhone == "" && newChatName == "" && alerts == [] && deliveryTimers == []
    {
      this.userPhone := userPhone;
      this.userName := userName;
      contacts := phoneContacts;
      selectedContact := None;
      messages := [];
      newMessage := "";
      searchQuery := "";
      showNewChat := false;
      newChatPhone := "";
      newChatName := "";
      alerts := [];
      deliveryTimers := [];
    }

    /** The contact list as rendered. */
    function Visible(): (r: seq<Contact>)
      reads this
      ensures forall i :: 0 <= i < |r| ==> r[i] in contacts && MatchesQuery(r[i], searchQuery)
    {
      FilteredContacts(contacts, searchQuery)
    }

    method SetSearchQuery(query: string)
      modifies this`searchQuery
      ensures searchQuery == query
    {
      searchQuery := query;
    }

    method SelectContact(c: Contact)
      modifies this`selectedContact
      ensures selectedContact == Some(c)
    {
      selectedContact := Some(c);
    }

    /** The back arrow: no contact is selected. */
    method Back()
      modifies this`selectedContact
      ensures selectedContact == None
    {
      selectedContact := None;
    }

    method SetNewMessage(text: string)
      modifies this`newMessage
      ensures newMessage == text
    {
      newMessage := text;
    }

    method OpenNewChat()
      modifies this`showNewChat
      ensures showNewChat
    {
      showNewChat := true;
    }

    method SetNewChatPhone(phone: string)
      modifies this`newChatPhone
      ensures newChatPhone == phone
    {
      newChatPhone := phone;
    }

    method SetNewChatName(name: string)
      modifies this`newChatName
      ensures newChatName == name
    {
      newChatName := name;
    }

    /** The close and cancel buttons of the new-chat form: the form is hidden and cleared. */
    method CancelNewChat()
      modifies this`showNewChat, this`newChatPhone, this`newChatName
      ensures !showNewChat && newChatPhone == "" && newChatName == ""
    {
      showNewChat := false;
      newChatPhone := "";
      newChatName := "";
    }

    /**
     * `sendMessage`: with a blank draft or no contact selected nothing
     * happens; otherwise one message with the trimmed text and status
     * `sent` is appended, the draft cleared, and its delivery scheduled.
     */
    method SendMessage(id: string)
      modifies this`messages, this`newMessage, this`deliveryTimers
      ensures IsBlank(old(newMessage)) || selectedContact.None? ==>
        messages == old(messages) && newMessage == old(newMessage) && deliveryTimers == old(deliveryTimers)
      ensures !IsBlank(old(newMessage)) && selectedContact.Some? ==>
        messages == old(messages) + [OutgoingMessage(id, userPhone, old(newMessage))] &&
        newMessage == "" && deliveryTimers == old(deliveryTimers) + [id]
    {
      if IsBlank(newMessage) || selectedContact.None? {
        return;
      }
      messages := messages + [OutgoingMessage(id, userPhone, newMessage)];
      newMessage := "";
      deliveryTimers := deliveryTimers + [id];
    }

    /** `handleKeyPress`: Enter sends. */
    method HandleKeyPress(key: string, id: string)
      modifies this`messages, this`newMessage, this`deliveryTimers
      ensures key != "Enter" ==> messages == old(messages) && newMessage == old(newMessage) && deliveryTimers == old(deliveryTimers)
      ensures key == "Enter" && (IsBlank(old(newMessage)) || selectedContact.None?) ==>
        messages == old(messages) && newMessage == old(newMessage) && deliveryTimers == old(deliveryTimers)
      ensures key == "Enter" && !IsBlank(old(newMessage)) && selectedContact.Some? ==>
        messages == old(messages) + [OutgoingMessage(id, userPhone, old(newMessage))] &&
        newMessage == "" && deliveryTimers == old(deliveryTimers) + [id]
    {
      if key == "Enter" {
        SendMessage(id);
      }
    }

    /** The oldest delivery timer fires: its message is marked delivered. */
    method DeliveryTimerFired()
      requires deliveryTimers != []
      modifies this`messages, this`deliveryTimers
      ensures messages == MarkDelivered(old(messages), old(deliveryTimers[0]))
      ensures deliveryTimers == old(deliveryTimers[1..])
    {
      messages := MarkDelivered(messages, deliveryTimers[0]);
      deliveryTimers := deliveryTimers[1..];
    }

    /**
     * `createNewChat`: a failing check is alerted and nothing else changes;
     * otherwise the new contact goes to the front of the list and is
     * selected, and the form is hidden and cleared.
     */
    method CreateNewChat(id: string)
      modifies this`alerts, this`contacts, this`selectedContact, this`showNewChat, this`newChatPhone, this`newChatName
      ensures var err := ValidateNewChat(old(newChatPhone), old(newChatName));
        if err.Some? then
          alerts == old(alerts) + [err.value] && contacts == old(contacts) && selectedContact == old(selectedContact) &&
          showNewChat == old(showNewChat) && newChatPhone == old(newChatPhone) && newChatName == old(newChatName)
        else
          var c := NewContact(id, old(newChatPhone), old(newChatName));
          alerts == old(alerts) && contacts == [c] + old(contacts) && selectedContact == Some(c) &&
          !showNewChat && newChatPhone == "" && newChatName == ""
    {
      var err := ValidateNewChat(newChatPhone, newChatName);
      if err.Some? {
        alerts := alerts + [err.value];
        return;
      }
      var c := NewContact(id, newChatPhone, newChatName);
      contacts := [c] + contacts;
      selectedContact := Some(c);
      showNewChat := false;
      newChatPhone := "";
      newChatName := "";
    }
  }

  /**
   * A message sent to a selected contact and then delivered ends up once, at
   * the end of the list, trimmed and `delivered`, provided its id is new.
   */
  method SendAndDeliver(chat: ChatInterface, c: Contact, text: string, id: string)
    requires !IsBlank(text) && chat.deliveryTimers == []
    requires forall i :: 0 <= i < |chat.messages| ==> chat.messages[i].id != id
    modifies chat
    ensures chat.messages == old(chat.messages) + [Message(id, chat.userPhone, Trim(text), Delivered)]
    ensures chat.newMessage == "" && chat.deliveryTimers == []
  {
    chat.SelectContact(c);
    chat.SetNewMessage(text);
    chat.SendMessage(id);
    var before := old(chat.messages);
    chat.DeliveryTimerFired();
    assert chat.messages == MarkDelivered(before + [OutgoingMessage(id, chat.userPhone, text)], id);
    assert MarkDelivered(before, id) == before;
  }
}
