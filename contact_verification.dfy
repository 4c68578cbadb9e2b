/**
 * The contact verification service: phone numbers are normalised to the
 * `+94…` form, the device's contacts are matched against the registered users,
 * each match records whether the registered user also has this user's number
 * (a mutual contact), and the results are kept in a JavaScript `Map` keyed by
 * user id, from which the mutual and one-way views are filtered.
 *
 * The registered-user fixture and the device contacts are parameters; the
 * `new Date()` timestamp is the parameter `now`.
 */
module ContactVerification {
  import opened Wrappers
  import opened Seqs
  import opened Text
  import opened OrderedMaps

  datatype DeviceContact = DeviceContact(name: string, phone: string)

  datatype RegisteredUser = RegisteredUser(id: string, name: string, phone: string, online: bool, hasMyNumber: bool)

  datatype ContactInfo = ContactInfo(
    id: string,
    name: string,
    phone: string,
    hasMyNumber: bool,
    iHaveTheirNumber: bool,
    isMutual: bool,
    isOnHey: bool,
    lastSeen: int,
    online: bool)

  datatype ContactSyncResult = ContactSyncResult(totalContacts: nat, heyUsers: nat, mutualContacts: nat, contacts: seq<ContactInfo>)

  // ---------------------------------------------------------------------------
  // Phone normalisation

  /** The international form: `+`, then digits beginning with the country code 94. */
  predicate International(phone: string)
  {
    |phone| >= 3 && phone[0] == '+' && AllDigits(phone[1..]) && StartsWith(phone[1..], "94")
  }

  /**
   * `normalizePhone`: the digits of `phone`; a leading `0` becomes `+94`, a
   * leading `94` gets a `+`, and any other number is returned as it was given.
   */
  function NormalizePhone(phone: string): (r: string)
    ensures International(r) || r == phone
    ensures StartsWith(Digits(phone), "0") || StartsWith(Digits(phone), "94") ==> International(r)
  {
    var digits := Digits(phone);
    if StartsWith(digits, "0") then
      var r := "+94" + digits[1..];
      assert r[1..] == "94" + digits[1..] && r[1..][..2] == "94";
      r
    else if StartsWith(digits, "94") then
      var r := "+" + digits;
      assert r[1..] == digits;
      r
    else phone
  }

  /**
   * A number with a Sri Lankan prefix normalises as its digits do: separators
   * typed around the digits make no difference.
   */
  lemma NormalizeIgnoresSeparators(phone: string)
    requires StartsWith(Digits(phone), "0") || StartsWith(Digits(phone), "94")
    ensures NormalizePhone(phone) == NormalizePhone(Digits(phone))
  {
    assert Digits(Digits(phone)) == Digits(phone);
  }

  /** An international number is its own normal form. */
  lemma NormalizeInternational(phone: string)
    requires International(phone)
    ensures NormalizePhone(phone) == phone
  {
    var tail := phone[1..];
    assert phone == "+" + tail;
    DigitsConcat("+", tail);
    assert Digits("+") == [];
    assert Digits(phone) == tail;
  }

  /** Normalising twice gives the same number as normalising once. */
  lemma NormalizeIdempotent(phone: string)
    ensures NormalizePhone(NormalizePhone(phone)) == NormalizePhone(phone)
  {
    if International(NormalizePhone(phone)) {
      NormalizeInternational(NormalizePhone(phone));
    }
  }

  /** The local spelling `0…` and the international spelling `94…` of the same subscriber number agree. */
  lemma NormalizeLocalAndInternational(rest: string)
    requires AllDigits(rest)
    ensures NormalizePhone("0" + rest) == NormalizePhone("94" + rest) == "+94" + rest
  {
    assert AllDigits("0" + rest);
    assert AllDigits("94" + rest);
    assert ("0" + rest)[1..] == rest;
  }

  // ---------------------------------------------------------------------------
  // Matching device contacts against registered users

  /** Position of the first registered user with this phone, or `|registered|` when there is none. */
  function FirstWithPhone(registered: seq<RegisteredUser>, phone: string): (k: nat)
    ensures k <= |registered|
    ensures forall j :: 0 <= j < k ==> registered[j].phone != phone
    ensures k < |registered| ==> registered[k].phone == phone
  {
    if registered == [] then 0
    else if registered[0].phone == phone then 0
    else 1 + FirstWithPhone(registered[1..], phone)
  }

  /** `heyRegisteredUsers.find(u => u.phone === phone)`. */
  function FindRegistered(registered: seq<RegisteredUser>, phone: string): (r: Option<RegisteredUser>)
    ensures r.None? <==> forall j :: 0 <= j < |registered| ==> registered[j].phone != phone
    ensures r.Some? ==> r.value in registered && r.value.phone == phone
  {
    var k := FirstWithPhone(registered, phone);
    if k < |registered| then Some(registered[k]) else None
  }

  /** The device contact's number belongs to a registered user. */
  predicate IsOnHey(registered: seq<RegisteredUser>, d: DeviceContact)
  {
    FindRegistered(registered, NormalizePhone(d.phone)).Some?
  }

  /**
   * The entry recorded for device contact `d` that matched registered user `u`:
   * well-formed, under the user's id with the normalised number, and mutual
   * exactly when the user has my number.
   */
  function Entry(d: DeviceContact, u: RegisteredUser, now: int): (r: ContactInfo)
    ensures WellFormed(r)
    ensures r.id == u.id && r.phone == NormalizePhone(d.phone) && r.lastSeen == now
    ensures r.isMutual <==> u.hasMyNumber
  {
    ContactInfo(
      id := u.id, name := d.name, phone := NormalizePhone(d.phone),
      hasMyNumber := u.hasMyNumber, iHaveTheirNumber := true, isMutual := true && u.hasMyNumber,
      isOnHey := true, lastSeen := now, online := u.online)
  }

  /** What every recorded entry satisfies: on the service, in my contacts, mutual exactly when they have my number. */
  predicate WellFormed(c: ContactInfo)
  {
    c.isOnHey && c.iHaveTheirNumber && c.isMutual == c.hasMyNumber
  }

  predicate IsMutualEntry(c: ContactInfo)
  {
    c.isMutual
  }

  predicate IsOneWayEntry(c: ContactInfo)
  {
    c.isOnHey && c.iHaveTheirNumber && !c.hasMyNumber
  }

  /** What one device contact contributes: its entry when its normalised number is registered, else nothing. */
  function MatchOne(d: DeviceContact, registered: seq<RegisteredUser>, now: int): (r: seq<ContactInfo>)
    ensures |r| == (if IsOnHey(registered, d) then 1 else 0)
    ensures forall i :: 0 <= i < |r| ==> WellFormed(r[i]) && r[i].lastSeen == now
  {
    match FindRegistered(registered, NormalizePhone(d.phone))
    case None => []
    case Some(u) => [Entry(d, u, now)]
  }

  /** The entries the sync loop builds, one per matching device contact, in device order. */
  function Matched(device: seq<DeviceContact>, registered: seq<RegisteredUser>, now: int): (r: seq<ContactInfo>)
    ensures |r| <= |device|
    ensures forall i :: 0 <= i < |r| ==> WellFormed(r[i]) && r[i].lastSeen == now
  {
    if device == [] then []
    else Matched(device[..|device| - 1], registered, now) + MatchOne(device[|device| - 1], registered, now)
  }

  lemma MatchedSnoc(prefix: seq<DeviceContact>, d: DeviceContact, registered: seq<RegisteredUser>, now: int)
    ensures Matched(prefix + [d], registered, now) == Matched(prefix, registered, now) + MatchOne(d, registered, now)
  {
    assert (prefix + [d])[..|prefix|] == prefix;
  }

  /** One entry per device contact whose normalised number is registered, so the `heyUsers` count is the number of such contacts. */
  lemma {:induction false} MatchedLength(device: seq<DeviceContact>, registered: seq<RegisteredUser>, now: int)
    ensures |Matched(device, registered, now)| == |Filter(device, d => IsOnHey(registered, d))|
  {
    if device != [] {
      var n := |device| - 1;
      assert device == device[..n] + [device[n]];
      MatchedLength(device[..n], registered, now);
      FilterConcat(device[..n], [device[n]], d => IsOnHey(registered, d));
      assert Filter([device[n]], d => IsOnHey(registered, d)) == (if IsOnHey(registered, device[n]) then [device[n]] else []) + Filter([device[n]][1..], d => IsOnHey(registered, d));
    }
  }

  /** `c` is the entry recorded for device contact `d`, matched to the registered user `u` with its normalised number. */
  predicate RecordedFor(c: ContactInfo, d: DeviceContact, u: RegisteredUser, now: int)
  {
    u.phone == NormalizePhone(d.phone) && c == Entry(d, u, now)
  }

  /** Every entry comes from a device contact and the registered user with its normalised number: the device name, the normalised phone and the registered id. */
  lemma {:induction false} MatchedOrigin(device: seq<DeviceContact>, registered: seq<RegisteredUser>, now: int)
    ensures forall c :: c in Matched(device, registered, now) ==>
      exists d, u :: d in device && u in registered && RecordedFor(c, d, u, now)
  {
    if device != [] {
      var n := |device| - 1;
      var d := device[n];
      var prefix := Matched(device[..n], registered, now);
      var one := MatchOne(d, registered, now);
      assert Matched(device, registered, now) == prefix + one;
      MatchedOrigin(device[..n], registered, now);
      forall c | c in prefix + one
        ensures exists d, u :: d in device && u in registered && RecordedFor(c, d, u, now)
      {
        if c in prefix {
          var d', u' :| d' in device[..n] && u' in registered && RecordedFor(c, d', u', now);
          assert d' in device;
        } else {
          assert c in one;
          var found := FindRegistered(registered, NormalizePhone(d.phone));
          assert found.Some? && one == [Entry(d, found.value, now)];
          assert d in device && RecordedFor(c, d, found.value, now);
        }
      }
    }
  }

  // ---------------------------------------------------------------------------
  // Ordering of the sync result: mutual first, then online, then by name

  /** Lexicographic order on names, by character code (the model of `localeCompare`). */
  predicate LexLeq(a: string, b: string)
    ensures a == b ==> LexLeq(a, b)
  {
    a == [] || (b != [] && (a[0] < b[0] || (a[0] == b[0] && LexLeq(a[1..], b[1..]))))
  }

  lemma {:induction false} LexLeqTotal(a: string, b: string)
    ensures LexLeq(a, b) || LexLeq(b, a)
  {
    if a != [] && b != [] && a[0] == b[0] {
      LexLeqTotal(a[1..], b[1..]);
    }
  }

  /** Two names each ordered before the other are the same name. */
  lemma {:induction false} LexLeqAntisymmetric(a: string, b: string)
    requires LexLeq(a, b) && LexLeq(b, a)
    ensures a == b
  {
    if a != [] && b != [] {
      LexLeqAntisymmetric(a[1..], b[1..]);
      assert a == [a[0]] + a[1..] && b == [b[0]] + b[1..];
    }
  }

  lemma {:induction false} LexLeqTransitive(a: string, b: string, c: string)
    requires LexLeq(a, b) && LexLeq(b, c)
    ensures LexLeq(a, c)
  {
    if a != [] && b != [] && c != [] && a[0] == b[0] == c[0] {
      LexLeqTransitive(a[1..], b[1..], c[1..]);
    }
  }

  /** The comparator of the sync result: `a` may come before `b`. */
  predicate SortsBefore(a: ContactInfo, b: ContactInfo)
    ensures a == b ==> SortsBefore(a, b)
  {
    if a.isMutual != b.isMutual then a.isMutual
    else if a.online != b.online then a.online
    else LexLeq(a.name, b.name)
  }

  lemma SortsBeforeTotal(a: ContactInfo, b: ContactInfo)
    ensures SortsBefore(a, b) || SortsBefore(b, a)
  {
    LexLeqTotal(a.name, b.name);
  }

  lemma SortsBeforeTransitive(a: ContactInfo, b: ContactInfo, c: ContactInfo)
    requires SortsBefore(a, b) && SortsBefore(b, c)
    ensures SortsBefore(a, c)
  {
    if a.isMutual == b.isMutual == c.isMutual && a.online == b.online == c.online {
      LexLeqTransitive(a.name, b.name, c.name);
    }
  }

  predicate Sorted(s: seq<ContactInfo>)
  {
    forall i, j :: 0 <= i < j < |s| ==> SortsBefore(s[i], s[j])
  }

  /** `x` placed before the first element it sorts before. */
  function Insert(x: ContactInfo, s: seq<ContactInfo>): (r: seq<ContactInfo>)
    ensures multiset(r) == multiset(s) + multiset{x}
    ensures |r| == |s| + 1
  {
    if s == [] then [x]
    else if SortsBefore(x, s[0]) then [x] + s
    else
      assert s == [s[0]] + s[1..];
      [s[0]] + Insert(x, s[1..])
  }

  lemma {:induction false} InsertSorted(x: ContactInfo, s: seq<ContactInfo>)
    requires Sorted(s)
    ensures Sorted(Insert(x, s))
  {
    if s == [] {
    } else if SortsBefore(x, s[0]) {
      forall j | 1 <= j < |s| ensures SortsBefore(x, s[j]) {
        SortsBeforeTransitive(x, s[0], s[j]);
      }
    } else {
      SortsBeforeTotal(x, s[0]);
      InsertSorted(x, s[1..]);
      var r := Insert(x, s[1..]);
      forall k | 0 <= k < |r| ensures SortsBefore(s[0], r[k]) {
        assert r[k] in multiset(s[1..]) + multiset{x};
        if r[k] != x {
          assert r[k] in s[1..];
        }
      }
    }
  }

  /** Inserting one entry adds one to the count of entries with any property it has. */
  lemma {:induction false} InsertCount(x: ContactInfo, s: seq<ContactInfo>, p: ContactInfo -> bool)
    ensures |Filter(Insert(x, s), p)| == |Filter(s, p)| + (if p(x) then 1 else 0)
  {
    if s != [] && !SortsBefore(x, s[0]) {
      InsertCount(x, s[1..], p);
    }
  }

  /** `contacts.sort(…)` with the comparator above (an insertion sort; the order it gives agrees with any stable sort). */
  function SortContacts(s: seq<ContactInfo>): (r: seq<ContactInfo>)
    ensures multiset(r) == multiset(s)
    ensures |r| == |s|
  {
    if s == [] then []
    else
      assert s == [s[0]] + s[1..];
      Insert(s[0], SortContacts(s[1..]))
  }

  /** The sorted list is ordered mutual first, then online first, then by name. */
  lemma {:induction false} SortContactsSorted(s: seq<ContactInfo>)
    ensures Sorted(SortContacts(s))
  {
    if s != [] {
      SortContactsSorted(s[1..]);
      InsertSorted(s[0], SortContacts(s[1..]));
    }
  }

  /** Sorting keeps the number of entries with any property, in particular the mutual ones. */
  lemma {:induction false} SortContactsCount(s: seq<ContactInfo>, p: ContactInfo -> bool)
    ensures |Filter(SortContacts(s), p)| == |Filter(s, p)|
  {
    if s != [] {
      SortContactsCount(s[1..], p);
      InsertCount(s[0], SortContacts(s[1..]), p);
      assert s == [s[0]] + s[1..];
      FilterConcat([s[0]], s[1..], p);
      assert Filter([s[0]], p) == (if p(s[0]) then [s[0]] else []) + Filter([s[0]][1..], p);
    }
  }

  // ---------------------------------------------------------------------------
  // The service

  /** Every stored entry is well formed and filed under its own id. */
  ghost predicate Consistent(users: OrderedMap<string, ContactInfo>)
  {
    forall id :: id in users.entries ==> WellFormed(users.entries[id]) && users.entries[id].id == id
  }

  /** Filing a well-formed entry under its own id keeps the map consistent. */
  lemma ConsistentSet(users: OrderedMap<string, ContactInfo>, c: ContactInfo)
    requires users.Valid() && Consistent(users) && WellFormed(c)
    ensures Consistent(users.Set(c.id, c))
  {
  }

  /** `heyUsers` after `heyUsers.set(c.id, c)` for each entry `c` in turn; a later entry with the same id replaces an earlier one. */
  function Recorded(users: OrderedMap<string, ContactInfo>, entries: seq<ContactInfo>): (r: OrderedMap<string, ContactInfo>)
    requires users.Valid()
    ensures r.Valid()
    ensures users.entries.Keys <= r.entries.Keys
    ensures forall i :: 0 <= i < |entries| ==> entries[i].id in r.entries
    ensures |entries| > 0 ==> r.entries[entries[|entries| - 1].id] == entries[|entries| - 1]
  {
    if entries == [] then users
    else
      var n := |entries| - 1;
      var prev := Recorded(users, entries[..n]);
      assert forall i :: 0 <= i < n ==> entries[..n][i] == entries[i];
      prev.Set(entries[n].id, entries[n])
  }

  /** Recording well-formed entries keeps the map consistent. */
  lemma {:induction false} RecordedConsistent(users: OrderedMap<string, ContactInfo>, entries: seq<ContactInfo>)
    requires users.Valid() && Consistent(users)
    requires forall i :: 0 <= i < |entries| ==> WellFormed(entries[i])
    ensures Consistent(Recorded(users, entries))
  {
    if entries != [] {
      var n := |entries| - 1;
      RecordedConsistent(users, entries[..n]);
      ConsistentSet(Recorded(users, entries[..n]), entries[n]);
    }
  }

  /** The `mutualCount` tally of the sync loop over `entries`. */
  function MutualCount(entries: seq<ContactInfo>): (r: nat)
    ensures r <= |entries|
  {
    if entries == [] then 0
    else MutualCount(entries[..|entries| - 1]) + (if entries[|entries| - 1].isMutual then 1 else 0)
  }

  /** The tally is the number of mutual entries. */
  lemma {:induction false} MutualCountFilter(entries: seq<ContactInfo>)
    ensures MutualCount(entries) == |Filter(entries, IsMutualEntry)|
  {
    if entries != [] {
      var n := |entries| - 1;
      MutualCountFilter(entries[..n]);
      assert entries == entries[..n] + [entries[n]];
      FilterConcat(entries[..n], [entries[n]], IsMutualEntry);
      assert Filter([entries[n]], IsMutualEntry) == (if entries[n].isMutual then [entries[n]] else []) + Filter([entries[n]][1..], IsMutualEntry);
    }
  }

  /**
   * The result `syncContactsWithHey` returns: its counts are nested (mutual
   * entries among the matched ones, matched ones among the device contacts)
   * and it holds one entry per matched contact.
   */
  function SyncResult(device: seq<DeviceContact>, registered: seq<RegisteredUser>, now: int): (r: ContactSyncResult)
    ensures r.totalContacts == |device|
    ensures r.mutualContacts <= r.heyUsers <= r.totalContacts
    ensures r.heyUsers == |r.contacts|
  {
    var contacts := Matched(device, registered, now);
    ContactSyncResult(|device|, |contacts|, MutualCount(contacts), SortContacts(contacts))
  }

  /**
   * The sync result counts every device contact, holds one entry per registered
   * device contact, counts exactly its mutual entries, holds only well-formed
   * entries, and is ordered mutual first, then online, then by name.
   */
  lemma SyncResultFacts(device: seq<DeviceContact>, registered: seq<RegisteredUser>, now: int)
    ensures var r := SyncResult(device, registered, now);
      && r.totalContacts == |device|
      && r.heyUsers == |r.contacts| == |Filter(device, d => IsOnHey(registered, d))|
      && r.mutualContacts == |Filter(r.contacts, IsMutualEntry)|
      && multiset(r.contacts) == multiset(Matched(device, registered, now))
      && (forall i :: 0 <= i < |r.contacts| ==> WellFormed(r.contacts[i]))
      && Sorted(r.contacts)
  {
    var contacts := Matched(device, registered, now);
    MatchedLength(device, registered, now);
    MutualCountFilter(contacts);
    SortContactsCount(contacts, IsMutualEntry);
    SortContactsSorted(contacts);
    var sorted := SortContacts(contacts);
    forall i | 0 <= i < |sorted| ensures WellFormed(sorted[i]) {
      assert sorted[i] in multiset(contacts);
    }
  }

  /** Over well-formed entries, "one-way" is exactly "not mutual", so the two filters split the list. */
  lemma WellFormedPartition(values: seq<ContactInfo>)
    requires forall i :: 0 <= i < |values| ==> WellFormed(values[i])
    ensures multiset(Filter(values, IsMutualEntry)) + multiset(Filter(values, IsOneWayEntry)) == multiset(values)
    ensures |Filter(values, IsMutualEntry)| + |Filter(values, IsOneWayEntry)| == |values|
  {
    FilterPartition(values, IsMutualEntry, IsOneWayEntry);
  }

  /** One step of the sync loop: the next device contact adds its entry, if registered, to the list, the map and the mutual count. */
  lemma SyncStep(device: seq<DeviceContact>, registered: seq<RegisteredUser>, now: int, i: nat, users: OrderedMap<string, ContactInfo>, u: RegisteredUser)
    requires i < |device| && users.Valid()
    requires FindRegistered(registered, NormalizePhone(device[i].phone)) == Some(u)
    ensures var before := Matched(device[..i], registered, now);
      var after := Matched(device[..i + 1], registered, now);
      var e := Entry(device[i], u, now);
      && after == before + [e]
      && Recorded(users, after) == Recorded(users, before).Set(u.id, e)
      && MutualCount(after) == MutualCount(before) + (if u.hasMyNumber then 1 else 0)
  {
    assert device[..i + 1] == device[..i] + [device[i]];
    MatchedSnoc(device[..i], device[i], registered, now);
    var before := Matched(device[..i], registered, now);
    var after := before + [Entry(device[i], u, now)];
    assert after[..|after| - 1] == before;
  }

  /** A device contact whose number is not registered adds nothing. */
  lemma SyncSkip(device: seq<DeviceContact>, registered: seq<RegisteredUser>, now: int, i: nat)
    requires i < |device|
    requires FindRegistered(registered, NormalizePhone(device[i].phone)).None?
    ensures Matched(device[..i + 1], registered, now) == Matched(device[..i], registered, now)
  {
    assert device[..i + 1] == device[..i] + [device[i]];
    MatchedSnoc(device[..i], device[i], registered, now);
    assert Matched(device[..i], registered, now) + [] == Matched(device[..i], registered, now);
  }

  class ContactVerificationService {
    var userPhone: string
    var heyUsers: OrderedMap<string, ContactInfo>

    ghost predicate Valid()
      reads this
    {
      heyUsers.Valid() && Consistent(heyUsers)
    }

    /** `new ContactVerificationService(userPhone)`: no contact verified yet. */
    constructor (userPhone: string)
      ensures Valid()
      ensures this.userPhone == userPhone && heyUsers == Empty()
    {
      this.userPhone := userPhone;
      heyUsers := Empty();
    }

    /**
     * `syncContactsWithHey`: walks the device contacts in order, records each one
     * whose normalised number is registered under the registered user's id, and
     * counts the mutual ones.
     */
    method SyncContactsWithHey(device: seq<DeviceContact>, registered: seq<RegisteredUser>, now: int) returns (result: ContactSyncResult)
      requires Valid()
      modifies this`heyUsers
      ensures Valid()
      ensures heyUsers == Recorded(old(heyUsers), Matched(device, registered, now))
      ensures result == SyncResult(device, registered, now)
    {
      var contacts: seq<ContactInfo> := [];
      var mutualCount := 0;
      var i := 0;
      assert device[..0] == [];
      assert Matched([], registered, now) == [];
      assert contacts == Matched(device[..0], registered, now);
      while i < |device|
        invariant 0 <= i <= |device|
        invariant contacts == Matched(device[..i], registered, now)
        invariant mutualCount == MutualCount(contacts)
        invariant heyUsers == Recorded(old(heyUsers), contacts)
      {
        var d := device[i];
        var normalizedPhone := NormalizePhone(d.phone);
        var heyUser := FindRegistered(registered, normalizedPhone);
        if heyUser.Some? {
          var u := heyUser.value;
          SyncStep(device, registered, now, i, old(heyUsers), u);
          var isMutual := true && u.hasMyNumber;
          if isMutual {
            mutualCount := mutualCount + 1;
          }
          var info := Entry(d, u, now);
          contacts := contacts + [info];
          heyUsers := heyUsers.Set(u.id, info);
        } else {
          SyncSkip(device, registered, now, i);
        }
        assert contacts == Matched(device[..i + 1], registered, now);
        i := i + 1;
      }
      assert device[..i] == device;
      RecordedConsistent(old(heyUsers), contacts);
      result := ContactSyncResult(|device|, |contacts|, mutualCount, SortContacts(contacts));
    }

    /** `canMessageContact`: only a known, mutual contact may be messaged. */
    function CanMessageContact(contactId: string): (r: bool)
      reads this
      ensures r ==> contactId in heyUsers.entries
      ensures contactId in heyUsers.entries ==> (r <==> heyUsers.entries[contactId].isMutual)
    {
      match heyUsers.Get(contactId)
      case Some(contact) => contact.isMutual
      case None => false
    }

    /** `verifyMutualContact`: whether a known contact has this user's number; unknown ids are refused. */
    function VerifyMutualContact(contactId: string): (r: bool)
      reads this
      ensures r ==> contactId in heyUsers.entries
      ensures contactId in heyUsers.entries ==> (r <==> heyUsers.entries[contactId].hasMyNumber)
    {
      match heyUsers.Get(contactId)
      case Some(contact) => contact.hasMyNumber
      case None => false
    }

    /** `getContactInfo`: the entry stored under `contactId`, or none. */
    function GetContactInfo(contactId: string): (r: Option<ContactInfo>)
      reads this
      ensures r.Some? <==> contactId in heyUsers.entries
      ensures r.Some? ==> r.value == heyUsers.entries[contactId]
    {
      heyUsers.Get(contactId)
    }

    /** Every recorded entry is mutual exactly when that user has my number, so the two checks always agree. */
    lemma CanMessageIffVerified(contactId: string)
      requires Valid()
      ensures CanMessageContact(contactId) == VerifyMutualContact(contactId)
      ensures GetContactInfo(contactId).Some? ==> GetContactInfo(contactId).value.id == contactId
    {
    }

    /** `getMutualContacts`: the mutual entries, in insertion order. */
    function GetMutualContacts(): (r: seq<ContactInfo>)
      requires heyUsers.Valid()
      reads this
      ensures forall c :: c in r <==> c in heyUsers.Values() && c.isMutual
    {
      Filter(heyUsers.Values(), IsMutualEntry)
    }

    /** `getOneWayContacts`: the entries on the service that I have but that do not have my number, in insertion order. */
    function GetOneWayContacts(): (r: seq<ContactInfo>)
      requires heyUsers.Valid()
      reads this
      ensures forall c :: c in r <==> c in heyUsers.Values() && c.isOnHey && c.iHaveTheirNumber && !c.hasMyNumber
    {
      Filter(heyUsers.Values(), IsOneWayEntry)
    }

    /** The mutual and one-way views are disjoint and together hold every recorded entry exactly once. */
    lemma MutualAndOneWayPartition()
      requires Valid()
      ensures forall c :: !(c in GetMutualContacts() && c in GetOneWayContacts())
      ensures multiset(GetMutualContacts()) + multiset(GetOneWayContacts()) == multiset(heyUsers.Values())
      ensures |GetMutualContacts()| + |GetOneWayContacts()| == |heyUsers.keys|
    {
      var values := heyUsers.Values();
      forall i | 0 <= i < |values| ensures WellFormed(values[i]) {
        assert heyUsers.keys[i] in heyUsers.entries;
      }
      WellFormedPartition(values);
    }

    /** `updateContactStatus`: a known entry gets the new online flag and a fresh `lastSeen`; unknown ids change nothing. */
    method UpdateContactStatus(contactId: string, online: bool, now: int)
      requires Valid()
      modifies this`heyUsers
      ensures Valid()
      ensures heyUsers.keys == old(heyUsers.keys)
      ensures contactId !in old(heyUsers.entries) ==> heyUsers == old(heyUsers)
      ensures contactId in old(heyUsers.entries) ==>
        heyUsers.entries == old(heyUsers.entries)[contactId := old(heyUsers.entries)[contactId].(online := online, lastSeen := now)]
    {
      var contact := heyUsers.Get(contactId);
      if contact.Some? {
        var updated := contact.value.(online := online, lastSeen := now);
        heyUsers := heyUsers.Set(contactId, updated);
      }
    }
  }
}
