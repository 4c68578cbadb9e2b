/**
 * The main page (`HiChatApp`): which screen is shown — sign-in, contact
 * sync or chat — and the session kept in `localStorage` under four keys, so
 * that a reload restores the screen the user left.
 *
 * The sign-in, sync and chat screens are the callers of the handlers here;
 * `JSON.stringify`/`JSON.parse` of the contact list is the opaque stored
 * value `ContactsJson`.
 */
module HiChatApp {
  import opened Storage
  import opened ContactVerification

  datatype AuthStep = AuthStep | SyncStep | ChatStep

  /** The screen a step renders, with the properties it is given. */
  datatype Screen =
    | PhoneAuthScreen
    | ContactSyncScreen(userPhone: string, userName: string)
    | MutualChatScreen(userPhone: string, userName: string, contacts: seq<ContactInfo>)

  /** What this page writes: strings under the three session keys and a serialised list under the contacts key. */
  predicate WellFormedStore(store: Store)
  {
    (AuthKey in store ==> store[AuthKey].Str?) &&
    (PhoneKey in store ==> store[PhoneKey].Str?) &&
    (NameKey in store ==> store[NameKey].Str?) &&
    (ContactsKey in store ==> store[ContactsKey].ContactsJson?)
  }

  /** The three session keys are all set to non-empty values. */
  predicate SignedIn(store: Store)
  {
    Truthy(store, AuthKey) && Truthy(store, PhoneKey) && Truthy(store, NameKey)
  }

  /** The step the mount effect restores: chat with stored contacts, sync without, and sign-in unless all three session keys are set. */
  function RestoredStep(store: Store): (r: AuthStep)
    ensures r == ChatStep <==> SignedIn(store) && Truthy(store, ContactsKey)
    ensures r == SyncStep <==> SignedIn(store) && !Truthy(store, ContactsKey)
    ensures r == AuthStep <==> !SignedIn(store)
  {
    if !SignedIn(store) then AuthStep
    else if Truthy(store, ContactsKey) then ChatStep
    else SyncStep
  }

  /**
   * The store after `handleAuthSuccess`: signed in when the phone and name
   * are non-empty, still well-formed, and every other key kept.
   */
  function SignInStore(store: Store, phone: string, name: string): (r: Store)
    ensures phone != "" && name != "" ==> SignedIn(r)
    ensures WellFormedStore(store) ==> WellFormedStore(r)
    ensures forall k :: k in store && k != AuthKey && k != PhoneKey && k != NameKey ==> k in r && r[k] == store[k]
  {
    store[AuthKey := Str("true")][PhoneKey := Str(phone)][NameKey := Str(name)]
  }

  /** The store after `handleLogout`: signed out with no contact list, still well-formed, and every other key kept. */
  function LogoutStore(store: Store): (r: Store)
    ensures !SignedIn(r) && !Truthy(r, ContactsKey)
    ensures WellFormedStore(store) ==> WellFormedStore(r)
    ensures forall k :: k in store && k != AuthKey && k != PhoneKey && k != NameKey && k != ContactsKey ==> k in r && r[k] == store[k]
  {
    store - {AuthKey, PhoneKey, NameKey, ContactsKey}
  }

  /** After signing in with a non-empty phone and name, a reload lands on sync, or on chat if a contact list was already stored. */
  lemma RestoreAfterSignIn(store: Store, phone: string, name: string)
    requires phone != "" && name != ""
    ensures RestoredStep(SignInStore(store, phone, name)) == if Truthy(store, ContactsKey) then ChatStep else SyncStep
  {
  }

  /** After logging out, a reload stays on the sign-in screen, whatever was stored before. */
  lemma RestoreAfterLogout(store: Store)
    ensures RestoredStep(LogoutStore(store)) == AuthStep
  {
  }

  /** After a sync in a signed-in session, a reload lands on chat; after a resync request, on sync. */
  lemma RestoreAfterSync(store: Store, contacts: seq<ContactInfo>)
    requires SignedIn(store)
    ensures RestoredStep(store[ContactsKey := ContactsJson(contacts)]) == ChatStep
    ensures RestoredStep(store - {ContactsKey}) == SyncStep
  {
  }

  class HiChatApp {
    var authStep: AuthStep
    var userPhone: string
    var userName: string
    var contacts: seq<ContactInfo>
    /** `localStorage`. */
    var store: Store

    constructor (store: Store)
      ensures authStep == AuthStep && userPhone == "" && userName == "" && contacts == [] && this.store == store
    {
      authStep := AuthStep;
      userPhone := "";
      userName := "";
      contacts := [];
      this.store := store;
    }

    /** The screen rendered for each step: exactly one, given the page's session state. */
    function Rendered(): (r: Screen)
      reads this
      ensures r.PhoneAuthScreen? <==> authStep == AuthStep
      ensures r.ContactSyncScreen? <==> authStep == SyncStep
      ensures r.MutualChatScreen? <==> authStep == ChatStep
      ensures !r.PhoneAuthScreen? ==> r.userPhone == userPhone && r.userName == userName
    {
      match authStep
      case AuthStep => PhoneAuthScreen
      case SyncStep => ContactSyncScreen(userPhone, userName)
      case ChatStep => MutualChatScreen(userPhone, userName, contacts)
    }

    /** The mount effect: a stored session is restored with its phone, name and contacts; otherwise nothing changes. */
    method Restore()
      requires WellFormedStore(store)
      modifies this`authStep, this`userPhone, this`userName, this`contacts
      ensures !SignedIn(store) ==>
        authStep == old(authStep) && userPhone == old(userPhone) && userName == old(userName) && contacts == old(contacts)
      ensures SignedIn(store) ==>
        authStep == RestoredStep(store) && userPhone == store[PhoneKey].s && userName == store[NameKey].s &&
        contacts == (if Truthy(store, ContactsKey) then store[ContactsKey].contacts else old(contacts))
    {
      if SignedIn(store) {
        userPhone := store[PhoneKey].s;
        userName := store[NameKey].s;
        if Truthy(store, ContactsKey) {
          contacts := store[ContactsKey].contacts;
          authStep := ChatStep;
        } else {
          authStep := SyncStep;
        }
      }
    }

    /** `handleAuthSuccess`: the session is remembered and the sync screen shown. */
    method HandleAuthSuccess(phone: string, name: string)
      modifies this`authStep, this`userPhone, this`userName, this`store
      ensures userPhone == phone && userName == name && authStep == SyncStep
      ensures store == SignInStore(old(store), phone, name)
    {
      userPhone := phone;
      userName := name;
      store := SignInStore(store, phone, name);
      authStep := SyncStep;
    }

    /** `handleSyncComplete`: the synced contacts are kept and stored, and the chat shown. */
    method HandleSyncComplete(synced: seq<ContactInfo>)
      modifies this`contacts, this`store, this`authStep
      ensures contacts == synced && store == old(store)[ContactsKey := ContactsJson(synced)] && authStep == ChatStep
    {
      contacts := synced;
      store := store[ContactsKey := ContactsJson(synced)];
      authStep := ChatStep;
    }

    /** `handleResyncContacts`: only the stored contact list is dropped, and the sync screen shown. */
    method HandleResyncContacts()
      modifies this`store, this`authStep
      ensures store == old(store) - {ContactsKey} && authStep == SyncStep
    {
      store := store - {ContactsKey};
      authStep := SyncStep;
    }

    /** `handleLogout`: the page is reset and exactly the four session keys are removed. */
    method HandleLogout()
      modifies this`authStep, this`userPhone, this`userName, this`contacts, this`store
      ensures authStep == AuthStep && userPhone == "" && userName == "" && contacts == []
      ensures store == LogoutStore(old(store))
    {
      authStep := AuthStep;
      userPhone := "";
      userName := "";
      contacts := [];
      store := LogoutStore(store);
    }
  }

  /** Sign in, sync, reload: the reloaded page opens the chat with the same user and contacts. */
  method SignInSyncReload(store: Store, phone: string, name: string, synced: seq<ContactInfo>) returns (reloaded: HiChatApp)
    requires WellFormedStore(store) && phone != "" && name != ""
    ensures reloaded.authStep == ChatStep && reloaded.userPhone == phone && reloaded.userName == name && reloaded.contacts == synced
    ensures reloaded.Rendered() == MutualChatScreen(phone, name, synced)
  {
    var app := new HiChatApp(store);
    app.Restore();
    app.HandleAuthSuccess(phone, name);
    app.HandleSyncComplete(synced);
    reloaded := new HiChatApp(app.store);
    reloaded.Restore();
  }

  /** Log out, reload: the reloaded page opens the sign-in screen. */
  method LogoutReload(store: Store) returns (reloaded: HiChatApp)
    requires WellFormedStore(store)
    ensures reloaded.authStep == AuthStep && reloaded.Rendered() == PhoneAuthScreen
  {
    var app := new HiChatApp(store);
    app.Restore();
    app.HandleLogout();
    reloaded := new HiChatApp(app.store);
    reloaded.Restore();
  }
}
