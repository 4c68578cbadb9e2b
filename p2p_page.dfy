/**
 * The peer-to-peer page (`P2PPage`): sign-in or the peer-to-peer chat,
 * with the session kept in `localStorage` under the same three keys the
 * main page uses.
 */
module P2PPage {
  import opened Wrappers
  import opened Storage
  import HiChatApp

  /** The properties the peer-to-peer chat screen is given. */
  datatype ChatProps = ChatProps(userId: string, userName: string, userPhone: string)

  /** The session the mount effect restores: authenticated exactly when all three keys are set. */
  function RestoredAuth(store: Store): (r: bool)
    ensures r <==> Truthy(store, AuthKey) && Truthy(store, PhoneKey) && Truthy(store, NameKey)
  {
    HiChatApp.SignedIn(store)
  }

  /** The keys this page removes on logout: the session ends, and every other key, the contact list among them, is kept. */
  function LogoutStore(store: Store): (r: Store)
    ensures !HiChatApp.SignedIn(r)
    ensures forall k :: k in store && k != AuthKey && k != PhoneKey && k != NameKey ==> k in r && r[k] == store[k]
  {
    store - {AuthKey, PhoneKey, NameKey}
  }

  /** After logging out here, a reload of either page shows the sign-in screen; the stored contact list is kept. */
  lemma RestoreAfterLogout(store: Store)
    ensures !RestoredAuth(LogoutStore(store))
    ensures HiChatApp.RestoredStep(LogoutStore(store)) == HiChatApp.AuthStep
    ensures ContactsKey in store ==> LogoutStore(store)[ContactsKey] == store[ContactsKey]
  {
  }

  /** A sign-in on either page is a sign-in on both: the two pages write the same three keys. */
  lemma SessionShared(store: Store, phone: string, name: string)
    requires phone != "" && name != ""
    ensures RestoredAuth(HiChatApp.SignInStore(store, phone, name))
    ensures HiChatApp.RestoredStep(HiChatApp.SignInStore(store, phone, name)) != HiChatApp.AuthStep
  {
  }

  class P2PPage {
    var isAuthenticated: bool
    var userPhone: string
    var userName: string
    /** `localStorage`. */
    var store: Store

    constructor (store: Store)
      ensures !isAuthenticated && userPhone == "" && userName == "" && this.store == store
    {
      isAuthenticated := false;
      userPhone := "";
      userName := "";
      this.store := store;
    }

    /** The chat is rendered only when authenticated, and it is given the phone number as both the user id and the phone. */
    function Rendered(): (r: Option<ChatProps>)
      reads this
      ensures r.Some? <==> isAuthenticated
      ensures r.Some? ==> r.value.userId == userPhone && r.value.userPhone == userPhone && r.value.userName == userName
    {
      if isAuthenticated then Some(ChatProps(userPhone, userName, userPhone)) else None
    }

    /** The mount effect. */
    method Restore()
      requires HiChatApp.WellFormedStore(store)
      modifies this`isAuthenticated, this`userPhone, this`userName
      ensures RestoredAuth(store) ==> isAuthenticated && userPhone == store[PhoneKey].s && userName == store[NameKey].s
      ensures !RestoredAuth(store) ==> isAuthenticated == old(isAuthenticated) && userPhone == old(userPhone) && userName == old(userName)
    {
      if HiChatApp.SignedIn(store) {
        isAuthenticated := true;
        userPhone := store[PhoneKey].s;
        userName := store[NameKey].s;
      }
    }

    /** `handleAuthSuccess`. */
    method HandleAuthSuccess(phone: string, name: string)
      modifies this`isAuthenticated, this`userPhone, this`userName, this`store
      ensures isAuthenticated && userPhone == phone && userName == name
      ensures store == HiChatApp.SignInStore(old(store), phone, name)
    {
      isAuthenticated := true;
      userPhone := phone;
      userName := name;
      store := HiChatApp.SignInStore(store, phone, name);
    }

    /** `handleLogout`: the page is reset and exactly the three session keys are removed. */
    method HandleLogout()
      modifies this`isAuthenticated, this`userPhone, this`userName, this`store
      ensures !isAuthenticated && userPhone == "" && userName == ""
      ensures store == LogoutStore(old(store))
    {
      isAuthenticated := false;
      userPhone := "";
      userName := "";
      store := LogoutStore(store);
    }
  }

  /** Sign in, reload: the reloaded page shows the chat for the same user. */
  method SignInReload(store: Store, phone: string, name: string) returns (reloaded: P2PPage)
    requires HiChatApp.WellFormedStore(store) && phone != "" && name != ""
    ensures reloaded.Rendered() == Some(ChatProps(phone, name, phone))
  {
    var page := new P2PPage(store);
    page.HandleAuthSuccess(phone, name);
    reloaded := new P2PPage(page.store);
    reloaded.Restore();
  }

  /** Log out, reload: the reloaded page shows the sign-in screen. */
  method LogoutReload(store: Store) returns (reloaded: P2PPage)
    requires HiChatApp.WellFormedStore(store)
    ensures reloaded.Rendered() == None
  {
    var page := new P2PPage(store);
    page.Restore();
    page.HandleLogout();
    reloaded := new P2PPage(page.store);
    reloaded.Restore();
  }
}
