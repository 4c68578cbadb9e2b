/**
 * The browser's `localStorage`, as a string-keyed map. Strings are stored as
 * they are; a JSON-serialised contact list is kept as an opaque value that
 * reads back as the list it was written from.
 */
module Storage {
  import opened ContactVerification

  datatype StoredValue = Str(s: string) | ContactsJson(contacts: seq<ContactInfo>)

  type Store = map<string, StoredValue>

  /** `localStorage.getItem(key)` used as a condition: present and not the empty string (`JSON.stringify` of a list is never empty). */
  predicate Truthy(store: Store, key: string)
  {
    key in store && store[key] != Str("")
  }

  const AuthKey := "hi-chat-auth"
  const PhoneKey := "hi-chat-phone"
  const NameKey := "hi-chat-name"
  const ContactsKey := "hi-chat-contacts"
}
