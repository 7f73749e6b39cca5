/**
 * The vocabulary AutoFill shares with the password manager: URLs, stored
 * credential entries, captured form data, and the requests AutoFill hands to
 * the manager. The manager itself (storage, encryption, timestamps) is not
 * part of this model.
 */
module PasswordStore {

  /** A URL, as far as AutoFill looks at it: its host component and its full textual form. */
  datatype Url = Url(host: string, full: string)

  /** A stored credential. */
  datatype PasswordEntry = PasswordEntry(host: string, username: string, password: string, data: string)

  /** A default-constructed entry: every field empty. */
  const EmptyEntry: PasswordEntry := PasswordEntry("", "", "", "")

  /** What a page's form submission captured. */
  datatype PageFormData = PageFormData(username: string, password: string, postData: string)

  /** A write request handed to the password manager. */
  datatype ManagerCall =
    | AddCall(entry: PasswordEntry)
    | UpdateCall(entry: PasswordEntry)
    | UpdateLastUsedCall(entry: PasswordEntry)
    | RemoveCall(entry: PasswordEntry)
    | RemoveAllCall

  /** The stored entries filed under `key`, in store order and with their repetitions. */
  function EntriesFor(entries: seq<PasswordEntry>, key: string): (r: seq<PasswordEntry>)
    ensures forall e :: e in r <==> e in entries && e.host == key
    ensures forall e {:trigger multiset(r)[e]} :: multiset(r)[e] == if e.host == key then multiset(entries)[e] else 0
  {
    if entries == [] then []
    else
      assert entries == [entries[0]] + entries[1..];
      var rest := EntriesFor(entries[1..], key);
      (if entries[0].host == key then [entries[0]] else []) + rest
  }

  /** The first entry the lookup returns is the first stored entry filed under `key`. */
  lemma {:induction false} EntriesForHead(entries: seq<PasswordEntry>, key: string, i: nat)
    requires i < |entries| && entries[i].host == key
    requires forall j :: 0 <= j < i ==> entries[j].host != key
    ensures EntriesFor(entries, key) != [] && EntriesFor(entries, key)[0] == entries[i]
  {
    if i > 0 {
      EntriesForHead(entries[1..], key, i - 1);
    }
  }

  /** Looking up a store made of two parts gives the first part's entries, then the second's. */
  lemma {:induction false} EntriesForAppend(a: seq<PasswordEntry>, b: seq<PasswordEntry>, key: string)
    ensures EntriesFor(a + b, key) == EntriesFor(a, key) + EntriesFor(b, key)
  {
    if a == [] {
      assert a + b == b;
    } else {
      assert (a + b)[1..] == a[1..] + b;
      EntriesForAppend(a[1..], b, key);
    }
  }
}
