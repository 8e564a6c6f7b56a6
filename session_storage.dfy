/**
 * The browser's localStorage as the session code uses it: a string-keyed
 * map of strings in which a sign-in writes two keys, a sign-out removes
 * them, and a session lookup reads them back.
 */
module SessionStorage {
  import opened Wrappers

  type Storage = map<string, string>

  const UserIdKey := "user_id"
  const UserEmailKey := "user_email"

  /** `localStorage.getItem(key)`: the stored value, or null. */
  function GetItem(s: Storage, key: string): (r: Option<string>)
    ensures r.Some? <==> key in s
    ensures r.Some? ==> r.value == s[key]
  {
    if key in s then Some(s[key]) else None
  }

  /** JavaScript truthiness of a `string | null`: neither null nor empty. */
  predicate Truthy(v: Option<string>) {
    v.Some? && v.value != ""
  }

  /** The two `setItem` calls of a sign-in. */
  function SignedIn(s: Storage, id: string, email: string): (r: Storage)
    ensures GetItem(r, UserIdKey) == Some(id) && GetItem(r, UserEmailKey) == Some(email)
    ensures forall k :: k != UserIdKey && k != UserEmailKey ==> GetItem(r, k) == GetItem(s, k)
  {
    s[UserIdKey := id][UserEmailKey := email]
  }

  /** The two `removeItem` calls of a sign-out. */
  function Cleared(s: Storage): (r: Storage)
    ensures GetItem(r, UserIdKey).None? && GetItem(r, UserEmailKey).None?
    ensures forall k :: k != UserIdKey && k != UserEmailKey ==> GetItem(r, k) == GetItem(s, k)
  {
    s - {UserIdKey, UserEmailKey}
  }

  /**
   * The identity a session lookup reads back: both values, when both are
   * truthy (`if (userId && userEmail)`); otherwise none.
   */
  function StoredIdentity(s: Storage): Option<(string, string)> {
    var id := GetItem(s, UserIdKey);
    var email := GetItem(s, UserEmailKey);
    if Truthy(id) && Truthy(email) then Some((id.value, email.value)) else None
  }

  /**
   * Reading back after a sign-in yields the identity written, unless one of
   * the two values is empty, which reads back as no session at all.
   */
  lemma SignedInReadsBack(s: Storage, id: string, email: string)
    ensures StoredIdentity(SignedIn(s, id, email)) ==
              if id != "" && email != "" then Some((id, email)) else None
  {
  }

  /** After a sign-out nothing reads back. */
  lemma ClearedReadsNothing(s: Storage)
    ensures StoredIdentity(Cleared(s)) == None
  {
  }

  /** Signing out twice leaves the storage as signing out once. */
  lemma ClearedIdempotent(s: Storage)
    ensures Cleared(Cleared(s)) == Cleared(s)
  {
  }

  /** A sign-in followed by a sign-out leaves every other key as it was. */
  lemma SignInThenOutRestoresOthers(s: Storage, id: string, email: string)
    ensures Cleared(SignedIn(s, id, email)) == Cleared(s)
  {
    assert Cleared(SignedIn(s, id, email)).Keys == Cleared(s).Keys;
  }

  /** A second sign-in overwrites the first: last writer wins. */
  lemma SecondSignInWins(s: Storage, id1: string, email1: string, id2: string, email2: string)
    ensures SignedIn(SignedIn(s, id1, email1), id2, email2) == SignedIn(s, id2, email2)
  {
  }
}
