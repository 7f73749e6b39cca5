/**
 * The exception list: the hosts for which saving passwords is switched off,
 * kept as the `server` column of the `autofill_exceptions` table.
 */
module Exceptions {
  import opened PasswordStore

  /** The server string a URL is filed under: its host, or the whole URL when it has no host. */
  function Server(u: Url): (r: string)
    ensures u.host != [] ==> r == u.host
    ensures u.host == [] ==> r == u.full
  {
    if u.host == [] then u.full else u.host
  }

  /** `SELECT count(id) ... WHERE server = s`: how many rows of the table name `s`. */
  function CountOf(servers: seq<string>, s: string): (r: nat)
    ensures r == multiset(servers)[s]
  {
    if servers == [] then 0
    else
      assert servers == [servers[0]] + servers[1..];
      (if servers[0] == s then 1 else 0) + CountOf(servers[1..], s)
  }

  /** No row names `s` exactly when `s` is not in the table. */
  lemma CountZeroIff(servers: seq<string>, s: string)
    ensures CountOf(servers, s) == 0 <==> s !in servers
  {
  }

  /** Inserting a row for `t` raises the count for `t` by one and leaves every other count alone. */
  lemma CountAppend(servers: seq<string>, t: string, s: string)
    ensures CountOf(servers + [t], s) == CountOf(servers, s) + (if t == s then 1 else 0)
  {
  }
}
