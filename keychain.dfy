/**
 * The operating-system keychain reached through `keytar`: one namespace of passwords keyed
 * by account. Every component of the source uses the same namespace (`KeytarName` in
 * src/lib/Config.ts and the identical expression in src/OAuth2.ts), so one map stands for it.
 */
module Keychain {
  import opened Wrappers
  import opened JsonValues

  /**
   * A stored password: the JSON text of a value, the empty string (falsy but not `null`),
   * or text that `JSON.parse` rejects.
   */
  datatype Secret = Encoded(value: Json) | Blank | Garbled(text: string)

  /** The rejection `JSON.parse` raises on text it cannot read. */
  const ParseError: string := "SyntaxError: JSON.parse"

  /** `JSON.parse(password)`; `None` when it throws. */
  function Parse(s: Secret): (r: Option<Json>)
    ensures r.Some? <==> s.Encoded?
    ensures r.Some? ==> r.value == s.value
  {
    if s.Encoded? then Some(s.value) else None
  }

  /** `JSON.stringify(v)`, which `JSON.parse` reads back as `v`. */
  function Stringify(v: Json): (s: Secret)
    ensures Parse(s) == Some(v)
    ensures s != Blank
  {
    Encoded(v)
  }

  /** The reserved account under which the saved calendar selection is kept. */
  const StoreKey: string := "__store"

  class Keychain {
    var entries: map<string, Secret>

    constructor(initial: map<string, Secret>)
      ensures entries == initial
    {
      entries := initial;
    }

    /** `keytar.getPassword(name, account)`; `None` is `null`. */
    function GetPassword(account: string): (r: Option<Secret>)
      reads this
      ensures r.Some? <==> account in entries
      ensures r.Some? ==> r.value == entries[account]
    {
      if account in entries then Some(entries[account]) else None
    }

    /** `keytar.setPassword(name, account, password)`. */
    method SetPassword(account: string, password: Secret)
      modifies this
      ensures entries == old(entries)[account := password]
    {
      entries := entries[account := password];
    }

    /** `keytar.deletePassword(name, account)`: removes that one entry, if any. */
    method DeletePassword(account: string) returns (deleted: bool)
      modifies this
      ensures entries == old(entries) - {account}
      ensures deleted == (account in old(entries))
    {
      deleted := account in entries;
      entries := entries - {account};
    }

    /**
     * `keytar.findCredentials(name)`: every account once. The order is the operating
     * system's, so it is left open.
     */
    method FindCredentials() returns (accounts: seq<string>)
      ensures forall i, j :: 0 <= i < j < |accounts| ==> accounts[i] != accounts[j]
      ensures forall a :: a in accounts <==> a in entries
    {
      accounts := [];
      var rest := entries.Keys;
      while rest != {}
        invariant rest <= entries.Keys
        invariant forall a :: a in accounts ==> a in entries && a !in rest
        invariant forall a :: a in entries ==> a in rest || a in accounts
        invariant forall i, j :: 0 <= i < j < |accounts| ==> accounts[i] != accounts[j]
        decreases rest
      {
        var a :| a in rest;
        accounts := accounts + [a];
        rest := rest - {a};
      }
    }
  }
}
