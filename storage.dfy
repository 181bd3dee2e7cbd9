/**
 * `LocalStorage` of src/lib/Storage.ts: the saved settings object kept as JSON under the
 * reserved `"__store"` account of the keychain, read with its defaults filled in and
 * rewritten as a whole by `save` with a function argument.
 */
module LocalStorage {
  import opened Wrappers
  import opened JsonValues
  import opened Keychain

  /** `defaults`: one saved calendar whose account and id are both empty. */
  const Defaults: map<string, Json> :=
    map["calendars" := Arr([Obj(map["account" := Str(""), "id" := Str("")])])]

  /**
   * `LocalStorage.get()`: the top-level entries of the stored object laid over the defaults
   * (`{...defaults, ...(d ?? {})}`); an absent or empty record gives the defaults, and an
   * unparsable one rejects.
   */
  function Load(stored: map<string, Secret>): (r: Result<map<string, Json>>)
    ensures r.Failure? <==> StoreKey in stored && stored[StoreKey].Garbled?
    ensures r.Success? ==> Defaults.Keys <= r.value.Keys
  {
    if StoreKey !in stored || stored[StoreKey] == Blank then Success(Defaults)
    else
      match Parse(stored[StoreKey])
      case None => Failure(ParseError)
      case Some(d) => Success(Defaults + SpreadEntries(d))
  }

  /** Without a record the settings hold the one placeholder calendar, not an empty list. */
  lemma LoadWithoutRecord(stored: map<string, Secret>)
    requires StoreKey !in stored
    ensures Load(stored).Success?
    ensures Get(Obj(Load(stored).value), "calendars") == Some(Arr([Obj(map["account" := Str(""), "id" := Str("")])]))
    ensures |Load(stored).value["calendars"].items| == 1
  {
  }

  /**
   * The merge is shallow: every top-level key of a stored object wins over the default,
   * keys it lacks keep their default, and nothing else appears.
   */
  lemma LoadOverridesDefaults(stored: map<string, Secret>, fields: map<string, Json>)
    requires StoreKey in stored && stored[StoreKey] == Encoded(Obj(fields))
    ensures Load(stored).Success?
    ensures Load(stored).value.Keys == Defaults.Keys + fields.Keys
    ensures forall k :: k in fields ==> Load(stored).value[k] == fields[k]
    ensures forall k :: k in Defaults && k !in fields ==> Load(stored).value[k] == Defaults[k]
  {
  }

  /**
   * `LocalStorage.save(update)` with a function: the keychain after the write, or the
   * rejection of the read that precedes it (then nothing is written).
   */
  function SaveWith(stored: map<string, Secret>, update: map<string, Json> -> Json)
    : (r: Result<map<string, Secret>>)
    ensures r.Failure? <==> Load(stored).Failure?
    ensures r.Success? ==> r.value == stored[StoreKey := Stringify(update(Load(stored).value))]
  {
    match Load(stored)
    case Failure(e) => Failure(e)
    case Success(curr) => Success(stored[StoreKey := Stringify(update(curr))])
  }

  /** `save` writes the `"__store"` record only; every other account keeps its password. */
  lemma SaveTouchesOnlyStore(stored: map<string, Secret>, update: map<string, Json> -> Json)
    requires SaveWith(stored, update).Success?
    ensures SaveWith(stored, update).value.Keys == stored.Keys + {StoreKey}
    ensures forall a :: a in stored && a != StoreKey ==> SaveWith(stored, update).value[a] == stored[a]
  {
  }

  /** Reading back what `save` wrote gives the update's object laid over the defaults. */
  lemma SaveThenLoad(stored: map<string, Secret>, update: map<string, Json> -> Json)
    requires SaveWith(stored, update).Success?
    ensures Load(SaveWith(stored, update).value) == Success(Defaults + SpreadEntries(update(Load(stored).value)))
  {
  }

  /** `LocalStorage.save(update)` on the keychain; `error` is the rejection, if any. */
  method Save(keychain: Keychain, update: map<string, Json> -> Json) returns (error: Option<string>)
    modifies keychain
    ensures var r := SaveWith(old(keychain.entries), update);
      (r.Failure? ==> error == Some(r.error) && keychain.entries == old(keychain.entries))
      && (r.Success? ==> error == None && keychain.entries == r.value)
  {
    var curr := Load(keychain.entries);
    if curr.Failure? {
      return Some(curr.error);
    }
    var obj := update(curr.value);
    keychain.SetPassword(StoreKey, Stringify(obj));
    error := None;
  }
}
