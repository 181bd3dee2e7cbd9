/**
 * Account resolution and aggregation of src/calendar/Calendar.ts: the module-level token
 * cache in front of the keychain, the lookup from a token's `platform` tag to a calendar
 * provider, and `Calendar.GetAll`, which resolves every saved selection and keeps the
 * non-null results in saved order.
 *
 * A provider's `fetch` is foreign code; it is the `fetch` parameter, and its answer is
 * `Failure` when its promise rejects and `Success(None)` when it yields `null`.
 */
module Calendars {
  import opened Wrappers
  import opened JsonValues
  import opened Keychain
  import opened Utils

  /** The entries of `map`: `ms` and `google`. */
  datatype Provider = Microsoft | Google

  /** One entry of `store.calendars`. */
  datatype SavedCalendar = SavedCalendar(account: string, id: string)

  /** The rejection of reading a property of `null` or calling a missing method. */
  const TypeError: string := "TypeError"

  /**
   * `getToken(account)`: what it yields and the cache it leaves. A cached value other than
   * `null` is returned without reading the keychain; otherwise an absent or empty record
   * yields `null`, an unparsable one rejects, and a parsed one is cached and returned.
   */
  function LookupToken(cache: map<string, Json>, stored: map<string, Secret>, account: string)
    : (r: (Result<Json>, map<string, Json>))
    ensures r.0.Failure? ==> r.1 == cache
    ensures account in cache && cache[account] != Null ==> r == (Success(cache[account]), cache)
    ensures r.1.Keys == cache.Keys || r.1 == cache[account := r.0.value]
  {
    if account in cache && cache[account] != Null then (Success(cache[account]), cache)
    else if account !in stored || stored[account] == Blank then (Success(Null), cache)
    else
      match Parse(stored[account])
      case None => (Failure(ParseError), cache)
      case Some(j) => (Success(j), cache[account := j])
  }

  /** Once an account's token is cached, no change to the keychain alters what `getToken` yields. */
  lemma CachedTokenIgnoresKeychain(cache: map<string, Json>, stored: map<string, Secret>,
                                   changed: map<string, Secret>, account: string)
    requires account in cache && cache[account] != Null
    ensures LookupToken(cache, stored, account) == LookupToken(cache, changed, account)
    ensures LookupToken(cache, changed, account).0 == Success(cache[account])
  {
  }

  /**
   * Nothing invalidates the cache: a lookup keeps every cached account, and every
   * non-null cached token stays as it was.
   */
  lemma LookupKeepsCache(cache: map<string, Json>, stored: map<string, Secret>, account: string)
    ensures var c := LookupToken(cache, stored, account).1;
      cache.Keys <= c.Keys
      && forall a :: a in cache && cache[a] != Null ==> c[a] == cache[a]
  {
  }

  /**
   * An absent or empty record yields `null` and leaves the cache as it was; a parsed
   * record is cached, so a second lookup returns it even after the keychain changed.
   */
  lemma LookupFromKeychain(cache: map<string, Json>, stored: map<string, Secret>,
                           changed: map<string, Secret>, account: string)
    requires account !in cache || cache[account] == Null
    ensures account !in stored || stored[account] == Blank ==>
      LookupToken(cache, stored, account) == (Success(Null), cache)
    ensures account in stored && stored[account].Encoded? && stored[account].value != Null ==>
      var (t, c) := LookupToken(cache, stored, account);
      t == Success(stored[account].value) && c == cache[account := stored[account].value]
      && LookupToken(c, changed, account).0 == t
  {
  }

  /**
   * `IdentifyCalAccount` once the token is known: no provider for a falsy token, or for a
   * `platform` that is not exactly `"ms"` or `"google"`.
   */
  function Identify(token: Json): (r: Option<Provider>)
    ensures r == Some(Microsoft) <==> Truthy(token) && GetString(token, "platform") == Some("ms")
    ensures r == Some(Google) <==> Truthy(token) && GetString(token, "platform") == Some("google")
  {
    if !Truthy(token) then None
    else
      match GetString(token, "platform")
      case Some(p) => if p == "ms" then Some(Microsoft) else if p == "google" then Some(Google) else None
      case None => None
  }

  /**
   * `getCalendarObj(account, calendar)` given what `getToken(account)` yielded: a rejected
   * lookup rejects, no provider gives `null`, and otherwise the provider's `fetch` answers.
   */
  function Resolution<T>(token: Result<Json>, cal: SavedCalendar,
                         fetch: (Provider, string, string) -> Result<Option<T>>): (r: Result<Option<T>>)
    ensures token.Failure? ==> r == Failure(token.error)
    ensures token.Success? && Identify(token.value).None? ==> r == Success(None)
    ensures token.Success? && Identify(token.value).Some? ==>
      r == fetch(Identify(token.value).value, cal.account, cal.id)
  {
    match token
    case Failure(e) => Failure(e)
    case Success(t) =>
      match Identify(t)
      case None => Success(None)
      case Some(p) => fetch(p, cal.account, cal.id)
  }

  /** The entries of a saved `calendars` array; an entry without string `account` and `id` is an error. */
  function DecodeSaved(items: seq<Json>): (r: Result<seq<SavedCalendar>>)
    ensures r.Success? <==> forall k :: 0 <= k < |items| ==>
      GetString(items[k], "account").Some? && GetString(items[k], "id").Some?
    ensures r.Success? ==> |r.value| == |items|
    ensures r.Success? ==> forall k :: 0 <= k < |items| ==>
      GetString(items[k], "account") == Some(r.value[k].account)
      && GetString(items[k], "id") == Some(r.value[k].id)
  {
    if items == [] then Success([])
    else
      match (GetString(items[0], "account"), GetString(items[0], "id"), DecodeSaved(items[1..]))
      case (Some(a), Some(i), Success(rest)) => Success([SavedCalendar(a, i)] + rest)
      case (_, _, Failure(e)) => Failure(e)
      case _ => Failure(TypeError)
  }

  /**
   * The saved selection `GetAll` reads from the `"__store"` record: none for an absent or
   * empty record; an unparsable record, or one without a `calendars` array, rejects.
   */
  function SavedSelection(store: Option<Secret>): (r: Result<seq<SavedCalendar>>)
    ensures store.None? || store == Some(Blank) ==> r == Success([])
    ensures store.Some? && store.value.Garbled? ==> r.Failure?
  {
    match store
    case None => Success([])
    case Some(Blank) => Success([])
    case Some(Garbled(_)) => Failure(ParseError)
    case Some(Encoded(j)) =>
      match Get(j, "calendars")
      case Some(Arr(items)) => DecodeSaved(items)
      case _ => Failure(TypeError)
  }

  /**
   * A cache that lookups against `stored` grew from `cache`: it keeps every account of
   * `cache` and every non-null token, and each other non-null token it holds is the parse
   * of that account's record.
   */
  predicate DerivedCache(cache: map<string, Json>, stored: map<string, Secret>, c: map<string, Json>)
  {
    cache.Keys <= c.Keys
    && (forall a :: a in cache && cache[a] != Null ==> c[a] == cache[a])
    && (forall a :: a in c && c[a] != Null && !(a in cache && cache[a] != Null) ==>
          a in stored && stored[a] == Encoded(c[a]))
  }

  /**
   * A lookup in a cache grown from `cache` yields what the lookup in `cache` itself yields,
   * and the cache it leaves has still grown from `cache`.
   */
  lemma LookupInDerivedCache(cache: map<string, Json>, stored: map<string, Secret>, c: map<string, Json>,
                             account: string)
    requires DerivedCache(cache, stored, c)
    ensures LookupToken(c, stored, account).0 == LookupToken(cache, stored, account).0
    ensures DerivedCache(cache, stored, LookupToken(c, stored, account).1)
  {
    var c2 := LookupToken(c, stored, account).1;
    if !(account in c && c[account] != Null) && account in stored && Parse(stored[account]).Some? {
      assert c2 == c[account := stored[account].value];
    }
  }

  /** `getCalendarObj(cal.account, cal.id)` against the cache as it was before any lookup. */
  function SelectionResult<T>(cache: map<string, Json>, stored: map<string, Secret>, cal: SavedCalendar,
                              fetch: (Provider, string, string) -> Result<Option<T>>): Result<Option<T>>
  {
    Resolution(LookupToken(cache, stored, cal.account).0, cal, fetch)
  }

  /**
   * The resolutions of `cals`, looked up one after the other, and the cache they leave.
   * `Promise.all` starts them together; since none of them writes the keychain, the k-th
   * answer is the resolution of the k-th saved selection against the cache as it was,
   * whatever the order.
   */
  function ResolveAll<T>(cache: map<string, Json>, stored: map<string, Secret>, cals: seq<SavedCalendar>,
                         fetch: (Provider, string, string) -> Result<Option<T>>)
    : (r: (seq<Result<Option<T>>>, map<string, Json>))
    ensures |r.0| == |cals|
    ensures forall k :: 0 <= k < |cals| ==> r.0[k] == SelectionResult(cache, stored, cals[k], fetch)
    ensures DerivedCache(cache, stored, r.1)
    decreases |cals|
  {
    if cals == [] then ([], cache)
    else
      var last := cals[|cals| - 1];
      var (rs, c1) := ResolveAll(cache, stored, cals[..|cals| - 1], fetch);
      var (t, c2) := LookupToken(c1, stored, last.account);
      LookupInDerivedCache(cache, stored, c1, last.account);
      assert forall k :: 0 <= k < |cals| - 1 ==> cals[..|cals| - 1][k] == cals[k];
      (rs + [Resolution(t, last, fetch)], c2)
  }

  /** Resolving one more saved calendar looks its token up in the cache the earlier ones left. */
  lemma ResolveAllStep<T>(cache: map<string, Json>, stored: map<string, Secret>, cals: seq<SavedCalendar>, i: nat,
                          fetch: (Provider, string, string) -> Result<Option<T>>)
    requires i < |cals|
    ensures var (rs, c) := ResolveAll(cache, stored, cals[..i], fetch);
      var (t, c2) := LookupToken(c, stored, cals[i].account);
      ResolveAll(cache, stored, cals[..i + 1], fetch) == (rs + [Resolution(t, cals[i], fetch)], c2)
  {
    assert cals[..i + 1][..i] == cals[..i];
  }

  /** `Promise.all`: every value when all resolved, otherwise the first rejection in list order. */
  function Collect<T>(rs: seq<Result<T>>): (r: Result<seq<T>>)
    ensures r.Success? <==> forall k :: 0 <= k < |rs| ==> rs[k].Success?
    ensures r.Success? ==> |r.value| == |rs| && forall k :: 0 <= k < |rs| ==> r.value[k] == rs[k].value
  {
    if rs == [] then Success([])
    else
      match (rs[0], Collect(rs[1..]))
      case (Failure(e), _) => Failure(e)
      case (Success(v), Success(vs)) => Success([v] + vs)
      case (Success(_), Failure(e)) => Failure(e)
  }

  /** `Promise.all` rejects with the first rejection in list order. */
  lemma {:induction false} CollectFirstRejection<T>(rs: seq<Result<T>>, k: nat)
    requires k < |rs| && rs[k].Failure?
    requires forall j :: 0 <= j < k ==> rs[j].Success?
    ensures Collect(rs) == Failure(rs[k].error)
    decreases k
  {
    if k > 0 {
      CollectFirstRejection(rs[1..], k - 1);
    }
  }

  /** The saved selection `GetAll` reads from the keychain. */
  function StoredSelection(stored: map<string, Secret>): Result<seq<SavedCalendar>>
  {
    SavedSelection(if StoreKey in stored then Some(stored[StoreKey]) else None)
  }

  /**
   * `Calendar.GetAll()`: the result and the cache it leaves. A selection that cannot be read
   * rejects before any lookup; otherwise the cache only grows, as lookups make it.
   */
  function AllCalendars<T>(cache: map<string, Json>, stored: map<string, Secret>,
                           fetch: (Provider, string, string) -> Result<Option<T>>)
    : (r: (Result<seq<T>>, map<string, Json>))
    ensures StoredSelection(stored).Failure? ==> r == (Failure(StoredSelection(stored).error), cache)
    ensures DerivedCache(cache, stored, r.1)
    ensures r.0.Success? ==> StoredSelection(stored).Success? && |r.0.value| <= |StoredSelection(stored).value|
  {
    match StoredSelection(stored)
    case Failure(e) => (Failure(e), cache)
    case Success(cals) =>
      var (rs, c) := ResolveAll(cache, stored, cals, fetch);
      match Collect(rs)
      case Failure(e) => (Failure(e), c)
      case Success(vs) => (Success(FilterNotNull(vs)), c)
  }

  /** With no `"__store"` record (or an empty one) `GetAll` yields nothing and resolves nothing. */
  lemma NoStoreNoCalendars<T>(cache: map<string, Json>, stored: map<string, Secret>,
                              fetch: (Provider, string, string) -> Result<Option<T>>)
    requires StoreKey !in stored || stored[StoreKey] == Blank
    ensures AllCalendars(cache, stored, fetch) == (Success([]), cache)
  {
  }

  /**
   * When no saved selection's resolution rejects, `GetAll` yields exactly the non-null
   * resolutions, one per saved selection in saved order: a selection saved twice is
   * resolved twice and kept twice, and a `null` resolution is dropped without disturbing
   * the rest.
   */
  lemma AllCalendarsInSavedOrder<T>(cache: map<string, Json>, stored: map<string, Secret>,
                                    fetch: (Provider, string, string) -> Result<Option<T>>)
    requires StoredSelection(stored).Success?
    requires var cals := StoredSelection(stored).value;
      forall k :: 0 <= k < |cals| ==> SelectionResult(cache, stored, cals[k], fetch).Success?
    ensures var cals := StoredSelection(stored).value;
      AllCalendars(cache, stored, fetch).0
        == Success(FilterNotNull(seq(|cals|, k requires 0 <= k < |cals| => SelectionResult(cache, stored, cals[k], fetch).value)))
  {
    var cals := StoredSelection(stored).value;
    var rs := ResolveAll(cache, stored, cals, fetch).0;
    var vs := Collect(rs).value;
    assert vs == seq(|cals|, k requires 0 <= k < |cals| => SelectionResult(cache, stored, cals[k], fetch).value);
  }

  /** A saved selection whose resolution rejects makes `GetAll` reject: nothing here catches it. */
  lemma RejectionPropagates<T>(cache: map<string, Json>, stored: map<string, Secret>,
                               fetch: (Provider, string, string) -> Result<Option<T>>, k: nat)
    requires StoredSelection(stored).Success?
    requires var cals := StoredSelection(stored).value;
      k < |cals| && SelectionResult(cache, stored, cals[k], fetch).Failure?
    ensures AllCalendars(cache, stored, fetch).0.Failure?
  {
  }

  /** The module state of src/calendar/Calendar.ts: the token cache, and the keychain it reads. */
  class CalendarRegistry {
    var tokenCache: map<string, Json>
    const keychain: Keychain

    constructor(keychain: Keychain)
      ensures this.keychain == keychain && tokenCache == map[]
    {
      this.keychain := keychain;
      tokenCache := map[];
    }

    /** `getToken(account)`. */
    method GetToken(account: string) returns (r: Result<Json>)
      modifies this
      ensures (r, tokenCache) == LookupToken(old(tokenCache), keychain.entries, account)
    {
      if account in tokenCache && tokenCache[account] != Null {
        return Success(tokenCache[account]);
      }
      var d := keychain.GetPassword(account);
      if d.None? || d.value == Blank {
        return Success(Null);
      }
      var j := Parse(d.value);
      if j.None? {
        return Failure(ParseError);
      }
      tokenCache := tokenCache[account := j.value];
      r := Success(j.value);
    }

    /** `IdentifyCalAccount(account)`. */
    method IdentifyCalAccount(account: string) returns (r: Result<Option<Provider>>)
      modifies this
      ensures var (t, c) := LookupToken(old(tokenCache), keychain.entries, account);
        tokenCache == c && (t.Failure? ==> r == Failure(t.error)) && (t.Success? ==> r == Success(Identify(t.value)))
    {
      var token := GetToken(account);
      if token.Failure? {
        return Failure(token.error);
      }
      r := Success(Identify(token.value));
    }

    /** `getCalendarObj(account, calendar)`. */
    method GetCalendarObj<T>(cal: SavedCalendar, fetch: (Provider, string, string) -> Result<Option<T>>)
      returns (r: Result<Option<T>>)
      modifies this
      ensures var (t, c) := LookupToken(old(tokenCache), keychain.entries, cal.account);
        tokenCache == c && r == Resolution(t, cal, fetch)
    {
      var provider := IdentifyCalAccount(cal.account);
      if provider.Failure? {
        return Failure(provider.error);
      }
      if provider.value.None? {
        return Success(None);
      }
      r := fetch(provider.value.value, cal.account, cal.id);
    }

    /** `Calendar.GetAll()`. */
    method GetAll<T>(fetch: (Provider, string, string) -> Result<Option<T>>) returns (r: Result<seq<T>>)
      modifies this
      ensures (r, tokenCache) == AllCalendars(old(tokenCache), keychain.entries, fetch)
    {
      var saved := SavedSelection(keychain.GetPassword(StoreKey));
      if saved.Failure? {
        return Failure(saved.error);
      }
      var cals := saved.value;
      var resolutions: seq<Result<Option<T>>> := [];
      var i := 0;
      while i < |cals|
        invariant 0 <= i <= |cals|
        invariant (resolutions, tokenCache) == ResolveAll(old(tokenCache), keychain.entries, cals[..i], fetch)
      {
        ResolveAllStep(old(tokenCache), keychain.entries, cals, i, fetch);
        var o := GetCalendarObj(cals[i], fetch);
        resolutions := resolutions + [o];
        i := i + 1;
      }
      assert cals[..|cals|] == cals;
      var all := Collect(resolutions);
      if all.Failure? {
        return Failure(all.error);
      }
      r := Success(FilterNotNull(all.value));
    }
  }
}
