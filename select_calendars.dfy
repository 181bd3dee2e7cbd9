/**
 * The calendar selection screen (src/screens/select-calendars.ts): every calendar of every
 * signed-in account is offered as a checkable option keyed `<calendar id>--<account>`, the
 * saved selection is pre-checked, and `enter` writes the checked options back as the
 * `calendars` list of the `"__store"` record before showing the main window.
 */
module SelectCalendars {
  import opened Wrappers
  import Utils
  import opened Text
  import opened JsonValues
  import opened Keychain
  import LocalStorage
  import Calendars
  import opened CheckableLists
  import opened WindowManagement

  /** The separator between a calendar id and its account in an option key. */
  const Separator: string := "--"

  /** The option key `${cal.id}--${account}`. */
  function OptionKey(calendarId: string, account: string): (r: string)
    ensures |r| == |calendarId| + 2 + |account|
    ensures r[..|calendarId|] == calendarId && r[|calendarId| + 2..] == account
    ensures OccursAt(r, Separator, |calendarId|)
  {
    calendarId + Separator + account
  }

  /**
   * `const [cal, acc] = str.split('--')`: the text before the first separator, and the
   * text between the first and second, which is `undefined` (`None`) without a separator.
   */
  function DecodeOptionKey(key: string): (r: (string, Option<string>))
    ensures r.1.None? <==> !Contains(key, Separator)
    ensures r.1.None? ==> r.0 == key
    ensures r.1.Some? ==> |r.0| < |key| && r.0 == key[..|r.0|] && OccursAt(key, Separator, |r.0|)
    ensures r.1.Some? ==> IndexOf(key, Separator) == Some(|r.0|)
    ensures r.1.Some? ==>
      |r.0| + 2 <= |key|
      && var rest := key[|r.0| + 2..];
         (IndexOf(rest, Separator).None? ==> r.1.value == rest)
         && (IndexOf(rest, Separator).Some? ==> r.1.value == rest[..IndexOf(rest, Separator).value])
  {
    SplitHead(key, Separator);
    var pieces := Split(key, Separator);
    if |pieces| > 1 then
      var i := IndexOf(key, Separator).value;
      SplitHead(key[i + 2..], Separator);
      (pieces[0], Some(pieces[1]))
    else (pieces[0], None)
  }

  /** The text ends in a dash, so a following separator is not the first `--` of the key. */
  predicate EndsWithDash(s: string)
  {
    |s| > 0 && s[|s| - 1] == '-'
  }

  /** A calendar id and account whose option key splits back into them. */
  predicate Recoverable(calendarId: string, account: string)
  {
    !Contains(calendarId, Separator) && !EndsWithDash(calendarId) && !Contains(account, Separator)
  }

  /** The separator after the calendar id is the first one in the key exactly when the id cannot start an earlier one. */
  lemma FirstSeparator(calendarId: string, account: string)
    ensures IndexOf(OptionKey(calendarId, account), Separator) == Some(|calendarId|)
      <==> !Contains(calendarId, Separator) && !EndsWithDash(calendarId)
    ensures IndexOf(OptionKey(calendarId, account), Separator).Some?
    ensures IndexOf(OptionKey(calendarId, account), Separator).value <= |calendarId|
  {
    var key := OptionKey(calendarId, account);
    var n := |calendarId|;
    if !Contains(calendarId, Separator) && !EndsWithDash(calendarId) {
      forall i | 0 <= i < n
        ensures !OccursAt(key, Separator, i)
      {
        if i + 2 <= n {
          assert key[i..i + 2] == calendarId[i..i + 2];
          assert !OccursAt(calendarId, Separator, i);
        } else {
          assert key[i..i + 2][0] == calendarId[i];
        }
      }
      IndexOfIsFirst(key, Separator, n);
    } else {
      var j: nat;
      if Contains(calendarId, Separator) {
        j :| j <= n && OccursAt(calendarId, Separator, j);
        assert key[j..j + 2] == calendarId[j..j + 2];
      } else {
        j := n - 1;
        assert key[j..j + 2] == [calendarId[j], '-'];
      }
      assert OccursAt(key, Separator, j) && j < n;
    }
  }

  /**
   * The option key of a calendar splits back into its calendar id and account exactly when
   * the id holds no `--` and does not end in `-`, and the account holds no `--`.
   */
  lemma OptionKeyRoundTrip(calendarId: string, account: string)
    ensures DecodeOptionKey(OptionKey(calendarId, account)) == (calendarId, Some(account))
      <==> Recoverable(calendarId, account)
  {
    var key := OptionKey(calendarId, account);
    var n := |calendarId|;
    FirstSeparator(calendarId, account);
    SplitHead(key, Separator);
    if IndexOf(key, Separator) == Some(n) {
      assert key[n + 2..] == account;
      assert Split(key, Separator) == [calendarId] + Split(account, Separator);
      SplitHead(account, Separator);
    } else {
      assert |DecodeOptionKey(key).0| < n;
    }
  }

  /** `{ account: acc, id: cal }` after `JSON.stringify`, which drops an `undefined` account. */
  function SavedEntry(key: string): (r: Json)
    ensures GetString(r, "id") == Some(DecodeOptionKey(key).0)
    ensures DecodeOptionKey(key).1.Some? ==> GetString(r, "account") == DecodeOptionKey(key).1
    ensures DecodeOptionKey(key).1.None? ==> Get(r, "account") == None
    ensures r != Null
  {
    var (cal, acc) := DecodeOptionKey(key);
    match acc
    case Some(a) => Obj(map["account" := Str(a), "id" := Str(cal)])
    case None => Obj(map["id" := Str(cal)])
  }

  /** The saved entries of the selected option keys, in selection order. */
  function SavedEntries(selected: seq<string>): (r: seq<Json>)
    ensures |r| == |selected|
    ensures forall k :: 0 <= k < |selected| ==> r[k] == SavedEntry(selected[k])
  {
    seq(|selected|, k requires 0 <= k < |selected| => SavedEntry(selected[k]))
  }

  /** The record `enter` writes: `{ calendars: [...] }`. */
  function SelectionRecord(selected: seq<string>): (r: Json)
    ensures Get(r, "calendars") == Some(Arr(SavedEntries(selected)))
  {
    Obj(map["calendars" := Arr(SavedEntries(selected))])
  }

  /**
   * The keychain after `enter`: the `"__store"` record is overwritten with the selection
   * when at least one option is checked; with none checked nothing is written.
   */
  function EnterStep(stored: map<string, Secret>, selected: seq<string>): (r: map<string, Secret>)
    ensures |selected| == 0 ==> r == stored
    ensures |selected| > 0 ==> StoreKey in r && Parse(r[StoreKey]) == Some(SelectionRecord(selected))
    ensures forall a :: a != StoreKey ==> (a in r <==> a in stored)
    ensures forall a :: a != StoreKey && a in stored ==> r[a] == stored[a]
  {
    if |selected| > 0 then stored[StoreKey := Stringify(SelectionRecord(selected))] else stored
  }

  /**
   * Saving options whose keys split back and reading the selection as `GetAll` does gives
   * the chosen (account, calendar) pairs in selection order.
   */
  lemma EnterThenGetAll(stored: map<string, Secret>, pairs: seq<(string, string)>)
    requires |pairs| > 0
    requires forall k :: 0 <= k < |pairs| ==> Recoverable(pairs[k].0, pairs[k].1)
    ensures var selected := seq(|pairs|, k requires 0 <= k < |pairs| => OptionKey(pairs[k].0, pairs[k].1));
      var after := EnterStep(stored, selected);
      StoreKey in after
      && Calendars.SavedSelection(Some(after[StoreKey]))
        == Success(seq(|pairs|, k requires 0 <= k < |pairs| => Calendars.SavedCalendar(pairs[k].1, pairs[k].0)))
  {
    var selected := seq(|pairs|, k requires 0 <= k < |pairs| => OptionKey(pairs[k].0, pairs[k].1));
    var entries := SavedEntries(selected);
    forall k | 0 <= k < |pairs|
      ensures GetString(entries[k], "account") == Some(pairs[k].1)
      ensures GetString(entries[k], "id") == Some(pairs[k].0)
    {
      OptionKeyRoundTrip(pairs[k].0, pairs[k].1);
    }
    var after := EnterStep(stored, selected);
    assert after[StoreKey] == Encoded(SelectionRecord(selected));
    var r := Calendars.DecodeSaved(entries);
    assert r.Success?;
    assert r.value == seq(|pairs|, k requires 0 <= k < |pairs| => Calendars.SavedCalendar(pairs[k].1, pairs[k].0));
  }

  /**
   * A checked option whose key has no `--` is saved without an account, and reading the
   * selection back as `GetAll` does then rejects.
   */
  lemma KeyWithoutAccountBreaksGetAll(stored: map<string, Secret>, selected: seq<string>, k: nat)
    requires k < |selected| && !Contains(selected[k], Separator)
    ensures var after := EnterStep(stored, selected);
      StoreKey in after && Calendars.SavedSelection(Some(after[StoreKey])).Failure?
  {
    var entries := SavedEntries(selected);
    assert Get(entries[k], "account") == None;
    assert Calendars.DecodeSaved(entries).Failure?;
  }

  /**
   * The ids the screen pre-checks: the `id` of every entry of the saved `calendars` list.
   * A list that is not an array, or holds `null`, makes `d.map((v) => v.id)` throw.
   */
  function SavedIds(stored: map<string, Secret>): (r: Result<set<string>>)
    ensures LocalStorage.Load(stored).Failure? ==> r == Failure(LocalStorage.Load(stored).error)
    ensures r.Success? <==> (LocalStorage.Load(stored).Success?
      && LocalStorage.Load(stored).value["calendars"].Arr?
      && Null !in LocalStorage.Load(stored).value["calendars"].items)
    ensures r.Success? ==> r.value == EntryIds(LocalStorage.Load(stored).value["calendars"].items)
  {
    match LocalStorage.Load(stored)
    case Failure(e) => Failure(e)
    case Success(settings) =>
      match settings["calendars"]
      case Arr(items) =>
        if Null in items then Failure(Calendars.TypeError)
        else Success(EntryIds(items))
      case _ => Failure(Calendars.TypeError)
  }

  /** `d.map((v) => v.id)` as a set: the string ids of the saved entries. */
  function EntryIds(items: seq<Json>): (r: set<string>)
    ensures forall v :: v in items && GetString(v, "id").Some? ==> GetString(v, "id").value in r
    ensures forall id :: id in r ==> exists v :: v in items && GetString(v, "id") == Some(id)
  {
    set v | v in items && GetString(v, "id").Some? :: GetString(v, "id").value
  }

  /** Without a saved record only the placeholder calendar's empty id is pre-checked. */
  lemma NoRecordPreChecksPlaceholder(stored: map<string, Secret>)
    requires StoreKey !in stored
    ensures SavedIds(stored) == Success({""})
  {
    var placeholder := Obj(map["account" := Str(""), "id" := Str("")]);
    assert LocalStorage.Load(stored) == Success(LocalStorage.Defaults);
    var items := LocalStorage.Defaults["calendars"].items;
    assert items == [placeholder];
    assert GetString(placeholder, "id") == Some("");
    var ids := EntryIds(items);
    assert "" in ids;
    assert forall id :: id in ids ==> id == "";
    assert ids == {""};
  }

  /** After `enter` writes a selection, the saved settings hold its entries and nothing else in `calendars`. */
  lemma EnterSavesEntries(stored: map<string, Secret>, selected: seq<string>)
    requires |selected| > 0
    ensures SavedIds(EnterStep(stored, selected)) == Success(EntryIds(SavedEntries(selected)))
  {
    var after := EnterStep(stored, selected);
    var entries := SavedEntries(selected);
    var settings := LocalStorage.Defaults + SpreadEntries(SelectionRecord(selected));
    assert LocalStorage.Load(after) == Success(settings);
    assert settings["calendars"] == Arr(entries);
    forall v | v in entries
      ensures v != Null
    {
    }
  }

  /** The ids of the saved entries are the calendar ids of the selected option keys. */
  lemma SavedEntryIds(selected: seq<string>)
    ensures EntryIds(SavedEntries(selected)) == set key | key in selected :: DecodeOptionKey(key).0
  {
    var entries := SavedEntries(selected);
    var ids := EntryIds(entries);
    var want := set key | key in selected :: DecodeOptionKey(key).0;
    forall id | id in want
      ensures id in ids
    {
      var key :| key in selected && DecodeOptionKey(key).0 == id;
      var k := Utils.MemberAt(key, selected);
      assert entries[k] in entries;
    }
    forall id | id in ids
      ensures id in want
    {
      var v :| v in entries && GetString(v, "id") == Some(id);
      var k := Utils.MemberAt(v, entries);
      assert selected[k] in selected;
    }
  }

  /** After `enter` saves a selection, exactly the calendars of the checked options are pre-checked. */
  lemma EnterThenPreChecked(stored: map<string, Secret>, selected: seq<string>)
    requires |selected| > 0
    ensures SavedIds(EnterStep(stored, selected))
      == Success(set key | key in selected :: DecodeOptionKey(key).0)
  {
    EnterSavesEntries(stored, selected);
    SavedEntryIds(selected);
  }

  /** A calendar a provider lists: its id and title. */
  datatype CalendarInfo = CalendarInfo(id: string, title: string)

  /**
   * `IdentifyCalAccount(account).then((d) => d?.fetchAll(account))` for one account: a
   * rejection, `undefined` (`None`) when no provider claims the account, or the calendars.
   */
  type Listing = string -> Result<Option<seq<CalendarInfo>>>

  /** The text the screen shows when no account lists a calendar. */
  const NoCalendarsMessage: string :=
    "No calendars found. \n\nPlease press [s] > [a] to add one or more accounts."

  /** The credentials kept after `filter(({ account }) => account != '__store')`, in order. */
  function ListedAccounts(accounts: seq<string>): (r: seq<string>)
    ensures forall a :: a in r <==> a in accounts && a != StoreKey
    ensures |r| <= |accounts|
    decreases |accounts|
  {
    if accounts == [] then []
    else
      var rest := ListedAccounts(accounts[..|accounts| - 1]);
      var a := accounts[|accounts| - 1];
      assert forall b :: b in accounts <==> b in accounts[..|accounts| - 1] || b == a;
      if a == StoreKey then rest else rest + [a]
  }

  /** Every listed account's password is JSON that `JSON.parse` reads. */
  predicate AllParse(accounts: seq<string>, stored: map<string, Secret>)
  {
    forall a :: a in accounts ==> a in stored && Parse(stored[a]).Some?
  }

  /** `.flat().filter(IsNotNull)`: the calendars of every account that has a provider, in account order. */
  function Flatten(lists: seq<Option<seq<CalendarInfo>>>): (r: seq<CalendarInfo>)
    ensures forall c :: c in r <==> exists k :: 0 <= k < |lists| && lists[k].Some? && c in lists[k].value
    decreases |lists|
  {
    if lists == [] then []
    else
      var before := lists[..|lists| - 1];
      var rest := Flatten(before);
      assert forall k :: 0 <= k < |before| ==> before[k] == lists[k];
      match lists[|lists| - 1]
      case None => rest
      case Some(cals) => rest + cals
  }

  /** The ids of a list of calendars. */
  function IdsOf(cals: seq<CalendarInfo>): (r: set<string>)
    ensures forall c :: c in cals ==> c.id in r
    ensures forall id :: id in r ==> exists c :: c in cals && c.id == id
    decreases |cals|
  {
    if cals == [] then {}
    else IdsOf(cals[..|cals| - 1]) + {cals[|cals| - 1].id}
  }

  /** `cal?.forEach((c) => idMap.set(c.id, account))` for one account's calendars. */
  function SetIds(idMap: map<string, string>, cals: seq<CalendarInfo>, account: string): (r: map<string, string>)
    ensures r.Keys == idMap.Keys + IdsOf(cals)
    ensures forall id :: id in IdsOf(cals) ==> r[id] == account
    ensures forall id :: id in idMap && id !in IdsOf(cals) ==> r[id] == idMap[id]
    decreases |cals|
  {
    if cals == [] then idMap
    else SetIds(idMap, cals[..|cals| - 1], account)[cals[|cals| - 1].id := account]
  }

  /** Recording one more calendar of the account sets its id to the account. */
  lemma SetIdsStep(idMap: map<string, string>, cals: seq<CalendarInfo>, account: string, j: nat)
    requires j < |cals|
    ensures SetIds(idMap, cals[..j + 1], account) == SetIds(idMap, cals[..j], account)[cals[j].id := account]
  {
    assert cals[..j + 1][..j] == cals[..j];
  }

  /** The `idMap` after each account's calendars were recorded, in account order. */
  function IdMapOf(accounts: seq<string>, lists: seq<Option<seq<CalendarInfo>>>): (r: map<string, string>)
    requires |accounts| == |lists|
    ensures forall k :: 0 <= k < |lists| && lists[k].Some? ==> IdsOf(lists[k].value) <= r.Keys
    decreases |lists|
  {
    if lists == [] then map[]
    else
      var n := |lists| - 1;
      var m := IdMapOf(accounts[..n], lists[..n]);
      assert forall k :: 0 <= k < n ==> lists[..n][k] == lists[k];
      match lists[n]
      case None => m
      case Some(cals) => SetIds(m, cals, accounts[n])
  }

  /** Every id in `idMap` is labelled with an account that lists a calendar with that id. */
  lemma {:induction false} IdMapOwners(accounts: seq<string>, lists: seq<Option<seq<CalendarInfo>>>, id: string)
    requires |accounts| == |lists|
    requires id in IdMapOf(accounts, lists)
    ensures exists k :: (0 <= k < |lists| && lists[k].Some? && id in IdsOf(lists[k].value)
      && IdMapOf(accounts, lists)[id] == accounts[k])
    decreases |lists|
  {
    var n := |lists| - 1;
    var m := IdMapOf(accounts[..n], lists[..n]);
    if lists[n].Some? && id in IdsOf(lists[n].value) {
      assert IdMapOf(accounts, lists)[id] == accounts[n];
    } else {
      assert IdMapOf(accounts, lists)[id] == m[id];
      IdMapOwners(accounts[..n], lists[..n], id);
      var k :| 0 <= k < n && lists[..n][k].Some? && id in IdsOf(lists[..n][k].value) && m[id] == accounts[..n][k];
      assert lists[..n][k] == lists[k] && accounts[..n][k] == accounts[k];
    }
  }

  /**
   * An option is labelled with the last account, in credential order, that lists a
   * calendar with its id.
   */
  lemma {:induction false} IdMapLastWins(accounts: seq<string>, lists: seq<Option<seq<CalendarInfo>>>,
                                         k: nat, id: string)
    requires |accounts| == |lists| && k < |lists|
    requires lists[k].Some? && id in IdsOf(lists[k].value)
    requires forall j :: k < j < |lists| && lists[j].Some? ==> id !in IdsOf(lists[j].value)
    ensures id in IdMapOf(accounts, lists) && IdMapOf(accounts, lists)[id] == accounts[k]
    decreases |lists|
  {
    var n := |lists| - 1;
    var m := IdMapOf(accounts[..n], lists[..n]);
    if k < n {
      assert accounts[..n][k] == accounts[k] && lists[..n][k] == lists[k];
      assert forall j :: k < j < n ==> lists[..n][j] == lists[j];
      IdMapLastWins(accounts[..n], lists[..n], k, id);
      assert lists[n].Some? ==> id !in IdsOf(lists[n].value);
    }
  }

  /** The options offered: one per calendar, keyed by calendar id and account, checked when saved. */
  function OptionsFor(cals: seq<CalendarInfo>, idMap: map<string, string>, saved: set<string>)
    : (r: seq<CheckableItem>)
    requires forall c :: c in cals ==> c.id in idMap
    ensures |r| == |cals|
    ensures forall k :: 0 <= k < |cals| ==>
      r[k].value == cals[k].title && r[k].key == OptionKey(cals[k].id, idMap[cals[k].id])
      && (r[k].checked <==> cals[k].id in saved)
  {
    seq(|cals|, k requires 0 <= k < |cals| =>
      CheckableItem(cals[k].title, OptionKey(cals[k].id, idMap[cals[k].id]), cals[k].id in saved))
  }

  /** How `fetchCalendars` ends: an error shown in the info box, the empty notice, or the options added. */
  datatype Fetched = Failed(message: string) | NoCalendars | Listed(options: seq<CheckableItem>)

  /** `Promise.all(accounts.map(...))` before it settles: each account's answer, in account order. */
  function Answers(listing: Listing, accounts: seq<string>): (r: seq<Result<Option<seq<CalendarInfo>>>>)
    ensures |r| == |accounts| && forall k :: 0 <= k < |accounts| ==> r[k] == listing(accounts[k])
  {
    seq(|accounts|, k requires 0 <= k < |accounts| => listing(accounts[k]))
  }

  /** When every answer resolved, every account answered, each with the list `Collect` gathered. */
  lemma AllAnswered(listing: Listing, accounts: seq<string>)
    requires Calendars.Collect(Answers(listing, accounts)).Success?
    ensures forall a :: a in accounts ==> listing(a).Success?
    ensures Answered(listing, accounts, Calendars.Collect(Answers(listing, accounts)).value)
  {
    var rs := Answers(listing, accounts);
    forall a | a in accounts
      ensures listing(a).Success?
    {
      var k := Utils.MemberAt(a, accounts);
      assert rs[k] == listing(a);
    }
  }

  /**
   * The outcome of `fetchCalendars` for the credentials in the order `findCredentials` gave:
   * an unreadable password fails before any provider is asked, and the empty notice or the
   * options come only after every account answered and the saved selection was read.
   */
  function FetchOutcome(order: seq<string>, stored: map<string, Secret>, listing: Listing): (r: Fetched)
    ensures !AllParse(ListedAccounts(order), stored) ==> r == Failed(ParseError)
    ensures r.Listed? || r.NoCalendars? ==>
      AllParse(ListedAccounts(order), stored) && SavedIds(stored).Success?
      && forall a :: a in ListedAccounts(order) ==> listing(a).Success?
    ensures r.Listed? ==> r.options != []
  {
    var accounts := ListedAccounts(order);
    if !AllParse(accounts, stored) then Failed(ParseError)
    else
      match Calendars.Collect(Answers(listing, accounts))
      case Failure(e) => Failed(e)
      case Success(lists) =>
        var cals := Flatten(lists);
        var idMap := IdMapOf(accounts, lists);
        CalendarsMapped(accounts, lists);
        AllAnswered(listing, accounts);
        match SavedIds(stored)
        case Failure(e) => Failed(e)
        case Success(saved) =>
          if cals == [] then NoCalendars else Listed(OptionsFor(cals, idMap, saved))
  }

  /** A password `JSON.parse` rejects fails the whole screen, whatever the providers answer. */
  lemma UnreadablePasswordFails(order: seq<string>, stored: map<string, Secret>, listing: Listing, a: string)
    requires a in order && a != StoreKey && a in stored && !stored[a].Encoded?
    ensures FetchOutcome(order, stored, listing) == Failed(ParseError)
  {
    assert a in ListedAccounts(order);
  }

  /**
   * With every password readable, the screen fails with the first rejection among the
   * accounts' answers, in account order.
   */
  lemma ListingRejectionFails(order: seq<string>, stored: map<string, Secret>, listing: Listing, k: nat)
    requires AllParse(ListedAccounts(order), stored)
    requires k < |ListedAccounts(order)| && listing(ListedAccounts(order)[k]).Failure?
    requires forall j :: 0 <= j < k ==> listing(ListedAccounts(order)[j]).Success?
    ensures FetchOutcome(order, stored, listing) == Failed(listing(ListedAccounts(order)[k]).error)
  {
    var accounts := ListedAccounts(order);
    Calendars.CollectFirstRejection(Answers(listing, accounts), k);
  }

  /**
   * With every password readable and every account answered, the screen fails only when
   * the saved selection cannot be read; otherwise it shows the empty notice exactly when
   * no account lists a calendar, and the options otherwise.
   */
  lemma AnsweredOutcome(order: seq<string>, stored: map<string, Secret>, listing: Listing)
    requires AllParse(ListedAccounts(order), stored)
    requires forall a :: a in ListedAccounts(order) ==> listing(a).Success?
    ensures SavedIds(stored).Failure? ==> FetchOutcome(order, stored, listing) == Failed(SavedIds(stored).error)
    ensures SavedIds(stored).Success? ==>
      FetchOutcome(order, stored, listing).Listed? || FetchOutcome(order, stored, listing).NoCalendars?
    ensures FetchOutcome(order, stored, listing).NoCalendars? <==>
      SavedIds(stored).Success? && forall a, c :: a in ListedAccounts(order) ==> !Lists(listing, a, c)
  {
    var accounts := ListedAccounts(order);
    var rs := Answers(listing, accounts);
    assert forall k :: 0 <= k < |rs| ==> rs[k].Success? by {
      forall k | 0 <= k < |rs| ensures rs[k].Success? {
        assert accounts[k] in accounts;
      }
    }
    AllAnswered(listing, accounts);
    var lists := Calendars.Collect(rs).value;
    if Flatten(lists) == [] {
      forall a, c | a in accounts ensures !Lists(listing, a, c) {
        var k := Utils.MemberAt(a, accounts);
        assert listing(accounts[k]) == Success(lists[k]);
        assert c !in Flatten(lists);
      }
    } else {
      var c := Flatten(lists)[0];
      assert c in Flatten(lists);
      var k :| 0 <= k < |lists| && lists[k].Some? && c in lists[k].value;
      assert Lists(listing, accounts[k], c);
    }
  }

  /**
   * The `"__store"` record is filtered out before parsing and listing: it changes the
   * outcome only through the saved ids it holds.
   */
  lemma StoreRecordOnlyPreChecks(order: seq<string>, stored: map<string, Secret>, listing: Listing, record: Secret)
    requires SavedIds(stored) == SavedIds(stored[StoreKey := record])
    ensures FetchOutcome(order, stored, listing) == FetchOutcome(order, stored[StoreKey := record], listing)
  {
    var accounts := ListedAccounts(order);
    assert AllParse(accounts, stored) <==> AllParse(accounts, stored[StoreKey := record]);
  }

  /** The provider answered for `account` and listed calendar `c`. */
  predicate Lists(listing: Listing, account: string, c: CalendarInfo)
  {
    listing(account).Success? && listing(account).value.Some? && c in listing(account).value.value
  }

  /** The provider answered for `account` and listed a calendar with id `id`. */
  predicate ListsId(listing: Listing, account: string, id: string)
  {
    listing(account).Success? && listing(account).value.Some? && id in IdsOf(listing(account).value.value)
  }

  /**
   * An option shows a calendar one of `accounts` lists: its title, checked exactly when the
   * id is saved, and keyed with the id and an account that lists that id.
   */
  ghost predicate Describes(option: CheckableItem, accounts: seq<string>, listing: Listing, saved: set<string>)
  {
    exists k, owner, c :: 0 <= k < |accounts| && 0 <= owner < |accounts|
      && Lists(listing, accounts[k], c) && ListsId(listing, accounts[owner], c.id)
      && option.value == c.title && (option.checked <==> c.id in saved)
      && option.key == OptionKey(c.id, accounts[owner])
  }

  /** Each account's answer, as `Collect` gathered it from the listing. */
  predicate Answered(listing: Listing, accounts: seq<string>, lists: seq<Option<seq<CalendarInfo>>>)
  {
    |lists| == |accounts|
    && forall k :: 0 <= k < |accounts| ==> listing(accounts[k]) == Success(lists[k])
  }

  /** Every listed calendar's id is in `idMap`. */
  lemma CalendarsMapped(accounts: seq<string>, lists: seq<Option<seq<CalendarInfo>>>)
    requires |accounts| == |lists|
    ensures forall c :: c in Flatten(lists) ==> c.id in IdMapOf(accounts, lists)
  {
    forall c | c in Flatten(lists)
      ensures c.id in IdMapOf(accounts, lists)
    {
      var k :| 0 <= k < |lists| && lists[k].Some? && c in lists[k].value;
      assert c.id in IdsOf(lists[k].value);
    }
  }

  /** One option built from the collected answers describes a calendar some account lists. */
  lemma OptionDescribes(accounts: seq<string>, listing: Listing, lists: seq<Option<seq<CalendarInfo>>>,
                        saved: set<string>, i: nat)
    requires Answered(listing, accounts, lists)
    requires i < |Flatten(lists)|
    requires forall c :: c in Flatten(lists) ==> c.id in IdMapOf(accounts, lists)
    ensures Describes(OptionsFor(Flatten(lists), IdMapOf(accounts, lists), saved)[i], accounts, listing, saved)
  {
    var cals := Flatten(lists);
    var idMap := IdMapOf(accounts, lists);
    var option := OptionsFor(cals, idMap, saved)[i];
    var c := cals[i];
    assert c in cals;
    var k :| 0 <= k < |lists| && lists[k].Some? && c in lists[k].value;
    assert Lists(listing, accounts[k], c);
    assert c.id in IdsOf(lists[k].value);
    IdMapOwners(accounts, lists, c.id);
    var owner :| 0 <= owner < |lists| && lists[owner].Some? && c.id in IdsOf(lists[owner].value)
      && idMap[c.id] == accounts[owner];
    assert ListsId(listing, accounts[owner], c.id);
    assert option.key == OptionKey(c.id, accounts[owner]);
  }

  /**
   * Some option shows calendar `c`: its title, checked exactly when its id is saved, keyed
   * with its id and an account that lists that id.
   */
  ghost predicate Offered(options: seq<CheckableItem>, c: CalendarInfo, accounts: seq<string>, listing: Listing,
                          saved: set<string>)
  {
    exists i, owner :: 0 <= i < |options| && 0 <= owner < |accounts|
      && ListsId(listing, accounts[owner], c.id)
      && options[i].value == c.title && (options[i].checked <==> c.id in saved)
      && options[i].key == OptionKey(c.id, accounts[owner])
  }

  /** A calendar one of the accounts lists is shown by the option built at its place in the flattened list. */
  lemma CalendarOffered(accounts: seq<string>, listing: Listing, lists: seq<Option<seq<CalendarInfo>>>,
                        saved: set<string>, k: nat, c: CalendarInfo)
    requires Answered(listing, accounts, lists)
    requires forall c :: c in Flatten(lists) ==> c.id in IdMapOf(accounts, lists)
    requires k < |accounts| && Lists(listing, accounts[k], c)
    ensures Offered(OptionsFor(Flatten(lists), IdMapOf(accounts, lists), saved), c, accounts, listing, saved)
  {
    assert listing(accounts[k]) == Success(lists[k]);
    var cals := Flatten(lists);
    assert c in cals;
    var i := Utils.MemberAt(c, cals);
    var idMap := IdMapOf(accounts, lists);
    var options := OptionsFor(cals, idMap, saved);
    assert c.id in IdsOf(lists[k].value);
    IdMapOwners(accounts, lists, c.id);
    var owner :| 0 <= owner < |lists| && lists[owner].Some? && c.id in IdsOf(lists[owner].value)
      && idMap[c.id] == accounts[owner];
    assert ListsId(listing, accounts[owner], c.id);
    assert options[i].key == OptionKey(c.id, accounts[owner]);
  }

  /**
   * When the options are listed, every one of them describes a calendar some signed-in
   * account lists, and every calendar a signed-in account lists is shown by an option.
   */
  lemma ListedOptionsDescribeCalendars(order: seq<string>, stored: map<string, Secret>, listing: Listing)
    requires FetchOutcome(order, stored, listing).Listed?
    ensures SavedIds(stored).Success?
    ensures forall option :: option in FetchOutcome(order, stored, listing).options ==>
      Describes(option, ListedAccounts(order), listing, SavedIds(stored).value)
    ensures forall a, c :: a in ListedAccounts(order) && Lists(listing, a, c) ==>
      Offered(FetchOutcome(order, stored, listing).options, c, ListedAccounts(order), listing, SavedIds(stored).value)
  {
    var accounts := ListedAccounts(order);
    var lists := Calendars.Collect(Answers(listing, accounts)).value;
    AllAnswered(listing, accounts);
    var saved := SavedIds(stored).value;
    var options := FetchOutcome(order, stored, listing).options;
    CalendarsMapped(accounts, lists);
    forall option | option in options
      ensures Describes(option, accounts, listing, saved)
    {
      var i :| 0 <= i < |options| && options[i] == option;
      OptionDescribes(accounts, listing, lists, saved, i);
    }
    forall a, c | a in accounts && Lists(listing, a, c)
      ensures Offered(options, c, accounts, listing, saved)
    {
      var k := Utils.MemberAt(a, accounts);
      CalendarOffered(accounts, listing, lists, saved, k, c);
    }
  }

  /** The selection screen: its options list and the info box, when it is shown. */
  class SelectCalendarsScreen {
    const keychain: Keychain
    const wm: WindowManager
    const options: CheckableList
    /** The info box's text, once it is appended to the screen. */
    var info: Option<string>

    ghost predicate Valid()
      reads this, options
    {
      options.Valid()
    }

    /** The constructor: an empty options list and no info box. */
    constructor(keychain: Keychain, wm: WindowManager)
      ensures Valid() && fresh(options)
      ensures this.keychain == keychain && this.wm == wm
      ensures options.items == [] && options.rows == [] && options.selectedIndex == -1
      ensures info == None
    {
      this.keychain := keychain;
      this.wm := wm;
      options := new CheckableList([]);
      info := None;
    }

    /** The loop that records every account's calendars in `idMap`. */
    static method BuildIdMap(accounts: seq<string>, lists: seq<Option<seq<CalendarInfo>>>)
      returns (idMap: map<string, string>)
      requires |accounts| == |lists|
      ensures idMap == IdMapOf(accounts, lists)
    {
      idMap := map[];
      var k := 0;
      while k < |lists|
        invariant 0 <= k <= |lists|
        invariant idMap == IdMapOf(accounts[..k], lists[..k])
      {
        assert accounts[..k + 1][..k] == accounts[..k] && lists[..k + 1][..k] == lists[..k];
        if lists[k].Some? {
          idMap := RecordIds(idMap, lists[k].value, accounts[k]);
        }
        k := k + 1;
      }
      assert accounts[..k] == accounts && lists[..k] == lists;
    }

    /** `cal?.forEach((c) => idMap.set(c.id, account))`. */
    static method RecordIds(idMap: map<string, string>, cals: seq<CalendarInfo>, account: string)
      returns (r: map<string, string>)
      ensures r == SetIds(idMap, cals, account)
    {
      r := idMap;
      var j := 0;
      while j < |cals|
        invariant 0 <= j <= |cals|
        invariant r == SetIds(idMap, cals[..j], account)
      {
        SetIdsStep(idMap, cals, account, j);
        r := r[cals[j].id := account];
        j := j + 1;
      }
      assert cals[..j] == cals;
    }

    /**
     * `fetchCalendars()`; `order` is the order in which `findCredentials` listed the
     * accounts. Failures and the empty case show the info box and leave the options as they
     * were; otherwise the options are added and rendered.
     */
    method FetchCalendars(listing: Listing) returns (order: seq<string>)
      requires Valid()
      modifies this, options
      ensures Valid()
      ensures forall a :: a in order <==> a in keychain.entries
      ensures var outcome := FetchOutcome(order, keychain.entries, listing);
        (outcome.Failed? ==> info == Some(outcome.message))
        && (outcome.NoCalendars? ==> info == Some(NoCalendarsMessage))
        && (outcome.Listed? ==> info == old(info))
      ensures var outcome := FetchOutcome(order, keychain.entries, listing);
        !outcome.Listed? ==> (options.items == old(options.items)
          && options.rows == old(options.rows) && options.selectedIndex == old(options.selectedIndex))
      ensures var outcome := FetchOutcome(order, keychain.entries, listing);
        outcome.Listed? ==>
          (options.items, options.rows) == AddAll(old(options.items), old(options.rows), outcome.options)
          && options.selectedIndex == SelectIndex(|options.rows|, old(options.selectedIndex),
                                                  if old(options.selectedIndex) > 0 then old(options.selectedIndex) else 0)
    {
      order := keychain.FindCredentials();
      var accounts := ListedAccounts(order);
      if !AllParse(accounts, keychain.entries) {
        info := Some(ParseError);
        return;
      }
      var collected := Calendars.Collect(Answers(listing, accounts));
      if collected.Failure? {
        info := Some(collected.error);
        return;
      }
      var lists := collected.value;
      var idMap := BuildIdMap(accounts, lists);
      var cals := Flatten(lists);
      var saved := SavedIds(keychain.entries);
      if saved.Failure? {
        info := Some(saved.error);
        return;
      }
      if cals == [] {
        info := Some(NoCalendarsMessage);
        return;
      }
      CalendarsMapped(accounts, lists);
      var added := OptionsFor(cals, idMap, saved.value);
      assert FetchOutcome(order, keychain.entries, listing) == Listed(added);
      options.AddItems(added);
      options.Render();
    }

    /**
     * The `enter` handler: the checked options are saved when there are any, and the main
     * window is displayed either way.
     */
    method OnEnter()
      requires wm.Valid()
      modifies keychain, wm
      ensures keychain.entries == EnterStep(old(keychain.entries), options.SelectedKeys())
      ensures wm.Valid() && wm.ids == old(wm.ids)
      ensures var shown := ShowStep(old(wm.ids), old(wm.curr), ById(MainWindow));
        wm.curr == shown.curr && wm.stack == DisplayStack(old(wm.stack), shown)
    {
      var selected := options.SelectedKeys();
      if |selected| > 0 {
        keychain.SetPassword(StoreKey, Stringify(SelectionRecord(selected)));
      }
      wm.Display(ById(MainWindow));
    }

    /** The `c` handler: back to the previous window, without exiting on an empty stack. */
    method OnBack()
      requires wm.Valid()
      modifies wm
      ensures wm.Valid() && wm.stack == Pop(old(wm.stack)) && wm.ids == old(wm.ids)
      ensures var back := BackTarget(old(wm.stack), false);
        back.Show? && wm.curr == ShowStep(old(wm.ids), old(wm.curr), back.target).curr
    {
      var _ := wm.GoBack(false);
    }
  }
}
