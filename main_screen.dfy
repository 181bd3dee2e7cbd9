/**
 * The agenda screen (src/screens/main.ts): the events of the selected calendars, the
 * reminders sent for them once a minute, and the actions of the `enter` and `o` keys.
 *
 * Desktop notifications (`dunstify`) and `open` are recorded as a log of actions. Dates
 * are represented by what the screen derives from them with `dayjs`: the whole minutes
 * until an event starts and the text that describes its time.
 */
module MainScreen {
  import opened Wrappers
  import opened Text
  import opened Keychain
  import opened Calendars
  import opened EventLists
  import Utils

  /** An event as the screen uses it. */
  datatype Event = Event(
    id: string,
    name: string,
    /** `null` or the event's web link. */
    permalink: Option<string>,
    /** `dayjs(evt.start).diff(dayjs(), 'minute')`; `None` when `start` is falsy. */
    minutesUntil: Option<int>,
    /** `location.displayName`. */
    location: string,
    /** The time text the screen shows, formatted by `dayjs`. */
    when: string)

  /** What the screen does outside itself: a desktop notification with its arguments, or `open(target)`. */
  datatype Action = Notify(args: seq<string>) | Open(target: string)

  const NoCalendarsMessage: string :=
    "No calendars found. \n\nPlease press [s] > [a] to add one or more accounts."

  /** The error `drawItems` catches: `EventList` has no `clearList` method. */
  const ClearListMissing: string := "this.today.clearList is not a function"

  const EventNotFound: string := "Could not find that event!"
  const PermalinkNotFound: string := "Could not find a permalink to that event."

  /** `In ${diff} minutes`. */
  function InMinutes(diff: nat): string
  {
    "In " + NatToDecimal(diff) + " minutes"
  }

  /**
   * The reminders `checkForNotifications` sends for one event: none without a start or
   * once it has started; `--NOW--` at zero minutes; `In N minutes` when N is a multiple of
   * five up to fifteen (zero included).
   */
  function Reminders(evt: Event): (r: seq<Action>)
    ensures evt.minutesUntil.None? ==> r == []
    ensures evt.minutesUntil.Some? && evt.minutesUntil.value < 0 ==> r == []
    ensures forall k :: 0 <= k < |r| ==> r[k].Notify? && |r[k].args| == 2 && r[k].args[0] == evt.name
  {
    match evt.minutesUntil
    case None => []
    case Some(diff) =>
      if diff < 0 then []
      else
        (if diff == 0 then [Notify([evt.name, "--NOW--"])] else [])
        + (if diff % 5 == 0 && diff <= 15 then [Notify([evt.name, InMinutes(diff)])] else [])
  }

  /** At the start time both the `--NOW--` notice and `In 0 minutes` are sent, in that order. */
  lemma RemindersAtStart(evt: Event)
    requires evt.minutesUntil == Some(0)
    ensures Reminders(evt) == [Notify([evt.name, "--NOW--"]), Notify([evt.name, "In 0 minutes"])]
  {
    assert DigitChar(0) == '0';
    assert NatToDecimal(0) == "0";
    assert InMinutes(0) == "In " + "0" + " minutes" == "In 0 minutes";
  }

  /** Five, ten and fifteen minutes ahead exactly one reminder is sent, naming the minutes. */
  lemma RemindersAhead(evt: Event, n: nat)
    requires evt.minutesUntil == Some(n) && (n == 5 || n == 10 || n == 15)
    ensures Reminders(evt) == [Notify([evt.name, InMinutes(n)])]
    ensures DecimalValue(NatToDecimal(n)) == n
  {
    DecimalRoundTrip(n);
  }

  /** At any other number of minutes ahead nothing is sent. */
  lemma NoOtherReminders(evt: Event, n: int)
    requires evt.minutesUntil == Some(n)
    requires n < 0 || (n != 0 && n != 5 && n != 10 && n != 15)
    ensures Reminders(evt) == []
  {
  }

  /** Every event's reminders, in event order. */
  function AllReminders(events: seq<Event>): (r: seq<Action>)
    ensures |r| <= 2 * |events|
    ensures forall a :: a in r ==> exists e :: e in events && a in Reminders(e)
    decreases |events|
  {
    if events == [] then []
    else
      var before := events[..|events| - 1];
      var last := events[|events| - 1];
      assert forall e :: e in before ==> e in events;
      AllReminders(before) + Reminders(last)
  }

  /** `events.find((evt) => evt.id == id)`; an `undefined` id matches no event, whose ids are strings. */
  function FindEvent(events: seq<Event>, id: Option<string>): (r: Option<nat>)
    ensures id.None? ==> r.None?
    ensures r.Some? ==> r.value < |events| && id == Some(events[r.value].id)
    ensures r.Some? ==> forall j :: 0 <= j < r.value ==> id != Some(events[j].id)
    ensures r.None? ==> forall j :: 0 <= j < |events| ==> id != Some(events[j].id)
    decreases |events|
  {
    if events == [] then None
    else if id == Some(events[0].id) then Some(0)
    else match FindEvent(events[1..], id)
      case None => None
      case Some(i) => Some(i + 1)
  }

  /** `/zoom/i.test(location)`. */
  predicate MentionsZoom(location: string)
  {
    Contains(LowerAscii(location), "zoom")
  }

  /** The meeting page the source hard-codes and turns into a Zoom link. */
  const MeetingHost: string := "utas.zoom.us"
  const MeetingId: string := "8307398097"
  const MeetingPath: string := "/j/" + MeetingId

  /** `mtgId = u.pathname.split('/j/')[1]`, which is `undefined` when the path has no `/j/`. */
  function MeetingNumber(path: string): string
  {
    var pieces := Split(path, "/j/");
    if |pieces| > 1 then pieces[1] else "undefined"
  }

  /** `zoommtg://${u.host}/join?confno=${mtgId}`. */
  function ZoomLink(host: string, path: string): string
  {
    "zoommtg://" + host + "/join?confno=" + MeetingNumber(path)
  }

  /** For a path `/j/<number>` the link joins meeting `<number>` on the page's host. */
  lemma ZoomLinkJoinsMeeting(host: string, number: string)
    requires '/' !in number
    ensures ZoomLink(host, "/j/" + number) == "zoommtg://" + host + "/join?confno=" + number
  {
    var path := "/j/" + number;
    assert path[..3] == "/j/";
    assert IndexOf(path, "/j/") == Some(0);
    assert path[3..] == number;
    NoSlashNoSplit(number);
    assert Split(path, "/j/") == [path[..0]] + Split(number, "/j/");
  }

  /** Every Zoom event opens the same hard-coded meeting, whatever its own location says. */
  lemma ZoomRoomIsFixed()
    ensures ZoomLink(MeetingHost, MeetingPath) == "zoommtg://" + MeetingHost + "/join?confno=" + MeetingId
  {
    assert '/' !in MeetingId;
    ZoomLinkJoinsMeeting(MeetingHost, MeetingId);
  }

  /** A string without `/` does not split on `/j/`. */
  lemma NoSlashNoSplit(s: string)
    requires '/' !in s
    ensures Split(s, "/j/") == [s]
  {
    forall i
      ensures !OccursAt(s, "/j/", i)
    {
      if 0 <= i && i + 3 <= |s| {
        assert s[i..i + 3][0] == s[i] && s[i] in s;
      }
    }
  }

  /**
   * The actions of `enter` (`onAgendaItemSelect`) for the id of the selected row: a
   * missing event is reported; an event at a Zoom location opens the meeting and says so;
   * any other is announced with its time.
   */
  function SelectActions(events: seq<Event>, id: Option<string>): (r: seq<Action>)
    ensures FindEvent(events, id).None? ==> r == [Notify([EventNotFound])]
    ensures FindEvent(events, id).Some? && MentionsZoom(events[FindEvent(events, id).value].location) ==>
      r == [Open(ZoomLink(MeetingHost, MeetingPath)), Notify(["Opening " + events[FindEvent(events, id).value].name + " in Zoom"])]
    ensures FindEvent(events, id).Some? && !MentionsZoom(events[FindEvent(events, id).value].location) ==>
      r == [Notify([events[FindEvent(events, id).value].name, events[FindEvent(events, id).value].when])]
  {
    match FindEvent(events, id)
    case None => [Notify([EventNotFound])]
    case Some(i) =>
      var evt := events[i];
      if MentionsZoom(evt.location) then [Open(ZoomLink(MeetingHost, MeetingPath)), Notify(["Opening " + evt.name + " in Zoom"])]
      else [Notify([evt.name, evt.when])]
  }

  /** The actions of `o` (`onAgendaItemOpenRequest`): the event's permalink is opened when it has one. */
  function OpenActions(events: seq<Event>, id: Option<string>): (r: seq<Action>)
    ensures |r| == 1
    ensures r[0].Open? <==> (FindEvent(events, id).Some?
      && events[FindEvent(events, id).value].permalink.Some?
      && events[FindEvent(events, id).value].permalink.value != "")
    ensures r[0].Open? ==> r[0].target == events[FindEvent(events, id).value].permalink.value
    ensures r[0].Notify? ==> r[0].args == [PermalinkNotFound]
  {
    match FindEvent(events, id)
    case None => [Notify([PermalinkNotFound])]
    case Some(i) =>
      match events[i].permalink
      case Some(link) => if link != "" then [Open(link)] else [Notify([PermalinkNotFound])]
      case None => [Notify([PermalinkNotFound])]
  }

  /**
   * `EventList` defines no `selectedItem`, so the id the key handlers read is `undefined`:
   * `enter` always reports a missing event and `o` never opens anything.
   */
  lemma SelectionIsNeverFound(events: seq<Event>)
    ensures SelectActions(events, None) == [Notify([EventNotFound])]
    ensures OpenActions(events, None) == [Notify([PermalinkNotFound])]
  {
  }

  /** `.then((d) => d.flat())`: the events of every calendar, calendar by calendar. */
  function Concat(lists: seq<seq<Event>>): (r: seq<Event>)
    ensures forall e :: e in r <==> exists k :: 0 <= k < |lists| && e in lists[k]
    decreases |lists|
  {
    if lists == [] then []
    else
      var before := lists[..|lists| - 1];
      assert forall k :: 0 <= k < |before| ==> before[k] == lists[k];
      Concat(before) + lists[|lists| - 1]
  }

  /** The flattened events keep each calendar's own order and the calendars' order. */
  lemma {:induction false} ConcatAppend(a: seq<seq<Event>>, b: seq<seq<Event>>)
    ensures Concat(a + b) == Concat(a) + Concat(b)
    decreases |b|
  {
    if b != [] {
      var n := |b| - 1;
      assert (a + b)[..|a + b| - 1] == a + b[..n];
      ConcatAppend(a, b[..n]);
    } else {
      assert a + b == a;
    }
  }

  /** `Promise.all(this.calendars.map((cal) => cal.today()))`. */
  function TodayLists<T>(calendars: seq<T>, todayOf: T -> Result<seq<Event>>): (r: Result<seq<seq<Event>>>)
    ensures r.Success? <==> forall k :: 0 <= k < |calendars| ==> todayOf(calendars[k]).Success?
    ensures r.Success? ==> (|r.value| == |calendars|
      && forall k :: 0 <= k < |calendars| ==> r.value[k] == todayOf(calendars[k]).value)
  {
    var rs := seq(|calendars|, k requires 0 <= k < |calendars| => todayOf(calendars[k]));
    assert forall k :: 0 <= k < |calendars| ==> rs[k] == todayOf(calendars[k]);
    Collect(rs)
  }

  /** One more event adds its reminders after those of the events before it. */
  lemma AllRemindersStep(events: seq<Event>, i: nat)
    requires i < |events|
    ensures AllReminders(events[..i + 1]) == AllReminders(events[..i]) + Reminders(events[i])
  {
    assert events[..i + 1][..i] == events[..i];
  }

  class MainWindowScreen<T> {
    const registry: CalendarRegistry
    const today: EventList
    var calendars: seq<T>
    var events: seq<Event>
    /** The text of the container box. */
    var content: string
    /** Notifications sent and links opened, oldest first. */
    var actions: seq<Action>

    constructor(registry: CalendarRegistry)
      ensures this.registry == registry && fresh(today) && today.Valid()
      ensures today.items == [] && today.rows == []
      ensures calendars == [] && events == [] && content == "" && actions == []
    {
      this.registry := registry;
      today := new EventList([]);
      calendars := [];
      events := [];
      content := "";
      actions := [];
    }

    /**
     * `drawItems()`: without calendars the notice is shown and nothing else happens; with
     * calendars the missing `clearList` throws before any row is added, and the error's
     * message is shown.
     */
    method DrawItems()
      modifies this
      ensures calendars == [] ==> content == NoCalendarsMessage
      ensures calendars != [] ==> content == ClearListMissing
      ensures calendars == old(calendars) && events == old(events) && actions == old(actions)
    {
      if calendars == [] {
        content := NoCalendarsMessage;
        return;
      }
      content := "";
      content := ClearListMissing;
    }

    /**
     * `updateResources()`: the selected calendars are loaded, then every calendar's events
     * for today, then the list is drawn. A rejection stops it where it happens.
     */
    method UpdateResources(fetch: (Provider, string, string) -> Result<Option<T>>,
                           todayOf: T -> Result<seq<Event>>) returns (error: Option<string>)
      modifies this, registry
      ensures var (all, cache) := AllCalendars(old(registry.tokenCache), registry.keychain.entries, fetch);
        registry.tokenCache == cache
        && (all.Failure? ==>
              error == Some(all.error) && calendars == old(calendars)
              && events == old(events) && content == old(content))
        && (all.Success? ==> calendars == all.value)
      ensures var lists := TodayLists(calendars, todayOf);
        error.None? ==> (lists.Success? && events == Concat(lists.value)
          && content == (if calendars == [] then NoCalendarsMessage else ClearListMissing))
      ensures var lists := TodayLists(calendars, todayOf);
        AllCalendars(old(registry.tokenCache), registry.keychain.entries, fetch).0.Success? ==>
          (lists.Failure? <==> error.Some?) && (lists.Failure? ==> error == Some(lists.error))
      ensures error.Some? ==> events == old(events) && content == old(content)
      ensures actions == old(actions)
    {
      var all := registry.GetAll(fetch);
      if all.Failure? {
        return Some(all.error);
      }
      calendars := all.value;
      var lists := TodayLists(calendars, todayOf);
      if lists.Failure? {
        return Some(lists.error);
      }
      events := Concat(lists.value);
      DrawItems();
      error := None;
    }

    /** `checkForNotifications()`: each event's reminders, in event order. */
    method CheckForNotifications()
      modifies this
      ensures actions == old(actions) + AllReminders(events)
      ensures events == old(events) && calendars == old(calendars) && content == old(content)
    {
      var evts := events;
      var i := 0;
      while i < |evts|
        invariant 0 <= i <= |evts|
        invariant actions == old(actions) + AllReminders(evts[..i])
        invariant events == evts && calendars == old(calendars) && content == old(content)
      {
        AllRemindersStep(evts, i);
        Remind(evts[i]);
        Utils.AppendAssoc(old(actions), AllReminders(evts[..i]), Reminders(evts[i]));
        i := i + 1;
      }
      assert evts[..i] == evts;
    }

    /** The body of the `forEach` of `checkForNotifications` for one event. */
    method Remind(evt: Event)
      modifies this
      ensures actions == old(actions) + Reminders(evt)
      ensures events == old(events) && calendars == old(calendars) && content == old(content)
    {
      if evt.minutesUntil.None? {
        return;
      }
      var diff := evt.minutesUntil.value;
      if diff < 0 {
        return;
      }
      if diff == 0 {
        actions := actions + [Notify([evt.name, "--NOW--"])];
      }
      if diff % 5 == 0 && diff <= 15 {
        actions := actions + [Notify([evt.name, InMinutes(diff)])];
      }
    }

    /** `onAgendaItemSelect()` for the id of the selected row. */
    method OnAgendaItemSelect(selectedItem: Option<string>)
      modifies this
      ensures actions == old(actions) + SelectActions(events, selectedItem)
      ensures events == old(events) && calendars == old(calendars) && content == old(content)
    {
      var found := FindEvent(events, selectedItem);
      if found.None? {
        actions := actions + [Notify([EventNotFound])];
        return;
      }
      var evt := events[found.value];
      if MentionsZoom(evt.location) {
        actions := actions + [Open(ZoomLink(MeetingHost, MeetingPath))];
        actions := actions + [Notify(["Opening " + evt.name + " in Zoom"])];
        return;
      }
      actions := actions + [Notify([evt.name, evt.when])];
    }

    /** `onAgendaItemOpenRequest()` for the id of the selected row. */
    method OnAgendaItemOpenRequest(selectedItem: Option<string>)
      modifies this
      ensures actions == old(actions) + OpenActions(events, selectedItem)
      ensures events == old(events) && calendars == old(calendars) && content == old(content)
    {
      var found := FindEvent(events, selectedItem);
      if found.None? || events[found.value].permalink.None? || events[found.value].permalink.value == "" {
        actions := actions + [Notify([PermalinkNotFound])];
        return;
      }
      actions := actions + [Open(events[found.value].permalink.value)];
    }
  }
}
