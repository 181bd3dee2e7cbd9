# cli-agenda core, modelled in Dafny

cli-agenda is a terminal agenda that signs in to Google and Microsoft calendars with
OAuth2, keeps its tokens and the saved calendar selection in the operating-system
keychain, and shows today's events in a blessed terminal UI. This project models the
core of that program and proves properties of the model:

- the OAuth2 session (`src/OAuth2.ts`): the authorisation URL of the authorization-code
  grant (section 4.1 of RFC 6749), the choice between the stored token, a refresh
  (section 6 of RFC 6749) and a new authorisation, the expiry test, the code exchange,
  and log-in/log-out;
- account resolution and aggregation (`src/calendar/Calendar.ts`): the never-invalidated
  token cache, the lookup from a token's `platform` tag to a provider, and `Calendar.GetAll`;
- the saved-selection store (`src/lib/Storage.ts`) under the reserved `"__store"` account;
- the screens' logic: calendar selection with its `<calendar id>--<account>` option keys
  (`src/screens/select-calendars.ts`), account removal (`src/screens/remove-accounts.ts`),
  and the agenda screen's reminder rule, event loading and key actions (`src/screens/main.ts`);
- the UI state machines: the window manager's element registry, current screen and back
  stack (`src/lib/WindowManager.ts`), the checkable list (`src/components/CheckableList.ts`),
  the event list (`src/components/EventList.ts`), the instructions bar's command layers
  (`src/components/InstructionsBar.ts`), and the clamp and null filter they rely on
  (`src/lib/Utils.ts`).

Each component whose source updates fields in place is a class with those fields. Its
methods change exactly what their `modifies` clause names, and their `ensures` tie the
new state to a pure function of the old state. Lemmas about those functions state what the
source promises. The keychain is a `Keychain` object holding a map from account to stored
password. Time, the port the redirect listener was given, the `code` it received and the
token endpoint's answer are parameters. A provider's `fetch`/`fetchAll`/`today` is a
function parameter.

One keychain namespace serves every component: `KeytarName` and the expression in
`src/OAuth2.ts` evaluate to the same name. A stored password is the JSON text of a value
(`Encoded`), the empty string (`Blank`, which is falsy but not `null`), or text that
`JSON.parse` rejects (`Garbled`).

Where the code and the documented intent of the program differ, the model follows the code:

- `TokenExpired` (`src/OAuth2.ts:95-100`) holds when `expiry < now - 600000`. A token
  therefore counts as expired only ten minutes AFTER its expiry, the reverse of the
  comment beside the test. A token that expired one millisecond ago is served as it is.
- A token is stored under `ServiceID`, one record per service rather than per account.
- A refresh replaces the token wholesale (`src/OAuth2.ts:211-214`): the old
  `refresh_token` survives only when the response carries one. Nothing in
  `src/OAuth2.ts` sets `platform`.
- `EventList` defines neither `selectedItem` nor `clearList`. The agenda's `enter` and
  `o` keys therefore never find an event. With any calendar, `drawItems` shows the
  `TypeError` message instead of rows.

## Model

| member | source | states |
|---|---|---|
| Utils.Contain | src/lib/Utils.ts:6-7 | The result is never below `min`. It is at most `max` when `min <= max`. It is the value itself inside the range, `min` below it and `max` above it. It is `min` whenever `min > max`. |
| Utils.ContainIdempotent | src/lib/Utils.ts:6-7 | Clamping twice with the same bounds gives the same as clamping once. |
| Utils.FilterNotNull | src/lib/Utils.ts:11-12 | Every kept value was present in the input, and every present value is kept. Nothing is dropped exactly when no value is null or undefined. |
| Utils.FilterNotNullAppend | src/lib/Utils.ts:11-12 | Filtering a concatenation concatenates the filtered parts, so kept values keep their order. |
| Utils.FilterNotNullAllPresent | src/lib/Utils.ts:11-12 | Without null values, the values are kept one for one, in order. |
| JsonValues.Get | src/calendar/Calendar.ts:33 | A property read is defined exactly on objects that have the key, and gives that field. |
| JsonValues.GetString | src/calendar/Calendar.ts:33 | A string property is present exactly when the read gives a string, and it is that string. |
| JsonValues.SpreadEntries | src/lib/Storage.ts:14 | Spreading copies an object's fields and nothing from `null` or scalars. |
| Keychain.Parse | src/calendar/Calendar.ts:18 | `JSON.parse` succeeds exactly on JSON text and gives back its value. |
| Keychain.Stringify | src/lib/Storage.ts:26 | `JSON.parse` reads back exactly the value `JSON.stringify` wrote, and the text is never empty. |
| Keychain.Keychain.GetPassword | src/calendar/Calendar.ts:16 | A password is found exactly when the account has an entry, and it is that entry. |
| Keychain.Keychain.SetPassword | src/lib/Storage.ts:26 | Only the given account's entry is set; every other entry stays. |
| Keychain.Keychain.DeletePassword | src/screens/remove-accounts.ts:56 | Only the given account's entry is removed. The result says whether there was one. |
| Keychain.Keychain.FindCredentials | src/screens/remove-accounts.ts:70-71 | Every account is listed exactly once; the order is left open. |
| Text.IndexOf | src/screens/select-calendars.ts:59 | The result is the first position where the separator occurs, and none when it never occurs. |
| Text.Split | src/screens/select-calendars.ts:59 | Splitting always gives at least one piece. |
| Text.SplitHead | src/screens/select-calendars.ts:59 | The first piece is the text before the first separator, and the whole text exactly when there is no separator. |
| Text.JoinSplit | src/screens/select-calendars.ts:59 | Joining the pieces of a split with the same separator gives back the text. |
| Text.SplitJoin | src/OAuth2.ts:54 | Parts free of a one-character separator split back into the same parts after joining. |
| Text.NatToDecimal | src/OAuth2.ts:49 | A number's decimal text is a non-empty string of digits, with no leading zero except for 0. |
| Text.DecimalRoundTrip | src/OAuth2.ts:49 | Reading the decimal text back gives the number. |
| Text.LowerAscii | src/screens/main.ts:177 | Lower-casing keeps the length and maps each character on its own. |
| LocalStorage.Load | src/lib/Storage.ts:12-15 | Reading the settings fails exactly when the `"__store"` record is unparsable. On success every default key is present. |
| LocalStorage.LoadWithoutRecord | src/lib/Storage.ts:4-7 | Without a record, `calendars` is the one-element placeholder list, not an empty list. |
| LocalStorage.LoadOverridesDefaults | src/lib/Storage.ts:14 | The merge is shallow. Each stored top-level key wins, missing keys keep their default, and no other key appears. |
| LocalStorage.SaveWith | src/lib/Storage.ts:17-27 | Saving fails exactly when reading fails. Otherwise it writes the serialisation of `update(get())` under `"__store"`. |
| LocalStorage.SaveTouchesOnlyStore | src/lib/Storage.ts:26 | `save` adds or replaces `"__store"` only; every other account keeps its password. |
| LocalStorage.SaveThenLoad | src/lib/Storage.ts:17-27 | Reading after `save` gives the update's object laid over the defaults. |
| LocalStorage.Save | src/lib/Storage.ts:17-27 | The keychain after `save` is `SaveWith` of the keychain before. A failed read writes nothing. |
| Calendars.LookupToken | src/calendar/Calendar.ts:14-21 | A rejected lookup leaves the cache as it was. A cached non-null token is returned with the cache unchanged. Otherwise the cache either keeps its keys or gains exactly the looked-up account. |
| Calendars.CachedTokenIgnoresKeychain | src/calendar/Calendar.ts:13-21 | Once an account's token is cached, no change to the keychain alters what `getToken` yields. |
| Calendars.LookupKeepsCache | src/calendar/Calendar.ts:13-21 | No lookup removes a cached account or changes a non-null cached token. |
| Calendars.LookupFromKeychain | src/calendar/Calendar.ts:16-20 | An absent or empty record yields `null` and leaves the cache unchanged. A parsed record other than `null` is cached and returned, and a second lookup returns it even after the keychain changed. |
| Calendars.Identify | src/calendar/Calendar.ts:25-36 | The provider is Microsoft exactly when the token is truthy with platform `"ms"`, and Google exactly when its platform is `"google"`. |
| Calendars.Resolution | src/calendar/Calendar.ts:38-43 | A failed token lookup fails with that lookup's error. No provider gives `null`. Otherwise the provider's answer is returned. |
| Calendars.LookupInDerivedCache | src/calendar/Calendar.ts:13-21 | In a cache that earlier lookups grew, a lookup yields the same token as in the cache they started from, and the cache it leaves has still only grown. Earlier lookups never change what a later one yields. |
| Calendars.ResolveAll | src/calendar/Calendar.ts:54-56 | There is one answer per saved selection, in saved order. The k-th is `getCalendarObj` of the k-th selection against the cache as it was before any lookup. The cache only grows: each cached account and non-null token stays, and any other non-null token is the parse of that account's record. |
| Calendars.ResolveAllStep | src/calendar/Calendar.ts:54-56 | Resolving one more selection looks its token up in the cache the earlier lookups left, and appends its answer. |
| Calendars.DecodeSaved | src/calendar/Calendar.ts:48-52 | The saved entries decode exactly when each has a string `account` and `id`, one selection per entry with those values. |
| Calendars.SavedSelection | src/calendar/Calendar.ts:48-52 | An absent or empty `"__store"` record selects nothing; an unparsable one rejects. |
| Calendars.Collect | src/calendar/Calendar.ts:54-57 | `Promise.all` resolves exactly when every promise resolves, with their values in order. |
| Calendars.CollectFirstRejection | src/calendar/Calendar.ts:54-57 | When answers resolve up to a rejected one, `Promise.all` rejects with that rejection: the first in list order. |
| Calendars.AllCalendars | src/calendar/Calendar.ts:46-61 | An unreadable selection rejects before any lookup, with the cache unchanged. Otherwise the cache grows only as lookups make it, and there are at most as many calendars as saved selections. |
| Calendars.NoStoreNoCalendars | src/calendar/Calendar.ts:47-49 | With no `"__store"` record, `GetAll` yields no calendars and leaves the cache as it was. |
| Calendars.AllCalendarsInSavedOrder | src/calendar/Calendar.ts:50-60 | When every saved selection's `getCalendarObj` resolves, `GetAll` yields exactly their non-null values, one per selection, in saved order, with duplicates kept. |
| Calendars.RejectionPropagates | src/calendar/Calendar.ts:54-57 | If any saved selection's `getCalendarObj` rejects, `GetAll` rejects. |
| Calendars.CalendarRegistry.constructor | src/calendar/Calendar.ts:13 | The token cache starts empty. |
| Calendars.CalendarRegistry.GetToken | src/calendar/Calendar.ts:14-21 | The result and the new cache are `LookupToken` of the old cache and the keychain. |
| Calendars.CalendarRegistry.IdentifyCalAccount | src/calendar/Calendar.ts:30-36 | The cache is updated as by `LookupToken`. A failed lookup fails; otherwise the provider is `Identify` of the token. |
| Calendars.CalendarRegistry.GetCalendarObj | src/calendar/Calendar.ts:38-43 | The cache is updated as by `LookupToken`, and the result is `Resolution` of the token. |
| Calendars.CalendarRegistry.GetAll | src/calendar/Calendar.ts:46-61 | The result and the new cache are `AllCalendars` of the old cache and the keychain. |
| OAuth2Session.ScopeText | src/OAuth2.ts:52-56 | A string scope passes through unchanged. A non-empty list of space-free scopes is joined with single spaces, and splits back into the list. |
| OAuth2Session.RedirectUri | src/OAuth2.ts:48-50 | The URI is `http://localhost:`, then decimal digits that read back as the port, then `/auth`. It contains neither `&` nor `?`. |
| OAuth2Session.AuthUrl | src/OAuth2.ts:58-69 | The URL is the base, then `?`, then the query parameters joined with `&`. They are `client_id`, `scope`, `response_type=code` and `redirect_uri`, then the extras, in that order. |
| OAuth2Session.TemplateShape | src/OAuth2.ts:60-68 | The template literal, with the fixed parameters and then the `&key=val` extras, equals the base, `?` and the parameter list joined with `&`. |
| OAuth2Session.ParamPairs | src/OAuth2.ts:64-66 | Each additional parameter becomes `key=val`, in entry order. |
| OAuth2Session.AdditionalParamsAppended | src/OAuth2.ts:62-68 | Extra parameters follow the fixed ones as `&key=val` in entry order. An empty object leaves a lone trailing `&`. |
| OAuth2Session.QueryParamsSafe | src/OAuth2.ts:58-69 | Every query parameter is free of `&` and `?` when the client id, the scope and the extras are. |
| OAuth2Session.AuthUrlParameters | src/OAuth2.ts:58-69 | With no `&` or `?` inside the values, splitting the URL on `?` and the query on `&` recovers the base URL and exactly the parameters, in order. |
| OAuth2Session.IsExpired | src/OAuth2.ts:95-100 | A `null` token, or one without `expiry`, is never expired. A numeric expiry is expired exactly when `expiry < now - 600000`. A `null` expiry compares as 0, so it is expired exactly when `now > 600000`. |
| OAuth2Session.ExpiryBoundary | src/OAuth2.ts:95-100 | With a numeric expiry a token is expired exactly when `expiry < now - 600000`. At exactly ten minutes past expiry it is fresh, one millisecond later it is expired, and within ten minutes after expiry it is fresh. |
| OAuth2Session.ExpiredStaysExpired | src/OAuth2.ts:95-100 | An expired token stays expired as the clock advances. |
| OAuth2Session.ExpiryFrom | src/OAuth2.ts:166-169 | The stored `expiry` is a number or `null`. A numeric `expires_in` gives `now + expires_in * 1000`. A missing one gives `NaN`, stored as `null`, and a `null` one gives `now`. |
| OAuth2Session.WithExpiry | src/OAuth2.ts:166-169 | The token is exactly the response's fields plus `expiry`. For a numeric `expires_in`, `expiry = now + expires_in * 1000`. |
| OAuth2Session.ExchangeRequest | src/OAuth2.ts:150-164 | The request goes to the token URL with the configured encoding. Its body has exactly `code`, `client_id`, `client_secret`, `grant_type`, `redirect_uri` and `scope`. The grant is `authorization_code` with the received code, and the redirect URI and scope are the ones the authorisation URL carried. |
| OAuth2Session.RefreshRequest | src/OAuth2.ts:197-209 | The request goes to the token URL with the configured encoding, with grant `refresh_token` and the client's id and secret. The token's own `refresh_token` is sent when it has one, and the key is left out otherwise. |
| OAuth2Session.Exchange | src/OAuth2.ts:137-185 | The exchange request is sent with `grant_type=authorization_code`. A failed request resolves `null` and writes nothing. A success stores the token under `ServiceID` and returns it. `port` becomes the listener's port. |
| OAuth2Session.Refresh | src/OAuth2.ts:193-231 | Without a token it fails before sending anything. Otherwise it sends the refresh request. A failure returns `null` with token and record unchanged. A success replaces both with the new token. |
| OAuth2Session.AccessToken | src/OAuth2.ts:71-93 | `GetAccessToken` never rejects. No request is sent exactly when a record exists and is either unparsable or unexpired. The listener's port is used only when there is no record. |
| OAuth2Session.NoRecordAuthorizes | src/OAuth2.ts:71-93 | With no record, the exchange is the only request. A success stores and returns its token; a failure returns `null` and stores nothing. |
| OAuth2Session.UnparsableRecordYieldsNull | src/OAuth2.ts:77-89 | An unparsable record yields `null` with nothing sent, stored or assigned. |
| OAuth2Session.FreshRecordServed | src/OAuth2.ts:79-82 | A parsed, unexpired record is returned and becomes `token`, with no request and no write. |
| OAuth2Session.ExpiredRecordRefreshed | src/OAuth2.ts:81-85 | An expired record is refreshed with its own `refresh_token`. A success replaces the record; a failure returns `null` and keeps the record. |
| OAuth2Session.AccessTokenTouchesOnlyItsRecord | src/OAuth2.ts:71-93 | Only the record under `ServiceID` can be added or changed; every other keychain entry stays. |
| OAuth2Session.ExchangedTokenReused | src/OAuth2.ts:71-100 | After a successful exchange, a later `GetAccessToken` returns the same token with no request, up to ten minutes past its expiry. |
| OAuth2Session.TokenWithoutLifetimeRefreshed | src/OAuth2.ts:95-100 | A token whose response had no `expires_in` is stored with `expiry: null`. Once the clock is past ten minutes, the next `GetAccessToken` refreshes it with that token. |
| OAuth2Session.LoggedOut | src/OAuth2.ts:243-249 | After logout the token is `null` and the `ServiceID` record is gone; every other record stays. |
| OAuth2Session.LogoutForcesAuthorization | src/OAuth2.ts:243-249 | After `Logout`, the next `GetAccessToken` starts a new authorisation. |
| OAuth2Session.OAuth2.constructor | src/OAuth2.ts:42-46 | A new session has no token and port 0. |
| OAuth2Session.OAuth2.GetAccessToken | src/OAuth2.ts:71-93 | The result, the request sent and the new state are `AccessToken` of the old state. |
| OAuth2Session.OAuth2.GetAuthToken | src/OAuth2.ts:137-185 | The result, the request sent and the new state are `Exchange` of the old state. |
| OAuth2Session.OAuth2.RefreshToken | src/OAuth2.ts:193-231 | The result, the request sent and the new state are `Refresh` of the old state. |
| OAuth2Session.OAuth2.LoggedIn | src/OAuth2.ts:234-240 | Logged in exactly when a record exists under `ServiceID`, fresh or not. |
| OAuth2Session.OAuth2.Logout | src/OAuth2.ts:243-249 | The new state is `LoggedOut` of the old one; the result says whether a record was deleted. |
| WindowManagement.FindById | src/lib/WindowManager.ts:41 | The result is the first element with that id, and none when no element has it. |
| WindowManagement.Resolve | src/lib/WindowManager.ts:39-44 | An index resolves exactly when it is in range. An id resolves to its first element. |
| WindowManagement.ShowStep | src/lib/WindowManager.ts:36-71 | A missing element or the current one returns `false` and changes nothing. Any other element becomes current and its id is returned. |
| WindowManagement.DisplayStack | src/lib/WindowManager.ts:90-93 | The stack grows by the shown id exactly when `show` succeeded. |
| WindowManagement.BackTarget | src/lib/WindowManager.ts:73-82 | An empty stack exits when asked, and otherwise shows element 0. A non-empty stack shows its top id. |
| WindowManagement.Pop | src/lib/WindowManager.ts:74 | Popping removes exactly the top entry; popping an empty stack leaves it empty. |
| WindowManagement.DisplayThenGoBack | src/lib/WindowManager.ts:73-93 | `display` followed by `goBack` restores the stack. The popped id is the current screen, so `show` refuses it and `curr` stays. |
| WindowManagement.EscapeStep | src/lib/WindowManager.ts:21-23 | Escape does nothing on `main-window` and otherwise is `show('main-window')`. |
| WindowManagement.AssignedId | src/lib/WindowManager.ts:29 | An empty id is replaced by the fresh one; any other id is kept. |
| WindowManagement.WindowManager.constructor | src/lib/WindowManager.ts:5-11 | No elements, no current screen, and an empty stack. |
| WindowManagement.WindowManager.Register | src/lib/WindowManager.ts:26-34 | The element is appended with its assigned id, which is returned. The current screen and the stack are untouched. |
| WindowManagement.WindowManager.ShowTarget | src/lib/WindowManager.ts:36-71 | The result and the new current screen are `ShowStep`; a returned id is never empty. |
| WindowManagement.WindowManager.Display | src/lib/WindowManager.ts:90-93 | The current screen is as `ShowStep` says, and the stack is `DisplayStack`. |
| WindowManagement.WindowManager.GoBack | src/lib/WindowManager.ts:73-82 | Exactly one entry is popped and none pushed. The process exits, or `ShowStep` of the back target runs. |
| WindowManagement.WindowManager.OnEscape | src/lib/WindowManager.ts:21-23 | The current screen is as `EscapeStep` says, and the stack is untouched. |
| WindowManagement.BindKeys | src/lib/WindowManager.ts:163-166 | Every given key maps to the callback, other keys keep their handler, and no other key appears. |
| WindowManagement.LaterBindingWins | src/lib/WindowManager.ts:163-166 | A later registration for a key overrides the earlier one; keys it does not name keep the earlier handler. |
| WindowManagement.Component.constructor | src/lib/WindowManager.ts:101-124 | A component starts with an empty id and no key bindings. |
| WindowManagement.Component.RegisterKeyBinding | src/lib/WindowManager.ts:163-166 | The new bindings are `BindKeys` of the old ones. |
| CheckableLists.IndexOfKey | src/components/CheckableList.ts:116 | The result is the position of the item with that key, and none when no item has it. |
| CheckableLists.SetItem | src/components/CheckableList.ts:116 | The item is present afterwards and distinct keys stay distinct. No other item is lost or invented. A new key is appended at the end. |
| CheckableLists.DeleteItem | src/components/CheckableList.ts:121 | Exactly the items with other keys remain, and distinct keys stay distinct. |
| CheckableLists.RenderRow | src/components/CheckableList.ts:61-78 | An item that has a row leaves the rows as they are. Otherwise exactly one row is appended: the item's new row, whose `top` is the previous row count and whose content starts with the check box for its flag. The rows stay valid. |
| CheckableLists.RenderRows | src/components/CheckableList.ts:60-79 | Existing rows are an unchanged prefix, every item gets a row, and the rows stay valid. Every row added is the new row of one of the items, at its position. If every item already had a row, nothing changes. |
| CheckableLists.FreshRows | src/components/CheckableList.ts:67-76 | The i-th new row is the i-th item's, at `top + i`: its key, its flag, and its check box before its label. |
| CheckableLists.RowsThenNewIsFresh | src/components/CheckableList.ts:60-79 | Rows followed by one new row per item, in item order, are the rows plus `FreshRows` of the items. |
| CheckableLists.RenderFresh | src/components/CheckableList.ts:60-79 | Items with distinct keys and no row yet each get their new row, in item order, after the existing rows. |
| CheckableLists.InitialRows | src/components/CheckableList.ts:41-58 | The constructor renders items with distinct keys as one new row each, in item order, starting at 0. |
| CheckableLists.AddNewKey | src/components/CheckableList.ts:115-118 | Adding a key without a row appends the item and exactly one row. The row's `top` is the previous row count, and its flag and `[x] `/`[ ] ` prefix follow `checked`. |
| CheckableLists.AddExistingKey | src/components/CheckableList.ts:115-118 | Adding a key that already has a row leaves every row unchanged. |
| CheckableLists.RemoveKeepsRows | src/components/CheckableList.ts:120-123 | `remove` drops the item but no row, so `selected` reports the same keys. |
| CheckableLists.SetAll | src/components/CheckableList.ts:52 | Setting a batch keeps keys distinct and adds at most one item per batch entry. |
| CheckableLists.SetAllCovers | src/components/CheckableList.ts:52 | Every key of the batch ends up among the items. |
| CheckableLists.SetAllDistinct | src/components/CheckableList.ts:52 | Items with distinct keys are kept as given, in order. |
| CheckableLists.InitialItems | src/components/CheckableList.ts:52 | The constructor's items have distinct keys and cover every initial key. They are the initial items when those are distinct. |
| CheckableLists.AddAll | src/screens/select-calendars.ts:108-116 | Adding a batch with `add` one item at a time: the rows only grow and stay valid, distinct keys stay distinct, and the rows cover the items. Every row added is the new row of an item of the batch. |
| CheckableLists.AddAllStep | src/screens/select-calendars.ts:108-116 | Adding one more item of the batch is one more `add`. |
| CheckableLists.AddAllFresh | src/screens/select-calendars.ts:108-116 | Adding items with distinct keys to an empty list gives exactly those items and one new row each, in order. |
| CheckableLists.Selected | src/components/CheckableList.ts:33-37 | A key is listed exactly when some row with that key is checked. |
| CheckableLists.SelectedAppend | src/components/CheckableList.ts:33-37 | Selected keys follow row order: the keys of two runs of rows are concatenated. |
| CheckableLists.Toggled | src/components/CheckableList.ts:85-88 | Toggling flips the flag and keeps key and position. The content becomes the new check box followed by the old content after its first four characters. |
| CheckableLists.ToggleTwice | src/components/CheckableList.ts:81-90 | Toggling a row whose content starts with its check box twice gives back the original row. |
| CheckableLists.ToggleAt | src/components/CheckableList.ts:81-90 | Only the row at `selectedIndex` is toggled, and nothing changes when there is no row there. |
| CheckableLists.SelectIndex | src/components/CheckableList.ts:92-101 | An empty list keeps the cursor. Otherwise the index is clamped into the rows. |
| CheckableLists.CursorStaysInList | src/components/CheckableList.ts:103-109 | Up from the first row and down from the last row stay put. Otherwise the cursor moves by one. |
| CheckableLists.CheckableList.constructor | src/components/CheckableList.ts:41-58 | The initial items are set in order and rendered, with no row selected; distinct initial items are kept as given. |
| CheckableLists.CheckableList.SetInitialItems | src/components/CheckableList.ts:52 | The result is `SetAll` of the initial items. |
| CheckableLists.CheckableList.RenderItems | src/components/CheckableList.ts:60-79 | The new rows are `RenderRows` of the old rows and the items. |
| CheckableLists.CheckableList.Add | src/components/CheckableList.ts:115-118 | The items become `SetItem` and the rows `RenderRows`; the list stays valid. |
| CheckableLists.CheckableList.AddItems | src/screens/select-calendars.ts:108-116 | Items and rows are those of `add` of each option in turn. |
| CheckableLists.CheckableList.Remove | src/components/CheckableList.ts:120-123 | The items become `DeleteItem`, and the rows and cursor are unchanged. |
| CheckableLists.CheckableList.ToggleItem | src/components/CheckableList.ts:81-90 | The rows become `ToggleAt` of the cursor; the list stays valid. |
| CheckableLists.CheckableList.SelectItem | src/components/CheckableList.ts:92-101 | The cursor becomes `SelectIndex`. |
| CheckableLists.CheckableList.OnUp | src/components/CheckableList.ts:103-105 | The cursor becomes `SelectIndex` of one less. |
| CheckableLists.CheckableList.OnDown | src/components/CheckableList.ts:107-109 | The cursor becomes `SelectIndex` of one more. |
| CheckableLists.CheckableList.Render | src/components/CheckableList.ts:125-128 | The cursor becomes `SelectIndex` of `max(selectedIndex, 0)`. |
| CheckableLists.CheckableList.Clear | src/components/CheckableList.ts:130-135 | Items and rows are emptied; the cursor is not reset. |
| EventLists.AppendRow | src/components/EventList.ts:43-94 | Exactly one unflagged row is appended, at `top = 3 *` the previous row count. |
| EventLists.FirstFlagged | src/components/EventList.ts:109 | The result is the first flagged row, and none when no row is flagged. |
| EventLists.SelectRows | src/components/EventList.ts:97-120 | `select` changes only flags, never a row's offset or contents. |
| EventLists.SelectCursor | src/components/EventList.ts:97-120 | An empty list keeps the cursor. Otherwise the index is clamped into the rows. |
| EventLists.SelectFlagsOneRow | src/components/EventList.ts:109-117 | When at most one row was flagged, exactly the row under the new cursor is flagged after `select`. |
| EventLists.SelectEmptyNoOp | src/components/EventList.ts:98 | `select` on an empty list changes nothing. |
| EventLists.CursorAtEdges | src/components/EventList.ts:144-150 | `onUp` at the first row and `onDown` at the last row stay put. |
| EventLists.AppendAll | src/components/EventList.ts:133-137 | One unflagged row is appended per definition, in order, three lines apart. |
| EventLists.AppendAllKeepsValid | src/components/EventList.ts:133-137 | Appending keeps rows three lines apart and flags no new row. |
| EventLists.AddRowsSelectsFirst | src/components/EventList.ts:133-142 | `addRows` on a list with nothing selected flags exactly row 0 and puts the cursor on it, when there is any row. |
| EventLists.EventList.constructor | src/components/EventList.ts:25-40 | The definitions are kept; there are no rows and no selection. |
| EventLists.EventList.AppendRowTo | src/components/EventList.ts:43-94 | The rows become `AppendRow`; the list stays valid. |
| EventLists.EventList.Select | src/components/EventList.ts:97-120 | The rows become `SelectRows` and the cursor `SelectCursor`; the list stays valid. |
| EventLists.EventList.AddRows | src/components/EventList.ts:133-142 | Each definition is appended to the items and rendered as a row. A list with nothing selected then selects. |
| EventLists.EventList.Render | src/components/EventList.ts:123-130 | The rows are dropped. Rebuilding fails exactly when there are definitions. |
| EventLists.EventList.OnUp | src/components/EventList.ts:144-146 | The state becomes `select` of one less. |
| EventLists.EventList.OnDown | src/components/EventList.ts:148-150 | The state becomes `select` of one more. |
| InstructionsBar.NormaliseLayers | src/components/InstructionsBar.ts:35-37 | A list of commands becomes the single `default` layer; named layers are kept as given. |
| InstructionsBar.Listeners | src/components/InstructionsBar.ts:48-50 | One listener per command, each command's key and handler among them. |
| InstructionsBar.Entries | src/components/InstructionsBar.ts:45 | One `[key] text` entry per command, in command order. |
| InstructionsBar.ContentEntries | src/components/InstructionsBar.ts:44-46 | When no key or label holds a tab, the bar's text splits on tabs back into the entries, in order. |
| InstructionsBar.SetLayerStep | src/components/InstructionsBar.ts:40-54 | The old listeners are removed first. A known layer then installs its listeners, sets the text and becomes current. An unknown layer fails with the current layer and text unchanged. |
| InstructionsBar.SwitchLayersNoAccumulation | src/components/InstructionsBar.ts:40-59 | Two successive switches leave the other listeners plus only the last layer's. |
| InstructionsBar.UnmountStep | src/components/InstructionsBar.ts:75-77 | Unmounting removes exactly the current layer's listeners; the layer stays current. |
| InstructionsBar.Screen.Key | src/components/InstructionsBar.ts:49 | One listener is added. |
| InstructionsBar.Screen.Unkey | src/components/InstructionsBar.ts:58 | One listener is removed. |
| InstructionsBar.Instructions.constructor | src/components/InstructionsBar.ts:32-38 | The layers are normalised; there is no current layer and no text. |
| InstructionsBar.Instructions.DeregisterCurrentKeyBinds | src/components/InstructionsBar.ts:56-60 | The current layer's listeners are removed from the screen. |
| InstructionsBar.Instructions.InstallKeyBinds | src/components/InstructionsBar.ts:48-50 | The layer's listeners are added to the screen. |
| InstructionsBar.Instructions.SetLayer | src/components/InstructionsBar.ts:40-54 | The new state is `SetLayerStep` of the old state; an unknown layer fails after the old listeners are gone. |
| InstructionsBar.Instructions.OnComponentRegister | src/components/InstructionsBar.ts:71-73 | Registering installs the `default` layer. |
| InstructionsBar.Instructions.OnComponentUnmount | src/components/InstructionsBar.ts:75-77 | The new state is `UnmountStep` of the old one. |
| MainScreen.Reminders | src/screens/main.ts:228-236 | An event without a start, or one that has started, gets no reminder. Every reminder is a two-argument notification naming the event. |
| MainScreen.RemindersAtStart | src/screens/main.ts:234-235 | At zero minutes both `--NOW--` and `In 0 minutes` are sent, in that order. |
| MainScreen.RemindersAhead | src/screens/main.ts:235 | At 5, 10 or 15 minutes exactly one `In N minutes` is sent, and its number reads back as N. |
| MainScreen.NoOtherReminders | src/screens/main.ts:229-235 | At any other minute difference, negative or not 0, 5, 10 or 15, nothing is sent. |
| MainScreen.AllReminders | src/screens/main.ts:227-237 | Every reminder sent belongs to some event, and there are at most two per event. |
| MainScreen.FindEvent | src/screens/main.ts:174 | The result is the first event with the id, and none for an undefined id or an unmatched one. |
| MainScreen.ZoomLinkJoinsMeeting | src/screens/main.ts:178-181 | For a path `/j/<number>` the link joins meeting `<number>` on the page's host. |
| MainScreen.ZoomRoomIsFixed | src/screens/main.ts:177-183 | Every Zoom event opens the same hard-coded meeting. |
| MainScreen.SelectActions | src/screens/main.ts:172-196 | A missing event only notifies `Could not find that event!`. A Zoom event opens the meeting and says so. Any other event is announced with its time. |
| MainScreen.OpenActions | src/screens/main.ts:198-204 | The permalink is opened exactly when the event is found and has a non-empty one; otherwise the screen only notifies. |
| MainScreen.SelectionIsNeverFound | src/screens/main.ts:173-175 | With the undefined selection, `enter` always reports a missing event and `o` never opens anything. |
| MainScreen.Concat | src/screens/main.ts:112 | The flattened events are exactly those of the calendars' lists. |
| MainScreen.ConcatAppend | src/screens/main.ts:112 | Flattening keeps calendar order and each calendar's own order. |
| MainScreen.TodayLists | src/screens/main.ts:112 | Loading succeeds exactly when every calendar's `today()` succeeds, with one list per calendar, in calendar order. |
| MainScreen.MainWindowScreen.constructor | src/screens/main.ts:35-103 | The screen starts with no calendars, no events and an empty event list. |
| MainScreen.MainWindowScreen.DrawItems | src/screens/main.ts:117-162 | With no calendars the "No calendars found" notice is shown and the list is not touched. Otherwise the missing `clearList` error is shown. |
| MainScreen.MainWindowScreen.UpdateResources | src/screens/main.ts:109-115 | The calendars are `GetAll`'s, with the cache updated as it says. If `GetAll` resolves, the error is set exactly when some `today()` rejects, and then it is that rejection. Otherwise the events are the calendars' `today()` lists concatenated in calendar order, then drawn. On any error the events and the box content stay as they were. |
| MainScreen.MainWindowScreen.CheckForNotifications | src/screens/main.ts:227-237 | Every event's reminders are sent, in event order. |
| MainScreen.MainWindowScreen.Remind | src/screens/main.ts:228-236 | One event's reminders are sent. |
| MainScreen.MainWindowScreen.OnAgendaItemSelect | src/screens/main.ts:172-196 | The actions taken are `SelectActions`. |
| MainScreen.MainWindowScreen.OnAgendaItemOpenRequest | src/screens/main.ts:198-204 | The actions taken are `OpenActions`. |
| SelectCalendars.OptionKey | src/screens/select-calendars.ts:110-112 | The key is the calendar id, then `--`, then the account. |
| SelectCalendars.DecodeOptionKey | src/screens/select-calendars.ts:59 | A key without `--` decodes to itself and no account. Otherwise the id is the text before the first `--`, and the account is the text after it, up to the next `--` or the end of the key. |
| SelectCalendars.FirstSeparator | src/screens/select-calendars.ts:58-61 | The separator after the id is the first `--` of the key exactly when the id holds no `--` and does not end in `-`. |
| SelectCalendars.OptionKeyRoundTrip | src/screens/select-calendars.ts:58-61 | A key decodes back to its id and account exactly when the id holds no `--` and does not end in `-`, and the account holds no `--`. |
| SelectCalendars.SavedEntry | src/screens/select-calendars.ts:58-61 | The saved entry's `id` is the decoded id. Its `account` is the decoded account, and is left out when there is none. |
| SelectCalendars.SavedEntries | src/screens/select-calendars.ts:57-62 | One saved entry per checked key, in selection order. |
| SelectCalendars.SelectionRecord | src/screens/select-calendars.ts:56-62 | The record's `calendars` is the list of saved entries. |
| SelectCalendars.EnterStep | src/screens/select-calendars.ts:52-64 | With nothing checked the keychain is unchanged. Otherwise `"__store"` is replaced by the selection record, and every other entry stays. |
| SelectCalendars.EnterThenGetAll | src/screens/select-calendars.ts:52-64 | Saving recoverable keys and reading them back as `GetAll` does gives the chosen (account, calendar) pairs, in selection order. |
| SelectCalendars.KeyWithoutAccountBreaksGetAll | src/screens/select-calendars.ts:58-61 | A checked key without `--` is saved without an account, and `GetAll` then rejects the selection. |
| SelectCalendars.SavedIds | src/screens/select-calendars.ts:99 | The pre-checked ids are the saved entries' ids. They fail when the settings do, or when `calendars` is not an array or holds `null`. |
| SelectCalendars.EntryIds | src/screens/select-calendars.ts:99 | An id is listed exactly when some saved entry has it as a string `id`. |
| SelectCalendars.NoRecordPreChecksPlaceholder | src/screens/select-calendars.ts:99 | Without a saved record, only the placeholder's empty id is pre-checked. |
| SelectCalendars.EnterSavesEntries | src/screens/select-calendars.ts:52-64 | After saving, the pre-checked ids are exactly the saved entries' ids. |
| SelectCalendars.SavedEntryIds | src/screens/select-calendars.ts:58-61 | The saved entries' ids are the decoded ids of the checked keys. |
| SelectCalendars.EnterThenPreChecked | src/screens/select-calendars.ts:52-64 | After `enter` saves a selection, exactly the calendars of the checked options are pre-checked. |
| SelectCalendars.ListedAccounts | src/screens/select-calendars.ts:78-80 | The listing keeps exactly the accounts other than `"__store"`. |
| SelectCalendars.Flatten | src/screens/select-calendars.ts:97 | The calendars are exactly those of the accounts that have a provider. |
| SelectCalendars.IdsOf | src/screens/select-calendars.ts:94 | The ids are exactly those of the calendars. |
| SelectCalendars.SetIds | src/screens/select-calendars.ts:94 | Each of the account's calendar ids maps to the account; other ids keep their account. |
| SelectCalendars.IdMapOf | src/screens/select-calendars.ts:88-97 | Every listed calendar's id is mapped. |
| SelectCalendars.IdMapOwners | src/screens/select-calendars.ts:88-97 | Every mapped id is labelled with an account that lists a calendar with that id. |
| SelectCalendars.IdMapLastWins | src/screens/select-calendars.ts:88-97 | An id is labelled with the last account, in credential order, that lists it. |
| SelectCalendars.OptionsFor | src/screens/select-calendars.ts:107-116 | There is one option per calendar, in order. It is labelled with the title and keyed by id and account, and it is checked exactly when the id is saved. |
| SelectCalendars.UnreadablePasswordFails | src/screens/select-calendars.ts:81-86 | Any password `JSON.parse` rejects fails the whole screen, whatever the providers answer. |
| SelectCalendars.StoreRecordOnlyPreChecks | src/screens/select-calendars.ts:78-80 | The `"__store"` record affects the outcome only through the ids it saves. |
| SelectCalendars.CalendarsMapped | src/screens/select-calendars.ts:88-97 | Every listed calendar's id is in `idMap`. |
| SelectCalendars.Answers | src/screens/select-calendars.ts:89-97 | One answer per account, in account order, each the account's listing. |
| SelectCalendars.AllAnswered | src/screens/select-calendars.ts:89-97 | When `Promise.all` resolves, every account answered, and the gathered lists are those answers. |
| SelectCalendars.FetchOutcome | src/screens/select-calendars.ts:74-128 | An unreadable password fails with the parse error. The empty notice or the options come only when every password parses, the saved ids can be read, and every listed account answered. Listed options are never empty. |
| SelectCalendars.ListingRejectionFails | src/screens/select-calendars.ts:89-97 | With every password readable, the screen fails with the first rejected answer in account order. |
| SelectCalendars.AnsweredOutcome | src/screens/select-calendars.ts:89-116 | With every password readable and every account answered, an unreadable saved selection fails with its error. Otherwise the screen shows the options, or the empty notice exactly when no account lists a calendar. |
| SelectCalendars.CalendarOffered | src/screens/select-calendars.ts:88-116 | A calendar any account lists is shown by the option built at its place in the flattened list. The option has its title, is checked exactly when its id is saved, and is keyed with an account that lists the id. |
| SelectCalendars.ListedOptionsDescribeCalendars | src/screens/select-calendars.ts:107-116 | Each option shows a calendar some signed-in account lists, with its title. It is checked exactly when saved and keyed with an account that lists its id. Conversely, every calendar a signed-in account lists is shown by an option in the same way. |
| SelectCalendars.SelectCalendarsScreen.constructor | src/screens/select-calendars.ts:27-34 | The options list starts empty with nothing selected, and no info box is shown. |
| SelectCalendars.SelectCalendarsScreen.BuildIdMap | src/screens/select-calendars.ts:88-97 | The map built is `IdMapOf` of the accounts' answers. |
| SelectCalendars.SelectCalendarsScreen.RecordIds | src/screens/select-calendars.ts:94 | The map built is `SetIds`. |
| SelectCalendars.SelectCalendarsScreen.FetchCalendars | src/screens/select-calendars.ts:74-128 | A failure or the empty case shows the info box, with its message or the notice, and leaves the options as they were. Otherwise every option of `FetchOutcome` is added and the list rendered. |
| SelectCalendars.SelectCalendarsScreen.OnEnter | src/screens/select-calendars.ts:52-66 | The keychain becomes `EnterStep` of the checked keys. `main-window` is displayed whether or not anything was saved. |
| SelectCalendars.SelectCalendarsScreen.OnBack | src/screens/select-calendars.ts:48-50 | One entry is popped and the back target is shown; the process never exits. |
| RemoveAccounts.ConfirmThenCancel | src/screens/remove-accounts.ts:20-47 | Asking to delete and then cancelling restores the `default` layer, its listeners and its text exactly. |
| RemoveAccounts.AccountItems | src/screens/remove-accounts.ts:77 | One unchecked option per account, whose key and label are both the account. |
| RemoveAccounts.AccountRows | src/screens/remove-accounts.ts:73-77 | For distinct accounts, the list's items are the options as given, with one unchecked row each, in order, and no key is selected. |
| RemoveAccounts.Listing | src/screens/remove-accounts.ts:67-78 | The listing succeeds exactly when every account's password parses, `"__store"` included. It then offers every account. |
| RemoveAccounts.StoreRecordOffered | src/screens/remove-accounts.ts:70-72 | The `"__store"` record is offered for deletion. |
| RemoveAccounts.DeleteAll | src/screens/remove-accounts.ts:53-58 | Exactly the unselected accounts remain, with their passwords unchanged. |
| RemoveAccounts.DeleteKeepsSettings | src/screens/remove-accounts.ts:53-58 | Deleting a selection without `"__store"` keeps the saved settings. |
| RemoveAccounts.DeleteStoreResetsSettings | src/screens/remove-accounts.ts:53-58 | Deleting `"__store"` resets the settings to their defaults. |
| RemoveAccounts.DeleteAllIdempotent | src/screens/remove-accounts.ts:53-58 | Deleting the same selection twice is the same as once. |
| RemoveAccounts.RemoveAccountScreen.constructor | src/screens/remove-accounts.ts:17-51 | The command layers are set up and there are no options yet. |
| RemoveAccounts.RemoveAccountScreen.ListAccounts | src/screens/remove-accounts.ts:67-78 | A failed listing leaves the options unset. Otherwise a fresh list holds every account, each with one unchecked row, in listing order, and no key is selected. |
| RemoveAccounts.RemoveAccountScreen.DeleteSelected | src/screens/remove-accounts.ts:53-60 | The keychain becomes `DeleteAll` of the checked accounts, and then the screen goes back without exiting. |

## Left out

- HTTP, the express redirect listener, `open`, `exec('dunstify')`, `node-cron` and `uuid` are not modelled. The token endpoint's answer, the listener's port and `code`, the clock, the fresh id and the provider calls are parameters. Notifications and opened links are a log of actions.
- The promise and event-loop coordination inside `GetAuthToken` is not modelled. This covers the handler declared after the route that calls it, and the promise that never settles when `open` fails. The model starts once the listener has received the code.
- Concurrency is not modelled. `Promise.all` is modelled as resolution in list order, failing with the first rejection in that order. `idMap` is filled in credential order.
- keytar's internals are not modelled, including the order of `findCredentials`, which is left open.
- JSON text syntax is not modelled: a stored password is a value, the empty string, or unparsable text. Numbers are integers. `NaN` from a missing `expires_in` is stored as `null`, and the in-memory token holds `null` for it too. A string `expires_in` is not coerced. Spreading a string or an array contributes no keys.
- Calendars.DecodeSaved: a saved entry without a string `account` or without a string `id` makes the model's `GetAll` reject with a `TypeError`. The source rejects only for a `null` entry, where reading `cal.account` throws (src/calendar/Calendar.ts:55). An entry whose `account` is missing or not a string misses the token cache, and that value is passed to `keytar.getPassword` as the account (src/calendar/Calendar.ts:14-16). An entry with a string `account` but no string `id` resolves as any other: without a provider it gives `null`, which is filtered out (src/calendar/Calendar.ts:58), and otherwise the provider's `fetch(account, undefined)` runs (src/calendar/Calendar.ts:42). The model does not follow these two cases.
- `LocalStorage.save` with a partial object is not modelled, because it delegates to the `deepmerge` library.
- dayjs is not modelled: the minutes until an event and the event's time text are inputs. The sort in `drawItems` is not modelled: its comparator is not a consistent order, and it is never reached because of the missing `clearList`.
- Blessed rendering, focus, scrolling, styles, the loading icon and the "Loading..." and "Fetching..." texts are not modelled. `Component.connect`/`disconnect`, the mount and unmount hooks and the patched `onComponentMount` of `Instructions.connect` are also left out. So are the claim that unmounting removes the handlers bound at mount (each call binds a fresh function) and the exit keys, whose option is misspelt and so never read.
- WindowManagement.ShowStep: `show` of a component object is not modelled, only by id and by index. The module-level `elements` and `curr` are fields of the one window manager.
- SelectCalendars.FetchOutcome: each account's provider lookup and `fetchAll` is one `listing` parameter. That covers `IdentifyCalAccount` and the token cache it fills for this screen.
- MainScreen.MainWindowScreen.UpdateResources: a rejection from `GetAll` or from a `today()` is returned as an error value. In the source it is unhandled, because `updateResources()` is called without a `catch` (src/screens/main.ts:50 and :209).
- OAuth2Session.IsExpired: a string, array or object `expiry` is treated as `NaN`, so the comparison is false. JavaScript's `<` converts strings and arrays to numbers (`"0"`, `""` and `[]` become 0), so a record `{"expiry":"0"}` is refreshed by the source but served as fresh by the model.
- The private getters `RedirectURI`, `Scopes`, `AuthURL` and `TokenExpired` of the `OAuth2` class are modelled as the functions `RedirectUri`, `ScopeText`, `AuthUrl` and `IsExpired` of the fields they read (the port, the credentials and the token), not as members of the class.
- Provider clients (`src/calendar/microsoft.ts`, `src/calendar/google.ts`), `src/screens/add-account.ts`, `src/screens/form.ts`, `src/screens/welcome.ts` and `src/lib/Config.ts` are not part of this model.
