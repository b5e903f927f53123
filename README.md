# E.ON Next energy readings for Home Assistant, in Dafny

This project models the core of the `eonha` Home Assistant integration. The
integration reads smart-meter consumption from the E.ON Next (Kraken) GraphQL API.
It has three parts.

- **`EonNextAPI`**, the API client. It holds the JWT auth token, the refresh token
  and their expiry times. It logs in, lists the user's account numbers, and lists
  each account's electricity and gas meters. It fetches a meter's half-hourly
  consumption records page by page, following the `endCursor` of each page. It
  stops at the first record whose `startAt` is after the end of the requested
  window.
- **`EonNextDataUpdateCoordinator`**, the update cycle. It logs in again when the
  token is no longer valid. For every account and every meter, it fetches the last
  seven days and keeps the record with the latest `startAt`. Any exception turns
  the whole cycle into one `UpdateFailed("Error communicating with API: …")`.
- **`EonNextConsumptionSensor`**, the sensor. It has a name, a unique id and a kWh
  unit. It finds the first coordinator entry with its meter's serial, and reports
  that entry's latest `value`, `startAt` and `endAt`.

Module layout:

- `Json`: the JSON values the API returns, and Python's dict, list and string
  operations on them (`get`, `[]`, `in`, `for`, truthiness, `str()`). Each
  operation has Python's error outcome (`KeyError`, `TypeError`,
  `AttributeError`).
- `Strings`: Python's string order, `capitalize`, and `str()` of an integer.
- `Session`: the token fields, the validity test, the authentication guard of
  every request, and what a login reply does to the fields.
- `Accounts`: the account-number and meter-list queries.
- `Consumption`: the paginated consumption fetch.
- `EonApi`: the client class, whose methods change its token fields. Each method
  is proved equal to the function that specifies it in `Session`, `Accounts` or
  `Consumption`.
- `Coordinator`: the stable descending sort on `startAt`, the update cycle as a
  function, and the coordinator class that runs it.
- `Sensor`: the sensor's names and its two readouts.

Each reply of the transport (the decoded JSON body, or the exception it raised)
is a parameter: the `reply`/`pages` arguments and the `Server` record of one
cycle. So is the clock: `now` stands for the one `datetime.now()` of a call or a
cycle. So is `strftime`: `fmt` maps `now` to its text.

## Model

| member | source | states |
|---|---|---|
| Json.Get | custom_components/eonha/eon_api.py:360 | `d.get(k, default)` succeeds exactly on a dict; the result is the value under the key, else the default |
| Json.Index | custom_components/eonha/eon_api.py:109-113 | `d[k]` succeeds exactly when `d` is a dict holding `k`, and returns that value; a dict without the key raises `KeyError(k)` |
| Json.Contains | custom_components/eonha/eon_api.py:108 | `k in d` tests a dict's keys and a list's elements; it raises exactly on values that support no `in` |
| Json.Iter | custom_components/eonha/eon_api.py:362 | a `for` loop visits a list's elements; it raises exactly on `None`, a bool or an int; a string yields one item per character |
| Strings.LessEqReflexive | custom_components/eonha/coordinator.py:78 | Python's `<=` on `str` is reflexive |
| Strings.LessEqTotal | custom_components/eonha/coordinator.py:78 | any two strings are ordered one way or the other, so the sort on `startAt` is defined |
| Strings.LessEqAntisymmetric | custom_components/eonha/coordinator.py:78 | two strings ordered both ways are equal |
| Strings.LessEqTransitive | custom_components/eonha/coordinator.py:78 | the order on `startAt` strings is transitive |
| Strings.LessEqSameSuffix | custom_components/eonha/eon_api.py:244-245 | two equal-length strings followed by the same suffix (the fixed `+00:00`) compare as the strings alone |
| Strings.Capitalize | custom_components/eonha/sensor.py:46 | `capitalize()` keeps the length, upper-cases the first character and lower-cases the rest |
| Strings.NatText | custom_components/eonha/sensor.py:46-47 | the text of a non-negative number is a non-empty run of decimal digits whose value is that number; it starts with `0` only for 0 itself |
| Strings.IntText | custom_components/eonha/sensor.py:46-47 | `str()` of an int starts with `-` exactly for a negative number; the rest is a run of decimal digits whose value is the number's magnitude, with no leading zero |
| Strings.IntTextInjective | custom_components/eonha/sensor.py:46-47 | two ints with the same `str()` are equal, so a sensor's serial text determines an integer serial |
| Session.TokenValid | custom_components/eonha/eon_api.py:23-27 | True exactly when the token and its expiry are truthy and the expiry is a number later than `now`. It raises exactly when a truthy non-number expiry meets the clock. A missing token, or an expiry of `None` or 0, gives False |
| Session.GraphqlRequest | custom_components/eonha/eon_api.py:35-48 | an authenticated request is refused before sending exactly when the token is not valid, with "Authentication token is not valid" when the test says False. A request that goes out keeps its operation and variables and gets the transport's reply. It carries an `authorization` header exactly when authenticated, equal to "JWT " + the token's text |
| Session.PathConcat | custom_components/eonha/eon_api.py:109-113 | looking up `a + b` equals looking up `a` and then `b` from there, errors included |
| Session.TokenDataFound | custom_components/eonha/eon_api.py:108-110 | a reply with any value under `data.obtainKrakenToken` passes the presence test, and that lookup succeeds |
| Session.LoginSpec | custom_components/eonha/eon_api.py:100-118 | every failure is re-raised as "Login failed: …", a transport error included, and leaves the fields. False exactly when the reply has no `data.obtainKrakenToken`, and then the fields stay. True exactly when the reply holds all four of `token`, `refreshToken`, `payload.exp` and `refreshExpiresIn` under it; then each field holds the value at its own path. A failure never changes the refresh expiry |
| Session.LoginAcceptsTokenReply | tests/test_basic.py:13-31 | the login reply of the package's own test, with its extra `__typename`, makes `login` return True and store "fake-token", "fake-refresh-token" and the two expiries |
| EonApi.EonNextApi.constructor | custom_components/eonha/eon_api.py:11-17 | a new client holds no tokens |
| EonApi.EonNextApi.IsTokenValid | custom_components/eonha/eon_api.py:23-27 | True exactly when the auth token and its expiry are truthy and the expiry is a number after `now`; a falsy token or expiry gives False; the only error is a `TypeError` |
| EonApi.EonNextApi.IsRefreshTokenValid | custom_components/eonha/eon_api.py:29-33 | the same test over the refresh token and its expiry |
| EonApi.EonNextApi.Login | custom_components/eonha/eon_api.py:86-118 | the new token fields and the result are `LoginSpec` of the old fields and the reply; the fields are written one by one, so a reply that breaks off mid-way leaves the earlier writes |
| EonApi.EonNextApi.GetAccountNumbers | custom_components/eonha/eon_api.py:120-143 | returns `AccountNumbersSpec` of the client's tokens |
| EonApi.EonNextApi.GetMeters | custom_components/eonha/eon_api.py:145-218 | the property, meter-point and meter loops return `MetersSpec` of the client's tokens |
| EonApi.EonNextApi.GetConsumptionData | custom_components/eonha/eon_api.py:220-404 | the `while has_next_page` loop returns `FetchSpec` of the client's tokens and the replies |
| Accounts.Numbers | custom_components/eonha/eon_api.py:143 | succeeds exactly when every account has a `number`; then it returns one number per account, in order |
| Accounts.AccountsReply | custom_components/eonha/eon_api.py:139-143 | a reply without `data` or `data.viewer` raises "Failed to retrieve accounts". When `data.viewer.accounts` is found and iterable, the result is `Numbers` of it: one number per account, in order, and an error exactly when an account has no `number` |
| Accounts.AccountNumbersSpec | custom_components/eonha/eon_api.py:120-143 | a token that tests False raises "Authentication token is not valid" and one whose test raises passes that error on. With a valid token, a transport error passes through and a reply gives `AccountsReply` of it |
| Accounts.MeterRecord | custom_components/eonha/eon_api.py:199-215 | one meter dict succeeds exactly when the meter has `serialNumber` and `id` and its meter point has `id`. It carries those values, its kind, and the point's `mpan` (electricity) or `mprn` (gas), or "" when that key is missing |
| Accounts.MetersReply | custom_components/eonha/eon_api.py:191-218 | a reply without `data` or `data.properties` raises "Failed to retrieve meters". When `data.properties` is found and iterable, the result is the property loop over it, errors included |
| Accounts.MetersSpec | custom_components/eonha/eon_api.py:145-218 | a token that tests False raises before sending and one whose test raises passes that error on. With a valid token, a transport error passes through and a reply gives `MetersReply` of it |
| Accounts.CollectPointMeters | custom_components/eonha/eon_api.py:197-216 | the meter-point and meter loops of one kind append what the point loop specifies |
| Accounts.PointsFromBuilds | custom_components/eonha/eon_api.py:197-216 | the loops over one kind's meter points keep what was collected and append one meter per (point, meter), in order |
| Accounts.PropertiesFromBuilds | custom_components/eonha/eon_api.py:195-216 | the property loop keeps what was collected and appends one meter per (property, point, meter), in order |
| Accounts.MetersReplyFlattens | custom_components/eonha/eon_api.py:194-218 | the meter list is the meter tree flattened: property by property, electricity before gas, each meter built from its own dict and meter point |
| Accounts.MetersReplySucceeds | custom_components/eonha/eon_api.py:191-218 | the converse: when `data.properties` and every nested list iterate and every meter slot builds, `get_meters` succeeds with the flattened meter list |
| Accounts.MetersReplyNeeds | custom_components/eonha/eon_api.py:191-218 | a successful `get_meters` found every nested list iterable and built every meter slot, so `MetersReplySucceeds` covers every success |
| Accounts.SlotKinds | custom_components/eonha/eon_api.py:199-211 | every flattened meter is tagged "electricity" or "gas" |
| Accounts.MetersReplyKinds | custom_components/eonha/eon_api.py:199-216 | every meter `get_meters` returns has type "electricity" or "gas" |
| Consumption.PageVariables | custom_components/eonha/eon_api.py:346-351 | every page request has the account number and the window start; it has `after` exactly when the cursor is truthy, and then `after` is the cursor; it has no other variables |
| Consumption.ClassifyEdge | custom_components/eonha/eon_api.py:379-395 | a falsy edge, or a dict edge with a missing or falsy node, is skipped. A node whose `startAt` is a non-empty string not after the end bound is kept, and only such a node. The loop stops exactly at a node whose `startAt` is after the end bound. It raises exactly on a truthy non-dict edge or a node that cannot be read |
| Consumption.EdgesFromGrows | custom_components/eonha/eon_api.py:379-395 | the edge loop keeps the records it was given and appends only in-window records |
| Consumption.InWindowNodes | custom_components/eonha/eon_api.py:379-395 | the nodes kept from a run of edges are all in the window |
| Consumption.EdgesFromStopsAtFirstPastEnd | custom_components/eonha/eon_api.py:379-395 | the edge loop appends exactly the in-window nodes before the first node past the end bound, in order; it reports a stop exactly when there is such a node |
| Consumption.MatchedMeter | custom_components/eonha/eon_api.py:371-402 | a matched meter without consumption clears `has_next_page` and nothing else. Otherwise the records are those of the edge loop. `has_next_page` stays true only if it was, the loop did not stop, and `pageInfo.hasNextPage` is truthy. The cursor is `pageInfo.endCursor` |
| Consumption.MatchedMeterGrows | custom_components/eonha/eon_api.py:371-402 | a matched meter keeps the collected records, appends only in-window ones, and never sets `has_next_page` back to true |
| Consumption.MeterMatches | custom_components/eonha/eon_api.py:370 | a meter matches exactly when it is a truthy dict whose `id` (or `None` when missing) equals the wanted id; it raises exactly on a truthy non-dict |
| Consumption.MetersFromGrows | custom_components/eonha/eon_api.py:369-402 | the meter loop of one agreement only grows the records and never re-enables paging |
| Consumption.AgreementsFromGrows | custom_components/eonha/eon_api.py:362-402 | the same for the agreements loop of one page |
| Consumption.ProcessPage | custom_components/eonha/eon_api.py:355-402 | a reply without `data` or `data.account` ends the fetch with the records it has |
| Consumption.ProcessPageGrows | custom_components/eonha/eon_api.py:355-402 | a page only grows the records with in-window ones and never re-enables paging |
| Consumption.FetchSpec | custom_components/eonha/eon_api.py:333-404 | every record a fetch returns is a dict whose `startAt` is a non-empty string not after the end bound. The records are exactly, reply by reply in the order sent, what each reply contributes (`NodesBetween`). No more requests are sent than there are replies |
| Consumption.PaginateFromGrows | custom_components/eonha/eon_api.py:338-404 | from any point of the page loop, the records collected so far stay in place and every record added is in the window |
| Consumption.UnmatchedPageChangesNothing | custom_components/eonha/eon_api.py:359-402 | a page none of whose agreements lists the meter leaves the records, `has_next_page` and the cursor unchanged |
| Consumption.KeptNode | custom_components/eonha/eon_api.py:379-395 | one edge contributes its node exactly when the edge is a dict whose node is in the window |
| Consumption.MatchedMeterNodes | custom_components/eonha/eon_api.py:371-395 | a matched meter adds exactly the in-window nodes of its edges before the first node past the end bound |
| Consumption.MetersFromNodes | custom_components/eonha/eon_api.py:369-402 | the meter loop adds exactly the nodes of the first meter with the wanted id |
| Consumption.AgreementsFromNodes | custom_components/eonha/eon_api.py:362-402 | the agreements loop adds the nodes of each agreement's matching meter, agreement by agreement |
| Consumption.ProcessPageNodes | custom_components/eonha/eon_api.py:355-402 | a page that ends the fetch has no agreements list of the meter's type under `data.account`; a page that goes on adds exactly the nodes of its agreements, agreement by agreement |
| Consumption.PaginateFromRecords | custom_components/eonha/eon_api.py:338-404 | from any point of the page loop, the records returned are those collected so far followed by what each later reply contributes |
| Consumption.RepeatedPageNeverEnds | custom_components/eonha/eon_api.py:338-402 | while the server answers with a page that changes nothing, the loop sends the same request, with the same cursor and the same record count, until the replies run out; it never ends on its own |
| Consumption.PaginateFromSends | custom_components/eonha/eon_api.py:338-353 | the requests sent from any point of the loop keep the earlier ones. They are numbered on from them, all carry the query's operation, account and start date, and have non-decreasing progress counts. The next one carries the current cursor |
| Consumption.FetchSends | custom_components/eonha/eon_api.py:333-353 | the requests of a fetch are pages 1, 2, … of one operation, account and start date. The first has no `after`. The progress counts never decrease |
| Consumption.CollectEdges | custom_components/eonha/eon_api.py:379-395 | the edge loop computes what `EdgesFrom` specifies |
| Consumption.ScanMeters | custom_components/eonha/eon_api.py:369-402 | the meter loop, with its `break` after the first match, computes what `MetersFrom` specifies |
| Consumption.ScanAgreements | custom_components/eonha/eon_api.py:362-402 | the agreements loop computes what `AgreementsFrom` specifies |
| Consumption.ReadPage | custom_components/eonha/eon_api.py:355-402 | one page is read as `ProcessPage` specifies |
| Coordinator.Insert | custom_components/eonha/coordinator.py:78 | inserting a record adds exactly that record: one more element, and the same multiset plus it |
| Coordinator.SortDesc | custom_components/eonha/coordinator.py:78 | the sort is a permutation of the records |
| Coordinator.InsertBounded | custom_components/eonha/coordinator.py:78 | insertion keeps every `startAt` under a common bound |
| Coordinator.InsertSorted | custom_components/eonha/coordinator.py:78 | insertion into a list sorted latest-first keeps it sorted |
| Coordinator.SortDescSorted | custom_components/eonha/coordinator.py:78 | `sort(key=startAt, reverse=True)` orders the records latest first |
| Coordinator.SortDescHead | custom_components/eonha/coordinator.py:78-79 | the head of the sorted list is the first record, in fetch order, with the latest `startAt` (the sort is stable) |
| Coordinator.LatestReading | custom_components/eonha/coordinator.py:73-79 | `latest_reading` is `None` exactly when the fetch returned no records. Otherwise it is the first record with the latest `startAt` |
| Coordinator.CycleReadLatest | custom_components/eonha/coordinator.py:62-79 | a meter's reading in a cycle succeeds exactly when its fetch over the last seven days ended normally. Every fetched record then has a string `startAt`, so the sort never raises, and the reading is the latest record. A fetch that raised fails with its error; one that ran out of replies runs out |
| Coordinator.CycleSpec | custom_components/eonha/coordinator.py:41-91 | a valid token is kept; an invalid one is replaced by what login stores; a login that returns False fails the cycle with "Error communicating with API: Failed to re-authenticate with E.ON Next"; every failure carries the prefix. What each outcome is made of is stated by `CycleSucceeds`, `CycleOfOutcome`, `CycleFailures` and `UpdatedEntries` |
| Coordinator.EntriesFromPairs | custom_components/eonha/coordinator.py:58-86 | the meter loop keeps the entries it was given and appends one entry per meter, in order. Each entry holds that meter, the account and the latest record of that meter's own fetch |
| Coordinator.AccountsFromPairs | custom_components/eonha/coordinator.py:55-86 | the account loop succeeds only when every account's meter list was obtained. It appends one entry per (account, meter) pair, account by account, each built from its own fetch |
| Coordinator.OutcomePairs | custom_components/eonha/coordinator.py:55-88 | a successful account loop returns exactly one entry per listed (account, meter) pair, in order |
| Coordinator.UpdatedEntries | custom_components/eonha/coordinator.py:41-91 | a successful cycle means the accounts query and every meters query succeeded. Its `meters` list has one entry per (account, meter) pair, each from that meter's fetch over `fmt(now - 7 days)`..`fmt(now)`; no failure leaves a partial list |
| Coordinator.CycleSucceeds | custom_components/eonha/coordinator.py:41-91 | the converse: a cycle that logs in, gets its accounts and every meter list, and fetches every listed meter to the end updates with one entry per (account, meter) pair, in order |
| Coordinator.CycleOfOutcome | custom_components/eonha/coordinator.py:53-91 | once logged in with an account list, the cycle ends as its account loop does: the entries, the loop's exception behind the prefix, or the replies running out |
| Coordinator.CycleFailures | custom_components/eonha/coordinator.py:43-91 | an exception from the token test, the login or the accounts query fails the cycle with the prefix followed by that exception's message |
| Coordinator.AccountsFromSucceeds | custom_components/eonha/coordinator.py:55-86 | the account loop succeeds when every meter list and every listed meter's reading does, with one entry per pair in order |
| Coordinator.EntriesFromSucceeds | custom_components/eonha/coordinator.py:58-86 | the meter loop of one account succeeds when every reading does, with one entry per meter in order |
| Coordinator.AccountsFromAborted | custom_components/eonha/coordinator.py:55-91 | the account loop aborts only with the exception of some account's meters query or of some listed meter's reading |
| Coordinator.EntriesFromAborted | custom_components/eonha/coordinator.py:58-86 | a meter loop that aborts names the meter whose reading failed with that exception |
| Coordinator.EonNextCoordinator.constructor | custom_components/eonha/coordinator.py:21-39 | keeps the client and the credentials; the meter list starts empty |
| Coordinator.EonNextCoordinator.MeterEntries | custom_components/eonha/coordinator.py:58-86 | the meter loop of one account computes what `EntriesFrom` specifies |
| Coordinator.EonNextCoordinator.AccountEntries | custom_components/eonha/coordinator.py:56-86 | one pass of the account loop computes what `AccountStep` specifies |
| Coordinator.EonNextCoordinator.AccountLoop | custom_components/eonha/coordinator.py:55-86 | the account loop computes what `CycleOutcome` specifies |
| Coordinator.EonNextCoordinator.AsyncUpdateData | custom_components/eonha/coordinator.py:41-91 | the new token fields and the cycle's end are `CycleSpec` of the old fields |
| Sensor.NewSensor | custom_components/eonha/sensor.py:38-55 | keeps the meter's serial, type and id. The unique id is `UniqueId` and the name is `Name` of the serial's text and the type. The unit is kWh for every type |
| Sensor.KindNames | custom_components/eonha/sensor.py:46 | the two meter types' sensors are named "E.ON Next Electricity (serial)" and "E.ON Next Gas (serial)" |
| Sensor.UniqueIdInjective | custom_components/eonha/sensor.py:47 | for the types "electricity" and "gas", the unique id determines both the serial text and the type |
| Sensor.FindEntry | custom_components/eonha/sensor.py:61-64 | finds the first entry whose meter has the serial; nothing is found exactly when no entry has it |
| Sensor.NativeValue | custom_components/eonha/sensor.py:57-67 | `None` when no entry has the serial or the first one has no truthy reading; otherwise the reading's `value`, with its `KeyError` when it has none |
| Sensor.ExtraStateAttributes | custom_components/eonha/sensor.py:69-84 | always holds `meter_serial`, `meter_type` and `meter_id`. It holds `reading_start` and `reading_end` exactly when the current entry has a truthy reading; they equal its `startAt` and `endAt`, and a missing one raises. There are no other keys |
| Sensor.FirstEntryWins | custom_components/eonha/sensor.py:61-75 | the entries before the first with the serial, and every entry after it, do not change either readout |
| Sensor.OwnEntry | custom_components/eonha/sensor.py:41-64 | a sensor built from an entry reads that entry back, unless an earlier entry has the same serial |

## Left out

- The HTTP transport (`_graphql_request` after the guard), the base URL and the GraphQL query texts are left out. Each reply is a parameter: a decoded JSON body, or the exception raised while getting it.
- The login request's variables (e-mail and password) are left out. The model takes the login reply from the `Server` record, and keeps the credentials only as fields of the coordinator.
- `_current_timestamp` and `datetime.now()` are one `now` per call and per cycle. `strftime` is the parameter `fmt`.
- Consumption.FetchSpec: a fetch whose `has_next_page` is still true when the given replies run out ends as `Exhausted`. The source would send another request; the model has no reply to give it. In a cycle this ending is `PagesRanOut`.
- The progress callback is left out. Each `Sent` records the arguments it would receive, and only for requests that were sent.
- `float()` of the reading's `value` is left out. The value is returned as it is.
- Home Assistant glue is left out: `async_setup_entry`, the entity base classes, device and state classes, the update interval, logging, and the framework storing the cycle's result in `data`.
- The other files are not part of this model: `config_flow.py`, `__init__.py` and `check_connection.py`. `const.py` supplies only the domain name. From `tests/test_basic.py`, the successful login reply is stated as a lemma; the failing test relies on the transport raising, which `LoginSpec` re-raises as "Login failed: …".
- `known_meters` (coordinator.py:39) is never read, so it is left out.
- `coordinator.py` imports the client from the `eonapi` package. The model takes that client to be `eon_api.py`.
- JSON numbers are integers. Python's cross-type equality (`True == 1`) is not modelled; equality is structural.
- `str()` of a list or dict (a serial or token that is not a scalar) is the empty string in the model.
- A `for` loop over a dict is modelled by at most its key `""` and one other key. Every loop in the core fails on a non-empty string key with the same message, so outcomes agree.
- `capitalize` changes ASCII letters only.
- Strings.LessEq: string order matches time order only for timestamps of one format. `LessEqSameSuffix` shows this for the fixed `+00:00` suffix. A server `startAt` in another format is compared as text, as the source does.
- `refresh_token`, `refresh_expires` and `_is_refresh_token_valid` are modelled, but nothing in the core uses the refresh token.
