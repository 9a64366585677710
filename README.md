# vACC Ukraine slot tool — a verified model of its two flight stores

The slot tool has two small services that keep flight lists in memory:

- **The pilot panel (`index.php`).** Euroscope pushes the whole flight table as JSON (callsign, EOBT, TSAT, CTOT, …) and the table replaces the stored one. A pilot signs in with VATSIM. The panel finds the pilot's callsign from their CID in the live network feed and fetches that callsign's row. The pilot may then submit a manual TOBT (target off-block time) in HHMM form. A manual TOBT is kept across later Euroscope pushes of the same callsign. The panel shows the TSAT (with the CTOT) once one is allocated, and the TOBT until then.
- **The departure service (`server.py`).** Pilots file a callsign and an ISO-8601 departure time. Anyone lists the filings with the seconds left until departure. An authenticated ATC operator deletes filings by id.

The Dafny model has one module per component:

| file | module | models |
|---|---|---|
| `common.dfy` | `Common` | optional values, results, ASCII upper-casing of callsigns |
| `slot_table.dfy` | `SlotTable` | the flight table: Euroscope sync, pilot TOBT update, fetch (class `FlightTable`) |
| `pilot_login.dfy` | `PilotLogin` | the CID → callsign search over the live feed's pilots |
| `pilot_panel.dfy` | `PilotPanel` | the browser's HHMM check and its choice of TSAT or TOBT panel |
| `departures.dfy` | `Departures` | the departure store (class `DepartureStore`): filing, listing and deletion |

Both stores are classes whose methods update a `seq` field in place. Each method is proved against a specification function: `Merge`, `TobtUpdate`, `Lookup`, `NewDeparture`, `Without` and `Listing`. The lemmas beside those functions state what the source promises: the first match wins, the pushed order is kept, nothing else changes, a manual TOBT survives a push, deletion is idempotent, and the time left is clamped at zero.

Behaviour of the code that the model states and proves:

- **A push keeps the pushed callsign as it was sent.** The push looks up the stored row by the upper-cased pushed callsign, but stores the pushed flight with its original callsign. A row pushed with a lower-case callsign can therefore never be fetched, because every fetch upper-cases the request (`LowerCaseRowUnreachable`).
- **An update without a `tobt` clears the manual TOBT.** If `update_tobt` arrives without a `tobt` (or with `null`), the row's `manual_tobt` is set to null. The fetch then falls back to the EOBT. The model's `Option` argument carries this case.
- **Ids are `len(departures) + 1`.** They are therefore reused after a deletion (`IdReusedAfterDeletion`), and a later deletion of that id removes both records.
- **A departure time with a UTC offset is accepted but breaks every later listing.** `datetime.fromisoformat` accepts such a time. The listing then subtracts the naive `datetime.now()` from it, which raises a TypeError, so every listing fails until that filing is deleted (`OffsetFilingBreaksListing`).

## Model

| member | source | states |
|---|---|---|
| `Common.UpperChar` | index.php:120 | only the ASCII letters a-z change, each to its capital; the result is never a lower-case letter |
| `Common.Upper` | index.php:120 | `strtoupper`: same length, every character upper-cased in place |
| `Common.UpperIdempotent` | index.php:165 | upper-casing an upper-cased callsign changes nothing |
| `Common.NotUpperIsNoKey` | index.php:165-170 | a string that upper-casing changes is never the upper-cased form of any request |
| `SlotTable.MatchIndex` | index.php:122-127 | the `foreach … break` search: the index of the first row whose callsign is strictly equal to the key, None exactly when no row has it |
| `SlotTable.Merge` | index.php:116-133 | a push yields exactly the pushed flights, as many and in push order; every field except `manual_tobt` comes from the pushed flight |
| `SlotTable.SyncCarriesTobt` | index.php:120-131 | the merged flight takes the `manual_tobt` of the first stored row with the upper-cased pushed callsign when that row has one, and keeps its own otherwise |
| `SlotTable.SyncKeepsUnmatched` | index.php:120-131 | a pushed flight no stored row matches is stored unchanged, non-upper-cased callsign included |
| `SlotTable.LowerCaseRowUnreachable` | index.php:119-131 | a pushed row whose callsign is not upper-case keeps that callsign, and no upper-cased fetch key ever matches it |
| `SlotTable.TobtUpdate` | index.php:139-158 | "Flight not found" exactly when no row has the upper-cased callsign; otherwise only the first such row changes, only in `manual_tobt`, and the length is kept |
| `SlotTable.MatchIndexByCallsigns` | index.php:145-151 | the search reads callsigns only: tables that agree on callsigns give the same first match |
| `SlotTable.Lookup` | index.php:164-187 | `found: false` exactly when no row has the upper-cased callsign; otherwise the first such row, with TOBT = manual TOBT, else EOBT, else "----", and TSAT and CTOT defaulting to "----" |
| `SlotTable.UpdateThenFetch` | index.php:139-187 | after a successful TOBT update, fetching the same callsign finds the row and shows the new TOBT |
| `SlotTable.UpdateSurvivesSync` | index.php:116-151 | a manual TOBT set by a pilot is carried into every pushed flight whose upper-cased callsign is the pilot's |
| `SlotTable.TobtReadBackAfterSync` | index.php:116-187 | when the push lists the pilot's callsign upper-cased, fetching after the push shows the pilot's TOBT with the pushed TSAT and CTOT |
| `SlotTable.FlightTable.constructor` | index.php:26-29 | a new table is empty |
| `SlotTable.FlightTable.Find` | index.php:122-127 | the loop returns the first-match index that `MatchIndex` specifies |
| `SlotTable.FlightTable.Sync` | index.php:116-135 | the nested loops store exactly `Merge(old table, push)` |
| `SlotTable.FlightTable.UpdateTobt` | index.php:139-160 | the in-place loop with `found`/`break` answers success and stores `TobtUpdate`'s table, or answers "Flight not found" and leaves the table untouched |
| `SlotTable.FlightTable.Post` | index.php:112-161 | a non-empty list is a sync answering "synced"; `action = update_tobt` is an update; anything else answers no status and changes nothing; the request then falls through to the fetch check and the page |
| `SlotTable.FlightTable.Fetch` | index.php:164-188 | the fetch answers `Lookup` of the current table and changes nothing |
| `PilotLogin.CallsignForCid` | index.php:76-85 | the callsign of the first pilot whose CID equals the user's CID, None exactly when no pilot has it |
| `PilotLogin.LaterPilotsIgnored` | index.php:79-83 | pilots after the first with the CID never change the answer |
| `PilotPanel.IsHhmm` | index.php:435 | `/^\d{4}$/` accepts exactly the four-digit, zero-padded text of a number 0..9999; whatever it accepts is a time the panel shows |
| `PilotPanel.HhmmIsFormatOnly` | index.php:435-438 | the submit check accepts "1430" and also "9999"; it refuses "930", "14:30", "14300" and "----" |
| `PilotPanel.ChoosePanel` | index.php:413-418 | "not found" exactly for a `found: false` reply; the TSAT panel exactly when the TSAT is neither "" nor "----", carrying the CTOT only under the same test; otherwise the TOBT panel with the reply's TOBT; the reply's callsign heads every found panel |
| `PilotPanel.PanelHtml` | index.php:411-425 | the not-found text, and the "CS: callsign<br>" head of every found panel |
| `PilotPanel.PanelForRow` | index.php:410-418 | the panel for a stored row shows its TSAT when present and neither "" nor "----", adding the CTOT only under the same condition; otherwise the row's displayed TOBT |
| `PilotPanel.PanelForMissingRow` | index.php:424-425 | a callsign with no row gets the "not found" panel |
| `PilotPanel.PilotSeesSubmittedTobt` | index.php:410-459 | a valid HHMM submitted for a flight without TSAT is accepted by the table and then shown as the panel's TOBT, never as the "----" placeholder |
| `Departures.LeadingSpace` | server.py:65 | the length of the run of Python whitespace `s` starts with |
| `Departures.TrailingSpace` | server.py:65 | the length of the run of Python whitespace `s` ends with |
| `Departures.Strip` | server.py:65 | `str.strip()`: the slice of `s` between its leading and trailing whitespace; empty exactly when `s` is all whitespace |
| `Departures.NormalizeCallsign` | server.py:65 | the filed callsign is empty exactly when it is missing or all whitespace; it holds no lower-case ASCII letter and neither starts nor ends with whitespace; its contents are exactly the upper-cased `str.strip()` of the given text |
| `Departures.StripFirstIsSame` | server.py:65 | whitespace around a callsign makes no difference to the text filed |
| `Departures.NormalizeIdempotent` | server.py:65 | normalising a normalised callsign gives it back unchanged |
| `Departures.NewDeparture` | server.py:64-85 | "required" error when the normalised callsign is empty or the time is missing or empty; "invalid datetime" when the time does not parse; else the record with id = old length + 1, the normalised callsign, the given time and the filing time |
| `Departures.FilingKeepsIdsDense` | server.py:76-84 | while there are only filings, ids stay 1..n in order and so stay distinct |
| `Departures.Without` | server.py:94 | deletion never lengthens the list |
| `Departures.WithoutMembers` | server.py:94 | deletion keeps exactly the records whose id differs from the deleted id |
| `Departures.WithoutConcat` | server.py:94 | deletion distributes over concatenation, so the kept records stay in their order |
| `Departures.WithoutAbsent` | server.py:94 | deleting an id no record holds changes nothing |
| `Departures.WithoutIdempotent` | server.py:93-95 | deleting the same id twice is deleting it once |
| `Departures.IdReusedAfterDeletion` | server.py:76-94 | with ids 1..n (n ≥ 2), deleting id 1 and filing again hands out id n, which the last record still holds |
| `Departures.TimeRemaining` | server.py:49-55 | `max(0, departure − now)`: never negative, zero exactly when the departure is not in the future, else the exact difference |
| `Departures.Listing` | server.py:41-59 | succeeds exactly when every stored time parses without a UTC offset; then one view per record, in store order, copying id, callsign, departure time and filing time, with the clamped time left |
| `Departures.StoredTimesParse` | server.py:48-74 | a store whose times all parse never fails a listing for an unparseable time |
| `Departures.OffsetFilingBreaksListing` | server.py:44-74 | a filing whose time has a UTC offset is accepted, and the next listing fails |
| `Departures.DepartureStore.constructor` | server.py:8 | the store starts empty |
| `Departures.DepartureStore.AddDeparture` | server.py:61-85 | answers `NewDeparture`; on success exactly that record is appended and earlier records are unchanged; on error the store is unchanged; stored times keep parsing |
| `Departures.DepartureStore.DeleteDeparture` | server.py:87-95 | without the operator flag answers Unauthorized and changes nothing; with it, the loop stores `Without(old store, id)` |
| `Departures.DepartureStore.GetDepartures` | server.py:41-59 | the loop answers `Listing` of the store at `now` and changes nothing; a store whose times all parse (as filing keeps it) never fails the listing for an unparseable time |

## Left out

- HTTP, sessions, JSON and files: the Flask routes, templates and session cookies, and reading or writing `flights.json`. The table and the store are in-memory values; each route is one method.
- The VATSIM OAuth sign-in: the token and user requests, the redirects and the "flight not found" page (index.php:45-109, 89-96), and all of login.php. The live feed's pilot list is a parameter of `CallsignForCid`. A feed with no `pilots` key is the same as an empty list.
- The ATC password check and logout (server.py:24-39). Operator authentication is the boolean `authenticated` of `DeleteDeparture`.
- The clock: `now`, the seconds of `datetime.now()`, is a parameter of `GetDepartures`. The `filed_at` text, `datetime.now().isoformat()`, is a parameter of `AddDeparture`.
- ISO-8601 parsing: the store is given a function `parse` from a time text to an optional instant (whole seconds, and whether the text carried a UTC offset).
- `Departures.TimeRemaining`: in the source it is a float (`total_seconds()`), with sub-second precision. Here it is whole seconds.
- `Common.Upper`: changes only the ASCII letters. Python's `str.upper()` also upper-cases other letters, and can lengthen a string (`ß` becomes `SS`). PHP's `strtoupper` is ASCII-only from PHP 8.2.
- JSON values of the wrong type are not modelled. Examples: a `null` or other non-string callsign, which raises at server.py:65 (a 500, not a 400); a non-string time, which gets the 400 "required" reply when Python treats it as false (`0`, `false`, `[]`, `{}`) at server.py:68 and otherwise (`123`, `true`) raises at server.py:72 (a 500); a `null` first element of a push, and PHP's loose `==` between a numeric and a string CID.
- Row keys other than `callsign`, `manual_tobt`, `eobt`, `tsat` and `ctot`. The push copies them unchanged, and the update never touches them.
- The panel's DOM work: the clock, polling, `fetch` calls, alerts, and the TOBT input placeholder (index.php:192-476, except the two rules modelled).
- `PilotPanel.PanelHtml`: its contract states only the not-found text and the "CS: callsign<br>" head. Which parts follow the head is stated by `PanelForRow`, through the `Panel` value it chooses.
- Concurrent requests on the shared `departures` list, and check_setup.py, which only checks that files exist and prints.
