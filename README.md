# open-octopus snapshot engine, modelled in Dafny

open-octopus reads an Octopus Energy account and shows it in two places. One is a macOS menu
bar app. The other is a JSON server that a display client drives over standard input and
output. This project models the logic that turns already-fetched provider data into the
state these two show:

- the rate engine: off-peak or peak for a time of day on the fixed 23:30-05:30 window, the end
  of the current pricing period, and the rate with its 7p/30p fallbacks;
- the tariff's unit-rate parsing;
- the dispatch status and the saving-session filter, each after its start-ordered sort;
- the 55-minute token cache;
- the walk that discovers the smart meter device;
- usage bucketing by day, hour and half-hour slot, with the day cost estimate, the off-peak
  share and the monthly projection;
- the menu bar's sparkline, its 60-reading live-power buffer, the countdowns, the title and
  the refresh;
- the server's snapshot, the answer to a question, and its command loop.

Modules follow the source:

- `Common` holds shared vocabulary.
- `Rates`, `Dispatches`, `SavingSessions`, `Auth` and `MeterDiscovery` model `client.py`.
- `Usage` models the consumption block of both front ends.
- `Sparkline` and `MenuBar` model `menubar.py`.
- `Snapshot` and `CommandLoop` model `menubar_server.py`.

Modelling conventions:

- Instants are integer local seconds. A day is `t / 86400` and a second of the day is
  `t % 86400`.
- Consumption samples arrive with their day, hour and minute already split out.
- kWh, pence and pounds are exact reals.
- Python's `x or default` is `OrDefault`, so a rate of 0 also falls back.
- A provider call that may raise is a `Result`.
- `_get_token`, `_update_title` and `_refresh` update the fields of a class.
- The loops of the source are `while`/`for` loops. Each is proved either against a reference
  function or, for the dispatch status, against quantified postconditions that say which
  dispatch is current and which is next.

Behaviour of the code worth knowing, which the model follows:

- Dispatch containment includes the end instant (`start <= now <= end`, src/open_octopus/client.py:401).
- An unknown command gets an `Unknown command: ...` error line; it is not ignored
  (src/open_octopus/menubar_server.py:386).
- On an exception, `fetch_data` returns the fields filled so far, plus `error`. It does not
  return an error-only envelope (src/open_octopus/menubar_server.py:252-253).
- The server's `hourly_usage` and `half_hourly_usage` are always the latest day's full 24 and
  48 entries when that day has data. The day before is appended first and then cut away by
  `[-24:]`/`[-48:]` (src/open_octopus/menubar_server.py:223, 234).
- The menu bar records a live reading on every one-second title tick. So its 60 readings
  cover about a minute, not the "~1hr at 30s intervals" of the comment at src/open_octopus/menubar.py:194.

## Model

| member | source | states |
|---|---|---|
| Common.OrDefault | src/open_octopus/client.py:329-342 | `x or default`: a present non-zero value is kept; a missing value or 0 gives the default |
| Common.LastN | src/open_octopus/menubar.py:193-195 | `s[-n:]`: at most `n` elements, exactly the final ones of `s` in order |
| Common.SortBy | src/open_octopus/client.py:384 | `sorted(..., key=...)`: the result is ordered by the key and is a permutation of the input |
| Rates.LastOfKindMeaning | src/open_octopus/client.py:287-294 | the value kept for a class is one of that class that no later entry of the class overwrites; no value exactly when no entry has that class |
| Rates.ParseRates | src/open_octopus/client.py:283-294 | looks at no more than the first four results; off-peak/peak rates are the last value below/not below 15 among them; the `rates` map has exactly those two keys and equal values |
| Rates.GetTariff | src/open_octopus/client.py:260-305 | no agreement gives no tariff; otherwise the first agreement's name, product code and standing charge, with their defaults, plus the parsed rates and the fixed 23:30/05:30 window; the `rates` map has an `off_peak`/`peak` key exactly when that rate was found, holding that rate, and no other key; a failed rate fetch counts as no results |
| Rates.MinuteOfDay | src/open_octopus/client.py:318 | the `%H:%M` reading of an instant is a minute of the day in 0..1439 |
| Rates.CurrentRate | src/open_octopus/client.py:317-343 | off-peak iff the minute of day is at or after 23:30 or before 05:30; the rate is the matching tariff rate with its 7.0/30.0 fallback, and the next rate is the other one; the period ends strictly after `now`, within 6 h (off-peak) or 18 h (peak), at 05:30 after off-peak and at 23:30 after peak |
| Rates.PeriodEndIsNextSwitch | src/open_octopus/client.py:321-337 | every instant from `now` up to the period end keeps `now`'s classification, and the period end itself has the other one |
| Rates.PeakEndIsToday | src/open_octopus/client.py:335-337 | in peak time, the period end is always 23:30 of the same day, so the "move to tomorrow" correction never changes it |
| Rates.RateEndsInSeconds | src/open_octopus/menubar_server.py:113-115 | `rate_ends_in_seconds` is never negative: it is the remaining seconds before the period end and 0 from then on |
| Dispatches.Parsed | src/open_octopus/client.py:373-382 | a slot is kept exactly when some delivered entry has both times, with the source defaulting to `smart-charge` |
| Dispatches.ParseDispatches | src/open_octopus/client.py:373-384 | the parse loop followed by the sort gives the sorted well-formed entries: the slots come out ordered by start; they are a permutation of the well-formed entries, and malformed entries are skipped |
| Dispatches.GetDispatchStatus | src/open_octopus/client.py:396-410 | dispatching iff some slot contains `now`, with both ends inclusive; the current dispatch is the last containing slot in list order; the next dispatch is the first slot that starts after `now`, it never contains `now`, and on a sorted list it is the earliest such slot |
| SavingSessions.UpcomingMembers | src/open_octopus/client.py:445-459 | a session is collected exactly when some delivered event has both times and ends after `now` |
| SavingSessions.GetSavingSessions | src/open_octopus/client.py:442-461 | exactly the well-formed events ending after `now`, each as often as delivered and sorted by start; malformed events are skipped |
| Auth.OctopusClient.constructor | src/open_octopus/client.py:75-78 | a new client holds no token and no expiry |
| Auth.CacheHit | src/open_octopus/client.py:77-78 | no cache hit without a token, with an empty token, without an expiry, or at or after the expiry |
| Auth.OctopusClient.GetToken | src/open_octopus/client.py:75-102 | a non-empty unexpired token is returned and nothing changes; otherwise the answered token is stored with expiry 55 minutes after the answer; a refusal raises and leaves the cache as it was |
| Auth.TokenReusedUntilExpiry | src/open_octopus/client.py:77-78 | a non-empty token fetched at `t` is reused exactly while `now < t + 3300` |
| MeterDiscovery.FirstHitIsSomeStep | src/open_octopus/client.py:548-553 | the walk over one list: nothing on an empty list, and any result it stops at is the step's result on one of the list's elements |
| MeterDiscovery.StepDevice | src/open_octopus/client.py:552-553 | a device answers its id exactly when the id is present and non-empty, and never faults |
| MeterDiscovery.StepMeter | src/open_octopus/client.py:551-553 | a null device list faults; any id found is non-empty |
| MeterDiscovery.StepMeterPoint | src/open_octopus/client.py:550-553 | a null meter list faults; any id found is non-empty |
| MeterDiscovery.StepProperty | src/open_octopus/client.py:549-553 | a null meter-point list faults; any id found is non-empty |
| MeterDiscovery.Discover | src/open_octopus/client.py:546-557 | no properties, or an empty list of them, give no device; any device id answered is non-empty |
| MeterDiscovery.DiscoverMeterDevice | src/open_octopus/client.py:546-557 | the nested walk with early returns equals the reference walk; any id it answers is non-empty; on a tree with no null list it is the first non-empty device id in walk order |
| MeterDiscovery.DiscoverFindsFirstId | src/open_octopus/client.py:548-553 | on a tree with no null list, the walk answers the first non-empty id of all devices in property, meter point, meter and device order |
| MeterDiscovery.FirstNonEmptyIsMember | src/open_octopus/client.py:552-553 | the answered id is a non-empty id some device carries; there is no answer exactly when every device id is missing or empty |
| Usage.SlotOf | src/open_octopus/menubar_server.py:179 | the half-hour slot lies in 0..47; its half is the hour, and it is odd exactly when the minute is 30 or later |
| Usage.LastInSlotMeaning | src/open_octopus/menubar_server.py:182 | a slot's value is the reading of the newest sample in that slot, and there is none exactly when no sample falls in the slot |
| Usage.DailyUsage | src/open_octopus/client.py:215-220 | one key per day with data, each holding the sum of that day's readings |
| Usage.BucketSamples | src/open_octopus/menubar_server.py:175-182 | the three dictionaries have exactly the days with data as keys; daily and hourly values are sums of the readings; a half-hour slot holds only the newest reading in it |
| Usage.OffPeakHoursCoverWindow | src/open_octopus/menubar_server.py:267-268 | every second of the 23:30-05:30 window falls in an hour the estimate counts as off-peak; the estimate over-counts exactly 23:00-23:30 and 05:30-06:00 |
| Usage.HourSplit | src/open_octopus/menubar_server.py:268-269 | the seven counted hours add up to the day's off-peak readings, and the day's total is off-peak plus peak readings |
| Usage.PricedSplit | src/open_octopus/menubar_server.py:274 | pricing each reading at its hour's rate equals off-peak kWh times the off-peak rate plus peak kWh times the peak rate |
| Usage.SplitNonNegative | src/open_octopus/menubar_server.py:268-269 | with non-negative readings, the off-peak and peak kWh are non-negative |
| Usage.OffPeakEstimateIsOffPeakReadings | src/open_octopus/menubar_server.py:268 | the estimate's seven hours hold exactly the day's off-peak readings, and with non-negative readings this lies between 0 and the total |
| Usage.DayCost | src/open_octopus/menubar_server.py:257-277 | without a tariff, the kWh at 0.245 pounds; with one, in pence, all kWh at the peak rate less the off-peak estimate's saving, plus the standing charge |
| Usage.DayCostIsPricedReadings | src/open_octopus/menubar_server.py:257-277 | with a tariff, the cost is the day's readings, each priced at its hour's rate, plus the standing charge, all in pounds |
| Usage.PricedCostSplit | src/open_octopus/menubar_server.py:268-276 | the priced-readings cost equals the off-peak/peak formula of `_calculate_cost` |
| Usage.LatestDay | src/open_octopus/menubar_server.py:184-192 | the latest day with data (or the latest one before a bound); there is none exactly when no sample qualifies |
| Usage.DisplayDays | src/open_octopus/menubar_server.py:184-196 | the display today is the most recent day with data, else the calendar today; the display yesterday is the second most recent day, else the calendar yesterday |
| Usage.Range | src/open_octopus/menubar_server.py:216-222 | the values at keys `lo..hi-1`, with missing keys as 0 |
| Usage.Bars | src/open_octopus/menubar_server.py:217-218 | the bar loop yields `hour.get(h, 0)` for each `h` in the range, in order |
| Usage.TwoDayBars | src/open_octopus/menubar_server.py:214-234 | when the latest display day has data, its full 24 (or 48) bars; else the other day's; else none |
| Usage.Projection | src/open_octopus/menubar_server.py:246-250 | thirty times yesterday's cost if positive, else thirty times today's if positive, else 0; never negative |
| Usage.DayFigures | src/open_octopus/menubar_server.py:202-212 | the day's kWh is the sum of its readings; the cost is kWh times 0.245 with no tariff, the priced readings with one, and 0 for a day without data |
| Usage.OffPeakPercentage | src/open_octopus/menubar_server.py:236-244 | set only when today's kWh is positive, as the off-peak share of it in percent; with non-negative readings it lies in 0..100 |
| Usage.UsageBlock | src/open_octopus/menubar_server.py:166-250 | the whole consumption block: the display days, both days' kWh and cost, the latest day's 24 hourly and 48 half-hourly bars, the off-peak share and the projection, and the defaults when there are no samples |
| Sparkline.SeqMin | src/open_octopus/menubar.py:155 | `min(values)`: a member no larger than any value |
| Sparkline.SeqMax | src/open_octopus/menubar.py:156 | `max(values)`: a member no smaller than any value |
| Sparkline.Trunc | src/open_octopus/menubar.py:166 | `int(x)` truncates toward zero |
| Sparkline.Level | src/open_octopus/menubar.py:157-166 | the block index of a value between the minimum and the maximum is one of the eight blocks, 0..7 |
| Sparkline.LevelMonotone | src/open_octopus/menubar.py:165-166 | a value no larger than another never gets a higher block index |
| Sparkline.Window | src/open_octopus/menubar.py:159-161 | the values drawn are the last `width` ones, or all of them when there are no more than `width` |
| Sparkline.Sparkline | src/open_octopus/menubar.py:146-170 | empty input gives the empty string; otherwise one character per drawn value, i.e. `min(len(values), width)` characters |
| Sparkline.SparklineBlocks | src/open_octopus/menubar.py:152-167 | every character is one of the eight blocks |
| Sparkline.SparklineMonotone | src/open_octopus/menubar.py:163-167 | a smaller or equal value never gets a higher block than a larger one |
| Sparkline.SparklineFlat | src/open_octopus/menubar.py:157 | when all values are equal, every character is the lowest block |
| Sparkline.SparklineAt | src/open_octopus/menubar.py:155-167 | each character is the block of its window value on the scale of the minimum and maximum of all values |
| Sparkline.WindowKeepsWholeScale | src/open_octopus/menubar.py:155-161 | the minimum and maximum are taken before the window is cut: each character of a narrow sparkline equals the character the same value gets in the sparkline of all values |
| Sparkline.MakeSparkline | src/open_octopus/menubar.py:146-170 | the character-by-character loop builds exactly the reference sparkline |
| MenuBar.Countdown | src/open_octopus/menubar.py:222-223 | `0 <= mins < 60` and `hours*3600 + mins*60 <= secs < hours*3600 + mins*60 + 60` |
| MenuBar.CountdownUnique | src/open_octopus/menubar.py:233-235 | these hours and minutes are the only split of the wait, so the countdown is determined by the wait |
| MenuBar.CostPerHour | src/open_octopus/menubar.py:188 | `(watts / 1000) * rate`: the cost times 1000 is watts times the rate, and it is non-negative for a non-negative reading and rate |
| MenuBar.DispatchLineOf | src/open_octopus/menubar.py:207-230 | charging until the current slot's end, or charging now without one; otherwise a countdown to the next slot's start, and only when that start is still ahead; "No scheduled charge" exactly when there is no status, or not dispatching and no next slot ahead |
| MenuBar.SessionLineOf | src/open_octopus/menubar.py:245-257 | only the first session counts: "free until" its end when active, "free from" its start to its end when upcoming, else hidden |
| MenuBar.TitleParts | src/open_octopus/menubar.py:184-254 | the title parts with a tariff: one for the rate plus one per present condition, ending with the rate, the free marker first when a session is active |
| MenuBar.TitlePartsShape | src/open_octopus/menubar.py:184-254 | the free marker is present iff a session is active, the power iff a reading is present, charging iff dispatching |
| MenuBar.AsReals | src/open_octopus/menubar.py:198 | the watts readings passed to the sparkline, unchanged as numbers |
| MenuBar.ReplayKeepsLastReadings | src/open_octopus/menubar.py:193-195 | after any number of readings, the buffer holds the last 60 of everything seen, in arrival order |
| MenuBar.HourlyWindow | src/open_octopus/menubar.py:400-413 | the hourly bars are always 25 entries: yesterday's totals from the current hour to 23, then today's from 0 to the current hour |
| MenuBar.HourlyBars | src/open_octopus/menubar.py:407-413 | the two bar loops build exactly that window |
| MenuBar.ConsumptionBlock | src/open_octopus/menubar.py:384-427 | the latest day with data and its kWh; the cost by priced readings with a tariff and a latest day, else kWh times 0.245; the 25-entry window with at least two days of data, else no bars |
| MenuBar.HourlyWindowHas25Bars | src/open_octopus/menubar.py:400-413 | with at least two days of data, there are exactly 25 bars; today's run starts at index `24 - currentHour` with hour 0 and ends with the current hour |
| MenuBar.MenuBarApp.constructor | src/open_octopus/menubar.py:76-87 | the app starts with no tariff, dispatch, sessions, live reading or refresh, zero balance and figures, and empty bars and buffer |
| MenuBar.MenuBarApp.RecordLiveReading | src/open_octopus/menubar.py:193-195 | the buffer becomes the last 60 of the old buffer plus the reading, it never holds more than 60, and it ends with the reading |
| MenuBar.MenuBarApp.UpdateLive | src/open_octopus/menubar.py:184-205 | with a reading: its line with the cost per hour at the current rate, the reading recorded, and the sparkline of the last 30 readings once there are 3; without one, nothing is recorded and both items are hidden |
| MenuBar.MenuBarApp.UpdateSparkline | src/open_octopus/menubar.py:197-202 | the sparkline item is shown, over the buffer at width 30, exactly when the buffer holds at least 3 readings |
| MenuBar.MenuBarApp.UpdateLines | src/open_octopus/menubar.py:207-257 | the dispatch, rate-countdown and saving-session items for the tick |
| MenuBar.MenuBarApp.AssembleTitle | src/open_octopus/menubar.py:174-263 | with no tariff the parts are empty and the title is "Loading"; otherwise the title is the parts in display order |
| MenuBar.MenuBarApp.UpdateTitle | src/open_octopus/menubar.py:172-268 | without a tariff, only the title (loading) and the refresh age change; with one, the live reading and sparkline, the three items with their countdowns, and the title assembled from them |
| MenuBar.MenuBarApp.Refresh | src/open_octopus/menubar.py:364-433 | the provider calls run in order; each field is set when its call and all calls before it returned, and keeps its old value otherwise; the consumption fields follow the consumption block; the refresh time is stamped only when every step returned |
| Snapshot.InitialSnapshot | src/open_octopus/menubar_server.py:59-92 | the snapshot at `timestamp` with nothing fetched: no live power, rate, balance, dispatch, session, charge history or charger, usage defaults without the half-hourly key, and neither an error nor an answer |
| Snapshot.BaseResponse | src/open_octopus/menubar_server.py:279-314 | the base response carries neither an error nor an answer |
| Snapshot.BaseResponseMatchesSnapshot | src/open_octopus/menubar_server.py:59-92 | the base response has the same defaults as the initial snapshot, plus the half-hourly key; its off-peak window is the rate engine's |
| Snapshot.HandleAsk | src/open_octopus/menubar_server.py:316-338 | exactly one of `response` and `error` is set: the answer, the agent's exception message, or the not-installed message; everything else is the base response |
| Snapshot.BalanceOf | src/open_octopus/menubar_server.py:97-99 | `balance` is the non-negative magnitude, `balance_is_credit` holds iff the raw balance is positive, and the raw balance can be recovered from both |
| Snapshot.BalanceOfInjective | src/open_octopus/menubar_server.py:98-99 | two raw balances with the same balance fields are equal |
| Snapshot.DispatchFieldsOf | src/open_octopus/menubar_server.py:118-127 | "charging" iff dispatching, with the end only when there is a current slot; "scheduled" iff not dispatching with a next slot, with both next times set exactly then; "none" otherwise |
| Snapshot.TruncDiv | src/open_octopus/menubar_server.py:140 | `int(a / b)` truncates the quotient toward zero |
| Snapshot.ChargeRecordOf | src/open_octopus/menubar_server.py:139-149 | a record keeps the charge's times and kWh; its duration is the whole minutes of a non-negative charge; its cost in pounds is kWh times the rate over 100 |
| Snapshot.ChargeRecords | src/open_octopus/menubar_server.py:134-150 | one record per completed charge, in order |
| Snapshot.ChargeHistory | src/open_octopus/menubar_server.py:139-150 | the loop builds exactly those records |
| Snapshot.SessionFieldsOf | src/open_octopus/menubar_server.py:158-164 | the session keys are set iff there is a session, from the first one; otherwise the defaults |
| Snapshot.RateFieldsOf | src/open_octopus/menubar_server.py:103-115 | `tariff_name` is the product code; the rates and standing charge are the tariff's; the current rate and off-peak flag come from the rate engine; the seconds left are `max(0, period_end - now)` for the rate engine's period end, so positive when measured no later than the rate reading and at most 18 hours when measured after it |
| Snapshot.ChargeRate | src/open_octopus/menubar_server.py:138 | charges are priced at the `off_peak_rate` key the rate step left, or 7p when it is missing or zero |
| Snapshot.FirstError | src/open_octopus/menubar_server.py:252-253 | there is no error exactly when every call returned (the consumption call counts only with a configured meter) |
| Snapshot.FetchData | src/open_octopus/menubar_server.py:57-255 | each key group holds what its step computed when every call before it returned, and its defaults otherwise; `error` is the first exception's message; the consumption keys follow the consumption block |
| CommandLoop.Strip | src/open_octopus/menubar_server.py:358 | `strip()` over every character `str.isspace` accepts: empty iff the line is all whitespace; otherwise the text between leading and trailing whitespace, starting and ending with a non-space |
| CommandLoop.Reply | src/open_octopus/menubar_server.py:362-386 | invalid JSON iff `Invalid JSON: <line>` is the reply; `refresh` iff a snapshot; `ask` with a non-empty question iff an answer to it; `ask` with a missing or empty question gives `Missing question`; any other command `Unknown command: <command>`; a JSON value that is not an object the `AttributeError` text for its type |
| CommandLoop.Respond | src/open_octopus/menubar_server.py:350-386 | no more replies than lines, and none once the first line ends the loop |
| CommandLoop.Run | src/open_octopus/menubar_server.py:340-389 | the loop writes one snapshot before reading anything, then the replies to the lines up to the end of input or `quit` |
| CommandLoop.NothingAfterEnd | src/open_octopus/menubar_server.py:354-356 | nothing after the end of input or `quit` changes the output |
| CommandLoop.BlankLinesIgnored | src/open_octopus/menubar_server.py:358-360 | a blank line anywhere changes nothing in the output |
| CommandLoop.OneReplyPerLine | src/open_octopus/menubar_server.py:362-386 | until the loop ends, every non-blank line gets exactly one reply, and there are no replies iff every line is blank |

## Left out

- Network I/O is not modelled: HTTP and GraphQL requests, response parsing, `get_account`,
  `get_consumption`, `get_live_power`, `get_smart_devices` and `get_completed_dispatches`.
  Their results are inputs. A call that raises is an `Err`.
- `SavingSession.is_active`/`is_upcoming` are defined outside the modelled files, so they are
  given as booleans.
- Timezones, daylight saving and `astimezone` are left out, and so is the naive-versus-aware
  comparison in `get_saving_sessions`. Every instant uses one local clock.
- Microseconds are left out: `replace(second=0)` keeps them, but instants here are whole
  seconds.
- `isoformat`/`strftime` strings are left out. Days are integers and instants are integer
  seconds. ISO dates sort in date order, so sorting them is taking a maximum.
- Float rounding (`round(..., n)`, float sums) is left out. Reals are exact, and properties are
  stated before rounding.
- `Common.SortBy` is proved ordered and a permutation. The stability of Python's sort is not
  stated.
- All UI is left out: emoji, `£`/`p` formatting and widths, `" │ ".join`, `_update_menu`, item
  hiding beyond the modelled lines, alerts, notifications, dialogs and the dashboard
  subprocess.
- Concurrency plumbing is left out: threads, `asyncio` loops, `run_in_executor`, timers, and
  `async with self.client`.
- JSON encoding and decoding are library calls, so input lines arrive already decoded. Only
  string-valued `command`/`question` keys are modelled. A null or numeric value, and the
  generic `except Exception` around a reply, are not.
- The agent (`OctopusAgent.ask`) and the `HAS_AGENT` import are given as an outcome: not
  installed, an answer, or an exception.
- `_output`/`print` of JSON to standard output: output lines are abstract values.
- Environment-variable credential loading, `sys.exit`, and `__init__.py` (which only
  re-exports names) are left out.
- MenuBar.MenuBarApp.UpdateTitle uses the tick's `now` for the "updated ago" age. The source
  reads the clock a third time there.
- Snapshot.FetchData uses `ChargeRecords` for the charge history. The loop is proved equal to
  it separately, in `Snapshot.ChargeHistory`.
- The menu bar's balance label is UI (`_update_menu`) and is not modelled.
