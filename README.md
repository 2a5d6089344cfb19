# Corrupted-zone schedule and alerts

A model, in Dafny, of the scheduling core of a small chat bot for Project
Diablo 2 "corrupted zones". Time is cut into 15-minute windows starting at the
Unix epoch. Each window gets a seed (windows elapsed plus days elapsed), one
step of the legacy linear congruential generator
`((seed * 214013 + 2531011) >> 16) & 32767` turns the seed into an index, and
the index modulo the table length picks the window's zone from a fixed table
of 37 zone names.

On top of that schedule the bot:

- answers a status command with the active window and the next four, each with
  a minute count. The "Active" and "Next" rows both show the active window's
  time left; later rows show the time until their window starts;
- polls every 30 seconds. It announces a target zone (Chaos Sanctuary, Cow
  Level, Stony Field and Tristram) once per window. It warns once, 10 minutes
  ahead, of the first Cow Level window within the next 300 windows. Two cells,
  the last announced seed and the last warned-of seed, keep each alert from
  repeating.

Modules:

- `Schedule` (schedule.dfy): the generator step, windows, seeds, `GetZone`, the
  5-window lookahead and the bounded scan for a zone (`FindFirst`, and the
  loop `FindNext` proved against it).
- `Status` (status.dfy): the minute arithmetic of the status command and the
  row-building loop.
- `Watcher` (watcher.dfy): the alert decision of one poll as a function `Step`,
  the class `ZoneWatcher` whose method `Tick` updates the two cells in place
  and returns the alerts instead of sending them, and the at-most-once
  theorems over runs of polls.
- `Wrappers` (wrappers.dfy): `Option`, for the empty cells and a scan that
  finds nothing.

Python's `//`, `>> 16` and `& 32767` on unbounded integers are floor division
by 60000/900000/86400000, floor division by 65536 and the non-negative
remainder modulo 32768; Dafny's `/` and `%` with a positive divisor compute
exactly these, for negative timestamps too. `NextPrngWrapInvariant` shows the
output is also unchanged if the generator state is kept in a wrapping 32-bit
or 64-bit register.

The zone table has 37 entries in pd2bot.py:27-63; the model uses the table as
written, so indices are taken modulo 37.

All schedule operations are functions of their inputs, so they are
deterministic by construction: the same instant and offset always give the
same zone, window start and seed.

The 300-window cap of the Cow Level scan is a safeguard that the schedule
does not reach in practice: Cow Level windows recur far more often than every
300 windows (the longest gap is under 200 windows; the model does not prove
this bound). The not-found path
(`CowCandidate` returning `None`, `NoCowNoWarning`) is modelled for
completeness, not because it describes a case that occurs for real
timestamps.

A consequence proved in `CowWarningTargetsLeadWindow`: since the Cow Level
scan starts at the current window, a warning can only fire for the next window
and only while the current window is not the Cow Level. Of two consecutive
Cow Level windows, the second is never warned of.

## Model

| member | source | states |
|---|---|---|
| `Schedule.NextPrng` | pd2bot.py:68-69 | the generator output always lies in 0..32767 |
| `Schedule.NextPrngWrapInvariant` | pd2bot.py:68-69 | computing the state modulo any multiple of 2^31 leaves the output unchanged (only bits 16..30 matter) |
| `Schedule.NextPrngWrap32And64` | pd2bot.py:68-69 | in particular a wrapping 32-bit or 64-bit state gives the same output as unbounded integers |
| `Schedule.WindowStart` | pd2bot.py:81-82 | the result is a multiple of the window length, and for offset n it is the start of the window n windows after the one containing the timestamp |
| `Schedule.SeedOf` | pd2bot.py:84-86 | for a window start, the seed is the window index plus the index divided by 96 (whole days elapsed) |
| `Schedule.ZoneIndex` | pd2bot.py:88 | the table index is always in 0..36, so the table lookup never goes out of bounds |
| `Schedule.GetZone` | pd2bot.py:77-89 | the window start is a multiple of 15 minutes and lies n windows after the window containing `tsMs`; the zone is the table entry chosen from the seed |
| `Schedule.SeedIsWindowPlusDay` | pd2bot.py:84-86 | the window start is its index times 900000, and the seed is that index plus the index divided by 96 (whole days elapsed) |
| `Schedule.GetZoneShift` | pd2bot.py:77-89 | looking n windows ahead of t equals looking at the instant t + n windows: `GetZone(t, n) == GetZone(t + n*900000, 0)` |
| `Schedule.SeedStrictlyIncreasing` | pd2bot.py:81-86 | along the lookahead, window starts and seeds strictly increase with n |
| `Schedule.SeedMonotone` | pd2bot.py:81-86 | as time goes on, the current window's start and seed never decrease |
| `Schedule.SeedIdentifiesWindow` | pd2bot.py:81-86 | two instants have the same current seed iff they are in the same window, iff their whole zone information agrees |
| `Schedule.CurrentAndNext` | pd2bot.py:91-93 | five entries; the first is the window containing `now`, the i-th starts i windows later and is the zone active at `now` plus i windows |
| `Schedule.FindFirst` | pd2bot.py:211-213 | the offset found is in range, holds the zone, and no earlier offset does; no offset means no window in range holds the zone |
| `Schedule.FindNext` | pd2bot.py:211-218 | the scanning loop with its early exit returns exactly the first matching offset within the bound, or none |
| `Schedule.EpochVector` | pd2bot.py:77-89 | at time 0 the window is 0, the seed 0 and the zone "Cold Plains and the Cave" |
| `Schedule.FirstCowWindowVectors` | pd2bot.py:77-89 | at 2,100,000 ms window 2 (seed 2) is "Outer Cloister and Barracks" and window 3 (seed 3) is "Cow Level" |
| `Schedule.DayBoundaryVector` | pd2bot.py:84-86 | the first window of day 1 has seed 97, not 96 |
| `Status.MinsUntil` | pd2bot.py:116-117 | zero when the instant has passed; otherwise the whole minutes until it, rounded down |
| `Status.MinutesLeftInWindow` | pd2bot.py:105-108 | equals the minutes until the window end (the status command's own helper at pd2bot.py:119-120 computes the same); at most 15 once the window has started |
| `Status.LabelAt` | pd2bot.py:127-137 | entry 0 is labelled Active, entry 1 Next, and entry i >= 2 "Next +(i-1)" |
| `Status.RowAt` | pd2bot.py:124-139 | a row carries its entry's label and zone; rows 0 and 1 show the minutes until the active window ends, later rows the minutes until their own start |
| `Status.StatusRows` | pd2bot.py:122-142 | one row per entry with its zone; labels Active, Next, Next +1..; rows 0 and 1 both carry the active window's time left, later rows the minutes until their start |
| `Status.LookaheadRows` | pd2bot.py:124-139 | on the lookahead of one instant, the active time left is at most 15, and every later row equals the true minutes until its window starts and exceeds the active row's count by 15 per window |
| `Watcher.IsTargetZone` | pd2bot.py:95-100 | every target zone is a name in the zone table |
| `Watcher.CowCandidate` | pd2bot.py:211-213 | the candidate is the window at the first offset in 0..299 whose zone is the Cow Level (it has not ended yet); none means no such offset |
| `Watcher.ActiveDue` | pd2bot.py:206 | a due active alert is for a zone of the table |
| `Watcher.CowDue` | pd2bot.py:214-215 | a due warning is for a window starting more than 9.5 and at most 10 minutes from now |
| `Watcher.StoredSeedNotDue` | pd2bot.py:206-216 | once an alert's seed is stored in its cell, that alert is no longer due, at any time |
| `Watcher.ActivePart` | pd2bot.py:204-208 | the active alert for the current window is emitted exactly when due, is the only one of its kind, and its seed becomes the cell; otherwise the cell is unchanged |
| `Watcher.CowPart` | pd2bot.py:211-217 | the warning is for the first Cow Level window of the lookahead, is emitted exactly when due, is the only one of its kind, and its seed becomes the cell; otherwise the cell is unchanged |
| `Watcher.Step` | pd2bot.py:196-218 | the active part followed by the Cow Level part, each on its own cell: at most two alerts; every alert emitted is recorded in its cell; a cell changes only when an alert of its kind is emitted |
| `Watcher.Run` | pd2bot.py:195-218 | the polls applied one after another: at most two alerts per poll, and nothing at all when the channel is never found |
| `Watcher.ZoneWatcher.constructor` | pd2bot.py:183-184 | both cells start empty |
| `Watcher.ZoneWatcher.Tick` | pd2bot.py:196-218 | the new cells and the alerts are those of `Step` on the old cells; without a channel nothing changes |
| `Watcher.ActiveAlertRule` | pd2bot.py:204-208 | a poll announces the current window iff its zone is a target zone and its seed is not in the cell; it is the only active alert, and firing stores its seed |
| `Watcher.CowAlertRule` | pd2bot.py:211-217 | given the first Cow Level window of the lookahead, a poll warns of it iff the poll lies in the 30 s slot starting 10 minutes before it and its seed is not in the cell; firing stores its seed |
| `Watcher.NoCowNoWarning` | pd2bot.py:211-213 | with no Cow Level window in the next 300, no warning is emitted and the cell is unchanged |
| `Watcher.CellsIndependent` | pd2bot.py:183-218 | each alert kind's decision and cell update depend only on its own cell |
| `Watcher.SecondTickSameWindowSilent` | pd2bot.py:206-208 | after a poll with the channel found, a later poll in the same window never repeats the active alert |
| `Watcher.CowWarningTargetsLeadWindow` | pd2bot.py:211-218 | a warning is for a Cow Level window starting between 9.5 and 10 minutes after the poll, which is the next window, the current one is not the Cow Level, and the window had not been warned of |
| `Watcher.CowSoonIsDue` | pd2bot.py:211-217 | a warning in a poll's output is for the first Cow Level window of the lookahead, and it was due |
| `Watcher.LeadWindowOffset` | pd2bot.py:212-215 | a window starting more than 9.5 and at most 10 minutes after the poll is the next window, and it is the window containing the instant 10 minutes ahead |
| `Watcher.StepOfKind` | pd2bot.py:206-217 | per alert kind, one poll emits at most one alert, with the seed of its window, which its cell did not hold, and the cell changes only to that seed |
| `Watcher.RunSeedsIncrease` | pd2bot.py:195-218 | over polls whose instants do not go backwards, the seeds of each alert kind strictly increase and exceed the cell's initial value |
| `Watcher.AtMostOneAlertPerOccurrence` | pd2bot.py:183-218 | from empty cells, over polls whose instants do not go backwards, no window is announced twice and no Cow Level window is warned of twice |
| `Watcher.WindowTwoSchedule` | pd2bot.py:204-213 | throughout window 2 the first Cow Level window ahead is window 3 and the active zone is not a target |
| `Watcher.CowWarningTimingExample` | pd2bot.py:211-218 | a poll exactly 10 minutes before window 3 warns; 30 s earlier does not; 29.999 s later still warns, but not a second time; 30 s later does not |

## Left out

- Reading the clock (`time.time()`, pd2bot.py:79, 113, 203): every operation takes `now` as a parameter. The source's lookahead reads the clock once per entry; the model reads it once for all five. The status command reads it once more, so `StatusRows` takes its own `now`.
- Loading the environment and secrets, and the errors for a missing token or channel id (pd2bot.py:11-22): startup input/output.
- The chat platform: bot construction, intents, the ready handler, the status command handler, the periodic task and its start-up wait (pd2bot.py:179-224). Channel lookup becomes the `channelFound` flag; sending becomes the returned alert list.
- A failed send: the source records the seed before sending, and an exception ends that poll. The model treats every send as done.
- The 30-second polling period: polls are a given sequence of instants. The at-most-once theorems assume the instants never go backwards.
- Text layout: the title line, icons, column padding, code fence, the `<t:...:f>` timestamp and the alert texts (pd2bot.py:102-103, 141-146, 173-177). A status row keeps only its label, zone and minute count.
- The unreachable second body after the `return` in the status formatter (pd2bot.py:148-172): dead code.
- Status.StatusRows: requires a non-empty list, because the source reads the first entry unconditionally; the only caller passes five.
