# Hostel laundry tracker: machine occupancy model

The tracker is a small web app. It shows, for each washing machine and dryer
of a hostel, whether someone is using it and when it will be free. Its state
is one document collection, `machines`. That collection maps a machine name
to at most one record: user name, designation, start time, end time and
comment. Five behaviours act on it:

- **Status.** A machine is in use exactly while the current time is strictly
  before its stored end time. The dashboard then shows who is using it and
  the whole minutes left. Otherwise it is free.
- **Lazy expiry.** When the dashboard finds a record whose end time has
  passed, it deletes it.
- **Power Cut.** Only while a machine is in use, this moves its end time
  15 minutes later.
- **Finish Early.** Only while a machine is in use, this deletes its record.
- **Start.** The start form needs a non-empty name. It overwrites the
  selected machine's record, with no check that the machine is free. The end
  time is one clock reading plus the chosen duration (15 to 120 minutes). The
  start time is a second, separate clock reading.

The project has four modules:

- `Clock` (`clock.dfy`): the UTC to IST conversion, `timedelta(minutes=…)`,
  and Python's truncating `int(secs / 60)`.
- `Occupancy` (`occupancy.dfy`): the records, the dashboard report and the
  collection each operation leaves behind, all as functions on values.
- `OccupancyProperties` (`properties.dfy`): the lemmas about those functions.
- `Collection` (`collection.dfy`): the collection as a class
  `MachineCollection`, with a `docs` map that its methods update in place.
  Each method's `ensures` ties the new `docs` and the report to the
  functions of `Occupancy`.

Times are whole seconds. The clock is never read. Each method takes the raw
UTC readings the app would take and converts them with `Clock.IstTime`, as
the app's `get_ist_time` does. Inside its loop the dashboard reads the clock at
most once per machine, and only for a machine with a document (app.py:58).
`RefreshDashboard` takes one reading per machine and ignores it when the
machine has no record.

Each button handler runs inside the dashboard loop, during the rerun in which
the click is seen. So `Extend` and `Finish` model that whole loop iteration.
If the machine is no longer in use at that reading, the button is not there,
and the iteration's expiry cleanup runs instead. A consequence: Finish Early
always leaves the machine without a record (`AfterFinishEarly`).

The start and end times come from two separate clock readings (app.py:109,
115), so the stored span equals the duration only when the readings agree
(`StartSpanMatchesDurationOnlyOnEqualReadings`).

## Model

| member | source | states |
|---|---|---|
| `Clock.IstTime` | app.py:20-23 | local time is the UTC reading plus exactly 19800 seconds (5 h 30 min) |
| `Clock.IstTimes` | app.py:47-58 | the per-machine IST readings of one dashboard pass, one per UTC reading, in order |
| `Clock.WholeMinutes` | app.py:62 | `int(secs / 60)` truncates toward zero: for a non-negative span, `0 <= m*60 <= secs < (m+1)*60`; for a negative one it rounds up |
| `Clock.WholeMinutesShift` | app.py:62-74 | adding n whole minutes to a non-negative span adds exactly n to its whole-minute count |
| `Occupancy.MachinesDistinct` | app.py:17 | the configured machine names are pairwise different |
| `Occupancy.StatusOf` | app.py:53-67 | in use iff a record exists and `now < end_time` (`now == end_time` is free); free with no record iff none exists; in use shows the record's user, designation, comment and end time, with remaining minutes `r` such that `0 <= r*60 <= end-now < (r+1)*60` |
| `Occupancy.AfterView` | app.py:82-86 | after a view, the machine keeps its record iff it was in use; every kept record is unchanged; no other machine loses its record |
| `Occupancy.AfterPowerCut` | app.py:60-74 | while in use: same machines, this record's end time is 15 minutes later and nothing else in it changes, other records unchanged; otherwise the pass only views the machine |
| `Occupancy.AfterFinishEarly` | app.py:77-86 | whether the machine was in use or its timer had run out, the result is the collection minus that machine's record |
| `Occupancy.AfterStart` | app.py:106-123 | empty name: collection unchanged; otherwise the machine's record is replaced by the form's name, designation and comment, start = second reading, end = first reading + duration minutes, other records unchanged |
| `Occupancy.Sweep` | app.py:47-91 | each listed machine is viewed in turn at its own reading; a pass only deletes records and never changes a kept one |
| `OccupancyProperties.SweepKeepsRunningRecords` | app.py:47-91 | a dashboard pass keeps a listed machine's record iff it was in use at that machine's own clock reading; kept records are unchanged; unlisted machines keep theirs |
| `OccupancyProperties.SweepIdempotent` | app.py:47-91 | a second pass with the same readings deletes nothing more |
| `OccupancyProperties.ViewReportsUnchanged` | app.py:60-89 | the cleanup a view performs leaves the report at that instant unchanged when in use; otherwise the machine now reads plain free |
| `OccupancyProperties.ViewCleanupIdempotent` | app.py:82-89 | once a view found the machine free, a view at any time finds no record, reports free and deletes nothing |
| `OccupancyProperties.PowerCutAddsFifteenMinutes` | app.py:60-74 | Power Cut on a running machine keeps it in use; the report at that instant has 15 more minutes remaining and a finish time 15 minutes later, otherwise identical |
| `OccupancyProperties.FinishEarlyFrees` | app.py:77-89 | after Finish Early the machine reads free with no record at every time |
| `OccupancyProperties.OtherMachinesUnaffected` | app.py:72-86 | view, Power Cut and Finish Early on one machine leave every other machine's report unchanged at every time |
| `OccupancyProperties.StartRunsForDuration` | app.py:101-118 | after a start with a name, the machine is in use exactly for times before first reading + duration minutes; at the first reading it shows the full duration remaining; at the end time itself it reads free |
| `OccupancyProperties.StartSpanMatchesDurationOnlyOnEqualReadings` | app.py:109-116 | the stored end minus start equals the duration iff the two clock readings agree |
| `Collection.MachineCollection.View` | app.py:51-89 | one dashboard iteration: reports `StatusOf` and leaves `AfterView` of the old collection |
| `Collection.MachineCollection.Extend` | app.py:60-76 | the Power Cut pass: reports the pre-click status and leaves `AfterPowerCut` of the old collection |
| `Collection.MachineCollection.Finish` | app.py:77-86 | the Finish Early pass: reports the pre-click status and leaves `AfterFinishEarly` of the old collection |
| `Collection.MachineCollection.Start` | app.py:106-123 | writes iff the name is non-empty, and leaves `AfterStart` of the old collection for the two IST readings |
| `Collection.MachineCollection.RefreshDashboard` | app.py:47-91 | one report per configured machine, in order, each `StatusOf` the old collection at that machine's reading; the new collection is the pass `Sweep`; afterwards a machine has a record iff it was reported in use |

## Left out

- Rendering: headers, tabs, buttons, metrics, balloons and `st.rerun`. Only
  the state change and the report of each handler are modelled. The "Free at
  approx" caption is the raw end time (`freeAt`).
- Firestore client setup and credentials (app.py:9-13). The network get, set,
  update and delete calls are in-memory map operations.
- The wall clock (`datetime.utcnow()`). Readings are integer parameters, in
  whole seconds rather than microseconds.
- ISO-8601 storage through `isoformat`/`fromisoformat`, and `strftime` in
  `format_time`. Times are stored as integers, so a document without an
  `end_time`, which would make `fromisoformat` fail, cannot be represented.
- Clock.WholeMinutes: models `int(secs / 60)` on exact integers; the rounding
  of the floating-point division is not modelled.
- Collection.MachineCollection.Start: does not require the machine to be one
  of the configured machines, because the model needs no such guard; in the
  app the select box only offers those.
- Concurrent browser sessions doing read-then-write on the same document.
