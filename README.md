# Roborock cleaning pipeline: the decision layer, in Dafny

The pipeline polls a Roborock vacuum through the cloud API and writes rows to a
Google Sheets spreadsheet. Between the two sits a small decision layer, and this
project models and verifies it:

- **Collector** (`collector.dfy`, from `src/roborock_collector.py`) covers the
  `DeviceStatus` and `CleaningRecord` records and their `to_row` flattening. It also
  covers the header constants, the `is_cleaning` / `is_idle` classifiers (a
  case-insensitive match against two allow-lists) and the mapping in
  `create_cleaning_record` from a status to a record.
- **Pipeline** (`pipeline.dfy`, from `pipeline.py`) covers the `CleaningMonitor` and its
  two per-device maps, `previous_states` and `cleaning_start_battery`.
  - `_check_device` captures the start battery on the first cleaning poll. It logs a
    session on a poll where the device was cleaning and is now idle, and then
    records the poll as the device's previous state.
  - `_log_cleaning_session` pops the start battery, builds the `"completed"` record
    and appends its row to the sink, swallowing a sink failure.
  - The class `CleaningMonitor` does this in place and is proved against the pure
    function `Step`.
  - `Run` folds `Step` over a sequence of polls. The lemmas about `Run` cover whole
    poll sequences: how many sessions are logged and what repeated idle polls do.
    Lemmas about a few chained `Step`s show what an unclassified state between
    cleaning and idle does.
- **StateManagement** (`state_manager.dfy`, from `src/state_manager.py`) covers the
  `StateManager` table from device name to its last lifetime clean count, the novelty
  checks `has_new_cleaning` and `get_new_cleaning_count`, and the entry overwrite
  `update_device_state`.
- **Wrappers** (`wrappers.dfy`) holds `Option` (Python's `Optional`) and `Lookup`
  (`dict.get`).

Inputs that come from outside the core are parameters:
- A status fetch is an `Option<DeviceStatus>`, `None` when it failed.
- The current time (`datetime.now().isoformat()`) is a `now: string`.
- Whether the spreadsheet append succeeds is `appendSucceeds: bool`.
- The state file's contents are an `Option` of the table, `None` when the file is
  missing or unreadable.

The spreadsheet is the `appended` field of `CleaningMonitor`. It holds the rows the
sink accepted.

Python's truthiness tests are written out:
- `if not status` and `if previous_state` test for `None`, because a dataclass
  instance is always truthy.
- `str(w) if w else None` on the water-box status tests for "present and not zero".

`str` on an integer is modelled as decimal rendering (`IntString`). Its inverse
(`ParseInt`) shows that no information is lost.

## Model

| member | source | states |
|---|---|---|
| `Collector.CleaningRecordRow` | src/roborock_collector.py:33-47 | the row has exactly 11 cells, one per entry of `CLEANING_HISTORY_HEADERS`; the cell at each position is the record field that the header at that position names (`None` becomes an empty cell) |
| `Collector.DeviceStatusRow` | src/roborock_collector.py:64-76 | the row has exactly 10 cells, one per entry of `DEVICE_STATUS_HEADERS`, each the status field that its header names |
| `Collector.InLoweredMeansIn` | src/roborock_collector.py:213 | the scan of an allow-list finds a label exactly when that label is a member of the lowercased list |
| `Collector.IsCleaningMeans` | src/roborock_collector.py:207-213 | `IsCleaning` holds iff the lowercased state label is one of `cleaning`, `segment_cleaning`, `zone_cleaning`, `spot_cleaning`, `segmentcleaning` (the source's six-entry list, lowercased) |
| `Collector.IsIdleMeans` | src/roborock_collector.py:215-220 | `IsIdle` holds iff the lowercased state label is one of `charger`, `idle`, `charging`, `paused` |
| `Collector.CleaningAndIdleDisjoint` | src/roborock_collector.py:211-220 | no status is classified both cleaning and idle |
| `Collector.ClassificationIgnoresCase` | src/roborock_collector.py:213-220 | two labels that differ only in letter case classify identically, as cleaning and as idle |
| `Collector.IntString` | src/roborock_collector.py:244 | `str` of an integer: a minus sign exactly for a negative number, then decimal digits without leading zeros; parsing the text back gives the same integer, so distinct water-box values give distinct water levels |
| `Collector.NatStringValue` | src/roborock_collector.py:244 | the decimal digits produced for a natural number read back as that number |
| `Collector.WaterLevel` | src/roborock_collector.py:244 | the water level is absent exactly when the water-box status is absent or zero (falsy); otherwise it is `str` of that status (`IntString`), which reads back as the status |
| `Collector.CreateCleaningRecord` | src/roborock_collector.py:222-248 | no record when the status fetch returned nothing; otherwise the time given, the device's name (default `Roborock Q8`), the caller's start battery unchanged, and the end battery, clean time, area, state, fan power, mop mode and error code of the status, with the water level absent exactly when the water-box status is falsy, and otherwise `str` of that status, reading back as it |
| `Pipeline.CompletedRecord` | pipeline.py:119-131 | the logged record has state `"completed"`, the final status's device, battery (as end battery), clean time, area, fan power, mop mode and error code, the given start battery and time, and a water level present only when the water-box status is truthy, reading back as that value |
| `Pipeline.Step` | pipeline.py:79-106 | a failed fetch changes nothing and logs nothing. A session is logged iff the device has a previous status, that status is cleaning and the new one is idle, so a device's first poll never logs. The logged record carries the stored start battery (or none), and that entry is removed. A cleaning poll stores its battery only when none is stored, and never overwrites one. A poll that neither cleans nor logs leaves the start batteries alone. The previous status is replaced for this device only, and no other device's start battery changes |
| `Pipeline.CleaningMonitor.constructor` | pipeline.py:44-53 | a new monitor has both maps empty and has appended nothing |
| `Pipeline.CleaningMonitor.CheckDevice` | pipeline.py:79-106 | the new maps and the logged record are exactly those of `Step` on the old maps; a row is appended only when a session is logged and the sink accepts it |
| `Pipeline.CleaningMonitor.LogCleaningSession` | pipeline.py:112-137 | the record uses the popped start battery (or none); the device's start battery is removed whether or not the append succeeds; previous states are untouched; the row is appended only if the sink accepts it |
| `Pipeline.RunRemembersLast` | pipeline.py:105-106 | after any poll sequence the previous status kept for a device is the last one fetched for it, or the one it had before when none was fetched |
| `Pipeline.SessionsMatchCompletionEdges` | pipeline.py:97-106 | over any poll sequence, the number of sessions logged for a device equals the number of adjacent (cleaning, idle) pairs among its fetched statuses, not the number of idle polls |
| `Pipeline.IdlePollsAfterCompletionLogNothing` | pipeline.py:97-106 | after a poll that logged a session, any further polls in which the device is only seen idle (the same snapshot replayed, for one) log nothing more for it |
| `Pipeline.UnclassifiedBreaksEdge` | pipeline.py:91-106 | polls reading cleaning, then an unclassified label, then idle log nothing, and the start battery stored on the cleaning poll (or the one already stored) is still stored afterwards |
| `Pipeline.StoredBatteryReported` | pipeline.py:91-117 | with a start battery stored, a cleaning poll logs nothing and the idle poll after it logs a session whose start battery is the stored one |
| `Pipeline.StartBatteryOutlivesBrokenEdge` | pipeline.py:91-117 | after cleaning, unclassified, idle, the next cleaning, idle pair logs a session that reports the battery stored before the break |
| `Pipeline.ScenarioFirstSession` | pipeline.py:91-117 | polls idle, cleaning, cleaning, idle of one device from a fresh monitor: only the fourth poll logs, its session reports the battery of the second poll (the first cleaning one), and no start battery is left stored |
| `Pipeline.ScenarioSecondSession` | pipeline.py:91-117 | continuing with idle, cleaning, idle: the repeated idle poll and the cleaning poll log nothing, and the seventh poll logs a session reporting the battery of the sixth |
| `Pipeline.TwoSessionsScenario` | pipeline.py:97-106 | over the whole seven-poll sequence, `Run` logs exactly two sessions for the device |
| `StateManagement.StateManager.constructor` | src/state_manager.py:15-32 | the table is the stored one, or empty when the file is missing or unreadable, in which case every device reads count 0 |
| `StateManagement.StateManager.GetDeviceState` | src/state_manager.py:41-43 | the device's entry, or the empty entry when it has none |
| `StateManagement.StateManager.GetLastCleanCount` | src/state_manager.py:45-48 | the stored count, or 0 for a device with no entry or an entry without a count |
| `StateManagement.StateManager.GetNewCleaningCount` | src/state_manager.py:71-74 | `max(0, current - last)`: never negative, zero exactly when the live count is not ahead (a counter regression gives 0), otherwise the gap |
| `StateManagement.StateManager.HasNewCleaning` | src/state_manager.py:66-69 | true iff `GetNewCleaningCount` is positive, that is iff the live count exceeds the stored one |
| `StateManagement.StateManager.UpdateDeviceState` | src/state_manager.py:50-64 | the device's whole entry is replaced with the given count, area, time and timestamp, so omitted fields become empty and a lower count is stored as given. Afterwards the stored count is the one given, that count is no longer new, a count is new iff it exceeds it, and every other device's entry is unchanged |

## Left out

- `monitor_loop` (asynchronous polling, sleeping, catching exceptions and carrying on), `setup_and_authenticate`, `setup_sheets`, `main`, `quick_status`, `log_single_cleaning` and the argument parsing in `pipeline.py`: console, file and network I/O around the core. `Run` stands for polling devices in sequence.
- `authenticate`, `request_verification_code`, `discover_devices`, `get_device_status` and `get_all_device_statuses` in `src/roborock_collector.py`: network calls to a library outside this model. A status fetch is an `Option<DeviceStatus>` parameter.
- The conversion of the cleaned area from cm² to m² (`round(clean_area / 10000, 2)`) is floating point. The area is a `real` that the model only copies.
- `CleaningRecord.to_dict` (`dataclasses.asdict`): it is not used by the core.
- `Collector.Lower` lowercases ASCII letters only, whereas Python's `str.lower` also lowercases other letters. This changes no classification: every allow-listed label is ASCII. The Kelvin sign lowercases to `k`, but no label contains a `k`. `İ` (U+0130) lowercases to `i` followed by the combining dot U+0307, which is not ASCII, so the result is never a label either. Every other non-ASCII character lowercases to non-ASCII text.
- `StateManager._load` / `_save`: the JSON file is reduced to "the stored table, or empty". Writing the table back, creating its directory and the save/reload round trip are not modelled.
- `StateManagement.DeviceEntry` does not tell a key missing from a loaded entry apart from a key stored as JSON `null`. For a `null` count Python's `get` returns `None`, and the comparison in `has_new_cleaning` then raises `TypeError`. The model reads 0, as it does for a missing key. The model has no state for two other malformed entries that loading accepts, and it leaves them out:
  - an entry that is not a JSON object (`{"Q8": 5}`), for which `get_last_clean_count` raises `AttributeError`;
  - a count stored as a string (`"5"`), for which the comparison in `has_new_cleaning` raises `TypeError`.

  A loaded file whose top level is not an object is not modelled either.
- Timestamps (`datetime.now()`) are parameters, and `print` output is not modelled.
- `src/sheets_client.py` (Google Sheets API calls) and `roborock_connect.py` (interactive login and device commands) are not part of this model. The sink is modelled as an append that may fail.
- The constants in `config/settings.py` are not part of this model. Its `CLEANING_STATES` / `IDLE_STATES` are not the lists the classifiers use.
