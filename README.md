# Insta-Unblock: the file unblock manager in Dafny

Insta-Unblock watches folders and "unblocks" the files written there. Unblocking removes the
zone marker Windows attaches to downloaded files. The file unblock manager does the work. It has:

- a notification handler, `OnChanged`, that records a path in the pending table
  (`CreateFileTable`), or restarts the path's stopwatch if the path is already there;
- a timer sweep, `OnUnblockTimer`, queued on the dispatcher by `UnblockTimerCallback` only when
  no earlier sweep is still queued.

A sweep:

1. forgets the processed paths (`UnlockedFileTable`) unblocked at least 5 s ago;
2. reads the "Unblocking" setting once, and only if some pending path has been quiet for at
   least 1 s;
3. when the setting is on, drops every such path from pending and unblocks it, unless it is
   still processed; an unblocked path becomes processed.

The engine exists in three copies. `OnChanged`, `UnblockTimerCallback` and `OnUnblockTimer` are
the same statement for statement in all three, logging aside. `IsUnblocking` and
`ChangeUnblockMode` go through a different settings interface in each copy, and only the
plugins raise the "changed" flags:

| | InstaUnblockPlugin.cs | Insta-Unblock-Plugin.cs | App.xaml.cs |
|---|---|---|---|
| `OnChanged` | 374-392 | 246-264 | 490-508 |
| `UnblockTimerCallback` | 394-398 | 266-270 | 510-514 |
| `OnUnblockTimer` | 400-453 | 272-325 | 516-568 |
| `IsUnblocking` | 345-352 | 224 | 470 |
| `ChangeUnblockMode` | 354-359 | 226-231 | 472-475 |

The first two files are under Insta-Unblock-Plugin/ and the third is under Insta-Unblock/.
The taskbar plugins also raise two "changed" flags in `ChangeUnblockMode`, which the host reads
and clears. Settings are typed values over a registry key: SinglePluginHost/Plugin/PluginSettings.cs,
and the same static helpers in App.xaml.cs.

Modules:

- `Registry` (registry.dfy): the settings encoding. `PluginSettings` is a class whose `values`
  map the setters update. `available` is false when the key could not be opened or accessed.
- `Debounce` (debounce.dfy): the engine as values. The two tables are maps from a path to the
  start of its stopwatch. `Record` is one notification and `Sweep` is one sweep. Lemmas state
  what they do.
- `UnblockManager` (manager.dfy): the engine as the source runs it. The class
  `FileUnblockManager` updates `pending` and `processed` in place with the collect-then-remove
  loops of the source. Each method is proved against `Debounce`. A ghost log `unblocked`
  records every call of the unblock action, and a ghost counter `flagReads` counts the reads
  of the setting.
- `Plugin` (plugin.dfy): the plugin's menu command and its sticky "changed" flags.
- `Trace` (trace.dfy): runs made of notifications, sweeps and setting changes, and what they
  promise about the unblock action.
- `Timeline` (timeline.dfy): one download followed through `FileUnblockManager` tick by tick.
  It is written to 0 s, swept at 0.5 s and 1.1 s, notified again at 1.2 s by its own unblock,
  then swept at 5.2 s and 6.2 s.

Time is counted in TimeSpan ticks of 100 ns. A stopwatch started at `s` and read at `now`
shows `now - s`. `MinElapsedTimeForUnblock` is 10 000 000 ticks (1 s) and
`MinElapsedTimeForForget` is 50 000 000 ticks (5 s); both comparisons are `>=`, as in the
source.

The unblock action is not wrapped in any error handling in any of the three copies. The model
follows the code: the action is a call recorded in the log, and the path is then added to
processed. There is no "caught failure" path in the code, and none in the model.

The newest plugin reads and writes the setting through a host settings object (`Settings.GetBool`,
`Settings.SetBool`) whose source is not part of this model. It is modelled by the same
`PluginSettings` decoding as the older plugin and the application.

## Model

| member | source | states |
|---|---|---|
| Registry.PluginSettings.GetSettingKey | SinglePluginHost/Plugin/PluginSettings.cs:77-87 | the stored value when the store is available and holds one under the name; None (null) when it is missing or the store cannot be read |
| Registry.PluginSettings.IsBoolKeySet | SinglePluginHost/Plugin/PluginSettings.cs:35-39 | true iff the store is readable and holds a DWord (an `int`) under the name |
| Registry.PluginSettings.GetSettingBool | SinglePluginHost/Plugin/PluginSettings.cs:41-45 | the default when no `int` can be read under the name, otherwise `value != 0` |
| Registry.PluginSettings.GetSettingInt | SinglePluginHost/Plugin/PluginSettings.cs:52-56 | the stored `int` when there is one, otherwise the default |
| Registry.PluginSettings.GetSettingString | SinglePluginHost/Plugin/PluginSettings.cs:63-67 | the stored string when a String value is there, otherwise the default (null included) |
| Registry.PluginSettings.SetSettingKey | SinglePluginHost/Plugin/PluginSettings.cs:89-98 | writes exactly the named value when the store is available; otherwise changes nothing |
| Registry.PluginSettings.DeleteSetting | SinglePluginHost/Plugin/PluginSettings.cs:100-109 | removes exactly the named value (a missing one is no error); no-op when unavailable |
| Registry.PluginSettings.SetSettingBool | SinglePluginHost/Plugin/PluginSettings.cs:47-50 | stores DWord 1 or 0; `GetSettingBool` then returns the value set for every default (the default itself when unavailable); other names keep their values |
| Registry.PluginSettings.SetSettingInt | SinglePluginHost/Plugin/PluginSettings.cs:58-61 | stores the DWord; `GetSettingInt` then returns it for every default; other names keep their values |
| Registry.PluginSettings.SetSettingString | SinglePluginHost/Plugin/PluginSettings.cs:69-75 | null deletes the value, after which `GetSettingString` returns the default; another value round-trips; other names keep their values |
| UnblockManager.FileUnblockManager.IsUnblocking | Insta-Unblock/App.xaml.cs:470 | the setting defaults to true when unset or unreadable, otherwise it is `stored != 0` |
| UnblockManager.FileUnblockManager.ChangeUnblockMode | Insta-Unblock/App.xaml.cs:472-475 | writes DWord 1/0 under "Unblocking"; when the store is available `IsUnblocking` then returns the value written |
| UnblockManager.FileUnblockManager.constructor | Insta-Unblock/App.xaml.cs:601-609 | both tables empty, no operation queued, nothing unblocked |
| UnblockManager.FileUnblockManager.OnChanged | Insta-Unblock-Plugin/InstaUnblockPlugin.cs:374-392 | the path's start becomes `now` (inserted or restarted); every other pending entry and the processed table are unchanged; the state is `Record` of the old one |
| UnblockManager.FileUnblockManager.UnblockTimerCallback | Insta-Unblock-Plugin/Insta-Unblock-Plugin.cs:266-270 | a sweep is queued iff none was ever queued or the last one completed; afterwards one is queued |
| UnblockManager.FileUnblockManager.RunDispatcher | Insta-Unblock-Plugin/InstaUnblockPlugin.cs:396-397 | the queued sweep runs once and completes: its new tables are `Sweep` of the old ones with the current setting, the setting is read once iff some pending path is settled, and the unblock calls (appended to the log, each path once) are exactly `SweepCalls`; with nothing queued nothing changes |
| UnblockManager.FileUnblockManager.UnblockFile | Insta-Unblock-Plugin/InstaUnblockPlugin.cs:440 | one call of the unblock action is appended to the log |
| UnblockManager.FileUnblockManager.CollectExpired | Insta-Unblock-Plugin/InstaUnblockPlugin.cs:408-418 | `EntryToForget` lists exactly the processed paths aged at least 5 s, each once |
| UnblockManager.RemoveEach | Insta-Unblock-Plugin/InstaUnblockPlugin.cs:420-421 | the table without exactly the listed paths, the others keeping their start |
| UnblockManager.FileUnblockManager.VisitPending | Insta-Unblock-Plugin/InstaUnblockPlugin.cs:425-447 | for one pending path: the flag is read iff the path is settled and it was not read yet; the path is removed iff settled with the flag on; it is unblocked and becomes processed at `now` iff removed and not processed |
| UnblockManager.FileUnblockManager.PromoteSettled | Insta-Unblock-Plugin/InstaUnblockPlugin.cs:423-448 | the flag is read once iff some pending path is settled; `EntryToRemove` is the settled paths when it is on, none otherwise; the unblock calls are exactly the settled paths not processed, each once, each added to processed at `now` |
| UnblockManager.FileUnblockManager.OnUnblockTimer | Insta-Unblock-Plugin/InstaUnblockPlugin.cs:400-453 | the new tables are `Sweep` of the old ones; the flag is read at most once and only when some path is settled; the calls are exactly `SweepCalls`, each once; the log only grows; every processed path has been unblocked |
| Debounce.RecordDebounces | Insta-Unblock-Plugin/Insta-Unblock-Plugin.cs:246-264 | a notification inserts the path or restarts it at `now`; other pending entries and the processed table are unchanged |
| Debounce.ForgetExact | Insta-Unblock-Plugin/Insta-Unblock-Plugin.cs:280-293 | the forget pass keeps a processed path iff it is younger than 5 s, with its start unchanged |
| Debounce.SettledExact | Insta-Unblock/App.xaml.cs:539-547 | a pending path is settled iff its age is at least 1 s |
| Debounce.SweepIgnoresFlagWhenNothingSettled | Insta-Unblock-Plugin/InstaUnblockPlugin.cs:428-431 | with nothing settled the flag makes no difference: pending is unchanged and nothing is unblocked |
| Debounce.SweepDisabled | Insta-Unblock-Plugin/InstaUnblockPlugin.cs:430-451 | with the flag off, pending is unchanged, processed only loses the forgotten paths, and nothing is unblocked |
| Debounce.SweepEnabledPending | Insta-Unblock-Plugin/InstaUnblockPlugin.cs:433-435 | with the flag on, pending keeps exactly the paths younger than 1 s, with their start |
| Debounce.SweepEnabledCalls | Insta-Unblock-Plugin/InstaUnblockPlugin.cs:437-445 | with the flag on, a path is unblocked iff it is settled and not processed after forgetting; each such path is processed at `now` |
| Debounce.SettledAlreadyProcessed | Insta-Unblock-Plugin/InstaUnblockPlugin.cs:433-446 | a settled path that is still processed leaves pending with no call and keeps its processed start |
| Debounce.SweepProcessed | Insta-Unblock/App.xaml.cs:524-567 | processed after a sweep is what the forget pass kept plus the newly unblocked paths |
| Debounce.NotForgottenEarly | Insta-Unblock/App.xaml.cs:524-537 | a processed path younger than 5 s survives a sweep with its start, whatever the flag |
| Debounce.SweepIdempotentWhenQuiet | Insta-Unblock-Plugin/Insta-Unblock-Plugin.cs:272-325 | with nothing settled and nothing expired a sweep changes nothing and unblocks nothing |
| Debounce.SweepEnabledLeavesNothingOverdue | Insta-Unblock-Plugin/InstaUnblockPlugin.cs:428-451 | after a sweep with the flag on, no pending path is 1 s old or more |
| Trace.AbsentUnderTicks | Insta-Unblock-Plugin/InstaUnblockPlugin.cs:423-451 | sweeps never unblock a path that is not pending, nor make it pending |
| Trace.PendingUnderTicks | Insta-Unblock-Plugin/InstaUnblockPlugin.cs:400-453 | a pending, unprocessed path under sweeps with unblocking on is unblocked exactly once if some sweep comes 1 s after its start, never otherwise |
| Trace.SingleNotificationUnblocksOnce | Insta-Unblock-Plugin/InstaUnblockPlugin.cs:374-453 | for a path not remembered, with unblocking on: one notification followed by sweeps unblocks the path exactly once iff some sweep comes at least 1 s later, and never otherwise |
| Trace.FreshEngineUnblocksOnce | Insta-Unblock-Plugin/InstaUnblockPlugin.cs:374-453 | on a freshly constructed engine (empty tables, "Unblocking" unset, which reads as on), one write followed by sweeps unblocks the file exactly once iff some sweep comes at least 1 s after the write, and never otherwise |
| Trace.DisabledNeverUnblocks | Insta-Unblock-Plugin/InstaUnblockPlugin.cs:430-451 | while unblocking stays off no path is ever unblocked and no pending path is dropped |
| Trace.QuietPathNeverUnblocked | Insta-Unblock-Plugin/InstaUnblockPlugin.cs:380-390 | a path written again less than 1 s before every sweep is never unblocked and stays pending, started at its last write |
| Trace.BurstThenSweeps | Insta-Unblock-Plugin/InstaUnblockPlugin.cs:374-453 | for a path pending and not remembered, with unblocking on: writes that each come less than 1 s before the next sweep, then only sweeps, give one call iff some later sweep comes at least 1 s after the last write, none otherwise |
| Trace.EnableThenSweep | Insta-Unblock-Plugin/InstaUnblockPlugin.cs:354-359 | after turning unblocking on, the next sweep unblocks exactly the overdue pending paths not remembered, and leaves none overdue |
| Timeline.Tick | Insta-Unblock-Plugin/InstaUnblockPlugin.cs:394-453 | a timer tick whose queued sweep the dispatcher runs: the tables become `Sweep` of the old ones, and the calls appended to the log (each once) are `SweepCalls` |
| Timeline.SweepTooEarly | Insta-Unblock-Plugin/InstaUnblockPlugin.cs:400-453 | a file written at 0 s and swept at 0.5 s stays pending with no call |
| Timeline.SweepOnTime | Insta-Unblock-Plugin/InstaUnblockPlugin.cs:400-453 | swept at 1.1 s, the file is unblocked, leaves pending and is remembered from 1.1 s |
| Timeline.SweepRemembered | Insta-Unblock-Plugin/InstaUnblockPlugin.cs:400-453 | the notification raised by the unblock at 1.2 s settles by 5.2 s, and the path leaves pending with no second call because it is still remembered |
| Timeline.SweepForgets | Insta-Unblock-Plugin/InstaUnblockPlugin.cs:400-453 | at 6.2 s the path unblocked at 1.1 s is forgotten |
| Timeline.DownloadTimeline | Insta-Unblock-Plugin/InstaUnblockPlugin.cs:374-453 | on the manager itself, the whole run (write at 0 s, sweeps at 0.5, 1.1, 5.2 and 6.2 s, echo at 1.2 s) unblocks the file exactly once and leaves both tables empty |
| Plugin.InstaUnblockPlugin.constructor | Insta-Unblock-Plugin/InstaUnblockPlugin.cs:315-316 | both "changed" flags start lowered |
| Plugin.InstaUnblockPlugin.ChangeUnblockMode | Insta-Unblock-Plugin/InstaUnblockPlugin.cs:354-359 | writes the setting and raises both changed flags; when the store is available `IsUnblocking` then returns the value written |
| Plugin.InstaUnblockPlugin.OnUnblockCommand | Insta-Unblock-Plugin/InstaUnblockPlugin.cs:82 | the menu command turns unblocking off when it is on and on when it is off, raising both flags; it writes only "Unblocking", and an unavailable store is left as it is |
| Plugin.InstaUnblockPlugin.GetIsIconChanged | Insta-Unblock-Plugin/InstaUnblockPlugin.cs:186-192 | returns whether the icon flag was raised and leaves it lowered |
| Plugin.InstaUnblockPlugin.GetIsMenuChanged | Insta-Unblock-Plugin/InstaUnblockPlugin.cs:108-114 | returns whether the menu flag was raised and leaves it lowered |

## Left out

- Folder watching (`WatchFiles`, `FileSystemWatcher`, `StopFileUnblockManager`) is left out. The watcher's notifications are the calls of `OnChanged`.
- The `Timer` and `Dispatcher.BeginInvoke` are left out. A tick is `UnblockTimerCallback`, and running what is queued is `RunDispatcher`. The `Aborted` and `Executing` dispatcher statuses are not distinguished from `Queued`.
- The `lock` on the pending table is left out. Each notification and each sweep is one atomic method.
- The body of `UnblockFile` (`File.Exists`, the `Zone.Identifier` stream, `cmd.exe`) is a foreign side effect. It is modelled as one entry in a ghost log.
- Stopwatches are left out. They are replaced by an explicit `now` in ticks and the start time of each entry. Elapsed milliseconds appear only in log text.
- Logging (`AddLog`, `Logger`, `PrintDebugLine`) is left out because it only observes.
- The taskbar icon, the menus, resource loading and the menu handler tables are user interface and are left out. In the application, `OnCommandUnblock` takes the new value from the menu item's check mark. Only the plugins' toggle is modelled.
- The start-up task scheduler, the elevation check, the single-instance wait handle, opening the registry key (`InitSettings`, the `PluginSettings` constructor) and `IDisposable` are platform glue and are left out. The key is an abstract map of values, with a flag for "unavailable".
- A key that opens but throws on one particular access is not modelled. For each getter and setter it behaves like an unavailable key.
- UnblockManager.FileUnblockManager.OnUnblockTimer: the order of the unblock calls is not stated, only that each path is called once and which paths. The order is `Dictionary` enumeration order, which the source does not fix.
- UnblockManager.FileUnblockManager.PromoteSettled: the order of its calls and of `EntryToRemove` is not stated, for the same reason.
- An exception thrown by `UnblockFile` is not modelled. Examples are `Contract.RequireNotNull` (Insta-Unblock-Plugin/InstaUnblockPlugin.cs:460) and starting the `cmd.exe` process. In the source such an exception ends the sweep after the forget pass: `EntryToRemove` is never applied, and the path never enters processed. In the model the unblock action always returns.
- Registry.PluginSettings: registry value names are case-insensitive, but the model compares them exactly. The "other names keep their values" clauses of `SetSettingBool`, `SetSettingInt`, `SetSettingString` and `DeleteSetting` therefore hold in the registry only for names that differ other than by case. The engine itself only uses the fixed name "Unblocking".
