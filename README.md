# App Grid Wizard — a verified model of its folder state machine

App Grid Wizard is a GNOME Shell extension that sorts the application grid
into thirteen category folders (Accessories, Games, Office, …). This
project models its state logic in Dafny and proves properties about it.
The model has two parts.

**The shell side** (`extensions/app-grid-wizard@mirzadeh.pro/extension.js`):

- `AppFolderManager` takes a one-time snapshot of the user's folder list
  (`folder-children`) and of the application grid layout
  (`app-picker-layout`).
- It replaces the folder list with the extension's switched-on folders and
  writes each folder's name and categories.
- It removes its own folders, and restores the snapshot.
- It schedules deferred layout writes as main-loop timeouts and remembers
  each one so teardown can cancel it.
- The quick-settings toggle `WizardToggle` drives the manager:
  - a click,
  - the `changed::enabled` notice,
  - the `changed::folder-*` notices,
  - the app system's `installed-changed` notice, which re-applies after a
    debounce timer,
  - the "Restore Original Layout" menu action,
  - teardown.

**The preferences side** (`extensions/app-grid-wizard@mirzadeh.pro/prefs.js`):

- a second, synchronous copy of the restore path;
- the confirmation dialog's response handler;
- the preferences' own copy of the folder key table.

The files:

- `seqs.dfy` (module `Seqs`): order-preserving filtering
  (`Array.prototype.filter`), subsequences and duplicate-freedom, with
  their generic lemmas.
- `folders.dfy` (module `Folders`):
  - the thirteen-row `FOLDER_CONFIGS` table;
  - the pure list computations of `applyFolders` and `removeFolders`;
  - the per-folder settings writes, as a function `Configured`.
- `platform.dfy` (module `Platform`): the host state the extension uses.
  - `Store` holds the settings keys of the three schemas the extension
    touches (`org.gnome.desktop.app-folders`, `org.gnome.shell`, the
    extension's own schema) and the connected `changed::` handlers.
  - `Host` holds the main loop's pending timeouts (a map from source id to
    callback) and the `installed-changed` handlers.
- `extension.dfy` (module `Extension`): the classes `AppFolderManager` and
  `WizardToggle`.
  - Their methods update fields in place and have `modifies` frames.
  - `WizardToggle.Valid()` holds the bookkeeping invariant, which every
    handler preserves:
    - the debounce handle names the only pending debounce timer;
    - every other pending timer is tracked by the manager;
    - the monitor and settings handles are exactly the connected handlers.
- `prefs.dfy` (module `Prefs`): `_restoreSnapshot`, the restore row's
  widget state and the dialog response.
- `scenarios.dfy` (module `Scenarios`): compositions of operations:
  - the snapshot–apply–restore round trip;
  - the restore menu action as written, and as intended;
  - the full replacement of a foreign folder list;
  - teardown as written, and as intended.

Modelling conventions:

- **Settings reads.** A folder key missing from the `toggles` map reads as
  false, its schema default.
- **Host calls.** They are methods with explicit post-states:
  - `GLib.timeout_add` returns a fresh non-zero id and adds a pending
    callback;
  - `GLib.Source.remove` drops the id, and does nothing when the id is no
    longer pending;
  - `connect`/`disconnect` return and drop handler ids.
- **Timers.** A timer fires only when the host calls
  `WizardToggle.Fire(id, fails)`. That method runs the callback and drops
  the source, because each callback returns `SOURCE_REMOVE`.
- **Exceptions.** A thrown exception is a boolean parameter of the
  operation:
  - `readFails`: reading `app-picker-layout` in `takeSnapshot` throws;
  - `fails`: the deferred layout restore throws;
  - `layoutFails`: the preferences' layout write throws.
- **Folder table.** `AppFolderManager` keeps the folder table as a constant
  field. Its constructor sets that field to `FOLDER_CONFIGS`. The list
  lemmas hold for any table whose ids are distinct, and
  `Folders.TableIsWellFormed` shows that the real table's ids are distinct.

- **Settings notices.** A GSettings write made inside the shell emits its
  `changed::` notice before the write returns. So `WizardToggle.StoreEnabled`
  writes `enabled` and runs the `changed::enabled` handler at once. Writes
  made by the preferences process reach the shell later, as separate calls
  to the handler methods.

`removeFolders` removes only the thirteen ids of its own table. An id with
the `agw-` prefix that is not one of them, such as `agw-custom`, stays in the
list (`Folders.ForeignAgwIdSurvives`).

## Model

| member | source | states |
|---|---|---|
| Seqs.Filter | extensions/app-grid-wizard@mirzadeh.pro/extension.js:100-102 | the filtered list is no longer than the input and holds exactly the input's elements that pass the test |
| Seqs.FilterIsSubseq | extensions/app-grid-wizard@mirzadeh.pro/extension.js:123 | filtering keeps the relative order of the kept elements (the result is a subsequence of the input) |
| Seqs.FilterKeepsAll | extensions/app-grid-wizard@mirzadeh.pro/extension.js:123 | a list whose every element passes is returned unchanged |
| Seqs.FilterIdempotent | extensions/app-grid-wizard@mirzadeh.pro/extension.js:123 | filtering twice with the same test equals filtering once |
| Seqs.FilterDistinct | extensions/app-grid-wizard@mirzadeh.pro/extension.js:100-102 | filtering a duplicate-free list yields a duplicate-free list |
| Seqs.FilterNone | extensions/app-grid-wizard@mirzadeh.pro/extension.js:100-102 | when no element passes, the result is empty |
| Seqs.FilterSingle | extensions/app-grid-wizard@mirzadeh.pro/extension.js:100-102 | when exactly the element at index j passes, the result is exactly that element |
| Seqs.SubseqElements | extensions/app-grid-wizard@mirzadeh.pro/extension.js:123 | every element of a subsequence occurs in the list it was taken from |
| Folders.TableIsWellFormed | extensions/app-grid-wizard@mirzadeh.pro/extension.js:15-29 | the table has 13 rows, its ids are pairwise distinct, and every id starts with `agw-` |
| Folders.DistinctIdsUnique | extensions/app-grid-wizard@mirzadeh.pro/extension.js:15-29 | in a table with distinct ids, two rows with the same id are the same row |
| Folders.IdsKeepSubseq | extensions/app-grid-wizard@mirzadeh.pro/extension.js:105 | mapping rows to their ids preserves the subsequence relation |
| Folders.IdsMembership | extensions/app-grid-wizard@mirzadeh.pro/extension.js:105 | an id is in the mapped list iff some row carries it |
| Folders.EnabledIdsExact | extensions/app-grid-wizard@mirzadeh.pro/extension.js:99-106 | the list `applyFolders` writes holds a table row's id iff that row's key reads true; it holds no other id; the ids come in table order and none repeats |
| Folders.FilterDistinctRows | extensions/app-grid-wizard@mirzadeh.pro/extension.js:100-102 | the selection of switched-on rows from a table with distinct ids has no repeated row |
| Folders.WithoutIdsSpec | extensions/app-grid-wizard@mirzadeh.pro/extension.js:120-126 | `removeFolders` keeps an id iff it was present and is not one of the table's ids; survivors keep their relative order; removing twice equals removing once; a list with none of the table's ids is unchanged |
| Folders.ForeignAgwIdSurvives | extensions/app-grid-wizard@mirzadeh.pro/extension.js:122-123 | an `agw-` prefixed id outside the table survives removal: `["agw-custom","foo","agw-games"]` becomes `["agw-custom","foo"]` |
| Folders.IsOn | extensions/app-grid-wizard@mirzadeh.pro/extension.js:101 | a key the switches do not hold reads false; a held key reads its stored value |
| Folders.EnabledConfigs | extensions/app-grid-wizard@mirzadeh.pro/extension.js:100-102 | the selected rows are no more than the table's, and a row is selected iff it is in the table and its key reads true |
| Folders.EnabledIds | extensions/app-grid-wizard@mirzadeh.pro/extension.js:105 | the written list has one id per selected row, so no more ids than the table has rows, and each comes from a row whose key reads true |
| Folders.WithoutIds | extensions/app-grid-wizard@mirzadeh.pro/extension.js:122-123 | the kept list is no longer than the current one and holds an id iff it was present and is not one of ours |
| Folders.MetaOf | extensions/app-grid-wizard@mirzadeh.pro/extension.js:109-113 | the settings written for a folder are its own row's name and categories |
| Folders.Configured | extensions/app-grid-wizard@mirzadeh.pro/extension.js:108-114 | every folder path that had settings still has some; every written row's id has settings; the last row written holds its own name and categories |
| Folders.ConfiguredWritten | extensions/app-grid-wizard@mirzadeh.pro/extension.js:109-114 | after the per-folder writes, each written folder (ids unique) holds its own name and its own categories |
| Folders.ConfiguredUntouched | extensions/app-grid-wizard@mirzadeh.pro/extension.js:109-114 | a folder path no written row carries keeps exactly its previous settings, and stays absent if it was absent |
| Folders.ApplyWritesEnabledOnly | extensions/app-grid-wizard@mirzadeh.pro/extension.js:100-114 | `applyFolders` writes name and categories for every switched-on folder, each from its own row, and leaves every other folder path as it was |
| Platform.Store.constructor | extensions/app-grid-wizard@mirzadeh.pro/extension.js:32-36 | a store holds the given folder list, layout and switches, with `enabled`, `snapshot-taken` and the snapshot at their defaults and no handler connected |
| Platform.Store.Connect | extensions/app-grid-wizard@mirzadeh.pro/extension.js:149 | a connect returns a fresh non-zero handler id and adds it to the connected handlers |
| Platform.Store.Disconnect | extensions/app-grid-wizard@mirzadeh.pro/extension.js:254-259 | a disconnect removes exactly that handler |
| Platform.Host.constructor | extensions/app-grid-wizard@mirzadeh.pro/extension.js:52 | the main loop starts with no pending timeout and no `installed-changed` handler |
| Platform.Host.TimeoutAdd | extensions/app-grid-wizard@mirzadeh.pro/extension.js:52 | `timeout_add` returns a fresh non-zero id and adds exactly that pending callback |
| Platform.Host.SourceRemove | extensions/app-grid-wizard@mirzadeh.pro/extension.js:47 | `Source.remove` drops exactly that id from the pending timeouts, and leaves them unchanged when the id is no longer pending |
| Platform.Host.ConnectInstalledChanged | extensions/app-grid-wizard@mirzadeh.pro/extension.js:218-220 | connecting returns a fresh non-zero handler id and adds it to the app system's handlers |
| Platform.Host.DisconnectInstalledChanged | extensions/app-grid-wizard@mirzadeh.pro/extension.js:239-240 | disconnecting removes exactly that handler |
| Extension.AppFolderManager.constructor | extensions/app-grid-wizard@mirzadeh.pro/extension.js:32-37 | a new manager tracks no source and works from the thirteen-row table |
| Extension.AppFolderManager.TrackSource | extensions/app-grid-wizard@mirzadeh.pro/extension.js:39-43 | a non-zero id is added to the tracked sources; zero is ignored |
| Extension.AppFolderManager.CancelSources | extensions/app-grid-wizard@mirzadeh.pro/extension.js:45-49 | every tracked source is removed from the pending timeouts, nothing else is removed, and the tracked set ends empty |
| Extension.AppFolderManager.ResetLayout | extensions/app-grid-wizard@mirzadeh.pro/extension.js:51-58 | exactly one new pending reset callback, at a fresh id that is also tracked |
| Extension.AppFolderManager.ResetLayoutCallback | extensions/app-grid-wizard@mirzadeh.pro/extension.js:53-54 | the reset callback writes an empty layout |
| Extension.AppFolderManager.TakeSnapshot | extensions/app-grid-wizard@mirzadeh.pro/extension.js:60-73 | with a snapshot already taken nothing changes. Otherwise the folder list is copied and the layout is copied unless its read throws. `snapshot-taken` ends true in every case |
| Extension.AppFolderManager.RestoreSnapshot | extensions/app-grid-wizard@mirzadeh.pro/extension.js:75-84 | without a snapshot nothing changes; otherwise the folder list becomes the saved one and exactly one tracked restore callback carrying the saved layout is scheduled |
| Extension.AppFolderManager.RestoreLayoutCallback | extensions/app-grid-wizard@mirzadeh.pro/extension.js:84-96 | a non-empty saved layout is written verbatim and nothing is scheduled. An empty one, or a write that throws, leaves the layout and schedules one tracked reset instead |
| Extension.AppFolderManager.ApplyFolders | extensions/app-grid-wizard@mirzadeh.pro/extension.js:99-118 | the folder list becomes exactly the switched-on ids. The per-folder settings become the `Configured` write of the switched-on rows. Exactly one tracked reset is scheduled |
| Extension.AppFolderManager.WriteFolders | extensions/app-grid-wizard@mirzadeh.pro/extension.js:105-114 | the loop writes the given rows' ids as the folder list and each row's name and categories in order |
| Extension.AppFolderManager.RemoveFolders | extensions/app-grid-wizard@mirzadeh.pro/extension.js:120-126 | the folder list becomes the old list without the table's ids |
| Extension.WizardToggle.AtMostOneDebounce | extensions/app-grid-wizard@mirzadeh.pro/extension.js:224-235 | under the toggle's invariant, the pending debounce timers are exactly the handle's id, so at most one is pending |
| Extension.WizardToggle.constructor | extensions/app-grid-wizard@mirzadeh.pro/extension.js:131-198 | `checked` mirrors `enabled`. One `changed::enabled` handler and one handler per folder key (13) are connected. Monitoring runs iff checked. No debounce timer is pending |
| Extension.WizardToggle.StartMonitoring | extensions/app-grid-wizard@mirzadeh.pro/extension.js:214-222 | afterwards monitoring is on; if it already was, nothing changes |
| Extension.WizardToggle.ScheduleUpdate | extensions/app-grid-wizard@mirzadeh.pro/extension.js:224-235 | any pending debounce timer is removed and one new one is added; afterwards the new one is the only pending debounce timer |
| Extension.WizardToggle.StopMonitoring | extensions/app-grid-wizard@mirzadeh.pro/extension.js:237-248 | afterwards no monitor handler is connected and no debounce timer is pending; only the old debounce timer is removed |
| Extension.WizardToggle.OnInstalledChanged | extensions/app-grid-wizard@mirzadeh.pro/extension.js:218-220 | an `installed-changed` notice reschedules the debounce timer |
| Extension.WizardToggle.OnFolderKeyChanged | extensions/app-grid-wizard@mirzadeh.pro/extension.js:165-172 | a folder-key notice reschedules the debounce timer while checked and changes nothing otherwise |
| Extension.WizardToggle.TurnOn | extensions/app-grid-wizard@mirzadeh.pro/extension.js:154-157 | the turn-on path (`TurnedOn`): a first snapshot copies the folder list and, unless the read throws, the layout; an earlier snapshot is kept. The folder list becomes exactly the switched-on ids and their settings are written. Exactly one tracked reset is added to the pending timeouts. Monitoring runs (an existing monitor is kept). The layout and the debounce handle are unchanged |
| Extension.WizardToggle.TurnOff | extensions/app-grid-wizard@mirzadeh.pro/extension.js:158-161 | the turn-off path (`TurnedOff`): the pending timeouts lose the debounce timer and gain exactly one tracked reset; monitoring stops; the folder list, folder settings, layout and snapshot are unchanged |
| Extension.WizardToggle.OnEnabledChanged | extensions/app-grid-wizard@mirzadeh.pro/extension.js:149-162 | when `checked` already equals `enabled`, no state at all changes, so the toggle's own write is suppressed. Otherwise `checked` takes the stored value and the full turn-on or turn-off effect follows |
| Extension.WizardToggle.StoreEnabled | extensions/app-grid-wizard@mirzadeh.pro/extension.js:149-162 | writing `enabled` runs the `changed::enabled` handler before returning: when `checked` already equals the new value (or the handler is gone) only `enabled` changes; otherwise the full turn-on or turn-off effect follows |
| Extension.WizardToggle.OnClicked | extensions/app-grid-wizard@mirzadeh.pro/extension.js:200-212 | `checked` flips and is stored, and the synchronous notice of that write is an echo. Turning on has the full turn-on effect; turning off has the full turn-off effect, keeping the folder list, folder settings, layout and snapshot |
| Extension.WizardToggle.SwitchOff | extensions/app-grid-wizard@mirzadeh.pro/extension.js:179-181 | after writing `enabled := false`, clearing `checked` and stopping monitoring: all three are off, no debounce timer is pending, and the folders, layout and snapshot are unchanged. A reset is added exactly when `checked` was still set, because then the notice takes the turn-off path |
| Extension.WizardToggle.RestorePendingSteps | extensions/app-grid-wizard@mirzadeh.pro/extension.js:176-181 | the pending timeouts after the restore action are the old ones without the debounce timer, plus the layout restore when there was a snapshot, plus the notice's reset after it |
| Extension.WizardToggle.OnRestoreActivated | extensions/app-grid-wizard@mirzadeh.pro/extension.js:176-182 | as written: `enabled`, `snapshot-taken` and `checked` end false with monitoring stopped. The folder list becomes the saved one when there was a snapshot. The layout, folder settings and saved snapshot are unchanged. The pending timeouts are exactly the old ones without the debounce timer, plus the restore of the saved layout, plus a reset when `checked` was set |
| Extension.WizardToggle.OnRestoreActivatedKeepingLayout | extensions/app-grid-wizard@mirzadeh.pro/extension.js:176-182 | the restore action with `checked` cleared before `enabled` is written: the same end state as `OnRestoreActivated`, but no reset is scheduled, so the layout restore is the last pending layout write |
| Extension.WizardToggle.Fire | extensions/app-grid-wizard@mirzadeh.pro/extension.js:52-96 | a firing timer is dropped. A reset empties the layout and changes nothing else. A layout restore writes the saved layout and changes nothing else, or on an empty save or a throw keeps the layout and schedules one tracked reset. A debounce clears its handle, keeps the layout, and while checked re-applies the folders with one tracked reset; otherwise it changes nothing else |
| Extension.WizardToggle.FireDebounce | extensions/app-grid-wizard@mirzadeh.pro/extension.js:228-234 | the debounce callback always clears the handle. While checked it re-applies the folders and adds exactly one tracked reset; otherwise the settings, the tracked set and the other timeouts are unchanged |
| Extension.WizardToggle.Destroy | extensions/app-grid-wizard@mirzadeh.pro/extension.js:250-267 | teardown as written: no handler stays connected, no timeout stays pending (so nothing can fire later), the tracked set is empty, and the layout is left as it was. Only the handles, handlers, pending timeouts and tracked set may change |
| Extension.WizardToggle.DestroyWithFinalReset | extensions/app-grid-wizard@mirzadeh.pro/extension.js:262-265 | teardown as its comment intends: everything is cancelled and disconnected as in `Destroy`, and the layout ends empty. Only those and the layout may change |
| Extension.WizardToggle.DisconnectSettings | extensions/app-grid-wizard@mirzadeh.pro/extension.js:254-260 | every folder-key handler and the `changed::enabled` handler are disconnected and both handles are cleared |
| Prefs.PrefsKeysMatchExtension | extensions/app-grid-wizard@mirzadeh.pro/prefs.js:7-21 | the preferences switch the same 13 keys, in the same order, as the extension's table |
| Prefs.RestoreIdsMatchTable | extensions/app-grid-wizard@mirzadeh.pro/prefs.js:156-161 | the id list in `_restoreSnapshot` is exactly the extension's table of ids |
| Prefs.RestoreSnapshot | extensions/app-grid-wizard@mirzadeh.pro/prefs.js:163-185 | without a snapshot nothing changes. Otherwise the folder list becomes the saved one and the layout becomes the saved one (empty when it was empty), unless the write throws. `enabled` and `snapshot-taken` end false in every case |
| Prefs.RestoreRow.constructor | extensions/app-grid-wizard@mirzadeh.pro/prefs.js:54-66 | the Restore button is sensitive iff a snapshot exists, and the subtitle says which |
| Prefs.OnRestoreResponse | extensions/app-grid-wizard@mirzadeh.pro/prefs.js:80-87 | any response other than `restore` changes nothing. `restore` runs `_restoreSnapshot`, leaves `snapshot-taken` false, shows the restored notice and desensitises the button |
| Scenarios.SnapshotApplyRestore | extensions/app-grid-wizard@mirzadeh.pro/extension.js:60-97 | snapshot, apply, restore gives back exactly the folder list from before, and a restore of the pre-apply layout is pending (when the layout read did not throw) |
| Scenarios.GamesKeyRow | extensions/app-grid-wizard@mirzadeh.pro/extension.js:18 | only row 2 (Games) is switched by `folder-games` |
| Scenarios.OneRowEnabled | extensions/app-grid-wizard@mirzadeh.pro/extension.js:100-105 | when exactly one row's key reads true, `applyFolders` writes exactly that row's id |
| Scenarios.OnlyGamesEnabled | extensions/app-grid-wizard@mirzadeh.pro/extension.js:100-105 | with only `folder-games` on, the folder list written is `["agw-games"]` |
| Scenarios.FullReplace | extensions/app-grid-wizard@mirzadeh.pro/extension.js:104-106 | a foreign folder is dropped: `["foo","agw-games"]` becomes `["agw-games"]` |
| Scenarios.TeardownKeepsLayout | extensions/app-grid-wizard@mirzadeh.pro/extension.js:262-265 | teardown as written leaves a non-empty layout in place with nothing pending, so the final reset never runs |
| Scenarios.RestoreWipesLayout | extensions/app-grid-wizard@mirzadeh.pro/extension.js:176-181 | while on with a non-empty saved layout and nothing pending, the restore action as written puts the saved layout back and then the notice's reset empties it, leaving nothing pending |
| Scenarios.RestoreKeepsLayout | extensions/app-grid-wizard@mirzadeh.pro/extension.js:176-181 | from the same state, the corrected restore action leaves the saved layout in place with nothing pending |
| Scenarios.TeardownResetsLayout | extensions/app-grid-wizard@mirzadeh.pro/extension.js:262-265 | the corrected teardown ends with an empty layout and nothing pending |

## Left out

- Widget and panel plumbing is left out because it is host UI wiring:
  - GObject class registration and the quick-settings indicator
    (`WizardIndicator`, `WizardManagerExtension.enable/disable`,
    extension.js:270-299);
  - the "More Settings…" item that opens the preferences
    (extension.js:184-193).
- Building the preferences window (prefs.js:24-150) is left out, apart from
  the restore row's initial state (prefs.js:54-66) and the dialog's
  response handler (prefs.js:80-87). The switch rows bind the folder keys
  to widgets. The model treats a folder key changed that way as the
  `changed::folder-*` notice (`OnFolderKeyChanged`).
- Gio, GLib and Shell are represented by `Store` and `Host`. The priorities
  and the 200, 300 and 2000 ms delays are not modelled: a timeout is only
  pending until the host fires it.
- The layout value is a sequence of opaque pages; only whether it is empty
  is inspected. `GVariant` internals, including the `n_children` probe, are
  not modelled.
- Translation (`_()`) is left out: folder names are their English source
  strings.
- Logging is left out.
- The dead `imports.gi` block in prefs.js:187-193 is left out because it
  has no effect.
- The host decides how categories match apps. Only the settings the
  extension writes are modelled.
- The shell's own `enabled` writes run the `changed::enabled` handler
  inline. Every other notice is a separate event, delivered as a call to a
  handler method: `installed-changed`, the `changed::folder-*` notices, and
  `enabled` written by the preferences process. No handler other than
  `changed::enabled` has a shell-side write that triggers it.
- An exception anywhere other than the three `try` blocks is not modelled.
- Extension.AppFolderManager.CancelSources: the tracked set keeps ids of
  timeouts that have already fired, as in the source. Removing such an id
  is a no-op in the model. The model does not capture the warning GLib logs
  for it.
- Extension.AppFolderManager.ResetLayout: resets are not coalesced. Each
  call adds its own pending timeout, as in the source.
- Extension.WizardToggle.Fire: a callback that returned `SOURCE_CONTINUE`
  is not modelled, because every callback in the source returns
  `SOURCE_REMOVE`.
- Prefs.PrefsKeysMatchExtension: relates only the keys. The preferences'
  titles and subtitles are not compared with the extension's folder names.

## Findings

| source | as written | input that shows it | evidently intended | confidence | as-written member | corrected member |
|---|---|---|---|---|---|---|
| extensions/app-grid-wizard@mirzadeh.pro/extension.js:262-265 | `destroy` calls `resetLayout`, which only schedules a timeout and tracks its id, then at once calls `cancelSources`, which removes every tracked id, including that one; the "reset layout once on teardown" never happens | a toggle built over the layout `[{"org.gnome.Nautilus.desktop": 0}]`, then destroyed: the layout afterwards is still that one page and nothing is pending | teardown ends with the layout written empty after the pending sources are cancelled | high (not executed) | Scenarios.TeardownKeepsLayout | Extension.WizardToggle.DestroyWithFinalReset |
| extensions/app-grid-wizard@mirzadeh.pro/extension.js:176-181 | the restore action writes `enabled := false` while `checked` is still true; the `changed::enabled` handler (extension.js:149-162) runs during that write, sees a change and calls `resetLayout`, whose 300 ms reset follows the 200 ms layout restore | the toggle on, a snapshot with a non-empty layout, nothing pending; choose "Restore Original Layout", then let both timers fire: the layout is the saved one, then empty | the saved layout is the last layout the restore action schedules | medium (not executed) | Scenarios.RestoreWipesLayout | Extension.WizardToggle.OnRestoreActivatedKeepingLayout |
