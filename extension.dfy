/**
 * The shell side of the extension: `AppFolderManager`, which snapshots,
 * applies, removes and restores the folder configuration, and
 * `WizardToggle`, the quick-settings toggle that drives it, watches for
 * changes and debounces re-application.
 */
module Extension {
  import opened Seqs
  import opened Folders
  import opened Platform

  datatype Option<T> = None | Some(value: T)

  /** The ids an optional handle holds. */
  function OptSet(o: Option<nat>): set<nat>
  {
    if o.Some? then {o.value} else {}
  }

  /** The handles a list of handler ids holds. */
  function Elems(s: seq<nat>): set<nat>
  {
    set h | h in s
  }

  class AppFolderManager {
    const store: Store
    const host: Host
    /** The folder table the manager works from (`FOLDER_CONFIGS`). */
    const table: seq<FolderConfig>
    /** `_sources`: every timeout this manager registered. */
    var sources: set<nat>

    ghost predicate Valid()
      reads this, store, host
    {
      store.Valid() && host.Valid() && Distinct(Ids(table))
    }

    constructor (store: Store, host: Host)
      ensures this.store == store && this.host == host && sources == {}
      ensures table == FolderConfigs
    {
      this.store := store;
      this.host := host;
      table := FolderConfigs;
      sources := {};
    }

    /** `_trackSource`: remember a non-zero source id for cancellation. */
    method TrackSource(id: nat)
      modifies this`sources
      ensures sources == if id != 0 then old(sources) + {id} else old(sources)
    {
      if id != 0 {
        sources := sources + {id};
      }
    }

    /** `cancelSources`: remove every tracked source and forget them all. */
    method CancelSources()
      requires Valid()
      modifies this`sources, host`pending
      ensures Valid()
      ensures sources == {}
      ensures host.pending == old(host.pending) - old(sources)
    {
      var rest := sources;
      while rest != {}
        invariant rest <= old(sources)
        invariant host.Valid()
        invariant host.pending == old(host.pending) - (old(sources) - rest)
        decreases rest
      {
        var id :| id in rest;
        host.SourceRemove(id);
        rest := rest - {id};
      }
      sources := {};
    }

    /** `resetLayout`: schedule one deferred write of an empty layout. */
    method ResetLayout()
      requires Valid()
      modifies this`sources, host`pending, host`nextSource
      ensures Valid()
      ensures old(host.nextSource) !in old(host.pending)
      ensures host.pending == old(host.pending)[old(host.nextSource) := ResetLayoutTask]
      ensures host.nextSource == old(host.nextSource) + 1
      ensures sources == old(sources) + {old(host.nextSource)}
    {
      var id := host.TimeoutAdd(ResetLayoutTask);
      TrackSource(id);
    }

    /** The callback `resetLayout` registers. */
    method ResetLayoutCallback()
      modifies store`layout
      ensures store.layout == []
    {
      store.layout := [];
    }

    /** `takeSnapshot`: a one-shot copy of the folder list and the layout.
        `readFails` says whether reading `app-picker-layout` throws; the
        saved layout is then left as it was, and the snapshot still counts
        as taken. */
    method TakeSnapshot(readFails: bool)
      modifies store`originalFolderChildren, store`originalLayout, store`snapshotTaken
      ensures store.snapshotTaken
      ensures old(store.snapshotTaken) ==> unchanged(store)
      ensures !old(store.snapshotTaken) ==>
        store.originalFolderChildren == store.folderChildren &&
        store.originalLayout == (if readFails then old(store.originalLayout) else store.layout)
    {
      if !store.snapshotTaken {
        store.originalFolderChildren := store.folderChildren;
        if !readFails {
          store.originalLayout := store.layout;
        }
        store.snapshotTaken := true;
      }
    }

    /** `restoreSnapshot`: with a snapshot, put the saved folder list back at
        once and schedule one deferred layout restore carrying the saved layout. */
    method RestoreSnapshot()
      requires Valid()
      modifies store`folderChildren, this`sources, host`pending, host`nextSource
      ensures Valid()
      ensures !old(store.snapshotTaken) ==> unchanged(store, host) && sources == old(sources)
      ensures old(store.snapshotTaken) ==>
        store.folderChildren == store.originalFolderChildren &&
        old(host.nextSource) !in old(host.pending) &&
        host.pending == old(host.pending)[old(host.nextSource) := RestoreLayoutTask(store.originalLayout)] &&
        host.nextSource == old(host.nextSource) + 1 &&
        sources == old(sources) + {old(host.nextSource)}
    {
      if !store.snapshotTaken {
        return;
      }
      var original := store.originalFolderChildren;
      var originalLayout := store.originalLayout;
      store.folderChildren := original;
      var id := host.TimeoutAdd(RestoreLayoutTask(originalLayout));
      TrackSource(id);
    }

    /** The callback `restoreSnapshot` registers. A non-empty saved layout is
        written verbatim; an empty one, or a write that throws (`fails`),
        falls back to `resetLayout`. */
    method RestoreLayoutCallback(saved: Layout, fails: bool)
      requires Valid()
      modifies store`layout, this`sources, host`pending, host`nextSource
      ensures Valid()
      ensures !fails && |saved| > 0 ==>
        store.layout == saved && unchanged(host) && sources == old(sources)
      ensures fails || |saved| == 0 ==>
        store.layout == old(store.layout) &&
        old(host.nextSource) !in old(host.pending) &&
        host.pending == old(host.pending)[old(host.nextSource) := ResetLayoutTask] &&
        host.nextSource == old(host.nextSource) + 1 &&
        sources == old(sources) + {old(host.nextSource)}
    {
      if !fails && |saved| > 0 {
        store.layout := saved;
      } else {
        ResetLayout();
      }
    }

    /** `applyFolders`: replace the folder list by the switched-on ids, write
        each switched-on folder's name and categories, then schedule one
        layout reset. */
    method ApplyFolders()
      requires Valid()
      modifies store`folderChildren, store`folderMeta, this`sources, host`pending, host`nextSource
      ensures Valid()
      ensures store.folderChildren == EnabledIds(table, store.toggles)
      ensures store.folderMeta == Configured(old(store.folderMeta), EnabledConfigs(table, store.toggles))
      ensures old(host.nextSource) !in old(host.pending)
      ensures host.pending == old(host.pending)[old(host.nextSource) := ResetLayoutTask]
      ensures host.nextSource == old(host.nextSource) + 1
      ensures sources == old(sources) + {old(host.nextSource)}
    {
      var enabledConfigs := EnabledConfigs(table, store.toggles);
      WriteFolders(enabledConfigs);
      ResetLayout();
    }

    /** The writing half of `applyFolders`: the given rows' ids become the
        folder list, and each row's name and categories are written in order. */
    method WriteFolders(configs: seq<FolderConfig>)
      modifies store`folderChildren, store`folderMeta
      ensures store.folderChildren == Ids(configs)
      ensures store.folderMeta == Configured(old(store.folderMeta), configs)
    {
      store.folderChildren := Ids(configs);
      var i := 0;
      while i < |configs|
        modifies store`folderMeta
        invariant 0 <= i <= |configs|
        invariant store.folderMeta == Configured(old(store.folderMeta), configs[..i])
      {
        var config := configs[i];
        store.folderMeta := store.folderMeta[config.id := MetaOf(config)];
        assert configs[..i + 1][..i] == configs[..i];
        i := i + 1;
      }
      assert configs[..i] == configs;
    }

    /** `removeFolders`: drop the table's ids from the folder list. */
    method RemoveFolders()
      modifies store`folderChildren
      ensures store.folderChildren == WithoutIds(old(store.folderChildren), Ids(table))
    {
      var current := store.folderChildren;
      var ourIds := Ids(table);
      store.folderChildren := Filter(current, NotIn(ourIds));
    }
  }

  class WizardToggle {
    const store: Store
    const host: Host
    const manager: AppFolderManager
    var checked: bool
    var monitorId: Option<nat>
    var debounceId: Option<nat>
    var settingsChangedIds: seq<nat>
    var enabledChangedId: Option<nat>

    /** The pending debounce timers. */
    ghost function PendingDebounce(): set<nat>
      reads host
    {
      set id | id in host.pending && host.pending[id] == DebounceTask
    }

    /** The toggle's bookkeeping matches the host: the debounce handle names
        the only pending debounce timer, every other pending timer is tracked
        by the manager, and the monitor and settings handles are exactly the
        connected handlers. */
    ghost predicate Valid()
      reads this, manager, store, host
    {
      manager.store == store && manager.host == host && manager.Valid() &&
      (debounceId.Some? ==> debounceId.value in host.pending && host.pending[debounceId.value] == DebounceTask) &&
      (forall id :: id in host.pending && host.pending[id] == DebounceTask ==> debounceId == Some(id)) &&
      (forall id :: id in host.pending && host.pending[id] != DebounceTask ==> id in manager.sources) &&
      host.installedHandlers == OptSet(monitorId) &&
      store.handlers == Elems(settingsChangedIds) + OptSet(enabledChangedId)
    }

    /** At most one debounce timer is ever pending. */
    lemma AtMostOneDebounce()
      requires Valid()
      ensures PendingDebounce() == OptSet(debounceId)
      ensures |PendingDebounce()| <= 1
    {
    }

    /** `_init`: read `enabled`, connect the `changed::enabled` handler and one
        handler per folder key, and start monitoring when already enabled. */
    constructor (store: Store, host: Host)
      requires store.Valid() && host.Valid()
      requires store.handlers == {} && host.pending == map[] && host.installedHandlers == {}
      modifies store`handlers, store`nextHandler, host`installedHandlers, host`nextHandler
      ensures Valid()
      ensures this.store == store && this.host == host && fresh(manager) && manager.sources == {}
      ensures manager.table == FolderConfigs
      ensures checked == store.enabled
      ensures enabledChangedId.Some? && |settingsChangedIds| == |FolderConfigs|
      ensures monitorId.Some? == checked && debounceId == None
      ensures host.pending == map[]
    {
      this.store := store;
      this.host := host;
      manager := new AppFolderManager(store, host);
      TableIsWellFormed();
      monitorId := None;
      debounceId := None;
      checked := store.enabled;
      var enabledId := store.Connect();
      enabledChangedId := Some(enabledId);
      var ids: seq<nat> := [];
      for i := 0 to |FolderConfigs|
        invariant |ids| == i
        invariant store.Valid()
        invariant store.handlers == Elems(ids) + {enabledId}
        modifies store`handlers, store`nextHandler
      {
        var id := store.Connect();
        ids := ids + [id];
      }
      settingsChangedIds := ids;
      new;
      if checked {
        StartMonitoring();
      }
    }

    /** `_startMonitoring`: connect to `installed-changed` unless already connected. */
    method StartMonitoring()
      requires Valid()
      modifies this`monitorId, host`installedHandlers, host`nextHandler
      ensures Valid()
      ensures monitorId.Some?
      ensures old(monitorId).Some? ==> monitorId == old(monitorId) && unchanged(host)
    {
      if monitorId.Some? {
        return;
      }
      var h := host.ConnectInstalledChanged();
      monitorId := Some(h);
    }

    /** `_scheduleUpdate`: cancel the pending debounce timer, if any, and
        start a new one. */
    method ScheduleUpdate()
      requires Valid()
      modifies this`debounceId, host`pending, host`nextSource
      ensures Valid()
      ensures debounceId == Some(old(host.nextSource))
      ensures old(host.nextSource) !in old(host.pending)
      ensures host.pending == (old(host.pending) - OptSet(old(debounceId)))[old(host.nextSource) := DebounceTask]
      ensures host.nextSource == old(host.nextSource) + 1
      ensures PendingDebounce() == {old(host.nextSource)}
    {
      if debounceId.Some? {
        host.SourceRemove(debounceId.value);
      }
      var id := host.TimeoutAdd(DebounceTask);
      debounceId := Some(id);
    }

    /** `_stopMonitoring`: disconnect from `installed-changed` and cancel the
        pending debounce timer. */
    method StopMonitoring()
      requires Valid()
      modifies this`monitorId, this`debounceId, host`installedHandlers, host`pending
      ensures Valid()
      ensures monitorId == None && debounceId == None
      ensures host.installedHandlers == {}
      ensures host.pending == old(host.pending) - OptSet(old(debounceId))
      ensures PendingDebounce() == {}
    {
      if monitorId.Some? {
        host.DisconnectInstalledChanged(monitorId.value);
        monitorId := None;
      }
      if debounceId.Some? {
        host.SourceRemove(debounceId.value);
        debounceId := None;
      }
    }

    /** The `installed-changed` handler; the app system only calls it while
        the toggle is connected. */
    method OnInstalledChanged()
      requires Valid() && monitorId.Some?
      modifies this`debounceId, host`pending, host`nextSource
      ensures Valid()
      ensures debounceId == Some(old(host.nextSource))
      ensures host.pending == (old(host.pending) - OptSet(old(debounceId)))[old(host.nextSource) := DebounceTask]
    {
      ScheduleUpdate();
    }

    /** The `changed::folder-*` handler: reschedule only while checked. */
    method OnFolderKeyChanged()
      requires Valid() && settingsChangedIds != []
      modifies this`debounceId, host`pending, host`nextSource
      ensures Valid()
      ensures !checked ==> unchanged(this, host)
      ensures checked ==>
        debounceId == Some(old(host.nextSource)) &&
        host.pending == (old(host.pending) - OptSet(old(debounceId)))[old(host.nextSource) := DebounceTask]
    {
      if checked {
        ScheduleUpdate();
      }
    }

    /** What the turn-on transition does: the snapshot is taken once (an
        earlier snapshot is kept), the folders are applied, one tracked
        reset is scheduled and monitoring runs. The layout and the debounce
        handle are left alone. */
    twostate predicate TurnedOn(readFails: bool)
      reads this, manager, store, host
    {
      store.snapshotTaken &&
      (old(store.snapshotTaken) ==>
        store.originalFolderChildren == old(store.originalFolderChildren) &&
        store.originalLayout == old(store.originalLayout)) &&
      (!old(store.snapshotTaken) ==>
        store.originalFolderChildren == old(store.folderChildren) &&
        store.originalLayout == (if readFails then old(store.originalLayout) else old(store.layout))) &&
      store.folderChildren == EnabledIds(manager.table, store.toggles) &&
      store.folderMeta == Configured(old(store.folderMeta), EnabledConfigs(manager.table, store.toggles)) &&
      store.layout == old(store.layout) &&
      host.pending == old(host.pending)[old(host.nextSource) := ResetLayoutTask] &&
      host.nextSource == old(host.nextSource) + 1 &&
      manager.sources == old(manager.sources) + {old(host.nextSource)} &&
      monitorId.Some? && (old(monitorId).Some? ==> monitorId == old(monitorId)) &&
      debounceId == old(debounceId)
    }

    /** What the turn-off transition does: one tracked reset is scheduled,
        the debounce timer is cancelled and monitoring stops. The folders,
        their settings, the layout and the snapshot are all kept. */
    twostate predicate TurnedOff()
      reads this, manager, store, host
    {
      store.folderChildren == old(store.folderChildren) &&
      store.folderMeta == old(store.folderMeta) &&
      store.layout == old(store.layout) &&
      store.snapshotTaken == old(store.snapshotTaken) &&
      store.originalFolderChildren == old(store.originalFolderChildren) &&
      store.originalLayout == old(store.originalLayout) &&
      host.pending == (old(host.pending) - OptSet(old(debounceId)))[old(host.nextSource) := ResetLayoutTask] &&
      host.nextSource == old(host.nextSource) + 1 &&
      manager.sources == old(manager.sources) + {old(host.nextSource)} &&
      monitorId == None && debounceId == None && host.installedHandlers == {}
    }

    /** The "turn on" transition shared by `_onClicked` and the
        `changed::enabled` handler: snapshot (once), apply, start monitoring. */
    method TurnOn(readFails: bool)
      requires Valid()
      modifies store`originalFolderChildren, store`originalLayout, store`snapshotTaken
      modifies store`folderChildren, store`folderMeta, manager`sources
      modifies host`pending, host`nextSource, this`monitorId, host`installedHandlers, host`nextHandler
      ensures Valid()
      ensures TurnedOn(readFails)
    {
      manager.TakeSnapshot(readFails);
      manager.ApplyFolders();
      StartMonitoring();
    }

    /** The "turn off" transition shared by `_onClicked` and the
        `changed::enabled` handler: compact the layout, stop monitoring. The
        folders stay. */
    method TurnOff()
      requires Valid()
      modifies manager`sources, host`pending, host`nextSource
      modifies this`monitorId, this`debounceId, host`installedHandlers
      ensures Valid()
      ensures TurnedOff()
    {
      ghost var n := host.nextSource;
      manager.ResetLayout();
      StopMonitoring();
      assert n !in OptSet(old(debounceId));
    }

    /** The `changed::enabled` handler. When `checked` already equals the
        stored flag (the echo of the toggle's own write) it does nothing;
        otherwise it takes the same transition as a click. */
    method OnEnabledChanged(readFails: bool)
      requires Valid() && enabledChangedId.Some?
      modifies this`checked
      modifies store`originalFolderChildren, store`originalLayout, store`snapshotTaken
      modifies store`folderChildren, store`folderMeta, manager`sources
      modifies host`pending, host`nextSource, this`monitorId, this`debounceId, host`installedHandlers, host`nextHandler
      ensures Valid()
      ensures old(checked == store.enabled) ==> unchanged(this, manager, store, host)
      ensures checked == store.enabled
      ensures old(checked != store.enabled) && store.enabled ==> TurnedOn(readFails)
      ensures old(checked != store.enabled) && !store.enabled ==> TurnedOff()
    {
      var enabled := store.enabled;
      if checked == enabled {
        return;
      }
      checked := enabled;
      if enabled {
        TurnOn(readFails);
      } else {
        TurnOff();
      }
    }

    /** `set_boolean('enabled', value)` from inside the shell: the store
        emits `changed::enabled` before the call returns, so the handler runs
        at once. If `checked` already equals `value` (or the handler is
        gone) that is an echo and nothing else changes. */
    method StoreEnabled(value: bool, readFails: bool)
      requires Valid()
      modifies this`checked, store`enabled
      modifies store`originalFolderChildren, store`originalLayout, store`snapshotTaken
      modifies store`folderChildren, store`folderMeta, manager`sources
      modifies host`pending, host`nextSource, this`monitorId, this`debounceId, host`installedHandlers, host`nextHandler
      ensures Valid()
      ensures store.enabled == value
      ensures old(checked) == value || enabledChangedId.None? ==>
        checked == old(checked) && unchanged(this, manager, host) &&
        store.folderChildren == old(store.folderChildren) && store.folderMeta == old(store.folderMeta) &&
        store.layout == old(store.layout) && store.snapshotTaken == old(store.snapshotTaken) &&
        store.originalFolderChildren == old(store.originalFolderChildren) &&
        store.originalLayout == old(store.originalLayout)
      ensures old(checked) != value && enabledChangedId.Some? ==>
        checked == value && (value ==> TurnedOn(readFails)) && (!value ==> TurnedOff())
    {
      store.enabled := value;
      if enabledChangedId.Some? {
        OnEnabledChanged(readFails);
      }
    }

    /** A click: the toggle flips `checked` itself (toggle mode), then
        `_onClicked` stores the new state and takes the transition. Storing
        `enabled` runs the `changed::enabled` handler at once, which finds
        `checked` equal to the new value and does nothing. Turning off keeps
        the folders and the snapshot and only compacts the layout. */
    method OnClicked(readFails: bool)
      requires Valid()
      modifies this`checked, store`enabled
      modifies store`originalFolderChildren, store`originalLayout, store`snapshotTaken
      modifies store`folderChildren, store`folderMeta, manager`sources
      modifies host`pending, host`nextSource, this`monitorId, this`debounceId, host`installedHandlers, host`nextHandler
      ensures Valid()
      ensures checked == !old(checked) && store.enabled == checked
      ensures checked ==> TurnedOn(readFails)
      ensures !checked ==> TurnedOff()
    {
      checked := !checked;
      StoreEnabled(checked, readFails);
      if checked {
        TurnOn(readFails);
      } else {
        TurnOff();
      }
    }

    /** The pending timeouts after the restore action: the debounce timer is
        gone, a layout restore is added when there was a snapshot, and a
        reset is added after it when `reset` holds. */
    static ghost function RestorePending(pending: map<nat, Task>, next: nat, debounce: Option<nat>,
                                  snapshot: bool, saved: Layout, reset: bool): map<nat, Task>
    {
      var kept := pending - OptSet(debounce);
      var restored := if snapshot then kept[next := RestoreLayoutTask(saved)] else kept;
      var after := if snapshot then next + 1 else next;
      if reset then restored[after := ResetLayoutTask] else restored
    }

    /** The pending map after the restore action, assembled from its steps:
        the restore timeout, the handler's reset and the monitor stop. */
    static lemma RestorePendingSteps(p0: map<nat, Task>, n0: nat, d0: Option<nat>, snapshot: bool, saved: Layout,
                              reset: bool, p1: map<nat, Task>, n1: nat, p3: map<nat, Task>)
      requires n0 !in p0 && (d0.Some? ==> d0.value in p0)
      requires p1 == (if snapshot then p0[n0 := RestoreLayoutTask(saved)] else p0)
      requires n1 == (if snapshot then n0 + 1 else n0)
      requires p3 == if reset then (p1 - OptSet(d0))[n1 := ResetLayoutTask] else p1 - OptSet(d0)
      ensures p3 == RestorePending(p0, n0, d0, snapshot, saved, reset)
    {
      if snapshot {
        assert p0[n0 := RestoreLayoutTask(saved)] - OptSet(d0) == (p0 - OptSet(d0))[n0 := RestoreLayoutTask(saved)];
      }
    }

    /** The tail that both restore actions share: store `enabled := false`
        (running the `changed::enabled` handler at once), clear `checked` and
        stop monitoring. The handler turns off, and so schedules a reset,
        exactly when `checked` was still set. */
    method SwitchOff()
      requires Valid()
      modifies this`checked, store`enabled, manager`sources
      modifies store`originalFolderChildren, store`originalLayout, store`snapshotTaken
      modifies store`folderChildren, store`folderMeta
      modifies host`pending, host`nextSource, this`monitorId, this`debounceId, host`installedHandlers, host`nextHandler
      ensures Valid()
      ensures !store.enabled && !checked
      ensures monitorId == None && debounceId == None && host.installedHandlers == {}
      ensures store.layout == old(store.layout) && store.folderMeta == old(store.folderMeta)
      ensures store.folderChildren == old(store.folderChildren) && store.snapshotTaken == old(store.snapshotTaken)
      ensures store.originalFolderChildren == old(store.originalFolderChildren)
      ensures store.originalLayout == old(store.originalLayout)
      ensures var reset := old(checked) && enabledChangedId.Some?;
        host.pending == (if reset then (old(host.pending) - OptSet(old(debounceId)))[old(host.nextSource) := ResetLayoutTask]
                         else old(host.pending) - OptSet(old(debounceId))) &&
        host.nextSource == (if reset then old(host.nextSource) + 1 else old(host.nextSource)) &&
        manager.sources == (if reset then old(manager.sources) + {old(host.nextSource)} else old(manager.sources))
    {
      StoreEnabled(false, false);  // the turn-off path never reads the layout
      checked := false;
      StopMonitoring();
    }

    /** The "Restore Original Layout" menu action as written. Writing
        `enabled := false` while `checked` is still true runs the
        `changed::enabled` handler at once: it takes the turn-off path and
        schedules a reset after the layout restore, so the restored layout is
        then overwritten by an empty one. */
    method OnRestoreActivated()
      requires Valid()
      modifies this`checked, store`enabled, store`snapshotTaken, store`folderChildren, manager`sources
      modifies store`originalFolderChildren, store`originalLayout, store`folderMeta
      modifies host`pending, host`nextSource, this`monitorId, this`debounceId, host`installedHandlers, host`nextHandler
      ensures Valid()
      ensures !store.enabled && !store.snapshotTaken && !checked
      ensures monitorId == None && debounceId == None && host.installedHandlers == {}
      ensures store.layout == old(store.layout) && store.folderMeta == old(store.folderMeta)
      ensures store.originalFolderChildren == old(store.originalFolderChildren)
      ensures store.originalLayout == old(store.originalLayout)
      ensures store.folderChildren ==
        if old(store.snapshotTaken) then old(store.originalFolderChildren) else old(store.folderChildren)
      ensures host.pending == RestorePending(old(host.pending), old(host.nextSource), old(debounceId),
                                             old(store.snapshotTaken), old(store.originalLayout),
                                             old(checked) && enabledChangedId.Some?)
    {
      ghost var p0, n0, d0 := host.pending, host.nextSource, debounceId;
      manager.RestoreSnapshot();
      ghost var p1, n1 := host.pending, host.nextSource;
      store.snapshotTaken := false;
      SwitchOff();
      RestorePendingSteps(p0, n0, d0, old(store.snapshotTaken), old(store.originalLayout),
                          old(checked) && enabledChangedId.Some?, p1, n1, host.pending);
    }

    /** The restore action with `checked` cleared before `enabled` is
        written, so the synchronous `changed::enabled` notice is an echo and
        the layout restore is the last layout write scheduled. */
    method OnRestoreActivatedKeepingLayout()
      requires Valid()
      modifies this`checked, store`enabled, store`snapshotTaken, store`folderChildren, manager`sources
      modifies store`originalFolderChildren, store`originalLayout, store`folderMeta
      modifies host`pending, host`nextSource, this`monitorId, this`debounceId, host`installedHandlers, host`nextHandler
      ensures Valid()
      ensures !store.enabled && !store.snapshotTaken && !checked
      ensures monitorId == None && debounceId == None && host.installedHandlers == {}
      ensures store.layout == old(store.layout) && store.folderMeta == old(store.folderMeta)
      ensures store.originalFolderChildren == old(store.originalFolderChildren)
      ensures store.originalLayout == old(store.originalLayout)
      ensures store.folderChildren ==
        if old(store.snapshotTaken) then old(store.originalFolderChildren) else old(store.folderChildren)
      ensures host.pending == RestorePending(old(host.pending), old(host.nextSource), old(debounceId),
                                             old(store.snapshotTaken), old(store.originalLayout), false)
    {
      ghost var p0, n0, d0 := host.pending, host.nextSource, debounceId;
      manager.RestoreSnapshot();
      ghost var p1, n1 := host.pending, host.nextSource;
      store.snapshotTaken := false;
      checked := false;
      SwitchOff();
      RestorePendingSteps(p0, n0, d0, old(store.snapshotTaken), old(store.originalLayout), false, p1, n1, host.pending);
    }

    /** The main loop runs the callback of pending timer `id` and, since every
        callback returns `SOURCE_REMOVE`, drops the source. `fails` says
        whether a layout restore throws. */
    method Fire(id: nat, fails: bool)
      requires Valid() && id in host.pending
      modifies store`layout, store`folderChildren, store`folderMeta, manager`sources
      modifies this`debounceId, host`pending, host`nextSource
      ensures Valid()
      ensures id !in host.pending
      ensures old(host.pending[id]) == ResetLayoutTask ==>
        store.layout == [] && host.pending == old(host.pending) - {id} &&
        host.nextSource == old(host.nextSource) &&
        unchanged(this) && manager.sources == old(manager.sources) &&
        store.folderChildren == old(store.folderChildren) && store.folderMeta == old(store.folderMeta)
      ensures old(host.pending[id]).RestoreLayoutTask? ==>
        var saved := old(host.pending[id]).saved;
        unchanged(this) &&
        store.folderChildren == old(store.folderChildren) && store.folderMeta == old(store.folderMeta) &&
        (!fails && |saved| > 0 ==>
          store.layout == saved && host.pending == old(host.pending) - {id} &&
          host.nextSource == old(host.nextSource) && manager.sources == old(manager.sources)) &&
        (fails || |saved| == 0 ==>
          store.layout == old(store.layout) &&
          host.pending == (old(host.pending) - {id})[old(host.nextSource) := ResetLayoutTask] &&
          host.nextSource == old(host.nextSource) + 1 &&
          manager.sources == old(manager.sources) + {old(host.nextSource)})
      ensures old(host.pending[id]) == DebounceTask ==>
        debounceId == None && store.layout == old(store.layout) &&
        (checked ==>
          store.folderChildren == EnabledIds(manager.table, store.toggles) &&
          store.folderMeta == Configured(old(store.folderMeta), EnabledConfigs(manager.table, store.toggles)) &&
          host.pending == (old(host.pending) - {id})[old(host.nextSource) := ResetLayoutTask] &&
          host.nextSource == old(host.nextSource) + 1 &&
          manager.sources == old(manager.sources) + {old(host.nextSource)}) &&
        (!checked ==>
          unchanged(store) && host.pending == old(host.pending) - {id} &&
          host.nextSource == old(host.nextSource) && manager.sources == old(manager.sources))
    {
      var task := host.pending[id];
      match task
      case ResetLayoutTask =>
        host.SourceRemove(id);
        manager.ResetLayoutCallback();
      case RestoreLayoutTask(saved) =>
        host.SourceRemove(id);
        manager.RestoreLayoutCallback(saved, fails);
      case DebounceTask =>
        FireDebounce(id);
    }

    /** The debounce callback: re-apply only if still checked, then clear the handle. */
    method FireDebounce(id: nat)
      requires Valid() && id in host.pending && host.pending[id] == DebounceTask
      modifies store`folderChildren, store`folderMeta, manager`sources
      modifies this`debounceId, host`pending, host`nextSource
      ensures Valid()
      ensures id !in host.pending && debounceId == None
      ensures checked ==>
        store.folderChildren == EnabledIds(manager.table, store.toggles) &&
        store.folderMeta == Configured(old(store.folderMeta), EnabledConfigs(manager.table, store.toggles)) &&
        host.pending == (old(host.pending) - {id})[old(host.nextSource) := ResetLayoutTask] &&
        host.nextSource == old(host.nextSource) + 1 &&
        manager.sources == old(manager.sources) + {old(host.nextSource)}
      ensures !checked ==>
        unchanged(store) && host.pending == old(host.pending) - {id} &&
        host.nextSource == old(host.nextSource) && manager.sources == old(manager.sources)
    {
      host.SourceRemove(id);
      debounceId := None;
      assert Valid();
      if checked {
        manager.ApplyFolders();
      }
    }

    /** `destroy`: stop monitoring, disconnect the settings handlers, schedule a
        final layout reset and cancel every tracked source. The reset is among
        the sources cancelled, so it never runs and the layout stays as it was.
        Nothing else of the settings changes. */
    method Destroy()
      requires Valid()
      modifies this`monitorId, this`debounceId, this`settingsChangedIds, this`enabledChangedId
      modifies store`handlers, manager`sources, host`pending, host`nextSource, host`installedHandlers
      ensures Valid()
      ensures monitorId == None && debounceId == None
      ensures settingsChangedIds == [] && enabledChangedId == None
      ensures manager.sources == {} && host.pending == map[]
      ensures store.handlers == {} && host.installedHandlers == {}
      ensures store.layout == old(store.layout)
    {
      StopMonitoring();
      DisconnectSettings();
      manager.ResetLayout();
      manager.CancelSources();
    }

    /** `destroy` as its comments intend it: the final reset is written at once,
        after every pending source has been cancelled. */
    method DestroyWithFinalReset()
      requires Valid()
      modifies this`monitorId, this`debounceId, this`settingsChangedIds, this`enabledChangedId
      modifies store`handlers, store`layout, manager`sources, host`pending, host`installedHandlers
      ensures Valid()
      ensures monitorId == None && debounceId == None
      ensures settingsChangedIds == [] && enabledChangedId == None
      ensures manager.sources == {} && host.pending == map[]
      ensures store.handlers == {} && host.installedHandlers == {}
      ensures store.layout == []
    {
      StopMonitoring();
      DisconnectSettings();
      manager.CancelSources();
      manager.ResetLayoutCallback();
    }

    /** The settings-handler half of `destroy`. */
    method DisconnectSettings()
      requires Valid()
      modifies this`settingsChangedIds, this`enabledChangedId, store`handlers
      ensures Valid()
      ensures settingsChangedIds == [] && enabledChangedId == None && store.handlers == {}
    {
      for i := 0 to |settingsChangedIds|
        modifies store`handlers
        invariant store.Valid()
        invariant store.handlers == old(store.handlers) - Elems(settingsChangedIds[..i])
      {
        store.Disconnect(settingsChangedIds[i]);
        assert settingsChangedIds[..i + 1] == settingsChangedIds[..i] + [settingsChangedIds[i]];
      }
      assert settingsChangedIds[..|settingsChangedIds|] == settingsChangedIds;
      settingsChangedIds := [];
      if enabledChangedId.Some? {
        store.Disconnect(enabledChangedId.value);
      }
      enabledChangedId := None;
    }
  }
}
