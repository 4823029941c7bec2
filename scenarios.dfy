/**
 * Sequences of the extension's operations and what they add up to: the
 * snapshot round trip, the full replacement of the folder list, the
 * restore menu action, and teardown.
 */
module Scenarios {
  import opened Seqs
  import opened Folders
  import opened Platform
  import opened Extension

  /** Snapshot, apply, restore: the folder list comes back exactly, and the
      pending layout restore carries the layout from before the apply. */
  method SnapshotApplyRestore(m: AppFolderManager, readFails: bool)
    requires m.Valid() && !m.store.snapshotTaken
    modifies m, m.store, m.host
    ensures m.Valid()
    ensures m.store.folderChildren == old(m.store.folderChildren)
    ensures !readFails ==> RestoreLayoutTask(old(m.store.layout)) in m.host.pending.Values
  {
    m.TakeSnapshot(readFails);
    m.ApplyFolders();
    m.RestoreSnapshot();
    assert m.host.pending[m.host.nextSource - 1] == RestoreLayoutTask(m.store.originalLayout);
  }

  /** Only the Games row is switched by the key `folder-games`. */
  lemma GamesKeyRow(i: nat)
    requires i < |FolderConfigs|
    ensures FolderConfigs[i].schemaKey == "folder-games" <==> i == 2
  {
  }

  /** When exactly one row is switched on, `applyFolders` writes exactly its id. */
  lemma OneRowEnabled(table: seq<FolderConfig>, t: map<string, bool>, j: nat)
    requires j < |table|
    requires forall i :: 0 <= i < |table| ==> (IsOn(t, table[i].schemaKey) <==> i == j)
    ensures EnabledIds(table, t) == [table[j].id]
  {
    FilterSingle(table, SwitchedOn(t), j);
  }

  /** With only `folder-games` on, `applyFolders` writes just the Games folder. */
  lemma OnlyGamesEnabled(t: map<string, bool>)
    requires forall k :: IsOn(t, k) <==> k == "folder-games"
    ensures EnabledIds(FolderConfigs, t) == ["agw-games"]
  {
    forall i | 0 <= i < |FolderConfigs|
      ensures IsOn(t, FolderConfigs[i].schemaKey) <==> i == 2
    {
      GamesKeyRow(i);
    }
    OneRowEnabled(FolderConfigs, t, 2);
  }

  /** A foreign folder is dropped by `applyFolders`: the list becomes exactly
      the enabled ids. */
  method FullReplace() returns (children: seq<string>)
    ensures children == ["agw-games"]
  {
    var toggles := map["folder-games" := true];
    var store := new Store(["foo", "agw-games"], [], toggles);
    var host := new Host();
    var m := new AppFolderManager(store, host);
    TableIsWellFormed();
    m.ApplyFolders();
    assert forall k :: IsOn(toggles, k) <==> k == "folder-games";
    OnlyGamesEnabled(toggles);
    children := store.folderChildren;
  }

  /** Teardown as written leaves a non-empty layout in place: the final reset
      it schedules is cancelled with the other sources and can never run. */
  method TeardownKeepsLayout() returns (layout: Layout, pending: map<nat, Task>)
    ensures layout == [LayoutPage(map["org.gnome.Nautilus.desktop" := 0])]
    ensures pending == map[]
  {
    var page := LayoutPage(map["org.gnome.Nautilus.desktop" := 0]);
    var store := new Store(["agw-games"], [page], map[]);
    var host := new Host();
    var t := new WizardToggle(store, host);
    t.Destroy();
    layout, pending := store.layout, host.pending;
  }

  /** The corrected teardown compacts the layout and leaves nothing pending. */
  method TeardownResetsLayout() returns (layout: Layout, pending: map<nat, Task>)
    ensures layout == [] && pending == map[]
  {
    var page := LayoutPage(map["org.gnome.Nautilus.desktop" := 0]);
    var store := new Store(["agw-games"], [page], map[]);
    var host := new Host();
    var t := new WizardToggle(store, host);
    t.DestroyWithFinalReset();
    layout, pending := store.layout, host.pending;
  }

  /** The restore action as written, while the toggle is on and nothing is
      pending (the turn-on and its layout compaction are over): the restore
      puts the saved layout back, and the reset the `changed::enabled`
      handler scheduled then empties it again. */
  method RestoreWipesLayout(t: WizardToggle) returns (restored: Layout, final: Layout)
    requires t.Valid() && t.checked && t.enabledChangedId.Some?
    requires t.store.snapshotTaken && t.store.originalLayout != [] && t.host.pending == map[]
    modifies t, t.manager, t.store, t.host
    ensures restored == old(t.store.originalLayout)
    ensures final == [] && t.host.pending == map[]
  {
    var n := t.host.nextSource;
    t.OnRestoreActivated();
    assert t.host.pending == map[n := RestoreLayoutTask(old(t.store.originalLayout)), n + 1 := ResetLayoutTask];
    t.Fire(n, false);
    restored := t.store.layout;
    t.Fire(n + 1, false);
    final := t.store.layout;
  }

  /** The corrected restore action from the same state: the saved layout is
      the last one written. */
  method RestoreKeepsLayout(t: WizardToggle) returns (final: Layout)
    requires t.Valid() && t.checked && t.enabledChangedId.Some?
    requires t.store.snapshotTaken && t.store.originalLayout != [] && t.host.pending == map[]
    modifies t, t.manager, t.store, t.host
    ensures final == old(t.store.originalLayout) && t.host.pending == map[]
  {
    var n := t.host.nextSource;
    t.OnRestoreActivatedKeepingLayout();
    assert t.host.pending == map[n := RestoreLayoutTask(old(t.store.originalLayout))];
    t.Fire(n, false);
    final := t.store.layout;
  }
}
