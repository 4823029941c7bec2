/**
 * The preferences window's state logic: its copy of the folder key table,
 * its synchronous restore of the snapshot, and the effect of the restore
 * dialog's response.
 */
module Prefs {
  import opened Folders
  import opened Platform

  /** One row of the preferences folder list. */
  datatype PrefsFolder = PrefsFolder(schemaKey: string, title: string, subtitle: string)

  const PrefsFolderConfigs: seq<PrefsFolder> := [
    PrefsFolder("folder-accessories", "Accessories", "Utility apps"),
    PrefsFolder("folder-chrome-apps", "Chrome Apps", "Chrome web applications"),
    PrefsFolder("folder-games", "Games", "Gaming applications"),
    PrefsFolder("folder-graphics", "Graphics", "Image and design tools"),
    PrefsFolder("folder-internet", "Internet", "Network, browsers, and email"),
    PrefsFolder("folder-office", "Office", "Productivity applications"),
    PrefsFolder("folder-programming", "Programming", "Development tools"),
    PrefsFolder("folder-science", "Science", "Scientific applications"),
    PrefsFolder("folder-sound-video", "Sound & Video", "Audio and video applications"),
    PrefsFolder("folder-system-tools", "System Tools", "System and settings"),
    PrefsFolder("folder-universal-access", "Universal Access", "Accessibility tools"),
    PrefsFolder("folder-wine", "Wine", "Windows applications"),
    PrefsFolder("folder-waydroid", "Waydroid", "Android applications")
  ]

  /** The id list `_restoreSnapshot` declares (and never uses). */
  const RestoreFolderIds: seq<string> := [
    "agw-accessories", "agw-chrome-apps", "agw-games", "agw-graphics",
    "agw-internet", "agw-office", "agw-programming", "agw-science",
    "agw-sound-video", "agw-system-tools", "agw-universal-access",
    "agw-wine", "agw-waydroid"
  ]

  /** The keys the preferences list binds, in order. */
  function PrefsKeys(ps: seq<PrefsFolder>): seq<string>
  {
    seq(|ps|, i requires 0 <= i < |ps| => ps[i].schemaKey)
  }

  /** The preferences window switches the same thirteen keys, in the same
      order, that the extension reads. */
  lemma PrefsKeysMatchExtension()
    ensures PrefsKeys(PrefsFolderConfigs) == SchemaKeys(FolderConfigs)
  {
  }

  /** The id list in `_restoreSnapshot` is the extension's table of ids. */
  lemma RestoreIdsMatchTable()
    ensures RestoreFolderIds == TableIds
  {
    assert forall i :: 0 <= i < |FolderConfigs| ==> TableIds[i] == FolderConfigs[i].id;
  }

  /** `_restoreSnapshot`: with a snapshot, put the saved folder list back,
      write the layout at once (the saved one if it has pages, else an
      empty one), then clear `enabled` and `snapshot-taken`. `layoutFails`
      says whether the layout step throws; the flags are cleared anyway. */
  method RestoreSnapshot(settings: Store, layoutFails: bool)
    modifies settings`folderChildren, settings`layout, settings`enabled, settings`snapshotTaken
    ensures !old(settings.snapshotTaken) ==> unchanged(settings)
    ensures old(settings.snapshotTaken) ==>
      settings.folderChildren == settings.originalFolderChildren &&
      settings.layout == (if layoutFails then old(settings.layout) else settings.originalLayout) &&
      !settings.enabled && !settings.snapshotTaken
  {
    if settings.snapshotTaken {
      var original := settings.originalFolderChildren;
      settings.folderChildren := original;
      if !layoutFails {
        var originalLayout := settings.originalLayout;
        if |originalLayout| > 0 {
          settings.layout := originalLayout;
        } else {
          settings.layout := [];
        }
      }
      settings.enabled := false;
      settings.snapshotTaken := false;
    }
  }

  const SnapshotAvailable := "A snapshot is available"
  const NoSnapshotYet := "No snapshot available yet (enable the extension first)"
  const RestoredNotice := "Restored! Log out and back in to see changes."

  /** The restore row's mutable widget state: its subtitle and whether the
      Restore button is sensitive. */
  class RestoreRow {
    var subtitle: string
    var sensitive: bool

    /** Both reflect `snapshot-taken` when the window is built. */
    constructor (settings: Store)
      ensures sensitive == settings.snapshotTaken
      ensures subtitle == if settings.snapshotTaken then SnapshotAvailable else NoSnapshotYet
    {
      sensitive := settings.snapshotTaken;
      subtitle := if settings.snapshotTaken then SnapshotAvailable else NoSnapshotYet;
    }
  }

  /** The confirmation dialog's `response` handler: only `"restore"` acts. */
  method OnRestoreResponse(settings: Store, row: RestoreRow, response: string, layoutFails: bool)
    modifies settings`folderChildren, settings`layout, settings`enabled, settings`snapshotTaken, row
    ensures response != "restore" ==> unchanged(settings, row)
    ensures response == "restore" ==>
      !settings.snapshotTaken && !row.sensitive && row.subtitle == RestoredNotice &&
      (old(settings.snapshotTaken) ==>
        settings.folderChildren == settings.originalFolderChildren &&
        settings.layout == (if layoutFails then old(settings.layout) else settings.originalLayout) &&
        !settings.enabled) &&
      (!old(settings.snapshotTaken) ==>
        settings.folderChildren == old(settings.folderChildren) &&
        settings.layout == old(settings.layout) &&
        settings.enabled == old(settings.enabled))
  {
    if response == "restore" {
      RestoreSnapshot(settings, layoutFails);
      row.subtitle := RestoredNotice;
      settings.snapshotTaken := false;
      row.sensitive := false;
    }
  }
}
