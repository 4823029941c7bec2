/**
 * The host collaborators the extension talks to, reduced to the state it
 * reads and writes: the settings keys of its three schemas, the GLib main
 * loop's timeout sources and the app system's `installed-changed` handlers.
 */
module Platform {
  import opened Folders

  /** One page of `app-picker-layout` (an `a{sv}`): icon id to position.
      The extension never looks inside a page. */
  datatype LayoutPage = LayoutPage(positions: map<string, nat>)

  /** The `aa{sv}` layout value; only its number of pages is inspected. */
  type Layout = seq<LayoutPage>

  /** A timeout callback registered with the main loop. */
  datatype Task =
    | ResetLayoutTask                   // resetLayout: write an empty layout
    | RestoreLayoutTask(saved: Layout)  // restoreSnapshot: write back the saved layout
    | DebounceTask                      // _scheduleUpdate: re-apply the folders

  /** The settings store. */
  class Store {
    // org.gnome.desktop.app-folders
    var folderChildren: seq<string>
    var folderMeta: map<string, FolderMeta>   // keyed by folder id (its relocatable path)
    // org.gnome.shell
    var layout: Layout                         // app-picker-layout
    // the extension's own schema
    var enabled: bool
    var snapshotTaken: bool
    var originalFolderChildren: seq<string>
    var originalLayout: Layout
    var toggles: map<string, bool>             // folder-* keys
    // `changed::` handlers connected to the extension's settings object
    var handlers: set<nat>
    var nextHandler: nat

    ghost predicate Valid()
      reads this
    {
      0 < nextHandler && forall h :: h in handlers ==> 0 < h < nextHandler
    }

    /** A store holding the given folder list, layout and folder switches,
        with the extension's flags and snapshot at their schema defaults. */
    constructor (children: seq<string>, layout: Layout, toggles: map<string, bool>)
      ensures Valid()
      ensures folderChildren == children && this.layout == layout && this.toggles == toggles
      ensures folderMeta == map[] && !enabled && !snapshotTaken
      ensures originalFolderChildren == [] && originalLayout == []
      ensures handlers == {}
    {
      folderChildren := children;
      folderMeta := map[];
      this.layout := layout;
      enabled := false;
      snapshotTaken := false;
      originalFolderChildren := [];
      originalLayout := [];
      this.toggles := toggles;
      handlers := {};
      nextHandler := 1;
    }

    /** `settings.connect('changed::…', …)`: a fresh, non-zero handler id. */
    method Connect() returns (h: nat)
      requires Valid()
      modifies this`handlers, this`nextHandler
      ensures Valid()
      ensures 0 < h && h !in old(handlers)
      ensures handlers == old(handlers) + {h}
    {
      h := nextHandler;
      handlers := handlers + {h};
      nextHandler := nextHandler + 1;
    }

    /** `settings.disconnect(h)`. */
    method Disconnect(h: nat)
      requires Valid()
      modifies this`handlers
      ensures Valid()
      ensures handlers == old(handlers) - {h}
    {
      handlers := handlers - {h};
    }
  }

  /** The main loop's pending timeout sources and the app system's
      `installed-changed` handlers, as far as the extension uses them. */
  class Host {
    var pending: map<nat, Task>
    var nextSource: nat
    var installedHandlers: set<nat>
    var nextHandler: nat

    ghost predicate Valid()
      reads this
    {
      0 < nextSource && 0 < nextHandler &&
      (forall id :: id in pending ==> 0 < id < nextSource) &&
      (forall h :: h in installedHandlers ==> 0 < h < nextHandler)
    }

    constructor ()
      ensures Valid() && pending == map[] && installedHandlers == {}
    {
      pending := map[];
      nextSource := 1;
      installedHandlers := {};
      nextHandler := 1;
    }

    /** `GLib.timeout_add(…, task)`: a fresh, non-zero source id. */
    method TimeoutAdd(task: Task) returns (id: nat)
      requires Valid()
      modifies this`pending, this`nextSource
      ensures Valid()
      ensures 0 < id && id == old(nextSource) && id !in old(pending)
      ensures pending == old(pending)[id := task]
      ensures nextSource == id + 1
    {
      id := nextSource;
      pending := pending[id := task];
      nextSource := nextSource + 1;
    }

    /** `GLib.Source.remove(id)`; an id that is no longer pending is left alone. */
    method SourceRemove(id: nat)
      requires Valid()
      modifies this`pending
      ensures Valid()
      ensures pending == old(pending) - {id}
    {
      pending := pending - {id};
    }

    /** `appSystem.connect('installed-changed', …)`. */
    method ConnectInstalledChanged() returns (h: nat)
      requires Valid()
      modifies this`installedHandlers, this`nextHandler
      ensures Valid()
      ensures 0 < h && h !in old(installedHandlers)
      ensures installedHandlers == old(installedHandlers) + {h}
    {
      h := nextHandler;
      installedHandlers := installedHandlers + {h};
      nextHandler := nextHandler + 1;
    }

    /** `appSystem.disconnect(h)`. */
    method DisconnectInstalledChanged(h: nat)
      requires Valid()
      modifies this`installedHandlers
      ensures Valid()
      ensures installedHandlers == old(installedHandlers) - {h}
    {
      installedHandlers := installedHandlers - {h};
    }
  }
}
