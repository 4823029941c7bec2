/**
 * The extension's fixed table of thirteen folders and the pure list
 * computations `applyFolders` and `removeFolders` make over it.
 */
module Folders {
  import opened Seqs

  /** One row of the folder table: the folder id written into
      `folder-children`, the boolean key in the extension's schema that
      switches it on, its display name and its desktop categories. */
  datatype FolderConfig = FolderConfig(id: string, schemaKey: string, name: string, categories: seq<string>)

  /** What `applyFolders` writes at a folder's own settings path. */
  datatype FolderMeta = FolderMeta(name: string, categories: seq<string>)

  const FolderConfigs: seq<FolderConfig> := [
    FolderConfig("agw-accessories", "folder-accessories", "Accessories", ["Utility"]),
    FolderConfig("agw-chrome-apps", "folder-chrome-apps", "Chrome Apps", ["chrome-apps"]),
    FolderConfig("agw-games", "folder-games", "Games", ["Game"]),
    FolderConfig("agw-graphics", "folder-graphics", "Graphics", ["Graphics"]),
    FolderConfig("agw-internet", "folder-internet", "Internet", ["Network", "WebBrowser", "Email"]),
    FolderConfig("agw-office", "folder-office", "Office", ["Office"]),
    FolderConfig("agw-programming", "folder-programming", "Programming", ["Development"]),
    FolderConfig("agw-science", "folder-science", "Science", ["Science"]),
    FolderConfig("agw-sound-video", "folder-sound-video", "Sound & Video", ["AudioVideo", "Audio", "Video"]),
    FolderConfig("agw-system-tools", "folder-system-tools", "System Tools", ["System", "Settings"]),
    FolderConfig("agw-universal-access", "folder-universal-access", "Universal Access", ["Accessibility"]),
    FolderConfig("agw-wine", "folder-wine", "Wine", ["Wine", "X-Wine", "Wine-Programs-Accessories"]),
    FolderConfig("agw-waydroid", "folder-waydroid", "Waydroid", ["Waydroid", "X-WayDroid-App"])
  ]

  /** `get_boolean(key)` on the extension's schema; a key the map does not
      hold reads as its schema default, false. */
  function IsOn(toggles: map<string, bool>, key: string): (r: bool)
    ensures key !in toggles ==> !r
    ensures key in toggles ==> r == toggles[key]
  {
    key in toggles && toggles[key]
  }

  /** `configs.map(c => c.id)`. */
  function Ids(cs: seq<FolderConfig>): seq<string>
  {
    seq(|cs|, i requires 0 <= i < |cs| => cs[i].id)
  }

  /** `configs.map(c => c.schemaKey)`. */
  function SchemaKeys(cs: seq<FolderConfig>): seq<string>
  {
    seq(|cs|, i requires 0 <= i < |cs| => cs[i].schemaKey)
  }

  /** Every id the extension owns, in table order. */
  const TableIds: seq<string> := Ids(FolderConfigs)

  /** No two rows share an id. */
  predicate UniqueIds(cs: seq<FolderConfig>)
  {
    forall c, d :: c in cs && d in cs && c.id == d.id ==> c == d
  }

  /** The table has thirteen rows, distinct ids, and every id has the `agw-` prefix. */
  lemma TableIsWellFormed()
    ensures |FolderConfigs| == 13 && |TableIds| == 13
    ensures Distinct(TableIds)
    ensures forall id :: id in TableIds ==> "agw-" <= id
  {
    assert forall i :: 0 <= i < |FolderConfigs| ==> TableIds[i] == FolderConfigs[i].id;
  }

  /** Distinct ids make the rows unique by id. */
  lemma DistinctIdsUnique(table: seq<FolderConfig>)
    requires Distinct(Ids(table))
    ensures UniqueIds(table)
  {
    forall c, d | c in table && d in table && c.id == d.id
      ensures c == d
    {
      var i :| 0 <= i < |table| && table[i] == c;
      var j :| 0 <= j < |table| && table[j] == d;
      assert Ids(table)[i] == c.id && Ids(table)[j] == d.id;
    }
  }

  /** The filter test of `applyFolders`: the row's key reads true. */
  function SwitchedOn(toggles: map<string, bool>): FolderConfig -> bool
  {
    (c: FolderConfig) => IsOn(toggles, c.schemaKey)
  }

  /** `FOLDER_CONFIGS.filter(c => get_boolean(c.schemaKey))`, over the table
      `table`. */
  function EnabledConfigs(table: seq<FolderConfig>, toggles: map<string, bool>): (r: seq<FolderConfig>)
    ensures |r| <= |table|
    ensures forall c :: c in r <==> c in table && IsOn(toggles, c.schemaKey)
  {
    Filter(table, SwitchedOn(toggles))
  }

  /** The list `applyFolders` writes into `folder-children`. */
  function EnabledIds(table: seq<FolderConfig>, toggles: map<string, bool>): (r: seq<string>)
    ensures |r| == |EnabledConfigs(table, toggles)| <= |table|
    ensures forall i :: 0 <= i < |r| ==> IsOn(toggles, EnabledConfigs(table, toggles)[i].schemaKey)
  {
    Ids(EnabledConfigs(table, toggles))
  }

  /** Mapping to ids keeps the subsequence relation. */
  lemma {:induction false} IdsKeepSubseq(a: seq<FolderConfig>, b: seq<FolderConfig>)
    requires IsSubseq(a, b)
    ensures IsSubseq(Ids(a), Ids(b))
  {
    if a != [] {
      if a[0] == b[0] && IsSubseq(a[1..], b[1..]) {
        IdsKeepSubseq(a[1..], b[1..]);
        assert Ids(a)[1..] == Ids(a[1..]);
        assert Ids(b)[1..] == Ids(b[1..]);
      } else {
        IdsKeepSubseq(a, b[1..]);
        assert Ids(b)[1..] == Ids(b[1..]);
      }
    }
  }

  /** An id occurs in `Ids(cs)` exactly when some row of `cs` carries it. */
  lemma IdsMembership(cs: seq<FolderConfig>, id: string)
    ensures id in Ids(cs) <==> exists c :: c in cs && c.id == id
  {
    if id in Ids(cs) {
      var i :| 0 <= i < |cs| && Ids(cs)[i] == id;
      assert cs[i] in cs;
    }
    if exists c :: c in cs && c.id == id {
      var c :| c in cs && c.id == id;
      var i :| 0 <= i < |cs| && cs[i] == c;
      assert Ids(cs)[i] == id;
    }
  }

  /** After `applyFolders` over a table with distinct ids, the folder list is
      exactly the ids of the switched-on rows: a row's id is present iff its
      key is on, nothing else is present, the ids come in table order and
      none repeats. */
  lemma EnabledIdsExact(table: seq<FolderConfig>, toggles: map<string, bool>)
    requires Distinct(Ids(table))
    ensures forall c :: c in table ==> (c.id in EnabledIds(table, toggles) <==> IsOn(toggles, c.schemaKey))
    ensures forall id :: id in EnabledIds(table, toggles) ==> id in Ids(table)
    ensures IsSubseq(EnabledIds(table, toggles), Ids(table))
    ensures Distinct(EnabledIds(table, toggles))
  {
    DistinctIdsUnique(table);
    var p := SwitchedOn(toggles);
    var en := EnabledConfigs(table, toggles);
    var ids := EnabledIds(table, toggles);
    FilterIsSubseq(table, p);
    IdsKeepSubseq(en, table);
    forall c | c in table
      ensures c.id in ids <==> IsOn(toggles, c.schemaKey)
    {
      IdsMembership(en, c.id);
      if c.id in ids {
        var d :| d in en && d.id == c.id;
        assert d == c;
      }
    }
    forall id | id in ids ensures id in Ids(table) {
      SubseqElements(ids, Ids(table), id);
    }
    forall i, j | 0 <= i < j < |ids|
      ensures ids[i] != ids[j]
    {
      assert en[i] in table && en[j] in table;
      if en[i].id == en[j].id {
        assert en[i] == en[j];
        FilterDistinctRows(table, toggles);
      }
    }
  }

  /** Rows with distinct ids are distinct, and so is any selection of them. */
  lemma FilterDistinctRows(table: seq<FolderConfig>, toggles: map<string, bool>)
    requires Distinct(Ids(table))
    ensures Distinct(EnabledConfigs(table, toggles))
  {
    assert Distinct(table) by {
      forall i, j | 0 <= i < j < |table|
        ensures table[i] != table[j]
      {
        assert Ids(table)[i] == table[i].id && Ids(table)[j] == table[j].id;
      }
    }
    FilterDistinct(table, SwitchedOn(toggles));
  }

  /** The test `removeFolders` keeps: the id is not one of `ours`. */
  function NotIn(ours: seq<string>): string -> bool
  {
    (id: string) => id !in ours
  }

  /** `current.filter(id => !ourIds.includes(id))`: what `removeFolders`
      writes back into `folder-children`. */
  function WithoutIds(current: seq<string>, ours: seq<string>): (r: seq<string>)
    ensures |r| <= |current|
    ensures forall id :: id in r <==> id in current && id !in ours
  {
    Filter(current, NotIn(ours))
  }

  /** `removeFolders` keeps exactly the foreign ids, in their order, a
      second removal changes nothing, and a list with none of ours is kept
      as it is. */
  lemma WithoutIdsSpec(current: seq<string>, ours: seq<string>)
    ensures forall id :: id in WithoutIds(current, ours) <==> id in current && id !in ours
    ensures IsSubseq(WithoutIds(current, ours), current)
    ensures WithoutIds(WithoutIds(current, ours), ours) == WithoutIds(current, ours)
    ensures (forall id :: id in current ==> id !in ours) ==> WithoutIds(current, ours) == current
  {
    FilterIsSubseq(current, NotIn(ours));
    FilterIdempotent(current, NotIn(ours));
    if forall id :: id in current ==> id !in ours {
      FilterKeepsAll(current, NotIn(ours));
    }
  }

  /** `removeFolders` removes only the thirteen ids of the table: an id with
      the `agw-` prefix that is not one of them stays in the list. */
  lemma ForeignAgwIdSurvives()
    ensures WithoutIds(["agw-custom", "foo", "agw-games"], TableIds) == ["agw-custom", "foo"]
  {
    TableIsWellFormed();
    assert TableIds[2] == "agw-games";
    var s := ["agw-custom", "foo", "agw-games"];
    assert Filter(s[2..], NotIn(TableIds)) == [] by {
      assert s[2..][1..] == [];
    }
    assert Filter(s[1..], NotIn(TableIds)) == ["foo"] by {
      assert s[1..][1..] == s[2..];
    }
  }

  /** The settings `applyFolders` writes for one folder. */
  function MetaOf(c: FolderConfig): (m: FolderMeta)
    ensures m.name == c.name && m.categories == c.categories
  {
    FolderMeta(c.name, c.categories)
  }

  /** The per-folder settings after writing name and categories for each
      row of `cs` in order, starting from `meta`. */
  function Configured(meta: map<string, FolderMeta>, cs: seq<FolderConfig>): (r: map<string, FolderMeta>)
    ensures forall id :: id in meta ==> id in r
    ensures forall i :: 0 <= i < |cs| ==> cs[i].id in r
    ensures cs != [] ==> r[cs[|cs| - 1].id] == MetaOf(cs[|cs| - 1])
    decreases |cs|
  {
    if cs == [] then meta
    else Configured(meta, cs[..|cs| - 1])[cs[|cs| - 1].id := MetaOf(cs[|cs| - 1])]
  }

  /** Every folder of `cs` ends with its own name and categories. */
  lemma {:induction false} ConfiguredWritten(meta: map<string, FolderMeta>, cs: seq<FolderConfig>, c: FolderConfig)
    requires UniqueIds(cs)
    requires c in cs
    ensures c.id in Configured(meta, cs) && Configured(meta, cs)[c.id] == MetaOf(c)
    decreases |cs|
  {
    var last := cs[|cs| - 1];
    var front := cs[..|cs| - 1];
    assert cs == front + [last];
    if c != last {
      assert c in front;
      assert last in cs;
      assert c.id != last.id;
      ConfiguredWritten(meta, front, c);
    }
  }

  /** A folder id no row of `cs` carries keeps whatever settings it had. */
  lemma {:induction false} ConfiguredUntouched(meta: map<string, FolderMeta>, cs: seq<FolderConfig>, id: string)
    requires forall c :: c in cs ==> c.id != id
    ensures id in Configured(meta, cs) <==> id in meta
    ensures id in meta ==> Configured(meta, cs)[id] == meta[id]
    decreases |cs|
  {
    if cs != [] {
      var front := cs[..|cs| - 1];
      assert forall c :: c in front ==> c in cs;
      assert cs[|cs| - 1] in cs;
      ConfiguredUntouched(meta, front, id);
    }
  }

  /** `applyFolders` writes name and categories for the switched-on folders
      only, each from its own row, and leaves every other path as it was. */
  lemma ApplyWritesEnabledOnly(meta: map<string, FolderMeta>, table: seq<FolderConfig>, toggles: map<string, bool>)
    requires Distinct(Ids(table))
    ensures forall c :: c in table && IsOn(toggles, c.schemaKey) ==>
      c.id in Configured(meta, EnabledConfigs(table, toggles)) &&
      Configured(meta, EnabledConfigs(table, toggles))[c.id] == MetaOf(c)
    ensures forall id :: id !in EnabledIds(table, toggles) ==>
      (id in Configured(meta, EnabledConfigs(table, toggles)) <==> id in meta) &&
      (id in meta ==> Configured(meta, EnabledConfigs(table, toggles))[id] == meta[id])
  {
    DistinctIdsUnique(table);
    var en := EnabledConfigs(table, toggles);
    assert UniqueIds(en);
    forall c | c in table && IsOn(toggles, c.schemaKey)
      ensures c.id in Configured(meta, en) && Configured(meta, en)[c.id] == MetaOf(c)
    {
      ConfiguredWritten(meta, en, c);
    }
    forall id | id !in EnabledIds(table, toggles)
      ensures (id in Configured(meta, en) <==> id in meta) && (id in meta ==> Configured(meta, en)[id] == meta[id])
    {
      IdsMembership(en, id);
      ConfiguredUntouched(meta, en, id);
    }
  }
}
