/** Building the change set of a USB gadget: directories, attributes, report
    descriptors and the links that enable functions. */
module GadgetTx {
  import opened Wrappers
  import opened ChangeSet
  import opened Resolver

  datatype Attr = Attr(name: string, value: seq<Byte>)

  /** A gadget item; the attribute lists are in whatever order the maps of the
      configuration are walked. */
  datatype Item = Item(
    enabled: bool,
    device: string,
    path: Path,
    attrs: seq<Attr>,
    configPath: Option<Path>,
    configAttrs: Option<seq<Attr>>,
    reportDesc: Option<seq<Byte>>)

  datatype Paths = Paths(configFs: Path, gadget: Path, c1: Path, dwc3: Path, udc: seq<Byte>)

  const REORDER := Named("reorder-symlinks")
  const UDC := Named("udc")

  /** An enabled function of the gadget: a link in the configuration points to it. */
  predicate IsFunction(item: Item) {
    item.configPath.Some? && item.configAttrs.None?
  }

  function DisableKey(item: Item): Key {
    Named("disable-" + item.device)
  }

  function DirOf(p: Paths, item: Item): Path {
    p.gadget + item.path
  }

  function ConfigDirOf(p: Paths, item: Item): Path {
    p.c1 + if item.configPath.Some? then item.configPath.value else []
  }

  // ---- What the transaction consists of ----

  function Requested(path: Path, expected: Expected, deps: seq<Key>, before: seq<Key>): Change {
    Change(At(path), path, expected, deps, before, false, false)
  }

  function AttrChange(base: Path, a: Attr, before: seq<Key>): Change {
    Requested(base + [a.name], ContentMatch(a.value), [At(base)], before).(ignoreErrors := a.name == "wakeup_on_write")
  }

  function AttrChanges(base: Path, attrs: seq<Attr>, before: seq<Key>): (r: seq<Change>)
    ensures |r| == |attrs| && forall i :: 0 <= i < |attrs| ==> r[i] == AttrChange(base, attrs[i], before)
  {
    seq(|attrs|, i requires 0 <= i < |attrs| => AttrChange(base, attrs[i], before))
  }

  function Keys(cs: seq<Change>): (r: seq<Key>)
    ensures |r| == |cs| && forall i :: 0 <= i < |cs| ==> r[i] == cs[i].key
  {
    seq(|cs|, i requires 0 <= i < |cs| => cs[i].key)
  }

  lemma KeysAppend(a: seq<Change>, b: seq<Change>)
    ensures Keys(a + b) == Keys(a) + Keys(b)
  {
  }

  lemma KeysOfOne(c: Change)
    ensures Keys([c]) == [c.key] && Keys([]) == []
  {
  }

  /** The keys that take the links of all enabled functions away. */
  function DisableKeys(items: seq<Item>): seq<Key> {
    if items == [] then []
    else
      var r, last := DisableKeys(items[..|items| - 1]), items[|items| - 1];
      if last.enabled && IsFunction(last) then r + [DisableKey(last)] else r
  }

  function Before(items: seq<Item>, item: Item): seq<Key> {
    if IsFunction(item) then DisableKeys(items) else []
  }

  function DirChanges(p: Paths, item: Item, deps: seq<Key>): seq<Change> {
    if item.path == [] then [] else [Requested(DirOf(p, item), Directory, deps, [])]
  }

  function ReportChange(p: Paths, items: seq<Item>, item: Item, deps: seq<Key>): Change {
    Requested(DirOf(p, item) + ["report_desc"],
              if item.reportDesc.Some? then ContentMatch(item.reportDesc.value) else Absent,
              deps, Before(items, item))
  }

  function ConfigDirChanges(p: Paths, item: Item, deps: seq<Key>): seq<Change> {
    if ConfigDirOf(p, item) == p.c1 then [] else [Requested(ConfigDirOf(p, item), Directory, deps, [])]
  }

  function ConfigChanges(p: Paths, items: seq<Item>, item: Item, deps: seq<Key>): seq<Change> {
    if item.configAttrs.None? || item.configAttrs.value == [] then []
    else
      ConfigDirChanges(p, item, deps)
      + AttrChanges(ConfigDirOf(p, item), item.configAttrs.value, Before(items, item))
  }

  /** Only carried out as a "before change" of something else. */
  function DisableChange(p: Paths, item: Item): Change {
    Change(DisableKey(item), ConfigDirOf(p, item), Absent, [], [], false, true)
  }

  function AttrFiles(p: Paths, items: seq<Item>, item: Item, deps: seq<Key>): seq<Change> {
    DirChanges(p, item, deps) + AttrChanges(DirOf(p, item), item.attrs, Before(items, item))
  }

  function FunctionFiles(p: Paths, items: seq<Item>, item: Item, deps: seq<Key>): seq<Change> {
    var files := AttrFiles(p, items, item, deps);
    files + [ReportChange(p, items, item, deps + Keys(files))]
  }

  /** The changes of one enabled item that later ones may depend on. */
  function ItemFiles(p: Paths, items: seq<Item>, item: Item, deps: seq<Key>): seq<Change> {
    var files := FunctionFiles(p, items, item, deps);
    files + ConfigChanges(p, items, item, deps + Keys(files))
  }

  function ItemChanges(p: Paths, items: seq<Item>, item: Item, deps: seq<Key>): seq<Change> {
    ItemFiles(p, items, item, deps) + if IsFunction(item) then [DisableChange(p, item)] else []
  }

  function RemovalChanges(p: Paths, item: Item): seq<Change> {
    if item.configPath.None? then [] else [Requested(ConfigDirOf(p, item), Absent, [], [])]
  }

  /** The reordering of links, once there is a function to link. */
  function AddLink(p: Paths, r: Option<Change>, item: Item, deps: seq<Key>): Option<Change> {
    if !IsFunction(item) then r
    else
      var c := if r.Some? then r.value else Change(REORDER, p.c1, SymlinksInOrder([]), [], [], false, false);
      Some(c.(dependsOn := c.dependsOn + deps,
      expected := SymlinksInOrder(LinksOf(c) + [Symlink(ConfigDirOf(p, item), DirOf(p, item))])))
  }

  /** Changes, dependencies for the next item and reordering after some items. */
  datatype Progress = Progress(changes: seq<Change>, deps: seq<Key>, reorder: Option<Change>)

  function AfterItem(p: Paths, items: seq<Item>, s: Progress, item: Item): Progress {
    if !item.enabled then s.(changes := s.changes + RemovalChanges(p, item))
    else
      var deps := s.deps + Keys(ItemFiles(p, items, item, s.deps));
      Progress(s.changes + ItemChanges(p, items, item, s.deps), deps, AddLink(p, s.reorder, item, deps))
  }

  function Head(p: Paths): seq<Change> {
    [Requested(p.configFs, MountedConfigFS, [], []),
     Requested(p.c1, Directory, [At(p.configFs)], []),
     Requested(p.gadget, Directory, [At(p.c1)], [])]
  }

  function AfterItems(p: Paths, items: seq<Item>, n: nat): Progress
    requires n <= |items|
  {
    if n == 0 then Progress(Head(p), [At(p.gadget)], None)
    else AfterItem(p, items, AfterItems(p, items, n - 1), items[n - 1])
  }

  function UdcChange(p: Paths): Change {
    Change(UDC, p.gadget + ["UDC"], ContentMatch(p.udc), [REORDER], [], false, false)
  }

  function RebindChanges(p: Paths, ignoreUnbindError: bool): seq<Change> {
    [Requested(p.dwc3 + ["unbind"], FileWrite(p.udc), [UDC], []).(ignoreErrors := ignoreUnbindError),
     Requested(p.dwc3 + ["bind"], FileWrite(p.udc), [At(p.dwc3 + ["unbind"])], [])]
  }

  // ---- The transaction object ----

  datatype CommitResult = Panicked | Committed(resolution: Resolution, log: seq<Applied>, end: Fs, ok: bool)

  class UsbGadgetTransaction {
    const p: Paths
    const orderedConfigItems: seq<Item>
    var changes: seq<Change>
    var reorderSymlinkChanges: Option<Change>

    constructor (p: Paths, items: seq<Item>)
      ensures this.p == p && orderedConfigItems == items && changes == [] && reorderSymlinkChanges == None
    {
      this.p, orderedConfigItems := p, items;
      changes, reorderSymlinkChanges := [], None;
    }

    method AddFileChange(change: Change) returns (key: Key)
      modifies this`changes
      ensures changes == old(changes) + [change] && key == change.key
    {
      changes := changes + [change];
      key := change.key;
    }

    method WriteGadgetAttrs(base: Path, attrs: seq<Attr>, before: seq<Key>) returns (files: seq<Key>)
      modifies this`changes
      ensures changes == old(changes) + AttrChanges(base, attrs, before)
      ensures files == Keys(AttrChanges(base, attrs, before))
    {
      files := [];
      for i := 0 to |attrs|
        invariant |files| == i && forall j :: 0 <= j < i ==> files[j] == At(base + [attrs[j].name])
        invariant changes == old(changes) + AttrChanges(base, attrs, before)[..i]
      {
        var file := AddFileChange(AttrChange(base, attrs[i], before));
        files := files + [file];
      }
    }

    method GetDisableKeys() returns (keys: seq<Key>)
      ensures keys == DisableKeys(orderedConfigItems)
    {
      keys := [];
      for i := 0 to |orderedConfigItems|
        invariant keys == DisableKeys(orderedConfigItems[..i])
      {
        var item := orderedConfigItems[i];
        assert orderedConfigItems[..i + 1][..i] == orderedConfigItems[..i];
        if !item.enabled {
          continue;
        }
        if item.configPath.None? || item.configAttrs.Some? {
          continue;
        }
        keys := keys + [Named("disable-" + item.device)];
      }
      assert orderedConfigItems[..|orderedConfigItems|] == orderedConfigItems;
    }

    method DisableGadgetItemConfig(item: Item)
      modifies this`changes
      ensures changes == old(changes) + RemovalChanges(p, item)
    {
      if item.configPath.None? {
        return;
      }
      var _ := AddFileChange(Requested(ConfigDirOf(p, item), Absent, [], []));
    }

    method AddReorderSymlinkChange(item: Item, deps: seq<Key>)
      requires IsFunction(item)
      modifies this`reorderSymlinkChanges
      ensures reorderSymlinkChanges == AddLink(p, old(reorderSymlinkChanges), item, deps)
    {
      if reorderSymlinkChanges.None? {
        reorderSymlinkChanges := Some(Change(REORDER, p.c1, SymlinksInOrder([]), [], [], false, false));
      }
      var change := reorderSymlinkChanges.value;
      reorderSymlinkChanges := Some(change.(
        dependsOn := change.dependsOn + deps,
        expected := SymlinksInOrder(LinksOf(change) + [Symlink(ConfigDirOf(p, item), DirOf(p, item))])));
    }

    method WriteConfigAttrs(item: Item, before: seq<Key>, deps: seq<Key>) returns (files: seq<Key>)
      requires before == Before(orderedConfigItems, item)
      modifies this`changes
      ensures changes == old(changes) + ConfigChanges(p, orderedConfigItems, item, deps)
      ensures files == deps + Keys(ConfigChanges(p, orderedConfigItems, item, deps))
    {
      hide AttrChanges, ConfigDirOf, Before, Keys;
      files := deps;
      var configItemPath := ConfigDirOf(p, item);
      KeysOfOne(Requested(configItemPath, Directory, deps, []));
      if item.configAttrs.Some? && |item.configAttrs.value| > 0 {
        if configItemPath != p.c1 {
          var dir := AddFileChange(Requested(configItemPath, Directory, files, []));
          files := files + [dir];
        }
        ghost var dirs := ConfigDirChanges(p, item, deps);
        assert changes == old(changes) + dirs && files == deps + Keys(dirs);
        hide ConfigDirChanges;
        var attrs := WriteGadgetAttrs(configItemPath, item.configAttrs.value, before);
        files := files + attrs;
        KeysAppend(dirs, AttrChanges(configItemPath, item.configAttrs.value, before));
      }
    }

    /** The item's own directory, its attributes and its report descriptor. */
    method WriteFunctionFiles(item: Item, before: seq<Key>, deps: seq<Key>) returns (files: seq<Key>)
      requires before == Before(orderedConfigItems, item)
      modifies this`changes
      ensures changes == old(changes) + FunctionFiles(p, orderedConfigItems, item, deps)
      ensures files == deps + Keys(FunctionFiles(p, orderedConfigItems, item, deps))
    {
      hide AttrChanges, Before, Keys;
      files := deps;
      var gadgetItemPath := DirOf(p, item);
      ghost var dirs := DirChanges(p, item, deps);
      KeysOfOne(Requested(gadgetItemPath, Directory, deps, []));
      if gadgetItemPath != p.gadget {
        var dir := AddFileChange(Requested(gadgetItemPath, Directory, files, []));
        files := files + [dir];
      }
      assert changes == old(changes) + dirs && files == deps + Keys(dirs);
      hide DirChanges;
      var attrs := WriteGadgetAttrs(gadgetItemPath, item.attrs, before);
      files := files + attrs;
      KeysAppend(dirs, AttrChanges(gadgetItemPath, item.attrs, before));
      ghost var written := AttrFiles(p, orderedConfigItems, item, deps);
      assert changes == old(changes) + written && files == deps + Keys(written);
      hide AttrFiles;
      var change := Requested(
        gadgetItemPath + ["report_desc"],
        if item.reportDesc.Some? then ContentMatch(item.reportDesc.value) else Absent,
        files, before);
      var report := AddFileChange(change);
      files := files + [report];
      KeysOfOne(change);
      KeysAppend(written, [change]);
    }

    method WriteGadgetItemConfig(item: Item, deps: seq<Key>) returns (files: seq<Key>)
      modifies this`changes, this`reorderSymlinkChanges
      ensures changes == old(changes) + ItemChanges(p, orderedConfigItems, item, deps)
      ensures files == deps + Keys(ItemFiles(p, orderedConfigItems, item, deps))
      ensures reorderSymlinkChanges == AddLink(p, old(reorderSymlinkChanges), item, files)
    {
      hide FunctionFiles, ConfigChanges, DisableKeys;
      var before := [];
      if item.configPath.Some? && item.configAttrs.None? {
        before := GetDisableKeys();
      }
      files := WriteFunctionFiles(item, before, deps);
      files := WriteConfigAttrs(item, before, files);
      assert changes == old(changes) + ItemFiles(p, orderedConfigItems, item, deps);
      if item.configPath.Some? && item.configAttrs.None? {
        var _ := AddFileChange(DisableChange(p, item));
        AddReorderSymlinkChange(item, files);
      }
    }

    /** Mounts, creates the two base directories, and writes every item. */
    method WriteGadgetConfig()
      requires changes == [] && reorderSymlinkChanges == None
      modifies this`changes, this`reorderSymlinkChanges
      ensures var end := AfterItems(p, orderedConfigItems, |orderedConfigItems|);
              changes == end.changes + [UdcChange(p)] && reorderSymlinkChanges == end.reorder
    {
      hide AfterItem;
      var _ := AddFileChange(Requested(p.configFs, MountedConfigFS, [], []));
      var _ := AddFileChange(Requested(p.c1, Directory, [At(p.configFs)], []));
      var gadget := AddFileChange(Requested(p.gadget, Directory, [At(p.c1)], []));
      assert changes == Head(p);
      var deps := [gadget];
      for i := 0 to |orderedConfigItems|
        invariant Progress(changes, deps, reorderSymlinkChanges) == AfterItems(p, orderedConfigItems, i)
      {
        var item := orderedConfigItems[i];
        AfterItemCases(p, orderedConfigItems, Progress(changes, deps, reorderSymlinkChanges), item);
        if !item.enabled {
          DisableGadgetItemConfig(item);
          continue;
        }
        deps := WriteGadgetItemConfig(item, deps);
      }
      var _ := AddFileChange(UdcChange(p));
    }

    /** Adds the reordering last and applies the change set. Without any
        function there is no reordering to add, and the source panics. */
    method Commit(fs: Fs, answers: seq<bool>) returns (r: CommitResult, ghost acting: set<Key>)
      modifies this`changes
      ensures r.Panicked? <==> reorderSymlinkChanges.None?
      ensures r.Committed? ==>
        && changes == old(changes) + [reorderSymlinkChanges.value]
        && IsOutcome(changes, fs, acting, r.resolution)
        && (r.resolution.Failed? ==> r.end == fs && r.log == [] && !r.ok)
        && (r.resolution.Plan? ==>
              && IsRun(fs, r.resolution.changes, r.log) && r.end == StateAt(fs, r.log, |r.log|)
              && (r.ok <==> HasFinished(r.resolution.changes, r.log)))
    {
      acting := {};
      if reorderSymlinkChanges.None? {
        return Panicked, {};
      }
      var _ := AddFileChange(reorderSymlinkChanges.value);
      var resolver := new ChangeSetResolver();
      var resolution, log, end, ok := resolver.Apply(changes, fs, answers);
      r := Committed(resolution, log, end, ok);
      acting := resolver.acting;
    }

    method RebindUsb(ignoreUnbindError: bool)
      modifies this`changes
      ensures changes == old(changes) + RebindChanges(p, ignoreUnbindError)
    {
      var unbind := AddFileChange(RebindChanges(p, ignoreUnbindError)[0]);
      var _ := AddFileChange(Requested(p.dwc3 + ["bind"], FileWrite(p.udc), [unbind], []));
    }
  }

  lemma AfterItemCases(p: Paths, items: seq<Item>, s: Progress, item: Item)
    ensures !item.enabled ==>
      AfterItem(p, items, s, item) == s.(changes := s.changes + RemovalChanges(p, item))
    ensures item.enabled ==>
      var deps := s.deps + Keys(ItemFiles(p, items, item, s.deps));
      AfterItem(p, items, s, item)
      == Progress(s.changes + ItemChanges(p, items, item, s.deps), deps, AddLink(p, s.reorder, item, deps))
  {
  }
}
