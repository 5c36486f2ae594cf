/** What holds for every gadget transaction: it always resolves, and functions
    are only rewritten while no link enables them. */
module GadgetSafety {
  import opened Wrappers
  import opened ChangeSet
  import opened Graphs
  import opened Resolver
  import opened GadgetTx

  // ---- Dependencies always point back ----

  function Known(cs: seq<Change>): set<Key> {
    set c | c in cs && !c.conditional :: c.key
  }

  /** Each change depends on unconditional changes before it, or on `base`. */
  predicate Back(base: set<Key>, cs: seq<Change>) {
    cs == [] ||
    (Back(base, cs[..|cs| - 1]) && Elements(cs[|cs| - 1].dependsOn) <= base + Known(cs[..|cs| - 1]))
  }

  lemma {:induction false} BackAppend(base: set<Key>, a: seq<Change>, b: seq<Change>)
    requires Back(base, a) && Back(base + Known(a), b)
    ensures Back(base, a + b)
  {
    if b == [] {
      assert a + b == a;
    } else {
      var init, last := b[..|b| - 1], b[|b| - 1];
      BackAppend(base, a, init);
      assert (a + b)[..|a + b| - 1] == a + init;
      assert Known(a + init) == Known(a) + Known(init);
    }
  }

  lemma {:induction false} BackAt(base: set<Key>, cs: seq<Change>, i: nat)
    requires Back(base, cs) && i < |cs|
    ensures Elements(cs[i].dependsOn) <= base + Known(cs[..i])
  {
    if i < |cs| - 1 {
      BackAt(base, cs[..|cs| - 1], i);
      assert cs[..|cs| - 1][..i] == cs[..i];
    }
  }

  /** Changes that only depend on what is known already. */
  lemma {:induction false} BackIndependent(base: set<Key>, cs: seq<Change>)
    requires forall c :: c in cs ==> Elements(c.dependsOn) <= base
    ensures Back(base, cs)
  {
    if cs != [] {
      BackIndependent(base, cs[..|cs| - 1]);
    }
  }

  lemma BackOne(base: set<Key>, c: Change)
    requires Elements(c.dependsOn) <= base
    ensures Back(base, [c])
  {
    assert [c][..0] == [] && Back(base, []);
  }

  lemma KnownAppend(a: seq<Change>, b: seq<Change>)
    ensures Known(a + b) == Known(a) + Known(b)
  {
  }

  lemma KeysAreKnown(cs: seq<Change>)
    requires forall c :: c in cs ==> !c.conditional
    ensures Elements(Keys(cs)) == Known(cs)
  {
    forall c | c in cs
      ensures c.key in Keys(cs)
    {
      var i :| 0 <= i < |cs| && cs[i] == c;
      assert Keys(cs)[i] == c.key;
    }
    forall k | k in Keys(cs)
      ensures k in Known(cs)
    {
      var i :| 0 <= i < |Keys(cs)| && Keys(cs)[i] == k;
      assert cs[i] in cs;
    }
  }

  // ---- One item ----

  /** An unconditional change of an item: named by its path, a directory, a
      file or an absence, with all the disabling changes before it or none. */
  ghost predicate IsFileChange(items: seq<Item>, c: Change) {
    && !c.conditional
    && c.key == At(c.path)
    && !c.expected.SymlinksInOrder? && !c.expected.FileWrite?
    && (c.beforeChange == [] || c.beforeChange == DisableKeys(items))
  }

  lemma AttrChangesBack(base: set<Key>, items: seq<Item>, dir: Path, attrs: seq<Attr>, before: seq<Key>)
    requires At(dir) in base && (before == [] || before == DisableKeys(items))
    ensures Back(base, AttrChanges(dir, attrs, before))
    ensures forall c :: c in AttrChanges(dir, attrs, before) ==> IsFileChange(items, c)
  {
    BackIndependent(base, AttrChanges(dir, attrs, before));
  }

  lemma AttrFilesBack(base: set<Key>, p: Paths, items: seq<Item>, item: Item, deps: seq<Key>)
    requires Elements(deps) <= base && At(p.gadget) in base
    ensures Back(base, AttrFiles(p, items, item, deps))
    ensures forall c :: c in AttrFiles(p, items, item, deps) ==> IsFileChange(items, c)
  {
    hide AttrChanges;
    var dirs := DirChanges(p, item, deps);
    var attrs := AttrChanges(DirOf(p, item), item.attrs, Before(items, item));
    BackIndependent(base, dirs);
    if item.path == [] {
      assert DirOf(p, item) == p.gadget;
    } else {
      assert dirs[0] in dirs;
    }
    assert At(DirOf(p, item)) in base + Known(dirs);
    AttrChangesBack(base + Known(dirs), items, DirOf(p, item), item.attrs, Before(items, item));
    BackAppend(base, dirs, attrs);
  }

  lemma FunctionFilesBack(base: set<Key>, p: Paths, items: seq<Item>, item: Item, deps: seq<Key>)
    requires Elements(deps) <= base && At(p.gadget) in base
    ensures Back(base, FunctionFiles(p, items, item, deps))
    ensures forall c :: c in FunctionFiles(p, items, item, deps) ==> IsFileChange(items, c)
  {
    hide AttrFiles;
    var files := AttrFiles(p, items, item, deps);
    AttrFilesBack(base, p, items, item, deps);
    KeysAreKnown(files);
    var report := ReportChange(p, items, item, deps + Keys(files));
    assert Elements(deps + Keys(files)) == Elements(deps) + Elements(Keys(files));
    BackOne(base + Known(files), report);
    BackAppend(base, files, [report]);
  }

  lemma ConfigChangesBack(base: set<Key>, p: Paths, items: seq<Item>, item: Item, deps: seq<Key>)
    requires Elements(deps) <= base && At(p.c1) in base
    ensures Back(base, ConfigChanges(p, items, item, deps))
    ensures forall c :: c in ConfigChanges(p, items, item, deps) ==> IsFileChange(items, c)
  {
    if item.configAttrs.Some? && item.configAttrs.value != [] {
      var dir := ConfigDirOf(p, item);
      var dirs := ConfigDirChanges(p, item, deps);
      BackIndependent(base, dirs);
      assert dir != p.c1 ==> dirs[0] in dirs;
      AttrChangesBack(base + Known(dirs), items, dir, item.configAttrs.value, Before(items, item));
      BackAppend(base, dirs, AttrChanges(dir, item.configAttrs.value, Before(items, item)));
    }
  }

  lemma ItemFilesBack(base: set<Key>, p: Paths, items: seq<Item>, item: Item, deps: seq<Key>)
    requires Elements(deps) <= base && At(p.gadget) in base && At(p.c1) in base
    ensures Back(base, ItemFiles(p, items, item, deps))
    ensures forall c :: c in ItemFiles(p, items, item, deps) ==> IsFileChange(items, c)
    ensures Elements(deps + Keys(ItemFiles(p, items, item, deps))) == Elements(deps) + Known(ItemFiles(p, items, item, deps))
  {
    hide FunctionFiles, ConfigChanges;
    var files := FunctionFiles(p, items, item, deps);
    FunctionFilesBack(base, p, items, item, deps);
    KeysAreKnown(files);
    assert Elements(deps + Keys(files)) == Elements(deps) + Elements(Keys(files));
    ConfigChangesBack(base + Known(files), p, items, item, deps + Keys(files));
    BackAppend(base, files, ConfigChanges(p, items, item, deps + Keys(files)));
    var all := ItemFiles(p, items, item, deps);
    KeysAreKnown(all);
    assert Elements(deps + Keys(all)) == Elements(deps) + Elements(Keys(all));
  }

  // ---- All items ----

  ghost predicate IsEnabledFunction(items: seq<Item>, item: Item) {
    item in items && item.enabled && IsFunction(item)
  }

  ghost predicate HasShape(p: Paths, items: seq<Item>, c: Change) {
    IsFileChange(items, c) || exists item :: IsEnabledFunction(items, item) && c == DisableChange(p, item)
  }

  ghost predicate IsReordering(p: Paths, c: Change) {
    && c.key == REORDER && c.path == p.c1 && c.expected.SymlinksInOrder?
    && c.beforeChange == [] && !c.ignoreErrors && !c.conditional
  }

  /** What holds after any number of items. */
  ghost predicate Sound(p: Paths, items: seq<Item>, s: Progress) {
    && Back({}, s.changes)
    && (forall c :: c in s.changes ==> HasShape(p, items, c))
    && At(p.gadget) in Known(s.changes) && At(p.c1) in Known(s.changes)
    && Elements(s.deps) <= Known(s.changes)
    && ReorderOk(p, Known(s.changes), s.reorder)
  }

  ghost predicate ReorderOk(p: Paths, known: set<Key>, r: Option<Change>) {
    r.Some? ==> IsReordering(p, r.value) && Elements(r.value.dependsOn) <= known
  }

  /** Every function so far has its disabling change and its link, and every
      change with a trigger comes before the reordering. */
  ghost predicate Covered(p: Paths, items: seq<Item>, n: nat, s: Progress)
    requires n <= |items|
  {
    && (forall m :: 0 <= m < n && items[m].enabled && IsFunction(items[m]) ==>
          s.reorder.Some? && DisableChange(p, items[m]) in s.changes)
    && (forall c :: c in s.changes && c.beforeChange != [] ==>
          s.reorder.Some? && c.key in s.reorder.value.dependsOn)
  }

  lemma HeadIsSound(p: Paths, items: seq<Item>)
    ensures Sound(p, items, AfterItems(p, items, 0)) && Covered(p, items, 0, AfterItems(p, items, 0))
  {
    var h := Head(p);
    var h1, h2, h3 := h[0], h[1], h[2];
    BackOne({}, h1);
    assert h1 in [h1] && h2 in [h2];
    BackOne({} + Known([h1]), h2);
    BackAppend({}, [h1], [h2]);
    assert h2 in [h1] + [h2];
    BackOne({} + Known([h1] + [h2]), h3);
    BackAppend({}, [h1] + [h2], [h3]);
    assert [h1] + [h2] + [h3] == h;
    assert h3 in h && h2 in h;
  }

  lemma ExtendSound(p: Paths, items: seq<Item>, s: Progress, more: seq<Change>, deps: seq<Key>, r: Option<Change>)
    requires Sound(p, items, s) && Back(Known(s.changes), more)
    requires forall c :: c in more ==> HasShape(p, items, c)
    requires Elements(deps) <= Known(s.changes) + Known(more)
    requires ReorderOk(p, Known(s.changes) + Known(more), r)
    ensures Sound(p, items, Progress(s.changes + more, deps, r))
  {
    hide HasShape, ReorderOk;
    assert {} + Known(s.changes) == Known(s.changes);
    BackAppend({}, s.changes, more);
    KnownAppend(s.changes, more);
    hide Known, Back;
  }

  lemma RemovalKeepsSound(p: Paths, items: seq<Item>, s: Progress, item: Item)
    requires !item.enabled && Sound(p, items, s)
    ensures Sound(p, items, AfterItem(p, items, s, item))
  {
    var more := RemovalChanges(p, item);
    BackIndependent(Known(s.changes), more);
    assert forall c :: c in more ==> IsFileChange(items, c);
    ExtendSound(p, items, s, more, s.deps, s.reorder);
  }

  lemma ItemChangesBack(p: Paths, items: seq<Item>, s: Progress, item: Item)
    requires IsEnabled(items, item) && Sound(p, items, s)
    ensures var more := ItemChanges(p, items, item, s.deps);
            && Back(Known(s.changes), more)
            && (forall c :: c in more ==> HasShape(p, items, c))
            && Known(more) == Known(ItemFiles(p, items, item, s.deps))
  {
    hide ItemFiles;
    var files := ItemFiles(p, items, item, s.deps);
    ItemFilesBack(Known(s.changes), p, items, item, s.deps);
    if IsFunction(item) {
      BackOne(Known(s.changes) + Known(files), DisableChange(p, item));
      BackAppend(Known(s.changes), files, [DisableChange(p, item)]);
      assert IsEnabledFunction(items, item);
      KnownAppend(files, [DisableChange(p, item)]);
    } else {
      assert files + [] == files;
    }
  }

  ghost predicate IsEnabled(items: seq<Item>, item: Item) {
    item in items && item.enabled
  }

  lemma LinkKeepsReorder(p: Paths, known: set<Key>, r: Option<Change>, item: Item, deps: seq<Key>)
    requires ReorderOk(p, known, r) && Elements(deps) <= known
    ensures ReorderOk(p, known, AddLink(p, r, item, deps))
  {
    if IsFunction(item) && r.Some? {
      assert Elements(r.value.dependsOn + deps) == Elements(r.value.dependsOn) + Elements(deps);
    }
  }

  lemma ItemKeepsSound(p: Paths, items: seq<Item>, s: Progress, item: Item)
    requires IsEnabled(items, item) && Sound(p, items, s)
    ensures Sound(p, items, AfterItem(p, items, s, item))
  {
    hide ItemFiles, ItemChanges, AddLink, ReorderOk, HasShape, Back, Known;
    var more, files := ItemChanges(p, items, item, s.deps), ItemFiles(p, items, item, s.deps);
    var deps := s.deps + Keys(files);
    ItemChangesBack(p, items, s, item);
    ItemFilesBack(Known(s.changes), p, items, item, s.deps);
    ReorderGrows(p, Known(s.changes), Known(s.changes) + Known(more), s.reorder);
    LinkKeepsReorder(p, Known(s.changes) + Known(more), s.reorder, item, deps);
    ExtendSound(p, items, s, more, deps, AddLink(p, s.reorder, item, deps));
  }

  lemma ReorderGrows(p: Paths, known: set<Key>, more: set<Key>, r: Option<Change>)
    requires ReorderOk(p, known, r) && known <= more
    ensures ReorderOk(p, more, r)
  {
  }

  lemma {:induction false} ItemsAreSound(p: Paths, items: seq<Item>, n: nat)
    requires n <= |items|
    ensures Sound(p, items, AfterItems(p, items, n))
  {
    hide AfterItem, Sound;
    if n == 0 {
      HeadIsSound(p, items);
    } else {
      ItemsAreSound(p, items, n - 1);
      var s := AfterItems(p, items, n - 1);
      if items[n - 1].enabled {
        ItemKeepsSound(p, items, s, items[n - 1]);
      } else {
        RemovalKeepsSound(p, items, s, items[n - 1]);
      }
    }
  }

  // ---- Every function is disabled and relinked ----

  lemma RemovalKeepsCovered(p: Paths, items: seq<Item>, n: nat, s: Progress)
    requires n < |items| && !items[n].enabled && Covered(p, items, n, s)
    ensures Covered(p, items, n + 1, AfterItem(p, items, s, items[n]))
  {
  }

  lemma ItemKeepsCovered(p: Paths, items: seq<Item>, n: nat, s: Progress)
    requires n < |items| && items[n].enabled && Sound(p, items, s) && Covered(p, items, n, s)
    ensures Covered(p, items, n + 1, AfterItem(p, items, s, items[n]))
  {
    var item := items[n];
    var files := ItemFiles(p, items, item, s.deps);
    var s' := AfterItem(p, items, s, item);
    ItemFilesBack(Known(s.changes), p, items, item, s.deps);
    ItemTriggers(p, items, item, s.deps);
    hide ItemFiles, Sound, Before, DisableChange;
    forall c | c in s'.changes && c.beforeChange != []
      ensures s'.reorder.Some? && c.key in s'.reorder.value.dependsOn
    {
      if c !in s.changes {
        assert c in files && IsFunction(item);
        assert c.key in Known(files);
        assert c.key in Elements(s.deps + Keys(files));
      }
    }
  }

  lemma FunctionFileTriggers(p: Paths, items: seq<Item>, item: Item, deps: seq<Key>)
    ensures forall c :: c in FunctionFiles(p, items, item, deps) ==> c.beforeChange == [] || c.beforeChange == Before(items, item)
  {
    hide Before, Keys, DirOf, AttrChanges;
    var attrs := AttrChanges(DirOf(p, item), item.attrs, Before(items, item));
    assert forall c :: c in attrs ==> c.beforeChange == Before(items, item);
  }

  lemma ConfigTriggers(p: Paths, items: seq<Item>, item: Item, deps: seq<Key>)
    ensures forall c :: c in ConfigChanges(p, items, item, deps) ==> c.beforeChange == [] || c.beforeChange == Before(items, item)
  {
    hide Before, ConfigDirOf, AttrChanges;
  }

  /** Only the files of a function have triggers. */
  lemma ItemTriggers(p: Paths, items: seq<Item>, item: Item, deps: seq<Key>)
    ensures forall c :: c in ItemFiles(p, items, item, deps) && c.beforeChange != [] ==> IsFunction(item)
    ensures DisableChange(p, item).beforeChange == []
  {
    hide DisableKeys, Keys, FunctionFiles, ConfigChanges;
    var files := FunctionFiles(p, items, item, deps);
    FunctionFileTriggers(p, items, item, deps);
    ConfigTriggers(p, items, item, deps + Keys(files));
    assert !IsFunction(item) ==> Before(items, item) == [];
  }

  lemma {:induction false} ItemsAreCovered(p: Paths, items: seq<Item>, n: nat)
    requires n <= |items|
    ensures Covered(p, items, n, AfterItems(p, items, n))
  {
    hide AfterItem, Sound, Covered;
    if n == 0 {
      HeadIsSound(p, items);
    } else {
      ItemsAreCovered(p, items, n - 1);
      ItemsAreSound(p, items, n - 1);
      var s := AfterItems(p, items, n - 1);
      if items[n - 1].enabled {
        ItemKeepsCovered(p, items, n - 1, s);
      } else {
        RemovalKeepsCovered(p, items, n - 1, s);
      }
    }
  }

  // ---- The whole transaction ----

  function Body(p: Paths, items: seq<Item>): Progress {
    AfterItems(p, items, |items|)
  }

  /** The change set handed to the resolver. */
  function Whole(p: Paths, items: seq<Item>, rebind: bool, ignoreUnbindError: bool): seq<Change>
    requires Body(p, items).reorder.Some?
  {
    Body(p, items).changes + [UdcChange(p)]
    + (if rebind then RebindChanges(p, ignoreUnbindError) else [])
    + [Body(p, items).reorder.value]
  }

  /** There is a link to make exactly when some function is enabled. */
  lemma {:induction false} ReorderExists(p: Paths, items: seq<Item>, n: nat)
    requires n <= |items|
    ensures AfterItems(p, items, n).reorder.Some? <==> exists m :: 0 <= m < n && items[m].enabled && IsFunction(items[m])
  {
    hide ItemFiles, ItemChanges, RemovalChanges;
    if n > 0 {
      ReorderExists(p, items, n - 1);
    }
  }

  /** No two changes share a key, and nothing but a link is put at the place of
      an enabled function's link, neither a file nor a directory above one. */
  ghost predicate NoClashes(p: Paths, items: seq<Item>, cs: seq<Change>) {
    && DistinctKeys(cs)
    && (forall c, f :: c in cs && IsEnabledFunction(items, f) && !c.conditional && c.key != REORDER ==>
          c.path != ConfigDirOf(p, f) && (c.expected.Directory? ==> ConfigDirOf(p, f) !in Ancestors(c.path)))
  }

  ghost predicate DistinctKeys(cs: seq<Change>) {
    forall i, j :: 0 <= i < j < |cs| ==> cs[i].key != cs[j].key
  }

  /** With distinct keys the two maps hold every change of the set. */
  lemma {:induction false} CollectsAll(cs: seq<Change>)
    requires DistinctKeys(cs)
    ensures !Conflict(cs)
    ensures forall c :: c in cs && c.conditional ==> c.key in Conditionals(cs) && Conditionals(cs)[c.key] == c
    ensures forall c :: c in cs && !c.conditional ==> c.key in Unconditionals(cs) && Unconditionals(cs)[c.key] == c
  {
    if cs != [] {
      var init, last := cs[..|cs| - 1], cs[|cs| - 1];
      CollectsAll(init);
      NewKey(init, last);
      assert cs == init + [last];
      forall c | c in cs
        ensures c == last || c in init
      {
      }
    }
  }

  lemma NewKey(init: seq<Change>, last: Change)
    requires DistinctKeys(init + [last])
    ensures forall c :: c in init ==> c.key != last.key
    ensures last.key !in Unconditionals(init) && last.key !in Conditionals(init)
  {
    CollectedAreWellKeyed(init);
    var cs := init + [last];
    forall c | c in init
      ensures c.key != last.key
    {
      var i :| 0 <= i < |init| && init[i] == c;
      assert cs[i] == c && cs[|init|] == last;
    }
  }

  lemma KeyIsUnique(cs: seq<Change>, a: Change, b: Change)
    requires DistinctKeys(cs) && a in cs && b in cs && a.key == b.key
    ensures a == b
  {
    var i :| 0 <= i < |cs| && cs[i] == a;
    var j :| 0 <= j < |cs| && cs[j] == b;
    assert i == j;
  }

  lemma CollectedAreSeparate(cs: seq<Change>)
    requires DistinctKeys(cs)
    ensures Separate(Unconditionals(cs), Conditionals(cs))
  {
    CollectedAreWellKeyed(cs);
    var u, c := Unconditionals(cs), Conditionals(cs);
    forall k | k in u
      ensures k !in c
    {
      if k in c {
        KeyIsUnique(cs, u[k], c[k]);
        assert false;
      }
    }
  }

  // ---- It always resolves ----

  function PosOf(cs: seq<Change>, k: Key): (i: nat)
    ensures i <= |cs|
    ensures i < |cs| ==> cs[i].key == k
    ensures forall j :: 0 <= j < i ==> cs[j].key != k
  {
    if cs == [] then 0
    else
      var i := PosOf(cs[..|cs| - 1], k);
      if i < |cs| - 1 || cs[|cs| - 1].key == k then i else |cs|
  }

  /** Disabling first, then the files in the order they were requested, then
      the links, the controller, and its unbinding and binding. */
  function Rank(p: Paths, cs: seq<Change>, k: Key): int {
    match k
    case Named(n) => if k == REORDER then |cs| + 2 else if k == UDC then |cs| + 3 else 0
    case At(path) =>
      if PosOf(cs, k) < |cs| then PosOf(cs, k) + 1
      else if path == p.dwc3 + ["bind"] then |cs| + 5
      else |cs| + 4
  }

  lemma DisableNames(item: Item)
    ensures DisableKey(item) != REORDER && DisableKey(item) != UDC
  {
    assert DisableKey(item).name[0] == 'd';
  }

  lemma {:induction false} DisableKeysAre(items: seq<Item>, k: Key)
    ensures k in DisableKeys(items) <==> exists item :: IsEnabledFunction(items, item) && k == DisableKey(item)
  {
    if items != [] {
      var init, last := items[..|items| - 1], items[|items| - 1];
      DisableKeysAre(init, k);
      assert items == init + [last];
      if exists item :: IsEnabledFunction(init, item) && k == DisableKey(item) {
        var item :| IsEnabledFunction(init, item) && k == DisableKey(item);
        assert IsEnabledFunction(items, item);
      }
      if last.enabled && IsFunction(last) && k == DisableKey(last) {
        assert IsEnabledFunction(items, last);
      }
    }
  }

  lemma KnownPos(cs: seq<Change>, k: Key, n: nat)
    requires n <= |cs| && k in Known(cs[..n])
    ensures PosOf(cs, k) < n
  {
    var c :| c in cs[..n] && !c.conditional && c.key == k;
    var j :| 0 <= j < n && cs[j] == c;
  }

  /** A known key stands for a file, so its rank is its position. */
  lemma KnownRank(p: Paths, items: seq<Item>, cs: seq<Change>, k: Key, n: nat)
    requires forall c :: c in cs ==> HasShape(p, items, c)
    requires n <= |cs| && k in Known(cs[..n])
    ensures 0 < Rank(p, cs, k) <= n
  {
    KnownPos(cs, k, n);
    var c :| c in cs[..n] && !c.conditional && c.key == k;
    assert c in cs;
  }

  lemma FileRank(p: Paths, items: seq<Item>, cs: seq<Change>, i: nat)
    requires DistinctKeys(cs) && i < |cs| && IsFileChange(items, cs[i])
    ensures Rank(p, cs, cs[i].key) == i + 1
  {
    assert PosOf(cs, cs[i].key) == i;
  }

  lemma BodyIsPrefix(p: Paths, items: seq<Item>, rebind: bool, ignore: bool)
    requires Body(p, items).reorder.Some?
    ensures var cs, whole := Body(p, items).changes, Whole(p, items, rebind, ignore);
            && |cs| <= |whole| && whole[..|cs|] == cs
            && (DistinctKeys(whole) ==> DistinctKeys(cs))
            && (forall c :: c in whole ==>
                  || c in cs || c == UdcChange(p) || c == Body(p, items).reorder.value
                  || (rebind && c in RebindChanges(p, ignore)))
            && (forall c :: c in cs ==> c in whole)
            && UdcChange(p) in whole && Body(p, items).reorder.value in whole
  {
    hide Body, UdcChange, RebindChanges;
    var cs, r, whole := Body(p, items).changes, Body(p, items).reorder.value, Whole(p, items, rebind, ignore);
    assert whole[|cs|] == UdcChange(p) && whole[|whole| - 1] == r;
    assert forall i :: 0 <= i < |cs| ==> whole[i] == cs[i];
  }

  lemma RebindInWhole(p: Paths, items: seq<Item>, ignore: bool)
    requires Body(p, items).reorder.Some?
    ensures RebindChanges(p, ignore)[0] in Whole(p, items, true, ignore)
    ensures RebindChanges(p, ignore)[1] in Whole(p, items, true, ignore)
  {
    hide Body;
    var cs, whole := Body(p, items).changes, Whole(p, items, true, ignore);
    assert whole[|cs| + 1] == RebindChanges(p, ignore)[0] && whole[|cs| + 2] == RebindChanges(p, ignore)[1];
  }

  /** Every dependency, and every change wanted before, has a smaller rank. */
  lemma BodyRanksFall(p: Paths, items: seq<Item>, i: nat, d: Key)
    requires var cs := Body(p, items).changes; DistinctKeys(cs) && i < |cs| && (d in cs[i].dependsOn || d in cs[i].beforeChange)
    ensures var cs := Body(p, items).changes; Rank(p, cs, d) < Rank(p, cs, cs[i].key)
  {
    ItemsAreSound(p, items, |items|);
    hide AfterItems, Rank;
    var cs := Body(p, items).changes;
    assert cs[i] in cs && HasShape(p, items, cs[i]);
    FileRank(p, items, cs, i);
    if d in cs[i].dependsOn {
      BackAt({}, cs, i);
      assert d in Elements(cs[i].dependsOn);
      KnownRank(p, items, cs, d, i);
    } else {
      DisableRank(p, items, cs, d);
    }
  }

  lemma DisableRank(p: Paths, items: seq<Item>, cs: seq<Change>, d: Key)
    requires d in DisableKeys(items)
    ensures Rank(p, cs, d) == 0
  {
    DisableKeysAre(items, d);
    var item :| IsEnabledFunction(items, item) && d == DisableKey(item);
    DisableNames(item);
  }

  lemma TailRanksFall(p: Paths, items: seq<Item>, rebind: bool, ignore: bool, c: Change, d: Key)
    requires Body(p, items).reorder.Some? && DistinctKeys(Whole(p, items, rebind, ignore))
    requires c == UdcChange(p) || c == Body(p, items).reorder.value || (rebind && c in RebindChanges(p, ignore))
    requires d in c.dependsOn || d in c.beforeChange
    ensures var cs := Body(p, items).changes; Rank(p, cs, d) < Rank(p, cs, c.key)
  {
    hide AfterItems, Known, HasShape;
    ItemsAreSound(p, items, |items|);
    var cs, r, whole := Body(p, items).changes, Body(p, items).reorder.value, Whole(p, items, rebind, ignore);
    if c == r {
      assert d in Elements(r.dependsOn) && cs[..|cs|] == cs;
      KnownRank(p, items, cs, d, |cs|);
    } else if rebind && c in RebindChanges(p, ignore) {
      var unbind, bind := RebindChanges(p, ignore)[0], RebindChanges(p, ignore)[1];
      NotInBody(p, items, rebind, ignore, |cs| + 1);
      NotInBody(p, items, rebind, ignore, |cs| + 2);
      assert whole[|cs| + 1] == unbind && whole[|cs| + 2] == bind;
      BindIsNotUnbind(p);
    }
  }

  lemma BindIsNotUnbind(p: Paths)
    ensures p.dwc3 + ["bind"] != p.dwc3 + ["unbind"]
  {
    assert (p.dwc3 + ["bind"])[|p.dwc3|] == "bind" && (p.dwc3 + ["unbind"])[|p.dwc3|] == "unbind";
  }

  lemma NotInBody(p: Paths, items: seq<Item>, rebind: bool, ignore: bool, j: nat)
    requires Body(p, items).reorder.Some? && DistinctKeys(Whole(p, items, rebind, ignore))
    requires |Body(p, items).changes| <= j < |Whole(p, items, rebind, ignore)|
    ensures PosOf(Body(p, items).changes, Whole(p, items, rebind, ignore)[j].key) == |Body(p, items).changes|
  {
    hide Body;
    var cs, whole := Body(p, items).changes, Whole(p, items, rebind, ignore);
    assert forall i :: 0 <= i < |cs| ==> whole[i] == cs[i];
  }

  lemma WholeIsAcyclic(p: Paths, items: seq<Item>, rebind: bool, ignore: bool, cycle: seq<Key>)
    requires Body(p, items).reorder.Some? && DistinctKeys(Whole(p, items, rebind, ignore))
    ensures var cs := Whole(p, items, rebind, ignore);
            !IsCycle(FullGraph(Unconditionals(cs) + Conditionals(cs)), cycle)
  {
    var whole, body := Whole(p, items, rebind, ignore), Body(p, items).changes;
    var all := Unconditionals(whole) + Conditionals(whole);
    CollectedAreWellKeyed(whole);
    BodyIsPrefix(p, items, rebind, ignore);
    hide Body, Whole, Unconditionals, Conditionals, Rank;
    forall k, d | k in FullGraph(all) && d in FullGraph(all)[k]
      ensures Rank(p, body, d) < Rank(p, body, k)
    {
      var c := all[k];
      assert c in whole && c.key == k && (d in c.dependsOn || d in c.beforeChange);
      if c in body {
        var i :| 0 <= i < |body| && body[i] == c;
        BodyRanksFall(p, items, i, d);
      } else {
        TailRanksFall(p, items, rebind, ignore, c, d);
      }
    }
    RankExcludesCycle(FullGraph(all), k => Rank(p, body, k), cycle);
  }

  /** Every key wanted before a change belongs to a disabling change. */
  lemma TriggersAreDefined(p: Paths, items: seq<Item>, rebind: bool, ignore: bool, c: Change, d: Key)
    requires Body(p, items).reorder.Some? && DistinctKeys(Whole(p, items, rebind, ignore))
    requires c in Whole(p, items, rebind, ignore) && d in c.beforeChange
    ensures exists f :: IsEnabledFunction(items, f) && d == DisableKey(f)
                        && DisableChange(p, f) in Whole(p, items, rebind, ignore)
  {
    ItemsAreSound(p, items, |items|);
    ItemsAreCovered(p, items, |items|);
    BodyIsPrefix(p, items, rebind, ignore);
    hide AfterItems, Whole;
    DisableKeysAre(items, d);
    assert HasShape(p, items, c);
    var f :| IsEnabledFunction(items, f) && d == DisableKey(f);
    var m :| 0 <= m < |items| && items[m] == f;
  }

  /** For every list of items with an enabled function and no clashes the
      change set resolves: there is no conflict, no dependency cycle and no
      undefined "before change" key. */
  lemma TransactionResolves(p: Paths, items: seq<Item>, rebind: bool, ignore: bool,
                            fs: Fs, acting: set<Key>, e: Error)
    requires Body(p, items).reorder.Some? && DistinctKeys(Whole(p, items, rebind, ignore))
    ensures var cs := Whole(p, items, rebind, ignore);
            var u, c := Unconditionals(cs), Conditionals(cs);
            !Conflict(cs) && Separate(u, c) && !IsReason(u, c, fs, acting, e)
  {
    var cs := Whole(p, items, rebind, ignore);
    var u, c := Unconditionals(cs), Conditionals(cs);
    CollectsAll(cs);
    CollectedAreSeparate(cs);
    CollectedAreWellKeyed(cs);
    hide Body, Whole, Unconditionals, Conditionals, FullGraph;
    if HasCycle(u, c, acting, e) {
      var cycle :| IsCycle(PlannedGraph(u, c, acting), cycle);
      CycleInFullGraph(Planned(u, c, acting), Triggers(u, c, acting), u + c, cycle);
      WholeIsAcyclic(p, items, rebind, ignore, cycle);
    }
    if Missing(u, c, fs, acting, e) {
      var k :| k in Planned(u, c, acting) && e.key in (u + c)[k].beforeChange;
      TriggersAreDefined(p, items, rebind, ignore, (u + c)[k], e.key);
    }
  }

  // ---- Functions are only rewritten while they are unlinked ----

  /** A plan of the transaction, for some state of the file system. */
  ghost predicate IsGadgetPlan(p: Paths, items: seq<Item>, rebind: bool, ignore: bool,
                               fs: Fs, acting: set<Key>, plan: seq<Change>)
  {
    && Body(p, items).reorder.Some?
    && NoClashes(p, items, Whole(p, items, rebind, ignore))
    && var cs := Whole(p, items, rebind, ignore); IsPlan(Unconditionals(cs), Conditionals(cs), fs, acting, plan)
  }

  lemma PlannedIsRequested(p: Paths, items: seq<Item>, rebind: bool, ignore: bool,
                           fs: Fs, acting: set<Key>, plan: seq<Change>, i: nat)
    requires IsGadgetPlan(p, items, rebind, ignore, fs, acting, plan) && i < |plan|
    ensures plan[i] in Whole(p, items, rebind, ignore)
  {
    hide Body, Whole;
    CollectedAreWellKeyed(Whole(p, items, rebind, ignore));
  }

  /** Everything unconditional is planned, and its dependencies before it. */
  lemma PlannedAfter(p: Paths, items: seq<Item>, rebind: bool, ignore: bool,
                     fs: Fs, acting: set<Key>, plan: seq<Change>, i: nat, c: Change)
    requires IsGadgetPlan(p, items, rebind, ignore, fs, acting, plan) && i < |plan|
    requires c in Whole(p, items, rebind, ignore) && !c.conditional && c.key in plan[i].dependsOn
    ensures HasKey(plan[..i], c.key)
  {
    hide Body, Whole;
    CollectsAll(Whole(p, items, rebind, ignore));
  }

  lemma OnlyOnce(plan: seq<Change>, i: nat, j: nat, k: Key)
    requires forall a, b :: 0 <= a < b < |plan| ==> plan[a].key != plan[b].key
    requires i < |plan| && j <= |plan| && plan[i].key == k && HasKey(plan[..j], k)
    ensures i < j
  {
    var m :| 0 <= m < j && plan[..j][m].key == k;
    assert plan[m].key == k;
  }

  ghost predicate IsGuarded(c: Change, acting: set<Key>) {
    c.key in acting && c.beforeChange != []
  }

  /** The reordering comes after every change of a function's files. */
  lemma ReorderComesLater(p: Paths, items: seq<Item>, rebind: bool, ignore: bool,
                          fs: Fs, acting: set<Key>, plan: seq<Change>, i: nat, r: nat)
    requires IsGadgetPlan(p, items, rebind, ignore, fs, acting, plan)
    requires i < |plan| && r < |plan| && plan[i].beforeChange != [] && plan[r].key == REORDER
    ensures i < r
  {
    var whole, body := Whole(p, items, rebind, ignore), Body(p, items);
    PlannedIsRequested(p, items, rebind, ignore, fs, acting, plan, i);
    PlannedIsRequested(p, items, rebind, ignore, fs, acting, plan, r);
    BodyIsPrefix(p, items, rebind, ignore);
    ItemsAreSound(p, items, |items|);
    ItemsAreCovered(p, items, |items|);
    hide AfterItems, Whole, Unconditionals, Conditionals;
    KeyIsUnique(whole, plan[r], body.reorder.value);
    GuardedIsUnconditional(p, items, rebind, ignore, plan[i]);
    PlannedAfter(p, items, rebind, ignore, fs, acting, plan, r, plan[i]);
    OnlyOnce(plan, i, r, plan[i].key);
  }

  /** Only files of functions have triggers, and the reordering waits for them. */
  lemma GuardedIsUnconditional(p: Paths, items: seq<Item>, rebind: bool, ignore: bool, c: Change)
    requires Body(p, items).reorder.Some? && c in Whole(p, items, rebind, ignore) && c.beforeChange != []
    ensures IsFileChange(items, c) && c.beforeChange == DisableKeys(items)
    ensures c.key in Body(p, items).reorder.value.dependsOn
  {
    BodyIsPrefix(p, items, rebind, ignore);
    ItemsAreSound(p, items, |items|);
    ItemsAreCovered(p, items, |items|);
    hide AfterItems, Whole;
    assert HasShape(p, items, c);
  }

  lemma CannotCreateLink(p: Paths, items: seq<Item>, rebind: bool, ignore: bool,
                         fs: Fs, acting: set<Key>, plan: seq<Change>, f: Item, i: nat)
    requires IsGadgetPlan(p, items, rebind, ignore, fs, acting, plan) && IsEnabledFunction(items, f)
    requires i < |plan| && plan[i].key != REORDER
    ensures !MayCreate(plan[i], ConfigDirOf(p, f))
  {
    hide AfterItems, Whole, IsPlan, Back, Known;
    var c := plan[i];
    PlannedIsRequested(p, items, rebind, ignore, fs, acting, plan, i);
    BodyIsPrefix(p, items, rebind, ignore);
    ItemsAreSound(p, items, |items|);
    if c in Body(p, items).changes {
      assert HasShape(p, items, c);
    }
  }

  /** Whenever a change of a function's attributes or report descriptor that
      the first pass found necessary has its turn, no enabled function is
      linked at that moment: whatever the operating system answered so far. */
  lemma WritesFindNoLinks(p: Paths, items: seq<Item>, rebind: bool, ignore: bool,
                          fs: Fs, acting: set<Key>, plan: seq<Change>, log: seq<Applied>, i: nat, f: Item)
    requires IsGadgetPlan(p, items, rebind, ignore, fs, acting, plan) && IsRun(fs, plan, log)
    requires i < |log| && IsGuarded(log[i].change, acting) && IsEnabledFunction(items, f)
    ensures ConfigDirOf(p, f) !in log[i].before.nodes
  {
    RunAt(fs, plan, log, i);
    hide IsRun, IsStep, MayCreate;
    PlannedIsRequested(p, items, rebind, ignore, fs, acting, plan, i);
    GuardedIsUnconditional(p, items, rebind, ignore, plan[i]);
    DisableKeysAre(items, DisableKey(f));
    hide Body, Whole;
    assert HasKey(plan[..i], DisableKey(f));
    var j :| 0 <= j < i && plan[..i][j].key == DisableKey(f);
    PlannedIsRequested(p, items, rebind, ignore, fs, acting, plan, j);
    DisablePlanned(p, items, rebind, ignore, plan[j], f);
    forall r | 0 <= r < i
      ensures plan[r].key != REORDER
    {
      if plan[r].key == REORDER {
        ReorderComesLater(p, items, rebind, ignore, fs, acting, plan, i, r);
      }
    }
    forall m | j < m < i
      ensures !MayCreate(plan[m], ConfigDirOf(p, f))
    {
      CannotCreateLink(p, items, rebind, ignore, fs, acting, plan, f, m);
    }
    AbsenceThroughRun(fs, plan, log, j, i);
  }

  lemma DisablePlanned(p: Paths, items: seq<Item>, rebind: bool, ignore: bool, c: Change, f: Item)
    requires Body(p, items).reorder.Some? && DistinctKeys(Whole(p, items, rebind, ignore))
    requires c in Whole(p, items, rebind, ignore) && IsEnabledFunction(items, f) && c.key == DisableKey(f)
    ensures c == DisableChange(p, f)
  {
    BodyIsPrefix(p, items, rebind, ignore);
    ItemsAreCovered(p, items, |items|);
    hide AfterItems, Whole;
    var m :| 0 <= m < |items| && items[m] == f;
    KeyIsUnique(Whole(p, items, rebind, ignore), c, DisableChange(p, f));
  }

  /** Links are only put back after all such changes. */
  lemma LinksComeBackLast(p: Paths, items: seq<Item>, rebind: bool, ignore: bool,
                          fs: Fs, acting: set<Key>, plan: seq<Change>, log: seq<Applied>, i: nat, r: nat)
    requires IsGadgetPlan(p, items, rebind, ignore, fs, acting, plan) && IsRun(fs, plan, log)
    requires i < |log| && r < |log| && IsGuarded(log[i].change, acting) && log[r].action.ReorderSymlinks?
    ensures i < r
  {
    RunAt(fs, plan, log, i);
    RunAt(fs, plan, log, r);
    ReorderIsRequested(log[r]);
    PlannedIsRequested(p, items, rebind, ignore, fs, acting, plan, r);
    hide IsRun, IsStep, IsPlan, NoClashes, Body, Whole;
    OnlyReorderLinks(p, items, rebind, ignore, plan[r]);
    ReorderComesLater(p, items, rebind, ignore, fs, acting, plan, i, r);
  }

  lemma OnlyReorderLinks(p: Paths, items: seq<Item>, rebind: bool, ignore: bool, c: Change)
    requires Body(p, items).reorder.Some? && c in Whole(p, items, rebind, ignore) && c.expected.SymlinksInOrder?
    ensures c.key == REORDER
  {
    BodyIsPrefix(p, items, rebind, ignore);
    ItemsAreSound(p, items, |items|);
    hide AfterItems, Whole, Back, Known;
  }

  /** In every plan the links follow the files of all functions, the controller
      follows the links, unbinding follows the controller and binding comes last. */
  lemma PlanOrder(p: Paths, items: seq<Item>, ignore: bool, fs: Fs, acting: set<Key>, plan: seq<Change>,
                  reorder: nat, udc: nat, unbind: nat, bind: nat)
    requires IsGadgetPlan(p, items, true, ignore, fs, acting, plan)
    requires reorder < |plan| && plan[reorder].key == REORDER
    requires udc < |plan| && plan[udc].key == UDC
    requires unbind < |plan| && plan[unbind].key == At(p.dwc3 + ["unbind"])
    requires bind < |plan| && plan[bind].key == At(p.dwc3 + ["bind"])
    ensures reorder < udc < unbind < bind
    ensures forall i :: 0 <= i < |plan| && plan[i].beforeChange != [] ==> i < reorder
  {
    var whole := Whole(p, items, true, ignore);
    BodyIsPrefix(p, items, true, ignore);
    RebindInWhole(p, items, ignore);
    ItemsAreSound(p, items, |items|);
    hide AfterItems, Whole;
    PlannedNext(p, items, ignore, fs, acting, plan, udc, UdcChange(p), reorder, Body(p, items).reorder.value);
    PlannedNext(p, items, ignore, fs, acting, plan, unbind, RebindChanges(p, ignore)[0], udc, UdcChange(p));
    PlannedNext(p, items, ignore, fs, acting, plan, bind, RebindChanges(p, ignore)[1], unbind, RebindChanges(p, ignore)[0]);
    forall i | 0 <= i < |plan| && plan[i].beforeChange != []
      ensures i < reorder
    {
      ReorderComesLater(p, items, true, ignore, fs, acting, plan, i, reorder);
    }
  }

  lemma PlannedNext(p: Paths, items: seq<Item>, ignore: bool, fs: Fs, acting: set<Key>, plan: seq<Change>,
                    i: nat, c: Change, j: nat, d: Change)
    requires IsGadgetPlan(p, items, true, ignore, fs, acting, plan) && i < |plan| && j < |plan|
    requires c in Whole(p, items, true, ignore) && d in Whole(p, items, true, ignore) && !d.conditional
    requires plan[i].key == c.key && plan[j].key == d.key && d.key in c.dependsOn
    ensures j < i
  {
    hide Body, Whole;
    PlannedIsRequested(p, items, true, ignore, fs, acting, plan, i);
    KeyIsUnique(Whole(p, items, true, ignore), plan[i], c);
    PlannedAfter(p, items, true, ignore, fs, acting, plan, i, d);
    OnlyOnce(plan, j, i, d.key);
  }

  // ---- A successful run ends with every function linked ----

  /** The links of all enabled functions, in the order of the items. */
  function FunctionLinks(p: Paths, items: seq<Item>): seq<Symlink> {
    if items == [] then []
    else
      var r, last := FunctionLinks(p, items[..|items| - 1]), items[|items| - 1];
      if last.enabled && IsFunction(last) then r + [Symlink(ConfigDirOf(p, last), DirOf(p, last))] else r
  }

  lemma {:induction false} ReorderHasLinks(p: Paths, items: seq<Item>, n: nat)
    requires n <= |items|
    ensures var r, links := AfterItems(p, items, n).reorder, FunctionLinks(p, items[..n]);
            if links == [] then r.None? else r.Some? && r.value.expected == SymlinksInOrder(links)
  {
    hide AfterItem, FunctionLinks;
    NoLinks(p);
    if n > 0 {
      ReorderHasLinks(p, items, n - 1);
      assert items[..n] == items[..n - 1] + [items[n - 1]];
      LinksStep(p, items, AfterItems(p, items, n - 1), items[..n - 1], items[n - 1]);
    } else {
      assert items[..0] == [];
    }
  }

  lemma NoLinks(p: Paths)
    ensures FunctionLinks(p, []) == []
  {
  }

  lemma LinksStep(p: Paths, items: seq<Item>, s: Progress, before: seq<Item>, item: Item)
    ensures FunctionLinks(p, before + [item]) == FunctionLinks(p, before)
            + if item.enabled && IsFunction(item) then [Symlink(ConfigDirOf(p, item), DirOf(p, item))] else []
    ensures var r := AfterItem(p, items, s, item).reorder;
            if item.enabled && IsFunction(item)
            then r.Some? && r.value.expected
                            == SymlinksInOrder((if s.reorder.Some? then LinksOf(s.reorder.value) else [])
                                               + [Symlink(ConfigDirOf(p, item), DirOf(p, item))])
            else r == s.reorder
  {
    hide ItemFiles, ItemChanges, RemovalChanges;
    assert (before + [item])[..|before|] == before;
  }

  lemma {:induction false} LinksAreFunctions(p: Paths, items: seq<Item>, l: Symlink)
    requires l in FunctionLinks(p, items)
    ensures exists f :: IsEnabledFunction(items, f) && l == Symlink(ConfigDirOf(p, f), DirOf(p, f))
  {
    var init, last := items[..|items| - 1], items[|items| - 1];
    assert items == init + [last];
    if l in FunctionLinks(p, init) {
      LinksAreFunctions(p, init, l);
      var f :| IsEnabledFunction(init, f) && l == Symlink(ConfigDirOf(p, f), DirOf(p, f));
      assert IsEnabledFunction(items, f);
    } else {
      assert IsEnabledFunction(items, last);
    }
  }

  /** A disabling change is only planned before the reordering. */
  lemma DisablingComesEarlier(p: Paths, items: seq<Item>, rebind: bool, ignore: bool,
                              fs: Fs, acting: set<Key>, plan: seq<Change>, m: nat, r: nat)
    requires IsGadgetPlan(p, items, rebind, ignore, fs, acting, plan)
    requires m < |plan| && r < |plan| && plan[m].conditional && plan[r].key == REORDER
    ensures m < r
  {
    var cs := Whole(p, items, rebind, ignore);
    var u, c := Unconditionals(cs), Conditionals(cs);
    CollectedAreWellKeyed(cs);
    CollectedAreSeparate(cs);
    hide Body, Whole, Unconditionals, Conditionals;
    var d := plan[m].key;
    var all: Changes := u + c;
    assert d in NamedBy(all, acting);
    var k :| k in acting && k in all && d in all[k].beforeChange;
    assert HasKey(plan, k);
    var i :| 0 <= i < |plan| && plan[i].key == k;
    assert plan[i] == all[k];
    assert HasKey(plan[..i], d);
    OnlyOnce(plan, m, i, d);
    ReorderComesLater(p, items, rebind, ignore, fs, acting, plan, i, r);
  }

  /** After the reordering nothing touches a function's link any more. */
  lemma LinksAreLeftAlone(p: Paths, items: seq<Item>, rebind: bool, ignore: bool,
                          fs: Fs, acting: set<Key>, plan: seq<Change>, r: nat, m: nat, l: Symlink)
    requires IsGadgetPlan(p, items, rebind, ignore, fs, acting, plan)
    requires r < m < |plan| && plan[r].key == REORDER && l in FunctionLinks(p, items)
    ensures !plan[m].expected.SymlinksInOrder? && l.path != plan[m].path
  {
    LinksAreFunctions(p, items, l);
    PlannedIsRequested(p, items, rebind, ignore, fs, acting, plan, m);
    hide Body, Whole;
    if plan[m].conditional {
      DisablingComesEarlier(p, items, rebind, ignore, fs, acting, plan, m, r);
      assert false;
    }
    assert plan[m].key != REORDER;
    if plan[m].expected.SymlinksInOrder? {
      OnlyReorderLinks(p, items, rebind, ignore, plan[m]);
      assert false;
    }
  }

  lemma {:induction false} LinksRemain(p: Paths, items: seq<Item>, rebind: bool, ignore: bool,
                                       fs: Fs, acting: set<Key>, plan: seq<Change>, log: seq<Applied>, r: nat, m: nat)
    requires IsGadgetPlan(p, items, rebind, ignore, fs, acting, plan) && IsRun(fs, plan, log)
    requires r < m <= |log| && plan[r].key == REORDER && plan[r].path == p.c1
    requires plan[r].expected == SymlinksInOrder(FunctionLinks(p, items))
    requires FunctionLinks(p, items) != [] && DistinctLinks(p.c1, FunctionLinks(p, items))
    requires HasFinished(plan, log) && !plan[r].ignoreErrors
    ensures HasLinks(Result(log[m - 1]), p.c1, FunctionLinks(p, items))
    decreases m
  {
    hide IsRun, IsStep, Result, IsGadgetPlan, DistinctLinks, HasLinks, FunctionLinks, HasFinished;
    RunAt(fs, plan, log, m - 1);
    if m - 1 == r {
      ReorderGivesLinks(log[r], FunctionLinks(p, items));
    } else {
      LinksRemain(p, items, rebind, ignore, fs, acting, plan, log, r, m - 1);
      var l0 := FunctionLinks(p, items)[0];
      LinksAreLeftAlone(p, items, rebind, ignore, fs, acting, plan, r, m - 1, l0);
      forall l | l in FunctionLinks(p, items)
        ensures l.path != plan[m - 1].path
      {
        LinksAreLeftAlone(p, items, rebind, ignore, fs, acting, plan, r, m - 1, l);
      }
      LinksLast(log[m - 1], p.c1, FunctionLinks(p, items));
    }
  }

  /** A run that went to its end leaves a link for each enabled function, to
      that function's directory, and no other link: whatever calls failed whose
      errors are ignored. */
  lemma EndsFullyLinked(p: Paths, items: seq<Item>, rebind: bool, ignore: bool,
                        fs: Fs, acting: set<Key>, plan: seq<Change>, log: seq<Applied>)
    requires IsGadgetPlan(p, items, rebind, ignore, fs, acting, plan) && IsRun(fs, plan, log)
    requires HasFinished(plan, log)
    requires DistinctLinks(p.c1, FunctionLinks(p, items))
    ensures HasLinks(StateAt(fs, log, |log|), p.c1, FunctionLinks(p, items))
  {
    hide IsRun, IsGadgetPlan, DistinctLinks, HasLinks, FunctionLinks, Result;
    var r := ReorderPlanned(p, items, rebind, ignore, fs, acting, plan);
    LinksRemain(p, items, rebind, ignore, fs, acting, plan, log, r, |log|);
  }

  lemma ReorderPlanned(p: Paths, items: seq<Item>, rebind: bool, ignore: bool,
                       fs: Fs, acting: set<Key>, plan: seq<Change>) returns (r: nat)
    requires IsGadgetPlan(p, items, rebind, ignore, fs, acting, plan)
    ensures r < |plan| && plan[r].key == REORDER && plan[r].path == p.c1 && !plan[r].ignoreErrors
    ensures FunctionLinks(p, items) != [] && plan[r].expected == SymlinksInOrder(FunctionLinks(p, items))
  {
    hide AfterItems, Whole, FunctionLinks, IsPlan, Back, Known, HasShape;
    var change := Body(p, items).reorder.value;
    ReorderHasLinks(p, items, |items|);
    assert items[..|items|] == items;
    ItemsAreSound(p, items, |items|);
    BodyIsPrefix(p, items, rebind, ignore);
    r := IsPlanned(p, items, rebind, ignore, fs, acting, plan, change);
  }

  lemma IsPlanned(p: Paths, items: seq<Item>, rebind: bool, ignore: bool,
                  fs: Fs, acting: set<Key>, plan: seq<Change>, c: Change) returns (i: nat)
    requires IsGadgetPlan(p, items, rebind, ignore, fs, acting, plan)
    requires c in Whole(p, items, rebind, ignore) && !c.conditional
    ensures i < |plan| && plan[i] == c
  {
    var cs := Whole(p, items, rebind, ignore);
    CollectsAll(cs);
    hide Body, Whole;
    assert HasKey(plan, c.key);
    i :| 0 <= i < |plan| && plan[i].key == c.key;
    PlannedIsRequested(p, items, rebind, ignore, fs, acting, plan, i);
    KeyIsUnique(cs, plan[i], c);
  }

  /** Configuring the gadget. It panics exactly when no function is enabled.
      Otherwise, when nothing clashes, the changes always resolve, and in the
      run that follows every necessary change of a function's files finds all
      enabled functions unlinked and comes before the links are put back. */
  method ConfigureUsbGadget(p: Paths, items: seq<Item>, resetUsb: bool, fs: Fs, answers: seq<bool>)
    returns (r: CommitResult, ghost acting: set<Key>)
    ensures r.Panicked? <==> !exists m :: 0 <= m < |items| && items[m].enabled && IsFunction(items[m])
    ensures r.Panicked? <==> Body(p, items).reorder.None?
    ensures r.Committed? && NoClashes(p, items, Whole(p, items, resetUsb, true)) ==>
      && r.resolution.Plan?
      && IsGadgetPlan(p, items, resetUsb, true, fs, acting, r.resolution.changes)
      && IsRun(fs, r.resolution.changes, r.log) && r.end == StateAt(fs, r.log, |r.log|)
      && (forall i, f :: 0 <= i < |r.log| && IsGuarded(r.log[i].change, acting) && IsEnabledFunction(items, f) ==>
            ConfigDirOf(p, f) !in r.log[i].before.nodes)
      && (forall i, j :: 0 <= i < |r.log| && 0 <= j < |r.log| && r.log[j].action.ReorderSymlinks?
           ==> (IsGuarded(r.log[i].change, acting) ==> i < j))
      && (r.ok <==> HasFinished(r.resolution.changes, r.log))
      && (r.ok && DistinctLinks(p.c1, FunctionLinks(p, items)) ==> HasLinks(r.end, p.c1, FunctionLinks(p, items)))
  {
    hide AfterItems, IsOutcome, IsRun, NoClashes, HasFinished, HasLinks, DistinctLinks, FunctionLinks;
    ReorderExists(p, items, |items|);
    var tx := new UsbGadgetTransaction(p, items);
    tx.WriteGadgetConfig();
    if resetUsb {
      tx.RebindUsb(true);
    }
    r, acting := tx.Commit(fs, answers);
    if r.Committed? && NoClashes(p, items, Whole(p, items, resetUsb, true)) {
      assert tx.changes == Whole(p, items, resetUsb, true);
      ghost var plan := GadgetResolution(p, items, resetUsb, true, fs, acting, r.resolution);
      hide IsGadgetPlan, IsGuarded, IsEnabledFunction;
      forall i, f | 0 <= i < |r.log| && IsGuarded(r.log[i].change, acting) && IsEnabledFunction(items, f)
        ensures ConfigDirOf(p, f) !in r.log[i].before.nodes
      {
        WritesFindNoLinks(p, items, resetUsb, true, fs, acting, plan, r.log, i, f);
      }
      forall i, j | 0 <= i < |r.log| && 0 <= j < |r.log| && IsGuarded(r.log[i].change, acting)
                    && r.log[j].action.ReorderSymlinks?
        ensures i < j
      {
        LinksComeBackLast(p, items, resetUsb, true, fs, acting, plan, r.log, i, j);
      }
      if r.ok && DistinctLinks(p.c1, FunctionLinks(p, items)) {
        EndsFullyLinked(p, items, resetUsb, true, fs, acting, plan, r.log);
      }
    }
  }

  /** The resolver has no reason to fail. */
  lemma GadgetResolution(p: Paths, items: seq<Item>, rebind: bool, ignore: bool,
                         fs: Fs, acting: set<Key>, r: Resolution) returns (plan: seq<Change>)
    requires Body(p, items).reorder.Some? && NoClashes(p, items, Whole(p, items, rebind, ignore))
    requires IsOutcome(Whole(p, items, rebind, ignore), fs, acting, r)
    ensures r == Plan(plan) && IsGadgetPlan(p, items, rebind, ignore, fs, acting, plan)
  {
    hide Body, Whole, IsPlan, IsReason, Separate;
    if r.Failed? {
      TransactionResolves(p, items, rebind, ignore, fs, acting, r.error);
      assert false;
    }
    TransactionResolves(p, items, rebind, ignore, fs, acting, Cyclic);
    plan := r.changes;
  }
}
