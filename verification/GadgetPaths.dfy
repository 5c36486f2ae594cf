/** Gadget items that keep out of each other's way: a condition on the items
    alone under which no two changes of the transaction clash. */
module GadgetPaths {
  import opened Wrappers
  import opened ChangeSet
  import opened GadgetTx
  import opened GadgetSafety

  // ---- The paths an item asks for ----

  function AttrPaths(base: Path, attrs: seq<Attr>): (r: seq<Path>)
    ensures |r| == |attrs| && forall i :: 0 <= i < |attrs| ==> r[i] == base + [attrs[i].name]
  {
    seq(|attrs|, i requires 0 <= i < |attrs| => base + [attrs[i].name])
  }

  function ConfigPaths(p: Paths, item: Item): seq<Path> {
    if item.configAttrs.None? || item.configAttrs.value == [] then []
    else
      (if ConfigDirOf(p, item) == p.c1 then [] else [ConfigDirOf(p, item)])
      + AttrPaths(ConfigDirOf(p, item), item.configAttrs.value)
  }

  function FunctionPaths(p: Paths, item: Item): seq<Path> {
    (if item.path == [] then [] else [DirOf(p, item)])
    + AttrPaths(DirOf(p, item), item.attrs)
    + [DirOf(p, item) + ["report_desc"]]
  }

  /** The files and directories of an item; its link is not one of them. */
  function PathsOf(p: Paths, item: Item): seq<Path> {
    if !item.enabled then (if item.configPath.None? then [] else [ConfigDirOf(p, item)])
    else FunctionPaths(p, item) + ConfigPaths(p, item)
  }

  /** The paths every transaction asks for. */
  function FixedPaths(p: Paths): seq<Path> {
    [p.configFs, p.c1, p.gadget, p.gadget + ["UDC"], p.dwc3 + ["unbind"], p.dwc3 + ["bind"]]
  }

  /** All paths differ, all functions are different devices, and nothing is
      asked for at or below the place of a link. */
  ghost predicate DistinctItems(p: Paths, items: seq<Item>) {
    && Distinct(FixedPaths(p))
    && (forall m :: 0 <= m < |items| ==> Distinct(PathsOf(p, items[m])))
    && (forall m, q :: 0 <= m < |items| && q in PathsOf(p, items[m]) ==> q !in FixedPaths(p))
    && (forall m, n, q :: 0 <= m < n < |items| && q in PathsOf(p, items[m]) ==> q !in PathsOf(p, items[n]))
    && (forall m, n :: 0 <= m < n < |items| && IsLinked(items[m]) && IsLinked(items[n]) ==>
          items[m].device != items[n].device)
    && (forall f :: IsEnabledFunction(items, f) ==> NothingAtOrBelow(p, items, ConfigDirOf(p, f)))
  }

  predicate IsLinked(item: Item) {
    item.enabled && IsFunction(item)
  }

  ghost predicate NothingAtOrBelow(p: Paths, items: seq<Item>, link: Path) {
    && (forall q :: q in FixedPaths(p) ==> !(link <= q))
    && (forall m, q :: 0 <= m < |items| && q in PathsOf(p, items[m]) ==> !(link <= q))
  }

  // ---- The keys of an item's changes ----

  /** `cs` asks for the paths `ps`, in that order and by those names. */
  ghost predicate AskFor(cs: seq<Change>, ps: seq<Path>) {
    && |cs| == |ps|
    && (forall i :: 0 <= i < |cs| ==> cs[i].key == At(ps[i]) && cs[i].path == ps[i])
  }

  lemma AskForBoth(a: seq<Change>, ps: seq<Path>, b: seq<Change>, qs: seq<Path>)
    requires AskFor(a, ps) && AskFor(b, qs)
    ensures AskFor(a + b, ps + qs)
  {
  }

  lemma FunctionFilesAskFor(p: Paths, items: seq<Item>, item: Item, deps: seq<Key>)
    ensures AskFor(FunctionFiles(p, items, item, deps), FunctionPaths(p, item))
  {
    var dir, files := DirOf(p, item), AttrFiles(p, items, item, deps);
    var attrs := AttrChanges(dir, item.attrs, Before(items, item));
    var dirs := DirChanges(p, item, deps);
    var dirPaths := if item.path == [] then [] else [dir];
    AskForBoth(dirs, dirPaths, attrs, AttrPaths(dir, item.attrs));
    AskForBoth(files, dirPaths + AttrPaths(dir, item.attrs),
               [ReportChange(p, items, item, deps + Keys(files))], [dir + ["report_desc"]]);
  }

  lemma ConfigChangesAskFor(p: Paths, items: seq<Item>, item: Item, deps: seq<Key>)
    ensures AskFor(ConfigChanges(p, items, item, deps), ConfigPaths(p, item))
  {
    if item.configAttrs.Some? && item.configAttrs.value != [] {
      var dir := ConfigDirOf(p, item);
      var attrs := AttrChanges(dir, item.configAttrs.value, Before(items, item));
      AskForBoth(ConfigDirChanges(p, item, deps), if dir == p.c1 then [] else [dir],
                 attrs, AttrPaths(dir, item.configAttrs.value));
    }
  }

  lemma ItemFilesAskFor(p: Paths, items: seq<Item>, item: Item, deps: seq<Key>)
    requires item.enabled
    ensures AskFor(ItemFiles(p, items, item, deps), PathsOf(p, item))
  {
    hide FunctionFiles, ConfigChanges, FunctionPaths, ConfigPaths, AskFor;
    var files := FunctionFiles(p, items, item, deps);
    FunctionFilesAskFor(p, items, item, deps);
    ConfigChangesAskFor(p, items, item, deps + Keys(files));
    AskForBoth(files, FunctionPaths(p, item), ConfigChanges(p, items, item, deps + Keys(files)), ConfigPaths(p, item));
  }

  // ---- No two changes share a key ----

  lemma DistinctAppend(a: seq<Change>, b: seq<Change>)
    requires DistinctKeys(a) && DistinctKeys(b)
    requires forall x, y :: x in a && y in b ==> x.key != y.key
    ensures DistinctKeys(a + b)
  {
    assert forall i :: 0 <= i < |a| ==> a[i] in a;
    assert forall i :: 0 <= i < |b| ==> b[i] in b;
  }

  /** A change of `item`: one of its paths, or the removal of its link. */
  ghost predicate BelongsTo(p: Paths, item: Item, c: Change) {
    || (c.key == At(c.path) && c.path in PathsOf(p, item))
    || (IsLinked(item) && c == DisableChange(p, item))
  }

  /** Changes of the first `n` items, no two with the same key. */
  ghost predicate Apart(p: Paths, items: seq<Item>, n: nat, cs: seq<Change>)
    requires n <= |items|
  {
    && DistinctKeys(cs)
    && (forall c :: c in cs ==> IsOwned(p, items, n, c))
  }

  ghost predicate IsOwned(p: Paths, items: seq<Item>, n: nat, c: Change)
    requires n <= |items|
  {
    c in Head(p) || exists m :: 0 <= m < n && BelongsTo(p, items[m], c)
  }

  lemma HeadIsFixed(p: Paths, c: Change)
    requires c in Head(p)
    ensures c.key == At(c.path) && c.path in {p.configFs, p.c1, p.gadget} && c.path in FixedPaths(p)
  {
    var f := FixedPaths(p);
    assert f[0] == p.configFs && f[1] == p.c1 && f[2] == p.gadget;
  }

  lemma HeadIsNotOwned(p: Paths, items: seq<Item>, n: nat, x: Change, y: Change)
    requires DistinctItems(p, items) && n < |items| && x in Head(p) && BelongsTo(p, items[n], y)
    ensures x.key != y.key
  {
    HeadIsFixed(p, x);
    hide Head, FixedPaths, PathsOf;
  }

  lemma OwnersDiffer(p: Paths, items: seq<Item>, m: nat, n: nat, x: Change, y: Change)
    requires DistinctItems(p, items) && m < n < |items|
    requires BelongsTo(p, items[m], x) && BelongsTo(p, items[n], y)
    ensures x.key != y.key
  {
    if IsLinked(items[m]) && IsLinked(items[n]) {
      DisableKeysDiffer(items[m], items[n]);
    }
  }

  lemma DisableKeysDiffer(f: Item, g: Item)
    requires f.device != g.device
    ensures DisableKey(f) != DisableKey(g)
  {
    var prefix := "disable-";
    assert (prefix + f.device)[|prefix|..] == f.device && (prefix + g.device)[|prefix|..] == g.device;
  }

  lemma AskedAreDistinct(cs: seq<Change>, ps: seq<Path>)
    requires AskFor(cs, ps) && Distinct(ps)
    ensures DistinctKeys(cs) && forall c :: c in cs ==> c.key == At(c.path) && c.path in ps
  {
  }

  /** The changes of one item belong to it and have different keys. */
  lemma ItemIsApart(p: Paths, items: seq<Item>, item: Item, deps: seq<Key>)
    requires item.enabled && Distinct(PathsOf(p, item))
    ensures var cs := ItemChanges(p, items, item, deps);
            DistinctKeys(cs) && forall c :: c in cs ==> BelongsTo(p, item, c)
  {
    ItemFilesAskFor(p, items, item, deps);
    hide ItemFiles, PathsOf;
    var files := ItemFiles(p, items, item, deps);
    AskedAreDistinct(files, PathsOf(p, item));
    if IsFunction(item) {
      DistinctAppend(files, [DisableChange(p, item)]);
    } else {
      assert files + [] == files;
    }
  }

  lemma RemovalBelongs(p: Paths, item: Item)
    requires !item.enabled
    ensures var cs := RemovalChanges(p, item); DistinctKeys(cs) && forall c :: c in cs ==> BelongsTo(p, item, c)
  {
  }

  lemma ItemKeepsApart(p: Paths, items: seq<Item>, n: nat, s: Progress)
    requires DistinctItems(p, items) && n < |items| && Apart(p, items, n, s.changes)
    ensures Apart(p, items, n + 1, AfterItem(p, items, s, items[n]).changes)
  {
    var item := items[n];
    assert Distinct(PathsOf(p, item));
    if item.enabled {
      ItemIsApart(p, items, item, s.deps);
    } else {
      RemovalBelongs(p, item);
    }
    hide ItemChanges, ItemFiles, RemovalChanges, Head, DistinctItems, PathsOf, BelongsTo;
    var more := if item.enabled then ItemChanges(p, items, item, s.deps) else RemovalChanges(p, item);
    assert DistinctKeys(more) && forall c :: c in more ==> BelongsTo(p, item, c);
    forall x, y | x in s.changes && y in more
      ensures x.key != y.key
    {
      if x in Head(p) {
        HeadIsNotOwned(p, items, n, x, y);
      } else {
        var m :| 0 <= m < n && BelongsTo(p, items[m], x);
        OwnersDiffer(p, items, m, n, x, y);
      }
    }
    DistinctAppend(s.changes, more);
  }

  lemma {:induction false} ItemsAreApart(p: Paths, items: seq<Item>, n: nat)
    requires DistinctItems(p, items) && n <= |items|
    ensures Apart(p, items, n, AfterItems(p, items, n).changes)
  {
    hide AfterItem, DistinctItems;
    if n == 0 {
      HeadIsApart(p, items);
    } else {
      ItemsAreApart(p, items, n - 1);
      ItemKeepsApart(p, items, n - 1, AfterItems(p, items, n - 1));
    }
  }

  lemma HeadIsApart(p: Paths, items: seq<Item>)
    requires DistinctItems(p, items)
    ensures Apart(p, items, 0, Head(p))
  {
    var f := FixedPaths(p);
    assert f[0] == p.configFs && f[1] == p.c1 && f[2] == p.gadget;
  }

  lemma TailIsApart(p: Paths, ignore: bool, rebind: bool, reorder: Change)
    requires Distinct(FixedPaths(p)) && reorder.key == REORDER
    ensures DistinctKeys(Tail(p, rebind, ignore, reorder))
    ensures forall c :: c in Tail(p, rebind, ignore, reorder) ==> c.key in {UDC, REORDER, At(p.dwc3 + ["unbind"]), At(p.dwc3 + ["bind"])}
  {
    var f := FixedPaths(p);
    assert f[4] != f[5];
  }

  /** What is requested after the items. */
  function Tail(p: Paths, rebind: bool, ignore: bool, reorder: Change): seq<Change> {
    [UdcChange(p)] + (if rebind then RebindChanges(p, ignore) else []) + [reorder]
  }

  lemma BodyMissesTail(p: Paths, items: seq<Item>, c: Change)
    requires DistinctItems(p, items) && IsOwned(p, items, |items|, c)
    ensures c.key !in {UDC, REORDER, At(p.dwc3 + ["unbind"]), At(p.dwc3 + ["bind"])}
  {
    var f := FixedPaths(p);
    assert f[0] == p.configFs && f[1] == p.c1 && f[2] == p.gadget;
    assert f[4] == p.dwc3 + ["unbind"] && f[5] == p.dwc3 + ["bind"];
    assert f[4] in f && f[5] in f;
    if c in Head(p) {
      HeadIsFixed(p, c);
    } else {
      hide Head, FixedPaths, PathsOf;
      var m :| 0 <= m < |items| && BelongsTo(p, items[m], c);
      DisableNames(items[m]);
    }
  }

  lemma ReorderKey(p: Paths, items: seq<Item>)
    requires Body(p, items).reorder.Some?
    ensures Body(p, items).reorder.value.key == REORDER
  {
    ItemsAreSound(p, items, |items|);
    hide AfterItems, Back, Known, HasShape;
  }

  lemma WholeIsApart(p: Paths, items: seq<Item>, rebind: bool, ignore: bool)
    requires DistinctItems(p, items) && Body(p, items).reorder.Some?
    ensures DistinctKeys(Whole(p, items, rebind, ignore))
  {
    ItemsAreApart(p, items, |items|);
    ReorderKey(p, items);
    assert Distinct(FixedPaths(p));
    hide AfterItems, FixedPaths, DistinctItems, Head, UdcChange, RebindChanges;
    var cs, reorder := Body(p, items).changes, Body(p, items).reorder.value;
    var tail := Tail(p, rebind, ignore, reorder);
    TailIsApart(p, ignore, rebind, reorder);
    assert Whole(p, items, rebind, ignore) == cs + tail;
    assert DistinctKeys(cs) && forall c :: c in cs ==> IsOwned(p, items, |items|, c);
    hide Body, Whole, Tail, IsOwned, Apart, DistinctKeys;
    forall x, y | x in cs && y in tail
      ensures x.key != y.key
    {
      BodyMissesTail(p, items, x);
    }
    DistinctAppend(cs, tail);
  }

  /** Nothing that is requested lies at or below a link. */
  lemma LinksStandAlone(p: Paths, items: seq<Item>, rebind: bool, ignore: bool, c: Change, f: Item)
    requires DistinctItems(p, items) && Body(p, items).reorder.Some? && IsEnabledFunction(items, f)
    requires c in Whole(p, items, rebind, ignore) && !c.conditional && c.key != REORDER
    ensures !(ConfigDirOf(p, f) <= c.path)
  {
    ItemsAreApart(p, items, |items|);
    ReorderKey(p, items);
    BodyIsPrefix(p, items, rebind, ignore);
    hide AfterItems, Whole;
    assert NothingAtOrBelow(p, items, ConfigDirOf(p, f));
    hide DistinctItems, PathsOf;
    if c in Body(p, items).changes {
      if c in Head(p) {
        HeadIsFixed(p, c);
      } else {
        hide Head;
        var m :| 0 <= m < |items| && BelongsTo(p, items[m], c);
      }
    } else {
      TailIsFixed(p, ignore, c);
    }
  }

  lemma TailIsFixed(p: Paths, ignore: bool, c: Change)
    requires c == UdcChange(p) || c in RebindChanges(p, ignore)
    ensures c.path in FixedPaths(p)
  {
    var f := FixedPaths(p);
    assert f[3] == p.gadget + ["UDC"] && f[4] == p.dwc3 + ["unbind"] && f[5] == p.dwc3 + ["bind"];
  }

  /** Distinct items are all that is needed: no two changes share a key, and
      nothing but a link is put at the place of a link. */
  lemma DistinctItemsDoNotClash(p: Paths, items: seq<Item>, rebind: bool, ignore: bool)
    requires DistinctItems(p, items) && Body(p, items).reorder.Some?
    ensures NoClashes(p, items, Whole(p, items, rebind, ignore))
  {
    WholeIsApart(p, items, rebind, ignore);
    hide Body, Whole, DistinctItems;
    forall c, f | c in Whole(p, items, rebind, ignore) && IsEnabledFunction(items, f) && !c.conditional && c.key != REORDER
      ensures c.path != ConfigDirOf(p, f) && (c.expected.Directory? ==> ConfigDirOf(p, f) !in Ancestors(c.path))
    {
      LinksStandAlone(p, items, rebind, ignore, c, f);
    }
  }
}
