/** Configuring the gadget again: what a second transaction finds to do after a
    first one went through. */
module GadgetConvergence {
  import opened Wrappers
  import opened ChangeSet
  import opened Resolver
  import opened GadgetTx
  import opened GadgetSafety
  import opened GadgetPaths
  import opened GadgetDevice

  // ---- What has been brought about stays ----

  /** A request that can be met once and for all. */
  predicate IsLasting(c: Change) {
    c.expected.Absent? || c.expected.Directory? || c.expected.ContentMatch? || c.expected.MountedConfigFS?
  }

  /** `d` neither writes nor removes nor links at `p`. */
  predicate Spares(d: Change, p: Path) {
    if d.expected.SymlinksInOrder? then forall l :: l in d.expected.links ==> l.path != p else d.path != p
  }

  /** `d` makes no directory at or below `p`. */
  predicate KeepsAway(d: Change, p: Path) {
    d.expected.Directory? ==> p !in Ancestors(d.path)
  }

  /** Nothing stands in the way of `c`. */
  predicate Ready(fs: Fs, c: Change) {
    && (c.expected.Directory? ==> c.path != [] && (c.path in fs.nodes ==> fs.nodes[c.path].Dir?))
    && (c.expected.MountedConfigFS? ==> c.path in fs.nodes && fs.nodes[c.path].Dir?)
  }

  predicate IsHalfReordered(a: Applied) {
    a.action.ReorderSymlinks? && a.outcome.Fails?
  }

  lemma RelinkSpares(fs: Fs, c: Change, p: Path)
    requires c.expected.SymlinksInOrder? && Spares(c, p)
    ensures var nodes := Linked(Unlinked(fs.nodes, c.path), LinksOf(c));
            && (p in fs.nodes && !fs.nodes[p].Link? ==> p in nodes && nodes[p] == fs.nodes[p])
            && (p in nodes ==> p in fs.nodes && nodes[p] == fs.nodes[p])
  {
    var bare := Unlinked(fs.nodes, c.path);
    if p in fs.nodes && !fs.nodes[p].Link? {
      LinkedElse(bare, LinksOf(c), p);
    }
    if p in Linked(bare, LinksOf(c)) {
      LinkedOnly(bare, LinksOf(c), p);
    }
  }

  /** What a step leaves at a path that its change spares. */
  lemma StepSpares(a: Applied, p: Path)
    requires IsStep(a) && Spares(a.change, p) && !IsHalfReordered(a)
    ensures var fs, fs' := a.before, Result(a);
            && (p in fs.nodes && !fs.nodes[p].Link? ==> p in fs'.nodes && fs'.nodes[p] == fs.nodes[p])
            && (p in fs'.nodes && p !in fs.nodes ==> !KeepsAway(a.change, p))
            && fs.mounts <= fs'.mounts
    ensures a.outcome.Succeeds? && p in Result(a).nodes && p !in a.before.nodes ==> Result(a).nodes[p].Dir?
  {
    if a.action.ReorderSymlinks? {
      ReorderIsRequested(a);
      RelinkSpares(a.before, a.change, p);
    }
    hide Linked, Unlinked;
  }

  lemma SettledLasts(a: Applied, c: Change)
    requires IsStep(a) && IsLasting(c) && Spares(a.change, c.path) && !IsHalfReordered(a)
    requires c.expected.Absent? ==> KeepsAway(a.change, c.path)
    requires !Acts(a.before, c)
    ensures !Acts(Result(a), c)
  {
    StepSpares(a, c.path);
    hide IsStep, Result, Spares, KeepsAway;
  }

  lemma ReadyLasts(a: Applied, c: Change)
    requires IsStep(a) && Spares(a.change, c.path) && GoesOn(a) && (a.outcome.Fails? ==> a.change.expected.FileWrite?)
    requires Ready(a.before, c)
    ensures Ready(Result(a), c)
  {
    StepSpares(a, c.path);
    if a.outcome.Fails? {
      FailedWrite(a, c.path);
    }
    hide Result, Spares, KeepsAway;
  }

  lemma FailedWrite(a: Applied, p: Path)
    requires IsStep(a) && a.outcome.Fails? && a.change.expected.FileWrite? && a.change.path != p
    ensures p in Result(a).nodes <==> p in a.before.nodes
    ensures p in a.before.nodes ==> Result(a).nodes[p] == a.before.nodes[p]
  {
  }

  lemma SettledAtOnce(a: Applied)
    requires IsStep(a) && a.outcome.Succeeds? && IsLasting(a.change) && Ready(a.before, a.change)
    ensures !Acts(Result(a), a.change)
  {
    if !a.change.expected.MountedConfigFS? {
      ChangeSettles(a.before, a.change);
    }
  }

  // ---- Over a whole run ----

  /** The run went to its end, and no call failed but unbinding perhaps. */
  ghost predicate WentThrough(fs: Fs, plan: seq<Change>, log: seq<Applied>) {
    && IsRun(fs, plan, log) && HasFinished(plan, log)
    && (forall i :: 0 <= i < |log| ==> GoesOn(log[i]))
    && (forall i :: 0 <= i < |log| && log[i].outcome.Fails? ==> log[i].change.expected.FileWrite?)
  }

  /** No other change of the plan gets in the way of the `i`th one. */
  predicate StandsAlone(plan: seq<Change>, i: nat)
    requires i < |plan|
  {
    forall j :: 0 <= j < |plan| && j != i ==>
      Spares(plan[j], plan[i].path) && (plan[i].expected.Absent? ==> KeepsAway(plan[j], plan[i].path))
  }

  lemma StepAt(fs: Fs, plan: seq<Change>, log: seq<Applied>, i: nat)
    requires WentThrough(fs, plan, log) && i < |plan|
    ensures |log| == |plan| && log[i].change == plan[i] && IsStep(log[i]) && GoesOn(log[i])
    ensures log[i].outcome.Fails? ==> plan[i].expected.FileWrite?
    ensures log[i].before == StateAt(fs, log, i) && StateAt(fs, log, i + 1) == Result(log[i])
  {
    hide IsStep, Result, GoesOn;
  }

  lemma NotHalfReordered(a: Applied)
    requires IsStep(a) && (a.outcome.Fails? ==> a.change.expected.FileWrite?)
    ensures !IsHalfReordered(a)
  {
  }

  lemma {:induction false} ReadyUntil(fs: Fs, plan: seq<Change>, log: seq<Applied>, i: nat, n: nat)
    requires WentThrough(fs, plan, log) && n <= i < |plan| && |log| == |plan|
    requires StandsAlone(plan, i) && Ready(fs, plan[i])
    ensures Ready(StateAt(fs, log, n), plan[i])
  {
    hide WentThrough, IsStep, Result, GoesOn, Ready, Spares, KeepsAway;
    if n > 0 {
      ReadyUntil(fs, plan, log, i, n - 1);
      StepAt(fs, plan, log, n - 1);
      ReadyLasts(log[n - 1], plan[i]);
    }
  }

  /** Every lasting change is settled from its turn on. */
  lemma {:induction false} SettledFrom(fs: Fs, plan: seq<Change>, log: seq<Applied>, i: nat, n: nat)
    requires WentThrough(fs, plan, log) && i < n <= |plan| && |log| == |plan|
    requires StandsAlone(plan, i) && Ready(fs, plan[i]) && IsLasting(plan[i])
    ensures !Acts(StateAt(fs, log, n), plan[i])
    decreases n
  {
    hide WentThrough, IsStep, Result, GoesOn, Ready, Spares, KeepsAway, Acts, IsHalfReordered, StateAt;
    StepAt(fs, plan, log, n - 1);
    NotHalfReordered(log[n - 1]);
    if n - 1 == i {
      ReadyUntil(fs, plan, log, i, i);
      SettledAtOnce(log[i]);
    } else {
      SettledFrom(fs, plan, log, i, n - 1);
      SettledLasts(log[n - 1], plan[i]);
    }
  }

  // ---- The changes of a transaction stand alone ----

  lemma BodyPaths(p: Paths, items: seq<Item>, c: Change)
    requires DistinctItems(p, items) && c in Body(p, items).changes && !c.conditional
    ensures c.key == At(c.path)
    ensures c.path in {p.configFs, p.c1, p.gadget} || c.path !in FixedPaths(p)
  {
    ItemsAreApart(p, items, |items|);
    hide AfterItems, PathsOf, FixedPaths;
    if c in Head(p) {
      HeadIsFixed(p, c);
    } else {
      hide Head;
      var m :| 0 <= m < |items| && BelongsTo(p, items[m], c);
    }
  }

  /** Two unconditional changes, the reordering aside, are at different paths. */
  lemma PathsDiffer(p: Paths, items: seq<Item>, rebind: bool, ignore: bool, c: Change, d: Change)
    requires DistinctItems(p, items) && Body(p, items).reorder.Some?
    requires c in Whole(p, items, rebind, ignore) && d in Whole(p, items, rebind, ignore) && c != d
    requires !c.conditional && !d.conditional && c.key != REORDER && d.key != REORDER
    ensures c.path != d.path
  {
    WholeIsApart(p, items, rebind, ignore);
    if c.path == d.path {
      hide Body, Whole, DistinctItems;
      if c.key == d.key {
        KeyIsUnique(Whole(p, items, rebind, ignore), c, d);
      } else if c.key == UDC {
        UdcIsAlone(p, items, rebind, ignore, d);
        IsUdc(p, items, rebind, ignore, c);
      } else if d.key == UDC {
        UdcIsAlone(p, items, rebind, ignore, c);
        IsUdc(p, items, rebind, ignore, d);
      } else {
        NamedByPath(p, items, rebind, ignore, c);
        NamedByPath(p, items, rebind, ignore, d);
      }
    }
  }

  lemma NamedByPath(p: Paths, items: seq<Item>, rebind: bool, ignore: bool, c: Change)
    requires DistinctItems(p, items) && Body(p, items).reorder.Some?
    requires c in Whole(p, items, rebind, ignore) && !c.conditional && c.key != REORDER && c.key != UDC
    ensures c.key == At(c.path)
  {
    ReorderKey(p, items);
    BodyIsPrefix(p, items, rebind, ignore);
    hide AfterItems, Whole;
    if c in Body(p, items).changes {
      BodyPaths(p, items, c);
    }
  }

  lemma IsUdc(p: Paths, items: seq<Item>, rebind: bool, ignore: bool, c: Change)
    requires DistinctItems(p, items) && Body(p, items).reorder.Some?
    requires c in Whole(p, items, rebind, ignore) && c.key == UDC
    ensures c == UdcChange(p)
  {
    WholeIsApart(p, items, rebind, ignore);
    BodyIsPrefix(p, items, rebind, ignore);
    KeyIsUnique(Whole(p, items, rebind, ignore), c, UdcChange(p));
  }

  lemma UdcIsAlone(p: Paths, items: seq<Item>, rebind: bool, ignore: bool, c: Change)
    requires DistinctItems(p, items) && Body(p, items).reorder.Some?
    requires c in Whole(p, items, rebind, ignore) && !c.conditional && c.key != REORDER && c.key != UDC
    ensures c.path != UdcChange(p).path
  {
    ReorderKey(p, items);
    BodyIsPrefix(p, items, rebind, ignore);
    FixedPathsDiffer(p);
    hide AfterItems, Whole;
    if c in Body(p, items).changes {
      BodyPaths(p, items, c);
    }
  }

  lemma FixedPathsDiffer(p: Paths)
    requires Distinct(FixedPaths(p))
    ensures var udc := p.gadget + ["UDC"];
            && udc !in {p.configFs, p.c1, p.gadget, p.dwc3 + ["unbind"], p.dwc3 + ["bind"]}
            && udc in FixedPaths(p)
  {
    var f := FixedPaths(p);
    assert f[0] == p.configFs && f[1] == p.c1 && f[2] == p.gadget && f[3] == p.gadget + ["UDC"];
    assert f[4] == p.dwc3 + ["unbind"] && f[5] == p.dwc3 + ["bind"];
  }

  /** No directory is requested at or below a path that is to be absent. */
  ghost predicate AbsencesStandAlone(p: Paths, items: seq<Item>, rebind: bool, ignore: bool)
    requires Body(p, items).reorder.Some?
  {
    forall c, d ::
      (c in Whole(p, items, rebind, ignore) && d in Whole(p, items, rebind, ignore) && c.expected.Absent? && !c.conditional)
      ==> KeepsAway(d, c.path)
  }

  lemma ConditionalIsDisabling(p: Paths, items: seq<Item>, rebind: bool, ignore: bool, d: Change)
    requires Body(p, items).reorder.Some? && d in Whole(p, items, rebind, ignore) && d.conditional
    ensures exists f :: IsEnabledFunction(items, f) && d == DisableChange(p, f)
  {
    ItemsAreSound(p, items, |items|);
    BodyIsPrefix(p, items, rebind, ignore);
    hide AfterItems, Whole, Back, Known;
    if d in Body(p, items).changes {
      assert HasShape(p, items, d);
    }
  }

  lemma ReorderMakesLinks(p: Paths, items: seq<Item>, rebind: bool, ignore: bool, d: Change)
    requires DistinctItems(p, items) && Body(p, items).reorder.Some?
    requires d in Whole(p, items, rebind, ignore) && d.key == REORDER
    ensures !d.conditional && d.path == p.c1 && d.expected == SymlinksInOrder(FunctionLinks(p, items)) && !d.ignoreErrors
  {
    WholeIsApart(p, items, rebind, ignore);
    ItemsAreSound(p, items, |items|);
    BodyIsPrefix(p, items, rebind, ignore);
    ReorderHasLinks(p, items, |items|);
    assert items[..|items|] == items;
    hide AfterItems, Whole, FunctionLinks, Back, Known, HasShape;
    KeyIsUnique(Whole(p, items, rebind, ignore), d, Body(p, items).reorder.value);
  }

  /** Whatever else is requested spares the path of an unconditional change. */
  lemma RequestsSpare(p: Paths, items: seq<Item>, rebind: bool, ignore: bool, c: Change, d: Change)
    requires DistinctItems(p, items) && Body(p, items).reorder.Some?
    requires c in Whole(p, items, rebind, ignore) && d in Whole(p, items, rebind, ignore) && c != d
    requires !c.conditional && c.key != REORDER
    ensures Spares(d, c.path)
  {
    hide Body, Whole, DistinctItems, FunctionLinks, ConfigDirOf, DirOf;
    if d.conditional {
      ConditionalIsDisabling(p, items, rebind, ignore, d);
      var f :| IsEnabledFunction(items, f) && d == DisableChange(p, f);
      LinksStandAlone(p, items, rebind, ignore, c, f);
    } else if d.key == REORDER {
      ReorderMakesLinks(p, items, rebind, ignore, d);
      forall l | l in d.expected.links
        ensures l.path != c.path
      {
        LinksAreFunctions(p, items, l);
        var f :| IsEnabledFunction(items, f) && l == Symlink(ConfigDirOf(p, f), DirOf(p, f));
        LinksStandAlone(p, items, rebind, ignore, c, f);
      }
    } else {
      if d.expected.SymlinksInOrder? {
        OnlyReorderLinks(p, items, rebind, ignore, d);
        assert false;
      }
      PathsDiffer(p, items, rebind, ignore, c, d);
    }
  }

  lemma PlanStandsAlone(p: Paths, items: seq<Item>, rebind: bool, ignore: bool,
                        fs: Fs, acting: set<Key>, plan: seq<Change>, i: nat)
    requires IsGadgetPlan(p, items, rebind, ignore, fs, acting, plan) && i < |plan|
    requires DistinctItems(p, items) && AbsencesStandAlone(p, items, rebind, ignore)
    requires IsLasting(plan[i]) && !plan[i].conditional
    ensures StandsAlone(plan, i)
  {
    var c := plan[i];
    PlannedIsRequested(p, items, rebind, ignore, fs, acting, plan, i);
    if c.key == REORDER {
      ReorderMakesLinks(p, items, rebind, ignore, c);
      assert false;
    }
    forall j | 0 <= j < |plan| && j != i
      ensures Spares(plan[j], c.path) && (c.expected.Absent? ==> KeepsAway(plan[j], c.path))
    {
      assert plan[j].key != c.key by {
        KeysDiffer(p, items, rebind, ignore, fs, acting, plan, i, j);
      }
      PlannedIsRequested(p, items, rebind, ignore, fs, acting, plan, j);
      hide IsGadgetPlan, DistinctItems, Body, Whole, Spares, KeepsAway;
      RequestsSpare(p, items, rebind, ignore, c, plan[j]);
    }
  }

  lemma KeysDiffer(p: Paths, items: seq<Item>, rebind: bool, ignore: bool,
                   fs: Fs, acting: set<Key>, plan: seq<Change>, i: nat, j: nat)
    requires IsGadgetPlan(p, items, rebind, ignore, fs, acting, plan) && i < |plan| && j < |plan| && i != j
    ensures plan[j].key != plan[i].key
  {
    hide Body, Whole, NoClashes;
  }

  /** Whatever was requested and is lasting is settled after a run that went
      through, if nothing stood in its way to begin with. */
  lemma RequestsAreSettled(p: Paths, items: seq<Item>, rebind: bool, ignore: bool,
                           fs: Fs, acting: set<Key>, plan: seq<Change>, log: seq<Applied>, c: Change)
    requires IsGadgetPlan(p, items, rebind, ignore, fs, acting, plan) && WentThrough(fs, plan, log)
    requires DistinctItems(p, items) && AbsencesStandAlone(p, items, rebind, ignore)
    requires c in Whole(p, items, rebind, ignore) && !c.conditional && IsLasting(c) && Ready(fs, c)
    ensures !Acts(StateAt(fs, log, |log|), c)
  {
    hide IsGadgetPlan, DistinctItems, AbsencesStandAlone, Body, Whole, StandsAlone, Ready, Acts, IsLasting;
    var i := IsPlanned(p, items, rebind, ignore, fs, acting, plan, c);
    PlanStandsAlone(p, items, rebind, ignore, fs, acting, plan, i);
    assert |log| == |plan|;
    hide WentThrough;
    SettledFrom(fs, plan, log, i, |plan|);
  }

  // ---- On the device absences stand alone ----

  /** What an unconditional change of an item is. */
  ghost predicate IsRequestOf(p: Paths, item: Item, c: Change) {
    match c.expected
    case ContentMatch(_) => c.path != [] && (c.ignoreErrors <==> c.path[|c.path| - 1] == "wakeup_on_write")
    case Absent =>
      !c.ignoreErrors &&
      if item.enabled then c.path == DirOf(p, item) + ["report_desc"]
      else item.configPath.Some? && c.path == ConfigDirOf(p, item)
    case Directory =>
      && item.enabled && !c.ignoreErrors
      && ((item.path != [] && c.path == DirOf(p, item)) || (item.configAttrs.Some? && c.path == ConfigDirOf(p, item)))
    case _ => false
  }

  lemma FunctionRequests(p: Paths, items: seq<Item>, item: Item, deps: seq<Key>)
    requires item.enabled
    ensures forall c :: c in FunctionFiles(p, items, item, deps) ==> IsRequestOf(p, item, c)
  {
    hide Before, Keys, DirOf, ConfigDirOf, AttrChanges;
    var attrs := AttrChanges(DirOf(p, item), item.attrs, Before(items, item));
    AttrRequests(DirOf(p, item), item.attrs, Before(items, item));
    assert "report_desc"[0] != "wakeup_on_write"[0];
  }

  lemma AttrRequests(dir: Path, attrs: seq<Attr>, before: seq<Key>)
    ensures forall c :: c in AttrChanges(dir, attrs, before) ==>
              && c.expected.ContentMatch? && c.path != []
              && (c.ignoreErrors <==> c.path[|c.path| - 1] == "wakeup_on_write")
  {
  }

  lemma ConfigRequests(p: Paths, items: seq<Item>, item: Item, deps: seq<Key>)
    requires item.enabled
    ensures forall c :: c in ConfigChanges(p, items, item, deps) ==> IsRequestOf(p, item, c)
  {
    hide Before, DirOf, ConfigDirOf, AttrChanges;
    if item.configAttrs.Some? {
      AttrRequests(ConfigDirOf(p, item), item.configAttrs.value, Before(items, item));
    }
  }

  lemma ItemRequests(p: Paths, items: seq<Item>, s: Progress, item: Item, c: Change)
    requires c in AfterItem(p, items, s, item).changes && c !in s.changes && !c.conditional
    ensures IsRequestOf(p, item, c)
  {
    if item.enabled {
      FunctionRequests(p, items, item, s.deps);
      var files := FunctionFiles(p, items, item, s.deps);
      ConfigRequests(p, items, item, s.deps + Keys(files));
      hide FunctionFiles, ConfigChanges, Keys, IsRequestOf;
    }
  }

  lemma {:induction false} BodyRequests(p: Paths, items: seq<Item>, n: nat, c: Change)
    requires n <= |items| && c in AfterItems(p, items, n).changes && !c.conditional
    ensures c in Head(p) || exists m :: 0 <= m < n && IsRequestOf(p, items[m], c)
  {
    hide AfterItem, IsRequestOf, Head;
    if n > 0 {
      if c in AfterItems(p, items, n - 1).changes {
        BodyRequests(p, items, n - 1, c);
      } else {
        ItemRequests(p, items, AfterItems(p, items, n - 1), items[n - 1], c);
      }
    }
  }

  /** Where something is to be absent on the device. */
  predicate IsAbsence(q: Path) {
    || (q != [] && q[|q| - 1] == "report_desc")
    || (|q| == 8 && q[5] == "configs" && q[7] in DEVICES && q[7] != "")
  }

  /** The directories of the device. */
  predicate IsDirectory(q: Path) {
    || q == GADGET || q == C1
    || q == GADGET + ["strings", "0x409"] || q == C1 + ["strings", "0x409"]
    || q == GADGET + ["functions", "mass_storage.usb0", "lun.0"]
    || (|q| == 7 && q[..6] == GADGET + ["functions"] && q[6] in DEVICES && q[6] != "")
  }

  lemma DeviceWords()
    ensures forall i :: 0 <= i < |GADGET| ==> GADGET[i] != "report_desc"
    ensures forall i :: 0 <= i < |C1| ==> C1[i] != "report_desc"
    ensures "report_desc" !in ["strings", "0x409", "functions", "mass_storage.usb0", "lun.0"]
    ensures forall i :: 0 <= i < 10 ==> DEVICES[i] != "report_desc"
  {
    assert "report_desc"[0] == 'r' && "usb_gadget"[0] == 'u';
  }

  lemma DirectoriesAreClean(q: Path, i: nat)
    requires IsDirectory(q) && i < |q|
    ensures q[i] != "report_desc"
  {
    DeviceWords();
    if |q| == 7 && q[..6] == GADGET + ["functions"] {
      assert i < 6 ==> q[i] == q[..6][i];
    }
  }

  lemma AbsencesAreFree(q: Path, dir: Path)
    requires IsAbsence(q) && IsDirectory(dir)
    ensures !(q <= dir)
  {
    if q <= dir {
      if q[|q| - 1] == "report_desc" {
        DirectoriesAreClean(dir, |q| - 1);
      } else {
        Words();
        DeviceNames();
      }
    }
  }

  lemma DeviceRequest(p: Paths, items: seq<Item>, on: Devices, m: nat, c: Change)
    requires OnDevice(p) && Fits(items, on) && m < 10 && IsRequestOf(p, items[m], c)
    ensures c.expected.Absent? ==> IsAbsence(c.path)
    ensures c.expected.Directory? ==> IsDirectory(c.path)
  {
    assert FitsAt(items[m], on, m);
    var item, dir, conf := items[m], DirOf(p, items[m]), ConfigDirOf(p, items[m]);
    hide AreFree;
    if c.expected.Absent? && item.enabled {
      assert c.path[|c.path| - 1] == "report_desc";
    } else if c.expected.Absent? {
      assert KINDS[m] == Function && DEVICES[m] in DEVICES && DEVICES[m] != "";
      assert c.path == C1 + [DEVICES[m]] && c.path[5] == C1[5] == "configs";
    } else if c.expected.Directory? {
      match KINDS[m]
      case Base =>
      case Info =>
      case Lun =>
      case Function =>
        assert DEVICES[m] in DEVICES && DEVICES[m] != "";
        assert c.path == GADGET + ["functions", DEVICES[m]] && c.path[..6] == GADGET + ["functions"];
    }
  }

  lemma DeviceRequests(p: Paths, items: seq<Item>, on: Devices, c: Change)
    requires OnDevice(p) && Fits(items, on) && Body(p, items).reorder.Some?
    requires c in Whole(p, items, true, true) && !c.conditional
    ensures c.expected.Absent? ==> IsAbsence(c.path)
    ensures c.expected.Directory? ==> IsDirectory(c.path)
  {
    hide AfterItems, Whole, Fits, IsRequestOf, IsAbsence, IsDirectory;
    if c !in Body(p, items).changes {
      TailIsNoDirectory(p, items, c);
    } else {
      BodyRequests(p, items, |items|, c);
      if c in Head(p) {
        HeadDirectories(p, c);
      } else {
        var m :| 0 <= m < |items| && IsRequestOf(p, items[m], c);
        TenItems(items, on);
        DeviceRequest(p, items, on, m, c);
      }
    }
  }

  lemma HeadDirectories(p: Paths, c: Change)
    requires OnDevice(p) && c in Head(p)
    ensures !c.expected.Absent? && (c.expected.Directory? ==> IsDirectory(c.path))
  {
  }

  lemma TailIsNoDirectory(p: Paths, items: seq<Item>, c: Change)
    requires Body(p, items).reorder.Some? && c in Whole(p, items, true, true) && c !in Body(p, items).changes
    ensures !c.expected.Absent? && !c.expected.Directory?
  {
    ItemsAreSound(p, items, |items|);
    BodyIsPrefix(p, items, true, true);
    hide AfterItems, Whole, Back, Known, HasShape;
  }

  lemma TenItems(items: seq<Item>, on: Devices)
    requires Fits(items, on)
    ensures |items| == 10
  {
  }

  lemma DeviceAbsences(p: Paths, items: seq<Item>, on: Devices)
    requires OnDevice(p) && Fits(items, on) && Body(p, items).reorder.Some?
    ensures AbsencesStandAlone(p, items, true, true)
  {
    ItemsAreSound(p, items, |items|);
    hide AfterItems, Whole, Fits, IsAbsence, IsDirectory, Back, Known, HasShape;
    forall c, d | c in Whole(p, items, true, true) && d in Whole(p, items, true, true) && c.expected.Absent? && !c.conditional
      ensures KeepsAway(d, c.path)
    {
      DeviceRequests(p, items, on, c);
      if d.expected.Directory? {
        if d.conditional {
          ConditionalIsDisabling(p, items, true, true, d);
          assert false;
        }
        DeviceRequests(p, items, on, d);
        AbsencesAreFree(c.path, d.path);
      }
    }
  }

  // ---- Configuring the device again ----

  /** What a run needs to go through: the configuration file system can be
      mounted, and no file or link is where a directory has to be. */
  ghost predicate NothingInTheWay(fs: Fs, p: Paths, items: seq<Item>)
    requires Body(p, items).reorder.Some?
  {
    forall c :: c in Whole(p, items, true, true) && !c.conditional ==> Ready(fs, c)
  }

  lemma WholeIsTyped(p: Paths, items: seq<Item>, c: Change)
    requires DistinctItems(p, items) && Body(p, items).reorder.Some?
    requires c in Whole(p, items, true, true) && !c.conditional
    ensures c.key == REORDER || IsLasting(c) || c.expected.FileWrite?
    ensures c.key == REORDER || !c.expected.SymlinksInOrder?
  {
    ItemsAreSound(p, items, |items|);
    BodyIsPrefix(p, items, true, true);
    hide AfterItems, Whole, Back, Known;
    if c in Body(p, items).changes {
      assert HasShape(p, items, c);
    }
  }

  /** After a run of the device's transaction that went through, a change still
      has something to do exactly when it unbinds or binds, or when it is the
      reordering and the serial console is on, or audio and mass storage are. */
  lemma StillActsExactlyWhen(p: Paths, items: seq<Item>, on: Devices,
                             fs: Fs, acting: set<Key>, plan: seq<Change>, log: seq<Applied>, c: Change)
    requires OnDevice(p) && IsDeviceConfig(items, on)
    requires IsGadgetPlan(p, items, true, true, fs, acting, plan) && WentThrough(fs, plan, log)
    requires NothingInTheWay(fs, p, items) && c in Whole(p, items, true, true) && !c.conditional
    ensures Acts(StateAt(fs, log, |log|), c) <==> c.expected.FileWrite? || (c.key == REORDER && IsRelinking(on))
  {
    hide IsDeviceConfig, IsGadgetPlan, WentThrough, NothingInTheWay, Body, Whole, Ready, Acts, DistinctItems, Fits,
         StateAt, AbsencesStandAlone, FunctionLinks;
    GadgetPlanReorders(p, items, true, true, fs, acting, plan);
    IsReady(fs, p, items, c);
    WritesAlwaysAct(StateAt(fs, log, |log|), c);
    ConfigFits(items, on);
    DeviceConfigIsDistinct(p, items, on);
    DeviceAbsences(p, items, on);
    WholeIsTyped(p, items, c);
    if c.key == REORDER {
      ReorderMakesLinks(p, items, true, true, c);
      ReorderStillActs(p, items, on, fs, acting, plan, log, c);
    } else if IsLasting(c) {
      RequestsAreSettled(p, items, true, true, fs, acting, plan, log, c);
    }
  }

  lemma IsReady(fs: Fs, p: Paths, items: seq<Item>, c: Change)
    requires Body(p, items).reorder.Some? && NothingInTheWay(fs, p, items)
    requires c in Whole(p, items, true, true) && !c.conditional
    ensures Ready(fs, c)
  {
    hide Body, Whole, Ready;
  }

  lemma WritesAlwaysAct(fs: Fs, c: Change)
    ensures c.expected.FileWrite? ==> Acts(fs, c)
  {
  }

  /** The switches with which the links are never found in order. */
  predicate IsRelinking(on: Devices) {
    on.serialConsole || (on.audio && on.massStorage)
  }

  lemma ReorderStillActs(p: Paths, items: seq<Item>, on: Devices,
                         fs: Fs, acting: set<Key>, plan: seq<Change>, log: seq<Applied>, c: Change)
    requires OnDevice(p) && IsDeviceConfig(items, on) && DistinctItems(p, items)
    requires IsGadgetPlan(p, items, true, true, fs, acting, plan) && WentThrough(fs, plan, log)
    requires NothingInTheWay(fs, p, items) && AbsencesStandAlone(p, items, true, true)
    requires c.path == p.c1 && c.expected == SymlinksInOrder(FunctionLinks(p, items))
    ensures Acts(StateAt(fs, log, |log|), c) <==> IsRelinking(on)
  {
    assert IsRun(fs, plan, log) && HasFinished(plan, log);
    hide IsDeviceConfig, IsGadgetPlan, WentThrough, NothingInTheWay, DistinctItems, AbsencesStandAlone, Body, Whole,
         FunctionLinks, DistinctLinks, HasLinks, IsRun, HasFinished, StateAt;
    DeviceLinksAreDistinct(p, items, on);
    EndsFullyLinked(p, items, true, true, fs, acting, plan, log);
    ConfigurationStays(p, items, on, fs, acting, plan, log);
    RelinksExactlyWhen(p, items, on, StateAt(fs, log, |log|), c);
  }

  /** The configuration directory is there after such a run. */
  lemma ConfigurationStays(p: Paths, items: seq<Item>, on: Devices,
                           fs: Fs, acting: set<Key>, plan: seq<Change>, log: seq<Applied>)
    requires OnDevice(p) && DistinctItems(p, items) && IsGadgetPlan(p, items, true, true, fs, acting, plan)
    requires WentThrough(fs, plan, log) && NothingInTheWay(fs, p, items) && AbsencesStandAlone(p, items, true, true)
    ensures var end := StateAt(fs, log, |log|); C1 in end.nodes && end.nodes[C1].Dir?
  {
    hide DistinctItems, AbsencesStandAlone, IsGadgetPlan, WentThrough, NothingInTheWay, Body, Whole, Acts, StateAt;
    GadgetPlanReorders(p, items, true, true, fs, acting, plan);
    var c := C1Request(p);
    C1IsRequested(p, items);
    IsReady(fs, p, items, c);
    RequestsAreSettled(p, items, true, true, fs, acting, plan, log, c);
    DirectoryIsThere(StateAt(fs, log, |log|), c);
  }

  /** The request for the configuration directory. */
  function C1Request(p: Paths): Change {
    Requested(p.c1, Directory, [At(p.configFs)], [])
  }

  lemma C1IsRequested(p: Paths, items: seq<Item>)
    requires Body(p, items).reorder.Some?
    ensures C1Request(p) in Whole(p, items, true, true)
  {
    HeadIsInBody(p, items, |items|);
    BodyIsPrefix(p, items, true, true);
    assert Head(p)[1] == C1Request(p);
    hide AfterItems, Whole;
  }

  lemma {:induction false} HeadIsInBody(p: Paths, items: seq<Item>, n: nat)
    requires n <= |items|
    ensures forall c :: c in Head(p) ==> c in AfterItems(p, items, n).changes
  {
    hide ItemFiles, ItemChanges, RemovalChanges, Head;
    if n > 0 {
      HeadIsInBody(p, items, n - 1);
    }
  }

  /** So the next transaction disables no function, and only unbinds, binds and,
      in those cases, relinks. */
  lemma SecondPlanIsQuiet(p: Paths, items: seq<Item>, on: Devices,
                          fs: Fs, acting: set<Key>, plan: seq<Change>, log: seq<Applied>,
                          acting': set<Key>, plan': seq<Change>, i: nat)
    requires OnDevice(p) && IsDeviceConfig(items, on)
    requires IsGadgetPlan(p, items, true, true, fs, acting, plan) && WentThrough(fs, plan, log)
    requires NothingInTheWay(fs, p, items)
    requires IsGadgetPlan(p, items, true, true, StateAt(fs, log, |log|), acting', plan') && i < |plan'|
    ensures !plan'[i].conditional
    ensures plan'[i].key in acting' <==>
            plan'[i].expected.FileWrite? || (plan'[i].key == REORDER && IsRelinking(on))
  {
    assert Body(p, items).reorder.Some?;
    hide IsGadgetPlan, WentThrough, NothingInTheWay, IsDeviceConfig, Acts, Whole, Body, Unconditionals, Conditionals,
         Separate, IsPlan, IsFlat, StateAt;
    var cs, end := Whole(p, items, true, true), StateAt(fs, log, |log|);
    var u, c := Unconditionals(cs), Conditionals(cs);
    CollectedAreWellKeyed(cs);
    forall k | k in u
      ensures Acts(end, u[k]) <==> u[k].expected.FileWrite? || (k == REORDER && IsRelinking(on))
      ensures Acts(end, u[k]) ==> u[k].beforeChange == []
    {
      StillActsExactlyWhen(p, items, on, fs, acting, plan, log, u[k]);
      if Acts(end, u[k]) {
        ActingAreUnguarded(p, items, u[k]);
      }
    }
    ConditionalsAreFlat(p, items);
    GadgetPlanIsPlan(p, items, end, acting', plan');
    QuietPlan(u, c, end, acting', plan', i);
  }

  lemma GadgetPlanIsPlan(p: Paths, items: seq<Item>, fs: Fs, acting: set<Key>, plan: seq<Change>)
    requires IsGadgetPlan(p, items, true, true, fs, acting, plan)
    ensures var cs := Whole(p, items, true, true);
            && Separate(Unconditionals(cs), Conditionals(cs))
            && IsPlan(Unconditionals(cs), Conditionals(cs), fs, acting, plan)
  {
    hide Whole, Body, IsPlan, Unconditionals, Conditionals;
    CollectedAreSeparate(Whole(p, items, true, true));
  }

  lemma ConditionalsAreFlat(p: Paths, items: seq<Item>)
    requires Body(p, items).reorder.Some?
    ensures IsFlat(Conditionals(Whole(p, items, true, true)))
  {
    var cs := Whole(p, items, true, true);
    CollectedAreWellKeyed(cs);
    hide Body, Whole, Conditionals;
    forall k | k in Conditionals(cs)
      ensures Conditionals(cs)[k].beforeChange == []
    {
      ConditionalIsDisabling(p, items, true, true, Conditionals(cs)[k]);
    }
  }

  /** When no acting change has triggers, only unconditional changes are planned. */
  lemma QuietPlan(u: Changes, c: Changes, fs: Fs, acting: set<Key>, plan: seq<Change>, i: nat)
    requires Separate(u, c) && IsFlat(c) && IsPlan(u, c, fs, acting, plan) && i < |plan|
    requires forall k :: k in u && Acts(fs, u[k]) ==> u[k].beforeChange == []
    ensures plan[i].key in u && plan[i] == u[plan[i].key]
    ensures plan[i].key in acting <==> Acts(fs, plan[i])
  {
    NothingNamed(u, c, fs, acting);
    hide Acts, NamedBy;
  }

  /** Files of functions are contents or absences, so these do not act. */
  lemma ActingAreUnguarded(p: Paths, items: seq<Item>, c: Change)
    requires Body(p, items).reorder.Some? && c in Whole(p, items, true, true)
    requires c.expected.FileWrite? || c.key == REORDER
    ensures c.beforeChange == []
  {
    if c.beforeChange != [] {
      GuardedIsUnconditional(p, items, true, true, c);
      assert false;
    }
  }

  lemma NothingNamed(u: Changes, c: Changes, fs: Fs, acting: set<Key>)
    requires Separate(u, c) && IsFlat(c) && OnlyActing(u, c, fs, acting)
    requires forall k :: k in u && Acts(fs, u[k]) ==> u[k].beforeChange == []
    ensures NamedBy(u + c, acting) == {}
  {
    hide Acts;
  }

  // ---- The next run ----

  lemma GadgetPlanReorders(p: Paths, items: seq<Item>, rebind: bool, ignore: bool, fs: Fs, acting: set<Key>, plan: seq<Change>)
    requires IsGadgetPlan(p, items, rebind, ignore, fs, acting, plan)
    ensures Body(p, items).reorder.Some?
  {
    hide Body, Whole, NoClashes, IsPlan;
  }

  lemma AbsenceIsSpared(p: Paths, items: seq<Item>, c: Change, d: Change)
    requires Body(p, items).reorder.Some? && AbsencesStandAlone(p, items, true, true)
    requires c in Whole(p, items, true, true) && d in Whole(p, items, true, true) && !c.conditional
    ensures c.expected.Absent? ==> KeepsAway(d, c.path)
  {
    hide Body, Whole, KeepsAway;
  }

  lemma EarlierStep(p: Paths, items: seq<Item>, fs: Fs, acting: set<Key>, plan: seq<Change>, log: seq<Applied>, j: nat)
    requires DistinctItems(p, items) && IsGadgetPlan(p, items, true, true, fs, acting, plan) && IsRun(fs, plan, log)
    requires j + 1 < |log|
    ensures |log| <= |plan| && log[j].change == plan[j] && plan[j] in Whole(p, items, true, true) && IsStep(log[j])
    ensures !IsHalfReordered(log[j]) && log[j].before == StateAt(fs, log, j) && StateAt(fs, log, j + 1) == Result(log[j])
  {
    hide IsRun, IsGadgetPlan, DistinctItems, Body, Whole, Result, IsStep;
    TurnOf(fs, plan, log, j);
    RunAt(fs, plan, log, j + 1);
    GadgetPlanReorders(p, items, true, true, fs, acting, plan);
    PlannedIsRequested(p, items, true, true, fs, acting, plan, j);
    if log[j].action.ReorderSymlinks? {
      ReorderIsRequested(log[j]);
      OnlyReorderLinks(p, items, true, true, plan[j]);
      ReorderMakesLinks(p, items, true, true, plan[j]);
    }
  }

  lemma QuietStep(a: Applied)
    requires IsStep(a) && !Acts(a.before, a.change)
    ensures Result(a) == a.before
  {
  }

  /** What is settled stays so in the steps of a transaction. */
  lemma SettledStep(p: Paths, items: seq<Item>, c: Change, a: Applied)
    requires Body(p, items).reorder.Some? && DistinctItems(p, items) && AbsencesStandAlone(p, items, true, true)
    requires c in Whole(p, items, true, true) && !c.conditional && IsLasting(c) && !Acts(a.before, c)
    requires a.change in Whole(p, items, true, true) && IsStep(a) && !IsHalfReordered(a)
    ensures !Acts(Result(a), c)
  {
    hide DistinctItems, AbsencesStandAlone, Body, Whole, Acts, IsStep, Result, Spares, KeepsAway, IsHalfReordered;
    if a.change == c {
      QuietStep(a);
    } else {
      if c.key == REORDER {
        ReorderMakesLinks(p, items, true, true, c);
        assert false;
      }
      AbsenceIsSpared(p, items, c, a.change);
      RequestsSpare(p, items, true, true, c, a.change);
      SettledLasts(a, c);
    }
  }

  /** What is settled when a run starts is settled throughout. */
  lemma {:induction false} SettledThrough(p: Paths, items: seq<Item>, fs: Fs, acting: set<Key>, plan: seq<Change>,
                                          log: seq<Applied>, c: Change, n: nat)
    requires IsGadgetPlan(p, items, true, true, fs, acting, plan) && IsRun(fs, plan, log) && n < |log|
    requires DistinctItems(p, items) && AbsencesStandAlone(p, items, true, true)
    requires c in Whole(p, items, true, true) && !c.conditional && IsLasting(c) && !Acts(fs, c)
    ensures !Acts(StateAt(fs, log, n), c)
  {
    hide DistinctItems, IsGadgetPlan, AbsencesStandAlone, IsRun, IsStep, Result, Acts, Body, Whole, IsHalfReordered, IsLasting;
    if n > 0 {
      SettledThrough(p, items, fs, acting, plan, log, c, n - 1);
      GadgetPlanReorders(p, items, true, true, fs, acting, plan);
      EarlierStep(p, items, fs, acting, plan, log, n - 1);
      SettledStep(p, items, c, log[n - 1]);
    }
  }

  lemma LinksStep(p: Paths, items: seq<Item>, a: Applied)
    requires Body(p, items).reorder.Some? && DistinctItems(p, items) && HasLinks(a.before, p.c1, FunctionLinks(p, items))
    requires a.change in Whole(p, items, true, true) && !a.change.conditional && a.change.key != REORDER && IsStep(a)
    ensures HasLinks(Result(a), p.c1, FunctionLinks(p, items))
  {
    hide DistinctItems, IsStep, Result, Body, Whole, HasLinks, FunctionLinks;
    if a.change.expected.SymlinksInOrder? {
      OnlyReorderLinks(p, items, true, true, a.change);
      assert false;
    }
    forall l | l in FunctionLinks(p, items)
      ensures l.path != a.change.path
    {
      LinksAreFunctions(p, items, l);
      var f :| IsEnabledFunction(items, f) && l == Symlink(ConfigDirOf(p, f), DirOf(p, f));
      LinksStandAlone(p, items, true, true, a.change, f);
    }
    LinksLast(a, p.c1, FunctionLinks(p, items));
  }

  /** The links stay until the reordering has its turn. */
  lemma {:induction false} LinksThrough(p: Paths, items: seq<Item>, fs: Fs, acting: set<Key>, plan: seq<Change>,
                                        log: seq<Applied>, r: nat, n: nat)
    requires DistinctItems(p, items) && IsGadgetPlan(p, items, true, true, fs, acting, plan) && IsRun(fs, plan, log)
    requires n <= r < |log| && r < |plan| && plan[r].key == REORDER
    requires forall j :: 0 <= j < |plan| ==> !plan[j].conditional
    requires HasLinks(fs, p.c1, FunctionLinks(p, items))
    ensures HasLinks(StateAt(fs, log, n), p.c1, FunctionLinks(p, items))
  {
    hide DistinctItems, IsGadgetPlan, IsRun, IsStep, Result, Body, Whole, HasLinks, FunctionLinks, IsHalfReordered;
    if n > 0 {
      LinksThrough(p, items, fs, acting, plan, log, r, n - 1);
      GadgetPlanReorders(p, items, true, true, fs, acting, plan);
      EarlierStep(p, items, fs, acting, plan, log, n - 1);
      KeysDiffer(p, items, true, true, fs, acting, plan, r, n - 1);
      LinksStep(p, items, log[n - 1]);
    }
  }

  /** The state in which a first run leaves the device. */
  lemma AfterFirstRun(p: Paths, items: seq<Item>, on: Devices,
                      fs: Fs, acting: set<Key>, plan: seq<Change>, log: seq<Applied>)
    requires OnDevice(p) && IsDeviceConfig(items, on)
    requires IsGadgetPlan(p, items, true, true, fs, acting, plan) && WentThrough(fs, plan, log)
    requires NothingInTheWay(fs, p, items)
    ensures DistinctItems(p, items) && AbsencesStandAlone(p, items, true, true)
    ensures HasLinks(StateAt(fs, log, |log|), p.c1, FunctionLinks(p, items))
    ensures var c := C1Request(p);
            c in Whole(p, items, true, true) && !Acts(StateAt(fs, log, |log|), c)
  {
    assert IsRun(fs, plan, log) && HasFinished(plan, log);
    var c := C1Request(p);
    GadgetPlanReorders(p, items, true, true, fs, acting, plan);
    C1IsRequested(p, items);
    hide IsDeviceConfig, IsGadgetPlan, WentThrough, NothingInTheWay, DistinctItems, AbsencesStandAlone, Body, Whole,
         FunctionLinks, DistinctLinks, HasLinks, IsRun, HasFinished, StateAt, Acts, Fits;
    ConfigFits(items, on);
    DeviceConfigIsDistinct(p, items, on);
    DeviceAbsences(p, items, on);
    DeviceLinksAreDistinct(p, items, on);
    EndsFullyLinked(p, items, true, true, fs, acting, plan, log);
    StillActsExactlyWhen(p, items, on, fs, acting, plan, log, c);
  }

  /** All links and their directory are there when the reordering has its turn. */
  lemma LinkedAtTurn(p: Paths, items: seq<Item>, fs: Fs, acting: set<Key>, plan: seq<Change>,
                     log: seq<Applied>, c1: Change, i: nat)
    requires IsGadgetPlan(p, items, true, true, fs, acting, plan) && IsRun(fs, plan, log)
    requires DistinctItems(p, items) && AbsencesStandAlone(p, items, true, true) && HasLinks(fs, p.c1, FunctionLinks(p, items))
    requires i < |log| && i < |plan| && plan[i].key == REORDER && forall j :: 0 <= j < |plan| ==> !plan[j].conditional
    requires c1.expected.Directory? && !c1.conditional && c1 in Whole(p, items, true, true) && !Acts(fs, c1)
    ensures HasLinks(log[i].before, p.c1, FunctionLinks(p, items))
    ensures c1.path in log[i].before.nodes && log[i].before.nodes[c1.path].Dir?
  {
    hide DistinctItems, AbsencesStandAlone, HasLinks, FunctionLinks, IsGadgetPlan, IsRun, Body, Whole, StateAt, Acts, IsStep;
    TurnOf(fs, plan, log, i);
    LinksThrough(p, items, fs, acting, plan, log, i, i);
    SettledThrough(p, items, fs, acting, plan, log, c1, i);
    DirectoryIsThere(log[i].before, c1);
  }

  lemma ReorderIsQuiet(p: Paths, items: seq<Item>, on: Devices, a: Applied)
    requires OnDevice(p) && IsDeviceConfig(items, on) && !IsRelinking(on)
    requires HasLinks(a.before, p.c1, FunctionLinks(p, items)) && p.c1 in a.before.nodes && a.before.nodes[p.c1].Dir?
    requires IsStep(a) && a.change.path == p.c1 && a.change.expected == SymlinksInOrder(FunctionLinks(p, items))
    ensures a.action.DoNothing?
  {
    hide IsDeviceConfig, HasLinks, FunctionLinks, IsStep;
    RelinksExactlyWhen(p, items, on, a.before, a.change);
    InOrderIsQuiet(a);
  }

  lemma TurnOf(fs: Fs, plan: seq<Change>, log: seq<Applied>, i: nat)
    requires IsRun(fs, plan, log) && i < |log|
    ensures |log| <= |plan| && log[i].change == plan[i] && IsStep(log[i]) && log[i].before == StateAt(fs, log, i)
  {
    hide IsStep, StateAt;
  }

  lemma DirectoryIsThere(fs: Fs, c: Change)
    requires c.expected.Directory? && !Acts(fs, c)
    ensures c.path in fs.nodes && fs.nodes[c.path].Dir?
  {
  }

  lemma InOrderIsQuiet(a: Applied)
    requires IsStep(a) && a.change.expected.SymlinksInOrder? && ActionOf(a.before, a.change) != ReorderSymlinks
    ensures a.action.DoNothing?
  {
  }

  /** In the next run, whatever the system answers, nothing is done but
      unbinding, binding and, with those switches, relinking. */
  lemma SecondRunIsQuiet(p: Paths, items: seq<Item>, on: Devices,
                         fs: Fs, acting: set<Key>, plan: seq<Change>, log: seq<Applied>,
                         acting': set<Key>, plan': seq<Change>, log': seq<Applied>, i: nat)
    requires OnDevice(p) && IsDeviceConfig(items, on)
    requires IsGadgetPlan(p, items, true, true, fs, acting, plan) && WentThrough(fs, plan, log)
    requires NothingInTheWay(fs, p, items)
    requires IsGadgetPlan(p, items, true, true, StateAt(fs, log, |log|), acting', plan')
    requires IsRun(StateAt(fs, log, |log|), plan', log') && i < |log'|
    ensures log'[i].action.DoNothing? || log'[i].change.expected.FileWrite?
            || (log'[i].change.key == REORDER && IsRelinking(on))
  {
    hide IsDeviceConfig, DistinctItems, AbsencesStandAlone, HasLinks, FunctionLinks, IsGadgetPlan, IsRun, Body, Whole,
         WentThrough, NothingInTheWay, Acts, StateAt, IsStep, IsLasting;
    GadgetPlanReorders(p, items, true, true, fs, acting, plan);
    var end := StateAt(fs, log, |log|);
    TurnOf(end, plan', log', i);
    AfterFirstRun(p, items, on, fs, acting, plan, log);
    forall j | 0 <= j < |plan'|
      ensures !plan'[j].conditional
    {
      SecondPlanIsQuiet(p, items, on, fs, acting, plan, log, acting', plan', j);
    }
    var c := plan'[i];
    PlannedIsRequested(p, items, true, true, end, acting', plan', i);
    WholeIsTyped(p, items, c);
    StillActsExactlyWhen(p, items, on, fs, acting, plan, log, c);
    if c.key == REORDER && !IsRelinking(on) {
      ReorderMakesLinks(p, items, true, true, c);
      LinkedAtTurn(p, items, end, acting', plan', log', C1Request(p), i);
      ReorderIsQuiet(p, items, on, log'[i]);
    } else if c.key != REORDER && !c.expected.FileWrite? {
      SettledThrough(p, items, end, acting', plan', log', c, i);
      StepIsQuiet(log'[i]);
    }
  }

  lemma StepIsQuiet(a: Applied)
    requires IsStep(a) && !Acts(a.before, a.change)
    ensures a.action.DoNothing?
  {
  }

  // ---- What the file system holds ----

  /** What was asked for is there. */
  predicate IsMet(fs: Fs, c: Change) {
    match c.expected
    case ContentMatch(content) => c.path in fs.nodes && fs.nodes[c.path] == File(content)
    case FileWrite(content) => c.path in fs.nodes && fs.nodes[c.path] == File(content)
    case Directory => c.path in fs.nodes && fs.nodes[c.path].Dir?
    case Absent => c.path !in fs.nodes
    case MountedConfigFS => c.path in fs.nodes && fs.nodes[c.path].Dir? && c.path in fs.mounts
    case SymlinksInOrder(links) => HasLinks(fs, c.path, links)
  }

  /** A lasting request finds nothing to do exactly when it is met. */
  lemma SettledIsMet(fs: Fs, c: Change)
    requires IsLasting(c)
    ensures !Acts(fs, c) <==> IsMet(fs, c)
  {
  }

  lemma WriteIsMet(a: Applied)
    requires IsStep(a) && a.outcome.Succeeds? && a.change.expected.FileWrite?
    ensures IsMet(Result(a), a.change)
  {
  }

  lemma WriteLasts(a: Applied, c: Change)
    requires IsStep(a) && Spares(a.change, c.path) && !IsHalfReordered(a) && c.expected.FileWrite? && IsMet(a.before, c)
    ensures IsMet(Result(a), c)
  {
    StepSpares(a, c.path);
    hide IsStep, Result, Spares, KeepsAway;
  }

  /** What was written out of turn stays written. */
  lemma {:induction false} WrittenFrom(fs: Fs, plan: seq<Change>, log: seq<Applied>, i: nat, n: nat)
    requires WentThrough(fs, plan, log) && i < n <= |plan| && |log| == |plan|
    requires StandsAlone(plan, i) && plan[i].expected.FileWrite? && log[i].outcome.Succeeds?
    ensures IsMet(StateAt(fs, log, n), plan[i])
    decreases n
  {
    hide WentThrough, IsStep, Result, GoesOn, Spares, KeepsAway, IsHalfReordered, StateAt, IsMet;
    StepAt(fs, plan, log, n - 1);
    NotHalfReordered(log[n - 1]);
    if n - 1 == i {
      WriteIsMet(log[i]);
    } else {
      WrittenFrom(fs, plan, log, i, n - 1);
      WriteLasts(log[n - 1], plan[i]);
    }
  }

  /** After a run of the device's transaction that went through, everything
      that was asked for is there, except for unbinding or binding that failed. */
  lemma RequestsAreMet(p: Paths, items: seq<Item>, on: Devices,
                       fs: Fs, acting: set<Key>, plan: seq<Change>, log: seq<Applied>, i: nat)
    requires OnDevice(p) && IsDeviceConfig(items, on)
    requires IsGadgetPlan(p, items, true, true, fs, acting, plan) && WentThrough(fs, plan, log)
    requires NothingInTheWay(fs, p, items)
    requires i < |plan| == |log| && !plan[i].conditional && log[i].outcome.Succeeds?
    ensures IsMet(StateAt(fs, log, |log|), plan[i])
  {
    hide IsDeviceConfig, IsGadgetPlan, WentThrough, NothingInTheWay, Body, Whole, DistinctItems, AbsencesStandAlone,
         Fits, StateAt, HasLinks, FunctionLinks, Acts, Ready, StandsAlone, IsMet;
    GadgetPlanReorders(p, items, true, true, fs, acting, plan);
    AfterFirstRun(p, items, on, fs, acting, plan, log);
    PlannedIsRequested(p, items, true, true, fs, acting, plan, i);
    var c, end := plan[i], StateAt(fs, log, |log|);
    WholeIsTyped(p, items, c);
    if c.key == REORDER {
      ReorderMakesLinks(p, items, true, true, c);
      LinksAreMet(end, c, FunctionLinks(p, items));
    } else if c.expected.FileWrite? {
      WritesStandAlone(p, items, fs, acting, plan, i);
      WrittenFrom(fs, plan, log, i, |plan|);
    } else {
      StillActsExactlyWhen(p, items, on, fs, acting, plan, log, c);
      SettledIsMet(end, c);
    }
  }

  lemma LinksAreMet(fs: Fs, c: Change, links: seq<Symlink>)
    requires c.expected == SymlinksInOrder(links) && HasLinks(fs, c.path, links)
    ensures IsMet(fs, c)
  {
    hide HasLinks;
  }

  lemma WritesStandAlone(p: Paths, items: seq<Item>, fs: Fs, acting: set<Key>, plan: seq<Change>, i: nat)
    requires IsGadgetPlan(p, items, true, true, fs, acting, plan) && i < |plan| && DistinctItems(p, items)
    requires plan[i].expected.FileWrite? && !plan[i].conditional && plan[i].key != REORDER
    ensures StandsAlone(plan, i)
  {
    hide IsGadgetPlan, DistinctItems, Body, Whole, Spares;
    GadgetPlanReorders(p, items, true, true, fs, acting, plan);
    PlannedIsRequested(p, items, true, true, fs, acting, plan, i);
    forall j | 0 <= j < |plan| && j != i
      ensures Spares(plan[j], plan[i].path)
    {
      KeysDiffer(p, items, true, true, fs, acting, plan, i, j);
      PlannedIsRequested(p, items, true, true, fs, acting, plan, j);
      RequestsSpare(p, items, true, true, plan[i], plan[j]);
    }
  }

  /** Every lasting request of the transaction, and its links, are met. */
  lemma RequestIsMet(p: Paths, items: seq<Item>, on: Devices,
                     fs: Fs, acting: set<Key>, plan: seq<Change>, log: seq<Applied>, c: Change)
    requires OnDevice(p) && IsDeviceConfig(items, on)
    requires IsGadgetPlan(p, items, true, true, fs, acting, plan) && WentThrough(fs, plan, log)
    requires NothingInTheWay(fs, p, items)
    requires c in Whole(p, items, true, true) && !c.conditional && !c.expected.FileWrite?
    ensures IsMet(StateAt(fs, log, |log|), c)
  {
    hide IsDeviceConfig, IsGadgetPlan, WentThrough, NothingInTheWay, Body, Whole, StateAt, IsMet;
    var i := IsPlanned(p, items, true, true, fs, acting, plan, c);
    StepAt(fs, plan, log, i);
    RequestsAreMet(p, items, on, fs, acting, plan, log, i);
  }

  // ---- A configured device ----

  /** The file at `path` has these bytes. */
  predicate HasFile(fs: Fs, path: Path, content: seq<Byte>) {
    path in fs.nodes && fs.nodes[path] == File(content)
  }

  /** An enabled item is configured: its directories exist, its attributes and
      its report descriptor have their bytes (and no descriptor is left where
      there is none), and a function's link leads to it. */
  ghost predicate IsItemConfigured(fs: Fs, p: Paths, item: Item) {
    var dir := p.gadget + item.path;
    var config := p.c1 + if item.configPath.Some? then item.configPath.value else [];
    && dir in fs.nodes && fs.nodes[dir].Dir?
    && (forall a :: a in item.attrs ==> HasFile(fs, dir + [a.name], a.value))
    && (item.reportDesc.Some? ==> HasFile(fs, dir + ["report_desc"], item.reportDesc.value))
    && (item.reportDesc.None? ==> dir + ["report_desc"] !in fs.nodes)
    && (item.configAttrs.Some? ==> forall a :: a in item.configAttrs.value ==> HasFile(fs, config + [a.name], a.value))
    && (item.configPath.Some? && item.configAttrs.None? ==> config in fs.nodes && fs.nodes[config] == Link(dir))
  }

  /** Every item is configured, or gone from the configuration if it is not
      enabled, and the controller is set. */
  ghost predicate IsConfigured(fs: Fs, p: Paths, items: seq<Item>) {
    && (forall item :: item in items && item.enabled ==> IsItemConfigured(fs, p, item))
    && (forall item :: item in items && !item.enabled && item.configPath.Some? ==>
          p.c1 + item.configPath.value !in fs.nodes)
    && HasFile(fs, p.gadget + ["UDC"], p.udc)
    && p.configFs in fs.mounts
  }

  /** The changes of an item are part of the transaction. */
  lemma {:induction false} ItemIsRequested(p: Paths, items: seq<Item>, n: nat, m: nat) returns (deps: seq<Key>)
    requires m < n <= |items|
    ensures items[m].enabled ==>
      forall c :: c in ItemFiles(p, items, items[m], deps) ==> c in AfterItems(p, items, n).changes
    ensures !items[m].enabled ==> forall c :: c in RemovalChanges(p, items[m]) ==> c in AfterItems(p, items, n).changes
  {
    hide ItemFiles, RemovalChanges;
    if m == n - 1 {
      deps := AfterItems(p, items, n - 1).deps;
    } else {
      deps := ItemIsRequested(p, items, n - 1, m);
    }
  }

  lemma FileIsRequested(p: Paths, items: seq<Item>, item: Item, deps: seq<Key>, i: nat)
    requires i < |item.attrs|
    ensures AttrChange(p.gadget + item.path, item.attrs[i], Before(items, item)) in ItemFiles(p, items, item, deps)
  {
    hide Keys, ConfigChanges, Before, AttrChange;
    var attrs := AttrChanges(DirOf(p, item), item.attrs, Before(items, item));
    assert attrs[i] in attrs;
  }

  lemma ConfigFileIsRequested(p: Paths, items: seq<Item>, item: Item, deps: seq<Key>, i: nat)
    requires item.configAttrs.Some? && i < |item.configAttrs.value|
    ensures AttrChange(ConfigDirOf(p, item), item.configAttrs.value[i], Before(items, item)) in ItemFiles(p, items, item, deps)
  {
    hide Keys, FunctionFiles, Before, AttrChange, ConfigDirOf;
    var attrs := AttrChanges(ConfigDirOf(p, item), item.configAttrs.value, Before(items, item));
    assert attrs[i] in attrs;
  }

  lemma ReportIsRequested(p: Paths, items: seq<Item>, item: Item, deps: seq<Key>) returns (more: seq<Key>)
    ensures ReportChange(p, items, item, more) in ItemFiles(p, items, item, deps)
  {
    hide Keys, ConfigChanges, Before, ReportChange, AttrFiles;
    more := deps + Keys(AttrFiles(p, items, item, deps));
    var files := FunctionFiles(p, items, item, deps);
    assert files[|files| - 1] == ReportChange(p, items, item, more);
    assert files[|files| - 1] in files;
  }

  lemma DirIsRequested(p: Paths, items: seq<Item>, item: Item, deps: seq<Key>)
    requires item.path != []
    ensures Requested(p.gadget + item.path, Directory, deps, []) in ItemFiles(p, items, item, deps)
  {
    hide Keys, ConfigChanges, Before, AttrChanges;
    var dirs := DirChanges(p, item, deps);
    assert dirs[0] in dirs;
  }

  /** All requests but the writes to the driver are met in `fs`. */
  ghost predicate AllMet(fs: Fs, p: Paths, items: seq<Item>)
    requires Body(p, items).reorder.Some?
  {
    forall c :: c in Whole(p, items, true, true) && !c.conditional && !c.expected.FileWrite? ==> IsMet(fs, c)
  }

  lemma IsAllMet(fs: Fs, p: Paths, items: seq<Item>, c: Change)
    requires Body(p, items).reorder.Some? && AllMet(fs, p, items) && c in Body(p, items).changes
    requires !c.conditional && !c.expected.FileWrite?
    ensures IsMet(fs, c)
  {
    BodyIsPrefix(p, items, true, true);
    hide Body, Whole, IsMet;
  }

  lemma AttrIsConfigured(fs: Fs, p: Paths, items: seq<Item>, m: nat, deps: seq<Key>, a: Attr)
    requires Body(p, items).reorder.Some? && AllMet(fs, p, items) && m < |items| && a in items[m].attrs
    requires forall c :: c in ItemFiles(p, items, items[m], deps) ==> c in Body(p, items).changes
    ensures HasFile(fs, p.gadget + items[m].path + [a.name], a.value)
  {
    hide AfterItems, ItemFiles, AllMet, Whole, Before;
    var item, dir := items[m], p.gadget + items[m].path;
    var i :| 0 <= i < |item.attrs| && item.attrs[i] == a;
    FileIsRequested(p, items, item, deps, i);
    IsAllMet(fs, p, items, AttrChange(dir, a, Before(items, item)));
  }

  lemma FilesAreConfigured(fs: Fs, p: Paths, items: seq<Item>, m: nat)
    requires Body(p, items).reorder.Some? && AllMet(fs, p, items) && m < |items| && items[m].enabled
    ensures var item, dir := items[m], p.gadget + items[m].path;
            && (forall a :: a in item.attrs ==> HasFile(fs, dir + [a.name], a.value))
            && (item.reportDesc.Some? ==> HasFile(fs, dir + ["report_desc"], item.reportDesc.value))
            && (item.reportDesc.None? ==> dir + ["report_desc"] !in fs.nodes)
            && (item.path != [] ==> dir in fs.nodes && fs.nodes[dir].Dir?)
  {
    hide AfterItems, ItemFiles, AllMet, Whole, RemovalChanges;
    var item, dir := items[m], p.gadget + items[m].path;
    var deps := ItemIsRequested(p, items, |items|, m);
    forall a | a in item.attrs
      ensures HasFile(fs, dir + [a.name], a.value)
    {
      AttrIsConfigured(fs, p, items, m, deps, a);
    }
    hide AttrChange;
    var more := ReportIsRequested(p, items, item, deps);
    IsAllMet(fs, p, items, ReportChange(p, items, item, more));
    if item.path != [] {
      DirIsRequested(p, items, item, deps);
      IsAllMet(fs, p, items, Requested(dir, Directory, deps, []));
    }
  }

  lemma ConfigIsConfigured(fs: Fs, p: Paths, items: seq<Item>, m: nat)
    requires Body(p, items).reorder.Some? && AllMet(fs, p, items) && m < |items| && items[m].enabled
    requires items[m].configAttrs.Some?
    ensures forall a :: a in items[m].configAttrs.value ==> HasFile(fs, ConfigDirOf(p, items[m]) + [a.name], a.value)
  {
    var item := items[m];
    var deps := ItemIsRequested(p, items, |items|, m);
    hide AfterItems, ItemFiles, AllMet, Whole, ConfigDirOf;
    forall a | a in item.configAttrs.value
      ensures HasFile(fs, ConfigDirOf(p, item) + [a.name], a.value)
    {
      var i :| 0 <= i < |item.configAttrs.value| && item.configAttrs.value[i] == a;
      ConfigFileIsRequested(p, items, item, deps, i);
      IsAllMet(fs, p, items, AttrChange(ConfigDirOf(p, item), a, Before(items, item)));
    }
  }

  lemma LinkIsConfigured(fs: Fs, p: Paths, items: seq<Item>, m: nat)
    requires m < |items| && IsLinked(items[m]) && HasLinks(fs, p.c1, FunctionLinks(p, items))
    ensures ConfigDirOf(p, items[m]) in fs.nodes && fs.nodes[ConfigDirOf(p, items[m])] == Link(p.gadget + items[m].path)
  {
    LinkOf(p, items, m);
    hide FunctionLinks, ConfigDirOf;
  }

  lemma {:induction false} LinkOf(p: Paths, items: seq<Item>, m: nat)
    requires m < |items| && IsLinked(items[m])
    ensures Symlink(ConfigDirOf(p, items[m]), p.gadget + items[m].path) in FunctionLinks(p, items)
    decreases |items|
  {
    if m < |items| - 1 {
      LinkOf(p, items[..|items| - 1], m);
    }
  }

  lemma HeadIsConfigured(fs: Fs, p: Paths, items: seq<Item>)
    requires Body(p, items).reorder.Some? && AllMet(fs, p, items)
    ensures p.gadget in fs.nodes && fs.nodes[p.gadget].Dir? && p.configFs in fs.mounts
  {
    hide Body, AllMet, AfterItems;
    var mount, gadget := Requested(p.configFs, MountedConfigFS, [], []), Requested(p.gadget, Directory, [At(p.c1)], []);
    assert Head(p)[0] == mount && Head(p)[2] == gadget;
    BodyHasHead(p, items, mount);
    BodyHasHead(p, items, gadget);
    hide Head;
    IsAllMet(fs, p, items, mount);
    IsAllMet(fs, p, items, gadget);
  }

  lemma BodyHasHead(p: Paths, items: seq<Item>, c: Change)
    requires c in Head(p)
    ensures c in Body(p, items).changes
  {
    HeadIsInBody(p, items, |items|);
    hide AfterItems, Head;
  }

  lemma UdcIsConfigured(fs: Fs, p: Paths, items: seq<Item>)
    requires Body(p, items).reorder.Some? && AllMet(fs, p, items)
    ensures HasFile(fs, p.gadget + ["UDC"], p.udc)
  {
    hide Body, Whole;
    BodyIsPrefix(p, items, true, true);
    assert IsMet(fs, UdcChange(p));
  }

  lemma DisabledIsGone(fs: Fs, p: Paths, items: seq<Item>, m: nat)
    requires Body(p, items).reorder.Some? && AllMet(fs, p, items)
    requires m < |items| && !items[m].enabled && items[m].configPath.Some?
    ensures p.c1 + items[m].configPath.value !in fs.nodes
  {
    hide AllMet, Whole;
    var removal := Requested(ConfigDirOf(p, items[m]), Absent, [], []);
    var deps := ItemIsRequested(p, items, |items|, m);
    hide AfterItems;
    assert removal in RemovalChanges(p, items[m]);
    IsAllMet(fs, p, items, removal);
  }

  lemma MetIsConfigured(fs: Fs, p: Paths, items: seq<Item>)
    requires Body(p, items).reorder.Some? && AllMet(fs, p, items) && HasLinks(fs, p.c1, FunctionLinks(p, items))
    ensures IsConfigured(fs, p, items)
  {
    hide Body, AllMet, HasLinks, FunctionLinks, HasFile;
    HeadIsConfigured(fs, p, items);
    UdcIsConfigured(fs, p, items);
    forall item | item in items && !item.enabled && item.configPath.Some?
      ensures p.c1 + item.configPath.value !in fs.nodes
    {
      var m :| 0 <= m < |items| && items[m] == item;
      DisabledIsGone(fs, p, items, m);
    }
    forall item | item in items && item.enabled
      ensures IsItemConfigured(fs, p, item)
    {
      var m :| 0 <= m < |items| && items[m] == item;
      FilesAreConfigured(fs, p, items, m);
      assert item.path == [] ==> p.gadget + item.path == p.gadget;
      if item.configAttrs.Some? {
        ConfigIsConfigured(fs, p, items, m);
      } else if item.configPath.Some? {
        LinkIsConfigured(fs, p, items, m);
      }
    }
  }

  /** Updating the gadget of the device: what ConfigureDevice promises, and if
      the run went through with nothing in its way, a configured device, with
      unbinding and binding done as far as the calls succeeded. */
  method UpdateGadgetConfig(p: Paths, items: seq<Item>, on: Devices, fs: Fs, answers: seq<bool>)
    returns (r: CommitResult, ghost acting: set<Key>)
    requires OnDevice(p) && IsDeviceConfig(items, on)
    ensures r.Committed? && r.resolution.Plan? && Body(p, items).reorder.Some?
    ensures WentThrough(fs, r.resolution.changes, r.log) && NothingInTheWay(fs, p, items) ==>
      && IsConfigured(r.end, p, items)
      && |r.log| == |r.resolution.changes|
      && (forall i :: 0 <= i < |r.log| && !r.log[i].change.conditional && r.log[i].outcome.Succeeds? ==>
            IsMet(r.end, r.log[i].change))
  {
    hide IsDeviceConfig, Body, Whole, IsGadgetPlan, NothingInTheWay, IsRun, StateAt, HasLinks, FunctionLinks, IsMet,
         IsConfigured, AllMet;
    r, acting := ConfigureDevice(p, items, on, fs, answers);
    ghost var plan := r.resolution.changes;
    GadgetPlanReorders(p, items, true, true, fs, acting, plan);
    if WentThrough(fs, plan, r.log) && NothingInTheWay(fs, p, items) {
      ThroughIsConfigured(p, items, on, fs, acting, plan, r.log);
      forall i | 0 <= i < |r.log| && !r.log[i].change.conditional && r.log[i].outcome.Succeeds?
        ensures IsMet(r.end, r.log[i].change)
      {
        StepAt(fs, plan, r.log, i);
        RequestsAreMet(p, items, on, fs, acting, plan, r.log, i);
      }
    }
  }

  lemma ThroughIsConfigured(p: Paths, items: seq<Item>, on: Devices,
                            fs: Fs, acting: set<Key>, plan: seq<Change>, log: seq<Applied>)
    requires OnDevice(p) && IsDeviceConfig(items, on)
    requires IsGadgetPlan(p, items, true, true, fs, acting, plan) && WentThrough(fs, plan, log)
    requires NothingInTheWay(fs, p, items)
    ensures IsConfigured(StateAt(fs, log, |log|), p, items)
  {
    hide IsDeviceConfig, Body, Whole, IsGadgetPlan, WentThrough, NothingInTheWay, StateAt, HasLinks, FunctionLinks, IsMet,
         IsConfigured, DistinctItems, AbsencesStandAlone, Acts;
    GadgetPlanReorders(p, items, true, true, fs, acting, plan);
    AfterFirstRun(p, items, on, fs, acting, plan, log);
    var end := StateAt(fs, log, |log|);
    forall c | c in Whole(p, items, true, true) && !c.conditional && !c.expected.FileWrite?
      ensures IsMet(end, c)
    {
      RequestIsMet(p, items, on, fs, acting, plan, log, c);
    }
    MetIsConfigured(end, p, items);
  }

  // ---- Errors and order ----

  /** Only the optional wake-up attribute and unbinding may fail unnoticed. */
  lemma IgnoredErrors(p: Paths, items: seq<Item>, c: Change)
    requires DistinctItems(p, items) && Body(p, items).reorder.Some?
    requires c in Whole(p, items, true, true) && c.ignoreErrors
    ensures (c.path != [] && c.path[|c.path| - 1] == "wakeup_on_write") || c.path == p.dwc3 + ["unbind"]
  {
    BodyIsPrefix(p, items, true, true);
    ReorderKey(p, items);
    hide AfterItems, Whole, DistinctItems;
    if c.conditional {
      ConditionalIsDisabling(p, items, true, true, c);
    } else if c.key == REORDER {
      ReorderMakesLinks(p, items, true, true, c);
    } else if c in Body(p, items).changes {
      BodyRequests(p, items, |items|, c);
    }
  }

  /** An attribute is only written after its directory had its turn. */
  lemma FilesFollowDirectories(p: Paths, items: seq<Item>, fs: Fs, acting: set<Key>, plan: seq<Change>, i: nat,
                               dir: Path, a: Attr, before: seq<Key>, d: Change)
    requires IsGadgetPlan(p, items, true, true, fs, acting, plan) && i < |plan|
    requires plan[i] == AttrChange(dir, a, before)
    requires d in Whole(p, items, true, true) && d.key == At(dir) && !d.conditional
    ensures HasKey(plan[..i], At(dir))
  {
    hide IsGadgetPlan, Body, Whole;
    assert At(dir) in plan[i].dependsOn;
    PlannedAfter(p, items, true, true, fs, acting, plan, i, d);
  }
}
