/** Requested file changes and what they do to an abstract file system. A path
    is its list of components; a path that is not in the map is absent. */
module ChangeSet {
  import opened Wrappers

  type Path = seq<string>

  datatype Node = Dir | File(content: seq<Byte>) | Link(target: Path)

  datatype Fs = Fs(nodes: map<Path, Node>, mounts: set<Path>)

  /** A change is named by its path unless it was given a name of its own. */
  datatype Key = At(path: Path) | Named(name: string)

  datatype Symlink = Symlink(path: Path, target: Path)

  datatype Expected =
    | Absent
    | Directory
    | ContentMatch(content: seq<Byte>)
    | FileWrite(content: seq<Byte>)
    | MountedConfigFS
    | SymlinksInOrder(links: seq<Symlink>)

  datatype Change = Change(
    key: Key,
    path: Path,
    expected: Expected,
    dependsOn: seq<Key>,
    beforeChange: seq<Key>,
    ignoreErrors: bool,
    conditional: bool)

  datatype Action =
    | DoNothing
    | Remove
    | CreateFile
    | WriteFile
    | UpdateFile
    | ReorderSymlinks
    | CreateDirectory
    | MountConfigFS

  // ---- Deciding ----

  predicate IsChild(dir: Path, p: Path) {
    |p| == |dir| + 1 && p[..|dir|] == dir
  }

  /** Byte order on names, the order of a directory listing. */
  predicate NameLess(a: string, b: string) {
    if b == [] then false
    else if a == [] then true
    else a[0] < b[0] || (a[0] == b[0] && NameLess(a[1..], b[1..]))
  }

  /** The links of `dir` are exactly `links`. */
  predicate HasLinks(fs: Fs, dir: Path, links: seq<Symlink>) {
    && (forall l :: l in links ==> IsChild(dir, l.path) && l.path in fs.nodes && fs.nodes[l.path] == Link(l.target))
    && (forall p :: p in fs.nodes && IsChild(dir, p) && fs.nodes[p].Link? ==> exists l :: l in links && l.path == p)
  }

  /** The links of `dir`, listed by name, are exactly `links`, in that order. */
  predicate InOrder(fs: Fs, dir: Path, links: seq<Symlink>) {
    HasLinks(fs, dir, links) && NamesIncrease(links)
  }

  predicate NamesIncrease(links: seq<Symlink>) {
    forall i, j :: 0 <= i < j < |links| && |links[i].path| > 0 && |links[j].path| > 0 ==>
      NameLess(links[i].path[|links[i].path| - 1], links[j].path[|links[j].path| - 1])
  }

  /** What has to be done for `c` in the state `fs`. */
  function ActionOf(fs: Fs, c: Change): Action {
    match c.expected
    case FileWrite(_) => WriteFile
    case Absent => if c.path in fs.nodes then Remove else DoNothing
    case Directory => if c.path in fs.nodes && fs.nodes[c.path].Dir? then DoNothing else CreateDirectory
    case ContentMatch(content) =>
      if c.path in fs.nodes && fs.nodes[c.path].File? then
        if fs.nodes[c.path].content == content then DoNothing else UpdateFile
      else CreateFile
    case MountedConfigFS =>
      if c.path in fs.nodes && fs.nodes[c.path].Dir? && c.path in fs.mounts then DoNothing else MountConfigFS
    case SymlinksInOrder(links) =>
      if c.path in fs.nodes && fs.nodes[c.path].Dir? then
        if links == [] || InOrder(fs, c.path, links) then DoNothing else ReorderSymlinks
      else ReorderSymlinks
  }

  // ---- Doing ----

  function Written(c: Change): seq<Byte> {
    match c.expected
    case ContentMatch(content) => content
    case FileWrite(content) => content
    case _ => []
  }

  /** `path` and all directories above it, the root excepted. */
  function Ancestors(path: Path): set<Path> {
    set i | 0 < i <= |path| :: path[..i]
  }

  function Unlinked(nodes: map<Path, Node>, dir: Path): map<Path, Node> {
    map p | p in nodes && !(IsChild(dir, p) && nodes[p].Link?) :: nodes[p]
  }

  function Linked(nodes: map<Path, Node>, links: seq<Symlink>): map<Path, Node> {
    if links == [] then nodes
    else
      var last := links[|links| - 1];
      Linked(nodes, links[..|links| - 1])[last.path := Link(last.target)]
  }

  function LinksOf(c: Change): seq<Symlink> {
    if c.expected.SymlinksInOrder? then c.expected.links else []
  }

  /** The file system after `action` was carried out for `c`. */
  function Done(fs: Fs, c: Change, action: Action): Fs {
    match action
    case DoNothing => fs
    case Remove => fs.(nodes := fs.nodes - {c.path})
    case CreateFile => fs.(nodes := fs.nodes[c.path := File(Written(c))])
    case WriteFile => fs.(nodes := fs.nodes[c.path := File(Written(c))])
    case UpdateFile => fs.(nodes := fs.nodes[c.path := File(Written(c))])
    case CreateDirectory => fs.(nodes := (map p | p in Ancestors(c.path) :: Dir) + fs.nodes)
    case MountConfigFS => fs.(mounts := fs.mounts + {c.path})
    case ReorderSymlinks => fs.(nodes := Linked(Unlinked(fs.nodes, c.path), LinksOf(c)))
  }

  /** The paths an action may leave changed when it fails half-way. Making
      directories never touches what is there already. */
  function Footprint(fs: Fs, c: Change, action: Action): set<Path> {
    match action
    case DoNothing => {}
    case MountConfigFS => {}
    case CreateDirectory => Ancestors(c.path) - fs.nodes.Keys
    case ReorderSymlinks =>
      (set p | p in fs.nodes && IsChild(c.path, p)) + (set l | l in LinksOf(c) :: l.path)
    case _ => {c.path}
  }

  /** Each call is carried out or fails; a failed call keeps to its footprint
      and unmounts nothing, and only a reordering that failed can leave a new
      link there. */
  datatype Outcome = Succeeds | Fails(left: Fs)

  ghost predicate Possible(fs: Fs, c: Change, action: Action, o: Outcome) {
    match o
    case Succeeds => true
    case Fails(left) =>
      && (forall p :: p !in Footprint(fs, c, action) ==>
            (p in left.nodes <==> p in fs.nodes) && (p in fs.nodes ==> left.nodes[p] == fs.nodes[p]))
      && fs.mounts <= left.mounts
      && (!action.ReorderSymlinks? ==>
            forall p :: p in left.nodes && left.nodes[p].Link? ==> p in fs.nodes && fs.nodes[p].Link?)
  }

  // ---- Carrying out a plan ----

  /** One applied change: what was found, what was done, and how it went. */
  datatype Applied = Applied(change: Change, before: Fs, action: Action, outcome: Outcome)

  ghost predicate IsStep(a: Applied) {
    && a.action == ActionOf(a.before, a.change)
    && Possible(a.before, a.change, a.action, a.outcome)
    // Doing nothing cannot fail.
    && (a.action.DoNothing? ==> a.outcome.Succeeds?)
  }

  function Result(a: Applied): Fs {
    match a.outcome
    case Succeeds => Done(a.before, a.change, a.action)
    case Fails(left) => left
  }

  predicate GoesOn(a: Applied) {
    a.outcome.Succeeds? || a.change.ignoreErrors
  }

  /** What the `i`th change of a run finds. */
  function StateAt(fs: Fs, log: seq<Applied>, i: nat): Fs
    requires i <= |log|
  {
    if i == 0 then fs else Result(log[i - 1])
  }

  /** `log` is a run of `plan` from `fs`: every change is looked at afresh when
      its turn comes, and the run stops at the first error that counts. */
  ghost predicate IsRun(fs: Fs, plan: seq<Change>, log: seq<Applied>) {
    && IsPartialRun(fs, plan, log)
    && (|log| < |plan| ==> log != [] && !GoesOn(log[|log| - 1]))
  }

  ghost predicate IsPartialRun(fs: Fs, plan: seq<Change>, log: seq<Applied>) {
    && |log| <= |plan|
    && (forall i :: 0 <= i < |log| ==> log[i].change == plan[i] && IsStep(log[i]))
    && (forall i :: 0 <= i < |log| ==> log[i].before == StateAt(fs, log, i))
    && (forall i :: 0 <= i < |log| - 1 ==> GoesOn(log[i]))
  }

  /** Every change of the plan had its turn, and no error counted. */
  ghost predicate HasFinished(plan: seq<Change>, log: seq<Applied>) {
    |log| == |plan| && (log != [] ==> GoesOn(log[|log| - 1]))
  }

  lemma StartRun(fs: Fs, plan: seq<Change>)
    ensures IsPartialRun(fs, plan, [])
  {
  }

  lemma StateAtPrefix(fs: Fs, log: seq<Applied>, entry: Applied, i: nat)
    requires i <= |log|
    ensures StateAt(fs, log + [entry], i) == StateAt(fs, log, i)
  {
    hide Result;
  }

  lemma ExtendRun(fs: Fs, plan: seq<Change>, log: seq<Applied>, entry: Applied)
    requires IsPartialRun(fs, plan, log) && |log| < |plan| && (log != [] ==> GoesOn(log[|log| - 1]))
    requires IsStep(entry) && entry.change == plan[|log|] && entry.before == StateAt(fs, log, |log|)
    ensures IsPartialRun(fs, plan, log + [entry])
  {
    hide IsStep, Result, GoesOn, StateAt;
    var longer := log + [entry];
    forall i | 0 <= i < |longer|
      ensures longer[i].change == plan[i] && IsStep(longer[i])
      ensures longer[i].before == StateAt(fs, longer, i)
      ensures i < |longer| - 1 ==> GoesOn(longer[i])
    {
      StateAtPrefix(fs, log, entry, i);
      if i < |log| {
        assert longer[i] == log[i];
      }
    }
  }

  lemma RunAt(fs: Fs, plan: seq<Change>, log: seq<Applied>, i: nat)
    requires IsRun(fs, plan, log) && i < |log|
    ensures |log| <= |plan| && log[i].change == plan[i] && IsStep(log[i])
    ensures i > 0 ==> log[i].before == Result(log[i - 1]) && GoesOn(log[i - 1])
    ensures HasFinished(plan, log) ==> |log| == |plan| && GoesOn(log[i])
  {
    assert log[i].before == StateAt(fs, log, i);
  }

  /** Only a request for links in order makes links. */
  lemma ReorderIsRequested(a: Applied)
    requires IsStep(a) && a.action.ReorderSymlinks?
    ensures a.change.expected.SymlinksInOrder?
  {
  }

  /** Applies the changes of a plan in order. `answers` is how the operating
      system answers; the calls it says nothing about succeed. */
  method ApplyChanges(fs: Fs, plan: seq<Change>, answers: seq<bool>) returns (log: seq<Applied>, end: Fs, ok: bool)
    ensures IsRun(fs, plan, log)
    ensures end == StateAt(fs, log, |log|)
    ensures ok <==> HasFinished(plan, log)
  {
    hide IsStep, Result, IsPartialRun;
    StartRun(fs, plan);
    log, end, ok := [], fs, true;
    for i := 0 to |plan|
      invariant ok && |log| == i
      invariant IsPartialRun(fs, plan, log) && (i > 0 ==> GoesOn(log[i - 1]))
      invariant end == StateAt(fs, log, i)
    {
      var entry;
      entry, end := ApplyChange(end, plan[i], i >= |answers| || answers[i]);
      ExtendRun(fs, plan, log, entry);
      log := log + [entry];
      if !GoesOn(entry) {
        ok := false;
        return;
      }
    }
  }

  method ApplyChange(before: Fs, change: Change, answer: bool) returns (entry: Applied, end: Fs)
    ensures IsStep(entry) && entry.change == change && entry.before == before
    ensures end == Result(entry)
  {
    var action := ActionOf(before, change);
    if answer || action.DoNothing? {
      end := Carry(before, change, action);
      entry := Applied(change, before, action, Succeeds);
    } else {
      end := before;
      entry := Applied(change, before, action, Fails(before));
    }
  }

  method Carry(fs: Fs, c: Change, action: Action) returns (end: Fs)
    ensures end == Done(fs, c, action)
  {
    if action.ReorderSymlinks? {
      end := RecreateSymlinks(fs, c.path, LinksOf(c));
    } else {
      end := Done(fs, c, action);
    }
  }

  /** Removes every link of `dir`, then creates the wanted ones in order. */
  method RecreateSymlinks(fs: Fs, dir: Path, links: seq<Symlink>) returns (end: Fs)
    ensures end == fs.(nodes := Linked(Unlinked(fs.nodes, dir), links))
  {
    var nodes := fs.nodes;
    var todo := nodes.Keys;
    while todo != {}
      invariant todo <= fs.nodes.Keys
      invariant nodes == map p | p in fs.nodes && (p in todo || !(IsChild(dir, p) && fs.nodes[p].Link?)) :: fs.nodes[p]
      decreases |todo|
    {
      var p :| p in todo;
      todo := todo - {p};
      if IsChild(dir, p) && nodes[p].Link? {
        nodes := nodes - {p};
      }
    }
    assert nodes == Unlinked(fs.nodes, dir);
    for i := 0 to |links|
      invariant nodes == Linked(Unlinked(fs.nodes, dir), links[..i])
    {
      assert links[..i + 1][..i] == links[..i];
      nodes := nodes[links[i].path := Link(links[i].target)];
    }
    assert links[..|links|] == links;
    end := fs.(nodes := nodes);
  }

  /** Absence is only ended by a change that writes there, makes a directory
      there or below, or links there. */
  ghost predicate MayCreate(c: Change, p: Path) {
    match c.expected
    case Absent => false
    case MountedConfigFS => false
    case Directory => p in Ancestors(c.path)
    case SymlinksInOrder(links) => true
    case _ => c.path == p
  }

  lemma AbsenceLasts(a: Applied, p: Path)
    requires IsStep(a) && p !in a.before.nodes && !MayCreate(a.change, p)
    ensures p !in Result(a).nodes
  {
  }

  /** A removal that went through leaves the path absent. */
  lemma RemovalRemoves(a: Applied)
    requires IsStep(a) && a.change.expected.Absent? && a.outcome.Succeeds?
    ensures a.change.path !in Result(a).nodes
  {
  }

  /** Once a removal that must not fail is behind, its path stays absent as
      long as no later change may create it. */
  lemma {:induction false} AbsenceThroughRun(fs: Fs, plan: seq<Change>, log: seq<Applied>, j: nat, i: nat)
    requires IsRun(fs, plan, log) && j < i < |log|
    requires plan[j].expected.Absent? && !plan[j].ignoreErrors
    requires forall m :: j < m < i ==> !MayCreate(plan[m], plan[j].path)
    ensures plan[j].path !in log[i].before.nodes
    decreases i
  {
    hide IsRun, IsStep, Result;
    RunAt(fs, plan, log, i);
    RunAt(fs, plan, log, i - 1);
    if j == i - 1 {
      RemovalRemoves(log[j]);
    } else {
      AbsenceThroughRun(fs, plan, log, j, i - 1);
      AbsenceLasts(log[i - 1], plan[j].path);
    }
  }

  // ---- A change that went through is settled ----

  /** Once a directory, a file's content or an absence has been brought about,
      looking again finds nothing to do. */
  lemma ChangeSettles(fs: Fs, c: Change)
    requires c.expected.Absent? || c.expected.Directory? || c.expected.ContentMatch?
    requires c.expected.Directory? ==> c.path != [] && (c.path in fs.nodes ==> fs.nodes[c.path].Dir?)
    ensures ActionOf(Done(fs, c, ActionOf(fs, c)), c) == DoNothing
  {
    if c.expected.Directory? {
      assert c.path[..|c.path|] == c.path;
      assert c.path in Ancestors(c.path);
    }
  }

  /** A directory is made with all directories above it. */
  lemma DirectoryHasParents(fs: Fs, c: Change, i: nat)
    requires c.expected.Directory? && 0 < i <= |c.path| && ActionOf(fs, c) != DoNothing
    ensures var nodes := Done(fs, c, ActionOf(fs, c)).nodes;
            c.path[..i] in nodes && (c.path[..i] !in fs.nodes ==> nodes[c.path[..i]].Dir?)
  {
    assert c.path[..i] in Ancestors(c.path);
  }

  ghost predicate DistinctLinks(dir: Path, links: seq<Symlink>) {
    && (forall i, j :: 0 <= i < j < |links| ==> links[i].path != links[j].path)
    && (forall l :: l in links ==> IsChild(dir, l.path))
  }

  lemma {:induction false} LinkedHas(nodes: map<Path, Node>, links: seq<Symlink>, l: Symlink)
    requires forall i, j :: 0 <= i < j < |links| ==> links[i].path != links[j].path
    requires l in links
    ensures l.path in Linked(nodes, links) && Linked(nodes, links)[l.path] == Link(l.target)
  {
    var init, last := links[..|links| - 1], links[|links| - 1];
    if l != last {
      var i :| 0 <= i < |links| && links[i] == l;
      assert init[i] == l;
      LinkedHas(nodes, init, l);
    }
  }

  lemma {:induction false} LinkedOnly(nodes: map<Path, Node>, links: seq<Symlink>, p: Path)
    requires p in Linked(nodes, links)
    ensures (exists l :: l in links && l.path == p) || (p in nodes && Linked(nodes, links)[p] == nodes[p])
  {
    if links != [] {
      var init, last := links[..|links| - 1], links[|links| - 1];
      if p == last.path {
        assert last in links;
      } else {
        LinkedOnly(nodes, init, p);
        if l :| l in init && l.path == p {
          assert l in links;
        }
      }
    }
  }

  /** Recreating the links leaves exactly the wanted ones. */
  lemma RelinkedHasLinks(fs: Fs, dir: Path, links: seq<Symlink>)
    requires DistinctLinks(dir, links)
    ensures HasLinks(fs.(nodes := Linked(Unlinked(fs.nodes, dir), links)), dir, links)
  {
    var bare := Unlinked(fs.nodes, dir);
    var nodes := Linked(bare, links);
    forall l | l in links
      ensures l.path in nodes && nodes[l.path] == Link(l.target)
    {
      LinkedHas(bare, links, l);
    }
    forall p | p in nodes && IsChild(dir, p) && nodes[p].Link?
      ensures exists l :: l in links && l.path == p
    {
      LinkedOnly(bare, links, p);
    }
  }

  /** They are found in order afterwards exactly when their names increase: a
      directory is listed by name, not in the order the links were made. */
  lemma ReorderSettlesExactlyWhen(fs: Fs, c: Change)
    requires c.expected.SymlinksInOrder? && DistinctLinks(c.path, c.expected.links) && c.expected.links != []
    requires c.path in fs.nodes && fs.nodes[c.path].Dir?
    ensures var fs' := Done(fs, c, ActionOf(fs, c));
            ActionOf(fs', c) == DoNothing <==> NamesIncrease(c.expected.links)
  {
    var links := c.expected.links;
    RelinkedHasLinks(fs, c.path, links);
    var nodes := Linked(Unlinked(fs.nodes, c.path), links);
    DirStays(fs.nodes, c.path, links);
    hide HasLinks, NamesIncrease, Linked, Unlinked;
  }

  lemma DirStays(nodes: map<Path, Node>, dir: Path, links: seq<Symlink>)
    requires DistinctLinks(dir, links) && dir in nodes && nodes[dir].Dir?
    ensures var r := Linked(Unlinked(nodes, dir), links); dir in r && r[dir].Dir?
  {
    LinkedElse(Unlinked(nodes, dir), links, dir);
  }

  lemma {:induction false} LinkedElse(nodes: map<Path, Node>, links: seq<Symlink>, p: Path)
    requires p in nodes && forall l :: l in links ==> l.path != p
    ensures p in Linked(nodes, links) && Linked(nodes, links)[p] == nodes[p]
  {
    if links != [] {
      LinkedElse(nodes, links[..|links| - 1], p);
    }
  }

  /** A change that makes no links and stays away from these leaves them,
      whether or not it goes through. */
  lemma LinksLast(a: Applied, dir: Path, links: seq<Symlink>)
    requires IsStep(a) && HasLinks(a.before, dir, links)
    requires !a.change.expected.SymlinksInOrder?
    requires forall l :: l in links ==> l.path != a.change.path
    ensures HasLinks(Result(a), dir, links)
  {
  }

  lemma ReorderGivesLinks(a: Applied, links: seq<Symlink>)
    requires IsStep(a) && a.outcome.Succeeds? && links != []
    requires a.change.expected == SymlinksInOrder(links) && DistinctLinks(a.change.path, links)
    ensures HasLinks(Result(a), a.change.path, links)
  {
    hide HasLinks, Linked, Unlinked;
    if a.action.ReorderSymlinks? {
      RelinkedHasLinks(a.before, a.change.path, links);
    }
  }
}
