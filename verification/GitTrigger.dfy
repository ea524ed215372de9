/** The git half of triggering a deployment: one repository per agent, its default branch,
    and a branch with a pull request for every later attempt
    (app/api/v1/agents.py `_trigger_deployment`, app/modules/git_provider/github.py). */
module GitTrigger {
  import opened Common

  type Path = string
  type Content = string
  type Tree = map<Path, Content>

  /** A commit is named by its position in the repository's commit list. */
  type Sha = nat

  const README: Path := "README.md"
  const AUTO_INIT: Tree := map[README := "auto-init"]

  // ----- commits with and without a base tree -----

  /** The dictionary a list of items builds: later items win. */
  function Items(files: seq<(Path, Content)>): Tree {
    if files == [] then map[] else Items(files[..|files| - 1])[files[|files| - 1].0 := files[|files| - 1].1]
  }

  lemma {:induction false} ItemsSnoc(files: seq<(Path, Content)>, file: (Path, Content))
    ensures Items(files + [file]) == Items(files)[file.0 := file.1]
  {
    assert (files + [file])[..|files|] == files;
  }

  datatype Pr = NoPr | Open | Landed | Closed

  datatype Branch = Branch(base: Sha, tip: Sha, pr: Pr)

  datatype Repo = Repo(commits: seq<Tree>, main: Sha, branches: map<nat, Branch>)

  /** `None` is the default branch. */
  type Ref = Option<nat>

  predicate HasRef(r: Repo, ref: Ref) {
    ref.None? || ref.value in r.branches
  }

  function Tip(r: Repo, ref: Ref): Sha
    requires HasRef(r, ref)
  {
    if ref.None? then r.main else r.branches[ref.value].tip
  }

  function Pushed(r: Repo, ref: Ref, tree: Tree): Repo
    requires HasRef(r, ref)
  {
    var commits := r.commits + [tree];
    if ref.None? then r.(commits := commits, main := |r.commits|)
    else r.(commits := commits, branches := r.branches[ref.value := r.branches[ref.value].(tip := |r.commits|)])
  }

  function WithBranch(r: Repo, a: nat): Repo {
    r.(branches := r.branches[a := Branch(r.main, r.main, NoPr)])
  }

  function WithPr(r: Repo, a: nat, pr: Pr): Repo
    requires a in r.branches
  {
    r.(branches := r.branches[a := r.branches[a].(pr := pr)])
  }

  function Committing(parent: Tree, files: Tree, omitBase: bool): Tree {
    if omitBase then files else parent + files
  }

  /** What the network does during one commit_files call. */
  datatype Net = Net(
    scope: bool,
    readRef: bool,
    readCommit: bool,
    blobs: nat -> bool,
    trees: nat -> int,
    commit: bool,
    patch: Remote)

  const PROPAGATION_ATTEMPTS: nat := 9

  predicate Success(status: int) {
    200 <= status < 300
  }

  /** The tree is posted when the first answer that is not 404 is a success, if it comes
      within the allowed attempts. */
  predicate Posted(statuses: nat -> int) {
    exists k: nat :: k < PROPAGATION_ATTEMPTS && Success(statuses(k)) && forall j: nat :: j < k ==> statuses(j) == 404
  }

  predicate UnderWorkflows(path: Path) {
    ".github/workflows/" <= path
  }

  predicate NeedsScope(files: seq<(Path, Content)>) {
    exists k :: 0 <= k < |files| && UnderWorkflows(files[k].0)
  }

  /** Everything before the ref moves went well. */
  predicate Reaches(net: Net, files: seq<(Path, Content)>, omitBase: bool) {
    && (NeedsScope(files) ==> net.scope)
    && net.readRef
    && (omitBase || net.readCommit)
    && (forall k: nat :: k < |files| ==> net.blobs(k))
    && Posted(net.trees)
    && net.commit
  }

  /** When the ref moves, outright: a token that may write workflows if one is committed,
      every read and post answered, and among nine posts of the tree a success after
      nothing but 404. */
  lemma {:induction false} ReachesIff(net: Net, files: seq<(Path, Content)>, omitBase: bool)
    ensures Reaches(net, files, omitBase) <==>
              && ((exists k :: 0 <= k < |files| && ".github/workflows/" <= files[k].0) ==> net.scope)
              && net.readRef && net.commit && (!omitBase ==> net.readCommit)
              && (forall k: nat :: k < |files| ==> net.blobs(k))
              && exists k: nat :: k < 9 && 200 <= net.trees(k) <= 299 && forall j: nat :: j < k ==> net.trees(j) == 404
  {
    if k :| 0 <= k < |files| && ".github/workflows/" <= files[k].0 {
      assert UnderWorkflows(files[k].0);
    }
  }

  /** The commit holds the files given, each as given last, over the parent's or alone. */
  lemma {:induction false} CommittedIs(parent: Tree, files: seq<(Path, Content)>, omitBase: bool, p: Path)
    ensures var t := Committing(parent, Items(files), omitBase);
            && (NotIn(files, 0, p) ==> At(t, p) == if omitBase then None else At(parent, p))
            && (forall k :: 0 <= k < |files| && files[k].0 == p && NotIn(files, k + 1, p) ==> At(t, p) == Some(files[k].1))
  {
    if NotIn(files, 0, p) {
      NotInItems(files, p);
    }
    forall k | 0 <= k < |files| && files[k].0 == p && NotIn(files, k + 1, p)
      ensures p in Items(files) && Items(files)[p] == files[k].1
    {
      LastWins(files, k);
    }
  }

  /** None of the files from some place on has this path. */
  predicate NotIn(files: seq<(Path, Content)>, from: nat, p: Path) {
    forall j :: from <= j < |files| ==> files[j].0 != p
  }

  lemma {:induction false} NotInItems(files: seq<(Path, Content)>, p: Path)
    requires NotIn(files, 0, p)
    ensures p !in Items(files)
    decreases |files|
  {
    if files != [] {
      NotInItems(files[..|files| - 1], p);
    }
  }

  lemma {:induction false} LastWins(files: seq<(Path, Content)>, k: nat)
    requires k < |files| && NotIn(files, k + 1, files[k].0)
    ensures files[k].0 in Items(files) && Items(files)[files[k].0] == files[k].1
    decreases |files|
  {
    if k < |files| - 1 {
      LastWins(files[..|files| - 1], k);
      assert files[|files| - 1].0 != files[k].0;
    }
  }

  // ----- merging -----

  function At(t: Tree, p: Path): Option<Content> {
    if p in t then Some(t[p]) else None
  }

  /** One path of a three-way merge; `blend` is what a textual merge makes of a file that
      both sides edited, when it can. */
  function Pick(base: Option<Content>, ours: Option<Content>, theirs: Option<Content>, blend: Option<Content>): Option<Content> {
    if ours == base then theirs
    else if theirs == base || theirs == ours then ours
    else blend
  }

  predicate Clean(base: Option<Content>, ours: Option<Content>, theirs: Option<Content>, blend: Option<Content>) {
    ours == base || theirs == base || theirs == ours || (base.Some? && ours.Some? && theirs.Some? && blend.Some?)
  }

  predicate Mergeable(base: Tree, ours: Tree, theirs: Tree, blend: Tree) {
    forall p :: p in base.Keys + ours.Keys + theirs.Keys ==> Clean(At(base, p), At(ours, p), At(theirs, p), At(blend, p))
  }

  function Merge3(base: Tree, ours: Tree, theirs: Tree, blend: Tree): (r: Tree)
    ensures Mergeable(base, ours, theirs, blend) ==>
              forall p :: At(r, p) == if p in base.Keys + ours.Keys + theirs.Keys
                                      then Pick(At(base, p), At(ours, p), At(theirs, p), At(blend, p)) else None
  {
    map p | p in ours.Keys + theirs.Keys && Pick(At(base, p), At(ours, p), At(theirs, p), At(blend, p)).Some?
      :: Pick(At(base, p), At(ours, p), At(theirs, p), At(blend, p)).value
  }

  // ----- overlapping attempts -----

  datatype Pc = Looked | Prepared | BranchReady | Building | Committed | Dead

  /** One deploy attempt: the path of the workflow file of the provider that the settings
      name just then, the files it generates beside it, the workflow it would write, whether
      it found the repository, and whether its commit is whole, that is carries the workflow
      file and omits the base tree. */
  datatype Attempt = Attempt(path: Path, files: Tree, workflow: Content, existed: bool, pc: Pc, whole: bool, parent: Sha)

  /** The paths of the workflow files of all providers, the repository, and the attempts. */
  datatype World = World(workflows: set<Path>, repo: Option<Repo>, attempts: map<nat, Attempt>)

  datatype Event =
    | Start(a: nat, path: Path, files: Tree, workflow: Content)
    | Create(a: nat)
    | CheckFile(a: nat)
    | Cut(a: nat)
    | ReadRef(a: nat)
    | MoveRef(a: nat)
    | OpenPr(a: nat)
    | Die(a: nat)
    | Merge(a: nat, blend: Tree)
    | Close(a: nat)

  function Moved(w: World, a: nat, t: Attempt): World {
    w.(attempts := w.attempts[a := t])
  }

  /** The branch an attempt commits to. */
  function Target(a: nat, t: Attempt): Ref {
    if t.existed then Some(a) else None
  }

  function Started(w: World, a: nat, path: Path, files: Tree, workflow: Content): World {
    if a in w.attempts then w
    else Moved(w, a, Attempt(path, files, workflow, w.repo.Some?, Looked, false, 0))
  }

  function Created(w: World, a: nat, t: Attempt): World {
    if t.pc != Looked || t.existed then w
    else if w.repo.Some? then Moved(w, a, t.(pc := Dead))
    else Moved(w, a, t.(pc := Prepared, whole := true)).(repo := Some(Repo([AUTO_INIT], 0, map[])))
  }

  function FileChecked(w: World, a: nat, t: Attempt): World {
    if t.pc != Looked || !t.existed || w.repo.None? || w.repo.value.main >= |w.repo.value.commits| then w
    else Moved(w, a, t.(pc := Prepared, whole := t.path !in w.repo.value.commits[w.repo.value.main]))
  }

  function WasCut(w: World, a: nat, t: Attempt): World {
    if t.pc != Prepared || !t.existed || w.repo.None? || a in w.repo.value.branches then w
    else Moved(w, a, t.(pc := BranchReady)).(repo := Some(WithBranch(w.repo.value, a)))
  }

  predicate ReadyToRead(w: World, a: nat, t: Attempt) {
    && t.pc == (if t.existed then BranchReady else Prepared)
    && w.repo.Some? && HasRef(w.repo.value, Target(a, t))
  }

  function RefRead(w: World, a: nat, t: Attempt): World {
    if !ReadyToRead(w, a, t) then w
    else Moved(w, a, t.(pc := Building, parent := Tip(w.repo.value, Target(a, t))))
  }

  /** The tree an attempt commits, given the commit it starts from. */
  function TreeOf(t: Attempt, parent: Tree): Tree {
    Committing(parent, if t.whole then t.files[t.path := t.workflow] else t.files, t.whole)
  }

  /** A ref only moves forward: the push is refused when the ref has moved meanwhile. */
  function RefMoved(w: World, a: nat, t: Attempt): World {
    if t.pc != Building || w.repo.None? || !HasRef(w.repo.value, Target(a, t)) || t.parent >= |w.repo.value.commits| then w
    else if Tip(w.repo.value, Target(a, t)) != t.parent then Moved(w, a, t.(pc := Dead))
    else
      Moved(w, a, t.(pc := Committed)).(
        repo := Some(Pushed(w.repo.value, Target(a, t), TreeOf(t, w.repo.value.commits[t.parent]))))
  }

  function PrOpened(w: World, a: nat, t: Attempt): World {
    if t.pc != Committed || !t.existed || w.repo.None? || a !in w.repo.value.branches || w.repo.value.branches[a].pr != NoPr then w
    else w.(repo := Some(WithPr(w.repo.value, a, Open)))
  }

  predicate CanMerge(w: World, a: nat, blend: Tree) {
    && w.repo.Some? && a in w.repo.value.branches
    && var r, b := w.repo.value, w.repo.value.branches[a];
       && b.pr == Open && b.base < |r.commits| && b.tip < |r.commits| && r.main < |r.commits|
       && Mergeable(r.commits[b.base], r.commits[r.main], r.commits[b.tip], blend)
  }

  /** A squash merge of an open pull request. */
  function MergeDone(w: World, a: nat, blend: Tree): World {
    if !CanMerge(w, a, blend) then w
    else
      var r, b := w.repo.value, w.repo.value.branches[a];
      var pushed := Pushed(r, None, Merge3(r.commits[b.base], r.commits[r.main], r.commits[b.tip], blend));
      w.(repo := Some(WithPr(pushed, a, Landed)))
  }

  function CloseDone(w: World, a: nat): World {
    if w.repo.None? || a !in w.repo.value.branches || w.repo.value.branches[a].pr != Open then w
    else w.(repo := Some(WithPr(w.repo.value, a, Closed)))
  }

  function Next(w: World, e: Event): World {
    match e
    case Start(a, path, files, workflow) => Started(w, a, path, files, workflow)
    case Merge(a, blend) => MergeDone(w, a, blend)
    case Close(a) => CloseDone(w, a)
    case _ => if e.a !in w.attempts then w else Stepped(w, e, w.attempts[e.a])
  }

  function Stepped(w: World, e: Event, t: Attempt): World {
    match e
    case Create(a) => Created(w, a, t)
    case CheckFile(a) => FileChecked(w, a, t)
    case Cut(a) => WasCut(w, a, t)
    case ReadRef(a) => RefRead(w, a, t)
    case MoveRef(a) => RefMoved(w, a, t)
    case OpenPr(a) => PrOpened(w, a, t)
    case Die(a) => Moved(w, a, t.(pc := Dead))
    case _ => w
  }

  function After(w: World, es: seq<Event>): World
    decreases |es|
  {
    if es == [] then w else After(Next(w, es[0]), es[1..])
  }

  /** Generated files always hold a README and never a provider's workflow. */
  predicate Plain(workflows: set<Path>, files: Tree) {
    README in files && forall p :: p in workflows ==> p !in files
  }

  predicate Proper(workflows: set<Path>, e: Event) {
    e.Start? ==> e.path in workflows && Plain(workflows, e.files)
  }

  predicate AllProper(workflows: set<Path>, es: seq<Event>) {
    forall k :: 0 <= k < |es| ==> Proper(workflows, es[k])
  }

  // ----- what every run keeps -----

  predicate BranchOk(r: Repo, b: Branch) {
    && b.base < |r.commits| && b.tip < |r.commits|
    && (b.base != 0 ==> r.main != 0)
    && (b.tip != b.base ==> b.tip != 0)
    && (b.pr != NoPr ==> b.tip != b.base)
  }

  predicate RepoOk(r: Repo) {
    && |r.commits| > 0 && r.main < |r.commits| && r.commits[0] == AUTO_INIT
    && forall a :: a in r.branches ==> BranchOk(r, r.branches[a])
  }

  predicate Uncommitted(r: Repo, a: nat, t: Attempt) {
    && a in r.branches
    && r.branches[a].tip == r.branches[a].base && r.branches[a].pr == NoPr
    && (!t.whole ==> r.branches[a].base != 0)
  }

  predicate AttemptOk(workflows: set<Path>, r: Repo, a: nat, t: Attempt) {
    && t.path in workflows && Plain(workflows, t.files)
    && (t.pc.Looked? || t.pc.Prepared? ==> a !in r.branches)
    && (!t.existed && (t.pc.Prepared? || t.pc.Building?) ==> t.whole)
    && (t.existed && t.pc.Prepared? && !t.whole ==> r.main != 0)
    && (t.existed && t.pc.BranchReady? ==> Uncommitted(r, a, t))
    && (t.existed && t.pc.Building? ==> Uncommitted(r, a, t) && t.parent == r.branches[a].tip)
    && (t.pc.Committed? && t.existed && a in r.branches ==> r.branches[a].tip != r.branches[a].base)
    && (t.pc.Building? ==> t.parent < |r.commits|)
  }

  predicate Waiting(workflows: set<Path>, t: Attempt) {
    t.path in workflows && Plain(workflows, t.files) && (t.pc.Dead? || (t.pc.Looked? && !t.existed))
  }

  predicate Inv(w: World) {
    && README !in w.workflows
    && (w.repo.Some? ==>
          && RepoOk(w.repo.value)
          && (forall a :: a in w.repo.value.branches ==> a in w.attempts)
          && (forall a :: a in w.attempts ==> AttemptOk(w.workflows, w.repo.value, a, w.attempts[a])))
    && (w.repo.None? ==> forall a :: a in w.attempts ==> Waiting(w.workflows, w.attempts[a]))
  }

  lemma {:induction false} StartKeeps(w: World, a: nat, path: Path, files: Tree, workflow: Content)
    requires Inv(w) && path in w.workflows && Plain(w.workflows, files)
    ensures Inv(Started(w, a, path, files, workflow))
  {
  }

  lemma {:induction false} CreateKeeps(w: World, a: nat)
    requires Inv(w) && a in w.attempts
    ensures Inv(Created(w, a, w.attempts[a]))
  {
  }

  lemma {:induction false} CheckKeeps(w: World, a: nat)
    requires Inv(w) && a in w.attempts
    ensures Inv(FileChecked(w, a, w.attempts[a]))
  {
  }

  lemma {:induction false} CutKeeps(w: World, a: nat)
    requires Inv(w) && a in w.attempts
    ensures Inv(WasCut(w, a, w.attempts[a]))
  {
  }

  lemma {:induction false} ReadKeeps(w: World, a: nat)
    requires Inv(w) && a in w.attempts
    ensures Inv(RefRead(w, a, w.attempts[a]))
  {
  }

  /** Pushing a tree to the default branch or to a branch. */
  lemma {:induction false} PushKeeps(r: Repo, ref: Ref, tree: Tree)
    requires RepoOk(r) && HasRef(r, ref)
    ensures RepoOk(Pushed(r, ref, tree))
  {
  }

  /** A push leaves every attempt where it was, but for the one whose branch it is. */
  lemma {:induction false} PushSpares(workflows: set<Path>, r: Repo, ref: Ref, tree: Tree, c: nat, t: Attempt)
    requires |r.commits| > 0 && HasRef(r, ref) && ref != Some(c) && AttemptOk(workflows, r, c, t)
    ensures AttemptOk(workflows, Pushed(r, ref, tree), c, t)
  {
  }

  lemma {:induction false} MoveKeeps(w: World, a: nat)
    requires Inv(w) && a in w.attempts
    ensures Inv(RefMoved(w, a, w.attempts[a]))
  {
    var t := w.attempts[a];
    if t.pc.Building? && w.repo.Some? && HasRef(w.repo.value, Target(a, t)) {
      var tree := TreeOf(t, w.repo.value.commits[t.parent]);
      PushKeeps(w.repo.value, Target(a, t), tree);
      forall c | c in w.attempts && c != a
        ensures AttemptOk(w.workflows, Pushed(w.repo.value, Target(a, t), tree), c, w.attempts[c])
      {
        PushSpares(w.workflows, w.repo.value, Target(a, t), tree, c, w.attempts[c]);
      }
    }
  }

  lemma {:induction false} OpenKeeps(w: World, a: nat)
    requires Inv(w) && a in w.attempts
    ensures Inv(PrOpened(w, a, w.attempts[a]))
  {
  }

  /** Settling a pull request leaves every attempt where it was. */
  lemma {:induction false} MarkKeeps(w: World, a: nat, pr: Pr)
    requires Inv(w) && w.repo.Some? && a in w.repo.value.branches && w.repo.value.branches[a].pr == Open
    ensures Inv(w.(repo := Some(WithPr(w.repo.value, a, pr))))
  {
  }

  lemma {:induction false} MergeKeeps(w: World, a: nat, blend: Tree)
    requires Inv(w)
    ensures Inv(MergeDone(w, a, blend))
  {
    if CanMerge(w, a, blend) {
      var r, b := w.repo.value, w.repo.value.branches[a];
      var tree := Merge3(r.commits[b.base], r.commits[r.main], r.commits[b.tip], blend);
      PushKeeps(r, None, tree);
      forall c | c in w.attempts
        ensures AttemptOk(w.workflows, Pushed(r, None, tree), c, w.attempts[c])
      {
        PushSpares(w.workflows, r, None, tree, c, w.attempts[c]);
      }
      MarkKeeps(w.(repo := Some(Pushed(r, None, tree))), a, Landed);
    }
  }

  lemma {:induction false} CloseKeeps(w: World, a: nat)
    requires Inv(w)
    ensures Inv(CloseDone(w, a))
  {
    if w.repo.Some? && a in w.repo.value.branches && w.repo.value.branches[a].pr == Open {
      MarkKeeps(w, a, Closed);
    }
  }

  lemma {:induction false} NextKeepsInv(w: World, e: Event)
    requires Inv(w) && Proper(w.workflows, e)
    ensures Inv(Next(w, e))
  {
    match e
    case Start(a, path, files, workflow) => StartKeeps(w, a, path, files, workflow);
    case Merge(a, blend) => MergeKeeps(w, a, blend);
    case Close(a) => CloseKeeps(w, a);
    case _ =>
      if e.a in w.attempts {
        match e
        case Create(a) => CreateKeeps(w, a);
        case CheckFile(a) => CheckKeeps(w, a);
        case Cut(a) => CutKeeps(w, a);
        case ReadRef(a) => ReadKeeps(w, a);
        case MoveRef(a) => MoveKeeps(w, a);
        case OpenPr(a) => OpenKeeps(w, a);
        case _ =>
      }
  }

  function Main(w: World): Tree
    requires w.repo.Some? && w.repo.value.main < |w.repo.value.commits|
  {
    w.repo.value.commits[w.repo.value.main]
  }

  lemma {:induction false} NextMonotone(w: World, e: Event)
    requires Inv(w)
    ensures var w' := Next(w, e);
            && w'.workflows == w.workflows
            && (w.repo.Some? ==> w'.repo.Some? && (w.repo.value.main != 0 ==> w'.repo.value.main != 0))
  {
  }

  lemma {:induction false} RunKeepsInv(w: World, es: seq<Event>)
    requires Inv(w) && AllProper(w.workflows, es)
    ensures Inv(After(w, es)) && After(w, es).workflows == w.workflows
    ensures w.repo.Some? ==> After(w, es).repo.Some?
    ensures w.repo.Some? && w.repo.value.main != 0 ==> After(w, es).repo.value.main != 0
    decreases |es|
  {
    if es != [] {
      NextKeepsInv(w, es[0]);
      NextMonotone(w, es[0]);
      RunKeepsInv(Next(w, es[0]), es[1..]);
    }
  }

  function NoRepository(workflows: set<Path>): World {
    World(workflows, None, map[])
  }

  // ----- while the settings name one provider -----

  predicate Uses(path: Path, e: Event) {
    e.Start? ==> e.path == path
  }

  predicate AllUse(path: Path, es: seq<Event>) {
    forall k :: 0 <= k < |es| ==> Uses(path, es[k])
  }

  /** Exactly the auto-init commit lacks the workflow file. */
  predicate OnlyFirstLacks(path: Path, commits: seq<Tree>) {
    forall k :: 0 <= k < |commits| ==> (path in commits[k] <==> k != 0)
  }

  predicate OneProvider(w: World, path: Path) {
    && (forall a :: a in w.attempts ==> w.attempts[a].path == path)
    && (w.repo.Some? ==> OnlyFirstLacks(path, w.repo.value.commits))
  }

  /** What an attempt commits then always carries the workflow. */
  lemma {:induction false} CommitCarries(w: World, path: Path, a: nat)
    requires Inv(w) && OneProvider(w, path) && a in w.attempts && w.repo.Some? && w.attempts[a].pc.Building?
    ensures path in TreeOf(w.attempts[a], w.repo.value.commits[w.attempts[a].parent])
  {
    assert AttemptOk(w.workflows, w.repo.value, a, w.attempts[a]);
  }

  lemma {:induction false} PushLacks(path: Path, commits: seq<Tree>, tree: Tree)
    requires OnlyFirstLacks(path, commits) && path in tree && commits != []
    ensures OnlyFirstLacks(path, commits + [tree])
  {
  }

  lemma {:induction false} MoveUses(w: World, path: Path, a: nat)
    requires Inv(w) && OneProvider(w, path) && a in w.attempts
    ensures OneProvider(RefMoved(w, a, w.attempts[a]), path)
  {
    var t := w.attempts[a];
    if t.pc.Building? && w.repo.Some? && HasRef(w.repo.value, Target(a, t)) {
      CommitCarries(w, path, a);
      PushLacks(path, w.repo.value.commits, TreeOf(t, w.repo.value.commits[t.parent]));
    }
  }

  lemma {:induction false} MergeUses(w: World, path: Path, a: nat, blend: Tree)
    requires Inv(w) && OneProvider(w, path)
    ensures OneProvider(MergeDone(w, a, blend), path)
  {
    if CanMerge(w, a, blend) {
      var r, b := w.repo.value, w.repo.value.branches[a];
      assert BranchOk(r, b);
      MergeHas(r.commits[b.base], r.commits[r.main], r.commits[b.tip], blend, path);
      PushLacks(path, r.commits, Merge3(r.commits[b.base], r.commits[r.main], r.commits[b.tip], blend));
    }
  }

  /** A clean merge keeps a file that a side added or that neither removed. */
  lemma {:induction false} MergeHas(base: Tree, ours: Tree, theirs: Tree, blend: Tree, p: Path)
    requires Mergeable(base, ours, theirs, blend)
    requires if p in base then p in ours && p in theirs else p in ours || p in theirs
    ensures p in Merge3(base, ours, theirs, blend)
  {
    var r := Merge3(base, ours, theirs, blend);
    assert At(r, p) == Pick(At(base, p), At(ours, p), At(theirs, p), At(blend, p));
  }

  lemma {:induction false} NextUses(w: World, path: Path, e: Event)
    requires Inv(w) && OneProvider(w, path) && path in w.workflows && Uses(path, e)
    ensures OneProvider(Next(w, e), path)
  {
    if e.Merge? {
      MergeUses(w, path, e.a, e.blend);
    } else if e.MoveRef? && e.a in w.attempts {
      MoveUses(w, path, e.a);
    }
  }

  lemma {:induction false} RunUses(w: World, path: Path, es: seq<Event>)
    requires Inv(w) && OneProvider(w, path) && path in w.workflows && AllProper(w.workflows, es) && AllUse(path, es)
    ensures OneProvider(After(w, es), path)
    decreases |es|
  {
    if es != [] {
      NextUses(w, path, es[0]);
      NextKeepsInv(w, es[0]);
      NextMonotone(w, es[0]);
      RunUses(Next(w, es[0]), path, es[1..]);
    }
  }

  /** While the settings name one provider, over any number of overlapping attempts, each
      failing anywhere, with merges and closes at any time: every commit but the auto-init
      one carries its workflow file; so the default branch lacks it exactly while nothing
      but that commit is on it, which is what lets a commit omit its base tree; and once
      there it is never dropped. */
  lemma {:induction false} WorkflowIsEverywhere(workflows: set<Path>, path: Path, es: seq<Event>, later: seq<Event>)
    requires README !in workflows && path in workflows
    requires AllProper(workflows, es) && AllProper(workflows, later) && AllUse(path, es) && AllUse(path, later)
    ensures var w := After(NoRepository(workflows), es);
            w.repo.Some? ==>
              && w.repo.value.main < |w.repo.value.commits|
              && OnlyFirstLacks(path, w.repo.value.commits)
              && (path !in Main(w) <==> Main(w) == AUTO_INIT)
              && var w' := After(w, later);
                 && w'.repo.Some? && w'.repo.value.main < |w'.repo.value.commits|
                 && (path in Main(w) ==> path in Main(w'))
  {
    var w0 := NoRepository(workflows);
    RunKeepsInv(w0, es);
    RunUses(w0, path, es);
    RunKeepsInv(After(w0, es), later);
    RunUses(After(w0, es), path, later);
  }

  // ----- the content of the workflow files -----

  /** Every workflow an attempt or a commit carries is the one text for its path. */
  predicate AllCarry(w: World, texts: Path -> Content) {
    && (forall a :: a in w.attempts ==> w.attempts[a].workflow == texts(w.attempts[a].path))
    && (w.repo.Some? ==> forall k :: 0 <= k < |w.repo.value.commits| ==> Carries(w.workflows, w.repo.value.commits[k], texts))
  }

  predicate Carries(workflows: set<Path>, t: Tree, texts: Path -> Content) {
    forall p :: p in workflows && p in t ==> t[p] == texts(p)
  }

  predicate Writes(e: Event, texts: Path -> Content) {
    e.Start? ==> e.workflow == texts(e.path)
  }

  lemma {:induction false} NextCarries(w: World, e: Event, texts: Path -> Content)
    requires Inv(w) && Proper(w.workflows, e) && AllCarry(w, texts) && Writes(e, texts)
    ensures AllCarry(Next(w, e), texts)
  {
    if e.MoveRef? && e.a in w.attempts {
      MoveCarries(w, e.a, texts);
    } else if e.Merge? {
      MergeCarries(w, e.a, e.blend, texts);
    }
  }

  lemma {:induction false} MoveCarries(w: World, a: nat, texts: Path -> Content)
    requires Inv(w) && AllCarry(w, texts) && a in w.attempts
    ensures AllCarry(RefMoved(w, a, w.attempts[a]), texts)
  {
    var t := w.attempts[a];
    if t.pc.Building? && w.repo.Some? && HasRef(w.repo.value, Target(a, t)) {
      assert AttemptOk(w.workflows, w.repo.value, a, t);
      assert Carries(w.workflows, w.repo.value.commits[t.parent], texts);
      assert Carries(w.workflows, TreeOf(t, w.repo.value.commits[t.parent]), texts);
    }
  }

  lemma {:induction false} MergeCarries(w: World, a: nat, blend: Tree, texts: Path -> Content)
    requires Inv(w) && AllCarry(w, texts)
    ensures AllCarry(MergeDone(w, a, blend), texts)
  {
    if CanMerge(w, a, blend) {
      var r, b := w.repo.value, w.repo.value.branches[a];
      MergeOfCarriers(w.workflows, r.commits[b.base], r.commits[r.main], r.commits[b.tip], blend, texts);
    }
  }

  lemma {:induction false} MergeOfCarriers(workflows: set<Path>, base: Tree, ours: Tree, theirs: Tree, blend: Tree, texts: Path -> Content)
    requires Mergeable(base, ours, theirs, blend)
    requires Carries(workflows, base, texts) && Carries(workflows, ours, texts) && Carries(workflows, theirs, texts)
    ensures Carries(workflows, Merge3(base, ours, theirs, blend), texts)
  {
    var r := Merge3(base, ours, theirs, blend);
    forall p | p in workflows && p in r
      ensures r[p] == texts(p)
    {
      assert At(r, p) == Pick(At(base, p), At(ours, p), At(theirs, p), At(blend, p));
    }
  }

  /** While the settings give every attempt of a provider the same workflow text, that text is
      all the default branch ever holds at its path, however attempts overlap and however
      often the provider changes. */
  lemma {:induction false} FixedWorkflowStays(w: World, es: seq<Event>, texts: Path -> Content)
    requires Inv(w) && AllProper(w.workflows, es) && AllCarry(w, texts)
    requires forall k :: 0 <= k < |es| ==> Writes(es[k], texts)
    ensures AllCarry(After(w, es), texts)
    decreases |es|
  {
    if es != [] {
      NextCarries(w, es[0], texts);
      NextKeepsInv(w, es[0]);
      NextMonotone(w, es[0]);
      FixedWorkflowStays(Next(w, es[0]), es[1..], texts);
    }
  }

  /** An attempt that found no workflow of its provider, and so will omit the base tree, starts
      its commit from a default branch that has content of its own: a request was merged
      after its check, or the provider has changed. */
  predicate Raced(w: World, e: Event) {
    && (e.Cut? || e.ReadRef?) && e.a in w.attempts && w.attempts[e.a].whole
    && w.repo.Some? && w.repo.value.main != 0
    && (if e.Cut? then w.attempts[e.a].existed else !w.attempts[e.a].existed)
  }

  predicate Unraced(w: World, es: seq<Event>)
    decreases |es|
  {
    es == [] || (!Raced(w, es[0]) && Unraced(Next(w, es[0]), es[1..]))
  }

  /** No file is lost, and every workflow file is as it was. */
  predicate Kept(workflows: set<Path>, before: Tree, after: Tree) {
    forall p :: p in before ==> p in after && (p in workflows ==> after[p] == before[p])
  }

  predicate BranchesAdd(workflows: set<Path>, r: Repo) {
    forall a :: a in r.branches ==>
      var b := r.branches[a];
      b.base < |r.commits| && b.tip < |r.commits| && Kept(workflows, r.commits[b.base], r.commits[b.tip])
  }

  /** A commit without a base tree is only ever prepared on top of the auto-init commit. */
  predicate StartsEmpty(r: Repo, a: nat, t: Attempt) {
    && (t.whole && t.existed && (t.pc.BranchReady? || t.pc.Building?) ==> a in r.branches && r.branches[a].base == 0)
    && (!t.existed && t.pc.Building? ==> t.parent == 0)
  }

  predicate Additive(w: World) {
    w.repo.Some? ==>
      && BranchesAdd(w.workflows, w.repo.value)
      && forall a :: a in w.attempts ==> StartsEmpty(w.repo.value, a, w.attempts[a])
  }

  /** Merging a branch that kept everything of its base keeps everything of ours. */
  lemma {:induction false} MergeKept(workflows: set<Path>, base: Tree, ours: Tree, theirs: Tree, blend: Tree)
    requires Mergeable(base, ours, theirs, blend) && Kept(workflows, base, theirs)
    ensures Kept(workflows, ours, Merge3(base, ours, theirs, blend))
  {
    var r := Merge3(base, ours, theirs, blend);
    forall p | p in ours
      ensures p in r && (p in workflows ==> r[p] == ours[p])
    {
      assert At(r, p) == Pick(At(base, p), At(ours, p), At(theirs, p), At(blend, p));
    }
  }

  lemma {:induction false} CutAdds(w: World, a: nat)
    requires Inv(w) && Additive(w) && a in w.attempts && !Raced(w, Cut(a))
    ensures Additive(WasCut(w, a, w.attempts[a]))
  {
  }

  /** What an attempt commits keeps everything of the commit it starts from. */
  lemma {:induction false} CommitKept(w: World, a: nat)
    requires Inv(w) && Additive(w) && a in w.attempts && w.repo.Some? && w.attempts[a].pc.Building?
    ensures var parent := w.repo.value.commits[w.attempts[a].parent];
            Kept(w.workflows, parent, TreeOf(w.attempts[a], parent))
  {
  }

  /** Pushing a tree that keeps the base of the branch it is pushed to. */
  lemma {:induction false} PushAdds(workflows: set<Path>, r: Repo, ref: Ref, tree: Tree)
    requires BranchesAdd(workflows, r) && HasRef(r, ref)
    requires ref.Some? ==> Kept(workflows, r.commits[r.branches[ref.value].base], tree)
    ensures BranchesAdd(workflows, Pushed(r, ref, tree))
  {
  }

  lemma {:induction false} MoveAdds(w: World, a: nat)
    requires Inv(w) && Additive(w) && a in w.attempts
    ensures Additive(RefMoved(w, a, w.attempts[a]))
  {
    var t := w.attempts[a];
    if t.pc.Building? && w.repo.Some? && HasRef(w.repo.value, Target(a, t)) {
      CommitKept(w, a);
      PushAdds(w.workflows, w.repo.value, Target(a, t), TreeOf(t, w.repo.value.commits[t.parent]));
    }
  }

  lemma {:induction false} MoveKeepsMain(w: World, a: nat)
    requires Inv(w) && Additive(w) && a in w.attempts && w.repo.Some?
    ensures var w' := RefMoved(w, a, w.attempts[a]);
            w'.repo.Some? && w'.repo.value.main < |w'.repo.value.commits| && Kept(w.workflows, Main(w), Main(w'))
  {
    if w.attempts[a].pc.Building? {
      CommitKept(w, a);
    }
  }

  /** Marking a pull request changes no tree. */
  lemma {:induction false} MarkAdds(w: World, a: nat, pr: Pr)
    requires Additive(w) && w.repo.Some? && a in w.repo.value.branches
    ensures Additive(w.(repo := Some(WithPr(w.repo.value, a, pr))))
  {
  }

  lemma {:induction false} MergeAdds(w: World, a: nat, blend: Tree)
    requires Inv(w) && Additive(w)
    ensures Additive(MergeDone(w, a, blend))
  {
    if CanMerge(w, a, blend) {
      var r, b := w.repo.value, w.repo.value.branches[a];
      var pushed := Pushed(r, None, Merge3(r.commits[b.base], r.commits[r.main], r.commits[b.tip], blend));
      PushAdds(w.workflows, r, None, Merge3(r.commits[b.base], r.commits[r.main], r.commits[b.tip], blend));
      assert Additive(w.(repo := Some(pushed)));
      MarkAdds(w.(repo := Some(pushed)), a, Landed);
    }
  }

  lemma {:induction false} MergeKeepsMain(w: World, a: nat, blend: Tree)
    requires Inv(w) && Additive(w) && w.repo.Some?
    ensures var w' := MergeDone(w, a, blend);
            w'.repo.Some? && w'.repo.value.main < |w'.repo.value.commits| && Kept(w.workflows, Main(w), Main(w'))
  {
    if CanMerge(w, a, blend) {
      var r, b := w.repo.value, w.repo.value.branches[a];
      MergeKept(w.workflows, r.commits[b.base], r.commits[r.main], r.commits[b.tip], blend);
    }
  }

  predicate Quiet(e: Event) {
    !e.Cut? && !e.MoveRef? && !e.Merge?
  }

  lemma {:induction false} RefReadAdds(w: World, a: nat)
    requires Inv(w) && Additive(w) && a in w.attempts && !Raced(w, ReadRef(a))
    ensures Additive(RefRead(w, a, w.attempts[a]))
  {
  }

  /** Steps that change neither a branch nor a commit of a repository that is there. */
  lemma {:induction false} StepAdds(w: World, e: Event)
    requires Inv(w) && Additive(w) && (e.Start? || e.Create? || e.CheckFile? || e.Die?)
    ensures Additive(Next(w, e))
  {
  }

  lemma {:induction false} QuietAdds(w: World, e: Event)
    requires Inv(w) && Additive(w) && !Raced(w, e) && Quiet(e)
    ensures Additive(Next(w, e))
  {
    if e.ReadRef? && e.a in w.attempts {
      RefReadAdds(w, e.a);
    } else if e.Close? && w.repo.Some? && e.a in w.repo.value.branches {
      MarkAdds(w, e.a, Closed);
    } else if e.OpenPr? && w.repo.Some? && e.a in w.repo.value.branches {
      MarkAdds(w, e.a, Open);
    } else if e.Start? || e.Create? || e.CheckFile? || e.Die? {
      StepAdds(w, e);
    }
  }

  lemma {:induction false} QuietKeepsMain(w: World, e: Event)
    requires Inv(w) && !e.MoveRef? && !e.Merge? && w.repo.Some?
    ensures var w' := Next(w, e);
            w'.repo.Some? && w'.repo.value.main < |w'.repo.value.commits| && Main(w') == Main(w)
  {
  }

  lemma {:induction false} NextAdds(w: World, e: Event)
    requires Inv(w) && Proper(w.workflows, e) && Additive(w) && !Raced(w, e)
    ensures Additive(Next(w, e))
  {
    if e.Merge? {
      MergeAdds(w, e.a, e.blend);
    } else if Quiet(e) {
      QuietAdds(w, e);
    } else if e.a in w.attempts {
      if e.Cut? {
        CutAdds(w, e.a);
      } else {
        MoveAdds(w, e.a);
      }
    }
  }

  lemma {:induction false} NextKeepsMain(w: World, e: Event)
    requires Inv(w) && Additive(w) && w.repo.Some?
    ensures var w' := Next(w, e);
            w'.repo.Some? && w'.repo.value.main < |w'.repo.value.commits| && Kept(w.workflows, Main(w), Main(w'))
  {
    if e.Merge? {
      MergeKeepsMain(w, e.a, e.blend);
    } else if !e.MoveRef? {
      QuietKeepsMain(w, e);
    } else if e.a in w.attempts {
      MoveKeepsMain(w, e.a);
    }
  }

  predicate HasWorkflow(workflows: set<Path>, t: Tree) {
    exists p :: p in workflows && p in t
  }

  /** Every commit but the auto-init one carries some provider's workflow. */
  predicate Stocked(w: World) {
    w.repo.Some? ==> forall k :: 0 < k < |w.repo.value.commits| ==> HasWorkflow(w.workflows, w.repo.value.commits[k])
  }

  lemma {:induction false} KeepsWorkflow(workflows: set<Path>, before: Tree, after: Tree)
    requires Kept(workflows, before, after) && HasWorkflow(workflows, before)
    ensures HasWorkflow(workflows, after)
  {
    var p :| p in workflows && p in before;
    assert p in after;
  }

  lemma {:induction false} MoveStocks(w: World, a: nat)
    requires Inv(w) && Additive(w) && Stocked(w) && a in w.attempts
    ensures Stocked(RefMoved(w, a, w.attempts[a]))
  {
    var t := w.attempts[a];
    if t.pc.Building? && w.repo.Some? && HasRef(w.repo.value, Target(a, t)) {
      var parent := w.repo.value.commits[t.parent];
      CommitKept(w, a);
      assert AttemptOk(w.workflows, w.repo.value, a, t);
      if t.parent != 0 {
        KeepsWorkflow(w.workflows, parent, TreeOf(t, parent));
      } else {
        assert t.path in TreeOf(t, parent);
      }
    }
  }

  lemma {:induction false} WhatIsMerged(w: World, a: nat, blend: Tree)
    requires Inv(w) && Additive(w) && Stocked(w) && CanMerge(w, a, blend)
    ensures var r, b := w.repo.value, w.repo.value.branches[a];
            && Kept(w.workflows, r.commits[b.base], r.commits[b.tip])
            && (HasWorkflow(w.workflows, r.commits[r.main])
                || (r.commits[b.base] == AUTO_INIT && HasWorkflow(w.workflows, r.commits[b.tip])))
  {
    var r, b := w.repo.value, w.repo.value.branches[a];
    assert BranchOk(r, b);
  }

  lemma {:induction false} MergeStocks(w: World, a: nat, blend: Tree)
    requires Inv(w) && Additive(w) && Stocked(w)
    ensures Stocked(MergeDone(w, a, blend))
  {
    if CanMerge(w, a, blend) {
      var r, b := w.repo.value, w.repo.value.branches[a];
      var base, ours, theirs := r.commits[b.base], r.commits[r.main], r.commits[b.tip];
      WhatIsMerged(w, a, blend);
      MergedHasWorkflow(w.workflows, base, ours, theirs, blend);
    }
  }

  lemma {:induction false} MergedHasWorkflow(workflows: set<Path>, base: Tree, ours: Tree, theirs: Tree, blend: Tree)
    requires README !in workflows && Mergeable(base, ours, theirs, blend) && Kept(workflows, base, theirs)
    requires HasWorkflow(workflows, ours) || (base == AUTO_INIT && HasWorkflow(workflows, theirs))
    ensures HasWorkflow(workflows, Merge3(base, ours, theirs, blend))
  {
    if HasWorkflow(workflows, ours) {
      MergeKept(workflows, base, ours, theirs, blend);
      KeepsWorkflow(workflows, ours, Merge3(base, ours, theirs, blend));
    } else {
      var p :| p in workflows && p in theirs;
      MergeHas(base, ours, theirs, blend, p);
    }
  }

  lemma {:induction false} NextStocks(w: World, e: Event)
    requires Inv(w) && Additive(w) && Stocked(w)
    ensures Stocked(Next(w, e))
  {
    if e.Merge? {
      MergeStocks(w, e.a, e.blend);
    } else if e.MoveRef? && e.a in w.attempts {
      MoveStocks(w, e.a);
    }
  }

  /** What every run without a race keeps. */
  predicate Growing(w: World) {
    Inv(w) && Additive(w) && Stocked(w)
  }

  /** In every run without a race, whatever fails and whoever overlaps, the default branch
      loses no file and no workflow file on it ever changes. */
  lemma {:induction false} UnracedRunsOnlyAdd(w: World, es: seq<Event>)
    requires Growing(w) && AllProper(w.workflows, es) && Unraced(w, es)
    ensures Growing(After(w, es)) && After(w, es).workflows == w.workflows
    ensures w.repo.Some? ==> After(w, es).repo.Some? && Kept(w.workflows, Main(w), Main(After(w, es)))
    decreases |es|
  {
    if es != [] {
      NextKeepsInv(w, es[0]);
      NextAdds(w, es[0]);
      NextStocks(w, es[0]);
      if w.repo.Some? {
        NextKeepsMain(w, es[0]);
      }
      NextMonotone(w, es[0]);
      UnracedRunsOnlyAdd(Next(w, es[0]), es[1..]);
    }
  }

  // ----- what a race costs -----

  /** The rest of an attempt that cuts its branch now, with its pull request merged at once. */
  function Landing(a: nat): seq<Event> {
    [Cut(a), ReadRef(a), MoveRef(a), OpenPr(a), Merge(a, map[])]
  }

  predicate AboutToCut(w: World, a: nat) {
    w.repo.Some? && a in w.attempts && w.attempts[a].existed && w.attempts[a].pc.Prepared?
  }

  lemma {:induction false} AfterConcat(w: World, a: seq<Event>, b: seq<Event>)
    ensures After(w, a + b) == After(After(w, a), b)
    decreases |a|
  {
    if a == [] {
      assert a + b == b;
    } else {
      assert (a + b)[1..] == a[1..] + b;
      AfterConcat(Next(w, a[0]), a[1..], b);
    }
  }

  lemma {:induction false} AfterTwo(w: World, a: Event, b: Event)
    ensures After(w, [a, b]) == Next(Next(w, a), b)
  {
    assert [a, b][1..] == [b];
    assert After(Next(w, a), [b]) == Next(Next(w, a), b);
  }

  lemma {:induction false} AfterFour(w: World, a: Event, b: Event, c: Event, d: Event)
    ensures After(w, [a, b, c, d]) == Next(Next(Next(Next(w, a), b), c), d)
  {
    assert [a, b, c, d] == [a, b] + [c, d];
    AfterConcat(w, [a, b], [c, d]);
    AfterTwo(w, a, b);
    AfterTwo(After(w, [a, b]), c, d);
  }

  /** The repository after so many of a later attempt's events. */
  function Proposal(r: Repo, a: nat, tree: Tree, reached: nat): Repo {
    if reached <= 2 then r
    else if reached <= 4 then WithBranch(r, a)
    else
      var pushed := Pushed(WithBranch(r, a), Some(a), tree);
      if reached == 5 then pushed else WithPr(pushed, a, Open)
  }

  lemma {:induction false} CommitsAndOpens(w: World, r: Repo, a: nat)
    requires r.main < |r.commits| && w.repo == Some(WithBranch(r, a)) && a in w.attempts
    requires w.attempts[a].existed && w.attempts[a].pc.BranchReady?
    ensures var tree := TreeOf(w.attempts[a], r.commits[r.main]);
            && After(w, [ReadRef(a), MoveRef(a)]).repo == Some(Proposal(r, a, tree, 5))
            && Next(After(w, [ReadRef(a), MoveRef(a)]), OpenPr(a)).repo == Some(Proposal(r, a, tree, 6))
  {
    AfterTwo(w, ReadRef(a), MoveRef(a));
  }

  lemma {:induction false} ProposesOneCommit(w: World, a: nat)
    requires Inv(w) && AboutToCut(w, a)
    ensures After(w, Landing(a)[..4]).repo == Some(Proposal(w.repo.value, a, TreeOf(w.attempts[a], Main(w)), 6))
  {
    assert Landing(a)[..4] == [Cut(a), ReadRef(a), MoveRef(a), OpenPr(a)];
    AfterFour(w, Cut(a), ReadRef(a), MoveRef(a), OpenPr(a));
    var w1 := Next(w, Cut(a));
    CommitsAndOpens(w1, w.repo.value, a);
    AfterTwo(w1, ReadRef(a), MoveRef(a));
  }

  lemma {:induction false} MergesForward(base: Tree, theirs: Tree)
    ensures Mergeable(base, base, theirs, map[]) && Merge3(base, base, theirs, map[]) == theirs
  {
    var r := Merge3(base, base, theirs, map[]);
    assert Mergeable(base, base, theirs, map[]);
    assert forall p :: p in theirs ==> At(r, p) == At(theirs, p);
    assert forall p :: p in r ==> At(r, p) == At(theirs, p);
  }

  lemma {:induction false} ProposalLands(w: World, r: Repo, a: nat, tree: Tree)
    requires r.main < |r.commits| && w.repo == Some(Proposal(r, a, tree, 6))
    ensures var w' := MergeDone(w, a, map[]);
            w'.repo.Some? && w'.repo.value.main < |w'.repo.value.commits| && Main(w') == tree
  {
    MergesForward(r.commits[r.main], tree);
  }

  /** A branch cut from the tip it is merged into lands exactly as committed: the whole
      generated tree if the attempt found no workflow, else its files over the tip's. */
  lemma {:induction false} LandsAsCommitted(w: World, a: nat)
    requires Inv(w) && AboutToCut(w, a)
    ensures var w' := After(w, Landing(a));
            && w'.repo.Some? && w'.repo.value.main < |w'.repo.value.commits|
            && Main(w') == TreeOf(w.attempts[a], Main(w))
  {
    ProposesOneCommit(w, a);
    LandingEnds(w, a);
    ProposalLands(After(w, Landing(a)[..4]), w.repo.value, a, TreeOf(w.attempts[a], Main(w)));
  }

  lemma {:induction false} LandingEnds(w: World, a: nat)
    ensures After(w, Landing(a)) == MergeDone(After(w, Landing(a)[..4]), a, map[])
  {
    var w4 := After(w, Landing(a)[..4]);
    assert Landing(a) == Landing(a)[..4] + [Merge(a, map[])];
    AfterConcat(w, Landing(a)[..4], [Merge(a, map[])]);
    assert After(w4, [Merge(a, map[])]) == Next(w4, Merge(a, map[]));
  }

  /** Exactly when landing keeps the default branch: a workflow file survives as it was if
      and only if the cut does not race or the attempt writes it with the same text; every
      file survives if and only if the cut does not race or the attempt generates every one
      of them. */
  lemma {:induction false} LandingKeepsIff(w: World, a: nat)
    requires Inv(w) && AboutToCut(w, a)
    ensures var before, t := Main(w), w.attempts[a];
            var w' := After(w, Landing(a));
            && w'.repo.Some? && w'.repo.value.main < |w'.repo.value.commits|
            && (forall p :: p in w.workflows && p in before ==>
                 (At(Main(w'), p) == At(before, p) <==> !Raced(w, Cut(a)) || (p == t.path && t.workflow == before[p])))
            && ((forall p :: p in before ==> p in Main(w')) <==>
                  !Raced(w, Cut(a)) || forall p :: p in before ==> p == t.path || p in t.files)
  {
    assert AttemptOk(w.workflows, w.repo.value, a, w.attempts[a]);
    LandsAsCommitted(w, a);
  }

  function Opening(path: Path, files: Tree, first: Content): seq<Event> {
    [Start(0, path, files, first), Create(0), Die(0), Start(1, path, files, first), CheckFile(1)]
  }

  /** The first attempt dies after creating the repository; the second opens a pull
      request; the third checks for the workflow just before that request is merged. */
  function LateMerge(path: Path, files: Tree, first: Content, second: Content): seq<Event> {
    Opening(path, files, first) + Landing(1)[..4] + [Start(2, path, files, second), CheckFile(2), Merge(1, map[])]
  }

  lemma {:induction false} SetUp(workflows: set<Path>, path: Path, files: Tree, first: Content)
    requires README !in workflows && path in workflows && Plain(workflows, files)
    ensures var w := After(NoRepository(workflows), Opening(path, files, first));
            && w.workflows == workflows && AboutToCut(w, 1) && w.attempts.Keys == {0, 1} && w.attempts[1].whole
            && w.attempts[1].path == path && w.attempts[1].files == files && w.attempts[1].workflow == first
            && w.repo == Some(Repo([AUTO_INIT], 0, map[]))
  {
    var es := [Start(0, path, files, first), Create(0), Die(0), Start(1, path, files, first), CheckFile(1)];
    var w0 := NoRepository(workflows);
    AfterFour(w0, es[0], es[1], es[2], es[3]);
    assert es == [es[0], es[1], es[2], es[3]] + [es[4]];
    AfterConcat(w0, [es[0], es[1], es[2], es[3]], [es[4]]);
    var w4 := After(w0, [es[0], es[1], es[2], es[3]]);
    assert After(w4, [es[4]]) == Next(w4, es[4]);
  }

  /** Only a start adds an attempt. */
  lemma {:induction false} KeysStay(w: World, es: seq<Event>)
    requires forall k :: 0 <= k < |es| ==> !es[k].Start?
    ensures After(w, es).attempts.Keys == w.attempts.Keys && After(w, es).workflows == w.workflows
    decreases |es|
  {
    if es != [] {
      assert Next(w, es[0]).attempts.Keys == w.attempts.Keys && Next(w, es[0]).workflows == w.workflows;
      KeysStay(Next(w, es[0]), es[1..]);
    }
  }

  lemma {:induction false} ChecksThenMerged(w: World, tree: Tree, path: Path, files: Tree, second: Content)
    requires 2 !in w.attempts && path !in AUTO_INIT
    requires w.repo == Some(Proposal(Repo([AUTO_INIT], 0, map[]), 1, tree, 6))
    ensures var w' := Next(Next(Next(w, Start(2, path, files, second)), CheckFile(2)), Merge(1, map[]));
            && AboutToCut(w', 2) && w'.repo.value.main != 0 && w'.repo.value.main < |w'.repo.value.commits|
            && Main(w') == tree && w'.attempts[2].whole && w'.attempts[2].path == path && w'.attempts[2].workflow == second
  {
    var w2 := Next(Next(w, Start(2, path, files, second)), CheckFile(2));
    assert w2.repo == w.repo && w2.attempts[2] == Attempt(path, files, second, true, Prepared, true, 0);
    ProposalLands(w2, Repo([AUTO_INIT], 0, map[]), 1, tree);
  }

  lemma {:induction false} OpeningKeepsInv(workflows: set<Path>, path: Path, files: Tree, first: Content)
    requires README !in workflows && path in workflows && Plain(workflows, files)
    ensures Inv(After(NoRepository(workflows), Opening(path, files, first)))
  {
    assert AllProper(workflows, Opening(path, files, first));
    RunKeepsInv(NoRepository(workflows), Opening(path, files, first));
  }

  lemma {:induction false} OpensSecond(w: World, path: Path, files: Tree, first: Content)
    requires Inv(w) && AboutToCut(w, 1) && w.attempts.Keys == {0, 1} && w.attempts[1].whole
    requires w.attempts[1].path == path && w.attempts[1].files == files && w.attempts[1].workflow == first && w.repo == Some(Repo([AUTO_INIT], 0, map[]))
    ensures var w' := After(w, Landing(1)[..4]);
            && w'.workflows == w.workflows && 2 !in w'.attempts
            && w'.repo == Some(Proposal(Repo([AUTO_INIT], 0, map[]), 1, files[path := first], 6))
  {
    ProposesOneCommit(w, 1);
    KeysStay(w, Landing(1)[..4]);
  }

  /** The default branch a third attempt checks, while the second's request is open. */
  lemma {:induction false} SecondIsOpen(workflows: set<Path>, path: Path, files: Tree, first: Content)
    requires README !in workflows && path in workflows && Plain(workflows, files)
    ensures var w := After(After(NoRepository(workflows), Opening(path, files, first)), Landing(1)[..4]);
            && w.workflows == workflows && 2 !in w.attempts
            && w.repo == Some(Proposal(Repo([AUTO_INIT], 0, map[]), 1, files[path := first], 6))
  {
    OpeningKeepsInv(workflows, path, files, first);
    SetUp(workflows, path, files, first);
    OpensSecond(After(NoRepository(workflows), Opening(path, files, first)), path, files, first);
  }

  lemma {:induction false} LateMergeReaches(workflows: set<Path>, path: Path, files: Tree, first: Content, second: Content)
    requires README !in workflows && path in workflows && Plain(workflows, files)
    ensures var w := After(NoRepository(workflows), LateMerge(path, files, first, second));
            && w.workflows == workflows && AboutToCut(w, 2) && w.repo.value.main != 0 && w.repo.value.main < |w.repo.value.commits|
            && Main(w) == files[path := first] && w.attempts[2].whole
            && w.attempts[2].path == path && w.attempts[2].workflow == second
  {
    var head := Opening(path, files, first);
    var a, b, c := Start(2, path, files, second), CheckFile(2), Merge(1, map[]);
    var w0 := NoRepository(workflows);
    SecondIsOpen(workflows, path, files, first);
    var w2 := After(After(w0, head), Landing(1)[..4]);
    ChecksThenMerged(w2, files[path := first], path, files, second);
    assert [a, b, c] == [a, b] + [c];
    AfterConcat(w2, [a, b], [c]);
    AfterTwo(w2, a, b);
    assert After(After(w2, [a, b]), [c]) == Next(After(w2, [a, b]), c);
    KeysStay(Next(w2, a), [b, c]);
    AfterTwo(Next(w2, a), b, c);
    AfterConcat(w0, head, Landing(1)[..4]);
    AfterConcat(w0, head + Landing(1)[..4], [a, b, c]);
  }

  lemma {:induction false} LateMergeKeepsInv(workflows: set<Path>, path: Path, files: Tree, first: Content, second: Content)
    requires README !in workflows && path in workflows && Plain(workflows, files)
    ensures Inv(After(NoRepository(workflows), LateMerge(path, files, first, second)))
  {
    assert AllProper(workflows, LateMerge(path, files, first, second));
    RunKeepsInv(NoRepository(workflows), LateMerge(path, files, first, second));
  }

  /** The race happens with one attempt at a time, when a pull request is merged between an
      attempt's check and its cut: for any two differing texts, landing replaces the
      workflow file the default branch held. */
  lemma {:induction false} ALateMergeRaces(workflows: set<Path>, path: Path, files: Tree, first: Content, second: Content)
    requires README !in workflows && path in workflows && Plain(workflows, files) && first != second
    ensures var w := After(NoRepository(workflows), LateMerge(path, files, first, second));
            && Inv(w) && AboutToCut(w, 2) && Raced(w, Cut(2))
            && w.workflows == workflows && At(Main(w), path) == Some(first)
            && var w' := After(w, Landing(2));
               w'.repo.Some? && w'.repo.value.main < |w'.repo.value.commits| && At(Main(w'), path) == Some(second)
  {
    LateMergeKeepsInv(workflows, path, files, first, second);
    LateMergeReaches(workflows, path, files, first, second);
    LandsAsCommitted(After(NoRepository(workflows), LateMerge(path, files, first, second)), 2);
  }

  // ----- one attempt at a time -----

  /** An attempt cut short after any of its calls, with pull requests settled meanwhile
      once its branch is cut; or a pull request settled between attempts. */
  datatype Job =
    | Deploy(a: nat, path: Path, files: Tree, workflow: Content, head: nat, later: seq<Event>, rest: nat)
    | Settle(e: Event)

  predicate Settles(e: Event) {
    e.Merge? || e.Close?
  }

  predicate GoodJob(w: World, j: Job) {
    match j
    case Settle(e) => Settles(e)
    case Deploy(a, path, files, _, head, later, rest) =>
      && a !in w.attempts && path in w.workflows && Plain(w.workflows, files)
      && 0 < head <= |Head(w, j)| && rest <= 3
      && forall k :: 0 <= k < |later| ==> Settles(later[k])
  }

  function Head(w: World, j: Job): seq<Event>
    requires j.Deploy?
  {
    if w.repo.Some? then [Start(j.a, j.path, j.files, j.workflow), CheckFile(j.a), Cut(j.a)]
    else [Start(j.a, j.path, j.files, j.workflow), Create(j.a), ReadRef(j.a), MoveRef(j.a)]
  }

  function Events(w: World, j: Job): seq<Event>
    requires GoodJob(w, j)
  {
    match j
    case Settle(e) => [e]
    case Deploy(a, _, _, _, head, later, rest) =>
      if w.repo.None? then Head(w, j)[..head]
      else Head(w, j)[..head] + (later + [ReadRef(a), MoveRef(a), OpenPr(a)][..rest])
  }

  lemma {:induction false} UnracedConcat(w: World, a: seq<Event>, b: seq<Event>)
    requires Unraced(w, a) && Unraced(After(w, a), b)
    ensures Unraced(w, a + b)
    decreases |a|
  {
    if a == [] {
      assert a + b == b;
    } else {
      assert (a + b)[1..] == a[1..] + b;
      UnracedConcat(Next(w, a[0]), a[1..], b);
    }
  }

  lemma {:induction false} UnracedPrefix(w: World, es: seq<Event>, n: nat)
    requires Unraced(w, es) && n <= |es|
    ensures Unraced(w, es[..n])
    decreases |es|
  {
    if n > 0 {
      assert es[..n][1..] == es[1..][..n - 1];
      UnracedPrefix(Next(w, es[0]), es[1..], n - 1);
    }
  }

  lemma {:induction false} UnracedTwo(w: World, a: Event, b: Event)
    requires !Raced(w, a) && !Raced(Next(w, a), b)
    ensures Unraced(w, [a, b])
  {
    assert [a, b][1..] == [b];
    assert Unraced(Next(w, a), [b]);
  }

  /** The attempt finds its provider's workflow, or the default branch has no content yet. */
  predicate Finds(w: World, path: Path) {
    w.repo.Some? && w.repo.value.main != 0 && w.repo.value.main < |w.repo.value.commits| ==> path in Main(w)
  }

  predicate Cuts(w: World, j: Job)
    requires j.Deploy?
  {
    w.repo.Some? && j.head == 3
  }

  lemma {:induction false} UnracedThree(w: World, a: Event, b: Event, c: Event)
    ensures Unraced(w, [a, b, c]) <==> !Raced(w, a) && !Raced(Next(w, a), b) && !Raced(Next(Next(w, a), b), c)
  {
    assert [a, b, c][1..] == [b, c] && [b, c][1..] == [c] && [c][1..] == [];
    assert Unraced(Next(Next(w, a), b), [c]) <==> !Raced(Next(Next(w, a), b), c);
    assert Unraced(Next(w, a), [b, c]) <==> !Raced(Next(w, a), b) && Unraced(Next(Next(w, a), b), [c]);
  }

  /** Between its check and its cut nothing else moves, so the attempt races exactly when it
      does not find its provider's workflow on a branch with content. */
  lemma {:induction false} HeadRacesIff(w: World, j: Job)
    requires Inv(w) && GoodJob(w, j) && j.Deploy? && w.repo.Some?
    ensures Unraced(w, Head(w, j)) <==> Finds(w, j.path)
    ensures Unraced(w, Head(w, j)[..2])
  {
    var start := Start(j.a, j.path, j.files, j.workflow);
    UnracedThree(w, start, CheckFile(j.a), Cut(j.a));
    UnracedTwo(w, start, CheckFile(j.a));
    assert Head(w, j)[..2] == [start, CheckFile(j.a)];
  }

  lemma {:induction false} FirstDoesNotRace(w: World, j: Job)
    requires Inv(w) && GoodJob(w, j) && j.Deploy? && w.repo.None?
    ensures Unraced(w, Head(w, j))
  {
    var start := Start(j.a, j.path, j.files, j.workflow);
    var w1 := Next(w, start);
    assert Head(w, j) == [start, Create(j.a)] + [ReadRef(j.a), MoveRef(j.a)];
    UnracedTwo(w, start, Create(j.a));
    AfterTwo(w, start, Create(j.a));
    UnracedTwo(Next(w1, Create(j.a)), ReadRef(j.a), MoveRef(j.a));
    UnracedConcat(w, [start, Create(j.a)], [ReadRef(j.a), MoveRef(j.a)]);
  }

  /** Settling pull requests and finishing a branch cannot race. */
  lemma {:induction false} RestDoesNotRace(w: World, a: nat, es: seq<Event>)
    requires forall k :: 0 <= k < |es| ==> Settles(es[k]) || es[k].MoveRef? || es[k].OpenPr? || es[k] == ReadRef(a)
    requires a in w.attempts && w.attempts[a].existed
    ensures Unraced(w, es)
    decreases |es|
  {
    if es != [] {
      RestDoesNotRace(Next(w, es[0]), a, es[1..]);
    }
  }

  lemma {:induction false} HeadExists(w: World, j: Job, n: nat)
    requires GoodJob(w, j) && j.Deploy? && w.repo.Some? && 0 < n <= 3
    ensures var w' := After(w, Head(w, j)[..n]); j.a in w'.attempts && w'.attempts[j.a].existed
  {
    var start, check, cut := Start(j.a, j.path, j.files, j.workflow), CheckFile(j.a), Cut(j.a);
    var w1 := Next(w, start);
    assert Head(w, j)[..1] == [start] && Head(w, j)[..2] == [start, check] && Head(w, j)[..3] == [start, check] + [cut];
    AfterTwo(w, start, check);
    AfterConcat(w, [start, check], [cut]);
    assert After(w, [start]) == w1;
    var w2 := Next(w1, check);
    assert After(w2, [cut]) == Next(w2, cut);
  }

  lemma {:induction false} JobIsProper(w: World, j: Job)
    requires GoodJob(w, j)
    ensures AllProper(w.workflows, Events(w, j))
  {
  }

  lemma {:induction false} PrefixOfPrefix(w: World, es: seq<Event>, more: seq<Event>)
    requires Unraced(w, es + more)
    ensures Unraced(w, es)
  {
    UnracedPrefix(w, es + more, |es|);
    assert (es + more)[..|es|] == es;
  }

  /** An attempt with nobody else at work before its cut races if and only if it cuts its
      branch without having found its provider's workflow, from a branch with content. */
  lemma {:induction false} JobRacesIff(w: World, j: Job)
    requires Inv(w) && GoodJob(w, j) && j.Deploy?
    ensures Unraced(w, Events(w, j)) <==> !Cuts(w, j) || Finds(w, j.path)
  {
    if w.repo.None? {
      FirstDoesNotRace(w, j);
      UnracedPrefix(w, Head(w, j), j.head);
    } else {
      var head := Head(w, j)[..j.head];
      var rest := j.later + [ReadRef(j.a), MoveRef(j.a), OpenPr(j.a)][..j.rest];
      HeadRacesIff(w, j);
      HeadExists(w, j, j.head);
      RestDoesNotRace(After(w, head), j.a, rest);
      if j.head < 3 {
        assert Head(w, j)[..2][..j.head] == head;
        UnracedPrefix(w, Head(w, j)[..2], j.head);
      } else {
        assert head == Head(w, j);
      }
      if Unraced(w, head) {
        UnracedConcat(w, head, rest);
      } else if Unraced(w, head + rest) {
        PrefixOfPrefix(w, head, rest);
      }
    }
  }

  function AfterJobs(w: World, jobs: seq<Job>): World
    requires GoodJobs(w, jobs)
    decreases |jobs|
  {
    if jobs == [] then w else AfterJobs(After(w, Events(w, jobs[0])), jobs[1..])
  }

  predicate GoodJobs(w: World, jobs: seq<Job>)
    decreases |jobs|
  {
    jobs == [] || (GoodJob(w, jobs[0]) && GoodJobs(After(w, Events(w, jobs[0])), jobs[1..]))
  }

  /** Every attempt that cuts its branch finds its provider's workflow, or no content. */
  predicate AllFind(w: World, jobs: seq<Job>)
    requires GoodJobs(w, jobs)
    decreases |jobs|
  {
    jobs != [] ==>
      && (jobs[0].Deploy? && Cuts(w, jobs[0]) ==> Finds(w, jobs[0].path))
      && AllFind(After(w, Events(w, jobs[0])), jobs[1..])
  }

  /** One attempt at a time, each failing after any of its calls, with pull requests merged
      or closed between attempts and while an attempt works on its own branch, each finding
      its provider's workflow or an empty branch: the default branch never loses a file and
      no workflow file on it ever changes. */
  lemma {:induction false} OneAtATimeOnlyAdds(w: World, jobs: seq<Job>)
    requires Growing(w) && GoodJobs(w, jobs) && AllFind(w, jobs)
    ensures var w' := AfterJobs(w, jobs);
            && Growing(w') && w'.workflows == w.workflows
            && (w.repo.Some? ==> w'.repo.Some? && Kept(w.workflows, Main(w), Main(w')))
    decreases |jobs|
  {
    if jobs != [] {
      JobIsProper(w, jobs[0]);
      if jobs[0].Deploy? {
        JobRacesIff(w, jobs[0]);
      }
      UnracedRunsOnlyAdd(w, Events(w, jobs[0]));
      OneAtATimeOnlyAdds(After(w, Events(w, jobs[0])), jobs[1..]);
    }
  }

  /** The condition is exact: from any state that only ever grew, an attempt that nobody
      disturbs, merged at once, keeps the default branch if and only if its own provider's
      workflow is on it or nothing but the auto-init commit is. So the first attempt after a
      change of provider replaces everything. */
  lemma {:induction false} AttemptKeepsIff(w: World, a: nat, path: Path, files: Tree, workflow: Content)
    requires Growing(w) && w.repo.Some? && a !in w.attempts && path in w.workflows && Plain(w.workflows, files)
    ensures var w' := After(w, [Start(a, path, files, workflow), CheckFile(a)] + Landing(a));
            && w'.repo.Some? && w'.repo.value.main < |w'.repo.value.commits|
            && (Kept(w.workflows, Main(w), Main(w')) <==> path in Main(w) || Main(w) == AUTO_INIT)
            && (path !in Main(w) ==> Main(w') == files[path := workflow])
  {
    var start := [Start(a, path, files, workflow), CheckFile(a)];
    var w2 := After(w, start);
    AfterTwo(w, start[0], start[1]);
    AfterConcat(w, start, Landing(a));
    assert AllProper(w.workflows, start);
    RunKeepsInv(w, start);
    assert Main(w2) == Main(w) && w2.attempts[a] == Attempt(path, files, workflow, true, Prepared, path !in Main(w), 0);
    LandsAsCommitted(w2, a);
    if path !in Main(w) && w.repo.value.main != 0 {
      var p :| p in w.workflows && p in Main(w);
      assert p !in files[path := workflow];
      assert p !in AUTO_INIT;
    }
  }

  // ----- the calls of one attempt -----

  /** Which calls of an attempt fail. */
  datatype Faults = Faults(lookup: bool, create: Remote, check: bool, cut: Remote, net: Net, openPr: Remote)

  function Proposed(f: Faults, files: seq<(Path, Content)>, whole: bool): (n: nat)
    ensures n == 2 || n == 3 || n == 5 || n == 6
  {
    if f.cut.Raises? then (if f.cut.effect then 3 else 2)
    else if !Reaches(f.net, files, whole) || !Takes(f.net.patch) then 3
    else if f.net.patch.Raises? || !Takes(f.openPr) then 5 else 6
  }

  /** How many of an attempt's events take effect. */
  function Reached(f: Faults, existed: bool, files: seq<(Path, Content)>, whole: bool): nat {
    if !f.lookup then 0
    else if existed then
      if f.check then Proposed(f, files, whole) else 1
    else
      if f.create.Raises? then (if f.create.effect then 2 else 1)
      else if Reaches(f.net, files, true) && Takes(f.net.patch) then 4 else 2
  }

  function Steps(existed: bool, a: nat, path: Path, files: Tree, workflow: Content): seq<Event> {
    if existed then
      [Start(a, path, files, workflow), CheckFile(a), Cut(a), ReadRef(a), MoveRef(a), OpenPr(a)]
    else
      [Start(a, path, files, workflow), Create(a), ReadRef(a), MoveRef(a)]
  }

  /** One agent's repository, as the provider's calls change it. */
  class AgentRepository {
    var repo: Option<Repo>

    constructor ()
      ensures repo == None
    {
      repo := None;
    }

    /** Post the tree again while the answer is 404, nine times at most. */
    method PostRetrying404(statuses: nat -> int) returns (ok: bool, calls: nat)
      ensures ok == Posted(statuses)
      ensures 0 < calls <= PROPAGATION_ATTEMPTS
      ensures forall j: nat :: j + 1 < calls ==> statuses(j) == 404
      ensures calls < PROPAGATION_ATTEMPTS ==> statuses(calls - 1) != 404
      ensures ok == Success(statuses(calls - 1))
      ensures ok <==> exists k: nat :: k < 9 && 200 <= statuses(k) <= 299 && forall j: nat :: j < k ==> statuses(j) == 404
    {
      calls := 0;
      var status := 404;
      while calls < PROPAGATION_ATTEMPTS && status == 404
        invariant calls <= PROPAGATION_ATTEMPTS
        invariant forall j: nat :: j + 1 < calls ==> statuses(j) == 404
        invariant calls > 0 ==> status == statuses(calls - 1)
        invariant calls == 0 ==> status == 404
        decreases PROPAGATION_ATTEMPTS - calls
      {
        status := statuses(calls);
        calls := calls + 1;
      }
      ok := Success(status);
      if ok {
        assert forall j: nat :: j < calls - 1 ==> statuses(j) == 404;
      }
      assert Posted(statuses) ==> forall k: nat :: k < PROPAGATION_ATTEMPTS && Success(statuses(k)) ==> k >= calls - 1;
    }

    /** Blobs, tree, commit and, last of all, the ref. */
    method CommitFiles(ref: Ref, files: seq<(Path, Content)>, omitBase: bool, net: Net) returns (ok: bool)
      requires repo.Some? && HasRef(repo.value, ref) && Tip(repo.value, ref) < |repo.value.commits|
      modifies this`repo
      ensures ok == (Reaches(net, files, omitBase) && net.patch.Works?)
      ensures repo == if Reaches(net, files, omitBase) && Takes(net.patch)
                      then Some(Pushed(old(repo.value), ref,
                                       Committing(old(repo.value.commits[Tip(repo.value, ref)]), Items(files), omitBase)))
                      else old(repo)
    {
      if (exists k :: 0 <= k < |files| && UnderWorkflows(files[k].0)) && !net.scope {
        return false;
      }
      if !net.readRef {
        return false;
      }
      var parent := Tip(repo.value, ref);
      if !omitBase && !net.readCommit {
        return false;
      }
      var entries: Tree := map[];
      for i := 0 to |files|
        invariant repo == old(repo)
        invariant entries == Items(files[..i])
        invariant forall k: nat :: k < i ==> net.blobs(k)
      {
        if !net.blobs(i) {
          return false;
        }
        entries := entries[files[i].0 := files[i].1];
        assert files[..i + 1] == files[..i] + [files[i]];
        ItemsSnoc(files[..i], files[i]);
      }
      assert files[..|files|] == files;
      var posted, _ := PostRetrying404(net.trees);
      if !posted || !net.commit {
        return false;
      }
      var tree := if omitBase then entries else repo.value.commits[parent] + entries;
      if Takes(net.patch) {
        repo := Some(Pushed(repo.value, ref, tree));
      }
      return net.patch.Works?;
    }

    /** The branch, its commit and its pull request. */
    method Propose(a: nat, files: seq<(Path, Content)>, whole: bool, f: Faults) returns (ok: bool, reached: nat)
      requires repo.Some? && repo.value.main < |repo.value.commits| && a !in repo.value.branches
      modifies this`repo
      ensures reached == Proposed(f, files, whole)
      ensures repo == Some(Proposal(old(repo.value), a, Committing(old(repo.value.commits[repo.value.main]), Items(files), whole), reached))
      ensures ok ==> reached == 6
      ensures ok <==> f.cut.Works? && Reaches(f.net, files, whole) && f.net.patch.Works? && f.openPr.Works?
    {
      ok, reached := false, 2;
      if Takes(f.cut) {
        repo := Some(WithBranch(repo.value, a));
        reached := 3;
      }
      if f.cut.Raises? {
        return;
      }
      var pushed := CommitFiles(Some(a), files, whole, f.net);
      if Reaches(f.net, files, whole) && Takes(f.net.patch) {
        reached := 5;
      }
      if !pushed {
        return;
      }
      if Takes(f.openPr) {
        repo := Some(WithPr(repo.value, a, Open));
        reached := 6;
      }
      ok := f.openPr.Works?;
    }

    /** One attempt with nobody else at work: the repository ends as the attempt's own
        events leave it, up to the call that fails. */
    method TriggerDeployment(a: nat, path: Path, files: seq<(Path, Content)>, workflow: Content, f: Faults) returns (ok: bool, reached: nat)
      requires repo.Some? ==> repo.value.main < |repo.value.commits| && a !in repo.value.branches
      modifies this`repo
      ensures reached == Reached(f, old(repo.Some?),
                   if Whole(old(repo), path) then files + [(path, workflow)] else files, Whole(old(repo), path))
      ensures repo == After(World({path}, old(repo), map[]), Steps(old(repo.Some?), a, path, Items(files), workflow)[..reached]).repo
      ensures ok ==> reached == |Steps(old(repo.Some?), a, path, Items(files), workflow)|
      ensures var whole := old(repo.None?) || path !in old(repo.value.commits[repo.value.main]);
              ok <==> && f.lookup && (if old(repo.Some?) then f.check && f.cut.Works? && f.openPr.Works? else f.create.Works?)
                      && Reaches(f.net, if whole then files + [(path, workflow)] else files, whole) && f.net.patch.Works?
    {
      ok, reached := false, 0;
      if !f.lookup {
        return;
      }
      var existed := repo.Some?;
      if existed {
        ExistingRepositorySteps(path, repo.value, a, Items(files), workflow);
        reached := 1;
        if !f.check {
          return;
        }
      } else {
        NewRepositorySteps(path, a, Items(files), workflow);
        reached := 1;
        if Takes(f.create) {
          repo := Some(Repo([AUTO_INIT], 0, map[]));
          reached := 2;
        }
        if f.create.Raises? {
          return;
        }
      }
      ItemsSnoc(files, (path, workflow));
      var committed := existed && path in repo.value.commits[repo.value.main];
      var all := if committed then files else files + [(path, workflow)];
      if existed {
        ok, reached := Propose(a, all, !committed, f);
      } else {
        ok := CommitFiles(None, all, true, f.net);
        if Reaches(f.net, all, true) && Takes(f.net.patch) {
          reached := 4;
        }
      }
    }
  }

  /** How far an attempt gets, effect by effect: into a repository that is there by lookup,
      check, branch, commit and request; into a new one by lookup, creation and commit. */
  lemma {:induction false} ReachedIs(f: Faults, files: seq<(Path, Content)>, whole: bool)
    ensures var n := Reached(f, true, files, whole);
            var branched, committed := f.lookup && f.check && f.cut != Raises(false), Reaches(f.net, files, whole) && f.net.patch != Raises(false);
            && n <= 6 && n != 4 && (n >= 1 <==> f.lookup) && (n >= 2 <==> f.lookup && f.check) && (n >= 3 <==> branched)
            && (n >= 5 <==> branched && f.cut == Works && committed)
            && (n == 6 <==> branched && f.cut == Works && committed && f.net.patch == Works && f.openPr != Raises(false))
    ensures var n := Reached(f, false, files, whole);
            && n <= 4 && n != 3 && (n >= 1 <==> f.lookup) && (n >= 2 <==> f.lookup && f.create != Raises(false))
            && (n == 4 <==> f.lookup && f.create == Works && Reaches(f.net, files, true) && f.net.patch != Raises(false))
  {}

  /** What an attempt that gets to the end leaves, outright. A first one: the auto-init
      commit, and its files alone on the default branch. A later one: its own branch, cut from the
      default branch, with one commit and an open request; over the default branch's files if
      they hold the workflow, which it then leaves out, and alone if they do not. */
  lemma {:induction false} SucceedsAs(path: Path, r: Repo, a: nat, files: Tree, workflow: Content)
    requires r.main < |r.commits| && a !in r.branches
    ensures After(World({path}, None, map[]), Steps(false, a, path, files, workflow)).repo
            == Some(Repo([map["README.md" := "auto-init"], files[path := workflow]], 1, map[]))
    ensures After(World({path}, Some(r), map[]), Steps(true, a, path, files, workflow)).repo
            == Some(Repo(r.commits + [if path in r.commits[r.main] then r.commits[r.main] + files else files[path := workflow]],
                         r.main, r.branches[a := Branch(r.main, |r.commits|, Open)]))
  {
    NewRepositorySteps(path, a, files, workflow);
    ExistingRepositorySteps(path, r, a, files, workflow);
    assert Steps(false, a, path, files, workflow)[..4] == Steps(false, a, path, files, workflow);
    assert [AUTO_INIT] + [files[path := workflow]] == [map["README.md" := "auto-init"], files[path := workflow]];
    var tree := if path in r.commits[r.main] then r.commits[r.main] + files else files[path := workflow];
    assert Proposal(r, a, tree, 6).branches == r.branches[a := Branch(r.main, |r.commits|, Open)];
    assert Steps(true, a, path, files, workflow)[..6] == Steps(true, a, path, files, workflow);
  }

  predicate Whole(repo: Option<Repo>, path: Path)
    requires repo.Some? ==> repo.value.main < |repo.value.commits|
  {
    repo.None? || path !in repo.value.commits[repo.value.main]
  }

  /** What each prefix of a first attempt's events leaves. */
  lemma {:induction false} NewRepositorySteps(path: Path, a: nat, files: Tree, workflow: Content)
    ensures var w0, steps := NoRepository({path}), Steps(false, a, path, files, workflow);
            var r := Repo([AUTO_INIT], 0, map[]);
            && After(w0, steps[..0]).repo == None
            && After(w0, steps[..1]).repo == None
            && After(w0, steps[..2]).repo == Some(r)
            && After(w0, steps[..4]).repo == Some(Pushed(r, None, files[path := workflow]))
  {
    var w0, steps := NoRepository({path}), Steps(false, a, path, files, workflow);
    assert steps[..1] == [steps[0]] && steps[..2] == [steps[0], steps[1]] && steps[..4] == [steps[0], steps[1], steps[2], steps[3]];
    assert After(w0, [steps[0]]) == Next(w0, steps[0]);
    AfterTwo(w0, steps[0], steps[1]);
    AfterFour(w0, steps[0], steps[1], steps[2], steps[3]);
  }

  lemma {:induction false} ChecksAndCuts(path: Path, r: Repo, a: nat, files: Tree, workflow: Content)
    requires r.main < |r.commits| && a !in r.branches
    ensures var w0, steps := World({path}, Some(r), map[]), Steps(true, a, path, files, workflow);
            var w3 := After(w0, steps[..3]);
            && After(w0, steps[..0]).repo == Some(r)
            && After(w0, steps[..1]).repo == Some(r)
            && After(w0, steps[..2]).repo == Some(r)
            && w3.repo == Some(WithBranch(r, a)) && a in w3.attempts
            && w3.attempts[a] == Attempt(path, files, workflow, true, BranchReady, path !in r.commits[r.main], 0)
  {
    var w0, steps := World({path}, Some(r), map[]), Steps(true, a, path, files, workflow);
    var w1 := Next(w0, steps[0]);
    var w2 := Next(w1, steps[1]);
    assert steps[..0] == [];
    assert steps[..1] == [steps[0]] && After(w0, [steps[0]]) == w1;
    assert steps[..2] == [steps[0], steps[1]];
    AfterTwo(w0, steps[0], steps[1]);
    assert steps[..3] == steps[..2] + [steps[2]];
    AfterConcat(w0, steps[..2], [steps[2]]);
    assert After(w2, [steps[2]]) == Next(w2, steps[2]);
  }

  /** What each prefix of a later attempt's events leaves. */
  lemma {:induction false} ExistingRepositorySteps(path: Path, r: Repo, a: nat, files: Tree, workflow: Content)
    requires r.main < |r.commits| && a !in r.branches
    ensures var w0, steps := World({path}, Some(r), map[]), Steps(true, a, path, files, workflow);
            var whole, main := path !in r.commits[r.main], r.commits[r.main];
            var tree := Committing(main, if whole then files[path := workflow] else files, whole);
            && After(w0, steps[..1]).repo == Some(r)
            && forall n :: n == 0 || n == 2 || n == 3 || n == 5 || n == 6 ==>
                 After(w0, steps[..n]).repo == Some(Proposal(r, a, tree, n))
  {
    var w0, steps := World({path}, Some(r), map[]), Steps(true, a, path, files, workflow);
    ChecksAndCuts(path, r, a, files, workflow);
    var w3 := After(w0, steps[..3]);
    CommitsAndOpens(w3, r, a);
    assert steps[..5] == steps[..3] + [steps[3], steps[4]];
    AfterConcat(w0, steps[..3], [steps[3], steps[4]]);
    assert steps[..6] == steps[..5] + [steps[5]];
    AfterConcat(w0, steps[..5], [steps[5]]);
    var w5 := After(w0, steps[..5]);
    assert After(w5, [steps[5]]) == Next(w5, steps[5]);
  }
}
