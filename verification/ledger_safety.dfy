/** Safety of the ledger over whole runs: any sequence of checkpoint, fork, close and merge calls,
    accepted or refused, on any projects. */
module LedgerSafety {
  import opened Common
  import Graph
  import opened Ledger

  function ParentMap(s: State): Graph.ParentMap {
    map c | c in s.checkpoints :: s.checkpoints[c].parents
  }

  function CreatedAt(s: State): Graph.Times {
    map c | c in s.checkpoints :: s.checkpoints[c].created
  }

  // ----- the invariant -----

  /** Threads belong to known projects. */
  ghost predicate Grounded(s: State) {
    forall t :: t in s.threads ==> s.threads[t] in s.projects
  }

  ghost predicate ThreadFits(s: State, project: Id, thread: Option<Id>) {
    thread.Some? ==> thread.value in s.threads && s.threads[thread.value] == project
  }

  /** A checkpoint stays in its project: its thread, its branch and its distinct parents do too. */
  ghost predicate InProject(s: State, c: Checkpoint) {
    && c.project in s.projects
    && ThreadFits(s, c.project, c.thread)
    && (c.branch.Some? ==> c.branch.value in s.branches && s.branches[c.branch.value].project == c.project)
    && (forall p :: p in c.parents ==> p in s.checkpoints && s.checkpoints[p].project == c.project)
    && (forall i, j :: 0 <= i < j < |c.parents| ==> c.parents[i] != c.parents[j])
  }

  /** A checkpoint on the branch parented on the fork point alone. */
  ghost predicate IsForkNode(s: State, b: Id, c: Id)
    requires b in s.branches
  {
    c in OnBranch(s, b) && s.checkpoints[c].parents == [s.branches[b].forkedFrom]
  }

  ghost predicate WellForked(s: State, b: Id)
    requires b in s.branches
  {
    var branch := s.branches[b];
    && branch.project in s.projects && ThreadFits(s, branch.project, branch.thread)
    && branch.forkedFrom in s.checkpoints && s.checkpoints[branch.forkedFrom].project == branch.project
    && exists c :: IsForkNode(s, b, c)
  }

  /** A merge node above a newest checkpoint of the branch, with at least two parents. */
  ghost predicate MergedInto(s: State, b: Id, head: Id, node: Id) {
    && node in s.checkpoints && head in s.checkpoints[node].parents && |s.checkpoints[node].parents| >= 2
    && IsHead(s, OnBranch(s, b), Some(head))
  }

  ghost predicate Good(s: State) {
    && Grounded(s)
    && (forall c :: c in s.checkpoints ==> InProject(s, s.checkpoints[c]))
    && Graph.Acyclic(ParentMap(s))
    && (forall b :: b in s.branches ==> WellForked(s, b))
    && (forall b :: b in s.branches && s.branches[b].status.Merged? ==> exists head, node :: MergedInto(s, b, head, node))
  }

  // ----- what one step keeps -----

  /** Nothing recorded changes; a branch keeps its fork; a branch that is not open keeps its status
      and gains no checkpoint. */
  ghost predicate Keeps(s: State, t: State) {
    && t.projects == s.projects && t.threads == s.threads
    && (forall c :: c in s.checkpoints ==> c in t.checkpoints && t.checkpoints[c] == s.checkpoints[c])
    && (forall b :: b in s.branches ==> b in t.branches && t.branches[b].(status := s.branches[b].status) == s.branches[b])
    && (forall b :: b in s.branches && !s.branches[b].status.Open? ==>
          t.branches[b].status == s.branches[b].status && OnBranch(t, b) == OnBranch(s, b))
  }

  lemma KeepsTransitive(s: State, t: State, u: State)
    requires Keeps(s, t) && Keeps(t, u)
    ensures Keeps(s, u)
  {
  }

  /** A checkpoint the service accepts is in its project. */
  lemma AcceptedInProject(s: State, project: Id, p: Payload, now: int)
    requires Grounded(s) && CheckPayload(s, project, p).None?
    ensures InProject(s, CheckpointOf(project, p, now))
  {
    var c := CheckpointOf(project, p, now);
    forall q | q in c.parents ensures q in s.checkpoints && s.checkpoints[q].project == project {
      DistinctSame(p.parents, q);
      CheckedParent(s, project, p.parents, q);
    }
    DistinctIsDistinct(p.parents);
  }

  /** Appending an in-project checkpoint under a new id keeps the graph acyclic. */
  lemma AppendAcyclic(s: State, c: Checkpoint, id: Id)
    requires forall k :: k in s.checkpoints ==> InProject(s, s.checkpoints[k])
    requires Graph.Acyclic(ParentMap(s)) && InProject(s, c) && id !in s.checkpoints
    ensures Graph.Acyclic(ParentMap(s.(checkpoints := s.checkpoints[id := c])))
  {
    assert Graph.Closed(ParentMap(s));
    Graph.AppendKeepsAcyclic(ParentMap(s), id, c.parents);
    assert ParentMap(s.(checkpoints := s.checkpoints[id := c])) == ParentMap(s)[id := c.parents];
  }

  lemma OnBranchAppend(s: State, id: Id, c: Checkpoint, b: Id)
    requires id !in s.checkpoints
    ensures var t := s.(checkpoints := s.checkpoints[id := c]);
            OnBranch(t, b) == if c.branch == Some(b) then OnBranch(s, b) + {id} else OnBranch(s, b)
  {
  }

  // ----- carrying the invariant across a step that keeps the record -----

  lemma InProjectKept(s: State, t: State, c: Checkpoint)
    requires Keeps(s, t) && InProject(s, c)
    ensures InProject(t, c)
  {
  }

  lemma WellForkedKept(s: State, t: State, b: Id)
    requires Keeps(s, t) && b in s.branches && WellForked(s, b)
    ensures WellForked(t, b)
  {
    var c :| IsForkNode(s, b, c);
    assert IsForkNode(t, b, c);
  }

  lemma MergedKept(s: State, t: State, b: Id)
    requires Keeps(s, t) && b in s.branches && s.branches[b].status.Merged?
    requires exists head, node :: MergedInto(s, b, head, node)
    ensures exists head, node :: MergedInto(t, b, head, node)
  {
    var head, node :| MergedInto(s, b, head, node);
    assert MergedInto(t, b, head, node);
  }

  /** A step that keeps the record need only answer for what it added. */
  lemma GoodByKeeping(s: State, t: State)
    requires Good(s) && Keeps(s, t) && Graph.Acyclic(ParentMap(t))
    requires forall c :: c in t.checkpoints && c !in s.checkpoints ==> InProject(t, t.checkpoints[c])
    requires forall b :: b in t.branches && b !in s.branches ==> WellForked(t, b)
    requires forall b :: b in t.branches && t.branches[b].status.Merged? && !(b in s.branches && s.branches[b].status.Merged?) ==>
               exists head, node :: MergedInto(t, b, head, node)
    ensures Good(t)
  {
    forall c | c in t.checkpoints ensures InProject(t, t.checkpoints[c]) {
      if c in s.checkpoints {
        InProjectKept(s, t, s.checkpoints[c]);
      }
    }
    forall b | b in t.branches ensures WellForked(t, b) {
      if b in s.branches {
        WellForkedKept(s, t, b);
      }
    }
    forall b | b in t.branches && t.branches[b].status.Merged? ensures exists head, node :: MergedInto(t, b, head, node) {
      if b in s.branches && s.branches[b].status.Merged? {
        MergedKept(s, t, b);
      }
    }
  }

  /** `t` is `s` with new or still open branches rewritten as in `branches`, and one checkpoint appended. */
  lemma AppendKeeps(s: State, branches: map<Id, Branch>, id: Id, c: Checkpoint, t: State)
    requires id !in s.checkpoints
    requires t == s.(branches := branches, checkpoints := s.checkpoints[id := c])
    requires forall b :: b in s.branches ==> b in branches && branches[b].(status := s.branches[b].status) == s.branches[b]
    requires forall b :: b in s.branches && !s.branches[b].status.Open? ==>
               branches[b].status == s.branches[b].status && c.branch != Some(b)
    ensures Keeps(s, t)
  {
    forall b | b in s.branches && !s.branches[b].status.Open? ensures OnBranch(t, b) == OnBranch(s, b) {
      OnBranchAppend(s.(branches := branches), id, c, b);
    }
  }

  /** The appended checkpoint is in its project; the graph stays acyclic. */
  lemma AppendedGraph(s: State, branches: map<Id, Branch>, project: Id, p: Payload, id: Id, now: int)
    requires Good(s) && id !in s.checkpoints
    requires forall b :: b in s.branches ==> b in branches && branches[b].project == s.branches[b].project
    requires CheckPayload(s.(branches := branches), project, p).None?
    ensures var c := CheckpointOf(project, p, now);
            var t := s.(branches := branches, checkpoints := s.checkpoints[id := c]);
            InProject(t, c) && Graph.Acyclic(ParentMap(t))
  {
    var rewritten := s.(branches := branches);
    var c := CheckpointOf(project, p, now);
    AcceptedInProject(rewritten, project, p, now);
    forall k | k in s.checkpoints ensures InProject(rewritten, s.checkpoints[k]) {
      assert InProject(s, s.checkpoints[k]);
    }
    assert ParentMap(rewritten) == ParentMap(s);
    AppendAcyclic(rewritten, c, id);
    assert rewritten.(checkpoints := rewritten.checkpoints[id := c])
        == s.(branches := branches, checkpoints := s.checkpoints[id := c]);
  }

  /** The state in which `branches` were rewritten and the payload's checkpoint was appended. */
  predicate Rewritten(s: State, branches: map<Id, Branch>, project: Id, p: Payload, id: Id, now: int, t: State) {
    t == s.(branches := branches, checkpoints := s.checkpoints[id := CheckpointOf(project, p, now)])
  }

  /** Only open branches were rewritten, and only in their status; the payload lands on none that is closed;
      each new branch is well forked and each newly merged one has its merge node. */
  ghost predicate Justified(s: State, branches: map<Id, Branch>, p: Payload, t: State) {
    && (forall b :: b in s.branches ==> b in branches && branches[b].(status := s.branches[b].status) == s.branches[b])
    && (forall b :: b in s.branches && !s.branches[b].status.Open? ==>
          branches[b].status == s.branches[b].status && p.branch != Some(b))
    && (forall b :: b in t.branches && b !in s.branches ==> WellForked(t, b))
    && (forall b :: b in t.branches && t.branches[b].status.Merged? && !(b in s.branches && s.branches[b].status.Merged?) ==>
          exists head, node :: MergedInto(t, b, head, node))
  }

  /** Rewriting open branches and appending an accepted checkpoint keeps the ledger good, given that
      each new branch is well forked and each newly merged one has its merge node. */
  lemma RewriteGood(s: State, branches: map<Id, Branch>, project: Id, p: Payload, id: Id, now: int, t: State)
    requires Good(s) && id !in s.checkpoints && Rewritten(s, branches, project, p, id, now, t)
    requires CheckPayload(s.(branches := branches), project, p).None? && Justified(s, branches, p, t)
    ensures Good(t) && Keeps(s, t)
  {
    AppendedGraph(s, branches, project, p, id, now);
    AppendKeeps(s, branches, id, CheckpointOf(project, p, now), t);
    GoodByKeeping(s, t);
  }

  /** No branch is added or newly merged, and the payload lands on no closed one. */
  ghost predicate Quiet(s: State, branches: map<Id, Branch>, p: Payload) {
    && branches.Keys == s.branches.Keys
    && forall b :: b in s.branches ==>
         && branches[b].(status := s.branches[b].status) == s.branches[b]
         && (branches[b].status.Merged? ==> s.branches[b].status.Merged?)
         && (!s.branches[b].status.Open? ==> branches[b].status == s.branches[b].status && p.branch != Some(b))
  }

  lemma RewriteQuietly(s: State, branches: map<Id, Branch>, project: Id, p: Payload, id: Id, now: int, t: State)
    requires Good(s) && id !in s.checkpoints && Rewritten(s, branches, project, p, id, now, t)
    requires CheckPayload(s.(branches := branches), project, p).None?
    requires Quiet(s, branches, p)
    ensures Good(t) && Keeps(s, t)
  {
    RewriteGood(s, branches, project, p, id, now, t);
  }

  // ----- each operation -----

  lemma CheckpointWrites(s: State, project: Id, p: Payload, id: Id, now: int)
    requires CreateCheckpoint(s, project, p, id, now).Ok?
    ensures var t := CreateCheckpoint(s, project, p, id, now).value;
            && CheckPayload(s.(branches := s.branches), project, p).None?
            && Rewritten(s, s.branches, project, p, id, now, t)
            && Quiet(s, s.branches, p)
  {
    assert s.(branches := s.branches) == s;
  }

  lemma ForkWrites(s: State, project: Id, from: Id, thread: Option<Id>, branch: Id, id: Id, now: int)
    requires CreateBranch(s, project, from, thread, branch, id, now).Ok?
    ensures var branches := s.branches[branch := Branch(project, thread, from, Open)];
            var t := CreateBranch(s, project, from, thread, branch, id, now).value;
            && CheckPayload(s.(branches := branches), project, ForkPayload(thread, branch, from)).None?
            && Rewritten(s, branches, project, ForkPayload(thread, branch, from), id, now, t)
            && project in s.projects && ThreadFits(s, project, thread)
            && from in s.checkpoints && s.checkpoints[from].project == project
  {
  }

  lemma CloseWrites(s: State, branch: Id, deadEnd: bool, id: Id, now: int)
    requires CloseBranch(s, branch, deadEnd, id, now).Ok?
    ensures branch in s.branches && s.branches[branch].status.Open?
    ensures var b := s.branches[branch];
            var branches := s.branches[branch := b.(status := if deadEnd then DeadEnd else Status.Closed)];
            && CheckPayload(s.(branches := branches), b.project, ClosePayload(b.thread, branch)).None?
            && Rewritten(s, branches, b.project, ClosePayload(b.thread, branch), id, now, CloseBranch(s, branch, deadEnd, id, now).value)
            && Quiet(s, branches, ClosePayload(b.thread, branch))
  {
  }

  lemma CheckpointGood(s: State, project: Id, p: Payload, id: Id, now: int)
    requires Good(s) && id !in s.checkpoints
    requires CreateCheckpoint(s, project, p, id, now).Ok?
    ensures var t := CreateCheckpoint(s, project, p, id, now).value; Good(t) && Keeps(s, t)
  {
    var t := CreateCheckpoint(s, project, p, id, now).value;
    CheckpointWrites(s, project, p, id, now);
    RewriteQuietly(s, s.branches, project, p, id, now, t);
  }

  /** What a fork leaves behind: an open branch whose only checkpoint is parented on the fork point. */
  ghost predicate Begins(s: State, b: Id, first: Id) {
    b in s.branches && s.branches[b].status.Open? && OnBranch(s, b) == {first} && IsForkNode(s, b, first)
  }

  /** A new branch with its first checkpoint. */
  lemma ForkGood(s: State, project: Id, from: Id, thread: Option<Id>, branch: Id, id: Id, now: int)
    requires Good(s) && id !in s.checkpoints && branch !in s.branches
    requires CreateBranch(s, project, from, thread, branch, id, now).Ok?
    ensures var t := CreateBranch(s, project, from, thread, branch, id, now).value;
            && Good(t) && Keeps(s, t)
            && t.branches[branch] == Branch(project, thread, from, Open) && Begins(t, branch, id)
  {
    ForkWrites(s, project, from, thread, branch, id, now);
    ForkRewriteGood(s, project, from, thread, branch, id, now, CreateBranch(s, project, from, thread, branch, id, now).value);
  }

  lemma ForkRewriteGood(s: State, project: Id, from: Id, thread: Option<Id>, branch: Id, id: Id, now: int, t: State)
    requires Good(s) && id !in s.checkpoints && branch !in s.branches
    requires var branches := s.branches[branch := Branch(project, thread, from, Open)];
             && CheckPayload(s.(branches := branches), project, ForkPayload(thread, branch, from)).None?
             && Rewritten(s, branches, project, ForkPayload(thread, branch, from), id, now, t)
    requires project in s.projects && ThreadFits(s, project, thread)
    requires from in s.checkpoints && s.checkpoints[from].project == project
    ensures Good(t) && Keeps(s, t) && t.branches[branch] == Branch(project, thread, from, Open) && Begins(t, branch, id)
  {
    var branches := s.branches[branch := Branch(project, thread, from, Open)];
    UnusedBranch(s, branch);
    ForkJustified(s, project, from, thread, branch, id, now, t);
    RewriteGood(s, branches, project, ForkPayload(thread, branch, from), id, now, t);
  }

  lemma ForkJustified(s: State, project: Id, from: Id, thread: Option<Id>, branch: Id, id: Id, now: int, t: State)
    requires id !in s.checkpoints && branch !in s.branches && OnBranch(s, branch) == {}
    requires Rewritten(s, s.branches[branch := Branch(project, thread, from, Open)], project,
                       ForkPayload(thread, branch, from), id, now, t)
    requires project in s.projects && ThreadFits(s, project, thread)
    requires from in s.checkpoints && s.checkpoints[from].project == project
    ensures Begins(t, branch, id) && t.branches[branch] == Branch(project, thread, from, Open)
    ensures Justified(s, s.branches[branch := Branch(project, thread, from, Open)], ForkPayload(thread, branch, from), t)
  {
    var branches := s.branches[branch := Branch(project, thread, from, Open)];
    ForkBegins(s, branches, project, thread, branch, from, id, now, t);
    ForkIsWellForked(s, project, from, thread, branch, id, now, t);
  }

  /** Nothing is on a branch that does not exist. */
  lemma UnusedBranch(s: State, b: Id)
    requires Good(s) && b !in s.branches
    ensures OnBranch(s, b) == {}
  {
    forall c | c in s.checkpoints ensures s.checkpoints[c].branch != Some(b) {
      assert InProject(s, s.checkpoints[c]);
    }
  }

  lemma ForkBegins(s: State, branches: map<Id, Branch>, project: Id, thread: Option<Id>, branch: Id, from: Id, id: Id, now: int, t: State)
    requires branches == s.branches[branch := Branch(project, thread, from, Open)]
    requires Rewritten(s, branches, project, ForkPayload(thread, branch, from), id, now, t)
    requires OnBranch(s, branch) == {} && id !in s.checkpoints
    ensures Begins(t, branch, id)
  {
    OneParent(from);
    OnBranchAppend(s.(branches := branches), id, t.checkpoints[id], branch);
    assert OnBranch(s.(branches := branches), branch) == OnBranch(s, branch);
  }

  lemma ForkIsWellForked(s: State, project: Id, from: Id, thread: Option<Id>, branch: Id, id: Id, now: int, t: State)
    requires Rewritten(s, s.branches[branch := Branch(project, thread, from, Open)], project,
                       ForkPayload(thread, branch, from), id, now, t)
    requires id !in s.checkpoints && project in s.projects && ThreadFits(s, project, thread)
    requires from in s.checkpoints && s.checkpoints[from].project == project && Begins(t, branch, id)
    ensures WellForked(t, branch)
  {
    assert IsForkNode(t, branch, id);
  }

  lemma OneParent(p: Id)
    ensures Distinct([p]) == [p]
  {
    assert [p][..0] == [];
  }

  /** On a good ledger closing fails only for a missing or non-open branch. */
  lemma CloseAccepted(s: State, branch: Id, deadEnd: bool, id: Id, now: int)
    requires Good(s) && id !in s.checkpoints
    ensures CloseBranch(s, branch, deadEnd, id, now).Ok? <==> branch in s.branches && s.branches[branch].status.Open?
  {
    if branch in s.branches {
      assert WellForked(s, branch);
    }
  }

  /** Closing flips one open branch, which gains no checkpoint: the event is on the main line. */
  lemma CloseSeals(s: State, branch: Id, deadEnd: bool, id: Id, now: int)
    requires id !in s.checkpoints && CloseBranch(s, branch, deadEnd, id, now).Ok?
    ensures var t := CloseBranch(s, branch, deadEnd, id, now).value;
            && branch in t.branches && t.branches[branch].status == (if deadEnd then DeadEnd else Status.Closed)
            && OnBranch(t, branch) == OnBranch(s, branch)
            && id in t.checkpoints && t.checkpoints[id].branch.None?
  {
    CloseWrites(s, branch, deadEnd, id, now);
    var t := CloseBranch(s, branch, deadEnd, id, now).value;
    assert OnBranch(t, branch) == OnBranch(s, branch);
  }

  lemma CloseGood(s: State, branch: Id, deadEnd: bool, id: Id, now: int)
    requires Good(s) && id !in s.checkpoints
    requires CloseBranch(s, branch, deadEnd, id, now).Ok?
    ensures var t := CloseBranch(s, branch, deadEnd, id, now).value; Good(t) && Keeps(s, t)
  {
    CloseWrites(s, branch, deadEnd, id, now);
    var b := s.branches[branch];
    var branches := s.branches[branch := b.(status := if deadEnd then DeadEnd else Status.Closed)];
    RewriteQuietly(s, branches, b.project, ClosePayload(b.thread, branch), id, now, CloseBranch(s, branch, deadEnd, id, now).value);
  }

  lemma {:induction false} DistinctFixed(ids: seq<Id>)
    requires forall i, j :: 0 <= i < j < |ids| ==> ids[i] != ids[j]
    ensures Distinct(ids) == ids
  {
    if ids != [] {
      var init := ids[..|ids| - 1];
      DistinctFixed(init);
      assert ids == init + [ids[|ids| - 1]];
    }
  }

  /** The merge node's parents: distinct, at least two, and every source's head among them. */
  lemma MergeNodeParents(m: Merge, project: Id, thread: Option<Id>, now: int, b: Id)
    requires MergeParents(m).Some? && |MergeParents(m).value| >= 2 && b in m.sources
    ensures var parents := CheckpointOf(project, MergePayload(thread, m, MergeParents(m).value), now).parents;
            && |parents| >= 2 && HeadOf(m, b).Some? && HeadOf(m, b).value in parents
  {
    var heads := SourceHeads(m, Distinct(m.sources)).value;
    var all := heads + if m.targetHead.Some? then [m.targetHead.value] else [];
    DistinctIsDistinct(all);
    DistinctFixed(Distinct(all));
    DistinctSame(m.sources, b);
    SourceHeadIn(m, Distinct(m.sources), b);
    DistinctSame(all, HeadOf(m, b).value);
  }

  lemma {:induction false} SourceHeadIn(m: Merge, sources: seq<Id>, b: Id)
    requires SourceHeads(m, sources).Some? && b in sources
    ensures HeadOf(m, b).Some? && HeadOf(m, b).value in SourceHeads(m, sources).value
  {
    if b != sources[|sources| - 1] {
      assert sources == sources[..|sources| - 1] + [sources[|sources| - 1]];
      SourceHeadIn(m, sources[..|sources| - 1], b);
    }
  }

  /** A merged source gains nothing and its head becomes a parent of the new node. */
  lemma MergeSeals(s: State, branches: map<Id, Branch>, project: Id, thread: Option<Id>, m: Merge, id: Id, now: int, t: State, b: Id)
    requires MergeParents(m).Some? && |MergeParents(m).value| >= 2 && b in m.sources && m.target != Some(b)
    requires id !in s.checkpoints && IsHead(s, OnBranch(s, b), HeadOf(m, b))
    requires Rewritten(s, branches, project, MergePayload(thread, m, MergeParents(m).value), id, now, t)
    ensures HeadOf(m, b).Some? && MergedInto(t, b, HeadOf(m, b).value, id)
  {
    MergeNodeParents(m, project, thread, now, b);
    OnBranchAppend(s.(branches := branches), id, t.checkpoints[id], b);
    assert OnBranch(s.(branches := branches), b) == OnBranch(s, b);
  }

  /** What an accepted merge has checked and what it writes. */
  lemma MergeWrites(s: State, project: Id, m: Merge, id: Id, now: int)
    requires MergeBranches(s, project, m, id, now).Ok?
    ensures forall b :: b in m.sources ==> b in s.branches && s.branches[b].status.Open? && m.target != Some(b)
    ensures MergeParents(m).Some? && |MergeParents(m).value| >= 2
    ensures var p := MergePayload(MergeThread(s, m), m, MergeParents(m).value);
            var branches := MarkMerged(s.branches, m.sources);
            && CheckPayload(s.(branches := branches), project, p).None?
            && Rewritten(s, branches, project, p, id, now, MergeBranches(s, project, m, id, now).value)
  {
    SourcesLoaded(s, project, m.sources);
  }

  /** Marking sources merged touches nothing else; the target, still open, is not among them. */
  lemma MarkingKeeps(s: State, m: Merge, project: Id, p: Payload)
    requires forall b :: b in m.sources ==> b in s.branches && s.branches[b].status.Open?
    requires p.branch == m.target && CheckPayload(s.(branches := MarkMerged(s.branches, m.sources)), project, p).None?
    ensures var branches := MarkMerged(s.branches, m.sources);
            && (forall b :: b in s.branches ==> b in branches && branches[b].(status := s.branches[b].status) == s.branches[b])
            && (forall b :: b in s.branches && !s.branches[b].status.Open? ==>
                  branches[b].status == s.branches[b].status && p.branch != Some(b))
            && (forall b :: b in branches ==> b in s.branches)
            && (forall b :: b in branches && branches[b].status.Merged? ==> b in m.sources || s.branches[b].status.Merged?)
  {
  }

  /** Merging seals every source: it is marked merged, gains nothing, and one of its newest
      checkpoints is a parent of the new node, which has at least two. */
  lemma MergeGood(s: State, project: Id, m: Merge, id: Id, now: int)
    requires Good(s) && id !in s.checkpoints && HeadsRead(s, project, m)
    requires MergeBranches(s, project, m, id, now).Ok?
    ensures var t := MergeBranches(s, project, m, id, now).value;
            && Good(t) && Keeps(s, t)
            && forall b :: b in m.sources ==>
                 b in t.branches && t.branches[b].status.Merged? && HeadOf(m, b).Some? && MergedInto(t, b, HeadOf(m, b).value, id)
  {
    MergeWrites(s, project, m, id, now);
    var branches := MarkMerged(s.branches, m.sources);
    var p := MergePayload(MergeThread(s, m), m, MergeParents(m).value);
    var t := MergeBranches(s, project, m, id, now).value;
    MarkingKeeps(s, m, project, p);
    forall b | b in m.sources ensures HeadOf(m, b).Some? && MergedInto(t, b, HeadOf(m, b).value, id) {
      MergeSeals(s, branches, project, MergeThread(s, m), m, id, now, t, b);
    }
    RewriteGood(s, branches, project, p, id, now, t);
  }

  // ----- runs -----

  ghost predicate PossibleRun(start: State, ops: seq<Op>)
    decreases |ops|, 0
  {
    ops == [] || (PossibleRun(start, ops[..|ops| - 1]) && Possible(Run(start, ops[..|ops| - 1]), ops[|ops| - 1]))
  }

  ghost function Run(start: State, ops: seq<Op>): State
    requires PossibleRun(start, ops)
    decreases |ops|, 1
  {
    if ops == [] then start else After(Run(start, ops[..|ops| - 1]), ops[|ops| - 1])
  }

  lemma StepGood(s: State, op: Op)
    requires Good(s) && Possible(s, op)
    ensures Good(After(s, op)) && Keeps(s, After(s, op))
  {
    if Apply(s, op).Ok? {
      match op
      case CheckpointOp(project, payload, id, now) => CheckpointGood(s, project, payload, id, now);
      case BranchOp(project, from, thread, branch, id, now) => ForkGood(s, project, from, thread, branch, id, now);
      case CloseOp(branch, deadEnd, id, now) => CloseGood(s, branch, deadEnd, id, now);
      case MergeOp(project, m, id, now) => MergeGood(s, project, m, id, now);
    }
  }

  /** Ledger safety. Any run from a good ledger - the empty one is good - ends in a good one, having
      kept everything recorded on the way. */
  lemma {:induction false} RunsAreGood(start: State, ops: seq<Op>, n: nat)
    requires Good(start) && PossibleRun(start, ops) && n <= |ops|
    ensures PossibleRun(start, ops[..n])
    ensures Good(Run(start, ops)) && Keeps(Run(start, ops[..n]), Run(start, ops))
    decreases |ops|
  {
    if n == |ops| {
      assert ops[..n] == ops;
      if ops != [] {
        RunsAreGood(start, ops[..|ops| - 1], 0);
        StepGood(Run(start, ops[..|ops| - 1]), ops[|ops| - 1]);
      }
    } else {
      var init := ops[..|ops| - 1];
      assert init[..n] == ops[..n];
      RunsAreGood(start, init, n);
      StepGood(Run(start, init), ops[|ops| - 1]);
      KeepsTransitive(Run(start, ops[..n]), Run(start, init), Run(start, ops));
    }
  }

  /** Only a fork adds a branch, and then just the one it names. */
  lemma NewBranchIsForked(s: State, op: Op, b: Id)
    requires b !in s.branches && b in After(s, op).branches
    ensures op.BranchOp? && op.branch == b && Apply(s, op).Ok?
  {
  }

  lemma NewBranchBegins(s: State, op: Op, b: Id)
    requires Good(s) && Possible(s, op) && b !in s.branches && b in After(s, op).branches
    ensures Begins(After(s, op), b, op.id)
  {
    NewBranchIsForked(s, op, b);
    ForkGood(s, op.project, op.from, op.thread, op.branch, op.id, op.now);
  }

  lemma ForkPointKept(s: State, t: State, b: Id)
    requires Keeps(s, t) && b in s.branches
    ensures b in t.branches && t.branches[b].forkedFrom == s.branches[b].forkedFrom
  {
  }

  /** The last step of a run, when it adds the branch. */
  lemma LastStepBegins(start: State, ops: seq<Op>, b: Id)
    requires Good(start) && PossibleRun(start, ops) && ops != []
    requires b in Run(start, ops).branches && b !in Run(start, ops[..|ops| - 1]).branches
    ensures Begins(Run(start, ops), b, ops[|ops| - 1].id)
  {
    var init := ops[..|ops| - 1];
    RunsAreGood(start, init, 0);
    NewBranchBegins(Run(start, init), ops[|ops| - 1], b);
  }

  /** The moment at which a branch that the run created was forked. */
  lemma {:induction false} BeginningOf(start: State, ops: seq<Op>, b: Id) returns (n: nat, first: Id)
    requires Good(start) && PossibleRun(start, ops)
    requires b in Run(start, ops).branches && b !in start.branches
    ensures n <= |ops| && PossibleRun(start, ops[..n]) && Begins(Run(start, ops[..n]), b, first)
    decreases |ops|
  {
    var init := ops[..|ops| - 1];
    if b in Run(start, init).branches {
      n, first := BeginningOf(start, init, b);
      assert init[..n] == ops[..n];
    } else {
      LastStepBegins(start, ops, b);
      n, first := |ops|, ops[|ops| - 1].id;
      assert ops[..n] == ops;
    }
  }

  /** Every branch that a run creates has a moment at which its only checkpoint is parented on its fork
      point: that checkpoint is the branch's first, and the fork point never changes afterwards. */
  lemma BranchesBegin(start: State, ops: seq<Op>, b: Id) returns (n: nat, first: Id)
    requires Good(start) && PossibleRun(start, ops)
    requires b in Run(start, ops).branches && b !in start.branches
    ensures n <= |ops| && PossibleRun(start, ops[..n]) && Begins(Run(start, ops[..n]), b, first)
    ensures Run(start, ops).branches[b].forkedFrom == Run(start, ops[..n]).branches[b].forkedFrom
  {
    n, first := BeginningOf(start, ops, b);
    RunsAreGood(start, ops, n);
    ForkPointKept(Run(start, ops[..n]), Run(start, ops), b);
  }

  lemma EmptyIsGood(projects: set<Id>, threads: map<Id, Id>)
    requires forall t :: t in threads ==> threads[t] in projects
    ensures Good(State(projects, threads, map[], map[]))
  {
    var m := ParentMap(State(projects, threads, map[], map[]));
    assert forall n, p :: p in Graph.Parents(m, n) ==> p in m;
  }

  // ----- derived reads are stable -----

  datatype Outcome = Outcome(checkpoint: Id, instrument: string, status: string, claims: set<Id>)

  predicate WellFormed(i: Invocation) {
    i.instrument != "" && i.status in {"result", "refuted", "undecided"}
  }

  function EvidencedClaims(c: Checkpoint): set<Id> {
    set r | r in c.refs && r.target.ClaimTarget? && r.role == "evidenced" :: r.target.id
  }

  function OutcomesOf(id: Id, c: Checkpoint, invocations: seq<Invocation>): seq<Outcome> {
    if invocations == [] then []
    else
      var init, last := OutcomesOf(id, c, invocations[..|invocations| - 1]), invocations[|invocations| - 1];
      if WellFormed(last) then init + [Outcome(id, last.instrument, last.status, EvidencedClaims(c))] else init
  }

  /** Instrument outcomes on an interval, checkpoint by checkpoint. */
  function InstrumentOutcomes(s: State, interval: seq<Id>): seq<Outcome> {
    if interval == [] then []
    else
      var last := interval[|interval| - 1];
      InstrumentOutcomes(s, interval[..|interval| - 1])
      + if last in s.checkpoints then OutcomesOf(last, s.checkpoints[last], s.checkpoints[last].invocations) else []
  }

  lemma {:induction false} OutcomesKept(s: State, t: State, interval: seq<Id>)
    requires Keeps(s, t) && forall c :: c in interval ==> c in s.checkpoints
    ensures InstrumentOutcomes(t, interval) == InstrumentOutcomes(s, interval)
  {
    if interval != [] {
      assert interval == interval[..|interval| - 1] + [interval[|interval| - 1]];
      assert interval[|interval| - 1] in interval;
      OutcomesKept(s, t, interval[..|interval| - 1]);
    }
  }

  /** The diff of two recorded tips never changes: ancestry flags, merge base, interval and
      instrument list are the same before and after any further calls. */
  lemma DiffIsStable(start: State, ops: seq<Op>, n: nat, from: Id, to: Id, r: Graph.Ancestry, again: Graph.Ancestry)
    requires Good(start) && PossibleRun(start, ops) && n <= |ops| && PossibleRun(start, ops[..n])
    requires var s := Run(start, ops[..n]);
             from in s.checkpoints && to in s.checkpoints && Graph.IsAncestry(ParentMap(s), CreatedAt(s), from, to, r)
    requires var t := Run(start, ops); Graph.IsAncestry(ParentMap(t), CreatedAt(t), from, to, again)
    ensures r == again
    ensures InstrumentOutcomes(Run(start, ops), again.interval) == InstrumentOutcomes(Run(start, ops[..n]), r.interval)
  {
    RunsAreGood(start, ops, n);
    RunsAreGood(start, ops[..n], n);
    var s, t := Run(start, ops[..n]), Run(start, ops);
    forall c | c in s.checkpoints ensures InProject(s, s.checkpoints[c]) {
    }
    assert Graph.Closed(ParentMap(s));
    Graph.AncestryStable(ParentMap(s), ParentMap(t), CreatedAt(s), CreatedAt(t), from, to, r, again);
    Graph.AncestorsStable(ParentMap(s), ParentMap(s), to);
    forall c | c in r.interval ensures c in s.checkpoints {
      assert from != to ==> c in Graph.Ancestors(ParentMap(s), to) - Graph.Ancestors(ParentMap(s), from);
    }
    OutcomesKept(s, t, r.interval);
  }
}
