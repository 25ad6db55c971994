/** The research ledger: checkpoints, branches and merges, as functions on its state.

    Project, thread and reference rows made elsewhere are given: `projects`, `threads` (each with its
    project), and `refError` / `claimError`, the first complaint about a reference or claim. */
module Ledger {
  import opened Common
  import Graph

  type Id = Graph.Id

  datatype Target = ClaimTarget(id: Id) | EvidenceTarget(id: Id) | ValidationTarget(id: Id) | BranchTarget(id: Id) | OtherTarget(id: Id)

  datatype Ref = Ref(target: Target, role: string)

  datatype Invocation = Invocation(instrument: string, status: string)

  datatype Checkpoint = Checkpoint(project: Id, thread: Option<Id>, branch: Option<Id>, parents: seq<Id>,
                                   created: int, refs: seq<Ref>, invocations: seq<Invocation>)

  datatype Status = Open | Merged | Closed | DeadEnd

  datatype Branch = Branch(project: Id, thread: Option<Id>, forkedFrom: Id, status: Status)

  datatype State = State(projects: set<Id>, threads: map<Id, Id>, checkpoints: map<Id, Checkpoint>, branches: map<Id, Branch>)

  datatype Error = NotFound | WrongProject | NotOpen | BadReference | NoSource | SourceIsTarget | EmptySource | TooFewParents

  datatype Payload = Payload(thread: Option<Id>, branch: Option<Id>, parents: seq<Id>, refs: seq<Ref>,
                             invocations: seq<Invocation>, refError: bool)

  // ----- create_checkpoint -----

  function CheckThread(s: State, project: Id, thread: Option<Id>): Option<Error> {
    if thread.None? then None
    else if thread.value !in s.threads then Some(NotFound)
    else if s.threads[thread.value] != project then Some(WrongProject)
    else None
  }

  function CheckOpenBranch(s: State, project: Id, branch: Id): Option<Error> {
    if branch !in s.branches then Some(NotFound)
    else if s.branches[branch].project != project then Some(WrongProject)
    else if !s.branches[branch].status.Open? then Some(NotOpen)
    else None
  }

  function CheckParent(s: State, project: Id, parent: Id): Option<Error> {
    if parent !in s.checkpoints then Some(NotFound)
    else if s.checkpoints[parent].project != project then Some(WrongProject)
    else None
  }

  /** The ids in order of first appearance. */
  function Distinct(ids: seq<Id>): seq<Id> {
    if ids == [] then []
    else
      var init, last := Distinct(ids[..|ids| - 1]), ids[|ids| - 1];
      if last in init then init else init + [last]
  }

  /** The first complaint about a list of parents. */
  function CheckParents(s: State, project: Id, parents: seq<Id>): Option<Error> {
    if parents == [] then None
    else
      var first := CheckParents(s, project, parents[..|parents| - 1]);
      if first.Some? then first else CheckParent(s, project, parents[|parents| - 1])
  }

  /** The first complaint about a payload, in the order the service raises them. */
  function CheckPayload(s: State, project: Id, p: Payload): Option<Error> {
    if project !in s.projects then Some(NotFound)
    else if CheckThread(s, project, p.thread).Some? then CheckThread(s, project, p.thread)
    else if p.branch.Some? && CheckOpenBranch(s, project, p.branch.value).Some? then
      CheckOpenBranch(s, project, p.branch.value)
    else if CheckParents(s, project, p.parents).Some? then CheckParents(s, project, p.parents)
    else if p.refError then Some(BadReference)
    else None
  }

  function CheckpointOf(project: Id, p: Payload, now: int): Checkpoint {
    Checkpoint(project, p.thread, p.branch, Distinct(p.parents), now, p.refs, p.invocations)
  }

  /** Append one checkpoint under the fresh id `id`, or refuse. */
  function CreateCheckpoint(s: State, project: Id, p: Payload, id: Id, now: int): Result<State, Error> {
    var complaint := CheckPayload(s, project, p);
    if complaint.Some? then Err(complaint.value)
    else Ok(s.(checkpoints := s.checkpoints[id := CheckpointOf(project, p, now)]))
  }

  // ----- create_branch, close_branch -----

  function ForkPayload(thread: Option<Id>, branch: Id, from: Id): Payload {
    Payload(thread, Some(branch), [from], [Ref(BranchTarget(branch), "created")], [], false)
  }

  function CreateBranch(s: State, project: Id, from: Id, thread: Option<Id>, branch: Id, id: Id, now: int): Result<State, Error> {
    if project !in s.projects then Err(NotFound)
    else if CheckParent(s, project, from).Some? then Err(CheckParent(s, project, from).value)
    else if CheckThread(s, project, thread).Some? then Err(CheckThread(s, project, thread).value)
    else CreateCheckpoint(s.(branches := s.branches[branch := Branch(project, thread, from, Open)]),
                          project, ForkPayload(thread, branch, from), id, now)
  }

  function ClosePayload(thread: Option<Id>, branch: Id): Payload {
    Payload(thread, None, [], [Ref(BranchTarget(branch), "closed")], [], false)
  }

  /** Flip an open branch to its closing status; the event is recorded on the main line. */
  function CloseBranch(s: State, branch: Id, deadEnd: bool, id: Id, now: int): Result<State, Error> {
    if branch !in s.branches then Err(NotFound)
    else if !s.branches[branch].status.Open? then Err(NotOpen)
    else
      var b := s.branches[branch];
      CreateCheckpoint(s.(branches := s.branches[branch := b.(status := if deadEnd then DeadEnd else Status.Closed)]),
                       b.project, ClosePayload(b.thread, branch), id, now)
  }

  // ----- merge_branches -----

  function OnBranch(s: State, branch: Id): set<Id> {
    set c | c in s.checkpoints && s.checkpoints[c].branch == Some(branch)
  }

  /** The main line of a project, narrowed to one thread when the merge has one. */
  function OnMainLine(s: State, project: Id, thread: Option<Id>): set<Id> {
    set c | c in s.checkpoints && s.checkpoints[c].project == project && s.checkpoints[c].branch.None?
            && (thread.None? || s.checkpoints[c].thread == thread)
  }

  /** A newest checkpoint of a line, if it has any. Creation times may tie; then any of them may be read. */
  ghost predicate IsHead(s: State, line: set<Id>, head: Option<Id>) {
    && line <= s.checkpoints.Keys
    && (head.None? <==> line == {})
    && (head.Some? ==> && head.value in line
                       && forall c :: c in line ==> s.checkpoints[c].created <= s.checkpoints[head.value].created)
  }

  /** A merge request, and the heads its transaction reads: one per source branch, and the target's. */
  datatype Merge = Merge(sources: seq<Id>, target: Option<Id>, thread: Option<Id>, refs: seq<Ref>, claimError: bool,
                         heads: map<Id, Option<Id>>, targetHead: Option<Id>)

  function CheckSources(s: State, project: Id, sources: seq<Id>): Option<Error> {
    if sources == [] then None
    else
      var first := CheckSources(s, project, sources[..|sources| - 1]);
      if first.Some? then first else CheckOpenBranch(s, project, sources[|sources| - 1])
  }

  /** The thread the merge lands on: the requested one, or the one all sources share. */
  function MergeThread(s: State, m: Merge): Option<Id>
    requires forall b :: b in m.sources ==> b in s.branches
  {
    if m.thread.Some? || m.sources == [] then m.thread
    else if forall b :: b in m.sources ==> s.branches[b].thread == s.branches[m.sources[0]].thread
    then s.branches[m.sources[0]].thread else None
  }

  function HeadOf(m: Merge, branch: Id): Option<Id> {
    if branch in m.heads then m.heads[branch] else None
  }

  /** The heads of the sources in order; none when some source has no checkpoint. */
  function SourceHeads(m: Merge, sources: seq<Id>): Option<seq<Id>> {
    if sources == [] then Some([])
    else
      var init, last := SourceHeads(m, sources[..|sources| - 1]), HeadOf(m, sources[|sources| - 1]);
      if init.None? || last.None? then None else Some(init.value + [last.value])
  }

  function MergeParents(m: Merge): Option<seq<Id>> {
    var heads := SourceHeads(m, Distinct(m.sources));
    if heads.None? then None
    else Some(Distinct(heads.value + if m.targetHead.Some? then [m.targetHead.value] else []))
  }

  function MarkMerged(branches: map<Id, Branch>, sources: seq<Id>): map<Id, Branch> {
    map b | b in branches :: if b in sources then branches[b].(status := Merged) else branches[b]
  }

  /** The first complaint about a merge. */
  function CheckMerge(s: State, project: Id, m: Merge): Option<Error> {
    if project !in s.projects then Some(NotFound)
    else if m.sources == [] then Some(NoSource)
    else if m.target.Some? && m.target.value in m.sources then Some(SourceIsTarget)
    else if CheckSources(s, project, Distinct(m.sources)).Some? then CheckSources(s, project, Distinct(m.sources))
    else if m.target.Some? && CheckOpenBranch(s, project, m.target.value).Some? then
      CheckOpenBranch(s, project, m.target.value)
    else if CheckThread(s, project, m.thread).Some? then CheckThread(s, project, m.thread)
    else if MergeParents(m).None? then Some(EmptySource)
    else if |MergeParents(m).value| < 2 then Some(TooFewParents)
    else if m.claimError then Some(NotFound)
    else None
  }

  function MergePayload(thread: Option<Id>, m: Merge, parents: seq<Id>): Payload {
    Payload(thread, m.target, parents, m.refs, [], false)
  }

  function MergeBranches(s: State, project: Id, m: Merge, id: Id, now: int): Result<State, Error> {
    var complaint := CheckMerge(s, project, m);
    if complaint.Some? then Err(complaint.value)
    else
      SourcesLoaded(s, project, m.sources);
      CreateCheckpoint(s.(branches := MarkMerged(s.branches, m.sources)), project,
                       MergePayload(MergeThread(s, m), m, MergeParents(m).value), id, now)
  }

  lemma {:induction false} DistinctSame(ids: seq<Id>, x: Id)
    ensures x in Distinct(ids) <==> x in ids
  {
    if ids != [] {
      DistinctSame(ids[..|ids| - 1], x);
      assert ids == ids[..|ids| - 1] + [ids[|ids| - 1]];
    }
  }

  lemma {:induction false} DistinctIsDistinct(ids: seq<Id>)
    ensures forall i, j :: 0 <= i < j < |Distinct(ids)| ==> Distinct(ids)[i] != Distinct(ids)[j]
  {
    if ids != [] {
      DistinctIsDistinct(ids[..|ids| - 1]);
    }
  }

  lemma {:induction false} CheckedSource(s: State, project: Id, sources: seq<Id>, b: Id)
    requires CheckSources(s, project, sources).None? && b in sources
    ensures CheckOpenBranch(s, project, b).None?
  {
    if b != sources[|sources| - 1] {
      assert sources == sources[..|sources| - 1] + [sources[|sources| - 1]];
      CheckedSource(s, project, sources[..|sources| - 1], b);
    }
  }

  lemma {:induction false} CheckedParent(s: State, project: Id, parents: seq<Id>, p: Id)
    requires CheckParents(s, project, parents).None? && p in parents
    ensures CheckParent(s, project, p).None?
  {
    if p != parents[|parents| - 1] {
      assert parents == parents[..|parents| - 1] + [parents[|parents| - 1]];
      CheckedParent(s, project, parents[..|parents| - 1], p);
    }
  }

  lemma SourcesLoaded(s: State, project: Id, sources: seq<Id>)
    requires CheckSources(s, project, Distinct(sources)).None?
    ensures forall b :: b in sources ==> b in s.branches && s.branches[b].project == project && s.branches[b].status.Open?
  {
    forall b | b in sources ensures CheckOpenBranch(s, project, b).None? {
      DistinctSame(sources, b);
      CheckedSource(s, project, Distinct(sources), b);
    }
  }

  // ----- operations as one datatype -----

  datatype Op =
    | CheckpointOp(project: Id, payload: Payload, id: Id, now: int)
    | BranchOp(project: Id, from: Id, thread: Option<Id>, branch: Id, id: Id, now: int)
    | CloseOp(closing: Id, deadEnd: bool, id: Id, now: int)
    | MergeOp(project: Id, merge: Merge, id: Id, now: int)

  /** Drawn ids are new, and a merge reads newest checkpoints. */
  ghost predicate Possible(s: State, op: Op) {
    && op.id !in s.checkpoints
    && (op.BranchOp? ==> op.branch !in s.branches)
    && (op.MergeOp? ==> HeadsRead(s, op.project, op.merge))
  }

  ghost predicate HeadsRead(s: State, project: Id, m: Merge) {
    && (forall b :: b in m.sources ==> IsHead(s, OnBranch(s, b), HeadOf(m, b)))
    && (m.target.Some? ==> IsHead(s, OnBranch(s, m.target.value), m.targetHead))
    && (m.target.None? && (forall b :: b in m.sources ==> b in s.branches) ==>
          IsHead(s, OnMainLine(s, project, MergeThread(s, m)), m.targetHead))
  }

  function Apply(s: State, op: Op): Result<State, Error> {
    match op
    case CheckpointOp(project, payload, id, now) => CreateCheckpoint(s, project, payload, id, now)
    case BranchOp(project, from, thread, branch, id, now) => CreateBranch(s, project, from, thread, branch, id, now)
    case CloseOp(branch, deadEnd, id, now) => CloseBranch(s, branch, deadEnd, id, now)
    case MergeOp(project, m, id, now) => MergeBranches(s, project, m, id, now)
  }

  /** A refused operation leaves the ledger as it was. */
  function After(s: State, op: Op): State {
    match Apply(s, op)
    case Ok(t) => t
    case Err(_) => s
  }
}
