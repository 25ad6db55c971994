/** The ledger services in place: each method is one transaction over the stored rows, and does what
    the corresponding function of module `Ledger` says. */
module LedgerService {
  import opened Common
  import opened Ledger

  class Store {
    const projects: set<Id>
    const threads: map<Id, Id>
    var checkpoints: map<Id, Checkpoint>
    var branches: map<Id, Branch>

    constructor (projects: set<Id>, threads: map<Id, Id>)
      ensures Contents() == State(projects, threads, map[], map[])
    {
      this.projects, this.threads := projects, threads;
      checkpoints, branches := map[], map[];
    }

    function Contents(): State
      reads this
    {
      State(projects, threads, checkpoints, branches)
    }

    /** Parents in order of first appearance, each checked once; the first complaint wins. */
    method ValidateParents(project: Id, parentIds: seq<Id>) returns (r: Result<seq<Id>, Error>)
      ensures r == if CheckParents(Contents(), project, parentIds).Some?
                   then Err(CheckParents(Contents(), project, parentIds).value) else Ok(Distinct(parentIds))
    {
      var parents: seq<Id> := [];
      for i := 0 to |parentIds|
        invariant parents == Distinct(parentIds[..i])
        invariant CheckParents(Contents(), project, parentIds[..i]).None?
      {
        var parent := parentIds[i];
        assert parentIds[..i + 1][..i] == parentIds[..i];
        DistinctSame(parentIds[..i], parent);
        if parent in parents {
          CheckedParent(Contents(), project, parentIds[..i], parent);
          continue;
        }
        if parent !in checkpoints {
          ComplaintStays(Contents(), project, parentIds, i + 1);
          return Err(NotFound);
        }
        if checkpoints[parent].project != project {
          ComplaintStays(Contents(), project, parentIds, i + 1);
          return Err(WrongProject);
        }
        parents := parents + [parent];
      }
      assert parentIds[..|parentIds|] == parentIds;
      return Ok(parents);
    }

    /** The single writer of checkpoints. */
    method CreateCheckpoint(project: Id, payload: Payload, id: Id, now: int) returns (r: Result<(), Error>)
      modifies this`checkpoints
      ensures var spec := Ledger.CreateCheckpoint(old(Contents()), project, payload, id, now);
              match r
              case Ok(_) => spec == Ok(Contents())
              case Err(e) => spec == Err(e) && Contents() == old(Contents())
    {
      if project !in projects {
        return Err(NotFound);
      }
      if payload.thread.Some? {
        if payload.thread.value !in threads {
          return Err(NotFound);
        }
        if threads[payload.thread.value] != project {
          return Err(WrongProject);
        }
      }
      if payload.branch.Some? {
        var complaint := CheckOpenBranch(Contents(), project, payload.branch.value);
        if complaint.Some? {
          return Err(complaint.value);
        }
      }
      var parents := ValidateParents(project, payload.parents);
      if parents.Err? {
        return Err(parents.error);
      }
      if payload.refError {
        return Err(BadReference);
      }
      checkpoints := checkpoints[id := Checkpoint(project, payload.thread, payload.branch, parents.value, now,
                                                  payload.refs, payload.invocations)];
      return Ok(());
    }

    /** Open a branch and record its first checkpoint; both are written or neither. */
    method CreateBranch(project: Id, from: Id, thread: Option<Id>, branch: Id, id: Id, now: int) returns (r: Result<(), Error>)
      modifies this`checkpoints, this`branches
      ensures var spec := Ledger.CreateBranch(old(Contents()), project, from, thread, branch, id, now);
              match r
              case Ok(_) => spec == Ok(Contents())
              case Err(e) => spec == Err(e) && Contents() == old(Contents())
    {
      if project !in projects {
        return Err(NotFound);
      }
      var complaint := CheckParent(Contents(), project, from);
      if complaint.Some? {
        return Err(complaint.value);
      }
      complaint := CheckThread(Contents(), project, thread);
      if complaint.Some? {
        return Err(complaint.value);
      }
      var before := branches;
      branches := branches[branch := Branch(project, thread, from, Open)];
      r := CreateCheckpoint(project, ForkPayload(thread, branch, from), id, now);
      if r.Err? {
        branches := before;
      }
    }

    /** Flip an open branch to its closing status and record the event on the main line. */
    method CloseBranch(branch: Id, deadEnd: bool, id: Id, now: int) returns (r: Result<(), Error>)
      modifies this`checkpoints, this`branches
      ensures var spec := Ledger.CloseBranch(old(Contents()), branch, deadEnd, id, now);
              match r
              case Ok(_) => spec == Ok(Contents())
              case Err(e) => spec == Err(e) && Contents() == old(Contents())
    {
      if branch !in branches {
        return Err(NotFound);
      }
      var b := branches[branch];
      if !b.status.Open? {
        return Err(NotOpen);
      }
      var before := branches;
      branches := branches[branch := b.(status := if deadEnd then DeadEnd else Status.Closed)];
      r := CreateCheckpoint(b.project, ClosePayload(b.thread, branch), id, now);
      if r.Err? {
        branches := before;
      }
    }

    /** Synthesize the sources into the target line: collect distinct sources and parents, flip the
        sources to merged, record the merge node. */
    method MergeBranches(project: Id, m: Merge, id: Id, now: int) returns (r: Result<(), Error>)
      modifies this`checkpoints, this`branches
      ensures var spec := Ledger.MergeBranches(old(Contents()), project, m, id, now);
              match r
              case Ok(_) => spec == Ok(Contents())
              case Err(e) => spec == Err(e) && Contents() == old(Contents())
    {
      var loaded := LoadMerge(project, m);
      if loaded.Err? {
        return Err(loaded.error);
      }
      SourcesLoaded(Contents(), project, m.sources);
      var thread := MergeThread(Contents(), m);
      var before := branches;
      FlipSources(m.sources);
      r := CreateCheckpoint(project, MergePayload(thread, m, loaded.value), id, now);
      if r.Err? {
        branches := before;
      }
    }

    /** Everything a merge reads and checks before it writes; the distinct parents when it may proceed. */
    method LoadMerge(project: Id, m: Merge) returns (r: Result<seq<Id>, Error>)
      ensures var complaint := CheckMerge(Contents(), project, m);
              r == if complaint.Some? then Err(complaint.value)
                   else if MergeParents(m).Some? then Ok(MergeParents(m).value) else Err(EmptySource)
    {
      if project !in projects {
        return Err(NotFound);
      }
      var sources := DedupIds(m.sources);
      DistinctEmpty(m.sources);
      if sources == [] {
        return Err(NoSource);
      }
      if m.target.Some? && m.target.value in m.sources {
        return Err(SourceIsTarget);
      }
      var complaint := LoadSources(project, sources);
      if complaint.Some? {
        return Err(complaint.value);
      }
      if m.target.Some? {
        complaint := CheckOpenBranch(Contents(), project, m.target.value);
        if complaint.Some? {
          return Err(complaint.value);
        }
      }
      complaint := CheckThread(Contents(), project, m.thread);
      if complaint.Some? {
        return Err(complaint.value);
      }
      var parents := CollectParents(m, sources);
      if parents.None? {
        return Err(EmptySource);
      }
      if |parents.value| < 2 {
        return Err(TooFewParents);
      }
      if m.claimError {
        return Err(NotFound);
      }
      return Ok(parents.value);
    }

    /** The first complaint about the sources, in order. */
    method LoadSources(project: Id, sources: seq<Id>) returns (complaint: Option<Error>)
      ensures complaint == CheckSources(Contents(), project, sources)
    {
      for i := 0 to |sources|
        invariant CheckSources(Contents(), project, sources[..i]).None?
      {
        assert sources[..i + 1][..i] == sources[..i];
        complaint := CheckOpenBranch(Contents(), project, sources[i]);
        if complaint.Some? {
          SourceComplaintStays(Contents(), project, sources, i + 1);
          return;
        }
      }
      assert sources[..|sources|] == sources;
      return None;
    }

    method FlipSources(sources: seq<Id>)
      requires forall b :: b in sources ==> b in branches
      modifies this`branches
      ensures branches == MarkMerged(old(branches), sources)
    {
      for i := 0 to |sources|
        invariant branches == MarkMerged(old(branches), sources[..i])
      {
        assert sources[..i + 1] == sources[..i] + [sources[i]];
        assert sources[i] in sources;
        branches := branches[sources[i] := branches[sources[i]].(status := Merged)];
      }
      assert sources[..|sources|] == sources;
    }
  }

  /** Ids in order of first appearance. */
  method DedupIds(ids: seq<Id>) returns (out: seq<Id>)
    ensures out == Distinct(ids)
  {
    out := [];
    for i := 0 to |ids|
      invariant out == Distinct(ids[..i])
    {
      assert ids[..i + 1][..i] == ids[..i];
      if ids[i] !in out {
        out := out + [ids[i]];
      }
    }
    assert ids[..|ids|] == ids;
  }

  /** The heads of the sources, then the target's, without repetition. */
  method CollectParents(m: Merge, sources: seq<Id>) returns (parents: Option<seq<Id>>)
    requires sources == Distinct(m.sources)
    ensures parents == MergeParents(m)
  {
    var heads: seq<Id> := [];
    for i := 0 to |sources|
      invariant SourceHeads(m, sources[..i]) == Some(heads)
    {
      assert sources[..i + 1][..i] == sources[..i];
      var head := HeadOf(m, sources[i]);
      if head.None? {
        EmptyHeadStays(m, sources, i + 1);
        return None;
      }
      heads := heads + [head.value];
    }
    assert sources[..|sources|] == sources;
    if m.targetHead.Some? {
      heads := heads + [m.targetHead.value];
    } else {
      assert heads + [] == heads;
    }
    var distinct := DedupIds(heads);
    return Some(distinct);
  }

  lemma {:induction false} EmptyHeadStays(m: Merge, sources: seq<Id>, n: nat)
    requires n <= |sources| && SourceHeads(m, sources[..n]).None?
    ensures SourceHeads(m, sources).None?
  {
    if n < |sources| {
      assert sources[..|sources| - 1][..n] == sources[..n];
      EmptyHeadStays(m, sources[..|sources| - 1], n);
    } else {
      assert sources[..n] == sources;
    }
  }

  lemma DistinctEmpty(ids: seq<Id>)
    ensures Distinct(ids) == [] <==> ids == []
  {
    if ids != [] {
      DistinctSame(ids, ids[0]);
      assert ids[0] in ids;
    }
  }

  lemma {:induction false} ComplaintStays(s: State, project: Id, parents: seq<Id>, n: nat)
    requires n <= |parents| && CheckParents(s, project, parents[..n]).Some?
    ensures CheckParents(s, project, parents) == CheckParents(s, project, parents[..n])
  {
    if n < |parents| {
      assert parents[..|parents| - 1][..n] == parents[..n];
      ComplaintStays(s, project, parents[..|parents| - 1], n);
    } else {
      assert parents[..n] == parents;
    }
  }

  lemma {:induction false} SourceComplaintStays(s: State, project: Id, sources: seq<Id>, n: nat)
    requires n <= |sources| && CheckSources(s, project, sources[..n]).Some?
    ensures CheckSources(s, project, sources) == CheckSources(s, project, sources[..n])
  {
    if n < |sources| {
      assert sources[..|sources| - 1][..n] == sources[..n];
      SourceComplaintStays(s, project, sources[..|sources| - 1], n);
    } else {
      assert sources[..n] == sources;
    }
  }
}
