/** Validation signal of a claim, and the blame chain that replays it along the graph. */
module Blame {
  import opened Common
  import opened Graph
  import Ledger

  datatype Outcome = Passed | Failed | Inconclusive | NeedsReproduction | Contradicts | Retract

  datatype Signal = NoSignal | Contested | Validated

  /** One validation of the claim and the checkpoint that recorded it, if any. A claim's validations
      are listed oldest first. */
  datatype Validation = Validation(id: Id, outcome: Outcome, recorder: Option<Id>)

  // ----- compute_signal -----

  predicate Contradiction(v: Validation) {
    v.outcome.Contradicts? || v.outcome.Failed?
  }

  /** The latest contradiction or retraction decides. */
  predicate IsContested(vs: seq<Validation>) {
    vs != [] &&
    var last := vs[|vs| - 1];
    Contradiction(last) || (!last.outcome.Retract? && IsContested(vs[..|vs| - 1]))
  }

  predicate IsPassed(vs: seq<Validation>) {
    vs != [] && (vs[|vs| - 1].outcome.Passed? || IsPassed(vs[..|vs| - 1]))
  }

  function SignalOf(vs: seq<Validation>): Signal {
    if IsContested(vs) then Contested else if IsPassed(vs) then Validated else NoSignal
  }

  method ComputeSignal(validations: seq<Validation>) returns (signal: Signal)
    ensures signal == SignalOf(validations)
  {
    var contested, validated := false, false;
    for i := 0 to |validations|
      invariant contested <==> IsContested(validations[..i])
      invariant validated <==> IsPassed(validations[..i])
    {
      assert validations[..i + 1][..i] == validations[..i];
      if Contradiction(validations[i]) {
        contested := true;
      } else if validations[i].outcome.Retract? {
        contested := false;
      } else if validations[i].outcome.Passed? {
        validated := true;
      }
    }
    assert validations[..|validations|] == validations;
    return if contested then Contested else if validated then Validated else NoSignal;
  }

  /** What the signal says of a history: contested means some contradiction or failure has no later
      retraction; validated means it is not contested and something passed. */
  lemma {:induction false} SignalMeans(vs: seq<Validation>)
    ensures SignalOf(vs) == Contested <==>
            exists i :: 0 <= i < |vs| && Contradiction(vs[i]) && forall j :: i < j < |vs| ==> !vs[j].outcome.Retract?
    ensures SignalOf(vs) == Validated <==>
            SignalOf(vs) != Contested && exists i :: 0 <= i < |vs| && vs[i].outcome.Passed?
  {
    if vs != [] {
      var n := |vs| - 1;
      SignalMeans(vs[..n]);
      if IsContested(vs) {
        if Contradiction(vs[n]) {
          assert Contradiction(vs[n]);
        } else {
          var i :| 0 <= i < n && Contradiction(vs[..n][i]) && forall j :: i < j < n ==> !vs[..n][j].outcome.Retract?;
          assert Contradiction(vs[i]);
          assert forall j :: i < j < n ==> vs[j] == vs[..n][j];
        }
      } else if !vs[n].outcome.Retract? {
        forall i | 0 <= i < n && Contradiction(vs[i]) ensures exists j :: i < j < |vs| && vs[j].outcome.Retract? {
          assert vs[..n][i] == vs[i];
          var j :| i < j < n && vs[..n][j].outcome.Retract?;
          assert vs[j].outcome.Retract?;
        }
      }
      PassedMeans(vs);
    }
  }

  lemma {:induction false} PassedMeans(vs: seq<Validation>)
    ensures IsPassed(vs) <==> exists i :: 0 <= i < |vs| && vs[i].outcome.Passed?
  {
    if vs != [] {
      var n := |vs| - 1;
      PassedMeans(vs[..n]);
      if IsPassed(vs[..n]) {
        var i :| 0 <= i < n && vs[..n][i].outcome.Passed?;
        assert vs[i].outcome.Passed?;
      }
    }
  }

  // ----- the signal at a set of checkpoints -----

  /** The validations recorded on a checkpoint of `ids`, in order. */
  function Visible(vs: seq<Validation>, ids: set<Id>): seq<Validation> {
    if vs == [] then []
    else
      var last := vs[|vs| - 1];
      if last.recorder.Some? && last.recorder.value in ids then Visible(vs[..|vs| - 1], ids) + [last]
      else Visible(vs[..|vs| - 1], ids)
  }

  function Recorded(vs: seq<Validation>): seq<Validation> {
    if vs == [] then []
    else
      var last := vs[|vs| - 1];
      if last.recorder.Some? then Recorded(vs[..|vs| - 1]) + [last] else Recorded(vs[..|vs| - 1])
  }

  function SignalAt(vs: seq<Validation>, ids: set<Id>): Signal {
    SignalOf(Visible(vs, ids))
  }

  method FilterVisible(validations: seq<Validation>, ids: set<Id>) returns (visible: seq<Validation>)
    ensures visible == Visible(validations, ids)
  {
    visible := [];
    for i := 0 to |validations|
      invariant visible == Visible(validations[..i], ids)
    {
      assert validations[..i + 1][..i] == validations[..i];
      if validations[i].recorder.Some? && validations[i].recorder.value in ids {
        visible := visible + [validations[i]];
      }
    }
    assert validations[..|validations|] == validations;
  }

  // ----- references: which checkpoints touch the claim, and who recorded what -----

  datatype PlacedRef = PlacedRef(checkpoint: Id, ref: Ledger.Ref)

  /** One reading of a claim: the project's checkpoints, all references, the evidence linked to the claim
      and the claim's validations, oldest first. */
  datatype Reading = Reading(checkpoints: set<Id>, instrumented: set<Id>, refs: seq<PlacedRef>, claim: Id,
                             evidence: set<Id>, verdicts: seq<Verdict>)

  datatype Verdict = Verdict(id: Id, outcome: Outcome)

  function VerdictIds(verdicts: seq<Verdict>): set<Id> {
    set v | v in verdicts :: v.id
  }

  /** The references on the project's own checkpoints. */
  function RefsOn(refs: seq<PlacedRef>, checkpoints: set<Id>): seq<PlacedRef> {
    if refs == [] then []
    else
      var rest, last := RefsOn(refs[..|refs| - 1], checkpoints), refs[|refs| - 1];
      if last.checkpoint in checkpoints then rest + [last] else rest
  }

  /** How one reference on `c` touches the claim: by naming it, evidence linked to it, or one of its
      validations. */
  function RoleOf(p: PlacedRef, c: Id, r: Reading): Option<string> {
    if p.checkpoint != c then None
    else match p.ref.target
      case ClaimTarget(id) => if id == r.claim then Some(p.ref.role) else None
      case EvidenceTarget(id) => if id in r.evidence then Some("evidence") else None
      case ValidationTarget(id) => if id in VerdictIds(r.verdicts) then Some("validated") else None
      case _ => None
  }

  predicate Touches(refs: seq<PlacedRef>, c: Id, r: Reading) {
    exists i :: 0 <= i < |refs| && RoleOf(refs[i], c, r).Some?
  }

  predicate HasRole(refs: seq<PlacedRef>, c: Id, r: Reading, role: string) {
    exists i :: 0 <= i < |refs| && RoleOf(refs[i], c, r) == Some(role)
  }

  /** The roles of a touching checkpoint, with "instrument" added only when there is another. */
  method ClassifyTouch(refs: seq<PlacedRef>, c: Id, r: Reading) returns (touch: Option<set<string>>)
    ensures touch.Some? <==> Touches(refs, c, r)
    ensures touch.Some? ==> forall role ::
              role in touch.value <==> (role == "instrument" && c in r.instrumented) || HasRole(refs, c, r, role)
  {
    var roles: set<string> := {};
    var touches := false;
    for i := 0 to |refs|
      invariant touches <==> Touches(refs[..i], c, r)
      invariant forall role :: role in roles <==> HasRole(refs[..i], c, r, role)
    {
      OneMoreRef(refs, i, c, r);
      var role := RoleOf(refs[i], c, r);
      if role.Some? {
        roles := roles + {role.value};
        touches := true;
      }
    }
    assert refs[..|refs|] == refs;
    if !touches {
      return None;
    }
    return Some(if c in r.instrumented then roles + {"instrument"} else roles);
  }

  lemma OneMoreRef(refs: seq<PlacedRef>, i: nat, c: Id, r: Reading)
    requires i < |refs|
    ensures Touches(refs[..i + 1], c, r) <==> Touches(refs[..i], c, r) || RoleOf(refs[i], c, r).Some?
    ensures forall role :: HasRole(refs[..i + 1], c, r, role) <==> HasRole(refs[..i], c, r, role) || RoleOf(refs[i], c, r) == Some(role)
  {
    assert forall k :: 0 <= k < i ==> refs[..i + 1][k] == refs[..i][k];
    assert refs[..i + 1][i] == refs[i];
  }

  ghost function TouchingOf(r: Reading): set<Id> {
    set c | c in r.checkpoints && Touches(RefsOn(r.refs, r.checkpoints), c, r)
  }

  predicate IsRecording(p: PlacedRef, v: Id) {
    p.ref.target == Ledger.ValidationTarget(v) && p.ref.role == "recorded"
  }

  /** The checkpoint of the first reference that records the validation. */
  function RecorderOf(refs: seq<PlacedRef>, v: Id): Option<Id> {
    if refs == [] then None
    else
      var first := RecorderOf(refs[..|refs| - 1], v);
      if first.Some? then first
      else if IsRecording(refs[|refs| - 1], v) then Some(refs[|refs| - 1].checkpoint)
      else None
  }

  /** The validations with their recorders. */
  function Attach(verdicts: seq<Verdict>, refs: seq<PlacedRef>): (vs: seq<Validation>)
    ensures |vs| == |verdicts|
    ensures forall i :: 0 <= i < |vs| ==> vs[i] == Validation(verdicts[i].id, verdicts[i].outcome, RecorderOf(refs, verdicts[i].id))
  {
    if verdicts == [] then []
    else
      var last := verdicts[|verdicts| - 1];
      Attach(verdicts[..|verdicts| - 1], refs) + [Validation(last.id, last.outcome, RecorderOf(refs, last.id))]
  }

  function ValidationsOf(r: Reading): seq<Validation> {
    Attach(r.verdicts, RefsOn(r.refs, r.checkpoints))
  }

  /** Recording a validation of the claim is one way of touching it. */
  lemma {:induction false} RecorderTouches(refs: seq<PlacedRef>, r: Reading, v: Id)
    requires v in VerdictIds(r.verdicts) && RecorderOf(refs, v).Some?
    ensures Touches(refs, RecorderOf(refs, v).value, r)
    ensures exists p :: p in refs && p.checkpoint == RecorderOf(refs, v).value
  {
    var n := |refs| - 1;
    if RecorderOf(refs[..n], v).Some? {
      RecorderTouches(refs[..n], r, v);
      var c := RecorderOf(refs, v).value;
      var i :| 0 <= i < n && RoleOf(refs[..n][i], c, r).Some?;
      assert RoleOf(refs[i], c, r).Some?;
    } else {
      assert RoleOf(refs[n], refs[n].checkpoint, r) == Some("validated");
    }
  }

  lemma {:induction false} RefsOnCheckpoints(refs: seq<PlacedRef>, checkpoints: set<Id>)
    ensures forall p :: p in RefsOn(refs, checkpoints) ==> p.checkpoint in checkpoints
  {
    if refs != [] {
      RefsOnCheckpoints(refs[..|refs| - 1], checkpoints);
    }
  }

  /** So every recorded validation was recorded on a checkpoint that blame lists. */
  lemma RecordersAreListed(r: Reading, ordered: seq<Id>)
    requires forall c :: c in TouchingOf(r) ==> c in ordered
    ensures RecordedOn(ordered, ValidationsOf(r))
  {
    var refs := RefsOn(r.refs, r.checkpoints);
    RefsOnCheckpoints(r.refs, r.checkpoints);
    forall v | v in ValidationsOf(r) && v.recorder.Some? ensures v.recorder.value in ordered {
      var i :| 0 <= i < |r.verdicts| && ValidationsOf(r)[i] == v;
      assert r.verdicts[i] in r.verdicts && v.id in VerdictIds(r.verdicts);
      RecorderTouches(refs, r, v.id);
      assert v.recorder.value in TouchingOf(r);
    }
  }

  // ----- the chain -----

  /** One step of the chain. `from` is reported only when the signal moved. */
  datatype Step = Step(checkpoint: Id, after: Signal, moved: bool, from: Option<Signal>)

  ghost function After(m: ParentMap, vs: seq<Validation>, c: Id): Signal {
    SignalAt(vs, Ancestors(m, c))
  }

  ghost function BeforeStep(m: ParentMap, vs: seq<Validation>, c: Id): Signal {
    SignalAt(vs, Ancestors(m, c) - {c})
  }

  ghost function StepOf(m: ParentMap, vs: seq<Validation>, c: Id): Step {
    var before, after := BeforeStep(m, vs, c), After(m, vs, c);
    Step(c, after, before != after, if before != after then Some(before) else None)
  }

  method BlameChain(m: ParentMap, created: Times, touching: set<Id>, validations: seq<Validation>) returns (chain: seq<Step>, ordered: seq<Id>)
    ensures IsListing(created, touching, ordered)
    ensures IsChain(m, validations, ordered, chain)
  {
    ordered := SortCheckpointIds(created, touching);
    chain := [];
    for i := 0 to |ordered|
      invariant |chain| == i
      invariant forall j :: 0 <= j < i ==> chain[j] == StepOf(m, validations, ordered[j])
    {
      var checkpoint := ordered[i];
      var ancestors := WalkAncestors(checkpoint, m);
      var beforeIds := ancestors - {checkpoint};
      var visible := FilterVisible(validations, ancestors);
      var after := ComputeSignal(visible);
      var before := NoSignal;
      if beforeIds != {} {
        visible := FilterVisible(validations, beforeIds);
        before := ComputeSignal(visible);
      } else {
        NothingVisible(validations, beforeIds);
      }
      chain := chain + [Step(checkpoint, after, before != after, if before != after then Some(before) else None)];
    }
  }

  ghost predicate IsChain(m: ParentMap, vs: seq<Validation>, ordered: seq<Id>, chain: seq<Step>) {
    |chain| == |ordered| && forall i :: 0 <= i < |chain| ==> chain[i] == StepOf(m, vs, ordered[i])
  }

  /** Read a claim's blame from one list of references: who recorded each validation, which checkpoints
      touch the claim and how, and the chain over them. */
  method BlameClaim(m: ParentMap, created: Times, r: Reading)
    returns (chain: seq<Step>, ordered: seq<Id>, touching: map<Id, set<string>>)
    ensures touching.Keys == TouchingOf(r)
    ensures forall c, role :: c in touching ==>
              (role in touching[c] <==> (role == "instrument" && c in r.instrumented)
                                        || HasRole(RefsOn(r.refs, r.checkpoints), c, r, role))
    ensures IsListing(created, TouchingOf(r), ordered)
    ensures IsChain(m, ValidationsOf(r), ordered, chain)
  {
    var refs := SelectRefs(r.refs, r.checkpoints);
    var validations := AttachRecorders(r.verdicts, refs);
    touching := map[];
    var todo := r.checkpoints;
    while todo != {}
      invariant todo <= r.checkpoints
      invariant touching.Keys == set c | c in r.checkpoints - todo && Touches(refs, c, r)
      invariant forall c, role :: c in touching ==>
                  (role in touching[c] <==> (role == "instrument" && c in r.instrumented) || HasRole(refs, c, r, role))
      decreases todo
    {
      var c := Pick(todo);
      var touch := ClassifyTouch(refs, c, r);
      todo := todo - {c};
      if touch.Some? {
        touching := touching[c := touch.value];
      }
    }
    chain, ordered := BlameChain(m, created, touching.Keys, validations);
  }

  method SelectRefs(refs: seq<PlacedRef>, checkpoints: set<Id>) returns (kept: seq<PlacedRef>)
    ensures kept == RefsOn(refs, checkpoints)
  {
    kept := [];
    for i := 0 to |refs|
      invariant kept == RefsOn(refs[..i], checkpoints)
    {
      assert refs[..i + 1][..i] == refs[..i];
      if refs[i].checkpoint in checkpoints {
        kept := kept + [refs[i]];
      }
    }
    assert refs[..|refs|] == refs;
  }

  /** Note the first recorder of each validation, then attach it. */
  method AttachRecorders(verdicts: seq<Verdict>, refs: seq<PlacedRef>) returns (validations: seq<Validation>)
    ensures validations == Attach(verdicts, refs)
  {
    var recorders: map<Id, Id> := map[];
    for i := 0 to |refs|
      invariant forall v :: RecorderOf(refs[..i], v) == if v in recorders then Some(recorders[v]) else None
    {
      assert refs[..i + 1][..i] == refs[..i];
      if refs[i].ref.target.ValidationTarget? && refs[i].ref.role == "recorded" && refs[i].ref.target.id !in recorders {
        recorders := recorders[refs[i].ref.target.id := refs[i].checkpoint];
      }
    }
    assert refs[..|refs|] == refs;
    validations := [];
    for i := 0 to |verdicts|
      invariant validations == Attach(verdicts[..i], refs)
    {
      assert verdicts[..i + 1][..i] == verdicts[..i];
      var id := verdicts[i].id;
      validations := validations
        + [Validation(id, verdicts[i].outcome, if id in recorders then Some(recorders[id]) else None)];
    }
    assert verdicts[..|verdicts|] == verdicts;
  }

  lemma {:induction false} NothingVisible(vs: seq<Validation>, ids: set<Id>)
    requires forall v :: v in vs ==> v.recorder.None? || v.recorder.value !in ids
    ensures Visible(vs, ids) == []
  {
    if vs != [] {
      assert vs == vs[..|vs| - 1] + [vs[|vs| - 1]];
      NothingVisible(vs[..|vs| - 1], ids);
    }
  }

  // ----- when the chain telescopes -----

  ghost predicate LinkedAt(m: ParentMap, chain: seq<Id>, vs: seq<Validation>, i: nat)
    requires i + 1 < |chain|
  {
    BeforeStep(m, vs, chain[i + 1]) == After(m, vs, chain[i])
  }

  /** Before-signals and after-signals link up: the first step starts from nothing, each next starts
      where the previous one ended, and the last ends at the signal of everything recorded. */
  ghost predicate Telescopes(m: ParentMap, chain: seq<Id>, vs: seq<Validation>) {
    chain != [] ==>
      && BeforeStep(m, vs, chain[0]) == NoSignal
      && (forall i :: 0 <= i < |chain| - 1 ==> LinkedAt(m, chain, vs, i))
      && After(m, vs, chain[|chain| - 1]) == SignalOf(Recorded(vs))
  }

  /** Every recorded validation was recorded on a checkpoint of the chain: recording touches the claim. */
  ghost predicate RecordedOn(chain: seq<Id>, vs: seq<Validation>) {
    forall v :: v in vs && v.recorder.Some? ==> v.recorder.value in chain
  }

  predicate NoRepeats(chain: seq<Id>) {
    forall i, j :: 0 <= i < j < |chain| ==> chain[i] != chain[j]
  }

  /** Each checkpoint of the chain reaches every earlier one. */
  ghost predicate Linear(m: ParentMap, chain: seq<Id>) {
    forall i, j :: 0 <= i < j < |chain| ==> Reaches(m, chain[j], chain[i])
  }

  lemma LinearReach(m: ParentMap, chain: seq<Id>, i: nat, j: nat)
    requires Acyclic(m) && NoRepeats(chain) && Linear(m, chain) && i < |chain| && j < |chain|
    ensures Reaches(m, chain[i], chain[j]) <==> j <= i
  {
    ReachesSelf(m, chain[i]);
    if i < j && Reaches(m, chain[i], chain[j]) {
      ReachesIff(m, chain[i], chain[j]);
      ProperThenReaches(m, chain[i], chain[j], chain[i]);
    }
  }

  lemma {:induction false} SameVisible(vs: seq<Validation>, a: set<Id>, b: set<Id>)
    requires forall v :: v in vs && v.recorder.Some? ==> (v.recorder.value in a <==> v.recorder.value in b)
    ensures Visible(vs, a) == Visible(vs, b)
  {
    if vs != [] {
      assert vs == vs[..|vs| - 1] + [vs[|vs| - 1]];
      SameVisible(vs[..|vs| - 1], a, b);
    }
  }

  lemma {:induction false} AllVisible(vs: seq<Validation>, ids: set<Id>)
    requires forall v :: v in vs && v.recorder.Some? ==> v.recorder.value in ids
    ensures Visible(vs, ids) == Recorded(vs)
  {
    if vs != [] {
      assert vs == vs[..|vs| - 1] + [vs[|vs| - 1]];
      AllVisible(vs[..|vs| - 1], ids);
    }
  }

  lemma LinearTelescopes(m: ParentMap, chain: seq<Id>, vs: seq<Validation>)
    requires Acyclic(m) && NoRepeats(chain) && Linear(m, chain) && RecordedOn(chain, vs)
    ensures Telescopes(m, chain, vs)
  {
    if chain != [] {
      var n := |chain| - 1;
      forall v | v in vs && v.recorder.Some?
        ensures v.recorder.value !in Ancestors(m, chain[0]) - {chain[0]}
        ensures v.recorder.value in Ancestors(m, chain[n])
      {
        var k :| 0 <= k < |chain| && chain[k] == v.recorder.value;
        AncestorsIff(m, chain[0], chain[k]);
        AncestorsIff(m, chain[n], chain[k]);
        LinearReach(m, chain, 0, k);
        LinearReach(m, chain, n, k);
      }
      NothingVisible(vs, Ancestors(m, chain[0]) - {chain[0]});
      AllVisible(vs, Ancestors(m, chain[n]));
      forall i | 0 <= i < n ensures LinkedAt(m, chain, vs, i) {
        LinearLink(m, chain, vs, i);
      }
    }
  }

  lemma LinearLink(m: ParentMap, chain: seq<Id>, vs: seq<Validation>, i: nat)
    requires Acyclic(m) && NoRepeats(chain) && Linear(m, chain) && RecordedOn(chain, vs) && i + 1 < |chain|
    ensures LinkedAt(m, chain, vs, i)
  {
    var a, b := Ancestors(m, chain[i + 1]) - {chain[i + 1]}, Ancestors(m, chain[i]);
    forall v | v in vs && v.recorder.Some? ensures v.recorder.value in a <==> v.recorder.value in b {
      var k :| 0 <= k < |chain| && chain[k] == v.recorder.value;
      AncestorsIff(m, chain[i + 1], chain[k]);
      AncestorsIff(m, chain[i], chain[k]);
      LinearReach(m, chain, i + 1, k);
      LinearReach(m, chain, i, k);
    }
    SameVisible(vs, a, b);
  }

  function PassOn(c: Id): seq<Validation> {
    [Validation(0, Passed, Some(c))]
  }

  lemma PassSignal(c: Id)
    ensures SignalOf([]) == NoSignal && SignalOf(PassOn(c)) == Validated
  {
    assert PassOn(c)[..0] == [];
  }

  lemma PassVisible(c: Id, ids: set<Id>)
    ensures Visible(PassOn(c), ids) == if c in ids then PassOn(c) else []
  {
    var none: seq<Validation> := [];
    VisibleAppend(none, Validation(0, Passed, Some(c)), ids);
    assert none + PassOn(c) == PassOn(c);
  }

  /** A single pass recorded on `c` is seen exactly where `c` is. */
  lemma PassSeen(c: Id, ids: set<Id>)
    ensures SignalAt(PassOn(c), ids) == if c in ids then Validated else NoSignal
  {
    PassVisible(c, ids);
    PassSignal(c);
  }

  lemma VisibleAppend(vs: seq<Validation>, v: Validation, ids: set<Id>)
    ensures Visible(vs + [v], ids)
         == if v.recorder.Some? && v.recorder.value in ids then Visible(vs, ids) + [v] else Visible(vs, ids)
  {
    assert (vs + [v])[..|vs|] == vs;
  }

  /** When the step at `b` starts as the one at `a` ended, the pass seen at `a` is seen at `b`. */
  lemma PassStep(m: ParentMap, c: Id, a: Id, b: Id)
    requires BeforeStep(m, PassOn(c), b) == After(m, PassOn(c), a) && Reaches(m, a, c)
    ensures Reaches(m, b, c)
  {
    PassSeen(c, Ancestors(m, a));
    PassSeen(c, Ancestors(m, b) - {b});
    AncestorsIff(m, a, c);
    AncestorsIff(m, b, c);
  }

  lemma {:induction false} PassCarried(m: ParentMap, chain: seq<Id>, i: nat, j: nat)
    requires i <= j < |chain|
    requires Telescopes(m, chain, PassOn(chain[i]))
    ensures Reaches(m, chain[j], chain[i])
    decreases j
  {
    if i == j {
      ReachesSelf(m, chain[i]);
    } else {
      PassCarried(m, chain, i, j - 1);
      assert LinkedAt(m, chain, PassOn(chain[i]), j - 1);
      PassStep(m, chain[i], chain[j - 1], chain[j]);
    }
  }

  /** The exact condition. A chain telescopes for every history recorded on it exactly when each of
      its checkpoints reaches all earlier ones, whatever merges and other lines lie around it. */
  lemma TelescopesIffLinear(m: ParentMap, chain: seq<Id>)
    requires Acyclic(m) && NoRepeats(chain)
    ensures (forall vs :: RecordedOn(chain, vs) ==> Telescopes(m, chain, vs)) <==> Linear(m, chain)
  {
    if Linear(m, chain) {
      forall vs | RecordedOn(chain, vs) ensures Telescopes(m, chain, vs) {
        LinearTelescopes(m, chain, vs);
      }
    }
    if forall vs :: RecordedOn(chain, vs) ==> Telescopes(m, chain, vs) {
      forall i, j | 0 <= i < j < |chain| ensures Reaches(m, chain[j], chain[i]) {
        assert RecordedOn(chain, PassOn(chain[i]));
        PassCarried(m, chain, i, j);
      }
    }
  }

  /** Creation times (then ids) grow along parent edges. */
  ghost predicate ClocksAgree(m: ParentMap, created: Times) {
    forall n, p :: p in Parents(m, n) ==> Before(created, p, n)
  }

  lemma {:induction false} AncestorIsOlder(m: ParentMap, created: Times, path: seq<Id>)
    requires ClocksAgree(m, created) && IsPath(m, path) && |path| > 1
    ensures Before(created, path[|path| - 1], path[0])
  {
    var init := path[..|path| - 1];
    assert IsPath(m, init);
    assert path[|path| - 1] in Parents(m, path[|path| - 2]);
    if |path| > 2 {
      AncestorIsOlder(m, created, init);
    }
  }

  lemma ListedInOrder(m: ParentMap, created: Times, touching: set<Id>, ordered: seq<Id>)
    requires Acyclic(m) && ClocksAgree(m, created) && IsListing(created, touching, ordered)
    requires forall a, b :: a in touching && b in touching ==> Reaches(m, a, b) || Reaches(m, b, a)
    ensures Linear(m, ordered)
  {
    forall i, j | 0 <= i < j < |ordered| ensures Reaches(m, ordered[j], ordered[i]) {
      assert ordered[i] in ordered && ordered[j] in ordered;
      if Reaches(m, ordered[i], ordered[j]) {
        var path :| IsPath(m, path) && path[0] == ordered[i] && path[|path| - 1] == ordered[j];
        if |path| > 1 {
          AncestorIsOlder(m, created, path);
        }
      }
    }
  }

  /** Blame telescopes. When the touching checkpoints are totally ordered by ancestry and the clocks
      agree with the graph, the chain - sorted by time - links up and ends at the signal over every
      validation that any checkpoint recorded. */
  lemma BlameTelescopes(m: ParentMap, created: Times, r: Reading, ordered: seq<Id>)
    requires Acyclic(m) && ClocksAgree(m, created) && IsListing(created, TouchingOf(r), ordered)
    requires forall a, b :: a in TouchingOf(r) && b in TouchingOf(r) ==> Reaches(m, a, b) || Reaches(m, b, a)
    ensures Telescopes(m, ordered, ValidationsOf(r))
  {
    ListedInOrder(m, created, TouchingOf(r), ordered);
    RecordersAreListed(r, ordered);
    LinearTelescopes(m, ordered, ValidationsOf(r));
  }

  /** Total order alone is not enough. Here 1 is the parent of 2 but carries the later clock, so the
      chain lists 2 first, and a pass recorded on 1 is seen before the step that recorded it. */
  lemma SkewedClocksBreakBlame()
    ensures var m, created, ordered := map[2 := [1]], map[1 := 10, 2 := 5], [2, 1];
            && IsListing(created, {1, 2}, ordered)
            && Reaches(m, 2, 1)
            && RecordedOn(ordered, PassOn(1)) && !Telescopes(m, ordered, PassOn(1))
  {
    var m: ParentMap := map[2 := [1]];
    var ordered: seq<Id> := [2, 1];
    ReachesSelf(m, 1);
    assert 1 in Parents(m, 2);
    ReachesParent(m, 2, 1, 1);
    AncestorsIff(m, 2, 1);
    PassSeen(1, Ancestors(m, 2) - {2});
    assert BeforeStep(m, PassOn(1), ordered[0]) == Validated;
    assert PassOn(1)[0].recorder.value == ordered[1];
  }
}
