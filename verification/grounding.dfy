/** Claim grounding: how strongly a claim is backed by what actually ran, and what a pass bought.

    The instrument matrix is an arbitrary partial function from instrument and status to a grade. */
module Grounding {
  import opened Common

  datatype Grade = A | B | C | D

  /** A recorded run status; `Unreadable` is a missing or unknown one. */
  datatype RunStatus = ResultStatus | RefutedStatus | Undecided | Unreadable

  /** One evidence link of a claim. An absent instrument is the empty string. */
  datatype Link = Link(relation: string, source: string, instrument: string, status: RunStatus)

  type Matrix = (string, RunStatus) -> Option<Grade>

  const SUPPORT := "support"
  const COUNTER := "weaken"
  const COMPUTE := "tool"

  datatype Headline = Ungrounded | Cited | AtD | AtC | AtB | Proven | Refuted

  datatype ClaimGrounding = ClaimGrounding(support: Option<Grade>, counter: Option<Grade>, cited: bool, headline: Headline)

  const EMPTY := ClaimGrounding(None, None, false, Ungrounded)

  // ----- grades -----

  function Rank(g: Option<Grade>): nat {
    match g
    case None => 0
    case Some(D) => 1
    case Some(C) => 2
    case Some(B) => 3
    case Some(A) => 4
  }

  predicate Outranks(candidate: Option<Grade>, incumbent: Option<Grade>) {
    Rank(candidate) > Rank(incumbent)
  }

  function GradeOfLink(matrix: Matrix, l: Link): Option<Grade> {
    if l.instrument == "" then Some(D)
    else if l.source != COMPUTE then None
    else if l.status == Unreadable then None
    else matrix(l.instrument, l.status)
  }

  predicate IsLivePin(l: Link) {
    l.instrument != "" && l.source != COMPUTE && l.status != Undecided
  }

  function Strongest(grades: seq<Grade>): Option<Grade> {
    if grades == [] then None
    else
      var best := Strongest(grades[..|grades| - 1]);
      if Outranks(Some(grades[|grades| - 1]), best) then Some(grades[|grades| - 1]) else best
  }

  function HeadlineOf(support: Option<Grade>, counter: Option<Grade>, cited: bool): Headline {
    if counter == Some(A) || counter == Some(B) then Refuted
    else match support
      case Some(A) => Proven
      case Some(B) => AtB
      case Some(C) => AtC
      case Some(D) => AtD
      case None => if cited then Cited else Ungrounded
  }

  /** The grades the links of one relation earn, in order. */
  function GradesOf(matrix: Matrix, links: seq<Link>, relation: string): seq<Grade> {
    if links == [] then []
    else
      var rest, last := GradesOf(matrix, links[..|links| - 1], relation), links[|links| - 1];
      var grade := GradeOfLink(matrix, last);
      if last.relation == relation && grade.Some? then rest + [grade.value] else rest
  }

  function GroundingOf(matrix: Matrix, links: seq<Link>): ClaimGrounding {
    var support := Strongest(GradesOf(matrix, links, SUPPORT));
    var counter := Strongest(GradesOf(matrix, links, COUNTER));
    var cited := exists l :: l in links && IsLivePin(l);
    ClaimGrounding(support, counter, cited, HeadlineOf(support, counter, cited))
  }

  method ComputeGrounding(matrix: Matrix, links: seq<Link>) returns (g: ClaimGrounding)
    ensures g == GroundingOf(matrix, links)
  {
    var support: seq<Grade>, counter: seq<Grade>, cited := [], [], false;
    for i := 0 to |links|
      invariant support == GradesOf(matrix, links[..i], SUPPORT)
      invariant counter == GradesOf(matrix, links[..i], COUNTER)
      invariant cited == exists l :: l in links[..i] && IsLivePin(l)
    {
      assert links[..i + 1] == links[..i] + [links[i]];
      assert links[..i + 1][..i] == links[..i];
      if IsLivePin(links[i]) {
        cited := true;
      }
      var grade := GradeOfLink(matrix, links[i]);
      if grade.None? {
        continue;
      }
      if links[i].relation == SUPPORT {
        support := support + [grade.value];
      } else if links[i].relation == COUNTER {
        counter := counter + [grade.value];
      }
    }
    assert links[..|links|] == links;
    return ClaimGrounding(Strongest(support), Strongest(counter), cited,
                          HeadlineOf(Strongest(support), Strongest(counter), cited));
  }

  // ----- what a grounding means -----

  /** Some link of the relation earns exactly this grade. */
  predicate Earns(matrix: Matrix, l: Link, relation: string, grade: Grade) {
    l.relation == relation && GradeOfLink(matrix, l) == Some(grade)
  }

  lemma {:induction false} GradesAreEarned(matrix: Matrix, links: seq<Link>, relation: string, g: Grade)
    ensures g in GradesOf(matrix, links, relation) <==> exists l :: l in links && Earns(matrix, l, relation, g)
  {
    if links != [] {
      var init, last := links[..|links| - 1], links[|links| - 1];
      assert links == init + [last];
      GradesAreEarned(matrix, init, relation, g);
      assert Earns(matrix, last, relation, g) ==> last in links;
      forall l | l in init ensures l in links {
      }
    }
  }

  lemma {:induction false} StrongestIsMaximum(grades: seq<Grade>)
    ensures Strongest(grades).Some? <==> grades != []
    ensures Strongest(grades).Some? ==> Strongest(grades).value in grades
    ensures forall g :: g in grades ==> Rank(Some(g)) <= Rank(Strongest(grades))
  {
    if grades != [] {
      var init, last := grades[..|grades| - 1], grades[|grades| - 1];
      assert grades == init + [last];
      StrongestIsMaximum(init);
    }
  }

  lemma RankIsFaithful(a: Option<Grade>, b: Option<Grade>)
    requires Rank(a) == Rank(b)
    ensures a == b
  {
  }

  /** Evidence only accumulates: every link of `before` is still there, in any order. */
  predicate Accumulates(before: seq<Link>, after: seq<Link>) {
    forall l :: l in before ==> l in after
  }

  lemma SideClimbs(matrix: Matrix, before: seq<Link>, after: seq<Link>, relation: string)
    requires Accumulates(before, after)
    ensures Rank(Strongest(GradesOf(matrix, before, relation))) <= Rank(Strongest(GradesOf(matrix, after, relation)))
  {
    var was := GradesOf(matrix, before, relation);
    StrongestIsMaximum(was);
    StrongestIsMaximum(GradesOf(matrix, after, relation));
    if Strongest(was).Some? {
      var g := Strongest(was).value;
      GradesAreEarned(matrix, before, relation, g);
      GradesAreEarned(matrix, after, relation, g);
    }
  }

  /** ungrounded < cited < D < C < B < proven < refuted. */
  function Height(h: Headline): nat {
    match h
    case Ungrounded => 0
    case Cited => 1
    case AtD => 2
    case AtC => 3
    case AtB => 4
    case Proven => 5
    case Refuted => 6
  }

  /** As evidence accumulates both rungs and the headline only climb. */
  lemma GroundingClimbs(matrix: Matrix, before: seq<Link>, after: seq<Link>)
    requires Accumulates(before, after)
    ensures Climbs(GroundingOf(matrix, before), GroundingOf(matrix, after))
  {
    SideClimbs(matrix, before, after, SUPPORT);
    SideClimbs(matrix, before, after, COUNTER);
  }

  predicate Climbs(was: ClaimGrounding, now: ClaimGrounding) {
    && Rank(was.support) <= Rank(now.support) && Rank(was.counter) <= Rank(now.counter)
    && Height(was.headline) <= Height(now.headline)
  }

  /** A grounding depends only on which links there are, not on their order or repetition. */
  lemma GroundingIgnoresOrder(matrix: Matrix, a: seq<Link>, b: seq<Link>)
    requires Accumulates(a, b) && Accumulates(b, a)
    ensures GroundingOf(matrix, a) == GroundingOf(matrix, b)
  {
    SideClimbs(matrix, a, b, SUPPORT);
    SideClimbs(matrix, b, a, SUPPORT);
    SideClimbs(matrix, a, b, COUNTER);
    SideClimbs(matrix, b, a, COUNTER);
    RankIsFaithful(GroundingOf(matrix, a).support, GroundingOf(matrix, b).support);
    RankIsFaithful(GroundingOf(matrix, a).counter, GroundingOf(matrix, b).counter);
  }

  /** A headline in terms of the links: refuted exactly when a counter earns A or B, proven exactly
      when a support earns A and it is not refuted. */
  lemma HeadlineMeans(matrix: Matrix, links: seq<Link>)
    ensures var h := GroundingOf(matrix, links).headline;
            && (h == Refuted <==> exists l :: l in links && (Earns(matrix, l, COUNTER, A) || Earns(matrix, l, COUNTER, B)))
            && (h == Proven <==> h != Refuted && exists l :: l in links && Earns(matrix, l, SUPPORT, A))
            && (h == Ungrounded <==> forall l :: l in links ==> Contributes(matrix, l) == 0)
  {
    SideMeans(matrix, links, SUPPORT);
    SideMeans(matrix, links, COUNTER);
  }

  /** What a link adds to the headline: 0 nothing, 1 a citation, 2 support, 3 a settling counter. */
  function Contributes(matrix: Matrix, l: Link): nat {
    var grade := GradeOfLink(matrix, l);
    if l.relation == COUNTER && (grade == Some(A) || grade == Some(B)) then 3
    else if l.relation == SUPPORT && grade.Some? then 2
    else if IsLivePin(l) then 1
    else 0
  }

  lemma SideMeans(matrix: Matrix, links: seq<Link>, relation: string)
    ensures var s := Strongest(GradesOf(matrix, links, relation));
            && (s == Some(A) <==> exists l :: l in links && Earns(matrix, l, relation, A))
            && (s == Some(A) || s == Some(B) <==>
                exists l :: l in links && (Earns(matrix, l, relation, A) || Earns(matrix, l, relation, B)))
            && (s.None? <==> forall l :: l in links ==> l.relation != relation || GradeOfLink(matrix, l).None?)
  {
    var grades := GradesOf(matrix, links, relation);
    StrongestIsMaximum(grades);
    GradesAreEarned(matrix, links, relation, A);
    GradesAreEarned(matrix, links, relation, B);
    GradesAreEarned(matrix, links, relation, C);
    GradesAreEarned(matrix, links, relation, D);
    if l :| l in links && l.relation == relation && GradeOfLink(matrix, l).Some? {
      assert Earns(matrix, l, relation, GradeOfLink(matrix, l).value);
    } else {
      assert forall l, g :: l in links ==> !Earns(matrix, l, relation, g);
      if grades != [] {
        assert grades[0] in grades;
        GradesAreEarned(matrix, links, relation, grades[0]);
      }
    }
  }

  // ----- movement -----

  datatype ClaimMovement = Unchanged | Raised | Settled

  predicate IsSettled(h: Headline) {
    h == Proven || h == Refuted
  }

  function Movement(before: ClaimGrounding, after: ClaimGrounding): ClaimMovement {
    if IsSettled(after.headline) && before.headline != after.headline then Settled
    else if Outranks(after.support, before.support) then Raised
    else Unchanged
  }

  function Stronger(a: ClaimMovement, b: ClaimMovement): ClaimMovement {
    if a == Settled || b == Settled then Settled
    else if a == Raised || b == Raised then Raised
    else Unchanged
  }

  /** The strongest movement over the consecutive snapshots of one claim. */
  function BatchMovement(matrix: Matrix, snapshots: seq<seq<Link>>): ClaimMovement {
    if |snapshots| <= 1 then Unchanged
    else
      var n := |snapshots|;
      Stronger(BatchMovement(matrix, snapshots[..n - 1]),
               Movement(GroundingOf(matrix, snapshots[n - 2]), GroundingOf(matrix, snapshots[n - 1])))
  }

  predicate Growing(snapshots: seq<seq<Link>>) {
    |snapshots| >= 2 ==>
      && Growing(snapshots[..|snapshots| - 1])
      && Accumulates(snapshots[|snapshots| - 2], snapshots[|snapshots| - 1])
  }

  lemma MovementsCompose(a: ClaimGrounding, b: ClaimGrounding, c: ClaimGrounding)
    requires Climbs(a, b) && Climbs(b, c)
    ensures Movement(a, c) == Stronger(Movement(a, b), Movement(b, c))
  {
  }

  lemma {:induction false} FirstToLast(matrix: Matrix, snapshots: seq<seq<Link>>)
    requires |snapshots| >= 1 && Growing(snapshots)
    ensures Accumulates(snapshots[0], snapshots[|snapshots| - 1])
  {
    if |snapshots| >= 2 {
      FirstToLast(matrix, snapshots[..|snapshots| - 1]);
    }
  }

  /** The whole pass moves a claim exactly as much as its strongest batch did. */
  lemma {:induction false} YieldComposes(matrix: Matrix, snapshots: seq<seq<Link>>)
    requires |snapshots| >= 1 && Growing(snapshots)
    ensures Movement(GroundingOf(matrix, snapshots[0]), GroundingOf(matrix, snapshots[|snapshots| - 1]))
         == BatchMovement(matrix, snapshots)
  {
    var n := |snapshots|;
    if n >= 2 {
      var init := snapshots[..n - 1];
      YieldComposes(matrix, init);
      FirstToLast(matrix, init);
      GroundingClimbs(matrix, init[0], init[n - 2]);
      GroundingClimbs(matrix, snapshots[n - 2], snapshots[n - 1]);
      MovementsCompose(GroundingOf(matrix, snapshots[0]), GroundingOf(matrix, snapshots[n - 2]),
                       GroundingOf(matrix, snapshots[n - 1]));
    }
  }

  /** The hypothesis is used: were evidence ever removed - no service does that - a claim could be settled by
      one batch and still end where it began. */
  lemma LosingEvidenceBreaksComposition(matrix: Matrix)
    requires matrix("z3.prove", ResultStatus) == Some(A)
    ensures var proof := Link(SUPPORT, COMPUTE, "z3.prove", ResultStatus);
            && Movement(GroundingOf(matrix, []), GroundingOf(matrix, [])) == Unchanged
            && BatchMovement(matrix, [[], [proof], []]) == Settled
  {
    var proof := Link(SUPPORT, COMPUTE, "z3.prove", ResultStatus);
    SideMeans(matrix, [proof], SUPPORT);
    SideMeans(matrix, [proof], COUNTER);
    assert proof in [proof] && Earns(matrix, proof, SUPPORT, A);
    SideMeans(matrix, [], SUPPORT);
    SideMeans(matrix, [], COUNTER);
    assert [[], [proof], []][..2] == [[], [proof]];
  }

  // ----- the yield of a pass -----

  datatype ClaimYield = ClaimYield(claim: nat, before: Headline, after: Headline, movement: ClaimMovement)

  datatype PassYield = PassYield(measured: nat, moved: nat, changed: seq<ClaimYield>)

  function Get(snapshot: map<nat, ClaimGrounding>, claim: nat): ClaimGrounding {
    if claim in snapshot then snapshot[claim] else EMPTY
  }

  function YieldOf(claim: nat, before: map<nat, ClaimGrounding>, after: map<nat, ClaimGrounding>): ClaimYield {
    var was, now := Get(before, claim), Get(after, claim);
    ClaimYield(claim, was.headline, now.headline, Movement(was, now))
  }

  function MovedCount(claims: seq<nat>, before: map<nat, ClaimGrounding>, after: map<nat, ClaimGrounding>): nat {
    if claims == [] then 0
    else
      MovedCount(claims[..|claims| - 1], before, after)
      + if YieldOf(claims[|claims| - 1], before, after).movement != Unchanged then 1 else 0
  }

  function ChangedClaims(claims: seq<nat>, before: map<nat, ClaimGrounding>, after: map<nat, ClaimGrounding>): seq<ClaimYield> {
    if claims == [] then []
    else
      var rest, y := ChangedClaims(claims[..|claims| - 1], before, after), YieldOf(claims[|claims| - 1], before, after);
      if y.movement != Unchanged || y.before != y.after then rest + [y] else rest
  }

  /** Diff two snapshots. Every claim that moved is listed, whether or not its headline changed. */
  method ComputeYield(claims: seq<nat>, before: map<nat, ClaimGrounding>, after: map<nat, ClaimGrounding>)
    returns (y: PassYield)
    ensures y == PassYield(|claims|, MovedCount(claims, before, after), ChangedClaims(claims, before, after))
    ensures y.moved <= |y.changed| <= y.measured
  {
    var changed: seq<ClaimYield>, moved: nat := [], 0;
    for i := 0 to |claims|
      invariant moved == MovedCount(claims[..i], before, after)
      invariant changed == ChangedClaims(claims[..i], before, after)
      invariant moved <= |changed| <= i
    {
      assert claims[..i + 1][..i] == claims[..i];
      var was, now := Get(before, claims[i]), Get(after, claims[i]);
      var movement := Movement(was, now);
      if movement != Unchanged {
        moved := moved + 1;
      }
      if movement != Unchanged || was.headline != now.headline {
        changed := changed + [ClaimYield(claims[i], was.headline, now.headline, movement)];
      }
    }
    assert claims[..|claims|] == claims;
    return PassYield(|claims|, moved, changed);
  }

  /** The snapshot of a set of claims: claims without links are absent. */
  predicate IsSnapshot(matrix: Matrix, links: map<nat, seq<Link>>, snapshot: map<nat, ClaimGrounding>) {
    && snapshot.Keys == links.Keys
    && forall c :: c in links ==> snapshot[c] == GroundingOf(matrix, links[c])
  }

  function LinksOf(links: map<nat, seq<Link>>, claim: nat): seq<Link> {
    if claim in links then links[claim] else []
  }

  /** A claim counts as moved by the pass exactly when its strongest batch moved it, including a claim
      that had no evidence at the start. */
  lemma PassMovesWhatABatchMoved(matrix: Matrix, history: seq<map<nat, seq<Link>>>, claim: nat,
                                 before: map<nat, ClaimGrounding>, after: map<nat, ClaimGrounding>)
    requires history != [] && Growing(ClaimHistory(history, claim))
    requires IsSnapshot(matrix, history[0], before) && IsSnapshot(matrix, history[|history| - 1], after)
    ensures YieldOf(claim, before, after).movement == BatchMovement(matrix, ClaimHistory(history, claim))
  {
    var snapshots := ClaimHistory(history, claim);
    YieldComposes(matrix, snapshots);
    AbsentIsEmpty(matrix, history[0], before, claim);
    AbsentIsEmpty(matrix, history[|history| - 1], after, claim);
  }

  function ClaimHistory(history: seq<map<nat, seq<Link>>>, claim: nat): (h: seq<seq<Link>>)
    ensures |h| == |history| && forall i :: 0 <= i < |h| ==> h[i] == LinksOf(history[i], claim)
  {
    if history == [] then []
    else ClaimHistory(history[..|history| - 1], claim) + [LinksOf(history[|history| - 1], claim)]
  }

  lemma AbsentIsEmpty(matrix: Matrix, links: map<nat, seq<Link>>, snapshot: map<nat, ClaimGrounding>, claim: nat)
    requires IsSnapshot(matrix, links, snapshot)
    ensures Get(snapshot, claim) == GroundingOf(matrix, LinksOf(links, claim))
  {
  }
}
