/** The checkpoint graph: ancestor closure, lowest common ancestor and the ancestry of two tips.

    A parent map may miss nodes (they have no parents) and, here, may even be cyclic. */
module Graph {
  import opened Common

  type Id = nat
  type ParentMap = map<Id, seq<Id>>

  function Parents(m: ParentMap, n: Id): seq<Id> {
    if n in m then m[n] else []
  }

  // ----- reachability -----

  ghost predicate IsPath(m: ParentMap, path: seq<Id>) {
    path != [] && forall i :: 0 <= i < |path| - 1 ==> path[i + 1] in Parents(m, path[i])
  }

  /** `b` is `a` or an ancestor of `a`. */
  ghost predicate Reaches(m: ParentMap, a: Id, b: Id) {
    exists path :: IsPath(m, path) && path[0] == a && path[|path| - 1] == b
  }

  ghost predicate ProperAncestor(m: ParentMap, a: Id, b: Id) {
    exists p :: p in Parents(m, a) && Reaches(m, p, b)
  }

  ghost predicate Acyclic(m: ParentMap) {
    forall n :: !ProperAncestor(m, n, n)
  }

  lemma ReachesSelf(m: ParentMap, a: Id)
    ensures Reaches(m, a, a)
  {
    assert IsPath(m, [a]) && [a][0] == a;
  }

  lemma ReachesParent(m: ParentMap, a: Id, p: Id, b: Id)
    requires p in Parents(m, a) && Reaches(m, p, b)
    ensures Reaches(m, a, b)
  {
    var path :| IsPath(m, path) && path[0] == p && path[|path| - 1] == b;
    var longer := [a] + path;
    assert forall i :: 0 <= i < |longer| - 1 ==> longer[i + 1] in Parents(m, longer[i]);
    assert IsPath(m, longer) && longer[0] == a;
  }

  /** Reaching is being equal or reaching through a parent. */
  lemma ReachesIff(m: ParentMap, a: Id, b: Id)
    ensures Reaches(m, a, b) <==> a == b || ProperAncestor(m, a, b)
  {
    ReachesSelf(m, a);
    if Reaches(m, a, b) && a != b {
      var path :| IsPath(m, path) && path[0] == a && path[|path| - 1] == b;
      var rest := path[1..];
      assert forall i :: 0 <= i < |rest| - 1 ==> rest[i + 1] in Parents(m, rest[i]) by {
        assert forall i :: 0 <= i < |rest| ==> rest[i] == path[i + 1];
      }
      assert IsPath(m, rest) && rest[|rest| - 1] == b;
      assert Reaches(m, path[1], b);
    }
    if ProperAncestor(m, a, b) {
      var p :| p in Parents(m, a) && Reaches(m, p, b);
      ReachesParent(m, a, p, b);
    }
  }

  lemma ReachesTransitive(m: ParentMap, a: Id, b: Id, c: Id)
    requires Reaches(m, a, b) && Reaches(m, b, c)
    ensures Reaches(m, a, c)
  {
    var p :| IsPath(m, p) && p[0] == a && p[|p| - 1] == b;
    var q :| IsPath(m, q) && q[0] == b && q[|q| - 1] == c;
    var path := p + q[1..];
    forall i | 0 <= i < |path| - 1 ensures path[i + 1] in Parents(m, path[i]) {
      if i + 1 >= |p| {
        assert path[i + 1] == q[i + 2 - |p|];
        assert path[i] == q[i + 1 - |p|];
      }
    }
    assert IsPath(m, path) && path[0] == a && path[|path| - 1] == c;
  }

  lemma ProperThenReaches(m: ParentMap, a: Id, b: Id, c: Id)
    requires ProperAncestor(m, a, b) && Reaches(m, b, c)
    ensures ProperAncestor(m, a, c)
  {
    var p :| p in Parents(m, a) && Reaches(m, p, b);
    ReachesTransitive(m, p, b, c);
  }

  lemma ReachesThenProper(m: ParentMap, a: Id, b: Id, c: Id)
    requires Reaches(m, a, b) && ProperAncestor(m, b, c)
    ensures ProperAncestor(m, a, c)
  {
    ReachesIff(m, a, b);
    if a != b {
      ReachesIff(m, b, c);
      ProperThenReaches(m, a, b, c);
    }
  }

  /** A set that holds `a` and all parents of its members holds everything `a` reaches. */
  lemma ClosedHoldsReached(m: ParentMap, a: Id, b: Id, closed: set<Id>)
    requires a in closed && Reaches(m, a, b)
    requires forall n, p :: n in closed && p in Parents(m, n) ==> p in closed
    ensures b in closed
  {
    var path :| IsPath(m, path) && path[0] == a && path[|path| - 1] == b;
    PathStays(m, path, closed);
  }

  lemma {:induction false} PathStays(m: ParentMap, path: seq<Id>, closed: set<Id>)
    requires IsPath(m, path) && path[0] in closed
    requires forall n, p :: n in closed && p in Parents(m, n) ==> p in closed
    ensures path[|path| - 1] in closed
  {
    if |path| > 1 {
      var init := path[..|path| - 1];
      assert IsPath(m, init);
      PathStays(m, init, closed);
    }
  }

  // ----- walk_ancestors -----

  /** Every id the map mentions, and the start. */
  function Universe(m: ParentMap, start: Id): set<Id> {
    {start} + m.Keys + set n, p | n in m && p in m[n] :: p
  }

  /** The inclusive ancestor closure of `start`. */
  ghost function Ancestors(m: ParentMap, start: Id): set<Id> {
    set n | n in Universe(m, start) && Reaches(m, start, n)
  }

  lemma AncestorsIff(m: ParentMap, start: Id, n: Id)
    ensures n in Ancestors(m, start) <==> Reaches(m, start, n)
  {
    if Reaches(m, start, n) {
      ClosedHoldsReached(m, start, n, Universe(m, start));
    }
  }

  /** Seen and stacked nodes are reachable, and a seen node's parents are seen or stacked. */
  ghost predicate Frontier(m: ParentMap, start: Id, seen: set<Id>, stack: seq<Id>) {
    && (forall n :: n in seen || n in stack ==> n in Universe(m, start) && Reaches(m, start, n))
    && (start in seen || start in stack)
    && (forall n, p :: n in seen && p in Parents(m, n) ==> p in seen || p in stack)
  }

  lemma FrontierVisit(m: ParentMap, start: Id, seen: set<Id>, rest: seq<Id>, current: Id)
    requires Frontier(m, start, seen, rest + [current])
    ensures current in seen ==> Frontier(m, start, seen, rest)
    ensures current !in seen ==> Frontier(m, start, seen + {current}, rest + Parents(m, current))
  {
    assert forall n :: n in rest + [current] <==> n in rest || n == current;
    if current !in seen {
      var stack := rest + Parents(m, current);
      assert forall n :: n in stack <==> n in rest || n in Parents(m, current);
      forall p | p in Parents(m, current) ensures Reaches(m, start, p) {
        ReachesSelf(m, p);
        ReachesParent(m, current, p, p);
        ReachesTransitive(m, start, current, p);
      }
    }
  }

  lemma FrontierDone(m: ParentMap, start: Id, seen: set<Id>)
    requires Frontier(m, start, seen, [])
    ensures seen == Ancestors(m, start)
  {
    forall n ensures n in seen <==> n in Ancestors(m, start) {
      AncestorsIff(m, start, n);
      if Reaches(m, start, n) {
        ClosedHoldsReached(m, start, n, seen);
      }
    }
  }

  /** Stack-and-seen walk. It ends on every finite map, cyclic ones included, having seen exactly
      the nodes reachable from the start. */
  method WalkAncestors(start: Id, m: ParentMap) returns (seen: set<Id>)
    ensures seen == Ancestors(m, start)
  {
    seen := {};
    var stack := [start];
    ReachesSelf(m, start);
    while stack != []
      invariant Frontier(m, start, seen, stack)
      decreases |Universe(m, start) - seen|, |stack|
    {
      var rest, current := stack[..|stack| - 1], stack[|stack| - 1];
      assert stack == rest + [current];
      FrontierVisit(m, start, seen, rest, current);
      if current in seen {
        stack := rest;
      } else {
        SetShrinks(Universe(m, start), seen, current);
        seen := seen + {current};
        stack := rest + Parents(m, current);
      }
    }
    FrontierDone(m, start, seen);
  }

  lemma SetShrinks(all: set<Id>, seen: set<Id>, x: Id)
    requires x in all && x !in seen
    ensures |all - (seen + {x})| < |all - seen|
  {
    assert all - seen == (all - (seen + {x})) + {x};
  }

  // ----- order of checkpoints: creation time, then id -----

  type Times = map<Id, int>

  const EARLIEST := -62135596800  // datetime.min, in seconds

  function Created(created: Times, n: Id): int {
    if n in created then created[n] else EARLIEST
  }

  predicate Before(created: Times, a: Id, b: Id) {
    Created(created, a) < Created(created, b) || (Created(created, a) == Created(created, b) && a < b)
  }

  ghost predicate IsNewest(created: Times, ids: set<Id>, x: Id) {
    x in ids && forall y :: y in ids && y != x ==> Before(created, y, x)
  }

  /** The head of the list sorted newest first. */
  method Newest(created: Times, ids: set<Id>) returns (x: Id)
    requires ids != {}
    ensures IsNewest(created, ids, x)
  {
    x := Pick(ids);
    var rest := ids - {x};
    assert ids - rest == {x};
    while rest != {}
      invariant rest <= ids && IsNewest(created, ids - rest, x)
      decreases rest
    {
      var y := Pick(rest);
      assert ids - (rest - {y}) == (ids - rest) + {y};
      rest := rest - {y};
      if Before(created, x, y) {
        x := y;
      }
    }
    assert ids - rest == ids;
  }

  /** The sorted listing of a set of checkpoints. */
  ghost predicate IsListing(created: Times, ids: set<Id>, s: seq<Id>) {
    && (forall n :: n in ids <==> n in s)
    && forall i, j :: 0 <= i < j < |s| ==> Before(created, s[i], s[j])
  }

  method SortCheckpointIds(created: Times, ids: set<Id>) returns (s: seq<Id>)
    ensures IsListing(created, ids, s)
  {
    s := [];
    var rest := ids;
    while rest != {}
      invariant rest <= ids
      invariant forall n :: n in ids - rest <==> n in s
      invariant forall n, k :: n in rest && k in s ==> Before(created, n, k)
      invariant forall i, j :: 0 <= i < j < |s| ==> Before(created, s[i], s[j])
      decreases rest
    {
      var x := Newest(created, rest);
      s := [x] + s;
      rest := rest - {x};
    }
  }

  /** There is one listing. */
  lemma {:induction false} ListingUnique(created: Times, ids: set<Id>, s: seq<Id>, t: seq<Id>)
    requires IsListing(created, ids, s) && IsListing(created, ids, t)
    ensures s == t
    decreases |s|
  {
    if s == [] {
      assert forall i :: 0 <= i < |t| ==> t[i] in ids;
    } else {
      assert s[0] in s && s[0] in ids && s[0] in t;
      assert t[0] in t && t[0] in ids && t[0] in s;
      var i :| 0 <= i < |t| && t[i] == s[0];
      var j :| 0 <= j < |s| && s[j] == t[0];
      assert i == 0 && j == 0;
      ListingTail(created, ids, s);
      ListingTail(created, ids, t);
      ListingUnique(created, ids - {s[0]}, s[1..], t[1..]);
      assert s == [s[0]] + s[1..] && t == [t[0]] + t[1..];
    }
  }

  lemma ListingTail(created: Times, ids: set<Id>, s: seq<Id>)
    requires IsListing(created, ids, s) && s != []
    ensures IsListing(created, ids - {s[0]}, s[1..])
  {
    forall n ensures n in ids - {s[0]} <==> n in s[1..] {
      if n in ids - {s[0]} {
        var i :| 0 <= i < |s| && s[i] == n;
        assert s[1..][i - 1] == n;
      }
      if n in s[1..] {
        var i :| 0 <= i < |s| - 1 && s[1..][i] == n;
        assert Before(created, s[0], s[i + 1]);
      }
    }
  }

  // ----- lowest common ancestor -----

  /** In `common`, and no member of `common` has it as a proper ancestor. */
  ghost predicate IsLowest(m: ParentMap, common: set<Id>, x: Id) {
    x in common && forall y :: y in common ==> !ProperAncestor(m, y, x)
  }

  ghost function LowestOf(m: ParentMap, common: set<Id>): set<Id> {
    set x | x in common && IsLowest(m, common, x)
  }

  /** The newest lowest common node; the newest common node when none is lowest; nothing when the
      tips do not meet. */
  ghost predicate IsMergeBase(m: ParentMap, created: Times, common: set<Id>, base: Option<Id>) {
    match base
    case None => common == {}
    case Some(x) => IsNewest(created, if LowestOf(m, common) != {} then LowestOf(m, common) else common, x)
  }

  method LowestCommonAncestor(fromAnc: set<Id>, toAnc: set<Id>, m: ParentMap, created: Times) returns (base: Option<Id>)
    ensures IsMergeBase(m, created, fromAnc * toAnc, base)
  {
    var common := fromAnc * toAnc;
    if common == {} {
      return None;
    }
    var proper := ProperAncestors(common, m);
    var lcas := common - proper;
    forall x | x in common ensures x in lcas <==> IsLowest(m, common, x) {
      assert x in proper <==> AboveSome(m, common, x);
    }
    assert lcas == LowestOf(m, common);
    if lcas == {} {
      lcas := common;
    }
    var x := Newest(created, lcas);
    return Some(x);
  }

  /** Some node of the set has `x` as a proper ancestor. */
  ghost predicate AboveSome(m: ParentMap, nodes: set<Id>, x: Id) {
    exists y :: y in nodes && ProperAncestor(m, y, x)
  }

  lemma AboveOneMore(m: ParentMap, nodes: set<Id>, node: Id, x: Id)
    ensures AboveSome(m, nodes + {node}, x) <==> AboveSome(m, nodes, x) || ProperAncestor(m, node, x)
  {
  }

  /** The union of the proper ancestors of the nodes. */
  method ProperAncestors(common: set<Id>, m: ParentMap) returns (proper: set<Id>)
    ensures forall x :: x in proper <==> AboveSome(m, common, x)
  {
    proper := {};
    var rest := common;
    ghost var done: set<Id> := {};
    while rest != {}
      invariant done + rest == common
      invariant forall x :: x in proper <==> AboveSome(m, done, x)
      decreases rest
    {
      var node := Pick(rest);
      var above := ParentClosure(m, node);
      forall x ensures x in proper + above <==> AboveSome(m, done + {node}, x) {
        AboveOneMore(m, done, node, x);
      }
      rest := rest - {node};
      done := done + {node};
      proper := proper + above;
    }
    assert done == common;
  }

  /** Everything reachable from the parents of a node. */
  method ParentClosure(m: ParentMap, node: Id) returns (above: set<Id>)
    ensures forall x :: x in above <==> ProperAncestor(m, node, x)
  {
    above := {};
    var parents := Parents(m, node);
    for i := 0 to |parents|
      invariant forall x :: x in above <==> exists j :: 0 <= j < i && Reaches(m, parents[j], x)
    {
      var seen := WalkAncestors(parents[i], m);
      forall x ensures x in seen <==> Reaches(m, parents[i], x) {
        AncestorsIff(m, parents[i], x);
      }
      above := above + seen;
    }
  }

  /** On an acyclic map every non-empty finite set of nodes has a lowest one: the fallback is unreachable. */
  lemma {:induction false} SomeLowest(m: ParentMap, common: set<Id>) returns (x: Id)
    requires Acyclic(m) && common != {}
    ensures IsLowest(m, common, x)
    decreases common
  {
    var first := Member(common);
    var rest := common - {first};
    assert !ProperAncestor(m, first, first);
    if rest == {} {
      x := first;
      assert common == {first};
    } else {
      x := SomeLowest(m, rest);
      if ProperAncestor(m, first, x) {
        // Nothing in the rest is above `first`, or it would be above `x` too.
        forall y | y in common ensures !ProperAncestor(m, y, first) {
          if ProperAncestor(m, y, first) {
            ReachesIff(m, first, x);
            ProperThenReaches(m, y, first, x);
          }
        }
        x := first;
      }
    }
  }

  /** The merge base of two tips of an acyclic map: a lowest common ancestor, the newest one, the
      same with the tips swapped, and `from` itself when `from` is an ancestor of `to`. */
  lemma MergeBaseIsLowest(m: ParentMap, created: Times, a: Id, b: Id, base: Option<Id>, swapped: Option<Id>)
    requires Acyclic(m)
    requires IsMergeBase(m, created, Ancestors(m, a) * Ancestors(m, b), base)
    requires IsMergeBase(m, created, Ancestors(m, b) * Ancestors(m, a), swapped)
    ensures base == swapped
    ensures base.None? <==> forall n :: !(Reaches(m, a, n) && Reaches(m, b, n))
    ensures base.Some? ==>
              && Reaches(m, a, base.value) && Reaches(m, b, base.value)
              && forall n :: Reaches(m, a, n) && Reaches(m, b, n) ==> !ProperAncestor(m, n, base.value)
    ensures Reaches(m, b, a) ==> base == Some(a)
  {
    var common := Ancestors(m, a) * Ancestors(m, b);
    assert Ancestors(m, b) * Ancestors(m, a) == common;
    forall n ensures n in common <==> Reaches(m, a, n) && Reaches(m, b, n) {
      AncestorsIff(m, a, n);
      AncestorsIff(m, b, n);
    }
    if common != {} {
      var low := SomeLowest(m, common);
      assert low in LowestOf(m, common);
      assert base.value in LowestOf(m, common);
    }
    if Reaches(m, b, a) {
      ReachesSelf(m, a);
      FromIsLowest(m, a, common);
    }
  }

  /** When every common node is an ancestor of `a`, `a` is the only lowest one. */
  lemma FromIsLowest(m: ParentMap, a: Id, common: set<Id>)
    requires Acyclic(m) && a in common
    requires forall n :: n in common ==> Reaches(m, a, n)
    ensures LowestOf(m, common) == {a}
  {
    forall n | n in common ensures !ProperAncestor(m, n, a) {
      if ProperAncestor(m, n, a) {
        ReachesThenProper(m, a, n, a);
      }
    }
    forall n | n in common && n != a ensures !IsLowest(m, common, n) {
      ReachesIff(m, a, n);
    }
  }

  // ----- ancestry of two tips -----

  datatype Ancestry = Ancestry(fromIsAncestor: bool, toIsAncestor: bool, diverged: bool, mergeBase: Option<Id>,
                               interval: seq<Id>, fromOnly: seq<Id>, toOnly: seq<Id>)

  /** The ancestry block of a semantic diff. */
  method CompareTips(from: Id, to: Id, m: ParentMap, created: Times) returns (r: Ancestry)
    ensures IsAncestry(m, created, from, to, r)
  {
    var fromAnc := WalkAncestors(from, m);
    var toAnc := WalkAncestors(to, m);
    if from == to {
      return Ancestry(false, false, false, Some(from), [], [], []);
    }
    var base := LowestCommonAncestor(fromAnc, toAnc, m, created);
    var fromOnly := SortCheckpointIds(created, fromAnc - toAnc);
    var toOnly := SortCheckpointIds(created, toAnc - fromAnc);
    return Ancestry(from in toAnc, to in fromAnc, !(fromAnc <= toAnc) && !(toAnc <= fromAnc), base,
                    toOnly, fromOnly, toOnly);
  }

  ghost predicate IsAncestry(m: ParentMap, created: Times, from: Id, to: Id, r: Ancestry) {
    var fromAnc, toAnc := Ancestors(m, from), Ancestors(m, to);
    if from == to then r == Ancestry(false, false, false, Some(from), [], [], [])
    else
      && r.fromIsAncestor == (from in toAnc)
      && r.toIsAncestor == (to in fromAnc)
      && r.diverged == (!(fromAnc <= toAnc) && !(toAnc <= fromAnc))
      && IsMergeBase(m, created, fromAnc * toAnc, r.mergeBase)
      && IsListing(created, fromAnc - toAnc, r.fromOnly)
      && IsListing(created, toAnc - fromAnc, r.toOnly)
      && r.interval == r.toOnly
  }

  /** Two tips are equal, or one is the other's proper ancestor, or they diverged: exactly one of
      the four; and they diverged exactly when neither reaches the other. */
  lemma AncestryIsOneOfFour(m: ParentMap, created: Times, from: Id, to: Id, r: Ancestry)
    requires Acyclic(m) && IsAncestry(m, created, from, to, r)
    ensures r.fromIsAncestor <==> from != to && Reaches(m, to, from)
    ensures r.toIsAncestor <==> from != to && Reaches(m, from, to)
    ensures r.diverged <==> !Reaches(m, to, from) && !Reaches(m, from, to)
    ensures Count(from == to) + Count(r.fromIsAncestor) + Count(r.toIsAncestor) + Count(r.diverged) == 1
  {
    ReachesSelf(m, from);
    AncestorsIff(m, from, to);
    AncestorsIff(m, to, from);
    AncestorsIff(m, from, from);
    AncestorsIff(m, to, to);
    OnlyIfUnreached(m, from, to);
    OnlyIfUnreached(m, to, from);
    if from != to && Reaches(m, to, from) && Reaches(m, from, to) {
      ReachesIff(m, from, to);
      ProperThenReaches(m, from, to, from);
    }
  }

  function Count(b: bool): nat {
    if b then 1 else 0
  }

  /** `a` has ancestors that `b` lacks exactly when `b` does not reach `a`. */
  lemma OnlyIfUnreached(m: ParentMap, a: Id, b: Id)
    ensures Ancestors(m, a) <= Ancestors(m, b) <==> Reaches(m, b, a)
  {
    ReachesSelf(m, a);
    AncestorsIff(m, a, a);
    AncestorsIff(m, b, a);
    if Reaches(m, b, a) {
      forall n | n in Ancestors(m, a) ensures n in Ancestors(m, b) {
        AncestorsIff(m, a, n);
        ReachesTransitive(m, b, a, n);
        AncestorsIff(m, b, n);
      }
    }
  }

  // ----- stability -----

  /** Every parent of a recorded node is recorded. */
  ghost predicate Closed(m: ParentMap) {
    forall n, p :: n in m && p in m[n] ==> p in m
  }

  /** `later` records everything `m` did, unchanged, and possibly more. */
  ghost predicate Extends(m: ParentMap, later: ParentMap) {
    forall n :: n in m ==> n in later && later[n] == m[n]
  }

  lemma ReachesStable(m: ParentMap, later: ParentMap, a: Id, b: Id)
    requires Closed(m) && Extends(m, later) && a in m
    ensures Reaches(later, a, b) <==> Reaches(m, a, b)
    ensures Reaches(m, a, b) ==> b in m
  {
    if Reaches(m, a, b) {
      ClosedHoldsReached(m, a, b, m.Keys);
      var path :| IsPath(m, path) && path[0] == a && path[|path| - 1] == b;
      PathMoves(m, later, path);
    }
    if Reaches(later, a, b) {
      var path :| IsPath(later, path) && path[0] == a && path[|path| - 1] == b;
      PathReturns(m, later, path);
    }
  }

  lemma {:induction false} PathMoves(m: ParentMap, later: ParentMap, path: seq<Id>)
    requires Extends(m, later) && IsPath(m, path)
    ensures IsPath(later, path)
  {
    forall i | 0 <= i < |path| - 1 ensures path[i + 1] in Parents(later, path[i]) {
      assert path[i + 1] in Parents(m, path[i]);
    }
  }

  lemma {:induction false} PathReturns(m: ParentMap, later: ParentMap, path: seq<Id>)
    requires Closed(m) && Extends(m, later) && IsPath(later, path) && path[0] in m
    ensures IsPath(m, path) && forall i :: 0 <= i < |path| ==> path[i] in m
  {
    if |path| > 1 {
      var init := path[..|path| - 1];
      assert IsPath(later, init);
      PathReturns(m, later, init);
      var n := |path| - 2;
      assert path[n] == init[n] && path[n + 1] in Parents(later, path[n]);
      forall i | 0 <= i < |path| - 1 ensures path[i + 1] in Parents(m, path[i]) {
        if i < n {
          assert init[i + 1] in Parents(m, init[i]);
        }
      }
    }
  }

  lemma AncestorsStable(m: ParentMap, later: ParentMap, a: Id)
    requires Closed(m) && Extends(m, later) && a in m
    ensures Ancestors(later, a) == Ancestors(m, a)
    ensures Ancestors(m, a) <= m.Keys
  {
    forall n ensures n in Ancestors(later, a) <==> n in Ancestors(m, a) {
      AncestorsIff(m, a, n);
      AncestorsIff(later, a, n);
      ReachesStable(m, later, a, n);
    }
    forall n | n in Ancestors(m, a) ensures n in m {
      AncestorsIff(m, a, n);
      ReachesStable(m, later, a, n);
    }
  }

  /** Whatever is recorded later, the ancestry of two recorded tips stays the one it was. */
  lemma AncestryStable(m: ParentMap, later: ParentMap, created: Times, laterCreated: Times,
                       from: Id, to: Id, r: Ancestry, again: Ancestry)
    requires Closed(m) && Extends(m, later) && from in m && to in m
    requires forall n :: n in m ==> Created(laterCreated, n) == Created(created, n)
    requires IsAncestry(m, created, from, to, r) && IsAncestry(later, laterCreated, from, to, again)
    ensures r == again
  {
    AncestorsStable(m, later, from);
    AncestorsStable(m, later, to);
    var fromAnc, toAnc := Ancestors(m, from), Ancestors(m, to);
    if from != to {
      SameListing(created, laterCreated, fromAnc - toAnc, r.fromOnly, again.fromOnly);
      SameListing(created, laterCreated, toAnc - fromAnc, r.toOnly, again.toOnly);
      SameBase(m, later, created, laterCreated, fromAnc * toAnc, r.mergeBase, again.mergeBase);
    }
  }

  lemma SameListing(created: Times, later: Times, ids: set<Id>, s: seq<Id>, t: seq<Id>)
    requires IsListing(created, ids, s) && IsListing(later, ids, t)
    requires forall n :: n in ids ==> Created(later, n) == Created(created, n)
    ensures s == t
  {
    ListingMoves(created, later, ids, s);
    ListingUnique(later, ids, s, t);
  }

  lemma SameBase(m: ParentMap, later: ParentMap, created: Times, laterCreated: Times, common: set<Id>,
                 base: Option<Id>, again: Option<Id>)
    requires Closed(m) && Extends(m, later) && common <= m.Keys
    requires forall n :: n in common ==> Created(laterCreated, n) == Created(created, n)
    requires IsMergeBase(m, created, common, base) && IsMergeBase(later, laterCreated, common, again)
    ensures base == again
  {
    LowestStable(m, later, common);
    if base.Some? {
      var ids := if LowestOf(m, common) != {} then LowestOf(m, common) else common;
      assert forall y :: y in ids && y != base.value ==> Before(laterCreated, y, base.value);
    }
  }

  lemma ListingMoves(created: Times, later: Times, ids: set<Id>, s: seq<Id>)
    requires IsListing(created, ids, s)
    requires forall n :: n in ids ==> Created(later, n) == Created(created, n)
    ensures IsListing(later, ids, s)
  {
    forall i | 0 <= i < |s| ensures s[i] in ids {
      assert s[i] in s;
    }
  }

  lemma LowestStable(m: ParentMap, later: ParentMap, common: set<Id>)
    requires Closed(m) && Extends(m, later) && common <= m.Keys
    ensures LowestOf(later, common) == LowestOf(m, common)
  {
    forall y, x | y in common && x in common ensures ProperAncestor(later, y, x) <==> ProperAncestor(m, y, x) {
      forall p | p in Parents(m, y) ensures Reaches(later, p, x) <==> Reaches(m, p, x) {
        ReachesStable(m, later, p, x);
      }
    }
  }

  /** A new node whose parents are all recorded closes no cycle. */
  lemma AppendKeepsAcyclic(m: ParentMap, n: Id, parents: seq<Id>)
    requires Closed(m) && Acyclic(m) && n !in m
    requires forall p :: p in parents ==> p in m
    ensures Closed(m[n := parents]) && Acyclic(m[n := parents])
  {
    var later := m[n := parents];
    forall a, p | p in Parents(later, a) ensures !Reaches(later, p, a) {
      ReachesStable(m, later, p, a);
      if a in m {
        assert Parents(later, a) == Parents(m, a) && !ProperAncestor(m, a, a);
      }
    }
  }
}
