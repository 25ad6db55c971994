/** The shared daily-token meter: hold, release and spend rows on one project's ledger,
    and its two readers - the writer's `UnmatchedHolds` and the dashboard's `PairHolds`.

    A row's notes are represented by what they parse to: the row kind and, for a hold or a
    release, the `hold_id` (absent on leftovers from before 0.48). */
module HarnessMeter {
  import opened Common

  type Id = int
  type Time = real

  const TURN_DURATION_MARGIN: Time := 5.0

  datatype Kind = Hold(hid: Option<Id>) | Release(hid: Option<Id>) | Spend

  datatype Row = Row(actor: Option<Id>, tokens: int, at: Time, kind: Kind)

  /** A hold and the release that closed it, as the dashboard shows it. */
  datatype PairedHold = PairedHold(hid: Option<Id>, open: bool, tokens: int, at: Time, releasedAt: Option<Time>)

  // ----- settings checks -----

  /** A hold may be recovered only after it has been open for `ttl` seconds; a TTL below one
      second never recovers anything. */
  predicate IsStale(at: Time, ttl: int, now: Time) {
    ttl >= 1 && now - at >= ttl as Time
  }

  function MaxTurnDuration(timeout: Time): Time {
    timeout + TURN_DURATION_MARGIN
  }

  predicate HoldTtlCoversTurn(ttl: int, timeout: Time) {
    ttl >= 1 && timeout > 0.0 && ttl as Time > MaxTurnDuration(timeout)
  }

  // ----- the day's sum and the open holds, as functions of the rows -----

  /** Sum of `tokens` over the rows: what the daily cap is compared with. */
  function TokensToday(rows: seq<Row>): int {
    if rows == [] then 0 else TokensToday(rows[..|rows| - 1]) + rows[|rows| - 1].tokens
  }

  lemma TokensAppend(rows: seq<Row>, r: Row)
    ensures TokensToday(rows + [r]) == TokensToday(rows) + r.tokens
  {
    assert (rows + [r])[..|rows|] == rows;
  }

  /** The hold ids that some release names. */
  function ReleasedIds(rows: seq<Row>): set<Id> {
    if rows == [] then {}
    else
      var last := rows[|rows| - 1];
      ReleasedIds(rows[..|rows| - 1])
      + if last.kind.Release? && last.kind.hid.Some? then {last.kind.hid.value} else {}
  }

  predicate IsIdHold(r: Row) {
    r.kind.Hold? && r.kind.hid.Some?
  }

  /** The id-carrying holds among `rows` whose id is not in `released`, in row order. */
  function OpenAmong(rows: seq<Row>, released: set<Id>): seq<Row> {
    if rows == [] then []
    else
      var last := rows[|rows| - 1];
      if IsIdHold(last) && last.kind.hid.value !in released
      then OpenAmong(rows[..|rows| - 1], released) + [last]
      else OpenAmong(rows[..|rows| - 1], released)
  }

  /** The open id-carrying holds of a ledger. */
  function OpenHolds(rows: seq<Row>): seq<Row> {
    OpenAmong(rows, ReleasedIds(rows))
  }

  lemma OpenAmongAppend(rows: seq<Row>, r: Row, released: set<Id>)
    ensures OpenAmong(rows + [r], released)
         == if IsIdHold(r) && r.kind.hid.value !in released then OpenAmong(rows, released) + [r]
            else OpenAmong(rows, released)
  {
    assert (rows + [r])[..|rows|] == rows;
  }

  lemma ReleasedAppend(rows: seq<Row>, r: Row)
    ensures ReleasedIds(rows + [r])
         == if r.kind.Release? && r.kind.hid.Some? then ReleasedIds(rows) + {r.kind.hid.value}
            else ReleasedIds(rows)
  {
    assert (rows + [r])[..|rows|] == rows;
  }

  lemma {:induction false} ReleasedIff(rows: seq<Row>, h: Id)
    ensures h in ReleasedIds(rows) <==> exists r :: r in rows && r.kind == Release(Some(h))
  {
    if rows != [] {
      var prefix, last := rows[..|rows| - 1], rows[|rows| - 1];
      ReleasedIff(prefix, h);
      assert rows == prefix + [last];
    }
  }

  /** Membership form of `OpenAmong`. */
  lemma {:induction false} OpenAmongIff(rows: seq<Row>, released: set<Id>, r: Row)
    ensures r in OpenAmong(rows, released) <==> r in rows && IsIdHold(r) && r.kind.hid.value !in released
  {
    if rows != [] {
      var prefix, last := rows[..|rows| - 1], rows[|rows| - 1];
      OpenAmongIff(prefix, released, r);
      assert rows == prefix + [last];
    }
  }

  // ----- leftovers without an id, paired first-in first-out -----

  function LegacyHolds(rows: seq<Row>): seq<Row> {
    if rows == [] then []
    else
      var last := rows[|rows| - 1];
      if last.kind == Hold(None) then LegacyHolds(rows[..|rows| - 1]) + [last] else LegacyHolds(rows[..|rows| - 1])
  }

  function LegacyReleases(rows: seq<Row>): seq<Row> {
    if rows == [] then []
    else
      var last := rows[|rows| - 1];
      if last.kind == Release(None) then LegacyReleases(rows[..|rows| - 1]) + [last] else LegacyReleases(rows[..|rows| - 1])
  }

  /** The hold rows, in order. */
  function Holds(rows: seq<Row>): seq<Row> {
    if rows == [] then []
    else
      var last := rows[|rows| - 1];
      if last.kind.Hold? then Holds(rows[..|rows| - 1]) + [last] else Holds(rows[..|rows| - 1])
  }

  lemma {:induction false} HoldsAreHolds(rows: seq<Row>, r: Row)
    ensures r in Holds(rows) ==> r.kind.Hold?
  {
    if rows != [] {
      HoldsAreHolds(rows[..|rows| - 1], r);
    }
  }

  /** Walk the id-less holds, letting a token budget cover each in turn. */
  function Uncovered(holds: seq<Row>, budget: int): seq<Row> {
    if holds == [] then []
    else if budget >= holds[0].tokens then Uncovered(holds[1..], budget - holds[0].tokens)
    else [holds[0]] + Uncovered(holds[1..], budget)
  }

  function Unmatched(rows: seq<Row>): seq<Row> {
    OpenHolds(rows) + Uncovered(LegacyHolds(rows), -TokensToday(LegacyReleases(rows)))
  }

  /** What one more row does to each of the classified views. */
  lemma ClassifyAppend(rows: seq<Row>, r: Row)
    ensures LegacyHolds(rows + [r])
         == if r.kind == Hold(None) then LegacyHolds(rows) + [r] else LegacyHolds(rows)
    ensures LegacyReleases(rows + [r])
         == if r.kind == Release(None) then LegacyReleases(rows) + [r] else LegacyReleases(rows)
    ensures Holds(rows + [r]) == if r.kind.Hold? then Holds(rows) + [r] else Holds(rows)
  {
    assert (rows + [r])[..|rows|] == rows;
  }

  datatype Split = Split(releasedIds: set<Id>, legacyReleaseTokens: int, identified: seq<Row>, legacy: seq<Row>)

  function ClassifyRow(acc: Split, row: Row): Split {
    match row.kind
    case Release(Some(h)) => acc.(releasedIds := acc.releasedIds + {h})
    case Release(None) => acc.(legacyReleaseTokens := acc.legacyReleaseTokens + row.tokens)
    case Hold(Some(_)) => acc.(identified := acc.identified + [row])
    case Hold(None) => acc.(legacy := acc.legacy + [row])
    case Spend => acc
  }

  function ClassifyAll(rows: seq<Row>): Split {
    if rows == [] then Split({}, 0, [], [])
    else ClassifyRow(ClassifyAll(rows[..|rows| - 1]), rows[|rows| - 1])
  }

  /** The one-pass classification computes the four separate views. */
  lemma {:induction false} ClassifyAllMeans(rows: seq<Row>)
    ensures ClassifyAll(rows)
         == Split(ReleasedIds(rows), TokensToday(LegacyReleases(rows)), OpenAmong(rows, {}), LegacyHolds(rows))
  {
    if rows != [] {
      var prefix, row := rows[..|rows| - 1], rows[|rows| - 1];
      assert rows == prefix + [row];
      ClassifyAllMeans(prefix);
      ReleasedAppend(prefix, row);
      OpenAmongAppend(prefix, row, {});
      ClassifyAppend(prefix, row);
      TokensAppend(LegacyReleases(prefix), row);
    }
  }

  method Classify(rows: seq<Row>) returns (split: Split)
    ensures split == ClassifyAll(rows)
  {
    split := Split({}, 0, [], []);
    for i := 0 to |rows|
      invariant split == ClassifyAll(rows[..i])
    {
      assert rows[..i + 1][..i] == rows[..i];
      split := ClassifyRow(split, rows[i]);
    }
    assert rows[..|rows|] == rows;
  }

  /** The id-carrying holds that no release names. */
  method KeepUnreleased(identified: seq<Row>, releasedIds: set<Id>) returns (open: seq<Row>)
    requires forall r :: r in identified ==> IsIdHold(r)
    ensures open == OpenAmong(identified, releasedIds)
  {
    open := [];
    for i := 0 to |identified|
      invariant open == OpenAmong(identified[..i], releasedIds)
    {
      assert identified[..i + 1] == identified[..i] + [identified[i]];
      OpenAmongAppend(identified[..i], identified[i], releasedIds);
      if identified[i].kind.hid.value !in releasedIds {
        open := open + [identified[i]];
      }
    }
    assert identified[..|identified|] == identified;
  }

  /** The id-less holds that the releases' total does not cover, first in first out. */
  method KeepUncovered(legacy: seq<Row>, budget: int) returns (open: seq<Row>)
    ensures open == Uncovered(legacy, budget)
  {
    open := [];
    var remaining := budget;
    for i := 0 to |legacy|
      invariant open + Uncovered(legacy[i..], remaining) == Uncovered(legacy, budget)
    {
      assert legacy[i..][1..] == legacy[i + 1..];
      if remaining >= legacy[i].tokens {
        remaining := remaining - legacy[i].tokens;
      } else {
        open := open + [legacy[i]];
      }
    }
  }

  /** The writer's reader: hold rows without a matching release. */
  method UnmatchedHolds(rows: seq<Row>) returns (open: seq<Row>)
    ensures open == Unmatched(rows)
  {
    var split := Classify(rows);
    ClassifyAllMeans(rows);
    OpenAmongTwice(rows, split.releasedIds);
    forall r | r in split.identified ensures IsIdHold(r) {
      OpenAmongIff(rows, {}, r);
    }
    open := KeepUnreleased(split.identified, split.releasedIds);
    var leftovers := KeepUncovered(split.legacy, -split.legacyReleaseTokens);
    open := open + leftovers;
  }

  /** Filtering in two stages is filtering once. */
  lemma {:induction false} OpenAmongTwice(rows: seq<Row>, released: set<Id>)
    ensures OpenAmong(OpenAmong(rows, {}), released) == OpenAmong(rows, released)
  {
    if rows != [] {
      var prefix, last := rows[..|rows| - 1], rows[|rows| - 1];
      OpenAmongTwice(prefix, released);
      assert rows == prefix + [last];
      OpenAmongAppend(prefix, last, {});
      OpenAmongAppend(prefix, last, released);
      if IsIdHold(last) {
        OpenAmongAppend(OpenAmong(prefix, {}), last, released);
      }
    }
  }

  // ----- the dashboard's reader -----

  /** Order of the dashboard payload: creation time, then hold id (absent sorts first). */
  predicate PairBefore(a: PairedHold, b: PairedHold) {
    a.at < b.at || (a.at == b.at && (a.hid.None? || (b.hid.Some? && a.hid.value <= b.hid.value)))
  }

  predicate PairsSorted(s: seq<PairedHold>) {
    forall i, j :: 0 <= i < j < |s| ==> PairBefore(s[i], s[j])
  }

  function InsertPair(p: PairedHold, sorted: seq<PairedHold>): seq<PairedHold> {
    if sorted == [] then [p]
    else
      var init, last := sorted[..|sorted| - 1], sorted[|sorted| - 1];
      if PairBefore(last, p) then sorted + [p] else InsertPair(p, init) + [last]
  }

  lemma {:induction false} InsertPairKeepsAll(p: PairedHold, sorted: seq<PairedHold>)
    ensures multiset(InsertPair(p, sorted)) == multiset(sorted) + multiset{p}
  {
    if sorted != [] {
      var init, last := sorted[..|sorted| - 1], sorted[|sorted| - 1];
      assert sorted == init + [last];
      InsertPairKeepsAll(p, init);
    }
  }

  lemma {:induction false} InsertPairMembers(p: PairedHold, sorted: seq<PairedHold>, q: PairedHold)
    ensures q in InsertPair(p, sorted) <==> q == p || q in sorted
  {
    InsertPairKeepsAll(p, sorted);
    assert q in InsertPair(p, sorted) <==> q in multiset(InsertPair(p, sorted));
  }

  lemma {:induction false} InsertPairSorts(p: PairedHold, sorted: seq<PairedHold>)
    requires PairsSorted(sorted)
    ensures PairsSorted(InsertPair(p, sorted))
  {
    if sorted != [] {
      var init, last := sorted[..|sorted| - 1], sorted[|sorted| - 1];
      if !PairBefore(last, p) {
        InsertPairSorts(p, init);
        var r := InsertPair(p, init);
        forall i | 0 <= i < |r| ensures PairBefore(r[i], last) {
          InsertPairMembers(p, init, r[i]);
        }
      }
    }
  }

  function SortPairs(s: seq<PairedHold>): seq<PairedHold> {
    if s == [] then [] else InsertPair(s[|s| - 1], SortPairs(s[..|s| - 1]))
  }

  lemma {:induction false} SortPairsSorts(s: seq<PairedHold>)
    ensures PairsSorted(SortPairs(s))
    ensures multiset(SortPairs(s)) == multiset(s)
  {
    if s != [] {
      var init, last := s[..|s| - 1], s[|s| - 1];
      assert s == init + [last];
      SortPairsSorts(init);
      InsertPairSorts(last, SortPairs(init));
      InsertPairKeepsAll(last, SortPairs(init));
    }
  }

  /** The first release naming each id. */
  function ReleasesById(rows: seq<Row>): (m: map<Id, Row>)
    ensures m.Keys == ReleasedIds(rows)
  {
    if rows == [] then map[]
    else
      var m, last := ReleasesById(rows[..|rows| - 1]), rows[|rows| - 1];
      if last.kind.Release? && last.kind.hid.Some? && last.kind.hid.value !in m then m[last.kind.hid.value := last] else m
  }

  /** The release a hold is paired with: the one naming its id, or for the k-th id-less hold the k-th
      id-less release. */
  function PairedRelease(hold: Row, legacyBefore: nat, byId: map<Id, Row>, legacy: seq<Row>): Option<Row>
    requires hold.kind.Hold?
  {
    if hold.kind.hid.Some? then
      if hold.kind.hid.value in byId then Some(byId[hold.kind.hid.value]) else None
    else if legacyBefore < |legacy| then Some(legacy[legacyBefore])
    else None
  }

  /** How one hold is shown. */
  function PairEntry(hold: Row, release: Option<Row>): PairedHold
    requires hold.kind.Hold?
  {
    PairedHold(hold.kind.hid, release.None?, hold.tokens, hold.at, if release.Some? then Some(release.value.at) else None)
  }

  /** One entry per hold row, in row order. */
  function Pairs(rows: seq<Row>, byId: map<Id, Row>, legacy: seq<Row>): seq<PairedHold> {
    if rows == [] then []
    else
      var prefix, last := rows[..|rows| - 1], rows[|rows| - 1];
      if last.kind.Hold? then
        Pairs(prefix, byId, legacy) + [PairEntry(last, PairedRelease(last, |LegacyHolds(prefix)|, byId, legacy))]
      else Pairs(prefix, byId, legacy)
  }

  /** What the dashboard shows of a ledger, before sorting. */
  function Shown(rows: seq<Row>): seq<PairedHold> {
    Pairs(rows, ReleasesById(rows), LegacyReleases(rows))
  }

  lemma PairsAppend(rows: seq<Row>, r: Row, byId: map<Id, Row>, legacy: seq<Row>)
    ensures Pairs(rows + [r], byId, legacy) ==
            if r.kind.Hold?
            then Pairs(rows, byId, legacy) + [PairEntry(r, PairedRelease(r, |LegacyHolds(rows)|, byId, legacy))]
            else Pairs(rows, byId, legacy)
  {
    assert (rows + [r])[..|rows|] == rows;
  }

  /** Rows that are not holds leave no trace in the pairs. */
  lemma {:induction false} PairsOfHolds(rows: seq<Row>, byId: map<Id, Row>, legacy: seq<Row>)
    ensures LegacyHolds(Holds(rows)) == LegacyHolds(rows)
    ensures Pairs(Holds(rows), byId, legacy) == Pairs(rows, byId, legacy)
  {
    if rows != [] {
      var prefix, last := rows[..|rows| - 1], rows[|rows| - 1];
      PairsOfHolds(prefix, byId, legacy);
      ClassifyAppend(prefix, last);
      PairsAppend(prefix, last, byId, legacy);
      assert rows == prefix + [last];
      if last.kind.Hold? {
        ClassifyAppend(Holds(prefix), last);
        PairsAppend(Holds(prefix), last, byId, legacy);
      }
    }
  }

  method SplitForPairing(rows: seq<Row>)
    returns (releasesById: map<Id, Row>, legacyReleases: seq<Row>, holds: seq<Row>)
    ensures releasesById == ReleasesById(rows)
    ensures legacyReleases == LegacyReleases(rows)
    ensures holds == Holds(rows)
  {
    releasesById, legacyReleases, holds := map[], [], [];
    for i := 0 to |rows|
      invariant releasesById == ReleasesById(rows[..i])
      invariant legacyReleases == LegacyReleases(rows[..i])
      invariant holds == Holds(rows[..i])
    {
      var row := rows[i];
      ClassifyAppend(rows[..i], row);
      assert rows[..i + 1] == rows[..i] + [row];
      assert rows[..i + 1][..i] == rows[..i];
      match row.kind
      case Release(Some(h)) =>
        if h !in releasesById {
          releasesById := releasesById[h := row];
        }
      case Release(None) => legacyReleases := legacyReleases + [row];
      case Hold(_) => holds := holds + [row];
      case Spend =>
    }
    assert rows[..|rows|] == rows;
  }

  /** The dashboard's reader: every hold row with its status and the time of its release, in display order. */
  method PairHolds(rows: seq<Row>) returns (paired: seq<PairedHold>)
    ensures PairsSorted(paired)
    ensures multiset(paired) == multiset(Shown(rows))
  {
    var releasesById, legacyReleases, holds := SplitForPairing(rows);
    PairsOfHolds(rows, releasesById, legacyReleases);
    paired := [];
    var legacyIndex := 0;
    for i := 0 to |holds|
      invariant legacyIndex == Min(|LegacyHolds(holds[..i])|, |legacyReleases|)
      invariant paired == Pairs(holds[..i], releasesById, legacyReleases)
    {
      var hold := holds[i];
      assert holds[..i + 1] == holds[..i] + [hold];
      HoldsAreHolds(rows, hold);
      ClassifyAppend(holds[..i], hold);
      PairsAppend(holds[..i], hold, releasesById, legacyReleases);
      var release: Option<Row> := None;
      match hold.kind {
        case Hold(Some(h)) =>
          if h in releasesById {
            release := Some(releasesById[h]);
          }
        case Hold(None) =>
          if legacyIndex < |legacyReleases| {
            release := Some(legacyReleases[legacyIndex]);
            legacyIndex := legacyIndex + 1;
          }
      }
      assert release == PairedRelease(hold, |LegacyHolds(holds[..i])|, releasesById, legacyReleases);
      paired := paired + [PairEntry(hold, release)];
    }
    assert holds[..|holds|] == holds;
    SortPairsSorts(paired);
    paired := SortPairs(paired);
  }

  // ----- the two readers agree on every hold that carries an id -----

  ghost predicate WriterSeesOpen(rows: seq<Row>, h: Id) {
    exists r :: r in Unmatched(rows) && r.kind == Hold(Some(h))
  }

  ghost predicate DashboardSeesOpen(rows: seq<Row>, h: Id) {
    exists p :: p in Shown(rows) && p.hid == Some(h) && p.open
  }

  /** On any rows at all - duplicated ids, releases without holds, id-less leftovers in between -
      the writer counts the hold `h` open exactly when the dashboard shows it open. */
  lemma ReadersAgree(rows: seq<Row>, h: Id)
    ensures WriterSeesOpen(rows, h) <==> DashboardSeesOpen(rows, h)
    ensures WriterSeesOpen(rows, h) <==>
            (exists r :: r in rows && r.kind == Hold(Some(h))) && h !in ReleasedIds(rows)
  {
    WriterSees(rows, h);
    PairsIff(rows, ReleasesById(rows), LegacyReleases(rows), h);
  }

  lemma WriterSees(rows: seq<Row>, h: Id)
    ensures WriterSeesOpen(rows, h) <==>
            (exists r :: r in rows && r.kind == Hold(Some(h))) && h !in ReleasedIds(rows)
  {
    forall r ensures r in Unmatched(rows) && r.kind == Hold(Some(h)) <==>
                     r in rows && r.kind == Hold(Some(h)) && h !in ReleasedIds(rows) {
      OpenAmongIff(rows, ReleasedIds(rows), r);
      UncoveredAreLegacy(LegacyHolds(rows), -TokensToday(LegacyReleases(rows)), r);
      LegacyHoldsAreLegacy(rows, r);
    }
  }

  lemma {:induction false} PairsIff(rows: seq<Row>, byId: map<Id, Row>, legacy: seq<Row>, h: Id)
    ensures (exists p :: p in Pairs(rows, byId, legacy) && p.hid == Some(h) && p.open)
       <==> (exists r :: r in rows && r.kind == Hold(Some(h))) && h !in byId
  {
    if rows != [] {
      var prefix, last := rows[..|rows| - 1], rows[|rows| - 1];
      PairsIff(prefix, byId, legacy, h);
      assert rows == prefix + [last];
      if last.kind == Hold(Some(h)) {
        assert last in rows;
        var p := PairEntry(last, PairedRelease(last, |LegacyHolds(prefix)|, byId, legacy));
        assert p in Pairs(rows, byId, legacy) && p.hid == Some(h) && (p.open <==> h !in byId);
      }
    }
  }

  lemma {:induction false} UncoveredAreLegacy(holds: seq<Row>, budget: int, r: Row)
    ensures r in Uncovered(holds, budget) ==> r in holds
  {
    if holds != [] {
      UncoveredAreLegacy(holds[1..], budget - holds[0].tokens, r);
      UncoveredAreLegacy(holds[1..], budget, r);
    }
  }

  lemma {:induction false} LegacyHoldsAreLegacy(rows: seq<Row>, r: Row)
    ensures r in LegacyHolds(rows) ==> r.kind == Hold(None)
  {
    if rows != [] {
      LegacyHoldsAreLegacy(rows[..|rows| - 1], r);
    }
  }

  // ----- and on id-less leftovers exactly under a condition -----

  /** The writer's verdict on each id-less hold in turn: covered by what is left of the budget or not. */
  function Covered(holds: seq<Row>, budget: int): (flags: seq<bool>)
    ensures |flags| == |holds|
  {
    if holds == [] then []
    else if budget >= holds[0].tokens then [true] + Covered(holds[1..], budget - holds[0].tokens)
    else [false] + Covered(holds[1..], budget)
  }

  /** The holds whose flag is not set. */
  function Unflagged(holds: seq<Row>, flags: seq<bool>): seq<Row>
    requires |flags| == |holds|
  {
    if holds == [] then []
    else (if flags[0] then [] else [holds[0]]) + Unflagged(holds[1..], flags[1..])
  }

  lemma {:induction false} UncoveredIsUnflagged(holds: seq<Row>, budget: int)
    ensures Uncovered(holds, budget) == Unflagged(holds, Covered(holds, budget))
  {
    if holds != [] {
      var covered := budget >= holds[0].tokens;
      UncoveredIsUnflagged(holds[1..], if covered then budget - holds[0].tokens else budget);
    }
  }

  /** The dashboard's entries of id-less holds, in order. */
  function LegacyShown(paired: seq<PairedHold>): seq<PairedHold> {
    if paired == [] then []
    else
      var last := paired[|paired| - 1];
      if last.hid.None? then LegacyShown(paired[..|paired| - 1]) + [last] else LegacyShown(paired[..|paired| - 1])
  }

  /** The i-th id-less entry is the i-th id-less hold, closed exactly when there is an i-th id-less release. */
  lemma {:induction false} LegacyShownAt(rows: seq<Row>, byId: map<Id, Row>, legacy: seq<Row>)
    ensures var shown, holds := LegacyShown(Pairs(rows, byId, legacy)), LegacyHolds(rows);
            && |shown| == |holds|
            && forall i :: 0 <= i < |holds| ==>
                 shown[i].tokens == holds[i].tokens && shown[i].at == holds[i].at && (shown[i].open <==> i >= |legacy|)
  {
    if rows != [] {
      var prefix := rows[..|rows| - 1];
      LegacyShownAt(prefix, byId, legacy);
      var paired := Pairs(rows, byId, legacy);
      assert rows[|rows| - 1].kind.Hold? ==> paired[..|paired| - 1] == Pairs(prefix, byId, legacy);
    }
  }

  /** Hold by hold, the writer covers an id-less hold exactly when the dashboard closes it. */
  ghost predicate LegacyReadersAgree(rows: seq<Row>) {
    var flags, shown := Covered(LegacyHolds(rows), LegacyBudget(rows)), LegacyShown(Shown(rows));
    |flags| == |shown| && forall i :: 0 <= i < |flags| ==> (flags[i] <==> !shown[i].open)
  }

  /** The exact condition. Each hold is positive. Then the readers agree on the id-less leftovers exactly
      when the releases' total covers the holds the dashboard closes - the first ones, one per release -
      and what is left over covers none of the others. */
  lemma LegacyReadersAgreeExactly(rows: seq<Row>)
    requires Positive(LegacyHolds(rows))
    ensures LegacyReadersAgree(rows) <==> PaysForFirst(LegacyHolds(rows), LegacyBudget(rows), LegacyClosed(rows))
  {
    ShownFlags(rows);
    CoversFirst(LegacyHolds(rows), LegacyBudget(rows), LegacyClosed(rows));
  }

  predicate Positive(holds: seq<Row>) {
    forall r :: r in holds ==> r.tokens > 0
  }

  function LegacyBudget(rows: seq<Row>): int {
    -TokensToday(LegacyReleases(rows))
  }

  /** How many id-less holds the dashboard closes. */
  function LegacyClosed(rows: seq<Row>): (n: nat)
    ensures n <= |LegacyHolds(rows)|
  {
    Min(|LegacyReleases(rows)|, |LegacyHolds(rows)|)
  }

  /** The dashboard closes the first holds, one per release. */
  lemma ShownFlags(rows: seq<Row>)
    ensures LegacyReadersAgree(rows) <==> FirstOnly(Covered(LegacyHolds(rows), LegacyBudget(rows)), LegacyClosed(rows))
  {
    LegacyShownAt(rows, ReleasesById(rows), LegacyReleases(rows));
    FlagsAgree(Covered(LegacyHolds(rows), LegacyBudget(rows)), LegacyShown(Shown(rows)), |LegacyReleases(rows)|);
  }

  lemma FlagsAgree(flags: seq<bool>, shown: seq<PairedHold>, n: nat)
    requires |flags| == |shown| && forall i :: 0 <= i < |shown| ==> (shown[i].open <==> i >= n)
    ensures (forall i :: 0 <= i < |flags| ==> (flags[i] <==> !shown[i].open)) <==>
            FirstOnly(flags, Min(n, |flags|))
  {
  }

  /** Exactly the first `n` flags are set. */
  predicate FirstOnly(flags: seq<bool>, n: nat) {
    forall i :: 0 <= i < |flags| ==> (flags[i] <==> i < n)
  }

  /** The budget pays for the first `n` holds, and what is left pays for none of the others. */
  predicate PaysForFirst(holds: seq<Row>, budget: int, n: nat)
    requires n <= |holds|
  {
    && (n > 0 ==> TokensToday(holds[..n]) <= budget)
    && OthersExceed(holds, budget - TokensToday(holds[..n]), n)
  }

  predicate OthersExceed(holds: seq<Row>, left: int, n: nat) {
    forall i :: n <= i < |holds| ==> holds[i].tokens > left
  }

  /** A budget covers exactly the first `n` of some positive holds when it pays for them and what is left
      pays for none of the rest. */
  lemma {:induction false} CoversFirst(holds: seq<Row>, budget: int, n: nat)
    requires n <= |holds| && Positive(holds)
    ensures FirstOnly(Covered(holds, budget), n) <==> PaysForFirst(holds, budget, n)
  {
    if holds != [] {
      var rest := holds[1..];
      assert forall r :: r in rest ==> r in holds;
      CoversShift(holds, budget, n);
      PaysShift(holds, budget, n);
      if n > 0 {
        CoversFirst(rest, budget - holds[0].tokens, n - 1);
      } else {
        CoversFirst(rest, budget, 0);
      }
    }
  }

  lemma PaysShift(holds: seq<Row>, budget: int, n: nat)
    requires holds != [] && n <= |holds| && Positive(holds)
    ensures PaysForFirst(holds, budget, n) <==>
              if n > 0 then holds[0].tokens <= budget && PaysForFirst(holds[1..], budget - holds[0].tokens, n - 1)
              else holds[0].tokens > budget && PaysForFirst(holds[1..], budget, 0)
  {
    if n > 0 {
      PaysForHead(holds, budget, n);
    } else {
      assert TokensToday(holds[..0]) == 0 && TokensToday(holds[1..][..0]) == 0;
      OthersShift(holds, budget, 0);
    }
  }

  lemma PaysForHead(holds: seq<Row>, budget: int, n: nat)
    requires 0 < n <= |holds| && Positive(holds)
    ensures PaysForFirst(holds, budget, n) <==>
              holds[0].tokens <= budget && PaysForFirst(holds[1..], budget - holds[0].tokens, n - 1)
  {
    var head, rest := holds[0], holds[1..];
    assert forall r :: r in rest[..n - 1] ==> r in holds;
    assert holds[..n] == [head] + rest[..n - 1];
    TokensCons(head, rest[..n - 1]);
    NonNegative(rest[..n - 1]);
    OthersShift(holds, budget - TokensToday(holds[..n]), n);
    if n == 1 {
      assert TokensToday(rest[..0]) == 0;
    }
  }

  /** The flags of the whole list from the flags of its tail. */
  lemma CoversShift(holds: seq<Row>, budget: int, n: nat)
    requires holds != [] && n <= |holds|
    ensures var rest := if budget >= holds[0].tokens then Covered(holds[1..], budget - holds[0].tokens)
                        else Covered(holds[1..], budget);
            FirstOnly(Covered(holds, budget), n) <==>
              (budget >= holds[0].tokens <==> n > 0) && FirstOnly(rest, Max(n - 1, 0))
  {
    var rest := if budget >= holds[0].tokens then Covered(holds[1..], budget - holds[0].tokens)
                else Covered(holds[1..], budget);
    assert Covered(holds, budget) == [budget >= holds[0].tokens] + rest;
    var flags := Covered(holds, budget);
    assert flags[0] == (budget >= holds[0].tokens);
    if FirstOnly(flags, n) {
      forall i | 0 <= i < |rest| ensures rest[i] <==> i < Max(n - 1, 0) {
        assert flags[i + 1] == rest[i];
      }
    }
    if (budget >= holds[0].tokens <==> n > 0) && FirstOnly(rest, Max(n - 1, 0)) {
      forall i | 0 <= i < |flags| ensures flags[i] <==> i < n {
        if i > 0 {
          assert flags[i] == rest[i - 1];
        }
      }
    }
  }

  lemma OthersShift(holds: seq<Row>, left: int, n: nat)
    requires holds != [] && n <= |holds|
    ensures OthersExceed(holds, left, n) <==>
              (n == 0 ==> holds[0].tokens > left) && OthersExceed(holds[1..], left, Max(n - 1, 0))
  {
    if (n == 0 ==> holds[0].tokens > left) && OthersExceed(holds[1..], left, Max(n - 1, 0)) {
      forall i | n <= i < |holds| ensures holds[i].tokens > left {
        if i > 0 {
          assert holds[1..][i - 1] == holds[i];
        }
      }
    }
    if OthersExceed(holds, left, n) {
      forall i | Max(n - 1, 0) <= i < |holds| - 1 ensures holds[1..][i].tokens > left {
        assert holds[i + 1] == holds[1..][i];
      }
    }
  }

  lemma {:induction false} TokensCons(r: Row, rows: seq<Row>)
    ensures TokensToday([r] + rows) == r.tokens + TokensToday(rows)
  {
    if rows == [] {
      assert [r] + rows == [r];
      assert [r][..0] == [];
    } else {
      assert ([r] + rows)[..|rows|] == [r] + rows[..|rows| - 1];
      TokensCons(r, rows[..|rows| - 1]);
    }
  }

  lemma {:induction false} NonNegative(rows: seq<Row>)
    requires forall r :: r in rows ==> r.tokens > 0
    ensures TokensToday(rows) >= 0
  {
    if rows != [] {
      assert forall r :: r in rows[..|rows| - 1] ==> r in rows;
      NonNegative(rows[..|rows| - 1]);
    }
  }

  /** They do differ on a day the protocol can leave behind: holds of 9 and 5, of which the second was
      released. The writer still sees the 9 open, the dashboard the 5. */
  lemma LegacyReadersDiffer()
    ensures var a, b, c := Row(None, 9, 0.0, Hold(None)), Row(None, 5, 1.0, Hold(None)), Row(None, -5, 2.0, Release(None));
            && Unmatched([a, b, c]) == [a]
            && Shown([a, b, c]) == [PairedHold(None, false, 9, 0.0, Some(2.0)), PairedHold(None, true, 5, 1.0, None)]
  {
    var a, b, c := Row(None, 9, 0.0, Hold(None)), Row(None, 5, 1.0, Hold(None)), Row(None, -5, 2.0, Release(None));
    TwoHoldsOneRelease(a, b, c);
  }

  /** What both readers make of two id-less holds and one id-less release of the second's size. */
  lemma TwoHoldsOneRelease(a: Row, b: Row, c: Row)
    requires a.kind == Hold(None) && b.kind == Hold(None) && c.kind == Release(None) && c.tokens == -b.tokens
    requires 0 < b.tokens < a.tokens
    ensures Unmatched([a, b, c]) == [a]
    ensures Shown([a, b, c]) == [PairEntry(a, Some(c)), PairEntry(b, None)]
  {
    var none: seq<Row> := [];
    assert none + [a] == [a] && [a] + [b] == [a, b] && [a, b] + [c] == [a, b, c] && none + [c] == [c];
    ClassifyAppend(none, a);
    ClassifyAppend([a], b);
    ClassifyAppend([a, b], c);
    TwoHoldsWriter(a, b, c);
    TwoHoldsShown(a, b, c, ReleasesById([a, b, c]));
  }

  lemma TwoHoldsShown(a: Row, b: Row, c: Row, byId: map<Id, Row>)
    requires a.kind == Hold(None) && b.kind == Hold(None) && c.kind == Release(None)
    ensures Pairs([a, b, c], byId, [c]) == [PairEntry(a, Some(c)), PairEntry(b, None)]
  {
    var none: seq<Row> := [];
    assert none + [a] == [a] && [a] + [b] == [a, b] && [a, b] + [c] == [a, b, c];
    ClassifyAppend(none, a);
    PairsAppend(none, a, byId, [c]);
    PairsAppend([a], b, byId, [c]);
    PairsAppend([a, b], c, byId, [c]);
  }

  lemma TwoHoldsWriter(a: Row, b: Row, c: Row)
    requires a.kind == Hold(None) && b.kind == Hold(None) && c.kind == Release(None) && c.tokens == -b.tokens
    requires 0 < b.tokens < a.tokens && LegacyHolds([a, b, c]) == [a, b] && LegacyReleases([a, b, c]) == [c]
    ensures Unmatched([a, b, c]) == [a]
  {
    var none: seq<Row> := [];
    var released := ReleasedIds([a, b, c]);
    assert none + [a] == [a] && [a] + [b] == [a, b] && [a, b] + [c] == [a, b, c] && none + [c] == [c];
    OpenAmongAppend(none, a, released);
    OpenAmongAppend([a], b, released);
    OpenAmongAppend([a, b], c, released);
    TokensAppend(none, c);
    assert [a, b][1..] == [b] && [b][1..] == [];
    assert Uncovered([b], b.tokens) == [];
    assert Uncovered([a, b], b.tokens) == [a] + Uncovered([b], b.tokens);
  }
}
