/** Public handles: coercing text into a handle, and finding one that nobody holds. */
module Handles {
  import opened Common
  import opened Decimals

  const USERNAME_MIN := 3
  const USERNAME_MAX := 30
  const MAX_SUFFIX_WIDTH := 6
  const INSERT_RETRIES := 6

  const RESERVED := {"me", "admin", "administrator", "system", "accounts", "account", "api", "anonymous",
                     "owner", "support", "root", "null", "undefined"}

  predicate Allowed(c: char) {
    'a' <= c <= 'z' || '0' <= c <= '9' || c == '_'
  }

  /** Three to thirty lower-case letters, digits or underscores. */
  predicate WellFormed(s: string) {
    USERNAME_MIN <= |s| <= USERNAME_MAX && forall c :: c in s ==> Allowed(c)
  }

  // ----- normalising -----

  /** Each run of disallowed characters becomes one underscore. */
  function ReplaceRuns(s: string): string {
    if s == "" then ""
    else
      var n := |s| - 1;
      if Allowed(s[n]) then ReplaceRuns(s[..n]) + [s[n]]
      else if n > 0 && !Allowed(s[n - 1]) then ReplaceRuns(s[..n])
      else ReplaceRuns(s[..n]) + "_"
  }

  function CollapseUnderscores(s: string): string {
    if s == "" then ""
    else
      var n := |s| - 1;
      if n > 0 && s[n] == '_' && s[n - 1] == '_' then CollapseUnderscores(s[..n])
      else CollapseUnderscores(s[..n]) + [s[n]]
  }

  function StripLeft(s: string): string {
    if s != "" && s[0] == '_' then StripLeft(s[1..]) else s
  }

  function StripRight(s: string): string {
    if s != "" && s[|s| - 1] == '_' then StripRight(s[..|s| - 1]) else s
  }

  function PadZeros(s: string): string
    decreases USERNAME_MIN - |s|
  {
    if |s| < USERNAME_MIN then PadZeros(s + "0") else s
  }

  /** The handle before truncation; `fold` strips and lower-cases. */
  function Body(fold: string -> string, raw: Option<string>): string {
    var text := fold(if raw.Some? then raw.value else "");
    var body := StripRight(StripLeft(CollapseUnderscores(ReplaceRuns(text))));
    PadZeros(if body == "" then "user" else body)
  }

  function Normalize(fold: string -> string, raw: Option<string>): string {
    var body := Body(fold, raw);
    body[..Min(USERNAME_MAX, |body|)]
  }

  /** No two underscores in a row. */
  predicate Spaced(s: string) {
    forall i :: 0 < i < |s| ==> s[i] != '_' || s[i - 1] != '_'
  }

  /** No underscore at either end. */
  predicate Trimmed(s: string) {
    s == "" || (s[0] != '_' && s[|s| - 1] != '_')
  }

  lemma {:induction false} ReplacedIsAllowed(s: string)
    ensures forall c :: c in ReplaceRuns(s) ==> Allowed(c)
  {
    if s != "" {
      ReplacedIsAllowed(s[..|s| - 1]);
    }
  }

  lemma {:induction false} CollapsedIsSpaced(s: string)
    requires forall c :: c in s ==> Allowed(c)
    ensures var r := CollapseUnderscores(s);
            && Spaced(r) && (forall c :: c in r ==> Allowed(c))
            && (s != "" ==> r != "" && r[|r| - 1] == s[|s| - 1])
  {
    if s != "" {
      var init := s[..|s| - 1];
      assert forall c :: c in init ==> c in s;
      CollapsedIsSpaced(init);
    }
  }

  lemma {:induction false} StripLeftTrims(s: string)
    requires Spaced(s) && forall c :: c in s ==> Allowed(c)
    ensures var r := StripLeft(s);
            && Spaced(r) && (forall c :: c in r ==> Allowed(c)) && |r| <= |s|
            && (r != "" ==> r[0] != '_')
  {
    if s != "" && s[0] == '_' {
      var rest := s[1..];
      assert forall i :: 0 < i < |rest| ==> rest[i] == s[i + 1] && rest[i - 1] == s[i];
      StripLeftTrims(rest);
    }
  }

  lemma {:induction false} StripRightTrims(s: string)
    requires Spaced(s) && (forall c :: c in s ==> Allowed(c)) && (s != "" ==> s[0] != '_')
    ensures var r := StripRight(s);
            && Spaced(r) && (forall c :: c in r ==> Allowed(c)) && |r| <= |s| && Trimmed(r)
  {
    if s != "" && s[|s| - 1] == '_' {
      StripRightTrims(s[..|s| - 1]);
    }
  }

  lemma PadKeeps(s: string)
    requires (forall c :: c in s ==> Allowed(c)) && Trimmed(s) && Spaced(s) && s != ""
    ensures var r := PadZeros(s);
            && (forall c :: c in r ==> Allowed(c)) && Trimmed(r) && Spaced(r) && |r| >= USERNAME_MIN
            && (|s| >= USERNAME_MIN ==> r == s) && |r| <= Max(|s|, USERNAME_MIN)
    decreases USERNAME_MIN - |s|
  {
    if |s| < USERNAME_MIN {
      PadKeeps(s + "0");
    }
  }

  lemma BodyIsTidy(fold: string -> string, raw: Option<string>)
    ensures var b := Body(fold, raw);
            && (forall c :: c in b ==> Allowed(c)) && Trimmed(b) && Spaced(b) && |b| >= USERNAME_MIN
            && Normalize(fold, raw) == b[..Min(USERNAME_MAX, |b|)]
  {
    var text := fold(if raw.Some? then raw.value else "");
    ReplacedIsAllowed(text);
    CollapsedIsSpaced(ReplaceRuns(text));
    StripLeftTrims(CollapseUnderscores(ReplaceRuns(text)));
    StripRightTrims(StripLeft(CollapseUnderscores(ReplaceRuns(text))));
    var body := StripRight(StripLeft(CollapseUnderscores(ReplaceRuns(text))));
    PadKeeps(if body == "" then "user" else body);
  }

  /** Whatever the input, the result is a well-formed handle with no doubled and no leading underscore. */
  lemma NormalizeIsWellFormed(fold: string -> string, raw: Option<string>)
    ensures var h := Normalize(fold, raw); WellFormed(h) && Spaced(h) && h[0] != '_'
  {
    BodyIsTidy(fold, raw);
  }

  lemma {:induction false} AllowedIsUnreplaced(s: string)
    requires forall c :: c in s ==> Allowed(c)
    ensures ReplaceRuns(s) == s
  {
    if s != "" {
      assert forall c :: c in s[..|s| - 1] ==> c in s;
      AllowedIsUnreplaced(s[..|s| - 1]);
      assert s[|s| - 1] in s;
    }
  }

  lemma {:induction false} SpacedIsUncollapsed(s: string)
    requires Spaced(s)
    ensures CollapseUnderscores(s) == s
  {
    if s != "" {
      SpacedIsUncollapsed(s[..|s| - 1]);
    }
  }

  /** Normalising a handle again changes it exactly when truncation left a trailing underscore. */
  lemma RenormalizeExactly(h: string)
    requires WellFormed(h) && Spaced(h) && h[0] != '_'
    ensures Normalize(s => s, Some(h)) == h <==> h[|h| - 1] != '_'
  {
    AllowedIsUnreplaced(h);
    SpacedIsUncollapsed(h);
    StripRightTrims(h);
    BodyIsTidy(s => s, Some(h));
    if h[|h| - 1] == '_' {
      var init := h[..|h| - 1];
      assert init[|init| - 1] != '_';
      assert StripRight(h) == init;
      PadKeeps(init);
      assert Trimmed(PadZeros(init));
    }
  }

  // ----- the base -----

  function LocalPart(email: string): string {
    if email == "" || email[0] == '@' then "" else [email[0]] + LocalPart(email[1..])
  }

  /** The email's local part, else the display name, else "user", skipping reserved words. */
  function BaseFrom(fold: string -> string, email: Option<string>, displayName: Option<string>, reserved: set<string>): string {
    var fromEmail := if email.Some? && '@' in email.value then Some(Normalize(fold, Some(LocalPart(email.value)))) else None;
    var fromName := if displayName.Some? && displayName.value != "" then Some(Normalize(fold, displayName)) else None;
    if fromEmail.Some? && fromEmail.value !in reserved then fromEmail.value
    else if fromName.Some? && fromName.value !in reserved then fromName.value
    else "user"
  }

  lemma BaseIsUsable(fold: string -> string, email: Option<string>, displayName: Option<string>, reserved: set<string>)
    requires "user" !in reserved
    ensures var b := BaseFrom(fold, email, displayName, reserved); WellFormed(b) && b !in reserved
  {
    NormalizeIsWellFormed(fold, displayName);
    if email.Some? {
      NormalizeIsWellFormed(fold, Some(LocalPart(email.value)));
    }
  }

  // ----- candidates -----

  function WithSuffix(base: string, suffix: string): string {
    base[..Min(|base|, Max(1, USERNAME_MAX - |suffix|))] + suffix
  }

  /** The candidates in order: base, base2, base3, ... */
  function Candidate(base: string, k: nat): string {
    if k == 0 then base else WithSuffix(base, Decimal(k + 1))
  }

  function Pow10(k: nat): nat {
    if k == 0 then 1 else 10 * Pow10(k - 1)
  }

  lemma {:induction false} WidthOf(n: nat, w: nat)
    requires w > 0 && Pow10(w - 1) <= n < Pow10(w)
    ensures |Decimal(n)| == w
  {
    if w > 1 {
      assert Pow10(w) == 10 * Pow10(w - 1);
      assert Pow10(w - 1) == 10 * Pow10(w - 2);
      AtLeastOne(w - 2);
      WidthOf(n / 10, w - 1);
    }
  }

  lemma {:induction false} AtLeastOne(k: nat)
    ensures Pow10(k) >= k + 1
  {
    if k > 0 {
      AtLeastOne(k - 1);
    }
  }

  lemma {:induction false} WidthAtMost(n: nat, w: nat)
    requires w > 0 && n < Pow10(w)
    ensures |Decimal(n)| <= w
  {
    if n >= 10 {
      assert w > 1 by {
        assert Pow10(1) == 10 * Pow10(0);
      }
      assert Pow10(w) == 10 * Pow10(w - 1);
      WidthAtMost(n / 10, w - 1);
    }
  }

  /** Candidates whose suffixes have the same width are distinct. */
  lemma SameWidthDistinct(base: string, j: nat, k: nat)
    requires 0 < j && 0 < k && |Decimal(j + 1)| == |Decimal(k + 1)| && Candidate(base, j) == Candidate(base, k)
    ensures j == k
  {
    var cut := Min(|base|, Max(1, USERNAME_MAX - |Decimal(j + 1)|));
    assert Candidate(base, j)[cut..] == Decimal(j + 1);
    assert Candidate(base, k)[cut..] == Decimal(k + 1);
    DecimalInjective(j + 1, k + 1);
  }

  /** Candidates can repeat all the same: the first suffix can rebuild the base. */
  lemma CandidatesCanRepeat()
    ensures var base := "aaaaaaaaaaaaaaaaaaaaaaaaaaaaa2"; WellFormed(base) && Candidate(base, 0) == Candidate(base, 1)
  {
    var base := "aaaaaaaaaaaaaaaaaaaaaaaaaaaaa2";
    assert Decimal(2) == "2";
    assert base[..29] + "2" == base;
  }

  predicate Taken(base: string, taken: set<string>, k: nat) {
    Candidate(base, k) in taken
  }

  /** The walk's answer: the first candidate not in `taken`. */
  predicate FirstFree(base: string, taken: set<string>, k: nat) {
    !Taken(base, taken, k) && forall j :: 0 <= j < k ==> Taken(base, taken, j)
  }

  predicate TakenAtWidth(base: string, taken: set<string>, k: nat, w: nat) {
    Taken(base, taken, k) && |Decimal(k + 1)| == w
  }

  /** Pigeonhole: `count` taken candidates of one suffix width need as many taken handles. */
  lemma {:induction false} Pigeonhole(base: string, taken: set<string>, from: nat, count: nat, w: nat)
    requires from > 0 && forall j: nat :: from <= j < from + count ==> TakenAtWidth(base, taken, j, w)
    ensures |taken| >= count
  {
    if count > 0 {
      var last := from + count - 1;
      assert TakenAtWidth(base, taken, last, w);
      var rest := taken - {Candidate(base, last)};
      forall j: nat | from <= j < from + (count - 1) ensures TakenAtWidth(base, rest, j, w) {
        assert TakenAtWidth(base, taken, j, w);
        if Candidate(base, j) == Candidate(base, last) {
          SameWidthDistinct(base, j, last);
        }
      }
      Pigeonhole(base, rest, from, count - 1, w);
    }
  }

  /** Some candidate with a suffix of width `w` is free once that width has more than |taken|. */
  lemma FreeOfWidth(base: string, taken: set<string>, w: nat) returns (k: nat)
    requires w > 1 && |taken| < Pow10(w) - Pow10(w - 1)
    ensures k > 0 && Pow10(w - 1) <= k + 1 < Pow10(w) && !Taken(base, taken, k)
  {
    var lo, hi := Pow10(w - 1), Pow10(w);
    AtLeastOne(w - 1);
    if forall j: nat :: lo - 1 <= j < hi - 1 ==> Taken(base, taken, j) {
      forall j: nat | lo - 1 <= j < lo - 1 + (hi - lo) ensures TakenAtWidth(base, taken, j, w) {
        assert Taken(base, taken, j);
        WidthOf(j + 1, w);
      }
      Pigeonhole(base, taken, lo - 1, hi - lo, w);
      assert false;
    } else {
      k :| lo - 1 <= k < hi - 1 && !Taken(base, taken, k);
    }
  }

  /** The walk stops for every finite set of taken handles. */
  lemma WalkStops(base: string, taken: set<string>) returns (k: nat)
    ensures !Taken(base, taken, k)
  {
    var w := |taken| + 2;
    AtLeastOne(w - 1);
    assert Pow10(w) == 10 * Pow10(w - 1);
    k := FreeOfWidth(base, taken, w);
  }

  /** With fewer than 900,000 taken handles the walk stops at a suffix of at most six digits. */
  lemma WalkStopsEarly(base: string, taken: set<string>, k: nat)
    requires |taken| < 900000 && FirstFree(base, taken, k)
    ensures k < 999999 && (k > 0 ==> |Decimal(k + 1)| <= MAX_SUFFIX_WIDTH)
  {
    SixDigits();
    var free := FreeOfWidth(base, taken, 6);
    assert k <= free;
    WidthAtMost(k + 1, 6);
  }

  lemma SixDigits()
    ensures Pow10(6) == 1000000 && Pow10(5) == 100000
  {
    assert Pow10(1) == 10 && Pow10(2) == 100 && Pow10(3) == 1000 && Pow10(4) == 10000;
  }

  // ----- generating a handle -----

  /** The part of the base every candidate with a suffix of at most six digits keeps. */
  function QueryPrefix(base: string): string {
    base[..Min(|base|, Max(1, USERNAME_MAX - MAX_SUFFIX_WIDTH))]
  }

  /** What the pre-query sees: only the handles sharing the prefix. */
  function Visible(handles: set<string>, base: string): set<string> {
    set u | u in handles && QueryPrefix(base) <= u
  }

  function TakenSet(handles: set<string>, base: string, reserved: set<string>, exclude: set<string>): set<string> {
    Visible(handles, base) + reserved + exclude
  }

  lemma ShortSuffixKeepsPrefix(base: string, k: nat)
    requires WellFormed(base) && (k > 0 ==> |Decimal(k + 1)| <= MAX_SUFFIX_WIDTH)
    ensures QueryPrefix(base) <= Candidate(base, k) && WellFormed(Candidate(base, k))
  {
    if k > 0 {
      var suffix := Decimal(k + 1);
      var cut := Min(|base|, Max(1, USERNAME_MAX - |suffix|));
      assert QueryPrefix(base) == base[..cut][..|QueryPrefix(base)|];
      forall c | c in Candidate(base, k) ensures Allowed(c) {
        assert c in base || c in suffix;
      }
    }
  }

  /** The partial pre-query is enough: with fewer than 900,000 taken handles, the first free candidate
      is a well-formed, unreserved handle that no account at all holds. */
  lemma PartialQuerySuffices(handles: set<string>, base: string, reserved: set<string>, exclude: set<string>, k: nat)
    requires WellFormed(base)
    requires var taken := TakenSet(handles, base, reserved, exclude); |taken| < 900000 && FirstFree(base, taken, k)
    ensures var h := Candidate(base, k);
            WellFormed(h) && h !in reserved && h !in exclude && h !in handles
  {
    WalkStopsEarly(base, TakenSet(handles, base, reserved, exclude), k);
    ShortSuffixKeepsPrefix(base, k);
  }

  /** The exact condition, whatever the number of handles. Given what the pre-query saw and the first
      candidate free of it, nobody holds that candidate - for every set of handles the query could have
      been run on - exactly when the candidate still carries the query's prefix. */
  lemma QueryTrustedExactly(base: string, visible: set<string>, reserved: set<string>, exclude: set<string>, k: nat)
    requires Visible(visible, base) == visible && FirstFree(base, visible + reserved + exclude, k)
    ensures (forall handles: set<string> :: Visible(handles, base) == visible ==> Candidate(base, k) !in handles)
       <==> QueryPrefix(base) <= Candidate(base, k)
  {
    var offer := Candidate(base, k);
    if QueryPrefix(base) <= offer {
      forall handles: set<string> | Visible(handles, base) == visible ensures offer !in handles {
        assert offer in handles ==> offer in Visible(handles, base);
      }
    } else {
      var handles := visible + {offer};
      assert Visible(handles, base) == visible;
    }
  }

  /** How much of the base a candidate keeps. */
  function Kept(base: string, k: nat): (n: nat)
    ensures n <= |base|
  {
    if k == 0 then |base| else Min(|base|, Max(1, USERNAME_MAX - |Decimal(k + 1)|))
  }

  /** When that is: the suffix has at most six digits, or fits beside the whole base, or its digits happen
      to spell the part of the prefix they replace. */
  lemma PrefixKeptExactly(base: string, k: nat)
    requires WellFormed(base)
    ensures QueryPrefix(base) <= Candidate(base, k) <==>
              || k < 999999
              || |base| + |Decimal(k + 1)| <= USERNAME_MAX
              || (Kept(base, k) <= |QueryPrefix(base)| && QueryPrefix(base)[Kept(base, k)..] <= Decimal(k + 1))
  {
    var kept, prefix, suffix := Kept(base, k), QueryPrefix(base), Decimal(k + 1);
    SixDigits();
    if k < 999999 {
      WidthAtMost(k + 1, 6);
      ShortSuffixKeepsPrefix(base, k);
    } else {
      WiderThan(k + 1, 6);
      assert Candidate(base, k) == base[..kept] + suffix;
      PrefixSplits(base, kept, suffix, |prefix|);
    }
  }

  /** A prefix of the base, longer than what is kept of it, survives exactly when the suffix spells its rest. */
  lemma PrefixSplits(base: string, kept: nat, suffix: string, n: nat)
    requires kept <= n <= |base|
    ensures base[..n] <= base[..kept] + suffix <==> base[..n][kept..] <= suffix
  {
    assert base[..n] == base[..kept] + base[..n][kept..];
    var whole := base[..kept] + suffix;
    if base[..n] <= whole {
      assert whole[kept..] == suffix;
      assert base[..n] == whole[..n];
      assert base[..n][kept..] == suffix[..n - kept];
    }
    if base[..n][kept..] <= suffix {
      assert suffix[..n - kept] == base[..n][kept..];
      assert whole[..n] == base[..kept] + suffix[..n - kept];
    }
  }

  lemma {:induction false} WiderThan(n: nat, w: nat)
    requires n >= Pow10(w) && w > 0
    ensures |Decimal(n)| > w
  {
    assert Pow10(w) == 10 * Pow10(w - 1);
    AtLeastOne(w - 1);
    if w > 1 {
      WiderThan(n / 10, w - 1);
    }
  }

  /** The bound is needed: with all handles up to base1000000 held, the first one the pre-query calls
      free is held after all. */
  lemma QueryBlindSpot(base: string, reserved: set<string>)
    requires WellFormed(base) && |base| == USERNAME_MAX && base[23] != '1' && Candidate(base, 999999) !in reserved
    ensures var handles := set k: nat | k < 1000000 :: Candidate(base, k);
            && FirstFree(base, TakenSet(handles, base, reserved, {}), 999999)
            && Candidate(base, 999999) in handles
  {
    var handles := set k: nat | k < 1000000 :: Candidate(base, k);
    SixDigits();
    forall j: nat | j < 999999 ensures Taken(base, TakenSet(handles, base, reserved, {}), j) {
      WidthAtMost(j + 1, 6);
      ShortSuffixKeepsPrefix(base, j);
      assert Candidate(base, j) in handles;
    }
    var last := Candidate(base, 999999);
    assert Pow10(7) == 10 * Pow10(6);
    WidthOf(1000000, 7);
    Leading(1000000, 7);
    assert last[23] == '1' && QueryPrefix(base)[23] == base[23];
    assert |last| == 30;
  }

  /** The smallest number of a width starts with the digit one. */
  lemma {:induction false} Leading(n: nat, w: nat)
    requires w > 0 && n == Pow10(w - 1)
    ensures Decimal(n)[0] == '1'
  {
    if w > 1 {
      AtLeastOne(w - 2);
      assert n == 10 * Pow10(w - 2);
      Leading(n / 10, w - 1);
    }
  }

  /** Walk base, base2, base3, ... to the first handle that is not taken, reserved or excluded. */
  method GenerateUniqueUsername(handles: set<string>, base: string, reserved: set<string>, exclude: set<string>)
    returns (name: string)
    ensures exists k :: FirstFree(base, TakenSet(handles, base, reserved, exclude), k) && name == Candidate(base, k)
    ensures name !in exclude && name !in reserved
    ensures WellFormed(base) && |TakenSet(handles, base, reserved, exclude)| < 900000 ==>
              WellFormed(name) && name !in handles
  {
    var taken := TakenSet(handles, base, reserved, exclude);
    var k := Walk(base, taken);
    if WellFormed(base) && |taken| < 900000 {
      PartialQuerySuffices(handles, base, reserved, exclude, k);
    }
    return Candidate(base, k);
  }

  method Walk(base: string, taken: set<string>) returns (k: nat)
    ensures FirstFree(base, taken, k)
  {
    ghost var bound := WalkStops(base, taken);
    k := 0;
    while Taken(base, taken, k)
      invariant k <= bound
      invariant forall j :: 0 <= j < k ==> Taken(base, taken, j)
      decreases bound - k
    {
      k := k + 1;
    }
  }

  /** The stored handles; the unique constraint is the final arbiter. */
  class Accounts {
    var handles: set<string>
    const reserved: set<string>

    constructor ()
      ensures handles == {} && reserved == RESERVED
    {
      handles, reserved := {}, RESERVED;
    }

    /** The next handle to try: free as far as the pre-query saw, and never one that already failed. */
    method Offer(base: string, tried: seq<string>) returns (name: string)
      ensures name !in tried && name !in reserved
      ensures WellFormed(base) && |handles| + |reserved| < 900000 && tried == [] ==> WellFormed(name) && name !in handles
    {
      var exclude := set u | u in tried;
      name := GenerateUniqueUsername(handles, base, reserved, exclude);
      FewTaken(handles, base, reserved);
      assert tried == [] ==> exclude == {};
      assert name in tried ==> name in exclude;
    }

    /** Insert an account under a free handle. Between each read and its insert others may claim the
        handles `rivals(attempt)`. Each retry offers a handle never offered before, every failure is a
        handle really held, and nobody's handle is ever taken over. */
    method CreateAccount(fold: string -> string, email: Option<string>, displayName: Option<string>, rivals: nat -> set<string>)
      returns (r: Result<string, seq<string>>, attempts: nat)
      requires "user" !in reserved
      modifies this
      ensures Allocated(old(handles), rivals, r, attempts)
      ensures rivals(0) == {} && |old(handles)| + |reserved| < 900000 ==>
                r.Ok? && attempts == 1 && WellFormed(r.value) && r.value !in old(handles)
    {
      var base := BaseFrom(fold, email, displayName, reserved);
      BaseIsUsable(fold, email, displayName, reserved);
      r, attempts := Allocate(base, rivals);
    }

    /** One handle of the caller's is added to everyone else's, or every attempt lost its race. */
    ghost predicate Allocated(before: set<string>, rivals: nat -> set<string>, r: Result<string, seq<string>>, attempts: nat)
      reads this
    {
      && 1 <= attempts <= INSERT_RETRIES
      && (r.Ok? ==>
            && r.value !in Held(before, rivals, attempts) && r.value !in reserved
            && handles == Held(before, rivals, attempts) + {r.value})
      && (r.Err? ==>
            && attempts == INSERT_RETRIES && handles == Held(before, rivals, attempts)
            && LostRaces(before, rivals, r.error) && |r.error| == attempts)
    }

    /** One attempt: offer a handle, let the rivals in, insert unless one of them - or anyone - holds it. */
    method TryOnce(base: string, tried: seq<string>, rivals: set<string>) returns (name: string, won: bool)
      modifies this
      ensures name !in tried && name !in reserved && won == (name !in old(handles) + rivals)
      ensures !won ==> handles == old(handles) + rivals
      ensures won ==> handles == old(handles) + rivals + {name}
      ensures WellFormed(base) && |old(handles)| + |reserved| < 900000 && tried == [] && rivals == {} ==> won && WellFormed(name)
    {
      name := Offer(base, tried);
      handles := handles + rivals;
      won := name !in handles;
      if won {
        handles := handles + {name};
      }
    }

    /** The insert loop. */
    method Allocate(base: string, rivals: nat -> set<string>) returns (r: Result<string, seq<string>>, attempts: nat)
      requires WellFormed(base)
      modifies this
      ensures Allocated(old(handles), rivals, r, attempts)
      ensures rivals(0) == {} && |old(handles)| + |reserved| < 900000 ==>
                r.Ok? && attempts == 1 && WellFormed(r.value) && r.value !in old(handles)
    {
      ghost var before := handles;
      var tried: seq<string> := [];
      attempts := 0;
      while attempts < INSERT_RETRIES
        invariant attempts <= INSERT_RETRIES && handles == Held(before, rivals, attempts)
        invariant |tried| == attempts && LostRaces(before, rivals, tried)
        invariant attempts > 0 ==> rivals(0) != {} || |before| + |reserved| >= 900000
      {
        var name, won := TryOnce(base, tried, rivals(attempts));
        attempts := attempts + 1;
        if won {
          return Ok(name), attempts;
        }
        LostAnother(before, rivals, tried, name);
        tried := tried + [name];
      }
      return Err(tried), attempts;
    }
  }

  /** Handles offered one after another, all different, each held by someone when it was inserted. */
  predicate LostRaces(handles: set<string>, rivals: nat -> set<string>, tried: seq<string>) {
    tried != [] ==>
      var n := |tried| - 1;
      && LostRaces(handles, rivals, tried[..n])
      && tried[n] !in tried[..n]
      && tried[n] in Held(handles, rivals, n + 1)
  }

  lemma LostAnother(handles: set<string>, rivals: nat -> set<string>, tried: seq<string>, name: string)
    requires LostRaces(handles, rivals, tried) && name !in tried && name in Held(handles, rivals, |tried| + 1)
    ensures LostRaces(handles, rivals, tried + [name])
  {
    assert (tried + [name])[..|tried|] == tried;
  }

  /** What is held after the first `n` rivals' inserts. */
  function Held(handles: set<string>, rivals: nat -> set<string>, n: nat): set<string> {
    if n == 0 then handles else Held(handles, rivals, n - 1) + rivals(n - 1)
  }

  lemma FewTaken(handles: set<string>, base: string, reserved: set<string>)
    ensures |TakenSet(handles, base, reserved, {})| <= |handles| + |reserved|
  {
    SubsetSize(Visible(handles, base), handles);
    UnionSize(Visible(handles, base), reserved);
    assert TakenSet(handles, base, reserved, {}) == Visible(handles, base) + reserved;
  }

  /** The reserved words: "user" is free to use, and they hardly narrow the search. */
  lemma ReservedWords()
    ensures "user" !in RESERVED && |RESERVED| <= 13
  {
    var a := {"me", "admin", "administrator", "system", "accounts", "account", "api"};
    var b := {"anonymous", "owner", "support", "root", "null", "undefined"};
    assert RESERVED == a + b;
    UnionSize(a, b);
  }

  lemma {:induction false} SubsetSize(a: set<string>, b: set<string>)
    requires a <= b
    ensures |a| <= |b|
  {
    if a != {} {
      var x := Member(a);
      SubsetSize(a - {x}, b - {x});
    }
  }

  lemma UnionSize(a: set<string>, b: set<string>)
    ensures |a + b| <= |a| + |b|
  {
    assert a + b == a + (b - a);
    assert a !! (b - a);
    SubsetSize(b - a, b);
  }
}
