/** The string operations the Cordis-patch parser uses, with white space restricted to ASCII. */
module PatchText {
  import opened Common

  predicate IsSpace(c: char) {
    c == ' ' || c == '\t' || c == '\n' || c == '\r' || c == '\U{000B}' || c == '\U{000C}'
  }

  function StripRight(s: string): string {
    if s != "" && IsSpace(s[|s| - 1]) then StripRight(s[..|s| - 1]) else s
  }

  function StripLeft(s: string): string {
    if s != "" && IsSpace(s[0]) then StripLeft(s[1..]) else s
  }

  function Strip(s: string): string {
    StripLeft(StripRight(s))
  }

  function BeforeHash(s: string): string {
    if s == "" || s[0] == '#' then "" else [s[0]] + BeforeHash(s[1..])
  }

  /** The line without its comment and trailing white space. */
  function Cut(line: string): string {
    StripRight(BeforeHash(line))
  }

  function LeadingSpaces(s: string): nat {
    if s != "" && s[0] == ' ' then 1 + LeadingSpaces(s[1..]) else 0
  }

  /** Where the first colon is, or the length. */
  function FirstColon(s: string): (i: nat)
    ensures i <= |s| && (i < |s| ==> s[i] == ':') && ':' !in s[..i]
  {
    if s == "" || s[0] == ':' then 0 else 1 + FirstColon(s[1..])
  }

  /** The text from position n on; empty when there is none. */
  function From(s: string, n: nat): string {
    if n <= |s| then s[n..] else ""
  }

  predicate StartsWith(s: string, prefix: string) {
    prefix <= s
  }

  function Spaces(n: nat): (s: string)
    ensures |s| == n && forall i :: 0 <= i < n ==> s[i] == ' '
  {
    if n == 0 then "" else " " + Spaces(n - 1)
  }

  // ----- laws -----

  /** Text that neither starts nor ends with white space. */
  predicate Tight(s: string) {
    s != "" && !IsSpace(s[0]) && !IsSpace(s[|s| - 1])
  }

  lemma TightStays(s: string)
    requires Tight(s)
    ensures Strip(s) == s && StripLeft(s) == s && StripRight(s) == s
  {
  }

  lemma {:induction false} BeforeHashOf(h: string, t: string)
    requires '#' !in h
    ensures BeforeHash(h + t) == h + BeforeHash(t)
  {
    if h == "" {
      assert h + t == t;
    } else {
      assert (h + t)[1..] == h[1..] + t;
      BeforeHashOf(h[1..], t);
    }
  }

  lemma {:induction false} StripRightOf(h: string, t: string)
    requires h != "" && !IsSpace(h[|h| - 1]) && StripRight(t) == ""
    ensures StripRight(h + t) == h
  {
    if t == "" {
      assert h + t == h;
    } else {
      assert (h + t)[..|h + t| - 1] == h + t[..|t| - 1];
      StripRightOf(h, t[..|t| - 1]);
    }
  }

  /** A comment or white space after some content is cut off. */
  lemma CutContent(h: string, t: string)
    requires h != "" && '#' !in h && !IsSpace(h[|h| - 1]) && Cut(t) == ""
    ensures Cut(h + t) == h
  {
    BeforeHashOf(h, t);
    StripRightOf(h, BeforeHash(t));
  }

  lemma {:induction false} Indented(n: nat, h: string)
    requires h != "" && !IsSpace(h[0])
    ensures LeadingSpaces(Spaces(n) + h) == n && StripLeft(Spaces(n) + h) == h
  {
    if n == 0 {
      assert Spaces(n) + h == h;
    } else {
      assert (Spaces(n) + h)[1..] == Spaces(n - 1) + h;
      Indented(n - 1, h);
    }
  }

  lemma {:induction false} ColonAfter(h: string, t: string)
    requires ':' !in h
    ensures FirstColon(h + ":" + t) == |h|
  {
    if h != "" {
      assert (h + ":" + t)[1..] == h[1..] + ":" + t;
      ColonAfter(h[1..], t);
    }
  }

  /** Splitting at the first colon gives back an indented key and what is after the colon. */
  lemma KeySplits(m: nat, key: string, after: string)
    requires Tight(key) && ':' !in key
    ensures var s := (Spaces(m) + key) + ":" + after;
            && FirstColon(s) == m + |key| < |s| && Strip(s[..m + |key|]) == key && s[m + |key| + 1..] == after
  {
    ColonAfter(Spaces(m) + key, after);
    Indented(m, key);
    var s := (Spaces(m) + key) + ":" + after;
    assert s[..m + |key|] == Spaces(m) + key;
    assert s[m + |key| + 1..] == after;
  }

  lemma StripPadded(s: string)
    requires Tight(s)
    ensures Strip(" " + s) == s
  {
    Indented(1, s);
    assert Spaces(1) + s == " " + s;
  }

  /** Dropping leading spaces first does not change what stripping yields. */
  lemma {:induction false} StripDropped(s: string, n: nat)
    requires n <= LeadingSpaces(s) && Strip(s) != ""
    ensures n <= |s| && Strip(s[n..]) == Strip(s)
  {
    if n > 0 {
      StripTail(s);
      StripDropped(s[1..], n - 1);
      assert s[1..][n - 1..] == s[n..];
    }
  }

  lemma StripTail(s: string)
    requires s != "" && s[0] == ' ' && Strip(s) != ""
    ensures Strip(s[1..]) == Strip(s)
  {
    StripRightTail(s);
  }

  lemma {:induction false} StripRightTail(s: string)
    requires s != "" && StripRight(s) != ""
    requires IsSpace(s[0]) ==> StripLeft(StripRight(s)) != ""
    ensures StripRight(s[1..]) == StripRight(s)[1..] && StripRight(s)[0] == s[0]
  {
    if IsSpace(s[|s| - 1]) {
      if |s| > 1 {
        assert s[1..][..|s| - 2] == s[..|s| - 1][1..];
        StripRightTail(s[..|s| - 1]);
      }
    } else if |s| > 1 {
      assert s[1..][|s| - 2] == s[|s| - 1];
    }
  }

  /** Blank lines are cut to nothing. */
  lemma {:induction false} BlankIsCut(s: string)
    requires Strip(s) == ""
    ensures Cut(s) == ""
  {
    AllSpace(s);
    SpacesCut(s);
  }

  lemma {:induction false} AllSpace(s: string)
    requires Strip(s) == ""
    ensures forall c :: c in s ==> IsSpace(c)
  {
    if s != "" {
      if IsSpace(s[|s| - 1]) {
        AllSpace(s[..|s| - 1]);
        assert s == s[..|s| - 1] + [s[|s| - 1]];
      } else {
        LastSurvives(s);
      }
    }
  }

  lemma {:induction false} LastSurvives(s: string)
    requires s != "" && !IsSpace(s[|s| - 1])
    ensures StripLeft(s) != ""
  {
    if IsSpace(s[0]) {
      LastSurvives(s[1..]);
    }
  }

  lemma {:induction false} SpacesCut(s: string)
    requires forall c :: c in s ==> IsSpace(c)
    ensures BeforeHash(s) == s && StripRight(s) == ""
  {
    if s != "" {
      HashlessBefore(s);
      assert forall c :: c in s[..|s| - 1] ==> c in s;
      assert s[|s| - 1] in s;
      SpacesCut(s[..|s| - 1]);
    }
  }

  lemma HashlessBefore(s: string)
    requires '#' !in s
    ensures BeforeHash(s) == s
  {
    BeforeHashOf(s, "");
    assert s + "" == s;
  }

  lemma CutIsPrefix(line: string)
    ensures Cut(line) <= line
  {
    StripRightIsPrefix(BeforeHash(line));
    BeforeHashIsPrefix(line);
  }

  lemma {:induction false} StripRightIsPrefix(s: string)
    ensures StripRight(s) <= s
  {
    if s != "" && IsSpace(s[|s| - 1]) {
      StripRightIsPrefix(s[..|s| - 1]);
    }
  }

  lemma {:induction false} BeforeHashIsPrefix(s: string)
    ensures BeforeHash(s) <= s
  {
    if s != "" && s[0] != '#' {
      BeforeHashIsPrefix(s[1..]);
    }
  }
}
