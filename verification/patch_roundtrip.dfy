/** Parsing what was printed. A patch is a tree together with its layout: indentation widths, blank and
    comment lines, trailing comments and block styles. Parsing the printed lines gives back what the
    tree means, whatever the layout. */
module PatchRoundTrip {
  import opened Common
  import opened Decimals
  import opened PatchText
  import opened PatchParser

  datatype Scalar =
    | Plain(text: string)
    | SingleQuoted(text: string)
    | DoubleQuoted(text: string)
    | Number(n: int)
    | Truth(b: bool)
    | NullScalar
    | Js(text: string)

  datatype BlockStyle = FoldStrip | KeepStrip | FoldClip | KeepClip

  /** What follows a key. Nested parts carry their own, absolute, indentation. */
  datatype Payload =
    | Inline(scalar: Scalar)
    | Block(style: BlockStyle, lines: seq<string>)
    | Nothing
    | SubMap(indent: nat, entries: seq<Entry>)
    | SubList(indent: nat, items: seq<Item>)

  /** `noise` is the blank and comment lines before; `trail` what follows on the same line. */
  datatype Entry = Entry(noise: seq<string>, key: string, payload: Payload, trail: string)

  datatype Item =
    | ScalarItem(noise: seq<string>, scalar: Scalar, trail: string)
    | MapItem(noise: seq<string>, first: Entry, rest: seq<Entry>)

  // ----- printing -----

  function TextOf(s: Scalar): string {
    match s
    case Plain(text) => text
    case SingleQuoted(text) => "'" + text + "'"
    case DoubleQuoted(text) => "\"" + text + "\""
    case Number(n) => if n < 0 then "-" + Decimal(-n) else Decimal(n)
    case Truth(b) => if b then "true" else "false"
    case NullScalar => "null"
    case Js(text) => "!!js " + text
  }

  function Mark(style: BlockStyle): string {
    match style
    case FoldStrip => ">-"
    case KeepStrip => "|-"
    case FoldClip => ">"
    case KeepClip => "|"
  }

  /** What is on the key's own line after the colon. */
  function Suffix(p: Payload): string {
    match p
    case Inline(s) => TextOf(s)
    case Block(style, _) => Mark(style)
    case _ => ""
  }

  function AfterColon(p: Payload): string {
    if Suffix(p) == "" then "" else " " + Suffix(p)
  }

  function Head(e: Entry): string {
    e.key + ":" + AfterColon(e.payload)
  }

  /** The lines below the key's own line. */
  function Tail(p: Payload): seq<string> {
    match p
    case Block(_, lines) => lines
    case SubMap(indent, entries) => PrintEntries(entries, indent)
    case SubList(indent, items) => PrintItems(items, indent)
    case _ => []
  }

  function EntryLine(e: Entry, indent: nat): string {
    Spaces(indent) + Head(e) + e.trail
  }

  function PrintEntries(es: seq<Entry>, indent: nat): seq<string> {
    if es == [] then []
    else es[0].noise + ([EntryLine(es[0], indent)] + (Tail(es[0].payload) + PrintEntries(es[1..], indent)))
  }

  function ItemLine(it: Item, indent: nat): string {
    match it
    case ScalarItem(_, s, trail) => Spaces(indent) + ("- " + TextOf(s)) + trail
    case MapItem(_, first, _) => Spaces(indent) + ("- " + Head(first)) + first.trail
  }

  function ItemTail(it: Item, indent: nat): seq<string> {
    match it
    case ScalarItem(_, _, _) => []
    case MapItem(_, first, rest) => Tail(first.payload) + PrintEntries(rest, indent + 2)
  }

  function PrintItems(items: seq<Item>, indent: nat): seq<string> {
    if items == [] then []
    else items[0].noise + ([ItemLine(items[0], indent)] + (ItemTail(items[0], indent) + PrintItems(items[1..], indent)))
  }

  // ----- meaning -----

  function MeaningOf(s: Scalar): Value {
    match s
    case Plain(text) => Str(text)
    case SingleQuoted(text) => Str(text)
    case DoubleQuoted(text) => Str(text)
    case Number(n) => Num(n)
    case Truth(b) => Flag(b)
    case NullScalar => Null
    case Js(text) => Str(text)
  }

  function PayloadMeaning(p: Payload): Value {
    match p
    case Inline(s) => MeaningOf(s)
    case Block(_, lines) => Str(Fold(lines))
    case Nothing => Dict([])
    case SubMap(_, entries) => Dict(EntriesMeaning(entries, []))
    case SubList(_, items) => List(ItemsMeaning(items))
  }

  /** Entries are assigned in order: a repeated key keeps its place and takes the last value. */
  function EntriesMeaning(es: seq<Entry>, into: seq<Field>): seq<Field> {
    if es == [] then into else EntriesMeaning(es[1..], Put(into, es[0].key, PayloadMeaning(es[0].payload)))
  }

  function ItemMeaning(it: Item): Value {
    match it
    case ScalarItem(_, s, _) => MeaningOf(s)
    case MapItem(_, first, rest) => Dict(EntriesMeaning(rest, [Field(first.key, PayloadMeaning(first.payload))]))
  }

  function ItemsMeaning(items: seq<Item>): seq<Value> {
    if items == [] then [] else [ItemMeaning(items[0])] + ItemsMeaning(items[1..])
  }

  // ----- which trees are in the supported subset -----

  /** No `#`, and a plain text must not look like one of the other forms. */
  predicate ScalarOk(s: Scalar) {
    && '#' !in TextOf(s) && Tight(TextOf(s))
    && (s.Plain? ==>
          && !StartsWith(s.text, "!!js ") && !QuotedBy(s.text, '\'') && !QuotedBy(s.text, '"')
          && s.text != "true" && s.text != "false" && s.text != "null" && ParseInt(s.text).None?)
  }

  predicate KeyOk(key: string) {
    Tight(key) && '#' !in key && ':' !in key && !StartsWith(key, "- ")
  }

  predicate AllNoise(ls: seq<string>) {
    forall l :: l in ls ==> IsNoise(l)
  }

  function SkipBlank(ls: seq<string>): (r: seq<string>)
    ensures |r| <= |ls|
  {
    if ls != [] && IsBlank(ls[0]) then SkipBlank(ls[1..]) else ls
  }

  /** Blank lines aside, the next line is outside a block of this indentation. */
  predicate Outside(rest: seq<string>, indent: nat) {
    SkipBlank(rest) == [] || LeadingSpaces(SkipBlank(rest)[0]) < indent
  }

  /** A payload under a key at `indent`, followed by the lines `rest`. */
  predicate PayloadOk(p: Payload, indent: nat, rest: seq<string>)
    decreases p
  {
    match p
    case Inline(s) => ScalarOk(s) && !IsBlockMarker(TextOf(s))
    case Block(_, lines) => BlockOk(lines, indent + 2) && Outside(rest, indent + 2)
    case Nothing => true
    case SubMap(inner, entries) => inner > indent && entries != [] && EntriesOk(entries, inner, rest)
    case SubList(inner, items) => inner > indent && items != [] && ItemsOk(items, inner, rest)
  }

  predicate BlockOk(lines: seq<string>, indent: nat) {
    forall l :: l in lines ==> IsBlank(l) || LeadingSpaces(l) >= indent
  }

  predicate EntryOk(e: Entry, indent: nat, rest: seq<string>)
    decreases e
  {
    AllNoise(e.noise) && KeyOk(e.key) && Cut(e.trail) == "" && PayloadOk(e.payload, indent, rest)
  }

  predicate EntriesOk(es: seq<Entry>, indent: nat, rest: seq<string>)
    decreases es
  {
    es != [] ==> EntryOk(es[0], indent, PrintEntries(es[1..], indent) + rest) && EntriesOk(es[1..], indent, rest)
  }

  predicate ItemOk(it: Item, indent: nat, rest: seq<string>)
    decreases it
  {
    && AllNoise(it.noise)
    && match it
       case ScalarItem(_, s, trail) => ScalarOk(s) && ':' !in TextOf(s) && Cut(trail) == ""
       case MapItem(_, first, others) =>
         && first.noise == []
         && EntryOk(first, indent + 2, PrintEntries(others, indent + 2) + rest)
         && EntriesOk(others, indent + 2, rest)
  }

  predicate ItemsOk(items: seq<Item>, indent: nat, rest: seq<string>)
    decreases items
  {
    items != [] ==> ItemOk(items[0], indent, PrintItems(items[1..], indent) + rest) && ItemsOk(items[1..], indent, rest)
  }

  // ----- scalars -----

  lemma {:induction false} DigitsParse(n: nat)
    ensures ParseDigits(Decimal(n)) == Some(n)
  {
    if n >= 10 {
      DigitsParse(n / 10);
      var s := Decimal(n);
      assert s[..|s| - 1] == Decimal(n / 10);
      assert s[|s| - 2] in Decimal(n / 10);
      DigitBack(n % 10);
    } else {
      DigitBack(n);
    }
  }

  lemma DigitBack(d: nat)
    requires d < 10
    ensures '0' <= Digit(d) <= '9' && DigitValue(Digit(d)) == d
  {
  }

  lemma SignsParse(digits: string, n: int)
    requires n >= 0 && digits != "" && '0' <= digits[0] <= '9' && ParseDigits(digits) == Some(n)
    ensures ParseInt(digits) == Some(n) && ParseInt("-" + digits) == Some(-n)
  {
    assert ("-" + digits)[1..] == digits;
  }

  lemma DecimalStarts(n: nat)
    ensures '0' <= Decimal(n)[0] <= '9'
  {
    assert Decimal(n)[0] in Decimal(n);
  }

  lemma IntParses(n: int)
    ensures ParseInt(TextOf(Number(n))) == Some(n)
  {
    var size := if n < 0 then -n else n;
    DigitsParse(size);
    DecimalStarts(size);
    SignsParse(Decimal(size), size);
  }

  /** A digit or a minus sign starts none of the other forms. */
  lemma NumberParses(s: string)
    requires s != "" && (s[0] == '-' || '0' <= s[0] <= '9') && ParseInt(s).Some?
    ensures ParseScalar(s) == Num(ParseInt(s).value)
  {
  }

  lemma ScalarParses(s: Scalar)
    requires ScalarOk(s)
    ensures ParseScalar(TextOf(s)) == MeaningOf(s)
  {
    if s.Number? {
      IntParses(s.n);
      if s.n >= 0 {
        assert Decimal(s.n)[0] in Decimal(s.n);
      }
      NumberParses(TextOf(s));
    } else if s.Js? {
      assert TextOf(s)[5..] == s.text;
    } else if s.SingleQuoted? || s.DoubleQuoted? {
      var text := TextOf(s);
      assert text[1..|text| - 1] == s.text;
    }
  }

  // ----- lines -----

  lemma {:induction false} SkipsNoise(noise: seq<string>, ls: seq<string>)
    requires AllNoise(noise)
    ensures SkipNoise(noise + ls) == SkipNoise(ls)
  {
    if noise == [] {
      assert noise + ls == ls;
    } else {
      assert noise[0] in noise && (noise + ls)[1..] == noise[1..] + ls;
      SkipsNoise(noise[1..], ls);
    }
  }

  lemma {:induction false} MappingPastNoise(ls: seq<string>, indent: nat, into: seq<Field>)
    ensures MappingBody(ls, indent, into) == MappingBody(SkipNoise(ls), indent, into)
  {
    if ls != [] && IsNoise(ls[0]) {
      MappingPastNoise(ls[1..], indent, into);
    }
  }

  lemma {:induction false} ListPastNoise(ls: seq<string>, indent: nat, items: seq<Value>)
    ensures NestedList(ls, indent, items) == NestedList(SkipNoise(ls), indent, items)
  {
    if ls != [] && IsNoise(ls[0]) {
      ListPastNoise(ls[1..], indent, items);
    }
  }

  lemma {:induction false} TopPastNoise(ls: seq<string>, items: seq<Value>)
    ensures TopLevelItems(ls, items) == TopLevelItems(SkipNoise(ls), items)
  {
    if ls != [] && IsNoise(ls[0]) {
      TopPastNoise(ls[1..], items);
    }
  }

  lemma {:induction false} BlanksAreNoise(ls: seq<string>)
    ensures SkipNoise(SkipBlank(ls)) == SkipNoise(ls)
  {
    if ls != [] && IsBlank(ls[0]) {
      BlankIsCut(ls[0]);
      BlanksAreNoise(ls[1..]);
    }
  }

  /** Comments aside, the next line is indented less than `indent`. */
  predicate Below(rest: seq<string>, indent: nat) {
    SkipNoise(rest) == [] || LeadingSpaces(SkipNoise(rest)[0]) < indent
  }

  /** A line made of spaces, some tight content and a trailing comment. */
  lemma ContentLine(indent: nat, content: string, trail: string)
    requires Tight(content) && '#' !in content && Cut(trail) == ""
    ensures var line := Spaces(indent) + content + trail;
            && Cut(line) == Spaces(indent) + content && !IsNoise(line)
            && LeadingSpaces(line) == indent
            && (IsDash(line) <==> StartsWith(content, "- "))
  {
    var line := Spaces(indent) + content + trail;
    CutContent(Spaces(indent) + content, trail);
    assert line == Spaces(indent) + (content + trail);
    Indented(indent, content + trail);
    Indented(indent, content);
  }

  lemma HeadIsTight(e: Entry, indent: nat, rest: seq<string>)
    requires EntryOk(e, indent, rest)
    ensures Tight(Head(e)) && '#' !in Head(e) && !StartsWith(Head(e), "- ")
  {
    var suffix := Suffix(e.payload);
    assert '#' !in suffix && (suffix == "" || Tight(suffix));
    assert Head(e)[0] == e.key[0];
    if |e.key| > 1 {
      assert Head(e)[1] == e.key[1];
    } else {
      assert Head(e)[1] == ':';
    }
  }

  /** The text splits at its first colon into this key and this remainder. */
  predicate Splits(body: string, key: string, text: string) {
    var colon := FirstColon(body);
    colon < |body| && Strip(body[..colon]) == key && Strip(body[colon + 1..]) == text
  }

  lemma HeadSplits(e: Entry, m: nat)
    requires KeyOk(e.key) && (Suffix(e.payload) == "" || Tight(Suffix(e.payload)))
    ensures Splits(Spaces(m) + Head(e), e.key, Suffix(e.payload))
  {
    var after := AfterColon(e.payload);
    JoinAssoc(Spaces(m), e.key, ":", after);
    StripAfterColon(e.payload);
    SplitsAt(m, e.key, after, Suffix(e.payload));
  }

  lemma StripAfterColon(p: Payload)
    requires Suffix(p) == "" || Tight(Suffix(p))
    ensures Strip(AfterColon(p)) == Suffix(p)
  {
    if Suffix(p) != "" {
      StripPadded(Suffix(p));
    }
  }

  lemma SplitsAt(m: nat, key: string, after: string, text: string)
    requires Tight(key) && ':' !in key && Strip(after) == text
    ensures Splits((Spaces(m) + key) + ":" + after, key, text)
  {
    KeySplits(m, key, after);
  }

  lemma JoinAssoc<T>(a: seq<T>, b: seq<T>, c: seq<T>, d: seq<T>)
    ensures a + (b + c + d) == (a + b) + c + d
  {
  }

  lemma Regroup<T>(a: seq<T>, x: T, b: seq<T>, c: seq<T>, rest: seq<T>)
    ensures (a + ([x] + (b + c))) + rest == a + ([x] + (b + (c + rest)))
  {
  }

  // ----- folded blocks -----

  lemma FoldAppend(chunks: seq<string>, chunk: string)
    ensures Fold(chunks + [chunk])
         == if Strip(chunk) == "" then Fold(chunks)
            else if Fold(chunks) == "" then Strip(chunk) else Fold(chunks) + " " + Strip(chunk)
  {
    assert (chunks + [chunk])[..|chunks|] == chunks;
  }

  /** The block ends after its lines and any blank lines behind them, whatever the chunks so far. */
  lemma {:induction false} BlockRoundTrip(lines: seq<string>, indent: nat, chunks: seq<string>, done: seq<string>, rest: seq<string>)
    requires BlockOk(lines, indent) && Outside(rest, indent) && Fold(chunks) == Fold(done)
    ensures FoldedBlock(lines + rest, indent, chunks) == Parsed(Fold(done + lines), SkipBlank(rest))
    decreases |lines|
  {
    if lines == [] {
      assert lines + rest == rest && done + lines == done;
      BlockEnds(rest, indent, chunks);
    } else {
      var line := lines[0];
      assert line in lines;
      assert (lines + rest)[0] == line && (lines + rest)[1..] == lines[1..] + rest;
      assert done + lines == (done + [line]) + lines[1..];
      FoldAppend(done, line);
      if IsBlank(line) {
        FoldAppend(chunks, "");
        BlockRoundTrip(lines[1..], indent, if chunks != [] then chunks + [""] else chunks, done + [line], rest);
      } else {
        StripDropped(line, indent);
        FoldAppend(chunks, line[indent..]);
        BlockRoundTrip(lines[1..], indent, chunks + [line[indent..]], done + [line], rest);
      }
    }
  }

  lemma {:induction false} BlockEnds(rest: seq<string>, indent: nat, chunks: seq<string>)
    requires Outside(rest, indent)
    ensures FoldedBlock(rest, indent, chunks) == Parsed(Fold(chunks), SkipBlank(rest))
  {
    if rest != [] && IsBlank(rest[0]) {
      FoldAppend(chunks, "");
      BlockEnds(rest[1..], indent, if chunks != [] then chunks + [""] else chunks);
    }
  }

  // ----- entries and items -----

  lemma EntryStarts(es: seq<Entry>, indent: nat, rest: seq<string>)
    requires es != [] && EntriesOk(es, indent, rest)
    ensures var after := Tail(es[0].payload) + (PrintEntries(es[1..], indent) + rest);
            && SkipNoise(PrintEntries(es, indent) + rest) == [EntryLine(es[0], indent)] + after
            && LeadingSpaces(EntryLine(es[0], indent)) == indent && !IsDash(EntryLine(es[0], indent))
            && !IsNoise(EntryLine(es[0], indent)) && Cut(EntryLine(es[0], indent)) == Spaces(indent) + Head(es[0])
  {
    var e, line := es[0], EntryLine(es[0], indent);
    var after := Tail(e.payload) + (PrintEntries(es[1..], indent) + rest);
    HeadIsTight(e, indent, PrintEntries(es[1..], indent) + rest);
    ContentLine(indent, Head(e), e.trail);
    Regroup(e.noise, line, Tail(e.payload), PrintEntries(es[1..], indent), rest);
    SkipsNoise(e.noise, [line] + after);
  }

  /** A dash, some tight content and a trailing comment. */
  lemma DashLine(indent: nat, content: string, trail: string)
    requires Tight(content) && '#' !in content && Cut(trail) == ""
    ensures var line := Spaces(indent) + ("- " + content) + trail;
            && LeadingSpaces(line) == indent && IsDash(line) && !IsNoise(line)
            && Cut(From(line, indent + 2)) == content
            && (indent == 0 ==> Cut(line) == "- " + content)
  {
    var line := Spaces(indent) + ("- " + content) + trail;
    ContentLine(indent, "- " + content, trail);
    DropDash(Spaces(indent), content, trail);
    CutContent(content, trail);
    if indent == 0 {
      NoneBefore("- " + content);
    }
  }

  lemma DropDash(spaces: string, content: string, trail: string)
    ensures From(spaces + ("- " + content) + trail, |spaces| + 2) == content + trail
  {
  }

  lemma ItemContent(it: Item, indent: nat, rest: seq<string>)
    requires ItemOk(it, indent, rest)
    ensures LeadingSpaces(ItemLine(it, indent)) == indent && IsDash(ItemLine(it, indent)) && !IsNoise(ItemLine(it, indent))
    ensures Cut(From(ItemLine(it, indent), indent + 2)) == if it.ScalarItem? then TextOf(it.scalar) else Head(it.first)
    ensures indent == 0 ==> StartsWith(Cut(ItemLine(it, 0)), "- ")
  {
    if it.MapItem? {
      HeadIsTight(it.first, indent + 2, PrintEntries(it.rest, indent + 2) + rest);
      DashLine(indent, Head(it.first), it.first.trail);
    } else {
      DashLine(indent, TextOf(it.scalar), it.trail);
    }
  }

  lemma ItemStarts(items: seq<Item>, indent: nat, rest: seq<string>)
    requires items != [] && ItemsOk(items, indent, rest)
    ensures var after := ItemTail(items[0], indent) + (PrintItems(items[1..], indent) + rest);
            SkipNoise(PrintItems(items, indent) + rest) == [ItemLine(items[0], indent)] + after
    ensures Below(PrintItems(items, indent) + rest, indent + 1)
  {
    var line := ItemLine(items[0], indent);
    var after := ItemTail(items[0], indent) + (PrintItems(items[1..], indent) + rest);
    ItemContent(items[0], indent, PrintItems(items[1..], indent) + rest);
    Regroup(items[0].noise, line, ItemTail(items[0], indent), PrintItems(items[1..], indent), rest);
    SkipsNoise(items[0].noise, [line] + after);
  }

  lemma EntriesBelow(es: seq<Entry>, indent: nat, rest: seq<string>)
    requires EntriesOk(es, indent, rest) && Below(rest, indent + 1)
    ensures Below(PrintEntries(es, indent) + rest, indent + 1)
  {
    if es == [] {
      assert PrintEntries(es, indent) + rest == rest;
    } else {
      EntryStarts(es, indent, rest);
    }
  }

  lemma ItemsBelow(items: seq<Item>, indent: nat, rest: seq<string>)
    requires ItemsOk(items, indent, rest) && Below(rest, indent + 1)
    ensures Below(PrintItems(items, indent) + rest, indent + 1)
  {
    if items == [] {
      assert PrintItems(items, indent) + rest == rest;
    } else {
      ItemStarts(items, indent, rest);
    }
  }

  /** A key's line and what is under it parse to the key and the payload's meaning. */
  lemma {:induction false} PayloadRoundTrip(e: Entry, indent: nat, m: nat, ls: seq<string>, rest: seq<string>)
    requires EntryOk(e, indent, rest) && Below(rest, indent + 1)
    requires ls != [] && ls[1..] == Tail(e.payload) + rest
    ensures var r := KeyValue(ls, indent, Spaces(m) + Head(e));
            && r.Ok? && r.value.value == Field(e.key, PayloadMeaning(e.payload))
            && SkipNoise(r.value.rest) == SkipNoise(rest)
    decreases e, 1
  {
    HeadSplits(e, m);
    BodyRoundTrip(e.payload, indent, ls, Spaces(m) + Head(e), e.key, rest);
  }

  /** The lines parse as this key and value, leaving `rest` but for noise. */
  predicate ParsesTo(ls: seq<string>, indent: nat, body: string, field: Field, rest: seq<string>)
    requires ls != []
  {
    var r := KeyValue(ls, indent, body);
    r.Ok? && r.value.value == field && SkipNoise(r.value.rest) == SkipNoise(rest)
  }

  /** `ls` is a key's line, whose text is `body`, then the payload's lines, then `rest`. */
  predicate Holds(p: Payload, ls: seq<string>, body: string, key: string, rest: seq<string>) {
    ls != [] && ls[1..] == Tail(p) + rest && Splits(body, key, Suffix(p)) && key != ""
  }

  lemma {:induction false} BodyRoundTrip(p: Payload, indent: nat, ls: seq<string>, body: string, key: string, rest: seq<string>)
    requires PayloadOk(p, indent, rest) && Below(rest, indent + 1) && Holds(p, ls, body, key, rest)
    ensures ParsesTo(ls, indent, body, Field(key, PayloadMeaning(p)), rest)
    decreases p, 1
  {
    match p
    case Inline(_) => InlineRoundTrip(p, indent, ls, body, key, rest);
    case Block(_, _) => FoldedRoundTrip(p, indent, ls, body, key, rest);
    case Nothing => NothingRoundTrip(p, indent, ls, body, key, rest);
    case SubMap(_, _) => SubMapRoundTrip(p, indent, ls, body, key, rest);
    case SubList(_, _) => SubListRoundTrip(p, indent, ls, body, key, rest);
  }

  lemma InlineRoundTrip(p: Payload, indent: nat, ls: seq<string>, body: string, key: string, rest: seq<string>)
    requires p.Inline? && PayloadOk(p, indent, rest) && Holds(p, ls, body, key, rest)
    ensures ParsesTo(ls, indent, body, Field(key, PayloadMeaning(p)), rest)
  {
    InlineStep(ls, indent, body, key, TextOf(p.scalar));
    ScalarParses(p.scalar);
    NoneBefore(rest);
  }

  lemma FoldedRoundTrip(p: Payload, indent: nat, ls: seq<string>, body: string, key: string, rest: seq<string>)
    requires p.Block? && PayloadOk(p, indent, rest) && Holds(p, ls, body, key, rest)
    ensures ParsesTo(ls, indent, body, Field(key, PayloadMeaning(p)), rest)
  {
    BlockStep(ls, indent, body, key, Mark(p.style));
    NoneBefore(p.lines);
    BlockRoundTrip(p.lines, indent + 2, [], [], rest);
    BlanksAreNoise(rest);
  }

  lemma NothingRoundTrip(p: Payload, indent: nat, ls: seq<string>, body: string, key: string, rest: seq<string>)
    requires p.Nothing? && Below(rest, indent + 1) && Holds(p, ls, body, key, rest)
    ensures ParsesTo(ls, indent, body, Field(key, PayloadMeaning(p)), rest)
  {
    NoneBefore(rest);
    NothingStep(ls, indent, body, key);
  }

  lemma {:induction false} SubMapRoundTrip(p: Payload, indent: nat, ls: seq<string>, body: string, key: string, rest: seq<string>)
    requires p.SubMap? && PayloadOk(p, indent, rest) && Below(rest, indent + 1) && Holds(p, ls, body, key, rest)
    ensures ParsesTo(ls, indent, body, Field(key, PayloadMeaning(p)), rest)
    decreases p, 0
  {
    EntryStarts(p.entries, p.indent, rest);
    SubMapStep(ls, indent, body, key, p.indent);
    BelowWider(rest, indent + 1, p.indent);
    EntriesRoundTrip(p.entries, p.indent, [], rest);
    SkipTwice(rest);
  }

  lemma {:induction false} SubListRoundTrip(p: Payload, indent: nat, ls: seq<string>, body: string, key: string, rest: seq<string>)
    requires p.SubList? && PayloadOk(p, indent, rest) && Below(rest, indent + 1) && Holds(p, ls, body, key, rest)
    ensures ParsesTo(ls, indent, body, Field(key, PayloadMeaning(p)), rest)
    decreases p, 0
  {
    ItemStarts(p.items, p.indent, rest);
    ItemContent(p.items[0], p.indent, PrintItems(p.items[1..], p.indent) + rest);
    SubListStep(ls, indent, body, key, p.indent);
    BelowWider(rest, indent + 1, p.indent);
    ItemsRoundTrip(p.items, p.indent, [], rest);
    NoneBefore(ItemsMeaning(p.items));
    SkipTwice(rest);
  }

  lemma InlineStep(ls: seq<string>, indent: nat, body: string, key: string, text: string)
    requires ls != [] && Splits(body, key, text) && key != "" && text != "" && !IsBlockMarker(text)
    ensures KeyValue(ls, indent, body) == Ok(Parsed(Field(key, ParseScalar(text)), ls[1..]))
  {
  }

  lemma BlockStep(ls: seq<string>, indent: nat, body: string, key: string, text: string)
    requires ls != [] && Splits(body, key, text) && key != "" && IsBlockMarker(text)
    ensures var block := FoldedBlock(ls[1..], indent + 2, []);
            KeyValue(ls, indent, body) == Ok(Parsed(Field(key, Str(block.value)), block.rest))
  {
  }

  lemma NothingStep(ls: seq<string>, indent: nat, body: string, key: string)
    requires ls != [] && Splits(body, key, "") && key != "" && Below(ls[1..], indent + 1)
    ensures KeyValue(ls, indent, body) == Ok(Parsed(Field(key, Dict([])), ls[1..]))
  {
  }

  lemma SubMapStep(ls: seq<string>, indent: nat, body: string, key: string, inner: nat)
    requires ls != [] && Splits(body, key, "") && key != ""
    requires var peek := SkipNoise(ls[1..]); peek != [] && LeadingSpaces(peek[0]) == inner > indent && !IsDash(peek[0])
    ensures var r := MappingBody(ls[1..], inner, []);
            r.Ok? ==> KeyValue(ls, indent, body) == Ok(Parsed(Field(key, Dict(r.value.value)), r.value.rest))
  {
    MappingPastNoise(ls[1..], inner, []);
  }

  lemma SubListStep(ls: seq<string>, indent: nat, body: string, key: string, inner: nat)
    requires ls != [] && Splits(body, key, "") && key != ""
    requires var peek := SkipNoise(ls[1..]); peek != [] && LeadingSpaces(peek[0]) == inner > indent && IsDash(peek[0])
    ensures var r := NestedList(ls[1..], inner, []);
            r.Ok? ==> KeyValue(ls, indent, body) == Ok(Parsed(Field(key, List(r.value.value)), r.value.rest))
  {
    ListPastNoise(ls[1..], inner, []);
  }

  lemma NoneBefore<T>(s: seq<T>)
    ensures [] + s == s
  {
  }

  lemma SkipTwice(ls: seq<string>)
    ensures SkipNoise(SkipNoise(ls)) == SkipNoise(ls)
  {
  }

  lemma {:induction false} MappingStops(rest: seq<string>, indent: nat, into: seq<Field>)
    requires Below(rest, indent)
    ensures MappingBody(rest, indent, into) == Ok(Parsed(into, SkipNoise(rest)))
  {
    MappingPastNoise(rest, indent, into);
  }

  lemma {:induction false} ListStops(rest: seq<string>, indent: nat, items: seq<Value>)
    requires Below(rest, indent)
    ensures NestedList(rest, indent, items) == Ok(Parsed(items, SkipNoise(rest)))
  {
    ListPastNoise(rest, indent, items);
  }

  lemma {:induction false} EntriesRoundTrip(es: seq<Entry>, indent: nat, into: seq<Field>, rest: seq<string>)
    requires EntriesOk(es, indent, rest) && Below(rest, indent)
    ensures MappingBody(PrintEntries(es, indent) + rest, indent, into) == Ok(Parsed(EntriesMeaning(es, into), SkipNoise(rest)))
    decreases es, 0
  {
    if es == [] {
      assert PrintEntries(es, indent) + rest == rest;
      MappingStops(rest, indent, into);
    } else {
      var e, follow := es[0], PrintEntries(es[1..], indent) + rest;
      EntryStarts(es, indent, rest);
      var ls := SkipNoise(PrintEntries(es, indent) + rest);
      MappingPastNoise(PrintEntries(es, indent) + rest, indent, into);
      BelowWider(rest, indent, indent + 1);
      EntriesBelow(es[1..], indent, rest);
      PayloadRoundTrip(e, indent, indent, ls, follow);
      MappingStep(ls, indent, into, follow);
      EntriesRoundTrip(es[1..], indent, Put(into, e.key, PayloadMeaning(e.payload)), rest);
    }
  }

  lemma MappingStep(ls: seq<string>, indent: nat, into: seq<Field>, follow: seq<string>)
    requires ls != [] && !IsNoise(ls[0]) && LeadingSpaces(ls[0]) == indent && !IsDash(ls[0])
    requires var r := KeyValue(ls, indent, Cut(ls[0])); r.Ok? && SkipNoise(r.value.rest) == SkipNoise(follow)
    ensures var f := KeyValue(ls, indent, Cut(ls[0])).value.value;
            MappingBody(ls, indent, into) == MappingBody(follow, indent, Put(into, f.key, f.value))
  {
    var p := KeyValue(ls, indent, Cut(ls[0])).value;
    MappingPastNoise(p.rest, indent, Put(into, p.value.key, p.value.value));
    MappingPastNoise(follow, indent, Put(into, p.value.key, p.value.value));
  }

  /** One list item parses to its meaning. */
  lemma {:induction false} ItemRoundTrip(it: Item, indent: nat, ls: seq<string>, rest: seq<string>)
    requires ItemOk(it, indent, rest) && Below(rest, indent + 1)
    requires ls != [] && ls[0] == ItemLine(it, indent) && ls[1..] == ItemTail(it, indent) + rest
    ensures var r := ListItem(ls, indent);
            r.Ok? && r.value.value == ItemMeaning(it) && SkipNoise(r.value.rest) == SkipNoise(rest)
    decreases it, 1
  {
    ItemContent(it, indent, rest);
    if it.ScalarItem? {
      TightStays(TextOf(it.scalar));
      ScalarParses(it.scalar);
      assert ls[1..] == rest;
    } else {
      MapItemRoundTrip(it, indent, ls, rest);
    }
  }

  lemma {:induction false} MapItemRoundTrip(it: Item, indent: nat, ls: seq<string>, rest: seq<string>)
    requires it.MapItem? && ItemOk(it, indent, rest) && Below(rest, indent + 1)
    requires ls != [] && Cut(From(ls[0], indent + 2)) == Head(it.first) && ls[1..] == ItemTail(it, indent) + rest
    ensures var r := ListItem(ls, indent);
            r.Ok? && r.value.value == ItemMeaning(it) && SkipNoise(r.value.rest) == SkipNoise(rest)
    decreases it, 0
  {
    var follow := PrintEntries(it.rest, indent + 2) + rest;
    TailAssoc(Tail(it.first.payload), PrintEntries(it.rest, indent + 2), rest);
    BelowWider(rest, indent + 1, indent + 2);
    BelowWider(rest, indent + 1, indent + 3);
    EntriesBelow(it.rest, indent + 2, rest);
    PayloadRoundTrip(it.first, indent + 2, 0, ls, follow);
    assert Spaces(0) + Head(it.first) == Head(it.first);
    var first := Field(it.first.key, PayloadMeaning(it.first.payload));
    EntriesRoundTrip(it.rest, indent + 2, [first], rest);
    assert it.first.key + ":" <= Head(it.first) && Head(it.first)[|it.first.key|] == ':';
    MapItemStep(ls, indent, follow);
    SkipTwice(rest);
  }

  lemma TailAssoc<T>(a: seq<T>, b: seq<T>, c: seq<T>)
    ensures (a + b) + c == a + (b + c)
  {
  }

  lemma MapItemStep(ls: seq<string>, indent: nat, follow: seq<string>)
    requires ls != [] && ':' in Cut(From(ls[0], indent + 2))
    requires var r := KeyValue(ls, indent + 2, Cut(From(ls[0], indent + 2)));
             r.Ok? && SkipNoise(r.value.rest) == SkipNoise(follow)
    ensures var r := KeyValue(ls, indent + 2, Cut(From(ls[0], indent + 2)));
            var body := MappingBody(follow, indent + 2, [r.value.value]);
            ListItem(ls, indent) == if body.Err? then Err(body.error) else Ok(Parsed(Dict(body.value.value), body.value.rest))
  {
    var f := KeyValue(ls, indent + 2, Cut(From(ls[0], indent + 2))).value;
    MappingPastNoise(f.rest, indent + 2, [f.value]);
    MappingPastNoise(follow, indent + 2, [f.value]);
  }

  lemma BelowWider(rest: seq<string>, a: nat, b: nat)
    requires Below(rest, a) && a <= b
    ensures Below(rest, b)
  {
  }

  lemma {:induction false} ItemsRoundTrip(items: seq<Item>, indent: nat, acc: seq<Value>, rest: seq<string>)
    requires ItemsOk(items, indent, rest) && Below(rest, indent)
    ensures NestedList(PrintItems(items, indent) + rest, indent, acc) == Ok(Parsed(acc + ItemsMeaning(items), SkipNoise(rest)))
    decreases items, 0
  {
    if items == [] {
      assert PrintItems(items, indent) + rest == rest && acc + ItemsMeaning(items) == acc;
      ListStops(rest, indent, acc);
    } else {
      var it, follow := items[0], PrintItems(items[1..], indent) + rest;
      ItemStarts(items, indent, rest);
      var ls := SkipNoise(PrintItems(items, indent) + rest);
      ListPastNoise(PrintItems(items, indent) + rest, indent, acc);
      BelowWider(rest, indent, indent + 1);
      ItemsBelow(items[1..], indent, rest);
      ItemContent(it, indent, follow);
      ItemRoundTrip(it, indent, ls, follow);
      ListStep(ls, indent, acc, follow);
      ItemsRoundTrip(items[1..], indent, acc + [ItemMeaning(it)], rest);
      ItemsAssoc(acc, items);
    }
  }

  lemma ItemsAssoc(acc: seq<Value>, items: seq<Item>)
    requires items != []
    ensures (acc + [ItemMeaning(items[0])]) + ItemsMeaning(items[1..]) == acc + ItemsMeaning(items)
  {
    TailAssoc(acc, [ItemMeaning(items[0])], ItemsMeaning(items[1..]));
  }

  lemma ListStep(ls: seq<string>, indent: nat, acc: seq<Value>, follow: seq<string>)
    requires ls != [] && !IsNoise(ls[0]) && LeadingSpaces(ls[0]) == indent && IsDash(ls[0])
    requires ListItem(ls, indent).Ok? && SkipNoise(ListItem(ls, indent).value.rest) == SkipNoise(follow)
    ensures NestedList(ls, indent, acc) == NestedList(follow, indent, acc + [ListItem(ls, indent).value.value])
  {
    var item := ListItem(ls, indent).value;
    ListPastNoise(item.rest, indent, acc + [item.value]);
    ListPastNoise(follow, indent, acc + [item.value]);
  }

  // ----- the whole patch -----

  lemma TopStep(ls: seq<string>, acc: seq<Value>, follow: seq<string>)
    requires ls != [] && !IsNoise(ls[0]) && StartsWith(Cut(ls[0]), "- ")
    requires ListItem(ls, 0).Ok? && SkipNoise(ListItem(ls, 0).value.rest) == SkipNoise(follow)
    ensures TopLevelItems(ls, acc) == TopLevelItems(follow, acc + [ListItem(ls, 0).value.value])
  {
    var item := ListItem(ls, 0).value;
    ColumnCheckIsDead(ls[0]);
    TopPastNoise(item.rest, acc + [item.value]);
    TopPastNoise(follow, acc + [item.value]);
  }

  lemma {:induction false} TopRoundTrip(items: seq<Item>, acc: seq<Value>, rest: seq<string>)
    requires ItemsOk(items, 0, rest) && AllNoise(rest) && (items != [] || acc != [])
    ensures TopLevelItems(PrintItems(items, 0) + rest, acc) == Ok(acc + ItemsMeaning(items))
    decreases |items|
  {
    NoiseIsSkipped(rest);
    if items == [] {
      assert PrintItems(items, 0) + rest == rest && acc + ItemsMeaning(items) == acc;
      TopPastNoise(rest, acc);
    } else {
      var it, follow := items[0], PrintItems(items[1..], 0) + rest;
      ItemStarts(items, 0, rest);
      var ls := SkipNoise(PrintItems(items, 0) + rest);
      TopPastNoise(PrintItems(items, 0) + rest, acc);
      ItemsBelow(items[1..], 0, rest);
      ItemContent(it, 0, follow);
      ItemRoundTrip(it, 0, ls, follow);
      TopStep(ls, acc, follow);
      TopRoundTrip(items[1..], acc + [ItemMeaning(it)], rest);
      ItemsAssoc(acc, items);
    }
  }

  lemma NoiseIsSkipped(rest: seq<string>)
    requires AllNoise(rest)
    ensures SkipNoise(rest) == []
  {
    SkipsNoise(rest, []);
    assert rest + [] == rest;
  }

  /** Parsing a printed patch gives what it means. */
  lemma RoundTrip(items: seq<Item>, ending: seq<string>)
    requires items != [] && ItemsOk(items, 0, ending) && AllNoise(ending)
    ensures TopLevelItems(PrintItems(items, 0) + ending, []) == Ok(ItemsMeaning(items))
  {
    TopRoundTrip(items, [], ending);
    assert [] + ItemsMeaning(items) == ItemsMeaning(items);
  }
}
