/** The parser of the Cordis patch: a hand-written indentation parser for a small subset of YAML.

    The specification functions take the lines still to be read and return what is left of them; the
    methods are the program's own loops over an index. */
module PatchParser {
  import opened Common
  import opened Decimals
  import opened PatchText

  datatype Value = Str(text: string) | Num(n: int) | Flag(b: bool) | Null | List(items: seq<Value>) | Dict(fields: seq<Field>)

  datatype Field = Field(key: string, value: Value)

  datatype Error =
    | UnexpectedTopLevel(line: string)
    | NotAtColumnZero(line: string)
    | UnexpectedIndent(line: string)
    | NotAKeyValue(body: string)
    | EmptyKey(line: string)
    | EmptyPatch

  datatype Parsed<T> = Parsed(value: T, rest: seq<string>)

  // ----- dictionaries in insertion order -----

  /** Assign a key: an existing one keeps its place. */
  function Put(fields: seq<Field>, key: string, value: Value): seq<Field> {
    if fields == [] then [Field(key, value)]
    else if fields[0].key == key then [Field(key, value)] + fields[1..]
    else [fields[0]] + Put(fields[1..], key, value)
  }

  function Get(fields: seq<Field>, key: string): Option<Value> {
    if fields == [] then None
    else if fields[0].key == key then Some(fields[0].value)
    else Get(fields[1..], key)
  }

  lemma {:induction false} PutThenGet(fields: seq<Field>, key: string, value: Value, other: string)
    ensures Get(Put(fields, key, value), other) == if other == key then Some(value) else Get(fields, other)
  {
    if fields != [] && fields[0].key != key {
      PutThenGet(fields[1..], key, value, other);
    }
  }

  // ----- scalars -----

  /** Digits with single underscores between them. */
  function ParseDigits(s: string): Option<nat> {
    if s == "" || !('0' <= s[|s| - 1] <= '9') then None
    else
      var d := DigitValue(s[|s| - 1]);
      if |s| == 1 then Some(d)
      else
        var head := ParseDigits(if s[|s| - 2] == '_' then s[..|s| - 2] else s[..|s| - 1]);
        if head.None? then None else Some(10 * head.value + d)
  }

  /** An optionally signed integer. */
  function ParseInt(s: string): Option<int> {
    if s != "" && (s[0] == '-' || s[0] == '+') then
      Signed(ParseDigits(s[1..]), s[0] == '-')
    else
      Signed(ParseDigits(s), false)
  }

  function Signed(digits: Option<nat>, negative: bool): Option<int> {
    if digits.None? then None
    else
      var n: int := digits.value;
      Some(if negative then -n else n)
  }

  predicate QuotedBy(s: string, quote: char) {
    |s| >= 2 && s[0] == quote && s[|s| - 1] == quote
  }

  function ParseScalar(s: string): Value {
    if StartsWith(s, "!!js ") then Str(s[5..])
    else if QuotedBy(s, '\'') || QuotedBy(s, '"') then Str(s[1..|s| - 1])
    else if s == "true" then Flag(true)
    else if s == "false" then Flag(false)
    else if s == "null" then Null
    else if ParseInt(s).Some? then Num(ParseInt(s).value)
    else Str(s)
  }

  // ----- lines -----

  /** A blank or comment-only line. */
  predicate IsNoise(line: string) {
    Cut(line) == ""
  }

  predicate IsBlank(line: string) {
    Strip(line) == ""
  }

  predicate IsDash(line: string) {
    StartsWith(StripLeft(Cut(line)), "- ")
  }

  function SkipNoise(ls: seq<string>): (r: seq<string>)
    ensures |r| <= |ls| && (r != [] ==> !IsNoise(r[0]))
  {
    if ls != [] && IsNoise(ls[0]) then SkipNoise(ls[1..]) else ls
  }

  predicate IsBlockMarker(s: string) {
    s == ">-" || s == "|-" || s == ">" || s == "|"
  }

  /** The words of a folded block: its non-blank lines, stripped, joined by spaces. */
  function Fold(chunks: seq<string>): string {
    if chunks == [] then ""
    else
      var head, last := Fold(chunks[..|chunks| - 1]), Strip(chunks[|chunks| - 1]);
      if last == "" then head else if head == "" then last else head + " " + last
  }

  // ----- the grammar -----

  function FoldedBlock(ls: seq<string>, indent: nat, chunks: seq<string>): (r: Parsed<string>)
    ensures |r.rest| <= |ls|
  {
    if ls == [] then Parsed(Fold(chunks), ls)
    else if IsBlank(ls[0]) then FoldedBlock(ls[1..], indent, if chunks != [] then chunks + [""] else chunks)
    else if LeadingSpaces(ls[0]) < indent then Parsed(Fold(chunks), ls)
    else FoldedBlock(ls[1..], indent, chunks + [if |ls[0]| >= indent then ls[0][indent..] else Strip(ls[0])])
  }

  function KeyValue(ls: seq<string>, indent: nat, body: string): (r: Result<Parsed<Field>, Error>)
    requires ls != []
    ensures r.Ok? ==> |r.value.rest| < |ls|
    decreases |ls|, 0
  {
    var colon := FirstColon(body);
    if colon == |body| then Err(NotAKeyValue(body))
    else
      var key, text := Strip(body[..colon]), Strip(body[colon + 1..]);
      if key == "" then Err(EmptyKey(ls[0]))
      else if IsBlockMarker(text) then
        var block := FoldedBlock(ls[1..], indent + 2, []);
        Ok(Parsed(Field(key, Str(block.value)), block.rest))
      else if text == "" then
        var peek := SkipNoise(ls[1..]);
        if peek == [] || LeadingSpaces(peek[0]) <= indent then Ok(Parsed(Field(key, Dict([])), ls[1..]))
        else if IsDash(peek[0]) then
          var r := NestedList(peek, LeadingSpaces(peek[0]), []);
          if r.Err? then Err(r.error) else Ok(Parsed(Field(key, List(r.value.value)), r.value.rest))
        else
          var r := MappingBody(peek, LeadingSpaces(peek[0]), []);
          if r.Err? then Err(r.error) else Ok(Parsed(Field(key, Dict(r.value.value)), r.value.rest))
      else Ok(Parsed(Field(key, ParseScalar(text)), ls[1..]))
  }

  function ListItem(ls: seq<string>, indent: nat): (r: Result<Parsed<Value>, Error>)
    requires ls != []
    ensures r.Ok? ==> |r.value.rest| < |ls|
    decreases |ls|, 1
  {
    var body := Cut(From(ls[0], indent + 2));
    if body != "" && ':' !in body then Ok(Parsed(ParseScalar(Strip(body)), ls[1..]))
    else if body != "" then
      var first := KeyValue(ls, indent + 2, body);
      if first.Err? then Err(first.error)
      else
        var f := first.value;
        var r := MappingBody(f.rest, indent + 2, [f.value]);
        if r.Err? then Err(r.error) else Ok(Parsed(Dict(r.value.value), r.value.rest))
    else
      var r := MappingBody(ls[1..], indent + 2, []);
      if r.Err? then Err(r.error) else Ok(Parsed(Dict(r.value.value), r.value.rest))
  }

  function MappingBody(ls: seq<string>, indent: nat, into: seq<Field>): (r: Result<Parsed<seq<Field>>, Error>)
    ensures r.Ok? ==> |r.value.rest| <= |ls|
    decreases |ls|, 2
  {
    if ls == [] then Ok(Parsed(into, ls))
    else if IsNoise(ls[0]) then MappingBody(ls[1..], indent, into)
    else if LeadingSpaces(ls[0]) < indent then Ok(Parsed(into, ls))
    else if LeadingSpaces(ls[0]) > indent then Err(UnexpectedIndent(ls[0]))
    else if IsDash(ls[0]) then Ok(Parsed(into, ls))
    else
      var r := KeyValue(ls, indent, Cut(ls[0]));
      if r.Err? then Err(r.error)
      else MappingBody(r.value.rest, indent, Put(into, r.value.value.key, r.value.value.value))
  }

  function NestedList(ls: seq<string>, indent: nat, items: seq<Value>): (r: Result<Parsed<seq<Value>>, Error>)
    ensures r.Ok? ==> |r.value.rest| <= |ls|
    decreases |ls|, 3
  {
    if ls == [] then Ok(Parsed(items, ls))
    else if IsNoise(ls[0]) then NestedList(ls[1..], indent, items)
    else if LeadingSpaces(ls[0]) != indent || !IsDash(ls[0]) then Ok(Parsed(items, ls))
    else
      var r := ListItem(ls, indent);
      if r.Err? then Err(r.error) else NestedList(r.value.rest, indent, items + [r.value.value])
  }

  function TopLevelItems(ls: seq<string>, items: seq<Value>): Result<seq<Value>, Error>
    decreases |ls|
  {
    if ls == [] then if items == [] then Err(EmptyPatch) else Ok(items)
    else if IsNoise(ls[0]) then TopLevelItems(ls[1..], items)
    else if !StartsWith(Cut(ls[0]), "- ") then Err(UnexpectedTopLevel(ls[0]))
    else if StartsWith(ls[0], " ") || StartsWith(ls[0], "\t") then Err(NotAtColumnZero(ls[0]))
    else
      var r := ListItem(ls, 0);
      if r.Err? then Err(r.error) else TopLevelItems(r.value.rest, items + [r.value.value])
  }

  // ----- the program's loops -----

  /** The method's answer and next index say what the specification says of the lines from `index` on. */
  predicate Agrees<T(==)>(spec: Result<Parsed<T>, Error>, r: Result<T, Error>, lines: seq<string>, next: nat) {
    && (spec.Err? ==> r == Err(spec.error))
    && (spec.Ok? ==> r == Ok(spec.value.value) && next <= |lines| && spec.value.rest == lines[next..])
  }

  method ParseTopLevelItems(lines: seq<string>) returns (r: Result<seq<Value>, Error>)
    ensures r == TopLevelItems(lines, [])
  {
    var items: seq<Value> := [];
    var i := 0;
    while i < |lines|
      invariant i <= |lines| && TopLevelItems(lines, []) == TopLevelItems(lines[i..], items)
    {
      var raw := lines[i];
      assert lines[i..][0] == raw && lines[i..][1..] == lines[i + 1..];
      var stripped := Cut(raw);
      if stripped == "" {
        i := i + 1;
        continue;
      }
      if !StartsWith(stripped, "- ") {
        return Err(UnexpectedTopLevel(raw));
      }
      if StartsWith(raw, " ") || StartsWith(raw, "\t") {
        return Err(NotAtColumnZero(raw));
      }
      var item, next := ParseListItem(lines, i, 0);
      if item.Err? {
        return Err(item.error);
      }
      i := next;
      items := items + [item.value];
    }
    if items == [] {
      return Err(EmptyPatch);
    }
    return Ok(items);
  }

  method ParseListItem(lines: seq<string>, index: nat, indent: nat) returns (r: Result<Value, Error>, next: nat)
    requires index < |lines|
    ensures Agrees(ListItem(lines[index..], indent), r, lines, next) && (r.Ok? ==> index < next)
    decreases |lines| - index, 1
  {
    assert lines[index..][0] == lines[index] && lines[index..][1..] == lines[index + 1..];
    var body := Cut(From(lines[index], indent + 2));
    if body != "" && ':' !in body {
      return Ok(ParseScalar(Strip(body))), index + 1;
    }
    var mapping: seq<Field> := [];
    next := index + 1;
    if body != "" {
      var field;
      field, next := ParseKeyValue(lines, index, indent + 2, body);
      if field.Err? {
        return Err(field.error), next;
      }
      mapping := [field.value];
    }
    var fields;
    fields, next := ParseMappingBody(lines, next, indent + 2, mapping);
    if fields.Err? {
      return Err(fields.error), next;
    }
    return Ok(Dict(fields.value)), next;
  }

  method ParseMappingBody(lines: seq<string>, index: nat, indent: nat, into0: seq<Field>)
    returns (into: Result<seq<Field>, Error>, next: nat)
    requires index <= |lines|
    ensures Agrees(MappingBody(lines[index..], indent, into0), into, lines, next) && (into.Ok? ==> index <= next)
    decreases |lines| - index, 2
  {
    var fields := into0;
    next := index;
    while next < |lines|
      invariant index <= next <= |lines|
      invariant MappingBody(lines[index..], indent, into0) == MappingBody(lines[next..], indent, fields)
      decreases |lines| - next
    {
      var raw := lines[next];
      assert lines[next..][0] == raw && lines[next..][1..] == lines[next + 1..];
      var stripped := Cut(raw);
      if stripped == "" {
        next := next + 1;
        continue;
      }
      var current := LeadingSpaces(raw);
      if current < indent {
        return Ok(fields), next;
      }
      if current > indent {
        return Err(UnexpectedIndent(raw)), next;
      }
      if IsDash(raw) {
        return Ok(fields), next;
      }
      var field, after := ParseKeyValue(lines, next, indent, stripped);
      if field.Err? {
        return Err(field.error), next;
      }
      next := after;
      fields := Put(fields, field.value.key, field.value.value);
    }
    return Ok(fields), next;
  }

  method ParseKeyValue(lines: seq<string>, index: nat, indent: nat, body: string)
    returns (r: Result<Field, Error>, next: nat)
    requires index < |lines|
    ensures Agrees(KeyValue(lines[index..], indent, body), r, lines, next) && (r.Ok? ==> index < next)
    decreases |lines| - index, 0
  {
    next := index + 1;
    assert lines[index..][0] == lines[index] && lines[index..][1..] == lines[next..];
    var colon := FirstColon(body);
    if colon == |body| {
      return Err(NotAKeyValue(body)), next;
    }
    var key, rest := Strip(body[..colon]), Strip(body[colon + 1..]);
    if key == "" {
      return Err(EmptyKey(lines[index])), next;
    }
    if IsBlockMarker(rest) {
      var text;
      text, next := ParseFoldedBlock(lines, next, indent + 2);
      return Ok(Field(key, Str(text))), next;
    }
    if rest != "" {
      return Ok(Field(key, ParseScalar(rest))), next;
    }
    var peek := PeekContent(lines, next);
    if peek == |lines| || LeadingSpaces(lines[peek]) <= indent {
      return Ok(Field(key, Dict([]))), next;
    }
    assert lines[peek..][0] == lines[peek];
    var peekIndent := LeadingSpaces(lines[peek]);
    if IsDash(lines[peek]) {
      var values;
      values, next := ParseNestedList(lines, peek, peekIndent);
      r := if values.Err? then Err(values.error) else Ok(Field(key, List(values.value)));
    } else {
      var nested;
      nested, next := ParseMappingBody(lines, peek, peekIndent, []);
      r := if nested.Err? then Err(nested.error) else Ok(Field(key, Dict(nested.value)));
    }
  }

  /** The next line that is not blank or a comment. */
  method PeekContent(lines: seq<string>, index: nat) returns (peek: nat)
    requires index <= |lines|
    ensures index <= peek <= |lines| && lines[peek..] == SkipNoise(lines[index..])
  {
    peek := index;
    while peek < |lines| && IsNoise(lines[peek])
      invariant index <= peek <= |lines| && SkipNoise(lines[index..]) == SkipNoise(lines[peek..])
    {
      assert lines[peek..][0] == lines[peek] && lines[peek..][1..] == lines[peek + 1..];
      peek := peek + 1;
    }
    assert peek < |lines| ==> lines[peek..][0] == lines[peek];
  }

  method ParseNestedList(lines: seq<string>, index: nat, indent: nat) returns (r: Result<seq<Value>, Error>, next: nat)
    requires index <= |lines|
    ensures Agrees(NestedList(lines[index..], indent, []), r, lines, next) && (r.Ok? ==> index <= next)
    decreases |lines| - index, 3
  {
    var items: seq<Value> := [];
    next := index;
    while next < |lines|
      invariant index <= next <= |lines|
      invariant NestedList(lines[index..], indent, []) == NestedList(lines[next..], indent, items)
      decreases |lines| - next
    {
      var raw := lines[next];
      assert lines[next..][0] == raw && lines[next..][1..] == lines[next + 1..];
      if IsNoise(raw) {
        next := next + 1;
        continue;
      }
      var current := LeadingSpaces(raw);
      if current < indent {
        return Ok(items), next;
      }
      if current != indent || !IsDash(raw) {
        return Ok(items), next;
      }
      var item, after := ParseListItem(lines, next, indent);
      if item.Err? {
        return Err(item.error), next;
      }
      next := after;
      items := items + [item.value];
    }
    return Ok(items), next;
  }

  method ParseFoldedBlock(lines: seq<string>, index: nat, indent: nat) returns (text: string, next: nat)
    requires index <= |lines|
    ensures index <= next <= |lines| && FoldedBlock(lines[index..], indent, []) == Parsed(text, lines[next..])
  {
    var chunks: seq<string> := [];
    next := index;
    while next < |lines|
      invariant index <= next <= |lines|
      invariant FoldedBlock(lines[index..], indent, []) == FoldedBlock(lines[next..], indent, chunks)
    {
      var raw := lines[next];
      assert lines[next..][0] == raw && lines[next..][1..] == lines[next + 1..];
      if IsBlank(raw) {
        if chunks != [] {
          chunks := chunks + [""];
        }
        next := next + 1;
        continue;
      }
      if LeadingSpaces(raw) < indent {
        break;
      }
      chunks := chunks + [if |raw| >= indent then raw[indent..] else Strip(raw)];
      next := next + 1;
    }
    return Fold(chunks), next;
  }

  /** The column-zero check can never fire: an indented line already fails the dash check. */
  lemma ColumnCheckIsDead(line: string)
    ensures StartsWith(Cut(line), "- ") ==> !StartsWith(line, " ") && !StartsWith(line, "\t")
  {
    CutIsPrefix(line);
    if StartsWith(Cut(line), "- ") {
      assert Cut(line)[0] == '-';
    }
  }
}
