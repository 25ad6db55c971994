/** Layout changes nothing: a patch parses to the same value with its blank lines, comment lines and
    trailing comments removed; and exactly which comments would be read as text. */
module PatchNoise {
  import opened Common
  import opened PatchText
  import opened PatchParser
  import opened PatchRoundTrip

  // ----- the same tree without noise -----

  function BarePayload(p: Payload): Payload {
    match p
    case SubMap(indent, entries) => SubMap(indent, BareEntries(entries))
    case SubList(indent, items) => SubList(indent, BareItems(items))
    case _ => p
  }

  function BareEntry(e: Entry): Entry {
    Entry([], e.key, BarePayload(e.payload), "")
  }

  function BareEntries(es: seq<Entry>): (r: seq<Entry>)
    ensures |r| == |es| && (r != [] ==> r[0].noise == [])
  {
    if es == [] then [] else [BareEntry(es[0])] + BareEntries(es[1..])
  }

  function BareItem(it: Item): Item {
    match it
    case ScalarItem(_, s, _) => ScalarItem([], s, "")
    case MapItem(_, first, rest) => MapItem([], BareEntry(first), BareEntries(rest))
  }

  function BareItems(items: seq<Item>): (r: seq<Item>)
    ensures |r| == |items| && (r != [] ==> r[0].noise == [])
  {
    if items == [] then [] else [BareItem(items[0])] + BareItems(items[1..])
  }

  // ----- it means the same -----

  lemma {:induction false} PayloadSameMeaning(p: Payload)
    ensures PayloadMeaning(BarePayload(p)) == PayloadMeaning(p)
  {
    if p.SubMap? {
      EntriesSameMeaning(p.entries, []);
    } else if p.SubList? {
      ItemsSameMeaning(p.items);
    }
  }

  lemma {:induction false} EntriesSameMeaning(es: seq<Entry>, into: seq<Field>)
    ensures EntriesMeaning(BareEntries(es), into) == EntriesMeaning(es, into)
    decreases es
  {
    if es != [] {
      PayloadSameMeaning(es[0].payload);
      assert BareEntries(es)[1..] == BareEntries(es[1..]);
      EntriesSameMeaning(es[1..], Put(into, es[0].key, PayloadMeaning(es[0].payload)));
    }
  }

  lemma {:induction false} ItemSameMeaning(it: Item)
    ensures ItemMeaning(BareItem(it)) == ItemMeaning(it)
  {
    if it.MapItem? {
      PayloadSameMeaning(it.first.payload);
      EntriesSameMeaning(it.rest, [Field(it.first.key, PayloadMeaning(it.first.payload))]);
    }
  }

  lemma {:induction false} ItemsSameMeaning(items: seq<Item>)
    ensures ItemsMeaning(BareItems(items)) == ItemsMeaning(items)
  {
    if items != [] {
      ItemSameMeaning(items[0]);
      assert BareItems(items)[1..] == BareItems(items[1..]);
      ItemsSameMeaning(items[1..]);
    }
  }

  // ----- and is still in the subset -----

  lemma EntriesOutside(es: seq<Entry>, indent: nat, rest: seq<string>)
    requires EntriesOk(es, indent, rest) && Outside(rest, indent + 2) && (es != [] ==> es[0].noise == [])
    ensures Outside(PrintEntries(es, indent) + rest, indent + 2)
  {
    if es == [] {
      NoneBefore(rest);
    } else {
      EntryStarts(es, indent, rest);
      var line := EntryLine(es[0], indent);
      var after := Tail(es[0].payload) + (PrintEntries(es[1..], indent) + rest);
      Regroup([], line, Tail(es[0].payload), PrintEntries(es[1..], indent), rest);
      NoneBefore([line] + after);
      ContentIsNotBlank(line);
    }
  }

  lemma ItemsOutside(items: seq<Item>, indent: nat, rest: seq<string>)
    requires ItemsOk(items, indent, rest) && Outside(rest, indent + 2) && (items != [] ==> items[0].noise == [])
    ensures Outside(PrintItems(items, indent) + rest, indent + 2)
  {
    if items == [] {
      NoneBefore(rest);
    } else {
      var line := ItemLine(items[0], indent);
      var after := ItemTail(items[0], indent) + (PrintItems(items[1..], indent) + rest);
      ItemContent(items[0], indent, PrintItems(items[1..], indent) + rest);
      Regroup([], line, ItemTail(items[0], indent), PrintItems(items[1..], indent), rest);
      NoneBefore([line] + after);
      ContentIsNotBlank(line);
    }
  }

  lemma ContentIsNotBlank(line: string)
    requires !IsNoise(line)
    ensures !IsBlank(line)
  {
    if IsBlank(line) {
      BlankIsCut(line);
    }
  }

  lemma OutsideWider(rest: seq<string>, a: nat, b: nat)
    requires Outside(rest, a) && a <= b
    ensures Outside(rest, b)
  {
  }

  lemma {:induction false} BarePayloadOk(p: Payload, indent: nat, rest: seq<string>, bare: seq<string>)
    requires PayloadOk(p, indent, rest) && Outside(bare, indent + 2)
    ensures PayloadOk(BarePayload(p), indent, bare)
    decreases p
  {
    if p.SubMap? {
      OutsideWider(bare, indent + 2, p.indent + 2);
      BareEntriesOk(p.entries, p.indent, rest, bare);
    } else if p.SubList? {
      OutsideWider(bare, indent + 2, p.indent + 2);
      BareItemsOk(p.items, p.indent, rest, bare);
    }
  }

  lemma {:induction false} BareEntriesOk(es: seq<Entry>, indent: nat, rest: seq<string>, bare: seq<string>)
    requires EntriesOk(es, indent, rest) && Outside(bare, indent + 2)
    ensures EntriesOk(BareEntries(es), indent, bare)
    decreases es
  {
    if es != [] {
      var others := BareEntries(es[1..]);
      BareEntriesOk(es[1..], indent, rest, bare);
      EntriesOutside(others, indent, bare);
      BarePayloadOk(es[0].payload, indent, PrintEntries(es[1..], indent) + rest, PrintEntries(others, indent) + bare);
      assert BareEntries(es)[1..] == others;
    }
  }

  lemma {:induction false} BareItemOk(it: Item, indent: nat, rest: seq<string>, bare: seq<string>)
    requires ItemOk(it, indent, rest) && Outside(bare, indent + 2)
    ensures ItemOk(BareItem(it), indent, bare)
    decreases it
  {
    if it.MapItem? {
      var inner := indent + 2;
      var others := BareEntries(it.rest);
      OutsideWider(bare, indent + 2, inner + 2);
      BareEntriesOk(it.rest, inner, rest, bare);
      EntriesOutside(others, inner, bare);
      BarePayloadOk(it.first.payload, inner, PrintEntries(it.rest, inner) + rest, PrintEntries(others, inner) + bare);
    }
  }

  lemma {:induction false} BareItemsOk(items: seq<Item>, indent: nat, rest: seq<string>, bare: seq<string>)
    requires ItemsOk(items, indent, rest) && Outside(bare, indent + 2)
    ensures ItemsOk(BareItems(items), indent, bare)
    decreases items
  {
    if items != [] {
      var others := BareItems(items[1..]);
      BareItemsOk(items[1..], indent, rest, bare);
      ItemsOutside(others, indent, bare);
      BareItemOk(items[0], indent, PrintItems(items[1..], indent) + rest, PrintItems(others, indent) + bare);
      assert BareItems(items)[1..] == others;
    }
  }

  /** A patch parses to the same value with every blank line, comment line and trailing comment removed. */
  lemma NoiseIsIrrelevant(items: seq<Item>, ending: seq<string>)
    requires items != [] && ItemsOk(items, 0, ending) && AllNoise(ending)
    ensures TopLevelItems(PrintItems(BareItems(items), 0) + [], []) == TopLevelItems(PrintItems(items, 0) + ending, [])
  {
    BareItemsOk(items, 0, ending, []);
    ItemsSameMeaning(items);
    RoundTrip(items, ending);
    RoundTrip(BareItems(items), []);
  }

  // ----- comments and folded blocks -----

  /** A comment line right after a folded block is a comment exactly when it is indented less than the
      block; otherwise its text becomes part of the value. */
  lemma CommentAfterBlock(lines: seq<string>, indent: nat, comment: string, rest: seq<string>)
    requires BlockOk(lines, indent) && !IsBlank(comment) && Outside(rest, indent)
    ensures FoldedBlock(lines + ([comment] + rest), indent, []).value == Fold(lines) <==> LeadingSpaces(comment) < indent
  {
    if LeadingSpaces(comment) < indent {
      NoneBefore(lines);
      BlockRoundTrip(lines, indent, [], [], [comment] + rest);
    } else {
      NoneBefore(lines + [comment]);
      BlockRoundTrip(lines + [comment], indent, [], [], rest);
      FoldAppend(lines, comment);
      assert |Fold(lines + [comment])| > |Fold(lines)|;
      TailAssoc(lines, [comment], rest);
    }
  }
}
