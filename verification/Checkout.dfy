/** Gathering the lines of a form from its entries, which come in no particular order. */
module LineGathering {
  import opened Wrappers

  datatype Field = PriceId | Quantity | Currency | UnitAmount | Name | Unknown

  datatype Value = Words(text: string) | Number(n: int)

  // What one form key and its value say: the line, the field, and what the field is set to, if anything.
  datatype Entry = Entry(index: int, field: Field, effect: Option<Value>)

  type Entries = map<string, Entry>

  // A line while it is gathered. A field that was never set is absent and reads as its zero value.
  datatype RawLine = RawLine(values: map<Field, Value>, hasPriceData: bool)

  type Lines = map<int, RawLine>

  predicate IsPriceData(field: Field) {
    field.Currency? || field.UnitAmount? || field.Name?
  }

  const EMPTY_LINE := RawLine(map[], false)

  // Any entry makes its line exist, one for an unknown field too.
  function Gather(lines: Lines, entries: Entries, key: string): Lines {
    if key !in entries then lines
    else
      var e := entries[key];
      var line := if e.index in lines then lines[e.index] else EMPTY_LINE;
      lines[e.index := RawLine(if e.effect.Some? then line.values[e.field := e.effect.value] else line.values,
                               line.hasPriceData || IsPriceData(e.field))]
  }

  function GatherAll(entries: Entries, order: seq<string>): Lines {
    if order == [] then map[] else Gather(GatherAll(entries, order[..|order| - 1]), entries, order[|order| - 1])
  }

  // An order in which the keys of a map may be iterated.
  ghost predicate Enumerates(order: seq<string>, keys: set<string>) {
    && (forall i, j :: 0 <= i < j < |order| ==> order[i] != order[j])
    && (forall k :: k in order <==> k in keys)
  }

  // ----- When the order matters -----

  ghost predicate Sets(entries: Entries, key: string, index: int, field: Field, value: Value) {
    key in entries && entries[key] == Entry(index, field, Some(value))
  }

  // What the lines say about the keys seen so far, whatever their order.
  ghost predicate Gathered(lines: Lines, entries: Entries, keys: set<string>) {
    && (forall i :: i in lines ==> exists k :: k in keys && k in entries && entries[k].index == i)
    && KeysAreSeen(lines, entries, keys)
    && ValuesAreSet(lines, entries, keys)
    && (forall i :: i in lines && lines[i].hasPriceData ==>
                      exists k :: k in keys && k in entries && entries[k].index == i && IsPriceData(entries[k].field))
  }

  ghost predicate KeysAreSeen(lines: Lines, entries: Entries, keys: set<string>) {
    forall k :: k in keys && k in entries ==>
                  && entries[k].index in lines
                  && (entries[k].effect.Some? ==> entries[k].field in lines[entries[k].index].values)
                  && (IsPriceData(entries[k].field) ==> lines[entries[k].index].hasPriceData)
  }

  ghost predicate ValuesAreSet(lines: Lines, entries: Entries, keys: set<string>) {
    forall i, f :: i in lines && f in lines[i].values ==>
                     exists k :: k in keys && Sets(entries, k, i, f, lines[i].values[f])
  }

  lemma GatherKeepsGathered(lines: Lines, entries: Entries, keys: set<string>, key: string)
    requires Gathered(lines, entries, keys)
    ensures Gathered(Gather(lines, entries, key), entries, keys + {key})
  {
    if key in entries {
      var e := entries[key];
      var lines' := Gather(lines, entries, key);
      forall i, f | i in lines' && f in lines'[i].values
        ensures exists k :: k in keys + {key} && Sets(entries, k, i, f, lines'[i].values[f])
      {
        if i == e.index && f == e.field && e.effect.Some? {
          assert Sets(entries, key, i, f, lines'[i].values[f]);
        } else {
          assert i in lines && f in lines[i].values && lines'[i].values[f] == lines[i].values[f];
        }
      }
    }
  }

  lemma {:induction false} GatherAllIsGathered(entries: Entries, order: seq<string>, keys: set<string>)
    requires forall k :: k in order <==> k in keys
    ensures Gathered(GatherAll(entries, order), entries, keys)
  {
    if order != [] {
      var init, last := order[..|order| - 1], order[|order| - 1];
      var seen := set k | k in init;
      GatherAllIsGathered(entries, init, seen);
      GatherKeepsGathered(GatherAll(entries, init), entries, seen, last);
      assert order == init + [last];
      assert seen + {last} == keys;
    }
  }

  // Two entries for the same field of the same line set it to the same value, as far as they set it.
  ghost predicate Agreeing(entries: Entries) {
    forall k, l :: k in entries && l in entries ==> Agree(entries[k], entries[l])
  }

  predicate Agree(a: Entry, b: Entry) {
    a.index == b.index && a.field == b.field && a.effect.Some? && b.effect.Some? ==> a.effect == b.effect
  }

  lemma LinesAreUnique(entries: Entries, a: Lines, b: Lines, keys: set<string>)
    requires Agreeing(entries) && Gathered(a, entries, keys) && Gathered(b, entries, keys)
    ensures a == b
  {
    LinesAreContained(entries, a, b, keys);
    LinesAreContained(entries, b, a, keys);
    MutuallyContained(a, b);
  }

  // Every line of `a` is in `b`, with at least what it says.
  ghost predicate Contained(a: Lines, b: Lines) {
    forall i :: i in a ==> i in b && LineContained(a[i], b[i])
  }

  ghost predicate LineContained(a: RawLine, b: RawLine) {
    && (a.hasPriceData ==> b.hasPriceData)
    && forall f :: f in a.values ==> f in b.values && b.values[f] == a.values[f]
  }

  lemma MutuallyContained(a: Lines, b: Lines)
    requires Contained(a, b) && Contained(b, a)
    ensures a == b
  {
    forall i | i in a
      ensures i in b && a[i] == b[i]
    {
      LinesEqual(a[i], b[i]);
    }
    assert forall i :: i in a <==> i in b;
  }

  lemma LinesEqual(a: RawLine, b: RawLine)
    requires LineContained(a, b) && LineContained(b, a)
    ensures a == b
  {
    assert forall f :: f in a.values <==> f in b.values;
    assert a.values == b.values;
  }

  lemma LinesAreContained(entries: Entries, a: Lines, b: Lines, keys: set<string>)
    requires Agreeing(entries) && Gathered(a, entries, keys) && Gathered(b, entries, keys)
    ensures Contained(a, b)
  {
    forall i | i in a
      ensures i in b && LineContained(a[i], b[i])
    {
      LineIsContained(entries, a, b, keys, i);
    }
  }

  lemma LineIsContained(entries: Entries, a: Lines, b: Lines, keys: set<string>, i: int)
    requires Agreeing(entries) && Gathered(a, entries, keys) && Gathered(b, entries, keys) && i in a
    ensures i in b && LineContained(a[i], b[i])
  {
    var k :| k in keys && k in entries && entries[k].index == i;
    forall f | f in a[i].values
      ensures f in b[i].values && b[i].values[f] == a[i].values[f]
    {
      ValueIsContained(entries, a, b, keys, i, f);
    }
  }

  lemma ValueIsContained(entries: Entries, a: Lines, b: Lines, keys: set<string>, i: int, f: Field)
    requires Agreeing(entries) && ValuesAreSet(a, entries, keys)
    requires KeysAreSeen(b, entries, keys) && ValuesAreSet(b, entries, keys)
    requires i in a && f in a[i].values
    ensures i in b && f in b[i].values && b[i].values[f] == a[i].values[f]
  {
    var k :| k in keys && Sets(entries, k, i, f, a[i].values[f]);
    assert i in b && f in b[i].values;
    var l :| l in keys && Sets(entries, l, i, f, b[i].values[f]);
    assert Agree(entries[k], entries[l]);
  }

  lemma {:induction false} OrderExists(keys: set<string>) returns (order: seq<string>)
    ensures Enumerates(order, keys)
  {
    if keys == {} {
      order := [];
    } else {
      var k :| k in keys;
      var rest := OrderExists(keys - {k});
      ExtendEnumeration(rest, keys - {k}, k);
      assert keys - {k} + {k} == keys;
      order := rest + [k];
    }
  }

  lemma ExtendEnumeration(order: seq<string>, keys: set<string>, key: string)
    requires Enumerates(order, keys) && key !in keys
    ensures Enumerates(order + [key], keys + {key})
  {
    forall x
      ensures x in order + [key] <==> x in keys + {key}
    {
      assert x in order + [key] <==> x in order || x == key;
    }
  }

  lemma LastEntryWins(entries: Entries, order: seq<string>, key: string)
    requires key in entries && entries[key].effect.Some?
    ensures var lines := GatherAll(entries, order + [key]);
            var e := entries[key];
            e.index in lines && e.field in lines[e.index].values && lines[e.index].values[e.field] == e.effect.value
  {
    assert (order + [key])[..|order|] == order;
  }

  // `keys` are the keys of the form; those without an entry are passed over.
  ghost predicate OrderIndependent(entries: Entries, keys: set<string>) {
    forall a, b :: Enumerates(a, keys) && Enumerates(b, keys) ==> GatherAll(entries, a) == GatherAll(entries, b)
  }

  /** The gathered lines do not depend on the order in which the form is iterated if and only if no two of
      its keys set the same field of the same line to different values. */
  lemma OrderIndependentIff(entries: Entries, keys: set<string>)
    requires entries.Keys <= keys
    ensures OrderIndependent(entries, keys) <==> Agreeing(entries)
  {
    if Agreeing(entries) {
      forall a, b | Enumerates(a, keys) && Enumerates(b, keys)
        ensures GatherAll(entries, a) == GatherAll(entries, b)
      {
        GatherAllIsGathered(entries, a, keys);
        GatherAllIsGathered(entries, b, keys);
        LinesAreUnique(entries, GatherAll(entries, a), GatherAll(entries, b), keys);
      }
    }
    if OrderIndependent(entries, keys) {
      forall k, l | k in entries && l in entries
        ensures Agree(entries[k], entries[l])
      {
        IndependentKeysAgree(entries, keys, k, l);
      }
    }
  }

  lemma BothLast(keys: set<string>, k: string, l: string) returns (rest: seq<string>)
    requires k in keys && l in keys && k != l
    ensures Enumerates(rest + [k] + [l], keys) && Enumerates(rest + [l] + [k], keys)
  {
    var others := keys - {k} - {l};
    rest := OrderExists(others);
    ExtendEnumeration(rest, others, k);
    ExtendEnumeration(rest + [k], others + {k}, l);
    ExtendEnumeration(rest, others, l);
    ExtendEnumeration(rest + [l], others + {l}, k);
    assert others + {k} + {l} == keys && others + {l} + {k} == keys;
  }

  // Put last, either key wins; so both orders give the same lines only if the keys agree.
  lemma IndependentKeysAgree(entries: Entries, keys: set<string>, k: string, l: string)
    requires entries.Keys <= keys && OrderIndependent(entries, keys) && k in entries && l in entries
    ensures Agree(entries[k], entries[l])
  {
    if k != l && entries[k].effect.Some? && entries[l].effect.Some? {
      var rest := BothLast(keys, k, l);
      LastEntryWins(entries, rest + [k], l);
      LastEntryWins(entries, rest + [l], k);
      assert GatherAll(entries, rest + [k] + [l]) == GatherAll(entries, rest + [l] + [k]);
    }
  }
}

/** The line items of a checkout form, and the total of the session. */
module Checkout {
  import opened LineGathering
  import opened Text
  import opened Wrappers

  type Form = map<string, seq<string>>

  const PREFIX := "line_items["

  function FieldOf(remainder: string): Field {
    if remainder == "[price]" then PriceId
    else if remainder == "[quantity]" then Quantity
    else if remainder == "[price_data][currency]" then Currency
    else if remainder == "[price_data][unit_amount]" then UnitAmount
    else if remainder == "[price_data][product_data][name]" then Name
    else Unknown
  }

  function IndexOf(s: string, c: char): (at: Option<nat>)
    ensures at.Some? ==> at.value < |s| && s[at.value] == c && c !in s[..at.value]
    ensures at.None? ==> c !in s
  {
    if s == "" then None
    else if s[0] == c then Some(0)
    else
      var rest := IndexOf(s[1..], c);
      if rest.None? then None else Some(rest.value + 1)
  }

  // The index as written, and what follows its bracket, in a key of the shape line_items[<index>]<tail>.
  function Pieces(key: string): (p: Option<(string, string)>)
    ensures p.Some? ==> key == PREFIX + p.value.0 + "]" + p.value.1
  {
    if !(|key| > |PREFIX| && key[..|PREFIX|] == PREFIX && key[|key| - 1] == ']') then None
    else
      var rest := key[|PREFIX|..];
      var br := IndexOf(rest, ']');
      if br.None? then None
      else
        assert rest == rest[..br.value] + "]" + rest[br.value + 1..];
        assert key == PREFIX + rest;
        Some((rest[..br.value], rest[br.value + 1..]))
  }

  // What a form value sets its field to; a number that does not parse, or a quantity below one, sets nothing.
  function Effect(field: Field, text: string): Option<Value> {
    match field
    case PriceId => Some(Words(text))
    case Name => Some(Words(text))
    case Currency => Some(Words(ToLower(text)))
    case Quantity =>
      var p := ParseInt(text);
      if p.Value? && p.value > 0 then Some(Number(p.value)) else None
    case UnitAmount =>
      var p := ParseInt(text);
      if p.Value? then Some(Number(p.value)) else None
    case Unknown => None
  }

  // A key without a readable index, or without a value, is skipped. The index may be written with a sign
  // or leading zeros.
  function EntryOf(key: string, values: seq<string>): Option<Entry> {
    var p := Pieces(key);
    if p.None? || values == [] then None
    else
      match ParseInt(p.value.0)
      case Value(index) =>
        var field := FieldOf(p.value.1);
        Some(Entry(index, field, Effect(field, values[0])))
      case _ => None
  }

  function EntriesOf(form: Form): Entries {
    map k | k in form && EntryOf(k, form[k]).Some? :: EntryOf(k, form[k]).value
  }

  // ----- Canonical keys -----

  // The index is written as the official SDK writes it: not negative, without sign or leading zeros.
  predicate Canonical(key: string) {
    Pieces(key).Some? && ParseInt(Pieces(key).value.0).Value? ==>
      ParseInt(Pieces(key).value.0).value >= 0
      && Pieces(key).value.0 == FormatNat(ParseInt(Pieces(key).value.0).value)
  }

  lemma KnownFieldsHaveOneTail(tail: string, tail': string)
    requires FieldOf(tail) == FieldOf(tail') && !FieldOf(tail).Unknown?
    ensures tail == tail'
  {
  }

  lemma EntryParts(key: string, values: seq<string>)
    requires EntryOf(key, values).Some?
    ensures var p, e := Pieces(key), EntryOf(key, values).value;
            && p.Some?
            && ParseInt(p.value.0) == Value(e.index)
            && e.field == FieldOf(p.value.1)
            && (e.effect.Some? ==> !e.field.Unknown?)
  {
  }

  lemma KeyOfPieces(key: string, index: nat)
    requires Canonical(key) && Pieces(key).Some? && ParseInt(Pieces(key).value.0) == Value(index)
    ensures key == PREFIX + FormatNat(index) + "]" + Pieces(key).value.1
  {
  }

  // With canonical indexes, one field of one line has one key.
  lemma CanonicalEntriesAgree(key: string, key': string, values: seq<string>, values': seq<string>)
    requires Canonical(key) && Canonical(key') && EntryOf(key, values).Some? && EntryOf(key', values').Some?
    requires key == key' ==> values == values'
    ensures Agree(EntryOf(key, values).value, EntryOf(key', values').value)
  {
    if key != key' {
      var a, b := EntryOf(key, values).value, EntryOf(key', values').value;
      EntryParts(key, values);
      EntryParts(key', values');
      if a.index == b.index && a.field == b.field && a.effect.Some? {
        KeyOfPieces(key, a.index);
        KeyOfPieces(key', b.index);
        KnownFieldsHaveOneTail(Pieces(key).value.1, Pieces(key').value.1);
        assert false;
      }
    }
  }

  /** Keys whose indexes are written without sign or leading zeros never clash, so the lines of a form
      that has only such keys do not depend on the iteration order. */
  lemma CanonicalFormsAreOrderIndependent(form: Form)
    requires forall k :: k in form ==> Canonical(k)
    ensures Agreeing(EntriesOf(form)) && OrderIndependent(EntriesOf(form), form.Keys)
  {
    var entries := EntriesOf(form);
    forall k, l | k in entries && l in entries
      ensures Agree(entries[k], entries[l])
    {
      assert k in form && l in form;
      CanonicalEntriesAgree(k, l, form[k], form[l]);
    }
    OrderIndependentIff(entries, form.Keys);
  }

  // The key line_items[<index>][price].
  function PriceKey(index: string): string {
    PREFIX + (index + "]" + "[price]")
  }

  // A form that writes the index of one line in two ways.
  const CLASHING: Form := map[PriceKey("0") := ["a"], PriceKey("00") := ["b"]]

  lemma DropPrefix(prefix: string, rest: string)
    ensures (prefix + rest)[..|prefix|] == prefix && (prefix + rest)[|prefix|..] == rest
  {
  }

  lemma PiecesOf(index: string, tail: string)
    requires ']' !in index && (tail == "" || tail[|tail| - 1] == ']')
    ensures Pieces(PREFIX + (index + "]" + tail)) == Some((index, tail))
  {
    var rest := index + "]" + tail;
    DropPrefix(PREFIX, rest);
    IndexOfFirst(index, tail);
    DropPrefix(index + "]", tail);
    DropPrefix(index, "]" + tail);
    assert rest == index + ("]" + tail);
  }

  lemma {:induction false} IndexOfFirst(head: string, tail: string)
    requires ']' !in head
    ensures IndexOf(head + "]" + tail, ']') == Some(|head|)
  {
    var s := head + "]" + tail;
    if head != "" {
      assert s[1..] == head[1..] + "]" + tail;
      IndexOfFirst(head[1..], tail);
    }
  }

  lemma ZeroIsZero()
    ensures ParseInt("0") == Value(0) && ParseInt("00") == Value(0)
  {
    assert NatOf("0") == 0;
    assert "00"[..1] == "0";
  }

  lemma PriceEntry(index: string, text: string)
    requires ']' !in index && ParseInt(index) == Value(0)
    ensures EntryOf(PriceKey(index), [text]) == Some(Entry(0, PriceId, Some(Words(text))))
  {
    assert PriceKey(index) == PREFIX + (index + "]" + "[price]");
    PiecesOf(index, "[price]");
  }

  lemma ClashBreaks(form: Form, k: string, l: string, a: Entry, b: Entry)
    requires k in form && l in form && EntryOf(k, form[k]) == Some(a) && EntryOf(l, form[l]) == Some(b) && !Agree(a, b)
    ensures !OrderIndependent(EntriesOf(form), form.Keys)
  {
    var entries := EntriesOf(form);
    assert entries[k] == a && entries[l] == b;
    OrderIndependentIff(entries, form.Keys);
  }

  /** Such a form does depend on the order in which it is iterated. */
  lemma ClashingFormIsOrderDependent()
    ensures !OrderIndependent(EntriesOf(CLASHING), CLASHING.Keys)
  {
    ZeroIsZero();
    PriceEntry("0", "a");
    PriceEntry("00", "b");
    assert |PriceKey("0")| != |PriceKey("00")|;
    WordsDisagree("a", "b");
    ClashBreaks(CLASHING, PriceKey("0"), PriceKey("00"), Entry(0, PriceId, Some(Words("a"))), Entry(0, PriceId, Some(Words("b"))));
  }

  lemma WordsDisagree(a: string, b: string)
    requires a != b
    ensures !Agree(Entry(0, PriceId, Some(Words(a))), Entry(0, PriceId, Some(Words(b))))
  {
  }

  // ----- Resolving the lines -----

  datatype Price = Price(unitAmount: int, currency: string, productName: string)

  datatype Item = Item(unitAmount: int, currency: string, name: string, quantity: int)

  datatype Resolved = Items(items: seq<Item>) | BadLine(index: int)

  function TextOf(line: RawLine, field: Field): string {
    if field in line.values && line.values[field].Words? then line.values[field].text else ""
  }

  function NumberOf(line: RawLine, field: Field): int {
    if field in line.values && line.values[field].Number? then line.values[field].n else 0
  }

  // A referenced price wins over inline data; a line with neither is an error.
  function ItemOf(line: RawLine, prices: map<string, Price>): Option<Item> {
    var quantity := if NumberOf(line, Quantity) == 0 then 1 else NumberOf(line, Quantity);
    var priceId := TextOf(line, PriceId);
    if priceId != "" then
      if priceId in prices then
        Some(Item(prices[priceId].unitAmount, prices[priceId].currency, prices[priceId].productName, quantity))
      else None
    else if line.hasPriceData && UnitAmount in line.values then
      Some(Item(NumberOf(line, UnitAmount), TextOf(line, Currency), TextOf(line, Name), quantity))
    else None
  }

  function ResolveFrom(lines: Lines, prices: map<string, Price>, i: int, max: int): Resolved
    decreases max - i
  {
    if i > max then Items([])
    else if i !in lines then ResolveFrom(lines, prices, i + 1, max)
    else
      var item := ItemOf(lines[i], prices);
      if item.None? then BadLine(i)
      else
        match ResolveFrom(lines, prices, i + 1, max)
        case BadLine(j) => BadLine(j)
        case Items(rest) => Items([item.value] + rest)
  }

  // The indexes of the lines between two bounds, in order.
  function IndexesFrom(lines: Lines, i: int, max: int): seq<int>
    decreases max - i
  {
    if i > max then [] else (if i in lines then [i] else []) + IndexesFrom(lines, i + 1, max)
  }

  lemma {:induction false} IndexesAreSorted(lines: Lines, i: int, max: int)
    ensures var at := IndexesFrom(lines, i, max);
            && (forall j, k :: 0 <= j < k < |at| ==> at[j] < at[k])
            && (forall x :: x in at <==> i <= x <= max && x in lines)
    decreases max - i
  {
    if i <= max {
      IndexesAreSorted(lines, i + 1, max);
      if i in lines {
        SmallestFirst(i, IndexesFrom(lines, i + 1, max));
      }
    }
  }

  lemma SmallestFirst(i: int, rest: seq<int>)
    requires forall j, k :: 0 <= j < k < |rest| ==> rest[j] < rest[k]
    requires forall x :: x in rest ==> i < x
    ensures var at := [i] + rest;
            && (forall j, k :: 0 <= j < k < |at| ==> at[j] < at[k])
            && (forall x :: x in at <==> x == i || x in rest)
  {
    var at := [i] + rest;
    forall j, k | 0 <= j < k < |at|
      ensures at[j] < at[k]
    {
      assert rest[k - 1] in rest;
    }
  }

  // The items are those of the lines at these indexes, in the same order.
  ghost predicate AreItemsAt(lines: Lines, prices: map<string, Price>, at: seq<int>, items: seq<Item>) {
    && |items| == |at|
    && forall j :: 0 <= j < |at| ==> at[j] in lines && ItemOf(lines[at[j]], prices) == Some(items[j])
  }

  // The first line from here on that cannot be resolved.
  ghost predicate IsFirstBad(lines: Lines, prices: map<string, Price>, i: int, max: int, bad: int) {
    && i <= bad <= max && bad in lines && ItemOf(lines[bad], prices).None?
    && forall x :: i <= x < bad && x in lines ==> ItemOf(lines[x], prices).Some?
  }

  lemma PrependItem(lines: Lines, prices: map<string, Price>, i: int, item: Item, at: seq<int>, items: seq<Item>)
    requires AreItemsAt(lines, prices, at, items) && i in lines && ItemOf(lines[i], prices) == Some(item)
    ensures AreItemsAt(lines, prices, [i] + at, [item] + items)
  {
  }

  lemma {:induction false} ItemsAreResolved(lines: Lines, prices: map<string, Price>, i: int, max: int)
    requires ResolveFrom(lines, prices, i, max).Items?
    ensures AreItemsAt(lines, prices, IndexesFrom(lines, i, max), ResolveFrom(lines, prices, i, max).items)
    decreases max - i
  {
    if i <= max {
      ItemsAreResolved(lines, prices, i + 1, max);
      var at, items := IndexesFrom(lines, i + 1, max), ResolveFrom(lines, prices, i + 1, max).items;
      if i in lines {
        PrependItem(lines, prices, i, ItemOf(lines[i], prices).value, at, items);
      } else {
        assert [] + at == at;
      }
    }
  }

  lemma {:induction false} BadLineIsFirst(lines: Lines, prices: map<string, Price>, i: int, max: int)
    requires ResolveFrom(lines, prices, i, max).BadLine?
    ensures IsFirstBad(lines, prices, i, max, ResolveFrom(lines, prices, i, max).index)
    decreases max - i
  {
    if !(i in lines && ItemOf(lines[i], prices).None?) {
      BadLineIsFirst(lines, prices, i + 1, max);
    }
  }

  /** On success there is one item for each line with an index in range, sorted by index; on failure the
      first line that cannot be resolved is named. */
  lemma ResolvedInOrder(lines: Lines, prices: map<string, Price>, i: int, max: int)
    ensures var at := IndexesFrom(lines, i, max);
            && (forall j, k :: 0 <= j < k < |at| ==> at[j] < at[k])
            && (forall x :: x in at <==> i <= x <= max && x in lines)
    ensures var answer := ResolveFrom(lines, prices, i, max);
            && (answer.Items? ==> AreItemsAt(lines, prices, IndexesFrom(lines, i, max), answer.items))
            && (answer.BadLine? ==> IsFirstBad(lines, prices, i, max, answer.index))
  {
    IndexesAreSorted(lines, i, max);
    if ResolveFrom(lines, prices, i, max).Items? {
      ItemsAreResolved(lines, prices, i, max);
    } else {
      BadLineIsFirst(lines, prices, i, max);
    }
  }

  // ----- From the form to its items -----

  // The key of one field of a line, as the official SDK writes it.
  function KeyOf(i: nat, tail: string): string {
    "line_items[" + (FormatNat(i) + "]" + tail)
  }

  // What the form says for one field of a line.
  function Said(form: Form, i: nat, tail: string): Option<string> {
    if KeyOf(i, tail) in form && form[KeyOf(i, tail)] != [] then Some(form[KeyOf(i, tail)][0]) else None
  }

  function OrEmpty(said: Option<string>): string {
    if said.Some? then said.value else ""
  }

  function TextSaid(form: Form, i: nat, tail: string): string {
    OrEmpty(Said(form, i, tail))
  }

  // The quantity is one unless a positive one is given.
  function QuantitySaid(form: Form, i: nat): int {
    var text := TextSaid(form, i, "[quantity]");
    if ParseInt(text).Value? && ParseInt(text).value > 0 then ParseInt(text).value else 1
  }

  /** The item a form asks for on one line: that of the price it names, or else its own amount, currency and name. */
  function ItemSaid(form: Form, prices: map<string, Price>, i: nat): Option<Item> {
    var price, amount := TextSaid(form, i, "[price]"), ParseInt(TextSaid(form, i, "[price_data][unit_amount]"));
    if price != "" then
      if price in prices then
        Some(Item(prices[price].unitAmount, prices[price].currency, prices[price].productName, QuantitySaid(form, i)))
      else None
    else if amount.Value? then
      Some(Item(amount.value, ToLower(TextSaid(form, i, "[price_data][currency]")),
                TextSaid(form, i, "[price_data][product_data][name]"), QuantitySaid(form, i)))
    else None
  }

  lemma DigitsHaveNoBracket(i: nat)
    ensures ']' !in FormatNat(i)
  {
    assert forall j :: 0 <= j < |FormatNat(i)| ==> IsDigit(FormatNat(i)[j]);
  }

  lemma WrittenIsCanonical(key: string, i: nat, tail: string)
    requires key == KeyOf(i, tail)
    ensures Canonical(key)
  {
    if Pieces(key).Some? {
      DigitsHaveNoBracket(i);
      assert tail != "" ==> key[|key| - 1] == tail[|tail| - 1];
      PiecesOf(FormatNat(i), tail);
      NatRoundTrip(i);
    }
  }

  lemma CanonicalIsWritten(key: string) returns (i: nat, tail: string)
    requires Canonical(key) && Pieces(key).Some? && ParseInt(Pieces(key).value.0).Value?
    ensures key == KeyOf(i, tail)
  {
    i, tail := ParseInt(Pieces(key).value.0).value, Pieces(key).value.1;
    assert key == PREFIX + (FormatNat(i) + "]" + tail);
  }

  /** Among the keys with a readable index, exactly those that the official SDK writes are canonical. */
  lemma CanonicalIffWritten(key: string)
    requires Pieces(key).Some? && ParseInt(Pieces(key).value.0).Value?
    ensures Canonical(key) <==> exists i: nat, tail :: key == KeyOf(i, tail)
  {
    if Canonical(key) {
      var i, tail := CanonicalIsWritten(key);
    }
    forall i: nat, tail | key == KeyOf(i, tail)
      ensures Canonical(key)
    {
      WrittenIsCanonical(key, i, tail);
    }
  }

  ghost predicate IsCanonicalForm(form: Form) {
    forall k :: k in form ==> Canonical(k)
  }

  lemma SaidIsEntry(form: Form, i: nat, tail: string)
    requires IsInt64(i) && tail != "" && tail[|tail| - 1] == ']' && Said(form, i, tail).Some?
    ensures var key := KeyOf(i, tail);
            key in EntriesOf(form)
            && EntriesOf(form)[key] == Entry(i, FieldOf(tail), Effect(FieldOf(tail), Said(form, i, tail).value))
  {
    DigitsHaveNoBracket(i);
    PiecesOf(FormatNat(i), tail);
    NaturalRoundTrip(i);
  }

  lemma KeyIsConcatenated(i: nat, tail: string)
    ensures KeyOf(i, tail) == PREFIX + FormatNat(i) + "]" + tail
  {
  }

  // In a canonical form the only key that sets a field of a line is the one for it.
  lemma SetterIsKey(form: Form, key: string, i: nat, tail: string, v: Value)
    requires IsCanonicalForm(form) && IsInt64(i) && !FieldOf(tail).Unknown?
    requires Sets(EntriesOf(form), key, i, FieldOf(tail), v)
    ensures key == KeyOf(i, tail) && key in form && EntryOf(key, form[key]) == Some(Entry(i, FieldOf(tail), Some(v)))
  {
    assert Canonical(key);
    EntryParts(key, form[key]);
    KeyOfPieces(key, i);
    KnownFieldsHaveOneTail(Pieces(key).value.1, tail);
    KeyIsConcatenated(i, tail);
  }

  lemma EntrySaid(form: Form, i: nat, tail: string, v: Value)
    requires KeyOf(i, tail) in form
    requires EntryOf(KeyOf(i, tail), form[KeyOf(i, tail)]) == Some(Entry(i, FieldOf(tail), Some(v)))
    ensures Said(form, i, tail).Some? && Effect(FieldOf(tail), Said(form, i, tail).value) == Some(v)
  {
    EntryParts(KeyOf(i, tail), form[KeyOf(i, tail)]);
  }

  ghost predicate ReadsForm(form: Form, lines: Lines, i: nat) {
    IsCanonicalForm(form) && Gathered(lines, EntriesOf(form), form.Keys) && IsInt64(i) && i in lines
  }

  predicate NamesField(tail: string, f: Field) {
    tail != "" && tail[|tail| - 1] == ']' && FieldOf(tail) == f && !f.Unknown?
  }

  lemma FieldNames()
    ensures NamesField("[price]", PriceId) && NamesField("[quantity]", Quantity)
    ensures NamesField("[price_data][currency]", Currency) && NamesField("[price_data][unit_amount]", UnitAmount)
    ensures NamesField("[price_data][product_data][name]", Name)
  {
  }

  lemma FieldSaid(form: Form, lines: Lines, i: nat, tail: string, f: Field)
    requires ReadsForm(form, lines, i) && NamesField(tail, f)
    ensures ReadsOff(lines[i], f, Said(form, i, tail))
  {
    var entries := EntriesOf(form);
    if f in lines[i].values {
      var key :| key in form.Keys && Sets(entries, key, i, f, lines[i].values[f]);
      SetterIsKey(form, key, i, tail, lines[i].values[f]);
      EntrySaid(form, i, tail, lines[i].values[f]);
    } else if Said(form, i, tail).Some? {
      SaidIsEntry(form, i, tail);
      assert KeyOf(i, tail) in form.Keys;
    }
  }

  // The line reads this field off that text, if there is one.
  predicate ReadsOff(line: RawLine, f: Field, said: Option<string>) {
    && (f in line.values <==> said.Some? && Effect(f, said.value).Some?)
    && (f in line.values ==> Some(line.values[f]) == Effect(f, said.value))
  }

  lemma TextRead(line: RawLine, f: Field, said: Option<string>)
    requires ReadsOff(line, f, said) && (f.PriceId? || f.Name? || f.Currency?)
    ensures TextOf(line, f) == if f.Currency? then ToLower(OrEmpty(said)) else OrEmpty(said)
  {
  }

  lemma NumberRead(line: RawLine, f: Field, said: Option<string>)
    requires ReadsOff(line, f, said) && (f.Quantity? || f.UnitAmount?)
    ensures var n := ParseInt(OrEmpty(said));
            && (f in line.values <==> n.Value? && (f.Quantity? ==> n.value > 0))
            && NumberOf(line, f) == if f in line.values then n.value else 0
  {
  }

  // An amount that is set makes the line one with inline data.
  lemma AmountIsPriceData(form: Form, lines: Lines, i: nat)
    requires Gathered(lines, EntriesOf(form), form.Keys) && i in lines && UnitAmount in lines[i].values
    ensures lines[i].hasPriceData
  {
    var key :| key in form.Keys && Sets(EntriesOf(form), key, i, UnitAmount, lines[i].values[UnitAmount]);
  }

  lemma LineIsSaid(form: Form, prices: map<string, Price>, lines: Lines, i: nat)
    requires ReadsForm(form, lines, i)
    ensures ItemOf(lines[i], prices) == ItemSaid(form, prices, i)
  {
    FieldNames();
    FieldSaid(form, lines, i, "[price]", PriceId);
    FieldSaid(form, lines, i, "[price_data][currency]", Currency);
    FieldSaid(form, lines, i, "[price_data][product_data][name]", Name);
    FieldSaid(form, lines, i, "[quantity]", Quantity);
    FieldSaid(form, lines, i, "[price_data][unit_amount]", UnitAmount);
    if UnitAmount in lines[i].values {
      AmountIsPriceData(form, lines, i);
    }
    ItemIsRead(lines[i], form, prices, i);
  }

  lemma ItemIsRead(line: RawLine, form: Form, prices: map<string, Price>, i: nat)
    requires ReadsOff(line, PriceId, Said(form, i, "[price]")) && ReadsOff(line, Quantity, Said(form, i, "[quantity]"))
    requires ReadsOff(line, Currency, Said(form, i, "[price_data][currency]"))
    requires ReadsOff(line, Name, Said(form, i, "[price_data][product_data][name]"))
    requires ReadsOff(line, UnitAmount, Said(form, i, "[price_data][unit_amount]"))
    requires UnitAmount in line.values ==> line.hasPriceData
    ensures ItemOf(line, prices) == ItemSaid(form, prices, i)
  {
    TextRead(line, PriceId, Said(form, i, "[price]"));
    TextRead(line, Currency, Said(form, i, "[price_data][currency]"));
    TextRead(line, Name, Said(form, i, "[price_data][product_data][name]"));
    NumberRead(line, Quantity, Said(form, i, "[quantity]"));
    NumberRead(line, UnitAmount, Said(form, i, "[price_data][unit_amount]"));
  }

  // Some key of the form is about this line.
  ghost predicate IsMentioned(form: Form, i: int) {
    exists k :: k in form && EntryOf(k, form[k]).Some? && EntryOf(k, form[k]).value.index == i
  }

  lemma LinesAreMentioned(form: Form, lines: Lines, i: int)
    requires Gathered(lines, EntriesOf(form), form.Keys)
    ensures i in lines <==> IsMentioned(form, i)
  {
    if i in lines {
      var k :| k in form.Keys && k in EntriesOf(form) && EntriesOf(form)[k].index == i;
    }
    if IsMentioned(form, i) {
      var k :| k in form && EntryOf(k, form[k]).Some? && EntryOf(k, form[k]).value.index == i;
      assert k in EntriesOf(form) && k in form.Keys;
    }
  }

  /** Any key of a line, whatever field it names, mentions the line. */
  lemma SaidIsMentioned(form: Form, i: nat, tail: string)
    requires IsInt64(i) && tail != "" && tail[|tail| - 1] == ']' && Said(form, i, tail).Some?
    ensures IsMentioned(form, i)
  {
    SaidIsEntry(form, i, tail);
    assert KeyOf(i, tail) in EntriesOf(form) && KeyOf(i, tail) in form;
  }

  // The indexes of the lines the form mentions, in order.
  ghost predicate AreMentioned(form: Form, at: seq<int>, max: int) {
    && (forall j, k :: 0 <= j < k < |at| ==> at[j] < at[k])
    && (forall x :: x in at <==> 0 <= x <= max && IsMentioned(form, x))
  }

  ghost predicate AreItemsSaid(form: Form, prices: map<string, Price>, at: seq<int>, items: seq<Item>) {
    |items| == |at| && forall j :: 0 <= j < |at| ==> at[j] >= 0 && ItemSaid(form, prices, at[j]) == Some(items[j])
  }

  // The first line that says neither a known price nor an amount.
  ghost predicate IsFirstBadSaid(form: Form, prices: map<string, Price>, bad: int) {
    && bad >= 0 && IsMentioned(form, bad) && ItemSaid(form, prices, bad).None?
    && forall x: int :: 0 <= x < bad && IsMentioned(form, x) ==> ItemSaid(form, prices, x).Some?
  }

  lemma MentionedInOrder(form: Form, prices: map<string, Price>, lines: Lines, max: int)
    requires SayForm(form, prices, lines, max)
    ensures AreMentioned(form, IndexesFrom(lines, 0, max), max)
  {
    IndexesAreSorted(lines, 0, max);
  }

  lemma ItemsAreSaid(form: Form, prices: map<string, Price>, lines: Lines, max: int)
    requires SayForm(form, prices, lines, max) && ResolveFrom(lines, prices, 0, max).Items?
    ensures AreItemsSaid(form, prices, IndexesFrom(lines, 0, max), ResolveFrom(lines, prices, 0, max).items)
  {
    var at, items := IndexesFrom(lines, 0, max), ResolveFrom(lines, prices, 0, max).items;
    IndexesAreSorted(lines, 0, max);
    ItemsAreResolved(lines, prices, 0, max);
    forall j | 0 <= j < |at|
      ensures at[j] >= 0 && ItemSaid(form, prices, at[j]) == Some(items[j])
    {
      assert at[j] in at;
    }
  }

  lemma BadLineIsSaid(form: Form, prices: map<string, Price>, lines: Lines, max: int)
    requires SayForm(form, prices, lines, max) && ResolveFrom(lines, prices, 0, max).BadLine?
    ensures IsFirstBadSaid(form, prices, ResolveFrom(lines, prices, 0, max).index)
  {
    BadLineIsFirst(lines, prices, 0, max);
  }

  /** The answer to a form whose indexes are canonical, in whatever order it is iterated: one item for each line
      it mentions, in the order of the lines, each as the form says; or the first line that says neither a
      known price nor an amount. */
  lemma AnswerIsSaid(form: Form, prices: map<string, Price>, order: seq<string>, max: int)
    requires IsCanonicalForm(form) && Enumerates(order, form.Keys) && IsInt64(max)
    ensures var lines := GatherAll(EntriesOf(form), order);
            var answer := ResolveFrom(lines, prices, 0, max);
            && AreMentioned(form, IndexesFrom(lines, 0, max), max)
            && (answer.Items? ==> AreItemsSaid(form, prices, IndexesFrom(lines, 0, max), answer.items))
            && (answer.BadLine? ==> IsFirstBadSaid(form, prices, answer.index))
  {
    var lines := GatherAll(EntriesOf(form), order);
    LinesAreSaid(form, prices, order, max);
    MentionedInOrder(form, prices, lines, max);
    if ResolveFrom(lines, prices, 0, max).Items? {
      ItemsAreSaid(form, prices, lines, max);
    } else {
      BadLineIsSaid(form, prices, lines, max);
    }
  }

  // The lines up to a bound are those the form mentions, each with the item it says.
  ghost predicate SayForm(form: Form, prices: map<string, Price>, lines: Lines, max: int) {
    forall x: int :: 0 <= x <= max ==>
                       && (x in lines <==> IsMentioned(form, x))
                       && (x in lines ==> ItemOf(lines[x], prices) == ItemSaid(form, prices, x))
  }

  lemma LinesAreSaid(form: Form, prices: map<string, Price>, order: seq<string>, max: int)
    requires IsCanonicalForm(form) && Enumerates(order, form.Keys) && IsInt64(max)
    ensures SayForm(form, prices, GatherAll(EntriesOf(form), order), max)
  {
    var lines := GatherAll(EntriesOf(form), order);
    GatherAllIsGathered(EntriesOf(form), order, form.Keys);
    forall x: int | 0 <= x <= max
      ensures x in lines <==> IsMentioned(form, x)
      ensures x in lines ==> ItemOf(lines[x], prices) == ItemSaid(form, prices, x)
    {
      LinesAreMentioned(form, lines, x);
      if x in lines {
        LineIsSaid(form, prices, lines, x);
      }
    }
  }

  ghost predicate IsMax(lines: Lines, max: int) {
    max >= 0 && (forall i :: i in lines ==> i <= max) && (max == 0 || max in lines)
  }

  /** The whole parsing: the form is iterated in some order, then the lines are resolved by index from 0.
      If no two keys clash, the answer is the same for every order of iteration. */
  method ResolveLineItems(form: Form, prices: map<string, Price>) returns (answer: Resolved)
    ensures exists order, max :: Enumerates(order, form.Keys) && IsMax(GatherAll(EntriesOf(form), order), max)
                                 && answer == ResolveFrom(GatherAll(EntriesOf(form), order), prices, 0, max)
    ensures Agreeing(EntriesOf(form)) ==>
              forall order, max :: Enumerates(order, form.Keys) && IsMax(GatherAll(EntriesOf(form), order), max) ==>
                                     answer == ResolveFrom(GatherAll(EntriesOf(form), order), prices, 0, max)
  {
    var entries := EntriesOf(form);
    var lines: Lines := map[];
    var rest := form.Keys;
    ghost var order: seq<string> := [];
    while rest != {}
      invariant rest <= form.Keys && Enumerates(order, form.Keys - rest)
      invariant lines == GatherAll(EntriesOf(form), order)
      decreases rest
    {
      var key :| key in rest;
      lines := Gather(lines, entries, key);
      assert (order + [key])[..|order|] == order;
      ExtendEnumeration(order, form.Keys - rest, key);
      order := order + [key];
      rest := rest - {key};
      assert form.Keys - rest == form.Keys - (rest + {key}) + {key};
    }
    assert form.Keys - rest == form.Keys;
    var max := MaxIndex(lines);
    answer := ResolveLines(lines, prices, max);
    if Agreeing(EntriesOf(form)) {
      OrderIndependentIff(EntriesOf(form), form.Keys);
      forall other, max' | Enumerates(other, form.Keys) && IsMax(GatherAll(EntriesOf(form), other), max')
        ensures answer == ResolveFrom(GatherAll(EntriesOf(form), other), prices, 0, max')
      {
        assert GatherAll(EntriesOf(form), other) == lines;
        assert max' == max;
      }
    }
  }

  // The lines are resolved by index, up to the largest.
  method ResolveLines(lines: Lines, prices: map<string, Price>, max: int) returns (answer: Resolved)
    requires max >= 0
    ensures answer == ResolveFrom(lines, prices, 0, max)
  {
    answer := Items([]);
    var i := 0;
    while i <= max
      invariant 0 <= i <= max + 1
      invariant answer.Items?
      invariant ResolveFrom(lines, prices, 0, max)
                == match ResolveFrom(lines, prices, i, max)
                   case BadLine(j) => BadLine(j)
                   case Items(tail) => Items(answer.items + tail)
    {
      if i in lines {
        var item := ItemOf(lines[i], prices);
        if item.None? {
          return BadLine(i);
        }
        ghost var before := answer.items;
        answer := Items(answer.items + [item.value]);
        assert forall tail: seq<Item> :: before + ([item.value] + tail) == before + [item.value] + tail;
      }
      i := i + 1;
    }
  }

  method MaxIndex(lines: Lines) returns (max: int)
    ensures IsMax(lines, max)
  {
    max := 0;
    var rest := lines.Items;
    while rest != {}
      invariant rest <= lines.Items && max >= 0 && (max == 0 || max in lines)
      invariant forall line :: line in lines.Items && line !in rest ==> line.0 <= max
      decreases rest
    {
      var line :| line in rest;
      if line.0 > max {
        max := line.0;
      }
      rest := rest - {line};
    }
    forall i | i in lines
      ensures i <= max
    {
      assert (i, lines[i]) in lines.Items;
    }
  }

  // ----- The session total -----

  function Sum(items: seq<Item>): int {
    if items == [] then 0 else Sum(items[..|items| - 1]) + items[|items| - 1].unitAmount * items[|items| - 1].quantity
  }

  lemma WrapOfSum(a: int, b: int)
    ensures Wrap64(Wrap64(a) + Wrap64(b)) == Wrap64(a + b)
  {
    var k, l := (Wrap64(a) - a) / TWO_64, (Wrap64(b) - b) / TWO_64;
    assert Wrap64(a) == a + k * TWO_64 && Wrap64(b) == b + l * TWO_64;
    WrapShifts(a + b, k + l);
  }

  lemma WrapShifts(x: int, k: int)
    ensures Wrap64(x + k * TWO_64) == Wrap64(x)
  {
    assert (x + k * TWO_64 - MIN_INT64) % TWO_64 == (x - MIN_INT64) % TWO_64;
  }

  /** The total is the sum of unit amount times quantity, in 64-bit arithmetic: exact as long as the true sum
      fits, even if a product or a partial sum on the way does not. */
  method AmountTotal(items: seq<Item>) returns (total: int)
    ensures total == Wrap64(Sum(items))
    ensures IsInt64(Sum(items)) ==> total == Sum(items)
  {
    total := 0;
    for i := 0 to |items|
      invariant total == Wrap64(Sum(items[..i]))
    {
      assert items[..i + 1][..i] == items[..i];
      WrapOfSum(Sum(items[..i]), items[i].unitAmount * items[i].quantity);
      total := Wrap64(total + Wrap64(items[i].unitAmount * items[i].quantity));
    }
    assert items[..|items|] == items;
  }
}
