/**
 Named binary tag values (wire/java/nbt.go). A `Tree` is a payload as a value; `Payload`
 encodes it, `Parse` is what the validator makes of any bytes, and `Fits` is what the
 limits ask of a tree. The theorem is that the validator accepts exactly the encodings
 of fitting trees, and knows where they end.
 */
module NbtTree {
  import opened Wrappers
  import opened Bytes
  import ModifiedUtf8

  const TAG_END := 0
  const TAG_BYTE := 1
  const TAG_SHORT := 2
  const TAG_INT := 3
  const TAG_LONG := 4
  const TAG_FLOAT := 5
  const TAG_DOUBLE := 6
  const TAG_BYTE_ARRAY := 7
  const TAG_STRING := 8
  const TAG_LIST := 9
  const TAG_COMPOUND := 10
  const TAG_INT_ARRAY := 11

  datatype Limits = Limits(nbtBytes: nat, stringBytes: nat, collectionItems: nat, recursionDepth: nat)

  datatype Tree =
    | Scalar(tag: Byte, data: Data)
    | Array(itemBytes: nat, items: Data)
    | Text(text: Data)
    | List(itemTag: Byte, elements: seq<Tree>)
    | Compound(entries: seq<Entry>)

  datatype Entry = Entry(name: Data, value: Tree)

  /** How long a value of fixed width is; none for the other tags. */
  function Width(tag: Byte): Option<nat> {
    if tag == TAG_BYTE then Some(1)
    else if tag == TAG_SHORT then Some(2)
    else if tag == TAG_INT || tag == TAG_FLOAT then Some(4)
    else if tag == TAG_LONG || tag == TAG_DOUBLE then Some(8)
    else None
  }

  function ItemBytes(tag: Byte): nat {
    if tag == TAG_INT_ARRAY then 4 else 1
  }

  function TagOf(t: Tree): Byte {
    match t
    case Scalar(tag, _) => tag
    case Array(n, _) => if n == 4 then TAG_INT_ARRAY else TAG_BYTE_ARRAY
    case Text(_) => TAG_STRING
    case List(_, _) => TAG_LIST
    case Compound(_) => TAG_COMPOUND
  }

  // ---- encoding -----------------------------------------------------------------------------

  function Named(text: Data): Data {
    BigEndian(2, |text|) + text
  }

  function Payload(t: Tree): Data
    decreases t
  {
    match t
    case Scalar(_, data) => data
    case Array(n, items) => BigEndian(4, if n == 0 then 0 else |items| / n) + items
    case Text(text) => Named(text)
    case List(tag, elements) => [tag] + (BigEndian(4, |elements|) + Elements(elements))
    case Compound(entries) => Entries(entries)
  }

  function Elements(ts: seq<Tree>): Data
    decreases ts
  {
    if ts == [] then [] else Payload(ts[0]) + Elements(ts[1..])
  }

  function Entries(es: seq<Entry>): Data
    decreases es
  {
    if es == [] then [TAG_END]
    else [TagOf(es[0].value)] + (Named(es[0].name) + (Payload(es[0].value) + Entries(es[1..])))
  }

  // ---- parsing ------------------------------------------------------------------------------------

  datatype Got<T> = Got(value: T, rest: Data)

  function Take(d: Data, n: nat): Option<Got<Data>> {
    if n <= |d| then Some(Got(d[..n], d[n..])) else None
  }

  /** A count: not negative as a signed number, and within the item limit. */
  function Count(d: Data, l: Limits): Option<Got<nat>> {
    if |d| < 4 then None
    else
      var n := Number(d[..4]);
      if n >= 0x8000_0000 || n > l.collectionItems then None else Some(Got(n, d[4..]))
  }

  /** A length-prefixed text within the limit and well formed. */
  function String(d: Data, l: Limits): Option<Got<Data>> {
    if |d| < 2 then None
    else
      var n := Number(d[..2]);
      if n > l.stringBytes || n > |d| - 2 then None
      else if ModifiedUtf8.Key(d[2..2 + n]).None? then None
      else Some(Got(d[2..2 + n], d[2 + n..]))
  }

  function KeyOf(name: Data): Data {
    var key := ModifiedUtf8.Key(name);
    if key.Some? then key.value else []
  }

  function Parse(tag: Byte, d: Data, depth: nat, l: Limits): (r: Option<Got<Tree>>)
    ensures r.Some? ==> |r.value.rest| < |d| && TagOf(r.value.value) == tag
    decreases |d|, 1, 0
  {
    if depth > l.recursionDepth then None
    else if Width(tag).Some? then
      var got := Take(d, Width(tag).value);
      if got.None? then None else Some(Got(Scalar(tag, got.value.value), got.value.rest))
    else if tag == TAG_BYTE_ARRAY || tag == TAG_INT_ARRAY then
      var count := Count(d, l);
      if count.None? then None
      else
        var got := Take(count.value.rest, count.value.value * ItemBytes(tag));
        if got.None? then None else Some(Got(Array(ItemBytes(tag), got.value.value), got.value.rest))
    else if tag == TAG_STRING then
      var got := String(d, l);
      if got.None? then None else Some(Got(Text(got.value.value), got.value.rest))
    else if tag == TAG_LIST then
      if d == [] || d[0] > TAG_INT_ARRAY then None
      else
        var count := Count(d[1..], l);
        if count.None? || (d[0] == TAG_END && count.value.value != 0) then None
        else
          var got := ParseElements(d[0], count.value.value, count.value.rest, depth + 1, l);
          if got.None? then None else Some(Got(List(d[0], got.value.value), got.value.rest))
    else if tag == TAG_COMPOUND then
      var got := ParseEntries(d, depth, {}, 0, l);
      if got.None? then None else Some(Got(Compound(got.value.value), got.value.rest))
    else None
  }

  function ParseElements(tag: Byte, count: nat, d: Data, depth: nat, l: Limits): (r: Option<Got<seq<Tree>>>)
    ensures r.Some? ==> |r.value.rest| <= |d| && |r.value.value| == count
    decreases |d|, 2, count
  {
    if count == 0 then Some(Got([], d))
    else
      var first := Parse(tag, d, depth, l);
      if first.None? then None
      else
        var more := ParseElements(tag, count - 1, first.value.rest, depth, l);
        if more.None? then None else Some(Got([first.value.value] + more.value.value, more.value.rest))
  }

  /** `keys` are the decoded names so far, `count` how many. */
  function ParseEntries(d: Data, depth: nat, keys: set<Data>, count: nat, l: Limits): (r: Option<Got<seq<Entry>>>)
    ensures r.Some? ==> |r.value.rest| < |d|
    decreases |d|, 0, 0
  {
    if d == [] then None
    else if d[0] == TAG_END then Some(Got([], d[1..]))
    else if d[0] > TAG_INT_ARRAY || count >= l.collectionItems then None
    else
      var name := String(d[1..], l);
      if name.None? || KeyOf(name.value.value) in keys then None
      else
        var value := Parse(d[0], name.value.rest, depth + 1, l);
        if value.None? then None
        else
          var more := ParseEntries(value.value.rest, depth, keys + {KeyOf(name.value.value)}, count + 1, l);
          if more.None? then None
          else Some(Got([Entry(name.value.value, value.value.value)] + more.value.value, more.value.rest))
  }

  // ---- what the limits ask --------------------------------------------------------------------------

  predicate TextFits(text: Data, l: Limits) {
    |text| <= l.stringBytes && |text| < 0x1_0000 && ModifiedUtf8.Key(text).Some?
  }

  predicate CountFits(n: nat, l: Limits) {
    n <= l.collectionItems && n < 0x8000_0000
  }

  predicate Fits(t: Tree, depth: nat, l: Limits)
    decreases t
  {
    && depth <= l.recursionDepth
    && match t
       case Scalar(tag, data) => Width(tag) == Some(|data|)
       case Array(n, items) => (n == 1 || n == 4) && |items| % n == 0 && CountFits(|items| / n, l)
       case Text(text) => TextFits(text, l)
       case List(tag, elements) =>
         && tag <= TAG_INT_ARRAY && (tag == TAG_END ==> elements == []) && CountFits(|elements|, l)
         && ElementsFit(tag, elements, depth + 1, l)
       case Compound(entries) => EntriesFit(entries, depth, {}, 0, l)
  }

  predicate ElementsFit(tag: Byte, ts: seq<Tree>, depth: nat, l: Limits)
    decreases ts
  {
    ts == [] || (TagOf(ts[0]) == tag && Fits(ts[0], depth, l) && ElementsFit(tag, ts[1..], depth, l))
  }

  predicate EntriesFit(es: seq<Entry>, depth: nat, keys: set<Data>, count: nat, l: Limits)
    decreases es
  {
    es == []
    || (&& count < l.collectionItems
        && TextFits(es[0].name, l) && KeyOf(es[0].name) !in keys
        && Fits(es[0].value, depth + 1, l)
        && EntriesFit(es[1..], depth, keys + {KeyOf(es[0].name)}, count + 1, l))
  }

  // ---- completeness: every fitting tree is accepted ----------------------------------------------------

  lemma Cut(a: Data, b: Data)
    ensures (a + b)[..|a|] == a && (a + b)[|a|..] == b
  {
  }

  lemma CountReads(n: nat, rest: Data, l: Limits)
    requires CountFits(n, l)
    ensures Count(BigEndian(4, n) + rest, l) == Some(Got(n, rest))
  {
    hide BigEndian, Number;
    NumberOf32(n);
    Cut(BigEndian(4, n), rest);
  }

  lemma StringReads(text: Data, rest: Data, l: Limits)
    requires TextFits(text, l)
    ensures String(Named(text) + rest, l) == Some(Got(text, rest))
  {
    hide BigEndian, Number, ModifiedUtf8.Key;
    Widths();
    NumberOfBigEndian(2, |text|);
    var d := Named(text) + rest;
    assert d == BigEndian(2, |text|) + (text + rest);
    Cut(BigEndian(2, |text|), text + rest);
    Cut(text, rest);
    assert d[2..2 + |text|] == d[2..][..|text|] && d[2 + |text|..] == d[2..][|text|..];
  }

  lemma TagFits(t: Tree, depth: nat, l: Limits)
    requires Fits(t, depth, l)
    ensures TAG_END < TagOf(t) <= TAG_INT_ARRAY
  {
  }

  lemma {:induction false} Accepts(t: Tree, rest: Data, depth: nat, l: Limits)
    requires Fits(t, depth, l)
    ensures Parse(TagOf(t), Payload(t) + rest, depth, l) == Some(Got(t, rest))
    decreases t
  {
    match t {
      case Scalar(tag, data) => Cut(data, rest);
      case Array(n, items) => AcceptsArray(n, items, rest, depth, l);
      case Text(text) => StringReads(text, rest, l);
      case List(tag, elements) =>
        AcceptsElements(tag, elements, rest, depth + 1, l);
        ListReads(tag, elements, rest, depth, l);
      case Compound(entries) => AcceptsEntries(entries, rest, depth, {}, 0, l);
    }
  }

  lemma AcceptsArray(n: nat, items: Data, rest: Data, depth: nat, l: Limits)
    requires Fits(Array(n, items), depth, l)
    ensures Parse(TagOf(Array(n, items)), Payload(Array(n, items)) + rest, depth, l) == Some(Got(Array(n, items), rest))
  {
    hide BigEndian, Number;
    var count := |items| / n;
    assert count * n == |items|;
    assert Payload(Array(n, items)) + rest == BigEndian(4, count) + (items + rest);
    CountReads(count, items + rest, l);
    Cut(items, rest);
  }

  /** A list's tag and count, then whatever its elements parse as. */
  lemma ListReads(tag: Byte, elements: seq<Tree>, rest: Data, depth: nat, l: Limits)
    requires depth <= l.recursionDepth && tag <= TAG_INT_ARRAY && (tag == TAG_END ==> elements == []) && CountFits(|elements|, l)
    requires ParseElements(tag, |elements|, Elements(elements) + rest, depth + 1, l) == Some(Got(elements, rest))
    ensures Parse(TAG_LIST, Payload(List(tag, elements)) + rest, depth, l) == Some(Got(List(tag, elements), rest))
  {
    hide BigEndian, Number, ParseElements, Elements, ParseEntries, Count;
    var d := Payload(List(tag, elements)) + rest;
    assert d == [tag] + (BigEndian(4, |elements|) + (Elements(elements) + rest));
    Cut([tag], BigEndian(4, |elements|) + (Elements(elements) + rest));
    CountReads(|elements|, Elements(elements) + rest, l);
  }

  lemma ElementReads(tag: Byte, t: Tree, ts: seq<Tree>, rest: Data, depth: nat, l: Limits)
    requires Parse(tag, Payload(t) + (Elements(ts) + rest), depth, l) == Some(Got(t, Elements(ts) + rest))
    requires ParseElements(tag, |ts|, Elements(ts) + rest, depth, l) == Some(Got(ts, rest))
    ensures ParseElements(tag, |ts| + 1, Payload(t) + (Elements(ts) + rest), depth, l) == Some(Got([t] + ts, rest))
  {
    hide Parse, Payload, Elements;
  }

  lemma ElementsFirst(ts: seq<Tree>, rest: Data)
    requires ts != []
    ensures Elements(ts) + rest == Payload(ts[0]) + (Elements(ts[1..]) + rest)
    ensures [ts[0]] + ts[1..] == ts
  {
    hide Payload;
    Grouped(Payload(ts[0]), Elements(ts[1..]), rest);
    hide Elements;
  }

  lemma Grouped(a: Data, b: Data, c: Data)
    ensures (a + b) + c == a + (b + c)
  {
  }

  lemma NoElements(tag: Byte, ts: seq<Tree>, rest: Data, depth: nat, l: Limits)
    requires ts == []
    ensures ParseElements(tag, |ts|, Elements(ts) + rest, depth, l) == Some(Got(ts, rest))
  {
    assert Elements(ts) + rest == rest;
  }

  lemma {:induction false} AcceptsElements(tag: Byte, ts: seq<Tree>, rest: Data, depth: nat, l: Limits)
    requires ElementsFit(tag, ts, depth, l)
    ensures ParseElements(tag, |ts|, Elements(ts) + rest, depth, l) == Some(Got(ts, rest))
    decreases ts
  {
    hide Parse, Payload, Fits, ParseElements, Elements;
    if ts == [] {
      NoElements(tag, ts, rest, depth, l);
    } else {
      Accepts(ts[0], Elements(ts[1..]) + rest, depth, l);
      AcceptsElements(tag, ts[1..], rest, depth, l);
      ElementsFirst(ts, rest);
      ElementReads(tag, ts[0], ts[1..], rest, depth, l);
    }
  }

  lemma EntryReads(e: Entry, es: seq<Entry>, rest: Data, depth: nat, keys: set<Data>, count: nat, l: Limits)
    requires count < l.collectionItems && TextFits(e.name, l) && KeyOf(e.name) !in keys
    requires TAG_END < TagOf(e.value) <= TAG_INT_ARRAY
    requires Parse(TagOf(e.value), Payload(e.value) + (Entries(es) + rest), depth + 1, l) == Some(Got(e.value, Entries(es) + rest))
    requires ParseEntries(Entries(es) + rest, depth, keys + {KeyOf(e.name)}, count + 1, l) == Some(Got(es, rest))
    ensures
      ParseEntries([TagOf(e.value)] + (Named(e.name) + (Payload(e.value) + (Entries(es) + rest))), depth, keys, count, l)
        == Some(Got([e] + es, rest))
  {
    hide Parse, Payload, String, KeyOf, Named, TextFits, Entries, TagOf;
    var after := Payload(e.value) + (Entries(es) + rest);
    StringReads(e.name, after, l);
    Cut([TagOf(e.value)], Named(e.name) + after);
  }

  lemma EntriesFirst(es: seq<Entry>, rest: Data)
    requires es != []
    ensures Entries(es) + rest
         == [TagOf(es[0].value)] + (Named(es[0].name) + (Payload(es[0].value) + (Entries(es[1..]) + rest)))
    ensures [es[0]] + es[1..] == es
  {
    hide Payload, Named, TagOf;
  }

  lemma NoEntries(es: seq<Entry>, rest: Data, depth: nat, keys: set<Data>, count: nat, l: Limits)
    requires es == []
    ensures ParseEntries(Entries(es) + rest, depth, keys, count, l) == Some(Got(es, rest))
  {
    Cut([TAG_END], rest);
  }

  lemma {:induction false} AcceptsEntries(es: seq<Entry>, rest: Data, depth: nat, keys: set<Data>, count: nat, l: Limits)
    requires EntriesFit(es, depth, keys, count, l)
    ensures ParseEntries(Entries(es) + rest, depth, keys, count, l) == Some(Got(es, rest))
    decreases es
  {
    hide Parse, Payload, Fits, KeyOf, Named, TextFits, ParseEntries, Entries, TagOf;
    if es == [] {
      NoEntries(es, rest, depth, keys, count, l);
    } else {
      TagFits(es[0].value, depth + 1, l);
      Accepts(es[0].value, Entries(es[1..]) + rest, depth + 1, l);
      AcceptsEntries(es[1..], rest, depth, keys + {KeyOf(es[0].name)}, count + 1, l);
      EntriesFirst(es, rest);
      EntryReads(es[0], es[1..], rest, depth, keys, count, l);
    }
  }

  // ---- soundness: what is accepted is the encoding of a fitting tree ------------------------------------

  lemma CountSound(d: Data, l: Limits)
    requires Count(d, l).Some?
    ensures
      var got := Count(d, l).value;
      CountFits(got.value, l) && d == BigEndian(4, got.value) + got.rest
  {
    BigEndianOfNumber(d[..4]);
    hide BigEndian, Number;
    assert d == d[..4] + d[4..];
  }

  lemma StringSound(d: Data, l: Limits)
    requires String(d, l).Some?
    ensures
      var got := String(d, l).value;
      TextFits(got.value, l) && d == Named(got.value) + got.rest
  {
    Widths();
    BigEndianOfNumber(d[..2]);
    hide BigEndian, Number;
    var n := Number(d[..2]);
    assert d == d[..2] + (d[2..2 + n] + d[2 + n..]);
  }

  lemma {:induction false} Sound(tag: Byte, d: Data, depth: nat, l: Limits)
    requires Parse(tag, d, depth, l).Some?
    ensures
      var got := Parse(tag, d, depth, l).value;
      Fits(got.value, depth, l) && d == Payload(got.value) + got.rest
    decreases |d|, 1, 0
  {
    if Width(tag).Some? {
      var n := Width(tag).value;
      assert d == d[..n] + d[n..];
    } else if tag == TAG_BYTE_ARRAY || tag == TAG_INT_ARRAY {
      SoundArray(tag, d, depth, l);
    } else if tag == TAG_STRING {
      StringSound(d, l);
    } else if tag == TAG_LIST {
      SoundList(d, depth, l);
    } else {
      SoundEntries(d, depth, {}, 0, l);
    }
  }

  lemma SoundArray(tag: Byte, d: Data, depth: nat, l: Limits)
    requires Parse(tag, d, depth, l).Some? && (tag == TAG_BYTE_ARRAY || tag == TAG_INT_ARRAY)
    ensures
      var got := Parse(tag, d, depth, l).value;
      Fits(got.value, depth, l) && d == Payload(got.value) + got.rest
  {
    hide Count, BigEndian;
    CountSound(d, l);
    var count := Count(d, l).value;
    var n := count.value * ItemBytes(tag);
    assert n / ItemBytes(tag) == count.value && n % ItemBytes(tag) == 0;
    var items := count.rest[..n];
    assert count.rest == items + count.rest[n..];
    assert d == (BigEndian(4, count.value) + items) + count.rest[n..];
  }

  lemma SoundList(d: Data, depth: nat, l: Limits)
    requires Parse(TAG_LIST, d, depth, l).Some?
    ensures
      var got := Parse(TAG_LIST, d, depth, l).value;
      Fits(got.value, depth, l) && d == Payload(got.value) + got.rest
    decreases |d|, 0, 0
  {
    hide Count, BigEndian, ParseElements, Elements, ElementsFit;
    CountSound(d[1..], l);
    var count := Count(d[1..], l).value;
    SoundElements(d[0], count.value, count.rest, depth + 1, l);
    var got := ParseElements(d[0], count.value, count.rest, depth + 1, l).value;
    ElementsCount(d[0], count.value, count.rest, depth + 1, l);
    assert d == [d[0]] + d[1..];
    assert d == ([d[0]] + (BigEndian(4, count.value) + Elements(got.value))) + got.rest;
  }

  lemma ElementsCount(tag: Byte, count: nat, d: Data, depth: nat, l: Limits)
    requires ParseElements(tag, count, d, depth, l).Some?
    ensures |ParseElements(tag, count, d, depth, l).value.value| == count
  {
  }

  lemma {:induction false} SoundElements(tag: Byte, count: nat, d: Data, depth: nat, l: Limits)
    requires ParseElements(tag, count, d, depth, l).Some?
    ensures
      var got := ParseElements(tag, count, d, depth, l).value;
      ElementsFit(tag, got.value, depth, l) && d == Elements(got.value) + got.rest
    decreases |d|, 2, count
  {
    hide Parse, Fits, Payload;
    if count == 0 {
      assert Elements([]) + d == d;
    } else {
      var first := Parse(tag, d, depth, l).value;
      ParsesTag(tag, d, depth, l);
      Sound(tag, d, depth, l);
      SoundElements(tag, count - 1, first.rest, depth, l);
      var more := ParseElements(tag, count - 1, first.rest, depth, l).value;
      assert ([first.value] + more.value)[1..] == more.value;
      assert d == (Payload(first.value) + Elements(more.value)) + more.rest;
    }
  }

  lemma ParsesTag(tag: Byte, d: Data, depth: nat, l: Limits)
    requires Parse(tag, d, depth, l).Some?
    ensures TagOf(Parse(tag, d, depth, l).value.value) == tag && |Parse(tag, d, depth, l).value.rest| < |d|
  {
  }

  lemma {:induction false} SoundEntries(d: Data, depth: nat, keys: set<Data>, count: nat, l: Limits)
    requires ParseEntries(d, depth, keys, count, l).Some?
    ensures
      var got := ParseEntries(d, depth, keys, count, l).value;
      EntriesFit(got.value, depth, keys, count, l) && d == Entries(got.value) + got.rest
    decreases |d|, 0, 0
  {
    hide Parse, Fits, Payload, String, KeyOf, TextFits, Named;
    if d[0] == TAG_END {
      assert d == [d[0]] + d[1..];
    } else {
      var name := String(d[1..], l).value;
      StringSound(d[1..], l);
      NamedLength(d[1..], l);
      var value := Parse(d[0], name.rest, depth + 1, l).value;
      ParsesTag(d[0], name.rest, depth + 1, l);
      Sound(d[0], name.rest, depth + 1, l);
      SoundEntries(value.rest, depth, keys + {KeyOf(name.value)}, count + 1, l);
      var more := ParseEntries(value.rest, depth, keys + {KeyOf(name.value)}, count + 1, l).value;
      assert ([Entry(name.value, value.value)] + more.value)[1..] == more.value;
      assert d == [d[0]] + d[1..];
      assert d == ([d[0]] + (Named(name.value) + (Payload(value.value) + Entries(more.value)))) + more.rest;
    }
  }

  lemma NamedLength(d: Data, l: Limits)
    requires String(d, l).Some?
    ensures |String(d, l).value.rest| < |d|
  {
  }

  // ---- whole values -------------------------------------------------------------------------------------------

  /** The validator never looks past the byte limit. */
  function Visible(data: Data, l: Limits): Data {
    if |data| <= l.nbtBytes then data else data[..l.nbtBytes]
  }

  datatype Root = Root(name: Data, tree: Tree)

  /** A named compound, as protocol 47 sends one. */
  function Validate(data: Data, l: Limits): Option<Got<Root>> {
    var d := Visible(data, l);
    if d == [] || d[0] != TAG_COMPOUND then None
    else
      var name := String(d[1..], l);
      if name.None? then None
      else
        var tree := Parse(TAG_COMPOUND, name.value.rest, 1, l);
        if tree.None? then None else Some(Got(Root(name.value.value, tree.value.value), tree.value.rest))
  }

  /** A value of any tag but TAG_End without a name, as protocol 775 sends one. */
  function ValidateNetwork(data: Data, l: Limits): Option<Got<Tree>> {
    var d := Visible(data, l);
    if d == [] || d[0] == TAG_END then None else Parse(d[0], d[1..], 1, l)
  }

  function Encoded(r: Root): Data {
    [TAG_COMPOUND] + (Named(r.name) + Payload(r.tree))
  }

  function EncodedNetwork(t: Tree): Data {
    [TagOf(t)] + Payload(t)
  }

  predicate RootFits(r: Root, l: Limits) {
    r.tree.Compound? && TextFits(r.name, l) && Fits(r.tree, 1, l)
  }

  /** The data begins with this encoding, and the byte limit has room for it. */
  predicate Begins(data: Data, encoding: Data, l: Limits) {
    encoding <= data && |encoding| <= l.nbtBytes
  }

  lemma BeginsVisible(data: Data, encoding: Data, l: Limits)
    ensures Begins(data, encoding, l) <==> encoding <= Visible(data, l)
    ensures Begins(data, encoding, l) ==> Visible(data, l) == encoding + Visible(data, l)[|encoding|..]
  {
  }

  /** The validator accepts a root exactly when the data begins with its encoding, and then knows its length. */
  lemma ValidatesExactly(data: Data, r: Root, l: Limits)
    ensures (Validate(data, l).Some? && Validate(data, l).value.value == r) <==> RootFits(r, l) && Begins(data, Encoded(r), l)
    ensures Validate(data, l).Some? ==>
      |Visible(data, l)| - |Validate(data, l).value.rest| == |Encoded(Validate(data, l).value.value)|
  {
    hide Parse, String, Payload, Named, Fits, TextFits;
    var d := Visible(data, l);
    if Validate(data, l).Some? { ValidateSound(data, l); }
    if RootFits(r, l) && Begins(data, Encoded(r), l) {
      BeginsVisible(data, Encoded(r), l);
      var rest := d[|Encoded(r)|..];
      assert d == [TAG_COMPOUND] + (Named(r.name) + (Payload(r.tree) + rest));
      Cut([TAG_COMPOUND], Named(r.name) + (Payload(r.tree) + rest));
      StringReads(r.name, Payload(r.tree) + rest, l);
      Accepts(r.tree, rest, 1, l);
    }
  }

  lemma ValidateSound(data: Data, l: Limits)
    requires Validate(data, l).Some?
    ensures
      var got := Validate(data, l).value;
      && RootFits(got.value, l) && Begins(data, Encoded(got.value), l)
      && Visible(data, l) == Encoded(got.value) + got.rest
  {
    hide Parse, String, Payload, Named, Fits, TextFits;
    var d := Visible(data, l);
    var name := String(d[1..], l).value;
    StringSound(d[1..], l);
    Sound(TAG_COMPOUND, name.rest, 1, l);
    ParsesTag(TAG_COMPOUND, name.rest, 1, l);
    var tree := Parse(TAG_COMPOUND, name.rest, 1, l).value;
    assert d == [d[0]] + d[1..];
    assert d == ([TAG_COMPOUND] + (Named(name.value) + Payload(tree.value))) + tree.rest;
    OnlyCompound(tree.value, 1, l);
    BeginsVisible(data, Encoded(Root(name.value, tree.value)), l);
  }

  lemma OnlyCompound(t: Tree, depth: nat, l: Limits)
    requires TagOf(t) == TAG_COMPOUND && Fits(t, depth, l)
    ensures t.Compound?
  {
  }

  lemma ValidatesNetworkExactly(data: Data, t: Tree, l: Limits)
    ensures (ValidateNetwork(data, l).Some? && ValidateNetwork(data, l).value.value == t)
      <==> Fits(t, 1, l) && Begins(data, EncodedNetwork(t), l)
  {
    hide Parse, Payload, Fits;
    var d := Visible(data, l);
    BeginsVisible(data, EncodedNetwork(t), l);
    if ValidateNetwork(data, l).Some? && ValidateNetwork(data, l).value.value == t {
      var rest := ValidateNetwork(data, l).value.rest;
      Sound(d[0], d[1..], 1, l);
      ParsesTag(d[0], d[1..], 1, l);
      assert d == [d[0]] + d[1..];
      assert d == EncodedNetwork(t) + rest;
    }
    if Fits(t, 1, l) && Begins(data, EncodedNetwork(t), l) {
      var rest := d[|EncodedNetwork(t)|..];
      TagFits(t, 1, l);
      assert d == [TagOf(t)] + (Payload(t) + rest);
      Cut([TagOf(t)], Payload(t) + rest);
      Accepts(t, rest, 1, l);
    }
  }

  // ---- keys ----------------------------------------------------------------------------------------------------

  /** No two entries of an accepted compound have the same decoded name, so none have the same encoded one. */
  lemma {:induction false} KeysDistinct(es: seq<Entry>, depth: nat, keys: set<Data>, count: nat, l: Limits)
    requires EntriesFit(es, depth, keys, count, l)
    ensures forall i :: 0 <= i < |es| ==> KeyOf(es[i].name) !in keys
    ensures forall i, j :: 0 <= i < j < |es| ==> KeyOf(es[i].name) != KeyOf(es[j].name) && es[i].name != es[j].name
    decreases es
  {
    hide Fits, TextFits, KeyOf;
    if es != [] {
      KeysDistinct(es[1..], depth, keys + {KeyOf(es[0].name)}, count + 1, l);
      forall j | 0 < j < |es| ensures KeyOf(es[j].name) !in keys && KeyOf(es[j].name) != KeyOf(es[0].name) {
        assert es[j] == es[1..][j - 1];
      }
      forall i, j | 0 <= i < j < |es| ensures KeyOf(es[i].name) != KeyOf(es[j].name) {
        if i > 0 { assert es[i] == es[1..][i - 1] && es[j] == es[1..][j - 1]; }
      }
    }
  }
}
