/**
 The fields a capture record is made of, and the string table both sides build from
 them (capture/writer.go, capture/reader.go). A string's first use carries its bytes
 and takes the next place in the table; a later use carries the place alone.
 */
module CaptureFields {
  import opened Wrappers
  import opened Bytes

  type Table = seq<Data>

  datatype Field =
    | Small(small: Byte)
    | Word(word: nat)        // four bytes
    | Long(long: nat)        // eight bytes
    | Text(text: Data)       // through the string table
    | Body(body: Data)       // its length in four bytes, then itself

  datatype Shape = SmallShape | WordShape | LongShape | TextShape | BodyShape

  function ShapeOf(f: Field): Shape {
    match f
    case Small(_) => SmallShape
    case Word(_) => WordShape
    case Long(_) => LongShape
    case Text(_) => TextShape
    case Body(_) => BodyShape
  }

  predicate InRange(f: Field, table: Table) {
    match f
    case Small(_) => true
    case Word(v) => v < MOD32
    case Long(v) => v < MOD64
    case Text(t) => |t| < MOD32 && |table| + 1 < MOD32
    case Body(d) => |d| < MOD32
  }

  // ---- the table ----------------------------------------------------------------------------

  function Place(table: Table, text: Data): (i: nat)
    requires text in table
    ensures i < |table| && table[i] == text
  {
    if table[|table| - 1] == text then |table| - 1 else Place(table[..|table| - 1], text)
  }

  predicate Distinct(table: Table) {
    forall i, j :: 0 <= i < j < |table| ==> table[i] != table[j]
  }

  function Extended(table: Table, f: Field): Table {
    if f.Text? && f.text !in table then table + [f.text] else table
  }

  // ---- writing --------------------------------------------------------------------------------

  function Written(f: Field, table: Table): Data {
    match f
    case Small(v) => [v]
    case Word(v) => BigEndian(4, v)
    case Long(v) => BigEndian(8, v)
    case Text(t) =>
      if t in table then BigEndian(4, Place(table, t) + 1)
      else BigEndian(4, 0) + BigEndian(4, |t|) + t
    case Body(d) => BigEndian(4, |d|) + d
  }

  /** The writer appends one field after another. */
  function WrittenAll(fs: seq<Field>, table: Table): Data {
    if fs == [] then []
    else
      var front := fs[..|fs| - 1];
      WrittenAll(front, table) + Written(fs[|fs| - 1], ExtendedAll(table, front))
  }

  function ExtendedAll(table: Table, fs: seq<Field>): Table {
    if fs == [] then table else Extended(ExtendedAll(table, fs[..|fs| - 1]), fs[|fs| - 1])
  }

  predicate AllInRange(fs: seq<Field>, table: Table) {
    fs == [] || (AllInRange(fs[..|fs| - 1], table) && InRange(fs[|fs| - 1], ExtendedAll(table, fs[..|fs| - 1])))
  }

  lemma {:induction false} WrittenFirst(fs: seq<Field>, table: Table)
    requires fs != []
    ensures WrittenAll(fs, table) == Written(fs[0], table) + WrittenAll(fs[1..], Extended(table, fs[0]))
    ensures ExtendedAll(table, fs) == ExtendedAll(Extended(table, fs[0]), fs[1..])
    ensures AllInRange(fs, table) ==> InRange(fs[0], table) && AllInRange(fs[1..], Extended(table, fs[0]))
  {
    hide Written, Extended, InRange;
    var n := |fs| - 1;
    var next := Extended(table, fs[0]);
    if n == 0 {
      assert fs[..0] == [] == fs[1..];
      assert WrittenAll(fs, table) == [] + Written(fs[0], table);
    } else {
      WrittenFirst(fs[..n], table);
      assert fs[..n][1..] == fs[1..][..n - 1] && fs[..n][0] == fs[0];
      assert fs[1..][n - 1] == fs[n];
      var middle := WrittenAll(fs[1..][..n - 1], next);
      var last := Written(fs[n], ExtendedAll(next, fs[1..][..n - 1]));
      assert WrittenAll(fs[1..], next) == middle + last;
      assert (Written(fs[0], table) + middle) + last == Written(fs[0], table) + (middle + last);
    }
  }

  lemma {:induction false} StaysDistinct(table: Table, fs: seq<Field>)
    requires Distinct(table)
    ensures Distinct(ExtendedAll(table, fs)) && table <= ExtendedAll(table, fs)
  {
    if fs != [] { StaysDistinct(table, fs[..|fs| - 1]); }
  }

  // ---- reading ----------------------------------------------------------------------------------

  datatype Got = Got(field: Field, rest: Data, table: Table)

  function Read(shape: Shape, d: Data, table: Table): Option<Got> {
    match shape
    case SmallShape => if |d| < 1 then None else Some(Got(Small(d[0]), d[1..], table))
    case WordShape => if |d| < 4 then None else Some(Got(Word(Number(d[..4])), d[4..], table))
    case LongShape => if |d| < 8 then None else Some(Got(Long(Number(d[..8])), d[8..], table))
    case TextShape => ReadText(d, table)
    case BodyShape =>
      if |d| < 4 then None
      else
        var n := Number(d[..4]);
        if |d| < 4 + n then None else Some(Got(Body(d[4..4 + n]), d[4 + n..], table))
  }

  /** A reference to a string defined earlier, or the definition of one. */
  function ReadText(d: Data, table: Table): Option<Got> {
    if |d| < 4 then None
    else
      var code := Number(d[..4]);
      if code > 0 then
        if code - 1 >= |table| then None else Some(Got(Text(table[code - 1]), d[4..], table))
      else if |d| < 8 then None
      else
        var n := Number(d[4..8]);
        if |d| < 8 + n then None
        else Some(Got(Text(d[8..8 + n]), d[8 + n..], table + [d[8..8 + n]]))
  }

  datatype GotAll = GotAll(fields: seq<Field>, rest: Data, table: Table)

  function ReadAll(shapes: seq<Shape>, d: Data, table: Table): Option<GotAll> {
    if shapes == [] then Some(GotAll([], d, table))
    else
      var first := Read(shapes[0], d, table);
      if first.None? then None
      else
        var more := ReadAll(shapes[1..], first.value.rest, first.value.table);
        if more.None? then None
        else Some(GotAll([first.value.field] + more.value.fields, more.value.rest, more.value.table))
  }

  function Shapes(fs: seq<Field>): (shapes: seq<Shape>)
    ensures |shapes| == |fs|
    ensures forall i :: 0 <= i < |fs| ==> shapes[i] == ShapeOf(fs[i])
  {
    seq(|fs|, i requires 0 <= i < |fs| => ShapeOf(fs[i]))
  }

  // ---- what is written is read back ------------------------------------------------------------------

  lemma ReadsWritten(f: Field, rest: Data, table: Table)
    requires Distinct(table) && InRange(f, table)
    ensures Read(ShapeOf(f), Written(f, table) + rest, table) == Some(Got(f, rest, Extended(table, f)))
  {
    match f {
      case Small(v) =>
      case Word(v) => NumberOf32(v); Split(BigEndian(4, v), rest);
      case Long(v) => NumberOf64(v); Split(BigEndian(8, v), rest);
      case Text(t) => ReadsText(t, rest, table);
      case Body(d) =>
        NumberOf32(|d|);
        assert Written(f, table) + rest == BigEndian(4, |d|) + (d + rest);
        Split(BigEndian(4, |d|), d + rest);
        Split(d, rest);
    }
  }

  lemma Split(a: Data, b: Data)
    ensures (a + b)[..|a|] == a && (a + b)[|a|..] == b
  {
  }

  lemma ReadsText(t: Data, rest: Data, table: Table)
    requires |t| < MOD32 && |table| + 1 < MOD32
    ensures ReadText(Written(Text(t), table) + rest, table) == Some(Got(Text(t), rest, Extended(table, Text(t))))
  {
    hide BigEndian, Number;
    if t in table {
      var code := Place(table, t) + 1;
      NumberOf32(code);
      Split(BigEndian(4, code), rest);
    } else {
      NumberOf32(0);
      NumberOf32(|t|);
      var d := Written(Text(t), table) + rest;
      assert d == BigEndian(4, 0) + (BigEndian(4, |t|) + (t + rest));
      Split(BigEndian(4, 0), BigEndian(4, |t|) + (t + rest));
      Split(BigEndian(4, |t|), t + rest);
      Split(t, rest);
      assert d[4..8] == d[4..][..4] && d[8..] == d[4..][4..];
      assert d[8..8 + |t|] == d[8..][..|t|] && d[8 + |t|..] == d[8..][|t|..];
    }
  }

  lemma ExtendedDistinct(table: Table, f: Field)
    requires Distinct(table)
    ensures Distinct(Extended(table, f))
  {
  }

  lemma ReadAllFirst(shapes: seq<Shape>, d: Data, table: Table, got: Got, more: GotAll)
    requires shapes != [] && Read(shapes[0], d, table) == Some(got)
    requires ReadAll(shapes[1..], got.rest, got.table) == Some(more)
    ensures ReadAll(shapes, d, table) == Some(GotAll([got.field] + more.fields, more.rest, more.table))
  {
    hide Read;
  }

  lemma ReadsNothing(fs: seq<Field>, rest: Data, table: Table)
    requires fs == []
    ensures ReadAll(Shapes(fs), WrittenAll(fs, table) + rest, table) == Some(GotAll(fs, rest, ExtendedAll(table, fs)))
  {
    assert WrittenAll(fs, table) + rest == rest;
  }

  /** Reading back a run of fields, with the same table before and after. */
  lemma {:induction false} ReadsAllWritten(fs: seq<Field>, rest: Data, table: Table)
    requires Distinct(table) && AllInRange(fs, table)
    ensures ReadAll(Shapes(fs), WrittenAll(fs, table) + rest, table) == Some(GotAll(fs, rest, ExtendedAll(table, fs)))
    decreases |fs|
  {
    hide Written, Extended, InRange, Read, Distinct, ReadAll, WrittenAll, ExtendedAll, AllInRange;
    if fs == [] {
      ReadsNothing(fs, rest, table);
    } else {
      WrittenFirst(fs, table);
      var next := Extended(table, fs[0]);
      var more := WrittenAll(fs[1..], next) + rest;
      assert WrittenAll(fs, table) + rest == Written(fs[0], table) + more;
      ReadsWritten(fs[0], more, table);
      ExtendedDistinct(table, fs[0]);
      ReadsAllWritten(fs[1..], rest, next);
      assert Shapes(fs)[1..] == Shapes(fs[1..]);
      ReadAllFirst(Shapes(fs), WrittenAll(fs, table) + rest, table, Got(fs[0], more, next),
                   GotAll(fs[1..], rest, ExtendedAll(next, fs[1..])));
      assert [fs[0]] + fs[1..] == fs;
    }
  }
}
