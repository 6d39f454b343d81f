/**
 Looking one value up in validated NBT (wire/java/nbt_lookup.go). The walker knows no
 limits and builds no tree; on anything the validator accepted it skips exactly what
 the validator consumed, and finds what the tree holds under the very bytes of a name.
 What it finds under a name as a text is the subject of `NbtKeys`.
 */
module NbtLookup {
  import opened Wrappers
  import opened Bytes
  import opened NbtTree
  import ModifiedUtf8

  // ---- what the walker does to any bytes ------------------------------------------------------

  function Name(d: Data): Option<Got<Data>> {
    if |d| < 2 then None else Take(d[2..], Number(d[..2]))
  }

  function ItemCount(d: Data): Option<Got<nat>> {
    if |d| < 4 || Number(d[..4]) >= 0x8000_0000 then None else Some(Got(Number(d[..4]), d[4..]))
  }

  function Skip(tag: Byte, d: Data): (r: Option<Data>)
    ensures r.Some? ==> |r.value| < |d|
    decreases |d|, 1, 0
  {
    if Width(tag).Some? then
      var got := Take(d, Width(tag).value);
      if got.None? then None else Some(got.value.rest)
    else if tag == TAG_BYTE_ARRAY || tag == TAG_INT_ARRAY then
      var count := ItemCount(d);
      if count.None? then None
      else
        var got := Take(count.value.rest, count.value.value * ItemBytes(tag));
        if got.None? then None else Some(got.value.rest)
    else if tag == TAG_STRING then
      var got := Name(d);
      if got.None? then None else Some(got.value.rest)
    else if tag == TAG_LIST then
      if d == [] then None
      else
        var count := ItemCount(d[1..]);
        if count.None? then None else SkipElements(d[0], count.value.value, count.value.rest)
    else if tag == TAG_COMPOUND then SkipEntries(d)
    else None
  }

  function SkipElements(tag: Byte, count: nat, d: Data): (r: Option<Data>)
    ensures r.Some? ==> |r.value| <= |d|
    decreases |d|, 2, count
  {
    if count == 0 then Some(d)
    else
      var first := Skip(tag, d);
      if first.None? then None else SkipElements(tag, count - 1, first.value)
  }

  function SkipEntries(d: Data): (r: Option<Data>)
    ensures r.Some? ==> |r.value| < |d|
    decreases |d|, 0, 0
  {
    if d == [] then None
    else if d[0] == TAG_END then Some(d[1..])
    else
      var name := Name(d[1..]);
      if name.None? then None
      else
        var value := Skip(d[0], name.value.rest);
        if value.None? then None else SkipEntries(value.value)
  }

  /** The tag of the first entry of this name, and what its payload begins. */
  function Enter(d: Data, key: Data): Option<Got<Byte>>
    decreases |d|
  {
    if d == [] || d[0] == TAG_END then None
    else
      var name := Name(d[1..]);
      if name.None? then None
      else if name.value.value == key then Some(Got(d[0], name.value.rest))
      else
        var value := Skip(d[0], name.value.rest);
        if value.None? then None else Enter(value.value, key)
  }

  /** Follow all but the last key through compounds, then enter the last. */
  function Follow(d: Data, path: seq<Data>): Option<Got<Byte>>
    requires path != []
    decreases |path|
  {
    var got := Enter(d, path[0]);
    if |path| == 1 || got.None? then got
    else if got.value.value != TAG_COMPOUND then None
    else Follow(got.value.rest, path[1..])
  }

  function Lookup(data: Data, anonymousRoot: bool, path: seq<Data>): Option<Got<Byte>> {
    if path == [] || data == [] || data[0] != TAG_COMPOUND then None
    else if anonymousRoot then Follow(data[1..], path)
    else
      var name := Name(data[1..]);
      if name.None? then None else Follow(name.value.rest, path)
  }

  /** The integer a found payload begins with, if its tag is TAG_Int. */
  function IntFrom(got: Option<Got<Byte>>): Option<Int32> {
    if got.None? || got.value.value != TAG_INT || |got.value.rest| < 4 then None
    else
      NumberBelow(got.value.rest[..4]);
      Some(Signed32(Number(got.value.rest[..4])))
  }

  function IntAt(data: Data, anonymousRoot: bool, path: seq<Data>): Option<Int32> {
    IntFrom(Lookup(data, anonymousRoot, path))
  }

  /** A path's keys as they are on the wire. */
  function Keys(path: seq<seq<ModifiedUtf8.Scalar>>): (keys: seq<Data>)
    ensures |keys| == |path|
    ensures forall i :: 0 <= i < |path| ==> keys[i] == ModifiedUtf8.Encoded(path[i])
  {
    seq(|path|, i requires 0 <= i < |path| => ModifiedUtf8.Encoded(path[i]))
  }

  // ---- what a tree holds ------------------------------------------------------------------------------

  function FindEntry(es: seq<Entry>, key: Data): Option<Tree>
    decreases |es|
  {
    if es == [] then None
    else if es[0].name == key then Some(es[0].value)
    else FindEntry(es[1..], key)
  }

  function Find(t: Tree, path: seq<Data>): Option<Tree>
    decreases |path|
  {
    if path == [] then Some(t)
    else if !t.Compound? then None
    else
      var next := FindEntry(t.entries, path[0]);
      if next.None? then None else Find(next.value, path[1..])
  }

  function IntOf(t: Option<Tree>): Option<Int32> {
    if t.Some? && t.value.Scalar? && t.value.tag == TAG_INT && |t.value.data| == 4 then
      NumberBelow(t.value.data);
      Some(Signed32(Number(t.value.data)))
    else None
  }

  // ---- skipping is parsing without the tree ---------------------------------------------------------------

  lemma NameIsString(d: Data, l: Limits)
    requires String(d, l).Some?
    ensures Name(d) == Some(String(d, l).value)
  {
    hide Number;
    var n := Number(d[..2]);
    assert d[2..][..n] == d[2..2 + n] && d[2..][n..] == d[2 + n..];
  }

  lemma {:induction false} SkipsParsed(tag: Byte, d: Data, depth: nat, l: Limits)
    requires Parse(tag, d, depth, l).Some?
    ensures Skip(tag, d) == Some(Parse(tag, d, depth, l).value.rest)
    decreases |d|, 1, 0
  {
    hide Number;
    if Width(tag).Some? || tag == TAG_BYTE_ARRAY || tag == TAG_INT_ARRAY {
    } else if tag == TAG_STRING {
      NameIsString(d, l);
    } else if tag == TAG_LIST {
      var count := Count(d[1..], l).value;
      SkipsElements(d[0], count.value, count.rest, depth + 1, l);
    } else {
      SkipsEntries(d, depth, {}, 0, l);
    }
  }

  lemma {:induction false} SkipsElements(tag: Byte, count: nat, d: Data, depth: nat, l: Limits)
    requires ParseElements(tag, count, d, depth, l).Some?
    ensures SkipElements(tag, count, d) == Some(ParseElements(tag, count, d, depth, l).value.rest)
    decreases |d|, 2, count
  {
    if count > 0 {
      SkipsParsed(tag, d, depth, l);
      ParsesTag(tag, d, depth, l);
      hide Parse, Skip;
      SkipsElements(tag, count - 1, Parse(tag, d, depth, l).value.rest, depth, l);
    }
  }

  lemma {:induction false} SkipsEntries(d: Data, depth: nat, keys: set<Data>, count: nat, l: Limits)
    requires ParseEntries(d, depth, keys, count, l).Some?
    ensures SkipEntries(d) == Some(ParseEntries(d, depth, keys, count, l).value.rest)
    decreases |d|, 0, 0
  {
    hide Parse, Skip, String, Name, KeyOf;
    if d[0] != TAG_END {
      NameIsString(d[1..], l);
      NamedLength(d[1..], l);
      var name := String(d[1..], l).value;
      SkipsParsed(d[0], name.rest, depth + 1, l);
      ParsesTag(d[0], name.rest, depth + 1, l);
      SkipsEntries(Parse(d[0], name.rest, depth + 1, l).value.rest, depth, keys + {KeyOf(name.value)}, count + 1, l);
    }
  }

  // ---- entering finds ------------------------------------------------------------------------------------------

  /** What entering gives is the entry's value: its tag, and data that parses as it. */
  predicate Holds(got: Got<Byte>, t: Tree, depth: nat, l: Limits) {
    got.value == TagOf(t) && Parse(got.value, got.rest, depth, l).Some? && Parse(got.value, got.rest, depth, l).value.value == t
  }

  lemma {:induction false} EnterByBytes(d: Data, depth: nat, keys: set<Data>, count: nat, l: Limits, key: Data)
    requires ParseEntries(d, depth, keys, count, l).Some?
    ensures
      var found := FindEntry(ParseEntries(d, depth, keys, count, l).value.value, key);
      && (Enter(d, key).Some? <==> found.Some?)
      && (found.Some? ==> Holds(Enter(d, key).value, found.value, depth + 1, l))
    decreases |d|
  {
    hide Parse, Skip, String, Name, KeyOf;
    if d[0] != TAG_END {
      NameIsString(d[1..], l);
      NamedLength(d[1..], l);
      var name := String(d[1..], l).value;
      var value := Parse(d[0], name.rest, depth + 1, l).value;
      ParsesTag(d[0], name.rest, depth + 1, l);
      SkipsParsed(d[0], name.rest, depth + 1, l);
      EnterByBytes(value.rest, depth, keys + {KeyOf(name.value)}, count + 1, l, key);
      var more := ParseEntries(value.rest, depth, keys + {KeyOf(name.value)}, count + 1, l).value;
      assert ([Entry(name.value, value.value)] + more.value)[1..] == more.value;
    }
  }

  /** Following a path finds what the tree has there. */
  lemma {:induction false} FollowByBytes(d: Data, depth: nat, l: Limits, path: seq<Data>)
    requires path != [] && Parse(TAG_COMPOUND, d, depth, l).Some?
    ensures
      var found := Find(Parse(TAG_COMPOUND, d, depth, l).value.value, path);
      && (Follow(d, path).Some? <==> found.Some?)
      && (found.Some? ==> exists deeper: nat :: Holds(Follow(d, path).value, found.value, deeper, l))
    decreases |path|
  {
    hide Enter, ParseEntries, Holds, FindEntry;
    EnterByBytes(d, depth, {}, 0, l, path[0]);
    var tree := Parse(TAG_COMPOUND, d, depth, l).value.value;
    assert tree.Compound? && tree.entries == ParseEntries(d, depth, {}, 0, l).value.value;
    var next := FindEntry(tree.entries, path[0]);
    if next.Some? {
      HoldsParts(Enter(d, path[0]).value, next.value, depth + 1, l);
      if |path| == 1 {
        assert path[1..] == [];
      } else if next.value.Compound? {
        FollowByBytes(Enter(d, path[0]).value.rest, depth + 1, l, path[1..]);
      }
    }
  }

  lemma HoldsParts(got: Got<Byte>, t: Tree, depth: nat, l: Limits)
    requires Holds(got, t, depth, l)
    ensures got.value == TagOf(t) && (got.value == TAG_COMPOUND <==> t.Compound?)
    ensures got.value == TAG_COMPOUND ==> Parse(TAG_COMPOUND, got.rest, depth, l).Some? && Parse(TAG_COMPOUND, got.rest, depth, l).value.value == t
  {
    Sound(got.value, got.rest, depth, l);
    CompoundTag(t, depth, l);
  }

  lemma CompoundTag(t: Tree, depth: nat, l: Limits)
    requires Fits(t, depth, l)
    ensures TagOf(t) == TAG_COMPOUND <==> t.Compound?
  {
  }

  // ---- the lookup ------------------------------------------------------------------------------------------------

  /** The integer read off what was found is the tree's. */
  lemma HeldInt(got: Got<Byte>, t: Tree, depth: nat, l: Limits)
    requires Holds(got, t, depth, l)
    ensures IntFrom(Some(got)) == IntOf(Some(t))
  {
    hide Number;
    Sound(got.value, got.rest, depth, l);
    if got.value == TAG_INT { ScalarTag(t, depth, l); }
  }

  lemma ScalarTag(t: Tree, depth: nat, l: Limits)
    requires Fits(t, depth, l) && TagOf(t) == TAG_INT
    ensures t.Scalar? && |t.data| == 4
  {
  }

  /** In a validated value of protocol 47, the lookup is the lookup in the tree. */
  lemma IntByBytes(data: Data, l: Limits, path: seq<Data>)
    requires |data| <= l.nbtBytes && Validate(data, l).Some? && path != []
    ensures IntAt(data, false, path) == IntOf(Find(Validate(data, l).value.value.tree, path))
  {
    hide Parse, Follow, Find, Holds, String, Name, Number;
    NameIsString(data[1..], l);
    var name := String(data[1..], l).value;
    FollowByBytes(name.rest, 1, l, path);
    IntFollows(name.rest, l, path);
  }

  /** And in one of protocol 775, whose root has no name and need not be a compound. */
  lemma NetworkIntByBytes(data: Data, l: Limits, path: seq<Data>)
    requires |data| <= l.nbtBytes && ValidateNetwork(data, l).Some? && path != []
    ensures IntAt(data, true, path) == IntOf(Find(ValidateNetwork(data, l).value.value, path))
  {
    hide Parse, Follow, Holds, Number;
    var t := ValidateNetwork(data, l).value.value;
    Sound(data[0], data[1..], 1, l);
    ParsesTag(data[0], data[1..], 1, l);
    CompoundTag(t, 1, l);
    if data[0] == TAG_COMPOUND {
      FollowByBytes(data[1..], 1, l, path);
      IntFollows(data[1..], l, path);
    }
  }

  lemma IntFollows(d: Data, l: Limits, path: seq<Data>)
    requires path != [] && Parse(TAG_COMPOUND, d, 1, l).Some?
    ensures IntFrom(Follow(d, path)) == IntOf(Find(Parse(TAG_COMPOUND, d, 1, l).value.value, path))
  {
    hide Parse, Follow, Find, Holds, Number;
    FollowByBytes(d, 1, l, path);
    var found := Find(Parse(TAG_COMPOUND, d, 1, l).value.value, path);
    if found.Some? {
      var deeper: nat :| Holds(Follow(d, path).value, found.value, deeper, l);
      HeldInt(Follow(d, path).value, found.value, deeper, l);
    }
  }
}
