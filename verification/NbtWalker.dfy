/** The walker itself (wire/java/nbt_lookup.go), proved to do what `NbtLookup` says. */
module NbtWalker {
  import opened Wrappers
  import opened Bytes
  import opened NbtTree
  import opened NbtLookup
  import ModifiedUtf8

  class Walker {
    const data: Data
    var pos: nat

    ghost predicate Valid()
      reads this
    {
      pos <= |data|
    }

    ghost function Rest(): Data
      reads this
      requires Valid()
    {
      data[pos..]
    }

    constructor (data: Data)
      ensures Valid() && Rest() == data && this.data == data
    {
      this.data, pos := data, 0;
    }

    method ReadByte() returns (b: Option<Byte>)
      requires Valid()
      modifies this
      ensures Valid() && (b.Some? <==> old(Rest()) != [])
      ensures b.Some? ==> b.value == old(Rest())[0] && Rest() == old(Rest())[1..]
    {
      if pos >= |data| { return None; }
      b := Some(data[pos]);
      pos := pos + 1;
    }

    method TakeBytes(n: nat) returns (taken: Option<Data>)
      requires Valid()
      modifies this
      ensures Valid() && (taken.Some? <==> Take(old(Rest()), n).Some?)
      ensures taken.Some? ==> Got(taken.value, Rest()) == Take(old(Rest()), n).value
    {
      if pos + n > |data| { return None; }
      assert data[pos..][..n] == data[pos..pos + n] && data[pos..][n..] == data[pos + n..];
      taken := Some(data[pos..pos + n]);
      pos := pos + n;
    }

    method ReadCount() returns (count: Option<nat>)
      requires Valid()
      modifies this
      ensures Valid() && (count.Some? <==> ItemCount(old(Rest())).Some?)
      ensures count.Some? ==> Got(count.value, Rest()) == ItemCount(old(Rest())).value
    {
      var raw := TakeBytes(4);
      if raw.None? { return None; }
      NumberBelow(raw.value);
      var n := Signed32(Number(raw.value));
      if n < 0 { return None; }
      return Some(n);
    }

    /** A name as it was encoded. */
    method ReadName() returns (name: Option<Data>)
      requires Valid()
      modifies this
      ensures Valid() && (name.Some? <==> Name(old(Rest())).Some?)
      ensures name.Some? ==> Got(name.value, Rest()) == Name(old(Rest())).value
    {
      var raw := TakeBytes(2);
      if raw.None? { return None; }
      name := TakeBytes(Number(raw.value));
    }

    method SkipArray(itemBytes: nat) returns (ok: bool)
      requires Valid()
      modifies this
      ensures Valid()
      ensures
        var count := ItemCount(old(Rest()));
        && (ok <==> count.Some? && Take(count.value.rest, count.value.value * itemBytes).Some?)
        && (ok ==> Rest() == Take(count.value.rest, count.value.value * itemBytes).value.rest)
    {
      var count := ReadCount();
      if count.None? { return false; }
      var items := TakeBytes(count.value * itemBytes);
      return items.Some?;
    }

    method SkipPayload(tag: Byte) returns (ok: bool)
      requires Valid()
      modifies this
      ensures Valid() && (ok <==> Skip(tag, old(Rest())).Some?)
      ensures ok ==> Rest() == Skip(tag, old(Rest())).value
      decreases |Rest()|, 1, 0
    {
      if tag == TAG_BYTE || tag == TAG_SHORT || tag == TAG_INT || tag == TAG_FLOAT || tag == TAG_LONG || tag == TAG_DOUBLE {
        var bytes := TakeBytes(if tag == TAG_BYTE then 1 else if tag == TAG_SHORT then 2
                               else if tag == TAG_INT || tag == TAG_FLOAT then 4 else 8);
        return bytes.Some?;
      }
      if tag == TAG_BYTE_ARRAY { ok := SkipArray(1); return; }
      if tag == TAG_STRING {
        var name := ReadName();
        return name.Some?;
      }
      if tag == TAG_LIST { ok := SkipList(); return; }
      if tag == TAG_COMPOUND { ok := SkipCompound(); return; }
      if tag == TAG_INT_ARRAY { ok := SkipArray(4); return; }
      return false;
    }

    method SkipList() returns (ok: bool)
      requires Valid()
      modifies this
      ensures Valid() && (ok <==> Skip(TAG_LIST, old(Rest())).Some?)
      ensures ok ==> Rest() == Skip(TAG_LIST, old(Rest())).value
      decreases |Rest()|, 0, 1
    {
      ghost var start := Rest();
      ListSkips(start);
      hide Skip, SkipElements, ItemCount;
      var tag := ReadByte();
      if tag.None? { return false; }
      CountShorter(Rest());
      var count := ReadCount();
      if count.None? { return false; }
      ok := SkipEach(tag.value, count.value);
    }

    /** The loop over a list's elements. */
    method SkipEach(tag: Byte, count: nat) returns (ok: bool)
      requires Valid()
      modifies this
      ensures Valid() && (ok <==> SkipElements(tag, count, old(Rest())).Some?)
      ensures ok ==> Rest() == SkipElements(tag, count, old(Rest())).value
      decreases |Rest()|, 2, count
    {
      hide Skip, SkipElements;
      ghost var start := Rest();
      var i := 0;
      while i < count
        invariant i <= count && Valid() && |Rest()| <= |start|
        invariant SkipElements(tag, count, start) == SkipElements(tag, count - i, Rest())
      {
        SkipTurn(tag, count - i, Rest());
        var one := SkipPayload(tag);
        if !one { return false; }
        i := i + 1;
      }
      SkipTurn(tag, 0, Rest());
      return true;
    }

    method SkipCompound() returns (ok: bool)
      requires Valid()
      modifies this
      ensures Valid() && (ok <==> SkipEntries(old(Rest())).Some?)
      ensures ok ==> Rest() == SkipEntries(old(Rest())).value
      decreases |Rest()|, 0, 1
    {
      hide Skip, SkipEntries, Name;
      ghost var start := Rest();
      while true
        invariant Valid() && |Rest()| <= |start| && SkipEntries(start) == SkipEntries(Rest())
        decreases |Rest()|
      {
        EntryTurn(Rest());
        var tag := ReadByte();
        if tag.None? { return false; }
        if tag.value == TAG_END { return true; }
        var name := ReadName();
        if name.None? { return false; }
        var value := SkipPayload(tag.value);
        if !value { return false; }
      }
    }

    /** Stops at the payload of the first entry of this name. */
    method EnterEntry(key: Data) returns (tag: Option<Byte>)
      requires Valid()
      modifies this
      ensures Valid() && (tag.Some? <==> Enter(old(Rest()), key).Some?)
      ensures tag.Some? ==> Got(tag.value, Rest()) == Enter(old(Rest()), key).value
    {
      hide Skip, Enter, Name;
      ghost var start := Rest();
      while true
        invariant Valid() && |Rest()| <= |start| && Enter(start, key) == Enter(Rest(), key)
        decreases |Rest()|
      {
        EnterTurn(Rest(), key);
        var t := ReadByte();
        if t.None? || t.value == TAG_END { return None; }
        var name := ReadName();
        if name.None? { return None; }
        if name.value == key { return t; }
        var value := SkipPayload(t.value);
        if !value { return None; }
      }
    }
  }

  lemma ListSkips(d: Data)
    ensures
      var got := Skip(TAG_LIST, d);
      if d == [] then got.None?
      else
        var count := ItemCount(d[1..]);
        if count.None? then got.None? else got == SkipElements(d[0], count.value.value, count.value.rest)
  {
    hide SkipElements, ItemCount;
  }

  lemma CountShorter(d: Data)
    ensures ItemCount(d).Some? ==> |ItemCount(d).value.rest| <= |d|
  {
    hide Number;
  }

  lemma SkipTurn(tag: Byte, count: nat, d: Data)
    ensures
      if count == 0 then SkipElements(tag, count, d) == Some(d)
      else
        var first := Skip(tag, d);
        && (first.None? ==> SkipElements(tag, count, d).None?)
        && (first.Some? ==> |first.value| < |d| && SkipElements(tag, count, d) == SkipElements(tag, count - 1, first.value))
  {
    hide Skip;
    SkipShorter(tag, d);
  }

  lemma SkipShorter(tag: Byte, d: Data)
    ensures Skip(tag, d).Some? ==> |Skip(tag, d).value| < |d|
  {
  }

  lemma NameShorter(d: Data)
    ensures d != [] && Name(d[1..]).Some? ==> |Name(d[1..]).value.rest| < |d|
  {
    hide Number;
  }

  lemma EntryTurn(d: Data)
    ensures d == [] ==> SkipEntries(d).None?
    ensures d != [] && d[0] == TAG_END ==> SkipEntries(d) == Some(d[1..])
    ensures d != [] && d[0] != TAG_END ==>
      var name := Name(d[1..]);
      if name.None? then SkipEntries(d).None?
      else
        var value := Skip(d[0], name.value.rest);
        && |name.value.rest| < |d|
        && (value.None? ==> SkipEntries(d).None?)
        && (value.Some? ==> |value.value| < |d| && SkipEntries(d) == SkipEntries(value.value))
  {
    hide Skip, Name;
    NameShorter(d);
    if d != [] && Name(d[1..]).Some? { SkipShorter(d[0], Name(d[1..]).value.rest); }
  }

  lemma EnterTurn(d: Data, key: Data)
    ensures d == [] || d[0] == TAG_END ==> Enter(d, key).None?
    ensures d != [] && d[0] != TAG_END ==>
      var name := Name(d[1..]);
      if name.None? then Enter(d, key).None?
      else if name.value.value == key then Enter(d, key) == Some(Got(d[0], name.value.rest))
      else
        var value := Skip(d[0], name.value.rest);
        && (value.None? ==> Enter(d, key).None?)
        && (value.Some? ==> |value.value| < |d| && Enter(d, key) == Enter(value.value, key))
  {
    hide Skip, Name;
    NameShorter(d);
    if d != [] && Name(d[1..]).Some? { SkipShorter(d[0], Name(d[1..]).value.rest); }
  }

  // ---- the lookup --------------------------------------------------------------------------------

  /** Compounds are entered along the path, up to the payload of its last key. */
  method FollowPath(walker: Walker, path: seq<seq<ModifiedUtf8.Scalar>>) returns (found: Option<Got<Byte>>)
    requires walker.Valid() && path != []
    modifies walker
    ensures found == Follow(old(walker.Rest()), Keys(path))
  {
    hide Enter, Follow, ModifiedUtf8.Encoded;
    ghost var start, keys := walker.Rest(), Keys(path);
    var i := 0;
    assert keys[0..] == keys;
    while i < |path| - 1
      invariant i <= |path| - 1 && walker.Valid()
      invariant Follow(start, keys) == Follow(walker.Rest(), keys[i..])
    {
      FollowTurn(walker.Rest(), keys[i..]);
      assert keys[i..][1..] == keys[i + 1..];
      var key := ModifiedUtf8.EncodeModifiedUTF8(path[i]);
      var tag := walker.EnterEntry(key);
      if tag.None? || tag.value != TAG_COMPOUND { return None; }
      i := i + 1;
    }
    FollowTurn(walker.Rest(), keys[i..]);
    var key := ModifiedUtf8.EncodeModifiedUTF8(path[i]);
    var tag := walker.EnterEntry(key);
    if tag.None? { return None; }
    return Some(Got(tag.value, walker.data[walker.pos..]));
  }

  method LookupValue(data: Data, anonymousRoot: bool, path: seq<seq<ModifiedUtf8.Scalar>>) returns (found: Option<Got<Byte>>)
    ensures found == Lookup(data, anonymousRoot, Keys(path))
  {
    hide Follow, Name;
    if path == [] { return None; }
    var walker := new Walker(data);
    var root := walker.ReadByte();
    if root.None? || root.value != TAG_COMPOUND { return None; }
    if !anonymousRoot {
      var name := walker.ReadName();
      if name.None? { return None; }
    }
    found := FollowPath(walker, path);
  }

  lemma FollowTurn(d: Data, path: seq<Data>)
    requires path != []
    ensures
      var got := Enter(d, path[0]);
      && (|path| == 1 || got.None? ==> Follow(d, path) == got)
      && (|path| > 1 && got.Some? && got.value.value != TAG_COMPOUND ==> Follow(d, path).None?)
      && (|path| > 1 && got.Some? && got.value.value == TAG_COMPOUND ==> Follow(d, path) == Follow(got.value.rest, path[1..]))
  {
    hide Enter;
  }

  /** The integer at a path, if there is one: what a validated value's tree has there. */
  method LookupInt(data: Data, anonymousRoot: bool, path: seq<seq<ModifiedUtf8.Scalar>>) returns (v: Option<Int32>)
    ensures v == IntAt(data, anonymousRoot, Keys(path))
  {
    hide Lookup;
    var found := LookupValue(data, anonymousRoot, path);
    if found.None? || found.value.value != TAG_INT || |found.value.rest| < 4 { return None; }
    NumberBelow(found.value.rest[..4]);
    return Some(Signed32(Number(found.value.rest[..4])));
  }
}
