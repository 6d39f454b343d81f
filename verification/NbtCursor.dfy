/** The validator's cursor (wire/java/nbt.go), proved to accept what `NbtTree.Parse` parses and to stop where it stops. */
module NbtCursor {
  import opened Wrappers
  import opened Bytes
  import opened NbtTree
  import ModifiedUtf8

  datatype Error = UnexpectedEOF | SizeLimit | NegativeLength | InvalidNBT | RecursionLimit | DuplicateKey

  class Cursor {
    const data: Data
    const limits: Limits
    var pos: nat

    ghost predicate Valid()
      reads this
    {
      pos <= |Visible(data, limits)|
    }

    /** What the cursor may still read. */
    ghost function Rest(): Data
      reads this
      requires Valid()
    {
      Visible(data, limits)[pos..]
    }

    constructor (data: Data, limits: Limits)
      ensures Valid() && Rest() == Visible(data, limits) && pos == 0
      ensures this.data == data && this.limits == limits
    {
      this.data, this.limits, pos := data, limits, 0;
    }

    method TakeBytes(count: nat) returns (r: Result<Data, Error>)
      requires Valid()
      modifies this
      ensures Valid() && (r.Ok? <==> Take(old(Rest()), count).Some?)
      ensures r.Ok? ==> r.value == old(Rest())[..count] && Rest() == old(Rest())[count..] && pos == old(pos) + count
    {
      if count > limits.nbtBytes - pos { return Err(SizeLimit); }
      if count > |data| - pos { return Err(UnexpectedEOF); }
      r := Ok(data[pos..pos + count]);
      pos := pos + count;
    }

    method ReadByte() returns (r: Result<Byte, Error>)
      requires Valid()
      modifies this
      ensures Valid() && (r.Ok? <==> old(Rest()) != [])
      ensures r.Ok? ==> r.value == old(Rest())[0] && Rest() == old(Rest())[1..] && pos == old(pos) + 1
    {
      var d := TakeBytes(1);
      if d.Err? { return Err(d.error); }
      return Ok(d.value[0]);
    }

    method ReadCount() returns (r: Result<nat, Error>)
      requires Valid()
      modifies this
      ensures Valid() && (r.Ok? <==> Count(old(Rest()), limits).Some?)
      ensures r.Ok? ==> Got(r.value, Rest()) == Count(old(Rest()), limits).value && pos >= old(pos)
    {
      var d := TakeBytes(4);
      if d.Err? { return Err(d.error); }
      NumberBelow(d.value);
      var count := Signed32(Number(d.value));
      if count < 0 { return Err(NegativeLength); }
      if count > limits.collectionItems { return Err(SizeLimit); }
      return Ok(count);
    }

    /** The text's key for comparing names; `text` is the text itself, for the proof. */
    method ReadString() returns (r: Result<Data, Error>, ghost text: Data)
      requires Valid()
      modifies this
      ensures Valid() && (r.Ok? <==> String(old(Rest()), limits).Some?)
      ensures r.Ok? ==> Got(text, Rest()) == String(old(Rest()), limits).value && r.value == KeyOf(text) && pos >= old(pos)
    {
      text := [];
      ghost var d := Rest();
      var prefix := TakeBytes(2);
      if prefix.Err? { return Err(prefix.error), []; }
      var length := Number(prefix.value);
      if length > limits.stringBytes { return Err(SizeLimit), []; }
      var bytes := TakeBytes(length);
      if bytes.Err? { return Err(bytes.error), []; }
      assert bytes.value == d[2..2 + length];
      var key := ModifiedUtf8.DecodeModifiedUTF8(bytes.value);
      if key.None? { return Err(InvalidNBT), []; }
      return Ok(key.value), bytes.value;
    }

    method ReadArray(itemBytes: nat) returns (r: Result<(), Error>)
      requires Valid()
      modifies this
      ensures Valid()
      ensures
        var count := Count(old(Rest()), limits);
        && (r.Ok? <==> count.Some? && count.value.value * itemBytes <= |count.value.rest|)
        && (r.Ok? ==> Rest() == count.value.rest[count.value.value * itemBytes..] && pos >= old(pos))
    {
      var count := ReadCount();
      if count.Err? { return Err(count.error); }
      var items := TakeBytes(count.value * itemBytes);
      if items.Err? { return Err(items.error); }
      return Ok(());
    }

    method ReadPayload(tag: Byte, depth: nat) returns (r: Result<(), Error>)
      requires Valid()
      modifies this
      ensures Valid() && (r.Ok? <==> Parse(tag, old(Rest()), depth, limits).Some?)
      ensures r.Ok? ==> Rest() == Parse(tag, old(Rest()), depth, limits).value.rest && pos >= old(pos)
      decreases |Rest()|, 1, 0
    {
      if depth > limits.recursionDepth { return Err(RecursionLimit); }
      if tag == TAG_BYTE || tag == TAG_SHORT || tag == TAG_INT || tag == TAG_FLOAT || tag == TAG_LONG || tag == TAG_DOUBLE {
        var bytes := TakeBytes(if tag == TAG_BYTE then 1 else if tag == TAG_SHORT then 2
                               else if tag == TAG_INT || tag == TAG_FLOAT then 4 else 8);
        if bytes.Err? { return Err(bytes.error); }
        return Ok(());
      }
      if tag == TAG_BYTE_ARRAY { r := ReadArray(1); return; }
      if tag == TAG_STRING {
        ghost var text;
        var key;
        key, text := ReadString();
        if key.Err? { return Err(key.error); }
        return Ok(());
      }
      if tag == TAG_LIST { r := ReadList(depth); return; }
      if tag == TAG_COMPOUND { r := ReadCompound(depth); return; }
      if tag == TAG_INT_ARRAY { r := ReadArray(4); return; }
      return Err(InvalidNBT);
    }

    method ReadList(depth: nat) returns (r: Result<(), Error>)
      requires Valid() && depth <= limits.recursionDepth
      modifies this
      ensures Valid() && (r.Ok? <==> Parse(TAG_LIST, old(Rest()), depth, limits).Some?)
      ensures r.Ok? ==> Rest() == Parse(TAG_LIST, old(Rest()), depth, limits).value.rest && pos >= old(pos)
      decreases |Rest()|, 0, 1
    {
      ghost var start := Rest();
      ListIsElements(start, depth, limits);
      hide Parse, ParseElements, Count, Visible;
      var tag := ReadByte();
      if tag.Err? { return Err(tag.error); }
      if tag.value > TAG_INT_ARRAY { return Err(InvalidNBT); }
      CountShorter(Rest(), limits);
      var count := ReadCount();
      if count.Err? { return Err(count.error); }
      if tag.value == TAG_END && count.value != 0 { return Err(InvalidNBT); }
      r := ReadElements(tag.value, count.value, depth + 1);
    }

    /** The loop over a list's elements. */
    method ReadElements(tag: Byte, count: nat, depth: nat) returns (r: Result<(), Error>)
      requires Valid()
      modifies this
      ensures Valid() && (r.Ok? <==> ParseElements(tag, count, old(Rest()), depth, limits).Some?)
      ensures r.Ok? ==> Rest() == ParseElements(tag, count, old(Rest()), depth, limits).value.rest && pos >= old(pos)
      decreases |Rest()|, 2, count
    {
      hide Parse, ParseElements, Visible;
      ghost var start := Rest();
      ghost var all := ParseElements(tag, count, start, depth, limits);
      var i := 0;
      while i < count
        invariant i <= count && Valid() && |Rest()| <= |start| && pos >= old(pos)
        invariant
          var more := ParseElements(tag, count - i, Rest(), depth, limits);
          (all.Some? <==> more.Some?) && (all.Some? ==> all.value.rest == more.value.rest)
      {
        ElementsTurn(tag, count - i, Rest(), depth, limits);
        ParsesShorter(tag, Rest(), depth, limits);
        r := ReadPayload(tag, depth);
        if r.Err? { return; }
        i := i + 1;
      }
      ElementsTurn(tag, 0, Rest(), depth, limits);
      return Ok(());
    }

    method ReadCompound(depth: nat) returns (r: Result<(), Error>)
      requires Valid() && depth <= limits.recursionDepth
      modifies this
      ensures Valid() && (r.Ok? <==> Parse(TAG_COMPOUND, old(Rest()), depth, limits).Some?)
      ensures r.Ok? ==> Rest() == Parse(TAG_COMPOUND, old(Rest()), depth, limits).value.rest && pos >= old(pos)
      decreases |Rest()|, 0, 1
    {
      ghost var start := Rest();
      CompoundIsEntries(start, depth, limits);
      hide Parse, ParseEntries, String, KeyOf, Visible;
      ghost var all := ParseEntries(start, depth, {}, 0, limits);
      var keys: set<Data> := {};
      var count := 0;
      while true
        invariant Valid() && |Rest()| <= |start| && pos >= old(pos)
        invariant
          var more := ParseEntries(Rest(), depth, keys, count, limits);
          (all.Some? <==> more.Some?) && (all.Some? ==> all.value.rest == more.value.rest)
        decreases |Rest()|
      {
        EntriesTurn(Rest(), depth, keys, count, limits);
        StringShorter(Rest(), limits);
        var tag := ReadByte();
        if tag.Err? { return Err(tag.error); }
        if tag.value == TAG_END { return Ok(()); }
        if tag.value > TAG_INT_ARRAY { return Err(InvalidNBT); }
        if count >= limits.collectionItems { return Err(SizeLimit); }
        ghost var text;
        var name;
        name, text := ReadString();
        if name.Err? { return Err(name.error); }
        if name.value in keys { return Err(DuplicateKey); }
        keys := keys + {name.value};
        ghost var before := Rest();
        var value := ReadPayload(tag.value, depth + 1);
        ParsesShorter(tag.value, before, depth + 1, limits);
        if value.Err? { return Err(value.error); }
        count := count + 1;
      }
    }
  }

  lemma ListIsElements(d: Data, depth: nat, l: Limits)
    requires depth <= l.recursionDepth
    ensures
      var got := Parse(TAG_LIST, d, depth, l);
      if d == [] || d[0] > TAG_INT_ARRAY then got.None?
      else
        var count := Count(d[1..], l);
        if count.None? || (d[0] == TAG_END && count.value.value != 0) then got.None?
        else
          var all := ParseElements(d[0], count.value.value, count.value.rest, depth + 1, l);
          (got.Some? <==> all.Some?) && (got.Some? ==> got.value.rest == all.value.rest)
  {
    hide ParseElements, Count;
  }

  /** One turn of the list loop. */
  lemma ElementsTurn(tag: Byte, count: nat, d: Data, depth: nat, l: Limits)
    ensures
      var all := ParseElements(tag, count, d, depth, l);
      if count == 0 then all.Some? && all.value.rest == d
      else
        var first := Parse(tag, d, depth, l);
        if first.None? then all.None?
        else
          var more := ParseElements(tag, count - 1, first.value.rest, depth, l);
          (all.Some? <==> more.Some?) && (all.Some? ==> all.value.rest == more.value.rest)
  {
    hide Parse;
  }

  lemma CountShorter(d: Data, l: Limits)
    ensures Count(d, l).Some? ==> |Count(d, l).value.rest| <= |d|
  {
    hide Number;
  }

  lemma CompoundIsEntries(d: Data, depth: nat, l: Limits)
    requires depth <= l.recursionDepth
    ensures
      var all := ParseEntries(d, depth, {}, 0, l);
      var got := Parse(TAG_COMPOUND, d, depth, l);
      (got.Some? <==> all.Some?) && (got.Some? ==> got.value.rest == all.value.rest)
  {
    hide ParseEntries;
  }

  lemma StringShorter(d: Data, l: Limits)
    ensures d != [] && String(d[1..], l).Some? ==> |String(d[1..], l).value.rest| < |d|
  {
    hide Number;
  }

  lemma ParsesShorter(tag: Byte, d: Data, depth: nat, l: Limits)
    ensures Parse(tag, d, depth, l).Some? ==> |Parse(tag, d, depth, l).value.rest| < |d|
  {
  }

  /** One turn of the compound loop: whether and where the entries end. */
  lemma EntriesTurn(d: Data, depth: nat, keys: set<Data>, count: nat, l: Limits)
    ensures
      var all := ParseEntries(d, depth, keys, count, l);
      if d == [] then all.None?
      else if d[0] == TAG_END then all.Some? && all.value.rest == d[1..]
      else if d[0] > TAG_INT_ARRAY || count >= l.collectionItems then all.None?
      else
        var name := String(d[1..], l);
        if name.None? || KeyOf(name.value.value) in keys then all.None?
        else
          var value := Parse(d[0], name.value.rest, depth + 1, l);
          if value.None? then all.None?
          else
            var more := ParseEntries(value.value.rest, depth, keys + {KeyOf(name.value.value)}, count + 1, l);
            (all.Some? <==> more.Some?) && (all.Some? ==> all.value.rest == more.value.rest)
  {
    hide Parse, String, KeyOf;
  }

  /** The length of the value the data begins with. */
  method ValidateNBT(data: Data, l: Limits) returns (length: Result<nat, Error>)
    ensures length.Ok? <==> Validate(data, l).Some?
    ensures length.Ok? ==> length.value == |Visible(data, l)| - |Validate(data, l).value.rest|
  {
    var cursor := new Cursor(data, l);
    var tag := cursor.ReadByte();
    if tag.Err? { return Err(tag.error); }
    if tag.value != TAG_COMPOUND { return Err(InvalidNBT); }
    ghost var text;
    var name;
    name, text := cursor.ReadString();
    if name.Err? { return Err(name.error); }
    var payload := cursor.ReadPayload(tag.value, 1);
    if payload.Err? { return Err(payload.error); }
    return Ok(cursor.pos);
  }

  method ValidateNetworkNBT(data: Data, l: Limits) returns (length: Result<nat, Error>)
    ensures length.Ok? <==> ValidateNetwork(data, l).Some?
    ensures length.Ok? ==> length.value == |Visible(data, l)| - |ValidateNetwork(data, l).value.rest|
  {
    var cursor := new Cursor(data, l);
    var tag := cursor.ReadByte();
    if tag.Err? { return Err(tag.error); }
    if tag.value == TAG_END { return Err(InvalidNBT); }
    var payload := cursor.ReadPayload(tag.value, 1);
    if payload.Err? { return Err(payload.error); }
    return Ok(cursor.pos);
  }
}
