/**
 How long each payload is, in numbers (wire/java/nbt.go, wire/java/nbt_lookup.go): what
 the validator accepts and what the walker skips for every tag number, at any depth and
 under any limits.
 */
module NbtLayout {
  import opened Wrappers
  import opened Bytes
  import opened NbtTree
  import opened NbtLookup
  import ModifiedUtf8

  /** All of d but its first n bytes, if there are as many. */
  function After(d: Data, n: nat): Option<Data> {
    if n <= |d| then Some(d[n..]) else None
  }

  function RestOf<T>(got: Option<Got<T>>): Option<Data> {
    if got.Some? then Some(got.value.rest) else None
  }

  // ---- the validator ----------------------------------------------------------------------------

  /** Byte 1, Short 2, Int and Float 4, Long and Double 8: that many bytes, whatever they are. */
  lemma FixedWidths(tag: Byte, d: Data, depth: nat, l: Limits)
    requires depth <= l.recursionDepth
    ensures tag == 1 ==> RestOf(Parse(tag, d, depth, l)) == After(d, 1) == Skip(tag, d)
    ensures tag == 2 ==> RestOf(Parse(tag, d, depth, l)) == After(d, 2) == Skip(tag, d)
    ensures tag == 3 || tag == 5 ==> RestOf(Parse(tag, d, depth, l)) == After(d, 4) == Skip(tag, d)
    ensures tag == 4 || tag == 6 ==> RestOf(Parse(tag, d, depth, l)) == After(d, 8) == Skip(tag, d)
  {
  }

  /** A byte array 7 and an int array 11: a count of four bytes, not negative and within the limit, and its items. */
  lemma Arrays(tag: Byte, d: Data, depth: nat, l: Limits)
    requires depth <= l.recursionDepth && (tag == 7 || tag == 11)
    ensures
      var n := if |d| < 4 then 0 else Number(d[..4]);
      var bytes := if tag == 7 then n else 4 * n;
      && RestOf(Parse(tag, d, depth, l))
         == (if |d| < 4 || n >= 0x8000_0000 || n > l.collectionItems then None else After(d, 4 + bytes))
      && Skip(tag, d) == (if |d| < 4 || n >= 0x8000_0000 then None else After(d, 4 + bytes))
  {
    hide Number, ParseElements, ParseEntries;
    if |d| >= 4 {
      var n := Number(d[..4]);
      var bytes := if tag == 7 then n else 4 * n;
      if 4 + bytes <= |d| { assert d[4..][bytes..] == d[4 + bytes..]; }
    }
  }

  /** A string 8: a length of two bytes within the limit, and as many bytes of modified UTF-8. */
  lemma Strings(d: Data, depth: nat, l: Limits)
    requires depth <= l.recursionDepth
    ensures
      var n := if |d| < 2 then 0 else Number(d[..2]);
      && RestOf(Parse(8, d, depth, l))
         == (if |d| < 2 || n > l.stringBytes || 2 + n > |d| || ModifiedUtf8.Key(d[2..2 + n]).None? then None else After(d, 2 + n))
      && Skip(8, d) == (if |d| < 2 then None else After(d, 2 + n))
  {
    hide Number, ModifiedUtf8.Key;
    if |d| >= 2 {
      var n := Number(d[..2]);
      if 2 + n <= |d| { assert d[2..][n..] == d[2 + n..]; }
    }
  }

  /** What is left after so many payloads of one tag. */
  function AfterElements(tag: Byte, count: nat, d: Data, depth: nat, l: Limits): Option<Data>
    decreases count
  {
    if count == 0 then Some(d)
    else
      var first := Parse(tag, d, depth, l);
      if first.None? then None else AfterElements(tag, count - 1, first.value.rest, depth, l)
  }

  lemma {:induction false} ElementsLayout(tag: Byte, count: nat, d: Data, depth: nat, l: Limits)
    ensures RestOf(ParseElements(tag, count, d, depth, l)) == AfterElements(tag, count, d, depth, l)
    decreases count
  {
    hide Parse;
    if count > 0 && Parse(tag, d, depth, l).Some? {
      ElementsLayout(tag, count - 1, Parse(tag, d, depth, l).value.rest, depth, l);
    }
  }

  /**
   A list 9: one tag up to 11, a count of four bytes, and as many payloads of that tag one
   deeper. Only an empty list may have the end tag for its elements'.
   */
  lemma Lists(d: Data, depth: nat, l: Limits)
    requires depth <= l.recursionDepth
    ensures RestOf(Parse(9, d, depth, l)) ==
      if |d| < 5 || d[0] > 11 then None
      else
        var n := Number(d[1..5]);
        if n >= 0x8000_0000 || n > l.collectionItems || (d[0] == 0 && n > 0) then None
        else AfterElements(d[0], n, d[5..], depth + 1, l)
  {
    hide Number, ParseElements, AfterElements, ParseEntries;
    if |d| >= 5 {
      assert d[1..][..4] == d[1..5] && d[1..][4..] == d[5..];
      ElementsLayout(d[0], Number(d[1..5]), d[5..], depth + 1, l);
    }
  }

  /**
   A compound 10: nothing but the end tag 0, or an entry and what a compound goes on with. An
   entry is a tag from 1 to 11, a string that names it, and its payload one deeper; it is
   refused when its decoded name was there before or the item limit is reached.
   */
  lemma Compounds(d: Data, depth: nat, keys: set<Data>, count: nat, l: Limits)
    ensures RestOf(ParseEntries(d, depth, keys, count, l)) ==
      if d == [] then None
      else if d[0] == 0 then Some(d[1..])
      else if d[0] > 11 || count >= l.collectionItems || |d| < 3 then None
      else
        var n := Number(d[1..3]);
        if n > l.stringBytes || 3 + n > |d| || ModifiedUtf8.Key(d[3..3 + n]).None? then None
        else
          var key := ModifiedUtf8.Key(d[3..3 + n]).value;
          var value := Parse(d[0], d[3 + n..], depth + 1, l);
          if key in keys || value.None? then None
          else RestOf(ParseEntries(value.value.rest, depth, keys + {key}, count + 1, l))
  {
    hide Number, ModifiedUtf8.Key, Parse;
    if |d| >= 3 {
      assert d[1..][..2] == d[1..3];
      var n := Number(d[1..3]);
      if 3 + n <= |d| { assert d[1..][2..2 + n] == d[3..3 + n] && d[1..][2 + n..] == d[3 + n..]; }
    }
  }

  lemma CompoundPayload(d: Data, depth: nat, l: Limits)
    requires depth <= l.recursionDepth
    ensures RestOf(Parse(10, d, depth, l)) == RestOf(ParseEntries(d, depth, {}, 0, l))
  {
    hide ParseEntries, ParseElements;
  }

  /** Every other tag is refused, and so is everything below the depth limit. */
  lemma OthersRefused(tag: Byte, d: Data, depth: nat, l: Limits)
    requires tag == 0 || tag > 11 || depth > l.recursionDepth
    ensures Parse(tag, d, depth, l).None?
    ensures tag == 0 || tag > 11 ==> Skip(tag, d).None?
  {
  }

  // ---- the walker, where it differs -----------------------------------------------------------------

  function SkipTimes(tag: Byte, count: nat, d: Data): Option<Data>
    decreases count
  {
    if count == 0 then Some(d)
    else if Skip(tag, d).None? then None
    else SkipTimes(tag, count - 1, Skip(tag, d).value)
  }

  lemma {:induction false} SkipsTimes(tag: Byte, count: nat, d: Data)
    ensures SkipElements(tag, count, d) == SkipTimes(tag, count, d)
    decreases count
  {
    hide Skip;
    if count > 0 && Skip(tag, d).Some? { SkipsTimes(tag, count - 1, Skip(tag, d).value); }
  }

  lemma SkipsList(d: Data)
    ensures Skip(9, d) ==
      if |d| < 5 || Number(d[1..5]) >= 0x8000_0000 then None else SkipTimes(d[0], Number(d[1..5]), d[5..])
  {
    hide Number, SkipElements, SkipTimes, SkipEntries;
    if |d| >= 5 {
      assert d[1..][..4] == d[1..5] && d[1..][4..] == d[5..];
      SkipsTimes(d[0], Number(d[1..5]), d[5..]);
    }
  }

  lemma SkipsCompound(d: Data)
    ensures Skip(10, d) ==
      if d == [] then None
      else if d[0] == 0 then Some(d[1..])
      else if |d| < 3 || 3 + Number(d[1..3]) > |d| then None
      else
        var value := Skip(d[0], d[3 + Number(d[1..3])..]);
        if value.None? then None else Skip(10, value.value)
  {
    hide Number;
    if |d| >= 3 {
      assert d[1..][..2] == d[1..3];
      var n := Number(d[1..3]);
      if 3 + n <= |d| { assert d[1..][2..][n..] == d[3 + n..]; }
    }
  }

  /** The integer found is four bytes, most significant first and in two's complement, under tag 3 alone. */
  lemma IntBytes(tag: Byte, a: Byte, b: Byte, c: Byte, e: Byte, rest: Data)
    ensures
      var n := a * 0x100_0000 + b * 0x1_0000 + c * 0x100 + e;
      IntFrom(Some(Got(tag, [a, b, c, e] + rest)))
      == if tag != 3 then None else Some(if a < 0x80 then n else n - 0x1_0000_0000)
  {
    hide Number;
    assert ([a, b, c, e] + rest)[..4] == [a, b, c, e];
    FourBytes(a, b, c, e);
    NumberBelow([a, b, c, e]);
  }

  // ---- one value ----------------------------------------------------------------------------------------

  /** A compound holding one float named "a": ten bytes, all accepted, and as many when more follow. */
  function OneFloat(): Data {
    [0x0A, 0x05, 0x00, 0x01, 0x61, 0x3F, 0x80, 0x00, 0x00, 0x00]
  }

  lemma FloatAccepted(d: Data, rest: Data, l: Limits)
    requires d == OneFloat() + rest && |d| <= l.nbtBytes && l.recursionDepth >= 2 && l.stringBytes >= 1 && l.collectionItems >= 1
    ensures RestOf(ValidateNetwork(d, l)) == Some(rest)
  {
    hide Number, ModifiedUtf8.Key, Parse, ParseEntries;
    var entries := d[1..];
    CompoundPayload(entries, 1, l);
    Compounds(entries, 1, {}, 0, l);
    assert entries[1..3] == [0, 1] && entries[3..4] == [0x61];
    TwoBytes(0, 1);
    PlainLetter();
    var value := entries[4..];
    assert value == [0x3F, 0x80, 0, 0, 0] + rest;
    FixedWidths(5, value, 2, l);
    var end := value[4..];
    assert end == [0] + rest;
    Compounds(end, 1, {} + {ModifiedUtf8.Key([0x61]).value}, 1, l);
    assert end[1..] == rest;
  }

  /** Its value is at depth two, so a depth limit of one refuses it. */
  lemma FloatTooDeep(l: Limits)
    requires l.recursionDepth < 2 && l.nbtBytes >= 10
    ensures ValidateNetwork(OneFloat(), l).None?
  {
    hide Number, ModifiedUtf8.Key, Parse, ParseEntries;
    var entries := OneFloat()[1..];
    if l.recursionDepth < 1 {
      OthersRefused(10, entries, 1, l);
    } else {
      CompoundPayload(entries, 1, l);
      Compounds(entries, 1, {}, 0, l);
      assert entries[1..3] == [0, 1];
      TwoBytes(0, 1);
      OthersRefused(5, entries[4..], 2, l);
    }
  }

  lemma PlainLetter()
    ensures ModifiedUtf8.Key([0x61]) == Some([0, 0x61])
  {
    var none: Data := [];
    assert ModifiedUtf8.Decoded(none) == Some([]);
    ModifiedUtf8.DecodedStep([0x61], 0x61, 1, none);
    assert [0x61][1..] == [] && ModifiedUtf8.Pairs([]) == [] && ModifiedUtf8.Pairs([0x61]) == [0, 0x61];
  }
}
