/**
 Looking NBT up by text (wire/java/nbt_lookup.go). The validator tells names apart by
 their decoded code units; the walker compares the bytes of a name with the one encoding
 of the text asked for. The two agree exactly where names are canonically encoded, since
 the decoder also accepts encodings longer than they need be.
 */
module NbtKeys {
  import opened Wrappers
  import opened Bytes
  import opened NbtTree
  import opened NbtLookup
  import M = ModifiedUtf8

  type Name = seq<M.Scalar>

  /** The key of a text: what decoding any of its encodings gives. */
  function KeyFor(text: Name): Data {
    M.Pairs(M.Utf16(text))
  }

  predicate Named(e: Entry, text: Name) {
    KeyOf(e.name) == KeyFor(text)
  }

  function FindNamed(es: seq<Entry>, text: Name): (found: Option<Entry>)
    ensures found.Some? ==> found.value in es
    decreases |es|
  {
    if es == [] then None
    else if Named(es[0], text) then Some(es[0])
    else FindNamed(es[1..], text)
  }

  /** What the tree has at a path of texts. */
  function FindAt(t: Tree, path: seq<Name>): Option<Tree>
    decreases |path|
  {
    if path == [] then Some(t)
    else if !t.Compound? then None
    else
      var e := FindNamed(t.entries, path[0]);
      if e.None? then None else FindAt(e.value.value, path[1..])
  }

  /** The entries along the path are there, and their names are in the encoding a text is written in. */
  predicate Canonical(t: Tree, path: seq<Name>)
    decreases |path|
  {
    path == []
    || (t.Compound?
        && var e := FindNamed(t.entries, path[0]);
           e.Some? && e.value.name == M.Encoded(path[0]) && Canonical(e.value.value, path[1..]))
  }

  /** The integer the tree has at a path; an empty path names nothing. */
  function IntIn(t: Tree, path: seq<Name>): Option<Int32> {
    if path == [] then None else IntOf(FindAt(t, path))
  }

  // ---- names as bytes and as texts ------------------------------------------------------------

  lemma EncodedKey(text: Name)
    ensures KeyOf(M.Encoded(text)) == KeyFor(text)
  {
    M.DecodesEncoded(text);
  }

  /** One entry has a name, however it is encoded. */
  lemma {:induction false} OneNamed(es: seq<Entry>, depth: nat, keys: set<Data>, count: nat, l: Limits, text: Name, i: nat)
    requires EntriesFit(es, depth, keys, count, l) && i < |es| && Named(es[i], text)
    ensures FindNamed(es, text) == Some(es[i])
    ensures forall j :: 0 <= j < |es| && Named(es[j], text) ==> j == i
    decreases es
  {
    hide Fits, TextFits, KeyOf, KeyFor;
    KeysDistinct(es, depth, keys, count, l);
    if i > 0 {
      assert es[1..][i - 1] == es[i];
      OneNamed(es[1..], depth, keys + {KeyOf(es[0].name)}, count + 1, l, text, i - 1);
    }
  }

  lemma {:induction false} NoneOfBytes(es: seq<Entry>, name: Data)
    requires forall i :: 0 <= i < |es| ==> KeyOf(es[i].name) != KeyOf(name)
    ensures FindEntry(es, name) == None
    decreases |es|
  {
    hide KeyOf;
    if es != [] {
      forall i | 0 <= i < |es[1..]| ensures KeyOf(es[1..][i].name) != KeyOf(name) { assert es[1..][i] == es[i + 1]; }
      NoneOfBytes(es[1..], name);
    }
  }

  /** The encoding of a text finds the entry the text names, if that entry's name is so encoded. */
  lemma {:induction false} BytesFindNamed(es: seq<Entry>, depth: nat, keys: set<Data>, count: nat, l: Limits, text: Name)
    requires EntriesFit(es, depth, keys, count, l)
    ensures
      var e := FindNamed(es, text);
      FindEntry(es, M.Encoded(text)) == if e.Some? && e.value.name == M.Encoded(text) then Some(e.value.value) else None
    decreases es
  {
    hide Fits, TextFits, KeyOf, KeyFor;
    EncodedKey(text);
    if es != [] {
      var more := keys + {KeyOf(es[0].name)};
      if Named(es[0], text) {
        KeysDistinct(es[1..], depth, more, count + 1, l);
        if es[0].name != M.Encoded(text) { NoneOfBytes(es[1..], M.Encoded(text)); }
      } else {
        BytesFindNamed(es[1..], depth, more, count + 1, l, text);
      }
    }
  }

  /** Along a path: the bytes find what the texts name exactly where every name is canonical. */
  lemma {:induction false} BytesFindAt(t: Tree, depth: nat, l: Limits, path: seq<Name>)
    requires Fits(t, depth, l)
    ensures Find(t, Keys(path)) == if Canonical(t, path) then FindAt(t, path) else None
    ensures Canonical(t, path) ==> FindAt(t, path).Some?
    decreases |path|
  {
    hide TextFits, KeyOf, KeyFor;
    if path != [] && t.Compound? {
      BytesFindNamed(t.entries, depth, {}, 0, l, path[0]);
      assert Keys(path)[1..] == Keys(path[1..]);
      var e := FindNamed(t.entries, path[0]);
      if e.Some? && e.value.name == M.Encoded(path[0]) {
        EntryFits(t.entries, depth, {}, 0, l, e.value);
        BytesFindAt(e.value.value, depth + 1, l, path[1..]);
      }
    }
  }

  lemma {:induction false} EntryFits(es: seq<Entry>, depth: nat, keys: set<Data>, count: nat, l: Limits, e: Entry)
    requires EntriesFit(es, depth, keys, count, l) && e in es
    ensures Fits(e.value, depth + 1, l)
    decreases es
  {
    if es[0] != e {
      assert e in es[1..];
      EntryFits(es[1..], depth, keys + {KeyOf(es[0].name)}, count + 1, l, e);
    }
  }

  // ---- the lookup -----------------------------------------------------------------------------

  lemma IntByText(t: Tree, depth: nat, l: Limits, path: seq<Name>)
    requires Fits(t, depth, l) && path != []
    ensures
      var found := IntOf(Find(t, Keys(path)));
      && found == (if Canonical(t, path) then IntIn(t, path) else None)
      && (found == IntIn(t, path) <==> Canonical(t, path) || IntIn(t, path).None?)
  {
    hide Fits, Find, FindAt, Canonical;
    BytesFindAt(t, depth, l, path);
  }

  /**
   In a validated value of protocol 47, a lookup gives what the tree has at the path exactly
   when the names along it are canonical, or the tree has no integer there.
   */
  lemma IntFinds(data: Data, l: Limits, path: seq<Name>)
    requires |data| <= l.nbtBytes && Validate(data, l).Some?
    ensures
      var t := Validate(data, l).value.value.tree;
      && IntAt(data, false, Keys(path)) == (if Canonical(t, path) then IntIn(t, path) else None)
      && (IntAt(data, false, Keys(path)) == IntIn(t, path) <==> Canonical(t, path) || IntIn(t, path).None?)
  {
    hide Validate, Fits, Find, Canonical, Follow;
    if path != [] {
      ValidateSound(data, l);
      IntByBytes(data, l, Keys(path));
      hide IntAt, IntIn;
      IntByText(Validate(data, l).value.value.tree, 1, l, path);
    }
  }

  /** And in one of protocol 775. */
  lemma NetworkIntFinds(data: Data, l: Limits, path: seq<Name>)
    requires |data| <= l.nbtBytes && ValidateNetwork(data, l).Some?
    ensures
      var t := ValidateNetwork(data, l).value.value;
      && IntAt(data, true, Keys(path)) == (if Canonical(t, path) then IntIn(t, path) else None)
      && (IntAt(data, true, Keys(path)) == IntIn(t, path) <==> Canonical(t, path) || IntIn(t, path).None?)
  {
    hide ValidateNetwork, Fits, Find, Canonical, Follow;
    if path != [] {
      var t := ValidateNetwork(data, l).value.value;
      ValidatesNetworkExactly(data, t, l);
      NetworkIntByBytes(data, l, Keys(path));
      hide IntAt, IntIn;
      IntByText(t, 1, l, path);
    }
  }

  /** Entering a compound finds the entry a text names, exactly when its name is canonical. */
  lemma EnterFinds(d: Data, depth: nat, l: Limits, text: Name)
    requires Parse(TAG_COMPOUND, d, depth, l).Some?
    ensures
      var t := Parse(TAG_COMPOUND, d, depth, l).value.value;
      && t.Compound?
      && var e := FindNamed(t.entries, text);
         && (Enter(d, M.Encoded(text)).Some? <==> e.Some? && e.value.name == M.Encoded(text))
         && (Enter(d, M.Encoded(text)).Some? ==> Holds(Enter(d, M.Encoded(text)).value, e.value.value, depth + 1, l))
  {
    var es := ParseEntries(d, depth, {}, 0, l).value.value;
    Sound(TAG_COMPOUND, d, depth, l);
    hide ParseEntries, Enter, Holds, FindNamed, FindEntry, KeyOf;
    EnterByBytes(d, depth, {}, 0, l, M.Encoded(text));
    BytesFindNamed(es, depth, {}, 0, l, text);
  }

  /** Following a path finds what the tree has there, exactly when the names along it are canonical. */
  lemma FollowFinds(d: Data, depth: nat, l: Limits, path: seq<Name>)
    requires path != [] && Parse(TAG_COMPOUND, d, depth, l).Some?
    ensures
      var t := Parse(TAG_COMPOUND, d, depth, l).value.value;
      && (Follow(d, Keys(path)).Some? <==> Canonical(t, path))
      && (Canonical(t, path) ==>
            FindAt(t, path).Some? && exists deeper: nat :: Holds(Follow(d, Keys(path)).value, FindAt(t, path).value, deeper, l))
  {
    hide Parse, Fits, Follow, Find, FindAt, Canonical, Holds;
    Sound(TAG_COMPOUND, d, depth, l);
    FollowByBytes(d, depth, l, Keys(path));
    BytesFindAt(Parse(TAG_COMPOUND, d, depth, l).value.value, depth, l, path);
  }

  // ---- a name that is not canonical -------------------------------------------------------------

  /** The integer 7 under the name "a", its one letter in two bytes. */
  function Overlong(): Entry {
    Entry([0xC1, 0xA1], Scalar(TAG_INT, [0, 0, 0, 7]))
  }

  function LetterA(): Name {
    [0x61]
  }

  lemma OverlongKey()
    ensures M.Key([0xC1, 0xA1]) == Some([0, 0x61]) && M.Encoded(LetterA()) == [0x61] && KeyFor(LetterA()) == [0, 0x61]
  {
    var d: Data := [0xC1, 0xA1];
    var none: Data := [];
    assert d[2..] == none && M.Decoded(none) == Some([]);
    M.DecodedStep(d, 0x61, 2, none);
    assert [0x61][1..] == [] && M.Pairs([]) == [] && M.Utf16([]) == [];
    assert M.Utf16([0x61]) == [0x61] && M.Pairs([0x61]) == [0, 0x61];
    assert LetterA()[1..] == [] && M.Encoded([]) == [];
  }

  /** It is validated, it takes the name "a" from any other entry, and looking "a" up does not find it. */
  lemma OverlongHidden(l: Limits, es: seq<Entry>, r: Root)
    requires l.collectionItems >= 1 && l.recursionDepth >= 2 && l.stringBytes >= 2
    requires es == [Overlong()] && r == Root([], Compound(es)) && |Encoded(r)| <= l.nbtBytes
    ensures Validate(Encoded(r), l).Some? && Validate(Encoded(r), l).value.value == r
    ensures IntIn(r.tree, [LetterA()]) == Some(7) && IntAt(Encoded(r), false, Keys([LetterA()])) == None
    ensures forall e: Entry :: Named(e, LetterA()) ==> !EntriesFit(es + [e], 1, {}, 0, l)
  {
    hide EntriesFit, Named, Validate, IntIn, IntAt, RootFits, Encoded, Canonical, FindNamed;
    OverlongKey();
    OverlongFits(l, es, r);
    OverlongValue(es, r);
    ValidatesExactly(Encoded(r), r, l);
    IntFinds(Encoded(r), l, [LetterA()]);
    forall e: Entry | Named(e, LetterA()) ensures !EntriesFit(es + [e], 1, {}, 0, l) {
      NameTaken(es, e, 1, {}, 0, l, LetterA());
    }
  }

  lemma OverlongValue(es: seq<Entry>, r: Root)
    requires es == [Overlong()] && r == Root([], Compound(es))
    ensures FindNamed(es, LetterA()) == Some(es[0])
    ensures IntIn(r.tree, [LetterA()]) == Some(7) && !Canonical(r.tree, [LetterA()])
  {
    OverlongKey();
    assert [LetterA()][1..] == [];
    assert FindAt(r.tree, [LetterA()]) == Some(es[0].value);
    NumberOf32(7);
    assert BigEndian(4, 7) == [0, 0, 0, 7];
  }

  /** A second entry of a name is refused, however either is encoded. */
  lemma NameTaken(es: seq<Entry>, e: Entry, depth: nat, keys: set<Data>, count: nat, l: Limits, text: Name)
    requires FindNamed(es, text).Some? && Named(e, text)
    ensures !EntriesFit(es + [e], depth, keys, count, l)
  {
    var first := FindNamed(es, text).value;
    NamedFound(es, text);
    hide EntriesFit, FindNamed, KeyOf, KeyFor;
    var i :| 0 <= i < |es| && es[i] == first;
    assert (es + [e])[i] == first && (es + [e])[|es|] == e;
    if EntriesFit(es + [e], depth, keys, count, l) {
      KeysDistinct(es + [e], depth, keys, count, l);
    }
  }

  lemma {:induction false} NamedFound(es: seq<Entry>, text: Name)
    requires FindNamed(es, text).Some?
    ensures Named(FindNamed(es, text).value, text)
    decreases |es|
  {
    if !Named(es[0], text) { NamedFound(es[1..], text); }
  }

  lemma OverlongFits(l: Limits, es: seq<Entry>, r: Root)
    requires l.collectionItems >= 1 && l.recursionDepth >= 2 && l.stringBytes >= 2
    requires es == [Overlong()] && r == Root([], Compound(es)) && M.Key([0xC1, 0xA1]).Some?
    ensures RootFits(r, l)
  {
    assert M.Decoded([]) == Some([]);
    assert es[1..] == [];
    assert EntriesFit(es, 1, {}, 0, l);
  }
}
