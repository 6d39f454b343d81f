/**
 Cipher feedback with an eight-bit segment (wire/java/cfb8.go), over any block function.

 `Encrypted` and `Decrypted` say what a stream does to bytes, one at a time, with its
 register. `InModeOfOperation` is the definition of section 6.3 of NIST SP 800-38A for
 s = 8, which mentions no register; the lemmas tie the two together and prove that
 decryption inverts encryption and that neither depends on how bytes are chunked.
 */
module Cfb8 {
  type Bytes = seq<bv8>
  type BlockFunction = Bytes -> Bytes

  /** The cipher maps a block to a block. */
  ghost predicate Permits(e: BlockFunction, size: nat) {
    size > 0 && forall r :: |r| == size ==> |e(r)| == size
  }

  /** The register once `fed` has been shifted into it: the last bytes of both together. */
  function Shifted(register: Bytes, fed: Bytes): (r: Bytes)
    ensures |r| == |register|
  {
    (register + fed)[|fed|..]
  }

  function Pad(e: BlockFunction, register: Bytes): bv8
    requires Permits(e, |register|)
  {
    e(register)[0]
  }

  function Xor(x: bv8, k: bv8): bv8 {
    x ^ k
  }

  function Encrypted(e: BlockFunction, register: Bytes, plain: Bytes): (c: Bytes)
    requires Permits(e, |register|)
    ensures |c| == |plain|
    decreases |plain|
  {
    if plain == [] then []
    else
      var c := Xor(plain[0], Pad(e, register));
      [c] + Encrypted(e, Shifted(register, [c]), plain[1..])
  }

  function Decrypted(e: BlockFunction, register: Bytes, cipher: Bytes): (p: Bytes)
    requires Permits(e, |register|)
    ensures |p| == |cipher|
    decreases |cipher|
  {
    if cipher == [] then []
    else [Xor(cipher[0], Pad(e, register))] + Decrypted(e, Shifted(register, [cipher[0]]), cipher[1..])
  }

  /** What either direction makes of `input`, and which bytes it feeds back. */
  function Transformed(e: BlockFunction, register: Bytes, input: Bytes, decrypting: bool): (r: Bytes)
    requires Permits(e, |register|)
    ensures |r| == |input|
  {
    if decrypting then Decrypted(e, register, input) else Encrypted(e, register, input)
  }

  function Fed(e: BlockFunction, register: Bytes, input: Bytes, decrypting: bool): (r: Bytes)
    requires Permits(e, |register|)
    ensures |r| == |input|
  {
    if decrypting then input else Encrypted(e, register, input)
  }

  // ---- the standard's definition ---------------------------------------------------------

  /** I_j: the block of IV and ciphertext that ends just before C#_j. */
  function InputBlock(iv: Bytes, cipher: Bytes, j: nat): (block: Bytes)
    requires j < |cipher|
    ensures |block| == |iv|
  {
    (iv + cipher)[j..j + |iv|]
  }

  /** C#_j = P#_j xor MSB_8(CIPH(I_j)). */
  predicate Segment(e: BlockFunction, iv: Bytes, plain: Bytes, cipher: Bytes, j: nat)
    requires j < |plain| == |cipher| && |e(InputBlock(iv, cipher, j))| > 0
  {
    cipher[j] == Xor(plain[j], e(InputBlock(iv, cipher, j))[0])
  }

  ghost predicate InModeOfOperation(e: BlockFunction, iv: Bytes, plain: Bytes, cipher: Bytes)
    requires Permits(e, |iv|)
  {
    |plain| == |cipher| && forall j :: 0 <= j < |plain| ==> Segment(e, iv, plain, cipher, j)
  }

  lemma Window(iv: Bytes, cipher: Bytes, j: nat)
    requires 0 < j < |cipher|
    ensures InputBlock(iv, cipher, j) == InputBlock(Shifted(iv, [cipher[0]]), cipher[1..], j - 1)
  {
  }

  /** The definition for a message is the definition for its first byte and for the rest. */
  lemma ModeStep(e: BlockFunction, iv: Bytes, plain: Bytes, cipher: Bytes)
    requires Permits(e, |iv|) && |plain| == |cipher| > 0
    ensures InModeOfOperation(e, iv, plain, cipher) <==>
      && cipher[0] == Xor(plain[0], Pad(e, iv))
      && InModeOfOperation(e, Shifted(iv, [cipher[0]]), plain[1..], cipher[1..])
  {
    var next := Shifted(iv, [cipher[0]]);
    assert InputBlock(iv, cipher, 0) == iv;
    hide Xor, Shifted, InputBlock;
    forall j | 0 < j < |plain|
      ensures Segment(e, iv, plain, cipher, j) == Segment(e, next, plain[1..], cipher[1..], j - 1)
    {
      Window(iv, cipher, j);
    }
    assert Segment(e, iv, plain, cipher, 0) == (cipher[0] == Xor(plain[0], Pad(e, iv)));
    hide Segment;
    if InModeOfOperation(e, iv, plain, cipher) {
      forall j | 0 <= j < |plain[1..]| ensures Segment(e, next, plain[1..], cipher[1..], j) {
        assert Segment(e, iv, plain, cipher, j + 1);
      }
    }
  }

  lemma {:induction false} EncryptedInMode(e: BlockFunction, iv: Bytes, plain: Bytes)
    requires Permits(e, |iv|)
    ensures InModeOfOperation(e, iv, plain, Encrypted(e, iv, plain))
    decreases |plain|
  {
    if plain != [] {
      var cipher := Encrypted(e, iv, plain);
      EncryptedInMode(e, Shifted(iv, [cipher[0]]), plain[1..]);
      ModeStep(e, iv, plain, cipher);
      hide InModeOfOperation, Xor, Shifted;
    }
  }

  /** The standard's definition leaves no choice, in either direction. */
  lemma {:induction false} ModeIsDecrypted(e: BlockFunction, iv: Bytes, plain: Bytes, cipher: Bytes)
    requires Permits(e, |iv|) && InModeOfOperation(e, iv, plain, cipher)
    ensures plain == Decrypted(e, iv, cipher) && cipher == Encrypted(e, iv, plain)
    decreases |plain|
  {
    if plain != [] {
      ModeStep(e, iv, plain, cipher);
      XorTwice(plain[0], Pad(e, iv));
      hide InModeOfOperation, Xor, Shifted;
      ModeIsDecrypted(e, Shifted(iv, [cipher[0]]), plain[1..], cipher[1..]);
    }
  }

  lemma XorTwice(x: bv8, k: bv8)
    ensures Xor(Xor(x, k), k) == x
  {
  }

  // ---- what a receiver relies on -----------------------------------------------------------------

  lemma DecryptsEncrypted(e: BlockFunction, iv: Bytes, plain: Bytes)
    requires Permits(e, |iv|)
    ensures Decrypted(e, iv, Encrypted(e, iv, plain)) == plain
  {
    EncryptedInMode(e, iv, plain);
    ModeIsDecrypted(e, iv, plain, Encrypted(e, iv, plain));
  }

  lemma {:induction false} EncryptsDecrypted(e: BlockFunction, iv: Bytes, cipher: Bytes)
    requires Permits(e, |iv|)
    ensures Encrypted(e, iv, Decrypted(e, iv, cipher)) == cipher
    decreases |cipher|
  {
    if cipher != [] {
      XorTwice(cipher[0], Pad(e, iv));
      EncryptsDecrypted(e, Shifted(iv, [cipher[0]]), cipher[1..]);
    }
  }

  /** The first byte, and then the others with the register it leaves. */
  lemma FirstByte(e: BlockFunction, register: Bytes, input: Bytes, decrypting: bool)
    requires Permits(e, |register|) && input != []
    ensures
      var y := Xor(input[0], Pad(e, register));
      var fed := [if decrypting then input[0] else y];
      var next := Shifted(register, fed);
      && Transformed(e, register, input, decrypting) == [y] + Transformed(e, next, input[1..], decrypting)
      && Fed(e, register, input, decrypting) == fed + Fed(e, next, input[1..], decrypting)
  {
    hide Xor, Shifted;
  }

  /** Chunks may be cut anywhere: the register carries everything the next one needs. */
  lemma {:induction false} Chunked(e: BlockFunction, register: Bytes, first: Bytes, second: Bytes, decrypting: bool)
    requires Permits(e, |register|)
    ensures
      var next := Shifted(register, Fed(e, register, first, decrypting));
      && Transformed(e, register, first + second, decrypting)
         == Transformed(e, register, first, decrypting) + Transformed(e, next, second, decrypting)
      && Shifted(register, Fed(e, register, first + second, decrypting))
         == Shifted(next, Fed(e, next, second, decrypting))
    decreases |first|
  {
    if first == [] {
      assert first + second == second;
      assert Shifted(register, []) == register;
    } else {
      hide Xor;
      var y := Xor(first[0], Pad(e, register));
      var fed := [if decrypting then first[0] else y];
      var next := Shifted(register, fed);
      hide Shifted;
      assert (first + second)[1..] == first[1..] + second;
      FirstByte(e, register, first, decrypting);
      FirstByte(e, register, first + second, decrypting);
      hide Transformed, Fed;
      Chunked(e, next, first[1..], second, decrypting);
      ShiftedTwice(register, fed, Fed(e, next, first[1..], decrypting));
      ShiftedTwice(register, fed, Fed(e, next, first[1..] + second, decrypting));
    }
  }

  lemma ShiftedTwice(register: Bytes, a: Bytes, b: Bytes)
    ensures Shifted(Shifted(register, a), b) == Shifted(register, a + b)
  {
    assert register + (a + b) == (register + a) + b;
    assert (register + a)[|a|..] + b == ((register + a) + b)[|a|..];
  }

  lemma OneMore(e: BlockFunction, register: Bytes, done: Bytes, x: bv8, decrypting: bool)
    requires Permits(e, |register|)
    ensures
      var next := Shifted(register, Fed(e, register, done, decrypting));
      var y := Xor(x, Pad(e, next));
      && Transformed(e, register, done + [x], decrypting) == Transformed(e, register, done, decrypting) + [y]
      && Shifted(register, Fed(e, register, done + [x], decrypting)) == Shifted(next, [if decrypting then x else y])
  {
    hide Xor, Shifted;
    var next := Shifted(register, Fed(e, register, done, decrypting));
    var y := Xor(x, Pad(e, next));
    var fed := [if decrypting then x else y];
    Chunked(e, register, done, [x], decrypting);
    FirstByte(e, next, [x], decrypting);
    assert [x][1..] == [];
    assert Transformed(e, Shifted(next, fed), [], decrypting) == [] == Fed(e, Shifted(next, fed), [], decrypting);
    hide Transformed, Fed;
    assert [y] + [] == [y] && fed + [] == fed;
  }

  // ---- the stream itself -----------------------------------------------------------------------------

  class Cipher {
    const block: BlockFunction
    const decrypting: bool
    const register: array<bv8>
    const keyStream: array<bv8>

    ghost predicate Valid()
      reads this, register
    {
      && Permits(block, register.Length)
      && keyStream.Length == register.Length && keyStream != register
    }

    constructor (block: BlockFunction, iv: Bytes, decrypting: bool)
      requires Permits(block, |iv|)
      ensures Valid() && fresh(register) && fresh(keyStream) && register[..] == iv
      ensures this.block == block && this.decrypting == decrypting
    {
      this.block, this.decrypting := block, decrypting;
      var r := new bv8[|iv|](i requires 0 <= i < |iv| => iv[i]);
      register, keyStream := r, new bv8[|iv|];
    }

    /** In place or not. */
    method XORKeyStream(dst: array<bv8>, src: array<bv8>, n: nat)
      requires Valid() && n <= dst.Length && n <= src.Length
      requires register != dst && register != src && keyStream != dst && keyStream != src
      modifies register, keyStream, dst
      ensures Valid()
      ensures dst[..n] == Transformed(block, old(register[..]), old(src[..n]), decrypting)
      ensures dst[n..] == old(dst[n..])
      ensures register[..] == Shifted(old(register[..]), Fed(block, old(register[..]), old(src[..n]), decrypting))
    {
      ghost var iv, input := register[..], src[..n];
      ghost var rest := dst[n..];
      var last := register.Length - 1;
      var index := 0;
      assert Shifted(iv, []) == iv;
      while index < n
        invariant 0 <= index <= n && Valid()
        invariant dst[..index] == Transformed(block, iv, input[..index], decrypting)
        invariant forall k :: index <= k < n ==> src[k] == input[k]
        invariant dst[n..] == rest
        invariant |register[..]| == |iv|
        invariant register[..] == Shifted(iv, Fed(block, iv, input[..index], decrypting))
      {
        var x := src[index];
        var before := register[..];
        var o := block(before);
        forall k | 0 <= k < keyStream.Length { keyStream[k] := o[k]; }
        var y := Xor(x, keyStream[0]);
        forall k | 0 <= k < last { register[k] := register[k + 1]; }
        register[last] := if decrypting then x else y;
        OneMore(block, iv, input[..index], x, decrypting);
        assert register[..] == Shifted(before, [if decrypting then x else y]);
        assert input[..index + 1] == input[..index] + [x];
        dst[index] := y;
        assert dst[..index + 1] == dst[..index] + [y];
        index := index + 1;
      }
      assert input[..n] == input;
    }
  }
}
