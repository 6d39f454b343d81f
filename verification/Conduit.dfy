/**
 Where bytes are encrypted and decrypted, between the pumps and a transport (conduit.go),
 and the control that installs ciphers there (wire/java/encryption.go).

 A read is two steps, because the source takes its lock only after the transport read
 and a cipher may be installed in between. Each method is one operation of `ConduitRuns`,
 which says what any sequence of them comes to.
 */
module Conduit {
  import opened Wrappers
  import opened Cfb8
  import opened ConduitRuns

  class Conduit {
    /** Read ahead by the buffered reader. */
    var buffered: Bytes
    var decrypt: Cipher?
    var encrypt: Cipher?
    /** How much the buffered reader held when a read last handed bytes out. */
    var pending: nat
    /** What the transport has been given. */
    var written: Bytes

    /** What readers were handed, and what a read has taken but not handed out. */
    ghost var handed: Bytes
    ghost var inHand: Bytes

    ghost function Ciphers(): set<object>
      reads this, decrypt, encrypt
    {
      (if decrypt == null then {} else {decrypt, decrypt.register, decrypt.keyStream})
      + (if encrypt == null then {} else {encrypt, encrypt.register, encrypt.keyStream})
    }

    ghost predicate Apart()
      reads `decrypt, `encrypt, decrypt, encrypt
    {
      decrypt != null && encrypt != null ==>
        && decrypt != encrypt && decrypt.register != encrypt.register && decrypt.register != encrypt.keyStream
        && decrypt.keyStream != encrypt.register && decrypt.keyStream != encrypt.keyStream
    }

    ghost predicate Valid()
      reads this, decrypt, encrypt, Ciphers()
    {
      && Apart()
      && (decrypt != null ==> decrypt.Valid() && decrypt.decrypting)
      && (encrypt != null ==> encrypt.Valid() && !encrypt.decrypting)
      && (inHand == [] ==> pending == |buffered|)
    }

    ghost function View(): (f: Flow)
      requires Valid()
      reads this, decrypt, encrypt, Ciphers()
      ensures f.Sound()
    {
      Flow(buffered, inHand, pending, handed, StreamOf(decrypt), written, StreamOf(encrypt))
    }

    constructor ()
      ensures Valid() && View() == Start() && decrypt == null && encrypt == null
    {
      buffered, pending, written := [], 0, [];
      decrypt, encrypt := null, null;
      inHand, handed := [], [];
    }

    /** The transport read: at most one, and only when nothing is buffered. `arrived` is what it delivers. */
    method Fetch(p: array<bv8>, arrived: Bytes) returns (read: nat)
      requires Valid() && inHand == [] && p !in Ciphers()
      modifies `buffered, `inHand, p
      ensures Valid() && View() == Apply(old(View()), Fetching(p.Length, arrived))
      ensures read <= p.Length && inHand == p[..read] && p[read..] == old(p[read..])
      ensures p.Length > 0 && (old(buffered) != [] || arrived != []) ==> read > 0
    {
      hide Conduit.Apart, Permits, Apply;
      ghost var before := View();
      if p.Length > 0 && buffered == [] {
        buffered := arrived;
      }
      var held := buffered;
      read := if |buffered| < p.Length then |buffered| else p.Length;
      CopyTo(p, held[..read]);
      inHand := held[..read];
      buffered := buffered[read..];
      FetchingIs(before, p.Length, arrived, held);
    }

    /** Under the lock: decrypt with whatever cipher is installed by now, and publish what is left unread. */
    method HandOut(p: array<bv8>, read: nat)
      requires Valid() && read <= p.Length && p[..read] == inHand && p !in Ciphers()
      modifies `pending, `inHand, `handed, p, if decrypt == null then {} else {decrypt.register, decrypt.keyStream}
      ensures Valid() && View() == Apply(old(View()), HandingOut)
      ensures handed == old(handed) + p[..read] && p[read..] == old(p[read..])
    {
      hide Transformed, Fed, Permits;
      ghost var before := StreamOf(decrypt);
      if decrypt != null && read > 0 {
        decrypt.XORKeyStream(p, p, read);
      } else {
        PassedNothing(before, true);
      }
      pending := |buffered|;
      handed := handed + p[..read];
      inHand := [];
    }

    /** Read fills p, decrypting what it hands out. */
    method Read(p: array<bv8>, arrived: Bytes) returns (read: nat)
      requires Valid() && inHand == [] && p !in Ciphers()
      modifies `buffered, `inHand, `pending, `handed, p, if decrypt == null then {} else {decrypt.register, decrypt.keyStream}
      ensures Valid() && View() == Apply(Apply(old(View()), Fetching(p.Length, arrived)), HandingOut)
      ensures read <= p.Length && handed == old(handed) + p[..read] && p[read..] == old(p[read..])
    {
      hide Apply;
      read := Fetch(p, arrived);
      HandOut(p, read);
    }

    /** Write encrypts into a buffer of its own: the caller's is never changed. */
    method Write(p: array<bv8>)
      requires Valid() && p !in Ciphers()
      modifies `written, if encrypt == null then {} else {encrypt.register, encrypt.keyStream}
      ensures Valid() && View() == Apply(old(View()), Writing(p[..]))
    {
      hide Transformed, Fed, Permits;
      if encrypt == null {
        written := written + p[..];
        return;
      }
      var encrypted := new bv8[p.Length];
      encrypt.XORKeyStream(encrypted, p, p.Length);
      assert p[..p.Length] == p[..] && encrypted[..p.Length] == encrypted[..];
      written := written + encrypted[..];
    }

    ghost predicate Installable(cipher: Cipher?, decrypting: bool)
      reads this, decrypt, encrypt, cipher, if cipher == null then {} else {cipher.register}
    {
      cipher != null ==>
        && cipher.Valid() && cipher.decrypting == decrypting
        && cipher !in Ciphers() && cipher.register !in Ciphers() && cipher.keyStream !in Ciphers()
    }

    /** The inbound half alone. It is refused while unread bytes could be the tail of a frame begun in the clear. */
    method EnableReadEncryption(cipher: Cipher?) returns (r: Option<Refusal>)
      requires Valid() && Installable(cipher, true)
      modifies `decrypt
      ensures Valid() && View() == Apply(old(View()), SwitchingRead(StreamOf(cipher)))
      ensures r == if cipher == null then Some(EncryptionUnavailable)
                   else if old(decrypt) != null then Some(EncryptionEnabled)
                   else if pending > 0 then Some(EncryptionOverrun(pending))
                   else None
      ensures decrypt == if r.None? then cipher else old(decrypt)
    {
      if cipher == null { return Some(EncryptionUnavailable); }
      if decrypt != null { return Some(EncryptionEnabled); }
      r := ReadSwitchable();
      if r.Some? { return; }
      decrypt := cipher;
      return None;
    }

    method ReadSwitchable() returns (r: Option<Refusal>)
      ensures r == if pending > 0 then Some(EncryptionOverrun(pending)) else None
    {
      return if pending > 0 then Some(EncryptionOverrun(pending)) else None;
    }

    /** The outbound half alone. What has been written is beyond the reach of a cipher installed now. */
    method EnableWriteEncryption(cipher: Cipher?) returns (r: Option<Refusal>)
      requires Valid() && Installable(cipher, false)
      modifies `encrypt
      ensures Valid() && View() == Apply(old(View()), SwitchingWrite(StreamOf(cipher)))
      ensures r == if cipher == null then Some(EncryptionUnavailable)
                   else if old(encrypt) != null then Some(EncryptionEnabled)
                   else None
      ensures encrypt == if r.None? then cipher else old(encrypt)
    {
      if cipher == null { return Some(EncryptionUnavailable); }
      if encrypt != null { return Some(EncryptionEnabled); }
      encrypt := cipher;
      return None;
    }

    /** Both halves at once, or neither. */
    method EnableEncryption(inbound: Cipher?, outbound: Cipher?) returns (r: Option<Refusal>)
      requires Valid() && Installable(inbound, true) && Installable(outbound, false)
      requires inbound != null && outbound != null ==>
                 && inbound.register != outbound.register && inbound.register != outbound.keyStream
                 && inbound.keyStream != outbound.register && inbound.keyStream != outbound.keyStream
      modifies `decrypt, `encrypt
      ensures Valid() && View() == Apply(old(View()), SwitchingBoth(StreamOf(inbound), StreamOf(outbound)))
      ensures r == if inbound == null || outbound == null then Some(EncryptionUnavailable)
                   else if old(decrypt) != null || old(encrypt) != null then Some(EncryptionEnabled)
                   else if pending > 0 then Some(EncryptionOverrun(pending))
                   else None
      ensures decrypt == if r.None? then inbound else old(decrypt)
      ensures encrypt == if r.None? then outbound else old(encrypt)
    {
      if inbound == null || outbound == null { return Some(EncryptionUnavailable); }
      if decrypt != null || encrypt != null { return Some(EncryptionEnabled); }
      r := ReadSwitchable();
      if r.Some? { return; }
      decrypt, encrypt := inbound, outbound;
      return None;
    }
  }

  /** A cipher as a value. */
  ghost function StreamOf(cipher: Cipher?): (k: Option<KeyStream>)
    reads cipher, if cipher == null then {} else {cipher.register}
    ensures cipher != null && cipher.Valid() ==> Usable(k)
    ensures cipher == null ==> k.None?
  {
    if cipher == null then None else Some(KeyStream(cipher.block, cipher.register[..]))
  }

  method CopyTo(p: array<bv8>, source: Bytes)
    requires |source| <= p.Length
    modifies p
    ensures p[..|source|] == source && p[|source|..] == old(p[|source|..])
  {
    forall k | 0 <= k < |source| { p[k] := source[k]; }
  }

  /** `held` is what the buffered reader has once it has asked the transport, if it did. */
  lemma FetchingIs(f: Flow, room: nat, arrived: Bytes, held: Bytes)
    requires f.Sound() && f.inHand == [] && held == if room > 0 && f.buffered == [] then arrived else f.buffered
    ensures
      var n := if |held| < room then |held| else room;
      Apply(f, Fetching(room, arrived)) == f.(buffered := held[n..], inHand := held[..n])
  {
    assert f.buffered + Delivered(f, Fetching(room, arrived)) == held;
  }

  lemma PassedNothing(k: Option<KeyStream>, decrypting: bool)
    requires Usable(k)
    ensures Passed(k, [], decrypting) == [] && Advanced(k, [], decrypting) == k
  {
    if k.Some? { assert Shifted(k.value.register, []) == k.value.register; }
  }

  // ---- the control --------------------------------------------------------------------------

  datatype Half = Both | Inbound | Outbound

  /** The switch a control asks for. */
  function SwitchOf(half: Half, key: KeyStream): Op {
    match half
    case Inbound => SwitchingRead(Some(key))
    case Outbound => SwitchingWrite(Some(key))
    case Both => SwitchingBoth(Some(key), Some(key))
  }

  /** The key serves as the initialization vector too, whichever half is switched. `aes` builds the block function of a key. */
  method ApplyTransport(conduit: Conduit, key: Bytes, half: Half, aes: Bytes -> BlockFunction) returns (r: Option<Refusal>)
    requires conduit.Valid() && (key != [] ==> Permits(aes(key), |key|))
    modifies conduit`decrypt, conduit`encrypt
    ensures conduit.Valid()
    ensures key == [] ==> r == Some(InvalidSharedSecret) && conduit.View() == old(conduit.View())
    ensures key != [] ==> conduit.View() == Apply(old(conduit.View()), SwitchOf(half, KeyStream(aes(key), key)))
    ensures r == if key == [] then Some(InvalidSharedSecret)
                 else if old(conduit.decrypt) != null && half != Outbound then Some(EncryptionEnabled)
                 else if old(conduit.encrypt) != null && half != Inbound then Some(EncryptionEnabled)
                 else if conduit.pending > 0 && half != Outbound then Some(EncryptionOverrun(conduit.pending))
                 else None
  {
    hide Conduit.Apart, Permits, Apply;
    if key == [] { return Some(InvalidSharedSecret); }
    var block := aes(key);
    match half {
      case Inbound =>
        var decrypter := new Cipher(block, key, true);
        r := conduit.EnableReadEncryption(decrypter);
      case Outbound =>
        var encrypter := new Cipher(block, key, false);
        r := conduit.EnableWriteEncryption(encrypter);
      case Both =>
        var decrypter := new Cipher(block, key, true);
        var encrypter := new Cipher(block, key, false);
        r := conduit.EnableEncryption(decrypter, encrypter);
    }
  }
}
