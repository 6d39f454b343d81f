/**
 A conduit's life as a value (conduit.go): what each operation does to it, and what any
 sequence of operations hands out and writes.
 */
module ConduitRuns {
  import opened Wrappers
  import opened Cfb8

  datatype Refusal = EncryptionUnavailable | EncryptionEnabled | EncryptionOverrun(unread: nat) | InvalidSharedSecret

  /** A cipher with the register it has reached. */
  datatype KeyStream = KeyStream(block: BlockFunction, register: Bytes)

  ghost predicate Usable(k: Option<KeyStream>) {
    k.Some? ==> Permits(k.value.block, |k.value.register|)
  }

  datatype Flow = Flow(
    buffered: Bytes,   // read ahead from the transport
    inHand: Bytes,     // taken by a read that has not handed them out
    pending: nat,      // what a read last left unread
    handed: Bytes,     // handed out so far
    decrypt: Option<KeyStream>,
    written: Bytes,    // given to the transport so far
    encrypt: Option<KeyStream>)
  {
    ghost predicate Sound() {
      Usable(decrypt) && Usable(encrypt) && (inHand == [] ==> pending == |buffered|)
    }
  }

  function Start(): Flow {
    Flow([], [], 0, [], None, [], None)
  }

  datatype Op =
    | Fetching(room: nat, arrived: Bytes)   // `arrived` is what the transport delivers, if it is asked
    | HandingOut
    | Writing(plain: Bytes)
    | SwitchingRead(inbound: Option<KeyStream>)
    | SwitchingWrite(outbound: Option<KeyStream>)
    | SwitchingBoth(decrypter: Option<KeyStream>, encrypter: Option<KeyStream>)

  ghost predicate Can(f: Flow, op: Op) {
    match op
    case Fetching(_, _) => f.inHand == []
    case SwitchingRead(k) => Usable(k)
    case SwitchingWrite(k) => Usable(k)
    case SwitchingBoth(d, e) => Usable(d) && Usable(e)
    case _ => true
  }

  /** The transport is asked only with room for bytes and none read ahead. */
  function Delivered(f: Flow, op: Op): Bytes {
    if op.Fetching? && op.room > 0 && f.buffered == [] then op.arrived else []
  }

  /** The bytes a stream makes of a chunk, and the stream after them. */
  function Passed(k: Option<KeyStream>, chunk: Bytes, decrypting: bool): (r: Bytes)
    requires Usable(k)
    ensures |r| == |chunk|
  {
    if k.None? then chunk else Transformed(k.value.block, k.value.register, chunk, decrypting)
  }

  function Advanced(k: Option<KeyStream>, chunk: Bytes, decrypting: bool): (r: Option<KeyStream>)
    requires Usable(k)
    ensures Usable(r)
  {
    if k.None? then None
    else Some(k.value.(register := Shifted(k.value.register, Fed(k.value.block, k.value.register, chunk, decrypting))))
  }

  /** Why a switch is refused, in the order the source asks. */
  function Refused(f: Flow, op: Op): Option<Refusal> {
    match op
    case SwitchingRead(k) =>
      if k.None? then Some(EncryptionUnavailable)
      else if f.decrypt.Some? then Some(EncryptionEnabled)
      else if f.pending > 0 then Some(EncryptionOverrun(f.pending))
      else None
    case SwitchingWrite(k) =>
      if k.None? then Some(EncryptionUnavailable) else if f.encrypt.Some? then Some(EncryptionEnabled) else None
    case SwitchingBoth(d, e) =>
      if d.None? || e.None? then Some(EncryptionUnavailable)
      else if f.decrypt.Some? || f.encrypt.Some? then Some(EncryptionEnabled)
      else if f.pending > 0 then Some(EncryptionOverrun(f.pending))
      else None
    case _ => None
  }

  function Apply(f: Flow, op: Op): (g: Flow)
    requires f.Sound() && Can(f, op)
    ensures g.Sound()
  {
    if Refused(f, op).Some? then f
    else
      match op
      case Fetching(room, _) =>
        var held := f.buffered + Delivered(f, op);
        var n := if |held| < room then |held| else room;
        f.(buffered := held[n..], inHand := held[..n])
      case HandingOut =>
        f.(pending := |f.buffered|, inHand := [], handed := f.handed + Passed(f.decrypt, f.inHand, true),
           decrypt := Advanced(f.decrypt, f.inHand, true))
      case Writing(plain) =>
        f.(written := f.written + Passed(f.encrypt, plain, false), encrypt := Advanced(f.encrypt, plain, false))
      case SwitchingRead(k) => f.(decrypt := k)
      case SwitchingWrite(k) => f.(encrypt := k)
      case SwitchingBoth(d, e) => f.(decrypt := d, encrypt := e)
  }

  ghost predicate CanAll(f: Flow, ops: seq<Op>)
    requires f.Sound()
    decreases |ops|
  {
    ops == [] || (Can(f, ops[0]) && CanAll(Apply(f, ops[0]), ops[1..]))
  }

  function Run(f: Flow, ops: seq<Op>): (g: Flow)
    requires f.Sound() && CanAll(f, ops)
    ensures g.Sound()
    decreases |ops|
  {
    if ops == [] then f else Run(Apply(f, ops[0]), ops[1..])
  }

  /** Every byte the transport delivers in the course of a run. */
  function Raw(f: Flow, ops: seq<Op>): Bytes
    requires f.Sound() && CanAll(f, ops)
    decreases |ops|
  {
    if ops == [] then [] else Delivered(f, ops[0]) + Raw(Apply(f, ops[0]), ops[1..])
  }

  /** Every byte the pumps ask to have written. */
  function Sent(ops: seq<Op>): Bytes
    decreases |ops|
  {
    if ops == [] then [] else (if ops[0].Writing? then ops[0].plain else []) + Sent(ops[1..])
  }

  lemma {:induction false} SentAppend(first: seq<Op>, second: seq<Op>)
    ensures Sent(first + second) == Sent(first) + Sent(second)
    decreases |first|
  {
    if first == [] {
      assert first + second == second;
    } else {
      assert (first + second)[1..] == first[1..] + second;
      SentAppend(first[1..], second);
    }
  }

  lemma {:induction false} Then(f: Flow, first: seq<Op>, second: seq<Op>)
    requires f.Sound() && CanAll(f, first + second)
    ensures CanAll(f, first) && CanAll(Run(f, first), second)
    ensures Run(f, first + second) == Run(Run(f, first), second)
    ensures Raw(f, first + second) == Raw(f, first) + Raw(Run(f, first), second)
    decreases |first|
  {
    hide Flow.Sound, Apply, Can, Delivered;
    if first == [] {
      assert first + second == second;
      assert [] + Raw(f, second) == Raw(f, second);
    } else {
      assert (first + second)[0] == first[0] && (first + second)[1..] == first[1..] + second;
      Then(Apply(f, first[0]), first[1..], second);
    }
  }

  // ---- through a switch ------------------------------------------------------------------------

  /** `output` is `input` in the clear up to `from`, and after that what the cipher, started on `iv`, makes of it. */
  ghost predicate Follows(input: Bytes, output: Bytes, from: nat, e: BlockFunction, iv: Bytes, decrypting: bool)
    requires Permits(e, |iv|)
  {
    && from <= |input|
    && output == input[..from] + Transformed(e, iv, input[from..], decrypting)
  }

  /** The stream that has been through everything since the switch. */
  function Reached(input: Bytes, from: nat, e: BlockFunction, iv: Bytes, decrypting: bool): KeyStream
    requires Permits(e, |iv|) && from <= |input|
  {
    KeyStream(e, Shifted(iv, Fed(e, iv, input[from..], decrypting)))
  }

  lemma FollowsOn(input: Bytes, output: Bytes, from: nat, e: BlockFunction, iv: Bytes, decrypting: bool, more: Bytes)
    requires Permits(e, |iv|) && Follows(input, output, from, e, iv, decrypting)
    ensures
      var register := Shifted(iv, Fed(e, iv, input[from..], decrypting));
      && Follows(input + more, output + Transformed(e, register, more, decrypting), from, e, iv, decrypting)
      && Shifted(register, Fed(e, register, more, decrypting))
         == Shifted(iv, Fed(e, iv, (input + more)[from..], decrypting))
  {
    assert (input + more)[from..] == input[from..] + more;
    assert (input + more)[..from] == input[..from];
    Chunked(e, iv, input[from..], more, decrypting);
    hide Transformed, Fed, Shifted;
  }

  /** Where the reading side is: `seen` has been handed out, and the rest of `raw` is still with the conduit. */
  ghost predicate ReadingAt(f: Flow, seen: Bytes, raw: Bytes) {
    raw == seen + (f.inHand + f.buffered)
  }

  /** In the clear. */
  ghost predicate ClearIn(f: Flow, raw: Bytes) {
    f.decrypt.None? && ReadingAt(f, f.handed, raw)
  }

  /** Switched at the k-th byte handed out. */
  ghost predicate SwitchedIn(f: Flow, seen: Bytes, raw: Bytes, k: nat, e: BlockFunction, iv: Bytes) {
    && ReadingAt(f, seen, raw) && Permits(e, |iv|) && Follows(seen, f.handed, k, e, iv, true)
    && f.decrypt == Some(Reached(seen, k, e, iv, true))
  }

  ghost predicate SwitchedOut(f: Flow, sent: Bytes, k: nat, e: BlockFunction, iv: Bytes) {
    && Permits(e, |iv|) && Follows(sent, f.written, k, e, iv, false)
    && f.encrypt == Some(Reached(sent, k, e, iv, false))
  }

  /** What one operation adds to the bytes handed out, before decryption. */
  function HandedNow(f: Flow, op: Op): Bytes {
    if op.HandingOut? then f.inHand else []
  }

  lemma StillReading(f: Flow, op: Op, seen: Bytes, raw: Bytes)
    requires f.Sound() && Can(f, op) && ReadingAt(f, seen, raw)
    ensures ReadingAt(Apply(f, op), seen + HandedNow(f, op), raw + Delivered(f, op))
  {
    var g := Apply(f, op);
    if op.Fetching? {
      var held := f.buffered + Delivered(f, op);
      assert g.inHand + g.buffered == held;
      if f.buffered != [] { assert Delivered(f, op) == []; }
      assert seen + HandedNow(f, op) == seen;
      assert raw + Delivered(f, op) == seen + held;
    } else {
      assert raw + Delivered(f, op) == raw;
      assert (seen + HandedNow(f, op)) + (g.inHand + g.buffered) == seen + (f.inHand + f.buffered);
    }
  }

  /** A switched reading side stays switched, where and as it was. */
  lemma SwitchedInStep(f: Flow, op: Op, seen: Bytes, raw: Bytes, k: nat, e: BlockFunction, iv: Bytes)
    requires f.Sound() && Can(f, op) && SwitchedIn(f, seen, raw, k, e, iv)
    ensures SwitchedIn(Apply(f, op), seen + HandedNow(f, op), raw + Delivered(f, op), k, e, iv)
  {
    StillReading(f, op, seen, raw);
    hide ReadingAt, Permits, Transformed, Fed, Shifted;
    if op.HandingOut? {
      FollowsOn(seen, f.handed, k, e, iv, true, f.inHand);
      hide Follows;
    } else {
      assert seen + HandedNow(f, op) == seen;
      hide Follows;
    }
  }

  lemma {:induction false} StaysSwitchedIn(f: Flow, ops: seq<Op>, seen: Bytes, raw: Bytes, k: nat, e: BlockFunction, iv: Bytes)
    returns (all: Bytes)
    requires f.Sound() && CanAll(f, ops) && SwitchedIn(f, seen, raw, k, e, iv)
    ensures SwitchedIn(Run(f, ops), all, raw + Raw(f, ops), k, e, iv)
    decreases |ops|
  {
    hide Flow.Sound, Apply, Can, Delivered, SwitchedIn;
    if ops == [] {
      assert raw + [] == raw;
      return seen;
    }
    SwitchedInStep(f, ops[0], seen, raw, k, e, iv);
    all := StaysSwitchedIn(Apply(f, ops[0]), ops[1..], seen + HandedNow(f, ops[0]), raw + Delivered(f, ops[0]), k, e, iv);
    assert raw + Raw(f, ops) == (raw + Delivered(f, ops[0])) + Raw(Apply(f, ops[0]), ops[1..]);
  }

  /** The reading side is in the clear, or was switched by some operation. */
  lemma {:induction false} StaysClearIn(f: Flow, ops: seq<Op>, raw: Bytes)
    requires f.Sound() && CanAll(f, ops) && ClearIn(f, raw) && Run(f, ops).decrypt.None?
    ensures ClearIn(Run(f, ops), raw + Raw(f, ops))
    decreases |ops|
  {
    hide Flow.Sound, Can, Delivered, ReadingAt;
    if ops == [] {
      assert raw + [] == raw;
    } else {
      NeverBack(Apply(f, ops[0]), ops[1..]);
      StillReading(f, ops[0], f.handed, raw);
      assert f.handed + [] == f.handed;
      StaysClearIn(Apply(f, ops[0]), ops[1..], raw + Delivered(f, ops[0]));
      assert raw + Raw(f, ops) == (raw + Delivered(f, ops[0])) + Raw(Apply(f, ops[0]), ops[1..]);
    }
  }

  /** A switch is for good. */
  lemma {:induction false} NeverBack(f: Flow, ops: seq<Op>)
    requires f.Sound() && CanAll(f, ops)
    ensures Run(f, ops).decrypt.None? ==> f.decrypt.None?
    ensures Run(f, ops).encrypt.None? ==> f.encrypt.None?
    decreases |ops|
  {
    hide Flow.Sound, Can;
    if ops != [] { NeverBack(Apply(f, ops[0]), ops[1..]); }
  }

  lemma SwitchedOutStep(f: Flow, op: Op, sent: Bytes, k: nat, e: BlockFunction, iv: Bytes)
    requires f.Sound() && Can(f, op) && SwitchedOut(f, sent, k, e, iv)
    ensures SwitchedOut(Apply(f, op), sent + Sent([op]), k, e, iv)
  {
    assert [op][1..] == [] && Sent([]) == [];
    hide Permits, Transformed, Fed, Shifted;
    if op.Writing? {
      FollowsOn(sent, f.written, k, e, iv, false, op.plain);
      hide Follows;
      assert Sent([op]) == op.plain;
    } else {
      assert sent + Sent([op]) == sent;
      hide Follows;
    }
  }

  lemma SentFirst(ops: seq<Op>, sent: Bytes)
    requires ops != []
    ensures sent + Sent(ops) == (sent + Sent([ops[0]])) + Sent(ops[1..])
  {
    assert [ops[0]][1..] == [] && Sent([]) == [];
  }

  lemma {:induction false} StaysSwitchedOut(f: Flow, ops: seq<Op>, sent: Bytes, k: nat, e: BlockFunction, iv: Bytes)
    requires f.Sound() && CanAll(f, ops) && SwitchedOut(f, sent, k, e, iv)
    ensures SwitchedOut(Run(f, ops), sent + Sent(ops), k, e, iv)
    decreases |ops|
  {
    hide Flow.Sound, Apply, Can, SwitchedOut;
    if ops == [] {
      assert sent + Sent(ops) == sent;
    } else {
      SwitchedOutStep(f, ops[0], sent, k, e, iv);
      SentFirst(ops, sent);
      StaysSwitchedOut(Apply(f, ops[0]), ops[1..], sent + Sent([ops[0]]), k, e, iv);
    }
  }

  lemma ClearOutStep(f: Flow, op: Op)
    requires f.Sound() && Can(f, op) && f.encrypt.None? && Apply(f, op).encrypt.None?
    ensures Apply(f, op).written == f.written + Sent([op])
  {
    assert [op][1..] == [] && Sent([]) == [];
  }

  lemma {:induction false} StaysClearOut(f: Flow, ops: seq<Op>)
    requires f.Sound() && CanAll(f, ops) && f.encrypt.None? && Run(f, ops).encrypt.None?
    ensures Run(f, ops).written == f.written + Sent(ops)
    decreases |ops|
  {
    hide Flow.Sound, Can, Apply;
    if ops == [] {
      assert f.written + Sent(ops) == f.written;
    } else {
      NeverBack(Apply(f, ops[0]), ops[1..]);
      ClearOutStep(f, ops[0]);
      StaysClearOut(Apply(f, ops[0]), ops[1..]);
      SentFirst(ops, f.written);
    }
  }

  // ---- any run ----------------------------------------------------------------------------------

  /** A run around one of its operations. */
  lemma Around(f: Flow, before: seq<Op>, op: Op, after: seq<Op>)
    requires f.Sound() && CanAll(f, before + ([op] + after))
    ensures CanAll(f, before) && Can(Run(f, before), op) && CanAll(Apply(Run(f, before), op), after)
    ensures Run(f, before + ([op] + after)) == Run(Apply(Run(f, before), op), after)
    ensures Raw(f, before + ([op] + after)) == Raw(f, before) + (Delivered(Run(f, before), op) + Raw(Apply(Run(f, before), op), after))
    ensures Sent(before + ([op] + after)) == Sent(before) + ((if op.Writing? then op.plain else []) + Sent(after))
  {
    Then(f, before, [op] + after);
    SentAppend(before, [op] + after);
    assert ([op] + after)[1..] == after && ([op] + after)[0] == op;
    hide Apply, Can, Delivered, Flow.Sound;
  }

  /** Without a switch, what is handed out is what was delivered, in order, with nothing lost on the way. */
  lemma ReadsInClear(ops: seq<Op>)
    requires CanAll(Start(), ops) && Run(Start(), ops).decrypt.None?
    ensures
      var f := Run(Start(), ops);
      Raw(Start(), ops) == f.handed + (f.inHand + f.buffered)
  {
    StaysClearIn(Start(), ops, []);
    assert [] + Raw(Start(), ops) == Raw(Start(), ops);
    hide Run, Raw;
  }

  /**
   In any run, with the inbound switch anywhere in it: what is handed out is what was
   delivered, in the clear up to the k bytes handed out by the switch, decrypted after
   them. A switch between reads comes when everything delivered has been handed out.
   */
  lemma ReadsThrough(before: seq<Op>, switch: Op, after: seq<Op>)
    requires CanAll(Start(), before + ([switch] + after))
    requires CanAll(Start(), before) && Run(Start(), before).decrypt.None? && Can(Run(Start(), before), switch)
    requires Apply(Run(Start(), before), switch).decrypt.Some?
    ensures
      var at := Run(Start(), before);
      var key := Apply(at, switch).decrypt.value;
      var end := Run(Start(), before + ([switch] + after));
      var raw := Raw(Start(), before + ([switch] + after));
      var k, n := |at.handed|, |end.handed|;
      && k <= n <= |raw| && Permits(key.block, |key.register|)
      && end.handed == raw[..k] + Decrypted(key.block, key.register, raw[k..n])
      && raw[n..] == end.inHand + end.buffered
      && (at.inHand == [] ==> Raw(Start(), before) == at.handed)
  {
    hide Run, Raw, CanAll, Apply, Can, Permits, Decrypted, SwitchedIn, Delivered, Sent;
    Around(Start(), before, switch, after);
    ReadsInClear(before);
    var at := Run(Start(), before);
    var g := Apply(at, switch);
    var raw := Raw(Start(), before);
    SwitchesIn(at, switch, raw);
    var seen := StaysSwitchedIn(g, after, at.handed, raw, |at.handed|, g.decrypt.value.block, g.decrypt.value.register);
    assert raw + ([] + Raw(g, after)) == raw + Raw(g, after);
    SwitchedInMeans(Run(g, after), seen, raw + Raw(g, after), |at.handed|, g.decrypt.value.block, g.decrypt.value.register);
  }

  lemma SwitchedInMeans(f: Flow, seen: Bytes, raw: Bytes, k: nat, e: BlockFunction, iv: Bytes)
    requires SwitchedIn(f, seen, raw, k, e, iv)
    ensures
      var n := |f.handed|;
      && k <= n <= |raw| && f.handed == raw[..k] + Decrypted(e, iv, raw[k..n])
      && raw[n..] == f.inHand + f.buffered
  {
    hide Permits, Decrypted;
    assert raw[..|seen|] == seen && seen[k..] == raw[k..|seen|] && seen[..k] == raw[..k];
  }

  /** Every run whose reading side ends up switched was switched by one of its operations. */
  lemma {:induction false} SwitchedSomewhere(f: Flow, ops: seq<Op>) returns (i: nat)
    requires f.Sound() && CanAll(f, ops) && f.decrypt.None? && Run(f, ops).decrypt.Some?
    ensures i < |ops| && ops == ops[..i] + ([ops[i]] + ops[i + 1..])
    ensures CanAll(f, ops[..i]) && Run(f, ops[..i]).decrypt.None? && Can(Run(f, ops[..i]), ops[i])
    ensures Apply(Run(f, ops[..i]), ops[i]).decrypt.Some?
    decreases |ops|
  {
    hide Flow.Sound, Can, Apply;
    var g := Apply(f, ops[0]);
    if g.decrypt.Some? {
      return 0;
    }
    i := SwitchedSomewhere(g, ops[1..]);
    assert ops[1..][..i] == ops[..i + 1][1..] && ops[1..][i] == ops[i + 1];
    i := i + 1;
  }

  /** The switch itself: nothing has been decrypted yet. */
  lemma SwitchesIn(f: Flow, op: Op, raw: Bytes)
    requires f.Sound() && Can(f, op) && f.decrypt.None? && Apply(f, op).decrypt.Some? && raw == f.handed + (f.inHand + f.buffered)
    ensures
      var key := Apply(f, op).decrypt.value;
      && SwitchedIn(Apply(f, op), f.handed, raw, |f.handed|, key.block, key.register)
      && Delivered(f, op) == [] && (f.inHand == [] ==> f.buffered == [])
  {
    assert Shifted(Apply(f, op).decrypt.value.register, []) == Apply(f, op).decrypt.value.register;
  }

  /** In any run without an outbound switch, the transport is given what the pumps sent. */
  lemma WritesInClear(ops: seq<Op>)
    requires CanAll(Start(), ops) && Run(Start(), ops).encrypt.None?
    ensures Run(Start(), ops).written == Sent(ops)
  {
    StaysClearOut(Start(), ops);
    hide Run, Sent;
    assert [] + Sent(ops) == Sent(ops);
  }

  /** With one: in the clear up to the bytes written by the switch, encrypted after them. */
  lemma WritesThrough(before: seq<Op>, switch: Op, after: seq<Op>)
    requires CanAll(Start(), before + ([switch] + after))
    requires CanAll(Start(), before) && Run(Start(), before).encrypt.None? && Can(Run(Start(), before), switch)
    requires Apply(Run(Start(), before), switch).encrypt.Some?
    ensures
      var at := Run(Start(), before);
      var key := Apply(at, switch).encrypt.value;
      var sent := Sent(before + ([switch] + after));
      var j := |at.written|;
      && j <= |sent| && Permits(key.block, |key.register|)
      && Run(Start(), before + ([switch] + after)).written == sent[..j] + Encrypted(key.block, key.register, sent[j..])
  {
    hide Run, CanAll, Apply, Can, Permits, Encrypted, Sent;
    Around(Start(), before, switch, after);
    WritesInClear(before);
    var at := Run(Start(), before);
    var g := Apply(at, switch);
    SwitchesOut(at, switch);
    StaysSwitchedOut(g, after, at.written, |at.written|, g.encrypt.value.block, g.encrypt.value.register);
    assert at.written + ([] + Sent(after)) == at.written + Sent(after);
  }

  lemma SwitchesOut(f: Flow, op: Op)
    requires f.Sound() && Can(f, op) && f.encrypt.None? && Apply(f, op).encrypt.Some?
    ensures
      var key := Apply(f, op).encrypt.value;
      SwitchedOut(Apply(f, op), f.written, |f.written|, key.block, key.register) && !op.Writing?
  {
    assert Shifted(Apply(f, op).encrypt.value.register, []) == Apply(f, op).encrypt.value.register;
  }

  // ---- two conduits -------------------------------------------------------------------------------

  /**
   A sender's run and a receiver's run that switched at the same byte on the same key: whatever
   of the sender's bytes has been delivered and handed out by now, is what was sent.
   */
  lemma EndToEnd(before: seq<Op>, switch: Op, after: seq<Op>, before': seq<Op>, switch': Op, after': seq<Op>)
    requires CanAll(Start(), before + ([switch] + after)) && CanAll(Start(), before' + ([switch'] + after'))
    requires CanAll(Start(), before) && Run(Start(), before).encrypt.None? && Can(Run(Start(), before), switch)
    requires CanAll(Start(), before') && Run(Start(), before').decrypt.None? && Can(Run(Start(), before'), switch')
    requires Apply(Run(Start(), before), switch).encrypt.Some?
    requires Apply(Run(Start(), before), switch).encrypt == Apply(Run(Start(), before'), switch').decrypt
    requires |Run(Start(), before).written| == |Run(Start(), before').handed|
    requires Raw(Start(), before' + ([switch'] + after')) <= Run(Start(), before + ([switch] + after)).written
    ensures Run(Start(), before' + ([switch'] + after')).handed <= Sent(before + ([switch] + after))
  {
    WritesThrough(before, switch, after);
    ReadsThrough(before', switch', after');
    var key := Apply(Run(Start(), before), switch).encrypt.value;
    var sent, wire := Sent(before + ([switch] + after)), Run(Start(), before + ([switch] + after)).written;
    var end := Run(Start(), before' + ([switch'] + after'));
    var raw := Raw(Start(), before' + ([switch'] + after'));
    hide Run, Raw, CanAll, Apply, Can, Sent, Permits, Encrypted, Decrypted, Start;
    Delivers(sent, wire, raw, end.handed, |Run(Start(), before).written|, key.block, key.register);
  }

  lemma Delivers(sent: Bytes, wire: Bytes, raw: Bytes, handed: Bytes, k: nat, e: BlockFunction, iv: Bytes)
    requires Permits(e, |iv|) && k <= |sent| && k <= |handed| <= |raw| && raw <= wire
    requires wire == sent[..k] + Encrypted(e, iv, sent[k..]) && handed == raw[..k] + Decrypted(e, iv, raw[k..|handed|])
    ensures handed <= sent
  {
    hide Encrypted, Decrypted, Permits;
    var n := |handed| - k;
    var plain := sent[k..];
    assert raw[k..|handed|] == Encrypted(e, iv, plain)[..n] && raw[..k] == sent[..k];
    PrefixEncrypted(e, iv, plain, n);
    DecryptsEncrypted(e, iv, plain[..n]);
    assert handed == sent[..k] + plain[..n];
  }

  lemma PrefixEncrypted(e: BlockFunction, iv: Bytes, plain: Bytes, n: nat)
    requires Permits(e, |iv|) && n <= |plain|
    ensures Encrypted(e, iv, plain)[..n] == Encrypted(e, iv, plain[..n])
  {
    assert plain == plain[..n] + plain[n..];
    Chunked(e, iv, plain[..n], plain[n..], false);
    hide Encrypted, Shifted, Fed;
  }
}
