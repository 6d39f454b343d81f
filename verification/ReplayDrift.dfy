/**
 What a replay through a session says about the capture (replay/player.go): its
 divergences are exactly the places where the codec, having replayed everything before,
 was not where the capture says; and a session's own recording gives none, but for
 frames the replay was not shown.
 */
module ReplayDrift {
  import opened Wrappers
  import opened Bytes
  import opened CaptureFormat
  import opened Replay

  // ---- one record at a time -----------------------------------------------------------------

  /** Where playing the first i records leaves the session, as the next record finds it. */
  function Reached(codec: Codec, p: Place, rs: seq<Record>, i: nat): Session
    requires i < |rs|
  {
    Primed(PlayAll(codec, None, p, rs[..i]).place, rs[i]).session
  }

  /** An inbound packet record that names another state than the codec reached. */
  predicate Disagrees(codec: Codec, p: Place, rs: seq<Record>, i: nat)
    requires i < |rs|
  {
    && rs[i].kind == PacketKind && rs[i].direction == Reached(codec, p, rs, i).inbound
    && rs[i].state != [] && rs[i].state != Reached(codec, p, rs, i).state
  }

  /** The disagreements among the first n records, in order. */
  function Disagreements(codec: Codec, p: Place, rs: seq<Record>, n: nat): seq<Divergence>
    requires n <= |rs|
  {
    if n == 0 then []
    else Disagreements(codec, p, rs, n - 1)
         + if Disagrees(codec, p, rs, n - 1)
           then [Divergence(rs[n - 1].sequence, rs[n - 1].state, Reached(codec, p, rs, n - 1).state)] else []
  }

  lemma {:induction false} PlaysOn(codec: Codec, peer: Option<Byte>, p: Place, a: seq<Record>, b: seq<Record>)
    ensures
      var first := PlayAll(codec, peer, p, a);
      && (PlayAll(codec, peer, p, a + b).error.None? ==> first.error.None?)
      && (first.error.None? ==>
            && PlayAll(codec, peer, p, a + b).place == PlayAll(codec, peer, first.place, b).place
            && PlayAll(codec, peer, p, a + b).error == PlayAll(codec, peer, first.place, b).error)
    decreases |a|
  {
    hide Applied, Record.Replayable;
    if a == [] {
      assert a + b == b;
    } else {
      assert (a + b)[0] == a[0] && (a + b)[1..] == a[1..] + b;
      PlaysOn(codec, peer, if a[0].Replayable() then Applied(codec, peer, p, a[0]).0 else p, a[1..], b);
    }
  }

  /** One record on a place the replay has reached. */
  lemma OneRecord(codec: Codec, p: Place, r: Record)
    requires PlayAll(codec, None, p, [r]).error.None?
    ensures
      var q := PlayAll(codec, None, p, [r]).place;
      var at := Primed(p, r).session;
      && q.diverged == p.diverged
         + (if r.kind == PacketKind && r.direction == at.inbound && r.state != [] && r.state != at.state
            then [Divergence(r.sequence, r.state, at.state)] else [])
  {
    assert [r][1..] == [];
    assert p.diverged + [] == p.diverged;
  }

  /** The divergences a replay notes are exactly the disagreements, in order. */
  lemma {:induction false} DivergesExactly(codec: Codec, p: Place, rs: seq<Record>, n: nat)
    requires n <= |rs| && PlayAll(codec, None, p, rs).error.None?
    ensures PlayAll(codec, None, p, rs[..n]).error.None?
    ensures PlayAll(codec, None, p, rs[..n]).place.diverged == p.diverged + Disagreements(codec, p, rs, n)
  {
    hide Applied, Record.Replayable;
    assert rs == rs[..n] + rs[n..];
    PlaysOn(codec, None, p, rs[..n], rs[n..]);
    if n == 0 {
      assert p.diverged + [] == p.diverged;
    } else {
      DivergesExactly(codec, p, rs, n - 1);
      assert rs[..n] == rs[..n - 1] + [rs[n - 1]];
      PlaysOn(codec, None, p, rs[..n - 1], [rs[n - 1]]);
      hide PlayAll, Disagrees, Primed;
      OneMore(codec, p, rs, n);
    }
  }

  lemma OneMore(codec: Codec, p: Place, rs: seq<Record>, n: nat)
    requires 0 < n <= |rs| && PlayAll(codec, None, p, rs[..n - 1]).error.None?
    requires PlayAll(codec, None, PlayAll(codec, None, p, rs[..n - 1]).place, [rs[n - 1]]).error.None?
    requires PlayAll(codec, None, p, rs[..n - 1]).place.diverged == p.diverged + Disagreements(codec, p, rs, n - 1)
    ensures PlayAll(codec, None, PlayAll(codec, None, p, rs[..n - 1]).place, [rs[n - 1]]).place.diverged
         == p.diverged + Disagreements(codec, p, rs, n)
  {
    hide PlayAll;
    OneRecord(codec, PlayAll(codec, None, p, rs[..n - 1]).place, rs[n - 1]);
  }

  // ---- a session's own recording --------------------------------------------------------------

  /** A frame that came in, or a packet that went out with its frame; `first` and `second` number its two records. */
  datatype Event =
    | Came(frame: Data, redacted: bool, first: Uint64, second: Uint64)
    | Went(direction: Byte, sent: Data, packet: Data, first: Uint64, second: Uint64)

  /** Where a packet's own transition takes a session; none if there is something wrong with it. */
  function Moved(codec: Codec, s: Session, packet: Data): Option<Session> {
    match codec.propose(s, packet)
    case ProposalFails => None
    case NothingProposed => Some(s)
    case Proposed(t) => if codec.validate(s, t) then Some(codec.apply(s, t)) else None
  }

  /** The session after an event that it and its stream accept. */
  function After(codec: Codec, s: Session, e: Event): Option<Session> {
    match e
    case Went(_, _, packet, _, _) => Moved(codec, s, packet)
    case Came(frame, _, _, _) =>
      var payload := codec.readFrame(frame);
      if payload.None? then None
      else
        var packet := codec.decode(s, payload.value);
        if packet.None? then None else Moved(codec, s, packet.value)
  }

  function Raw(e: Event, s: Session): Record {
    match e
    case Came(frame, redacted, first, _) =>
      Record(RawFrameKind, first, 0, 0, s.inbound, s.state, s.state, 0, [], redacted, 0, if redacted then [] else frame, [], [])
    case Went(direction, sent, _, first, _) =>
      Record(RawFrameKind, first, 0, 0, direction, s.state, s.state, 0, [], false, 0, sent, [], [])
  }

  /** Stamped after the transition. */
  function Body(e: Event, s: Session, t: Session): Record {
    match e
    case Came(_, redacted, _, second) =>
      Record(PacketKind, second, 0, 0, s.inbound, s.state, t.state, 0, [], redacted, 0, [], [], [])
    case Went(direction, _, packet, _, second) =>
      Record(PacketKind, second, 0, 0, direction, s.state, t.state, 0, [], false, 0, packet, [], [])
  }

  /** The records a stream makes of a session's events. */
  function Recording(codec: Codec, s: Session, es: seq<Event>): seq<Record>
    decreases |es|
  {
    if es == [] || After(codec, s, es[0]).None? then []
    else
      var t := After(codec, s, es[0]).value;
      [Raw(es[0], s), Body(es[0], s, t)] + Recording(codec, t, es[1..])
  }

  /** The replay is shown the frame, and it is for the session to decode. */
  predicate Shown(e: Event) {
    e.Came? && !e.redacted
  }

  /** What the replay is not shown moves the state and nothing else; and states have names. */
  predicate Plain(codec: Codec, s: Session, es: seq<Event>)
    decreases |es|
  {
    && s.state != []
    && (es == []
        || (&& After(codec, s, es[0]).Some?
            && var t := After(codec, s, es[0]).value;
               && (es[0].Went? ==> es[0].direction != s.inbound)
               && (!Shown(es[0]) ==> t == s.(state := t.state))
               && Plain(codec, t, es[1..])))
  }

  /** The redacted inbound frames that moved the state. */
  function Unshown(codec: Codec, s: Session, es: seq<Event>): seq<Divergence>
    decreases |es|
  {
    if es == [] || After(codec, s, es[0]).None? then []
    else
      var t := After(codec, s, es[0]).value;
      (if es[0].Came? && es[0].redacted && t.state != s.state then [Divergence(es[0].second, t.state, s.state)] else [])
      + Unshown(codec, t, es[1..])
  }

  /** The replay is where the session was; before its first record, it will be. */
  predicate Abreast(p: Place, s: Session) {
    if p.primed then p.session == s else p.session.(state := s.state) == s
  }

  /** One event's two records bring the replay to where the session went. */
  lemma OneEvent(codec: Codec, p: Place, s: Session, e: Event)
    requires Plain(codec, s, [e]) && Abreast(p, s)
    ensures
      var t := After(codec, s, e).value;
      var played := PlayAll(codec, None, p, [Raw(e, s), Body(e, s, t)]);
      && played.error.None? && Abreast(played.place, t)
      && played.place.diverged == p.diverged
         + (if e.Came? && e.redacted && t.state != s.state then [Divergence(e.second, t.state, s.state)] else [])
  {
    var t := After(codec, s, e).value;
    assert [e][1..] == [];
    assert Plain(codec, t, []);
    var raw, body := Raw(e, s), Body(e, s, t);
    RawPlayed(codec, p, s, e);
    var q := Applied(codec, None, p, raw).0;
    BodyPlayed(codec, q, s, e);
    TwoPlayed(codec, p, q, Applied(codec, None, q, body).0, raw, body);
    hide Applied, After, PlayAll;
  }

  lemma TwoPlayed(codec: Codec, p: Place, q: Place, r: Place, first: Record, second: Record)
    requires first.Replayable() && Applied(codec, None, p, first) == (q, None)
    requires second.Replayable() && Applied(codec, None, q, second) == (r, None)
    ensures PlayAll(codec, None, p, [first, second]) == Played([first, second], r, None)
  {
    hide Applied, Record.Replayable;
    var rs, last, none := [first, second], [second], [];
    assert rs[1..] == last && last[1..] == none;
    assert PlayAll(codec, None, r, none) == Played([], r, None);
    assert PlayAll(codec, None, q, last) == Played([second], r, None);
  }

  lemma RawPlayed(codec: Codec, p: Place, s: Session, e: Event)
    requires Plain(codec, s, [e]) && Abreast(p, s)
    ensures
      var (q, error) := Applied(codec, None, p, Raw(e, s));
      && error.None? && q.primed && q.diverged == p.diverged
      && q.session == if Shown(e) then After(codec, s, e).value else s
  {
    assert Primed(p, Raw(e, s)).session == s;
  }

  lemma BodyPlayed(codec: Codec, q: Place, s: Session, e: Event)
    requires Plain(codec, s, [e]) && q.primed && Plain(codec, After(codec, s, e).value, [])
    requires q.session == if Shown(e) then After(codec, s, e).value else s
    ensures
      var t := After(codec, s, e).value;
      var (r, error) := Applied(codec, None, q, Body(e, s, t));
      && error.None? && r.primed && r.session == t
      && r.diverged == q.diverged
         + (if e.Came? && e.redacted && t.state != s.state then [Divergence(e.second, t.state, s.state)] else [])
  {
    hide After;
    assert q.diverged + [] == q.diverged;
  }

  /**
   A recording replayed by the codec that made it: the replay succeeds, ends where the session
   ended, and diverges exactly at the redacted frames that moved the state.
   */
  lemma {:induction false} ReplaysOwnRecording(codec: Codec, p: Place, s: Session, es: seq<Event>)
    requires Plain(codec, s, es) && Abreast(p, s)
    ensures
      var played := PlayAll(codec, None, p, Recording(codec, s, es));
      && played.error.None?
      && played.place.diverged == p.diverged + Unshown(codec, s, es)
    decreases |es|
  {
    hide Applied, Raw, Body, Abreast, After, PlayAll;
    if es == [] {
      NothingPlayed(codec, p, s);
      assert p.diverged + [] == p.diverged;
    } else {
      var t := After(codec, s, es[0]).value;
      PlainFirst(codec, s, es);
      OneEvent(codec, p, s, es[0]);
      var two := [Raw(es[0], s), Body(es[0], s, t)];
      var q := PlayAll(codec, None, p, two).place;
      ReplaysOwnRecording(codec, q, t, es[1..]);
      PlaysOn(codec, None, p, two, Recording(codec, t, es[1..]));
    }
  }

  lemma NothingPlayed(codec: Codec, p: Place, s: Session)
    ensures PlayAll(codec, None, p, Recording(codec, s, [])) == Played([], p, None) && Unshown(codec, s, []) == []
  {
  }

  lemma PlainFirst(codec: Codec, s: Session, es: seq<Event>)
    requires es != [] && Plain(codec, s, es)
    ensures Plain(codec, s, [es[0]]) && Plain(codec, After(codec, s, es[0]).value, es[1..])
  {
    hide After;
    assert [es[0]][1..] == [];
    var t := After(codec, s, es[0]).value;
    StateNamed(codec, t, es[1..]);
    assert Plain(codec, t, []);
  }

  lemma StateNamed(codec: Codec, t: Session, es: seq<Event>)
    requires Plain(codec, t, es)
    ensures t.state != []
  {
  }

  /** No divergence, exactly when no redacted frame moved the state. */
  lemma OwnRecordingAgrees(codec: Codec, s: Session, es: seq<Event>, begun: Session)
    requires Plain(codec, s, es) && begun.(state := s.state) == s
    ensures
      var played := PlayAll(codec, None, Place(begun, false, [], []), Recording(codec, s, es));
      played.error.None? && (played.place.diverged == [] <==> Unshown(codec, s, es) == [])
  {
    ReplaysOwnRecording(codec, Place(begun, false, [], []), s, es);
    hide PlayAll, Recording, Unshown, Plain;
    assert [] + Unshown(codec, s, es) == Unshown(codec, s, es);
  }

  // ---- what the replay is not shown -----------------------------------------------------------------

  /** A codec with one setting, which any packet sent turns on, and without which nothing decodes. */
  function Switching(): Codec {
    Codec(d => Some(d),
          (s: Session, d) => if s.settings == [1] then Some(d) else None,
          (s: Session, d) => if d == [2] then Proposed(d) else NothingProposed,
          (s: Session, d) => true,
          (s: Session, d) => s.(settings := [1]))
  }

  /**
   The replay keeps up with an event exactly when it is shown the frame, or the event
   changed nothing but the state.
   */
  lemma KeepsUpExactly(codec: Codec, p: Place, s: Session, e: Event)
    requires s.state != [] && Abreast(p, s) && After(codec, s, e).Some? && (e.Went? ==> e.direction != s.inbound)
    requires After(codec, s, e).value.state != [] && After(codec, s, e).value.inbound == s.inbound
    ensures
      var t := After(codec, s, e).value;
      var played := PlayAll(codec, None, p, [Raw(e, s), Body(e, s, t)]);
      played.error.None? && (Abreast(played.place, t) <==> Shown(e) || t == s.(state := t.state))
  {
    var t := After(codec, s, e).value;
    if Shown(e) || t == s.(state := t.state) {
      OneEvent(codec, p, s, e);
    } else {
      var (q, _) := Applied(codec, None, p, Raw(e, s));
      var (r, _) := Applied(codec, None, q, Body(e, s, t));
      assert q.session == s && r.session == s.(state := t.state) && r.primed;
      TwoPlayed(codec, p, q, r, Raw(e, s), Body(e, s, t));
    }
  }

  /**
   A transition of a packet sent is not the state alone, and the replay follows nothing
   else of it: here what came in after it was decoded then and is not in the replay.
   */
  lemma SettingLost(codec: Codec, s: Session, es: seq<Event>)
    requires codec == Switching() && s == Session([5], [], 0)
    requires es == [Went(1, [], [2], 1, 2), Came([3], false, 3, 4)]
    ensures |Recording(codec, s, es)| == 4
    ensures PlayAll(codec, None, Place(s, false, [], []), Recording(codec, s, es)).error == Some(ReplayFailed)
  {
    var t := s.(settings := [1]);
    assert After(codec, s, es[0]) == Some(t) && After(codec, t, es[1]) == Some(t);
    assert es[1..] == [es[1]] && es[1..][1..] == [];
    var rs := [Raw(es[0], s), Body(es[0], s, t), Raw(es[1], t), Body(es[1], t, t)];
    assert Recording(codec, t, es[1..]) == [Raw(es[1], t), Body(es[1], t, t)] + Recording(codec, t, []);
    assert Recording(codec, s, es) == rs;
    var p := Place(s, true, [], []);
    assert rs[1..] == [rs[1], rs[2], rs[3]] && rs[1..][1..] == [rs[2], rs[3]];
    assert Applied(codec, None, Place(s, false, [], []), rs[0]) == (p, None);
    assert Applied(codec, None, p, rs[1]) == (p, None);
    assert Applied(codec, None, p, rs[2]).1 == Some(ReplayFailed);
    hide Applied;
    assert PlayAll(codec, None, p, [rs[2], rs[3]]).error == Some(ReplayFailed);
    assert PlayAll(codec, None, p, rs[1..]).error == Some(ReplayFailed);
  }
}
