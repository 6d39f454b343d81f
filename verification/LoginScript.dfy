/**
 The order a login goes in, as one script both drivers follow: whose turn each packet
 is, and under which setting it crosses. Neither driver knows the script; that they keep
 to it is proved in `LoginSafe`.
 */
module LoginScript {
  import opened Wrappers
  import opened Login

  datatype Kind =
    | Start | Request | Response | Compression | Success | Acknowledgement
    | Registry | Packs | PacksAnswer | Finish | FinishAnswer

  function KindOf(m: Message): Kind {
    match m
    case LoginStart => Start
    case EncryptionRequest(_) => Request
    case EncryptionResponse(_, _) => Response
    case SetCompression(_) => Compression
    case LoginSuccess => Success
    case LoginAcknowledged => Acknowledgement
    case Content => Registry
    case KnownPacks => Packs
    case KnownPacksAnswer => PacksAnswer
    case ConfigurationFinished => Finish
    case ConfigurationAnswer => FinishAnswer
  }

  datatype Stage =
    | Opens | Requests | Responds | Compresses | Succeeds | Acknowledges
    | Configures(rest: seq<Item>) | AnswersPacks(rest: seq<Item>) | Confirms | Over

  /** The packet that crosses at a stage. */
  function Head(stage: Stage): Kind
    requires stage != Over
  {
    match stage
    case Opens => Start
    case Requests => Request
    case Responds => Response
    case Compresses => Compression
    case Succeeds => Success
    case Acknowledges => Acknowledgement
    case Configures(rest) => if rest == [] then Finish else if rest[0] == PackList then Packs else Registry
    case AnswersPacks(_) => PacksAnswer
    case Confirms => FinishAnswer
  }

  /** Who sends it. */
  function Sender(stage: Stage): Party
    requires stage != Over
  {
    match stage
    case Opens => Client
    case Responds => Client
    case Acknowledges => Client
    case AnswersPacks(_) => Client
    case Confirms => Client
    case _ => Server
  }

  predicate SentBy(stage: Stage, p: Party) {
    stage != Over && Sender(stage) == p
  }

  function KeysDone(setup: Setup): Stage {
    if setup.threshold.Some? then Compresses else Succeeds
  }

  function Next(setup: Setup, stage: Stage): Stage {
    match stage
    case Opens => if setup.online then Requests else KeysDone(setup)
    case Requests => Responds
    case Responds => KeysDone(setup)
    case Compresses => Succeeds
    case Succeeds => if setup.continues then Acknowledges else Over
    case Acknowledges => Configures(setup.items)
    case Configures(rest) =>
      if rest == [] then Confirms
      else if rest[0] == PackList then AnswersPacks(rest[1..])
      else Configures(rest[1..])
    case AnswersPacks(rest) => Configures(rest)
    case Confirms => Over
    case Over => Over
  }

  function StageAt(setup: Setup, k: nat): Stage {
    if k == 0 then Opens else Next(setup, StageAt(setup, k - 1))
  }

  /** How many of the first k packets a party sends. */
  function Count(setup: Setup, k: nat, p: Party): nat {
    if k == 0 then 0
    else Count(setup, k - 1, p) + if SentBy(StageAt(setup, k - 1), p) then 1 else 0
  }

  function MovedBy(setup: Setup, setting: Setting, kind: Kind): Setting {
    match kind
    case Compression => setting.(threshold := setup.threshold)
    case Success => if setup.continues then setting else setting.(state := InPlay)
    case Acknowledgement => setting.(state := InConfiguration)
    case FinishAnswer => setting.(state := InPlay)
    case _ => setting
  }

  /** The setting the k-th packet crosses under. */
  function SettingAt(setup: Setup, k: nat): Setting {
    if k == 0 then Setting(InLogin, None)
    else
      var before := SettingAt(setup, k - 1);
      var stage := StageAt(setup, k - 1);
      if stage == Over then before else MovedBy(setup, before, Head(stage))
  }

  // ---- facts about the script -------------------------------------------------------------------

  lemma {:induction false} CountGrows(setup: Setup, i: nat, k: nat, p: Party)
    requires i <= k
    ensures Count(setup, i, p) <= Count(setup, k, p)
    decreases k
  {
    if i < k { CountGrows(setup, i, k - 1, p); }
  }

  /** A party's packet between two places is counted between them. */
  lemma CountsOwn(setup: Setup, i: nat, k: nat, p: Party)
    requires i < k && SentBy(StageAt(setup, i), p)
    ensures Count(setup, i, p) < Count(setup, k, p)
  {
    CountGrows(setup, i + 1, k, p);
  }

  lemma {:induction false} CountsAll(setup: Setup, k: nat)
    ensures Count(setup, k, Client) + Count(setup, k, Server) <= k
    ensures Count(setup, k, Client) + Count(setup, k, Server) == k ==> k == 0 || StageAt(setup, k - 1) != Over
  {
    if k > 0 { CountsAll(setup, k - 1); }
  }

  predicate Early(stage: Stage) {
    stage == Opens || stage == Requests || stage == Responds
  }

  lemma {:induction false} Openings(setup: Setup, k: nat)
    ensures StageAt(setup, 0) == Opens
    ensures setup.online ==>
      StageAt(setup, 1) == Requests && StageAt(setup, 2) == Responds && StageAt(setup, 3) == KeysDone(setup)
    ensures k >= (if setup.online then 3 else 1) ==> !Early(StageAt(setup, k))
    ensures Early(StageAt(setup, k)) ==>
      k == (if StageAt(setup, k) == Opens then 0 else if StageAt(setup, k) == Requests then 1 else 2)
    ensures Early(StageAt(setup, k)) && k > 0 ==> setup.online
  {
    assert StageAt(setup, 1) == Next(setup, StageAt(setup, 0));
    assert StageAt(setup, 2) == Next(setup, StageAt(setup, 1));
    assert StageAt(setup, 3) == Next(setup, StageAt(setup, 2));
    if k > 0 { Openings(setup, k - 1); }
  }

  lemma OpeningCounts(setup: Setup)
    ensures Count(setup, 1, Client) == 1 && Count(setup, 1, Server) == 0
    ensures setup.online ==> Count(setup, 2, Client) == 1 && Count(setup, 2, Server) == 1
    ensures setup.online ==> Count(setup, 3, Client) == 2 && Count(setup, 3, Server) == 1
  {
    Openings(setup, 0);
    assert Count(setup, 1, Client) == Count(setup, 0, Client) + 1;
    assert Count(setup, 1, Server) == Count(setup, 0, Server);
    if setup.online {
      assert Count(setup, 2, Client) == Count(setup, 1, Client);
      assert Count(setup, 2, Server) == Count(setup, 1, Server) + 1;
      assert Count(setup, 3, Client) == Count(setup, 2, Client) + 1;
      assert Count(setup, 3, Server) == Count(setup, 2, Server);
    }
  }

  /** Which state each stage is in, and whether the threshold has been set by then. */
  predicate Suits(setup: Setup, stage: Stage, setting: Setting) {
    match stage
    case Opens => setting == Setting(InLogin, None)
    case Requests => setting == Setting(InLogin, None)
    case Responds => setting == Setting(InLogin, None)
    case Compresses => setting == Setting(InLogin, None) && setup.threshold.Some?
    case Succeeds => setting == Setting(InLogin, setup.threshold)
    case Acknowledges => setting == Setting(InLogin, setup.threshold) && setup.continues
    case Configures(_) => setting == Setting(InConfiguration, setup.threshold) && setup.continues
    case AnswersPacks(_) => setting == Setting(InConfiguration, setup.threshold) && setup.continues
    case Confirms => setting == Setting(InConfiguration, setup.threshold) && setup.continues
    case Over => setting == Setting(InPlay, setup.threshold)
  }

  lemma {:induction false} SettingSuits(setup: Setup, k: nat)
    ensures Suits(setup, StageAt(setup, k), SettingAt(setup, k))
  {
    if k > 0 { SettingSuits(setup, k - 1); }
  }
}
