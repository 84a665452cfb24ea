/** The steps of verifying this device, in any order in which the user and the network can make them happen. */
module SasRun {
  import opened Basics
  import opened KeyList
  import opened Sas

  datatype Step = AtRequest | AtStart | AtKey | NeedMatchAndMac | NeedMatch | NeedMac | AtDone | AtEnd

  /** The local variables of the thread, what it has sent to which device, and what it has told the client.
      Where an assertion has failed it is down. */
  datatype State = State(step: Step, tx: Option<string>, device: Option<string>, ours: Option<nat>,
                         shared: Option<string>, peerMac: Option<Mac>,
                         sent: seq<(string, Message)>, told: seq<News>, down: bool)

  /** What is there in each step; the peer's MAC is kept exactly while the user has not said anything yet. */
  predicate Sound(s: State)
  {
    && (s.step != AtRequest ==> s.tx.Some? && s.device.Some?)
    && (!s.step.AtRequest? && !s.step.AtStart? ==> s.ours.Some?)
    && (!s.step.AtRequest? && !s.step.AtStart? && !s.step.AtKey? ==> s.shared.Some?)
    && (s.peerMac.Some? <==> s.step == NeedMatch)
  }

  const Initial: State := State(AtRequest, None, None, None, None, None, [], [], false)

  // ---------- what is taken ----------

  predicate TakesRequest(own: Own, e: Event)
    requires e.RequestIn?
  {
    && !own.verified && e.sender == own.user && "m.sas.v1" in e.methods
    && e.now - 600000.0 <= e.timestamp <= e.now + 300000.0
  }

  predicate TakesStart(own: Own, s: State, e: Event)
    requires e.StartIn?
  {
    e.sender == own.user && s.device == Some(e.from) && s.tx == Some(e.tx) && e.meth == "m.sas.v1" && Suits(e.offers)
  }

  // ---------- what is sent ----------

  function Commitment(own: Own, random: nat, canonical: string): string
  {
    own.olm.sha(own.olm.pubkey(random) + canonical)
  }

  function DeviceKey(own: Own): Key
  {
    Key("ed25519:" + own.device, own.identityKey)
  }

  function OurMac(own: Own, secret: string, to: string, tx: string, master: Key): Mac
  {
    Sealed(own.olm, secret, own.user, own.device, to, tx, DeviceKey(own), master)
  }

  function SasInfo(own: Own, device: string, theirs: string, ours: string, tx: string): string
  {
    "MATRIX_KEY_VERIFICATION_SAS|" + own.user + "|" + device + "|" + theirs + "|" + own.user + "|" + own.device + "|"
    + ours + "|" + tx
  }

  // ---------- one event ----------

  /** The peer's MAC is looked into, and the end told if it holds. */
  ghost function Judged(own: Own, s: State, mac: Mac, user: User): State
    requires s.shared.Some? && s.device.Some? && s.tx.Some?
  {
    if Proves(own, s.shared.value, s.device.value, s.tx.value, user, mac)
    then s.(sent := s.sent + [(s.device.value, Done(s.tx.value))], peerMac := None, step := AtDone)
    else s.(down := true)
  }

  ghost function Next(own: Own, s: State, e: Event): (r: State)
    requires Sound(s)
    ensures Sound(r)
  {
    if s.down then s else
    match e
    case RequestIn(_, _, _, _, tx, from) =>
      if s.step == AtRequest && TakesRequest(own, e)
      then s.(step := AtStart, tx := Some(tx), device := Some(from), sent := s.sent + [(from, Ready(tx))])
      else s
    case StartIn(_, from, tx, _, _, canonical, random) =>
      if s.step == AtStart && TakesStart(own, s, e)
      then s.(step := AtKey, ours := Some(random),
              sent := s.sent + [(from, Accept(tx, Commitment(own, random, canonical))),
                                (from, PubKey(tx, own.olm.pubkey(random)))])
      else s
    case KeyIn(sender, tx, key) =>
      if s.step == AtKey && sender == own.user && s.tx == Some(tx) then
        if !own.olm.goodKey(key) then s.(down := true)
        else
          var secret := own.olm.agree(s.ours.value, key);
          var info := SasInfo(own, s.device.value, key, own.olm.pubkey(s.ours.value), tx);
          s.(step := NeedMatchAndMac, shared := Some(secret),
             told := s.told + [SasEmoji(EmojiOf(own.olm.Bytes(secret, info)))])
      else s
    case Matches(user) =>
      if s.step == NeedMatchAndMac || s.step == NeedMatch then
        if |user.masterKeys| != 1 then s.(down := true)
        else
          var mac := OurMac(own, s.shared.value, s.device.value, s.tx.value, user.masterKeys[0]);
          var t := s.(sent := s.sent + [(s.device.value, MacIs(s.tx.value, mac))]);
          if s.step == NeedMatch then Judged(own, t, s.peerMac.value, user) else t.(step := NeedMac)
      else s
    case MacIn(sender, tx, mac, user) =>
      if (s.step == NeedMatchAndMac || s.step == NeedMac) && sender == own.user && s.tx == Some(tx) then
        if s.step == NeedMac then Judged(own, s, mac, user) else s.(peerMac := Some(mac), step := NeedMatch)
      else s
    case DoneIn(sender, tx) =>
      if s.step == AtDone && sender == own.user && s.tx == Some(tx)
      then s.(told := s.told + [SasComplete], step := AtEnd)
      else s
  }

  ghost function Run(own: Own, es: seq<Event>): (s: State)
    ensures Sound(s)
  {
    if es == [] then Initial else Next(own, Run(own, es[..|es| - 1]), es[|es| - 1])
  }

  // ---------- how a state came about ----------

  /** Which events of a run made it go on. */
  datatype Marks = Marks(request: int, start: int, key: int, match_: int, mac: int, done: int)

  ghost predicate Asked(own: Own, es: seq<Event>, s: State, m: Marks)
  {
    && 0 <= m.request < |es|
    && var e := es[m.request];
       e.RequestIn? && TakesRequest(own, e) && s.tx == Some(e.tx) && s.device == Some(e.from)
  }

  ghost predicate Started(own: Own, es: seq<Event>, s: State, m: Marks)
  {
    && Asked(own, es, s, m)
    && m.request < m.start < |es|
    && var e := es[m.start];
       e.StartIn? && TakesStart(own, s, e) && s.ours == Some(e.random)
  }

  ghost predicate Keyed(own: Own, es: seq<Event>, s: State, m: Marks)
  {
    && Started(own, es, s, m)
    && m.start < m.key < |es|
    && var e := es[m.key];
       && e.KeyIn? && e.sender == own.user && s.tx == Some(e.tx) && own.olm.goodKey(e.key)
       && s.shared == Some(own.olm.agree(s.ours.value, e.key))
  }

  ghost predicate Matched(own: Own, es: seq<Event>, s: State, m: Marks)
  {
    && Keyed(own, es, s, m)
    && m.key < m.match_ < |es|
    && es[m.match_].Matches? && |es[m.match_].user.masterKeys| == 1
  }

  ghost predicate Maced(own: Own, es: seq<Event>, s: State, m: Marks)
  {
    && Keyed(own, es, s, m)
    && m.key < m.mac < |es|
    && var e := es[m.mac];
       e.MacIn? && e.sender == own.user && s.tx == Some(e.tx)
  }

  /** The user has said that the emoji match, and the peer has proved its keys, whichever came first. */
  ghost predicate Proved(own: Own, es: seq<Event>, s: State, m: Marks)
  {
    && Matched(own, es, s, m) && Maced(own, es, s, m)
    && Proves(own, s.shared.value, s.device.value, s.tx.value, es[Later(m)].user, es[m.mac].mac)
  }

  function Later(m: Marks): int
  {
    if m.match_ < m.mac then m.mac else m.match_
  }

  ghost predicate Ended(own: Own, es: seq<Event>, s: State, m: Marks)
  {
    && Proved(own, es, s, m)
    && Later(m) < m.done < |es|
    && var e := es[m.done];
       e.DoneIn? && e.sender == own.user && s.tx == Some(e.tx)
  }

  function SentReady(s: State): seq<(string, Message)>
    requires s.tx.Some? && s.device.Some?
  {
    [(s.device.value, Ready(s.tx.value))]
  }

  ghost function SentKey(own: Own, es: seq<Event>, s: State, m: Marks): seq<(string, Message)>
    requires Started(own, es, s, m)
  {
    SentReady(s) +
    [(s.device.value, Accept(s.tx.value, Commitment(own, s.ours.value, es[m.start].canonical))),
     (s.device.value, PubKey(s.tx.value, own.olm.pubkey(s.ours.value)))]
  }

  ghost function SentMac(own: Own, es: seq<Event>, s: State, m: Marks): seq<(string, Message)>
    requires Matched(own, es, s, m)
  {
    SentKey(own, es, s, m) +
    [(s.device.value, MacIs(s.tx.value, OurMac(own, s.shared.value, s.device.value, s.tx.value,
                                               es[m.match_].user.masterKeys[0])))]
  }

  ghost function SentDone(own: Own, es: seq<Event>, s: State, m: Marks): seq<(string, Message)>
    requires Matched(own, es, s, m)
  {
    SentMac(own, es, s, m) + [(s.device.value, Done(s.tx.value))]
  }

  ghost function Shown(own: Own, es: seq<Event>, s: State, m: Marks): News
    requires Keyed(own, es, s, m)
  {
    SasEmoji(EmojiOf(own.olm.Bytes(s.shared.value,
      SasInfo(own, s.device.value, es[m.key].key, own.olm.pubkey(s.ours.value), s.tx.value))))
  }

  /** The whole of what has been sent and told in a step, and the events that it is owed to. */
  ghost predicate Story(own: Own, es: seq<Event>, s: State, m: Marks)
  {
    match s.step
    case AtRequest => s.sent == [] && s.told == []
    case AtStart => Asked(own, es, s, m) && s.sent == SentReady(s) && s.told == []
    case AtKey => Started(own, es, s, m) && s.sent == SentKey(own, es, s, m) && s.told == []
    case NeedMatchAndMac =>
      Keyed(own, es, s, m) && s.sent == SentKey(own, es, s, m) && s.told == [Shown(own, es, s, m)]
    case NeedMatch =>
      Maced(own, es, s, m) && s.sent == SentKey(own, es, s, m) && s.told == [Shown(own, es, s, m)] &&
      s.peerMac == Some(es[m.mac].mac)
    case NeedMac => Matched(own, es, s, m) && s.sent == SentMac(own, es, s, m) && s.told == [Shown(own, es, s, m)]
    case AtDone => Proved(own, es, s, m) && s.sent == SentDone(own, es, s, m) && s.told == [Shown(own, es, s, m)]
    case AtEnd =>
      Ended(own, es, s, m) && s.sent == SentDone(own, es, s, m) && s.told == [Shown(own, es, s, m), SasComplete]
  }

  function Moved(s: State, m: Marks, e: Event, n: nat): Marks
  {
    match s.step
    case AtRequest => m.(request := n)
    case AtStart => m.(start := n)
    case AtKey => m.(key := n)
    case NeedMatchAndMac => if e.Matches? then m.(match_ := n) else m.(mac := n)
    case NeedMatch => m.(match_ := n)
    case NeedMac => m.(mac := n)
    case AtDone => m.(done := n)
    case AtEnd => m
  }

  lemma AskedStays(own: Own, es: seq<Event>, s: State, e: Event, m: Marks)
    requires Asked(own, es, s, m)
    ensures Asked(own, es + [e], s, m)
  {
  }

  lemma StartedStays(own: Own, es: seq<Event>, s: State, e: Event, m: Marks)
    requires Started(own, es, s, m)
    ensures Started(own, es + [e], s, m) && SentKey(own, es + [e], s, m) == SentKey(own, es, s, m)
  {
    hide Asked, TakesStart, SentReady, Commitment;
    AskedStays(own, es, s, e, m);
    StartedAsks(own, es, s, m);
  }

  lemma StartedAsks(own: Own, es: seq<Event>, s: State, m: Marks)
    requires Started(own, es, s, m)
    ensures s.tx.Some? && s.device.Some?
  {
  }

  lemma KeyedStays(own: Own, es: seq<Event>, s: State, e: Event, m: Marks)
    requires Keyed(own, es, s, m)
    ensures Keyed(own, es + [e], s, m) && Started(own, es, s, m) && Shown(own, es + [e], s, m) == Shown(own, es, s, m)
  {
    hide SasInfo, EmojiOf, TakesStart, TakesRequest;
    StartedStays(own, es, s, e, m);
  }

  lemma MatchedStays(own: Own, es: seq<Event>, s: State, e: Event, m: Marks)
    requires Matched(own, es, s, m)
    ensures Matched(own, es + [e], s, m) && Keyed(own, es, s, m)
    ensures SentMac(own, es + [e], s, m) == SentMac(own, es, s, m)
  {
    hide OurMac, Shown, TakesStart, TakesRequest;
    KeyedStays(own, es, s, e, m);
    StartedStays(own, es, s, e, m);
  }

  lemma MacedStays(own: Own, es: seq<Event>, s: State, e: Event, m: Marks)
    requires Maced(own, es, s, m)
    ensures Maced(own, es + [e], s, m) && Keyed(own, es, s, m) && (es + [e])[m.mac] == es[m.mac]
  {
    hide Keyed;
    KeyedStays(own, es, s, e, m);
  }

  lemma ProvedStays(own: Own, es: seq<Event>, s: State, e: Event, m: Marks)
    requires Proved(own, es, s, m)
    ensures Proved(own, es + [e], s, m) && Matched(own, es, s, m)
    ensures SentDone(own, es + [e], s, m) == SentDone(own, es, s, m)
  {
    hide Proves, SentMac, TakesStart, TakesRequest;
    MatchedStays(own, es, s, e, m);
    MacedStays(own, es, s, e, m);
  }

  lemma EndedStays(own: Own, es: seq<Event>, s: State, e: Event, m: Marks)
    requires Ended(own, es, s, m)
    ensures Ended(own, es + [e], s, m) && Proved(own, es, s, m)
  {
    hide Proved;
    ProvedStays(own, es, s, e, m);
  }

  /** Another event takes nothing from a story. */
  lemma StoryStays(own: Own, es: seq<Event>, s: State, e: Event, m: Marks)
    requires Story(own, es, s, m)
    ensures Story(own, es + [e], s, m)
  {
    hide Asked, Started, Keyed, Matched, Maced, Proved, Ended, SentReady, SentKey, SentMac, SentDone, Shown;
    match s.step {
      case AtRequest =>
      case AtStart => AskedStays(own, es, s, e, m);
      case AtKey => StartedStays(own, es, s, e, m);
      case NeedMatchAndMac =>
        KeyedStays(own, es, s, e, m);
        StartedStays(own, es, s, e, m);
      case NeedMatch =>
        MacedStays(own, es, s, e, m);
        KeyedStays(own, es, s, e, m);
        StartedStays(own, es, s, e, m);
      case NeedMac =>
        MatchedStays(own, es, s, e, m);
        KeyedStays(own, es, s, e, m);
      case AtDone =>
        ProvedStays(own, es, s, e, m);
        MatchedStays(own, es, s, e, m);
        KeyedStays(own, es, s, e, m);
      case AtEnd =>
        EndedStays(own, es, s, e, m);
        ProvedStays(own, es, s, e, m);
        MatchedStays(own, es, s, e, m);
        KeyedStays(own, es, s, e, m);
    }
  }

  /** A story goes on with each event. */
  lemma StoryGoesOn(own: Own, es: seq<Event>, s: State, e: Event, m: Marks)
    requires Sound(s) && Story(own, es, s, m)
    ensures var t := Next(own, s, e);
            !t.down ==> Story(own, es + [e], t, if t == s then m else Moved(s, m, e, |es|))
  {
    hide *;
    var t := Next(own, s, e);
    StoryStays(own, es, s, e, m);
    if t != s && !t.down {
      match s.step {
        case AtRequest => Asks(own, es, s, e, m);
        case AtStart => Starts(own, es, s, e, m);
        case AtKey => Agrees(own, es, s, e, m);
        case NeedMatchAndMac => HearsEither(own, es, s, e, m);
        case NeedMatch => HearsMatch(own, es, s, e, m);
        case NeedMac => HearsMac(own, es, s, e, m);
        case AtDone => Ends(own, es, s, e, m);
        case AtEnd => Rests(own, s, e);
      }
    }
  }

  lemma Asks(own: Own, es: seq<Event>, s: State, e: Event, m: Marks)
    requires Sound(s) && Story(own, es + [e], s, m) && s.step == AtRequest && Next(own, s, e) != s
    requires !Next(own, s, e).down
    ensures Story(own, es + [e], Next(own, s, e), Moved(s, m, e, |es|))
  {
    hide Proves, OurMac, EmojiOf, SasInfo, Commitment, Shown, SentKey, SentMac, SentDone, Keyed, Matched, Maced,
         Proved, Ended;
  }

  lemma Starts(own: Own, es: seq<Event>, s: State, e: Event, m: Marks)
    requires Sound(s) && Story(own, es + [e], s, m) && s.step == AtStart && Next(own, s, e) != s
    requires !Next(own, s, e).down
    ensures Story(own, es + [e], Next(own, s, e), Moved(s, m, e, |es|))
  {
    hide Proves, OurMac, EmojiOf, SasInfo, TakesRequest, Shown, SentMac, SentDone, Keyed, Matched, Maced, Proved, Ended;
  }

  lemma Agrees(own: Own, es: seq<Event>, s: State, e: Event, m: Marks)
    requires Sound(s) && Story(own, es + [e], s, m) && s.step == AtKey && Next(own, s, e) != s && !Next(own, s, e).down
    ensures Story(own, es + [e], Next(own, s, e), Moved(s, m, e, |es|))
  {
    hide Proves, OurMac, EmojiOf, SasInfo, Commitment, TakesRequest, SentMac, SentDone, Matched, Maced, Proved, Ended;
  }

  lemma HearsEither(own: Own, es: seq<Event>, s: State, e: Event, m: Marks)
    requires Sound(s) && Story(own, es + [e], s, m) && s.step == NeedMatchAndMac && Next(own, s, e) != s
    requires !Next(own, s, e).down
    ensures Story(own, es + [e], Next(own, s, e), Moved(s, m, e, |es|))
  {
    hide Proves, OurMac, EmojiOf, SasInfo, Commitment, TakesRequest, SentDone, Proved, Ended;
  }

  lemma HearsMatch(own: Own, es: seq<Event>, s: State, e: Event, m: Marks)
    requires Sound(s) && Story(own, es + [e], s, m) && s.step == NeedMatch && Next(own, s, e) != s
    requires !Next(own, s, e).down
    ensures Story(own, es + [e], Next(own, s, e), Moved(s, m, e, |es|))
  {
    hide Proves, OurMac, EmojiOf, SasInfo, Commitment, TakesRequest, Ended;
  }

  lemma HearsMac(own: Own, es: seq<Event>, s: State, e: Event, m: Marks)
    requires Sound(s) && Story(own, es + [e], s, m) && s.step == NeedMac && Next(own, s, e) != s
    requires !Next(own, s, e).down
    ensures Story(own, es + [e], Next(own, s, e), Moved(s, m, e, |es|))
  {
    hide Proves, OurMac, EmojiOf, SasInfo, Commitment, TakesRequest, Ended;
  }

  lemma Ends(own: Own, es: seq<Event>, s: State, e: Event, m: Marks)
    requires Sound(s) && Story(own, es + [e], s, m) && s.step == AtDone && Next(own, s, e) != s && !Next(own, s, e).down
    ensures Story(own, es + [e], Next(own, s, e), Moved(s, m, e, |es|))
  {
    hide Proves, OurMac, EmojiOf, SasInfo, Commitment, TakesRequest;
  }

  lemma Rests(own: Own, s: State, e: Event)
    requires Sound(s) && s.step == AtEnd
    ensures Next(own, s, e) == s
  {
  }

  lemma {:induction false} EveryRunHasAStory(own: Own, es: seq<Event>) returns (m: Marks)
    requires !Run(own, es).down
    ensures Story(own, es, Run(own, es), m)
  {
    m := Marks(0, 0, 0, 0, 0, 0);
    if es != [] {
      var before, e := es[..|es| - 1], es[|es| - 1];
      assert es == before + [e];
      var s := Run(own, before);
      var w := EveryRunHasAStory(own, before);
      StoryGoesOn(own, before, s, e, w);
      m := if Next(own, s, e) == s then w else Moved(s, w, e, |before|);
    }
  }

  // ---------- what the client is told ----------

  lemma {:induction false} CompleteOnlyAtEnd(own: Own, es: seq<Event>)
    ensures SasComplete in Run(own, es).told ==> Run(own, es).step == AtEnd
    ensures Run(own, es).step == AtEnd ==> !Run(own, es).down
  {
    if es != [] {
      CompleteOnlyAtEnd(own, es[..|es| - 1]);
      NextComplete(own, Run(own, es[..|es| - 1]), es[|es| - 1]);
    }
  }

  lemma NextComplete(own: Own, s: State, e: Event)
    requires Sound(s) && (SasComplete in s.told ==> s.step == AtEnd) && (s.step == AtEnd ==> !s.down)
    ensures SasComplete in Next(own, s, e).told ==> Next(own, s, e).step == AtEnd
    ensures Next(own, s, e).step == AtEnd ==> !Next(own, s, e).down
  {
    hide EmojiOf, SasInfo, Proves, OurMac, Commitment, TakesRequest, TakesStart;
  }

  /** If the client has been told that it is done, it has been told once, after the emoji, and all of this has come
      before, under one transaction and with one device: a request; a start; a key; the user's word; the proof of one
      master key and one device key; and the peer's end. And all of this has been sent, and nothing else: that we are
      ready; what we accept; our key; our own proof; our end. */
  lemma CompletionIsEarned(own: Own, es: seq<Event>) returns (m: Marks)
    requires SasComplete in Run(own, es).told
    ensures var s := Run(own, es);
            Ended(own, es, s, m) && s.sent == SentDone(own, es, s, m) && s.told == [Shown(own, es, s, m), SasComplete]
  {
    CompleteOnlyAtEnd(own, es);
    m := EveryRunHasAStory(own, es);
  }

  // ---------- the user's word and the peer's proof, in either order ----------

  /** All events, from a state on. */
  ghost function From(own: Own, s: State, es: seq<Event>): (r: State)
    requires Sound(s)
    ensures Sound(r)
  {
    if es == [] then s else Next(own, From(own, s, es[..|es| - 1]), es[|es| - 1])
  }

  predicate ItsMac(own: Own, s: State, e: Event)
  {
    e.MacIn? && e.sender == own.user && s.tx == Some(e.tx)
  }

  /** Nothing here is what the state waits for. */
  ghost predicate Beside(own: Own, s: State, es: seq<Event>)
  {
    forall i {:trigger es[i]} :: 0 <= i < |es| ==>
      && (s.step != NeedMac ==> !es[i].Matches?)
      && (s.step != NeedMatch ==> !ItsMac(own, s, es[i]))
  }

  lemma {:induction false} BesideIsIgnored(own: Own, s: State, es: seq<Event>)
    requires Sound(s) && (s.step == NeedMatchAndMac || s.step == NeedMatch || s.step == NeedMac)
    requires s.down || Beside(own, s, es)
    ensures From(own, s, es) == s
  {
    if es != [] {
      var e := es[|es| - 1];
      assert Beside(own, s, es) ==> Beside(own, s, es[..|es| - 1]);
      BesideIsIgnored(own, s, es[..|es| - 1]);
      OneIgnored(own, s, e);
    }
  }

  lemma OneIgnored(own: Own, s: State, e: Event)
    requires Sound(s) && (s.step == NeedMatchAndMac || s.step == NeedMatch || s.step == NeedMac)
    requires s.down || ((s.step != NeedMac ==> !e.Matches?) && (s.step != NeedMatch ==> !ItsMac(own, s, e)))
    ensures Next(own, s, e) == s
  {
  }

  /** The same, as far as anyone outside can tell; and the same altogether, unless it is down. */
  predicate Alike(a: State, b: State)
  {
    a.sent == b.sent && a.told == b.told && a.down == b.down && (!a.down ==> a == b)
  }

  /** Whether the user speaks first or the peer's proof is there first, and whatever comes in between, the same is
      sent and told, and the same state reached. */
  lemma EitherOrder(own: Own, s: State, user: User, mac: Mac, early: User,
                    a: seq<Event>, b: seq<Event>, c: seq<Event>, d: seq<Event>)
    requires Sound(s) && s.step == NeedMatchAndMac && !s.down
    requires Beside(own, s, a) && Beside(own, s, c)
    requires Beside(own, s.(step := NeedMac), b) && Beside(own, s.(step := NeedMatch), d)
    ensures var spoken := Next(own, From(own, s, a), Matches(user));
            var stored := Next(own, From(own, s, c), MacIn(own.user, s.tx.value, mac, early));
            Alike(Next(own, From(own, spoken, b), MacIn(own.user, s.tx.value, mac, user)),
                  Next(own, From(own, stored, d), Matches(user)))
  {
    hide From, Proves, OurMac, EmojiOf;
    BesideIsIgnored(own, s, a);
    BesideIsIgnored(own, s, c);
    var spoken := Next(own, s, Matches(user));
    var stored := Next(own, s, MacIn(own.user, s.tx.value, mac, early));
    BesideMoves(own, s, spoken, b, NeedMac);
    BesideMoves(own, s, stored, d, NeedMatch);
    BesideIsIgnored(own, spoken, b);
    BesideIsIgnored(own, stored, d);
  }

  lemma BesideMoves(own: Own, s: State, t: State, es: seq<Event>, step: Step)
    requires Beside(own, s.(step := step), es) && s.tx == t.tx && (t.step == step || t.down)
    ensures t.down || Beside(own, t, es)
  {
  }

  // ---------- two devices that do this ----------

  /** What one device sends as its proof, another of the same user takes, if its key list has the same master key and
      the key of that device. */
  lemma ProofsMeet(own: Own, peer: Own, secret: string, tx: string, user: User, master: Key, ks: seq<Key>)
    requires peer.user == own.user && peer.olm == own.olm
    requires Known(user, peer.device, master, ks) && KeyOf(ks, DeviceKey(peer).id) == Some(DeviceKey(peer))
    requires DeviceKey(peer).id != master.id
    ensures Proves(own, secret, peer.device, tx, user, OurMac(peer, secret, own.device, tx, master))
  {
    var k := DeviceKey(peer);
    assert Known(user, peer.device, master, ks) && KeyOf(ks, k.id) == Some(k);
  }

  // ---------- the device that started, from its side ----------

  /** The parts, with a bar between each two. */
  function Bars(parts: seq<string>): string
  {
    if parts == [] then "" else if |parts| == 1 then parts[0] else parts[0] + "|" + Bars(parts[1..])
  }

  /** What the device that started makes its emoji from (Matrix Client-Server API, "HKDF calculation" of the SAS
      method): its own user, device and the key it sent, then the other's, with the key it got. */
  function StarterInfo(me: Own, mine: string, user: string, device: string, got: string, tx: string): string
  {
    Bars(["MATRIX_KEY_VERIFICATION_SAS", me.user, me.device, mine, user, device, got, tx])
  }

  /** The emoji it shows: `random` is what its key is made from. */
  function StarterEmoji(me: Own, random: nat, user: string, device: string, got: string, tx: string): seq<nat>
  {
    EmojiOf(me.olm.Bytes(me.olm.agree(random, got), StarterInfo(me, me.olm.pubkey(random), user, device, got, tx)))
  }

  /** Two devices agree on a secret. */
  ghost predicate Agree(olm: Olm)
  {
    forall a, b :: olm.agree(a, olm.pubkey(b)) == olm.agree(b, olm.pubkey(a))
  }

  lemma BarsMore(a: string, parts: seq<string>)
    requires parts != []
    ensures Bars([a] + parts) == a + "|" + Bars(parts)
  {
    assert ([a] + parts)[1..] == parts;
  }

  lemma Glue(a: string, b: string, c: string)
    ensures (a + b) + c == a + (b + c)
  {
  }

  /** Seven parts after a first one, put together from the left. */
  lemma BarsOfEight(m: string, a: string, b: string, c: string, d: string, e: string, f: string, g: string)
    ensures Bars([m, a, b, c, d, e, f, g])
            == m + "|" + a + "|" + b + "|" + c + "|" + d + "|" + e + "|" + f + "|" + g
  {
    BarsFrom(m, a, [b, c, d, e, f, g]);
    BarsFrom(m + "|" + a, b, [c, d, e, f, g]);
    BarsFrom(m + "|" + a + "|" + b, c, [d, e, f, g]);
    BarsFrom(m + "|" + a + "|" + b + "|" + c, d, [e, f, g]);
    BarsFrom(m + "|" + a + "|" + b + "|" + c + "|" + d, e, [f, g]);
    BarsFrom(m + "|" + a + "|" + b + "|" + c + "|" + d + "|" + e, f, [g]);
    BarsFrom(m + "|" + a + "|" + b + "|" + c + "|" + d + "|" + e + "|" + f, g, []);
  }

  /** The first two parts can be put together first. */
  lemma BarsFrom(x: string, y: string, parts: seq<string>)
    ensures Bars([x, y] + parts) == Bars([x + "|" + y] + parts)
    ensures [x, y] + parts == [x] + ([y] + parts)
    ensures parts != [] ==> [x + "|" + y] + parts == [x + "|" + y, parts[0]] + parts[1..]
  {
    BarsMore(x, [y] + parts);
    assert [x, y] + parts == [x] + ([y] + parts);
    if parts == [] {
      assert [y] + parts == [y] && [x + "|" + y] + parts == [x + "|" + y];
      Glue(x, "|", y);
    } else {
      BarsMore(y, parts);
      BarsMore(x + "|" + y, parts);
      Glue(x + "|", y, "|" + Bars(parts));
      Glue(x + "|" + y, "|", Bars(parts));
      Glue(y, "|", Bars(parts));
    }
  }

  lemma InfoMeets(own: Own, peer: Own, theirs: string, ours: string, tx: string)
    requires peer.user == own.user
    ensures SasInfo(own, peer.device, theirs, ours, tx) == StarterInfo(peer, theirs, own.user, own.device, ours, tx)
  {
    BarsOfEight("MATRIX_KEY_VERIFICATION_SAS", own.user, peer.device, theirs, own.user, own.device, ours, tx);
    assert "MATRIX_KEY_VERIFICATION_SAS" + "|" == "MATRIX_KEY_VERIFICATION_SAS|";
  }

  /** In every run that has shown emoji: if the key it took is the one that the peer made, the emoji are those that the
      peer shows once it has the key that was sent to it, the only one. */
  lemma EmojiMeet(own: Own, peer: Own, es: seq<Event>, theirs: nat)
    requires !Run(own, es).down && Run(own, es).told != [] && Run(own, es).device == Some(peer.device)
    requires peer.user == own.user && peer.olm == own.olm && Agree(own.olm)
    requires forall i {:trigger es[i]} :: 0 <= i < |es| && es[i].KeyIn? ==> es[i].key == peer.olm.pubkey(theirs)
    ensures var s := Run(own, es);
            && s.tx.Some? && s.ours.Some?
            && var k := own.olm.pubkey(s.ours.value);
               && (peer.device, PubKey(s.tx.value, k)) in s.sent
               && (forall m {:trigger m in s.sent} ::
                     m in s.sent && m.1.PubKey? ==> m == (peer.device, PubKey(s.tx.value, k)))
               && s.told[0] == SasEmoji(StarterEmoji(peer, theirs, own.user, own.device, k, s.tx.value))
  {
    var s := Run(own, es);
    var m := EveryRunHasAStory(own, es);
    StoryKeyed(own, es, s, m);
    var k, key := own.olm.pubkey(s.ours.value), es[m.key].key;
    InfoMeets(own, peer, key, k, s.tx.value);
    SentOnce(own, es, s, m);
  }

  lemma StoryKeyed(own: Own, es: seq<Event>, s: State, m: Marks)
    requires Story(own, es, s, m) && s.told != []
    ensures Keyed(own, es, s, m) && s.told[0] == Shown(own, es, s, m)
  {
    hide SentKey, SentMac, SentDone, Shown;
  }

  lemma SentOnce(own: Own, es: seq<Event>, s: State, m: Marks)
    requires Story(own, es, s, m) && Keyed(own, es, s, m) && s.told != []
    ensures var p := (s.device.value, PubKey(s.tx.value, own.olm.pubkey(s.ours.value)));
            p in s.sent && forall m :: m in s.sent && m.1.PubKey? ==> m == p
  {
    hide Commitment, OurMac, Shown, Proves;
    assert s.sent[2] == SentKey(own, es, s, m)[2] == (s.device.value, PubKey(s.tx.value, own.olm.pubkey(s.ours.value)));
  }

  /** What a device sends to prove its own key and the master key, in full (Matrix Client-Server API, "MAC
      calculation"): the two key ids, the lesser first, and each key, sealed with who sends to whom. */
  lemma OurMacIs(own: Own, secret: string, to: string, tx: string, master: Key)
    ensures var id := "ed25519:" + own.device;
            var ids := if Precedes(id, master.id) then id + "," + master.id else master.id + "," + id;
            var info := "MATRIX_KEY_VERIFICATION_MAC" + own.user + own.device + own.user + to + tx;
            OurMac(own, secret, to, tx, master) ==
              Mac(own.olm.mac(secret, ids, info + "KEY_IDS"),
                  [Key(id, own.olm.mac(secret, own.identityKey, info + id)),
                   Key(master.id, own.olm.mac(secret, master.value, info + master.id))])
  {
    StrLessIs("ed25519:" + own.device, master.id);
  }

  /** With a peer that does the same, and a user who agrees, it gets to the end, and both show the same emoji. What the
      peer sends is of its own making: its key, and its proof under the secret that it has from the key it got. */
  lemma HonestRunCompletes(own: Own, peer: Own, user: User, master: Key, ks: seq<Key>, tx: string, now: real,
                           offers: Offers, canonical: string, random: nat, theirs: nat)
    requires !own.verified && peer.user == own.user && peer.olm == own.olm && Suits(offers) && Agree(own.olm)
    requires own.olm.goodKey(peer.olm.pubkey(theirs))
    requires Known(user, peer.device, master, ks) && KeyOf(ks, DeviceKey(peer).id) == Some(DeviceKey(peer))
    requires DeviceKey(peer).id != master.id
    ensures var got := own.olm.pubkey(random);
            var s := Run(own, [RequestIn(own.user, ["m.sas.v1"], now, now, tx, peer.device),
                               StartIn(own.user, peer.device, tx, "m.sas.v1", offers, canonical, random),
                               KeyIn(own.user, tx, peer.olm.pubkey(theirs)),
                               Matches(user),
                               MacIn(own.user, tx, OurMac(peer, peer.olm.agree(theirs, got), own.device, tx, master),
                                     user),
                               DoneIn(own.user, tx)]);
            && s.told == [SasEmoji(StarterEmoji(peer, theirs, own.user, own.device, got, tx)), SasComplete]
  {
    hide Proves, EmojiOf, SasInfo, OurMac, Run, Suits, Next, StarterInfo;
    var key := peer.olm.pubkey(theirs);
    var secret := own.olm.agree(random, key);
    InfoMeets(own, peer, key, own.olm.pubkey(random), tx);
    ProofsMeet(own, peer, secret, tx, user, master, ks);
    var e0 := RequestIn(own.user, ["m.sas.v1"], now, now, tx, peer.device);
    var e1 := StartIn(own.user, peer.device, tx, "m.sas.v1", offers, canonical, random);
    var e2 := KeyIn(own.user, tx, key);
    var e3 := Matches(user);
    var e4 := MacIn(own.user, tx, OurMac(peer, secret, own.device, tx, master), user);
    var e5 := DoneIn(own.user, tx);
    Beginning(own, e0, e1, e2, peer.device);
    Ending(own, Next(own, Next(own, Next(own, Initial, e0), e1), e2), e3, e4, e5);
    RunOfSix(own, e0, e1, e2, e3, e4, e5);
  }

  lemma Beginning(own: Own, e0: Event, e1: Event, e2: Event, device: string)
    requires e0.RequestIn? && TakesRequest(own, e0) && e0.from == device
    requires e1.StartIn? && e1.sender == own.user && e1.from == device && e1.tx == e0.tx && e1.meth == "m.sas.v1" &&
             Suits(e1.offers)
    requires e2.KeyIn? && e2.sender == own.user && e2.tx == e0.tx && own.olm.goodKey(e2.key)
    ensures var s := Next(own, Next(own, Next(own, Initial, e0), e1), e2);
            var secret := own.olm.agree(e1.random, e2.key);
            s.step == NeedMatchAndMac && !s.down && s.tx == Some(e0.tx) && s.device == Some(device) &&
            s.shared == Some(secret) && s.told ==
              [SasEmoji(EmojiOf(own.olm.Bytes(secret, SasInfo(own, device, e2.key, own.olm.pubkey(e1.random), e0.tx))))]
  {
    hide *;
    InitialIsSound();
    FirstStep(own, e0);
    SecondStep(own, Next(own, Initial, e0), e1);
    ThirdStep(own, Next(own, Next(own, Initial, e0), e1), e2);
  }

  lemma InitialIsSound()
    ensures Sound(Initial)
  {
  }

  lemma RunOfSix(own: Own, e0: Event, e1: Event, e2: Event, e3: Event, e4: Event, e5: Event)
    ensures Run(own, [e0, e1, e2, e3, e4, e5]) ==
            Next(own, Next(own, Next(own, Next(own, Next(own, Next(own, Initial, e0), e1), e2), e3), e4), e5)
  {
    hide Next;
    RunMore(own, [], e0);
    RunMore(own, [e0], e1);
    RunMore(own, [e0, e1], e2);
    RunMore(own, [e0, e1, e2], e3);
    RunMore(own, [e0, e1, e2, e3], e4);
    RunMore(own, [e0, e1, e2, e3, e4], e5);
    assert [] + [e0] == [e0] && [e0] + [e1] == [e0, e1] && [e0, e1] + [e2] == [e0, e1, e2];
    assert [e0, e1, e2] + [e3] == [e0, e1, e2, e3] && [e0, e1, e2, e3] + [e4] == [e0, e1, e2, e3, e4];
    assert [e0, e1, e2, e3, e4] + [e5] == [e0, e1, e2, e3, e4, e5];
  }

  lemma FirstStep(own: Own, e: Event)
    requires e.RequestIn? && TakesRequest(own, e)
    ensures var t := Next(own, Initial, e);
            t.step == AtStart && !t.down && t.told == [] && t.tx == Some(e.tx) && t.device == Some(e.from)
  {
  }

  lemma SecondStep(own: Own, s: State, e: Event)
    requires Sound(s) && s.step == AtStart && !s.down && e.StartIn? && e.sender == own.user && s.device == Some(e.from)
    requires s.tx == Some(e.tx) && e.meth == "m.sas.v1" && Suits(e.offers)
    ensures var t := Next(own, s, e);
            t.step == AtKey && !t.down && t.told == s.told && t.tx == s.tx && t.device == s.device &&
            t.ours == Some(e.random)
  {
  }

  lemma ThirdStep(own: Own, s: State, e: Event)
    requires Sound(s) && s.step == AtKey && !s.down && e.KeyIn? && e.sender == own.user && s.tx == Some(e.tx)
    requires own.olm.goodKey(e.key)
    ensures var t := Next(own, s, e);
            var secret := own.olm.agree(s.ours.value, e.key);
            t.step == NeedMatchAndMac && !t.down && t.tx == s.tx && t.device == s.device && t.shared == Some(secret) &&
            t.told == s.told + [SasEmoji(EmojiOf(own.olm.Bytes(secret,
              SasInfo(own, s.device.value, e.key, own.olm.pubkey(s.ours.value), e.tx))))]
  {
  }

  lemma Ending(own: Own, s: State, e3: Event, e4: Event, e5: Event)
    requires Sound(s) && s.step == NeedMatchAndMac && !s.down
    requires e3.Matches? && |e3.user.masterKeys| == 1
    requires ItsMac(own, s, e4) && Proves(own, s.shared.value, s.device.value, s.tx.value, e4.user, e4.mac)
    requires e5.DoneIn? && e5.sender == own.user && s.tx == Some(e5.tx)
    ensures Next(own, Next(own, Next(own, s, e3), e4), e5).told == s.told + [SasComplete]
  {
    hide Proves, OurMac;
  }

  lemma RunMore(own: Own, es: seq<Event>, e: Event)
    ensures Run(own, es + [e]) == Next(own, Run(own, es), e)
  {
    assert (es + [e])[..|es|] == es;
  }

  // ---------- the thread ----------

  class Verifier {
    const own: Own
    var step: Step
    var tx: Option<string>
    var device: Option<string>
    var ours: Option<nat>
    var shared: Option<string>
    var peerMac: Option<Mac>
    var sent: seq<(string, Message)>
    var told: seq<News>
    var down: bool

    constructor (own: Own)
      ensures this.own == own && Now() == Initial
    {
      this.own := own;
      step, tx, device, ours, shared, peerMac, sent, told, down :=
        AtRequest, None, None, None, None, None, [], [], false;
    }

    function Now(): State
      reads this
    {
      State(step, tx, device, ours, shared, peerMac, sent, told, down)
    }

    method Send(m: Message)
      requires device.Some?
      modifies this`sent
      ensures sent == old(sent) + [(device.value, m)]
    {
      sent := sent + [(device.value, m)];
    }

    method HasMethod(methods: seq<string>) returns (has: bool)
      ensures has <==> "m.sas.v1" in methods
    {
      has := false;
      var i := 0;
      while i < |methods|
        invariant 0 <= i <= |methods| && (has <==> "m.sas.v1" in methods[..i])
      {
        if methods[i] == "m.sas.v1" {
          return true;
        }
        i := i + 1;
      }
    }

    method HasOffers(o: Offers) returns (has: bool)
      ensures has <==> Suits(o)
    {
      var i := 0;
      while i < 4
        invariant 0 <= i <= 4 && forall k :: 0 <= k < i ==> REQUIRED[k] in o.At(k)
      {
        if REQUIRED[i] !in o.At(i) {
          return false;
        }
        i := i + 1;
      }
      assert REQUIRED[0] in o.At(0) && REQUIRED[1] in o.At(1) && REQUIRED[2] in o.At(2) && REQUIRED[3] in o.At(3);
      has := true;
    }

    method OnRequest(e: Event)
      requires e.RequestIn? && Sound(Now()) && !down
      modifies this
      ensures Now() == Next(own, old(Now()), e)
      ensures step == AtStart <==>
              || old(step) == AtStart
              || (old(step) == AtRequest && !own.verified && e.sender == own.user && "m.sas.v1" in e.methods
                  && e.now - e.timestamp <= 10.0 * 60.0 * 1000.0 && e.timestamp - e.now <= 5.0 * 60.0 * 1000.0)
    {
      if own.verified || step != AtRequest || e.sender != own.user {
        return;
      }
      var has := HasMethod(e.methods);
      if !has || e.timestamp < e.now - 10.0 * 60.0 * 1000.0 || e.timestamp > e.now + 5.0 * 60.0 * 1000.0 {
        return;
      }
      device := Some(e.from);
      Send(Ready(e.tx));
      tx := Some(e.tx);
      step := AtStart;
    }

    method OnStart(e: Event)
      requires e.StartIn? && Sound(Now()) && !down
      modifies this
      ensures Now() == Next(own, old(Now()), e)
    {
      if step != AtStart || e.sender != own.user || e.from != device.value || e.tx != tx.value || e.meth != "m.sas.v1" {
        return;
      }
      var has := HasOffers(e.offers);
      if !has {
        return;
      }
      ours := Some(e.random);
      Send(Accept(e.tx, own.olm.sha(own.olm.pubkey(e.random) + e.canonical)));
      Send(PubKey(e.tx, own.olm.pubkey(e.random)));
      step := AtKey;
    }

    method OnKey(e: Event)
      requires e.KeyIn? && Sound(Now()) && !down
      modifies this
      ensures Now() == Next(own, old(Now()), e)
    {
      if step != AtKey || e.sender != own.user || e.tx != tx.value {
        return;
      }
      if !own.olm.goodKey(e.key) {
        down := true;
        return;
      }
      shared := Some(own.olm.agree(ours.value, e.key));
      var bytes := own.olm.Bytes(shared.value, SasInfo(own, device.value, e.key, own.olm.pubkey(ours.value), tx.value));
      var n := Together(bytes);
      var ids := EmojiIds(bytes);
      EmojiOfIs(bytes, ids);
      told := told + [SasEmoji(ids)];
      step := NeedMatchAndMac;
    }

    /** The peer's MAC is looked into. */
    method Judge(mac: Mac, user: User)
      requires Sound(Now().(peerMac := None, step := NeedMac)) && !down
      modifies this
      ensures Now() == Judged(own, old(Now()), mac, user)
    {
      var proved := VerifyPeer(own, shared.value, device.value, tx.value, user, mac);
      if !proved {
        down := true;
        return;
      }
      Send(Done(tx.value));
      peerMac := None;
      step := AtDone;
    }

    method OnMatches(e: Event)
      requires e.Matches? && Sound(Now()) && !down
      modifies this
      ensures Now() == Next(own, old(Now()), e)
    {
      if step != NeedMatchAndMac && step != NeedMatch {
        return;
      }
      if |e.user.masterKeys| != 1 {
        down := true;
        return;
      }
      Send(MacIs(tx.value, OurMac(own, shared.value, device.value, tx.value, e.user.masterKeys[0])));
      if step == NeedMatch {
        Judge(peerMac.value, e.user);
      } else {
        step := NeedMac;
      }
    }

    method OnMac(e: Event)
      requires e.MacIn? && Sound(Now()) && !down
      modifies this
      ensures Now() == Next(own, old(Now()), e)
    {
      if (step != NeedMatchAndMac && step != NeedMac) || e.sender != own.user || e.tx != tx.value {
        return;
      }
      if step == NeedMac {
        Judge(e.mac, e.user);
      } else {
        peerMac := Some(e.mac);
        step := NeedMatch;
      }
    }

    method OnDone(e: Event)
      requires e.DoneIn? && Sound(Now()) && !down
      modifies this
      ensures Now() == Next(own, old(Now()), e)
    {
      if step != AtDone || e.sender != own.user || e.tx != tx.value {
        return;
      }
      told := told + [SasComplete];
      step := AtEnd;
    }

    method Handle(e: Event)
      requires Sound(Now())
      modifies this
      ensures Now() == Next(own, old(Now()), e)
    {
      hide Next, Sound;
      if down {
        DownStays(own, Now(), e);
        return;
      }
      match e {
        case RequestIn(_, _, _, _, _, _) => OnRequest(e);
        case StartIn(_, _, _, _, _, _, _) => OnStart(e);
        case KeyIn(_, _, _) => OnKey(e);
        case Matches(_) => OnMatches(e);
        case MacIn(_, _, _, _) => OnMac(e);
        case DoneIn(_, _) => OnDone(e);
      }
    }

    /** The thread does to its variables, over any events, what the state machine says. */
    method Loop(es: seq<Event>)
      requires Now() == Initial
      modifies this
      ensures Now() == Run(own, es)
    {
      hide Next, Sound;
      var i := 0;
      while i < |es|
        invariant 0 <= i <= |es| && Now() == Run(own, es[..i])
      {
        RunMore(own, es[..i], es[i]);
        assert es[..i + 1] == es[..i] + [es[i]];
        RunIsSound(own, es[..i]);
        Handle(es[i]);
        i := i + 1;
      }
      assert es[..i] == es;
    }
  }

  lemma RunIsSound(own: Own, es: seq<Event>)
    ensures Sound(Run(own, es))
  {
  }

  lemma DownStays(own: Own, s: State, e: Event)
    requires Sound(s) && s.down
    ensures Next(own, s, e) == s
  {
  }
}
