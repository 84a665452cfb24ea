/** What a room knows about its decryption sessions, as a plain map, and about the messages that wait for one:
    the state machine that the session cache and the session files together have to behave like. */
module Sessions {
  import opened Basics

  /** The session library: stored form and back, decrypting one message, and making a session from a key. */
  datatype Olm<!S> = Olm(pickle: S -> string, unpickle: string -> S, decrypt: (S, string) -> Option<(S, string)>,
                             load: (bool, string) -> S)

  ghost predicate Lawful<S(!new)>(olm: Olm<S>)
  {
    forall s :: olm.unpickle(olm.pickle(s)) == s
  }

  datatype Pending = Pending(event: string, ciphertext: string)

  /** room_decrypting_t. `asked`: its key was asked for. */
  datatype Wait = Wait(id: string, senderKey: string, asked: bool, msgs: seq<Pending>)

  datatype KeyRequest = KeyRequest(bridgebot: string, id: string, senderKey: string)

  datatype Emitted = Emitted(event: string, text: string)

  /** `started` and `spared` keep account of the waits: the session ids they were started for, and those of them
      whose key came before it was asked for. */
  datatype Book<S> = Book(sessions: map<string, S>, waits: seq<Wait>, bridgebot: Option<string>,
                          requests: seq<KeyRequest>, emitted: seq<Emitted>,
                          started: seq<string>, spared: seq<string>)

  datatype Input =
    | Encrypted(id: string, event: string, ciphertext: string, senderKey: string)
    | Key(forwarded: bool, id: string, key: string)
    | Bridge(bot: string)
    | Outbound(id: string, key: string)

  /** The wait for a session; the number of waits if there is none. */
  function FindWait(ws: seq<Wait>, id: string): (k: nat)
    ensures k <= |ws| && (k < |ws| ==> ws[k].id == id)
    ensures forall i :: 0 <= i < k ==> ws[i].id != id
  {
    if ws == [] || ws[0].id == id then 0 else 1 + FindWait(ws[1..], id)
  }

  ghost predicate Waiting(ws: seq<Wait>, id: string)
  {
    FindWait(ws, id) < |ws|
  }

  predicate HasEvent(ms: seq<Pending>, event: string)
  {
    exists i {:trigger ms[i]} :: 0 <= i < |ms| && ms[i].event == event
  }

  /** A message joins those that wait for the same session, once. */
  function Join(ms: seq<Pending>, m: Pending): seq<Pending>
  {
    if HasEvent(ms, m.event) then ms else ms + [m]
  }

  function Ask(w: Wait, bot: string): KeyRequest
  {
    KeyRequest(bot, w.id, w.senderKey)
  }

  /** A wait is started, and its key asked for if a bridgebot is known. */
  function Start<S>(b: Book<S>, id: string, m: Pending, senderKey: string): Book<S>
  {
    var w := Wait(id, senderKey, b.bridgebot.Some?, [m]);
    b.(waits := b.waits + [w], started := b.started + [id],
       requests := b.requests + if b.bridgebot.Some? then [Ask(w, b.bridgebot.value)] else [])
  }

  function OnEncrypted<S>(olm: Olm<S>, b: Book<S>, id: string, m: Pending, senderKey: string): (Book<S>, Option<string>)
  {
    var k := FindWait(b.waits, id);
    if k < |b.waits| then
      (b.(waits := b.waits[k := b.waits[k].(msgs := Join(b.waits[k].msgs, m))]), None)
    else if id in b.sessions then
      var r := olm.decrypt(b.sessions[id], m.ciphertext);
      if r.Some? then (b.(sessions := b.sessions[id := r.value.0]), Some(r.value.1)) else (b, None)
    else
      (Start(b, id, m, senderKey), None)
  }

  /** Decrypts messages in order, up to the first that fails. */
  function DecryptAll<S>(olm: Olm<S>, s: S, ms: seq<Pending>): (r: (S, seq<Emitted>))
    ensures |r.1| <= |ms|
  {
    if ms == [] then (s, [])
    else
      var r := olm.decrypt(s, ms[0].ciphertext);
      if r.None? then (s, [])
      else
        var rest := DecryptAll(olm, r.value.0, ms[1..]);
        (rest.0, [Emitted(ms[0].event, r.value.1)] + rest.1)
  }

  function OnKey<S>(olm: Olm<S>, b: Book<S>, forwarded: bool, id: string, key: string): Book<S>
  {
    var k := FindWait(b.waits, id);
    if k < |b.waits| then
      var r := DecryptAll(olm, olm.load(forwarded, key), b.waits[k].msgs);
      b.(sessions := b.sessions[id := r.0], waits := b.waits[..k] + b.waits[k + 1..], emitted := b.emitted + r.1,
         spared := b.spared + if b.waits[k].asked then [] else [id])
    else if id in b.sessions then b
    else b.(sessions := b.sessions[id := olm.load(forwarded, key)])
  }

  /** Asks for the keys of the waits that have not asked yet. */
  function AskAll(ws: seq<Wait>, bot: string): seq<KeyRequest>
  {
    if ws == [] then [] else (if ws[0].asked then [] else [Ask(ws[0], bot)]) + AskAll(ws[1..], bot)
  }

  function AllAsked(ws: seq<Wait>): seq<Wait>
  {
    seq(|ws|, i requires 0 <= i < |ws| => ws[i].(asked := true))
  }

  function OnBridge<S>(b: Book<S>, bot: string): Book<S>
  {
    if bot == "" then b
    else b.(bridgebot := Some(bot), waits := AllAsked(b.waits), requests := b.requests + AskAll(b.waits, bot))
  }

  function OnOutbound<S>(olm: Olm<S>, b: Book<S>, id: string, key: string): Book<S>
  {
    b.(sessions := b.sessions[id := olm.load(false, key)])
  }

  function Step<S>(olm: Olm<S>, b: Book<S>, x: Input): Book<S>
  {
    match x
    case Encrypted(id, event, ciphertext, senderKey) => OnEncrypted(olm, b, id, Pending(event, ciphertext), senderKey).0
    case Key(forwarded, id, key) => OnKey(olm, b, forwarded, id, key)
    case Bridge(bot) => OnBridge(b, bot)
    case Outbound(id, key) => OnOutbound(olm, b, id, key)
  }

  /** The text that is shown at once, for a message that comes when its session is known. */
  function TextNow<S>(olm: Olm<S>, b: Book<S>, x: Input): Option<string>
  {
    if x.Encrypted? then OnEncrypted(olm, b, x.id, Pending(x.event, x.ciphertext), x.senderKey).1 else None
  }

  /** An outbound session's id is fresh. */
  ghost predicate Fresh<S>(b: Book<S>, x: Input)
  {
    x.Outbound? ==> !Waiting(b.waits, x.id) && x.id !in b.sessions
  }

  function Run<S>(olm: Olm<S>, b: Book<S>, xs: seq<Input>): Book<S>
  {
    if xs == [] then b else Step(olm, Run(olm, b, xs[..|xs| - 1]), xs[|xs| - 1])
  }

  /** The texts that are shown at once, input by input. */
  function TextsNow<S>(olm: Olm<S>, b: Book<S>, xs: seq<Input>): seq<Option<string>>
  {
    if xs == [] then []
    else TextsNow(olm, b, xs[..|xs| - 1]) + [TextNow(olm, Run(olm, b, xs[..|xs| - 1]), xs[|xs| - 1])]
  }

  ghost predicate FreshRun<S>(olm: Olm<S>, b: Book<S>, xs: seq<Input>)
  {
    forall i :: 0 <= i < |xs| ==> Fresh(Run(olm, b, xs[..i]), xs[i])
  }

  // ---------- what every step keeps ----------

  ghost predicate EventsOnce(ms: seq<Pending>)
  {
    forall i, j :: 0 <= i < j < |ms| ==> ms[i].event != ms[j].event
  }

  function RequestIds(rs: seq<KeyRequest>): multiset<string>
  {
    if rs == [] then multiset{} else multiset{rs[0].id} + RequestIds(rs[1..])
  }

  function Unasked(ws: seq<Wait>): multiset<string>
  {
    if ws == [] then multiset{} else (if ws[0].asked then multiset{} else multiset{ws[0].id}) + Unasked(ws[1..])
  }

  /** Waits are for distinct sessions that are not known; each message waits once; a wait's key has been asked for
      exactly if a bridgebot is known. */
  ghost predicate WaitsRight<S>(ws: seq<Wait>, sessions: map<string, S>, bridgebot: Option<string>)
  {
    && (forall i, j :: 0 <= i < j < |ws| ==> ws[i].id != ws[j].id)
    && (forall i {:trigger ws[i]} :: 0 <= i < |ws| ==>
          ws[i].id !in sessions && ws[i].msgs != [] && EventsOnce(ws[i].msgs) && ws[i].asked == bridgebot.Some?)
  }

  /** Of every wait that was ever started there was one request for its key, unless it is still to be sent or the
      key came before. */
  ghost predicate Balanced(requests: seq<KeyRequest>, ws: seq<Wait>, spared: seq<string>, started: seq<string>)
  {
    RequestIds(requests) + Unasked(ws) + multiset(spared) == multiset(started)
  }

  ghost predicate Right<S>(b: Book<S>)
  {
    && WaitsRight(b.waits, b.sessions, b.bridgebot) && Balanced(b.requests, b.waits, b.spared, b.started)
    && (b.bridgebot == None ==> b.requests == [])
  }

  lemma {:induction false} RequestIdsConcat(a: seq<KeyRequest>, b: seq<KeyRequest>)
    ensures RequestIds(a + b) == RequestIds(a) + RequestIds(b)
  {
    if a == [] {
      assert a + b == b;
    } else {
      assert (a + b)[1..] == a[1..] + b;
      RequestIdsConcat(a[1..], b);
    }
  }

  lemma {:induction false} UnaskedConcat(a: seq<Wait>, b: seq<Wait>)
    ensures Unasked(a + b) == Unasked(a) + Unasked(b)
  {
    if a == [] {
      assert a + b == b;
    } else {
      assert (a + b)[1..] == a[1..] + b;
      UnaskedConcat(a[1..], b);
    }
  }

  lemma {:induction false} UnaskedNone(ws: seq<Wait>)
    requires forall i :: 0 <= i < |ws| ==> ws[i].asked
    ensures Unasked(ws) == multiset{} && forall bot :: AskAll(ws, bot) == []
  {
    if ws != [] {
      UnaskedNone(ws[1..]);
    }
  }

  lemma {:induction false} AskAllIds(ws: seq<Wait>, bot: string)
    ensures RequestIds(AskAll(ws, bot)) == Unasked(ws)
  {
    if ws != [] {
      AskAllIds(ws[1..], bot);
      RequestIdsConcat(if ws[0].asked then [] else [Ask(ws[0], bot)], AskAll(ws[1..], bot));
    }
  }

  lemma JoinOnce(ms: seq<Pending>, m: Pending)
    requires EventsOnce(ms)
    ensures EventsOnce(Join(ms, m)) && (ms != [] ==> Join(ms, m) != []) && HasEvent(Join(ms, m), m.event)
  {
    if !HasEvent(ms, m.event) {
      assert (ms + [m])[|ms|] == m;
    }
  }

  lemma UpdateUnasked(ws: seq<Wait>, k: nat, w: Wait)
    requires k < |ws| && w.id == ws[k].id && w.asked == ws[k].asked
    ensures Unasked(ws[k := w]) == Unasked(ws)
  {
    assert ws == ws[..k] + ([ws[k]] + ws[k + 1..]) && ws[k := w] == ws[..k] + ([w] + ws[k + 1..]);
    UnaskedConcat(ws[..k], [ws[k]] + ws[k + 1..]);
    UnaskedConcat(ws[..k], [w] + ws[k + 1..]);
  }

  lemma JoinedRight<S>(ws: seq<Wait>, sessions: map<string, S>, bridgebot: Option<string>, k: nat, m: Pending)
    requires WaitsRight(ws, sessions, bridgebot) && k < |ws|
    ensures WaitsRight(ws[k := ws[k].(msgs := Join(ws[k].msgs, m))], sessions, bridgebot)
  {
    JoinOnce(ws[k].msgs, m);
  }

  lemma StartedRight<S>(ws: seq<Wait>, sessions: map<string, S>, bridgebot: Option<string>, w: Wait)
    requires WaitsRight(ws, sessions, bridgebot) && FindWait(ws, w.id) == |ws| && w.id !in sessions
    requires |w.msgs| == 1 && w.asked == bridgebot.Some?
    ensures WaitsRight(ws + [w], sessions, bridgebot)
  {
  }

  lemma SumStarted(a: multiset<string>, b: multiset<string>, c: multiset<string>, x: multiset<string>,
                   y: multiset<string>)
    ensures (a + x) + (b + y) + c == (a + b + c) + (x + y)
  {
  }

  lemma SumEnded(r: multiset<string>, a: multiset<string>, u: multiset<string>, b: multiset<string>,
                 s: multiset<string>)
    ensures r + (a + (u + b)) + s == r + (a + b) + (s + u)
  {
  }

  /** What a wait adds to the account: one request, or one that is still to be sent. */
  lemma OneWait(w: Wait, bot: string)
    ensures RequestIds(if w.asked then [Ask(w, bot)] else []) + Unasked([w]) == multiset{w.id}
  {
  }

  lemma StartedBalanced(requests: seq<KeyRequest>, ws: seq<Wait>, spared: seq<string>, started: seq<string>, w: Wait,
                        bot: string)
    requires Balanced(requests, ws, spared, started)
    ensures Balanced(requests + (if w.asked then [Ask(w, bot)] else []), ws + [w], spared, started + [w.id])
  {
    var rs := if w.asked then [Ask(w, bot)] else [];
    calc {
      RequestIds(requests + rs) + Unasked(ws + [w]) + multiset(spared);
      { UnaskedConcat(ws, [w]); RequestIdsConcat(requests, rs); }
      (RequestIds(requests) + RequestIds(rs)) + (Unasked(ws) + Unasked([w])) + multiset(spared);
      { SumStarted(RequestIds(requests), Unasked(ws), multiset(spared), RequestIds(rs), Unasked([w]));
        OneWait(w, bot); }
      multiset(started) + multiset{w.id};
      multiset(started + [w.id]);
    }
  }

  lemma EncryptedKeeps<S>(olm: Olm<S>, b: Book<S>, id: string, m: Pending, senderKey: string)
    requires Right(b)
    ensures Right(OnEncrypted(olm, b, id, m, senderKey).0)
  {
    hide WaitsRight, Balanced;
    var k, c := FindWait(b.waits, id), OnEncrypted(olm, b, id, m, senderKey).0;
    if k < |b.waits| {
      JoinedRight(b.waits, b.sessions, b.bridgebot, k, m);
      JoinedBalanced(b.requests, b.waits, b.spared, b.started, k, c.waits[k]);
    } else if id in b.sessions {
      SameKnown(b.waits, b.sessions, c.sessions, b.bridgebot);
    } else {
      var w := Wait(id, senderKey, b.bridgebot.Some?, [m]);
      StartedRight(b.waits, b.sessions, b.bridgebot, w);
      StartedBalanced(b.requests, b.waits, b.spared, b.started, w, if b.bridgebot.Some? then b.bridgebot.value else "");
    }
  }

  lemma SameKnown<S>(ws: seq<Wait>, sessions: map<string, S>, more: map<string, S>, bridgebot: Option<string>)
    requires WaitsRight(ws, sessions, bridgebot) && more.Keys == sessions.Keys
    ensures WaitsRight(ws, more, bridgebot)
  {
  }

  lemma JoinedBalanced(requests: seq<KeyRequest>, ws: seq<Wait>, spared: seq<string>, started: seq<string>, k: nat,
                       w: Wait)
    requires Balanced(requests, ws, spared, started) && k < |ws| && w.id == ws[k].id && w.asked == ws[k].asked
    ensures Balanced(requests, ws[k := w], spared, started)
  {
    UpdateUnasked(ws, k, w);
  }

  lemma EndedBalanced(requests: seq<KeyRequest>, ws: seq<Wait>, spared: seq<string>, started: seq<string>, k: nat)
    requires Balanced(requests, ws, spared, started) && k < |ws|
    ensures Balanced(requests, ws[..k] + ws[k + 1..], spared + (if ws[k].asked then [] else [ws[k].id]), started)
  {
    var w, a, b := ws[k], ws[..k], ws[k + 1..];
    var u := if w.asked then [] else [w.id];
    calc {
      multiset(started);
      RequestIds(requests) + Unasked(ws) + multiset(spared);
      { assert ws == a + ([w] + b); UnaskedConcat(a, [w] + b); UnaskedConcat([w], b); }
      RequestIds(requests) + (Unasked(a) + (Unasked([w]) + Unasked(b))) + multiset(spared);
      { SumEnded(RequestIds(requests), Unasked(a), Unasked([w]), Unasked(b), multiset(spared)); }
      RequestIds(requests) + (Unasked(a) + Unasked(b)) + (multiset(spared) + Unasked([w]));
      { UnaskedConcat(a, b); assert multiset(u) == Unasked([w]); }
      RequestIds(requests) + Unasked(a + b) + multiset(spared + u);
    }
  }

  lemma EndedRight<S>(ws: seq<Wait>, sessions: map<string, S>, bridgebot: Option<string>, k: nat, s: S)
    requires WaitsRight(ws, sessions, bridgebot) && k < |ws|
    ensures WaitsRight(ws[..k] + ws[k + 1..], sessions[ws[k].id := s], bridgebot)
  {
  }

  lemma AddedRight<S>(ws: seq<Wait>, sessions: map<string, S>, bridgebot: Option<string>, id: string, s: S)
    requires WaitsRight(ws, sessions, bridgebot) && FindWait(ws, id) == |ws|
    ensures WaitsRight(ws, sessions[id := s], bridgebot)
  {
  }

  lemma KeyKeeps<S>(olm: Olm<S>, b: Book<S>, forwarded: bool, id: string, key: string)
    requires Right(b)
    ensures Right(OnKey(olm, b, forwarded, id, key))
  {
    hide WaitsRight, Balanced;
    var k := FindWait(b.waits, id);
    if k < |b.waits| {
      EndedRight(b.waits, b.sessions, b.bridgebot, k, DecryptAll(olm, olm.load(forwarded, key), b.waits[k].msgs).0);
      EndedBalanced(b.requests, b.waits, b.spared, b.started, k);
    } else {
      AddedRight(b.waits, b.sessions, b.bridgebot, id, olm.load(forwarded, key));
    }
  }

  lemma AskedBalanced(requests: seq<KeyRequest>, ws: seq<Wait>, spared: seq<string>, started: seq<string>, bot: string)
    requires Balanced(requests, ws, spared, started)
    ensures Balanced(requests + AskAll(ws, bot), AllAsked(ws), spared, started)
  {
    AskAllIds(ws, bot);
    RequestIdsConcat(requests, AskAll(ws, bot));
    UnaskedNone(AllAsked(ws));
  }

  lemma AskedRight<S>(ws: seq<Wait>, sessions: map<string, S>, bridgebot: Option<string>, bot: string)
    requires WaitsRight(ws, sessions, bridgebot)
    ensures WaitsRight(AllAsked(ws), sessions, Some(bot))
  {
  }

  lemma BridgeKeeps<S>(b: Book<S>, bot: string)
    requires Right(b)
    ensures Right(OnBridge(b, bot))
  {
    hide WaitsRight, Balanced, AskAll, AllAsked;
    if bot != "" {
      AskedBalanced(b.requests, b.waits, b.spared, b.started, bot);
      AskedRight(b.waits, b.sessions, b.bridgebot, bot);
    }
  }

  /** Every step keeps this, provided an outbound session gets an id of its own. */
  lemma StepKeeps<S>(olm: Olm<S>, b: Book<S>, x: Input)
    requires Right(b) && Fresh(b, x)
    ensures Right(Step(olm, b, x))
  {
    hide WaitsRight, Balanced;
    match x
    case Encrypted(id, event, ciphertext, senderKey) =>
      EncryptedKeeps(olm, b, id, Pending(event, ciphertext), senderKey);
    case Key(forwarded, id, key) => KeyKeeps(olm, b, forwarded, id, key);
    case Bridge(bot) => BridgeKeeps(b, bot);
    case Outbound(id, key) => AddedRight(b.waits, b.sessions, b.bridgebot, id, olm.load(false, key));
  }

  lemma RunPrefix<S>(olm: Olm<S>, b: Book<S>, xs: seq<Input>, n: nat)
    requires FreshRun(olm, b, xs) && |xs| == n + 1
    ensures FreshRun(olm, b, xs[..n]) && Fresh(Run(olm, b, xs[..n]), xs[n])
    ensures Run(olm, b, xs) == Step(olm, Run(olm, b, xs[..n]), xs[n])
  {
    hide Step, Fresh;
    forall i | 0 <= i < n ensures Fresh(Run(olm, b, xs[..n][..i]), xs[..n][i]) {
      assert xs[..n][..i] == xs[..i];
      assert Fresh(Run(olm, b, xs[..i]), xs[i]);
    }
    assert Fresh(Run(olm, b, xs[..n]), xs[n]);
  }

  lemma RunNone<S>(olm: Olm<S>, b: Book<S>)
    ensures Run(olm, b, []) == b
  {
  }

  lemma {:induction false} RunKeeps<S>(olm: Olm<S>, b: Book<S>, xs: seq<Input>)
    requires Right(b) && FreshRun(olm, b, xs)
    ensures Right(Run(olm, b, xs))
  {
    hide *;
    if xs == [] {
      RunNone(olm, b);
    } else {
      var n := |xs| - 1;
      RunPrefix(olm, b, xs, n);
      RunKeeps(olm, b, xs[..n]);
      StepKeeps(olm, Run(olm, b, xs[..n]), xs[n]);
    }
  }

  // ---------- to whom the requests for keys go ----------

  /** The bridgebot that was named last; an empty name names none. */
  function LastBot(xs: seq<Input>): Option<string>
  {
    if xs == [] then None
    else
      var x := xs[|xs| - 1];
      if x.Bridge? && x.bot != "" then Some(x.bot) else LastBot(xs[..|xs| - 1])
  }

  ghost predicate Empty<S>(b: Book<S>)
  {
    b.waits == [] && b.requests == [] && b.bridgebot == None && b.started == [] && b.spared == []
  }

  /** Input `m` is a message with this sender key for a session that is neither known nor waited for. */
  ghost predicate StartsAt<S>(olm: Olm<S>, b: Book<S>, xs: seq<Input>, m: nat, id: string, senderKey: string)
  {
    && m < |xs| && xs[m].Encrypted? && xs[m].id == id && xs[m].senderKey == senderKey
    && var c := Run(olm, b, xs[..m]);
       id !in c.sessions && forall i :: 0 <= i < |c.waits| ==> c.waits[i].id != id
  }

  ghost predicate Starts<S>(olm: Olm<S>, b: Book<S>, xs: seq<Input>, id: string, senderKey: string)
  {
    exists m: nat :: StartsAt(olm, b, xs, m, id, senderKey)
  }

  /** Request `i` is sent on input `n`: to the bridgebot named last by then, for a session and with a sender key as
      they were in the message that started the wait. */
  ghost predicate RequestAt<S>(olm: Olm<S>, b: Book<S>, xs: seq<Input>, n: nat, i: nat)
  {
    && n < |xs| && |Run(olm, b, xs[..n]).requests| <= i < |Run(olm, b, xs[..n + 1]).requests|
    && var r := Run(olm, b, xs[..n + 1]).requests[i];
       Some(r.bridgebot) == LastBot(xs[..n + 1]) && Starts(olm, b, xs[..n + 1], r.id, r.senderKey)
  }

  ghost predicate RequestRight<S>(olm: Olm<S>, b: Book<S>, xs: seq<Input>, i: nat)
  {
    exists n: nat :: RequestAt(olm, b, xs, n, i)
  }

  lemma StartsLater<S>(olm: Olm<S>, b: Book<S>, xs: seq<Input>, n: nat, id: string, senderKey: string)
    requires n <= |xs| && Starts(olm, b, xs[..n], id, senderKey)
    ensures Starts(olm, b, xs, id, senderKey)
  {
    var m: nat :| StartsAt(olm, b, xs[..n], m, id, senderKey);
    assert xs[..n][..m] == xs[..m];
    assert StartsAt(olm, b, xs, m, id, senderKey);
  }

  lemma RequestLater<S>(olm: Olm<S>, b: Book<S>, xs: seq<Input>, n: nat, i: nat)
    requires n <= |xs| && RequestRight(olm, b, xs[..n], i)
    ensures RequestRight(olm, b, xs, i)
  {
    hide Run, LastBot, Starts;
    var k: nat :| RequestAt(olm, b, xs[..n], k, i);
    assert xs[..n][..k] == xs[..k] && xs[..n][..k + 1] == xs[..k + 1];
    assert RequestAt(olm, b, xs, k, i);
  }

  /** The waits whose keys have not been asked for, in order. */
  function UnaskedOf(ws: seq<Wait>): (us: seq<Wait>)
    ensures forall w :: w in us ==> w in ws
  {
    if ws == [] then [] else (if ws[0].asked then [] else [ws[0]]) + UnaskedOf(ws[1..])
  }

  /** Whose key is asked for when a bridgebot is named: for each wait that has not asked, in the order of the waits, one
      request to that bridgebot with the wait's session and sender key. */
  lemma {:induction false} AskedInOrder(ws: seq<Wait>, bot: string)
    ensures |AskAll(ws, bot)| == |UnaskedOf(ws)|
    ensures forall i :: 0 <= i < |UnaskedOf(ws)| ==>
              AskAll(ws, bot)[i] == KeyRequest(bot, UnaskedOf(ws)[i].id, UnaskedOf(ws)[i].senderKey)
  {
    if ws != [] {
      AskedInOrder(ws[1..], bot);
    }
  }

  /** A message for a session that is neither known nor waited for. */
  ghost predicate StartsWait<S>(b: Book<S>, x: Input)
  {
    x.Encrypted? && x.id !in b.sessions && forall i :: 0 <= i < |b.waits| ==> b.waits[i].id != x.id
  }

  /** What one input adds to the requests: nothing; or one for the wait it starts; or one for each wait, in order. */
  lemma RequestsAdded<S>(olm: Olm<S>, b: Book<S>, x: Input)
    requires WaitsRight(b.waits, b.sessions, b.bridgebot)
    ensures var c := Step(olm, b, x);
            && b.requests <= c.requests
            && (x.Bridge? && x.bot != "" && b.bridgebot == None ==>
                  && |c.requests| == |b.requests| + |b.waits|
                  && forall i :: 0 <= i < |b.waits| ==>
                       c.requests[|b.requests| + i] == KeyRequest(x.bot, b.waits[i].id, b.waits[i].senderKey))
            && (StartsWait(b, x) && b.bridgebot.Some? ==>
                  c.requests == b.requests + [KeyRequest(b.bridgebot.value, x.id, x.senderKey)])
            && (!(x.Bridge? && x.bot != "" && b.bridgebot == None) && !(StartsWait(b, x) && b.bridgebot.Some?) ==>
                  c.requests == b.requests)
  {
    if x.Bridge? && x.bot != "" {
      if b.bridgebot == None {
        AllUnasked(b.waits);
        AskedInOrder(b.waits, x.bot);
      } else {
        UnaskedNone(b.waits);
      }
    }
    if x.Encrypted? {
      var k := FindWait(b.waits, x.id);
      assert k < |b.waits| ==> b.waits[k].id == x.id;
    }
  }

  lemma {:induction false} AllUnasked(ws: seq<Wait>)
    requires forall i {:trigger ws[i]} :: 0 <= i < |ws| ==> !ws[i].asked
    ensures UnaskedOf(ws) == ws
  {
    if ws != [] {
      AllUnasked(ws[1..]);
    }
  }

  /** What one input does to the waits: each of those after it was there before, or is the one that the input starts. */
  lemma WaitsAfter<S>(olm: Olm<S>, b: Book<S>, x: Input, i: nat)
    requires i < |Step(olm, b, x).waits|
    ensures var c := Step(olm, b, x);
            || (exists j :: 0 <= j < |b.waits| && b.waits[j].id == c.waits[i].id
                            && b.waits[j].senderKey == c.waits[i].senderKey)
            || (x.Encrypted? && x.id == c.waits[i].id && x.senderKey == c.waits[i].senderKey
                && x.id !in b.sessions && forall j :: 0 <= j < |b.waits| ==> b.waits[j].id != x.id)
  {
    match x
    case Encrypted(id, event, ciphertext, senderKey) =>
      var k := FindWait(b.waits, id);
      if i < |b.waits| {
        assert b.waits[i] == b.waits[i];
      }
    case Key(_, id, _) =>
      var k := FindWait(b.waits, id);
      var j := if k < |b.waits| && i >= k then i + 1 else i;
      assert b.waits[j].id == Step(olm, b, x).waits[i].id;
    case Bridge(_) => assert b.waits[i].id == Step(olm, b, x).waits[i].id;
    case Outbound(_, _) => assert b.waits[i].id == Step(olm, b, x).waits[i].id;
  }

  lemma BotAfter<S>(olm: Olm<S>, b: Book<S>, x: Input)
    ensures Step(olm, b, x).bridgebot == if x.Bridge? && x.bot != "" then Some(x.bot) else b.bridgebot
  {
  }

  /** Over any run: who the bridgebot is, where every wait comes from, and that every request for a key is right. */
  lemma {:induction false} RequestsRight<S>(olm: Olm<S>, b: Book<S>, xs: seq<Input>)
    requires Empty(b) && FreshRun(olm, b, xs)
    ensures var c := Run(olm, b, xs);
            && c.bridgebot == LastBot(xs)
            && (forall i :: 0 <= i < |c.waits| ==> Starts(olm, b, xs, c.waits[i].id, c.waits[i].senderKey))
            && (forall i :: 0 <= i < |c.requests| ==> RequestRight(olm, b, xs, i))
  {
    if xs != [] {
      var n := |xs| - 1;
      RunPrefix(olm, b, xs, n);
      RequestsRight(olm, b, xs[..n]);
      assert Right(b);
      RunKeeps(olm, b, xs[..n]);
      RequestsStep(olm, b, xs, n);
    }
  }

  lemma RequestsStep<S>(olm: Olm<S>, b: Book<S>, xs: seq<Input>, n: nat)
    requires |xs| == n + 1 && Run(olm, b, xs) == Step(olm, Run(olm, b, xs[..n]), xs[n])
    requires Right(Run(olm, b, xs[..n])) && Run(olm, b, xs[..n]).bridgebot == LastBot(xs[..n])
    requires var c := Run(olm, b, xs[..n]);
             forall i :: 0 <= i < |c.waits| ==> Starts(olm, b, xs[..n], c.waits[i].id, c.waits[i].senderKey)
    requires forall i :: 0 <= i < |Run(olm, b, xs[..n]).requests| ==> RequestRight(olm, b, xs[..n], i)
    ensures var c := Run(olm, b, xs);
            && c.bridgebot == LastBot(xs)
            && (forall i :: 0 <= i < |c.waits| ==> Starts(olm, b, xs, c.waits[i].id, c.waits[i].senderKey))
            && (forall i :: 0 <= i < |c.requests| ==> RequestRight(olm, b, xs, i))
  {
    var c, d, x := Run(olm, b, xs[..n]), Run(olm, b, xs), xs[n];
    BotAfter(olm, c, x);
    assert xs[..n + 1] == xs;
    forall i | 0 <= i < |d.waits| ensures Starts(olm, b, xs, d.waits[i].id, d.waits[i].senderKey) {
      WaitStarts(olm, b, xs, n, i);
    }
    RequestsAdded(olm, c, x);
    forall i | 0 <= i < |d.requests| ensures RequestRight(olm, b, xs, i) {
      if i < |c.requests| {
        RequestLater(olm, b, xs, n, i);
      } else {
        NewRequest(olm, b, xs, n, i);
      }
    }
  }

  lemma WaitStarts<S>(olm: Olm<S>, b: Book<S>, xs: seq<Input>, n: nat, i: nat)
    requires |xs| == n + 1 && Run(olm, b, xs) == Step(olm, Run(olm, b, xs[..n]), xs[n]) && i < |Run(olm, b, xs).waits|
    requires var c := Run(olm, b, xs[..n]);
             forall i :: 0 <= i < |c.waits| ==> Starts(olm, b, xs[..n], c.waits[i].id, c.waits[i].senderKey)
    ensures Starts(olm, b, xs, Run(olm, b, xs).waits[i].id, Run(olm, b, xs).waits[i].senderKey)
  {
    hide Step, Run;
    var c, w := Run(olm, b, xs[..n]), Run(olm, b, xs).waits[i];
    WaitsAfter(olm, c, xs[n], i);
    if j :| 0 <= j < |c.waits| && c.waits[j].id == w.id && c.waits[j].senderKey == w.senderKey {
      StartsLater(olm, b, xs, n, w.id, w.senderKey);
    } else {
      assert StartsAt(olm, b, xs, n, w.id, w.senderKey);
    }
  }

  lemma NewRequest<S>(olm: Olm<S>, b: Book<S>, xs: seq<Input>, n: nat, i: nat)
    requires |xs| == n + 1 && Run(olm, b, xs) == Step(olm, Run(olm, b, xs[..n]), xs[n])
    requires Right(Run(olm, b, xs[..n])) && Run(olm, b, xs[..n]).bridgebot == LastBot(xs[..n])
    requires var c := Run(olm, b, xs[..n]);
             forall i :: 0 <= i < |c.waits| ==> Starts(olm, b, xs[..n], c.waits[i].id, c.waits[i].senderKey)
    requires |Run(olm, b, xs[..n]).requests| <= i < |Run(olm, b, xs).requests|
    ensures RequestRight(olm, b, xs, i)
  {
    var c, d, x := Run(olm, b, xs[..n]), Run(olm, b, xs), xs[n];
    RequestsAdded(olm, c, x);
    assert xs[..n + 1] == xs;
    hide Step, Run;
    var r := d.requests[i];
    if x.Bridge? {
      var w := c.waits[i - |c.requests|];
      StartsLater(olm, b, xs, n, w.id, w.senderKey);
    } else {
      assert StartsAt(olm, b, xs, n, r.id, r.senderKey);
    }
    assert RequestAt(olm, b, xs, n, i);
  }

  // ---------- what is emitted when a key comes ----------

  /** What is emitted is the longest run of messages, from the first on, that decrypt one after the other. */
  lemma {:induction false} EmitsPrefix<S>(olm: Olm<S>, s: S, ms: seq<Pending>)
    ensures var r := DecryptAll(olm, s, ms);
            && (forall i :: 0 <= i < |r.1| ==> r.1[i].event == ms[i].event)
            && (|r.1| < |ms| ==> olm.decrypt(r.0, ms[|r.1|].ciphertext) == None)
  {
    if ms != [] && olm.decrypt(s, ms[0].ciphertext).Some? {
      EmitsPrefix(olm, olm.decrypt(s, ms[0].ciphertext).value.0, ms[1..]);
    }
  }

  /** The messages for one session, in the order in which they first came. */
  function Arrivals(xs: seq<Input>, id: string): seq<Pending>
  {
    if xs == [] then []
    else
      var before, x := Arrivals(xs[..|xs| - 1], id), xs[|xs| - 1];
      if x.Encrypted? && x.id == id then Join(before, Pending(x.event, x.ciphertext)) else before
  }

  /** Nothing makes the session known. */
  ghost predicate NoKey(xs: seq<Input>, id: string)
  {
    forall i :: 0 <= i < |xs| ==> !((xs[i].Key? || xs[i].Outbound?) && xs[i].id == id)
  }

  /** The messages that wait for a session. */
  function WaitMsgs(ws: seq<Wait>, id: string): seq<Pending>
  {
    var k := FindWait(ws, id);
    if k < |ws| then ws[k].msgs else []
  }

  lemma WaitMsgsAre(ws: seq<Wait>, id: string, k: nat)
    requires forall i, j :: 0 <= i < j < |ws| ==> ws[i].id != ws[j].id
    requires k <= |ws| && if k < |ws| then ws[k].id == id else forall i :: 0 <= i < |ws| ==> ws[i].id != id
    ensures WaitMsgs(ws, id) == if k < |ws| then ws[k].msgs else []
  {
  }

  ghost predicate Apart(ws: seq<Wait>)
  {
    forall i, j :: 0 <= i < j < |ws| ==> ws[i].id != ws[j].id
  }

  lemma RightApart<S>(b: Book<S>)
    requires Right(b)
    ensures Apart(b.waits) && forall i {:trigger b.waits[i]} :: 0 <= i < |b.waits| ==> b.waits[i].id !in b.sessions
  {
  }

  lemma UpdatedWaits(ws: seq<Wait>, k: nat, w: Wait, id: string)
    requires Apart(ws) && k < |ws| && w.id == ws[k].id
    ensures WaitMsgs(ws[k := w], id) == if id == w.id then w.msgs else WaitMsgs(ws, id)
  {
    var j := FindWait(ws, id);
    if j < |ws| {
      WaitMsgsAre(ws[k := w], id, j);
    } else {
      WaitMsgsAre(ws[k := w], id, |ws|);
    }
    WaitMsgsAre(ws[k := w], w.id, k);
  }

  lemma AppendedApart(ws: seq<Wait>, w: Wait)
    requires Apart(ws) && FindWait(ws, w.id) == |ws|
    ensures Apart(ws + [w])
  {
  }

  lemma WaitMsgsFound(ws: seq<Wait>, id: string, k: nat)
    requires Apart(ws) && k < |ws| && ws[k].id == id
    ensures WaitMsgs(ws, id) == ws[k].msgs
  {
  }

  lemma WaitMsgsNone(ws: seq<Wait>, id: string)
    requires forall i :: 0 <= i < |ws| ==> ws[i].id != id
    ensures WaitMsgs(ws, id) == []
  {
  }

  lemma AppendedWaits(ws: seq<Wait>, w: Wait, id: string)
    requires Apart(ws) && FindWait(ws, w.id) == |ws|
    ensures WaitMsgs(ws + [w], id) == if id == w.id then w.msgs else WaitMsgs(ws, id)
  {
    AppendedApart(ws, w);
    hide Apart, WaitMsgs;
    var j, vs := FindWait(ws, id), ws + [w];
    if id == w.id {
      WaitMsgsFound(vs, id, |ws|);
    } else if j < |ws| {
      assert vs[j] == ws[j];
      WaitMsgsFound(vs, id, j);
      WaitMsgsFound(ws, id, j);
    } else {
      WaitMsgsNone(vs, id);
      WaitMsgsNone(ws, id);
    }
  }

  lemma RemovedWaits(ws: seq<Wait>, k: nat, id: string)
    requires Apart(ws) && k < |ws|
    ensures WaitMsgs(ws[..k] + ws[k + 1..], id) == if id == ws[k].id then [] else WaitMsgs(ws, id)
    ensures !Waiting(ws[..k] + ws[k + 1..], ws[k].id)
  {
    var vs := ws[..k] + ws[k + 1..];
    assert forall i :: 0 <= i < |vs| ==> vs[i] == ws[if i < k then i else i + 1];
    var j := FindWait(ws, id);
    if id == ws[k].id || j == |ws| {
      WaitMsgsAre(vs, id, |vs|);
    } else {
      var i := if k < j then j - 1 else j;
      assert vs[i] == ws[j];
      WaitMsgsAre(vs, id, i);
    }
  }

  lemma AskedWaits(ws: seq<Wait>, id: string)
    requires Apart(ws)
    ensures WaitMsgs(AllAsked(ws), id) == WaitMsgs(ws, id)
  {
    WaitMsgsAre(AllAsked(ws), id, FindWait(ws, id));
  }

  lemma OthersWaitEncrypted<S>(olm: Olm<S>, b: Book<S>, sid: string, m: Pending, senderKey: string, id: string)
    requires Apart(b.waits) && sid != id
    ensures WaitMsgs(OnEncrypted(olm, b, sid, m, senderKey).0.waits, id) == WaitMsgs(b.waits, id)
  {
    hide Apart, WaitMsgs, Join;
    var ws, k := b.waits, FindWait(b.waits, sid);
    if k < |ws| {
      UpdatedWaits(ws, k, ws[k].(msgs := Join(ws[k].msgs, m)), id);
    } else if sid !in b.sessions {
      AppendedWaits(ws, Wait(sid, senderKey, b.bridgebot.Some?, [m]), id);
    }
  }

  lemma OthersWaitKey<S>(olm: Olm<S>, b: Book<S>, forwarded: bool, sid: string, key: string, id: string)
    requires Apart(b.waits) && sid != id
    ensures WaitMsgs(OnKey(olm, b, forwarded, sid, key).waits, id) == WaitMsgs(b.waits, id)
  {
    hide Apart, WaitMsgs, DecryptAll;
    if FindWait(b.waits, sid) < |b.waits| {
      RemovedWaits(b.waits, FindWait(b.waits, sid), id);
    }
  }

  /** The waits for other sessions go on as they were. */
  lemma OthersWait<S>(olm: Olm<S>, b: Book<S>, x: Input, id: string)
    requires Right(b) && !((x.Encrypted? || x.Key? || x.Outbound?) && x.id == id)
    ensures WaitMsgs(Step(olm, b, x).waits, id) == WaitMsgs(b.waits, id)
  {
    RightApart(b);
    hide Right, Apart, WaitMsgs, OnEncrypted, OnKey;
    match x
    case Encrypted(sid, event, ciphertext, senderKey) =>
      OthersWaitEncrypted(olm, b, sid, Pending(event, ciphertext), senderKey, id);
    case Key(forwarded, sid, key) => OthersWaitKey(olm, b, forwarded, sid, key, id);
    case Bridge(bot) => AskedWaits(b.waits, id);
    case Outbound(sid, key) =>
  }

  lemma ItselfWaits<S>(olm: Olm<S>, b: Book<S>, x: Input)
    requires Right(b) && x.Encrypted? && x.id !in b.sessions
    ensures WaitMsgs(Step(olm, b, x).waits, x.id) == Join(WaitMsgs(b.waits, x.id), Pending(x.event, x.ciphertext))
  {
    RightApart(b);
    hide Right, Apart;
    var ws, k, m := b.waits, FindWait(b.waits, x.id), Pending(x.event, x.ciphertext);
    if k < |ws| {
      UpdatedWaits(ws, k, ws[k].(msgs := Join(ws[k].msgs, m)), x.id);
    } else {
      AppendedWaits(ws, Wait(x.id, x.senderKey, b.bridgebot.Some?, [m]), x.id);
    }
  }

  /** However other events come in between, the messages of a session whose key has not come wait in the order in
      which they first came, each once. */
  lemma {:induction false} WaitsInOrder<S>(olm: Olm<S>, b: Book<S>, xs: seq<Input>, id: string)
    requires Right(b) && FreshRun(olm, b, xs) && NoKey(xs, id)
    requires id !in b.sessions && !Waiting(b.waits, id)
    ensures id !in Run(olm, b, xs).sessions && WaitMsgs(Run(olm, b, xs).waits, id) == Arrivals(xs, id)
  {
    if xs != [] {
      var n := |xs| - 1;
      var before, x := xs[..n], xs[n];
      NoKeyBefore(xs, n, id);
      ArrivalsStep(xs, n, id);
      RunPrefix(olm, b, xs, n);
      hide *;
      WaitsInOrder(olm, b, before, id);
      RunKeeps(olm, b, before);
      StillUnknown(olm, Run(olm, b, before), x, id);
      if x.Encrypted? && x.id == id {
        ItselfWaits(olm, Run(olm, b, before), x);
      } else {
        OthersWait(olm, Run(olm, b, before), x, id);
      }
    }
  }

  lemma NoKeyBefore(xs: seq<Input>, n: nat, id: string)
    requires NoKey(xs, id) && |xs| == n + 1
    ensures NoKey(xs[..n], id) && !((xs[n].Key? || xs[n].Outbound?) && xs[n].id == id)
  {
  }

  lemma ArrivalsStep(xs: seq<Input>, n: nat, id: string)
    requires |xs| == n + 1
    ensures Arrivals(xs, id) == if xs[n].Encrypted? && xs[n].id == id
                                then Join(Arrivals(xs[..n], id), Pending(xs[n].event, xs[n].ciphertext))
                                else Arrivals(xs[..n], id)
  {
  }

  lemma StillUnknown<S>(olm: Olm<S>, b: Book<S>, x: Input, id: string)
    requires id !in b.sessions && !((x.Key? || x.Outbound?) && x.id == id)
    ensures id !in Step(olm, b, x).sessions
  {
    hide DecryptAll;
  }

  /** Decrypting one message after the other succeeds for all of them. */
  predicate AllDecrypt<S>(olm: Olm<S>, s: S, ms: seq<Pending>)
  {
    ms == []
    || (olm.decrypt(s, ms[0].ciphertext).Some? && AllDecrypt(olm, olm.decrypt(s, ms[0].ciphertext).value.0, ms[1..]))
  }

  lemma {:induction false} EmitsAll<S>(olm: Olm<S>, s: S, ms: seq<Pending>)
    ensures AllDecrypt(olm, s, ms) <==> |DecryptAll(olm, s, ms).1| == |ms|
  {
    if ms != [] && olm.decrypt(s, ms[0].ciphertext).Some? {
      EmitsAll(olm, olm.decrypt(s, ms[0].ciphertext).value.0, ms[1..]);
    }
  }

  /** What the key of a session that is waited for does. */
  lemma KeyEmitsOnce<S>(olm: Olm<S>, c: Book<S>, forwarded: bool, id: string, key: string)
    requires Right(c) && Waiting(c.waits, id)
    ensures var ms, d := WaitMsgs(c.waits, id), OnKey(olm, c, forwarded, id, key);
            && d.emitted == c.emitted + DecryptAll(olm, olm.load(forwarded, key), ms).1
            && id in d.sessions && !Waiting(d.waits, id)
  {
    RightApart(c);
    hide Right, Apart, DecryptAll;
    RemovedWaits(c.waits, FindWait(c.waits, id), id);
  }

  /** When the key comes after all, the waiting messages are emitted in the order in which they first came; all
      of them, each once, exactly if they all decrypt. */
  lemma KeyEmits<S>(olm: Olm<S>, b: Book<S>, xs: seq<Input>, forwarded: bool, id: string, key: string)
    requires Right(b) && FreshRun(olm, b, xs) && NoKey(xs, id)
    requires id !in b.sessions && !Waiting(b.waits, id) && Arrivals(xs, id) != []
    ensures var ms, c := Arrivals(xs, id), Run(olm, b, xs);
            var d := Step(olm, c, Key(forwarded, id, key));
            && |c.emitted| <= |d.emitted| <= |c.emitted| + |ms| && d.emitted[..|c.emitted|] == c.emitted
            && (forall i :: 0 <= i < |d.emitted| - |c.emitted| ==> d.emitted[|c.emitted| + i].event == ms[i].event)
            && (|d.emitted| == |c.emitted| + |ms| <==> AllDecrypt(olm, olm.load(forwarded, key), ms))
            && id in d.sessions && !Waiting(d.waits, id)
  {
    WaitsInOrder(olm, b, xs, id);
    RunKeeps(olm, b, xs);
    var ms, c := Arrivals(xs, id), Run(olm, b, xs);
    EmitsPrefix(olm, olm.load(forwarded, key), ms);
    EmitsAll(olm, olm.load(forwarded, key), ms);
    WaitMsgsSome(c.waits, id);
    StepKey(olm, c, forwarded, id, key);
    hide *;
    KeyEmitsOnce(olm, c, forwarded, id, key);
  }

  lemma WaitMsgsSome(ws: seq<Wait>, id: string)
    ensures WaitMsgs(ws, id) != [] ==> Waiting(ws, id)
  {
  }

  lemma StepKey<S>(olm: Olm<S>, c: Book<S>, forwarded: bool, id: string, key: string)
    ensures Step(olm, c, Key(forwarded, id, key)) == OnKey(olm, c, forwarded, id, key)
  {
  }

  /** Half way through the waiting messages: so many are done, and decrypting goes on from here. */
  lemma DecryptAllStep<S>(olm: Olm<S>, s: S, ms: seq<Pending>)
    requires ms != []
    ensures var r := olm.decrypt(s, ms[0].ciphertext);
            DecryptAll(olm, s, ms) == if r.None? then (s, [])
                                      else (DecryptAll(olm, r.value.0, ms[1..]).0,
                                            [Emitted(ms[0].event, r.value.1)] + DecryptAll(olm, r.value.0, ms[1..]).1)
  {
  }

  lemma {:induction false} AskAllStep(ws: seq<Wait>, bot: string, i: nat)
    requires i < |ws|
    ensures AskAll(ws[..i + 1], bot) == AskAll(ws[..i], bot) + if ws[i].asked then [] else [Ask(ws[i], bot)]
  {
    if i > 0 {
      assert ws[..i + 1][1..] == ws[1..][..i] && ws[..i][1..] == ws[1..][..i - 1];
      AskAllStep(ws[1..], bot, i - 1);
    } else {
      assert ws[..1][1..] == [] && ws[..0] == [];
    }
  }

  lemma OnEncryptedCases<S>(olm: Olm<S>, b: Book<S>, id: string, m: Pending, senderKey: string)
    ensures var k, r := FindWait(b.waits, id), OnEncrypted(olm, b, id, m, senderKey);
            && (k < |b.waits| ==> r == (b.(waits := b.waits[k := b.waits[k].(msgs := Join(b.waits[k].msgs, m))]), None))
            && (k == |b.waits| && id in b.sessions ==>
                  var d := olm.decrypt(b.sessions[id], m.ciphertext);
                  r == if d.Some? then (b.(sessions := b.sessions[id := d.value.0]), Some(d.value.1)) else (b, None))
            && (k == |b.waits| && id !in b.sessions ==> r == (Start(b, id, m, senderKey), None))
  {
  }

  lemma OnKeyCases<S>(olm: Olm<S>, b: Book<S>, forwarded: bool, id: string, key: string)
    ensures var k, c := FindWait(b.waits, id), OnKey(olm, b, forwarded, id, key);
            && k <= |b.waits|
            && (k < |b.waits| ==>
                  c == b.(sessions := b.sessions[id := DecryptAll(olm, olm.load(forwarded, key), b.waits[k].msgs).0],
                          waits := b.waits[..k] + b.waits[k + 1..],
                          emitted := b.emitted + DecryptAll(olm, olm.load(forwarded, key), b.waits[k].msgs).1,
                          spared := b.spared + if b.waits[k].asked then [] else [id]))
            && (k == |b.waits| && id in b.sessions ==> c == b)
            && (k == |b.waits| && id !in b.sessions ==> c == b.(sessions := b.sessions[id := olm.load(forwarded, key)]))
  {
  }
}
