/** A chat room together with its conversation in the text UI: the room is the client of the conversation's
    events, and the conversation takes the room's calls. */
module Chat {
  import opened Basics
  import opened Window
  import opened EventQueue
  import R = Room
  import T = Texter

  /** What happens to a chat, with what the graphics library answers meanwhile. */
  datatype Step =
    | Messages(ev: R.MessagesEvent, lays: seq<T.Layout>)
    | Decryption(id: string, text: string, lays: seq<T.Layout>)
    | Deliver(lays: seq<T.Layout>)
    | Open(lay: T.Layout, busy: bool)
    | Back
    | Scroll(lay: T.Layout)

  const NO_LAYOUT := T.Layout([], [], {})

  function LayoutAt(lays: seq<T.Layout>, i: nat): T.Layout
  {
    if i < |lays| then lays[i] else NO_LAYOUT
  }

  /** A future in the list that the client has shows what the client last told it: the text, and if there is one, the
      member. */
  ghost predicate TextsAgree(client: seq<Fut>, bubbles: seq<Fut>, futs: map<Fut, T.Future>, shown: map<Fut, R.Seen>)
  {
    forall f :: f in client && f in bubbles ==>
      && f in futs && f in shown && futs[f].text == shown[f].text
      && (futs[f].text.Some? ==> futs[f].member == shown[f].member)
  }

  /** The client told something to every future of its run that was ever given a text, and to no others does it talk. */
  ghost predicate OnlyTheirs(client: seq<Fut>, given: set<Fut>, shown: map<Fut, R.Seen>)
  {
    && (forall f :: f in shown ==> f in client)
    && (forall f :: f in client ==> f in shown && (f in given ==> shown[f].told))
  }

  /** An event that fits the client's run is one the window is ready for. */
  lemma ReadyForLoad(w: Win, e: Event, given: set<Fut>, shown: map<Fut, R.Seen>)
    requires w.Shaped() && e.load && Fit(w.futs, e, given) && R.DisplaysIn(shown, w) && OnlyTheirs(w.futs, given, shown)
    ensures e.fut !in w.futs && !EndWaits(w, e.side)
    ensures Load(w, e.side, e.fut).futs == Apply(w.futs, e)
  {
    if w.futs != [] {
      var i: nat := if e.side.Top? then w.start else w.Bottom();
      assert w.InRun(i) && w.futs[i - w.start] == End(w.futs, e.side);
      assert shown[w.futs[i - w.start]].Of(w.bodies[i]);
    }
  }

  lemma ReadyForUnload(w: Win, e: Event, given: set<Fut>)
    requires w.Shaped() && !e.load && Fit(w.futs, e, given)
    ensures Unload(w, e.side).futs == Apply(w.futs, e) && R.Going(w, e.side) == {e.fut}
  {
  }

  /** The future takes one message; what follows about the list, however it came about. */
  lemma ToldAgree(client: seq<Fut>, bubbles: seq<Fut>, futs: map<Fut, T.Future>, next: Fut, given: set<Fut>,
                  shown: map<Fut, R.Seen>, c: R.Call, after: seq<Fut>, futs': map<Fut, T.Future>, next': Fut)
    requires TextsAgree(client, bubbles, futs, shown) && OnlyTheirs(client, given, shown)
    requires c.fut in client && c.fut in futs && forall f :: f in client ==> f < next
    requires T.TextsKept(futs[c.fut := futs[c.fut].(text := c.text, member := c.member)], next, futs', next')
    requires T.NoneBack(bubbles, next, after)
    requires forall f :: f in after ==> f in futs'
    ensures TextsAgree(client, after, futs', shown[c.fut := R.Seen(c.text, c.member, true)])
    ensures OnlyTheirs(client, given + {c.fut}, shown[c.fut := R.Seen(c.text, c.member, true)])
  {
  }

  lemma UntoldAgree(client: seq<Fut>, bubbles: seq<Fut>, futs: map<Fut, T.Future>, given: set<Fut>,
                    shown: map<Fut, R.Seen>,
                    c: R.Call)
    requires TextsAgree(client, bubbles, futs, shown) && OnlyTheirs(client, given, shown) && c.fut in client
    requires c.fut !in bubbles || (c.text == None && c.fut in futs && futs[c.fut].text == None)
    ensures TextsAgree(client, bubbles, futs, shown[c.fut := R.Seen(c.text, c.member, true)])
    ensures OnlyTheirs(client, given, shown[c.fut := R.Seen(c.text, c.member, true)])
  {
  }

  lemma KeptAgree(client: seq<Fut>, bubbles: seq<Fut>, futs: map<Fut, T.Future>, next: Fut, shown: map<Fut, R.Seen>,
                  after: seq<Fut>, futs': map<Fut, T.Future>, next': Fut)
    requires TextsAgree(client, bubbles, futs, shown) && forall f :: f in client ==> f < next
    requires T.TextsKept(futs, next, futs', next') && T.NoneBack(bubbles, next, after)
    requires forall f :: f in after ==> f in futs'
    ensures TextsAgree(client, after, futs', shown)
  {
  }

  lemma ToldNone(base: map<Fut, R.Seen>)
    ensures R.Told(base, []) == base
  {
  }

  lemma ToldStep(base: map<Fut, R.Seen>, calls: seq<R.Call>, i: nat)
    requires i < |calls|
    ensures R.Told(base, calls[..i + 1]) ==
            R.Told(base, calls[..i])[calls[i].fut := R.Seen(calls[i].text, calls[i].member, true)]
  {
    assert calls[..i + 1][..i] == calls[..i];
  }

  lemma EmptyAgree(bubbles: seq<Fut>, futs: map<Fut, T.Future>, given: set<Fut>)
    ensures EMPTY.WellFormed() && EMPTY.futs == []
    ensures TextsAgree([], bubbles, futs, map[]) && OnlyTheirs([], given, map[])
  {
  }

  lemma LoadedAgree(client: seq<Fut>, bubbles: seq<Fut>, futs: map<Fut, T.Future>, given: set<Fut>,
                    shown: map<Fut, R.Seen>, e: Event)
    requires TextsAgree(client, bubbles, futs, shown) && OnlyTheirs(client, given, shown)
    requires e.load && e.fut !in client && e.fut in futs && futs[e.fut].text == None && e.fut !in given
    ensures TextsAgree(Apply(client, e), bubbles, futs, shown[e.fut := R.BLANK])
    ensures OnlyTheirs(Apply(client, e), given, shown[e.fut := R.BLANK])
  {
    var f, after := e.fut, Apply(client, e);
    forall g ensures g in after <==> g in client || g == f {
      if g in client {
        var i :| 0 <= i < |client| && client[i] == g;
        assert after[if e.side.Top? then i + 1 else i] == g;
      }
    }
  }

  lemma UnloadedAgree(client: seq<Fut>, bubbles: seq<Fut>, futs: map<Fut, T.Future>, given: set<Fut>,
                      shown: map<Fut, R.Seen>, e: Event)
    requires TextsAgree(client, bubbles, futs, shown) && OnlyTheirs(client, given, shown)
    requires !e.load && client != [] && End(client, e.side) == e.fut && Distinct(client)
    ensures TextsAgree(Apply(client, e), bubbles, futs, shown - {e.fut})
    ensures OnlyTheirs(Apply(client, e), given, shown - {e.fut})
  {
    var f, after := e.fut, Apply(client, e);
    forall g ensures g in after <==> g in client && g != f {
      if g in client && g != f {
        var i :| 0 <= i < |client| && client[i] == g;
        assert after[if e.side.Top? then i - 1 else i] == g;
      }
    }
  }

  /** If the message's future is a bubble, the bubble shows the message's text. */
  predicate Seen(bubbles: seq<Fut>, futs: map<Fut, T.Future>, fut: Option<Fut>, m: Msg)
  {
    fut.Some? && fut.value in bubbles ==> fut.value in futs && futs[fut.value].text == m.text
  }

  /** What the room makes of an event. */
  function Handled(w: Win, e: Event): Win
    requires w.start + |w.futs| <= |w.bodies|
  {
    if e.load then Load(w, e.side, e.fut) else Unload(w, e.side)
  }

  lemma HandledIs(w: Win, e: Event)
    requires w.Shaped()
    ensures Handled(w, e) == if e.load then Load(w, e.side, e.fut) else Unload(w, e.side)
  {
  }

  /** What a chat holds on its two sides. */
  datatype View = View(room: R.View, convo: T.View)

  /** A new chat: no message is known, and the conversation waits for its latest one. */
  const START := View(R.View(EMPTY, map[], [], None, None, map[], false, []),
                      T.View([0], [Event(0, true, Top)], map[0 := T.Future(2, None, Them, true, false)], 1, false, None,
                             [], {}, []))

  /** One after the other, the conversation takes the calls; it may come to a stop at the last one that it takes. */
  ghost predicate Took(calls: seq<R.Call>, lays: seq<T.Layout>, views: seq<T.View>, ok: bool)
  {
    && 0 < |views| <= |calls| + 1 && (if ok then |views| == |calls| + 1 else |views| > 1)
    && forall i {:trigger views[i]} :: 0 <= i < |views| - 1 ==>
         CallTaken(calls[i], LayoutAt(lays, i), views[i], views[i + 1], ok || i < |views| - 2)
  }

  ghost predicate CallTaken(c: R.Call, lay: T.Layout, a: T.View, b: T.View, ok: bool)
  {
    T.Told(c.fut, c.text, c.member, lay, a, b, ok)
  }

  /** The conversation takes the calls and ends up so. */
  ghost predicate Conversed(calls: seq<R.Call>, lays: seq<T.Layout>, a: T.View, b: T.View, ok: bool)
  {
    exists views {:trigger Took(calls, lays, views, ok)} ::
      Took(calls, lays, views, ok) && views[0] == a && views[|views| - 1] == b
  }

  lemma ConversedIs(calls: seq<R.Call>, lays: seq<T.Layout>, views: seq<T.View>, a: T.View, b: T.View, ok: bool)
    requires Took(calls, lays, views, ok) && views != [] && views[0] == a && views[|views| - 1] == b
    ensures Conversed(calls, lays, a, b, ok)
  {
  }

  lemma TookNone(calls: seq<R.Call>, lays: seq<T.Layout>, v: T.View)
    ensures Took(calls[..0], lays, [v], true)
  {
  }

  lemma TookOne(calls: seq<R.Call>, lays: seq<T.Layout>, i: nat, views: seq<T.View>, v: T.View, ok: bool)
    requires i < |calls| && Took(calls[..i], lays, views, true)
    requires |views| > 0 && CallTaken(calls[i], LayoutAt(lays, i), views[|views| - 1], v, ok)
    ensures |views| == i + 1 && Took(if ok then calls[..i + 1] else calls, lays, views + [v], ok)
  {
    hide CallTaken, LayoutAt;
    var cs, vs := if ok then calls[..i + 1] else calls, views + [v];
    forall j {:trigger vs[j]} | 0 <= j < |vs| - 1
      ensures CallTaken(cs[j], LayoutAt(lays, j), vs[j], vs[j + 1], ok || j < |vs| - 2)
    {
      if j < i {
        assert vs[j] == views[j] && vs[j + 1] == views[j + 1] && cs[j] == calls[..i][j];
      }
    }
  }

  /** What an event of the conversation makes of the room. */
  ghost predicate Answered(e: Event, a: R.View, b: R.View)
  {
    && a.win.start + |a.win.futs| <= |a.win.bodies| && b.win == Handled(a.win, e) && b.texts == a.texts
    && b.shown == R.Told(if e.load then a.shown[e.fut := R.BLANK] else a.shown - {e.fut}, b.calls)
    && b.calls == (if e.load then R.LoadCalls(a.win, e.side, e.fut) else [])
    && if e.load then
         var next := NextRef(a.win, e.side);
         var asks := LoadWaits(a.win, e.side)
             && (if e.side.Top? then a.top == None else a.notCaughtUp && a.bottom == None);
         && b.requests == a.requests + (if asks then [R.Request(a.TextOf(next), e.side.Top?)] else [])
         && b.top == (if asks && e.side.Top? then next else a.top)
         && b.bottom == (if asks && e.side.Bottom? then next else a.bottom) && b.notCaughtUp == a.notCaughtUp
       else
         && b.requests == a.requests
         && b.top == (if e.side.Top? || |a.win.futs| <= 1 then None else a.top)
         && b.bottom == (if e.side.Bottom? || |a.win.futs| <= 1 then None else a.bottom)
         && b.notCaughtUp == (|a.win.futs| > 1 && (e.side.Bottom? || a.notCaughtUp))
  }

  /** The event in delivery is over: its reference is given back. */
  ghost predicate Released(a: T.View, b: T.View)
  {
    && b == a.(futs := b.futs, delivering := None)
    && forall f :: f in b.futs ==> f in a.futs && b.futs[f] == a.futs[f].(rc := b.futs[f].rc)
  }

  /** An event is delivered: the room handles it, and the conversation takes what the room calls meanwhile. */
  ghost predicate Delivered(lays: seq<T.Layout>, a: View, b: View, ok: bool)
  {
    a.convo.events != [] &&
    var e := a.convo.events[0];
    && Answered(e, a.room, b.room)
    && exists mid ::
         && (if ok then Released(mid, b.convo) else b.convo == mid)
         && Conversed(b.room.calls, lays, Taken(a.convo, e), mid, ok)
  }

  /** The first event is out of the queue. */
  function Taken(v: T.View, e: Event): T.View
    requires v.events != []
  {
    v.(events := v.events[1..], client := Apply(v.client, e), history := v.history + [e], delivering := Some(e.fut))
  }

  /** What one step makes of a chat. */
  ghost predicate Stepped(s: Step, a: View, b: View, ok: bool)
  {
    match s
    case Messages(ev, lays) =>
      if a.room.Survives(ev) then R.TakenIn(ev, a.room, b.room) && Conversed(b.room.calls, lays, a.convo, b.convo, ok)
      else !ok && b.convo == a.convo
    case Decryption(id, text, lays) =>
      && b.room == a.room.(win := Decrypted(a.room.win, id, text), shown := R.Told(a.room.shown, b.room.calls),
                           calls := b.room.calls)
      && b.room.calls == R.DecryptCalls(a.room.win, id, text)
      && Conversed(b.room.calls, lays, a.convo, b.convo, ok)
    case Deliver(lays) => if a.convo.events == [] then ok && b == a else Delivered(lays, a, b, ok)
    case Open(lay, busy) => b.room == a.room && T.OpenedTo(lay, busy, a.convo, b.convo, ok)
    case Back => ok && b.room == a.room && if a.convo.active then T.LeftTo(a.convo, b.convo) else b == a
    case Scroll(lay) =>
      b.room == a.room && if a.convo.active then T.ScrolledTo(lay, a.convo, b.convo, ok) else ok && b == a
  }

  /** The two sides are in step: with the queued events delivered, the room's futures are the bubbles, in order, and a
      bubble that the room has a message for shows its text, and the member that the room told last with it. The
      messages are in order. */
  ghost predicate InStep(v: View)
  {
    && v.room.win.WellFormed() && v.room.win.futs == v.convo.client && v.room.win.futs == Replay([], v.convo.history)
    && Replay(v.room.win.futs, v.convo.events) == v.convo.bubbles && T.OnceEach(v.convo.history)
    && TextsAgree(v.convo.client, v.convo.bubbles, v.convo.futs, v.room.shown) && ByTime(v.room.win.bodies)
    && forall i {:trigger v.room.win.FutAt(i)} :: 0 <= i < |v.room.win.bodies| ==>
         Seen(v.convo.bubbles, v.convo.futs, v.room.win.FutAt(i), v.room.win.bodies[i])
  }

  lemma SteppedDeliver(lays: seq<T.Layout>, a: View, b: View, ok: bool)
    requires if a.convo.events == [] then ok && b == a else Delivered(lays, a, b, ok)
    ensures Stepped(Deliver(lays), a, b, ok)
  {
    hide Delivered;
  }

  lemma SteppedOpen(lay: T.Layout, busy: bool, a: View, b: View, ok: bool)
    requires b.room == a.room && T.OpenedTo(lay, busy, a.convo, b.convo, ok)
    ensures Stepped(Step.Open(lay, busy), a, b, ok)
  {
    hide T.OpenedTo;
  }

  lemma SteppedBack(a: View, b: View)
    requires b.room == a.room && if a.convo.active then T.LeftTo(a.convo, b.convo) else b == a
    ensures Stepped(Step.Back, a, b, true)
  {
    hide T.LeftTo;
  }

  lemma SteppedScroll(lay: T.Layout, a: View, b: View, ok: bool)
    requires b.room == a.room && if a.convo.active then T.ScrolledTo(lay, a.convo, b.convo, ok) else ok && b == a
    ensures Stepped(Step.Scroll(lay), a, b, ok)
  {
    hide T.ScrolledTo;
  }

  class Chat {
    const room: R.Room
    const convo: T.Convo

    ghost function Now(): (v: View)
      reads room, convo
      ensures v == View(room.Now(), convo.Now())
    {
      View(room.Now(), convo.Now())
    }

    /** Every state between two callbacks. */
    ghost predicate Consistent()
      reads room, room.msgs, convo
    {
      && room.Valid() && convo.Valid() && convo.delivering == None
      && room.win.WellFormed() && room.win.futs == convo.client
      && TextsAgree(convo.client, convo.bubbles, convo.futs, room.shown)
      && OnlyTheirs(convo.client, convo.given, room.shown)
    }

    constructor ()
      ensures Consistent() && Now() == START && fresh(room) && fresh(convo) && room.pool == {}
    {
      room := new R.Room();
      convo := new T.Convo();
      new;
      EmptyAgree(convo.bubbles, convo.futs, convo.given);
    }

    /** The conversation takes one call of the room. */
    method TakeCall(c: R.Call, lay: T.Layout, ghost shown: map<Fut, R.Seen>) returns (ok: bool)
      requires convo.Valid() && c.fut in shown
      requires TextsAgree(convo.client, convo.bubbles, convo.futs, shown)
      requires OnlyTheirs(convo.client, convo.given, shown)
      modifies convo`bubbles, convo`events, convo`futs, convo`nextFut, convo`given
      ensures ok ==> convo.Valid()
      ensures ok ==> TextsAgree(convo.client, convo.bubbles, convo.futs, shown[c.fut := R.Seen(c.text, c.member, true)])
      ensures ok ==> OnlyTheirs(convo.client, convo.given, shown[c.fut := R.Seen(c.text, c.member, true)])
      ensures !ok ==> convo.active && T.Stopped(lay, convo.futs, convo.bubbles, c.fut)
      ensures CallTaken(c, lay, old(convo.Now()), convo.Now(), ok)
    {
      hide *;
      Theirs(convo.client, convo.given, shown);
      convo.ValidParts();
      convo.ClientLives();
      ghost var untold := c.fut !in convo.bubbles || (c.text == None && convo.futs[c.fut].text == None);
      if untold {
        UntoldAgree(convo.client, convo.bubbles, convo.futs, convo.given, shown, c);
      }
      ok := convo.SetMessage(c.fut, c.text, c.member, lay);
      CallTakenIs(c, lay, old(convo.Now()), convo.Now(), ok);
      if ok && !untold {
        convo.ValidParts();
        convo.ClientLives();
        ToldAgree(convo.client, old(convo.bubbles), old(convo.futs), old(convo.nextFut), old(convo.given), shown, c,
                  convo.bubbles, convo.futs, convo.nextFut);
      }
    }

    lemma CallTakenIs(c: R.Call, lay: T.Layout, a: T.View, b: T.View, ok: bool)
      requires T.Told(c.fut, c.text, c.member, lay, a, b, ok)
      ensures CallTaken(c, lay, a, b, ok)
    {
    }

    lemma LoggedParts()
      requires room.Logged()
      ensures room.shown == R.Told(room.base, room.calls)
      ensures forall i {:trigger room.calls[i]} :: 0 <= i < |room.calls| ==> room.calls[i].fut in room.base
    {
    }

    /** The conversation, open, has come to a stop at this call of the room. */
    ghost predicate StoppedAt(lays: seq<T.Layout>, k: int)
      reads room`calls, convo`active, convo`futs, convo`bubbles
    {
      0 <= k < |room.calls| && convo.active &&
      T.Stopped(LayoutAt(lays, k), convo.futs, convo.bubbles, room.calls[k].fut)
    }

    ghost predicate CallStopped(lays: seq<T.Layout>)
      reads room`calls, convo`active, convo`futs, convo`bubbles
    {
      exists k :: StoppedAt(lays, k)
    }

    lemma StoppedThere(lays: seq<T.Layout>, k: nat)
      requires k < |room.calls| && convo.active
      requires T.Stopped(LayoutAt(lays, k), convo.futs, convo.bubbles, room.calls[k].fut)
      ensures CallStopped(lays)
    {
      assert StoppedAt(lays, k);
    }

    lemma NoneStopped(lays: seq<T.Layout>)
      ensures CallStopped(lays) ==> convo.active && room.calls != []
    {
    }

    /** Why a step was the last one: a chunk without a chunk id brought a new message; the conversation came to a stop
        at a call of the room; or the layout would have the last bubble go. */
    ghost predicate Broke(s: Step)
      reads room`calls, room`win, convo`active, convo`futs, convo`bubbles
    {
      match s
      case Messages(ev, lays) =>
        (ev.thisChunk.None? && ev.nextChunk.None? && News(room.win.bodies, ev.messages) != []) || CallStopped(lays)
      case Decryption(_, _, lays) => CallStopped(lays)
      case Deliver(lays) => CallStopped(lays)
      case Open(lay, _) => T.LastGoes(lay, convo.futs, convo.bubbles)
      case Back => false
      case Scroll(lay) => T.LastGoes(lay, convo.futs, convo.bubbles)
    }

    /** The conversation takes the calls the room made during one event. */
    method TakeCalls(lays: seq<T.Layout>) returns (ok: bool)
      requires room.Logged() && convo.Valid()
      requires TextsAgree(convo.client, convo.bubbles, convo.futs, room.base)
      requires OnlyTheirs(convo.client, convo.given, room.base)
      modifies convo`bubbles, convo`events, convo`futs, convo`nextFut, convo`given
      ensures ok ==> convo.Valid()
      ensures ok ==> TextsAgree(convo.client, convo.bubbles, convo.futs, room.shown)
      ensures ok ==> OnlyTheirs(convo.client, convo.given, room.shown)
      ensures !ok ==> CallStopped(lays)
      ensures Conversed(room.calls, lays, old(convo.Now()), convo.Now(), ok)
    {
      hide *;
      ok := true;
      ghost var was, views := convo.Now(), [convo.Now()];
      TookNone(room.calls, lays, was);
      var i := 0;
      LoggedParts();
      assert room.calls[..0] == [];
      ToldNone(room.base);
      while ok && i < |room.calls|
        invariant i <= |room.calls|
        invariant ok ==> convo.Valid()
        invariant ok ==> TextsAgree(convo.client, convo.bubbles, convo.futs, R.Told(room.base, room.calls[..i]))
        invariant ok ==> OnlyTheirs(convo.client, convo.given, R.Told(room.base, room.calls[..i]))
        invariant !ok ==> CallStopped(lays)
        invariant views != [] && views[0] == was && views[|views| - 1] == convo.Now()
        invariant Took(if ok then room.calls[..i] else room.calls, lays, views, ok)
        decreases |room.calls| - i, ok
      {
        R.ToldKeys(room.base, room.calls[..i]);
        ToldStep(room.base, room.calls, i);
        ok := TakeCall(room.calls[i], LayoutAt(lays, i), R.Told(room.base, room.calls[..i]));
        if !ok {
          StoppedThere(lays, i);
        }
        TookOne(room.calls, lays, i, views, convo.Now(), ok);
        views := views + [convo.Now()];
        i := i + 1;
      }
      assert room.calls[..|room.calls|] == room.calls;
      ConversedIs(room.calls, lays, views, was, convo.Now(), ok);
    }

    lemma ConsistentParts()
      requires Consistent()
      ensures room.Valid() && convo.Valid() && convo.delivering == None
      ensures room.win.WellFormed() && room.win.Shaped() && room.win.futs == convo.client && Distinct(room.win.futs)
      ensures TextsAgree(convo.client, convo.bubbles, convo.futs, room.shown)
      ensures OnlyTheirs(convo.client, convo.given, room.shown) && R.DisplaysIn(room.shown, room.win)
    {
    }

    lemma RoomLogged()
      requires room.Valid()
      ensures room.Logged()
    {
    }

    lemma ConsistentAgain()
      requires room.Valid() && convo.Valid() && convo.delivering == None
      requires room.win.WellFormed() && room.win.futs == convo.client
      requires TextsAgree(convo.client, convo.bubbles, convo.futs, room.shown)
      requires OnlyTheirs(convo.client, convo.given, room.shown)
      ensures Consistent()
    {
    }

    lemma RoomText(o: Option<ChunkRef>)
      ensures room.TextOf(o) == room.Now().TextOf(o)
    {
    }

    lemma AnsweredIs(e: Event, a: R.View, b: R.View)
      requires a.win.start + |a.win.futs| <= |a.win.bodies| && b.win == Handled(a.win, e) && b.texts == a.texts
      requires b.shown == R.Told(if e.load then a.shown[e.fut := R.BLANK] else a.shown - {e.fut}, b.calls)
      requires b.calls == if e.load then R.LoadCalls(a.win, e.side, e.fut) else []
      requires e.load ==>
                 var next := NextRef(a.win, e.side);
                 var asks := LoadWaits(a.win, e.side)
                     && (if e.side.Top? then a.top == None else a.notCaughtUp && a.bottom == None);
                 && b.requests == a.requests + (if asks then [R.Request(a.TextOf(next), e.side.Top?)] else [])
                 && b.top == (if asks && e.side.Top? then next else a.top)
                 && b.bottom == (if asks && e.side.Bottom? then next else a.bottom) && b.notCaughtUp == a.notCaughtUp
      requires !e.load ==>
                 && b.requests == a.requests
                 && b.top == (if e.side.Top? || |a.win.futs| <= 1 then None else a.top)
                 && b.bottom == (if e.side.Bottom? || |a.win.futs| <= 1 then None else a.bottom)
                 && b.notCaughtUp == (|a.win.futs| > 1 && (e.side.Bottom? || a.notCaughtUp))
      ensures Answered(e, a, b)
    {
    }

    /** The room handles an event that the conversation delivers. */
    method Handle(e: Event)
      requires room.Valid() && room.win.WellFormed() && Fit(room.win.futs, e, convo.given)
      requires R.DisplaysIn(room.shown, room.win) && OnlyTheirs(room.win.futs, convo.given, room.shown)
      modifies room, room.pool
      ensures room.Valid() && room.win.WellFormed() && room.win.futs == Apply(old(room.win.futs), e)
      ensures room.win == Handled(old(room.win), e)
      ensures room.base == if e.load then old(room.shown)[e.fut := R.BLANK] else old(room.shown) - {e.fut}
      ensures fresh(room.pool - old(room.pool))
      ensures Answered(e, old(room.Now()), room.Now())
    {
      hide *;
      ghost var was := room.Now();
      ShapedFirst(room.win);
      HandledIs(room.win, e);
      if e.load {
        RoomText(NextRef(room.win, e.side));
        ReadyForLoad(room.win, e, convo.given, room.shown);
        LoadKeeps(room.win, e.side, e.fut);
        if e.side.Top? {
          room.LoadTop(e.fut);
        } else {
          room.LoadBottom(e.fut);
        }
      } else {
        ReadyForUnload(room.win, e, convo.given);
        UnloadKeeps(room.win, e.side);
        if e.side.Top? {
          room.UnloadTop();
        } else {
          room.UnloadBottom();
        }
        ToldNone(room.base);
      }
      RoomLogged();
      LoggedParts();
      AnsweredIs(e, was, room.Now());
    }

    /** One round of event_timer_cb: the conversation delivers its first event, the room handles it. */
    method Deliver(lays: seq<T.Layout>) returns (ok: bool)
      requires Consistent() && convo.events != []
      modifies room, room.pool, convo
      ensures ok ==> Consistent()
      ensures fresh(room.pool - old(room.pool))
      ensures ok ==> convo.client == Apply(old(convo.client), old(convo.events)[0])
      ensures ok ==> convo.history == old(convo.history) + [old(convo.events)[0]]
      ensures room.win == Handled(old(room.win), old(convo.events)[0])
      ensures !ok ==> CallStopped(lays)
      ensures Delivered(lays, old(Now()), Now(), ok)
    {
      hide *;
      ConsistentParts();
      ghost var was := Now();
      var e := convo.Take();
      TakenIs(was.convo, e);
      FitParts(old(convo.client), e, convo.given);
      if e.load {
        LoadedAgree(old(convo.client), convo.bubbles, convo.futs, convo.given, room.shown, e);
      } else {
        UnloadedAgree(old(convo.client), convo.bubbles, convo.futs, convo.given, room.shown, e);
      }
      Handle(e);
      RoomLogged();
      ok := TakeCalls(lays);
      ghost var mid := convo.Now();
      if ok {
        ghost var futs, bubbles := convo.futs, convo.bubbles;
        convo.ValidParts();
        convo.ClientLives();
        convo.Done();
        convo.ValidParts();
        convo.ClientLives();
        CountsApart(convo.client, bubbles, futs, room.shown, convo.futs);
        ConsistentAgain();
        ReleasedIs(mid, convo.Now());
      }
      DeliveredIs(lays, e, was, mid, Now(), ok);
    }

    lemma TakenIs(v: T.View, e: Event)
      requires v.events != []
      ensures Taken(v, e) == v.(events := v.events[1..], client := Apply(v.client, e), history := v.history + [e],
                               delivering := Some(e.fut))
    {
    }

    lemma ReleasedIs(a: T.View, b: T.View)
      requires b == a.(futs := b.futs, delivering := None)
      requires forall f :: f in b.futs ==> f in a.futs && b.futs[f] == a.futs[f].(rc := b.futs[f].rc)
      ensures Released(a, b)
    {
    }

    lemma DeliveredIs(lays: seq<T.Layout>, e: Event, a: View, mid: T.View, b: View, ok: bool)
      requires a.convo.events != [] && e == a.convo.events[0] && Answered(e, a.room, b.room)
      requires if ok then Released(mid, b.convo) else b.convo == mid
      requires Conversed(b.room.calls, lays, Taken(a.convo, e), mid, ok)
      ensures Delivered(lays, a, b, ok)
    {
      hide Answered, Released, Conversed, Taken;
    }

    lemma MergedWell(w: Win, ev: R.MessagesEvent, c: ChunkRef)
      requires w.WellFormed() && w.futs != [] && DistinctIncoming(ev.messages)
      ensures MergeChunk(w, ev.messages, c, ev.up).WellFormed() && MergeChunk(w, ev.messages, c, ev.up).futs == w.futs
    {
      NewsDistinct(w.bodies, ev.messages);
      ChunkKeeps(w, ev.messages, c, ev.up);
    }

    /** A chunk of messages comes in. */
    method OnMessages(ev: R.MessagesEvent, lays: seq<T.Layout>) returns (ok: bool)
      requires Consistent() && DistinctIncoming(ev.messages)
      modifies room, room.pool, convo
      ensures ok ==> Consistent() && convo.client == old(convo.client)
      ensures ok && old(room.Wanted(ev)) ==> exists c :: room.win == MergeChunk(old(room.win), ev.messages, c, ev.up)
      ensures !old(room.Wanted(ev)) ==> ok && room.win == old(room.win)
      ensures !ok ==>
          (ev.thisChunk.None? && ev.nextChunk.None? && News(room.win.bodies, ev.messages) != []) || CallStopped(lays)
      ensures !old(convo.active) ==>
                (ok <==> (old(room.Wanted(ev)) ==>
                            ev.thisChunk.Some? || ev.nextChunk.Some? || News(old(room.win).bodies, ev.messages) == []))
      ensures old(room.Wanted(ev)) && ok ==>
                ev.thisChunk.Some? || ev.nextChunk.Some? || News(old(room.win).bodies, ev.messages) == []
      ensures fresh(room.pool - old(room.pool))
      ensures Stepped(Messages(ev, lays), old(Now()), Now(), ok)
    {
      hide *;
      ConsistentParts();
      ghost var c, was := 0, Now();
      WantsIs(ev);
      ok, c := room.OnMessages(ev);
      ghost var survived := ok;
      if ok {
        if old(room.Wanted(ev)) {
          MergedWell(old(room.win), ev, c);
        }
        RoomLogged();
        LoggedParts();
        SlotsNow();
        TakenInIs(ev, was.room, room.Now(), c);
        ok := TakeCalls(lays);
        NoneStopped(lays);
        if ok {
          ConsistentAgain();
        }
      }
      SteppedMessages(ev, lays, was, Now(), ok);
    }

    lemma WantsIs(ev: R.MessagesEvent)
      ensures room.Wanted(ev) <==> room.Now().Wants(ev)
      ensures room.Now().Survives(ev) <==>
              (room.Wanted(ev) ==> ev.thisChunk.Some? || ev.nextChunk.Some? || News(room.win.bodies, ev.messages) == [])
      ensures room.SlotText(true) == room.Now().Slot(true) && room.SlotText(false) == room.Now().Slot(false)
    {
    }

    lemma SlotsNow()
      ensures room.SlotText(true) == room.Now().Slot(true) && room.SlotText(false) == room.Now().Slot(false)
    {
    }

    lemma TakenInIs(ev: R.MessagesEvent, a: R.View, b: R.View, c: ChunkRef)
      requires b.shown == R.Told(a.shown, b.calls)
      requires a.Wants(ev) ==>
                 && a.win.futs != [] && b.win.Shaped() && b.win.futs != []
                 && b.win == MergeChunk(a.win, ev.messages, c, ev.up)
                 && b.calls == R.ChunkCalls(a.win, ev.messages, c, ev.up)
                 && (forall e :: e in News(a.win.bodies, ev.messages) ==> R.Brought(b.win.bodies, e))
                 && b.requests == a.requests + R.Asks(b.win, a.notCaughtUp, ev) && b.Slot(!ev.up) == a.Slot(!ev.up)
                 && b.Slot(ev.up) ==
                      (if R.Asks(b.win, a.notCaughtUp, ev) != [] then R.Asks(b.win, a.notCaughtUp, ev)[0].chunk
                                      else if ev.thisChunk.Some? then None else a.Slot(ev.up))
                 && b.notCaughtUp == (a.notCaughtUp && (ev.up || ev.thisChunk.None? || ev.nextChunk.Some?))
      requires !a.Wants(ev) ==>
                 && b.win == a.win && b.calls == [] && b.requests == a.requests
                 && b.Slot(true) == a.Slot(true) && b.Slot(false) == a.Slot(false)
                 && b.notCaughtUp == (a.notCaughtUp || (ev.thisChunk.None? && a.win.futs != []))
      ensures R.TakenIn(ev, a, b)
    {
    }

    lemma SteppedMessages(ev: R.MessagesEvent, lays: seq<T.Layout>, a: View, b: View, ok: bool)
      requires a.room.Survives(ev) ==>
                 R.TakenIn(ev, a.room, b.room) && Conversed(b.room.calls, lays, a.convo, b.convo, ok)
      requires !a.room.Survives(ev) ==> !ok && b.convo == a.convo
      ensures Stepped(Messages(ev, lays), a, b, ok)
    {
      hide Conversed;
    }

    /** A message was decrypted late. */
    method OnDecrypted(id: string, text: string, lays: seq<T.Layout>) returns (ok: bool)
      requires Consistent()
      modifies room, room.pool, convo
      ensures ok ==> Consistent() && convo.client == old(convo.client)
      ensures room.win == Decrypted(old(room.win), id, text) && room.pool == old(room.pool)
      ensures !ok ==> CallStopped(lays)
      ensures Stepped(Decryption(id, text, lays), old(Now()), Now(), ok)
    {
      hide *;
      ConsistentParts();
      ghost var was := Now();
      room.OnDecrypted(id, text);
      DecryptedKeeps(old(room.win), id, text);
      SameIdsParts(room.win, old(room.win));
      RoomLogged();
      LoggedParts();
      ok := TakeCalls(lays);
      if ok {
        ConsistentAgain();
      }
      SteppedDecryption(id, text, lays, was, Now(), ok);
    }

    lemma SteppedDecryption(id: string, text: string, lays: seq<T.Layout>, a: View, b: View, ok: bool)
      requires b.room == a.room.(win := Decrypted(a.room.win, id, text), shown := R.Told(a.room.shown, b.room.calls),
                                 calls := b.room.calls)
      requires b.room.calls == R.DecryptCalls(a.room.win, id, text)
      requires Conversed(b.room.calls, lays, a.convo, b.convo, ok)
      ensures Stepped(Decryption(id, text, lays), a, b, ok)
    {
      hide Conversed;
    }

    /** The user opens the conversation. */
    method Open(lay: T.Layout, busy: bool) returns (ok: bool)
      requires Consistent()
      modifies convo
      ensures Consistent() && convo.client == old(convo.client) && convo.active == (old(convo.active) || !busy)
      ensures !ok ==> T.LastGoes(lay, convo.futs, convo.bubbles)
      ensures T.OpenedTo(lay, busy, old(convo.Now()), convo.Now(), ok)
    {
      hide *;
      ConsistentParts();
      convo.ValidParts();
      convo.ClientLives();
      ok := convo.Open(lay, busy);
      T.KeptTexts(old(convo.futs), old(convo.nextFut), convo.futs, convo.nextFut);
      Same(old(convo.bubbles), old(convo.futs), old(convo.nextFut));
    }

    lemma Same(bubbles: seq<Fut>, futs: map<Fut, T.Future>, next: Fut)
      requires room.Valid() && convo.Valid() && convo.delivering == None
      requires room.win.WellFormed() && room.win.futs == convo.client
      requires TextsAgree(convo.client, bubbles, futs, room.shown)
      requires OnlyTheirs(convo.client, convo.given, room.shown) && forall f :: f in convo.client ==> f < next
      requires T.TextsKept(futs, next, convo.futs, convo.nextFut) && T.NoneBack(bubbles, next, convo.bubbles)
      ensures Consistent()
    {
      hide *;
      convo.ValidParts();
      convo.ClientLives();
      KeptAgree(convo.client, bubbles, futs, next, room.shown, convo.bubbles, convo.futs, convo.nextFut);
      ConsistentAgain();
    }

    /** The user leaves the conversation. */
    method Back()
      requires Consistent() && convo.active
      modifies convo
      ensures Consistent() && convo.client == old(convo.client) && !convo.active
      ensures T.LeftTo(old(convo.Now()), convo.Now())
    {
      hide *;
      ConsistentParts();
      convo.ValidParts();
      convo.ClientLives();
      ghost var was := convo.Now();
      convo.Back();
      convo.LinkedNow();
      T.LeftToIs(was, convo.Now());
      T.LeftTexts(was.futs, was.nextFut, convo.futs, convo.nextFut);
      Same(was.bubbles, was.futs, was.nextFut);
    }

    /** The user scrolls. */
    method Scroll(lay: T.Layout) returns (ok: bool)
      requires Consistent() && convo.active
      modifies convo
      ensures Consistent() && convo.client == old(convo.client)
      ensures T.ScrolledTo(lay, old(convo.Now()), convo.Now(), ok)
      ensures !ok ==> T.LastGoes(lay, convo.futs, convo.bubbles)
    {
      hide *;
      ConsistentParts();
      convo.ValidParts();
      convo.ClientLives();
      ok := convo.UpdateScroll(lay);
      T.KeptTexts(old(convo.futs), old(convo.nextFut), convo.futs, convo.nextFut);
      Same(old(convo.bubbles), old(convo.futs), old(convo.nextFut));
    }

    /** What a consistent state says about the two sides: with the queued events delivered, the room's futures from
        the top to the bottom of its run are the bubbles of the conversation, in order; and a bubble that the room has
        a message for shows that message's text. */
    lemma Synchronised()
      requires Consistent()
      ensures InStep(Now())
      ensures Replay(room.win.futs, convo.events) == convo.bubbles && room.win.futs == Replay([], convo.history)
      ensures room.win.WellFormed() && T.OnceEach(convo.history)
      ensures forall f :: f in convo.futs <==> f in convo.bubbles || Queued(convo.events, f)
      ensures forall i {:trigger room.win.FutAt(i)} :: 0 <= i < |room.win.bodies| ==>
                Seen(convo.bubbles, convo.futs, room.win.FutAt(i), room.win.bodies[i])
    {
      WellFormedByTime(room.win);
      forall f ensures f in convo.futs <==> f in convo.bubbles || Queued(convo.events, f) {
        assert T.Held(convo.bubbles, convo.events, None, None, f) > 0 <==>
                 f in convo.bubbles || Queued(convo.events, f);
      }
    }

    /** One step of a run; if the program does not survive it, it broke there. */
    method Step(s: Step) returns (ok: bool)
      requires Consistent() && (s.Messages? ==> DistinctIncoming(s.ev.messages))
      modifies room, room.pool, convo
      ensures ok ==> Consistent() && InStep(Now())
      ensures !ok ==> Broke(s)
      ensures Stepped(s, old(Now()), Now(), ok)
      ensures fresh(room.pool - old(room.pool))
    {
      hide *;
      ok := true;
      BrokeIs(s);
      ghost var was := Now();
      match s {
        case Messages(ev, lays) => ok := OnMessages(ev, lays);
        case Decryption(id, text, lays) => ok := OnDecrypted(id, text, lays);
        case Deliver(lays) =>
          if convo.events != [] {
            ok := Deliver(lays);
          }
          SteppedDeliver(lays, was, Now(), ok);
        case Open(lay, busy) =>
          ok := Open(lay, busy);
          SteppedOpen(lay, busy, was, Now(), ok);
        case Back =>
          if convo.active {
            Back();
          }
          SteppedBack(was, Now());
        case Scroll(lay) =>
          if convo.active {
            ok := Scroll(lay);
          }
          SteppedScroll(lay, was, Now(), ok);
      }
      BrokeIs(s);
      if ok {
        Synchronised();
      }
    }

    lemma BrokeIs(s: Step)
      ensures s.Messages? ==>
                (Broke(s) <==>
                   || (s.ev.thisChunk.None? && s.ev.nextChunk.None? && News(room.win.bodies, s.ev.messages) != [])
                   || CallStopped(s.lays))
      ensures s.Decryption? || s.Deliver? ==> (Broke(s) <==> CallStopped(s.lays))
      ensures s.Open? || s.Scroll? ==> (Broke(s) <==> T.LastGoes(s.lay, convo.futs, convo.bubbles))
    {
    }
  }

  /** A run from view to view: each step makes the next view of the one before it, and only the last may break. */
  ghost predicate RunOf(steps: seq<Step>, views: seq<View>, ok: bool)
  {
    && 0 < |views| <= |steps| + 1 && (if ok then |views| == |steps| + 1 else |views| > 1)
    && views[0] == START
    && forall i {:trigger views[i]} :: 0 <= i < |views| - 1 ==>
         InStep(views[i]) && Stepped(steps[i], views[i], views[i + 1], ok || i < |views| - 2)
  }

  lemma RunStart(steps: seq<Step>)
    ensures RunOf(steps[..0], [START], true)
  {
  }

  lemma RunOne(steps: seq<Step>, i: nat, views: seq<View>, v: View, ok: bool)
    requires i < |steps| && RunOf(steps[..i], views, true)
    requires |views| > 0 && InStep(views[|views| - 1]) && Stepped(steps[i], views[|views| - 1], v, ok)
    ensures |views| == i + 1 && RunOf(if ok then steps[..i + 1] else steps, views + [v], ok)
  {
    hide InStep, Stepped;
    var ss, vs := if ok then steps[..i + 1] else steps, views + [v];
    forall j {:trigger vs[j]} | 0 <= j < |vs| - 1
      ensures InStep(vs[j]) && Stepped(ss[j], vs[j], vs[j + 1], ok || j < |vs| - 2)
    {
      if j < i {
        assert vs[j] == views[j] && vs[j + 1] == views[j + 1] && ss[j] == steps[..i][j];
      }
    }
  }

  lemma RunParts(steps: seq<Step>, views: seq<View>, ok: bool)
    requires RunOf(steps, views, ok)
    ensures 0 < |views| <= |steps| + 1 && (if ok then |views| == |steps| + 1 else |views| > 1) && views[0] == START
  {
  }

  /** Any run of a new chat, of any steps in any order: all of them are taken, each does just what a step does, and the
      two sides are kept in step after every one; or else the last step that was taken broke. */
  method Run(steps: seq<Step>) returns (ok: bool, chat: Chat, ghost views: seq<View>)
    requires forall i {:trigger steps[i]} :: 0 <= i < |steps| && steps[i].Messages? ==>
               DistinctIncoming(steps[i].ev.messages)
    ensures RunOf(steps, views, ok) && views[|views| - 1] == chat.Now()
    ensures ok ==> chat.Consistent() && InStep(chat.Now())
    ensures !ok ==> chat.Broke(steps[|views| - 2])
  {
    hide *;
    chat := new Chat();
    ok := true;
    views := [START];
    RunStart(steps);
    chat.Synchronised();
    var i := 0;
    while ok && i < |steps|
      invariant i <= |steps| && fresh(chat) && fresh(chat.room) && fresh(chat.room.pool) && fresh(chat.convo)
      invariant RunOf(if ok then steps[..i] else steps, views, ok) && |views| == i + 1 && views[i] == chat.Now()
      invariant ok ==> chat.Consistent() && InStep(chat.Now())
      invariant !ok ==> i > 0 && chat.Broke(steps[i - 1])
      decreases |steps| - i, ok
    {
      ok := chat.Step(steps[i]);
      RunOne(steps, i, views, chat.Now(), ok);
      views := views + [chat.Now()];
      i := i + 1;
    }
    assert steps[..|steps|] == steps;
    RunParts(steps, views, ok);
  }

  lemma SameIdsParts(v: Win, w: Win)
    requires SameIds(v, w)
    ensures v.futs == w.futs
  {
  }

  lemma ShapedFirst(w: Win)
    requires w.WellFormed()
    ensures w.Shaped()
  {
  }

  lemma CountsApart(client: seq<Fut>, bubbles: seq<Fut>, futs: map<Fut, T.Future>, shown: map<Fut, R.Seen>,
                    futs': map<Fut, T.Future>)
    requires TextsAgree(client, bubbles, futs, shown)
    requires forall g :: g in futs' ==> g in futs && futs'[g] == futs[g].(rc := futs'[g].rc)
    requires forall g :: g in bubbles ==> g in futs'
    ensures TextsAgree(client, bubbles, futs', shown)
  {
  }

  lemma Theirs(client: seq<Fut>, given: set<Fut>, shown: map<Fut, R.Seen>)
    requires OnlyTheirs(client, given, shown)
    ensures forall f :: f in shown <==> f in client
  {
  }
}
