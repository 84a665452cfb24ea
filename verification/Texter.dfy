/** A conversation of texter_ui.c: its bubble list, the reference counts of its futures and the queue of
    events for the client. */
module Texter {
  import opened Basics
  import opened Window
  import opened EventQueue

  const LOAD_DISTANCE_LOWER: int := 1000
  const LOAD_DISTANCE_UPPER: int := 3000

  /** texter_ui_future_t, less its links. `bubble` says whether it is drawn. */
  datatype Future = Future(rc: nat, text: Option<string>, member: Member, latest: bool, bubble: bool)

  /** What the graphics library answers during one callback: the successive scroll distances to the bottom and to the
      top, and which bubbles are visible. */
  datatype Layout = Layout(below: seq<int>, above: seq<int>, visible: set<Fut>)

  function Reading(rs: seq<int>, i: nat): int
  {
    if i < |rs| then rs[i] else 0
  }

  function One(b: bool): nat { if b then 1 else 0 }

  /** How many references to a future there are: by the list, by the queue, by the event in delivery, and by
      the callback that is just handling it. */
  ghost function Held(bubbles: seq<Fut>, es: seq<Event>, delivering: Option<Fut>, owed: Option<Fut>, f: Fut): nat
  {
    One(f in bubbles) + One(Queued(es, f)) + One(delivering == Some(f)) + One(owed == Some(f))
  }

  /** A future is allocated exactly while there is a reference to it, and its count is how many there are. */
  ghost predicate Counts(futs: map<Fut, Future>, bubbles: seq<Fut>, es: seq<Event>, delivering: Option<Fut>,
                         owed: Option<Fut>)
  {
    forall f :: (f in futs <==> Held(bubbles, es, delivering, owed, f) > 0)
             && (f in futs ==> futs[f].rc == Held(bubbles, es, delivering, owed, f))
  }

  ghost predicate Occurs(es: seq<Event>, f: Fut, load: bool)
  {
    exists i {:trigger es[i]} :: 0 <= i < |es| && es[i].fut == f && es[i].load == load
  }

  /** Of every future there was at most one LOAD and at most one UNLOAD, that one after the LOAD. */
  ghost predicate OnceEach(history: seq<Event>)
  {
    && (forall i, j {:trigger history[i], history[j]} :: 0 <= i < j < |history| && history[i].fut == history[j].fut ==>
          history[i].load && !history[j].load)
    && (forall j {:trigger history[j]} :: 0 <= j < |history| && !history[j].load ==>
          Occurs(history[..j], history[j].fut, true))
  }

  /** A pending LOAD is the first event about its future. */
  ghost predicate FirstOf(history: seq<Event>, es: seq<Event>)
  {
    forall i {:trigger es[i]} :: 0 <= i < |es| && es[i].load ==> forall load :: !Occurs(history, es[i].fut, load)
  }

  /** The client has the futures that were loaded and not unloaded. */
  ghost predicate Tracked(history: seq<Event>, client: seq<Fut>)
  {
    && OnceEach(history) && Replay([], history) == client
    && forall f :: f in client <==> Occurs(history, f, true) && !Occurs(history, f, false)
  }

  /** While the conversation is open. Only the ends of the list may lack a bubble. The latest message is the last
      or last but one; when it is the last but one, the last is still waiting for its text. */
  ghost predicate PlacedOpen(bubbles: seq<Fut>, futs: map<Fut, Future>, client: seq<Fut>)
  {
    && bubbles != []
    && (forall f :: f in bubbles ==> f in futs && (futs[f].text.Some? ==> futs[f].bubble))
    && (forall i {:trigger bubbles[i]} :: 0 < i < |bubbles| - 1 ==> futs[bubbles[i]].bubble)
    && forall i {:trigger bubbles[i]} :: 0 <= i < |bubbles| && futs[bubbles[i]].latest ==>
         i == |bubbles| - 1 || (i == |bubbles| - 2 && bubbles[i] in client && !futs[bubbles[|bubbles| - 1]].bubble)
  }

  /** The same while the bubble of `f` is still to be drawn. */
  ghost predicate PlacedOpenBut(bubbles: seq<Fut>, futs: map<Fut, Future>, client: seq<Fut>, f: Fut)
  {
    && bubbles != [] && Distinct(bubbles)
    && (forall g :: g in bubbles ==> g in futs && (g != f && futs[g].text.Some? ==> futs[g].bubble))
    && (forall i {:trigger bubbles[i]} :: 0 < i < |bubbles| - 1 ==> futs[bubbles[i]].bubble)
    && forall i {:trigger bubbles[i]} :: 0 <= i < |bubbles| && futs[bubbles[i]].latest ==>
         i == |bubbles| - 1 || (i == |bubbles| - 2 && bubbles[i] in client && !futs[bubbles[|bubbles| - 1]].bubble)
  }

  /** While it is closed: at most the latest message, and one more that waits. */
  ghost predicate PlacedClosed(bubbles: seq<Fut>, futs: map<Fut, Future>, client: seq<Fut>)
  {
    && 1 <= |bubbles| <= 2
    && (forall f :: f in bubbles ==> f in futs && !futs[f].bubble)
    && (|bubbles| == 2 ==> bubbles[0] in client && futs[bubbles[1]].text == None)
  }

  /** The same while `f`, which just got a text, is still to be kept as the latest. */
  ghost predicate PlacedClosedBut(bubbles: seq<Fut>, futs: map<Fut, Future>, client: seq<Fut>, f: Fut)
  {
    && 1 <= |bubbles| <= 2 && Distinct(bubbles) && f in bubbles
    && (forall g :: g in bubbles ==> g in futs && !futs[g].bubble)
    && (|bubbles| == 2 ==> bubbles[0] in client && (bubbles[1] == f || futs[bubbles[1]].text == None))
  }

  ghost predicate PlacedIn(active: bool, bubbles: seq<Fut>, futs: map<Fut, Future>, client: seq<Fut>)
  {
    if active then PlacedOpen(bubbles, futs, client) else PlacedClosed(bubbles, futs, client)
  }

  /** Older futures keep their texts and members, newer ones have no text yet. */
  ghost predicate TextsKept(before: map<Fut, Future>, next: Fut, futs: map<Fut, Future>, next': Fut)
  {
    && next <= next'
    && forall g :: g in futs ==>
         if g < next then g in before && futs[g].text == before[g].text && futs[g].member == before[g].member
         else futs[g].text == None
  }

  /** Older futures change in their references and in whether they are drawn only, newer ones wait for a message. */
  ghost predicate FutsKept(before: map<Fut, Future>, next: Fut, futs: map<Fut, Future>, next': Fut)
  {
    && next <= next'
    && forall g :: g in futs ==>
         if g < next then g in before && futs[g] == before[g].(rc := futs[g].rc, bubble := futs[g].bubble)
         else futs[g] == Future(futs[g].rc, None, Them, false, futs[g].bubble)
  }

  /** Only futures of the list have bubbles. */
  ghost predicate Listed(futs: map<Fut, Future>, bubbles: seq<Fut>)
  {
    forall g :: g in futs && futs[g].bubble ==> g in bubbles
  }

  /** No future comes back into the list. */
  ghost predicate NoneBack(before: seq<Fut>, next: Fut, bubbles: seq<Fut>)
  {
    forall g :: g in bubbles ==> g in before || g >= next
  }

  /** What a conversation holds. */
  datatype View = View(bubbles: seq<Fut>, events: seq<Event>, futs: map<Fut, Future>, nextFut: Fut, active: bool,
                       delivering: Option<Fut>, client: seq<Fut>, given: set<Fut>, history: seq<Event>)

  /** Only the list and what belongs to it differ: the two agree with the queue, and no future has another message. */
  ghost predicate Relisted(a: View, b: View)
  {
    && b == a.(bubbles := b.bubbles, events := b.events, futs := b.futs, nextFut := b.nextFut, active := b.active)
    && Agreed(b.client, b.events, b.bubbles, b.given)
  }

  /** The user scrolls. */
  ghost predicate ScrolledTo(lay: Layout, a: View, b: View, ok: bool)
  {
    && Relisted(a, b) && b.active == a.active && FutsKept(a.futs, a.nextFut, b.futs, b.nextFut)
    && Scrolled(lay, a.futs, a.bubbles, a.nextFut, b.bubbles, ok) && SameDrawn(b.bubbles, a.futs, b.futs)
    && (NothingDrawn(a.futs, a.bubbles) ==> b == a)
  }

  /** The user opens a conversation: the message at the top is drawn, if it has come, and the rest is asked for. */
  ghost predicate OpenedTo(lay: Layout, busy: bool, a: View, b: View, ok: bool)
  {
    if a.active || busy then ok && b == a
    else
      && a.bubbles != [] && a.bubbles[0] in a.futs
      && var f := a.bubbles[0];
         if a.futs[f].text == None then ok && b == a.(active := true)
         else ScrolledTo(lay, a.(active := true, futs := a.futs[f := a.futs[f].(bubble := true)]), b, ok)
  }

  /** The user leaves a conversation: the latest message is kept and what is below it, or it starts over. */
  ghost predicate LeftTo(a: View, b: View)
  {
    && Relisted(a, b) && !b.active && FutsKept(a.futs, a.nextFut, b.futs - {a.nextFut}, b.nextFut)
    && (forall g :: g in b.futs ==> !b.futs[g].bubble)
    && ((exists k {:trigger a.bubbles[k]} :: 0 <= k < |a.bubbles| && b.bubbles == a.bubbles[k..]
           && a.bubbles[k] in a.futs && a.futs[a.bubbles[k]].latest
           && forall i :: 0 <= i < k && a.bubbles[i] in a.futs ==> !a.futs[a.bubbles[i]].latest)
        || (b.bubbles == [a.nextFut] && a.nextFut in b.futs
            && b.futs[a.nextFut] == Future(2, None, Them, true, false)
            && forall f :: f in a.bubbles && f in a.futs ==> !a.futs[f].latest))
  }

  /** What a conversation makes of a message for a future. One that is not in the list any more takes none. While it is
      open, the message is displayed; while it is closed, the message becomes the latest, the one above it goes, and
      there is to be one below it. */
  ghost predicate Told(f: Fut, text: Option<string>, member: Member, lay: Layout, a: View, b: View, ok: bool)
  {
    if f !in a.bubbles || (text == None && f in a.futs && a.futs[f].text == None) then ok && b == a
    else
      && f in a.futs && b.active == a.active && b.delivering == a.delivering && b.client == a.client
      && b.history == a.history
      && b.given == a.given + {f}
      && var got := a.futs[f].(text := text, member := member);
         if a.active then Displayed(lay, a.futs[f := got], a.bubbles, f, a.nextFut, b.bubbles, b.futs, b.nextFut, ok)
         else
           var last := f == a.bubbles[|a.bubbles| - 1];
           && ok && FutsKept(a.futs[f := got.(latest := true)], a.nextFut, b.futs, b.nextFut)
           && b.bubbles == (if last then [f, a.nextFut] else a.bubbles)
           && b.events == a.events
                          + (if f == a.bubbles[0] then [] else [Event(a.bubbles[0], false, Top)])
                          + (if last then [Event(a.nextFut, true, Bottom)] else [])
  }

  class Convo {
    var bubbles: seq<Fut>          // bubble_list, from top to bottom
    var events: seq<Event>         // event_list
    var futs: map<Fut, Future>     // the futures that are allocated
    var nextFut: Fut               // an address never used so far
    var active: bool
    var delivering: Option<Fut>
    ghost var client: seq<Fut>     // the client's run of futures
    ghost var given: set<Fut>      // the futures that were ever given a text
    ghost var history: seq<Event>  // the events delivered

    ghost function Now(): (v: View)
      reads this
      ensures v == View(bubbles, events, futs, nextFut, active, delivering, client, given, history)
    {
      View(bubbles, events, futs, nextFut, active, delivering, client, given, history)
    }

    ghost predicate Sane()
      reads this`bubbles, this`events, this`futs, this`nextFut, this`delivering, this`client, this`given, this`history
    {
      && Tracked(history, client) && FirstOf(history, events)
      && (forall f :: f in bubbles && f in futs && futs[f].text.Some? ==> f in given) && Listed(futs, bubbles)
      && (forall f: Fut :: f in futs || f in given || (exists load :: Occurs(history, f, load)) ==> f < nextFut)
    }

    ghost predicate Linked()
      reads this`bubbles, this`events, this`futs, this`nextFut, this`delivering, this`client, this`given, this`history
    {
      Agreed(client, events, bubbles, given) && Counts(futs, bubbles, events, delivering, None) && Sane()
    }

    /** Every state between two callbacks, and while the client handles an event. */
    ghost predicate Valid()
      reads this
    {
      Linked() && PlacedIn(active, bubbles, futs, client)
    }

    /** A new conversation waits for its latest message. */
    constructor ()
      ensures Valid()
      ensures Now() == View([0], [Event(0, true, Top)], map[0 := Future(2, None, Them, true, false)], 1, false, None,
                            [], {}, [])
    {
      bubbles, events, futs, nextFut := [], [], map[], 0;
      active, delivering := false, None;
      client, given, history := [], {}, [];
      new;
      assert Linked();
      StartOver();
    }

    lemma LinkedParts()
      requires Linked()
      ensures Agreed(client, events, bubbles, given) && Counts(futs, bubbles, events, delivering, None)
      ensures QueuedOnce(events) && Tracked(history, client) && FirstOf(history, events)
      ensures forall g :: g in bubbles && g in futs && futs[g].text.Some? ==> g in given
      ensures forall g: Fut :: g in futs || g in given || (exists load :: Occurs(history, g, load)) ==> g < nextFut
      ensures Listed(futs, bubbles)
    {
    }

    lemma LinkedAgain()
      requires Agreed(client, events, bubbles, given) && Counts(futs, bubbles, events, delivering, None)
      requires Tracked(history, client) && FirstOf(history, events)
      requires forall g :: g in bubbles && g in futs && futs[g].text.Some? ==> g in given
      requires forall g: Fut :: g in futs || g in given || (exists load :: Occurs(history, g, load)) ==> g < nextFut
      requires Listed(futs, bubbles)
      ensures Linked()
    {
    }

    // -------- references --------

    method Incref(f: Fut)
      requires f in futs
      modifies this`futs
      ensures futs == old(futs)[f := old(futs)[f].(rc := old(futs)[f].rc + 1)]
    {
      futs := futs[f := futs[f].(rc := futs[f].rc + 1)];
    }

    method Decref(f: Fut)
      requires f in futs && futs[f].rc > 0
      modifies this`futs
      ensures futs ==
              if old(futs)[f].rc == 1 then old(futs) - {f} else old(futs)[f := old(futs)[f].(rc := old(futs)[f].rc - 1)]
    {
      var rc := futs[f].rc - 1;
      if rc == 0 {
        futs := futs - {f};
      } else {
        futs := futs[f := futs[f].(rc := rc)];
      }
    }

    // -------- the event queue --------

    method Enqueue(f: Fut, load: bool, side: Side, ghost owed: Option<Fut>)
      requires f in futs && QueuedOnce(events) && !Queued(events, f) && Counts(futs, bubbles, events, delivering, owed)
      modifies this`events, this`futs
      ensures events == old(events) + [Event(f, load, side)] && Counts(futs, bubbles, events, delivering, owed)
      ensures futs == old(futs)[f := old(futs)[f].(rc := old(futs)[f].rc + 1)]
    {
      AppendEvent(events, Event(f, load, side));
      events := events + [Event(f, load, side)];
      Incref(f);
    }

    /** Takes the pending event of a future out of the queue, if there is one. */
    method CancelEvent(f: Fut) returns (was: bool, ghost q: nat)
      requires QueuedOnce(events) && Counts(futs, bubbles, events, delivering, Some(f))
      modifies this`events, this`futs
      ensures was <==> old(Queued(events, f))
      ensures was ==> q < |old(events)| && old(events)[q].fut == f && events == Without(old(events), q)
      ensures !was ==> events == old(events) && futs == old(futs)
      ensures Counts(futs, bubbles, events, delivering, Some(f)) && f in futs && f in old(futs)
      ensures forall g :: g != f ==> (g in futs <==> g in old(futs)) && (g in futs ==> futs[g] == old(futs)[g])
      ensures futs[f] == old(futs)[f].(rc := futs[f].rc)
    {
      was := false;
      var i := 0;
      while i < |events| && events[i].fut != f
        invariant i <= |events|
        invariant forall j :: 0 <= j < i ==> events[j].fut != f
      {
        i := i + 1;
      }
      q := i;
      if i < |events| {
        was := true;
        WithoutQueued(events, i);
        events := Without(events, i);
        Decref(f);
      }
    }

    // -------- the ends of the list --------

    /** A new future at one side of the list, which the client is to be told about. */
    method AddEnd(side: Side, latest: bool) returns (f: Fut)
      requires Linked() && (bubbles == [] || End(bubbles, side) in given)
      modifies this`bubbles, this`events, this`futs, this`nextFut
      ensures Linked() && f !in old(futs) && f == old(nextFut) && nextFut == f + 1
      ensures bubbles == Apply(old(bubbles), Event(f, true, side)) && events == old(events) + [Event(f, true, side)]
      ensures futs == old(futs)[f := Future(2, None, Them, latest, false)]
    {
      hide *;
      LinkedParts();
      f := nextFut;
      NewFuture(f);
      LoadAgreed(client, events, bubbles, given, f, side);
      CountAdded(futs, bubbles, events, delivering, f, side, Future(1, None, Them, latest, false));
      AppliedLoad(bubbles, f, side);
      nextFut := nextFut + 1;
      futs := futs[f := Future(1, None, Them, latest, false)];
      bubbles := if side.Top? then [f] + bubbles else bubbles + [f];
      Enqueue(f, true, side, None);
      AddedSane(old(futs), old(bubbles), f, side);
      FirstOfAppend(history, old(events), Event(f, true, side));
      LinkedAgain();
    }

    lemma NewFuture(f: Fut)
      requires Linked() && f == nextFut
      ensures f !in futs && f !in bubbles && !Queued(events, f) && f !in given && f !in client && delivering != Some(f)
      ensures forall load :: !Occurs(history, f, load)
    {
      assert Held(bubbles, events, delivering, None, f) == 0;
      assert f in client ==> Occurs(history, f, true);
    }

    lemma AddedSane(fs: map<Fut, Future>, bs: seq<Fut>, f: Fut, side: Side)
      requires bubbles == Apply(bs, Event(f, true, side)) && f < nextFut
      requires forall g :: g in bs && g in fs && fs[g].text.Some? ==> g in given
      requires forall g: Fut :: g in fs || g in given || (exists load :: Occurs(history, g, load)) ==> g < f
      requires f in futs && futs[f].text == None && futs == fs[f := futs[f]] && Listed(fs, bs)
      ensures forall g :: g in bubbles && g in futs && futs[g].text.Some? ==> g in given
      ensures forall g: Fut :: g in futs || g in given || (exists load :: Occurs(history, g, load)) ==> g < nextFut
      ensures Listed(futs, bubbles)
    {
    }

    method Unlink(side: Side) returns (f: Fut)
      requires Linked() && bubbles != []
      modifies this`bubbles
      ensures f == End(old(bubbles), side) && bubbles == Apply(old(bubbles), Event(f, false, side))
      ensures Counts(futs, bubbles, events, delivering, Some(f)) && QueuedOnce(events)
      ensures f in futs && (f in client <==> !Queued(events, f))
    {
      f := End(bubbles, side);
      Settled(client, events, bubbles, given, f);
      CountUnlinked(futs, bubbles, events, delivering, side);
      assert Held(bubbles, events, delivering, None, f) > 0;
      bubbles := if side.Top? then bubbles[1..] else bubbles[..|bubbles| - 1];
    }

    lemma DroppedSane(fs: map<Fut, Future>, bs: seq<Fut>, f: Fut, side: Side)
      requires bs != [] && f == End(bs, side) && bubbles == Apply(bs, Event(f, false, side))
      requires forall g :: g in bs && g in fs && fs[g].text.Some? ==> g in given
      requires forall g: Fut :: g in fs || g in given || (exists load :: Occurs(history, g, load)) ==> g < nextFut
      requires forall g :: g != f ==> (g in futs <==> g in fs) && (g in futs ==> futs[g] == fs[g])
      requires f in fs && (f in futs ==> futs[f].text == fs[f].text && !futs[f].bubble) && Listed(fs, bs)
      ensures forall g :: g in bubbles && g in futs && futs[g].text.Some? ==> g in given
      ensures forall g: Fut :: g in futs || g in given || (exists load :: Occurs(history, g, load)) ==> g < nextFut
      ensures Listed(futs, bubbles)
    {
      DroppedListed(fs, bs, f, side);
    }

    lemma DroppedListed(fs: map<Fut, Future>, bs: seq<Fut>, f: Fut, side: Side)
      requires bs != [] && f == End(bs, side) && bubbles == Apply(bs, Event(f, false, side)) && Listed(fs, bs)
      requires forall g :: g != f ==> (g in futs <==> g in fs) && (g in futs ==> futs[g] == fs[g])
      requires f in futs ==> !futs[f].bubble
      ensures Listed(futs, bubbles)
    {
      forall g | g in futs && futs[g].bubble ensures g in bubbles {
        var i :| 0 <= i < |bs| && bs[i] == g;
        if side.Top? {
          assert bubbles[i - 1] == g;
        } else {
          assert bubbles[i] == g;
        }
      }
    }

    /** Unlinks an end of the list, which is not drawn any more; cancels its LOAD, or tells the client. */
    method DropEnd(side: Side) returns (f: Fut)
      requires Linked() && bubbles != [] && !Drawn(futs, End(bubbles, side))
      modifies this`bubbles, this`events, this`futs
      ensures Linked() && f == End(old(bubbles), side) && bubbles == Apply(old(bubbles), Event(f, false, side))
      ensures f in old(client) ==> events == old(events) + [Event(f, false, side)]
      ensures f !in old(client) ==> exists q :: 0 <= q < |old(events)| && old(events)[q].fut == f && old(events)[q].load
                                      && events == Without(old(events), q)
      ensures forall g :: g != f ==> (g in futs <==> g in old(futs)) && (g in futs ==> futs[g] == old(futs)[g])
      ensures f in futs ==> f in old(futs) && futs[f] == old(futs)[f].(rc := futs[f].rc)
    {
      hide *;
      LinkedParts();
      NotDrawn(side);
      f := Unlink(side);
      var cancelled;
      ghost var q;
      cancelled, q := CancelEvent(f);
      if cancelled {
        CancelAgreed(client, old(events), old(bubbles), given, side, q);
        FirstOfWithout(history, old(events), q);
      } else {
        UnloadAgreed(client, events, old(bubbles), given, side);
        Enqueue(f, false, side, Some(f));
        FirstOfAppend(history, old(events), Event(f, false, side));
      }
      CountReleased(futs, bubbles, events, delivering, f);
      Decref(f);
      DroppedSane(old(futs), old(bubbles), f, side);
      LinkedAgain();
    }

    lemma NotDrawn(side: Side)
      requires bubbles != [] && !Drawn(futs, End(bubbles, side))
      ensures End(bubbles, side) in futs ==> !futs[End(bubbles, side)].bubble
    {
    }

    // -------- delivering the events --------

    /** Takes the first event out of the queue; the client handles it next. */
    method Take() returns (e: Event)
      requires Valid() && events != [] && delivering == None
      modifies this`events, this`delivering, this`client, this`history
      ensures Valid() && e == old(events)[0] && events == old(events)[1..] && delivering == Some(e.fut)
      ensures Now() ==
              old(Now()).(events := old(events)[1..], client := Apply(old(client), e), history := old(history) + [e],
                          delivering := Some(e.fut))
      ensures Fit(old(client), e, given) && client == Apply(old(client), e) && history == old(history) + [e]
      ensures e.load ==> e.fut in bubbles && e.fut in futs && futs[e.fut].text == None && e.fut !in given
    {
      hide *;
      ValidParts();
      LinkedParts();
      DeliverAgreed(client, events, bubbles, given);
      AgreedDistinct(client, events, bubbles, given);
      FirstIsFirst(history, events);
      TrackedAppend(history, client, events[0], given);
      FirstOfDeliver(history, events);
      CountTaken(futs, bubbles, events);
      OccursAppend(history, events[0]);
      HeadLives(events[0]);
      if events[0].load {
        HeadBlank(events[0]);
      }
      HeadRight();
      PlacedStays(active, bubbles, futs, client, Apply(client, events[0]), events[0]);
      e := events[0];
      events := events[1..];
      client := Apply(client, e);
      history := history + [e];
      delivering := Some(e.fut);
      LinkedAgain();
      ValidAgain();
    }

    lemma ValidParts()
      requires Valid()
      ensures Linked() && PlacedIn(active, bubbles, futs, client) && bubbles != []
    {
    }

    lemma ValidAgain()
      requires Linked() && PlacedIn(active, bubbles, futs, client)
      ensures Valid()
    {
    }

    lemma HeadRight()
      requires Agreed(client, events, bubbles, given) && events != []
      ensures QueuedRightly(client, events[0], bubbles)
      ensures !events[0].load ==> client != [] && End(client, events[0].side) == events[0].fut
    {
    }

    lemma HeadBlank(e: Event)
      requires Linked() && events != [] && e == events[0] && e.load
      ensures e.fut in bubbles && e.fut in futs && futs[e.fut].text == None && e.fut !in given
    {
      assert QueuedRightly(client, e, bubbles);
      BubblesLive();
    }

    lemma HeadLives(e: Event)
      requires Linked() && events != [] && e == events[0]
      ensures e.fut < nextFut && QueuedRightly(client, e, bubbles)
    {
      assert Queued(events, e.fut);
      assert Held(bubbles, events, delivering, None, e.fut) > 0;
    }

    /** The client has handled the event. */
    method Done()
      requires Valid() && delivering.Some?
      modifies this`delivering, this`futs
      ensures Valid() && delivering == None
      ensures forall g :: g in futs ==> g in old(futs) && futs[g] == old(futs)[g].(rc := futs[g].rc)
    {
      hide *;
      ValidParts();
      LinkedParts();
      var f := delivering.value;
      CountDone(futs, bubbles, events, f);
      CountReleased(futs, bubbles, events, None, f);
      delivering := None;
      Decref(f);
      BubblesLive();
      PlacedKept(active, bubbles, old(futs), futs, client);
      LinkedAgain();
      ValidAgain();
    }

    // -------- scrolling --------

    /** Asks for one more message at one side, when that end is near and shows a text. */
    method Grow(side: Side, distance: int) returns (added: bool)
      requires Valid() && active
      modifies this`bubbles, this`events, this`futs, this`nextFut
      ensures Valid() && FutsKept(old(futs), old(nextFut), futs, nextFut)
      ensures added <==> old(futs)[End(old(bubbles), side)].text.Some? && distance < LOAD_DISTANCE_LOWER
      ensures added ==> bubbles == Apply(old(bubbles), Event(old(nextFut), true, side))
                        && events == old(events) + [Event(old(nextFut), true, side)] && nextFut == old(nextFut) + 1
      ensures !added ==>
                bubbles == old(bubbles) && events == old(events) && futs == old(futs) && nextFut == old(nextFut)
      ensures forall g {:trigger Drawn(futs, g)} :: Drawn(futs, g) == Drawn(old(futs), g)
    {
      hide *;
      ValidParts();
      EndParts(side);
      FutsSame(futs, nextFut);
      added := futs[End(bubbles, side)].text.Some? && distance < LOAD_DISTANCE_LOWER;
      if added {
        var f := AddEnd(side, false);
        PlacedGrown(old(bubbles), old(futs), client, f, side, Future(2, None, Them, false, false));
        AddEndFresh(f);
        FutsMore(old(futs), old(nextFut), f, Future(2, None, Them, false, false), nextFut);
        DrawnMore(old(futs), f, Future(2, None, Them, false, false));
        ValidAgain();
      }
    }

    lemma EndParts(side: Side)
      requires Valid() && active
      ensures bubbles != [] && End(bubbles, side) in futs && PlacedOpen(bubbles, futs, client)
      ensures futs[End(bubbles, side)].text.Some? ==> End(bubbles, side) in given && End(bubbles, side) in client
      ensures nextFut !in bubbles && forall g :: g in futs ==> g < nextFut
    {
      Settled(client, events, bubbles, given, End(bubbles, side));
    }

    lemma AddEndFresh(f: Fut)
      requires Linked() && f in futs
      ensures f < nextFut
    {
    }

    /** The end of the list goes, its bubble first. */
    method Shrink(side: Side)
      requires Valid() && active && |bubbles| > 1
      modifies this`bubbles, this`events, this`futs
      ensures Valid() && FutsKept(old(futs), old(nextFut), futs, nextFut)
      ensures bubbles == Apply(old(bubbles), Event(End(old(bubbles), side), false, side))
      ensures SameDrawn(bubbles, old(futs), futs)
    {
      hide *;
      ValidParts();
      EndParts(side);
      LinkedParts();
      BubblesLive();
      AgreedDistinct(client, events, bubbles, given);
      var f := End(bubbles, side);
      Erase(f);
      DrawnIs(futs, f);
      var _ := DropEnd(side);
      FutsFewer(old(futs), futs, nextFut);
      PlacedShrunk(old(bubbles), old(futs), futs, client, f, side);
      DrawnApart(old(bubbles), old(futs), futs, f, side);
      ValidAgain();
    }

    /** lv_obj_delete(fut->bubble) */
    method Erase(f: Fut)
      requires Linked() && f in futs
      modifies this`futs
      ensures Linked() && futs == old(futs)[f := old(futs)[f].(bubble := false)]
    {
      futs := futs[f := futs[f].(bubble := false)];
    }

    /** Gives back what is far below the visible part. The last message of all is never given back in a run that
        is modelled. */
    method TrimBottom(lay: Layout, added: bool) returns (ok: bool)
      requires Valid() && active && (added ==> Reading(lay.below, 0) < LOAD_DISTANCE_LOWER)
      modifies this`bubbles, this`events, this`futs
      ensures Valid() && FutsKept(old(futs), old(nextFut), futs, nextFut)
      ensures 0 < |bubbles| <= |old(bubbles)| && bubbles == old(bubbles)[..|bubbles|]
      ensures KeptBelow(lay, old(futs), old(bubbles), |bubbles|, ok) && SameDrawn(bubbles, old(futs), futs)
      ensures !ok ==> LastGoes(lay, futs, bubbles)
    {
      hide *;
      ValidParts();
      LinkedParts();
      FutsSame(futs, nextFut);
      var at := 0;
      var distance := Reading(lay.below, at);
      ok := true;
      ghost var list := bubbles;
      assert bubbles == list[..|list|];
      NoneBelow(lay, futs, list);
      while ok && distance > LOAD_DISTANCE_UPPER && MayGo(lay, futs, bubbles[|bubbles| - 1])
        invariant Valid() && FutsKept(old(futs), old(nextFut), futs, nextFut)
        invariant 0 < |bubbles| <= |list| && bubbles == list[..|bubbles|]
        invariant SameDrawn(bubbles, old(futs), futs) && AllGoBelow(lay, old(futs), list, |bubbles|)
        invariant at == DrawnIn(old(futs), list[|bubbles|..]) && distance == Reading(lay.below, at)
        invariant !ok ==> |bubbles| == 1 && GoesBelow(lay, old(futs), list, 0) && LastGoes(lay, futs, bubbles)
        invariant added ==> distance < LOAD_DISTANCE_LOWER
        decreases ok, |bubbles|
      {
        assert !added by { Thresholds(); }
        BelowHere(lay, old(futs), futs, list, bubbles, at);
        if |bubbles| == 1 {
          LastGoesIs(lay, futs, bubbles, at);
          ok := false;
        } else {
          BelowNext(lay, old(futs), futs, list, bubbles);
          if Drawn(futs, bubbles[|bubbles| - 1]) {
            at := at + 1;
            distance := Reading(lay.below, at);
          }
          ghost var before, n := futs, |bubbles|;
          ghost var had := bubbles;
          Shrink(Bottom);
          DroppedBottom(list, n);
          DrawnChain(had, bubbles, old(futs), before, futs);
          FutsChain(old(futs), old(nextFut), before, nextFut, futs, nextFut);
        }
      }
      if ok {
        BelowHere(lay, old(futs), futs, list, bubbles, at);
      }
      BelowKept(lay, old(futs), list, |bubbles|, ok);
    }

    method TrimTop(lay: Layout, added: bool) returns (ok: bool)
      requires Valid() && active && (added ==> Reading(lay.above, 0) < LOAD_DISTANCE_LOWER)
      modifies this`bubbles, this`events, this`futs
      ensures Valid() && FutsKept(old(futs), old(nextFut), futs, nextFut)
      ensures 0 < |bubbles| <= |old(bubbles)| && bubbles == old(bubbles)[|old(bubbles)| - |bubbles|..]
      ensures KeptAbove(lay, old(futs), old(bubbles), |old(bubbles)| - |bubbles|, ok)
      ensures !ok ==> LastGoes(lay, futs, bubbles)
      ensures SameDrawn(bubbles, old(futs), futs)
    {
      hide *;
      ValidParts();
      LinkedParts();
      FutsSame(futs, nextFut);
      var at := 0;
      var distance := Reading(lay.above, at);
      ok := true;
      ghost var list, k := bubbles, 0;
      assert bubbles == list[0..];
      NoneAbove(lay, futs, list);
      while ok && distance > LOAD_DISTANCE_UPPER && MayGo(lay, futs, bubbles[0])
        invariant Valid() && FutsKept(old(futs), old(nextFut), futs, nextFut)
        invariant k < |list| && bubbles == list[k..]
        invariant SameDrawn(bubbles, old(futs), futs) && AllGoAbove(lay, old(futs), list, k)
        invariant at == DrawnIn(old(futs), list[..k]) && distance == Reading(lay.above, at)
        invariant !ok ==> |bubbles| == 1 && GoesAbove(lay, old(futs), list, k) && LastGoes(lay, futs, bubbles)
        invariant added ==> distance < LOAD_DISTANCE_LOWER
        decreases ok, |bubbles|
      {
        assert !added by { Thresholds(); }
        AboveHere(lay, old(futs), futs, list, bubbles, k, at);
        if |bubbles| == 1 {
          LastGoesIs(lay, futs, bubbles, at);
          ok := false;
        } else {
          AboveNext(lay, old(futs), futs, list, bubbles, k);
          if Drawn(futs, bubbles[0]) {
            at := at + 1;
            distance := Reading(lay.above, at);
          }
          ghost var before, had := futs, bubbles;
          Shrink(Top);
          DroppedTop(list, k);
          k := k + 1;
          DrawnChain(had, bubbles, old(futs), before, futs);
          FutsChain(old(futs), old(nextFut), before, nextFut, futs, nextFut);
        }
      }
      if ok {
        AboveHere(lay, old(futs), futs, list, bubbles, k, at);
      }
      AboveKept(lay, old(futs), list, k, ok);
    }

    /** Asks for more at the ends that are near. */
    method AskMore(lay: Layout) returns (below: bool, above: bool)
      requires Valid() && active
      modifies this`bubbles, this`events, this`futs, this`nextFut
      ensures Valid() && FutsKept(old(futs), old(nextFut), futs, nextFut)
      ensures NoneBack(old(bubbles), old(nextFut), bubbles)
      ensures bubbles == Grown(lay, old(futs), old(bubbles), old(nextFut)) && SameDrawn(bubbles, old(futs), futs)
      ensures (below ==> Reading(lay.below, 0) < LOAD_DISTANCE_LOWER)
      ensures (above ==> Reading(lay.above, 0) < LOAD_DISTANCE_LOWER)
    {
      hide *;
      EndParts(Top);
      EndParts(Bottom);
      below := Grow(Bottom, Reading(lay.below, 0));
      ghost var futs1, next1, list1 := futs, nextFut, bubbles;
      GrownNoneBack(old(bubbles), old(nextFut), list1, Bottom);
      AllLive();
      SameTop(old(bubbles), old(nextFut), list1, old(futs), futs1, next1);
      above := Grow(Top, Reading(lay.above, 0));
      GrownNoneBack(list1, next1, bubbles, Top);
      KeptNext(old(futs), old(nextFut), futs1, next1);
      NoneBackChain(old(bubbles), old(nextFut), list1, next1, bubbles);
      GrownIs(lay, old(futs), old(bubbles), old(nextFut), below, above);
      DrawnTwice(bubbles, old(futs), futs1, futs);
      FutsChain(old(futs), old(nextFut), futs1, next1, futs, nextFut);
    }

    lemma AllLive()
      requires Valid()
      ensures forall g :: g in bubbles ==> g in futs
      ensures forall g :: g in futs ==> g < nextFut
    {
      BubblesLive();
    }

    /** Gives back what is far away, below and then above. */
    method GiveBack(lay: Layout, below: bool, above: bool) returns (ok: bool)
      requires Valid() && active
      requires (below ==> Reading(lay.below, 0) < LOAD_DISTANCE_LOWER)
      requires (above ==> Reading(lay.above, 0) < LOAD_DISTANCE_LOWER)
      modifies this`bubbles, this`events, this`futs
      ensures Valid() && FutsKept(old(futs), nextFut, futs, nextFut)
      ensures exists i, j :: 0 <= i <= j <= |old(bubbles)| && bubbles == old(bubbles)[i..j]
      ensures Cut(lay, old(futs), old(bubbles), bubbles, ok) && SameDrawn(bubbles, old(futs), futs)
      ensures !ok ==> LastGoes(lay, futs, bubbles)
    {
      hide *;
      ok := TrimBottom(lay, below);
      ghost var list, n, done := old(bubbles), |bubbles|, ok;
      if ok {
        ghost var futs3, list3 := futs, bubbles;
        ok := TrimTop(lay, above);
        ghost var k := n - |bubbles|;
        KeptAboveSame(lay, old(futs), futs3, list3, k, ok);
        FutsChain(old(futs), nextFut, futs3, nextFut, futs, nextFut);
        assert forall f :: f in bubbles ==> f in list3;
        DrawnChain(list3, bubbles, old(futs), futs3, futs);
        assert list[..n][k..] == list[k..n];
      } else {
        assert list[..n] == list[0..n];
      }
      CutIs(lay, old(futs), list, bubbles, ok, n, done);
    }

    /** update_scroll: asks for more at the ends that are near, gives back what is far away. */
    method UpdateScroll(lay: Layout) returns (ok: bool)
      requires Valid() && active
      modifies this`bubbles, this`events, this`futs, this`nextFut
      ensures Valid() && FutsKept(old(futs), old(nextFut), futs, nextFut)
      ensures NoneBack(old(bubbles), old(nextFut), bubbles)
      ensures ScrolledTo(lay, old(Now()), Now(), ok) && SameDrawn(bubbles, old(futs), futs)
      ensures NothingDrawn(old(futs), old(bubbles)) ==>
                ok && bubbles == old(bubbles) && events == old(events) && futs == old(futs)
      ensures Scrolled(lay, old(futs), old(bubbles), old(nextFut), bubbles, ok)
      ensures !ok ==> LastGoes(lay, futs, bubbles)
    {
      hide *;
      AllLive();
      FutsSame(futs, nextFut);
      SameNoneBack(bubbles, nextFut);
      ok := true;
      ghost var v := Now();
      ScrolledIs(lay, futs, bubbles, nextFut);
      if NothingDrawn(futs, bubbles) {
        DrawnSame(bubbles, futs);
        LinkedNow();
        ScrolledToIs(lay, v, v, ok);
        return;
      }
      var below, above := AskMore(lay);
      ghost var list, was := bubbles, futs;
      ok := GiveBack(lay, below, above);
      ghost var i, j :| 0 <= i <= j <= |list| && bubbles == list[i..j];
      SliceNoneBack(old(bubbles), old(nextFut), list, bubbles, i, j);
      FutsChain(old(futs), old(nextFut), was, nextFut, futs, nextFut);
      CutScrolled(lay, old(futs), was, old(bubbles), old(nextFut), bubbles, ok);
      assert forall f :: f in bubbles ==> f in list;
      DrawnChain(list, bubbles, old(futs), was, futs);
      LinkedNow();
      ScrolledToIs(lay, v, Now(), ok);
    }

    // -------- opening and closing the conversation --------

    /** convo_back_btn_clicked_cb: keeps the latest message and what waits below it; if the latest message is
        not in the list, starts over. */
    method Back()
      requires Valid() && active
      modifies this`bubbles, this`events, this`futs, this`nextFut, this`active
      ensures Valid() && !active && FutsKept(old(futs), old(nextFut), futs - {old(nextFut)}, nextFut)
      ensures NoneBack(old(bubbles), old(nextFut), bubbles) && forall g :: g in futs ==> !futs[g].bubble
      ensures old(nextFut) in futs ==> futs[old(nextFut)].text == None
      ensures (exists k {:trigger old(bubbles)[k]} :: 0 <= k < |old(bubbles)| && bubbles == old(bubbles)[k..]
                 && old(futs)[old(bubbles)[k]].latest && forall i :: 0 <= i < k ==> !old(futs)[old(bubbles)[i]].latest)
           || (bubbles == [old(nextFut)] && (forall f :: f in old(bubbles) ==> !old(futs)[f].latest)
               && old(nextFut) in futs && futs[old(nextFut)] == Future(2, None, Them, true, false))
      ensures forall f :: f in old(bubbles) ==> f in old(futs)
    {
      hide *;
      ValidParts();
      LinkedParts();
      BubblesLive();
      FutsSame(futs, nextFut);
      EndParts(Top);
      AgreedDistinct(client, events, bubbles, given);
      active := false;
      ghost var list, k := bubbles, 0;
      assert bubbles == list[0..];
      assert forall i {:trigger list[i]} :: 0 <= i < |list| ==> list[i] in bubbles;
      while bubbles != []
        decreases |bubbles|
        invariant !active && k <= |list| && bubbles == list[k..] && Linked() && nextFut == old(nextFut)
        invariant FutsKept(old(futs), old(nextFut), futs, nextFut)
        invariant forall i :: 0 <= i < k ==> !old(futs)[list[i]].latest
        invariant forall i {:trigger list[i]} :: k <= i < |list| ==>
                    list[i] in futs && futs[list[i]] == old(futs)[list[i]]
      {
        var f := bubbles[0];
        assert f == list[k];
        ghost var before := futs;
        if futs[f].latest {
          KeepFrom(list, k, old(futs));
          FutsErased(old(futs), old(nextFut), before, futs, nextFut);
          ClosedBare();
          assert futs - {old(nextFut)} == futs;
          return;
        }
        DropTop(list, k);
        k := k + 1;
        FutsErased(old(futs), old(nextFut), before, futs, nextFut);
      }
      ghost var before := futs;
      NextUnused();
      StartOver();
      assert futs - {old(nextFut)} == before;
      FutsLater(old(futs), old(nextFut), before, nextFut);
      ClosedBare();
      FirstNoneBack(old(bubbles), old(nextFut), bubbles);
    }

    lemma ClosedBare()
      requires Valid() && !active
      ensures forall g :: g in futs ==> !futs[g].bubble && g < nextFut
    {
    }

    /** The latest message is at the top now: it stays, without its bubble. */
    method KeepFrom(ghost list: seq<Fut>, ghost k: nat, ghost was: map<Fut, Future>)
      requires Linked() && !active && k < |list| && bubbles == list[k..] && PlacedOpen(list, was, client)
      requires Distinct(list)
      requires forall i {:trigger list[i]} :: k <= i < |list| ==> list[i] in futs && futs[list[i]] == was[list[i]]
      requires list[k] in was && was[list[k]].latest
      modifies this`futs
      ensures Valid() && NoneBack(list, nextFut, bubbles)
      ensures forall g :: g in futs ==>
                g in old(futs) && futs[g] == old(futs)[g].(rc := futs[g].rc, bubble := futs[g].bubble)
    {
      hide Linked, Valid, PlacedOpen, PlacedIn, NoneBack;
      var f := bubbles[0];
      assert f == list[k];
      Erase(f);
      PlacedLeft(list, was, futs, client, k);
      ValidAgain();
      SameNoneBack(list, nextFut);
      SliceNoneBack(list, nextFut, list, bubbles, k, |list|);
    }

    /** A future for the latest message, as when the conversation was made. */
    method StartOver()
      requires Linked() && bubbles == [] && !active
      modifies this`bubbles, this`events, this`futs, this`nextFut
      ensures Valid() && bubbles == [old(nextFut)]
      ensures events == old(events) + [Event(old(nextFut), true, Top)]
      ensures futs == old(futs)[old(nextFut) := Future(2, None, Them, true, false)] && nextFut == old(nextFut) + 1
    {
      hide *;
      NextUnused();
      var f := AddEnd(Top, true);
      AddEndFresh(f);
      AppliedLoad([], f, Top);
      assert [f] + [] == [f];
      PlacedFirst(futs, client, f);
      ValidAgain();
    }

    lemma ClosedPlain()
      requires Valid() && !active
      ensures Distinct(bubbles) && 1 <= |bubbles| <= 2
      ensures (forall f :: f in bubbles ==> f in futs && !futs[f].bubble && f < nextFut)
    {
      AgreedDistinct(client, events, bubbles, given);
      BubblesLive();
    }

    lemma LinkedNow()
      requires Valid()
      ensures Agreed(client, events, bubbles, given)
    {
    }

    lemma NextUnused()
      requires Linked()
      ensures forall g :: g in futs ==> g < nextFut
    {
    }

    method DropTop(ghost list: seq<Fut>, ghost k: nat)
      requires Linked() && k < |list| && bubbles == list[k..] && Distinct(list) && list[k] in futs
      modifies this`bubbles, this`events, this`futs
      ensures Linked() && bubbles == list[k + 1..]
      ensures forall i {:trigger list[i]} :: k < i < |list| ==>
                (list[i] in futs <==> list[i] in old(futs)) && (list[i] in futs ==> futs[list[i]] == old(futs)[list[i]])
      ensures forall g :: g in futs ==>
                g in old(futs) && futs[g] == old(futs)[g].(rc := futs[g].rc, bubble := futs[g].bubble)
    {
      hide *;
      DroppedTop(list, k);
      Apart(list, k);
      Erase(bubbles[0]);
      DrawnIs(futs, bubbles[0]);
      var _ := DropEnd(Top);
    }

    /** convo_menuitem_clicked_cb. `busy`: another conversation is open. */
    method Open(lay: Layout, busy: bool) returns (ok: bool)
      requires Valid()
      modifies this`bubbles, this`events, this`futs, this`nextFut, this`active
      ensures Valid() && FutsKept(old(futs), old(nextFut), futs, nextFut)
      ensures NoneBack(old(bubbles), old(nextFut), bubbles)
      ensures active == (old(active) || !busy) && OpenedTo(lay, busy, old(Now()), Now(), ok)
      ensures old(active) || busy || old(futs)[old(bubbles)[0]].text == None ==>
                ok && bubbles == old(bubbles) && events == old(events) && futs == old(futs) && nextFut == old(nextFut)
      ensures !old(active) && !busy && old(futs)[old(bubbles)[0]].text.Some? ==>
                var f := old(bubbles)[0];
                Scrolled(lay, old(futs)[f := old(futs)[f].(bubble := true)], old(bubbles), old(nextFut), bubbles, ok)
      ensures !ok ==> LastGoes(lay, futs, bubbles)
    {
      hide *;
      ok := true;
      ValidParts();
      LinkedParts();
      NextUnused();
      FutsSame(futs, nextFut);
      SameNoneBack(bubbles, nextFut);
      BubblesLive();
      ghost var v := Now();
      if busy || active {
        OpenedToIs(lay, busy, v, v, ok);
        return;
      }
      active := true;
      var f := bubbles[0];
      AgreedDistinct(client, events, bubbles, given);
      PlacedOpened(bubbles, futs, client);
      if futs[f].text.Some? {
        Draw(f);
        ValidAgain();
        FutsFewer(old(futs), futs, nextFut);
        ghost var before := futs;
        ok := UpdateScroll(lay);
        FutsChain(old(futs), old(nextFut), before, old(nextFut), futs, nextFut);
      } else {
        ValidAgain();
      }
      OpenedToIs(lay, busy, v, Now(), ok);
    }

    /** fut->bubble = create_bubble(...) */
    method Draw(f: Fut)
      requires Linked() && f in futs && f in bubbles
      modifies this`futs
      ensures Linked() && futs == old(futs)[f := old(futs)[f].(bubble := true)]
    {
      futs := futs[f := futs[f].(bubble := true)];
    }

    // -------- the client gives a future its message --------

    method Record(f: Fut, text: Option<string>, member: Member)
      requires Linked() && f in bubbles && f in client && f in futs && (text.Some? || futs[f].text.Some?)
      modifies this`futs, this`given
      ensures Linked() && given == old(given) + {f}
      ensures futs == old(futs)[f := old(futs)[f].(text := text, member := member)]
    {
      GiveAgreed(client, events, bubbles, given, f);
      futs := futs[f := futs[f].(text := text, member := member)];
      given := given + {f};
    }

    method IndexOf(f: Fut) returns (i: nat)
      requires f in bubbles
      ensures i < |bubbles| && bubbles[i] == f
    {
      i := 0;
      while bubbles[i] != f
        invariant i < |bubbles| && f !in bubbles[..i]
        decreases |bubbles| - i
      {
        i := i + 1;
      }
    }

    /** Draws the bubble of a future that has none yet. When it is alone, nothing else is drawn, as the program checks;
        the check that can fail is that a message that is alone is the latest, and any other one is not. */
    method DrawNew(f: Fut) returns (ok: bool)
      requires Linked() && f in bubbles && PlacedOpenBut(bubbles, futs, client, f) && !futs[f].bubble
      modifies this`futs
      ensures Linked() && (ok ==> PlacedIn(true, bubbles, futs, client))
      ensures bubbles == [f] ==> NothingDrawn(old(futs), bubbles)
      ensures ok <==> MayShow(old(futs), bubbles, f)
      ensures ok ==> futs == Shown(old(futs), bubbles, f)
      ensures !ok ==> futs == old(futs)
      ensures forall g :: g in futs ==> g in old(futs) && futs[g].text == old(futs)[g].text
    {
      hide *;
      ButParts(bubbles, futs, client, f);
      var i := IndexOf(f);
      var n := |bubbles|;
      ShownIs(futs, bubbles, f, i);
      if i == 0 && n == 1 {
        assert bubbles == [f];
        ok := NothingDrawn(futs, bubbles) && futs[f].latest;
        if ok {
          DrawnAlone(bubbles, futs, client, f);
          Draw(f);
        }
      } else if i == n - 1 {
        ok := !futs[f].latest;
        if ok {
          DrawnLast(bubbles, futs, client, f);
          Draw(f);
          var up := bubbles[i - 1];
          if futs[up].latest {
            MoveLatest(up, f);
          }
        }
      } else {
        assert i == 0;
        ok := !futs[f].latest;
        if ok {
          DrawnFirst(bubbles, futs, client, f);
          Draw(f);
        }
      }
    }

    method MoveLatest(from: Fut, to: Fut)
      requires Linked() && from in futs && to in futs && from != to
      modifies this`futs
      ensures Linked()
      ensures futs == old(futs)[from := old(futs)[from].(latest := false)][to := old(futs)[to].(latest := true)]
    {
      Mark(from, false);
      Mark(to, true);
    }

    /** Unlinks the top of the list and tells the client, without looking for a pending LOAD. */
    method RetireTop()
      requires Linked() && bubbles != [] && bubbles[0] in client && !Drawn(futs, bubbles[0])
      modifies this`bubbles, this`events, this`futs
      ensures Linked() && bubbles == old(bubbles)[1..] && events == old(events) + [Event(old(bubbles)[0], false, Top)]
      ensures forall g :: g != old(bubbles)[0] ==>
                (g in futs <==> g in old(futs)) && (g in futs ==> futs[g] == old(futs)[g])
      ensures forall g :: g in futs ==> g in old(futs) && futs[g] == old(futs)[g].(rc := futs[g].rc)
    {
      hide *;
      LinkedParts();
      AppliedTop(bubbles);
      DrawnIs(futs, bubbles[0]);
      var f := Unlink(Top);
      UnloadAgreed(client, events, old(bubbles), given, Top);
      Enqueue(f, false, Top, Some(f));
      FirstOfAppend(history, old(events), Event(f, false, Top));
      CountReleased(futs, bubbles, events, delivering, f);
      Decref(f);
      DroppedSane(old(futs), old(bubbles), f, Top);
      LinkedAgain();
    }

    /** A message comes while the conversation is closed: it becomes the latest, the one before it goes, and
        there is to be one after it. */
    method KeepLatest(f: Fut)
      requires Linked() && !active && f in bubbles && f in client && f in given
      requires PlacedClosedBut(bubbles, futs, client, f)
      modifies this`bubbles, this`events, this`futs, this`nextFut
      ensures f in old(futs) && Valid() && NoneBack(old(bubbles), old(nextFut), bubbles)
      ensures FutsKept(old(futs)[f := old(futs)[f].(latest := true)], old(nextFut), futs, nextFut)
      ensures bubbles == if f == old(bubbles)[|old(bubbles)| - 1] then [f, old(nextFut)] else old(bubbles)
      ensures events == old(events)
                        + (if f == old(bubbles)[0] then [] else [Event(old(bubbles)[0], false, Top)])
                        + (if f == old(bubbles)[|old(bubbles)| - 1] then [Event(old(nextFut), true, Bottom)] else [])
    {
      hide *;
      ClosedButParts(bubbles, futs, client, f);
      NextUnused();
      Mark(f, true);
      ghost var told := futs;
      var i := IndexOf(f);
      if i > 0 {
        DrawnIs(futs, bubbles[0]);
        RetireTop();
        assert bubbles == [f];
      }
      FutsFewer(told, futs, nextFut);
      if f == bubbles[|bubbles| - 1] {
        assert bubbles == [f];
        ghost var before := futs;
        AddBelow(f);
        FutsChain(told, old(nextFut), before, old(nextFut), futs, nextFut);
      } else {
        PlacedPair(bubbles, old(futs), futs, client, f);
        ValidAgain();
      }
      KeptNoneBack(old(bubbles), old(nextFut), bubbles, f);
    }

    method Mark(f: Fut, latest: bool)
      requires Linked() && f in futs
      modifies this`futs
      ensures Linked() && futs == old(futs)[f := old(futs)[f].(latest := latest)]
    {
      futs := futs[f := futs[f].(latest := latest)];
    }

    method AddBelow(f: Fut)
      requires Linked() && !active && bubbles == [f] && f in client && f in given && f in futs && !futs[f].bubble
      modifies this`bubbles, this`events, this`futs, this`nextFut
      ensures Valid() && FutsKept(old(futs), old(nextFut), futs, nextFut)
      ensures bubbles == [f, old(nextFut)] && events == old(events) + [Event(old(nextFut), true, Bottom)]
    {
      NextUnused();
      var g := AddEnd(Bottom, false);
      AddEndFresh(g);
      FutsMore(old(futs), old(nextFut), g, Future(2, None, Them, false, false), nextFut);
      ValidAgain();
    }

    /** texter_ui_future_set_message_static. A future that is not in the list any more takes no message. `ok` is
        false when one of the program's own checks fails, or the layout makes it give back the last message. */
    method SetMessage(f: Fut, text: Option<string>, member: Member, lay: Layout) returns (ok: bool)
      requires Valid() && f in client
      modifies this`bubbles, this`events, this`futs, this`nextFut, this`given
      ensures Told(f, text, member, lay, old(Now()), Now(), ok)
      ensures ok ==> Valid()
      ensures !ok ==> active && Stopped(lay, futs, bubbles, f)
      ensures f !in old(bubbles) || (text == None && f in old(futs) && old(futs)[f].text == None) ==>
                ok && Now() == old(Now())
      ensures f in old(bubbles) && (text.Some? || (f in old(futs) && old(futs)[f].text.Some?)) ==>
                && f in old(futs) && given == old(given) + {f}
                && TextsKept(old(futs)[f := old(futs)[f].(text := text, member := member)], old(nextFut), futs, nextFut)
                && NoneBack(old(bubbles), old(nextFut), bubbles)
    {
      hide *;
      ok := true;
      ValidParts();
      LinkedParts();
      BubblesLive();
      ghost var was := Now();
      if f !in bubbles || (text.None? && futs[f].text.None?) {
        ToldNothing(f, text, member, lay, was);
        return;
      }
      AgreedDistinct(client, events, bubbles, given);
      NextUnused();
      RecordedPlaces(active, bubbles, futs, client, f, text, member);
      Record(f, text, member);
      ghost var told := futs;
      if active {
        ok := ShowOpen(f, lay);
        ToldOpen(f, text, member, lay, was, Now(), ok);
        DisplayedTexts(lay, told, old(bubbles), f, old(nextFut), bubbles, futs, nextFut, ok);
      } else {
        KeepLatest(f);
        assert told[f := told[f].(latest := true)] ==
                 old(futs)[f := old(futs)[f].(text := text, member := member, latest := true)];
        ToldClosed(f, text, member, lay, was, Now());
        LatestTexts(told, f, old(nextFut), futs, nextFut);
      }
    }

    /** The open conversation shows what the future has got. */
    method ShowOpen(f: Fut, lay: Layout) returns (ok: bool)
      requires Linked() && active && f in bubbles && PlacedOpenBut(bubbles, futs, client, f)
      requires futs[f].text == None ==> futs[f].bubble
      modifies this`bubbles, this`events, this`futs, this`nextFut
      ensures ok ==> Valid()
      ensures NoneBack(old(bubbles), old(nextFut), bubbles)
      ensures Displayed(lay, old(futs), old(bubbles), f, old(nextFut), bubbles, futs, nextFut, ok)
      ensures !ok ==> Stopped(lay, futs, bubbles, f)
    {
      hide *;
      NextUnused();
      FutsSame(futs, nextFut);
      SameNoneBack(bubbles, nextFut);
      ok := true;
      ButParts(bubbles, futs, client, f);
      if futs[f].bubble {
        ButDrawn(bubbles, futs, client, f);
      } else {
        assert futs[f].text.Some?;
        ok := DrawNew(f);
      }
      if ok {
        ValidAgain();
        ok := UpdateScroll(lay);
      }
      DisplayedIs(lay, old(futs), old(bubbles), f, old(nextFut), bubbles, futs, nextFut, ok);
      StoppedIs(lay, futs, bubbles, f);
    }

    lemma ClientLives()
      requires Linked()
      ensures forall f :: f in client ==> f < nextFut
      ensures forall f :: f in bubbles ==> f in futs
    {
      BubblesLive();
      forall f | f in client ensures f < nextFut {
        assert Occurs(history, f, true);
        assert exists load :: Occurs(history, f, load);
      }
    }

    lemma BubblesLive()
      requires Counts(futs, bubbles, events, delivering, None)
      ensures forall g :: g in bubbles ==> g in futs
    {
    }
  }

  /** The check that a message above others is not the latest does fail: when the latest message has lost its text while
      the conversation was closed, and gets one again when it is open. */
  method WithdrawnLatest(lay: Layout) returns (convo: Convo, ok: bool)
    ensures !ok
  {
    hide *;
    convo := new Convo();
    AppliedLoad([], 0, Top);
    var _ := convo.Take();
    assert convo.client == [0];
    convo.Done();
    convo.ClosedPlain();
    ghost var u := convo.Now();
    ok := convo.SetMessage(0, Some("a"), Them, lay);
    ToldLatest(Some("a"), lay, u, convo.Now(), ok);
    convo.ClosedPlain();
    u := convo.Now();
    ok := convo.SetMessage(0, None, Them, lay);
    ToldLatest(None, lay, u, convo.Now(), ok);
    convo.ClosedPlain();
    u := convo.Now();
    ok := convo.Open(lay, false);
    OpenedBlank(lay, u, convo.Now(), ok);
    u := convo.Now();
    ok := convo.SetMessage(0, Some("b"), Them, lay);
    ToldRefused(Some("b"), lay, u, convo.Now(), ok);
  }

  lemma ToldLatest(text: Option<string>, lay: Layout, a: View, b: View, ok: bool)
    requires Told(0, text, Them, lay, a, b, ok) && !a.active && 1 <= |a.bubbles| <= 2 && a.bubbles[0] == 0
    requires 0 in a.futs
    requires (text.Some? || a.futs[0].text.Some?) && 0 < a.nextFut && Distinct(a.bubbles)
    ensures ok && !b.active && |b.bubbles| == 2 && b.bubbles[0] == 0 && b.client == a.client && 0 < b.nextFut
    ensures 0 in b.futs ==> b.futs[0].text == text && b.futs[0].latest
  {
  }

  lemma OpenedBlank(lay: Layout, a: View, b: View, ok: bool)
    requires OpenedTo(lay, false, a, b, ok) && !a.active && a.bubbles != [] && a.bubbles[0] in a.futs
    requires a.futs[a.bubbles[0]].text == None
    ensures b == a.(active := true)
  {
  }

  lemma ToldRefused(text: Option<string>, lay: Layout, a: View, b: View, ok: bool)
    requires Told(0, text, Them, lay, a, b, ok) && a.active && |a.bubbles| == 2 && a.bubbles[0] == 0 && 0 in a.futs
    requires text.Some? && a.futs[0].latest && !a.futs[0].bubble
    ensures !ok
  {
  }

  lemma FirstOfAppend(history: seq<Event>, es: seq<Event>, e: Event)
    requires FirstOf(history, es) && (e.load ==> forall load :: !Occurs(history, e.fut, load))
    ensures FirstOf(history, es + [e])
  {
  }

  lemma FirstOfWithout(history: seq<Event>, es: seq<Event>, q: nat)
    requires FirstOf(history, es) && q < |es|
    ensures FirstOf(history, Without(es, q))
  {
    assert forall i :: 0 <= i < |es| - 1 ==> Without(es, q)[i] == es[if i < q then i else i + 1];
  }

  lemma OccursAppend(history: seq<Event>, e: Event)
    ensures forall f, load ::
              Occurs(history + [e], f, load) <==> Occurs(history, f, load) || (f == e.fut && load == e.load)
  {
    var n, more := |history|, history + [e];
    assert more[n] == e;
    forall f, load
      ensures Occurs(more, f, load) <==> Occurs(history, f, load) || (f == e.fut && load == e.load)
    {
      if Occurs(history, f, load) {
        var i :| 0 <= i < n && history[i].fut == f && history[i].load == load;
        assert more[i].fut == f;
      }
    }
  }

  lemma OnceEachAppend(history: seq<Event>, e: Event)
    requires OnceEach(history)
    requires !Occurs(history, e.fut, false) && (e.load <==> !Occurs(history, e.fut, true))
    ensures OnceEach(history + [e])
  {
    var n, more := |history|, history + [e];
    forall j | 0 <= j < |more| && !more[j].load
      ensures Occurs(more[..j], more[j].fut, true)
    {
      assert more[..j] == if j < n then history[..j] else history;
    }
    forall i, j | 0 <= i < j < |more| && more[i].fut == more[j].fut
      ensures more[i].load && !more[j].load
    {
      assert more[i] == history[i];
    }
  }

  lemma TrackedAppend(history: seq<Event>, client: seq<Fut>, e: Event, given: set<Fut>)
    requires Tracked(history, client) && Distinct(client) && Fit(client, e, given)
    requires e.load ==> forall load :: !Occurs(history, e.fut, load)
    ensures Tracked(history + [e], Apply(client, e))
  {
    ReplayOne([], history, e, given);
    OccursAppend(history, e);
    OnceEachAppend(history, e);
    var after := Apply(client, e);
    forall f ensures f in after <==> if e.load then f in client || f == e.fut else f in client && f != e.fut {
      if f in client {
        var i :| 0 <= i < |client| && client[i] == f;
        if e.load {
          assert after[if e.side.Top? then i + 1 else i] == f;
        } else if f != e.fut {
          assert after[if e.side.Top? then i - 1 else i] == f;
        }
      }
    }
  }

  lemma FirstOfDeliver(history: seq<Event>, es: seq<Event>)
    requires FirstOf(history, es) && es != [] && QueuedOnce(es)
    ensures FirstOf(history + [es[0]], es[1..])
  {
    OccursAppend(history, es[0]);
    assert forall i :: 0 <= i < |es| - 1 ==> es[1..][i] == es[i + 1];
  }

  lemma CountTaken(futs: map<Fut, Future>, bubbles: seq<Fut>, es: seq<Event>)
    requires Counts(futs, bubbles, es, None, None) && es != [] && QueuedOnce(es)
    ensures Counts(futs, bubbles, es[1..], Some(es[0].fut), None)
  {
    WithoutQueued(es, 0);
    assert Without(es, 0) == es[1..];
    assert Queued(es, es[0].fut);
  }

  lemma CountDone(futs: map<Fut, Future>, bubbles: seq<Fut>, es: seq<Event>, f: Fut)
    requires Counts(futs, bubbles, es, Some(f), None)
    ensures Counts(futs, bubbles, es, None, Some(f))
  {
  }

  lemma AgreedDistinct(client: seq<Fut>, es: seq<Event>, bubbles: seq<Fut>, given: set<Fut>)
    requires Agreed(client, es, bubbles, given)
    ensures Distinct(client) && Distinct(bubbles) && QueuedOnce(es)
  {
  }

  lemma FirstIsFirst(history: seq<Event>, es: seq<Event>)
    requires FirstOf(history, es) && es != []
    ensures es[0].load ==> forall load :: !Occurs(history, es[0].fut, load)
  {
  }

  lemma PlacedStays(active: bool, bubbles: seq<Fut>, futs: map<Fut, Future>, client: seq<Fut>, after: seq<Fut>,
                    e: Event)
    requires PlacedIn(active, bubbles, futs, client) && QueuedRightly(client, e, bubbles) && after == Apply(client, e)
    requires !e.load ==> client != [] && End(client, e.side) == e.fut
    ensures PlacedIn(active, bubbles, futs, after)
  {
    forall f | f in client && f in bubbles ensures f in after {
      var i :| 0 <= i < |client| && client[i] == f;
      assert if e.load && e.side.Top? then after[i + 1] == f
             else if e.load then after[i] == f
             else f != e.fut && after[if e.side.Top? then i - 1 else i] == f;
    }
  }

  /** Counts do not matter for where things are. */
  lemma PlacedKept(active: bool, bubbles: seq<Fut>, before: map<Fut, Future>, futs: map<Fut, Future>, client: seq<Fut>)
    requires PlacedIn(active, bubbles, before, client)
    requires forall g :: g in bubbles ==> g in futs
    requires forall g :: g in futs ==> g in before && futs[g] == before[g].(rc := futs[g].rc)
    ensures PlacedIn(active, bubbles, futs, client)
  {
  }

  lemma FutsSame(futs: map<Fut, Future>, next: Fut)
    requires forall g :: g in futs ==> g < next
    ensures FutsKept(futs, next, futs, next)
  {
  }

  lemma FutsFewer(before: map<Fut, Future>, futs: map<Fut, Future>, next: Fut)
    requires forall g :: g in before ==> g < next
    requires forall g :: g in futs ==> g in before && futs[g] == before[g].(rc := futs[g].rc, bubble := futs[g].bubble)
    ensures FutsKept(before, next, futs, next)
  {
  }

  lemma FutsMore(futs: map<Fut, Future>, next: Fut, f: Fut, fut: Future, next': Fut)
    requires forall g :: g in futs ==> g < next
    requires f == next <= next' && fut == Future(fut.rc, None, Them, false, fut.bubble)
    ensures FutsKept(futs, next, futs[f := fut], next')
  {
  }

  lemma PlacedGrownTop(bubbles: seq<Fut>, futs: map<Fut, Future>, client: seq<Fut>, f: Fut, fut: Future)
    requires PlacedOpen(bubbles, futs, client) && f !in bubbles && futs[bubbles[0]].text.Some?
    requires fut.text == None && !fut.latest && !fut.bubble
    ensures PlacedOpen([f] + bubbles, futs[f := fut], client)
  {
    var more, fs := [f] + bubbles, futs[f := fut];
    assert forall i :: 0 <= i < |bubbles| ==> more[i + 1] == bubbles[i];
    forall i | 0 <= i < |more| && fs[more[i]].latest
      ensures i == |more| - 1 || (i == |more| - 2 && more[i] in client && !fs[more[|more| - 1]].bubble)
    {
      assert bubbles[i - 1] == more[i];
    }
    forall i | 0 < i < |more| - 1
      ensures fs[more[i]].bubble
    {
      assert bubbles[i - 1] == more[i];
    }
  }

  lemma PlacedGrownBottom(bubbles: seq<Fut>, futs: map<Fut, Future>, client: seq<Fut>, f: Fut, fut: Future)
    requires PlacedOpen(bubbles, futs, client) && f !in bubbles
    requires futs[bubbles[|bubbles| - 1]].text.Some? && bubbles[|bubbles| - 1] in client
    requires fut.text == None && !fut.latest && !fut.bubble
    ensures PlacedOpen(bubbles + [f], futs[f := fut], client)
  {
    var n := |bubbles|;
    var more, fs := bubbles + [f], futs[f := fut];
    assert forall i :: 0 <= i < n ==> more[i] == bubbles[i] && fs[more[i]] == futs[bubbles[i]];
    assert fs[more[n - 1]].bubble;
  }

  lemma PlacedGrown(bubbles: seq<Fut>, futs: map<Fut, Future>, client: seq<Fut>, f: Fut, side: Side, fut: Future)
    requires PlacedOpen(bubbles, futs, client) && f !in bubbles
    requires futs[End(bubbles, side)].text.Some? && End(bubbles, side) in client
    requires fut.text == None && !fut.latest && !fut.bubble
    ensures PlacedIn(true, Apply(bubbles, Event(f, true, side)), futs[f := fut], client)
  {
    if side.Top? {
      PlacedGrownTop(bubbles, futs, client, f, fut);
    } else {
      PlacedGrownBottom(bubbles, futs, client, f, fut);
    }
  }

  lemma PlacedShrunk(bubbles: seq<Fut>, before: map<Fut, Future>, futs: map<Fut, Future>, client: seq<Fut>, f: Fut,
                     side: Side)
    requires PlacedOpen(bubbles, before, client) && |bubbles| > 1 && f == End(bubbles, side) && Distinct(bubbles)
    requires forall g :: g != f ==> (g in futs <==> g in before) && (g in futs ==> futs[g] == before[g])
    ensures PlacedIn(true, Apply(bubbles, Event(f, false, side)), futs, client)
  {
    var less := Apply(bubbles, Event(f, false, side));
    var d := if side.Top? then 1 else 0;
    assert forall i :: 0 <= i < |less| ==> less[i] == bubbles[i + d] && less[i] != f;
  }

  lemma Thresholds()
    ensures LOAD_DISTANCE_LOWER <= LOAD_DISTANCE_UPPER
  {
  }

  predicate Drawn(futs: map<Fut, Future>, f: Fut)
  {
    f in futs && futs[f].bubble
  }

  lemma DrawnIs(futs: map<Fut, Future>, f: Fut)
    ensures Drawn(futs, f) <==> f in futs && futs[f].bubble
  {
  }

  /** The conversation's area is empty. */
  predicate NothingDrawn(futs: map<Fut, Future>, bubbles: seq<Fut>)
  {
    forall f :: f in bubbles ==> !Drawn(futs, f)
  }

  /** The program's own checks when it draws the bubble of a future. */
  predicate MayShow(futs: map<Fut, Future>, bubbles: seq<Fut>, f: Fut)
  {
    f in futs && if bubbles == [f] then futs[f].latest else !futs[f].latest
  }

  /** All the layout leaves is one future, and that is out of sight while an end is far away. */
  ghost predicate LastGoes(lay: Layout, futs: map<Fut, Future>, bubbles: seq<Fut>)
  {
    && |bubbles| == 1 && MayGo(lay, futs, bubbles[0])
    && exists at: nat :: Reading(lay.below, at) > LOAD_DISTANCE_UPPER || Reading(lay.above, at) > LOAD_DISTANCE_UPPER
  }

  lemma LastGoesIs(lay: Layout, futs: map<Fut, Future>, bubbles: seq<Fut>, at: nat)
    requires |bubbles| == 1 && MayGo(lay, futs, bubbles[0])
    requires Reading(lay.below, at) > LOAD_DISTANCE_UPPER || Reading(lay.above, at) > LOAD_DISTANCE_UPPER
    ensures LastGoes(lay, futs, bubbles)
  {
  }

  /** Where showing a future's message has come to a stop: the bubble of the future is not drawn, because a check of
      the program fails; or the layout would have the very last bubble go. */
  ghost predicate Stopped(lay: Layout, futs: map<Fut, Future>, bubbles: seq<Fut>, f: Fut)
  {
    || (f in bubbles && f in futs && !futs[f].bubble && !MayShow(futs, bubbles, f))
    || LastGoes(lay, futs, bubbles)
  }

  lemma StoppedIs(lay: Layout, futs: map<Fut, Future>, bubbles: seq<Fut>, f: Fut)
    ensures (f in bubbles && f in futs && !futs[f].bubble && !MayShow(futs, bubbles, f)) || LastGoes(lay, futs, bubbles)
            <==> Stopped(lay, futs, bubbles, f)
  {
  }

  /** The bubble is drawn; at the bottom, it becomes the latest if the one above it was. */
  function Shown(futs: map<Fut, Future>, bubbles: seq<Fut>, f: Fut): map<Fut, Future>
    requires f in futs
  {
    var n := |bubbles|;
    var drawn := futs[f := futs[f].(bubble := true)];
    if n > 1 && bubbles[n - 1] == f && bubbles[n - 2] != f && bubbles[n - 2] in futs && futs[bubbles[n - 2]].latest
    then drawn[bubbles[n - 2] := futs[bubbles[n - 2]].(latest := false)][f := drawn[f].(latest := true)]
    else drawn
  }

  lemma ShownIs(futs: map<Fut, Future>, bubbles: seq<Fut>, f: Fut, i: nat)
    requires f in futs && i < |bubbles| && bubbles[i] == f && Distinct(bubbles)
    requires forall g :: g in bubbles ==> g in futs
    ensures |bubbles| == 1 && !futs[f].bubble ==> NothingDrawn(futs, bubbles)
    ensures MayShow(futs, bubbles, f) <==> if |bubbles| == 1 then futs[f].latest else !futs[f].latest
    ensures i < |bubbles| - 1 || i == 0 ==> Shown(futs, bubbles, f) == futs[f := futs[f].(bubble := true)]
    ensures 0 < i == |bubbles| - 1 ==>
              bubbles[i - 1] != f && bubbles[i - 1] in futs &&
              Shown(futs, bubbles, f) ==
                var drawn := futs[f := futs[f].(bubble := true)];
                if futs[bubbles[i - 1]].latest
                then drawn[bubbles[i - 1] := drawn[bubbles[i - 1]].(latest := false)][f := drawn[f].(latest := true)]
                else drawn
  {
  }

  /** What an open conversation makes of a future that has got a message: its bubble is drawn if it had none, and the
      list is scrolled; or a check of the program fails, and nothing changes. */
  ghost predicate Displayed(lay: Layout, futs: map<Fut, Future>, bubbles: seq<Fut>, f: Fut, next: Fut, after: seq<Fut>,
                            futs': map<Fut, Future>, next': Fut, ok: bool)
  {
    f in futs &&
    if !futs[f].bubble && !MayShow(futs, bubbles, f) then !ok && after == bubbles && futs' == futs && next' == next
    else
      var shown := if futs[f].bubble then futs else Shown(futs, bubbles, f);
      && Scrolled(lay, shown, bubbles, next, after, ok) && FutsKept(shown, next, futs', next')
      && SameDrawn(after, shown, futs')
  }

  lemma DisplayedIs(lay: Layout, futs: map<Fut, Future>, bubbles: seq<Fut>, f: Fut, next: Fut, after: seq<Fut>,
                    futs': map<Fut, Future>, next': Fut, ok: bool)
    requires f in futs
    requires futs[f].bubble ==>
               Scrolled(lay, futs, bubbles, next, after, ok) && FutsKept(futs, next, futs', next')
               && SameDrawn(after, futs, futs')
    requires !futs[f].bubble && MayShow(futs, bubbles, f) ==>
               Scrolled(lay, Shown(futs, bubbles, f), bubbles, next, after, ok)
               && FutsKept(Shown(futs, bubbles, f), next, futs', next')
               && SameDrawn(after, Shown(futs, bubbles, f), futs')
    requires !futs[f].bubble && !MayShow(futs, bubbles, f) ==> !ok && after == bubbles && futs' == futs && next' == next
    ensures Displayed(lay, futs, bubbles, f, next, after, futs', next', ok)
  {
  }

  /** They have a bubble now as they had before. */
  ghost predicate SameDrawn(s: seq<Fut>, was: map<Fut, Future>, futs: map<Fut, Future>)
  {
    forall i {:trigger s[i]} :: 0 <= i < |s| ==> Drawn(futs, s[i]) == Drawn(was, s[i])
  }

  /** How many of these have a bubble. */
  function DrawnIn(futs: map<Fut, Future>, s: seq<Fut>): nat
  {
    if s == [] then 0 else DrawnIn(futs, s[..|s| - 1]) + One(Drawn(futs, s[|s| - 1]))
  }

  /** When all below it have gone, this one is out of sight, and the end is far away. */
  predicate GoesBelow(lay: Layout, futs: map<Fut, Future>, list: seq<Fut>, i: nat)
    requires i < |list|
  {
    MayGo(lay, futs, list[i]) && Reading(lay.below, DrawnIn(futs, list[i + 1..])) > LOAD_DISTANCE_UPPER
  }

  predicate GoesAbove(lay: Layout, futs: map<Fut, Future>, list: seq<Fut>, i: nat)
    requires i < |list|
  {
    MayGo(lay, futs, list[i]) && Reading(lay.above, DrawnIn(futs, list[..i])) > LOAD_DISTANCE_UPPER
  }

  ghost predicate AllGoBelow(lay: Layout, futs: map<Fut, Future>, list: seq<Fut>, n: nat)
  {
    forall i {:trigger GoesBelow(lay, futs, list, i)} :: n <= i < |list| ==> GoesBelow(lay, futs, list, i)
  }

  ghost predicate AllGoAbove(lay: Layout, futs: map<Fut, Future>, list: seq<Fut>, k: nat)
  {
    forall i {:trigger GoesAbove(lay, futs, list, i)} :: 0 <= i < k && i < |list| ==> GoesAbove(lay, futs, list, i)
  }

  /** The first n are kept: all that follow go, the last of those kept does not; if even the very first would go, that
      is the end. */
  ghost predicate KeptBelow(lay: Layout, futs: map<Fut, Future>, list: seq<Fut>, n: nat, ok: bool)
  {
    && 0 < n <= |list| && AllGoBelow(lay, futs, list, n)
    && (GoesBelow(lay, futs, list, n - 1) <==> !ok) && (!ok ==> n == 1)
  }

  /** The first k go, and the next does not. */
  ghost predicate KeptAbove(lay: Layout, futs: map<Fut, Future>, list: seq<Fut>, k: nat, ok: bool)
  {
    && k < |list| && AllGoAbove(lay, futs, list, k)
    && (GoesAbove(lay, futs, list, k) <==> !ok) && (!ok ==> k == |list| - 1)
  }

  /** More is asked for at this side. */
  predicate WantsMore(futs: map<Fut, Future>, list: seq<Fut>, side: Side, distance: int)
  {
    list != [] && End(list, side) in futs && futs[End(list, side)].text.Some? && distance < LOAD_DISTANCE_LOWER
  }

  /** The list with what is asked for at either end: new futures, the bottom one first. */
  function Grown(lay: Layout, futs: map<Fut, Future>, list: seq<Fut>, next: Fut): seq<Fut>
  {
    var below := WantsMore(futs, list, Bottom, Reading(lay.below, 0));
    (if WantsMore(futs, list, Top, Reading(lay.above, 0)) then [if below then next + 1 else next] else [])
    + list + (if below then [next] else [])
  }

  /** What is left of a list when the top has been given back. */
  ghost predicate TopDone(lay: Layout, futs: map<Fut, Future>, list: seq<Fut>, after: seq<Fut>, ok: bool)
  {
    |after| <= |list| && after == list[|list| - |after|..] && KeptAbove(lay, futs, list, |list| - |after|, ok)
  }

  /** A list, cut below and then above; `ok` is false when all of it would go. */
  ghost predicate Cut(lay: Layout, futs: map<Fut, Future>, list: seq<Fut>, after: seq<Fut>, ok: bool)
  {
    exists n: nat, done: bool {:trigger KeptBelow(lay, futs, list, n, done)} ::
      && KeptBelow(lay, futs, list, n, done)
      && if done then TopDone(lay, futs, list[..n], after, ok) else !ok && after == list[..n]
  }

  /** What scrolling makes of a list of which something is drawn: grown where it wants more, then cut. */
  ghost predicate Scrolled(lay: Layout, futs: map<Fut, Future>, list: seq<Fut>, next: Fut, after: seq<Fut>, ok: bool)
  {
    if NothingDrawn(futs, list) then ok && after == list else Cut(lay, futs, Grown(lay, futs, list, next), after, ok)
  }

  lemma CutIs(lay: Layout, futs: map<Fut, Future>, list: seq<Fut>, after: seq<Fut>, ok: bool, n: nat, done: bool)
    requires n <= |list| && KeptBelow(lay, futs, list, n, done)
    requires if done
             then |after| <= n && after == list[..n][n - |after|..] && KeptAbove(lay, futs, list[..n], n - |after|, ok)
             else !ok && after == list[..n]
    ensures Cut(lay, futs, list, after, ok)
  {
    hide KeptBelow, KeptAbove;
    assert |list[..n]| == n;
  }

  lemma ScrolledIs(lay: Layout, futs: map<Fut, Future>, list: seq<Fut>, next: Fut)
    ensures NothingDrawn(futs, list) ==> Scrolled(lay, futs, list, next, list, true)
  {
  }

  lemma ScrolledToIs(lay: Layout, a: View, b: View, ok: bool)
    requires b == a.(bubbles := b.bubbles, events := b.events, futs := b.futs, nextFut := b.nextFut)
    requires Agreed(b.client, b.events, b.bubbles, b.given) && FutsKept(a.futs, a.nextFut, b.futs, b.nextFut)
    requires Scrolled(lay, a.futs, a.bubbles, a.nextFut, b.bubbles, ok) && SameDrawn(b.bubbles, a.futs, b.futs)
    requires NothingDrawn(a.futs, a.bubbles) ==> b == a
    ensures ScrolledTo(lay, a, b, ok)
  {
  }

  lemma OpenedToIs(lay: Layout, busy: bool, a: View, b: View, ok: bool)
    requires a.active || busy ==> ok && b == a
    requires a.bubbles != [] && a.bubbles[0] in a.futs
    requires !a.active && !busy && a.futs[a.bubbles[0]].text == None ==> ok && b == a.(active := true)
    requires !a.active && !busy && a.futs[a.bubbles[0]].text.Some? ==>
               ScrolledTo(lay, a.(active := true,
                                  futs := a.futs[a.bubbles[0] := a.futs[a.bubbles[0]].(bubble := true)]), b, ok)
    ensures OpenedTo(lay, busy, a, b, ok)
  {
  }

  lemma LeftToIs(a: View, b: View)
    requires b == a.(bubbles := b.bubbles, events := b.events, futs := b.futs, nextFut := b.nextFut, active := false)
    requires Agreed(b.client, b.events, b.bubbles, b.given)
    requires FutsKept(a.futs, a.nextFut, b.futs - {a.nextFut}, b.nextFut)
    requires forall g :: g in b.futs ==> !b.futs[g].bubble
    requires forall f :: f in a.bubbles ==> f in a.futs
    requires (exists k {:trigger a.bubbles[k]} :: 0 <= k < |a.bubbles| && b.bubbles == a.bubbles[k..]
                && a.futs[a.bubbles[k]].latest && forall i :: 0 <= i < k ==> !a.futs[a.bubbles[i]].latest)
             || (b.bubbles == [a.nextFut] && (forall f :: f in a.bubbles ==> !a.futs[f].latest)
                 && a.nextFut in b.futs && b.futs[a.nextFut] == Future(2, None, Them, true, false))
    ensures LeftTo(a, b)
  {
  }

  lemma CutScrolled(lay: Layout, futs: map<Fut, Future>, was: map<Fut, Future>, list: seq<Fut>, next: Fut,
                    after: seq<Fut>, ok: bool)
    requires var g := Grown(lay, futs, list, next); SameDrawn(g, futs, was) && Cut(lay, was, g, after, ok)
    requires !NothingDrawn(futs, list)
    ensures Scrolled(lay, futs, list, next, after, ok)
  {
    hide Grown, SameDrawn, KeptAbove, AllGoBelow, GoesBelow;
    var g := Grown(lay, futs, list, next);
    var n: nat, done: bool :| KeptBelow(lay, was, g, n, done) &&
      if done then TopDone(lay, was, g[..n], after, ok) else !ok && after == g[..n];
    KeptBelowSame(lay, futs, was, g, n, done);
    if done {
      SameDrawnPart(g, n, futs, was);
      KeptAboveSame(lay, futs, was, g[..n], n - |after|, ok);
    }
  }

  lemma SameDrawnPart(list: seq<Fut>, n: nat, a: map<Fut, Future>, b: map<Fut, Future>)
    requires SameDrawn(list, a, b) && n <= |list|
    ensures SameDrawn(list[..n], a, b)
  {
  }

  lemma GrownIs(lay: Layout, futs: map<Fut, Future>, list: seq<Fut>, next: Fut, below: bool, above: bool)
    requires list != [] && End(list, Top) in futs && End(list, Bottom) in futs
    requires below <==> futs[End(list, Bottom)].text.Some? && Reading(lay.below, 0) < LOAD_DISTANCE_LOWER
    requires above <==> futs[End(list, Top)].text.Some? && Reading(lay.above, 0) < LOAD_DISTANCE_LOWER
    ensures var g := if below then Apply(list, Event(next, true, Bottom)) else list;
            Grown(lay, futs, list, next) ==
            if above then Apply(g, Event(if below then next + 1 else next, true, Top)) else g
  {
  }

  lemma SameTop(list: seq<Fut>, next: Fut, more: seq<Fut>, was: map<Fut, Future>, futs: map<Fut, Future>, next': Fut)
    requires list != [] && End(list, Top) in was
    requires more == list || more == Apply(list, Event(next, true, Bottom))
    requires FutsKept(was, next, futs, next') && (forall g :: g in was ==> g < next)
    requires forall g :: g in more ==> g in futs
    ensures more != [] && End(more, Top) == End(list, Top) && End(list, Top) in futs
    ensures futs[End(list, Top)].text == was[End(list, Top)].text
  {
    assert more[0] == list[0] && more[0] in more;
  }

  lemma DrawnSame(list: seq<Fut>, futs: map<Fut, Future>)
    ensures SameDrawn(list, futs, futs)
  {
  }

  lemma DrawnTwice(list: seq<Fut>, a: map<Fut, Future>, b: map<Fut, Future>, c: map<Fut, Future>)
    requires forall g {:trigger Drawn(b, g)} :: Drawn(b, g) == Drawn(a, g)
    requires forall g {:trigger Drawn(c, g)} :: Drawn(c, g) == Drawn(b, g)
    ensures SameDrawn(list, a, c)
  {
  }

  lemma {:induction false} DrawnInSame(s: seq<Fut>, a: map<Fut, Future>, b: map<Fut, Future>)
    requires SameDrawn(s, a, b)
    ensures DrawnIn(a, s) == DrawnIn(b, s)
  {
    if s != [] {
      var n := |s| - 1;
      assert Drawn(a, s[n]) == Drawn(b, s[n]);
      DrawnInSame(s[..n], a, b);
    }
  }

  lemma GoesSame(lay: Layout, a: map<Fut, Future>, b: map<Fut, Future>, list: seq<Fut>, i: nat)
    requires SameDrawn(list, a, b) && i < |list|
    ensures GoesBelow(lay, a, list, i) <==> GoesBelow(lay, b, list, i)
    ensures GoesAbove(lay, a, list, i) <==> GoesAbove(lay, b, list, i)
  {
    assert Drawn(a, list[i]) == Drawn(b, list[i]);
    assert forall j {:trigger list[i + 1..][j]} :: 0 <= j < |list| - i - 1 ==> list[i + 1..][j] == list[i + 1 + j];
    DrawnInSame(list[i + 1..], a, b);
    DrawnInSame(list[..i], a, b);
  }

  lemma KeptBelowSame(lay: Layout, a: map<Fut, Future>, b: map<Fut, Future>, list: seq<Fut>, n: nat, ok: bool)
    requires SameDrawn(list, a, b) && KeptBelow(lay, b, list, n, ok)
    ensures KeptBelow(lay, a, list, n, ok)
  {
    hide GoesBelow, SameDrawn;
    GoesSame(lay, a, b, list, n - 1);
    forall i | n <= i < |list| ensures GoesBelow(lay, a, list, i) {
      GoesSame(lay, a, b, list, i);
    }
  }

  lemma KeptAboveSame(lay: Layout, a: map<Fut, Future>, b: map<Fut, Future>, list: seq<Fut>, k: nat, ok: bool)
    requires SameDrawn(list, a, b) && KeptAbove(lay, b, list, k, ok)
    ensures KeptAbove(lay, a, list, k, ok)
  {
    hide GoesAbove, SameDrawn;
    GoesSame(lay, a, b, list, k);
    forall i | 0 <= i < k ensures GoesAbove(lay, a, list, i) {
      GoesSame(lay, a, b, list, i);
    }
  }

  lemma DrawnMore(futs: map<Fut, Future>, f: Fut, fut: Future)
    requires f !in futs && !fut.bubble
    ensures forall g {:trigger Drawn(futs[f := fut], g)} :: Drawn(futs[f := fut], g) == Drawn(futs, g)
  {
  }

  lemma DrawnApart(list: seq<Fut>, was: map<Fut, Future>, futs: map<Fut, Future>, f: Fut, side: Side)
    requires list != [] && Distinct(list) && f == End(list, side) && forall g :: g in list ==> g in was
    requires forall g :: g != f ==> (g in futs <==> g in was) && (g in futs ==> futs[g] == was[g])
    ensures SameDrawn(Apply(list, Event(f, false, side)), was, futs)
  {
  }

  lemma DrawnChain(had: seq<Fut>, s: seq<Fut>, a: map<Fut, Future>, b: map<Fut, Future>, c: map<Fut, Future>)
    requires SameDrawn(had, a, b) && SameDrawn(s, b, c) && forall f :: f in s ==> f in had
    ensures SameDrawn(s, a, c)
  {
    forall i | 0 <= i < |s| ensures Drawn(c, s[i]) == Drawn(a, s[i]) {
      assert s[i] in had;
    }
  }

  lemma {:induction false} DrawnInFirst(futs: map<Fut, Future>, f: Fut, s: seq<Fut>)
    ensures DrawnIn(futs, [f] + s) == One(Drawn(futs, f)) + DrawnIn(futs, s)
  {
    if s == [] {
      assert [f] + s == [] + [f];
      assert ([f] + s)[..0] == [];
    } else {
      assert ([f] + s)[..|s|] == [f] + s[..|s| - 1];
      DrawnInFirst(futs, f, s[..|s| - 1]);
    }
  }

  lemma NoneBelow(lay: Layout, futs: map<Fut, Future>, list: seq<Fut>)
    ensures AllGoBelow(lay, futs, list, |list|) && DrawnIn(futs, list[|list|..]) == 0 && SameDrawn(list, futs, futs)
  {
  }

  lemma NoneAbove(lay: Layout, futs: map<Fut, Future>, list: seq<Fut>)
    ensures AllGoAbove(lay, futs, list, 0) && DrawnIn(futs, list[..0]) == 0 && SameDrawn(list, futs, futs)
  {
  }

  lemma BelowHere(lay: Layout, was: map<Fut, Future>, futs: map<Fut, Future>, list: seq<Fut>, now: seq<Fut>, at: nat)
    requires 0 < |now| <= |list| && now == list[..|now|] && SameDrawn(now, was, futs)
    requires at == DrawnIn(was, list[|now|..])
    ensures GoesBelow(lay, was, list, |now| - 1) <==>
            Reading(lay.below, at) > LOAD_DISTANCE_UPPER && MayGo(lay, futs, now[|now| - 1])
  {
    assert now[|now| - 1] == list[|now| - 1];
  }

  lemma BelowNext(lay: Layout, was: map<Fut, Future>, futs: map<Fut, Future>, list: seq<Fut>, now: seq<Fut>)
    requires 0 < |now| <= |list| && now == list[..|now|] && SameDrawn(now, was, futs)
    requires AllGoBelow(lay, was, list, |now|) && GoesBelow(lay, was, list, |now| - 1)
    ensures AllGoBelow(lay, was, list, |now| - 1)
    ensures DrawnIn(was, list[|now| - 1..]) ==
              DrawnIn(was, list[|now|..]) + if Drawn(futs, now[|now| - 1]) then 1 else 0
  {
    assert now[|now| - 1] == list[|now| - 1];
    assert list[|now| - 1..] == [list[|now| - 1]] + list[|now|..];
    DrawnInFirst(was, list[|now| - 1], list[|now|..]);
  }

  lemma BelowKept(lay: Layout, futs: map<Fut, Future>, list: seq<Fut>, n: nat, ok: bool)
    requires 0 < n <= |list| && AllGoBelow(lay, futs, list, n)
    requires (GoesBelow(lay, futs, list, n - 1) <==> !ok) && (!ok ==> n == 1)
    ensures KeptBelow(lay, futs, list, n, ok)
  {
  }

  lemma AboveHere(lay: Layout, was: map<Fut, Future>, futs: map<Fut, Future>, list: seq<Fut>, now: seq<Fut>, k: nat,
                  at: nat)
    requires k < |list| && now == list[k..] && SameDrawn(now, was, futs) && at == DrawnIn(was, list[..k])
    ensures GoesAbove(lay, was, list, k) <==> Reading(lay.above, at) > LOAD_DISTANCE_UPPER && MayGo(lay, futs, now[0])
  {
    assert now[0] == list[k];
  }

  lemma AboveNext(lay: Layout, was: map<Fut, Future>, futs: map<Fut, Future>, list: seq<Fut>, now: seq<Fut>, k: nat)
    requires k < |list| && now == list[k..] && SameDrawn(now, was, futs)
    requires AllGoAbove(lay, was, list, k) && GoesAbove(lay, was, list, k)
    ensures AllGoAbove(lay, was, list, k + 1)
    ensures DrawnIn(was, list[..k + 1]) == DrawnIn(was, list[..k]) + if Drawn(futs, now[0]) then 1 else 0
  {
    assert now[0] == list[k];
    assert list[..k + 1][..k] == list[..k] && list[..k + 1][k] == list[k];
  }

  lemma AboveKept(lay: Layout, futs: map<Fut, Future>, list: seq<Fut>, k: nat, ok: bool)
    requires k < |list| && AllGoAbove(lay, futs, list, k)
    requires (GoesAbove(lay, futs, list, k) <==> !ok) && (!ok ==> k == |list| - 1)
    ensures KeptAbove(lay, futs, list, k, ok)
  {
  }

  /** Nothing of this future is to be seen. */
  predicate MayGo(lay: Layout, futs: map<Fut, Future>, f: Fut)
  {
    !Drawn(futs, f) || f !in lay.visible
  }

  lemma DroppedBottom(list: seq<Fut>, n: nat)
    requires 1 < n <= |list|
    ensures Apply(list[..n], Event(End(list[..n], Bottom), false, Bottom)) == list[..n - 1]
  {
  }

  lemma Apart(list: seq<Fut>, k: nat)
    requires Distinct(list) && k < |list|
    ensures forall i :: k < i < |list| ==> list[i] != list[k]
    ensures End(list[k..], Top) == list[k]
  {
  }

  lemma DroppedTop(list: seq<Fut>, k: nat)
    requires k < |list|
    ensures Apply(list[k..], Event(End(list[k..], Top), false, Top)) == list[k + 1..]
  {
  }

  lemma FutsChain(a: map<Fut, Future>, na: Fut, b: map<Fut, Future>, nb: Fut, c: map<Fut, Future>, nc: Fut)
    requires FutsKept(a, na, b, nb) && FutsKept(b, nb, c, nc)
    ensures FutsKept(a, na, c, nc)
  {
  }

  lemma KeptTexts(a: map<Fut, Future>, next: Fut, futs: map<Fut, Future>, next': Fut)
    requires FutsKept(a, next, futs, next')
    ensures TextsKept(a, next, futs, next')
  {
  }

  lemma LeftTexts(a: map<Fut, Future>, next: Fut, futs: map<Fut, Future>, next': Fut)
    requires FutsKept(a, next, futs - {next}, next') && (next in futs ==> futs[next].text == None)
    ensures TextsKept(a, next, futs, next')
  {
    forall g | g in futs && g != next ensures g in futs - {next} && (futs - {next})[g] == futs[g] {
    }
  }

  lemma FutsLater(a: map<Fut, Future>, next: Fut, futs: map<Fut, Future>, next': Fut)
    requires FutsKept(a, next, futs, next) && next <= next'
    ensures FutsKept(a, next, futs, next')
  {
  }

  lemma FutsErased(a: map<Fut, Future>, next: Fut, before: map<Fut, Future>, futs: map<Fut, Future>, next': Fut)
    requires FutsKept(a, next, before, next')
    requires forall g :: g in futs ==> g in before && futs[g] == before[g].(rc := futs[g].rc, bubble := futs[g].bubble)
    ensures FutsKept(a, next, futs, next')
  {
  }

  lemma PlacedLeft(list: seq<Fut>, before: map<Fut, Future>, futs: map<Fut, Future>, client: seq<Fut>, k: nat)
    requires PlacedOpen(list, before, client) && k < |list| && before[list[k]].latest && Distinct(list)
    requires forall i {:trigger list[i]} :: k <= i < |list| ==>
               list[i] in futs && futs[list[i]] == if i == k then before[list[i]].(bubble := false) else before[list[i]]
    ensures PlacedIn(false, list[k..], futs, client)
  {
    var left := list[k..];
    assert left[0] == list[k];
    if |left| == 2 {
      assert left[1] == list[k + 1];
    }
    forall f | f in left ensures f in futs && !futs[f].bubble {
      var i :| 0 <= i < |left| && left[i] == f;
      assert list[k + i] == f;
    }
  }

  lemma PlacedFirst(futs: map<Fut, Future>, client: seq<Fut>, f: Fut)
    requires f in futs && !futs[f].bubble
    ensures PlacedIn(false, [f], futs, client)
  {
  }

  lemma PlacedOpened(bubbles: seq<Fut>, futs: map<Fut, Future>, client: seq<Fut>)
    requires PlacedIn(false, bubbles, futs, client) && Distinct(bubbles)
    ensures bubbles != [] && bubbles[0] in futs
    ensures PlacedIn(true, bubbles,
                     if futs[bubbles[0]].text.Some? then futs[bubbles[0] := futs[bubbles[0]].(bubble := true)]
                     else futs, client)
  {
  }

  lemma ButParts(bubbles: seq<Fut>, futs: map<Fut, Future>, client: seq<Fut>, f: Fut)
    requires PlacedOpenBut(bubbles, futs, client, f)
    ensures forall i, j :: 0 <= i < j < |bubbles| ==> bubbles[i] != bubbles[j]
    ensures forall i :: 0 <= i < |bubbles| ==> bubbles[i] in futs && (0 < i < |bubbles| - 1 ==> futs[bubbles[i]].bubble)
  {
  }

  lemma DrawnAlone(bubbles: seq<Fut>, futs: map<Fut, Future>, client: seq<Fut>, f: Fut)
    requires PlacedOpenBut(bubbles, futs, client, f) && bubbles == [f]
    ensures PlacedIn(true, bubbles, futs[f := futs[f].(bubble := true)], client)
  {
  }

  lemma DrawnFirst(bubbles: seq<Fut>, futs: map<Fut, Future>, client: seq<Fut>, f: Fut)
    requires PlacedOpenBut(bubbles, futs, client, f) && |bubbles| > 1 && f == bubbles[0]
    ensures PlacedIn(true, bubbles, futs[f := futs[f].(bubble := true)], client)
  {
  }

  lemma DrawnLast(bubbles: seq<Fut>, futs: map<Fut, Future>, client: seq<Fut>, f: Fut)
    requires PlacedOpenBut(bubbles, futs, client, f) && |bubbles| > 1 && f == bubbles[|bubbles| - 1]
    ensures var up := bubbles[|bubbles| - 2];
            var fs := futs[f := futs[f].(bubble := true)];
            && up in fs && up != f
            && PlacedIn(true, bubbles,
                        if fs[up].latest then fs[up := fs[up].(latest := false)][f := fs[f].(latest := true)]
                        else fs, client)
  {
    var n := |bubbles|;
    assert forall i :: 0 <= i < n - 1 ==> bubbles[i] != bubbles[n - 1];
    assert forall i :: 0 <= i < n - 2 ==> bubbles[i] != bubbles[n - 2] && !futs[bubbles[i]].latest;
  }

  lemma ClosedButParts(bubbles: seq<Fut>, futs: map<Fut, Future>, client: seq<Fut>, f: Fut)
    requires PlacedClosedBut(bubbles, futs, client, f)
    ensures f in futs && !futs[f].bubble && !futs[bubbles[0]].bubble
    ensures (bubbles == [f] || (|bubbles| == 2 && bubbles[0] != bubbles[1] && bubbles[0] in client))
    ensures forall g :: g in bubbles ==> g in futs
    ensures bubbles[0] == f || bubbles == [bubbles[0], f]
  {
  }

  lemma PlacedPair(bubbles: seq<Fut>, before: map<Fut, Future>, futs: map<Fut, Future>, client: seq<Fut>, f: Fut)
    requires PlacedClosedBut(bubbles, before, client, f) && f != bubbles[|bubbles| - 1]
    requires futs == before[f := before[f].(latest := true)]
    ensures PlacedIn(false, bubbles, futs, client)
  {
  }

  lemma AppliedTop(s: seq<Fut>)
    requires s != []
    ensures End(s, Top) == s[0] && Apply(s, Event(s[0], false, Top)) == s[1..]
  {
  }

  lemma ButDrawn(bubbles: seq<Fut>, futs: map<Fut, Future>, client: seq<Fut>, f: Fut)
    requires PlacedOpenBut(bubbles, futs, client, f) && f in bubbles && futs[f].bubble
    ensures PlacedIn(true, bubbles, futs, client)
  {
  }

  lemma ToldNothing(f: Fut, text: Option<string>, member: Member, lay: Layout, a: View)
    requires f !in a.bubbles || (text == None && f in a.futs && a.futs[f].text == None)
    ensures Told(f, text, member, lay, a, a, true)
  {
  }

  lemma ToldOpen(f: Fut, text: Option<string>, member: Member, lay: Layout, a: View, b: View, ok: bool)
    requires f in a.bubbles && f in a.futs && (text.Some? || a.futs[f].text.Some?) && a.active
    requires b == a.(bubbles := b.bubbles, events := b.events, futs := b.futs, nextFut := b.nextFut,
                     given := a.given + {f})
    requires Displayed(lay, a.futs[f := a.futs[f].(text := text, member := member)], a.bubbles, f, a.nextFut,
                       b.bubbles, b.futs, b.nextFut, ok)
    ensures Told(f, text, member, lay, a, b, ok)
  {
  }

  lemma ToldClosed(f: Fut, text: Option<string>, member: Member, lay: Layout, a: View, b: View)
    requires f in a.bubbles && f in a.futs && (text.Some? || a.futs[f].text.Some?) && !a.active
    requires b == a.(bubbles := b.bubbles, events := b.events, futs := b.futs, nextFut := b.nextFut,
                     given := a.given + {f})
    requires FutsKept(a.futs[f := a.futs[f].(text := text, member := member, latest := true)], a.nextFut, b.futs,
                      b.nextFut)
    requires b.bubbles == if f == a.bubbles[|a.bubbles| - 1] then [f, a.nextFut] else a.bubbles
    requires b.events == a.events
                         + (if f == a.bubbles[0] then [] else [Event(a.bubbles[0], false, Top)])
                         + (if f == a.bubbles[|a.bubbles| - 1] then [Event(a.nextFut, true, Bottom)] else [])
    ensures Told(f, text, member, lay, a, b, true)
  {
  }

  lemma LatestTexts(before: map<Fut, Future>, f: Fut, next: Fut, futs: map<Fut, Future>, next': Fut)
    requires f in before && FutsKept(before[f := before[f].(latest := true)], next, futs, next')
    ensures TextsKept(before, next, futs, next')
  {
  }

  lemma DisplayedTexts(lay: Layout, futs: map<Fut, Future>, bubbles: seq<Fut>, f: Fut, next: Fut, after: seq<Fut>,
                       futs': map<Fut, Future>, next': Fut, ok: bool)
    requires Displayed(lay, futs, bubbles, f, next, after, futs', next', ok) && forall g :: g in futs ==> g < next
    ensures TextsKept(futs, next, futs', next')
  {
    hide Scrolled;
  }

  lemma RecordedPlaces(active: bool, bubbles: seq<Fut>, futs: map<Fut, Future>, client: seq<Fut>, f: Fut,
                       text: Option<string>, member: Member)
    requires PlacedIn(active, bubbles, futs, client) && f in bubbles && f in futs && Distinct(bubbles)
    requires text.Some? || futs[f].text.Some?
    ensures var fs := futs[f := futs[f].(text := text, member := member)];
            if active then PlacedOpenBut(bubbles, fs, client, f) && (text == None ==> fs[f].bubble)
            else PlacedClosedBut(bubbles, fs, client, f)
  {
  }

  lemma SameNoneBack(bs: seq<Fut>, next: Fut)
    ensures NoneBack(bs, next, bs)
  {
  }

  lemma GrownNoneBack(bs: seq<Fut>, next: Fut, bubbles: seq<Fut>, side: Side)
    requires bubbles == bs || bubbles == Apply(bs, Event(next, true, side))
    ensures NoneBack(bs, next, bubbles)
  {
  }

  lemma SliceNoneBack(bs: seq<Fut>, next: Fut, list: seq<Fut>, bubbles: seq<Fut>, from: nat, to: nat)
    requires NoneBack(bs, next, list) && from <= to <= |list| && bubbles == list[from..to]
    ensures NoneBack(bs, next, bubbles)
  {
  }

  lemma NoneBackChain(a: seq<Fut>, na: Fut, b: seq<Fut>, nb: Fut, c: seq<Fut>)
    requires NoneBack(a, na, b) && NoneBack(b, nb, c) && na <= nb
    ensures NoneBack(a, na, c)
  {
  }

  lemma KeptNoneBack(bs: seq<Fut>, next: Fut, bubbles: seq<Fut>, f: Fut)
    requires f in bs && (bubbles == bs || bubbles == [f, next])
    ensures NoneBack(bs, next, bubbles)
  {
  }

  lemma FirstNoneBack(bs: seq<Fut>, next: Fut, bubbles: seq<Fut>)
    requires bubbles == [next]
    ensures NoneBack(bs, next, bubbles)
  {
  }

  lemma KeptNext(a: map<Fut, Future>, na: Fut, b: map<Fut, Future>, nb: Fut)
    requires FutsKept(a, na, b, nb)
    ensures na <= nb
  {
  }

  lemma AppliedLoad(s: seq<Fut>, f: Fut, side: Side)
    ensures Apply(s, Event(f, true, side)) == if side.Top? then [f] + s else s + [f]
  {
  }

  lemma CountAdded(futs: map<Fut, Future>, bubbles: seq<Fut>, es: seq<Event>, delivering: Option<Fut>, f: Fut,
                   side: Side, fut: Future)
    requires Counts(futs, bubbles, es, delivering, None) && fut.rc == 1
    requires f !in bubbles && !Queued(es, f) && delivering != Some(f)
    ensures Counts(futs[f := fut], Apply(bubbles, Event(f, true, side)), es, delivering, None)
  {
    assert forall g :: g in Apply(bubbles, Event(f, true, side)) <==> g in bubbles || g == f;
  }

  lemma CountUnlinked(futs: map<Fut, Future>, bubbles: seq<Fut>, es: seq<Event>, delivering: Option<Fut>, side: Side)
    requires Counts(futs, bubbles, es, delivering, None) && bubbles != [] && Distinct(bubbles)
    ensures Counts(futs, Apply(bubbles, Event(End(bubbles, side), false, side)), es, delivering,
                   Some(End(bubbles, side)))
  {
    var f := End(bubbles, side);
    var less := Apply(bubbles, Event(f, false, side));
    forall g ensures g in less <==> g in bubbles && g != f {
      if g in bubbles && g != f {
        var i :| 0 <= i < |bubbles| && bubbles[i] == g;
        assert less[if side.Top? then i - 1 else i] == g;
      }
    }
  }

  lemma CountReleased(futs: map<Fut, Future>, bubbles: seq<Fut>, es: seq<Event>, delivering: Option<Fut>, f: Fut)
    requires Counts(futs, bubbles, es, delivering, Some(f))
    ensures f in futs && futs[f].rc > 0
    ensures Counts(if futs[f].rc == 1 then futs - {f} else futs[f := futs[f].(rc := futs[f].rc - 1)],
                   bubbles, es, delivering, None)
  {
  }
}
