/** The queue of LOAD and UNLOAD events between the text UI and its client: what the client's run of
    futures becomes when the queued events are delivered, and what may be taken out of the queue again. */
module EventQueue {
  import opened Basics
  import opened Window

  /** What a queued future carries. */
  datatype Event = Event(fut: Fut, load: bool, side: Side)

  /** What an event makes of the client's run. An UNLOAD takes off the end on its side, whichever future that is. */
  function Apply(s: seq<Fut>, e: Event): seq<Fut>
  {
    if e.load then if e.side.Top? then [e.fut] + s else s + [e.fut]
    else if s == [] then []
    else if e.side.Top? then s[1..] else s[..|s| - 1]
  }

  function Replay(s: seq<Fut>, es: seq<Event>): seq<Fut>
    decreases es
  {
    if es == [] then s else Replay(Apply(s, es[0]), es[1..])
  }

  function End(s: seq<Fut>, side: Side): Fut
    requires s != []
  {
    if side.Top? then s[0] else s[|s| - 1]
  }

  /** A LOAD is for a new future, beside one that has been given a text; an UNLOAD is for the end it takes off. */
  ghost predicate Fit(s: seq<Fut>, e: Event, given: set<Fut>)
  {
    if e.load then e.fut !in s && (s == [] || End(s, e.side) in given)
    else s != [] && End(s, e.side) == e.fut
  }

  lemma FitParts(s: seq<Fut>, e: Event, given: set<Fut>)
    requires Fit(s, e, given)
    ensures if e.load then e.fut !in s else s != [] && End(s, e.side) == e.fut
  {
  }

  /** Every event fits the run it will be delivered to. */
  ghost predicate Fits(s: seq<Fut>, es: seq<Event>, given: set<Fut>)
    decreases es
  {
    es == [] || (Fit(s, es[0], given) && Fits(Apply(s, es[0]), es[1..], given))
  }

  ghost predicate Queued(es: seq<Event>, f: Fut)
  {
    exists i {:trigger es[i]} :: 0 <= i < |es| && es[i].fut == f
  }

  ghost predicate QueuedOnce(es: seq<Event>)
  {
    forall i, j {:trigger es[i], es[j]} :: 0 <= i < j < |es| ==> es[i].fut != es[j].fut
  }

  lemma {:induction false} ReplayConcat(s: seq<Fut>, a: seq<Event>, b: seq<Event>, given: set<Fut>)
    ensures Replay(s, a + b) == Replay(Replay(s, a), b)
    ensures Fits(s, a + b, given) <==> Fits(s, a, given) && Fits(Replay(s, a), b, given)
    decreases a
  {
    if a == [] {
      assert a + b == b;
    } else {
      assert (a + b)[1..] == a[1..] + b && (a + b)[0] == a[0];
      ReplayConcat(Apply(s, a[0]), a[1..], b, given);
    }
  }

  lemma ReplayOne(s: seq<Fut>, es: seq<Event>, e: Event, given: set<Fut>)
    ensures Replay(s, es + [e]) == Apply(Replay(s, es), e)
    ensures Fits(s, es + [e], given) <==> Fits(s, es, given) && Fit(Replay(s, es), e, given)
  {
    ReplayConcat(s, es, [e], given);
    assert [e][1..] == [];
  }

  lemma {:induction false} FitsGrows(s: seq<Fut>, es: seq<Event>, given: set<Fut>, more: set<Fut>)
    requires Fits(s, es, given) && given <= more
    ensures Fits(s, es, more)
    decreases es
  {
    if es != [] {
      FitsGrows(Apply(s, es[0]), es[1..], given, more);
    }
  }

  /** A future at the top that no later event is about could as well not be there. */
  lemma {:induction false} WithoutTop(f: Fut, t: seq<Fut>, es: seq<Event>, given: set<Fut>)
    requires Fits([f] + t, es, given) && !Queued(es, f)
    requires forall i :: 0 <= i < |es| && es[i].load ==> es[i].side.Bottom?
    ensures Replay([f] + t, es) == [f] + Replay(t, es) && Fits(t, es, given)
    decreases es
  {
    if es != [] {
      var e, s := es[0], [f] + t;
      assert e.fut != f;
      if e.load {
        assert s + [e.fut] == [f] + (t + [e.fut]);
      } else {
        assert e.side.Bottom? && t != [];
        assert s[..|s| - 1] == [f] + t[..|t| - 1];
      }
      NotQueuedLater(es, f);
      WithoutTop(f, Apply(t, e), es[1..], given);
    }
  }

  lemma {:induction false} WithoutBottom(f: Fut, t: seq<Fut>, es: seq<Event>, given: set<Fut>)
    requires Fits(t + [f], es, given) && !Queued(es, f)
    requires forall i :: 0 <= i < |es| && es[i].load ==> es[i].side.Top?
    ensures Replay(t + [f], es) == Replay(t, es) + [f] && Fits(t, es, given)
    decreases es
  {
    if es != [] {
      var e, s := es[0], t + [f];
      assert e.fut != f;
      if e.load {
        assert [e.fut] + s == ([e.fut] + t) + [f];
      } else {
        assert e.side.Top? && t != [];
        assert s[1..] == t[1..] + [f];
      }
      NotQueuedLater(es, f);
      WithoutBottom(f, Apply(t, e), es[1..], given);
    }
  }

  lemma NotQueuedLater(es: seq<Event>, f: Fut)
    requires es != [] && !Queued(es, f)
    ensures !Queued(es[1..], f)
  {
    assert forall i :: 0 <= i < |es| - 1 ==> es[1..][i] == es[i + 1];
  }

  function Without<T>(s: seq<T>, q: nat): seq<T>
    requires q < |s|
  {
    s[..q] + s[q + 1..]
  }

  /** A pending LOAD can be taken out of the queue as if it had never been there. */
  lemma Cancel(s: seq<Fut>, es: seq<Event>, q: nat, given: set<Fut>)
    requires Fits(s, es, given) && QueuedOnce(es) && q < |es| && es[q].load
    requires forall i :: 0 <= i < |es| && es[i].load && es[i].side == es[q].side ==> i == q
    ensures Fits(s, Without(es, q), given)
    ensures Replay(s, es) == Apply(Replay(s, Without(es, q)), es[q])
  {
    var pre, e, post := es[..q], es[q], es[q + 1..];
    var t := Replay(s, pre);
    assert es == pre + ([e] + post) && ([e] + post)[1..] == post;
    ReplayConcat(s, pre, [e] + post, given);
    ReplayConcat(s, pre, post, given);
    assert forall i :: 0 <= i < |post| ==> post[i] == es[q + 1 + i];
    if e.side.Top? {
      WithoutTop(e.fut, t, post, given);
    } else {
      WithoutBottom(e.fut, t, post, given);
    }
  }

  /** What holds between callbacks: once the queue is delivered, the client's run is the list of bubbles. */
  ghost predicate Agreed(client: seq<Fut>, es: seq<Event>, bubbles: seq<Fut>, given: set<Fut>)
  {
    && Fits(client, es, given) && Replay(client, es) == bubbles
    && Distinct(bubbles) && Distinct(client) && QueuedOnce(es)
    && (forall i {:trigger es[i]} :: 0 <= i < |es| ==> QueuedRightly(client, es[i], bubbles))
    && (forall f :: f in client && f !in bubbles ==> Queued(es, f))
    && (forall f :: f in bubbles && f !in client ==> Queued(es, f) && f !in given)
  }

  /** A pending LOAD is for an end of the list that the client does not have yet, an UNLOAD for a future that
      the client has and the list no longer. */
  ghost predicate QueuedRightly(client: seq<Fut>, e: Event, bubbles: seq<Fut>)
  {
    if e.load then e.fut !in client && bubbles != [] && End(bubbles, e.side) == e.fut
    else e.fut in client && e.fut !in bubbles
  }

  /** A future that is neither queued nor out of the list is the client's. */
  lemma Settled(client: seq<Fut>, es: seq<Event>, bubbles: seq<Fut>, given: set<Fut>, f: Fut)
    requires Agreed(client, es, bubbles, given) && f in bubbles
    ensures f in client <==> !Queued(es, f)
    ensures f in given ==> f in client
  {
  }

  lemma AppendEvent(es: seq<Event>, e: Event)
    requires QueuedOnce(es) && !Queued(es, e.fut)
    ensures QueuedOnce(es + [e]) && forall f :: Queued(es + [e], f) <==> Queued(es, f) || f == e.fut
  {
    var n := |es|;
    forall f ensures Queued(es + [e], f) <==> Queued(es, f) || f == e.fut {
      if Queued(es, f) {
        var i :| 0 <= i < n && es[i].fut == f;
        assert (es + [e])[i].fut == f;
      }
      assert (es + [e])[n] == e;
    }
  }

  /** A new future at one side of the list, when the one next to it has been given a text. */
  lemma LoadAgreed(client: seq<Fut>, es: seq<Event>, bubbles: seq<Fut>, given: set<Fut>, f: Fut, side: Side)
    requires Agreed(client, es, bubbles, given)
    requires bubbles == [] || End(bubbles, side) in given
    requires f !in client && f !in bubbles && !Queued(es, f) && f !in given
    ensures Agreed(client, es + [Event(f, true, side)], Apply(bubbles, Event(f, true, side)), given)
  {
    var e := Event(f, true, side);
    var more := Apply(bubbles, e);
    ReplayOne(client, es, e, given);
    AppendEvent(es, e);
    forall i | 0 <= i < |es + [e]|
      ensures QueuedRightly(client, (es + [e])[i], more)
    {
      if i < |es| {
        assert QueuedRightly(client, es[i], bubbles);
      }
    }
  }

  /** The end of the list goes, and the client has it: it has to be told. */
  lemma UnloadAgreed(client: seq<Fut>, es: seq<Event>, bubbles: seq<Fut>, given: set<Fut>, side: Side)
    requires Agreed(client, es, bubbles, given) && bubbles != [] && !Queued(es, End(bubbles, side))
    ensures var e := Event(End(bubbles, side), false, side); Agreed(client, es + [e], Apply(bubbles, e), given)
  {
    var e := Event(End(bubbles, side), false, side);
    var less := Apply(bubbles, e);
    ReplayOne(client, es, e, given);
    AppendEvent(es, e);
    forall i | 0 <= i < |es + [e]|
      ensures QueuedRightly(client, (es + [e])[i], less)
    {
      if i < |es| {
        assert QueuedRightly(client, es[i], bubbles);
      }
    }
  }

  lemma WithoutQueued(es: seq<Event>, q: nat)
    requires QueuedOnce(es) && q < |es|
    ensures QueuedOnce(Without(es, q))
    ensures forall f :: Queued(Without(es, q), f) <==> Queued(es, f) && f != es[q].fut
  {
    var fs := Without(es, q);
    assert forall i :: 0 <= i < |fs| ==> fs[i] == es[if i < q then i else i + 1];
    forall f ensures Queued(fs, f) <==> Queued(es, f) && f != es[q].fut {
      if Queued(es, f) && f != es[q].fut {
        var i :| 0 <= i < |es| && es[i].fut == f;
        assert fs[if i < q then i else i - 1].fut == f;
      }
      if Queued(fs, f) {
        var i :| 0 <= i < |fs| && fs[i].fut == f;
        assert es[if i < q then i else i + 1].fut == f;
      }
    }
  }

  lemma CancelRightly(client: seq<Fut>, es: seq<Event>, bubbles: seq<Fut>, less: seq<Fut>, q: nat)
    requires QueuedOnce(es) && q < |es| && es[q].load && bubbles != [] && Distinct(bubbles)
    requires forall i {:trigger es[i]} :: 0 <= i < |es| ==> QueuedRightly(client, es[i], bubbles)
    requires (es[q].fut == bubbles[0] && less == bubbles[1..])
             || (es[q].fut == bubbles[|bubbles| - 1] && less == bubbles[..|bubbles| - 1])
    ensures var fs := Without(es, q); forall i {:trigger fs[i]} :: 0 <= i < |fs| ==> QueuedRightly(client, fs[i], less)
  {
    var fs := Without(es, q);
    forall i | 0 <= i < |fs|
      ensures QueuedRightly(client, fs[i], less)
    {
      var j := if i < q then i else i + 1;
      assert fs[i] == es[j] && es[j].fut != es[q].fut;
    }
  }

  /** The end of the list goes before the client was told about it: its LOAD is cancelled. */
  lemma CancelAgreed(client: seq<Fut>, es: seq<Event>, bubbles: seq<Fut>, given: set<Fut>, side: Side, q: nat)
    requires Agreed(client, es, bubbles, given) && bubbles != [] && q < |es| && es[q].fut == End(bubbles, side)
    ensures es[q].load
    ensures Agreed(client, Without(es, q), Apply(bubbles, Event(es[q].fut, false, side)), given)
  {
    assert QueuedRightly(client, es[q], bubbles);
    var e := es[q];
    forall i | 0 <= i < |es| && es[i].load && es[i].side == e.side ensures i == q {
      assert QueuedRightly(client, es[i], bubbles);
    }
    Cancel(client, es, q, given);
    WithoutQueued(es, q);
    CancelRightly(client, es, bubbles, Apply(bubbles, Event(e.fut, false, side)), q);
  }

  /** Who is in the run after an event that fits it. */
  lemma Applied(s: seq<Fut>, e: Event, given: set<Fut>)
    requires Fit(s, e, given) && Distinct(s)
    ensures Distinct(Apply(s, e))
    ensures forall f :: f in Apply(s, e) <==> if e.load then f in s || f == e.fut else f in s && f != e.fut
  {
    var after := Apply(s, e);
    forall f ensures f in after <==> if e.load then f in s || f == e.fut else f in s && f != e.fut {
      if f in s {
        var i :| 0 <= i < |s| && s[i] == f;
        if e.load {
          assert after[if e.side.Top? then i + 1 else i] == f;
        } else if f != e.fut {
          assert after[if e.side.Top? then i - 1 else i] == f;
        }
      }
      if e.load {
        assert after[if e.side.Top? then 0 else |s|] == e.fut;
      }
    }
  }

  /** Delivering the first event. The client's run is ready for it. */
  lemma DeliverAgreed(client: seq<Fut>, es: seq<Event>, bubbles: seq<Fut>, given: set<Fut>)
    requires Agreed(client, es, bubbles, given) && es != []
    ensures Fit(client, es[0], given) && Agreed(Apply(client, es[0]), es[1..], bubbles, given)
  {
    hide Apply;
    WithoutQueued(es, 0);
    assert Without(es, 0) == es[1..];
    var e, after := es[0], Apply(client, es[0]);
    assert QueuedRightly(client, e, bubbles);
    Applied(client, e, given);
    forall i | 0 <= i < |es[1..]|
      ensures QueuedRightly(after, es[1..][i], bubbles)
    {
      assert QueuedRightly(client, es[i + 1], bubbles) && es[0].fut != es[i + 1].fut;
    }
  }

  lemma GiveAgreed(client: seq<Fut>, es: seq<Event>, bubbles: seq<Fut>, given: set<Fut>, f: Fut)
    requires Agreed(client, es, bubbles, given) && f in client
    ensures Agreed(client, es, bubbles, given + {f})
  {
    FitsGrows(client, es, given, given + {f});
  }
}
