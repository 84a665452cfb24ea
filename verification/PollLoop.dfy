/** The poll dispatcher of mcp_lvgl_common.c: handles in a linked list, and a list of ready events that is gone
    through while the callbacks may add, modify or remove any handle. */
module PollLoop {
  import opened Basics

  datatype Flag = In | Out | Hup | Err

  const ALWAYS: set<Flag> := {Hup, Err}

  /** mcp_lvgl_poll_t */
  class Handle {
    const fd: int
    var events: set<Flag>
    var prev: Handle?
    var next: Handle?

    constructor (fd: int, events: set<Flag>)
      ensures this.fd == fd && this.events == events && prev == null && next == null
    {
      this.fd, this.events, prev, next := fd, events, null, null;
    }
  }

  /** struct epoll_event; the handle is taken out when it is removed. */
  datatype Ready = Ready(handle: Handle?, events: set<Flag>)

  /** What a callback does; a registered handle is given by its place in the list. */
  datatype Action = Add(fd: int, events: set<Flag>) | Modify(k: nat, events: set<Flag>) | Remove(k: nat)

  /** What was done, and to which handle. */
  datatype Effect = Added(h: Handle, events: set<Flag>) | Modified(h: Handle, events: set<Flag>) | Removed(h: Handle)

  datatype Call = Call(handle: Handle, events: set<Flag>)

  function Less(ns: seq<Handle>, h: Handle): seq<Handle>
  {
    if ns == [] then [] else if ns[0] == h then ns[1..] else [ns[0]] + Less(ns[1..], h)
  }

  lemma {:induction false} LessAt(ns: seq<Handle>, k: nat)
    requires Distinct(ns) && k < |ns|
    ensures Less(ns, ns[k]) == ns[..k] + ns[k + 1..]
  {
    if k > 0 {
      LessAt(ns[1..], k - 1);
    }
  }

  /** The handles that are registered after these effects, if `ns` were before: the ones that were added come first, the
      ones that were removed are gone. */
  function Registered(ns: seq<Handle>, es: seq<Effect>): seq<Handle>
  {
    if es == [] then ns
    else
      var had, e := Registered(ns, es[..|es| - 1]), es[|es| - 1];
      match e
      case Added(h, _) => [h] + had
      case Modified(_, _) => had
      case Removed(h) => Less(had, h)
  }

  lemma {:induction false} RegisteredOn(ns: seq<Handle>, es: seq<Effect>, more: seq<Effect>)
    ensures Registered(ns, es + more) == Registered(Registered(ns, es), more)
  {
    if more == [] {
      assert es + more == es;
    } else {
      RegisteredOn(ns, es, more[..|more| - 1]);
      assert (es + more)[..|es + more| - 1] == es + more[..|more| - 1];
    }
  }

  /** What one action of a callback does when these handles are registered. */
  ghost predicate Does(a: Action, ns: seq<Handle>, es: seq<Effect>)
  {
    match a
    case Add(fd, flags) => |es| == 1 && es[0].Added? && es[0].events == flags && es[0].h.fd == fd && es[0].h !in ns
    case Modify(k, flags) => es == if k < |ns| then [Modified(ns[k], flags)] else []
    case Remove(k) => es == if k < |ns| then [Removed(ns[k])] else []
  }

  /** What these actions do, one after the other. */
  ghost predicate DoesAll(actions: seq<Action>, ns: seq<Handle>, es: seq<Effect>)
    decreases |actions|, 1
  {
    if actions == [] then es == [] else exists k :: DoesLast(actions, ns, es, k)
  }

  /** The last of them does what follows the first `k` effects. */
  ghost predicate DoesLast(actions: seq<Action>, ns: seq<Handle>, es: seq<Effect>, k: int)
    requires actions != []
    decreases |actions|, 0
  {
    && 0 <= k <= |es| && DoesAll(actions[..|actions| - 1], ns, es[..k])
    && Does(actions[|actions| - 1], Registered(ns, es[..k]), es[k..])
  }

  lemma DoesNone(ns: seq<Handle>)
    ensures DoesAll([], ns, []) && Registered(ns, []) == ns
  {
  }

  lemma DoesOne(actions: seq<Action>, i: nat, ns: seq<Handle>, es: seq<Effect>, more: seq<Effect>)
    requires i < |actions| && DoesAll(actions[..i], ns, es) && Does(actions[i], Registered(ns, es), more)
    ensures DoesAll(actions[..i + 1], ns, es + more)
  {
    hide Does;
    var as', all := actions[..i + 1], es + more;
    assert as'[..|as'| - 1] == actions[..i] && all[..|es|] == es && all[|es|..] == more;
    assert DoesLast(as', ns, all, |es|);
  }

  /** One action, and the handles that are registered then. */
  lemma DoesIs(a: Action, ns: seq<Handle>, es: seq<Effect>, ns': seq<Handle>)
    requires Distinct(ns)
    requires a.Add? ==>
               && |es| == 1 && es[0].Added? && es[0].events == a.events && es[0].h.fd == a.fd && es[0].h !in ns
               && ns' == [es[0].h] + ns
    requires a.Modify? ==> es == (if a.k < |ns| then [Modified(ns[a.k], a.events)] else []) && ns' == ns
    requires a.Remove? ==>
               if a.k < |ns| then es == [Removed(ns[a.k])] && ns' == ns[..a.k] + ns[a.k + 1..]
               else es == [] && ns' == ns
    ensures Does(a, ns, es) && Registered(ns, es) == ns'
  {
    if es != [] {
      assert es[..|es| - 1] == [];
    }
    if a.Remove? && a.k < |ns| {
      LessAt(ns, a.k);
    }
  }

  /** What came of a ready event: the callback's actions were done, or nothing if it was not called. */
  ghost predicate Done(call: Option<Call>, actions: seq<Action>, ns: seq<Handle>, es: seq<Effect>)
  {
    if call.None? then es == [] else DoesAll(actions, ns, es)
  }

  lemma DoneIs(call: Option<Call>, actions: seq<Action>, ns: seq<Handle>, es: seq<Effect>)
    requires if call.None? then es == [] else DoesAll(actions, ns, es)
    ensures Done(call, actions, ns, es)
  {
  }

  function ScriptAt(script: seq<seq<Action>>, i: nat): seq<Action>
  {
    if i < |script| then script[i] else []
  }

  /** The effects up to the k-th mark, and from there to the next. */
  function Until(es: seq<Effect>, marks: seq<nat>, k: nat): seq<Effect>
  {
    if k < |marks| && marks[k] <= |es| then es[..marks[k]] else es
  }

  function Between(es: seq<Effect>, marks: seq<nat>, k: nat): seq<Effect>
    requires k < |marks|
  {
    var m, n := marks[k], if k + 1 < |marks| then marks[k + 1] else |es|;
    if m <= n <= |es| then es[m..n] else []
  }

  /** The effects come from the script, callback by callback, of the handles that are registered when it is called. */
  ghost predicate Scripted(script: seq<seq<Action>>, ns: seq<Handle>, made: seq<Option<Call>>, marks: seq<nat>,
                           es: seq<Effect>)
  {
    && |made| == |marks|
    && forall k {:trigger made[k]} :: 0 <= k < |made| ==>
         Done(made[k], ScriptAt(script, k), Registered(ns, Until(es, marks, k)), Between(es, marks, k))
  }

  lemma ScriptedNone(script: seq<seq<Action>>, ns: seq<Handle>)
    ensures Scripted(script, ns, [], [], []) && Registered(ns, []) == ns
  {
  }

  lemma ScriptedStep(rs: seq<Ready>, events: map<Handle, set<Flag>>, script: seq<seq<Action>>, ns: seq<Handle>,
                     made: seq<Option<Call>>, marks: seq<nat>, es: seq<Effect>, call: Option<Call>, more: seq<Effect>)
    requires Scripted(script, ns, made, marks, es) && Answered(rs, events, made, marks, es)
    requires Done(call, ScriptAt(script, |made|), Registered(ns, es), more)
    ensures Scripted(script, ns, made + [call], marks + [|es|], es + more)
  {
    hide Done, AnsweredOne, Registered, Onward, ScriptAt, Until, Between, Answered;
    var made', marks', all, n := made + [call], marks + [|es|], es + more, |made|;
    forall k {:trigger made'[k]} | 0 <= k < |made'|
      ensures Done(made'[k], ScriptAt(script, k), Registered(ns, Until(all, marks', k)), Between(all, marks', k))
    {
      if k < n {
        MarksWithin(rs, events, made, marks, es, k);
        MarkedSame(marks, es, more, k);
        assert made'[k] == made[k];
      } else {
        MarkedLast(marks, es, more);
      }
    }
  }

  lemma MarkedSame(marks: seq<nat>, es: seq<Effect>, more: seq<Effect>, k: nat)
    requires k < |marks| && marks[k] <= |es| && (k + 1 < |marks| ==> marks[k] <= marks[k + 1] <= |es|)
    ensures Until(es + more, marks + [|es|], k) == Until(es, marks, k)
    ensures Between(es + more, marks + [|es|], k) == Between(es, marks, k)
  {
    var n := if k + 1 < |marks| then marks[k + 1] else |es|;
    assert (marks + [|es|])[k + 1] == n;
    assert (es + more)[..marks[k]] == es[..marks[k]] && (es + more)[marks[k]..n] == es[marks[k]..n];
  }

  lemma MarkedLast(marks: seq<nat>, es: seq<Effect>, more: seq<Effect>)
    ensures Until(es + more, marks + [|es|], |marks|) == es && Between(es + more, marks + [|es|], |marks|) == more
  {
  }

  lemma MarksWithin(rs: seq<Ready>, events: map<Handle, set<Flag>>, made: seq<Option<Call>>, marks: seq<nat>,
                    es: seq<Effect>, k: nat)
    requires Answered(rs, events, made, marks, es) && k < |marks|
    ensures k + 1 < |marks| ==> marks[k] <= marks[k + 1] <= |es|
    ensures marks[k] <= |es|
  {
    assert AnsweredOne(rs[k], events, made[k], es, marks[k]);
    if k + 1 < |marks| {
      assert AnsweredOne(rs[k + 1], events, made[k + 1], es, marks[k + 1]);
      assert Onward(made[k], marks[k], marks[k + 1]);
    }
  }

  ghost predicate Gone(h: Handle, es: seq<Effect>)
  {
    exists i {:trigger es[i]} :: 0 <= i < |es| && es[i] == Removed(h)
  }

  /** What a handle is subscribed to after these effects. */
  function Subscribed(h: Handle, events: set<Flag>, es: seq<Effect>): set<Flag>
  {
    if es == [] then events
    else
      var e := es[|es| - 1];
      if e.Modified? && e.h == h then e.events else Subscribed(h, events, es[..|es| - 1])
  }

  /** The call that a ready event calls for when these effects have come before its turn. */
  ghost function Expected(r: Ready, events: set<Flag>, es: seq<Effect>): Option<Call>
    requires r.handle != null
  {
    var flags := (Subscribed(r.handle, events, es) + ALWAYS) * r.events;
    if Gone(r.handle, es) || flags == {} then None else Some(Call(r.handle, flags))
  }

  function Made(calls: seq<Option<Call>>): seq<Call>
  {
    if calls == [] then []
    else Made(calls[..|calls| - 1]) + if calls[|calls| - 1].Some? then [calls[|calls| - 1].value] else []
  }

  /** `nodes` are linked in this order, from the head on. */
  ghost predicate Chain(nodes: seq<Handle>, head: Handle?)
    reads nodes`prev, nodes`next
  {
    && Distinct(nodes)
    && head == (if nodes == [] then null else nodes[0])
    && forall i {:trigger nodes[i]} :: 0 <= i < |nodes| ==>
         && nodes[i].next == (if i + 1 < |nodes| then nodes[i + 1] else null)
         && nodes[i].prev == (if i > 0 then nodes[i - 1] else null)
  }

  function Skip(k: int, i: int): int { if i < k then i else i + 1 }

  lemma LessOne<T>(s: seq<T>, k: nat)
    requires k < |s|
    ensures var less := s[..k] + s[k + 1..];
            && |less| == |s| - 1
            && (forall i {:trigger less[i]} :: 0 <= i < |less| ==> less[i] == s[Skip(k, i)])
    ensures Distinct(s) ==> Distinct(s[..k] + s[k + 1..])
  {
  }

  /** Handles that were registered at first are so still unless they were removed, with their latest subscription. */
  ghost predicate Tracked(first: seq<Handle>, events: map<Handle, set<Flag>>, nodes: seq<Handle>, es: seq<Effect>)
    reads first`events
  {
    forall h {:trigger h in first} :: h in first ==>
      h in events && (h in nodes <==> !Gone(h, es)) && (h in nodes ==> h.events == Subscribed(h, events[h], es))
  }

  lemma GoneMore(es: seq<Effect>, e: Effect)
    ensures forall h :: Gone(h, es + [e]) <==> Gone(h, es) || e == Removed(h)
  {
    var n := |es|;
    assert (es + [e])[n] == e;
    forall h ensures Gone(h, es + [e]) <==> Gone(h, es) || e == Removed(h) {
      if Gone(h, es) {
        var i :| 0 <= i < n && es[i] == Removed(h);
        assert (es + [e])[i] == Removed(h);
      }
    }
  }

  lemma TrackedMore(es: seq<Effect>, e: Effect)
    ensures forall h :: Gone(h, es + [e]) <==> Gone(h, es) || e == Removed(h)
    ensures forall h, events {:trigger Subscribed(h, events, es + [e])} ::
              Subscribed(h, events, es + [e]) == if e.Modified? && e.h == h then e.events else Subscribed(h, events, es)
  {
    GoneMore(es, e);
    assert (es + [e])[..|es|] == es;
  }

  ghost function Subscriptions(ns: seq<Handle>): (m: map<Handle, set<Flag>>)
    reads ns`events
    ensures forall h :: h in ns ==> h in m && m[h] == h.events
  {
    map h: Handle | h in ns :: h.events
  }

  lemma AllTracked(ns: seq<Handle>, events: map<Handle, set<Flag>>)
    requires forall h :: h in ns ==> h in events && events[h] == h.events
    ensures Tracked(ns, events, ns, [])
  {
  }

  lemma TrackedAdded(first: seq<Handle>, events: map<Handle, set<Flag>>, ns: seq<Handle>, es: seq<Effect>, h: Handle,
                     flags: set<Flag>)
    requires Tracked(first, events, ns, es) && h !in first
    ensures Tracked(first, events, [h] + ns, es + [Added(h, flags)])
  {
    TrackedMore(es, Added(h, flags));
  }

  lemma TrackedRemoved(first: seq<Handle>, events: map<Handle, set<Flag>>, ns: seq<Handle>, k: nat, es: seq<Effect>)
    requires Tracked(first, events, ns, es) && k < |ns| && Distinct(ns)
    ensures Tracked(first, events, ns[..k] + ns[k + 1..], es + [Removed(ns[k])])
  {
    TrackedMore(es, Removed(ns[k]));
    WithoutOne(ns, k);
  }

  class Dispatcher {
    var head: Handle?
    var nPolls: nat
    var ready: seq<Ready>   // ep_eventlist, as far as it is filled
    var runningCount: nat
    var runningI: nat
    var calls: seq<Call>    // the callbacks made
    ghost var nodes: seq<Handle>    // the handles that are registered
    ghost var effects: seq<Effect>  // what was done to them

    ghost predicate Linked()
      reads this`head, this`nPolls, this`nodes, nodes`prev, nodes`next
    {
      Chain(nodes, head) && nPolls == |nodes|
    }

    constructor ()
      ensures Linked() && nodes == [] && runningCount == 0 && calls == [] && effects == []
    {
      head, nPolls, ready, runningCount, runningI, calls, nodes, effects := null, 0, [], 0, 0, [], [], [];
    }

    method Add(fd: int, events: set<Flag>) returns (h: Handle)
      requires Linked()
      modifies this`head, this`nPolls, this`nodes, this`effects, nodes`prev
      ensures Linked() && fresh(h) && nodes == [h] + old(nodes) && h.events == events
      ensures effects == old(effects) + [Added(h, events)]
      ensures h.fd == fd
    {
      h := new Handle(fd, events);
      var oldHead := head;
      head := h;
      h.next := oldHead;
      if oldHead != null {
        oldHead.prev := h;
      }
      nPolls := nPolls + 1;
      nodes := [h] + nodes;
      effects := effects + [Added(h, events)];
    }

    method Modify(h: Handle, events: set<Flag>)
      requires Linked() && h in nodes
      modifies h`events, this`effects
      ensures Linked() && h.events == events && effects == old(effects) + [Modified(h, events)]
    {
      h.events := events;
      effects := effects + [Modified(h, events)];
    }

    /** The ready events from `from` on: each as it was, less the handles that are not registered any more. */
    ghost predicate Pending(from: nat, was: seq<Ready>, ns: seq<Handle>)
      reads this`ready
    {
      && |ready| == |was|
      && forall j {:trigger ready[j]} :: from <= j < |ready| ==>
           ready[j].events == was[j].events && ready[j].handle == if was[j].handle in ns then was[j].handle else null
    }

    /** Nothing is running, or the event at `runningI` is being handled. */
    ghost predicate Running(was: seq<Ready>)
      reads this`ready, this`nodes, this`runningCount, this`runningI
    {
      runningCount != 0 ==> runningCount == |ready| && DistinctReady(was) && Pending(runningI + 1, was, nodes)
    }

    /** Takes a handle out of the ready events that are still to be handled. */
    method Forget(h: Handle, ghost was: seq<Ready>, ghost k: nat)
      requires Running(was) && Distinct(nodes) && k < |nodes| && nodes[k] == h
      modifies this`ready
      ensures runningCount != 0 ==> runningCount == |ready| && Pending(runningI + 1, was, nodes[..k] + nodes[k + 1..])
    {
      var i := runningI + 1;
      while i < runningCount && ready[i].handle != h
        invariant forall j :: runningI + 1 <= j < i && j < |ready| ==> ready[j].handle != h
      {
        i := i + 1;
      }
      if i < runningCount {
        ready := ready[i := ready[i].(handle := null)];
      }
      WithoutOne(nodes, k);
    }

    method Unlink(h: Handle, ghost k: nat)
      requires Linked() && k < |nodes| && nodes[k] == h
      modifies this`head, nodes`prev, nodes`next
      ensures Chain(nodes[..k] + nodes[k + 1..], head)
    {
      if head == h {
        head := h.next;
      }
      if h.prev != null {
        h.prev.next := h.next;
      }
      if h.next != null {
        h.next.prev := h.prev;
      }
      Unchained(k);
    }

    /** What is left of the chain when one handle's neighbours have been joined. */
    twostate lemma Unchained(k: nat)
      requires old(Chain(nodes, head)) && nodes == old(nodes) && k < |nodes|
      requires head == if k == 0 then old(nodes[k].next) else old(head)
      requires forall i {:trigger nodes[i]} :: 0 <= i < |nodes| && i != k ==>
                 && nodes[i].next == (if i == k - 1 then old(nodes[k].next) else old(nodes[i].next))
                 && nodes[i].prev == (if i == k + 1 then old(nodes[k].prev) else old(nodes[i].prev))
      ensures Chain(nodes[..k] + nodes[k + 1..], head)
    {
      UnchainedNext(k);
      UnchainedPrev(k);
      LessOne(nodes, k);
    }

    twostate lemma UnchainedNext(k: nat)
      requires old(Chain(nodes, head)) && nodes == old(nodes) && k < |nodes|
      requires forall i {:trigger nodes[i]} :: 0 <= i < |nodes| && i != k ==>
                 nodes[i].next == (if i == k - 1 then old(nodes[k].next) else old(nodes[i].next))
      ensures var less := nodes[..k] + nodes[k + 1..];
              forall i {:trigger less[i]} :: 0 <= i < |less| ==>
                less[i].next == (if i + 1 < |less| then less[i + 1] else null)
    {
      var less := nodes[..k] + nodes[k + 1..];
      LessOne(nodes, k);
      forall i | 0 <= i < |less|
        ensures less[i].next == (if i + 1 < |less| then less[i + 1] else null)
      {
        assert less[i] == nodes[Skip(k, i)];
        if i + 1 < |less| {
          assert less[i + 1] == nodes[Skip(k, i + 1)];
        }
      }
    }

    twostate lemma UnchainedPrev(k: nat)
      requires old(Chain(nodes, head)) && nodes == old(nodes) && k < |nodes|
      requires forall i {:trigger nodes[i]} :: 0 <= i < |nodes| && i != k ==>
                 nodes[i].prev == (if i == k + 1 then old(nodes[k].prev) else old(nodes[i].prev))
      ensures var less := nodes[..k] + nodes[k + 1..];
              forall i {:trigger less[i]} :: 0 <= i < |less| ==>
                less[i].prev == (if i > 0 then less[i - 1] else null)
    {
      var less := nodes[..k] + nodes[k + 1..];
      LessOne(nodes, k);
      forall i | 0 <= i < |less|
        ensures less[i].prev == (if i > 0 then less[i - 1] else null)
      {
        assert less[i] == nodes[Skip(k, i)];
        if i > 0 {
          assert less[i - 1] == nodes[Skip(k, i - 1)];
        }
      }
    }

    lemma LinkedParts()
      requires Linked()
      ensures Chain(nodes, head) && Distinct(nodes) && nPolls == |nodes|
    {
    }

    lemma LinkedAgain()
      requires Chain(nodes, head) && nPolls == |nodes|
      ensures Linked()
    {
    }

    lemma RunningParts(was: seq<Ready>)
      requires Running(was)
      ensures runningCount != 0 ==> runningCount == |ready| && DistinctReady(was) && Pending(runningI + 1, was, nodes)
    {
    }

    lemma RunningAgain(was: seq<Ready>)
      requires runningCount != 0 ==> runningCount == |ready| && DistinctReady(was) && Pending(runningI + 1, was, nodes)
      ensures Running(was)
    {
    }

    method Remove(h: Handle, ghost was: seq<Ready>, ghost k: nat)
      requires Linked() && Running(was) && k < |nodes| && nodes[k] == h
      modifies this`head, this`nPolls, this`ready, this`nodes, this`effects, nodes`prev, nodes`next
      ensures Linked() && Running(was) && nodes == old(nodes)[..k] + old(nodes)[k + 1..]
      ensures effects == old(effects) + [Removed(h)]
    {
      hide *;
      LinkedParts();
      RunningParts(was);
      Forget(h, was, k);
      Unlink(h, k);
      nodes := nodes[..k] + nodes[k + 1..];
      nPolls := nPolls - 1;
      effects := effects + [Removed(h)];
      LinkedAgain();
      RunningAgain(was);
    }

    /** The handle at a place in the list. */
    method At(k: nat) returns (h: Handle)
      requires Linked() && k < nPolls
      ensures h == nodes[k]
    {
      h := head;
      var i := 0;
      while i < k
        invariant i <= k && h == nodes[i]
      {
        h := h.next;
        i := i + 1;
      }
    }

    lemma RunningAdded(was: seq<Ready>, ns: seq<Handle>, h: Handle)
      requires runningCount != 0 ==> runningCount == |ready| && DistinctReady(was) && Pending(runningI + 1, was, ns)
      requires nodes == [h] + ns && forall j :: 0 <= j < |was| ==> was[j].handle != h
      ensures Running(was)
    {
    }

    method ActAdd(fd: int, flags: set<Flag>, ghost was: seq<Ready>, ghost first: seq<Handle>,
                  ghost events: map<Handle, set<Flag>>, ghost es: seq<Effect>) returns (h: Handle)
      requires Linked() && Running(was) && Tracked(first, events, nodes, es)
      requires forall j :: 0 <= j < |was| ==> was[j].handle in first
      modifies this`head, this`nPolls, this`nodes, this`effects, nodes`prev
      ensures Linked() && Running(was) && Tracked(first, events, nodes, es + [Added(h, flags)])
      ensures effects == old(effects) + [Added(h, flags)] && nodes == [h] + old(nodes) && fresh(h) && h.fd == fd
      ensures h !in old(nodes)
    {
      hide *;
      RunningParts(was);
      h := Add(fd, flags);
      assert h !in first;
      RunningAdded(was, old(nodes), h);
      TrackedAdded(first, events, old(nodes), es, h, flags);
    }

    method ActModify(h: Handle, flags: set<Flag>, ghost was: seq<Ready>, ghost first: seq<Handle>,
                     ghost events: map<Handle, set<Flag>>, ghost es: seq<Effect>)
      requires Linked() && Running(was) && Tracked(first, events, nodes, es) && h in nodes
      modifies this`effects, h`events
      ensures Linked() && Running(was) && Tracked(first, events, nodes, es + [Modified(h, flags)])
      ensures effects == old(effects) + [Modified(h, flags)]
    {
      TrackedMore(es, Modified(h, flags));
      Modify(h, flags);
    }

    method ActRemove(h: Handle, ghost k: nat, ghost was: seq<Ready>, ghost first: seq<Handle>,
                     ghost events: map<Handle, set<Flag>>, ghost es: seq<Effect>)
      requires Linked() && Running(was) && Tracked(first, events, nodes, es) && k < |nodes| && nodes[k] == h
      modifies this`head, this`nPolls, this`ready, this`nodes, this`effects, nodes`prev, nodes`next
      ensures Linked() && Running(was) && Tracked(first, events, nodes, es + [Removed(h)])
      ensures effects == old(effects) + [Removed(h)] && nodes == old(nodes)[..k] + old(nodes)[k + 1..]
    {
      hide *;
      LinkedParts();
      Remove(h, was, k);
      TrackedRemoved(first, events, old(nodes), k, es);
    }

    /** One thing that a callback does. */
    method Act(a: Action, ghost was: seq<Ready>, ghost first: seq<Handle>, ghost events: map<Handle, set<Flag>>,
               ghost es: seq<Effect>) returns (ghost more: seq<Effect>)
      requires Linked() && Running(was) && Tracked(first, events, nodes, es)
      requires forall j :: 0 <= j < |was| ==> was[j].handle in first
      modifies this`head, this`nPolls, this`ready, this`nodes, this`effects, nodes`prev, nodes`next, nodes`events
      ensures Linked() && Running(was) && Tracked(first, events, nodes, es + more) && effects == old(effects) + more
      ensures forall k {:trigger nodes[k]} :: 0 <= k < |nodes| ==> nodes[k] in old(nodes) || fresh(nodes[k])
      ensures Does(a, old(nodes), more) && nodes == Registered(old(nodes), more)
    {
      hide *;
      LinkedParts();
      more := [];
      assert es + [] == es && effects + [] == effects;
      match a {
        case Add(fd, flags) =>
          var h := ActAdd(fd, flags, was, first, events, es);
          more := [Added(h, flags)];
        case Modify(k, flags) =>
          if k < nPolls {
            var h := At(k);
            ActModify(h, flags, was, first, events, es);
            more := [Modified(h, flags)];
          }
        case Remove(k) =>
          if k < nPolls {
            var h := At(k);
            ActRemove(h, k, was, first, events, es);
            more := [Removed(h)];
          }
      }
      DoesIs(a, old(nodes), more, nodes);
    }

    /** A callback does any number of things. */
    method Callback(actions: seq<Action>, ghost was: seq<Ready>, ghost first: seq<Handle>,
                    ghost events: map<Handle, set<Flag>>, ghost es: seq<Effect>) returns (ghost more: seq<Effect>)
      requires Linked() && Running(was) && Tracked(first, events, nodes, es)
      requires forall j :: 0 <= j < |was| ==> was[j].handle in first
      modifies this`head, this`nPolls, this`ready, this`nodes, this`effects, nodes`prev, nodes`next, nodes`events
      ensures Linked() && Running(was) && Tracked(first, events, nodes, es + more) && effects == old(effects) + more
      ensures forall k {:trigger nodes[k]} :: 0 <= k < |nodes| ==> nodes[k] in old(nodes) || fresh(nodes[k])
      ensures DoesAll(actions, old(nodes), more) && nodes == Registered(old(nodes), more)
    {
      hide *;
      more := [];
      assert es + [] == es && effects + [] == effects;
      DoesNone(nodes);
      assert actions[..0] == [];
      var i := 0;
      while i < |actions|
        invariant Linked() && Running(was) && Tracked(first, events, nodes, es + more) && effects == old(effects) + more
        invariant i <= |actions| && DoesAll(actions[..i], old(nodes), more) && nodes == Registered(old(nodes), more)
        invariant forall k {:trigger nodes[k]} :: 0 <= k < |nodes| ==> nodes[k] in old(nodes) || fresh(nodes[k])
      {
        ghost var next := Act(actions[i], was, first, events, es + more);
        assert es + more + next == es + (more + next) && old(effects) + more + next == old(effects) + (more + next);
        DoesOne(actions, i, old(nodes), more, next);
        RegisteredOn(old(nodes), more, next);
        more := more + next;
        i := i + 1;
      }
      assert actions[..i] == actions;
    }

    /** The turn of one ready event: its handle is called if it is still registered, for what it is subscribed to now
        and for what no handle can do without. */
    method Turn(i: nat, actions: seq<Action>, ghost was: seq<Ready>, ghost first: seq<Handle>,
                ghost events: map<Handle, set<Flag>>, ghost es: seq<Effect>)
      returns (ghost call: Option<Call>, ghost more: seq<Effect>)
      requires Linked() && i < |was| && runningCount == |ready| && DistinctReady(was) && Pending(i, was, nodes)
      requires Tracked(first, events, nodes, es) && forall j :: 0 <= j < |was| ==> was[j].handle in first
      modifies this`head, this`nPolls, this`ready, this`nodes, this`effects, this`runningI, this`calls
      modifies nodes`prev, nodes`next, nodes`events
      ensures Linked() && runningCount == |ready| && Pending(i + 1, was, nodes)
      ensures Tracked(first, events, nodes, es + more) && effects == old(effects) + more
      ensures was[i].handle != null && was[i].handle in events
      ensures call == Expected(was[i], events[was[i].handle], es) && (call == None ==> more == [])
      ensures calls == old(calls) + if call.Some? then [call.value] else []
      ensures forall k {:trigger nodes[k]} :: 0 <= k < |nodes| ==> nodes[k] in old(nodes) || fresh(nodes[k])
      ensures Done(call, actions, old(nodes), more) && nodes == Registered(old(nodes), more)
    {
      hide *;
      PendingHere(i, was);
      ExpectedHere(i, was, first, events, es);
      var ev := ready[i];
      var h := ev.handle;
      DoneIs(None, actions, nodes, []);
      DoesNone(nodes);
      call, more := None, [];
      assert es + [] == es && effects + [] == effects && calls + [] == calls;
      if h == null {
        return;
      }
      var anded := (h.events + ALWAYS) * ev.events;
      if anded == {} {
        return;
      }
      runningI := i;
      calls := calls + [Call(h, anded)];
      call := Some(Call(h, anded));
      RunningAgain(was);
      more := Callback(actions, was, first, events, es);
      RunningParts(was);
      DoneIs(call, actions, old(nodes), more);
    }

    lemma ExpectedHere(i: nat, was: seq<Ready>, first: seq<Handle>, events: map<Handle, set<Flag>>, es: seq<Effect>)
      requires i < |was| && Pending(i, was, nodes) && was[i].handle in first && Tracked(first, events, nodes, es)
      ensures |ready| == |was| && was[i].handle != null && was[i].handle in events
      ensures var h := ready[i].handle;
              if h == null then Expected(was[i], events[was[i].handle], es) == None
              else
                && h in nodes && h == was[i].handle
                && var flags := (h.events + ALWAYS) * ready[i].events;
                   Expected(was[i], events[h], es) == if flags == {} then None else Some(Call(h, flags))
    {
    }

    lemma PendingHere(i: nat, was: seq<Ready>)
      requires i < |was| && Pending(i, was, nodes)
      ensures |ready| == |was| && ready[i].events == was[i].events
      ensures ready[i].handle == (if was[i].handle in nodes then was[i].handle else null) && Pending(i + 1, was, nodes)
    {
    }

    /** One turn, and what is to be said about it. */
    method Next(i: nat, script: seq<seq<Action>>, ghost rs: seq<Ready>, ghost first: seq<Handle>,
                ghost events: map<Handle, set<Flag>>, ghost es: seq<Effect>, ghost made: seq<Option<Call>>,
                ghost marks: seq<nat>)
      returns (ghost es': seq<Effect>, ghost made': seq<Option<Call>>, ghost marks': seq<nat>)
      requires Linked() && i < |rs| == runningCount == |ready| && DistinctReady(rs) && Pending(i, rs, nodes)
      requires Tracked(first, events, nodes, es) && forall j :: 0 <= j < |rs| ==> rs[j].handle in first
      requires |made| == i && Answered(rs, events, made, marks, es)
      requires Scripted(script, first, made, marks, es) && nodes == Registered(first, es)
      modifies this`head, this`nPolls, this`ready, this`nodes, this`effects, this`runningI, this`calls
      modifies nodes`prev, nodes`next, nodes`events
      ensures Linked() && |rs| == |ready| && Pending(i + 1, rs, nodes) && Tracked(first, events, nodes, es')
      ensures es <= es' && effects == old(effects) + es'[|es|..] && made <= made'
      ensures calls == old(calls) + Made(made'[i..])
      ensures |made'| == i + 1 && Answered(rs, events, made', marks', es')
      ensures Scripted(script, first, made', marks', es') && nodes == Registered(first, es')
      ensures forall k {:trigger nodes[k]} :: 0 <= k < |nodes| ==> nodes[k] in old(nodes) || fresh(nodes[k])
    {
      hide *;
      ghost var call, more;
      call, more := Turn(i, ScriptAt(script, i), rs, first, events, es);
      AnsweredStep(rs, events, made, marks, es, call, more);
      ScriptedStep(rs, events, script, first, made, marks, es, call, more);
      RegisteredOn(first, es, more);
      MadeOne(made, call);
      es', made', marks' := es + more, made + [call], marks + [|es|];
      assert made'[i..] == [call] && es'[|es|..] == more;
    }

    /** mcp_lvgl_poll_run, when the kernel reports these events: every ready event is called for, or not, exactly as
        the registrations and subscriptions stand when its turn comes. */
    method Run(rs: seq<Ready>, script: seq<seq<Action>>)
      returns (ghost events: map<Handle, set<Flag>>, ghost made: seq<Option<Call>>, ghost marks: seq<nat>)
      requires Linked() && runningCount == 0 && DistinctReady(rs)
      requires forall j {:trigger rs[j]} :: 0 <= j < |rs| ==> rs[j].handle in nodes
      modifies this, nodes
      ensures Linked() && runningCount == 0
      ensures forall h :: h in old(nodes) ==> h in events && events[h] == old(h.events)
      ensures |made| == |rs| && calls == old(calls) + Made(made)
      ensures old(effects) <= effects && Answered(rs, events, made, marks, effects[|old(effects)|..])
      ensures Scripted(script, old(nodes), made, marks, effects[|old(effects)|..])
      ensures nodes == Registered(old(nodes), effects[|old(effects)|..])
    {
      hide *;
      ready, runningCount := rs, |rs|;
      events := Subscriptions(nodes);
      AllPending(rs);
      AllTracked(nodes, events);
      AnsweredNone(rs, events);
      made, marks := Rest(rs, script, nodes, events);
      runningCount := 0;
    }

    lemma AllPending(rs: seq<Ready>)
      requires ready == rs && DistinctReady(rs) && forall j {:trigger rs[j]} :: 0 <= j < |rs| ==> rs[j].handle in nodes
      ensures Pending(0, rs, nodes)
    {
    }

    method Rest(rs: seq<Ready>, script: seq<seq<Action>>, ghost first: seq<Handle>,
                ghost events: map<Handle, set<Flag>>)
      returns (ghost made: seq<Option<Call>>, ghost marks: seq<nat>)
      requires Linked() && |rs| == runningCount == |ready| && DistinctReady(rs) && Pending(0, rs, nodes)
      requires Tracked(first, events, nodes, []) && forall j :: 0 <= j < |rs| ==> rs[j].handle in first
      requires Answered(rs, events, [], [], []) && nodes == first
      modifies this`head, this`nPolls, this`ready, this`nodes, this`effects, this`runningI, this`calls
      modifies nodes`prev, nodes`next, nodes`events
      ensures Linked() && |made| == |rs| && calls == old(calls) + Made(made)
      ensures old(effects) <= effects && Answered(rs, events, made, marks, effects[|old(effects)|..])
      ensures Scripted(script, first, made, marks, effects[|old(effects)|..])
      ensures nodes == Registered(first, effects[|old(effects)|..])
    {
      hide *;
      ghost var es := [];
      made, marks := [], [];
      ScriptedNone(script, first);
      MadeNone();
      var i := 0;
      while i < |rs|
        invariant i <= |rs| == runningCount == |ready| && Linked() && Pending(i, rs, nodes)
        invariant Tracked(first, events, nodes, es) && effects == old(effects) + es
        invariant forall k {:trigger nodes[k]} :: 0 <= k < |nodes| ==> nodes[k] in old(nodes) || fresh(nodes[k])
        invariant |made| == i && calls == old(calls) + Made(made) && Answered(rs, events, made, marks, es)
        invariant Scripted(script, first, made, marks, es) && nodes == Registered(first, es)
      {
        ghost var es', made', marks';
        es', made', marks' := Next(i, script, rs, first, events, es, made, marks);
        MadeMore(made, made', i);
        assert es' == es + es'[|es|..];
        es, made, marks := es', made', marks';
        i := i + 1;
      }
      assert effects[|old(effects)|..] == es;
    }
  }

  /** The first ready events have been answered, each for what it called for after the effects up to its mark; only
      callbacks have effects. */
  ghost predicate Answered(rs: seq<Ready>, events: map<Handle, set<Flag>>, made: seq<Option<Call>>, marks: seq<nat>,
                           es: seq<Effect>)
  {
    && |made| == |marks| <= |rs| && (if marks == [] then es == [] else marks[0] == 0)
    && (forall k {:trigger marks[k]} :: 0 <= k < |marks| ==> AnsweredOne(rs[k], events, made[k], es, marks[k]))
    && (forall k {:trigger marks[k]} :: 0 <= k < |marks| - 1 ==> Onward(made[k], marks[k], marks[k + 1]))
    && (marks != [] ==> Onward(made[|made| - 1], marks[|marks| - 1], |es|))
  }

  ghost predicate AnsweredOne(r: Ready, events: map<Handle, set<Flag>>, call: Option<Call>, es: seq<Effect>, mark: nat)
  {
    mark <= |es| && r.handle != null && r.handle in events && call == Expected(r, events[r.handle], es[..mark])
  }

  /** Where there was no call there was no effect. */
  predicate Onward(call: Option<Call>, mark: nat, next: nat)
  {
    mark <= next && (call == None ==> mark == next)
  }

  lemma AnsweredNone(rs: seq<Ready>, events: map<Handle, set<Flag>>)
    ensures Answered(rs, events, [], [], [])
  {
  }

  lemma AnsweredStill(r: Ready, events: map<Handle, set<Flag>>, call: Option<Call>, es: seq<Effect>, mark: nat,
                      more: seq<Effect>)
    requires AnsweredOne(r, events, call, es, mark)
    ensures AnsweredOne(r, events, call, es + more, mark)
  {
    assert (es + more)[..mark] == es[..mark];
  }

  lemma AnsweredStep(rs: seq<Ready>, events: map<Handle, set<Flag>>, made: seq<Option<Call>>, marks: seq<nat>,
                     es: seq<Effect>, call: Option<Call>, more: seq<Effect>)
    requires Answered(rs, events, made, marks, es) && |made| < |rs|
    requires rs[|made|].handle != null && rs[|made|].handle in events
    requires call == Expected(rs[|made|], events[rs[|made|].handle], es) && (call == None ==> more == [])
    ensures Answered(rs, events, made + [call], marks + [|es|], es + more)
  {
    hide Expected;
    var n, marks', made' := |marks|, marks + [|es|], made + [call];
    assert (es + more)[..|es|] == es;
    forall k | 0 <= k < |marks'|
      ensures AnsweredOne(rs[k], events, made'[k], es + more, marks'[k])
    {
      if k < n {
        AnsweredStill(rs[k], events, made[k], es, marks[k], more);
      }
    }
  }

  lemma {:induction false} SubscribedSame(h: Handle, events: set<Flag>, es: seq<Effect>)
    requires forall i :: 0 <= i < |es| && es[i].Modified? ==> es[i].h != h
    ensures Subscribed(h, events, es) == events
  {
    if es != [] {
      SubscribedSame(h, events, es[..|es| - 1]);
    }
  }

  /** A handle that was removed before its turn is not called; one that no callback touched is called exactly once
      in a run that reports something it is subscribed to, or a hang-up or an error, which it always is. */
  lemma CalledOnce(rs: seq<Ready>, events: map<Handle, set<Flag>>, made: seq<Option<Call>>, marks: seq<nat>,
                   es: seq<Effect>, k: nat)
    requires Answered(rs, events, made, marks, es) && DistinctReady(rs) && k < |made| == |rs|
    ensures Gone(rs[k].handle, es[..marks[k]]) ==> made[k] == None
    ensures (forall i {:trigger es[i]} :: 0 <= i < |es| ==> es[i].h != rs[k].handle) ==>
              var flags := (events[rs[k].handle] + {Hup, Err}) * rs[k].events;
              made[k] == if flags == {} then None else Some(Call(rs[k].handle, flags))
    ensures forall j :: 0 <= j < |made| && j != k && made[j].Some? ==> made[j].value.handle != rs[k].handle
  {
    assert AnsweredOne(rs[k], events, made[k], es, marks[k]);
    if forall i {:trigger es[i]} :: 0 <= i < |es| ==> es[i].h != rs[k].handle {
      SubscribedSame(rs[k].handle, events[rs[k].handle], es[..marks[k]]);
      assert !Gone(rs[k].handle, es[..marks[k]]);
    }
    forall j | 0 <= j < |made| && j != k && made[j].Some?
      ensures made[j].value.handle != rs[k].handle
    {
      assert AnsweredOne(rs[j], events, made[j], es, marks[j]);
    }
  }

  lemma MadeNone()
    ensures Made([]) == []
  {
  }

  lemma MadeOne(made: seq<Option<Call>>, call: Option<Call>)
    ensures Made([call]) == if call.Some? then [call.value] else []
  {
    assert [call][..0] == [];
  }

  lemma MadeMore(made: seq<Option<Call>>, made': seq<Option<Call>>, i: nat)
    requires |made| == i && |made'| == i + 1 && made <= made'
    ensures Made(made') == Made(made) + Made(made'[i..])
  {
    assert made'[..i] == made && made'[i..] == [made'[i]];
    MadeOne(made, made'[i]);
  }

  lemma WithoutOne<T>(s: seq<T>, k: nat)
    requires Distinct(s) && k < |s|
    ensures forall x :: x in s[..k] + s[k + 1..] <==> x in s && x != s[k]
  {
    LessOne(s, k);
    forall x ensures x in s[..k] + s[k + 1..] <==> x in s && x != s[k] {
      if x in s && x != s[k] {
        var i :| 0 <= i < |s| && s[i] == x;
        assert (s[..k] + s[k + 1..])[if i < k then i else i - 1] == x;
      }
    }
  }

  /** A run reports each handle at most once. */
  ghost predicate DistinctReady(rs: seq<Ready>)
  {
    && (forall i {:trigger rs[i]} :: 0 <= i < |rs| ==> rs[i].handle != null)
    && (forall i, j :: 0 <= i < j < |rs| ==> rs[i].handle != rs[j].handle)
  }
}
