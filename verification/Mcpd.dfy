/** The scheduling of mcpd.c: transfers that are parked while the other side is blocked, notices from the module
    server that come in while bytes are moved, and watchers that are told every token. */
module Mcpd {
  import opened Basics
  import opened McpdState

  /** What the server answers, out of what it can: nothing at all only when it answers no more, and none only when it
      can take none or the direction is blocked. */
  ghost predicate AnswerOf(answer: Option<nat>, refused: bool, before: seq<nat>, after: seq<nat>)
  {
    if answer.None? then before == after == []
    else before != [] && after == before[1..] && answer.value == if refused then 0 else before[0]
  }

  /** At most one question was asked of the server, about this peer's transfer, and so many bytes were moved on it. */
  ghost predicate AskedOnce(asks: seq<Ask>, could: seq<nat>, asks': seq<Ask>, could': seq<nat>, p: Peer, k: nat)
  {
    if asks' == asks then could == could' == [] && k == 0
    else
      && could != [] && could' == could[1..] && |asks'| == |asks| + 1 && asks'[..|asks|] == asks
      && var a := asks'[|asks|];
         a.Right(could[0]) && AskAbout(a, p) && a.moved == k
  }

  ghost predicate AskAbout(a: Ask, p: Peer)
  {
    a.token == p.token && a.doing == p.doing && a.remaining == p.remaining && a.had == |p.Source()|
  }

  /** Every answer that has gone was the answer to a question, and as many bytes were moved on it as it, one request
      and what was remaining allowed. */
  ghost predicate Used(asks: seq<Ask>, could: seq<nat>, asks': seq<Ask>, could': seq<nat>)
  {
    && |asks| <= |asks'| && asks'[..|asks|] == asks
    && |asks'| - |asks| <= |could| && could' == could[|asks'| - |asks|..]
    && forall j {:trigger asks'[j]} :: |asks| <= j < |asks'| ==> asks'[j].Right(could[j - |asks|])
  }

  lemma UsedParts(asks: seq<Ask>, could: seq<nat>, asks': seq<Ask>, could': seq<nat>)
    requires Used(asks, could, asks', could')
    ensures |asks| <= |asks'| && asks'[..|asks|] == asks
  {
  }

  lemma UsedNone(asks: seq<Ask>, could: seq<nat>)
    ensures Used(asks, could, asks, could)
  {
  }

  lemma UsedOnce(asks: seq<Ask>, could: seq<nat>, asks': seq<Ask>, could': seq<nat>, p: Peer, k: nat)
    requires AskedOnce(asks, could, asks', could', p, k)
    ensures Used(asks, could, asks', could')
  {
  }

  lemma UsedOn(a: seq<Ask>, m: seq<nat>, b: seq<Ask>, n: seq<nat>, c: seq<Ask>, o: seq<nat>)
    requires Used(a, m, b, n) && Used(b, n, c, o)
    ensures Used(a, m, c, o)
  {
    assert c[..|a|] == c[..|b|][..|a|];
    forall j {:trigger c[j]} | |a| <= j < |c|
      ensures c[j].Right(m[j - |a|])
    {
      if j < |b| {
        assert c[j] == c[..|b|][j] == b[j];
      }
    }
  }

  /** Between these questions and answers, a peer's transfer has come down to what is `left`. */
  ghost predicate Accounts(asks: seq<Ask>, p: Peer, left: nat)
  {
    if asks == [] then left == p.remaining
    else
      var a := asks[|asks| - 1];
      && a.token == p.token && a.doing == p.doing && a.moved <= a.remaining && left == a.remaining - a.moved
      && Accounts(asks[..|asks| - 1], p, a.remaining)
  }

  lemma AccountsNone(asks: seq<Ask>, p: Peer)
    ensures Accounts(asks[|asks|..], p, p.remaining)
  {
  }

  /** How many bytes were moved on these questions. */
  function Total(asks: seq<Ask>): nat
  {
    if asks == [] then 0 else Total(asks[..|asks| - 1]) + asks[|asks| - 1].moved
  }

  lemma {:induction false} AccountsTotal(asks: seq<Ask>, p: Peer, left: nat)
    requires Accounts(asks, p, left)
    ensures p.remaining == left + Total(asks)
  {
    if asks != [] {
      AccountsTotal(asks[..|asks| - 1], p, asks[|asks| - 1].remaining);
    }
  }

  /** The questions about one peer's transfers. */
  function About(asks: seq<Ask>, token: nat): seq<Ask>
  {
    if asks == [] then []
    else About(asks[..|asks| - 1], token) + if asks[|asks| - 1].token == token then [asks[|asks| - 1]] else []
  }

  lemma {:induction false} AboutJoin(u: seq<Ask>, v: seq<Ask>, token: nat)
    ensures About(u + v, token) == About(u, token) + About(v, token)
  {
    if v == [] {
      assert u + v == u;
    } else {
      AboutJoin(u, v[..|v| - 1], token);
      assert (u + v)[..|u + v| - 1] == u + v[..|v| - 1];
    }
  }

  /** Questions that account for one peer's transfer are about no other. */
  lemma {:induction false} AboutOne(asks: seq<Ask>, p: Peer, left: nat, token: nat)
    requires Accounts(asks, p, left)
    ensures About(asks, token) == if token == p.token then asks else []
  {
    if asks != [] {
      AboutOne(asks[..|asks| - 1], p, asks[|asks| - 1].remaining, token);
      assert asks[..|asks| - 1] + [asks[|asks| - 1]] == asks;
    }
  }

  lemma {:induction false} AccountsJoin(u: seq<Ask>, v: seq<Ask>, p: Peer, q: Peer, left: nat)
    requires Accounts(u, p, q.remaining) && Accounts(v, q, left) && q.token == p.token && q.doing == p.doing
    ensures Accounts(u + v, p, left)
  {
    if v == [] {
      assert u + v == u;
    } else {
      AccountsJoin(u, v[..|v| - 1], p, q, v[|v| - 1].remaining);
      assert (u + v)[..|u + v| - 1] == u + v[..|v| - 1];
    }
  }

  lemma AccountsOn(a: seq<Ask>, m: seq<nat>, b: seq<Ask>, n: seq<nat>, c: seq<Ask>, o: seq<nat>, p: Peer, q: Peer,
                   k: nat)
    requires Used(a, m, b, n) && Accounts(b[|a|..], p, q.remaining) && q.token == p.token && q.doing == p.doing
    requires AskedOnce(b, n, c, o, q, k) && k <= q.remaining
    ensures |a| <= |c| && Accounts(c[|a|..], p, q.remaining - k)
  {
    if c != b {
      assert c == b + [c[|b|]];
      assert c[|a|..][..|c[|a|..]| - 1] == b[|a|..];
    }
  }

  ghost predicate InFlight(flight: seq<Notice>, token: nat, doing: Doing)
  {
    exists i {:trigger flight[i]} :: 0 <= i < |flight| && For(flight[i], token, doing)
  }

  /** A peer that is in the middle of a transfer is still blocked at the server, or will be noticed, or has been. */
  ghost predicate NotForgotten(p: Peer, blocked: set<(nat, Doing)>, flight: seq<Notice>)
  {
    p.doing.Idle? || p.unblocked || (p.token, p.doing) in blocked || InFlight(flight, p.token, p.doing)
  }

  lemma InFlightMore(flight: seq<Notice>, n: Notice)
    ensures forall token, doing ::
              InFlight(flight + [n], token, doing) <==> InFlight(flight, token, doing) || For(n, token, doing)
  {
    assert (flight + [n])[|flight|] == n;
    forall token, doing
      ensures InFlight(flight + [n], token, doing) <==> InFlight(flight, token, doing) || For(n, token, doing)
    {
      if InFlight(flight, token, doing) {
        var i :| 0 <= i < |flight| && For(flight[i], token, doing);
        assert For((flight + [n])[i], token, doing);
      }
    }
  }

  lemma InFlightLess(flight: seq<Notice>)
    requires flight != []
    ensures forall token, doing ::
              InFlight(flight, token, doing) <==> InFlight(flight[1..], token, doing) || For(flight[0], token, doing)
  {
    forall token, doing
      ensures InFlight(flight, token, doing) <==> InFlight(flight[1..], token, doing) || For(flight[0], token, doing)
    {
      if InFlight(flight, token, doing) {
        var i :| 0 <= i < |flight| && For(flight[i], token, doing);
        assert i > 0 ==> For(flight[1..][i - 1], token, doing);
      }
      if InFlight(flight[1..], token, doing) {
        var i :| 0 <= i < |flight| - 1 && For(flight[1..][i], token, doing);
        assert For(flight[i + 1], token, doing);
      }
    }
  }

  /** While things happen, only whether peers are unblocked changes of them, the main loop gets to know of it, and the
      one that was left out is not forgotten if it was not before. */
  ghost predicate Minding(s: State, t: State, but: int)
  {
    && Same(t.peers, s.peers) && (s.happened ==> t.happened) && s.newCount <= t.newCount
    && (0 <= but < |s.peers| && NotForgotten(s.peers[but], s.blocked, s.flight) ==>
          NotForgotten(t.peers[but], t.blocked, t.flight))
    && forall i {:trigger t.peers[i]} :: 0 <= i < |t.peers| && t.peers[i].unblocked && !s.peers[i].unblocked ==>
         t.happened
  }

  /** Only whether the peers were unblocked has changed. */
  ghost predicate Same(peers: seq<Peer>, was: seq<Peer>)
  {
    |peers| == |was| && forall i {:trigger peers[i]} :: 0 <= i < |peers| ==>
      peers[i] == was[i].(unblocked := peers[i].unblocked)
  }

  lemma SameSelf(peers: seq<Peer>)
    ensures Same(peers, peers)
  {
  }

  lemma SameChain(a: seq<Peer>, b: seq<Peer>, c: seq<Peer>)
    requires Same(b, a) && Same(c, b)
    ensures Same(c, a) && Tokens(c) == Tokens(a)
  {
    forall i | 0 <= i < |c| ensures c[i] == a[i].(unblocked := c[i].unblocked) {
      assert b[i] == a[i].(unblocked := b[i].unblocked);
    }
  }

  /** Every token below `n` but the daemon's own. */
  function TokensBelow(n: nat, my: nat): (ts: seq<nat>)
    ensures |ts| == if my < n then n - 1 else n
  {
    if n == 0 then [] else TokensBelow(n - 1, my) + if n - 1 == my then [] else [n - 1]
  }

  lemma TokensNext(n: nat, my: nat)
    ensures TokensBelow(n + 1, my) == if n == my then TokensBelow(n, my) else TokensBelow(n, my) + [n]
  {
  }

  lemma {:induction false} TokensPrefix(m: nat, n: nat, my: nat)
    requires m <= n
    ensures TokensBelow(m, my) == TokensBelow(n, my)[..|TokensBelow(m, my)|]
  {
    if m < n {
      TokensPrefix(m, n - 1, my);
      assert TokensBelow(n, my)[..|TokensBelow(n - 1, my)|] == TokensBelow(n - 1, my);
    }
  }

  /** As many tokens are the same tokens. */
  lemma TokensEqual(m: nat, n: nat, my: nat)
    requires |TokensBelow(m, my)| == |TokensBelow(n, my)|
    ensures TokensBelow(m, my) == TokensBelow(n, my)
  {
    if m <= n {
      TokensPrefix(m, n, my);
    } else {
      TokensPrefix(n, m, my);
    }
  }

  /** Token `i` of the list is the number of tokens before it, counting the daemon's own. */
  lemma {:induction false} TokensAre(n: nat, my: nat, i: nat)
    requires i < |TokensBelow(n, my)|
    ensures TokensBelow(n, my)[i] == if i < my then i else i + 1
    ensures Distinct(TokensBelow(n, my))
  {
    forall k | 0 <= k < |TokensBelow(n, my)|
      ensures TokensBelow(n, my)[k] == if k < my then k else k + 1
    {
      TokenIs(n, my, k);
    }
  }

  lemma {:induction false} TokenIs(n: nat, my: nat, i: nat)
    requires i < |TokensBelow(n, my)|
    ensures TokensBelow(n, my)[i] == if i < my then i else i + 1
  {
    if i < |TokensBelow(n - 1, my)| {
      TokenIs(n - 1, my, i);
    }
  }

  lemma SwapRemoveLast<T>(s: seq<T>, x: T)
    ensures SwapRemove(s + [x], |s|) == s
  {
  }

  /** A watcher has got the tokens below `next`; it has got them all unless it waits to be writable. */
  ghost predicate WatcherRight(p: PollFd, next: nat, sent: map<int, seq<nat>>, global: nat, my: nat)
  {
    p.fd > 1 && p.fd in sent && sent[p.fd] == TokensBelow(next, my) && next <= global && p.events != In
  }

  predicate Complete(p: PollFd, sent: map<int, seq<nat>>, global: nat, my: nat)
  {
    p.events.Out? || (p.fd in sent && sent[p.fd] == TokensBelow(global, my))
  }

  /** `next[i]` belongs to the watcher at place `base + i`. */
  ghost predicate RightAt(pollfds: seq<PollFd>, base: nat, next: seq<nat>, sent: map<int, seq<nat>>, global: nat,
                          my: nat, i: int)
  {
    0 <= i < |next| && base + i < |pollfds| && WatcherRight(pollfds[base + i], next[i], sent, global, my)
  }

  /** The watchers' sockets come last, and are different ones. */
  ghost predicate Watching(pollfds: seq<PollFd>, base: nat, next: seq<nat>, sent: map<int, seq<nat>>, global: nat,
                           my: nat)
  {
    && |pollfds| == base + |next|
    && (forall i :: 0 <= i < |next| ==> RightAt(pollfds, base, next, sent, global, my, i))
    && (forall i, j :: 0 <= i < j < |next| ==> FdAt(pollfds, base, i) != FdAt(pollfds, base, j))
  }

  /** The first `upTo` watchers, leaving one aside, have got everything or wait to be writable. */
  ghost predicate Served(pollfds: seq<PollFd>, base: nat, upTo: nat, but: int, sent: map<int, seq<nat>>, global: nat,
                         my: nat)
  {
    forall i {:trigger pollfds[i]} :: base <= i < |pollfds| && i < base + upTo && i != base + but ==>
      Complete(pollfds[i], sent, global, my)
  }

  lemma WatchingAt(pollfds: seq<PollFd>, base: nat, next: seq<nat>, sent: map<int, seq<nat>>, global: nat, my: nat,
                   i: nat)
    requires Watching(pollfds, base, next, sent, global, my) && i < |next|
    ensures |pollfds| == base + |next| && WatcherRight(pollfds[base + i], next[i], sent, global, my)
    ensures pollfds[base + i].events != In
    ensures var fd := pollfds[base + i].fd; fd in sent && sent[fd] == TokensBelow(next[i], my) && next[i] <= global
    ensures FdAt(pollfds, base, i) == pollfds[base + i].fd
  {
    assert RightAt(pollfds, base, next, sent, global, my, i);
  }

  lemma WatchersApart(pollfds: seq<PollFd>, base: nat, next: seq<nat>, sent: map<int, seq<nat>>, global: nat, my: nat,
                      i: nat, j: nat)
    requires Watching(pollfds, base, next, sent, global, my) && i < |next| && j < |next| && i != j
    ensures pollfds[base + i].fd != pollfds[base + j].fd && FdAt(pollfds, base, i) != FdAt(pollfds, base, j)
  {
    var k, l := if i < j then i else j, if i < j then j else i;
    assert FdAt(pollfds, base, k) != FdAt(pollfds, base, l);
  }

  /** Sending to one watcher concerns that one only. */
  lemma WatchingSent(pollfds: seq<PollFd>, base: nat, next: seq<nat>, sent: map<int, seq<nat>>, global: nat, my: nat,
                     i: nat, wn: nat, upTo: nat)
    requires Watching(pollfds, base, next, sent, global, my) && i < |next| && wn <= global
    requires Served(pollfds, base, upTo, i, sent, global, my)
    ensures var sent' := sent[pollfds[base + i].fd := TokensBelow(wn, my)];
            && Watching(pollfds, base, next[i := wn], sent', global, my)
            && Served(pollfds, base, upTo, i, sent', global, my)
  {
    var fd, next' := pollfds[base + i].fd, next[i := wn];
    var sent' := sent[fd := TokensBelow(wn, my)];
    WatchingAt(pollfds, base, next, sent, global, my, i);
    forall j | 0 <= j < |next'|
      ensures RightAt(pollfds, base, next', sent', global, my, j)
    {
      WatchingAt(pollfds, base, next, sent, global, my, j);
      if j != i {
        WatchersApart(pollfds, base, next, sent, global, my, i, j);
      }
    }
    forall j | base <= j < |pollfds| && j < base + upTo && j != base + i
      ensures Complete(pollfds[j], sent', global, my)
    {
      WatchersApart(pollfds, base, next, sent, global, my, i, j - base);
    }
  }

  lemma WatchingMarked(pollfds: seq<PollFd>, base: nat, next: seq<nat>, sent: map<int, seq<nat>>, global: nat, my: nat,
                       i: nat, upTo: nat, events: Interest)
    requires Watching(pollfds, base, next, sent, global, my) && i < |next| && events != In
    requires Served(pollfds, base, upTo, i, sent, global, my)
    requires events == Out || next[i] == global
    ensures var pollfds' := pollfds[base + i := pollfds[base + i].(events := events)];
            && Watching(pollfds', base, next, sent, global, my) && Served(pollfds', base, upTo, i, sent, global, my)
            && Complete(pollfds'[base + i], sent, global, my) && pollfds'[..base] == pollfds[..base]
  {
    var pollfds' := pollfds[base + i := pollfds[base + i].(events := events)];
    WatchingAt(pollfds, base, next, sent, global, my, i);
    forall j | 0 <= j < |next|
      ensures RightAt(pollfds', base, next, sent, global, my, j) && FdAt(pollfds', base, j) == FdAt(pollfds, base, j)
    {
      WatchingAt(pollfds, base, next, sent, global, my, j);
    }
    forall j, k | 0 <= j < k < |next|
      ensures FdAt(pollfds', base, j) != FdAt(pollfds', base, k)
    {
      WatchersApart(pollfds, base, next, sent, global, my, j, k);
    }
  }

  /** What is at place `j` once the watcher at `i` has gone. */
  lemma SwapRemovedAt(pollfds: seq<PollFd>, base: nat, next: seq<nat>, i: nat, j: nat)
    requires |pollfds| == base + |next| && i < |next| && j < |next| - 1
    ensures var m := if j == i then |next| - 1 else j;
            SwapRemove(next, i)[j] == next[m] && SwapRemove(pollfds, base + i)[base + j] == pollfds[base + m]
  {
  }

  lemma WatchingClosed(pollfds: seq<PollFd>, base: nat, next: seq<nat>, sent: map<int, seq<nat>>, global: nat, my: nat,
                       i: nat, upTo: nat)
    requires Watching(pollfds, base, next, sent, global, my) && i < |next|
    requires Served(pollfds, base, upTo, i, sent, global, my) && (upTo <= i || upTo == |next|)
    ensures Watching(SwapRemove(pollfds, base + i), base, SwapRemove(next, i), sent, global, my)
    ensures Served(SwapRemove(pollfds, base + i), base, if upTo <= i then upTo else upTo - 1, -1, sent, global, my)
    ensures SwapRemove(pollfds, base + i)[..base] == pollfds[..base]
  {
    var ps, ns, n := SwapRemove(pollfds, base + i), SwapRemove(next, i), |next| - 1;
    forall j | 0 <= j < |ns|
      ensures RightAt(ps, base, ns, sent, global, my, j)
      ensures FdAt(ps, base, j) == FdAt(pollfds, base, if j == i then n else j)
    {
      SwapRemovedAt(pollfds, base, next, i, j);
      WatchingAt(pollfds, base, next, sent, global, my, if j == i then n else j);
    }
    forall j, k | 0 <= j < k < |ns|
      ensures FdAt(ps, base, j) != FdAt(ps, base, k)
    {
      WatchersApart(pollfds, base, next, sent, global, my, if j == i then n else j, if k == i then n else k);
    }
    assert forall j :: base <= j < |ps| ==> ps[j] == pollfds[if j == base + i then base + n else j];
  }

  lemma SwapRemovedParts<T>(s: seq<T>, k: nat)
    requires k < |s|
    ensures |SwapRemove(s, k)| == |s| - 1
    ensures forall i {:trigger SwapRemove(s, k)[i]} ::
              0 <= i < |s| - 1 ==> SwapRemove(s, k)[i] == if i == k then s[|s| - 1] else s[i]
  {
  }

  lemma SwapRemoveNext(next: seq<nat>, i: nat, wn: nat)
    requires i < |next|
    ensures SwapRemove(next[i := wn], i) == SwapRemove(next, i)
  {
  }

  lemma ServedNone(pollfds: seq<PollFd>, base: nat, sent: map<int, seq<nat>>, global: nat, my: nat)
    ensures Served(pollfds, base, 0, -1, sent, global, my)
  {
  }

  lemma ServedBut(pollfds: seq<PollFd>, base: nat, upTo: nat, but: nat, sent: map<int, seq<nat>>, global: nat, my: nat)
    requires Served(pollfds, base, upTo, -1, sent, global, my)
    ensures Served(pollfds, base, upTo, but, sent, global, my)
  {
  }

  lemma ServedOneMore(pollfds: seq<PollFd>, base: nat, upTo: nat, i: nat, sent: map<int, seq<nat>>, global: nat,
                      my: nat)
    requires Served(pollfds, base, upTo, i, sent, global, my) && i <= upTo && base + i < |pollfds|
    requires Complete(pollfds[base + i], sent, global, my)
    ensures Served(pollfds, base, if upTo == i then i + 1 else upTo, -1, sent, global, my)
  {
  }

  lemma WatchingSize(pollfds: seq<PollFd>, base: nat, next: seq<nat>, sent: map<int, seq<nat>>, global: nat, my: nat)
    requires Watching(pollfds, base, next, sent, global, my)
    ensures |pollfds| == base + |next|
  {
  }

  lemma OutComplete(p: PollFd, sent: map<int, seq<nat>>, global: nat, my: nat)
    requires p.events != In && p.events != Off
    ensures Complete(p, sent, global, my)
  {
  }

  /** A peer's socket: absent, or listened to, or ignored because a transfer goes on. What it is listened to for is
      always something to read. */
  ghost predicate SeatRight(p: Peer, f: PollFd)
  {
    && f.events == In
    && if p.doing.Idle? then f.fd == -1 || f.fd > 1 else f.fd < -1
  }

  lemma WatcherGrown(p: PollFd, next: nat, sent: map<int, seq<nat>>, g: nat, global: nat, my: nat)
    requires WatcherRight(p, next, sent, g, my) && g <= global
    ensures WatcherRight(p, next, sent, global, my)
  {
  }

  /** Peers are put in before the watchers; the count may have grown. */
  lemma WatchingShifted(pollfds: seq<PollFd>, base: nat, more: seq<PollFd>, next: seq<nat>, sent: map<int, seq<nat>>,
                        g: nat, global: nat, my: nat)
    requires Watching(pollfds, base, next, sent, g, my) && g <= global
    ensures Watching(pollfds[..base] + more + pollfds[base..], base + |more|, next, sent, global, my)
  {
    var fs, b := pollfds[..base] + more + pollfds[base..], base + |more|;
    forall i | 0 <= i < |next|
      ensures RightAt(fs, b, next, sent, global, my, i) && FdAt(fs, b, i) == FdAt(pollfds, base, i)
    {
      assert fs[b + i] == pollfds[base + i];
      WatchingAt(pollfds, base, next, sent, g, my, i);
      WatcherGrown(pollfds[base + i], next[i], sent, g, global, my);
    }
    forall i, j | 0 <= i < j < |next|
      ensures FdAt(fs, b, i) != FdAt(fs, b, j)
    {
      WatchersApart(pollfds, base, next, sent, g, my, i, j);
    }
  }

  /** What comes before the watchers does not matter to them. */
  lemma WatchingSuffix(pollfds: seq<PollFd>, fs: seq<PollFd>, base: nat, next: seq<nat>, sent: map<int, seq<nat>>,
                       global: nat, my: nat)
    requires Watching(pollfds, base, next, sent, global, my) && Served(pollfds, base, |next|, -1, sent, global, my)
    requires |fs| == |pollfds| && base <= |fs| && fs[base..] == pollfds[base..]
    ensures Watching(fs, base, next, sent, global, my) && Served(fs, base, |next|, -1, sent, global, my)
  {
    forall i | base <= i < |fs| ensures fs[i] == pollfds[i] {
      assert fs[i] == fs[base..][i - base];
    }
    forall i | 0 <= i < |next|
      ensures RightAt(fs, base, next, sent, global, my, i) && FdAt(fs, base, i) == FdAt(pollfds, base, i)
    {
      WatchingAt(pollfds, base, next, sent, global, my, i);
    }
    forall i, j | 0 <= i < j < |next|
      ensures FdAt(fs, base, i) != FdAt(fs, base, j)
    {
      WatchersApart(pollfds, base, next, sent, global, my, i, j);
    }
    forall i | base <= i < |fs| && i < base + |next| ensures Complete(fs[i], sent, global, my) {
      assert Complete(pollfds[i], sent, global, my);
    }
  }

  /** Only the daemon's own token has come. */
  lemma WatchingRecounted(pollfds: seq<PollFd>, base: nat, next: seq<nat>, sent: map<int, seq<nat>>, g: nat,
                          global: nat, my: nat)
    requires Watching(pollfds, base, next, sent, g, my) && Served(pollfds, base, |next|, -1, sent, g, my)
    requires g <= global && |TokensBelow(g, my)| == |TokensBelow(global, my)|
    ensures Watching(pollfds, base, next, sent, global, my) && Served(pollfds, base, |next|, -1, sent, global, my)
  {
    TokensEqual(g, global, my);
    forall i | 0 <= i < |next|
      ensures RightAt(pollfds, base, next, sent, global, my, i)
    {
      WatchingAt(pollfds, base, next, sent, g, my, i);
      WatcherGrown(pollfds[base + i], next[i], sent, g, global, my);
    }
    forall i | base <= i < |pollfds| && i < base + |next| ensures Complete(pollfds[i], sent, global, my) {
      assert Complete(pollfds[i], sent, g, my);
    }
  }

  lemma WatchingAdded(pollfds: seq<PollFd>, base: nat, next: seq<nat>, sent: map<int, seq<nat>>, global: nat, my: nat,
                      f: PollFd)
    requires Watching(pollfds, base, next, sent, global, my) && Served(pollfds, base, |next|, -1, sent, global, my)
    requires f.fd > 1 && f.events == Off && Unwatched(pollfds, base, |next|, f.fd)
    ensures Watching(pollfds + [f], base, next + [0], sent[f.fd := []], global, my)
    ensures Served(pollfds + [f], base, |next|, -1, sent[f.fd := []], global, my)
  {
    var fs, ns, sent' := pollfds + [f], next + [0], sent[f.fd := []];
    forall i | 0 <= i < |ns|
      ensures RightAt(fs, base, ns, sent', global, my, i)
      ensures FdAt(fs, base, i) == if i < |next| then FdAt(pollfds, base, i) else f.fd
    {
      if i < |next| {
        WatchingAt(pollfds, base, next, sent, global, my, i);
      }
    }
    forall i, j | 0 <= i < j < |ns|
      ensures FdAt(fs, base, i) != FdAt(fs, base, j)
    {
      if j < |next| {
        WatchersApart(pollfds, base, next, sent, global, my, i, j);
      }
    }
    forall i | base <= i < |fs| && i < base + |next|
      ensures Complete(fs[i], sent', global, my)
    {
      assert Complete(pollfds[i], sent, global, my);
      WatchingAt(pollfds, base, next, sent, global, my, i - base);
    }
  }

  /** What has been reported of a watcher is dealt with: it has not hung up, and if no write fails it does not wait
      any more. */
  predicate DealtWith(f: PollFd, fine: bool)
  {
    !f.revents.HungUp? && (fine && f.revents.Writable? ==> f.events.Off?)
  }

  /** The first watchers are dealt with. */
  ghost predicate AllDealt(fs: seq<PollFd>, base: nat, upTo: nat, fine: bool)
  {
    forall i {:trigger fs[i]} :: base <= i < |fs| && i < base + upTo ==> DealtWith(fs[i], fine)
  }

  /** Every write that is still to come succeeds. */
  predicate Fine(ws: seq<WriteResult>)
  {
    forall i :: 0 <= i < |ws| ==> ws[i].Wrote?
  }

  /** The watchers that nothing was reported of are still there. */
  ghost predicate QuietKept(was: seq<PollFd>, fs: seq<PollFd>, base: nat)
  {
    base <= |was| && base <= |fs| && forall f :: f in was[base..] && f.revents.Nothing? ==> f in fs[base..]
  }

  lemma QuietRemoved(was: seq<PollFd>, fs: seq<PollFd>, base: nat, i: nat)
    requires QuietKept(was, fs, base) && base + i < |fs| && !fs[base + i].revents.Nothing?
    ensures QuietKept(was, SwapRemove(fs, base + i), base)
  {
    var gs, n := SwapRemove(fs, base + i), |fs| - 1;
    forall f | f in was[base..] && f.revents.Nothing?
      ensures f in gs[base..]
    {
      var j :| 0 <= j < |fs| - base && fs[base..][j] == f;
      var k := if base + j == n then base + i else base + j;
      assert gs[k] == f && gs[base..][k - base] == f;
    }
  }

  lemma QuietChanged(was: seq<PollFd>, fs: seq<PollFd>, base: nat, i: nat, f': PollFd)
    requires QuietKept(was, fs, base) && base + i < |fs| && !fs[base + i].revents.Nothing?
    ensures QuietKept(was, fs[base + i := f'], base)
  {
    var gs := fs[base + i := f'];
    forall f | f in was[base..] && f.revents.Nothing?
      ensures f in gs[base..]
    {
      var j :| 0 <= j < |fs| - base && fs[base..][j] == f;
      assert gs[base..][j] == f;
    }
  }

  lemma AllDealtStill(fs: seq<PollFd>, gs: seq<PollFd>, base: nat, i: nat, fine: bool)
    requires AllDealt(fs, base, i, fine) && |gs| <= |fs|
    requires forall j :: base <= j < |gs| && j < base + i ==> gs[j] == fs[j]
    ensures AllDealt(gs, base, i, fine)
  {
  }

  lemma ServeStart(fs: seq<PollFd>, base: nat, fine: bool)
    requires base <= |fs|
    ensures AllDealt(fs, base, 0, fine) && QuietKept(fs, fs, base)
  {
  }

  lemma ServeEnd(was: seq<PollFd>, fs: seq<PollFd>, base: nat, n: nat, fine: bool)
    requires QuietKept(was, fs, base)
    ensures base <= |fs| && base <= |was|
    ensures AllDealt(fs, base, n, fine) && |fs| == base + n ==> forall f :: f in fs[base..] ==> DealtWith(f, fine)
    ensures forall f :: f in was[base..] && f.revents.Nothing? ==> f in fs[base..]
  {
    if AllDealt(fs, base, n, fine) && |fs| == base + n {
      forall f | f in fs[base..] ensures DealtWith(f, fine) {
        var j :| 0 <= j < |fs| - base && fs[base..][j] == f;
        assert fs[base + j] == f;
      }
    }
  }

  lemma AllDealtMore(fs: seq<PollFd>, base: nat, i: nat, fine: bool)
    requires AllDealt(fs, base, i, fine) && (base + i < |fs| ==> DealtWith(fs[base + i], fine))
    ensures AllDealt(fs, base, i + 1, fine)
  {
  }

  lemma DealtIs(f: PollFd, fine: bool)
    ensures DealtWith(f, fine) <==> !f.revents.HungUp? && (fine && f.revents.Writable? ==> f.events == Off)
  {
  }

  /** Only what is reported of the descriptors differs. */
  ghost predicate Reported(fs: seq<PollFd>, was: seq<PollFd>)
  {
    |fs| == |was| && forall i {:trigger fs[i]} :: 0 <= i < |fs| ==> fs[i] == was[i].(revents := fs[i].revents)
  }

  lemma WatchingReported(pollfds: seq<PollFd>, fs: seq<PollFd>, base: nat, next: seq<nat>, sent: map<int, seq<nat>>,
                         global: nat, my: nat)
    requires Watching(pollfds, base, next, sent, global, my) && Served(pollfds, base, |next|, -1, sent, global, my)
    requires Reported(fs, pollfds)
    ensures Watching(fs, base, next, sent, global, my) && Served(fs, base, |next|, -1, sent, global, my)
  {
    forall i | 0 <= i < |next|
      ensures RightAt(fs, base, next, sent, global, my, i) && FdAt(fs, base, i) == FdAt(pollfds, base, i)
    {
      WatchingAt(pollfds, base, next, sent, global, my, i);
      assert fs[base + i] == pollfds[base + i].(revents := fs[base + i].revents);
    }
    forall i, j | 0 <= i < j < |next|
      ensures FdAt(fs, base, i) != FdAt(fs, base, j)
    {
      WatchersApart(pollfds, base, next, sent, global, my, i, j);
    }
    forall i | base <= i < |fs| && i < base + |next| ensures Complete(fs[i], sent, global, my) {
      assert fs[i] == pollfds[i].(revents := fs[i].revents);
      assert Complete(pollfds[i], sent, global, my);
    }
  }

  class Daemon {
    const myToken: nat
    var happened: bool            // something_happened
    var newCount: nat             // new_global_token_count
    var stuck: bool               // the poller waits for nothing
    var peers: seq<Peer>
    // the module server
    var blocked: set<(nat, Doing)>   // directions that answered zero and have not become usable since
    var flight: seq<Notice>          // notices that the poller has not read yet
    // what is still to happen
    var world: seq<seq<Happening>>
    var answers: seq<nat>
    var writes: seq<WriteResult>
    var interests: seq<nat>       // the tokens of the SET_INTEREST requests that were sent
    var global: nat               // global_token_count
    var next: seq<nat>            // for each watcher, the token that it gets next
    var sent: map<int, seq<nat>>  // what was written to each watcher's socket
    ghost var started: seq<Start> // each peer when its latest transfer was asked for
    ghost var asks: seq<Ask>      // the questions to the server
    var pollfds: seq<PollFd>      // the signal, the listening socket, the peers' and the watchers' sockets

    ghost function Now(): (s: State)
      reads this
      ensures s == State(myToken, happened, newCount, stuck, peers, blocked, flight, world, answers, writes, interests,
                         global, next, sent, pollfds, started, asks)
    {
      State(myToken, happened, newCount, stuck, peers, blocked, flight, world, answers, writes, interests,
            global, next, sent, pollfds, started, asks)
    }

    /** No peer but `but` is forgotten, and the main loop knows if one of the first `upTo` can go on. */
    ghost predicate Minded(but: int, upTo: int)
      reads this`peers, this`blocked, this`flight, this`happened
    {
      forall i {:trigger peers[i]} :: 0 <= i < |peers| && i != but ==>
        NotForgotten(peers[i], blocked, flight)
        && (i < upTo && !peers[i].doing.Idle? && peers[i].unblocked ==> happened)
    }

    /** poller_sm_next_byte_cb, for a whole notice: the peer it is about is unblocked, if it waits for just that. */
    method Handle(n: Notice)
      modifies this`happened, this`newCount, this`stuck, this`peers
      ensures Now() == old(Now()).Noticed(n)
      ensures n.Count? ==> happened && newCount == old(newCount) + n.more && peers == old(peers) && stuck == old(stuck)
      ensures n.Ready? ==>
                var k := FindPeer(old(peers), n.token);
                var found := k < |old(peers)| && For(n, old(peers)[k].token, old(peers)[k].doing);
                && peers == (if found then old(peers)[k := old(peers)[k].(unblocked := true)] else old(peers))
                && happened == (old(happened) || found) && newCount == old(newCount)
                && stuck == (old(stuck) || k == |old(peers)|)
    {
      hide FindPeer;
      match n {
        case Count(more) =>
          newCount := newCount + more;
          happened := true;
        case Ready(token, readable, writable) =>
          var i := Find(token);
          if i == |peers| {
            stuck := true;
          } else if (peers[i].doing.Reading? && readable) || (peers[i].doing.Writing? && writable) {
            happened := true;
            peers := peers[i := peers[i].(unblocked := true)];
          }
      }
    }

    /** The peer with this token. */
    method Find(token: nat) returns (i: nat)
      ensures i == FindPeer(peers, token) && i <= |peers| && (i < |peers| ==> peers[i].token == token)
    {
      i := 0;
      while i < |peers| && peers[i].token != token
        invariant i <= |peers| && forall j :: 0 <= j < i ==> peers[j].token != token
      {
        i := i + 1;
      }
    }

    /** One thing that happens while bytes are moved. */
    method Happen(h: Happening, ghost but: int, ghost upTo: int)
      requires Minded(but, upTo) && Distinct(Tokens(peers))
      modifies this`happened, this`newCount, this`stuck, this`peers, this`blocked, this`flight
      ensures Minded(but, upTo) && Minding(old(Now()), Now(), but)
      ensures Now() == old(Now()).After(h)
    {
      hide State.Noticed, FindPeer;
      match h {
        case Usable(token, doing) =>
          if (token, doing) in blocked {
            InFlightMore(flight, Ready(token, doing.Reading?, doing.Writing?));
            blocked := blocked - {(token, doing)};
            flight := flight + [Ready(token, doing.Reading?, doing.Writing?)];
          }
        case Notified(token, readable, writable) =>
          InFlightMore(flight, Ready(token, readable, writable));
          flight := flight + [Ready(token, readable, writable)];
        case Joined(more) =>
          InFlightMore(flight, Count(more));
          flight := flight + [Count(more)];
        case Handled =>
          if flight != [] && !stuck {
            Take(but, upTo);
          }
      }
    }

    /** The poller has read a notice. */
    method Take(ghost but: int, ghost upTo: int)
      requires Minded(but, upTo) && Distinct(Tokens(peers)) && flight != []
      modifies this`happened, this`newCount, this`stuck, this`peers, this`flight
      ensures Minded(but, upTo) && Minding(old(Now()), Now(), but)
      ensures Now() == old(Now()).Noticed(old(flight)[0]).(flight := old(flight)[1..])
    {
      hide State.Noticed, FindPeer, InFlight;
      InFlightLess(flight);
      FindPeerOnly(peers, flight[0]);
      Handle(flight[0]);
      flight := flight[1..];
    }

    /** The bytes of one multitasking_write or multitasking_read: meanwhile, things happen. */
    method Multitask(ghost but: int, ghost upTo: int)
      requires Minded(but, upTo) && Distinct(Tokens(peers))
      modifies this`happened, this`newCount, this`stuck, this`peers, this`blocked, this`flight, this`world
      ensures Minded(but, upTo) && Minding(old(Now()), Now(), but)
      ensures Same(peers, old(peers)) && newCount >= old(newCount)
      ensures 0 <= but < |peers| && NotForgotten(old(peers)[but], old(blocked), old(flight)) ==>
                NotForgotten(peers[but], blocked, flight)
      ensures Now() == old(Now()).Passed()
    {
      hide *;
      ghost var was := Now();
      MindingSelf(was, was, but);
      PassedIs(was);
      if world != [] {
        var hs := world[0];
        world := world[1..];
        ghost var s := Now();
        MindingSelf(was, s, but);
        var k := 0;
        while k < |hs|
          invariant k <= |hs| && Minded(but, upTo) && Distinct(Tokens(peers)) && Minding(was, Now(), but)
          invariant Now().AfterAll(hs, k) == s.AfterAll(hs, 0)
        {
          ghost var u := Now();
          AfterAllIs(u, hs, k);
          Happen(hs[k], but, upTo);
          MindingOn(was, u, Now(), but);
          k := k + 1;
        }
        AfterAllIs(Now(), hs, k);
      }
      MindingParts(was, Now(), but);
    }

    /** Asks the server how many bytes can be moved; when it answers none, it will tell when that has changed. */
    method AskServer(i: nat, ghost upTo: int) returns (answer: Option<nat>, ghost refused: bool)
      requires i < |peers| && !peers[i].doing.Idle? && Minded(i, upTo) && Distinct(Tokens(peers))
      modifies this`happened, this`newCount, this`stuck, this`peers, this`blocked, this`flight, this`world, this`answers
      modifies this`asks
      ensures Minded(i, upTo) && Same(peers, old(peers)) && Tokens(peers) == Tokens(old(peers))
      ensures answer == Some(0) ==> NotForgotten(peers[i], blocked, flight)
      ensures AnswerOf(answer, refused, old(answers), answers) && asks == old(asks)
      ensures (Now(), answer, refused) == old(Now()).Asked(i)
      ensures newCount >= old(newCount)
    {
      hide *;
      ghost var first, s := peers, Now();
      AskedIs(s, i);
      SameSelf(peers);
      Multitask(i, upTo);
      ghost var second := peers;
      SameChain(first, first, second);
      if answers == [] {
        AnswerIs(None, false, answers, answers);
        return None, false;
      }
      TokenAt(peers, i);
      answer, refused := Answer(i, upTo);
      Multitask(i, upTo);
      SameChain(first, second, peers);
    }

    /** What the server answers; the direction is blocked if that is nothing. */
    method Answer(i: nat, ghost upTo: int) returns (answer: Option<nat>, ghost refused: bool)
      requires i < |peers| && Minded(i, upTo) && answers != []
      modifies this`blocked, this`answers
      ensures Minded(i, upTo) && answer.Some? && AnswerOf(answer, refused, old(answers), answers)
      ensures answer == Some(0) ==> NotForgotten(peers[i], blocked, flight)
      ensures refused == ((peers[i].token, peers[i].doing) in old(blocked))
      ensures answers == old(answers)[1..] && answer.value == if refused then 0 else old(answers)[0]
      ensures blocked == if answer.value == 0 then old(blocked) + {(peers[i].token, peers[i].doing)} else old(blocked)
    {
      var token, doing := peers[i].token, peers[i].doing;
      refused := (token, doing) in blocked;
      answer := Some(if (token, doing) in blocked then 0 else answers[0]);
      answers := answers[1..];
      if answer.value == 0 {
        blocked := blocked + {(token, doing)};
      }
    }

    /** One round of continue_transfer: asks to move up to 255 bytes, and moves as many as the server answers. */
    method Round(i: nat, ghost upTo: int) returns (r: Outcome, ghost k: nat, ghost answer: Option<nat>)
      requires i < |peers| && !peers[i].doing.Idle? && peers[i].remaining > 0
      requires Minded(i, upTo) && Distinct(Tokens(peers))
      modifies this`happened, this`newCount, this`stuck, this`peers, this`blocked, this`flight, this`world, this`answers
      modifies this`asks
      ensures Minded(i, upTo) && |peers| == |old(peers)| && Same(peers, old(peers)[i := peers[i]])
      ensures k <= old(peers)[i].remaining && k <= |old(peers)[i].Source()|
      ensures peers[i] == old(peers)[i].Progressed(k).(unblocked := peers[i].unblocked)
      ensures (Now(), r) == old(Now()).Round(i)
      ensures AskedOnce(old(asks), old(answers), asks, answers, old(peers)[i], k)
      ensures answer == if asks == old(asks) then None else Some(asks[|old(asks)|].answer)
      ensures r.Ended? <==>
                answer.None? || |old(peers)[i].Source()| < Least(answer.value, Least(255, old(peers)[i].remaining))
      ensures k == if r.Ended? then 0 else Least(answer.value, Least(255, old(peers)[i].remaining))
      ensures r.Moved? <==> k > 0
      ensures r.Parked? ==> NotForgotten(peers[i], blocked, flight) && !peers[i].unblocked
      ensures r.Again? ==> peers[i].unblocked
      ensures r.Ended? ==> answers == [] || |peers[i].Source()| < peers[i].remaining
      ensures !r.Ended? ==> |answers| < |old(answers)|
      ensures newCount >= old(newCount)
    {
      hide *;
      ghost var was, s := peers, Now();
      RoundIs(s, i);
      Unmark(i, upTo);
      ghost var first := peers;
      var got;
      ghost var refused;
      got, refused := AskServer(i, upTo);
      answer := got;
      SameAt(peers, first, i);
      SourceStill(was[i], peers[i].unblocked);
      if got.None? {
        NoAnswer(refused, asks, s.answers, answers, was[i]);
        SameMarked(was, peers, i);
        return Ended, 0, answer;
      }
      ghost var second := peers;
      r, k := Move(i, upTo, got.value, refused);
      RoundSame(was, second, peers, i, k);
      AskedThen(s.asks, s.answers, asks, answers, was[i], second[i].unblocked, refused, got, k);
    }

    /** Moves as many bytes as the server answered. */
    method Move(i: nat, ghost upTo: int, answer: nat, ghost refused: bool) returns (r: Outcome, ghost k: nat)
      requires i < |peers| && !peers[i].doing.Idle? && peers[i].remaining > 0
      requires Minded(i, upTo) && Distinct(Tokens(peers)) && (answer == 0 ==> NotForgotten(peers[i], blocked, flight))
      modifies this`happened, this`newCount, this`stuck, this`peers, this`blocked, this`flight, this`world, this`asks
      ensures Minded(i, upTo) && |peers| == |old(peers)| && Same(peers, old(peers)[i := peers[i]])
      ensures k <= old(peers)[i].remaining && k <= |old(peers)[i].Source()|
      ensures peers[i] == old(peers)[i].Progressed(k).(unblocked := peers[i].unblocked)
      ensures (Now(), r) == old(Now()).Moving(i, answer, refused)
      ensures asks == old(asks) + [AskOf(old(peers)[i], refused, answer, k)]
      ensures var n := Least(answer, Least(255, old(peers)[i].remaining));
              && (r.Ended? <==> |old(peers)[i].Source()| < n)
              && k == if |old(peers)[i].Source()| < n then 0 else n
      ensures r.Moved? <==> k > 0
      ensures r.Parked? ==> NotForgotten(peers[i], blocked, flight) && !peers[i].unblocked
      ensures r.Again? ==> peers[i].unblocked
      ensures r.Ended? ==> |peers[i].Source()| < peers[i].remaining
      ensures newCount >= old(newCount)
    {
      hide *;
      ghost var was, s := peers, Now();
      MovingIs(s, i, answer, refused);
      var actual := Least(answer, Least(255, peers[i].remaining));
      LeastIs(answer, peers[i].remaining);
      WentNowhere(peers[i]);
      WentIs(peers[i], peers[i], 0);
      SameSelf(peers);
      assert peers == peers[i := peers[i]];
      if actual == 0 {
        Note(i, refused, answer, 0);
        return if peers[i].unblocked then Again else Parked, 0;
      }
      Multitask(i, upTo);
      SameAt(peers, was, i);
      SameOne(peers, was, i);
      SourceStill(was[i], peers[i].unblocked);
      WentStill(was[i], peers[i].unblocked);
      WentIs(was[i], peers[i], 0);
      AskStill(was[i], peers[i].unblocked, refused, answer);
      Note(i, refused, answer, if |peers[i].Source()| < actual then 0 else actual);
      if |peers[i].Source()| < actual {
        return Ended, 0;
      }
      ghost var second := peers;
      Progress(i, upTo, actual);
      ProgressedStill(was[i], second[i].unblocked, actual);
      SameProgressed(was, second, i, peers[i]);
      return Moved, actual;
    }

    method Unmark(i: nat, ghost upTo: int)
      requires i < |peers| && Minded(i, upTo) && Distinct(Tokens(peers))
      modifies this`peers
      ensures Minded(i, upTo) && Distinct(Tokens(peers)) && peers == old(peers)[i := old(peers)[i].(unblocked := false)]
    {
      peers := peers[i := peers[i].(unblocked := false)];
      assert Tokens(peers) == Tokens(old(peers));
    }

    /** So many bytes have been moved. */
    method Progress(i: nat, ghost upTo: int, n: nat)
      requires i < |peers| && Minded(i, upTo) && n <= peers[i].remaining && n <= |peers[i].Source()|
      modifies this`peers
      ensures Minded(i, upTo) && peers == old(peers)[i := old(peers)[i].Progressed(n)]
    {
      peers := peers[i := peers[i].Progressed(n)];
    }

    /** The record of a question and its answer. */
    ghost method Note(i: nat, refused: bool, answer: nat, moved: nat)
      requires i < |peers|
      modifies this`asks
      ensures asks == old(asks) + [AskOf(peers[i], refused, answer, moved)]
    {
      asks := asks + [AskOf(peers[i], refused, answer, moved)];
    }

    /** The rounds of a transfer, until everything is moved or the other side is blocked. */
    method Rounds(i: nat, ghost upTo: int) returns (ok: bool, ghost n: nat)
      requires i < |peers| && !peers[i].doing.Idle? && Minded(i, upTo) && Distinct(Tokens(peers))
      modifies this`happened, this`newCount, this`stuck, this`peers, this`blocked, this`flight, this`world, this`answers
      modifies this`asks
      ensures |peers| == |old(peers)| && Same(peers, old(peers)[i := peers[i]]) && Tokens(peers) == Tokens(old(peers))
      ensures Minded(i, upTo) && Went(old(peers)[i], peers[i], n)
      ensures ok && peers[i].remaining > 0 ==> NotForgotten(peers[i], blocked, flight) && !peers[i].unblocked
      ensures !ok ==> Stuck(peers[i], answers)
      ensures (Now(), ok) == old(Now()).Rounds(i)
      ensures Used(old(asks), old(answers), asks, answers)
      ensures |old(asks)| <= |asks| && Accounts(asks[|old(asks)|..], old(peers)[i], peers[i].remaining)
      ensures newCount >= old(newCount)
    {
      hide *;
      ghost var s := Now();
      UsedNone(asks, answers);
      AccountsNone(asks, peers[i]);
      ok, n := true, 0;
      ghost var first := peers[i];
      SameSelf(peers);
      assert peers == peers[i := peers[i]];
      WentNowhere(first);
      while peers[i].remaining > 0
        invariant |peers| == |old(peers)| && Same(peers, old(peers)[i := peers[i]])
        invariant Tokens(peers) == Tokens(old(peers))
        invariant Minded(i, upTo) && Went(first, peers[i], n)
        invariant Now().Rounds(i) == s.Rounds(i)
        invariant Used(old(asks), old(answers), asks, answers)
        invariant |old(asks)| <= |asks| && Accounts(asks[|old(asks)|..], first, peers[i].remaining)
        invariant newCount >= old(newCount)
        decreases |answers|
      {
        ghost var before, p, u := peers, peers[i], Now();
        WentParts(first, p, n);
        RoundsIs(u, i);
        var r;
        ghost var k, answer;
        r, k, answer := Round(i, upTo);
        WentBy(p, peers[i], k);
        WentOn(first, p, peers[i], n, k);
        WentParts(first, peers[i], n + k);
        SameOn(old(peers), before, peers, i);
        AccountsOn(s.asks, s.answers, u.asks, u.answers, asks, answers, first, p, k);
        UsedOnce(u.asks, u.answers, asks, answers, p, k);
        UsedOn(s.asks, s.answers, u.asks, u.answers, asks, answers);
        WentParts(p, peers[i], k);
        n := n + k;
        if r.Parked? {
          return;
        } else if r.Ended? {
          StuckIs(peers[i], answers);
          return false, n;
        }
      }
      RoundsIs(Now(), i);
    }

    /** continue_transfer: goes on until everything is moved or the other side is blocked. `ok` is false when the
        other side answers no more, or has nothing more to give: then the daemon waits for ever. */
    method ContinueTransfer(i: nat, ghost upTo: int) returns (ok: bool)
      requires i < |peers| && !peers[i].doing.Idle? && Minded(i, upTo) && Distinct(Tokens(peers)) && 2 + i < |pollfds|
      requires Now().Sound()
      modifies this`happened, this`newCount, this`stuck, this`peers, this`blocked, this`flight, this`world, this`answers
      modifies this`asks
      modifies this`pollfds
      ensures |peers| == |old(peers)| && Tokens(peers) == Tokens(old(peers)) && Same(peers, old(peers)[i := peers[i]])
      ensures ok ==> Minded(-1, upTo) && (peers[i].doing.Idle? || !peers[i].unblocked)
      ensures !ok ==> Stuck(peers[i], answers)
      ensures (Now(), ok) == old(Now()).Continued(i) && Now().Sound()
      ensures Used(old(asks), old(answers), asks, answers)
      ensures |old(asks)| <= |asks| && Accounts(asks[|old(asks)|..], old(peers)[i], peers[i].remaining)
      ensures Finished(old(peers)[i], peers[i])
      ensures pollfds == if ok && peers[i].remaining == 0
                         then old(pollfds)[2 + i := old(pollfds)[2 + i].(fd := -old(pollfds)[2 + i].fd)]
                         else old(pollfds)
      ensures newCount >= old(newCount)
    {
      hide *;
      ghost var first, n, s := peers[i], 0, Now();
      ContinuedIs(s, i);
      ok, n := Rounds(i, upTo);
      WentParts(first, peers[i], n);
      WentFinished(first, peers[i], n);
      if !ok {
        StuckParts(peers[i], answers);
        return;
      }
      if peers[i].remaining == 0 {
        ghost var before := peers;
        Finish(i, upTo);
        SameOn(old(peers), before, peers, i);
      } else {
        MindedAgain(upTo, i);
      }
    }

    /** The transfer is over: the peer's socket is listened to again. */
    method Finish(i: nat, ghost upTo: int)
      requires i < |peers| && Minded(i, upTo) && 2 + i < |pollfds|
      modifies this`peers, this`pollfds
      ensures Minded(-1, upTo) && peers == old(peers)[i := old(peers)[i].(doing := Idle)]
      ensures Same(peers, old(peers)[i := peers[i]])
      ensures pollfds == old(pollfds)[2 + i := old(pollfds)[2 + i].(fd := -old(pollfds)[2 + i].fd)]
    {
      peers := peers[i := peers[i].(doing := Idle)];
      pollfds := pollfds[2 + i := pollfds[2 + i].(fd := -pollfds[2 + i].fd)];
    }

    /** The peer that was left out is not forgotten either. */
    lemma MindedAgain(upTo: int, i: nat)
      requires Minded(i, upTo) && i < |peers| && NotForgotten(peers[i], blocked, flight)
      requires peers[i].doing.Idle? || !peers[i].unblocked
      ensures Minded(-1, upTo)
    {
    }

    // -------- watchers --------

    method Write(fd: int, token: nat) returns (r: WriteResult)
      requires fd in sent
      modifies this`writes, this`sent
      ensures sent == if r.Wrote? then old(sent)[fd := old(sent)[fd] + [token]] else old(sent)
      ensures Fine(old(writes)) ==> r.Wrote? && Fine(writes)
      ensures (Now(), r) == old(Now()).Written(fd, token)
    {
      r := if writes == [] then Wrote else writes[0];
      writes := if writes == [] then [] else writes[1..];
      if r.Wrote? {
        sent := sent[fd := sent[fd] + [token]];
      }
    }

    /** close_watcher: the last watcher takes the place of the one that goes. */
    method CloseWatcher(base: nat, i: nat)
      requires i < |next| && |pollfds| == base + |next|
      modifies this`next, this`pollfds
      ensures next == SwapRemove(old(next), i) && pollfds == SwapRemove(old(pollfds), base + i)
    {
      var last := |next| - 1;
      if |next| > 1 {
        next := next[i := next[last]];
        next := next[..last];
        pollfds := pollfds[base + i := pollfds[|pollfds| - 1]];
      } else {
        next := [];
      }
      pollfds := pollfds[..|pollfds| - 1];
    }

    /** Sends a watcher the tokens it has not got; `r` tells how that ended. */
    method SendTokens(fd: int, from: nat) returns (wn: nat, r: WriteResult)
      requires fd in sent && sent[fd] == TokensBelow(from, myToken) && from <= global
      modifies this`writes, this`sent
      ensures from <= wn <= global && sent == old(sent)[fd := TokensBelow(wn, myToken)]
      ensures r.Wrote? ==> wn == global
      ensures Fine(old(writes)) ==> r.Wrote? && Fine(writes)
      ensures (Now(), wn, r) == old(Now()).TokensSent(fd, from)
    {
      hide *;
      ghost var s := Now();
      wn, r := from, Wrote;
      assert sent == sent[fd := TokensBelow(wn, myToken)];
      while wn < global
        invariant from <= wn <= global && r.Wrote? && sent == old(sent)[fd := TokensBelow(wn, myToken)]
        invariant Fine(old(writes)) ==> Fine(writes)
        invariant Now().TokensSent(fd, wn) == s.TokensSent(fd, from)
      {
        TokensSentIs(Now(), fd, wn);
        TokensNext(wn, myToken);
        if wn != myToken {
          r := Write(fd, wn);
          if !r.Wrote? {
            return;
          }
        }
        wn := wn + 1;
      }
      TokensSentIs(Now(), fd, wn);
    }

    /** update_watcher: sends what is missing; if the socket is full, waits until it can be written to; if it is
        broken, closes it. */
    method UpdateWatcher(base: nat, i: nat, ghost upTo: nat) returns (closed: bool)
      requires Watching(pollfds, base, next, sent, global, myToken) && i < |next|
      requires Served(pollfds, base, upTo, i, sent, global, myToken) && (upTo <= i || upTo == |next|)
      requires Now().Sound() && base == 2 + |peers|
      modifies this`writes, this`sent, this`next, this`pollfds
      ensures (Now(), closed) == old(Now()).WatcherUpdated(i) && Now().Sound()
      ensures Watching(pollfds, base, next, sent, global, myToken)
      ensures pollfds[..base] == old(pollfds)[..base]
      ensures closed ==> |pollfds| == |old(pollfds)| - 1 && pollfds == SwapRemove(old(pollfds), base + i)
      ensures closed ==> Served(pollfds, base, if upTo <= i then upTo else upTo - 1, -1, sent, global, myToken)
      ensures !closed ==> Served(pollfds, base, upTo, i, sent, global, myToken)
      ensures !closed ==>
                |pollfds| == |old(pollfds)| && base + i < |pollfds|
                && Complete(pollfds[base + i], sent, global, myToken)
                && pollfds == old(pollfds)[base + i := old(pollfds)[base + i].(events := pollfds[base + i].events)]
      ensures Fine(old(writes)) ==> !closed && base + i < |pollfds| && pollfds[base + i].events == Off && Fine(writes)
    {
      hide *;
      WatchingAt(pollfds, base, next, sent, global, myToken, i);
      var fd := pollfds[base + i].fd;
      NowBase();
      WatcherUpdatedIs(Now(), i);
      var wn, r := SendTokens(fd, next[i]);
      WatchingSent(pollfds, base, next, old(sent), global, myToken, i, wn, upTo);
      closed := false;
      match r {
        case Broken =>
          WatchingClosed(pollfds, base, next[i := wn], sent, global, myToken, i, upTo);
          SwapRemoveNext(next, i, wn);
          CloseWatcher(base, i);
          closed := true;
        case WouldBlock =>
          WatchingMarked(pollfds, base, next[i := wn], sent, global, myToken, i, upTo, Out);
          pollfds := pollfds[base + i := pollfds[base + i].(events := Out)];
          next := next[i := wn];
        case Wrote =>
          WatchingMarked(pollfds, base, next[i := wn], sent, global, myToken, i, upTo, Off);
          pollfds := pollfds[base + i := pollfds[base + i].(events := Off)];
          next := next[i := wn];
      }
    }

    /** Every watcher that does not wait to be writable gets what is missing. */
    method UpdateWatchers(base: nat)
      requires Watching(pollfds, base, next, sent, global, myToken)
      requires Now().Sound() && base == 2 + |peers|
      modifies this`writes, this`sent, this`next, this`pollfds
      ensures Now() == old(Now()).WatchersUpdated(0) && Now().Sound()
      ensures Watching(pollfds, base, next, sent, global, myToken) && pollfds[..base] == old(pollfds)[..base]
      ensures Served(pollfds, base, |next|, -1, sent, global, myToken)
      ensures Fine(old(writes)) ==> pollfds == old(pollfds) && Fine(writes)
    {
      hide *;
      var i := 0;
      ghost var s := Now();
      ServedNone(pollfds, base, sent, global, myToken);
      WatchingSize(pollfds, base, next, sent, global, myToken);
      while i < |next|
        invariant i <= |next| && Watching(pollfds, base, next, sent, global, myToken)
        invariant Served(pollfds, base, i, -1, sent, global, myToken)
        invariant |pollfds| == base + |next| && pollfds[..base] == old(pollfds)[..base]
        invariant Fine(old(writes)) ==> pollfds == old(pollfds) && Fine(writes)
        invariant Now().Sound() && Now().WatchersUpdated(i) == s.WatchersUpdated(0)
        decreases |next| - i
      {
        var closed := false;
        WatchersUpdatedIs(Now(), i);
        if pollfds[base + i].events == Off {
          ServedBut(pollfds, base, i, i, sent, global, myToken);
          closed := UpdateWatcher(base, i, i);
          WatchingSize(pollfds, base, next, sent, global, myToken);
        } else {
          WatchingAt(pollfds, base, next, sent, global, myToken, i);
          OutComplete(pollfds[base + i], sent, global, myToken);
          ServedBut(pollfds, base, i, i, sent, global, myToken);
        }
        if !closed {
          ServedOneMore(pollfds, base, i, i, sent, global, myToken);
          i := i + 1;
        }
      }
      WatchersUpdatedIs(Now(), i);
    }

    // -------- peers --------

    /** Every token but the daemon's own has its peer, in order; a peer's socket is ignored exactly while its
        transfer goes on. */
    ghost predicate Seated()
      reads this`peers, this`pollfds, this`global, this`newCount
    {
      && Tokens(peers) == TokensBelow(global, myToken) && global <= newCount && 2 + |peers| <= |pollfds|
      && forall i {:trigger peers[i]} :: 0 <= i < |peers| ==> SeatRight(peers[i], pollfds[2 + i])
    }

    /** What the main loop has between two steps. */
    ghost predicate Valid()
      reads this`peers, this`pollfds, this`global, this`newCount, this`blocked, this`flight, this`happened, this`next
      reads this`sent
      reads this`interests, this`started, this`asks
    {
      && Minded(-1, |peers|) && Seated() && interests == TokensBelow(global, myToken) && Tracked(started, asks, peers)
      && Watching(pollfds, 2 + |peers|, next, sent, global, myToken)
      && Served(pollfds, 2 + |peers|, |next|, -1, sent, global, myToken)
    }

    /** New peers, for the tokens that have come, are put between the peers and the watchers. */
    method AddPeers(toAdd: nat, oldGlobal: nat, ghost upTo: int)
      requires Tokens(peers) == TokensBelow(oldGlobal, myToken) && oldGlobal <= global <= newCount
      requires |peers| + toAdd == |TokensBelow(global, myToken)|
      requires Minded(-1, upTo) && 2 + |peers| <= |pollfds|
      requires forall i {:trigger peers[i]} :: 0 <= i < |peers| ==> SeatRight(peers[i], pollfds[2 + i])
      modifies this`peers, this`pollfds
      ensures Seated() && Minded(-1, upTo) && |peers| == |old(peers)| + toAdd && old(peers) <= peers
      ensures peers == old(peers) + NewPeers(toAdd, oldGlobal, myToken)
      ensures forall i {:trigger peers[i]} :: |old(peers)| <= i < |peers| ==>
                peers[i].doing.Idle? && peers[i].remaining == 0
      ensures pollfds == old(pollfds)[..2 + |old(peers)|] + Vacant(toAdd) + old(pollfds)[2 + |old(peers)|..]
      ensures forall i {:trigger pollfds[i]} :: 2 + |old(peers)| <= i < 2 + |peers| ==> pollfds[i].fd == -1
    {
      ghost var ps, fs, first := peers, pollfds, |peers|;
      pollfds := pollfds[..2 + |peers|] + Vacant(toAdd) + pollfds[2 + |peers|..];
      AppendPeers(toAdd, oldGlobal);
      forall i | 0 <= i < |peers|
        ensures SeatRight(peers[i], pollfds[2 + i])
      {
        if i < first {
          assert peers[i] == ps[i] && pollfds[2 + i] == fs[2 + i];
        } else {
          assert pollfds[2 + i] == Vacant(toAdd)[i - first];
        }
      }
      MindedMore(ps, upTo);
    }

    lemma MindedMore(ps: seq<Peer>, upTo: int)
      requires forall i {:trigger ps[i]} :: 0 <= i < |ps| ==>
                 NotForgotten(ps[i], blocked, flight)
                 && (i < upTo && !ps[i].doing.Idle? && ps[i].unblocked ==> happened)
      requires ps <= peers && forall i {:trigger peers[i]} :: |ps| <= i < |peers| ==> peers[i].doing.Idle?
      ensures Minded(-1, upTo)
    {
      forall i | 0 <= i < |peers|
        ensures NotForgotten(peers[i], blocked, flight)
        ensures (i < upTo && !peers[i].doing.Idle? && peers[i].unblocked ==> happened)
      {
        assert i < |ps| ==> peers[i] == ps[i];
      }
    }

    method AppendPeers(toAdd: nat, oldGlobal: nat)
      requires Tokens(peers) == TokensBelow(oldGlobal, myToken) && |peers| + toAdd == |TokensBelow(global, myToken)|
      modifies this`peers
      ensures peers == old(peers) + NewPeers(toAdd, oldGlobal, myToken) && Tokens(peers) == TokensBelow(global, myToken)
      ensures old(peers) <= peers && |peers| == |old(peers)| + toAdd
      ensures forall i {:trigger peers[i]} :: |old(peers)| <= i < |peers| ==>
                peers[i].doing.Idle? && peers[i].remaining == 0
    {
      hide *;
      ghost var ps := peers;
      var newToken, n := oldGlobal, 0;
      TokensSize(peers);
      while n < toAdd
        invariant n <= toAdd && |peers| == |old(peers)| + n == |TokensBelow(newToken, myToken)|
        invariant Tokens(peers) == TokensBelow(newToken, myToken)
        invariant peers + NewPeers(toAdd - n, newToken, myToken) == old(peers) + NewPeers(toAdd, oldGlobal, myToken)
      {
        if newToken == myToken {
          NewPeersSkip(toAdd - n, newToken, myToken);
          newToken := newToken + 1;
        }
        NewPeersNext(peers, toAdd - n, newToken, myToken);
        TokensPush(peers, Peer(newToken, Idle, false, 0, Channel([], []), Channel([], [])), newToken, myToken);
        peers := peers + [Peer(newToken, Idle, false, 0, Channel([], []), Channel([], []))];
        newToken := newToken + 1;
        n := n + 1;
      }
      NewPeersNone(peers, newToken, myToken);
      TokensEqual(newToken, global, myToken);
      NewPeersIdle(toAdd, oldGlobal, myToken);
    }

    // -------- the main loop --------

    /** The SET_INTEREST requests for the new peers. */
    method SetInterests(first: nat)
      requires Minded(-1, 0) && Seated() && Tracked(started, asks, peers) && first <= |peers|
      modifies this`happened, this`newCount, this`stuck, this`peers, this`blocked, this`flight, this`world
      modifies this`interests
      ensures Now() == old(Now()).InterestsSet(first)
      ensures interests == old(interests) + Tokens(old(peers))[first..]
      ensures Minded(-1, 0) && Seated() && Tracked(started, asks, peers)
      ensures |peers| == |old(peers)| && Tokens(peers) == Tokens(old(peers))
    {
      hide *;
      var i := first;
      ghost var s, ts := Now(), Tokens(peers);
      TokensSize(peers);
      assert ts[first..first] == [];
      while i < |peers|
        invariant first <= i <= |peers| == |ts| && interests == s.interests + ts[first..i]
        invariant Minded(-1, 0) && Seated() && Tracked(started, asks, peers) && Tokens(peers) == ts
        invariant Now().InterestsSet(i) == s.InterestsSet(first)
      {
        InterestsSetIs(Now(), i);
        SetInterest(i);
        assert ts[first..i + 1] == ts[first..i] + [ts[i]];
        i := i + 1;
      }
      InterestsSetIs(Now(), i);
    }

    method SetInterest(i: nat)
      requires Minded(-1, 0) && Seated() && Tracked(started, asks, peers) && i < |peers|
      modifies this`happened, this`newCount, this`stuck, this`peers, this`blocked, this`flight, this`world
      modifies this`interests
      ensures Now() == old(Now()).(interests := interests).Passed()
      ensures interests == old(interests) + [old(peers)[i].token] && |Tokens(old(peers))| == |old(peers)| == |peers|
      ensures Tokens(old(peers))[i] == old(peers)[i].token
      ensures Minded(-1, 0) && Seated() && Tracked(started, asks, peers) && Tokens(peers) == Tokens(old(peers))
    {
      hide *;
      SeatedParts();
      ghost var ps := peers;
      TokenAt(peers, i);
      interests := interests + [peers[i].token];
      Multitask(-1, 0);
      SameChain(ps, ps, peers) by { SameSelf(ps); }
      TokensSize(peers);
      SameSeated(ps);
      TrackedSame(started, asks, ps, peers);
    }

    /** The transfers that can go on do so. */
    method ContinueAll() returns (ok: bool)
      requires Minded(-1, 0) && Seated() && Tracked(started, asks, peers) && Now().Sound()
      modifies this`happened, this`newCount, this`stuck, this`peers, this`blocked, this`flight, this`world, this`answers
      modifies this`asks
      modifies this`pollfds
      ensures |peers| == |old(peers)| && |pollfds| == |old(pollfds)|
      ensures pollfds[2 + |peers|..] == old(pollfds)[2 + |peers|..]
      ensures Tracked(started, asks, peers)
      ensures ok ==> Minded(-1, |peers|) && Seated()
      ensures !ok ==> AnyStuck(peers, answers)
      ensures (Now(), ok) == old(Now()).AllContinued(0) && Now().Sound()
      ensures Used(old(asks), old(answers), asks, answers)
    {
      hide *;
      ok := true;
      var i := 0;
      ghost var s := Now();
      UsedNone(asks, answers);
      SeatedParts();
      while i < |peers|
        invariant i <= |peers| == |old(peers)| && |pollfds| == |old(pollfds)| && Minded(-1, i) && Seated()
        invariant Tracked(started, asks, peers) && Now().Sound() && Now().AllContinued(i) == s.AllContinued(0)
        invariant Used(old(asks), old(answers), asks, answers)
        invariant 2 + |peers| <= |pollfds| && pollfds[2 + |peers|..] == old(pollfds)[2 + |peers|..]
      {
        ghost var u := Now();
        AllContinuedIs(u, i);
        if !peers[i].doing.Idle? && peers[i].unblocked {
          ok := ContinueOne(i);
          UsedOn(s.asks, s.answers, u.asks, u.answers, asks, answers);
          if !ok {
            OneStuck(peers, answers, i);
            return;
          }
        }
        MindedOneMore(i);
        i := i + 1;
      }
      AllContinuedIs(Now(), i);
    }

    lemma SeatedParts()
      requires Seated()
      ensures Tokens(peers) == TokensBelow(global, myToken) && Distinct(Tokens(peers)) && 2 + |peers| <= |pollfds|
      ensures global <= newCount
      ensures forall i {:trigger peers[i]} :: 0 <= i < |peers| ==> SeatRight(peers[i], pollfds[2 + i])
    {
      if peers != [] {
        TokensAre(global, myToken, 0);
      }
    }

    lemma MindedOneMore(i: nat)
      requires Minded(-1, i) && i < |peers| && (peers[i].doing.Idle? || !peers[i].unblocked || happened)
      ensures Minded(-1, i + 1)
    {
    }

    lemma MindedWithout(i: nat)
      requires Minded(-1, i)
      ensures Minded(i, i)
    {
    }

    method ContinueOne(i: nat) returns (ok: bool)
      requires i < |peers| && !peers[i].doing.Idle? && Minded(-1, i) && Seated() && Tracked(started, asks, peers)
      requires Now().Sound()
      modifies this`happened, this`newCount, this`stuck, this`peers, this`blocked, this`flight, this`world, this`answers
      modifies this`asks
      modifies this`pollfds
      ensures |peers| == |old(peers)| && |pollfds| == |old(pollfds)|
      ensures pollfds[2 + |peers|..] == old(pollfds)[2 + |peers|..]
      ensures ok ==> Minded(-1, i) && Seated() && (peers[i].doing.Idle? || !peers[i].unblocked)
      ensures !ok ==> Stuck(peers[i], answers)
      ensures (Now(), ok) == old(Now()).Continued(i) && Now().Sound()
      ensures Used(old(asks), old(answers), asks, answers)
      ensures Tracked(started, asks, peers)
    {
      hide *;
      ghost var s := Now();
      SeatedParts();
      MindedWithout(i);
      ok := ContinueTransfer(i, i);
      UsedParts(s.asks, s.answers, asks, answers);
      TrackedOn(started, s.asks, asks, s.peers, peers, i);
      if ok {
        StillSeated(old(peers), old(pollfds), i);
      }
    }

    lemma StillSeated(ps: seq<Peer>, fs: seq<PollFd>, i: nat)
      requires |peers| == |ps| && i < |ps| && 2 + |ps| <= |fs| && Tokens(peers) == Tokens(ps)
      requires Same(peers, ps[i := peers[i]])
      requires Tokens(ps) == TokensBelow(global, myToken) && global <= newCount
      requires forall j {:trigger ps[j]} :: 0 <= j < |ps| ==> SeatRight(ps[j], fs[2 + j])
      requires Finished(ps[i], peers[i]) && !ps[i].doing.Idle?
      requires pollfds == if peers[i].remaining == 0 then fs[2 + i := fs[2 + i].(fd := -fs[2 + i].fd)] else fs
      ensures Seated()
    {
      forall j | 0 <= j < |peers|
        ensures SeatRight(peers[j], pollfds[2 + j])
      {
        assert SeatRight(ps[j], fs[2 + j]);
        assert j != i ==> peers[j] == ps[j].(unblocked := peers[j].unblocked);
      }
    }

    lemma NowBase()
      ensures Now().Base() == 2 + |peers|
    {
    }

    lemma SoundParts()
      requires Now().Sound()
      ensures |pollfds| == 2 + |peers| + |next| && |started| == |peers| && global <= newCount
    {
    }

    lemma SoundAgain()
      requires |pollfds| == 2 + |peers| + |next| && |started| == |peers| && global <= newCount
      ensures Now().Sound()
    {
    }

    lemma ValidParts()
      requires Valid()
      ensures Now().Sound()
      ensures Minded(-1, |peers|) && Seated() && Watching(pollfds, 2 + |peers|, next, sent, global, myToken)
      ensures Served(pollfds, 2 + |peers|, |next|, -1, sent, global, myToken)
      ensures interests == TokensBelow(global, myToken) && Tracked(started, asks, peers)
    {
    }

    lemma ValidAgain()
      requires interests == TokensBelow(global, myToken) && Tracked(started, asks, peers)
      requires Minded(-1, |peers|) && Seated() && Watching(pollfds, 2 + |peers|, next, sent, global, myToken)
      requires Served(pollfds, 2 + |peers|, |next|, -1, sent, global, myToken)
      ensures Valid()
    {
    }

    method Clear(ghost upTo: int)
      requires Minded(-1, upTo)
      modifies this`happened
      ensures Minded(-1, 0) && !happened
    {
      happened := false;
    }

    lemma Recounted(g: nat)
      requires Tokens(peers) == TokensBelow(g, myToken) && |TokensBelow(g, myToken)| == |TokensBelow(global, myToken)|
      requires global <= newCount && 2 + |peers| <= |pollfds|
      requires forall i {:trigger peers[i]} :: 0 <= i < |peers| ==> SeatRight(peers[i], pollfds[2 + i])
      ensures Seated()
    {
      TokensEqual(g, global, myToken);
    }

    lemma SameSeated(ps: seq<Peer>)
      requires Same(peers, ps) && Tokens(ps) == TokensBelow(global, myToken) && global <= newCount
      requires 2 + |ps| <= |pollfds|
      requires forall i {:trigger ps[i]} :: 0 <= i < |ps| ==> SeatRight(ps[i], pollfds[2 + i])
      requires Tokens(peers) == Tokens(ps)
      ensures Seated()
    {
      forall i | 0 <= i < |peers| ensures SeatRight(peers[i], pollfds[2 + i]) {
        assert peers[i] == ps[i].(unblocked := peers[i].unblocked);
      }
    }

    /** New tokens: their peers, and the news to the watchers. */
    method Admit(toAdd: nat, oldGlobal: nat)
      requires interests == TokensBelow(oldGlobal, myToken) && Tracked(started, asks, peers)
      requires toAdd > 0 && Tokens(peers) == TokensBelow(oldGlobal, myToken) && oldGlobal <= global <= newCount
      requires |peers| + toAdd == |TokensBelow(global, myToken)|
      requires Minded(-1, 0) && 2 + |peers| <= |pollfds|
      requires forall i {:trigger peers[i]} :: 0 <= i < |peers| ==> SeatRight(peers[i], pollfds[2 + i])
      requires Watching(pollfds, 2 + |peers|, next, sent, oldGlobal, myToken) && Now().Sound()
      modifies this`happened, this`newCount, this`stuck, this`peers, this`blocked, this`flight, this`world
      modifies this`pollfds, this`writes, this`sent, this`next, this`interests, this`started
      ensures Now() == old(Now()).Admitted(toAdd, oldGlobal) && Now().Sound()
      ensures Minded(-1, 0) && Seated() && |peers| == |old(peers)| + toAdd
      ensures interests == TokensBelow(global, myToken) && Tracked(started, asks, peers) && old(started) <= started
      ensures Watching(pollfds, 2 + |peers|, next, sent, global, myToken)
      ensures Served(pollfds, 2 + |peers|, |next|, -1, sent, global, myToken)
    {
      hide *;
      ghost var s := Now();
      Welcome(toAdd, oldGlobal);
      AdmittedIs(s, toAdd, oldGlobal);
      SeatedParts();
      ghost var fs := pollfds;
      var base := 2 + |peers|;
      WatchingSize(pollfds, base, next, sent, global, myToken);
      UpdateWatchers(base);
      WatchingSize(pollfds, base, next, sent, global, myToken);
      SeatsKept(fs);
    }

    /** The new peers, and the requests for them. */
    method Welcome(toAdd: nat, oldGlobal: nat)
      requires interests == TokensBelow(oldGlobal, myToken) && Tracked(started, asks, peers)
      requires Tokens(peers) == TokensBelow(oldGlobal, myToken) && oldGlobal <= global <= newCount
      requires |peers| + toAdd == |TokensBelow(global, myToken)|
      requires Minded(-1, 0) && 2 + |peers| <= |pollfds|
      requires forall i {:trigger peers[i]} :: 0 <= i < |peers| ==> SeatRight(peers[i], pollfds[2 + i])
      requires Watching(pollfds, 2 + |peers|, next, sent, oldGlobal, myToken) && Now().Sound()
      modifies this`happened, this`newCount, this`stuck, this`peers, this`blocked, this`flight, this`world
      modifies this`pollfds, this`interests, this`started
      ensures Now() == old(Now()).Joined(toAdd, oldGlobal)
      ensures Minded(-1, 0) && Seated() && |peers| == |old(peers)| + toAdd
      ensures interests == TokensBelow(global, myToken) && Tracked(started, asks, peers) && old(started) <= started
      ensures Watching(pollfds, 2 + |peers|, next, sent, global, myToken)
    {
      hide *;
      JoinedIs(Now(), toAdd, oldGlobal);
      Join(toAdd, oldGlobal);
      SetInterests(|peers| - toAdd);
    }

    /** The new peers take their places. */
    method Join(toAdd: nat, oldGlobal: nat)
      requires Tracked(started, asks, peers) && Tokens(peers) == TokensBelow(oldGlobal, myToken)
      requires oldGlobal <= global <= newCount
      requires |peers| + toAdd == |TokensBelow(global, myToken)|
      requires Minded(-1, 0) && 2 + |peers| <= |pollfds|
      requires forall i {:trigger peers[i]} :: 0 <= i < |peers| ==> SeatRight(peers[i], pollfds[2 + i])
      requires Watching(pollfds, 2 + |peers|, next, sent, oldGlobal, myToken)
      modifies this`peers, this`pollfds, this`started
      ensures Minded(-1, 0) && Seated() && |peers| == |old(peers)| + toAdd && |old(pollfds)| >= 2 + |old(peers)|
      ensures Tracked(started, asks, peers) && old(started) <= started
      ensures Watching(pollfds, 2 + |peers|, next, sent, global, myToken)
      ensures TokensBelow(oldGlobal, myToken) + Tokens(peers)[|old(peers)|..] == TokensBelow(global, myToken)
      ensures peers == old(peers) + NewPeers(toAdd, oldGlobal, myToken)
      ensures started == old(started) + Starts(NewPeers(toAdd, oldGlobal, myToken), |asks|)
      ensures pollfds == old(pollfds)[..2 + |old(peers)|] + Vacant(toAdd) + old(pollfds)[2 + |old(peers)|..]
      ensures forall i {:trigger pollfds[i]} :: 2 + |old(peers)| <= i < 2 + |peers| ==> pollfds[i].fd == -1
    {
      hide *;
      ghost var ps := peers;
      WatchingShifted(pollfds, 2 + |peers|, Vacant(toAdd), next, sent, oldGlobal, global, myToken);
      AddPeers(toAdd, oldGlobal, 0);
      SeatedParts();
      TokensPart(ps, peers);
      TrackedMore(started, asks, ps, peers);
      assert peers[|ps|..] == NewPeers(toAdd, oldGlobal, myToken);
      started := started + Starts(peers[|ps|..], |asks|);
    }

    /** One round of the loop that the main loop runs while something has happened. */
    method Attend() returns (ok: bool)
      requires Valid()
      modifies this`happened, this`newCount, this`stuck, this`peers, this`blocked, this`flight, this`world, this`answers
      modifies this`asks
      modifies this`pollfds, this`writes, this`sent, this`next, this`global, this`interests, this`started
      ensures ok ==> Valid()
      ensures !ok ==> AnyStuck(peers, answers)
      ensures old(Now()).Sound() && (Now(), ok) == old(Now()).Attended()
      ensures Used(old(asks), old(answers), asks, answers)
      ensures Tracked(started, asks, peers) && old(started) <= started
      ensures |world| <= |old(world)| && (happened ==> |world| < |old(world)|)
    {
      hide *;
      ValidParts();
      AttendedIs(Now());
      ToAddIs();
      Regard();
      SeatedParts();
      ghost var fs := pollfds;
      ok := ContinueAll();
      if ok {
        WatchingSuffix(fs, pollfds, 2 + |peers|, next, sent, global, myToken);
        ValidAgain();
      }
    }

    /** The tokens that have come are counted, and have their peers. */
    method Regard()
      requires Valid()
      modifies this`happened, this`newCount, this`stuck, this`peers, this`blocked, this`flight, this`world
      modifies this`pollfds, this`writes, this`sent, this`next, this`global, this`interests, this`started
      ensures Minded(-1, 0) && Seated() && interests == TokensBelow(global, myToken)
      ensures Tracked(started, asks, peers) && old(started) <= started
      ensures Watching(pollfds, 2 + |peers|, next, sent, global, myToken) && |pollfds| == 2 + |peers| + |next|
      ensures Served(pollfds, 2 + |peers|, |next|, -1, sent, global, myToken)
      ensures Now().Sound() && old(Now()).Sound()
      ensures var s := old(Now()).(happened := false, global := old(newCount));
              && s.Sound()
              && Now() == if old(Now()).TokensToAdd() > 0 then s.Admitted(old(Now()).TokensToAdd(), old(global)) else s
    {
      hide *;
      ValidParts();
      SeatedParts();
      AttendedIs(Now());
      ToAddIs();
      WatchingSize(pollfds, 2 + |peers|, next, sent, global, myToken);
      Clear(|peers|);
      var toAdd := newCount - global - (if global <= myToken < newCount then 1 else 0);
      var oldGlobal := global;
      global := newCount;
      if toAdd > 0 {
        CountedTokens(toAdd, oldGlobal);
        Admit(toAdd, oldGlobal);
        WatchingSize(pollfds, 2 + |peers|, next, sent, global, myToken);
      } else {
        CountedTokens(0, oldGlobal);
        Recounted(oldGlobal);
        WatchingRecounted(pollfds, 2 + |peers|, next, sent, oldGlobal, global, myToken);
        TokensEqual(oldGlobal, global, myToken);
      }
    }

    lemma CountedTokens(toAdd: nat, oldGlobal: nat)
      requires oldGlobal <= newCount
      requires toAdd == newCount - oldGlobal - (if oldGlobal <= myToken < newCount then 1 else 0)
      requires Tokens(peers) == TokensBelow(oldGlobal, myToken)
      ensures |peers| + toAdd == |TokensBelow(newCount, myToken)| && |peers| == |TokensBelow(oldGlobal, myToken)|
    {
      TokensSize(peers);
    }

    lemma ToAddIs()
      requires Now().Sound()
      ensures Now().TokensToAdd() == newCount - global - (if global <= myToken < newCount then 1 else 0)
    {
    }

    /** When the daemon blocks: nothing has happened that it does not know of, no transfer could go on, and every
        transfer that is parked is blocked at the server or has a notice on its way. */
    ghost predicate AtPoll()
      reads this`peers, this`blocked, this`flight, this`happened
    {
      !happened && forall i {:trigger peers[i]} :: 0 <= i < |peers| && !peers[i].doing.Idle? ==>
        !peers[i].unblocked
        && ((peers[i].token, peers[i].doing) in blocked || InFlight(flight, peers[i].token, peers[i].doing))
    }

    lemma NothingMissed()
      requires Valid() && !happened
      ensures AtPoll()
    {
    }

    /** The main loop up to where it blocks. `ok` is false when a transfer waits for ever. */
    method Settle() returns (ok: bool)
      requires Valid()
      modifies this`happened, this`newCount, this`stuck, this`peers, this`blocked, this`flight, this`world, this`answers
      modifies this`asks
      modifies this`pollfds, this`writes, this`sent, this`next, this`global, this`interests, this`started
      ensures ok ==> Valid() && AtPoll()
      ensures !ok ==> AnyStuck(peers, answers)
      ensures old(Now()).Sound() && (Now(), ok) == old(Now()).Settled()
      ensures Used(old(asks), old(answers), asks, answers)
      ensures Tracked(started, asks, peers) && old(started) <= started
    {
      hide *;
      ok := true;
      ghost var s := Now();
      UsedNone(asks, answers);
      ValidParts();
      while ok && happened
        invariant ok ==> Valid()
        invariant !ok ==> AnyStuck(peers, answers)
        invariant Tracked(started, asks, peers) && old(started) <= started
        invariant Used(old(asks), old(answers), asks, answers) && s.Sound() && (ok ==> Now().Sound())
        invariant s.Settled() == if ok then Now().Settled() else (Now(), false)
        decreases |world|, happened, ok
      {
        ghost var u := Now();
        SettledIs(u);
        ok := Attend();
        UsedOn(s.asks, s.answers, u.asks, u.answers, asks, answers);
        if ok {
          ValidParts();
        }
      }
      if ok {
        SettledIs(Now());
        NothingMissed();
      }
    }

    /** The poller goes on, or bytes of another request go over the other socket: things happen. */
    method Pass()
      requires Valid()
      modifies this`happened, this`newCount, this`stuck, this`peers, this`blocked, this`flight, this`world
      ensures Valid() && Same(peers, old(peers)) && Now() == old(Now()).Passed()
    {
      hide *;
      ValidParts();
      SeatedParts();
      Multitask(-1, |peers|);
      SameChain(old(peers), old(peers), peers) by { SameSelf(old(peers)); }
      SameSeated(old(peers));
      TrackedSame(started, asks, old(peers), peers);
      ValidAgain();
    }

    /** A connection for a module: refused when there is no such module, or it has a connection. */
    method AcceptPeer(token: nat, fd: int, inward: Channel, outward: Channel) returns (r: Response)
      requires Valid() && fd > 1
      modifies this`peers, this`pollfds, this`started
      ensures Valid() && |started| == |old(started)|
      ensures old(Now()).Sound() && Now() == old(Now()).Connected(token, fd, inward, outward)
      ensures forall j :: 0 <= j < |started| && old(peers)[j].token != token ==> started[j] == old(started)[j]
      ensures r.NoSuchToken? <==> token !in TokensBelow(global, myToken)
      ensures r.Accepted? || (peers == old(peers) && pollfds == old(pollfds) && started == old(started))
      ensures forall i {:trigger old(peers)[i]} :: 0 <= i < |old(peers)| && old(peers)[i].token == token ==>
                && 2 + i < |old(pollfds)|
                && (r.Accepted? <==> old(pollfds)[2 + i].fd == -1)
                && (r.Accepted? ==>
                      && peers == old(peers)[i := old(peers)[i].(inward := inward, outward := outward)]
                      && pollfds == old(pollfds)[2 + i := old(pollfds)[2 + i].(fd := fd)])
    {
      hide *;
      ValidParts();
      SeatedParts();
      TrackedSize(started, asks, peers);
      ConnectedIs(Now(), token, fd, inward, outward);
      OnlyOne(token);
      var i := Find(token);
      if i == |peers| {
        return NoSuchToken;
      }
      if pollfds[2 + i].fd != -1 {
        return Busy;
      }
      SeatAt(i);
      Seat(i, peers[i].(inward := inward, outward := outward), fd);
      return Accepted;
    }

    lemma OnlyOne(token: nat)
      requires Tokens(peers) == TokensBelow(global, myToken) && Distinct(Tokens(peers))
      ensures FindPeer(peers, token) == |peers| <==> token !in TokensBelow(global, myToken)
      ensures forall j {:trigger peers[j]} :: 0 <= j < |peers| && peers[j].token == token ==>
                j == FindPeer(peers, token)
    {
      var i := FindPeer(peers, token);
      assert i < |peers| ==> Tokens(peers)[i] == token;
      assert forall j {:trigger peers[j]} :: 0 <= j < |peers| && peers[j].token == token ==> Tokens(peers)[j] == token;
    }

    lemma SeatAt(i: nat)
      requires Valid() && i < |peers| && 2 + i < |pollfds| && pollfds[2 + i].fd == -1
      ensures peers[i].doing.Idle?
    {
    }

    /** A peer's place is changed, its token and its transfer are not. */
    method Seat(i: nat, p: Peer, fd: int)
      requires Valid() && i < |peers| && peers[i].doing.Idle? && (fd > 1 || fd == -1)
      requires p == peers[i].(inward := p.inward, outward := p.outward)
      modifies this`peers, this`pollfds, this`started
      ensures Valid() && |peers| == |old(peers)| && |pollfds| == |old(pollfds)| && 2 + i < |pollfds|
      ensures |started| == |old(started)| == |peers| && started == old(started)[i := Start(p, |asks|)]
      ensures old(Now()).Sound() && Now() == old(Now()).Reseated(i, p, fd) && 2 + i < |old(pollfds)|
      ensures peers == old(peers)[i := p] && pollfds == old(pollfds)[2 + i := old(pollfds)[2 + i].(fd := fd)]
    {
      hide *;
      ValidParts();
      SeatedParts();
      WatchingSize(pollfds, 2 + |peers|, next, sent, global, myToken);
      ghost var fs := pollfds;
      ReseatedIs(Now(), i, p, fd);
      Reseat(i, p, fd);
      TrackedSeat(started, asks, old(peers), i, p);
      started := started[i := Start(p, |asks|)];
      WatchingSuffix(fs, pollfds, 2 + |peers|, next, sent, global, myToken);
      ValidAgain();
    }

    method Reseat(i: nat, p: Peer, fd: int)
      requires Minded(-1, |peers|) && Seated() && i < |peers| && peers[i].doing.Idle? && (fd > 1 || fd == -1)
      requires p == peers[i].(inward := p.inward, outward := p.outward)
      modifies this`peers, this`pollfds
      ensures Minded(-1, |peers|) && Seated() && 2 + i < |old(pollfds)|
      ensures peers == old(peers)[i := p] && pollfds == old(pollfds)[2 + i := old(pollfds)[2 + i].(fd := fd)]
      ensures pollfds[2 + |peers|..] == old(pollfds)[2 + |peers|..]
    {
      peers := peers[i := p];
      pollfds := pollfds[2 + i := pollfds[2 + i].(fd := fd)];
      assert Tokens(peers) == Tokens(old(peers));
    }

    /** OPERATION_QUIT: the place is vacant again. */
    method Quit(i: nat)
      requires Valid() && i < |peers| && peers[i].doing.Idle?
      modifies this`peers, this`pollfds, this`started
      ensures Valid() && peers == old(peers) && 2 + i < |old(pollfds)|
      ensures i < |old(started)| == |old(peers)| && started == old(started)[i := Start(peers[i], |asks|)]
      ensures old(Now()).Sound() && Now() == old(Now()).Reseated(i, peers[i], -1)
      ensures pollfds == old(pollfds)[2 + i := old(pollfds)[2 + i].(fd := -1)]
    {
      Seat(i, peers[i], -1);
      assert peers == old(peers);
    }

    /** OPERATION_READ or OPERATION_WRITE: from here on the peer's socket is ignored, until everything is moved. */
    method StartTransfer(i: nat, doing: Doing, len: nat) returns (ok: bool)
      requires Valid() && i < |peers| && peers[i].doing.Idle? && !doing.Idle? && 2 + i < |pollfds|
      requires pollfds[2 + i].fd > 1
      modifies this`happened, this`newCount, this`stuck, this`peers, this`blocked, this`flight, this`world, this`answers
      modifies this`asks
      modifies this`pollfds, this`started
      ensures |peers| == |old(peers)| && (ok ==> Valid())
      ensures !ok ==> AnyStuck(peers, answers)
      ensures old(Now()).Sound() && (Now(), ok) == old(Now()).TransferStarted(i, doing, len)
      ensures Used(old(asks), old(answers), asks, answers)
      ensures Tracked(started, asks, peers) && i < |old(started)|
      ensures started == old(started)[i := Start(old(peers)[i].(doing := doing, remaining := len), |old(asks)|)]
    {
      hide *;
      ValidParts();
      SeatedParts();
      WatchingSize(pollfds, 2 + |peers|, next, sent, global, myToken);
      ghost var was, fs, had := peers, pollfds, started;
      TransferStartedIs(Now(), i, doing, len);
      Begin(i, doing, len);
      WatchingSuffix(fs, pollfds, 2 + |peers|, next, sent, global, myToken);
      ok := Proceed(i, had, was);
    }

    /** The transfer that was asked for last. */
    method Proceed(i: nat, ghost had: seq<Start>, ghost was: seq<Peer>) returns (ok: bool)
      requires Minded(i, |peers|) && Seated() && Now().Sound() && interests == TokensBelow(global, myToken)
      requires Watching(pollfds, 2 + |peers|, next, sent, global, myToken)
      requires Served(pollfds, 2 + |peers|, |next|, -1, sent, global, myToken)
      requires i < |peers| == |was| == |had| && !peers[i].doing.Idle? && Tracked(had, asks, was)
      requires started == had[i := Start(peers[i], |asks|)] && peers == was[i := peers[i]]
      modifies this`happened, this`newCount, this`stuck, this`peers, this`blocked, this`flight, this`world, this`answers
      modifies this`asks
      modifies this`pollfds
      ensures |peers| == |old(peers)| && (ok ==> Valid()) && (!ok ==> AnyStuck(peers, answers))
      ensures (Now(), ok) == old(Now()).Continued(i)
      ensures Used(old(asks), old(answers), asks, answers) && Tracked(started, asks, peers)
    {
      hide *;
      SeatedParts();
      ghost var ps, fs, s := peers, pollfds, Now();
      ok := ContinueTransfer(i, |peers|);
      assert ps[i := peers[i]] == was[i := peers[i]];
      UsedParts(s.asks, s.answers, asks, answers);
      SameTokens(was, ps, i);
      TrackedStarted(had, s.asks, asks, was, peers, i, ps[i]);
      if !ok {
        OneStuck(peers, answers, i);
      } else {
        StillSeated(ps, fs, i);
        WatchingSuffix(fs, pollfds, 2 + |peers|, next, sent, global, myToken);
        ValidAgain();
      }
    }

    method Begin(i: nat, doing: Doing, len: nat)
      requires Minded(-1, |peers|) && Seated() && Now().Sound() && i < |peers| && !doing.Idle?
      requires 2 + i < |pollfds| && pollfds[2 + i].fd > 1
      modifies this`peers, this`pollfds, this`started
      ensures Minded(i, |peers|) && Seated() && Now().Sound() && i < |old(started)|
      ensures peers == old(peers)[i := old(peers)[i].(doing := doing, remaining := len)]
      ensures started == old(started)[i := Start(old(peers)[i].(doing := doing, remaining := len), |old(asks)|)]
      ensures |pollfds| == |old(pollfds)| && pollfds[2 + |peers|..] == old(pollfds)[2 + |peers|..]
      ensures pollfds == old(pollfds)[2 + i := old(pollfds)[2 + i].(fd := -old(pollfds)[2 + i].fd)]
    {
      hide *;
      SoundParts();
      Mask(i, doing, len);
      started := started[i := Start(peers[i], |asks|)];
      SoundAgain();
    }

    method Mask(i: nat, doing: Doing, len: nat)
      requires Minded(-1, |peers|) && Seated() && i < |peers| && !doing.Idle? && 2 + i < |pollfds|
      requires pollfds[2 + i].fd > 1
      modifies this`peers, this`pollfds
      ensures Minded(i, |peers|) && Seated()
      ensures peers == old(peers)[i := old(peers)[i].(doing := doing, remaining := len)]
      ensures |pollfds| == |old(pollfds)| && pollfds[2 + |peers|..] == old(pollfds)[2 + |peers|..]
      ensures pollfds == old(pollfds)[2 + i := old(pollfds)[2 + i].(fd := -old(pollfds)[2 + i].fd)]
    {
      peers := peers[i := peers[i].(doing := doing, remaining := len)];
      pollfds := pollfds[2 + i := pollfds[2 + i].(fd := -pollfds[2 + i].fd)];
      assert Tokens(peers) == Tokens(old(peers));
    }

    /** A new watcher, which is sent all tokens at once. What poll is to have reported of it is not set. */
    method AcceptWatcher(fd: int, revents: Revents)
      requires Valid() && fd > 1 && Unwatched(pollfds, 2 + |peers|, |next|, fd)
      modifies this`writes, this`sent, this`next, this`pollfds
      ensures Valid()
      ensures old(Now()).Sound() && Now() == old(Now()).Watched(fd, revents)
      ensures pollfds == old(pollfds) || exists events ::
                pollfds == old(pollfds) + [PollFd(fd, events, revents)] &&
                Complete(PollFd(fd, events, revents), sent, global, myToken)
      ensures Fine(old(writes)) ==> pollfds == old(pollfds) + [PollFd(fd, Off, revents)] && Fine(writes)
    {
      hide *;
      ValidParts();
      SeatedParts();
      var base, n := 2 + |peers|, |next|;
      WatchingSize(pollfds, base, next, sent, global, myToken);
      ghost var fs := pollfds;
      WatchedIs(Now(), fd, revents);
      AddWatcher(base, fd, revents);
      var closed := UpdateWatcher(base, n, n);
      WatchingSize(pollfds, base, next, sent, global, myToken);
      if closed {
        SwapRemoveLast(fs, PollFd(fd, Off, revents));
      } else {
        ServedOneMore(pollfds, base, n, n, sent, global, myToken);
        assert pollfds == fs + [PollFd(fd, pollfds[base + n].events, revents)];
      }
      SeatsKept(fs);
      ValidAgain();
    }

    method AddWatcher(base: nat, fd: int, revents: Revents)
      requires Watching(pollfds, base, next, sent, global, myToken)
      requires Served(pollfds, base, |next|, -1, sent, global, myToken)
      requires fd > 1 && Unwatched(pollfds, base, |next|, fd) && Now().Sound() && base == 2 + |peers|
      modifies this`sent, this`next, this`pollfds
      ensures Watching(pollfds, base, next, sent, global, myToken) && Now().Sound()
      ensures Served(pollfds, base, |old(next)|, |old(next)|, sent, global, myToken)
      ensures next == old(next) + [0] && sent == old(sent)[fd := []]
      ensures pollfds == old(pollfds) + [PollFd(fd, Off, revents)] && |old(pollfds)| == base + |old(next)|
      ensures pollfds[..base] == old(pollfds)[..base]
    {
      hide *;
      SoundParts();
      WatchingAdded(pollfds, base, next, sent, global, myToken, PollFd(fd, Off, revents));
      next := next + [0];
      pollfds := pollfds + [PollFd(fd, Off, revents)];
      sent := sent[fd := []];
      ServedBut(pollfds, base, |next| - 1, |next| - 1, sent, global, myToken);
      SoundAgain();
    }

    lemma SeatsKept(fs: seq<PollFd>)
      requires Tokens(peers) == TokensBelow(global, myToken) && global <= newCount
      requires 2 + |peers| <= |fs| && 2 + |peers| <= |pollfds| && pollfds[..2 + |peers|] == fs[..2 + |peers|]
      requires forall i {:trigger peers[i]} :: 0 <= i < |peers| ==> SeatRight(peers[i], fs[2 + i])
      ensures Seated()
    {
      forall i | 0 <= i < |peers| ensures SeatRight(peers[i], pollfds[2 + i]) {
        assert pollfds[2 + i] == pollfds[..2 + |peers|][2 + i] == fs[..2 + |peers|][2 + i];
      }
    }

    /** A watcher that hung up is closed. */
    method Hangup(base: nat, i: nat, ghost was: seq<PollFd>, ghost fine: bool)
      requires Watching(pollfds, base, next, sent, global, myToken) && i < |next|
      requires Served(pollfds, base, |next|, -1, sent, global, myToken)
      requires base + i < |pollfds| && pollfds[base + i].revents.HungUp? && QuietKept(was, pollfds, base)
      requires AllDealt(pollfds, base, i, fine)
      requires Now().Sound() && base == 2 + |peers|
      modifies this`next, this`pollfds
      ensures base + i < |old(pollfds)| && Now().Sound()
      ensures Now() == old(Now()).(next := SwapRemove(old(next), i), pollfds := SwapRemove(old(pollfds), base + i))
      ensures Watching(pollfds, base, next, sent, global, myToken)
      ensures Served(pollfds, base, |next|, -1, sent, global, myToken)
      ensures |next| == |old(next)| - 1 && |pollfds| == base + |next| && pollfds[..base] == old(pollfds)[..base]
      ensures QuietKept(was, pollfds, base) && AllDealt(pollfds, base, i, fine)
    {
      hide *;
      WatchingSize(pollfds, base, next, sent, global, myToken);
      ServedBut(pollfds, base, |next|, i, sent, global, myToken);
      WatchingClosed(pollfds, base, next, sent, global, myToken, i, |next|);
      QuietRemoved(was, pollfds, base, i);
      SwapRemovedParts(pollfds, base + i);
      AllDealtStill(pollfds, SwapRemove(pollfds, base + i), base, i, fine);
      SwapRemovedParts(next, i);
      SoundParts();
      CloseWatcher(base, i);
      SoundAgain();
    }

    /** A watcher that can be written to again is sent what is missing. */
    method Resume(base: nat, i: nat, ghost was: seq<PollFd>, ghost fine: bool) returns (closed: bool)
      requires Watching(pollfds, base, next, sent, global, myToken) && i < |next|
      requires Served(pollfds, base, |next|, -1, sent, global, myToken)
      requires fine ==> Fine(writes)
      requires base + i < |pollfds| && pollfds[base + i].revents.Writable? && QuietKept(was, pollfds, base)
      requires AllDealt(pollfds, base, i, fine)
      requires Now().Sound() && base == 2 + |peers|
      modifies this`writes, this`sent, this`next, this`pollfds
      ensures Watching(pollfds, base, next, sent, global, myToken)
      ensures Served(pollfds, base, |next|, -1, sent, global, myToken)
      ensures (Now(), closed) == old(Now()).WatcherUpdated(i) && Now().Sound()
      ensures |next| == |old(next)| - (if closed then 1 else 0) && |pollfds| == base + |next|
      ensures pollfds[..base] == old(pollfds)[..base] && QuietKept(was, pollfds, base)
      ensures AllDealt(pollfds, base, i, fine)
      ensures !closed ==> base + i < |pollfds| && DealtWith(pollfds[base + i], fine)
      ensures fine ==> Fine(writes)
    {
      hide *;
      WatchingSize(pollfds, base, next, sent, global, myToken);
      ServedBut(pollfds, base, |next|, i, sent, global, myToken);
      ghost var fs, n := pollfds, |next|;
      closed := UpdateWatcher(base, i, |next|);
      WatchingSize(pollfds, base, next, sent, global, myToken);
      if closed {
        QuietRemoved(was, fs, base, i);
        SwapRemovedParts(fs, base + i);
      } else {
        QuietChanged(was, fs, base, i, pollfds[base + i]);
        assert pollfds == fs[base + i := pollfds[base + i]];
        ServedOneMore(pollfds, base, n, i, sent, global, myToken);
        DealtIs(pollfds[base + i], fine);
      }
      AllDealtStill(fs, pollfds, base, i, fine);
    }

    method ServeWatcher(base: nat, i: nat, ghost was: seq<PollFd>, ghost fine: bool) returns (closed: bool)
      requires Watching(pollfds, base, next, sent, global, myToken) && i < |next| && |pollfds| == base + |next|
      requires Served(pollfds, base, |next|, -1, sent, global, myToken) && Now().Sound() && base == 2 + |peers|
      requires !pollfds[base + i].revents.Readable? && (fine ==> Fine(writes))
      requires QuietKept(was, pollfds, base) && AllDealt(pollfds, base, i, fine)
      modifies this`writes, this`sent, this`next, this`pollfds
      ensures Watching(pollfds, base, next, sent, global, myToken)
      ensures Served(pollfds, base, |next|, -1, sent, global, myToken) && Now().Sound()
      ensures |next| == |old(next)| - (if closed then 1 else 0) && |pollfds| == base + |next|
      ensures pollfds[..base] == old(pollfds)[..base] && QuietKept(was, pollfds, base) && (fine ==> Fine(writes))
      ensures AllDealt(pollfds, base, if closed then i else i + 1, fine)
      ensures match old(pollfds)[base + i].revents
              case Writable => (Now(), closed) == old(Now()).WatcherUpdated(i)
              case HungUp =>
                && closed
                && Now() == old(Now()).(next := SwapRemove(old(next), i), pollfds := SwapRemove(old(pollfds), base + i))
              case _ => !closed && Now() == old(Now())
    {
      hide *;
      closed := false;
      if pollfds[base + i].revents.HungUp? {
        Hangup(base, i, was, fine);
        closed := true;
      } else if pollfds[base + i].revents.Writable? {
        closed := Resume(base, i, was, fine);
      } else {
        DealtIs(pollfds[base + i], fine);
      }
      if !closed {
        AllDealtMore(pollfds, base, i, fine);
      }
    }

    /** The watchers that poll reported: those that hung up are closed, those that can be written to are sent what
        is missing. Nobody is skipped when another one takes the place of one that goes. */
    method ServeWatchers() returns (ok: bool)
      requires Valid()
      modifies this`writes, this`sent, this`next, this`pollfds
      ensures Valid()
      ensures old(Now()).Sound() && (Now(), ok) == old(Now()).WatchersServed(0)
      ensures ok ==> forall f :: f in pollfds[2 + |peers|..] ==> DealtWith(f, Fine(old(writes)))
      ensures !ok ==> Misreported(pollfds, |peers|)
      ensures forall f :: f in old(pollfds)[2 + |peers|..] && f.revents.Nothing? ==> f in pollfds[2 + |peers|..]
    {
      hide *;
      ValidParts();
      SeatedParts();
      WatchingSize(pollfds, 2 + |peers|, next, sent, global, myToken);
      ghost var fine, fs := Fine(writes), pollfds;
      ok := ServeEach(2 + |peers|, fine);
      ServeEnd(fs, pollfds, 2 + |peers|, |next|, fine);
      SeatsKept(fs);
      ValidAgain();
    }

    method ServeEach(base: nat, ghost fine: bool) returns (ok: bool)
      requires Watching(pollfds, base, next, sent, global, myToken)
      requires Served(pollfds, base, |next|, -1, sent, global, myToken)
      requires |pollfds| == base + |next| && Now().Sound() && base == 2 + |peers| && (fine ==> Fine(writes))
      modifies this`writes, this`sent, this`next, this`pollfds
      ensures Watching(pollfds, base, next, sent, global, myToken)
      ensures Served(pollfds, base, |next|, -1, sent, global, myToken)
      ensures |pollfds| == base + |next| && pollfds[..base] == old(pollfds)[..base]
      ensures QuietKept(old(pollfds), pollfds, base)
      ensures Now().Sound() && (Now(), ok) == old(Now()).WatchersServed(0)
      ensures ok ==> AllDealt(pollfds, base, |next|, fine)
      ensures !ok ==> Misreported(pollfds, |peers|)
    {
      hide *;
      ghost var s, fs := Now(), pollfds;
      ok := true;
      var i := 0;
      ServeStart(pollfds, base, fine);
      while ok && i < |next|
        invariant i <= |next| && |pollfds| == base + |next|
        invariant Watching(pollfds, base, next, sent, global, myToken)
        invariant Served(pollfds, base, |next|, -1, sent, global, myToken) && pollfds[..base] == fs[..base]
        invariant AllDealt(pollfds, base, i, fine) && QuietKept(fs, pollfds, base) && (fine ==> Fine(writes))
        invariant !ok ==> i < |next| && pollfds[base + i].revents.Readable?
        invariant Now().Sound() && s.WatchersServed(0) == if ok then Now().WatchersServed(i) else (Now(), false)
        decreases |next| - i, ok
      {
        WatchersServedIs(Now(), i);
        if pollfds[base + i].revents.Readable? {
          ok := false;
        } else {
          var closed := ServeWatcher(base, i, fs, fine);
          if !closed {
            i := i + 1;
          }
        }
      }
      if ok {
        WatchersServedIs(Now(), i);
      } else {
        MisreportedAt(pollfds, |peers|, base + i);
      }
    }

    constructor (my: nat, world: seq<seq<Happening>>, answers: seq<nat>, writes: seq<WriteResult>)
      ensures Valid() && peers == [] && pollfds == [PollFd(0, In, Nothing), PollFd(0, In, Nothing)]
      ensures Now() == State(my, false, 0, false, [], {}, [], world, answers, writes, [], 0, [], map[], pollfds, [], [])
    {
      myToken := my;
      happened, newCount, stuck, peers := false, 0, false, [];
      blocked, flight := {}, [];
      this.world, this.answers, this.writes := world, answers, writes;
      global, next, sent, interests, started, asks := 0, [], map[], [], [], [];
      pollfds := [PollFd(0, In, Nothing), PollFd(0, In, Nothing)];
    }

    /** A transfer that can be asked for. */
    predicate CanStart(i: nat, doing: Doing)
      reads this`peers, this`pollfds
    {
      i < |peers| && peers[i].doing.Idle? && !doing.Idle? && 2 + i < |pollfds| && pollfds[2 + i].fd > 1
    }

    /** One of the things that poll reports; what it cannot report of the state as it is, is passed over. */
    method Serve(e: Event) returns (ok: bool)
      requires Valid()
      modifies this
      ensures ok ==> Valid()
      ensures !ok ==> AnyStuck(peers, answers) || Misreported(pollfds, |peers|)
      ensures old(Now()).Sound() && (Now(), ok) == old(Now()).Served(e)
      ensures Used(old(asks), old(answers), asks, answers)
      ensures Tracked(started, asks, peers) && OthersKept(e, old(peers), old(started), started)
      ensures e.Transfer? && old(CanStart(e.i, e.doing)) ==>
                e.i < |old(started)| &&
                started == old(started)[e.i :=
                  Start(old(peers)[e.i].(doing := e.doing, remaining := e.len), |old(asks)|)]
      ensures e.Connect? && e.fd > 1 ==>
                forall i {:trigger old(peers)[i]} ::
                  0 <= i < |old(peers)| && old(peers)[i].token == e.token && 2 + i < |old(pollfds)|
                  && old(pollfds)[2 + i].fd == -1 ==>
                  && peers == old(peers)[i := old(peers)[i].(inward := e.inward, outward := e.outward)]
                  && pollfds == old(pollfds)[2 + i := old(pollfds)[2 + i].(fd := e.fd)]
      ensures e.Watch? && e.fd > 1 && old(Unwatched(pollfds, 2 + |peers|, |next|, e.fd)) && Fine(old(writes)) ==>
                pollfds == old(pollfds) + [PollFd(e.fd, Off, e.revents)]
      ensures e.Leave? && e.i < |old(peers)| && old(peers)[e.i].doing.Idle? && 2 + e.i < |old(pollfds)|
              && old(pollfds)[2 + e.i].fd > 1 ==>
                pollfds == old(pollfds)[2 + e.i := old(pollfds)[2 + e.i].(fd := -1)]
      ensures e.Watchers? && ok ==> forall f :: f in pollfds[2 + |peers|..] ==> DealtWith(f, Fine(old(writes)))
      ensures e.Watchers? ==>
                forall j :: 2 + |peers| <= j < |old(pollfds)| && (j < |e.reports| ==> e.reports[j].Nothing?) ==>
                  old(pollfds)[j].(revents := Nothing) in pollfds[2 + |peers|..]
    {
      hide *;
      ok := true;
      ValidParts();
      TrackedSize(started, asks, peers);
      UsedNone(asks, answers);
      OthersAll(e, peers, started);
      match e {
        case Poller =>
          ServedPoller(Now());
          Pass();
        case Connect(token, fd, inward, outward) => OnConnect(token, fd, inward, outward);
        case Watch(fd, revents) => OnWatch(fd, revents);
        case Leave(i) => OnLeave(i);
        case Transfer(i, doing, len) => ok := OnTransfer(i, doing, len);
        case Watchers(reports) => ok := OnReports(reports);
      }
      if ok {
        ValidParts();
      }
    }

    method OnConnect(token: nat, fd: int, inward: Channel, outward: Channel)
      requires Valid()
      modifies this`peers, this`pollfds, this`started
      ensures Valid()
      ensures old(Now()).Sound() && Now() == old(Now()).Served(Connect(token, fd, inward, outward)).0
      ensures old(Now()).Served(Connect(token, fd, inward, outward)).1
      ensures OthersKept(Connect(token, fd, inward, outward), old(peers), old(started), started)
      ensures fd > 1 ==>
                forall i {:trigger old(peers)[i]} ::
                  0 <= i < |old(peers)| && old(peers)[i].token == token && 2 + i < |old(pollfds)|
                  && old(pollfds)[2 + i].fd == -1 ==>
                  && peers == old(peers)[i := old(peers)[i].(inward := inward, outward := outward)]
                  && pollfds == old(pollfds)[2 + i := old(pollfds)[2 + i].(fd := fd)]
    {
      hide *;
      ValidParts();
      TrackedSize(started, asks, peers);
      ServedConnect(Now(), token, fd, inward, outward);
      if fd > 1 {
        var _ := AcceptPeer(token, fd, inward, outward);
      }
      OthersConnect(old(peers), old(started), started, token, fd, inward, outward);
    }

    method OnWatch(fd: int, revents: Revents)
      requires Valid()
      modifies this`writes, this`sent, this`next, this`pollfds
      ensures Valid()
      ensures old(Now()).Sound() && Now() == old(Now()).Served(Watch(fd, revents)).0
      ensures old(Now()).Served(Watch(fd, revents)).1
      ensures fd > 1 && old(Unwatched(pollfds, 2 + |peers|, |next|, fd)) && Fine(old(writes)) ==>
                pollfds == old(pollfds) + [PollFd(fd, Off, revents)]
    {
      hide *;
      ValidParts();
      ServedWatch(Now(), fd, revents);
      if fd > 1 && Unwatched(pollfds, 2 + |peers|, |next|, fd) {
        AcceptWatcher(fd, revents);
      }
    }

    /** OPERATION_QUIT, with what the server is told of it. */
    method OnLeave(i: nat)
      requires Valid()
      modifies this`happened, this`newCount, this`stuck, this`peers, this`blocked, this`flight, this`world
      modifies this`pollfds, this`started
      ensures Valid()
      ensures i < |old(peers)| && old(peers)[i].doing.Idle? && 2 + i < |old(pollfds)| && old(pollfds)[2 + i].fd > 1 ==>
                pollfds == old(pollfds)[2 + i := old(pollfds)[2 + i].(fd := -1)]
      ensures old(Now()).Sound() && Now() == old(Now()).Served(Leave(i)).0 && old(Now()).Served(Leave(i)).1
      ensures OthersKept(Leave(i), old(peers), old(started), started)
    {
      hide *;
      ValidParts();
      SeatedParts();
      TrackedSize(started, asks, peers);
      ServedLeave(Now(), i);
      if i < |peers| && peers[i].doing.Idle? && pollfds[2 + i].fd > 1 {
        Quit(i);
        Pass();
      }
      OthersLeave(old(peers), old(started), started, i);
    }

    method OnTransfer(i: nat, doing: Doing, len: nat) returns (ok: bool)
      requires Valid()
      modifies this`happened, this`newCount, this`stuck, this`peers, this`blocked, this`flight, this`world, this`answers
      modifies this`asks
      modifies this`pollfds, this`started
      ensures ok ==> Valid()
      ensures !ok ==> AnyStuck(peers, answers)
      ensures old(Now()).Sound() && (Now(), ok) == old(Now()).Served(Transfer(i, doing, len))
      ensures Used(old(asks), old(answers), asks, answers) && Tracked(started, asks, peers)
      ensures OthersKept(Transfer(i, doing, len), old(peers), old(started), started)
      ensures old(CanStart(i, doing)) ==>
                && i < |old(started)|
                && started == old(started)[i := Start(old(peers)[i].(doing := doing, remaining := len), |old(asks)|)]
      ensures !old(CanStart(i, doing)) ==> started == old(started)
    {
      hide *;
      ok := true;
      ValidParts();
      SeatedParts();
      TrackedSize(started, asks, peers);
      UsedNone(asks, answers);
      CanStartIs(i, doing);
      ServedTransfer(Now(), i, doing, len);
      if i < |peers| && peers[i].doing.Idle? && !doing.Idle? && pollfds[2 + i].fd > 1 {
        ok := StartTransfer(i, doing, len);
      }
      OthersTransfer(old(peers), old(started), started, i, doing, len);
    }

    lemma CanStartIs(i: nat, doing: Doing)
      ensures CanStart(i, doing) <==>
              i < |peers| && peers[i].doing.Idle? && !doing.Idle? && 2 + i < |pollfds| && pollfds[2 + i].fd > 1
    {
    }

    method OnReports(reports: seq<Revents>) returns (ok: bool)
      requires Valid()
      modifies this`writes, this`sent, this`next, this`pollfds
      ensures Valid() && (!ok ==> Misreported(pollfds, |peers|))
      ensures old(Now()).Sound() && (Now(), ok) == old(Now()).Served(Watchers(reports))
      ensures forall j :: 2 + |peers| <= j < |old(pollfds)| && (j < |reports| ==> reports[j].Nothing?) ==>
                old(pollfds)[j].(revents := Nothing) in pollfds[2 + |peers|..]
      ensures ok ==> forall f :: f in pollfds[2 + |peers|..] ==> DealtWith(f, Fine(old(writes)))
    {
      hide *;
      ValidParts();
      ServedWatchers(Now(), reports);
      Report(reports);
      ghost var fine, fs := Fine(writes), pollfds;
      ReportedIs(fs, old(pollfds));
      ValidParts();
      SeatedParts();
      ok := ServeWatchers();
      ValidParts();
      SeatedParts();
      assert ok ==> forall f :: f in pollfds[2 + |peers|..] ==> DealtWith(f, fine);
      QuietStays(old(pollfds), reports, fs, pollfds, 2 + |peers|);
    }

    /** poll tells of every descriptor what it can. */
    method Report(revents: seq<Revents>)
      requires Valid()
      modifies this`pollfds
      ensures Valid() && Reported(pollfds, old(pollfds)) && Now() == old(Now()).Told(revents)
      ensures forall i :: 0 <= i < |pollfds| ==> pollfds[i].revents == if i < |revents| then revents[i] else Nothing
    {
      var fs := pollfds;
      pollfds :=
        seq(|fs|, i requires 0 <= i < |fs| => fs[i].(revents := if i < |revents| then revents[i] else Nothing));
      assert Reported(pollfds, fs);
      ReportedValid(fs);
    }

    lemma ReportedValid(fs: seq<PollFd>)
      requires Reported(pollfds, fs) && Minded(-1, |peers|) && 2 + |peers| <= |fs|
      requires Tokens(peers) == TokensBelow(global, myToken) == interests && global <= newCount
      requires Tracked(started, asks, peers)
      requires forall i {:trigger peers[i]} :: 0 <= i < |peers| ==> SeatRight(peers[i], fs[2 + i])
      requires Watching(fs, 2 + |peers|, next, sent, global, myToken)
      requires Served(fs, 2 + |peers|, |next|, -1, sent, global, myToken)
      ensures Valid()
    {
      hide Watching, Served, Minded;
      WatchingReported(fs, pollfds, 2 + |peers|, next, sent, global, myToken);
      forall i | 0 <= i < |peers| ensures SeatRight(peers[i], pollfds[2 + i]) {
        assert pollfds[2 + i] == fs[2 + i].(revents := pollfds[2 + i].revents);
      }
    }

    /** Whatever poll reports, and whatever happens at the server: all of it is dealt with, the daemon never blocks
        with a transfer that could go on, and every transfer has moved just what is not remaining of it. The only ways
        to stop before are that a transfer is stuck, or that poll reports of a watcher what nobody asked for. */
    method Run(events: seq<seq<Event>>) returns (ok: bool)
      requires Valid()
      modifies this
      ensures old(Now()).Sound() && (Now(), ok) == old(Now()).Ran(events)
      ensures Used(old(asks), old(answers), asks, answers)
      ensures Tracked(started, asks, peers)
      ensures ok ==> Valid() && AtPoll()
      ensures !ok ==> AnyStuck(peers, answers) || Misreported(pollfds, |peers|)
    {
      hide *;
      ghost var s := Now();
      ok := Settle();
      RanIs(s, events);
      var i := 0;
      while ok && i < |events|
        invariant i <= |events| && Tracked(started, asks, peers)
        invariant ok ==> Valid() && AtPoll() && Now().Sound()
        invariant !ok ==> AnyStuck(peers, answers) || Misreported(pollfds, |peers|)
        invariant Used(s.asks, s.answers, asks, answers)
        invariant s.Ran(events) == if ok then Now().Polled(events, i) else (Now(), false)
        decreases |events| - i, ok
      {
        ghost var u := Now();
        PolledIs(u, events, i);
        ok := ServeAll(events[i]);
        UsedOn(s.asks, s.answers, u.asks, u.answers, asks, answers);
        if ok {
          ghost var v := Now();
          ok := Settle();
          UsedOn(s.asks, s.answers, v.asks, v.answers, asks, answers);
          if ok {
            ValidParts();
          }
        }
        i := i + 1;
      }
      if ok {
        PolledIs(Now(), events, i);
      }
    }

    /** All that one call of poll reports. */
    method ServeAll(es: seq<Event>) returns (ok: bool)
      requires Valid()
      modifies this
      ensures old(Now()).Sound() && (Now(), ok) == old(Now()).AllServed(es, 0)
      ensures Used(old(asks), old(answers), asks, answers)
      ensures Tracked(started, asks, peers)
      ensures ok ==> Valid()
      ensures !ok ==> AnyStuck(peers, answers) || Misreported(pollfds, |peers|)
    {
      hide *;
      ghost var s := Now();
      ValidParts();
      UsedNone(asks, answers);
      ok := true;
      var j := 0;
      while ok && j < |es|
        invariant j <= |es| && Tracked(started, asks, peers)
        invariant ok ==> Valid() && Now().Sound()
        invariant !ok ==> AnyStuck(peers, answers) || Misreported(pollfds, |peers|)
        invariant Used(s.asks, s.answers, asks, answers)
        invariant s.AllServed(es, 0) == if ok then Now().AllServed(es, j) else (Now(), false)
        decreases |es| - j, ok
      {
        ghost var u := Now();
        AllServedIs(u, es, j);
        ok := Serve(es[j]);
        UsedOn(s.asks, s.answers, u.asks, u.answers, asks, answers);
        if ok {
          ValidParts();
        }
        j := j + 1;
      }
      if ok {
        AllServedIs(Now(), es, j);
      }
    }
  }

  /** Poll has told of a watcher that there is something to read, which nobody has asked for. */
  ghost predicate Misreported(fs: seq<PollFd>, n: nat)
  {
    exists j {:trigger fs[j]} :: 2 + n <= j < |fs| && fs[j].revents.Readable?
  }

  lemma MisreportedAt(fs: seq<PollFd>, n: nat, j: nat)
    requires 2 + n <= j < |fs| && fs[j].revents.Readable?
    ensures Misreported(fs, n)
  {
  }

  /** The daemon waits for ever for bytes of this peer's transfer: the server answers no more, or the side that is to
      give them has not got enough. */
  ghost predicate Stuck(p: Peer, answers: seq<nat>)
  {
    !p.doing.Idle? && p.remaining > 0 && (answers == [] || |p.Source()| < p.remaining)
  }

  lemma StuckIs(p: Peer, answers: seq<nat>)
    requires !p.doing.Idle? && p.remaining > 0 && (answers == [] || |p.Source()| < p.remaining)
    ensures Stuck(p, answers)
  {
  }

  lemma StuckParts(p: Peer, answers: seq<nat>)
    requires Stuck(p, answers)
    ensures !p.doing.Idle? && p.remaining > 0
  {
  }

  /** Some transfer is stuck. */
  ghost predicate AnyStuck(peers: seq<Peer>, answers: seq<nat>)
  {
    exists i {:trigger peers[i]} :: 0 <= i < |peers| && Stuck(peers[i], answers)
  }

  lemma OneStuck(peers: seq<Peer>, answers: seq<nat>, i: nat)
    requires i < |peers| && Stuck(peers[i], answers)
    ensures AnyStuck(peers, answers)
  {
  }

  /** A peer's transfer has moved so many bytes. */
  ghost predicate Went(p: Peer, q: Peer, k: nat)
  {
    k <= p.remaining && k <= |p.Source()| && q == p.Progressed(k).(unblocked := q.unblocked)
  }

  /** A transfer has moved what is not remaining, in order, and nothing else; when nothing remains it is over. */
  ghost predicate Finished(p: Peer, q: Peer)
  {
    && q.remaining <= p.remaining && p.remaining - q.remaining <= |p.Source()|
    && q == p.Progressed(p.remaining - q.remaining).(unblocked := q.unblocked,
                                                     doing := if q.remaining == 0 then Idle else p.doing)
  }

  /** Since it was asked for, a transfer has moved what is not remaining of it, and that is accounted for by the
      questions about it since then and their answers. */
  ghost predicate TrackedAt(p: Start, q: Peer, asks: seq<Ask>)
  {
    && p.since <= |asks| && Finished(p.peer, q) && (p.peer.doing.Idle? ==> p.peer.remaining == 0)
    && Accounts(About(asks[p.since..], p.peer.token), p.peer, q.remaining)
  }

  ghost predicate Tracked(started: seq<Start>, asks: seq<Ask>, peers: seq<Peer>)
  {
    |started| == |peers| && forall i {:trigger peers[i]} :: 0 <= i < |peers| ==> TrackedAt(started[i], peers[i], asks)
  }

  /** However often a transfer was parked: while it goes on, the bytes moved are the first of those there were when it
      was asked for, in order, as many as are not remaining; when it is over they are all that were asked for. They are
      as many as were moved on the server's answers about it. */
  lemma WholeTransfer(start: Start, q: Peer, asks: seq<Ask>)
    requires TrackedAt(start, q, asks) && !start.peer.doing.Idle?
    ensures var p := start.peer;
            && q.doing == (if q.remaining == 0 then Idle else p.doing) && q.remaining <= p.remaining
            && p.remaining - q.remaining == Total(About(asks[start.since..], p.token))
    ensures start.peer.doing.Reading? ==>
              var p := start.peer;
              var n := p.remaining - q.remaining;
              && n <= |p.inward.source| && q.inward.sink == p.inward.sink + p.inward.source[..n]
              && q.inward.source == p.inward.source[n..] && q.outward == p.outward
    ensures start.peer.doing.Writing? ==>
              var p := start.peer;
              var n := p.remaining - q.remaining;
              && n <= |p.outward.source| && q.outward.sink == p.outward.sink + p.outward.source[..n]
              && q.outward.source == p.outward.source[n..] && q.inward == p.inward
  {
    AccountsTotal(About(asks[start.since..], start.peer.token), start.peer, q.remaining);
  }

  /** Questions about another peer do not matter to this one. */
  lemma TrackedBeside(p: Start, q: Peer, asks: seq<Ask>, asks': seq<Ask>, o: Peer, left: nat, unblocked: bool)
    requires TrackedAt(p, q, asks) && |asks| <= |asks'| && asks'[..|asks|] == asks
    requires Accounts(asks'[|asks|..], o, left) && o.token != q.token
    ensures TrackedAt(p, q.(unblocked := unblocked), asks')
  {
    FinishedStill(p.peer, q, unblocked);
    FinishedToken(p.peer, q);
    hide Finished, Accounts, About;
    assert asks'[p.since..] == asks[p.since..] + asks'[|asks|..];
    AboutJoin(asks[p.since..], asks'[|asks|..], q.token);
    AboutOne(asks'[|asks|..], o, left, q.token);
    assert About(asks[p.since..], q.token) + [] == About(asks[p.since..], q.token);
  }

  lemma FinishedToken(p: Peer, q: Peer)
    requires Finished(p, q)
    ensures q.token == p.token
  {
  }

  /** Questions about this one carry its account on. */
  lemma TrackedFurther(p: Start, q: Peer, r: Peer, asks: seq<Ask>, asks': seq<Ask>)
    requires TrackedAt(p, q, asks) && |asks| <= |asks'| && asks'[..|asks|] == asks
    requires Accounts(asks'[|asks|..], q, r.remaining) && Finished(q, r) && !q.doing.Idle?
    ensures TrackedAt(p, r, asks')
  {
    FinishedOn(p.peer, q, r);
    FinishedToken(p.peer, q);
    FinishedDoing(p.peer, q);
    hide Finished, Accounts, About;
    AccountsFurther(p, q, r, asks, asks');
  }

  lemma AccountsFurther(p: Start, q: Peer, r: Peer, asks: seq<Ask>, asks': seq<Ask>)
    requires p.since <= |asks| <= |asks'| && asks'[..|asks|] == asks && q.token == p.peer.token
    requires q.doing == p.peer.doing
    requires Accounts(About(asks[p.since..], q.token), p.peer, q.remaining) && Accounts(asks'[|asks|..], q, r.remaining)
    ensures Accounts(About(asks'[p.since..], q.token), p.peer, r.remaining)
  {
    hide *;
    assert asks'[p.since..] == asks[p.since..] + asks'[|asks|..];
    AboutJoin(asks[p.since..], asks'[|asks|..], q.token);
    AboutOne(asks'[|asks|..], q, r.remaining, q.token);
    AccountsJoin(About(asks[p.since..], q.token), asks'[|asks|..], p.peer, q, r.remaining);
  }

  lemma FinishedDoing(p: Peer, q: Peer)
    requires Finished(p, q) && !q.doing.Idle?
    ensures q.doing == p.doing
  {
  }

  lemma AccountsEmpty(asks: seq<Ask>, p: Peer)
    ensures asks[|asks|..] == [] && About(asks[|asks|..], p.token) == [] && Accounts([], p, p.remaining)
  {
  }

  lemma SameTokens(was: seq<Peer>, ps: seq<Peer>, i: nat)
    requires i < |was| == |ps| && ps == was[i := ps[i]] && Distinct(Tokens(ps))
    ensures forall j :: 0 <= j < |was| && j != i ==> was[j].token != ps[i].token
  {
    forall j | 0 <= j < |was| && j != i ensures was[j].token != ps[i].token {
      assert Tokens(ps)[j] == was[j].token && Tokens(ps)[i] == ps[i].token;
    }
  }

  /** A transfer that has gone on goes on from where it was. */
  lemma FinishedOn(p: Peer, q: Peer, r: Peer)
    requires Finished(p, q) && Finished(q, r) && !q.doing.Idle? && (p.doing.Idle? ==> p.remaining == 0)
    ensures Finished(p, r)
  {
    var n, k := p.remaining - q.remaining, q.remaining - r.remaining;
    var s := r.(doing := q.doing);
    FinishedWent(p, q);
    FinishedWent(q, r);
    hide *;
    WentOn(p, q, s, n, k);
    WentFinished(p, s, n + k);
  }

  lemma FinishedWent(p: Peer, q: Peer)
    requires Finished(p, q) && (p.doing.Idle? ==> p.remaining == 0)
    ensures q.remaining <= p.remaining && Went(p, q.(doing := p.doing), p.remaining - q.remaining)
    ensures q.doing == if q.remaining == 0 then Idle else p.doing
  {
  }

  /** The records of the transfers that the event is not about stay. */
  ghost predicate OthersKept(e: Event, ps: seq<Peer>, was: seq<Start>, started: seq<Start>)
  {
    && |ps| == |was| == |started|
    && forall j :: 0 <= j < |started| ==>
         || (e.Transfer? && e.i == j) || (e.Leave? && e.i == j) || (e.Connect? && e.token == ps[j].token)
         || started[j] == was[j]
  }

  lemma OthersAll(e: Event, ps: seq<Peer>, started: seq<Start>)
    requires |ps| == |started|
    ensures OthersKept(e, ps, started, started)
  {
  }

  lemma OthersConnect(ps: seq<Peer>, was: seq<Start>, started: seq<Start>, token: nat, fd: int, inward: Channel,
                      outward: Channel)
    requires |ps| == |was| == |started|
    requires forall j :: 0 <= j < |started| && ps[j].token != token ==> started[j] == was[j]
    ensures OthersKept(Connect(token, fd, inward, outward), ps, was, started)
  {
  }

  lemma OthersLeave(ps: seq<Peer>, was: seq<Start>, started: seq<Start>, i: nat)
    requires |ps| == |was| == |started| && forall j :: 0 <= j < |started| && j != i ==> started[j] == was[j]
    ensures OthersKept(Leave(i), ps, was, started)
  {
  }

  lemma OthersTransfer(ps: seq<Peer>, was: seq<Start>, started: seq<Start>, i: nat, doing: Doing, len: nat)
    requires |ps| == |was| == |started| && forall j :: 0 <= j < |started| && j != i ==> started[j] == was[j]
    ensures OthersKept(Transfer(i, doing, len), ps, was, started)
  {
  }

  lemma TrackedOn(started: seq<Start>, asks: seq<Ask>, asks': seq<Ask>, ps: seq<Peer>, qs: seq<Peer>, i: nat)
    requires Tracked(started, asks, ps) && i < |ps| == |qs| && !ps[i].doing.Idle? && Distinct(Tokens(ps))
    requires Finished(ps[i], qs[i]) && Same(qs, ps[i := qs[i]])
    requires |asks| <= |asks'| && asks'[..|asks|] == asks && Accounts(asks'[|asks|..], ps[i], qs[i].remaining)
    ensures Tracked(started, asks', qs)
  {
    hide Finished, Accounts, TrackedAt;
    SameTokens(ps, ps, i);
    forall j | 0 <= j < |qs| ensures TrackedAt(started[j], qs[j], asks') {
      assert TrackedAt(started[j], ps[j], asks);
      if j == i {
        TrackedFurther(started[i], ps[i], qs[i], asks, asks');
      } else {
        assert qs[j] == ps[j].(unblocked := qs[j].unblocked);
        TrackedBeside(started[j], ps[j], asks, asks', ps[i], qs[i].remaining, qs[j].unblocked);
      }
    }
  }

  lemma TrackedSize(started: seq<Start>, asks: seq<Ask>, peers: seq<Peer>)
    requires Tracked(started, asks, peers)
    ensures |started| == |peers|
  {
  }

  /** A transfer that has just been asked for. */
  lemma TrackedStarted(started: seq<Start>, asks: seq<Ask>, asks': seq<Ask>, ps: seq<Peer>, qs: seq<Peer>, i: nat,
                       p: Peer)
    requires Tracked(started, asks, ps) && i < |ps| == |qs| && !p.doing.Idle?
    requires forall j :: 0 <= j < |ps| && j != i ==> ps[j].token != p.token
    requires Finished(p, qs[i]) && Same(qs, ps[i := qs[i]])
    requires |asks| <= |asks'| && asks'[..|asks|] == asks && Accounts(asks'[|asks|..], p, qs[i].remaining)
    ensures Tracked(started[i := Start(p, |asks|)], asks', qs)
  {
    hide Finished, Accounts, About, TrackedAt;
    TrackedNew(asks, asks', p, qs[i]);
    forall j | 0 <= j < |qs| ensures TrackedAt(started[i := Start(p, |asks|)][j], qs[j], asks') {
      if j != i {
        assert TrackedAt(started[j], ps[j], asks) && qs[j] == ps[j].(unblocked := qs[j].unblocked);
        TrackedBeside(started[j], ps[j], asks, asks', p, qs[i].remaining, qs[j].unblocked);
      }
    }
  }

  lemma TrackedNew(asks: seq<Ask>, asks': seq<Ask>, p: Peer, q: Peer)
    requires |asks| <= |asks'| && Accounts(asks'[|asks|..], p, q.remaining) && Finished(p, q)
    requires p.doing.Idle? ==> p.remaining == 0
    ensures TrackedAt(Start(p, |asks|), q, asks')
  {
    AboutOne(asks'[|asks|..], p, q.remaining, p.token);
  }

  lemma FinishedStill(p: Peer, q: Peer, unblocked: bool)
    requires Finished(p, q)
    ensures Finished(p, q.(unblocked := unblocked))
  {
  }

  lemma TrackedSame(started: seq<Start>, asks: seq<Ask>, ps: seq<Peer>, qs: seq<Peer>)
    requires Tracked(started, asks, ps) && Same(qs, ps)
    ensures Tracked(started, asks, qs)
  {
    hide Finished, Accounts, About;
    forall j | 0 <= j < |qs| ensures TrackedAt(started[j], qs[j], asks) {
      assert TrackedAt(started[j], ps[j], asks) && qs[j] == ps[j].(unblocked := qs[j].unblocked);
      FinishedStill(started[j].peer, ps[j], qs[j].unblocked);
    }
  }

  lemma TrackedMore(started: seq<Start>, asks: seq<Ask>, ps: seq<Peer>, qs: seq<Peer>)
    requires Tracked(started, asks, ps) && ps <= qs
    requires forall i {:trigger qs[i]} :: |ps| <= i < |qs| ==> qs[i].doing.Idle? && qs[i].remaining == 0
    ensures Tracked(started + Starts(qs[|ps|..], |asks|), asks, qs)
  {
    hide Finished, Accounts, About, TrackedAt;
    var ss := started + Starts(qs[|ps|..], |asks|);
    forall j | 0 <= j < |qs| ensures TrackedAt(ss[j], qs[j], asks) {
      if j < |ps| {
        assert qs[j] == ps[j] && TrackedAt(started[j], ps[j], asks);
      } else {
        FinishedIdle(qs[j]);
        AccountsEmpty(asks, qs[j]);
        TrackedNew(asks, asks, qs[j], qs[j]);
      }
    }
  }

  lemma FinishedIdle(p: Peer)
    requires p.remaining == 0 && p.doing.Idle?
    ensures Finished(p, p)
  {
    assert p.outward.Moved(0) == p.outward;
  }

  /** A peer without a transfer has nothing remaining. */
  lemma TrackedSeat(started: seq<Start>, asks: seq<Ask>, ps: seq<Peer>, i: nat, p: Peer)
    requires Tracked(started, asks, ps) && i < |ps| && ps[i].doing.Idle?
    requires p == ps[i].(inward := p.inward, outward := p.outward)
    ensures Tracked(started[i := Start(p, |asks|)], asks, ps[i := p])
  {
    assert TrackedAt(started[i], ps[i], asks);
    FinishedIdle(p);
    AccountsEmpty(asks, p);
    TrackedNew(asks, asks, p, p);
  }

  lemma LeastIs(a: nat, b: nat)
    ensures Least(a, Least(255, b)) <= a && Least(a, Least(255, b)) <= b
    ensures b > 0 ==> (Least(a, Least(255, b)) == 0 <==> a == 0)
  {
  }

  /** The record of a question. */
  function AskOf(p: Peer, refused: bool, answer: nat, moved: nat): Ask
  {
    Ask(p.token, p.doing, p.remaining, |p.Source()|, refused, answer, moved)
  }

  lemma AskStill(p: Peer, unblocked: bool, refused: bool, answer: nat)
    ensures forall k :: AskOf(p.(unblocked := unblocked), refused, answer, k) == AskOf(p, refused, answer, k)
  {
  }

  lemma NoAnswer(refused: bool, asks: seq<Ask>, before: seq<nat>, after: seq<nat>, p: Peer)
    requires AnswerOf(None, refused, before, after)
    ensures AskedOnce(asks, before, asks, after, p, 0) && after == []
    ensures p.Progressed(0) == p
  {
    assert p.inward.Moved(0) == p.inward && p.outward.Moved(0) == p.outward;
  }

  lemma AskedThen(asks: seq<Ask>, before: seq<nat>, asks': seq<Ask>, after: seq<nat>, p: Peer, unblocked: bool,
                  refused: bool, answer: Option<nat>, k: nat)
    requires AnswerOf(answer, refused, before, after) && answer.Some?
    requires asks' == asks + [AskOf(p.(unblocked := unblocked), refused, answer.value, k)]
    requires k == var n := Least(answer.value, Least(255, p.remaining)); if |p.Source()| < n then 0 else n
    ensures AskedOnce(asks, before, asks', after, p, k) && |after| < |before|
    ensures asks' != asks && asks'[|asks|].answer == answer.value
  {
  }

  lemma SourceStill(p: Peer, unblocked: bool)
    ensures p.(unblocked := unblocked).Source() == p.Source()
  {
  }

  lemma ProgressedStill(p: Peer, unblocked: bool, k: nat)
    requires k <= p.remaining && k <= |p.Source()|
    ensures |p.(unblocked := unblocked).Source()| == |p.Source()|
    ensures p.(unblocked := unblocked).Progressed(k) == p.Progressed(k).(unblocked := unblocked)
  {
  }

  lemma WentStill(p: Peer, unblocked: bool)
    ensures Went(p, p.(unblocked := unblocked), 0)
  {
    assert p.inward.Moved(0) == p.inward && p.outward.Moved(0) == p.outward;
  }

  lemma WentIs(p: Peer, q: Peer, k: nat)
    requires Went(p, q, k)
    ensures k <= p.remaining && k <= |p.Source()| && q == p.Progressed(k).(unblocked := q.unblocked)
  {
  }

  lemma SameAt(peers: seq<Peer>, was: seq<Peer>, i: nat)
    requires Same(peers, was) && i < |was|
    ensures |peers| == |was| && peers[i] == was[i].(unblocked := peers[i].unblocked)
  {
  }

  lemma SameMarked(was: seq<Peer>, peers: seq<Peer>, i: nat)
    requires i < |was| && Same(peers, was[i := was[i].(unblocked := false)])
    ensures |peers| == |was| && Same(peers, was[i := peers[i]])
    ensures peers[i] == was[i].Progressed(0).(unblocked := peers[i].unblocked)
  {
    assert peers[i] == was[i].(unblocked := peers[i].unblocked);
    assert was[i].inward.Moved(0) == was[i].inward && was[i].outward.Moved(0) == was[i].outward;
    assert forall j :: 0 <= j < |was| ==>
             peers[j] == was[i := was[i].(unblocked := false)][j].(unblocked := peers[j].unblocked);
  }

  lemma SameOne(peers: seq<Peer>, was: seq<Peer>, i: nat)
    requires Same(peers, was) && i < |was|
    ensures |peers| == |was| && Same(peers, was[i := peers[i]])
  {
  }

  lemma SameProgressed(was: seq<Peer>, peers: seq<Peer>, i: nat, p: Peer)
    requires Same(peers, was) && i < |was|
    ensures |peers| == |was| && Same(peers[i := p], was[i := p])
  {
  }

  /** A peer that was marked, and then moved some bytes. */
  lemma RoundSame(was: seq<Peer>, ps: seq<Peer>, qs: seq<Peer>, i: nat, k: nat)
    requires i < |was| && Same(ps, was[i := was[i].(unblocked := false)]) && |qs| == |ps| && Same(qs, ps[i := qs[i]])
    requires k <= ps[i].remaining && k <= |ps[i].Source()|
    requires qs[i] == ps[i].Progressed(k).(unblocked := qs[i].unblocked)
    ensures |qs| == |was| && Same(qs, was[i := qs[i]])
    ensures k <= was[i].remaining && k <= |was[i].Source()| && |ps[i].Source()| == |was[i].Source()|
    ensures ps[i].remaining == was[i].remaining
    ensures qs[i] == was[i].Progressed(k).(unblocked := qs[i].unblocked)
  {
    assert ps[i] == was[i].(unblocked := ps[i].unblocked);
    forall j | 0 <= j < |qs| ensures qs[j] == was[i := qs[i]][j].(unblocked := qs[j].unblocked) {
      assert j != i ==> ps[j] == was[j].(unblocked := ps[j].unblocked);
    }
  }

  lemma RoundIs(s: State, i: nat)
    requires i < |s.peers|
    ensures |s.(peers := s.peers[i := s.peers[i].(unblocked := false)]).Asked(i).0.peers| == |s.peers|
    ensures s.Round(i) ==
            var (t, answer, refused) := s.(peers := s.peers[i := s.peers[i].(unblocked := false)]).Asked(i);
            if answer.None? then (t, Ended) else t.Moving(i, answer.value, refused)
  {
    hide State.Asked, State.Moving;
  }

  lemma MovingIs(s: State, i: nat, answer: nat, refused: bool)
    requires i < |s.peers|
    ensures |s.Passed().peers| == |s.peers|
    ensures s.Moving(i, answer, refused) ==
            if Least(answer, Least(255, s.peers[i].remaining)) == 0 then
              (s.(asks := s.asks + [AskOf(s.peers[i], refused, answer, 0)]),
               if s.peers[i].unblocked then Again else Parked)
            else
              var t := s.Passed();
              var n := Least(answer, Least(255, t.peers[i].remaining));
              if |t.peers[i].Source()| < n then (t.(asks := t.asks + [AskOf(t.peers[i], refused, answer, 0)]), Ended)
              else
                (t.(asks := t.asks + [AskOf(t.peers[i], refused, answer, n)],
                    peers := t.peers[i := t.peers[i].Progressed(n)]), Moved)
  {
  }

  lemma AnswerIs(answer: Option<nat>, refused: bool, before: seq<nat>, after: seq<nat>)
    requires if answer.None? then before == after == []
             else before != [] && after == before[1..] && answer.value == if refused then 0 else before[0]
    ensures AnswerOf(answer, refused, before, after)
  {
  }

  lemma AskedIs(s: State, i: nat)
    requires i < |s.peers|
    ensures |s.Passed().peers| == |s.peers| && s.Passed().answers == s.answers
    ensures s.Asked(i) ==
            var t := s.Passed();
            if s.answers == [] then (t, None, false)
            else
              var token, doing := t.peers[i].token, t.peers[i].doing;
              var refused := (token, doing) in t.blocked;
              var answer := if refused then 0 else s.answers[0];
              var u := t.(answers := s.answers[1..],
                          blocked := if answer == 0 then t.blocked + {(token, doing)} else t.blocked);
              (u.Passed(), Some(answer), refused)
  {
  }

  lemma NewPeersSkip(n: nat, token: nat, my: nat)
    requires token == my
    ensures NewPeers(n, token, my) == NewPeers(n, token + 1, my)
    ensures TokensBelow(token + 1, my) == TokensBelow(token, my)
  {
    assert TokensBelow(token + 1, my) == TokensBelow(token, my) + [];
  }

  lemma NewPeersNext(ps: seq<Peer>, n: nat, token: nat, my: nat)
    requires token != my && n > 0
    ensures ps + NewPeers(n, token, my) ==
            (ps + [Peer(token, Idle, false, 0, Channel([], []), Channel([], []))]) + NewPeers(n - 1, token + 1, my)
  {
  }

  lemma NewPeersNone(ps: seq<Peer>, token: nat, my: nat)
    ensures ps + NewPeers(0, token, my) == ps
  {
  }

  lemma TokensPush(ps: seq<Peer>, p: Peer, token: nat, my: nat)
    requires Tokens(ps) == TokensBelow(token, my) && token != my && p.token == token
    ensures Tokens(ps + [p]) == TokensBelow(token + 1, my)
    ensures |TokensBelow(token + 1, my)| == |TokensBelow(token, my)| + 1
  {
    assert Tokens(ps + [p]) == Tokens(ps) + [token];
  }

  lemma {:induction false} NewPeersIdle(n: nat, token: nat, my: nat)
    ensures |NewPeers(n, token, my)| == n
    ensures forall i :: 0 <= i < n ==> NewPeers(n, token, my)[i].doing.Idle? && NewPeers(n, token, my)[i].remaining == 0
  {
    if n > 0 {
      NewPeersIdle(n - 1, (if token == my then token + 1 else token) + 1, my);
    }
  }

  lemma MindingSelf(s: State, t: State, but: int)
    requires t == s.(world := t.world)
    ensures Minding(s, t, but)
  {
  }

  lemma MindingOn(s: State, t: State, u: State, but: int)
    requires Minding(s, t, but) && Minding(t, u, but) && Distinct(Tokens(t.peers))
    ensures Minding(s, u, but) && Tokens(u.peers) == Tokens(t.peers)
  {
    SameChain(s.peers, t.peers, u.peers);
    SameChain(t.peers, t.peers, u.peers);
    hide NotForgotten, Tokens;
    forall i | 0 <= i < |u.peers| && u.peers[i].unblocked && !s.peers[i].unblocked ensures u.happened {
      assert t.peers[i].unblocked || !t.peers[i].unblocked;
    }
  }

  lemma MindingParts(s: State, t: State, but: int)
    requires Minding(s, t, but)
    ensures Same(t.peers, s.peers) && s.newCount <= t.newCount
    ensures |t.peers| == |s.peers|
    ensures 0 <= but < |s.peers| && NotForgotten(s.peers[but], s.blocked, s.flight) ==>
              NotForgotten(t.peers[but], t.blocked, t.flight)
  {
  }

  lemma PassedIs(s: State)
    ensures s.Passed() == if s.world == [] then s else s.(world := s.world[1..]).AfterAll(s.world[0], 0)
  {
  }

  lemma AfterAllIs(s: State, hs: seq<Happening>, k: nat)
    requires k <= |hs|
    ensures s.AfterAll(hs, k) == if k == |hs| then s else s.After(hs[k]).AfterAll(hs, k + 1)
  {
  }

  lemma TokensSentIs(s: State, fd: int, wn: nat)
    requires fd in s.sent
    ensures fd in s.Written(fd, wn).0.sent
    ensures s.TokensSent(fd, wn) ==
            if wn >= s.global then (s, wn, Wrote)
            else if wn == s.my then s.TokensSent(fd, wn + 1)
            else
              var (t, w) := s.Written(fd, wn);
              if w.Wrote? then t.TokensSent(fd, wn + 1) else (t, wn, w)
  {
  }

  lemma RoundsIs(s: State, i: nat)
    requires i < |s.peers|
    ensures s.Rounds(i) ==
            if s.peers[i].remaining == 0 then (s, true)
            else
              var (t, o) := s.Round(i);
              if o.Parked? || o.Ended? then (t, o.Parked?) else t.Rounds(i)
  {
    hide State.Round;
  }

  lemma ContinuedIs(s: State, i: nat)
    requires s.Sound() && i < |s.peers|
    ensures 2 + i < |s.pollfds| && s.Continued(i).0.Sound()
    ensures s.Continued(i) ==
            var (t, ok) := s.Rounds(i);
            if !ok || t.peers[i].remaining > 0 then (t, ok)
            else
              (t.(peers := t.peers[i := t.peers[i].(doing := Idle)],
                  pollfds := s.pollfds[2 + i := s.pollfds[2 + i].(fd := -s.pollfds[2 + i].fd)]), true)
  {
    hide State.Rounds;
  }

  lemma AllContinuedIs(s: State, i: nat)
    requires s.Sound() && i <= |s.peers|
    ensures i < |s.peers| ==> s.Continued(i).0.Sound() && |s.Continued(i).0.peers| == |s.peers|
    ensures s.AllContinued(i) ==
            if i == |s.peers| then (s, true)
            else
              var (t, ok) := if !s.peers[i].doing.Idle? && s.peers[i].unblocked then s.Continued(i) else (s, true);
              if ok then t.AllContinued(i + 1) else (t, false)
    ensures s.AllContinued(i).0.Sound()
  {
    hide State.Continued;
  }

  lemma WatcherUpdatedIs(s: State, i: nat)
    requires s.Sound() && i < |s.next| && s.pollfds[s.Base() + i].fd in s.sent
    ensures s.Base() == 2 + |s.peers| && |s.pollfds| == 2 + |s.peers| + |s.next| && s.WatcherUpdated(i).0.Sound()
    ensures s.WatcherUpdated(i) ==
            var b := 2 + |s.peers|;
            var (t, wn, w) := s.TokensSent(s.pollfds[b + i].fd, s.next[i]);
            if w.Broken? then (t.(next := SwapRemove(s.next, i), pollfds := SwapRemove(s.pollfds, b + i)), true)
            else
              var events := if w.Wrote? then Off else Out;
              (t.(next := s.next[i := wn], pollfds := s.pollfds[b + i := s.pollfds[b + i].(events := events)]), false)
  {
    hide State.TokensSent, State.Written;
  }

  lemma WatchersUpdatedIs(s: State, i: nat)
    requires s.Sound() && i <= |s.next|
    ensures |s.pollfds| == 2 + |s.peers| + |s.next|
    ensures s.WatchersUpdated(i).Sound()
    ensures i < |s.next| ==>
              var (t, closed) := s.WatcherUpdated(i);
              t.Sound() && |t.next| == if closed then |s.next| - 1 else |s.next|
    ensures s.WatchersUpdated(i) ==
            if i == |s.next| then s
            else if !s.pollfds[2 + |s.peers| + i].events.Off? then s.WatchersUpdated(i + 1)
            else
              var (t, closed) := s.WatcherUpdated(i);
              t.WatchersUpdated(if closed then i else i + 1)
  {
    hide State.WatcherUpdated;
  }

  lemma WatchersServedIs(s: State, i: nat)
    requires s.Sound() && i <= |s.next|
    ensures |s.pollfds| == 2 + |s.peers| + |s.next|
    ensures s.WatchersServed(i).0.Sound()
    ensures i < |s.next| ==>
              var (t, closed) := s.WatcherUpdated(i);
              t.Sound() && |t.next| == if closed then |s.next| - 1 else |s.next|
    ensures i < |s.next| ==>
              var t := s.(next := SwapRemove(s.next, i), pollfds := SwapRemove(s.pollfds, 2 + |s.peers| + i));
              t.Sound() && |t.next| == |s.next| - 1
    ensures s.WatchersServed(i) ==
            if i == |s.next| then (s, true)
            else match s.pollfds[2 + |s.peers| + i].revents
              case Nothing => s.WatchersServed(i + 1)
              case Readable => (s, false)
              case HungUp =>
                s.(next := SwapRemove(s.next, i), pollfds := SwapRemove(s.pollfds, 2 + |s.peers| + i)).WatchersServed(i)
              case Writable =>
                var (t, closed) := s.WatcherUpdated(i);
                t.WatchersServed(if closed then i else i + 1)
  {
    hide State.WatcherUpdated;
  }

  lemma InterestsSetIs(s: State, i: nat)
    requires i <= |s.peers|
    ensures i < |s.peers| ==> |s.(interests := s.interests + [s.peers[i].token]).Passed().peers| == |s.peers|
    ensures s.InterestsSet(i) ==
            if i == |s.peers| then s
            else s.(interests := s.interests + [s.peers[i].token]).Passed().InterestsSet(i + 1)
  {
  }

  lemma JoinedIs(s: State, toAdd: nat, oldGlobal: nat)
    requires s.Sound()
    ensures |s.pollfds| == 2 + |s.peers| + |s.next|
    ensures s.Joined(toAdd, oldGlobal) ==
            var more := NewPeers(toAdd, oldGlobal, s.my);
            s.(peers := s.peers + more, started := s.started + Starts(more, |s.asks|),
               pollfds :=
                 s.pollfds[..2 + |s.peers|] + Vacant(toAdd) + s.pollfds[2 + |s.peers|..]).InterestsSet(|s.peers|)
  {
    hide State.InterestsSet;
  }

  lemma AdmittedIs(s: State, toAdd: nat, oldGlobal: nat)
    requires s.Sound()
    ensures s.Joined(toAdd, oldGlobal).Sound()
    ensures s.Admitted(toAdd, oldGlobal) == s.Joined(toAdd, oldGlobal).WatchersUpdated(0)
  {
    hide State.Joined, State.WatchersUpdated;
  }

  lemma AttendedIs(s: State)
    requires s.Sound()
    ensures s.Attended().0.Sound() && s.global <= s.newCount
    ensures var t := s.(happened := false, global := s.newCount);
            var n := s.newCount - s.global - if s.global <= s.my < s.newCount then 1 else 0;
            && t.Sound() && (n > 0 ==> t.Admitted(n, s.global).Sound())
            && s.Attended() == (if n > 0 then t.Admitted(n, s.global) else t).AllContinued(0)
  {
    hide State.Admitted, State.AllContinued;
  }

  lemma SettledIs(s: State)
    requires s.Sound()
    ensures s.Settled().0.Sound() && s.Attended().0.Sound()
    ensures s.Settled() ==
            if !s.happened then (s, true)
            else
              var (t, ok) := s.Attended();
              if ok then t.Settled() else (t, false)
  {
    hide State.Attended;
  }

  lemma ReseatedIs(s: State, i: nat, p: Peer, fd: int)
    requires s.Sound() && i < |s.peers|
    ensures i < |s.started| && 2 + i < |s.pollfds|
    ensures s.Reseated(i, p, fd) == s.(peers := s.peers[i := p], started := s.started[i := Start(p, |s.asks|)],
                                       pollfds := s.pollfds[2 + i := s.pollfds[2 + i].(fd := fd)])
    ensures s.Reseated(i, p, fd).Sound()
  {
  }

  lemma TransferStartedIs(s: State, i: nat, doing: Doing, len: nat)
    requires s.Sound() && i < |s.peers|
    ensures i < |s.started| && 2 + i < |s.pollfds|
    ensures var p := s.peers[i].(doing := doing, remaining := len);
            var t := s.(peers := s.peers[i := p], started := s.started[i := Start(p, |s.asks|)],
                        pollfds := s.pollfds[2 + i := s.pollfds[2 + i].(fd := -s.pollfds[2 + i].fd)]);
            t.Sound() && s.TransferStarted(i, doing, len) == t.Continued(i)
  {
    hide State.Continued;
  }

  lemma WatchedIs(s: State, fd: int, revents: Revents)
    requires s.Sound()
    ensures |s.pollfds| == 2 + |s.peers| + |s.next| && |s.started| == |s.peers| && s.global <= s.newCount
    ensures var t :=
              s.(next := s.next + [0], pollfds := s.pollfds + [PollFd(fd, Off, revents)], sent := s.sent[fd := []]);
            t.Sound() && s.Watched(fd, revents) == t.WatcherUpdated(|s.next|).0
  {
    hide State.WatcherUpdated;
  }

  lemma ConnectedIs(s: State, token: nat, fd: int, inward: Channel, outward: Channel)
    requires s.Sound()
    ensures |s.pollfds| == 2 + |s.peers| + |s.next|
    ensures var i := FindPeer(s.peers, token);
            s.Connected(token, fd, inward, outward) ==
            if i == |s.peers| || s.pollfds[2 + i].fd != -1 then s
            else s.Reseated(i, s.peers[i].(inward := inward, outward := outward), fd)
  {
  }

  lemma ServedPoller(s: State)
    requires s.Sound()
    ensures s.Served(Poller) == (s.Passed(), true)
  {
    hide State.Passed;
  }

  lemma ServedConnect(s: State, token: nat, fd: int, inward: Channel, outward: Channel)
    requires s.Sound()
    ensures s.Served(Connect(token, fd, inward, outward)) ==
            (if fd > 1 then s.Connected(token, fd, inward, outward) else s, true)
  {
    hide State.Connected;
  }

  lemma ServedWatch(s: State, fd: int, revents: Revents)
    requires s.Sound()
    ensures s.Served(Watch(fd, revents)) ==
            (if fd > 1 && Unwatched(s.pollfds, 2 + |s.peers|, |s.next|, fd) then s.Watched(fd, revents) else s, true)
  {
    hide State.Watched, Unwatched;
  }

  lemma ServedLeave(s: State, i: nat)
    requires s.Sound()
    ensures |s.pollfds| == 2 + |s.peers| + |s.next|
    ensures s.Served(Leave(i)) ==
            (if i < |s.peers| && s.peers[i].doing.Idle? && s.pollfds[2 + i].fd > 1
             then s.Reseated(i, s.peers[i], -1).Passed() else s, true)
  {
    hide State.Passed;
  }

  lemma ServedTransfer(s: State, i: nat, doing: Doing, len: nat)
    requires s.Sound()
    ensures |s.pollfds| == 2 + |s.peers| + |s.next|
    ensures s.Served(Transfer(i, doing, len)) ==
            if i < |s.peers| && s.peers[i].doing.Idle? && !doing.Idle? && s.pollfds[2 + i].fd > 1
            then s.TransferStarted(i, doing, len) else (s, true)
  {
    hide State.TransferStarted;
  }

  lemma ServedWatchers(s: State, reports: seq<Revents>)
    requires s.Sound()
    ensures s.Told(reports).Sound() && s.Served(Watchers(reports)) == s.Told(reports).WatchersServed(0)
  {
    hide State.WatchersServed;
  }

  lemma AllServedIs(s: State, es: seq<Event>, j: nat)
    requires s.Sound() && j <= |es|
    ensures j < |es| ==> s.Served(es[j]).0.Sound()
    ensures s.AllServed(es, j) ==
            if j == |es| then (s, true)
            else
              var (t, ok) := s.Served(es[j]);
              if ok then t.AllServed(es, j + 1) else (t, false)
  {
    hide State.Served;
  }

  lemma PolledIs(s: State, events: seq<seq<Event>>, i: nat)
    requires s.Sound() && i <= |events|
    ensures i < |events| ==> s.AllServed(events[i], 0).0.Sound() && s.AllServed(events[i], 0).0.Settled().0.Sound()
    ensures s.Polled(events, i) ==
            if i == |events| then (s, true)
            else
              var (t, ok) := s.AllServed(events[i], 0);
              var (u, fine) := if ok then t.Settled() else (t, false);
              if fine then u.Polled(events, i + 1) else (u, false)
  {
    hide State.AllServed, State.Settled;
  }

  lemma RanIs(s: State, events: seq<seq<Event>>)
    requires s.Sound()
    ensures s.Settled().0.Sound()
    ensures s.Ran(events) ==
            var (t, ok) := s.Settled();
            if ok then t.Polled(events, 0) else (t, false)
  {
    hide State.Polled, State.Settled;
  }

  lemma ReportedIs(fs: seq<PollFd>, was: seq<PollFd>)
    requires Reported(fs, was)
    ensures |fs| == |was| && forall i {:trigger fs[i]} :: 0 <= i < |fs| ==> fs[i] == was[i].(revents := fs[i].revents)
  {
  }

  lemma QuietStays(was: seq<PollFd>, reports: seq<Revents>, fs: seq<PollFd>, gs: seq<PollFd>, base: nat)
    requires |fs| == |was| && base <= |fs| && base <= |gs|
    requires forall i :: 0 <= i < |fs| ==> fs[i].revents == if i < |reports| then reports[i] else Nothing
    requires forall i {:trigger fs[i]} :: 0 <= i < |fs| ==> fs[i] == was[i].(revents := fs[i].revents)
    requires forall f :: f in fs[base..] && f.revents.Nothing? ==> f in gs[base..]
    ensures forall j ::
              base <= j < |was| && (j < |reports| ==> reports[j].Nothing?) ==> was[j].(revents := Nothing) in gs[base..]
  {
    forall j | base <= j < |was| && (j < |reports| ==> reports[j].Nothing?)
      ensures was[j].(revents := Nothing) in gs[base..]
    {
      assert fs[base..][j - base] == fs[j] == was[j].(revents := Nothing);
    }
  }

  lemma WentNowhere(p: Peer)
    ensures Went(p, p, 0)
  {
    assert p.inward.Moved(0) == p.inward && p.outward.Moved(0) == p.outward;
  }

  lemma WentParts(p: Peer, q: Peer, k: nat)
    requires Went(p, q, k)
    ensures q.doing == p.doing && q.token == p.token && k <= p.remaining && q.remaining == p.remaining - k
  {
  }

  lemma WentBy(p: Peer, q: Peer, k: nat)
    requires k <= p.remaining && k <= |p.Source()| && q == p.Progressed(k).(unblocked := q.unblocked)
    ensures Went(p, q, k)
  {
  }

  lemma WentFinished(p: Peer, q: Peer, n: nat)
    requires Went(p, q, n)
    ensures Finished(p, if q.remaining == 0 then q.(doing := Idle) else q)
  {
  }

  lemma MovedOn(c: Channel, n: nat, k: nat)
    requires n + k <= |c.source|
    ensures c.Moved(n).Moved(k) == c.Moved(n + k)
  {
    assert c.source[n..][k..] == c.source[n + k..];
    assert c.source[..n] + c.source[n..][..k] == c.source[..n + k];
  }

  lemma WentOn(p: Peer, q: Peer, r: Peer, n: nat, k: nat)
    requires Went(p, q, n) && Went(q, r, k) && !p.doing.Idle?
    ensures Went(p, r, n + k)
  {
    assert |q.Source()| == |p.Source()| - n;
    if p.doing.Reading? {
      MovedOn(p.inward, n, k);
    } else {
      MovedOn(p.outward, n, k);
    }
  }

  lemma SameOn(a: seq<Peer>, b: seq<Peer>, c: seq<Peer>, i: nat)
    requires |a| == |b| == |c| && i < |a| && Same(b, a[i := b[i]]) && Same(c, b[i := c[i]])
    requires b[i].token == a[i].token && c[i].token == b[i].token
    ensures Same(c, a[i := c[i]]) && Tokens(c) == Tokens(a)
  {
    forall j | 0 <= j < |c|
      ensures c[j] == a[i := c[i]][j].(unblocked := c[j].unblocked) && c[j].token == a[j].token
    {
      assert j != i ==> b[j] == a[j].(unblocked := b[j].unblocked);
    }
  }

  function Tokens(ps: seq<Peer>): (ts: seq<nat>)
    ensures |ts| == |ps| && forall i {:trigger ts[i]} {:trigger ps[i]} :: 0 <= i < |ps| ==> ts[i] == ps[i].token
  {
    seq(|ps|, i requires 0 <= i < |ps| => ps[i].token)
  }

  lemma TokensSize(ps: seq<Peer>)
    ensures |Tokens(ps)| == |ps|
  {
  }

  lemma TokenAt(ps: seq<Peer>, i: nat)
    requires i < |ps|
    ensures |Tokens(ps)| == |ps| && Tokens(ps)[i] == ps[i].token
  {
  }

  /** The first peers' tokens come first. */
  lemma TokensPart(ps: seq<Peer>, qs: seq<Peer>)
    requires ps <= qs
    ensures Tokens(ps) + Tokens(qs)[|ps|..] == Tokens(qs)
  {
    assert forall i :: 0 <= i < |ps| ==> qs[i] == ps[i];
  }

  lemma FindPeerOnly(ps: seq<Peer>, n: Notice)
    requires Distinct(Tokens(ps))
    ensures forall i {:trigger ps[i]} :: 0 <= i < |ps| && For(n, ps[i].token, ps[i].doing) ==>
              n.Ready? && i == FindPeer(ps, n.token)
  {
  }
}
