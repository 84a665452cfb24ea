/** What mcpd.c works on, and what each of its steps makes of it. */
module McpdState {
  import opened Basics

  datatype Doing = Idle | Reading | Writing

  /** What is still to be read on one side, and what was written on the other. */
  datatype Channel = Channel(source: seq<nat>, sink: seq<nat>)
  {
    function Moved(k: nat): Channel
      requires k <= |source|
    {
      Channel(source[k..], sink + source[..k])
    }
  }

  /** peer_data_t, with the two ways its bytes go. */
  datatype Peer = Peer(token: nat, doing: Doing, unblocked: bool, remaining: nat, inward: Channel, outward: Channel)
  {
    function Source(): seq<nat>
    {
      if doing.Reading? then inward.source else outward.source
    }

    /** After some bytes more. */
    function Progressed(k: nat): Peer
      requires k <= remaining && k <= |Source()|
    {
      if doing.Reading? then this.(remaining := remaining - k, inward := inward.Moved(k))
      else this.(remaining := remaining - k, outward := outward.Moved(k))
    }
  }

  function Least(a: nat, b: nat): nat
  {
    if a < b then a else b
  }

  /** How one round of a transfer ends. */
  datatype Outcome = Moved | Again | Parked | Ended

  /** What the poller reads from the server: how many tokens more than before there are, or that a direction of
      a peer is usable. */
  datatype Notice = Count(more: nat) | Ready(token: nat, readable: bool, writable: bool)

  /** What happens while bytes go over the other socket. */
  datatype Happening =
    | Usable(token: nat, doing: Doing)                            // at the server
    | Notified(token: nat, readable: bool, writable: bool)        // at the server, unasked
    | Joined(more: nat)                                           // at the server
    | Handled                                                     // the poller has read one notice

  predicate For(n: Notice, token: nat, doing: Doing)
  {
    n.Ready? && n.token == token && ((doing.Reading? && n.readable) || (doing.Writing? && n.writable))
  }

  datatype Interest = Off | In | Out

  /** What poll reports of a descriptor. */
  datatype Revents = Nothing | Readable | Writable | HungUp

  /** struct pollfd; a negative descriptor is ignored. */
  datatype PollFd = PollFd(fd: int, events: Interest, revents: Revents)

  /** The answer to a connection for a module. */
  datatype Response = Accepted | NoSuchToken | Busy

  /** What poll can report: the poller's signal, connections, a peer's operation, and the watchers' sockets. */
  datatype Event =
    | Poller
    | Connect(token: nat, fd: int, inward: Channel, outward: Channel)
    | Watch(fd: int, revents: Revents)
    | Leave(i: nat)
    | Transfer(i: nat, doing: Doing, len: nat)
    | Watchers(reports: seq<Revents>)

  /** What becomes of writing one byte to a watcher. */
  datatype WriteResult = Wrote | WouldBlock | Broken

  /** Takes out an element and puts the last one into its place. */
  function SwapRemove<T>(s: seq<T>, k: nat): (r: seq<T>)
    requires k < |s|
    ensures |r| == |s| - 1
    ensures forall i {:trigger r[i]} :: 0 <= i < |r| ==> r[i] == if i == k then s[|s| - 1] else s[i]
  {
    if k == |s| - 1 then s[..k] else s[..|s| - 1][k := s[|s| - 1]]
  }

  /** Places of peers that nobody is connected to yet. */
  function Vacant(n: nat): (fs: seq<PollFd>)
    ensures |fs| == n
  {
    seq(n, _ => PollFd(-1, In, Nothing))
  }

  function FdAt(pollfds: seq<PollFd>, base: nat, i: int): int
  {
    if 0 <= i && base + i < |pollfds| then pollfds[base + i].fd else -1
  }

  /** The socket is no watcher's. */
  predicate Unwatched(pollfds: seq<PollFd>, base: nat, n: nat, fd: int)
  {
    forall i :: 0 <= i < n ==> FdAt(pollfds, base, i) != fd
  }

  /** The first peer with this token; the number of peers if there is none. */
  function FindPeer(ps: seq<Peer>, token: nat): (k: nat)
    ensures k <= |ps| && (k < |ps| ==> ps[k].token == token)
    ensures forall j :: 0 <= j < k ==> ps[j].token != token
  {
    if ps == [] || ps[0].token == token then 0 else 1 + FindPeer(ps[1..], token)
  }

  /** A question to the server how many bytes of a peer's transfer can be moved: how many were remaining and how many
      there were to move, whether the direction was refused since it was blocked, the answer, and what was moved. */
  datatype Ask = Ask(token: nat, doing: Doing, remaining: nat, had: nat, refused: bool, answer: nat, moved: nat)
  {
    predicate Right(could: nat)
    {
      && answer == (if refused then 0 else could)
      && moved == (var n := Least(answer, Least(255, remaining)); if had < n then 0 else n)
    }
  }

  /** A peer when its latest transfer was asked for, and how many questions there had been to the server then. */
  datatype Start = Start(peer: Peer, since: nat)

  function Starts(ps: seq<Peer>, since: nat): (ss: seq<Start>)
    ensures |ss| == |ps| && forall i {:trigger ss[i]} {:trigger ps[i]} :: 0 <= i < |ps| ==> ss[i] == Start(ps[i], since)
  {
    seq(|ps|, i requires 0 <= i < |ps| => Start(ps[i], since))
  }

  /** New peers, for `n` tokens from this one on. */
  function NewPeers(n: nat, token: nat, my: nat): (ps: seq<Peer>)
    ensures |ps| == n
  {
    if n == 0 then []
    else
      var t := if token == my then token + 1 else token;
      [Peer(t, Idle, false, 0, Channel([], []), Channel([], []))] + NewPeers(n - 1, t + 1, my)
  }

  /** The daemon, and what is still to come from the server (`world`, `answers`) and the watchers' sockets (`writes`).
      `started` and `asks` are records. */
  datatype State = State(
    my: nat, happened: bool, newCount: nat, stuck: bool, peers: seq<Peer>, blocked: set<(nat, Doing)>,
    flight: seq<Notice>, world: seq<seq<Happening>>, answers: seq<nat>, writes: seq<WriteResult>,
    interests: seq<nat>, global: nat,
    next: seq<nat>, sent: map<int, seq<nat>>, pollfds: seq<PollFd>, started: seq<Start>, asks: seq<Ask>)
  {
    /** Every peer and every watcher has its descriptor. */
    predicate Sound()
    {
      |pollfds| == Base() + |next| && |started| == |peers| && global <= newCount
    }

    function Base(): nat
    {
      2 + |peers|
    }

    // -------- notices --------

    /** poller_sm_next_byte_cb */
    function Noticed(n: Notice): (t: State)
      ensures Kept(this.(happened := true), t) && t.answers == answers && t.next == next && t.pollfds == pollfds
    {
      match n
      case Count(more) => this.(happened := true, newCount := newCount + more)
      case Ready(token, _, _) =>
        var k := FindPeer(peers, token);
        if k == |peers| then this.(stuck := true)
        else if For(n, token, peers[k].doing) then
          this.(happened := true, peers := peers[k := peers[k].(unblocked := true)])
        else this
    }

    function After(h: Happening): (t: State)
      ensures Kept(this.(happened := true), t) && t.answers == answers && t.next == next && t.pollfds == pollfds
    {
      match h
      case Usable(token, doing) =>
        if (token, doing) !in blocked then this
        else this.(blocked := blocked - {(token, doing)},
                   flight := flight + [Ready(token, doing.Reading?, doing.Writing?)])
      case Notified(token, readable, writable) => this.(flight := flight + [Ready(token, readable, writable)])
      case Joined(more) => this.(flight := flight + [Count(more)])
      case Handled => if flight == [] || stuck then this else Noticed(flight[0]).(flight := flight[1..])
    }

    /** After the happenings from `k` on. */
    function AfterAll(hs: seq<Happening>, k: nat): (t: State)
      requires k <= |hs|
      ensures Kept(this.(happened := true), t) && t.answers == answers && t.next == next && t.pollfds == pollfds
      decreases |hs| - k
    {
      if k == |hs| then this else After(hs[k]).AfterAll(hs, k + 1)
    }

    /** multitasking_inner */
    function Passed(): (t: State)
      ensures Kept(this, t) && t.answers == answers && t.next == next && t.pollfds == pollfds
    {
      if world == [] then this else this.(world := world[1..]).AfterAll(world[0], 0)
    }

    // -------- transfers --------

    /** The question to the server, the answer, and whether it was refused. */
    function Asked(i: nat): (r: (State, Option<nat>, bool))
      requires i < |peers|
      ensures Kept(this, r.0) && r.0.next == next && r.0.pollfds == pollfds
      ensures r.1.Some? ==> |r.0.answers| < |answers|
    {
      var s := Passed();
      if s.answers == [] then (s, None, false)
      else
        var token, doing := s.peers[i].token, s.peers[i].doing;
        var refused := (token, doing) in s.blocked;
        var answer := if refused then 0 else s.answers[0];
        var u :=
              s.(answers := s.answers[1..], blocked := if answer == 0 then s.blocked + {(token, doing)} else s.blocked);
        (u.Passed(), Some(answer), refused)
    }

    /** One round of continue_transfer. */
    function Round(i: nat): (r: (State, Outcome))
      requires i < |peers|
      ensures Kept(this, r.0) && r.0.next == next && r.0.pollfds == pollfds
      ensures !r.1.Ended? ==> |r.0.answers| < |answers|
    {
      var (s, answer, refused) := this.(peers := peers[i := peers[i].(unblocked := false)]).Asked(i);
      if answer.None? then (s, Ended) else s.Moving(i, answer.value, refused)
    }

    /** What the server answers is moved. */
    function Moving(i: nat, answer: nat, refused: bool): (r: (State, Outcome))
      requires i < |peers|
      ensures Kept(this, r.0) && r.0.answers == answers && r.0.next == next && r.0.pollfds == pollfds
    {
      if Least(answer, Least(255, peers[i].remaining)) == 0 then
        (Noted(i, refused, answer, 0), if peers[i].unblocked then Again else Parked)
      else
        var s := Passed();
        var n := Least(answer, Least(255, s.peers[i].remaining));
        if |s.peers[i].Source()| < n then (s.Noted(i, refused, answer, 0), Ended)
        else
          var t := s.Noted(i, refused, answer, n);
          (t.(peers := t.peers[i := t.peers[i].Progressed(n)]), Moved)
    }

    function Noted(i: nat, refused: bool, answer: nat, moved: nat): (t: State)
      requires i < |peers|
    {
      var p := peers[i];
      this.(asks := asks + [Ask(p.token, p.doing, p.remaining, |p.Source()|, refused, answer, moved)])
    }

    /** The rounds of continue_transfer; false when there is a round that does not end. */
    function Rounds(i: nat): (r: (State, bool))
      requires i < |peers|
      ensures Kept(this, r.0) && r.0.next == next && r.0.pollfds == pollfds
      decreases |answers|
    {
      if peers[i].remaining == 0 then (this, true)
      else
        var (s, o) := Round(i);
        if o.Parked? || o.Ended? then (s, o.Parked?) else s.Rounds(i)
    }

    /** continue_transfer */
    function Continued(i: nat): (r: (State, bool))
      requires Sound() && i < |peers|
      ensures Kept(this, r.0)
    {
      var (s, ok) := Rounds(i);
      if !ok || s.peers[i].remaining > 0 then (s, ok)
      else
        (s.(peers := s.peers[i := s.peers[i].(doing := Idle)],
            pollfds := pollfds[2 + i := pollfds[2 + i].(fd := -pollfds[2 + i].fd)]), true)
    }

    /** The transfers of the peers from `i` on that can go on. */
    function AllContinued(i: nat): (r: (State, bool))
      requires Sound() && i <= |peers|
      ensures Kept(this, r.0)
      decreases |peers| - i
    {
      if i == |peers| then (this, true)
      else
        var (s, ok) := if !peers[i].doing.Idle? && peers[i].unblocked then Continued(i) else (this, true);
        if ok then s.AllContinued(i + 1) else (s, false)
    }

    // -------- watchers --------

    function Written(fd: int, token: nat): (r: (State, WriteResult))
      requires fd in sent
      ensures Kept(this, r.0) && r.0.next == next && r.0.pollfds == pollfds && r.0.sent.Keys == sent.Keys
    {
      var w := if writes == [] then Wrote else writes[0];
      (this.(writes := if writes == [] then [] else writes[1..],
             sent := if w.Wrote? then sent[fd := sent[fd] + [token]] else sent), w)
    }

    /** The tokens from `wn` on, as far as they could be sent. */
    function TokensSent(fd: int, wn: nat): (r: (State, nat, WriteResult))
      requires fd in sent
      ensures Kept(this, r.0) && r.0.next == next && r.0.pollfds == pollfds && r.0.sent.Keys == sent.Keys
      decreases global - wn
    {
      if wn >= global then (this, wn, Wrote)
      else if wn == my then TokensSent(fd, wn + 1)
      else
        var (s, w) := Written(fd, wn);
        if w.Wrote? then s.TokensSent(fd, wn + 1) else (s, wn, w)
    }

    /** close_watcher */
    function WatcherClosed(i: nat): (t: State)
      requires Sound() && i < |next|
      ensures Kept(this, t) && |t.next| == |next| - 1
    {
      this.(next := SwapRemove(next, i), pollfds := SwapRemove(pollfds, Base() + i))
    }

    /** update_watcher, and whether the watcher was closed. */
    function WatcherUpdated(i: nat): (r: (State, bool))
      requires Sound() && i < |next|
      ensures Kept(this, r.0) && |r.0.next| == if r.1 then |next| - 1 else |next|
    {
      var fd := pollfds[Base() + i].fd;
      var (s, wn, w) := (if fd in sent then this else this.(sent := sent[fd := []])).TokensSent(fd, next[i]);
      if w.Broken? then (s.WatcherClosed(i), true)
      else
        var events := if w.Wrote? then Off else Out;
        (s.(next := next[i := wn], pollfds := pollfds[Base() + i := pollfds[Base() + i].(events := events)]), false)
    }

    /** The watchers from `i` on that do not wait to be writable. */
    function WatchersUpdated(i: nat): (t: State)
      requires Sound() && i <= |next|
      ensures Kept(this, t)
      decreases |next| - i
    {
      if i == |next| then this
      else if !pollfds[Base() + i].events.Off? then WatchersUpdated(i + 1)
      else
        var (s, closed) := WatcherUpdated(i);
        s.WatchersUpdated(if closed then i else i + 1)
    }

    /** The watchers from `i` on that poll has reported. */
    function WatchersServed(i: nat): (r: (State, bool))
      requires Sound() && i <= |next|
      ensures Kept(this, r.0)
      decreases |next| - i
    {
      if i == |next| then (this, true)
      else match pollfds[Base() + i].revents
        case Nothing => WatchersServed(i + 1)
        case Readable => (this, false)
        case HungUp => WatcherClosed(i).WatchersServed(i)
        case Writable =>
          var (s, closed) := WatcherUpdated(i);
          s.WatchersServed(if closed then i else i + 1)
    }

    // -------- the main loop --------

    /** The SET_INTEREST requests for the peers from `i` on. */
    function InterestsSet(i: nat): (t: State)
      requires i <= |peers|
      ensures Kept(this, t) && t.next == next && t.pollfds == pollfds
      decreases |peers| - i
    {
      if i == |peers| then this
      else this.(interests := interests + [peers[i].token]).Passed().InterestsSet(i + 1)
    }

    /** The new peers, and the requests for them. */
    function Joined(toAdd: nat, oldGlobal: nat): (t: State)
      requires Sound()
      ensures t.Sound() && Later(this, t)
    {
      var more := NewPeers(toAdd, oldGlobal, my);
      this.(peers := peers + more, started := started + Starts(more, |asks|),
            pollfds := pollfds[..Base()] + Vacant(toAdd) + pollfds[Base()..]).InterestsSet(|peers|)
    }

    function Admitted(toAdd: nat, oldGlobal: nat): (t: State)
      requires Sound()
      ensures t.Sound() && Later(this, t)
    {
      Joined(toAdd, oldGlobal).WatchersUpdated(0)
    }

    function TokensToAdd(): (n: nat)
      requires Sound()
    {
      newCount - global - if global <= my < newCount then 1 else 0
    }

    /** One round of the loop while something has happened. */
    function Attended(): (r: (State, bool))
      requires Sound()
      ensures r.0.Sound() && |r.0.world| <= |world| && (r.0.happened ==> |r.0.world| < |world|)
    {
      var s := this.(happened := false, global := newCount);
      (if TokensToAdd() > 0 then s.Admitted(TokensToAdd(), global) else s).AllContinued(0)
    }

    /** The main loop up to where it blocks; false when a transfer waits for ever. */
    function Settled(): (r: (State, bool))
      requires Sound()
      ensures r.0.Sound()
      decreases |world|, happened
    {
      if !happened then (this, true)
      else
        var (s, ok) := Attended();
        if ok then s.Settled() else (s, false)
    }

    /** A place that is idle is changed. */
    function Reseated(i: nat, p: Peer, fd: int): (t: State)
      requires Sound() && i < |peers|
      ensures t.Sound()
    {
      this.(peers := peers[i := p], started := started[i := Start(p, |asks|)],
            pollfds := pollfds[2 + i := pollfds[2 + i].(fd := fd)])
    }

    /** A connection for a module. */
    function Connected(token: nat, fd: int, inward: Channel, outward: Channel): (t: State)
      requires Sound()
      ensures t.Sound()
    {
      var i := FindPeer(peers, token);
      if i == |peers| || pollfds[2 + i].fd != -1 then this
      else Reseated(i, peers[i].(inward := inward, outward := outward), fd)
    }

    function Watched(fd: int, revents: Revents): (t: State)
      requires Sound()
      ensures t.Sound()
    {
      this.(next := next + [0], pollfds := pollfds + [PollFd(fd, Off, revents)], sent := sent[fd := []])
          .WatcherUpdated(|next|).0
    }

    /** OPERATION_READ and OPERATION_WRITE. */
    function TransferStarted(i: nat, doing: Doing, len: nat): (r: (State, bool))
      requires Sound() && i < |peers|
      ensures r.0.Sound()
    {
      var p := peers[i].(doing := doing, remaining := len);
      Reseated(i, p, -pollfds[2 + i].fd).Continued(i)
    }

    function Told(reports: seq<Revents>): (t: State)
      ensures Kept(this, t) && t.next == next
    {
      this.(pollfds := seq(|pollfds|, i requires 0 <= i < |pollfds| =>
                                        pollfds[i].(revents := if i < |reports| then reports[i] else Nothing)))
    }

    /** One of the things that poll reports. */
    function Served(e: Event): (r: (State, bool))
      requires Sound()
      ensures r.0.Sound()
    {
      match e
      case Poller => (Passed(), true)
      case Connect(token, fd, inward, outward) =>
        (if fd > 1 then Connected(token, fd, inward, outward) else this, true)
      case Watch(fd, revents) =>
        (if fd > 1 && Unwatched(pollfds, Base(), |next|, fd) then Watched(fd, revents) else this, true)
      case Leave(i) =>
        (if i < |peers| && peers[i].doing.Idle? && pollfds[2 + i].fd > 1 then Reseated(i, peers[i], -1).Passed()
         else this, true)
      case Transfer(i, doing, len) =>
        if i < |peers| && peers[i].doing.Idle? && !doing.Idle? && pollfds[2 + i].fd > 1
        then TransferStarted(i, doing, len)
        else (this, true)
      case Watchers(reports) => Told(reports).WatchersServed(0)
    }

    /** All that one call of poll reports, from the `j`-th on. */
    function AllServed(es: seq<Event>, j: nat): (r: (State, bool))
      requires Sound() && j <= |es|
      ensures r.0.Sound()
      decreases |es| - j
    {
      if j == |es| then (this, true)
      else
        var (s, ok) := Served(es[j]);
        if ok then s.AllServed(es, j + 1) else (s, false)
    }

    /** What the calls of poll report from the `i`-th on, with the main loop run after each of them. */
    function Polled(events: seq<seq<Event>>, i: nat): (r: (State, bool))
      requires Sound() && i <= |events|
      ensures r.0.Sound()
      decreases |events| - i
    {
      if i == |events| then (this, true)
      else
        var (s, ok) := AllServed(events[i], 0);
        var (t, fine) := if ok then s.Settled() else (s, false);
        if fine then t.Polled(events, i + 1) else (t, false)
    }

    function Ran(events: seq<seq<Event>>): (r: (State, bool))
      requires Sound()
    {
      var (s, ok) := Settled();
      if ok then s.Polled(events, 0) else (s, false)
    }
  }

  /** Something happens only when a happening is used up. */
  ghost predicate Later(s: State, t: State)
  {
    && t.global == s.global && s.newCount <= t.newCount && t.my == s.my
    && |t.answers| <= |s.answers| && |t.world| <= |s.world| && (t.happened && !s.happened ==> |t.world| < |s.world|)
  }

  /** The places stay. */
  ghost predicate Kept(s: State, t: State)
  {
    && Later(s, t) && |t.peers| == |s.peers| && |t.started| == |s.started|
    && |t.pollfds| - |t.next| == |s.pollfds| - |s.next|
  }
}
