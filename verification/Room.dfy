/** A chat room of beeper_ui_util.c: the message window on the linked list, its marks, and the calls it
    makes on the text UI and on the network thread. */
module Room {
  import opened Basics
  import opened Window

  /** A call of texter_ui_future_set_message_static. */
  datatype Call = Call(fut: Fut, text: Option<string>, member: Member)

  /** What a future was told last, and whether it was ever told anything. */
  datatype Seen = Seen(text: Option<string>, member: Member, told: bool)
  {
    /** It shows the message's text; and the message is there if the future was told anything. */
    predicate Of(m: Msg) { text == m.text && (told ==> m.Real()) }
  }

  const BLANK := Seen(None, Them, false)

  /** A call of beeper_task_request_messages. */
  datatype Request = Request(chunk: Option<string>, up: bool)

  /** beeper_task_messages_event_data_t */
  datatype MessagesEvent = MessagesEvent(thisChunk: Option<string>, nextChunk: Option<string>, up: bool,
                                         messages: seq<Incoming>)

  const READ_AHEAD: nat := 30

  function Heard(c: Call): Seen
  {
    Seen(c.text, c.member, true)
  }

  /** What a future shows after the calls, in order. */
  function Told(shown: map<Fut, Seen>, calls: seq<Call>): map<Fut, Seen>
  {
    if calls == [] then shown
    else Told(shown, calls[..|calls| - 1])[calls[|calls| - 1].fut := Heard(calls[|calls| - 1])]
  }

  lemma {:induction false} ToldKeys(base: map<Fut, Seen>, calls: seq<Call>)
    requires forall i {:trigger calls[i]} :: 0 <= i < |calls| ==> calls[i].fut in base
    ensures Told(base, calls).Keys == base.Keys
  {
    if calls != [] {
      ToldKeys(base, calls[..|calls| - 1]);
    }
  }

  /** Every future of `w` shows the text of its message. */
  ghost predicate DisplaysIn(shown: map<Fut, Seen>, w: Win)
  {
    && w.start + |w.futs| <= |w.bodies|
    && forall i {:trigger w.bodies[i]} :: w.InRun(i) ==>
         w.futs[i - w.start] in shown && shown[w.futs[i - w.start]].Of(w.bodies[i])
  }

  /** Every future shows the text of its message while the hole is at `j`. */
  ghost predicate HoleDisplay(shown: map<Fut, Seen>, w: Win, bs: seq<Msg>, j: int)
  {
    && w.start + |w.futs| < |bs|
    && forall p {:trigger HolePos(j, p)} :: w.InRun(p) ==>
         w.futs[p - w.start] in shown && shown[w.futs[p - w.start]].Of(bs[HolePos(j, p)])
  }

  lemma HoleDisplayStep(shown: map<Fut, Seen>, w: Win, bs: seq<Msg>, j: nat, i: nat, f: Fut)
    requires Distinct(w.futs) && HoleDisplay(shown, w, bs, j) && j < |bs| && i < |bs|
    requires i == j - 1 || i == j + 1
    requires HoleFut(w, j, i) == Some(f)
    requires bs[j].Real()
    ensures f in shown && HoleDisplay(shown[f := Seen(bs[j].text, bs[j].member, true)], w, bs, i)
  {
    HoleStep(w, j, i);
    var q: int := if i < j then i else i - 1;
    assert w.InRun(q) && HolePos(j, q) == i && w.futs[q - w.start] == f;
    forall p | w.InRun(p)
      ensures w.futs[p - w.start] in shown[f := Seen(bs[j].text, bs[j].member, true)]
      ensures shown[f := Seen(bs[j].text, bs[j].member, true)][w.futs[p - w.start]].Of(bs[HolePos(i, p)])
    {
      assert HolePos(i, p) == if p == q then j else HolePos(j, p);
    }
  }

  /** Once the hole can go no further up, the list is the window with the message inserted. */
  lemma HoleUpClosed(w: Win, k: nat, m: Msg, j: nat, shown: map<Fut, Seen>)
    requires w.start + |w.futs| <= |w.bodies| && w.futs != [] && j <= k <= |w.bodies|
    requires forall p :: j <= p < k ==> w.InRun(p)
    requires !w.InRun(j - 1)
    requires HoleDisplay(shown, w, InsertAt(w.bodies, k, m), j)
    ensures forall i :: 0 <= i <= |w.bodies| ==> HoleFut(w, j, i) == InsertSlidingDown(w, k, m).FutAt(i)
    ensures HolePos(j, w.start) == InsertSlidingDown(w, k, m).start
    ensures HolePos(j, w.Bottom()) == InsertSlidingDown(w, k, m).Bottom()
    ensures DisplaysIn(shown, InsertSlidingDown(w, k, m))
  {
    var v := InsertSlidingDown(w, k, m);
    assert j < k ==> w.InRun(j) && w.InRun(k - 1);
    forall i | 0 <= i < |v.bodies|
      ensures v.FutAt(i) == HoleFut(w, j, i)
    {
      HoleUpDone(w, k, m, j, i);
    }
    forall i | v.InRun(i)
      ensures w.futs[i - v.start] in shown && shown[w.futs[i - v.start]].Of(v.bodies[i])
    {
      var p: int := if i < j then i else i - 1;
      assert HolePos(j, p) == i && w.InRun(p);
    }
  }

  lemma HoleDownClosed(w: Win, k: nat, m: Msg, j: nat, shown: map<Fut, Seen>)
    requires w.start + |w.futs| <= |w.bodies| && w.futs != [] && k <= j <= |w.bodies|
    requires forall p :: k <= p < j ==> w.InRun(p)
    requires !w.InRun(j)
    requires HoleDisplay(shown, w, InsertAt(w.bodies, k, m), j)
    ensures forall i :: 0 <= i <= |w.bodies| ==> HoleFut(w, j, i) == InsertSlidingUp(w, k, m).FutAt(i)
    ensures HolePos(j, w.start) == InsertSlidingUp(w, k, m).start
    ensures HolePos(j, w.Bottom()) == InsertSlidingUp(w, k, m).Bottom()
    ensures DisplaysIn(shown, InsertSlidingUp(w, k, m))
  {
    var v := InsertSlidingUp(w, k, m);
    assert k < j ==> w.InRun(k) && w.InRun(j - 1);
    forall i | 0 <= i < |v.bodies|
      ensures v.FutAt(i) == HoleFut(w, j, i)
    {
      HoleDownDone(w, k, m, j, i);
    }
    forall i | v.InRun(i)
      ensures w.futs[i - v.start] in shown && shown[w.futs[i - v.start]].Of(v.bodies[i])
    {
      var p: int := if i < j then i else i - 1;
      assert HolePos(j, p) == i && w.InRun(p);
    }
  }

  lemma OpenHoleDisplay(shown: map<Fut, Seen>, w: Win, k: nat, m: Msg)
    requires k <= |w.bodies| && DisplaysIn(shown, w)
    ensures HoleDisplay(shown, w, InsertAt(w.bodies, k, m), k)
  {
    forall p | w.InRun(p)
      ensures w.futs[p - w.start] in shown
      ensures shown[w.futs[p - w.start]].Of(InsertAt(w.bodies, k, m)[HolePos(k, p)])
    {
      InsertAtHolePos(w.bodies, k, m, p);
      assert w.bodies[p] == w.bodies[p];
    }
  }

  lemma FilledDisplay(shown: map<Fut, Seen>, w: Win, k: nat, m: Msg)
    requires k < |w.bodies| && w.InRun(k) && Distinct(w.futs) && DisplaysIn(shown, w)
    requires m.Real()
    ensures DisplaysIn(shown[w.futs[k - w.start] := Seen(m.text, m.member, true)], Filled(w, k, m))
    ensures w.bodies[k].text == m.text ==> DisplaysIn(shown, Filled(w, k, m))
  {
    var f, v := w.futs[k - w.start], Filled(w, k, m);
    forall i | v.InRun(i)
      ensures w.futs[i - v.start] in shown && (i != k ==> v.bodies[i] == w.bodies[i] && w.futs[i - v.start] != f)
      ensures i != k || w.bodies[k].text == m.text ==> shown[w.futs[i - v.start]].Of(v.bodies[i])
    {
      assert w.InRun(i) && w.bodies[i] == w.bodies[i];
    }
  }

  lemma FilledElsewhere(shown: map<Fut, Seen>, w: Win, k: nat, m: Msg)
    requires k < |w.bodies| && !w.InRun(k) && DisplaysIn(shown, w)
    ensures DisplaysIn(shown, Filled(w, k, m))
  {
    var v := Filled(w, k, m);
    forall i | v.InRun(i)
      ensures w.futs[i - v.start] in shown && shown[w.futs[i - v.start]].Of(v.bodies[i])
    {
      assert w.InRun(i) && v.bodies[i] == w.bodies[i];
    }
  }

  lemma DropTopDisplay(shown: map<Fut, Seen>, w: Win)
    requires w.bodies != [] && w.futs != [] && DisplaysIn(shown, w)
    ensures DisplaysIn(shown, DropIdleTop(w))
  {
    var v := DropIdleTop(w);
    if v != w {
      forall i | v.InRun(i)
        ensures w.futs[i - v.start] in shown && shown[w.futs[i - v.start]].Of(v.bodies[i])
      {
        assert w.InRun(i + 1) && w.bodies[i + 1] == v.bodies[i];
      }
    }
  }

  lemma DropBottomDisplay(shown: map<Fut, Seen>, w: Win)
    requires w.bodies != [] && w.futs != [] && DisplaysIn(shown, w)
    ensures DisplaysIn(shown, DropIdleBottom(w))
  {
    var v := DropIdleBottom(w);
    forall i | v.InRun(i)
      ensures w.futs[i - v.start] in shown && shown[w.futs[i - v.start]].Of(v.bodies[i])
    {
      assert w.InRun(i) && w.bodies[i] == v.bodies[i];
    }
  }

  /** The chunk id that the new messages of a chunk are remembered under. */
  function ChunkName(ev: MessagesEvent): string
  {
    if ev.nextChunk.Some? then ev.nextChunk.value else if ev.thisChunk.Some? then ev.thisChunk.value else ""
  }

  lemma ChunkNameParts(ev: MessagesEvent)
    ensures ev.nextChunk.Some? ==> ChunkName(ev) == ev.nextChunk.value
    ensures ev.nextChunk.None? && ev.thisChunk.Some? ==> ChunkName(ev) == ev.thisChunk.value
  {
  }

  lemma MergeChunkParts(w: Win, es: seq<Incoming>, news: seq<Incoming>, up: bool)
    requires news == News(w.bodies, es)
    ensures forall c :: MergeAll(RefreshAll(w, es), news, c, up) == MergeChunk(w, es, c, up)
  {
  }

  /** The run ends, on this side, at a message. */
  ghost predicate EndReal(w: Win, up: bool)
    requires w.Shaped() && w.futs != []
  {
    if up then w.bodies[w.start].Real() else w.bodies[w.Bottom()].Real()
  }

  /** What is asked for after a chunk, once it is merged into `w`; `behind` says whether newer messages
      have been let go. */
  ghost function Asks(w: Win, behind: bool, ev: MessagesEvent): seq<Request>
    requires w.Shaped() && w.futs != []
  {
    if ev.thisChunk.None? then []
    else if ev.nextChunk.Some? then if EndReal(w, ev.up) then [] else [Request(ev.nextChunk, ev.up)]
    else if !ev.up && behind then [Request(ev.thisChunk, false)]
    else []
  }

  lemma AsksCases(w: Win, behind: bool, ev: MessagesEvent)
    requires w.Shaped() && w.futs != []
    ensures ev.thisChunk.Some? && ev.nextChunk.Some? ==>
              Asks(w, behind, ev) == if EndReal(w, ev.up) then [] else [Request(ev.nextChunk, ev.up)]
    ensures ev.thisChunk.Some? && ev.nextChunk.None? ==>
              Asks(w, behind, ev) == if !ev.up && behind then [Request(ev.thisChunk, false)] else []
    ensures ev.thisChunk.None? ==> Asks(w, behind, ev) == []
  {
  }

  /** Every future of `v`, leaving `f` aside, shows the text of its message. */
  ghost predicate OthersDisplay(shown: map<Fut, Seen>, v: Win, f: Fut)
  {
    && v.start + |v.futs| <= |v.bodies|
    && forall i {:trigger v.bodies[i]} :: v.InRun(i) && v.futs[i - v.start] != f ==>
         v.futs[i - v.start] in shown && shown[v.futs[i - v.start]].Of(v.bodies[i])
  }

  lemma AttachDisplay(shown: map<Fut, Seen>, v: Win, k: nat, f: Fut)
    requires OthersDisplay(shown, v, f) && v.FutAt(k) == Some(f) && Distinct(v.futs) && f in shown && shown[f] == BLANK
    ensures v.bodies[k].Real() ==> DisplaysIn(shown[f := Seen(v.bodies[k].text, v.bodies[k].member, true)], v)
    ensures v.bodies[k].text == None ==> DisplaysIn(shown, v)
  {
    assert v.InRun(k) && v.futs[k - v.start] == f;
    forall i | v.InRun(i) && i != k
      ensures v.futs[i - v.start] in shown && shown[v.futs[i - v.start]].Of(v.bodies[i]) && v.futs[i - v.start] != f
    {
      assert v.bodies[i] == v.bodies[i];
    }
  }

  lemma LoadTopOthers(shown: map<Fut, Seen>, w: Win, f: Fut)
    requires w.Shaped() && f !in w.futs && DisplaysIn(shown, w)
    ensures OthersDisplay(shown[f := BLANK], Load(w, Top, f), f)
  {
    var v := Load(w, Top, f);
    var d := if w.start > 0 then 0 else 1;
    forall i | v.InRun(i) && v.futs[i - v.start] != f
      ensures v.futs[i - v.start] in shown && shown[v.futs[i - v.start]].Of(v.bodies[i])
    {
      assert w.bodies[i - d] == v.bodies[i] && w.InRun(i - d);
    }
  }

  /** Where the message of a new future is, and that all others stay with theirs. */
  lemma LoadTopParts(shown: map<Fut, Seen>, w: Win, f: Fut)
    requires w.Shaped() && f !in w.futs && DisplaysIn(shown, w)
    ensures var v := Load(w, Top, f);
            && Distinct(v.futs) && OthersDisplay(shown[f := BLANK], v, f)
            && v.bodies == (if w.start > 0 then w.bodies else [PLACEHOLDER] + w.bodies)
            && (v.bodies[v.start].text.Some? ==> v.bodies[v.start].Real())
            && (forall i :: v.FutAt(i) == if i == v.start then Some(f) else w.FutAt(if w.start > 0 then i else i - 1))
  {
    LoadTopOthers(shown, w, f);
    hide OthersDisplay, DisplaysIn;
  }

  lemma LoadBottomParts(shown: map<Fut, Seen>, w: Win, f: Fut)
    requires w.Shaped() && f !in w.futs && DisplaysIn(shown, w)
    ensures var v := Load(w, Bottom, f);
            && Distinct(v.futs) && OthersDisplay(shown[f := BLANK], v, f)
            && v.bodies == (if w.start + |w.futs| < |w.bodies| then w.bodies else w.bodies + [PLACEHOLDER])
            && (v.bodies[v.Bottom()].text.Some? ==> v.bodies[v.Bottom()].Real())
            && (forall i :: v.FutAt(i) == if i == v.Bottom() then Some(f) else w.FutAt(i))
  {
    var v := Load(w, Bottom, f);
    forall i | v.InRun(i) && v.futs[i - v.start] != f
      ensures v.futs[i - v.start] in shown && shown[v.futs[i - v.start]].Of(v.bodies[i])
    {
      assert w.bodies[i] == v.bodies[i] && w.InRun(i);
    }
  }

  lemma UnloadTopParts(shown: map<Fut, Seen>, w: Win)
    requires w.Shaped() && |w.futs| > 1 && DisplaysIn(shown, w)
    ensures var v := Unload(w, Top);
            && v.bodies == w.bodies[w.start + 1..] && v.futs != [] && v.start == 0
            && v.Bottom() == w.Bottom() - w.start - 1
            && (forall i :: 0 <= i < |v.bodies| ==> v.FutAt(i) == w.FutAt(i + w.start + 1))
            && DisplaysIn(shown, v)
  {
    var v, d := Unload(w, Top), w.start + 1;
    forall i | v.InRun(i)
      ensures v.futs[i - v.start] in shown && shown[v.futs[i - v.start]].Of(v.bodies[i])
    {
      assert w.bodies[i + d] == v.bodies[i] && w.InRun(i + d);
    }
  }

  lemma UnloadBottomParts(shown: map<Fut, Seen>, w: Win)
    requires w.Shaped() && |w.futs| > 1 && DisplaysIn(shown, w)
    ensures var v := Unload(w, Bottom);
            && v.bodies == w.bodies[..w.Bottom()] && v.futs != [] && v.start == w.start && v.Bottom() == w.Bottom() - 1
            && (forall i :: 0 <= i < |v.bodies| ==> v.FutAt(i) == w.FutAt(i))
            && DisplaysIn(shown, v)
  {
    var v := Unload(w, Bottom);
    forall i | v.InRun(i)
      ensures v.futs[i - v.start] in shown && shown[v.futs[i - v.start]].Of(v.bodies[i])
    {
      assert w.bodies[i] == v.bodies[i] && w.InRun(i);
    }
  }

  /** The future that an UNLOAD takes from the run. */
  function Going(w: Win, side: Side): set<Fut>
  {
    if w.futs == [] then {} else if side.Top? then {w.futs[0]} else {w.futs[|w.futs| - 1]}
  }

  lemma GoingGone(w: Win, side: Side)
    requires w.Shaped()
    ensures forall f :: f in Going(w, side) ==> f !in Unload(w, side).futs
  {
  }

  lemma ForgottenDisplay(shown: map<Fut, Seen>, w: Win, gone: set<Fut>)
    requires DisplaysIn(shown, w) && forall f :: f in gone ==> f !in w.futs
    ensures DisplaysIn(shown - gone, w)
  {
    forall i | w.InRun(i)
      ensures w.futs[i - w.start] in shown - gone && shown[w.futs[i - w.start]].Of(w.bodies[i])
    {
      assert w.futs[i - w.start] in w.futs;
      assert w.bodies[i] == w.bodies[i];
    }
  }

  // ---------- which calls are made ----------

  /** The calls while the hole moves up from `k` to `j`: each future that moves is told the message it comes to. */
  function SlideDownCalls(w: Win, bs: seq<Msg>, k: nat, j: nat): seq<Call>
    decreases k - j
  {
    if j >= k || !w.InRun(j) || j + 1 >= |bs| then []
    else SlideDownCalls(w, bs, k, j + 1) + [Call(w.futs[j - w.start], bs[j + 1].text, bs[j + 1].member)]
  }

  /** The calls while it moves down from `k` to `j`. */
  function SlideUpCalls(w: Win, bs: seq<Msg>, k: nat, j: nat): seq<Call>
    decreases j
  {
    if j <= k || !w.InRun(j - 1) || j - 1 >= |bs| then []
    else SlideUpCalls(w, bs, k, j - 1) + [Call(w.futs[j - 1 - w.start], bs[j - 1].text, bs[j - 1].member)]
  }

  lemma SlidNone(w: Win, bs: seq<Msg>, k: nat, calls: seq<Call>)
    ensures calls + SlideDownCalls(w, bs, k, k) == calls && calls + SlideUpCalls(w, bs, k, k) == calls
  {
  }

  lemma SlidDown(w: Win, bs: seq<Msg>, k: nat, at: nat, calls: seq<Call>)
    requires 0 < at <= k < |bs|
    ensures HoleFut(w, at, at - 1).Some? ==>
              calls + SlideDownCalls(w, bs, k, at) + [Call(HoleFut(w, at, at - 1).value, bs[at].text, bs[at].member)]
              == calls + SlideDownCalls(w, bs, k, at - 1)
  {
  }

  lemma SlidUp(w: Win, bs: seq<Msg>, k: nat, at: nat, calls: seq<Call>)
    requires k <= at < |bs|
    ensures HoleFut(w, at, at + 1).Some? ==>
              calls + SlideUpCalls(w, bs, k, at) + [Call(HoleFut(w, at, at + 1).value, bs[at].text, bs[at].member)]
              == calls + SlideUpCalls(w, bs, k, at + 1)
  {
  }

  /** Where the hole comes to rest. */
  lemma SlidTo(w: Win, k: nat, j: nat)
    requires w.futs != [] && j <= k && !w.InRun(j - 1) && forall p :: j <= p < k ==> w.InRun(p)
    ensures j == if w.InRun(k - 1) then w.start else k
  {
    assert j < k ==> w.InRun(k - 1) && w.InRun(j);
  }

  lemma SlidUpTo(w: Win, k: nat, j: nat)
    requires w.futs != [] && k <= j && !w.InRun(j) && forall p :: k <= p < j ==> w.InRun(p)
    ensures j == if w.InRun(k) then w.start + |w.futs| else k
  {
    assert k < j ==> w.InRun(k) && w.InRun(j - 1);
  }

  /** A placeholder's future is told of the message only if that has a text. */
  function FillCalls(w: Win, k: nat, m: Msg): seq<Call>
  {
    if m.text.Some? && w.InRun(k) then [Call(w.futs[k - w.start], m.text, m.member)] else []
  }

  function MergeCalls(w: Win, m: Msg, up: bool): seq<Call>
    requires m.Real()
  {
    if up then
      var k := FirstAfter(w.bodies, m);
      if k > 0 && !w.bodies[k - 1].Real() then FillCalls(w, k - 1, m)
      else SlideDownCalls(w, InsertAt(w.bodies, k, m), k, if w.InRun(k - 1) then w.start else k)
    else
      var k := PastLastBefore(w.bodies, m);
      if k < |w.bodies| && !w.bodies[k].Real() then FillCalls(w, k, m)
      else SlideUpCalls(w, InsertAt(w.bodies, k, m), k, if w.InRun(k) then w.start + |w.futs| else k)
  }

  lemma MergeUpCalled(w: Win, m: Msg, k: nat)
    requires m.Real() && k == FirstAfter(w.bodies, m)
    ensures MergeCalls(w, m, true) ==
            if k > 0 && !w.bodies[k - 1].Real() then FillCalls(w, k - 1, m)
            else SlideDownCalls(w, InsertAt(w.bodies, k, m), k, if w.InRun(k - 1) then w.start else k)
  {
    hide SlideUpCalls, SlideDownCalls, FillCalls;
  }

  lemma MergeDownCalled(w: Win, m: Msg, k: nat)
    requires m.Real() && k == PastLastBefore(w.bodies, m)
    ensures MergeCalls(w, m, false) ==
            if k < |w.bodies| && !w.bodies[k].Real() then FillCalls(w, k, m)
            else SlideUpCalls(w, InsertAt(w.bodies, k, m), k, if w.InRun(k) then w.start + |w.futs| else k)
  {
    hide SlideUpCalls, SlideDownCalls, FillCalls;
  }

  /** A known message that comes again is told of only if its text changes. */
  function RefreshCalls(w: Win, e: Incoming): seq<Call>
  {
    var k := Find(w.bodies, e.id);
    if k == |w.bodies| || !w.InRun(k) || Retext(w.bodies[k].text, e.text) == w.bodies[k].text then []
    else [Call(w.futs[k - w.start], Retext(w.bodies[k].text, e.text), e.member)]
  }

  lemma RefreshCalled(w: Win, e: Incoming)
    ensures var k := Find(w.bodies, e.id);
            && (k < |w.bodies| && w.InRun(k) ==>
                  RefreshCalls(w, e) ==
                  if Retext(w.bodies[k].text, e.text) == w.bodies[k].text then []
                  else [Call(w.futs[k - w.start], Retext(w.bodies[k].text, e.text), e.member)])
            && (k == |w.bodies| || !w.InRun(k) ==> RefreshCalls(w, e) == [])
  {
  }

  function RefreshAllCalls(w: Win, es: seq<Incoming>): seq<Call>
  {
    if es == [] then []
    else RefreshAllCalls(w, es[..|es| - 1]) + RefreshCalls(RefreshAll(w, es[..|es| - 1]), es[|es| - 1])
  }

  lemma RefreshAllCalled(w: Win, es: seq<Incoming>, i: nat, calls: seq<Call>)
    requires i < |es|
    ensures calls + RefreshAllCalls(w, es[..i]) + RefreshCalls(RefreshAll(w, es[..i]), es[i])
            == calls + RefreshAllCalls(w, es[..i + 1])
  {
    assert es[..i + 1][..i] == es[..i];
  }

  lemma RefreshNone(w: Win)
    ensures RefreshAll(w, []) == w && RefreshAllCalls(w, []) == [] && News(w.bodies, []) == []
  {
  }

  function MergeAllCalls(w: Win, es: seq<Incoming>, chunk: ChunkRef, up: bool): seq<Call>
  {
    if es == [] then []
    else
      MergeAllCalls(w, es[..|es| - 1], chunk, up)
      + MergeCalls(MergeAll(w, es[..|es| - 1], chunk, up), ToMsg(es[|es| - 1], chunk), up)
  }

  lemma MergeAllCalled(w: Win, es: seq<Incoming>, i: nat, chunk: ChunkRef, up: bool, calls: seq<Call>)
    requires i < |es|
    ensures calls + MergeAllCalls(w, es[..i], chunk, up)
            + MergeCalls(MergeAll(w, es[..i], chunk, up), ToMsg(es[i], chunk), up)
            == calls + MergeAllCalls(w, es[..i + 1], chunk, up)
  {
    assert es[..i + 1][..i] == es[..i];
  }

  lemma MergeNoneCalled(w: Win, chunk: ChunkRef, up: bool)
    ensures MergeAllCalls(w, [], chunk, up) == []
  {
  }

  function ChunkCalls(w: Win, es: seq<Incoming>, chunk: ChunkRef, up: bool): seq<Call>
  {
    RefreshAllCalls(w, es) + MergeAllCalls(RefreshAll(w, es), News(w.bodies, es), chunk, up)
  }

  lemma ChunkCalled(w: Win, es: seq<Incoming>, chunk: ChunkRef, up: bool, calls: seq<Call>)
    ensures calls + RefreshAllCalls(w, es) + MergeAllCalls(RefreshAll(w, es), News(w.bodies, es), chunk, up)
            == calls + ChunkCalls(w, es, chunk, up)
  {
  }

  function DecryptCalls(w: Win, id: string, text: string): seq<Call>
  {
    var k := Find(w.bodies, id);
    if k == |w.bodies| || !w.InRun(k) || w.bodies[k].text == Some(text) then []
    else [Call(w.futs[k - w.start], Some(text), w.bodies[k].member)]
  }

  lemma DecryptCalled(w: Win, id: string, text: string)
    ensures var k := Find(w.bodies, id);
            DecryptCalls(w, id, text) ==
            if k == |w.bodies| || !w.InRun(k) || w.bodies[k].text == Some(text) then []
            else [Call(w.futs[k - w.start], Some(text), w.bodies[k].member)]
  {
  }

  /** A new future is told of its message if that has a text. */
  function LoadCalls(w: Win, side: Side, f: Fut): seq<Call>
  {
    var v := Load(w, side, f);
    var k := if side.Top? then v.start else v.Bottom();
    if 0 <= k < |v.bodies| && v.bodies[k].text.Some? then [Call(f, v.bodies[k].text, v.bodies[k].member)] else []
  }

  lemma LoadCalled(w: Win, side: Side, f: Fut)
    ensures var v := Load(w, side, f);
            var k := if side.Top? then v.start else v.Bottom();
            0 <= k < |v.bodies| ==>
              [] + (if v.bodies[k].text.Some? then [Call(f, v.bodies[k].text, v.bodies[k].member)] else [])
              == LoadCalls(w, side, f)
  {
  }

  // ---------- what the calls say ----------

  /** The call tells the future number `t` of the run of the message that it is over. */
  ghost predicate SaysAt(c: Call, v: Win, t: nat)
  {
    && t < |v.futs| && v.start + t < |v.bodies| && c.fut == v.futs[t]
    && c.text == v.bodies[v.start + t].text && c.member == v.bodies[v.start + t].member
  }

  /** The call tells a future of the text and the member of the message that it is over. */
  ghost predicate Says(c: Call, v: Win)
  {
    exists t: nat :: SaysAt(c, v, t)
  }

  lemma {:induction false} SlideDownCallsAt(w: Win, bs: seq<Msg>, k: nat, j: nat)
    requires w.start <= j <= k < |bs| && forall p :: j <= p < k ==> w.InRun(p)
    ensures |SlideDownCalls(w, bs, k, j)| == k - j
    ensures forall i :: 0 <= i < k - j ==>
              k - 1 - i - w.start < |w.futs|
              && SlideDownCalls(w, bs, k, j)[i] == Call(w.futs[k - 1 - i - w.start], bs[k - i].text, bs[k - i].member)
    decreases k - j
  {
    if j < k {
      SlideDownCallsAt(w, bs, k, j + 1);
      assert w.InRun(j);
      forall i | 0 <= i < k - j
        ensures k - 1 - i - w.start < |w.futs|
        ensures SlideDownCalls(w, bs, k, j)[i] == Call(w.futs[k - 1 - i - w.start], bs[k - i].text, bs[k - i].member)
      {
        assert i < k - j - 1 ==> SlideDownCalls(w, bs, k, j)[i] == SlideDownCalls(w, bs, k, j + 1)[i];
      }
    }
  }

  lemma {:induction false} SlideUpCallsAt(w: Win, bs: seq<Msg>, k: nat, j: nat)
    requires w.start <= k <= j <= |bs| && forall p :: k <= p < j ==> w.InRun(p)
    ensures |SlideUpCalls(w, bs, k, j)| == j - k
    ensures forall i :: 0 <= i < j - k ==>
              k + i - w.start < |w.futs|
              && SlideUpCalls(w, bs, k, j)[i] == Call(w.futs[k + i - w.start], bs[k + i].text, bs[k + i].member)
    decreases j
  {
    if k < j {
      SlideUpCallsAt(w, bs, k, j - 1);
      assert w.InRun(j - 1);
    }
  }

  /** The future number `t` comes to another message, or its placeholder gets a text. */
  ghost predicate NewsFor(w: Win, v: Win, m: Msg, t: nat)
  {
    && t < |w.futs| && w.start + t < |w.bodies| && v.start + t < |v.bodies|
    && v.bodies[v.start + t] != w.bodies[w.start + t] && (w.bodies[w.start + t].id.Some? || m.text.Some?)
  }

  /** The calls are true of the window that they lead to, and no future that there is news for goes without one. */
  ghost predicate TellAll(cs: seq<Call>, w: Win, v: Win, m: Msg)
  {
    && (forall i :: 0 <= i < |cs| ==> Says(cs[i], v))
    && (forall t: nat :: NewsFor(w, v, m, t) ==> exists i :: 0 <= i < |cs| && cs[i].fut == w.futs[t])
  }

  lemma SlidAll(w: Win, bs: seq<Msg>, k: nat, j: nat)
    requires w.start + |w.futs| < |bs| && k < |bs| && j == if w.InRun(k - 1) then w.start else k
    ensures |SlideDownCalls(w, bs, k, j)| == k - j
    ensures forall i :: 0 <= i < k - j ==>
              0 <= k - 1 - i - w.start < |w.futs|
              && SlideDownCalls(w, bs, k, j)[i] == Call(w.futs[k - 1 - i - w.start], bs[k - i].text, bs[k - i].member)
  {
    if j < k {
      SlideDownCallsAt(w, bs, k, j);
    }
  }

  lemma SlidAllUp(w: Win, bs: seq<Msg>, k: nat, j: nat)
    requires w.start + |w.futs| < |bs| && k < |bs| && j == if w.InRun(k) then w.start + |w.futs| else k
    ensures |SlideUpCalls(w, bs, k, j)| == j - k
    ensures forall i :: 0 <= i < j - k ==>
              0 <= k + i - w.start < |w.futs|
              && SlideUpCalls(w, bs, k, j)[i] == Call(w.futs[k + i - w.start], bs[k + i].text, bs[k + i].member)
  {
    if k < j {
      SlideUpCallsAt(w, bs, k, j);
    }
  }

  lemma FillTells(w: Win, p: nat, m: Msg)
    requires w.start <= p < w.start + |w.futs| && p < |w.bodies| && !w.bodies[p].Real()
    ensures TellAll(FillCalls(w, p, m), w, Filled(w, p, m), m)
  {
    var cs, v := FillCalls(w, p, m), Filled(w, p, m);
    if m.text.Some? {
      assert SaysAt(cs[0], v, p - w.start);
    }
    forall t: nat | NewsFor(w, v, m, t)
      ensures exists i :: 0 <= i < |cs| && cs[i].fut == w.futs[t]
    {
      assert w.start + t == p && cs[0].fut == w.futs[t];
    }
  }

  lemma SlideDownTells(w: Win, k: nat, m: Msg)
    requires w.Shaped() && w.futs != [] && k <= |w.bodies| && m.Real() && (k > 0 ==> w.bodies[k - 1].Real())
    ensures TellAll(SlideDownCalls(w, InsertAt(w.bodies, k, m), k, if w.InRun(k - 1) then w.start else k), w,
                    DropIdleTop(InsertSlidingDown(w, k, m)), m)
  {
    var j, bs := if w.InRun(k - 1) then w.start else k, InsertAt(w.bodies, k, m);
    var cs, v := SlideDownCalls(w, bs, k, j), DropIdleTop(InsertSlidingDown(w, k, m));
    SlidAll(w, bs, k, j);
    assert v.futs == w.futs;
    hide SlideDownCalls, DropIdleTop, InsertSlidingDown, InsertAt, Says;
    forall i | 0 <= i < |cs| ensures Says(cs[i], v) {
      SlideDownSays(w, k, m, k - 1 - i - w.start);
    }
    forall t: nat | NewsFor(w, v, m, t)
      ensures exists i :: 0 <= i < |cs| && cs[i].fut == w.futs[t]
    {
      SlideDownUnder(w, k, m, t);
      assert cs[k - 1 - w.start - t].fut == w.futs[t];
    }
  }

  /** A future that slides is told the message it comes to. */
  lemma SlideDownSays(w: Win, k: nat, m: Msg, t: nat)
    requires w.Shaped() && k <= |w.bodies| && t < |w.futs| && (k > 0 ==> w.bodies[k - 1].Real())
    requires w.start < k <= w.start + |w.futs| && w.start + t < k
    ensures var b := InsertAt(w.bodies, k, m)[w.start + t + 1];
            Says(Call(w.futs[t], b.text, b.member), DropIdleTop(InsertSlidingDown(w, k, m)))
  {
    var p, v := w.start + t + 1, DropIdleTop(InsertSlidingDown(w, k, m));
    SlideDownUnder(w, k, m, t);
    InsertedAt(w.bodies, k, m, p);
    assert SaysAt(Call(w.futs[t], InsertAt(w.bodies, k, m)[p].text, InsertAt(w.bodies, k, m)[p].member), v, t);
  }


  lemma SlideUpTells(w: Win, k: nat, m: Msg)
    requires w.Shaped() && w.futs != [] && k <= |w.bodies| && m.Real() && (k < |w.bodies| ==> w.bodies[k].Real())
    ensures TellAll(SlideUpCalls(w, InsertAt(w.bodies, k, m), k, if w.InRun(k) then w.start + |w.futs| else k), w,
                    DropIdleBottom(InsertSlidingUp(w, k, m)), m)
  {
    var j, bs := if w.InRun(k) then w.start + |w.futs| else k, InsertAt(w.bodies, k, m);
    var cs, v := SlideUpCalls(w, bs, k, j), DropIdleBottom(InsertSlidingUp(w, k, m));
    SlidAllUp(w, bs, k, j);
    assert v.futs == w.futs;
    hide SlideUpCalls, DropIdleBottom, InsertSlidingUp, InsertAt, Says;
    forall i | 0 <= i < |cs| ensures Says(cs[i], v) {
      SlideUpSays(w, k, m, k + i - w.start);
    }
    forall t: nat | NewsFor(w, v, m, t)
      ensures exists i :: 0 <= i < |cs| && cs[i].fut == w.futs[t]
    {
      SlideUpUnder(w, k, m, t);
      assert cs[w.start + t - k].fut == w.futs[t];
    }
  }

  /** A future that slides is told the message it comes to. */
  lemma SlideUpSays(w: Win, k: nat, m: Msg, t: nat)
    requires w.Shaped() && k <= |w.bodies| && t < |w.futs| && (k < |w.bodies| ==> w.bodies[k].Real())
    requires w.start <= k < w.start + |w.futs| && w.start + t >= k
    ensures var b := InsertAt(w.bodies, k, m)[w.start + t];
            Says(Call(w.futs[t], b.text, b.member), DropIdleBottom(InsertSlidingUp(w, k, m)))
  {
    var p, v := w.start + t, DropIdleBottom(InsertSlidingUp(w, k, m));
    SlideUpUnder(w, k, m, t);
    InsertedAt(w.bodies, k, m, p);
    assert SaysAt(Call(w.futs[t], InsertAt(w.bodies, k, m)[p].text, InsertAt(w.bodies, k, m)[p].member), v, t);
  }


  /** A merge tells every future that it has news for, and what it tells is so. */
  lemma MergeTells(w: Win, m: Msg, up: bool)
    requires w.Shaped() && w.futs != [] && m.Real()
    ensures TellAll(MergeCalls(w, m, up), w, Merge(w, m, up), m)
  {
    hide TellAll, SlideUpCalls, SlideDownCalls, FillCalls;
    if up {
      var k := FirstAfter(w.bodies, m);
      if k > 0 && !w.bodies[k - 1].Real() {
        NotReal(w, k - 1);
        FillTells(w, k - 1, m);
      } else {
        SlideDownTells(w, k, m);
      }
    } else {
      var k := PastLastBefore(w.bodies, m);
      if k < |w.bodies| && !w.bodies[k].Real() {
        NotReal(w, k);
        FillTells(w, k, m);
      } else {
        SlideUpTells(w, k, m);
      }
    }
  }

  /** A refresh calls at most once: exactly if the message is shown and its text changes. That only its member changes
      is not told. */
  lemma RefreshSays(w: Win, e: Incoming, k: nat)
    requires w.start + |w.futs| <= |w.bodies| && k < |w.bodies| && w.bodies[k].id == Some(e.id)
    requires forall i :: 0 <= i < k ==> w.bodies[i].id != Some(e.id)
    ensures if w.start <= k < w.start + |w.futs| && Refresh(w, e).bodies[k].text != w.bodies[k].text
            then |RefreshCalls(w, e)| == 1 && SaysAt(RefreshCalls(w, e)[0], Refresh(w, e), k - w.start)
            else RefreshCalls(w, e) == []
  {
    RefreshCalled(w, e);
    RefreshCases(w, e);
  }

  lemma RefreshUnknown(w: Win, e: Incoming)
    requires forall i :: 0 <= i < |w.bodies| ==> w.bodies[i].id != Some(e.id)
    ensures RefreshCalls(w, e) == [] && Refresh(w, e) == w
  {
    RefreshCalled(w, e);
    RefreshCases(w, e);
  }

  /** A window on the way through a chunk: after some of the refreshing, or after some of the merging. */
  ghost predicate OnTheWay(w: Win, es: seq<Incoming>, chunk: ChunkRef, up: bool, n: nat, v: Win)
  {
    || (n <= |es| && v == RefreshAll(w, es[..n]))
    || (n <= |News(w.bodies, es)| && v == MergeAll(RefreshAll(w, es), News(w.bodies, es)[..n], chunk, up))
  }

  /** When it is made, the call says what is so. */
  ghost predicate SaysThen(c: Call, w: Win, es: seq<Incoming>, chunk: ChunkRef, up: bool)
  {
    exists n: nat, v :: OnTheWay(w, es, chunk, up, n, v) && Says(c, v)
  }

  lemma {:induction false} RefreshAllSays(w: Win, es: seq<Incoming>, n: nat, chunk: ChunkRef, up: bool, c: Call)
    requires w.Shaped() && n <= |es| && c in RefreshAllCalls(w, es[..n])
    ensures SaysThen(c, w, es, chunk, up)
  {
    hide RefreshAll, Refresh, RefreshCalls, Says, News, MergeAll;
    if n > 0 {
      var u := RefreshAll(w, es[..n - 1]);
      assert es[..n][..n - 1] == es[..n - 1];
      if c in RefreshAllCalls(w, es[..n - 1]) {
        RefreshAllSays(w, es, n - 1, chunk, up, c);
      } else {
        RefreshAllKeeps(w, es[..n - 1]);
        RefreshAllStep(w, es, n - 1);
        RefreshOneSays(u, es[n - 1]);
        assert OnTheWay(w, es, chunk, up, n, RefreshAll(w, es[..n]));
      }
    }
  }

  lemma RefreshOneSays(u: Win, e: Incoming)
    requires u.start + |u.futs| <= |u.bodies|
    ensures forall c :: c in RefreshCalls(u, e) ==> Says(c, Refresh(u, e))
  {
    var k := Find(u.bodies, e.id);
    if k < |u.bodies| {
      RefreshSays(u, e, k);
    } else {
      RefreshUnknown(u, e);
    }
  }

  lemma TellAllSay(cs: seq<Call>, w: Win, v: Win, m: Msg)
    requires TellAll(cs, w, v, m)
    ensures forall i :: 0 <= i < |cs| ==> Says(cs[i], v)
  {
  }

  lemma MergeOneSays(u: Win, e: Incoming, chunk: ChunkRef, up: bool)
    requires u.Shaped() && u.futs != []
    ensures ToMsg(e, chunk).Real()
    ensures forall c :: c in MergeCalls(u, ToMsg(e, chunk), up) ==> Says(c, Merge(u, ToMsg(e, chunk), up))
  {
    ToMsgParts(e, chunk);
    MergeTells(u, ToMsg(e, chunk), up);
    TellAllSay(MergeCalls(u, ToMsg(e, chunk), up), u, Merge(u, ToMsg(e, chunk), up), ToMsg(e, chunk));
  }

  lemma {:induction false} MergeAllSays(w: Win, es: seq<Incoming>, n: nat, chunk: ChunkRef, up: bool, c: Call)
    requires w.Shaped() && w.futs != [] && n <= |News(w.bodies, es)|
    requires c in MergeAllCalls(RefreshAll(w, es), News(w.bodies, es)[..n], chunk, up)
    ensures SaysThen(c, w, es, chunk, up)
  {
    hide *;
    var r, news := RefreshAll(w, es), News(w.bodies, es);
    assert news[..0] == [];
    MergeNoneCalled(r, chunk, up);
    if n > 0 {
      MergeAllSplit(r, news[..n], chunk, up, c);
      assert news[..n][..n - 1] == news[..n - 1];
      if c in MergeAllCalls(r, news[..n - 1], chunk, up) {
        MergeAllSays(w, es, n - 1, chunk, up, c);
      } else {
        RefreshAllKeeps(w, es);
        SameIdsRun(r, w);
        MergeAllKeeps(r, news[..n - 1], chunk, up);
        MergeAllStep(r, news, n - 1, chunk, up);
        MergeOneSays(MergeAll(r, news[..n - 1], chunk, up), news[n - 1], chunk, up);
        SaidOnTheWay(c, w, es, chunk, up, n, MergeAll(r, news[..n], chunk, up));
      }
    }
  }

  lemma SameIdsRun(v: Win, w: Win)
    requires SameIds(v, w)
    ensures v.futs == w.futs
  {
  }

  lemma MergeAllSplit(w: Win, es: seq<Incoming>, chunk: ChunkRef, up: bool, c: Call)
    requires es != [] && c in MergeAllCalls(w, es, chunk, up)
    ensures ToMsg(es[|es| - 1], chunk).Real()
    ensures || c in MergeAllCalls(w, es[..|es| - 1], chunk, up)
            || c in MergeCalls(MergeAll(w, es[..|es| - 1], chunk, up), ToMsg(es[|es| - 1], chunk), up)
  {
    hide MergeCalls, MergeAll;
  }

  lemma SaidOnTheWay(c: Call, w: Win, es: seq<Incoming>, chunk: ChunkRef, up: bool, n: nat, v: Win)
    requires n <= |News(w.bodies, es)| && v == MergeAll(RefreshAll(w, es), News(w.bodies, es)[..n], chunk, up)
    requires Says(c, v)
    ensures SaysThen(c, w, es, chunk, up)
  {
    assert OnTheWay(w, es, chunk, up, n, v);
  }

  /** Every call that a chunk causes tells a future of the text and the member of the message that the future is over
      when the call is made. */
  lemma ChunkSays(w: Win, es: seq<Incoming>, chunk: ChunkRef, up: bool, c: Call)
    requires w.Shaped() && w.futs != [] && c in ChunkCalls(w, es, chunk, up)
    ensures SaysThen(c, w, es, chunk, up)
  {
    var news := News(w.bodies, es);
    assert es[..|es|] == es && news[..|news|] == news;
    if c in RefreshAllCalls(w, es) {
      RefreshAllSays(w, es, |es|, chunk, up, c);
    } else {
      MergeAllSays(w, es, |news|, chunk, up, c);
    }
  }

  /** This message is there as it came. */
  ghost predicate Brought(bs: seq<Msg>, e: Incoming)
  {
    exists i :: 0 <= i < |bs| && Came(bs[i], e)
  }

  lemma ChunkBrings(w: Win, es: seq<Incoming>, chunk: ChunkRef, up: bool)
    requires w.Shaped() && w.futs != []
    ensures forall e :: e in News(w.bodies, es) ==> Brought(MergeChunk(w, es, chunk, up).bodies, e)
    ensures forall c :: c in ChunkCalls(w, es, chunk, up) ==> SaysThen(c, w, es, chunk, up)
  {
    hide *;
    forall e | e in News(w.bodies, es) ensures Brought(MergeChunk(w, es, chunk, up).bodies, e) {
      NewsAre(w.bodies, es, e);
      NewsCame(w, es, chunk, up, e);
      BroughtIs(MergeChunk(w, es, chunk, up).bodies, e, chunk);
    }
    forall c | c in ChunkCalls(w, es, chunk, up) ensures SaysThen(c, w, es, chunk, up) {
      ChunkSays(w, es, chunk, up, c);
    }
  }

  lemma BroughtIs(bs: seq<Msg>, e: Incoming, chunk: ChunkRef)
    requires Msg(Some(chunk), Some(e.id), e.text, e.member, e.stamp) in bs
    ensures Brought(bs, e)
  {
    var i :| 0 <= i < |bs| && bs[i] == Msg(Some(chunk), Some(e.id), e.text, e.member, e.stamp);
    assert Came(bs[i], e);
  }

  lemma DecryptSays(w: Win, id: string, text: string, k: nat)
    requires w.start + |w.futs| <= |w.bodies| && k < |w.bodies| && w.bodies[k].id == Some(id)
    requires forall i :: 0 <= i < k ==> w.bodies[i].id != Some(id)
    ensures if w.start <= k < w.start + |w.futs| && w.bodies[k].text != Some(text)
            then |DecryptCalls(w, id, text)| == 1
                 && SaysAt(DecryptCalls(w, id, text)[0], Decrypted(w, id, text), k - w.start)
                 && DecryptCalls(w, id, text)[0].text == Some(text)
            else DecryptCalls(w, id, text) == []
  {
    DecryptCalled(w, id, text);
    DecryptedCases(w, id, text);
  }

  /** A new future is told of the message it comes to, at most. */
  lemma LoadSays(w: Win, side: Side, f: Fut)
    requires w.Shaped() && f !in w.futs && !EndWaits(w, side)
    ensures forall c :: c in LoadCalls(w, side, f) ==> c.fut == f && Says(c, Load(w, side, f))
    ensures var v := Load(w, side, f);
            LoadCalls(w, side, f) == [] <==> v.bodies[if side.Top? then v.start else v.Bottom()].text == None
  {
    var v := Load(w, side, f);
    var k := if side.Top? then v.start else v.Bottom();
    if LoadCalls(w, side, f) != [] {
      assert SaysAt(LoadCalls(w, side, f)[0], v, if side.Top? then 0 else |v.futs| - 1);
    }
  }

  /** ui_message_t, allocated. */
  class Message {
    var fut: Option<Fut>
    var data: Msg

    constructor (d: Msg)
      ensures data == d && fut == None
    {
      data, fut := d, None;
    }
  }

  /** The messages of the list are `bs`. */
  ghost predicate Hold(msgs: seq<Message>, bs: seq<Msg>)
    reads msgs`data
  {
    |msgs| == |bs| && forall i {:trigger msgs[i].data} :: 0 <= i < |msgs| ==> msgs[i].data == bs[i]
  }

  /** The messages are those of `w`, each with its future. */
  ghost predicate Carry(ms: seq<Message>, w: Win)
    reads ms`data, ms`fut
  {
    && Distinct(ms) && |ms| == |w.bodies|
    && forall i {:trigger ms[i]} :: 0 <= i < |ms| ==> ms[i].data == w.bodies[i] && ms[i].fut == w.FutAt(i)
  }

  /** The messages at the two ends of the run. */
  function Ends(msgs: seq<Message>, w: Win): (Message?, Message?)
  {
    if w.futs == [] || w.Bottom() >= |msgs| then (null, null) else (msgs[w.start], msgs[w.Bottom()])
  }

  /** The bottom message of the list. */
  function LastOf(msgs: seq<Message>): Message?
  {
    if msgs == [] then null else msgs[|msgs| - 1]
  }

  /** beeper_rcstr_t */
  datatype Counted = Counted(rc: nat, s: string)

  /** A counted string is allocated exactly while something points at it, and its count is how many do. */
  ghost predicate StringsRight(live: map<ChunkRef, Counted>, nextRef: ChunkRef, refs: multiset<ChunkRef>,
                               texts: map<ChunkRef, string>)
  {
    forall r ::
      && (r in live <==> r in refs)
      && (r in live ==> r in texts && live[r] == Counted(refs[r], texts[r]))
      && (r in texts ==> r < nextRef)
  }

  lemma OneFewer(live: map<ChunkRef, Counted>, nextRef: ChunkRef, refs: multiset<ChunkRef>,
                 texts: map<ChunkRef, string>, r: ChunkRef)
    requires StringsRight(live, nextRef, refs, texts) && r in refs
    ensures r in live && live[r].rc == refs[r]
    ensures StringsRight(if live[r].rc == 1 then live - {r} else live[r := live[r].(rc := live[r].rc - 1)],
                         nextRef, refs - multiset{r}, texts)
  {
    assert forall x :: (refs - multiset{r})[x] == if x == r then refs[x] - 1 else refs[x];
  }

  /** What a room holds, the objects of its messages left aside. */
  datatype View = View(win: Win, shown: map<Fut, Seen>, calls: seq<Call>, top: Option<ChunkRef>,
                       bottom: Option<ChunkRef>,
                       texts: map<ChunkRef, string>, notCaughtUp: bool, requests: seq<Request>)
  {
    ghost function TextOf(o: Option<ChunkRef>): Option<string>
    {
      if o.Some? && o.value in texts then Some(texts[o.value]) else None
    }

    /** The chunk id that is asked for on one side. */
    ghost function Slot(up: bool): Option<string>
    {
      TextOf(if up then top else bottom)
    }

    ghost predicate Wants(ev: MessagesEvent)
    {
      if ev.thisChunk.Some? then Slot(ev.up) == ev.thisChunk
      else !notCaughtUp && win.futs != [] && |win.bodies| - 1 - win.Bottom() < 30
    }

    /** A chunk that is wanted, but has no chunk id for its messages, is not survived. */
    ghost predicate Survives(ev: MessagesEvent)
    {
      Wants(ev) ==> ev.thisChunk.Some? || ev.nextChunk.Some? || News(win.bodies, ev.messages) == []
    }
  }

  /** What a chunk makes of a room that survives it. */
  ghost predicate TakenIn(ev: MessagesEvent, a: View, b: View)
  {
    && b.shown == Told(a.shown, b.calls)
    && if a.Wants(ev) then
         && a.win.futs != [] && b.win.Shaped() && b.win.futs != []
         && (exists c :: b.win == MergeChunk(a.win, ev.messages, c, ev.up)
                         && b.calls == ChunkCalls(a.win, ev.messages, c, ev.up))
         && (forall e :: e in News(a.win.bodies, ev.messages) ==> Brought(b.win.bodies, e))
         && b.requests == a.requests + Asks(b.win, a.notCaughtUp, ev) && b.Slot(!ev.up) == a.Slot(!ev.up)
         && b.Slot(ev.up) == (if Asks(b.win, a.notCaughtUp, ev) != [] then Asks(b.win, a.notCaughtUp, ev)[0].chunk
                              else if ev.thisChunk.Some? then None else a.Slot(ev.up))
         && b.notCaughtUp == (a.notCaughtUp && (ev.up || ev.thisChunk.None? || ev.nextChunk.Some?))
       else
         && b.win == a.win && b.calls == [] && b.requests == a.requests
         && b.Slot(true) == a.Slot(true) && b.Slot(false) == a.Slot(false)
         && b.notCaughtUp == (a.notCaughtUp || (ev.thisChunk.None? && a.win.futs != []))
  }

  class Room {
    var msgs: seq<Message>  // msg_list, from top to bottom
    var bubbleTop: Message?
    var bubbleBottom: Message?
    var live: map<ChunkRef, Counted>  // beeper_rcstr_t, allocated
    var nextRef: ChunkRef             // an address never used so far
    var topRequested: Option<ChunkRef>
    var bottomRequested: Option<ChunkRef>
    var notCaughtUp: bool
    var calls: seq<Call>
    var requests: seq<Request>
    ghost var refs: multiset<ChunkRef>       // every pointer there is to a counted string
    ghost var texts: map<ChunkRef, string>   // every counted string that was ever allocated
    ghost var pool: set<Message>  // every message object the room has allocated
    ghost var win: Win
    ghost var base: map<Fut, Seen>   // what the futures showed before `calls`
    ghost var shown: map<Fut, Seen>  // and what they show after them

    ghost function Now(): (v: View)
      reads this
      ensures v == View(win, shown, calls, topRequested, bottomRequested, texts, notCaughtUp, requests)
    {
      View(win, shown, calls, topRequested, bottomRequested, texts, notCaughtUp, requests)
    }

    /** The two marks are the ends of the run. */
    ghost predicate Marks()
      reads this`bubbleTop, this`bubbleBottom, this`msgs, this`win
    {
      (bubbleTop, bubbleBottom) == Ends(msgs, win)
    }

    ghost predicate InPool()
      reads this`msgs, this`pool
    {
      forall i :: 0 <= i < |msgs| ==> msgs[i] in pool
    }

    ghost predicate StringsValid()
      reads this`live, this`nextRef, this`refs, this`texts
    {
      StringsRight(live, nextRef, refs, texts)
    }

    ghost predicate Logged()
      reads this`base, this`shown, this`calls
    {
      shown == Told(base, calls) && forall i {:trigger calls[i]} :: 0 <= i < |calls| ==> calls[i].fut in base
    }

    /** The list holds the messages of `win`, each with its future; the marks are at the ends of the run;
        every future shows the text of its message. */
    ghost predicate Sound()
      reads this`msgs, this`pool, this`win, this`bubbleTop, this`bubbleBottom, this`shown, this`base, this`calls
      reads msgs`data, msgs`fut
    {
      && Distinct(msgs) && |msgs| == |win.bodies|
      && (forall i {:trigger msgs[i]} :: 0 <= i < |msgs| ==>
            msgs[i] in pool && msgs[i].data == win.bodies[i] && msgs[i].fut == win.FutAt(i))
      && Marks() && Distinct(win.futs) && DisplaysIn(shown, win) && Logged()
    }

    /** Every pointer to a chunk id string is a message's or a request slot's. */
    ghost predicate Balanced()
      reads this`win, this`topRequested, this`bottomRequested, this`live, this`nextRef, this`refs, this`texts
    {
      && StringsValid()
      && refs == ChunkRefs(win.bodies) + RefsOf(topRequested) + RefsOf(bottomRequested)
    }

    constructor ()
      ensures Valid() && win == EMPTY && calls == [] && requests == [] && msgs == [] && shown == map[] && pool == {}
      ensures topRequested == None && bottomRequested == None && !notCaughtUp && texts == map[]
    {
      live, nextRef, refs, texts := map[], 0, multiset{}, map[];
      msgs, bubbleTop, bubbleBottom := [], null, null;
      topRequested, bottomRequested := None, None;
      notCaughtUp := false;
      calls, requests := [], [];
      pool, win, base, shown := {}, EMPTY, map[], map[];
    }

    // -------- counted strings --------

    method Create(s: string) returns (r: ChunkRef)
      requires StringsValid()
      modifies this`live, this`nextRef, this`refs, this`texts
      ensures StringsValid() && r !in old(live) && r !in old(texts)
      ensures refs == old(refs) + multiset{r} && texts == old(texts)[r := s]
    {
      r := nextRef;
      assert r !in texts && r !in live && r !in refs;
      nextRef := nextRef + 1;
      live := live[r := Counted(1, s)];
      refs := refs + multiset{r};
      texts := texts[r := s];
    }

    /** The string made earlier for the same purpose, if any; else a new one. */
    method CreateMaybe(already: Option<ChunkRef>, s: string) returns (r: ChunkRef)
      requires StringsValid() && (already.Some? ==> already.value in refs && texts[already.value] == s)
      modifies this`live, this`nextRef, this`refs, this`texts
      ensures StringsValid() && refs == old(refs) + multiset{r} && r in texts && texts[r] == s
      ensures already.Some? ==> r == already.value && texts == old(texts)
      ensures already.None? ==> r !in old(texts) && texts == old(texts)[r := s]
    {
      if already.Some? {
        r := already.value;
        Incref(already);
      } else {
        r := Create(s);
      }
    }

    method Incref(o: Option<ChunkRef>)
      requires StringsValid() && (o.Some? ==> o.value in refs)
      modifies this`live, this`nextRef, this`refs, this`texts
      ensures StringsValid() && refs == old(refs) + RefsOf(o) && texts == old(texts)
    {
      if o.Some? {
        var r := o.value;
        live := live[r := live[r].(rc := live[r].rc + 1)];
        refs := refs + multiset{r};
      }
    }

    /** Frees the string exactly when this was the last pointer to it. */
    method Decref(o: Option<ChunkRef>)
      requires StringsValid() && (o.Some? ==> o.value in refs)
      modifies this`live, this`nextRef, this`refs, this`texts
      ensures StringsValid() && refs == old(refs) - RefsOf(o) && texts == old(texts)
      ensures live.Keys == if o.Some? && old(refs)[o.value] == 1 then old(live.Keys) - {o.value} else old(live.Keys)
    {
      if o.Some? {
        var r := o.value;
        OneFewer(live, nextRef, refs, texts, r);
        var rc := live[r].rc - 1;
        live := if rc == 0 then live - {r} else live[r := live[r].(rc := rc)];
        refs := refs - multiset{r};
      }
    }

    // -------- what the UI is told --------

    method Tell(f: Fut, text: Option<string>, member: Member)
      requires Logged() && f in shown
      modifies this`calls, this`shown
      ensures Logged() && calls == old(calls) + [Call(f, text, member)]
      ensures shown == old(shown)[f := Seen(text, member, true)]
    {
      ToldKeys(base, calls);
      assert (calls + [Call(f, text, member)])[..|calls|] == calls;
      calls := calls + [Call(f, text, member)];
      shown := shown[f := Seen(text, member, true)];
    }

    // -------- an insertion, with the futures being slid to close the hole it opened --------

    /** The list has one message more than the window, and the hole that opened is at `j`. */
    ghost predicate HoleFuts(j: int)
      reads this`win, this`msgs, msgs`fut
    {
      0 <= j < |msgs| == |win.bodies| + 1 && forall i {:trigger msgs[i].fut} :: 0 <= i < |msgs| ==>
        msgs[i].fut == HoleFut(win, j, i)
    }

    ghost predicate HoleMarks(j: int)
      reads this`win, this`bubbleTop, this`bubbleBottom, this`msgs
    {
      && win.futs != [] && 0 <= j < |msgs| && win.start + |win.futs| < |msgs|
      && bubbleTop == msgs[HolePos(j, win.start)]
      && bubbleBottom == msgs[HolePos(j, win.Bottom())]
    }

    /** Takes the future of the neighbour at `i` into the hole at `j`. */
    method TakeFuture(msg: Message, from: Message, ghost j: nat, ghost i: nat)
      requires Distinct(msgs) && HoleFuts(j)
      requires (i == j - 1 || i == j + 1) && i < |msgs|
      requires msg == msgs[j] && from == msgs[i]
      modifies msg`fut, from`fut
      ensures HoleFuts(i)
    {
      HoleStep(win, j, i);
      assert msg != from;
      msg.fut := from.fut;
      from.fut := None;
    }

    lemma MarkStep(p: int, j: int, i: int)
      requires Distinct(msgs) && 0 <= i < |msgs| && 0 <= HolePos(j, p) < |msgs| && (i == j - 1 || i == j + 1)
      ensures msgs[HolePos(j, p)] == msgs[i] <==> HolePos(j, p) == i
      ensures HolePos(i, p) == if HolePos(j, p) == i then j else HolePos(j, p)
    {
      HoleStep(win, j, i);
    }

    /** Moves the marks along with a future that goes from `from` to `msg`. */
    method MoveMarks(msg: Message, from: Message, ghost j: nat, ghost i: nat)
      requires Distinct(msgs) && HoleMarks(j)
      requires (i == j - 1 || i == j + 1) && i < |msgs| && j < |msgs|
      requires msg == msgs[j] && from == msgs[i]
      modifies this`bubbleTop, this`bubbleBottom
      ensures HoleMarks(i)
    {
      MarkStep(win.start, j, i);
      MarkStep(win.Bottom(), j, i);
      if bubbleTop == from {
        bubbleTop := msg;
      }
      if bubbleBottom == from {
        bubbleBottom := msg;
      }
    }

    /** Tells the future that moves from `from` to `msg` its new text, and moves the marks along. */
    method TellAndMark(msg: Message, from: Message, ghost bs: seq<Msg>, ghost j: nat, ghost i: nat)
      requires Distinct(msgs) && HoleMarks(j)
      requires (i == j - 1 || i == j + 1) && i < |bs| == |msgs| && j < |msgs|
      requires msg == msgs[j] && from == msgs[i]
      requires Distinct(win.futs) && HoleDisplay(shown, win, bs, j) && Logged()
      requires from.fut == HoleFut(win, j, i) && from.fut.Some? && msg.data == bs[j] && bs[j].Real()
      modifies this`bubbleTop, this`bubbleBottom, this`calls, this`shown
      ensures HoleMarks(i) && HoleDisplay(shown, win, bs, i) && Logged()
      ensures calls == old(calls) + [Call(from.fut.value, bs[j].text, bs[j].member)]
    {
      hide *;
      HoleDisplayStep(shown, win, bs, j, i, from.fut.value);
      Tell(from.fut.value, msg.data.text, msg.data.member);
      MoveMarks(msg, from, j, i);
    }

    /** One round of either sliding loop. */
    method SlideOne(msg: Message, from: Message, ghost bs: seq<Msg>, ghost j: nat, ghost i: nat)
      requires Distinct(msgs) && Hold(msgs, bs) && HoleFuts(j) && HoleMarks(j)
      requires (i == j - 1 || i == j + 1) && i < |msgs|
      requires msg == msgs[j] && from == msgs[i] && from.fut.Some? && bs[j].Real()
      requires Distinct(win.futs) && HoleDisplay(shown, win, bs, j) && Logged()
      modifies this`bubbleTop, this`bubbleBottom, this`calls, this`shown, msg`fut, from`fut
      ensures Hold(msgs, bs) && HoleFuts(i) && HoleMarks(i) && HoleDisplay(shown, win, bs, i) && Logged()
      ensures HoleFut(win, j, i).Some?
      ensures calls == old(calls) + [Call(HoleFut(win, j, i).value, bs[j].text, bs[j].member)]
    {
      TellAndMark(msg, from, bs, j, i);
      TakeFuture(msg, from, j, i);
    }

    /** Slides the futures above the hole down, one by one, until it is above them all. */
    method SlideDown(ghost bs: seq<Msg>, k: nat) returns (ghost j: nat)
      requires InPool() && Distinct(msgs) && Hold(msgs, bs) && HoleFuts(k) && HoleMarks(k)
      requires Distinct(win.futs) && HoleDisplay(shown, win, bs, k) && Logged()
      requires k < |bs| && forall j {:trigger bs[j]} :: 0 < j <= k ==> bs[j].Real()
      modifies this`bubbleTop, this`bubbleBottom, this`calls, this`shown, pool`fut
      ensures j <= k && Hold(msgs, bs) && HoleFuts(j) && HoleMarks(j) && HoleDisplay(shown, win, bs, j) && Logged()
      ensures !win.InRun(j - 1) && forall p :: j <= p < k ==> win.InRun(p)
      ensures calls == old(calls) + SlideDownCalls(win, bs, k, j)
    {
      hide SlideDownCalls, HoleDisplay, HoleMarks, Logged, Hold;
      var at := k;
      SlidNone(win, bs, k, calls);
      while 0 < at && msgs[at - 1].fut.Some?
        invariant at <= k && Hold(msgs, bs)
        invariant HoleFuts(at) && HoleMarks(at) && HoleDisplay(shown, win, bs, at) && Logged()
        invariant forall p :: at <= p < k ==> win.InRun(p)
        invariant calls == old(calls) + SlideDownCalls(win, bs, k, at)
      {
        SlidDown(win, bs, k, at, old(calls));
        SlideOne(msgs[at], msgs[at - 1], bs, at, at - 1);
        at := at - 1;
      }
      j := at;
    }

    lemma RunEnds(j: int)
      requires HoleMarks(j)
      ensures win.start + |win.futs| < |msgs|
    {
    }

    /** Slides the futures below the hole up, one by one, until it is below them all. */
    method SlideUp(ghost bs: seq<Msg>, k: nat) returns (ghost j: nat)
      requires InPool() && Distinct(msgs) && Hold(msgs, bs) && HoleFuts(k) && HoleMarks(k)
      requires Distinct(win.futs) && HoleDisplay(shown, win, bs, k) && Logged()
      requires forall j {:trigger bs[j]} :: k <= j < |bs| - 1 ==> bs[j].Real()
      modifies this`bubbleTop, this`bubbleBottom, this`calls, this`shown, pool`fut
      ensures k <= j < |bs| && Hold(msgs, bs) && HoleFuts(j) && HoleMarks(j) && HoleDisplay(shown, win, bs, j)
      ensures Logged()
      ensures !win.InRun(j) && forall p :: k <= p < j ==> win.InRun(p)
      ensures calls == old(calls) + SlideUpCalls(win, bs, k, j)
    {
      hide SlideUpCalls, HoleDisplay, HoleMarks, Logged;
      var at := k;
      SlidNone(win, bs, k, calls);
      while at < |msgs| - 1 && msgs[at + 1].fut.Some?
        invariant k <= at < |msgs| && Hold(msgs, bs)
        invariant HoleFuts(at) && HoleMarks(at) && HoleDisplay(shown, win, bs, at) && Logged()
        invariant forall p :: k <= p < at ==> win.InRun(p)
        invariant calls == old(calls) + SlideUpCalls(win, bs, k, at)
      {
        SlidUp(win, bs, k, at, old(calls));
        SlideOne(msgs[at], msgs[at + 1], bs, at, at + 1);
        at := at + 1;
      }
      RunEnds(at);
      j := at;
    }
  
    /** Puts a new message without a future at `k`. */
    method OpenHole(k: nat, m: Msg)
      requires Sound() && win.futs != [] && k <= |win.bodies|
      modifies this`msgs, this`pool
      ensures fresh(pool - old(pool)) && InPool()
      ensures Distinct(msgs) && Hold(msgs, InsertAt(win.bodies, k, m)) && HoleFuts(k) && HoleMarks(k)
      ensures HoleDisplay(shown, win, InsertAt(win.bodies, k, m), k)
    {
      hide *;
      SoundRuns();
      OpenHoleDisplay(shown, win, k, m);
      var x := new Message(m);
      ghost var ms := msgs;
      CarryApart(ms, x);
      msgs := InsertAt(msgs, k, x);
      pool := pool + {x};
      Opened(ms, x, k, m);
    }

    lemma SoundRuns()
      requires Sound() && win.futs != []
      ensures Carry(msgs, win) && (forall i :: 0 <= i < |msgs| ==> msgs[i] in pool) && |msgs| == |win.bodies|
      ensures (bubbleTop, bubbleBottom) == Ends(msgs, win) && win.start + |win.futs| <= |win.bodies|
      ensures Distinct(win.futs) && DisplaysIn(shown, win)
    {
    }

    lemma CarryApart(ms: seq<Message>, x: Message)
      requires msgs == ms && x !in pool && forall i :: 0 <= i < |ms| ==> ms[i] in pool
      ensures x !in ms
    {
    }

    /** A message without a future has been put into the list. */
    lemma Opened(ms: seq<Message>, x: Message, k: nat, m: Msg)
      requires Carry(ms, win) && win.futs != [] && win.start + |win.futs| <= |win.bodies| && k <= |ms|
      requires x !in ms && x.data == m && x.fut == None && msgs == InsertAt(ms, k, x) && x in pool
      requires (forall i :: 0 <= i < |ms| ==> ms[i] in pool) && (bubbleTop, bubbleBottom) == Ends(ms, win)
      ensures InPool() && Distinct(msgs) && Hold(msgs, InsertAt(win.bodies, k, m)) && HoleFuts(k) && HoleMarks(k)
    {
      InsertAtHolePos(ms, k, x, win.start);
      InsertAtHolePos(ms, k, x, win.Bottom());
    }

    lemma ClosedUp(k: nat, m: Msg, j: nat)
      requires k <= |win.bodies| && InPool() && Distinct(msgs) && Hold(msgs, InsertAt(win.bodies, k, m)) && HoleFuts(j)
      requires HoleMarks(j)
      requires win.futs != [] && Distinct(win.futs) && HoleDisplay(shown, win, InsertAt(win.bodies, k, m), j)
      requires j <= k && !win.InRun(j - 1) && forall p :: j <= p < k ==> win.InRun(p)
      ensures var v := InsertSlidingDown(win, k, m);
              HoldsBut(v, -1) && (bubbleTop, bubbleBottom) == Ends(msgs, v) && Distinct(v.futs) && DisplaysIn(shown, v)
    {
      HoleUpClosed(win, k, m, j, shown);
    }

    lemma ClosedDown(k: nat, m: Msg, j: nat)
      requires k <= |win.bodies| && InPool() && Distinct(msgs) && Hold(msgs, InsertAt(win.bodies, k, m)) && HoleFuts(j)
      requires HoleMarks(j)
      requires win.futs != [] && Distinct(win.futs) && HoleDisplay(shown, win, InsertAt(win.bodies, k, m), j)
      requires k <= j <= |win.bodies| && !win.InRun(j) && forall p :: k <= p < j ==> win.InRun(p)
      ensures var v := InsertSlidingUp(win, k, m);
              HoldsBut(v, -1) && (bubbleTop, bubbleBottom) == Ends(msgs, v) && Distinct(v.futs) && DisplaysIn(shown, v)
    {
      HoleDownClosed(win, k, m, j, shown);
    }

    lemma InsertSolid(bs: seq<Msg>, k: nat, m: Msg)
      requires m.Real() && k <= |bs|
      ensures |InsertAt(bs, k, m)| == |bs| + 1
      ensures (forall j {:trigger bs[j]} :: 0 < j < k ==> bs[j].Real()) ==>
                forall j {:trigger InsertAt(bs, k, m)[j]} :: 0 < j <= k ==> InsertAt(bs, k, m)[j].Real()
      ensures (forall j {:trigger bs[j]} :: k <= j < |bs| - 1 ==> bs[j].Real()) ==>
                forall j {:trigger InsertAt(bs, k, m)[j]} :: k <= j < |bs| ==> InsertAt(bs, k, m)[j].Real()
    {
    }

    /** Inserts a message at `k` and slides the futures above it. */
    method InsertUp(k: nat, m: Msg)
      requires Sound() && win.futs != [] && k <= |win.bodies|
      requires m.Real() && forall j {:trigger win.bodies[j]} :: 0 < j < k ==> win.bodies[j].Real()
      modifies this`msgs, this`pool, this`win, this`bubbleTop, this`bubbleBottom, this`calls, this`shown, pool`fut
      ensures fresh(pool - old(pool))
      ensures Sound() && win == InsertSlidingDown(old(win), k, m)
      ensures calls == old(calls) + SlideDownCalls(old(win), InsertAt(old(win).bodies, k, m), k,
                                                   if old(win).InRun(k - 1) then old(win).start else k)
    {
      hide *;
      SoundParts();
      InsertSolid(win.bodies, k, m);
      OpenHole(k, m);
      ghost var j := SlideDown(InsertAt(win.bodies, k, m), k);
      ClosedUp(k, m, j);
      SlidTo(win, k, j);
      win := InsertSlidingDown(win, k, m);
      SoundAgain();
    }

    method InsertDown(k: nat, m: Msg)
      requires Sound() && win.futs != [] && k <= |win.bodies|
      requires m.Real() && forall j {:trigger win.bodies[j]} :: k <= j < |win.bodies| - 1 ==> win.bodies[j].Real()
      modifies this`msgs, this`pool, this`win, this`bubbleTop, this`bubbleBottom, this`calls, this`shown, pool`fut
      ensures fresh(pool - old(pool))
      ensures Sound() && win == InsertSlidingUp(old(win), k, m)
      ensures calls == old(calls) + SlideUpCalls(old(win), InsertAt(old(win).bodies, k, m), k,
                                                 if old(win).InRun(k) then old(win).start + |old(win).futs| else k)
    {
      hide *;
      SoundParts();
      InsertSolid(win.bodies, k, m);
      OpenHole(k, m);
      ghost var j := SlideUp(InsertAt(win.bodies, k, m), k);
      ClosedDown(k, m, j);
      SlidUpTo(win, k, j);
      win := InsertSlidingUp(win, k, m);
      SoundAgain();
    }

    // -------- taking in one message of a chunk --------

    /** Scans from the top for the first message that comes after `m`. */
    method ScanDown(m: Msg) returns (k: nat)
      requires Hold(msgs, win.bodies) && m.Real()
      ensures k == FirstAfter(win.bodies, m)
    {
      k := 0;
      while k < |msgs| && !Before(m, msgs[k].data)
        invariant k <= |msgs|
        invariant forall i :: 0 <= i < k ==> !Before(m, win.bodies[i])
      {
        k := k + 1;
      }
    }

    /** Scans from the bottom for the last message that comes before `m`. */
    method ScanUp(m: Msg) returns (k: nat)
      requires Hold(msgs, win.bodies) && m.Real()
      ensures k == PastLastBefore(win.bodies, m)
    {
      k := |msgs|;
      while 0 < k && !Before(msgs[k - 1].data, m)
        invariant k <= |msgs|
        invariant forall i :: k <= i < |msgs| ==> !Before(win.bodies[i], m)
      {
        k := k - 1;
      }
    }

    /** Takes the top message off the list and frees it. */
    method RemoveTop()
      requires |msgs| > 0 && StringsValid()
      requires msgs[0].data.chunk.Some? ==> msgs[0].data.chunk.value in refs
      modifies this`msgs, this`live, this`nextRef, this`refs, this`texts
      ensures msgs == old(msgs)[1..] && StringsValid()
      ensures refs == old(refs) - RefsOf(old(msgs)[0].data.chunk)
      ensures texts == old(texts)
    {
      var msg := msgs[0];
      msgs := msgs[1..];
      Decref(msg.data.chunk);
    }

    method RemoveBottom()
      requires |msgs| > 0 && StringsValid()
      requires msgs[|msgs| - 1].data.chunk.Some? ==> msgs[|msgs| - 1].data.chunk.value in refs
      modifies this`msgs, this`live, this`nextRef, this`refs, this`texts
      ensures msgs == old(msgs)[..|old(msgs)| - 1] && StringsValid()
      ensures refs == old(refs) - RefsOf(old(msgs)[|old(msgs)| - 1].data.chunk)
      ensures texts == old(texts)
    {
      var msg := msgs[|msgs| - 1];
      msgs := msgs[..|msgs| - 1];
      Decref(msg.data.chunk);
    }

    lemma TrimmedTop(w: Win, ms: seq<Message>)
      requires 0 < w.start && w.futs != [] && w.start + |w.futs| <= |w.bodies| && Distinct(w.futs) && Carry(ms, w)
      requires win == TrimTop(w) && msgs == ms[1..] && DisplaysIn(shown, win) && Logged()
      requires bubbleTop == ms[w.start] && bubbleBottom == ms[w.Bottom()] && forall i :: 0 <= i < |ms| ==> ms[i] in pool
      ensures Sound()
    {
      forall i | 0 <= i < |msgs|
        ensures msgs[i] in pool && msgs[i].data == win.bodies[i] && msgs[i].fut == win.FutAt(i)
      {
        assert msgs[i] == ms[i + 1];
      }
    }

    lemma TrimmedBottom(w: Win, ms: seq<Message>, n: nat)
      requires n + 1 == |w.bodies| && w.futs != [] && w.Bottom() < n && Distinct(w.futs) && Carry(ms, w)
      requires win == TrimBottom(w) && msgs == ms[..n] && DisplaysIn(shown, win) && Logged()
      requires bubbleTop == ms[w.start] && bubbleBottom == ms[w.Bottom()] && forall i :: 0 <= i < |ms| ==> ms[i] in pool
      ensures Sound()
    {
    }

    lemma TrimPieces()
      requires Sound() && win.futs != []
      ensures Carry(msgs, win) && |msgs| == |win.bodies| && (forall i :: 0 <= i < |msgs| ==> msgs[i] in pool)
      ensures Logged() && Distinct(win.futs) && win.start + |win.futs| <= |win.bodies|
      ensures win.start <= win.Bottom() < |msgs| && bubbleTop == msgs[win.start] && bubbleBottom == msgs[win.Bottom()]
      ensures |msgs| > 0 && msgs[0].data == win.bodies[0] && msgs[|msgs| - 1].data == win.bodies[|win.bodies| - 1]
    {
    }

    lemma NoRefs(o: Option<ChunkRef>)
      requires o == None
      ensures refs - RefsOf(o) == refs
    {
    }

    /** Takes off a top message that is above the run. */
    method CutTop()
      requires Sound() && 0 < win.start && win.futs != [] && StringsValid() && win.bodies[0].chunk == None
      requires DisplaysIn(shown, TrimTop(win))
      modifies this`msgs, this`win, this`live, this`nextRef, this`refs, this`texts
      ensures Sound() && win == TrimTop(old(win))
      ensures StringsValid() && refs == old(refs) && texts == old(texts)
    {
      hide *;
      TrimPieces();
      NoRefs(win.bodies[0].chunk);
      RemoveTop();
      win := TrimTop(win);
      TrimmedTop(old(win), old(msgs));
    }

    /** Takes off a bottom message that is below the run. */
    method CutBottom()
      requires Sound() && win.Bottom() + 1 < |win.bodies| && win.futs != [] && StringsValid()
      requires win.bodies[|win.bodies| - 1].chunk == None
      requires DisplaysIn(shown, TrimBottom(win))
      modifies this`msgs, this`win, this`live, this`nextRef, this`refs, this`texts
      ensures Sound() && win == TrimBottom(old(win))
      ensures StringsValid() && refs == old(refs) && texts == old(texts)
    {
      hide *;
      TrimPieces();
      NoRefs(win.bodies[|win.bodies| - 1].chunk);
      RemoveBottom();
      win := TrimBottom(win);
      TrimmedBottom(old(win), old(msgs), |old(msgs)| - 1);
    }

    /** Drops the top message if it is a placeholder that has lost its future. */
    method DropTop()
      requires Sound() && win.futs != [] && StringsValid()
      requires !win.bodies[0].Real() ==> win.bodies[0] == PLACEHOLDER
      modifies this`msgs, this`win, this`live, this`nextRef, this`refs, this`texts
      ensures Sound() && win == DropIdleTop(old(win)) && StringsValid()
      ensures refs == old(refs) && texts == old(texts)
    {
      DropTopDisplay(shown, win);
      assert msgs[0].fut == win.FutAt(0);
      if msgs[0].fut.None? && !msgs[0].data.Real() {
        CutTop();
      }
    }

    method DropBottom()
      requires Sound() && win.futs != [] && StringsValid()
      requires !win.bodies[|win.bodies| - 1].Real() ==> win.bodies[|win.bodies| - 1] == PLACEHOLDER
      modifies this`msgs, this`win, this`live, this`nextRef, this`refs, this`texts
      ensures Sound() && win == DropIdleBottom(old(win)) && StringsValid()
      ensures refs == old(refs) && texts == old(texts)
    {
      DropBottomDisplay(shown, win);
      var n := |msgs| - 1;
      assert msgs[n].fut == win.FutAt(n);
      if msgs[n].fut.None? && !msgs[n].data.Real() {
        CutBottom();
      }
    }
  
    lemma Agrees()
      requires Sound()
      ensures Hold(msgs, win.bodies) && |msgs| == |win.bodies|
      ensures forall i :: 0 <= i < |msgs| ==> msgs[i].data == win.bodies[i]
      ensures forall i :: 0 <= i < |msgs| ==> msgs[i] in pool
    {
    }

    method InsertUpAndTrim(k: nat, m: Msg)
      requires Sound() && win.futs != [] && k <= |win.bodies| && m.Real() && StringsValid() && win.Shaped()
      requires (k > 0 ==> win.bodies[k - 1].Real()) && (k < |win.bodies| ==> win.bodies[k].Real())
      modifies this`msgs, this`pool, this`win, this`bubbleTop, this`bubbleBottom, this`calls, this`shown, pool`fut
      modifies this`live, this`nextRef, this`refs, this`texts
      ensures Sound() && win == DropIdleTop(InsertSlidingDown(old(win), k, m))
      ensures calls == old(calls) + SlideDownCalls(old(win), InsertAt(old(win).bodies, k, m), k,
                                                   if old(win).InRun(k - 1) then old(win).start else k)
      ensures StringsValid() && refs == old(refs) && texts == old(texts)
      ensures fresh(pool - old(pool))
    {
      hide *;
      SlidEnds(win, k, m);
      SolidAround(win, k);
      InsertUp(k, m);
      DropTop();
    }

    method InsertDownAndTrim(k: nat, m: Msg)
      requires Sound() && win.futs != [] && k <= |win.bodies| && m.Real() && StringsValid() && win.Shaped()
      requires (k > 0 ==> win.bodies[k - 1].Real()) && (k < |win.bodies| ==> win.bodies[k].Real())
      modifies this`msgs, this`pool, this`win, this`bubbleTop, this`bubbleBottom, this`calls, this`shown, pool`fut
      modifies this`live, this`nextRef, this`refs, this`texts
      ensures Sound() && win == DropIdleBottom(InsertSlidingUp(old(win), k, m))
      ensures calls == old(calls) + SlideUpCalls(old(win), InsertAt(old(win).bodies, k, m), k,
                                                 if old(win).InRun(k) then old(win).start + |old(win).futs| else k)
      ensures StringsValid() && refs == old(refs) && texts == old(texts)
      ensures fresh(pool - old(pool))
    {
      hide *;
      SlidEnds(win, k, m);
      SolidAround(win, k);
      InsertDown(k, m);
      DropBottom();
    }

    /** Takes in a new message of an upward chunk, in the window's terms. */
    method PlaceUp(m: Msg)
      requires Sound() && win.Shaped() && win.futs != [] && m.Real() && StringsValid()
      modifies this`msgs, this`pool, this`win, this`bubbleTop, this`bubbleBottom, this`calls, this`shown, pool`fut
      modifies pool`data
      modifies this`live, this`nextRef, this`refs, this`texts
      ensures Sound() && win == MergeUp(old(win), m) && StringsValid() && refs == old(refs) && texts == old(texts)
      ensures calls == old(calls) + MergeCalls(old(win), m, true)
      ensures fresh(pool - old(pool))
    {
      hide *;
      Agrees();
      var k := ScanDown(m);
      FirstAfterReal(win, m, k);
      MergeUpCases(win, m, k);
      MergeUpCalled(win, m, k);
      if 0 < k && !msgs[k - 1].data.Real() {
        NotReal(win, k - 1);
        Fill(msgs[k - 1], k - 1, m);
      } else {
        InsertUpAndTrim(k, m);
      }
    }

    method PlaceDown(m: Msg)
      requires Sound() && win.Shaped() && win.futs != [] && m.Real() && StringsValid()
      modifies this`msgs, this`pool, this`win, this`bubbleTop, this`bubbleBottom, this`calls, this`shown, pool`fut
      modifies pool`data
      modifies this`live, this`nextRef, this`refs, this`texts
      ensures Sound() && win == MergeDown(old(win), m) && StringsValid() && refs == old(refs) && texts == old(texts)
      ensures calls == old(calls) + MergeCalls(old(win), m, false)
      ensures fresh(pool - old(pool))
    {
      hide *;
      Agrees();
      var k := ScanUp(m);
      PastLastBeforeReal(win, m, k);
      MergeDownCases(win, m, k);
      MergeDownCalled(win, m, k);
      if k < |msgs| && !msgs[k].data.Real() {
        NotReal(win, k);
        Fill(msgs[k], k, m);
      } else {
        InsertDownAndTrim(k, m);
      }
    }
  
    method Place(m: Msg, up: bool)
      requires Sound() && win.Shaped() && win.futs != [] && m.Real() && StringsValid()
      modifies this`msgs, this`pool, this`win, this`bubbleTop, this`bubbleBottom, this`calls, this`shown, pool`fut
      modifies pool`data
      modifies this`live, this`nextRef, this`refs, this`texts
      ensures Sound() && win == Merge(old(win), m, up) && calls == old(calls) + MergeCalls(old(win), m, up)
      ensures StringsValid() && refs == old(refs) && texts == old(texts)
      ensures fresh(pool - old(pool))
    {
      if up {
        PlaceUp(m);
      } else {
        PlaceDown(m);
      }
    }

    // -------- a message that is already there comes again --------

    method FindMsg(id: string) returns (k: nat)
      requires Hold(msgs, win.bodies)
      ensures k == Find(win.bodies, id)
    {
      k := 0;
      while k < |msgs| && msgs[k].data.id != Some(id)
        invariant k <= |msgs|
        invariant forall i :: 0 <= i < k ==> win.bodies[i].id != Some(id)
      {
        k := k + 1;
      }
    }

    /** Replaces the message at `k` by one that the future there, if any, has already been told about. */
    method Rewrite(msg: Message, ghost k: nat, m: Msg)
      requires Distinct(msgs) && |msgs| == |win.bodies|
      requires forall i {:trigger msgs[i]} :: 0 <= i < |msgs| ==>
                 msgs[i] in pool && msgs[i].data == win.bodies[i] && msgs[i].fut == win.FutAt(i)
      requires Marks() && Logged() && Distinct(win.futs)
      requires k < |msgs| && msg == msgs[k] && DisplaysIn(shown, Filled(win, k, m))
      modifies this`win, msg`data
      ensures Sound() && win == Filled(old(win), k, m)
    {
      msg.data := m;
      win := Filled(win, k, m);
    }

    /** Replaces a message and tells its future. */
    method Retell(msg: Message, ghost k: nat, m: Msg)
      requires Sound() && k < |msgs| && msg == msgs[k] && msg.fut.Some? && m.Real()
      modifies this`win, this`calls, this`shown, msg`data
      ensures Sound() && win == Filled(old(win), k, m)
      ensures calls == old(calls) + [Call(old(msg.fut).value, m.text, m.member)]
    {
      FilledDisplay(shown, win, k, m);
      Tell(msg.fut.value, m.text, m.member);
      Rewrite(msg, k, m);
    }

    /** Replaces a message that no future shows. */
    method Replace(msg: Message, ghost k: nat, m: Msg)
      requires Sound() && k < |msgs| && msg == msgs[k] && msg.fut.None?
      modifies this`win, msg`data
      ensures Sound() && win == Filled(old(win), k, m)
    {
      FilledElsewhere(shown, win, k, m);
      Rewrite(msg, k, m);
    }

    /** Fills the placeholder at `k`. */
    method Fill(msg: Message, ghost k: nat, m: Msg)
      requires Sound() && k < |msgs| && msg == msgs[k] && win.InRun(k) && !win.bodies[k].Real()
      requires win.bodies[k].text == None && m.Real()
      modifies this`win, this`calls, this`shown, msg`data
      ensures Sound() && win == Filled(old(win), k, m) && calls == old(calls) + FillCalls(old(win), k, m)
    {
      FilledDisplay(shown, win, k, m);
      assert msg.fut.Some?;
      if m.text.Some? {
        Tell(msg.fut.value, m.text, m.member);
      }
      Rewrite(msg, k, m);
    }

    /** The message at `k`, which a future shows, comes again. */
    method RefreshShown(msg: Message, ghost k: nat, e: Incoming)
      requires Sound() && k < |msgs| && msg == msgs[k] && msg.fut.Some? && msg.data.Real()
      modifies this`win, this`calls, this`shown, msg`data
      ensures Sound()
      ensures win == Filled(old(win), k, old(msg.data).(member := e.member, text := Retext(old(msg.data).text, e.text)))
      ensures calls == old(calls) + if Retext(old(msg.data).text, e.text) == old(msg.data).text then []
                                    else [Call(old(msg.fut).value, Retext(old(msg.data).text, e.text), e.member)]
    {
      var m := msg.data.(member := e.member);
      var text := e.text;
      if text.None? && m.text.Some? {
        text := Some("(deleted)");
      }
      if text.Some? && text != m.text {
        FilledDisplay(shown, win, k, m.(text := text));
        Tell(msg.fut.value, text, m.member);
        m := m.(text := text);
      } else {
        FilledDisplay(shown, win, k, m);
      }
      Rewrite(msg, k, m);
    }

    /** The message at `k`, which no future shows, comes again. */
    method RefreshHidden(msg: Message, ghost k: nat, e: Incoming)
      requires Sound() && k < |msgs| && msg == msgs[k] && msg.fut.None?
      modifies this`win, msg`data
      ensures Sound() && win == Filled(old(win), k, old(msg.data).(member := e.member))
    {
      Replace(msg, k, msg.data.(member := e.member));
    }

    method RefreshOne(e: Incoming) returns (known: bool)
      requires Sound()
      modifies this`win, this`calls, this`shown, pool`data
      ensures Sound() && win == Refresh(old(win), e) && calls == old(calls) + RefreshCalls(old(win), e)
      ensures known <==> Find(old(win).bodies, e.id) < |old(win).bodies|
    {
      hide *;
      Agrees();
      var k := FindMsg(e.id);
      known := k < |msgs|;
      RefreshCases(win, e);
      RefreshCalled(win, e);
      assert calls + [] == calls;
      if known {
        FutAgrees(k);
        if msgs[k].fut.Some? {
          RefreshShown(msgs[k], k, e);
        } else {
          RefreshHidden(msgs[k], k, e);
        }
      }
    }

    lemma FutAgrees(k: nat)
      requires Sound() && k < |msgs| == |win.bodies|
      ensures msgs[k].fut.Some? <==> win.InRun(k)
      ensures win.InRun(k) ==> 0 <= k - win.start < |win.futs| && msgs[k].fut == Some(win.futs[k - win.start])
    {
    }

    // -------- a whole chunk --------

    /** First pass: messages that are already there are refreshed, the others kept for the second pass. */
    method RefreshKnown(es: seq<Incoming>) returns (news: seq<Incoming>)
      requires Sound() && win.Shaped()
      modifies this`win, this`calls, this`shown, pool`data
      ensures Sound() && win == RefreshAll(old(win), es) && news == News(old(win).bodies, es)
      ensures calls == old(calls) + RefreshAllCalls(old(win), es)
    {
      hide Sound, HoldsBut, RefreshAll, Refresh, RefreshCalls, News;
      RefreshNone(win);
      news := [];
      var i := 0;
      assert es[..0] == [];
      while i < |es|
        invariant i <= |es| && Sound()
        invariant win == RefreshAll(old(win), es[..i]) && news == News(old(win).bodies, es[..i])
        invariant calls == old(calls) + RefreshAllCalls(old(win), es[..i])
      {
        RefreshAllKeeps(old(win), es[..i]);
        FindSame(win.bodies, old(win).bodies, es[i].id);
        RefreshAllStep(old(win), es, i);
        RefreshAllCalled(old(win), es, i, old(calls));
        var known := RefreshOne(es[i]);
        if !known {
          news := news + [es[i]];
        }
        i := i + 1;
      }
      assert es[..i] == es;
    }

    /** Points at the chunk's string once more, making it when it is first needed. */
    method CountChunk(already: Option<ChunkRef>, s: string) returns (chunk: ChunkRef)
      requires Balanced() && (already.Some? ==> already.value in refs && texts[already.value] == s)
      modifies this`live, this`nextRef, this`refs, this`texts
      ensures StringsValid() && Owed(chunk)
      ensures already.Some? ==> chunk == already.value && texts == old(texts)
      ensures already.None? ==> chunk !in old(texts) && texts == old(texts)[chunk := s]
    {
      chunk := CreateMaybe(already, s);
    }

    /** One pointer to `chunk` is counted that no message holds yet. */
    ghost predicate Owed(chunk: ChunkRef)
      reads this`win, this`topRequested, this`bottomRequested, this`refs
    {
      refs == ChunkRefs(win.bodies) + RefsOf(topRequested) + RefsOf(bottomRequested) + multiset{chunk}
    }

    lemma OwedPaid(w: Win, v: Win, chunk: ChunkRef)
      requires Owed(chunk) && win == w && StringsValid()
      requires ChunkRefs(v.bodies) == ChunkRefs(w.bodies) + RefsOf(Some(chunk))
      ensures refs == ChunkRefs(v.bodies) + RefsOf(topRequested) + RefsOf(bottomRequested) && chunk in refs
    {
      SumSwaps(ChunkRefs(w.bodies), RefsOf(topRequested), RefsOf(bottomRequested), multiset{chunk});
    }

    /** The list holds the new window, and the strings' counts agree with it. */
    ghost predicate Ready()
      reads this`msgs, this`pool, this`win, this`bubbleTop, this`bubbleBottom, this`shown, this`base, this`calls
      reads this`topRequested, this`bottomRequested, this`live, this`nextRef, this`refs, this`texts
      reads msgs`data, msgs`fut
    {
      Sound() && win.Shaped() && win.futs != [] && Balanced()
    }

    lemma ReadyParts()
      requires Ready()
      ensures Sound() && win.Shaped() && win.futs != [] && Balanced()
    {
    }

    method PlaceCounted(m: Msg, chunk: ChunkRef, up: bool)
      requires Sound() && win.Shaped() && win.futs != [] && StringsValid()
      requires m.Real() && m.chunk == Some(chunk) && Owed(chunk)
      modifies this`msgs, this`pool, this`win, this`bubbleTop, this`bubbleBottom, this`calls, this`shown, pool`fut
      modifies pool`data
      modifies this`live, this`nextRef, this`refs, this`texts
      ensures Ready() && win == Merge(old(win), m, up) && chunk in refs && texts == old(texts)
      ensures calls == old(calls) + MergeCalls(old(win), m, up)
      ensures fresh(pool - old(pool))
    {
      hide Merge;
      MergeShape(win, m, up);
      MergeRefs(win, m, up);
      OwedPaid(win, Merge(win, m, up), chunk);
      Place(m, up);
    }

    /** Second pass, one message. */
    method MergeOne(e: Incoming, up: bool, already: Option<ChunkRef>, s: string) returns (chunk: ChunkRef)
      requires Ready() && (already.Some? ==> already.value in refs && texts[already.value] == s)
      modifies this`msgs, this`pool, this`win, this`bubbleTop, this`bubbleBottom, this`calls, this`shown, pool`fut
      modifies pool`data
      modifies this`live, this`nextRef, this`refs, this`texts
      ensures Ready() && win == Merge(old(win), ToMsg(e, chunk), up) && chunk in refs
      ensures ToMsg(e, chunk).Real() && calls == old(calls) + MergeCalls(old(win), ToMsg(e, chunk), up)
      ensures already.Some? ==> chunk == already.value && texts == old(texts)
      ensures already.None? ==> chunk !in old(texts) && texts == old(texts)[chunk := s]
      ensures fresh(pool - old(pool))
    {
      hide *;
      ReadyParts();
      chunk := CountChunk(already, s);
      ToMsgParts(e, chunk);
      PlaceCounted(ToMsg(e, chunk), chunk, up);
    }

    /** Second pass: merges the new messages. `made` is the chunk's string, if any message needed it. */
    method MergeNews(news: seq<Incoming>, up: bool, s: string) returns (made: Option<ChunkRef>, ghost c: ChunkRef)
      requires Ready()
      modifies this`msgs, this`pool, this`win, this`bubbleTop, this`bubbleBottom, this`calls, this`shown, pool`fut
      modifies pool`data
      modifies this`live, this`nextRef, this`refs, this`texts
      ensures Ready() && win == MergeAll(old(win), news, c, up)
      ensures calls == old(calls) + MergeAllCalls(old(win), news, c, up)
      ensures made == if news == [] then None else Some(c)
      ensures news == [] ==> texts == old(texts)
      ensures news != [] ==> c !in old(texts) && texts == old(texts)[c := s] && c in refs
      ensures fresh(pool - old(pool))
    {
      hide *;
      made, c := None, 0;
      var i := 0;
      MergeAllNone(win, c, up);
      MergeNoneCalled(win, c, up);
      assert news[..0] == [] && calls + [] == calls;
      while i < |news|
        invariant i <= |news| && Ready() && win == MergeAll(old(win), news[..i], c, up)
        invariant calls == old(calls) + MergeAllCalls(old(win), news[..i], c, up)
        invariant made == if i == 0 then None else Some(c)
        invariant i == 0 ==> texts == old(texts)
        invariant i > 0 ==> c !in old(texts) && texts == old(texts)[c := s] && c in refs
        invariant fresh(pool - old(pool))
      {
        var chunk := MergeOne(news[i], up, made, s);
        if i == 0 {
          MergeAllNone(old(win), chunk, up);
          MergeAllNone(old(win), c, up);
          MergeNoneCalled(old(win), chunk, up);
          MergeNoneCalled(old(win), c, up);
          assert news[..i] == [];
        }
        c := chunk;
        MergeAllCalled(old(win), news, i, c, up, old(calls));
        MergeAllStep(old(win), news, i, c, up);
        made := Some(chunk);
        i := i + 1;
      }
      assert news[..i] == news;
    }

    // -------- the ROOM_MESSAGES event --------

    /** Every room state between two events. */
    ghost predicate Valid()
      reads this`msgs, this`pool, this`win, this`bubbleTop, this`bubbleBottom, this`shown, this`base, this`calls
      reads this`topRequested, this`bottomRequested, this`live, this`nextRef, this`refs, this`texts
      reads msgs`data, msgs`fut
    {
      && Sound() && win.Shaped() && Balanced()
      && (win.futs == [] ==> topRequested == None && bottomRequested == None)
    }

    /** The chunk id in a request slot. */
    ghost function TextOf(o: Option<ChunkRef>): Option<string>
      reads this`texts
    {
      if o.Some? && o.value in texts then Some(texts[o.value]) else None
    }

    /** The chunk id that is asked for on one side. */
    ghost function SlotText(up: bool): Option<string>
      reads this`topRequested, this`bottomRequested, this`texts
    {
      TextOf(if up then topRequested else bottomRequested)
    }

    lemma SlotTexts()
      ensures SlotText(true) == TextOf(topRequested) && SlotText(false) == TextOf(bottomRequested)
    {
    }

    /** How many messages there are below the run. */
    method CountBelow() returns (n: nat)
      requires Sound() && win.futs != []
      ensures n == if |win.bodies| - 1 - win.Bottom() < READ_AHEAD then |win.bodies| - 1 - win.Bottom() else READ_AHEAD
    {
      var at :| 0 <= at < |msgs| && msgs[at] == bubbleBottom by {
        assert msgs[win.Bottom()] == bubbleBottom;
      }
      assert at == win.Bottom();
      n := 0;
      while at + 1 < |msgs| && n < READ_AHEAD
        invariant win.Bottom() <= at < |msgs| && n == at - win.Bottom() <= READ_AHEAD
      {
        at := at + 1;
        n := n + 1;
      }
    }

    /** Is this chunk one we still want: the answer to our pending request on its side, or new messages
        while the run is near the bottom of a window that is caught up? */
    ghost predicate Wanted(ev: MessagesEvent)
      reads this`win, this`topRequested, this`bottomRequested, this`texts, this`notCaughtUp
    {
      if ev.thisChunk.Some? then TextOf(if ev.up then topRequested else bottomRequested) == ev.thisChunk
      else !notCaughtUp && win.futs != [] && |win.bodies| - 1 - win.Bottom() < READ_AHEAD
    }

    /** Gives up the pending request on one side, if there is one. */
    method ReleaseTop()
      requires Balanced()
      modifies this`topRequested, this`live, this`nextRef, this`refs, this`texts
      ensures Balanced() && texts == old(texts) && topRequested == None
    {
      hide *;
      BalancedParts();
      SlotsCounted();
      SlotRefs();
      ghost var rest := ChunkRefs(win.bodies) + RefsOf(None) + RefsOf(bottomRequested);
      Decref(topRequested);
      topRequested := None;
      assert rest == ChunkRefs(win.bodies) + RefsOf(topRequested) + RefsOf(bottomRequested);
      BalancedAgain();
    }

    method ReleaseBottom()
      requires Balanced()
      modifies this`bottomRequested, this`live, this`nextRef, this`refs, this`texts
      ensures Balanced() && texts == old(texts) && bottomRequested == None
    {
      hide *;
      BalancedParts();
      SlotsCounted();
      SlotRefs();
      ghost var rest := ChunkRefs(win.bodies) + RefsOf(topRequested) + RefsOf(None);
      Decref(bottomRequested);
      bottomRequested := None;
      assert rest == ChunkRefs(win.bodies) + RefsOf(topRequested) + RefsOf(bottomRequested);
      BalancedAgain();
    }

    method ReleaseSlot(up: bool)
      requires Balanced()
      modifies this`topRequested, this`bottomRequested, this`live, this`nextRef, this`refs, this`texts
      ensures Balanced() && texts == old(texts)
      ensures topRequested == (if up then None else old(topRequested))
      ensures bottomRequested == (if up then old(bottomRequested) else None)
    {
      hide *;
      if up {
        ReleaseTop();
      } else {
        ReleaseBottom();
      }
    }

    lemma BalancedParts()
      requires Balanced()
      ensures StringsValid() && refs == ChunkRefs(win.bodies) + RefsOf(topRequested) + RefsOf(bottomRequested)
    {
    }

    lemma BalancedAgain()
      requires StringsValid() && refs == ChunkRefs(win.bodies) + RefsOf(topRequested) + RefsOf(bottomRequested)
      ensures Balanced()
    {
    }

    /** The request slot on one side holds this chunk id. */
    method SlotIs(up: bool, id: string) returns (yes: bool)
      requires Balanced()
      ensures yes <==> TextOf(if up then topRequested else bottomRequested) == Some(id)
    {
      var slot := if up then topRequested else bottomRequested;
      SlotsAlive();
      yes := slot.Some? && live[slot.value].s == id;
    }

    method Accept(ev: MessagesEvent) returns (process: bool)
      requires Valid()
      modifies this`topRequested, this`bottomRequested, this`notCaughtUp
      modifies this`live, this`nextRef, this`refs, this`texts
      ensures Valid() && process == old(Wanted(ev)) && (process ==> win.futs != [])
      ensures texts == old(texts)
      ensures topRequested == if process && ev.thisChunk.Some? && ev.up then None else old(topRequested)
      ensures bottomRequested == if process && ev.thisChunk.Some? && !ev.up then None else old(bottomRequested)
      ensures notCaughtUp == (old(notCaughtUp) || (!process && ev.thisChunk.None? && win.futs != []))
    {
      hide *;
      ValidParts();
      WantedParts(ev);
      process := false;
      if ev.thisChunk.Some? {
        process := SlotIs(ev.up, ev.thisChunk.value);
        if process {
          SlotFilled(ev.up);
          ReleaseSlot(ev.up);
        }
      } else if !notCaughtUp && bubbleBottom != null {
        var n := CountBelow();
        if n < READ_AHEAD {
          process := true;
        } else {
          notCaughtUp := true;
        }
      }
      ValidAgain();
    }

    lemma ValidParts()
      requires Valid()
      ensures Sound() && win.Shaped() && Balanced()
      ensures win.futs == [] ==> topRequested == None && bottomRequested == None
      ensures bubbleBottom == null <==> win.futs == []
    {
    }

    lemma ValidAgain()
      requires Sound() && win.Shaped() && Balanced()
      requires win.futs == [] ==> topRequested == None && bottomRequested == None
      ensures Valid()
    {
    }

    lemma SlotFilled(up: bool)
      requires Valid() && TextOf(if up then topRequested else bottomRequested) != None
      ensures win.futs != []
    {
    }

    lemma WantedParts(ev: MessagesEvent)
      ensures ev.thisChunk.Some? ==>
                (Wanted(ev) <==> TextOf(if ev.up then topRequested else bottomRequested) == ev.thisChunk)
      ensures ev.thisChunk.None? ==>
                (Wanted(ev) <==> !notCaughtUp && win.futs != [] && |win.bodies| - 1 - win.Bottom() < READ_AHEAD)
    {
    }

    lemma SlotsAlive()
      requires Balanced()
      ensures topRequested.Some? ==>
                topRequested.value in refs && topRequested.value in live && topRequested.value in texts
      ensures bottomRequested.Some? ==>
                bottomRequested.value in refs && bottomRequested.value in live && bottomRequested.value in texts
      ensures topRequested.Some? ==>
                TextOf(topRequested) == Some(live[topRequested.value].s) == Some(texts[topRequested.value])
      ensures bottomRequested.Some? ==>
                TextOf(bottomRequested) == Some(live[bottomRequested.value].s) == Some(texts[bottomRequested.value])
      ensures TextOf(None) == None
    {
      if topRequested.Some? {
        assert refs[topRequested.value] >= RefsOf(topRequested)[topRequested.value];
      }
      if bottomRequested.Some? {
        assert refs[bottomRequested.value] >= RefsOf(bottomRequested)[bottomRequested.value];
      }
    }

    lemma SlotsCounted()
      requires Balanced()
      ensures topRequested.Some? ==> topRequested.value in refs
      ensures bottomRequested.Some? ==> bottomRequested.value in refs
    {
      SlotsAlive();
    }

    lemma SlotRefs()
      requires Balanced()
      ensures refs - RefsOf(topRequested) == ChunkRefs(win.bodies) + RefsOf(None) + RefsOf(bottomRequested)
      ensures refs - RefsOf(bottomRequested) == ChunkRefs(win.bodies) + RefsOf(topRequested) + RefsOf(None)
    {
    }

    /** Points the slot of one side at a chunk id string. */
    method PointTop(already: Option<ChunkRef>, s: string) returns (r: ChunkRef)
      requires Balanced() && topRequested == None
      requires already.Some? ==> already.value in refs && texts[already.value] == s
      modifies this`topRequested, this`live, this`nextRef, this`refs, this`texts
      ensures Balanced() && topRequested == Some(r) && r in texts && texts[r] == s
      ensures texts == old(texts) || (r !in old(texts) && texts == old(texts)[r := s])
    {
      hide *;
      BalancedParts();
      ghost var messages, bottom := ChunkRefs(win.bodies), RefsOf(bottomRequested);
      r := CreateMaybe(already, s);
      topRequested := Some(r);
      OneMore(messages, bottom, r);
      assert refs == messages + RefsOf(topRequested) + bottom;
      BalancedAgain();
    }

    method PointBottom(already: Option<ChunkRef>, s: string) returns (r: ChunkRef)
      requires Balanced() && bottomRequested == None
      requires already.Some? ==> already.value in refs && texts[already.value] == s
      modifies this`bottomRequested, this`live, this`nextRef, this`refs, this`texts
      ensures Balanced() && bottomRequested == Some(r) && r in texts && texts[r] == s
      ensures texts == old(texts) || (r !in old(texts) && texts == old(texts)[r := s])
    {
      hide *;
      BalancedParts();
      ghost var messages, top := ChunkRefs(win.bodies), RefsOf(topRequested);
      r := CreateMaybe(already, s);
      bottomRequested := Some(r);
      OneMore(messages, top, r);
      assert refs == messages + top + RefsOf(bottomRequested);
      BalancedAgain();
    }

    /** Asks the network thread for a chunk, and remembers which in the slot of that side. */
    method AskUp(already: Option<ChunkRef>, s: string)
      requires Balanced() && topRequested == None
      requires already.Some? ==> already.value in refs && texts[already.value] == s
      modifies this`topRequested, this`requests, this`live, this`nextRef, this`refs, this`texts
      ensures Balanced() && requests == old(requests) + [Request(Some(s), true)]
      ensures TextOf(topRequested) == Some(s) && TextOf(bottomRequested) == old(TextOf(bottomRequested))
    {
      hide *;
      SlotsAlive();
      ghost var ts := texts;
      var r := PointTop(already, s);
      SameText(bottomRequested, ts, r, s);
      requests := requests + [Request(Some(s), true)];
    }

    method AskDown(already: Option<ChunkRef>, s: string)
      requires Balanced() && bottomRequested == None
      requires already.Some? ==> already.value in refs && texts[already.value] == s
      modifies this`bottomRequested, this`requests, this`live, this`nextRef, this`refs, this`texts
      ensures Balanced() && requests == old(requests) + [Request(Some(s), false)]
      ensures TextOf(bottomRequested) == Some(s) && TextOf(topRequested) == old(TextOf(topRequested))
    {
      hide *;
      SlotsAlive();
      ghost var ts := texts;
      var r := PointBottom(already, s);
      SameText(topRequested, ts, r, s);
      requests := requests + [Request(Some(s), false)];
    }

    lemma OneMore(a: multiset<ChunkRef>, b: multiset<ChunkRef>, r: ChunkRef)
      ensures a + RefsOf(None) + b + multiset{r} == a + RefsOf(Some(r)) + b
      ensures a + b + RefsOf(None) + multiset{r} == a + b + RefsOf(Some(r))
    {
    }

    lemma SameText(o: Option<ChunkRef>, ts: map<ChunkRef, string>, r: ChunkRef, s: string)
      requires texts == ts || (r !in ts && texts == ts[r := s])
      requires r in texts && texts[r] == s && (o.Some? ==> o.value in ts)
      ensures TextOf(o) == (if o.Some? && o.value in ts then Some(ts[o.value]) else None)
      ensures TextOf(Some(r)) == Some(s)
    {
    }

    lemma MarkedEnds()
      requires Sound() && win.Shaped() && win.futs != []
      ensures bubbleTop != null && bubbleTop in pool && (bubbleTop.data.Real() <==> EndReal(win, true))
      ensures bubbleBottom != null && bubbleBottom in pool && (bubbleBottom.data.Real() <==> EndReal(win, false))
    {
    }

    method MoreUp(ev: MessagesEvent, made: Option<ChunkRef>)
      requires Sound() && win.Shaped() && Balanced() && win.futs != []
      requires ev.up && (ev.thisChunk.Some? ==> topRequested == None)
      requires made.Some? && ev.nextChunk.Some? ==> made.value in refs && texts[made.value] == ev.nextChunk.value
      modifies this`topRequested, this`requests, this`live, this`nextRef, this`refs, this`texts
      ensures Balanced()
      ensures requests == old(requests) + Asks(win, old(notCaughtUp), ev)
      ensures TextOf(topRequested) ==
              if Asks(win, old(notCaughtUp), ev) != [] then Asks(win, old(notCaughtUp), ev)[0].chunk
              else old(TextOf(topRequested))
      ensures TextOf(bottomRequested) == old(TextOf(bottomRequested))
    {
      hide *;
      AsksCases(win, notCaughtUp, ev);
      MarkedEnds();
      if ev.thisChunk.Some? && ev.nextChunk.Some? && bubbleTop != null && !bubbleTop.data.Real() {
        AskUp(made, ev.nextChunk.value);
      }
    }

    method MoreDown(ev: MessagesEvent, made: Option<ChunkRef>)
      requires Sound() && win.Shaped() && Balanced() && win.futs != []
      requires !ev.up && (ev.thisChunk.Some? ==> bottomRequested == None)
      requires made.Some? && ev.thisChunk.Some? ==> made.value in refs
      requires made.Some? && ev.thisChunk.Some? ==>
                 texts[made.value] == if ev.nextChunk.Some? then ev.nextChunk.value else ev.thisChunk.value
      modifies this`bottomRequested, this`requests, this`notCaughtUp, this`live, this`nextRef, this`refs, this`texts
      ensures Balanced()
      ensures requests == old(requests) + Asks(win, old(notCaughtUp), ev)
      ensures notCaughtUp == (old(notCaughtUp) && (ev.thisChunk.None? || ev.nextChunk.Some?))
      ensures TextOf(bottomRequested) ==
              if Asks(win, old(notCaughtUp), ev) != [] then Asks(win, old(notCaughtUp), ev)[0].chunk
              else old(TextOf(bottomRequested))
      ensures TextOf(topRequested) == old(TextOf(topRequested))
    {
      hide *;
      AsksCases(win, notCaughtUp, ev);
      MarkedEnds();
      if ev.thisChunk.Some? {
        if ev.nextChunk.Some? {
          if bubbleBottom != null && !bubbleBottom.data.Real() {
            AskDown(made, ev.nextChunk.value);
          }
        } else if notCaughtUp {
          notCaughtUp := false;
          AskDown(made, ev.thisChunk.value);
        }
      }
    }

    /** Starts an event: `calls` and `base` are about this event only. */
    method Begin()
      requires Valid()
      modifies this`calls, this`base
      ensures Valid() && calls == [] && base == shown
    {
      hide *;
      ValidParts();
      calls, base := [], shown;
      StartsLogged();
      ValidAgain();
    }

    lemma StartsLogged()
      requires Distinct(msgs) && |msgs| == |win.bodies|
      requires forall i {:trigger msgs[i]} :: 0 <= i < |msgs| ==>
                 msgs[i] in pool && msgs[i].data == win.bodies[i] && msgs[i].fut == win.FutAt(i)
      requires Marks() && Distinct(win.futs) && DisplaysIn(shown, win)
      requires calls == [] && base == shown
      ensures Sound()
    {
    }

    lemma RefreshedBalance(w: Win, es: seq<Incoming>)
      requires w.Shaped() && win == RefreshAll(w, es) && StringsValid()
      requires refs == ChunkRefs(w.bodies) + RefsOf(topRequested) + RefsOf(bottomRequested)
      ensures win.Shaped() && win.futs == w.futs && Balanced()
    {
      RefreshAllKeeps(w, es);
      RefreshAllRefs(w, es);
    }

    /** Both passes over the messages of a chunk. When the chunk names no chunk id at all, there is nothing to
        make the new messages' string from, and the program does not survive. */
    method TakeIn(ev: MessagesEvent) returns (ok: bool, made: Option<ChunkRef>, ghost c: ChunkRef)
      requires Sound() && win.Shaped() && Balanced() && win.futs != []
      modifies this`msgs, this`pool, this`win, this`bubbleTop, this`bubbleBottom, this`calls, this`shown, pool`fut
      modifies pool`data
      modifies this`live, this`nextRef, this`refs, this`texts
      ensures ok <==> ev.thisChunk.Some? || ev.nextChunk.Some? || News(old(win).bodies, ev.messages) == []
      ensures !ok ==> News(win.bodies, ev.messages) != []
      ensures ok ==> Ready() && win == MergeChunk(old(win), ev.messages, c, ev.up)
      ensures ok ==> calls == old(calls) + ChunkCalls(old(win), ev.messages, c, ev.up)
      ensures ok ==> made == if News(old(win).bodies, ev.messages) == [] then None else Some(c)
      ensures ok && made == None ==> texts == old(texts)
      ensures ok && made != None ==> c !in old(texts) && texts == old(texts)[c := ChunkName(ev)] && c in refs
      ensures fresh(pool - old(pool))
    {
      hide *;
      BalancedParts();
      var news := RefreshKnown(ev.messages);
      RefreshedBalance(old(win), ev.messages);
      NewsAfterRefresh(old(win), ev.messages);
      c, made := 0, None;
      ok := ev.thisChunk.Some? || ev.nextChunk.Some? || news == [];
      if ok {
        ReadyAgain();
        MergeChunkParts(old(win), ev.messages, news, ev.up);
        made, c := MergeNews(news, ev.up, ChunkName(ev));
        ChunkCalled(old(win), ev.messages, c, ev.up, old(calls));
      }
    }

    lemma ReadyAgain()
      requires Sound() && win.Shaped() && win.futs != [] && Balanced()
      ensures Ready()
    {
    }

    method RequestMore(ev: MessagesEvent, made: Option<ChunkRef>)
      requires Ready()
      requires ev.thisChunk.Some? ==> (if ev.up then topRequested else bottomRequested) == None
      requires made.Some? ==> made.value in refs && texts[made.value] == ChunkName(ev)
      modifies this`topRequested, this`bottomRequested, this`requests, this`notCaughtUp
      modifies this`live, this`nextRef, this`refs, this`texts
      ensures Valid() && requests == old(requests) + Asks(win, old(notCaughtUp), ev)
      ensures notCaughtUp == (old(notCaughtUp) && (ev.up || ev.thisChunk.None? || ev.nextChunk.Some?))
      ensures SlotText(ev.up) ==
              if Asks(win, old(notCaughtUp), ev) != [] then Asks(win, old(notCaughtUp), ev)[0].chunk
              else old(SlotText(ev.up))
      ensures SlotText(!ev.up) == old(SlotText(!ev.up))
    {
      hide *;
      ReadyParts();
      ChunkNameParts(ev);
      SlotTexts();
      if ev.up {
        MoreUp(ev, made);
      } else {
        MoreDown(ev, made);
      }
      SlotTexts();
      ValidAgain();
    }

    lemma SlotsKept(ts: map<ChunkRef, string>, made: Option<ChunkRef>, c: ChunkRef, s: string)
      requires topRequested.Some? ==> topRequested.value in ts
      requires bottomRequested.Some? ==> bottomRequested.value in ts
      requires if made == None then texts == ts else c !in ts && texts == ts[c := s]
      ensures SlotText(true) == if topRequested.Some? then Some(ts[topRequested.value]) else None
      ensures SlotText(false) == if bottomRequested.Some? then Some(ts[bottomRequested.value]) else None
      ensures made.Some? ==> c in texts && texts[c] == s
    {
    }

    lemma SlotTextsNow()
      requires Balanced()
      ensures topRequested.Some? ==> topRequested.value in texts
      ensures bottomRequested.Some? ==> bottomRequested.value in texts
      ensures SlotText(true) == if topRequested.Some? then Some(texts[topRequested.value]) else None
      ensures SlotText(false) == if bottomRequested.Some? then Some(texts[bottomRequested.value]) else None
    {
      SlotsAlive();
    }

    /** An accepted chunk. */
    method Process(ev: MessagesEvent) returns (ok: bool, made: Option<ChunkRef>, ghost c: ChunkRef)
      requires Valid() && win.futs != []
      requires ev.thisChunk.Some? ==> (if ev.up then topRequested else bottomRequested) == None
      modifies this`msgs, this`pool, this`win, this`bubbleTop, this`bubbleBottom, this`calls, this`shown, pool`fut
      modifies pool`data
      modifies this`live, this`nextRef, this`refs, this`texts, this`topRequested, this`bottomRequested
      modifies this`requests, this`notCaughtUp
      ensures ok <==> ev.thisChunk.Some? || ev.nextChunk.Some? || News(old(win).bodies, ev.messages) == []
      ensures !ok ==> News(win.bodies, ev.messages) != []
      ensures ok ==> Valid() && win.futs != [] && win == MergeChunk(old(win), ev.messages, c, ev.up)
      ensures ok ==> calls == old(calls) + ChunkCalls(old(win), ev.messages, c, ev.up)
      ensures ok ==> requests == old(requests) + Asks(win, old(notCaughtUp), ev)
      ensures ok ==> notCaughtUp == (old(notCaughtUp) && (ev.up || ev.thisChunk.None? || ev.nextChunk.Some?))
      ensures ok ==>
                SlotText(ev.up) ==
                if Asks(win, old(notCaughtUp), ev) != [] then Asks(win, old(notCaughtUp), ev)[0].chunk
                else old(SlotText(ev.up))
      ensures ok ==> SlotText(!ev.up) == old(SlotText(!ev.up))
      ensures fresh(pool - old(pool))
    {
      hide *;
      ValidParts();
      SlotTextsNow();
      ok, made, c := TakeIn(ev);
      if ok {
        SlotsKept(old(texts), made, c, ChunkName(ev));
        ReadyParts();
        RequestMore(ev, made);
      }
    }

    lemma NoSlotText(up: bool)
      ensures (if up then topRequested else bottomRequested) == None ==> SlotText(up) == None
    {
    }

    /** BEEPER_TASK_EVENT_ROOM_MESSAGES. A chunk that is not wanted changes nothing but, perhaps, that the window
        is no longer caught up. */
    method OnMessages(ev: MessagesEvent) returns (ok: bool, ghost c: ChunkRef)
      requires Valid()
      modifies this, pool
      ensures fresh(pool - old(pool)) && (ok ==> Valid() && base == old(shown))
      ensures ok <==> (old(Wanted(ev)) ==>
                         ev.thisChunk.Some? || ev.nextChunk.Some? || News(old(win).bodies, ev.messages) == [])
      ensures !ok ==> ev.thisChunk.None? && ev.nextChunk.None? && News(win.bodies, ev.messages) != []
      ensures !old(Wanted(ev)) ==>
                win == old(win) && calls == [] && requests == old(requests)
                && SlotText(true) == old(SlotText(true)) && SlotText(false) == old(SlotText(false))
                && notCaughtUp == (old(notCaughtUp) || (ev.thisChunk.None? && win.futs != []))
      ensures ok && old(Wanted(ev)) ==>
                old(win).futs != [] && win.Shaped() && win.futs != []
                && win == MergeChunk(old(win), ev.messages, c, ev.up)
                && calls == ChunkCalls(old(win), ev.messages, c, ev.up)
                && requests == old(requests) + Asks(win, old(notCaughtUp), ev)
                && notCaughtUp == (old(notCaughtUp) && (ev.up || ev.thisChunk.None? || ev.nextChunk.Some?))
                && SlotText(!ev.up) == old(SlotText(!ev.up))
      ensures ok && old(Wanted(ev)) ==>
                SlotText(ev.up) ==
                if Asks(win, old(notCaughtUp), ev) != [] then Asks(win, old(notCaughtUp), ev)[0].chunk
                                   else if ev.thisChunk.Some? then None else old(SlotText(ev.up))
      ensures ok && old(Wanted(ev)) ==>
                forall e :: e in News(old(win).bodies, ev.messages) ==> Brought(win.bodies, e)
      ensures ok && old(Wanted(ev)) ==>
                forall call :: call in calls ==> SaysThen(call, old(win), ev.messages, c, ev.up)
    {
      hide *;
      WantedParts(ev);
      Begin();
      WantedParts(ev);
      SlotTexts();
      var process := Accept(ev);
      ok, c := true, 0;
      SlotTexts();
      ValidParts();
      NoSlotText(ev.up);
      if process {
        var made;
        ok, made, c := Process(ev);
        if ok {
          ValidParts();
          assert calls == [] + ChunkCalls(old(win), ev.messages, c, ev.up);
          ChunkBrings(old(win), ev.messages, c, ev.up);
        }
      }
    }

    // -------- the MESSAGE_DECRYPTED event --------

    method Decrypt(id: string, text: string)
      requires Sound()
      modifies this`win, this`calls, this`shown, pool`data
      ensures Sound() && win == Decrypted(old(win), id, text) && calls == old(calls) + DecryptCalls(old(win), id, text)
    {
      hide *;
      Agrees();
      DecryptCalled(win, id, text);
      assert calls + [] == calls;
      var k := FindMsg(id);
      DecryptedCases(win, id, text);
      if k == |msgs| || msgs[k].data.text == Some(text) {
        return;
      }
      FutAgrees(k);
      if msgs[k].fut.Some? {
        Retell(msgs[k], k, msgs[k].data.(text := Some(text)));
      } else {
        Replace(msgs[k], k, msgs[k].data.(text := Some(text)));
      }
    }

    lemma DecryptedValid(w: Win, id: string, text: string)
      requires w.Shaped() && win == Decrypted(w, id, text) && StringsValid() && Sound()
      requires refs == ChunkRefs(w.bodies) + RefsOf(topRequested) + RefsOf(bottomRequested)
      requires w.futs == [] ==> topRequested == None && bottomRequested == None
      ensures Valid()
    {
      DecryptedShape(w, id, text);
      DecryptedRefs(w, id, text);
    }

    method OnDecrypted(id: string, text: string)
      requires Valid()
      modifies this, pool
      ensures Valid() && base == old(shown) && win == Decrypted(old(win), id, text)
      ensures calls == DecryptCalls(old(win), id, text)
      ensures topRequested == old(topRequested) && bottomRequested == old(bottomRequested) && texts == old(texts)
      ensures requests == old(requests) && notCaughtUp == old(notCaughtUp) && pool == old(pool)
    {
      hide *;
      Begin();
      ValidParts();
      BalancedParts();
      Decrypt(id, text);
      assert calls == [] + DecryptCalls(old(win), id, text);
      DecryptedValid(old(win), id, text);
    }

    // -------- the LOAD and UNLOAD events --------

    /** The list holds the messages of `v`, each with its future, leaving aside the future of message `k`. */
    ghost predicate HoldsBut(v: Win, k: int)
      reads this`msgs, this`pool, msgs`data, msgs`fut
    {
      && Distinct(msgs) && |msgs| == |v.bodies|
      && forall i {:trigger msgs[i]} :: 0 <= i < |msgs| ==>
           msgs[i] in pool && msgs[i].data == v.bodies[i] && (i != k ==> msgs[i].fut == v.FutAt(i))
    }

    /** Gives message `k` its future, and shows its text there if it has one. */
    method Attach(msg: Message, f: Fut, ghost v: Win, ghost k: nat)
      requires HoldsBut(v, k) && k < |msgs| && msg == msgs[k] && v.FutAt(k) == Some(f) && Distinct(v.futs)
      requires OthersDisplay(shown, v, f) && f in shown && shown[f] == BLANK && Logged()
      requires v.bodies[k].text.Some? ==> v.bodies[k].Real()
      modifies this`calls, this`shown, msg`fut
      ensures HoldsBut(v, -1) && DisplaysIn(shown, v) && Logged()
      ensures calls == old(calls)
                       + if v.bodies[k].text.Some? then [Call(f, v.bodies[k].text, v.bodies[k].member)] else []
    {
      AttachDisplay(shown, v, k, f);
      msg.fut := Some(f);
      if msg.data.text.Some? {
        Tell(f, msg.data.text, msg.data.member);
      }
    }

    /** The message above the run, if there is one, and the chunk id of the run's top message. */
    method LookAbove() returns (above: Message?, next: Option<ChunkRef>)
      requires Sound() && win.Shaped()
      ensures above == if win.futs != [] && win.start > 0 then msgs[win.start - 1] else null
      ensures next == if win.futs == [] then None else win.bodies[win.start].chunk
    {
      if bubbleTop != null {
        var at :| 0 <= at < |msgs| && msgs[at] == bubbleTop by {
          assert msgs[win.start] == bubbleTop;
        }
        assert at == win.start;
        next := bubbleTop.data.chunk;
        above := if 0 < at then msgs[at - 1] else null;
      } else {
        next := None;
        above := LastOf(msgs);
      }
    }

    method LookBelow() returns (below: Message?, next: Option<ChunkRef>)
      requires Sound() && win.Shaped()
      ensures below == if win.futs != [] && win.Bottom() + 1 < |msgs| then msgs[win.Bottom() + 1] else null
      ensures next == if win.futs == [] then None else win.bodies[win.Bottom()].chunk
    {
      if bubbleBottom != null {
        var at :| 0 <= at < |msgs| && msgs[at] == bubbleBottom by {
          assert msgs[win.Bottom()] == bubbleBottom;
        }
        assert at == win.Bottom();
        next := bubbleBottom.data.chunk;
        below := if at + 1 < |msgs| then msgs[at + 1] else null;
      } else {
        next := None;
        below := LastOf(msgs);
      }
    }

    lemma SoundCarries()
      requires Sound() && win.Shaped()
      ensures Carry(msgs, win) && |msgs| == |win.bodies| && (forall i :: 0 <= i < |msgs| ==> msgs[i] in pool)
      ensures InPool()
      ensures win.futs != [] ==>
                win.start <= win.Bottom() < |msgs| && bubbleTop == msgs[win.start] && bubbleBottom == msgs[win.Bottom()]
      ensures win.futs == [] ==> bubbleTop == null && bubbleBottom == null
    {
    }

    /** A new placeholder was put above the run. */
    lemma PushedAbove(ms: seq<Message>, x: Message, f: Fut)
      requires Carry(ms, win) && win.Shaped() && f !in win.futs && LoadWaits(win, Top)
      requires x !in ms && x.data == PLACEHOLDER && msgs == [x] + ms && InPool()
      ensures HoldsBut(Load(win, Top, f), 0) && Load(win, Top, f).start == 0
      ensures win.futs != [] ==>
                Load(win, Top, f).Bottom() == win.Bottom() + 1 && msgs[win.Bottom() + 1] == ms[win.Bottom()]
    {
      var v := Load(win, Top, f);
      forall i | 0 <= i < |msgs|
        ensures msgs[i] in pool && msgs[i].data == v.bodies[i] && (i != 0 ==> msgs[i].fut == v.FutAt(i))
      {
        assert i > 0 ==> msgs[i] == ms[i - 1];
      }
    }

    /** There is a message above the run. */
    lemma KeptAbove(f: Fut)
      requires Carry(msgs, win) && win.Shaped() && f !in win.futs && !LoadWaits(win, Top) && InPool()
      ensures HoldsBut(Load(win, Top, f), win.start - 1) && Load(win, Top, f).start == win.start - 1
      ensures Load(win, Top, f).Bottom() == win.Bottom()
    {
    }

    lemma PushedBelow(ms: seq<Message>, x: Message, f: Fut)
      requires Carry(ms, win) && win.Shaped() && f !in win.futs && LoadWaits(win, Bottom)
      requires x !in ms && x.data == PLACEHOLDER && msgs == ms + [x] && InPool()
      ensures HoldsBut(Load(win, Bottom, f), |ms|) && Load(win, Bottom, f).Bottom() == |ms|
      ensures win.futs != [] ==> Load(win, Bottom, f).start == win.start && msgs[win.start] == ms[win.start]
    {
    }

    lemma KeptBelow(f: Fut)
      requires Carry(msgs, win) && win.Shaped() && f !in win.futs && !LoadWaits(win, Bottom) && InPool()
      ensures HoldsBut(Load(win, Bottom, f), win.Bottom() + 1) && Load(win, Bottom, f).Bottom() == win.Bottom() + 1
      ensures Load(win, Bottom, f).start == win.start
    {
    }

    lemma Waits()
      requires win.Shaped() && |msgs| == |win.bodies|
      ensures LoadWaits(win, Top) <==> win.futs == [] || win.start == 0
      ensures LoadWaits(win, Bottom) <==> win.futs == [] || win.Bottom() + 1 == |msgs|
    {
    }

    lemma MoreInPool(x: Message, ms: seq<Message>, p: set<Message>)
      requires x in pool && p <= pool && (msgs == [x] + ms || msgs == ms + [x])
      requires forall i :: 0 <= i < |ms| ==> ms[i] in p
      ensures InPool()
    {
    }

    /** Makes the window's list one placeholder longer, unless there is a message for the new future. */
    method MakeRoomAbove(above: Message?, ghost f: Fut) returns (msg: Message)
      requires Sound() && win.Shaped() && f !in win.futs && |msgs| == |win.bodies|
      requires above == if win.futs != [] && win.start > 0 then msgs[win.start - 1] else null
      modifies this`msgs, this`pool
      ensures fresh(pool - old(pool))
      ensures var v := Load(win, Top, f); HoldsBut(v, v.start) && v.start < |msgs| && msg == msgs[v.start]
      ensures win.futs != [] ==>
                0 <= Load(win, Top, f).Bottom() < |msgs| && bubbleBottom == msgs[Load(win, Top, f).Bottom()]
      ensures win.futs == [] <==> bubbleBottom == null
      ensures msg in old(pool) || fresh(msg)
    {
      hide *;
      SoundCarries();
      Waits();
      if above == null {
        msg := new Message(PLACEHOLDER);
        msgs := [msg] + msgs;
        pool := pool + {msg};
        MoreInPool(msg, old(msgs), old(pool));
        PushedAbove(old(msgs), msg, f);
      } else {
        msg := above;
        KeptAbove(f);
      }
    }

    method MakeRoomBelow(below: Message?, ghost f: Fut) returns (msg: Message)
      requires Sound() && win.Shaped() && f !in win.futs && |msgs| == |win.bodies|
      requires below == if win.futs != [] && win.Bottom() + 1 < |msgs| then msgs[win.Bottom() + 1] else null
      modifies this`msgs, this`pool
      ensures fresh(pool - old(pool))
      ensures var v := Load(win, Bottom, f);
              HoldsBut(v, v.Bottom()) && 0 <= v.Bottom() < |msgs| && msg == msgs[v.Bottom()]
      ensures win.futs != [] ==> Load(win, Bottom, f).start < |msgs| && bubbleTop == msgs[Load(win, Bottom, f).start]
      ensures win.futs == [] <==> bubbleTop == null
      ensures msg in old(pool) || fresh(msg)
    {
      hide *;
      SoundCarries();
      Waits();
      if below == null {
        msg := new Message(PLACEHOLDER);
        msgs := msgs + [msg];
        pool := pool + {msg};
        MoreInPool(msg, old(msgs), old(pool));
        PushedBelow(old(msgs), msg, f);
      } else {
        msg := below;
        KeptBelow(f);
      }
    }

    lemma SoundParts()
      requires Sound()
      ensures HoldsBut(win, -1) && Marks() && Distinct(win.futs) && DisplaysIn(shown, win) && Logged()
      ensures win.futs == [] <==> bubbleTop == null
      ensures win.futs == [] <==> bubbleBottom == null
    {
    }

    lemma SoundAgain()
      requires HoldsBut(win, -1) && Marks() && Distinct(win.futs) && DisplaysIn(shown, win) && Logged()
      ensures Sound()
    {
    }

    lemma LoadMarks(v: Win, side: Side, f: Fut)
      requires win.Shaped() && v == Load(win, side, f) && |msgs| == |v.bodies|
      requires side.Top? ==> bubbleTop == msgs[v.start]
      requires side.Top? && win.futs != [] ==> bubbleBottom == msgs[v.Bottom()]
      requires side.Top? && win.futs == [] ==> bubbleBottom == bubbleTop
      requires side.Bottom? ==> bubbleBottom == msgs[v.Bottom()]
      requires side.Bottom? && win.futs != [] ==> bubbleTop == msgs[v.start]
      requires side.Bottom? && win.futs == [] ==> bubbleTop == bubbleBottom
      ensures (bubbleTop, bubbleBottom) == Ends(msgs, v)
    {
    }

    /** From here on the calls are those about a new future, which shows nothing so far. */
    method BeginLoad(f: Fut)
      modifies this`calls, this`base, this`shown
      ensures calls == [] && base == old(shown)[f := BLANK] == shown && Logged()
    {
      calls, base, shown := [], shown[f := BLANK], shown[f := BLANK];
    }

    method ShowAbove(f: Fut, above: Message?) returns (waits: bool)
      requires Sound() && win.Shaped() && f !in win.futs
      requires above == if win.futs != [] && win.start > 0 then msgs[win.start - 1] else null
      modifies this`msgs, this`pool, this`win, this`bubbleTop, this`bubbleBottom, this`calls, this`base, this`shown
      modifies pool`fut
      ensures Sound() && win == Load(old(win), Top, f) && base == old(shown)[f := BLANK]
      ensures calls == LoadCalls(old(win), Top, f)
      ensures win.start < |win.bodies|
      ensures (waits <==> !win.bodies[win.start].Real() && win.bodies[win.start].text == None)
      ensures fresh(pool - old(pool))
    {
      hide *;
      SoundParts();
      LoadTopParts(shown, win, f);
      var msg := MakeRoomAbove(above, f);
      BeginLoad(f);
      ghost var v := Load(win, Top, f);
      Attach(msg, f, v, v.start);
      LoadCalled(win, Top, f);
      waits := msg.data.text.None? && !msg.data.Real();
      bubbleTop := msg;
      if bubbleBottom == null {
        bubbleBottom := msg;
      }
      LoadMarks(v, Top, f);
      win := v;
      SoundAgain();
    }

    /** Remembers in the slot of one side that this chunk was asked for; there may be no chunk id to remember. */
    method SlotTop(next: Option<ChunkRef>)
      requires Balanced() && topRequested == None && (next.Some? ==> next.value in refs)
      modifies this`topRequested, this`live, this`nextRef, this`refs, this`texts
      ensures Balanced() && topRequested == next && texts == old(texts)
    {
      hide *;
      BalancedParts();
      ghost var messages, bottom := ChunkRefs(win.bodies), RefsOf(bottomRequested);
      Incref(next);
      topRequested := next;
      OneMoreOf(messages, bottom, next);
      assert refs == messages + RefsOf(topRequested) + bottom;
      BalancedAgain();
    }

    method SlotBottom(next: Option<ChunkRef>)
      requires Balanced() && bottomRequested == None && (next.Some? ==> next.value in refs)
      modifies this`bottomRequested, this`live, this`nextRef, this`refs, this`texts
      ensures Balanced() && bottomRequested == next && texts == old(texts)
    {
      hide *;
      BalancedParts();
      ghost var messages, top := ChunkRefs(win.bodies), RefsOf(topRequested);
      Incref(next);
      bottomRequested := next;
      OneMoreOf(messages, top, next);
      assert refs == messages + top + RefsOf(bottomRequested);
      BalancedAgain();
    }

    lemma OneMoreOf(a: multiset<ChunkRef>, b: multiset<ChunkRef>, o: Option<ChunkRef>)
      ensures a + RefsOf(None) + b + RefsOf(o) == a + RefsOf(o) + b
      ensures a + b + RefsOf(None) + RefsOf(o) == a + b + RefsOf(o)
    {
    }

    /** The string's text, as it goes into a request. */
    method Text(o: Option<ChunkRef>) returns (s: Option<string>)
      requires StringsValid() && (o.Some? ==> o.value in refs)
      ensures s == TextOf(o)
    {
      s := if o.Some? then Some(live[o.value].s) else None;
    }

    lemma LoadedValid(w: Win, side: Side, f: Fut)
      requires w.Shaped() && f !in w.futs && !EndWaits(w, side) && win == Load(w, side, f)
      requires Sound() && StringsValid()
      requires refs == ChunkRefs(w.bodies) + RefsOf(topRequested) + RefsOf(bottomRequested)
      ensures win.Shaped() && win.futs != [] && Balanced()
      ensures win.start < |win.bodies| && 0 <= win.Bottom() < |win.bodies|
      ensures if side.Top? then !win.bodies[win.start].Real() <==> LoadWaits(w, side)
              else !win.bodies[win.Bottom()].Real() <==> LoadWaits(w, side)
      ensures !win.bodies[win.start].Real() ==> win.bodies[win.start].text == None
      ensures !win.bodies[win.Bottom()].Real() ==> win.bodies[win.Bottom()].text == None
      ensures NextRef(w, side).Some? ==> NextRef(w, side).value in refs
    {
      if side.Top? {
        LoadTopShape(w, f);
      } else {
        LoadBottomShape(w, f);
      }
      LoadRefs(w, side, f);
      if NextRef(w, side).Some? {
        NextRefIn(w, side);
      }
    }

    lemma NextRefParts()
      requires win.Shaped()
      ensures NextRef(win, Top) == if win.futs == [] then None else win.bodies[win.start].chunk
      ensures NextRef(win, Bottom) == if win.futs == [] then None else win.bodies[win.Bottom()].chunk
    {
    }

    /** Asks for older messages, unless that is already under way. */
    method AskAbove(waits: bool, next: Option<ChunkRef>)
      requires Balanced() && (next.Some? ==> next.value in refs)
      modifies this`topRequested, this`requests, this`live, this`nextRef, this`refs, this`texts
      ensures Balanced() && texts == old(texts)
      ensures requests == old(requests) + if waits && old(topRequested) == None
                                          then [Request(old(TextOf(next)), true)] else []
      ensures topRequested == if waits && old(topRequested) == None then next else old(topRequested)
    {
      hide *;
      BalancedParts();
      if waits && topRequested == None {
        var text := Text(next);
        SlotTop(next);
        requests := requests + [Request(text, true)];
      }
    }

    /** Asks for newer messages, if some have been let go and that is not already under way. */
    method AskBelow(waits: bool, next: Option<ChunkRef>)
      requires Balanced() && (next.Some? ==> next.value in refs)
      modifies this`bottomRequested, this`requests, this`live, this`nextRef, this`refs, this`texts
      ensures Balanced() && texts == old(texts)
      ensures requests == old(requests) + if waits && notCaughtUp && old(bottomRequested) == None
                                          then [Request(old(TextOf(next)), false)] else []
      ensures bottomRequested ==
                if waits && notCaughtUp && old(bottomRequested) == None then next else old(bottomRequested)
    {
      hide *;
      BalancedParts();
      if waits && notCaughtUp && bottomRequested == None {
        var text := Text(next);
        SlotBottom(next);
        requests := requests + [Request(text, false)];
      }
    }

    lemma LoadDone()
      requires Sound() && Balanced() && win.Shaped() && win.futs != []
      ensures Valid()
    {
    }

    method AppendAbove(f: Fut) returns (waits: bool, next: Option<ChunkRef>)
      requires Sound() && win.Shaped() && Balanced() && f !in win.futs && !EndWaits(win, Top)
      modifies this`msgs, this`pool, this`win, this`bubbleTop, this`bubbleBottom, this`calls, this`base, this`shown
      modifies pool`fut
      ensures Sound() && win.Shaped() && win.futs != [] && Balanced() && win == Load(old(win), Top, f)
      ensures base == old(shown)[f := BLANK] && (waits <==> LoadWaits(old(win), Top))
      ensures calls == LoadCalls(old(win), Top, f)
      ensures next == old(NextRef(win, Top)) && (next.Some? ==> next.value in refs)
      ensures fresh(pool - old(pool))
    {
      hide *;
      BalancedParts();
      NextRefParts();
      var above;
      above, next := LookAbove();
      waits := ShowAbove(f, above);
      LoadedValid(old(win), Top, f);
    }

    /** BUBBLE_LOAD at the top. */
    method LoadTop(f: Fut)
      requires Valid() && f !in win.futs && !EndWaits(win, Top)
      modifies this, pool
      ensures Valid() && win == Load(old(win), Top, f) && base == old(shown)[f := BLANK]
      ensures calls == LoadCalls(old(win), Top, f)
      ensures requests == old(requests) + if LoadWaits(old(win), Top) && old(topRequested) == None
                                          then [Request(old(TextOf(NextRef(win, Top))), true)] else []
      ensures topRequested == if LoadWaits(old(win), Top) && old(topRequested) == None
                              then old(NextRef(win, Top)) else old(topRequested)
      ensures bottomRequested == old(bottomRequested) && notCaughtUp == old(notCaughtUp) && texts == old(texts)
      ensures fresh(pool - old(pool))
    {
      hide *;
      ValidParts();
      var waits, next := AppendAbove(f);
      AskAbove(waits, next);
      LoadDone();
    }

    method ShowBelow(f: Fut, below: Message?) returns (waits: bool)
      requires Sound() && win.Shaped() && f !in win.futs
      requires below == if win.futs != [] && win.Bottom() + 1 < |msgs| then msgs[win.Bottom() + 1] else null
      modifies this`msgs, this`pool, this`win, this`bubbleTop, this`bubbleBottom, this`calls, this`base, this`shown
      modifies pool`fut
      ensures Sound() && win == Load(old(win), Bottom, f) && base == old(shown)[f := BLANK]
      ensures calls == LoadCalls(old(win), Bottom, f)
      ensures 0 <= win.Bottom() < |win.bodies|
      ensures waits <==> !win.bodies[win.Bottom()].Real() && win.bodies[win.Bottom()].text == None
      ensures fresh(pool - old(pool))
    {
      hide *;
      SoundParts();
      LoadBottomParts(shown, win, f);
      var msg := MakeRoomBelow(below, f);
      BeginLoad(f);
      ghost var v := Load(win, Bottom, f);
      Attach(msg, f, v, v.Bottom());
      LoadCalled(win, Bottom, f);
      waits := msg.data.text.None? && !msg.data.Real();
      bubbleBottom := msg;
      if bubbleTop == null {
        bubbleTop := msg;
      }
      LoadMarks(v, Bottom, f);
      win := v;
      SoundAgain();
    }

    method AppendBelow(f: Fut) returns (waits: bool, next: Option<ChunkRef>)
      requires Sound() && win.Shaped() && Balanced() && f !in win.futs && !EndWaits(win, Bottom)
      modifies this`msgs, this`pool, this`win, this`bubbleTop, this`bubbleBottom, this`calls, this`base, this`shown
      modifies pool`fut
      ensures Sound() && win.Shaped() && win.futs != [] && Balanced() && win == Load(old(win), Bottom, f)
      ensures base == old(shown)[f := BLANK] && (waits <==> LoadWaits(old(win), Bottom))
      ensures calls == LoadCalls(old(win), Bottom, f)
      ensures next == old(NextRef(win, Bottom)) && (next.Some? ==> next.value in refs)
      ensures fresh(pool - old(pool))
    {
      hide *;
      BalancedParts();
      NextRefParts();
      var below;
      below, next := LookBelow();
      waits := ShowBelow(f, below);
      LoadedValid(old(win), Bottom, f);
    }

    /** BUBBLE_LOAD at the bottom. Only asks for newer messages if some have been let go. */
    method LoadBottom(f: Fut)
      requires Valid() && f !in win.futs && !EndWaits(win, Bottom)
      modifies this, pool
      ensures Valid() && win == Load(old(win), Bottom, f) && base == old(shown)[f := BLANK]
      ensures calls == LoadCalls(old(win), Bottom, f)
      ensures requests == old(requests) + if LoadWaits(old(win), Bottom) && notCaughtUp && old(bottomRequested) == None
                                          then [Request(old(TextOf(NextRef(win, Bottom))), false)] else []
      ensures bottomRequested == if LoadWaits(old(win), Bottom) && notCaughtUp && old(bottomRequested) == None
                                 then old(NextRef(win, Bottom)) else old(bottomRequested)
      ensures topRequested == old(topRequested) && notCaughtUp == old(notCaughtUp) && texts == old(texts)
      ensures fresh(pool - old(pool))
    {
      hide *;
      ValidParts();
      var waits, next := AppendBelow(f);
      AskBelow(waits, next);
      LoadDone();
    }

    /** The list holds the messages `bs`, and the strings' counts agree with that. */
    ghost predicate Rest(bs: seq<Msg>)
      reads this`msgs, this`topRequested, this`bottomRequested, this`live, this`nextRef, this`refs, this`texts
      reads msgs`data
    {
      && Hold(msgs, bs) && StringsValid()
      && refs == ChunkRefs(bs) + RefsOf(topRequested) + RefsOf(bottomRequested)
    }

    lemma RestTop(bs: seq<Msg>)
      requires Rest(bs) && bs != []
      ensures |msgs| == |bs| && msgs[0].data == bs[0]
      ensures StringsValid() && (bs[0].chunk.Some? ==> bs[0].chunk.value in refs)
      ensures refs - RefsOf(bs[0].chunk) == ChunkRefs(bs[1..]) + RefsOf(topRequested) + RefsOf(bottomRequested)
      ensures Hold(msgs[1..], bs[1..])
    {
      ChunkRefsEnds(bs);
      LessOne(RefsOf(bs[0].chunk), ChunkRefs(bs[1..]), RefsOf(topRequested), RefsOf(bottomRequested));
      if bs[0].chunk.Some? {
        ChunkRefsIn(bs, 0);
      }
      assert forall k :: 0 <= k < |msgs| - 1 ==> msgs[1..][k] == msgs[k + 1];
    }

    lemma RestBottom(bs: seq<Msg>, n: nat)
      requires Rest(bs) && |bs| == n + 1
      ensures |msgs| == n + 1 && msgs[n].data == bs[n]
      ensures StringsValid() && (bs[n].chunk.Some? ==> bs[n].chunk.value in refs)
      ensures refs - RefsOf(bs[n].chunk) == ChunkRefs(bs[..n]) + RefsOf(topRequested) + RefsOf(bottomRequested)
      ensures Hold(msgs[..n], bs[..n])
    {
      ChunkRefsEnds(bs);
      LessOne(RefsOf(bs[n].chunk), ChunkRefs(bs[..n]), RefsOf(topRequested), RefsOf(bottomRequested));
      if bs[n].chunk.Some? {
        ChunkRefsIn(bs, n);
      }
    }

    lemma LessOne(x: multiset<ChunkRef>, a: multiset<ChunkRef>, b: multiset<ChunkRef>, c: multiset<ChunkRef>)
      ensures (x + a) + b + c - x == a + b + c
      ensures (a + x) + b + c - x == a + b + c
    {
    }

    lemma RestAgain(bs: seq<Msg>)
      requires Hold(msgs, bs) && StringsValid()
      requires refs == ChunkRefs(bs) + RefsOf(topRequested) + RefsOf(bottomRequested)
      ensures Rest(bs)
    {
    }

    method DestroyTop(ghost bs: seq<Msg>)
      requires Rest(bs) && bs != [] && |msgs| == |bs|
      modifies this`msgs, this`live, this`nextRef, this`refs, this`texts
      ensures Rest(bs[1..]) && msgs == old(msgs)[1..] && texts == old(texts)
    {
      hide *;
      RestTop(bs);
      RemoveTop();
      RestAgain(bs[1..]);
    }

    method DestroyBottom(ghost bs: seq<Msg>, ghost n: nat)
      requires Rest(bs) && |bs| == n + 1 == |msgs|
      modifies this`msgs, this`live, this`nextRef, this`refs, this`texts
      ensures Rest(bs[..n]) && msgs == old(msgs)[..n] && texts == old(texts)
    {
      hide *;
      RestBottom(bs, n);
      RemoveBottom();
      RestAgain(bs[..n]);
    }

    /** Destroys messages from the top, until `stop` is the top one; all of them if there is no such message. */
    method DestroyAbove(stop: Message?, ghost bs: seq<Msg>, ghost k: nat)
      requires Rest(bs) && k <= |msgs| == |bs| && Distinct(msgs) && stop == if k < |msgs| then msgs[k] else null
      modifies this`msgs, this`live, this`nextRef, this`refs, this`texts
      ensures Rest(bs[k..]) && msgs == old(msgs)[k..] && texts == old(texts)
    {
      ghost var n := 0;
      assert bs[0..] == bs;
      while msgs != [] && msgs[0] != stop
        invariant n <= k && msgs == old(msgs)[n..] && Rest(bs[n..]) && texts == old(texts)
        decreases |msgs|
      {
        hide *;
        assert bs[n..][1..] == bs[n + 1..] && old(msgs)[n..][1..] == old(msgs)[n + 1..];
        DestroyTop(bs[n..]);
        n := n + 1;
      }
    }

    method DestroyBelow(stop: Message, ghost bs: seq<Msg>, ghost k: nat)
      requires Rest(bs) && k < |msgs| == |bs| && Distinct(msgs) && stop == msgs[k]
      modifies this`msgs, this`live, this`nextRef, this`refs, this`texts
      ensures Rest(bs[..k + 1]) && msgs == old(msgs)[..k + 1] && texts == old(texts)
    {
      hide *;
      ghost var n: nat := |bs| - 1;
      assert bs[..n + 1] == bs && msgs[..n + 1] == msgs;
      while LastOf(msgs) != stop
        invariant k <= n < |bs| && msgs == old(msgs)[..n + 1] && Rest(bs[..n + 1]) && texts == old(texts)
        decreases n
      {
        LastOfTake(old(msgs), n, k);
        DestroyBottom(bs[..n + 1], n);
        TakeTake(bs, n);
        TakeTake(old(msgs), n);
        n := n - 1;
      }
      LastOfTake(old(msgs), n, k);
    }

    lemma LastOfTake(ms: seq<Message>, n: nat, k: nat)
      requires k <= n < |ms| && Distinct(ms)
      ensures LastOf(ms[..n + 1]) == ms[n] && (ms[n] == ms[k] <==> n == k)
    {
    }

    lemma TakeTake<T>(s: seq<T>, n: nat)
      requires n < |s|
      ensures s[..n + 1][..n] == s[..n]
    {
    }

    lemma RestOfAll()
      requires Sound() && Balanced()
      ensures Rest(win.bodies) && Distinct(msgs) && |msgs| == |win.bodies|
    {
    }

    lemma RestBalanced()
      requires Rest(win.bodies)
      ensures Balanced()
    {
    }

    /** The last future goes: so does everything else. */
    method Clear()
      requires Sound() && Balanced()
      modifies this`msgs, this`win, this`bubbleTop, this`bubbleBottom, this`notCaughtUp
      modifies this`topRequested, this`bottomRequested, this`live, this`nextRef, this`refs, this`texts
      ensures Valid() && win == EMPTY && msgs == [] && !notCaughtUp && topRequested == None && bottomRequested == None
      ensures texts == old(texts)
    {
      hide *;
      SoundParts();
      RestOfAll();
      notCaughtUp := false;
      bubbleTop, bubbleBottom := null, null;
      assert win.bodies[|msgs|..] == [] && msgs[|msgs|..] == [];
      DestroyAbove(null, win.bodies, |msgs|);
      win := EMPTY;
      EmptyParts();
      RestBalanced();
      ReleaseTop();
      ReleaseBottom();
      EmptyValid();
    }

    lemma EmptyParts()
      ensures EMPTY.bodies == [] && EMPTY.futs == []
    {
    }

    lemma EmptyValid()
      requires win == EMPTY && msgs == [] && bubbleTop == null && bubbleBottom == null
      requires Logged() && Balanced() && topRequested == None && bottomRequested == None
      ensures Valid()
    {
    }

    lemma UnloadFacts()
      requires Valid()
      ensures bubbleTop == bubbleBottom <==> |win.futs| <= 1
      ensures |win.futs| <= 1 ==> Unload(win, Top) == EMPTY == Unload(win, Bottom)
      ensures |win.futs| > 1 ==> |msgs| == |win.bodies| && win.start + 1 <= win.Bottom() < |msgs|
      ensures |win.futs| > 1 ==> bubbleTop == msgs[win.start] && bubbleBottom == msgs[win.Bottom()]
      ensures forall i, j :: 0 <= i < j < |msgs| ==> msgs[i] != msgs[j]
    {
    }

    /** The list was cut to the window that is left. */
    lemma CutAboveSound(w: Win, ms: seq<Message>)
      requires w.Shaped() && |w.futs| > 1 && DisplaysIn(shown, w) && Logged() && win == Unload(w, Top)
      requires Carry(ms, w) && |ms| == |w.bodies| && forall i :: 0 <= i < |ms| ==> ms[i] in pool
      requires msgs == ms[w.start + 1..] && bubbleTop == ms[w.start + 1] && bubbleBottom == ms[w.Bottom()]
      ensures Sound() && win.Shaped() && win.futs != []
    {
      UnloadShape(w, Top);
      UnloadTopParts(shown, w);
      forall i | 0 <= i < |msgs|
        ensures msgs[i] in pool && msgs[i].data == win.bodies[i] && msgs[i].fut == win.FutAt(i)
      {
        assert msgs[i] == ms[i + w.start + 1];
      }
    }

    lemma CutBelowSound(w: Win, ms: seq<Message>)
      requires w.Shaped() && |w.futs| > 1 && DisplaysIn(shown, w) && Logged() && win == Unload(w, Bottom)
      requires Carry(ms, w) && |ms| == |w.bodies| && forall i :: 0 <= i < |ms| ==> ms[i] in pool
      requires msgs == ms[..w.Bottom()] && bubbleTop == ms[w.start] && bubbleBottom == ms[w.Bottom() - 1]
      ensures Sound() && win.Shaped() && win.futs != []
    {
      UnloadShape(w, Bottom);
      UnloadBottomParts(shown, w);
      forall i | 0 <= i < |msgs|
        ensures msgs[i] in pool && msgs[i].data == win.bodies[i] && msgs[i].fut == win.FutAt(i)
      {
        assert msgs[i] == ms[i];
      }
    }

    lemma UnloadPieces()
      requires Valid()
      ensures Rest(win.bodies) && Distinct(msgs) && |msgs| == |win.bodies| && DisplaysIn(shown, win)
      ensures Carry(msgs, win) && Logged() && win.Shaped() && forall i :: 0 <= i < |msgs| ==> msgs[i] in pool
      ensures |win.futs| > 1 ==> Unload(win, Top).bodies == win.bodies[win.start + 1..]
      ensures |win.futs| > 1 ==> Unload(win, Bottom).bodies == win.bodies[..win.Bottom()]
    {
    }

    /** The run's top message and everything above it go. */
    method CutAbove()
      requires Valid() && |win.futs| > 1
      modifies this`msgs, this`win, this`bubbleTop, this`live, this`nextRef, this`refs, this`texts
      ensures Valid() && win == Unload(old(win), Top) && texts == old(texts)
    {
      hide *;
      UnloadFacts();
      UnloadPieces();
      var at :| 0 <= at < |msgs| && msgs[at] == bubbleTop by {
        assert msgs[win.start] == bubbleTop;
      }
      bubbleTop := msgs[at + 1];
      DestroyAbove(bubbleTop, win.bodies, win.start + 1);
      win := Unload(win, Top);
      CutAboveSound(old(win), old(msgs));
      RestBalanced();
      LoadDone();
    }

    /** The run's bottom message and everything below it go. */
    method CutBelow()
      requires Valid() && |win.futs| > 1
      modifies this`msgs, this`win, this`bubbleBottom, this`live, this`nextRef, this`refs, this`texts
      ensures Valid() && win == Unload(old(win), Bottom) && texts == old(texts)
    {
      hide *;
      UnloadFacts();
      UnloadPieces();
      var at :| 0 <= at < |msgs| && msgs[at] == bubbleBottom by {
        assert msgs[win.Bottom()] == bubbleBottom;
      }
      bubbleBottom := msgs[at - 1];
      DestroyBelow(bubbleBottom, win.bodies, win.Bottom() - 1);
      win := Unload(win, Bottom);
      CutBelowSound(old(win), old(msgs));
      RestBalanced();
      LoadDone();
    }

    lemma ReleasedValid()
      requires Sound() && win.Shaped() && Balanced()
      requires win.futs != [] || (topRequested == None && bottomRequested == None)
      ensures Valid()
    {
    }

    /** Futures that have gone show nothing any more. */
    ghost method Forget(gone: set<Fut>)
      requires Valid() && calls == [] && base == shown && forall f :: f in gone ==> f !in win.futs
      modifies this`base, this`shown
      ensures Valid() && base == shown == old(shown) - gone
    {
      hide *;
      ValidParts();
      SoundParts();
      ForgottenDisplay(shown, win, gone);
      base, shown := base - gone, shown - gone;
      NoCallsLogged();
      SoundAgain();
      ValidAgain();
    }

    lemma NoCallsLogged()
      requires calls == [] && base == shown
      ensures Logged()
    {
    }

    /** BUBBLE_UNLOAD at the top. */
    method UnloadTop()
      requires Valid()
      modifies this
      ensures Valid() && win == Unload(old(win), Top) && shown == base == old(shown) - Going(old(win), Top)
      ensures calls == []
      ensures topRequested == None && texts == old(texts) && requests == old(requests) && pool == old(pool)
      ensures bottomRequested == if |old(win).futs| <= 1 then None else old(bottomRequested)
      ensures notCaughtUp == (old(notCaughtUp) && |old(win).futs| > 1)
    {
      hide *;
      Begin();
      ValidParts();
      ReleaseTop();
      ReleasedValid();
      UnloadFacts();
      GoingGone(win, Top);
      if bubbleTop == bubbleBottom {
        Clear();
      } else {
        CutAbove();
      }
      Forget(Going(old(win), Top));
    }

    /** BUBBLE_UNLOAD at the bottom: messages are let go that are newer than the remaining ones. */
    method UnloadBottom()
      requires Valid()
      modifies this
      ensures Valid() && win == Unload(old(win), Bottom) && shown == base == old(shown) - Going(old(win), Bottom)
      ensures calls == []
      ensures bottomRequested == None && texts == old(texts) && requests == old(requests) && pool == old(pool)
      ensures topRequested == if |old(win).futs| <= 1 then None else old(topRequested)
      ensures notCaughtUp == (|old(win).futs| > 1)
    {
      hide *;
      Begin();
      ValidParts();
      ReleaseBottom();
      ReleasedValid();
      UnloadFacts();
      GoingGone(win, Bottom);
      if bubbleTop == bubbleBottom {
        Clear();
      } else {
        notCaughtUp := true;
        CutBelow();
      }
      Forget(Going(old(win), Bottom));
    }
  }

  lemma SumSwaps(a: multiset<ChunkRef>, b: multiset<ChunkRef>, c: multiset<ChunkRef>, d: multiset<ChunkRef>)
    ensures a + b + c + d == (a + d) + b + c
  {
  }

  const ONE_MESSAGE := MessagesEvent(None, None, true, [Incoming("$1", Some("hello"), Them, 1)])

  /** A chunk with neither chunk id that is wanted and brings a new message: the window waits at its first
      placeholder. */
  lemma NoChunkId(room: Room, f: Fut)
    requires room.Valid() && room.win == Win([PLACEHOLDER], 0, [f]) && !room.notCaughtUp
    ensures room.Wanted(ONE_MESSAGE) && News(room.win.bodies, ONE_MESSAGE.messages) == ONE_MESSAGE.messages != []
  {
    var es, bs := ONE_MESSAGE.messages, room.win.bodies;
    assert bs[1..] == [] && Find(bs, es[0].id) == |bs|;
    assert es[..0] == [] && News(bs, []) == [];
  }

  /** How that comes about: the conversation is opened with nothing known, so that the first request names no chunk,
      and the room is so short that the answer names no next one. The program does not survive it. */
  method ShortRoom() returns (survives: bool, request: Request)
    ensures !survives && request == Request(None, true)
  {
    hide MergeChunk, ChunkCalls, LoadCalls;
    var room := new Room();
    room.LoadTop(0);
    request := room.requests[0];
    NoChunkId(room, 0);
    ghost var c;
    survives, c := room.OnMessages(ONE_MESSAGE);
  }
}
