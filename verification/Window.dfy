/** What a chat room's message window is, apart from pointers: the messages from top to bottom, and
    the run of them that carries a UI future. */
module Window {
  import opened Basics

  type Fut = nat       // a future is known by its address
  type ChunkRef = nat  // so is a shared chunk id string

  datatype Member = You | Them

  datatype Side = Top | Bottom

  /** ui_message_t without its future. `id` is absent for a placeholder that waits for its message. */
  datatype Msg = Msg(chunk: Option<ChunkRef>, id: Option<string>, text: Option<string>, member: Member, stamp: nat)
  {
    predicate Real() { id.Some? }
  }

  const PLACEHOLDER := Msg(None, None, None, Them, 0)

  /** msgcmp(a, b) < 0 */
  predicate Before(a: Msg, b: Msg)
  {
    && a.Real() && b.Real()
    && (a.stamp < b.stamp || (a.stamp == b.stamp && StrLess(a.id.value, b.id.value)))
  }

  lemma BeforeTransitive(a: Msg, b: Msg, c: Msg)
    requires Before(a, b) && Before(b, c)
    ensures Before(a, c)
  {
    if a.stamp == b.stamp == c.stamp {
      StrLessTransitive(a.id.value, b.id.value, c.id.value);
    }
  }

  lemma BeforeTotal(a: Msg, b: Msg)
    requires a.Real() && b.Real() && a.id != b.id
    ensures Before(a, b) <==> !Before(b, a)
  {
    StrLessTotal(a.id.value, b.id.value);
    if StrLess(a.id.value, b.id.value) && StrLess(b.id.value, a.id.value) {
      StrLessTransitive(a.id.value, b.id.value, a.id.value);
      StrLessIrreflexive(a.id.value);
    }
  }

  /** A placeholder holds nothing but, perhaps, a future. */
  predicate Plain(m: Msg) {
    m.Real() || m == PLACEHOLDER
  }

  /** Message `start + t` carries future `futs[t]`; the others carry none. */
  datatype Win = Win(bodies: seq<Msg>, start: nat, futs: seq<Fut>)
  {
    /** Where the run ends. */
    function Bottom(): int { start + |futs| - 1 }

    predicate InRun(i: int) { start <= i < start + |futs| }

    function FutAt(i: int): Option<Fut>
    {
      if InRun(i) then Some(futs[i - start]) else None
    }

    /** The part of well-formedness the list links and the run of futures are responsible for:
        a placeholder can only be an end of the list, and carries a future. */
    ghost predicate Shaped()
    {
      && Basics.Distinct(futs)
      && start + |futs| <= |bodies|
      && (futs == [] ==> this == EMPTY)
      && forall i {:trigger bodies[i]} :: 0 <= i < |bodies| ==> Plain(bodies[i]) && (!bodies[i].Real() ==> EndOfBoth(i))
    }

    /** Message `i` is an end of the list and of the run, and the message next to it is not waiting. */
    ghost predicate EndOfBoth(i: nat)
      requires i < |bodies|
    {
      || (i == 0 && start == 0 && (|bodies| == 1 || bodies[1].Real()))
      || (i == |bodies| - 1 && Bottom() == i && (|bodies| == 1 || bodies[i - 1].Real()))
    }

    ghost predicate Sorted()
    {
      forall i, j :: 0 <= i < j < |bodies| && bodies[i].Real() && bodies[j].Real() ==> Before(bodies[i], bodies[j])
    }

    ghost predicate DistinctIds()
    {
      forall i, j :: 0 <= i < j < |bodies| && bodies[i].Real() && bodies[j].Real() ==> bodies[i].id != bodies[j].id
    }

    ghost predicate WellFormed()
    {
      Shaped() && Sorted() && DistinctIds()
    }

    ghost predicate HasId(id: string)
    {
      exists i :: 0 <= i < |bodies| && bodies[i].id == Some(id)
    }
  }

  const EMPTY := Win([], 0, [])

  /** The messages themselves, without placeholders. */
  function Reals(bs: seq<Msg>): seq<Msg>
  {
    if bs == [] then [] else if bs[0].Real() then [bs[0]] + Reals(bs[1..]) else Reals(bs[1..])
  }

  lemma {:induction false} RealsConcat(a: seq<Msg>, b: seq<Msg>)
    ensures Reals(a + b) == Reals(a) + Reals(b)
  {
    if a == [] {
      assert a + b == b;
    } else {
      RealsConcat(a[1..], b);
      assert (a + b)[1..] == a[1..] + b;
    }
  }

  // ---------- where a message goes ----------

  /** The first message, from the top, that comes after `m`; the length of the list if none does. */
  function FirstAfter(bs: seq<Msg>, m: Msg): (k: nat)
    requires m.Real()
    ensures k <= |bs|
    ensures k < |bs| ==> Before(m, bs[k])
    ensures forall i :: 0 <= i < k ==> !Before(m, bs[i])
  {
    if bs == [] then 0
    else if Before(m, bs[0]) then 0
    else 1 + FirstAfter(bs[1..], m)
  }

  /** One past the last message, scanning from the bottom, that comes before `m`; 0 if none does. */
  function PastLastBefore(bs: seq<Msg>, m: Msg): (k: nat)
    requires m.Real()
    ensures k <= |bs|
    ensures k > 0 ==> Before(bs[k - 1], m)
    ensures forall i :: k <= i < |bs| ==> !Before(bs[i], m)
  {
    if bs == [] then 0
    else if Before(bs[|bs| - 1], m) then |bs|
    else PastLastBefore(bs[..|bs| - 1], m)
  }

  /** The placeholder at `k` becomes `m`. */
  function Filled(w: Win, k: nat, m: Msg): Win
    requires k < |w.bodies|
  {
    w.(bodies := w.bodies[k := m])
  }

  function TrimTop(w: Win): Win
    requires w.bodies != [] && w.start > 0
  {
    Win(w.bodies[1..], w.start - 1, w.futs)
  }

  function TrimBottom(w: Win): (v: Win)
    requires w.bodies != []
    ensures v.Bottom() == w.Bottom()
  {
    w.(bodies := w.bodies[..|w.bodies| - 1])
  }

  /** A placeholder that has lost its future is dropped. */
  function DropIdleTop(w: Win): Win
    requires w.bodies != []
  {
    if !w.bodies[0].Real() && !w.InRun(0) then Win(w.bodies[1..], if w.start > 0 then w.start - 1 else 0, w.futs) else w
  }

  function DropIdleBottom(w: Win): Win
    requires w.bodies != []
  {
    var n := |w.bodies| - 1;
    if !w.bodies[n].Real() && !w.InRun(n) then w.(bodies := w.bodies[..n]) else w
  }

  /** Inserts `m` at `k`. When that is in or right under the run, the part of the run above `k` slides
      down by one, so that no hole opens in it. */
  function InsertSlidingDown(w: Win, k: nat, m: Msg): Win
    requires k <= |w.bodies|
  {
    Win(InsertAt(w.bodies, k, m), if k > w.start + |w.futs| then w.start else w.start + 1, w.futs)
  }

  /** Inserts `m` at `k`; the part of the run from `k` on slides up by one. */
  function InsertSlidingUp(w: Win, k: nat, m: Msg): Win
    requires k <= |w.bodies|
  {
    Win(InsertAt(w.bodies, k, m), if k < w.start then w.start + 1 else w.start, w.futs)
  }

  /** A new message of an upward chunk: it fills the placeholder it would land under, or is inserted. */
  function MergeUp(w: Win, m: Msg): Win
    requires m.Real()
  {
    var k := FirstAfter(w.bodies, m);
    if k > 0 && !w.bodies[k - 1].Real() then Filled(w, k - 1, m)
    else DropIdleTop(InsertSlidingDown(w, k, m))
  }

  /** A new message of a downward chunk. */
  function MergeDown(w: Win, m: Msg): Win
    requires m.Real()
  {
    var k := PastLastBefore(w.bodies, m);
    if k < |w.bodies| && !w.bodies[k].Real() then Filled(w, k, m)
    else DropIdleBottom(InsertSlidingUp(w, k, m))
  }

  lemma SlidEnds(w: Win, k: nat, m: Msg)
    requires w.Shaped() && k <= |w.bodies| && m.Real()
    ensures var v := InsertSlidingDown(w, k, m);
            v.futs == w.futs && |v.bodies| > 0 && (!v.bodies[0].Real() ==> v.bodies[0] == PLACEHOLDER)
    ensures var v := InsertSlidingUp(w, k, m);
            v.futs == w.futs && |v.bodies| > 0
            && (!v.bodies[|v.bodies| - 1].Real() ==> v.bodies[|v.bodies| - 1] == PLACEHOLDER)
  {
    var bs := InsertAt(w.bodies, k, m);
    assert bs[0] == if k == 0 then m else w.bodies[0];
    assert bs[|w.bodies|] == if k == |w.bodies| then m else w.bodies[|w.bodies| - 1];
  }

  /** Only the ends of the list can be waiting. */
  lemma SolidAround(w: Win, k: nat)
    requires w.Shaped() && k <= |w.bodies|
    requires (k > 0 ==> w.bodies[k - 1].Real()) && (k < |w.bodies| ==> w.bodies[k].Real())
    ensures forall j {:trigger w.bodies[j]} :: 0 < j < k ==> w.bodies[j].Real()
    ensures forall j {:trigger w.bodies[j]} :: k <= j < |w.bodies| - 1 ==> w.bodies[j].Real()
  {
  }

  lemma MergeUpCases(w: Win, m: Msg, k: nat)
    requires m.Real() && k == FirstAfter(w.bodies, m)
    ensures k > 0 && !w.bodies[k - 1].Real() ==> MergeUp(w, m) == Filled(w, k - 1, m)
    ensures !(k > 0 && !w.bodies[k - 1].Real()) ==> MergeUp(w, m) == DropIdleTop(InsertSlidingDown(w, k, m))
  {
  }

  lemma MergeDownCases(w: Win, m: Msg, k: nat)
    requires m.Real() && k == PastLastBefore(w.bodies, m)
    ensures k < |w.bodies| && !w.bodies[k].Real() ==> MergeDown(w, m) == Filled(w, k, m)
    ensures !(k < |w.bodies| && !w.bodies[k].Real()) ==> MergeDown(w, m) == DropIdleBottom(InsertSlidingUp(w, k, m))
  {
  }

  /** What is not a message is an empty placeholder, and carries a future. */
  lemma NotReal(w: Win, i: nat)
    requires w.Shaped() && i < |w.bodies| && !w.bodies[i].Real()
    ensures w.bodies[i] == PLACEHOLDER && w.bodies[i].text == None && w.InRun(i)
  {
  }

  function Merge(w: Win, m: Msg, up: bool): Win
    requires m.Real()
  {
    if up then MergeUp(w, m) else MergeDown(w, m)
  }

  // ---------- merging loses nothing and keeps the window well formed ----------

  /** The reference: put `m` where the order says, nothing else. */
  function InsertSorted(rs: seq<Msg>, m: Msg): seq<Msg>
  {
    if rs == [] then [m]
    else if Before(m, rs[0]) then [m] + rs
    else [rs[0]] + InsertSorted(rs[1..], m)
  }

  lemma FillShape(w: Win, k: nat, m: Msg)
    requires w.Shaped() && m.Real() && k < |w.bodies| && !w.bodies[k].Real()
    ensures Filled(w, k, m).Shaped()
  {
  }

  lemma SlideDownShape(w: Win, k: nat, m: Msg)
    requires w.Shaped() && w.futs != [] && m.Real() && k <= |w.bodies|
    requires k > 0 ==> w.bodies[k - 1].Real()
    requires k < |w.bodies| ==> w.bodies[k].Real()
    ensures DropIdleTop(InsertSlidingDown(w, k, m)).Shaped()
  {
    var n, v := |w.bodies|, InsertSlidingDown(w, k, m);
    assert forall i :: 0 < i < n ==> v.bodies[i].Real();
    assert v.bodies[n].Real() || v.start + |v.futs| == n + 1;
    if k == 0 {
      assert v.bodies[0] == m;
    } else {
      assert v.bodies[0] == w.bodies[0];
    }
    assert forall i :: 0 <= i <= n ==> Plain(v.bodies[i]);
  }

  lemma SlideUpShape(w: Win, k: nat, m: Msg)
    requires w.Shaped() && w.futs != [] && m.Real() && k <= |w.bodies|
    requires k > 0 ==> w.bodies[k - 1].Real()
    requires k < |w.bodies| ==> w.bodies[k].Real()
    ensures DropIdleBottom(InsertSlidingUp(w, k, m)).Shaped()
  {
    var n, v := |w.bodies|, InsertSlidingUp(w, k, m);
    assert forall i :: 0 < i < n ==> v.bodies[i].Real();
    assert v.bodies[0].Real() || v.start == 0;
    if k == n {
      assert v.bodies[n] == m;
    } else {
      assert v.bodies[n] == w.bodies[n - 1];
    }
    assert forall i :: 0 <= i <= n ==> Plain(v.bodies[i]);
  }

  /** Every real message above `k` comes before `m`, every one from `k` on comes after it. */
  ghost predicate Splits(bs: seq<Msg>, k: nat, m: Msg)
  {
    forall i :: 0 <= i < |bs| && bs[i].Real() ==> if i < k then Before(bs[i], m) else Before(m, bs[i])
  }

  lemma AboveSplit(w: Win, k: nat, m: Msg, i: nat)
    requires w.Sorted() && m.Real() && i < k <= |w.bodies| && w.bodies[i].Real() && Before(w.bodies[k - 1], m)
    ensures Before(w.bodies[i], m)
  {
    if i < k - 1 {
      BeforeTransitive(w.bodies[i], w.bodies[k - 1], m);
    }
  }

  lemma BelowSplit(w: Win, k: nat, m: Msg, i: nat)
    requires w.Sorted() && m.Real() && k <= i < |w.bodies| && w.bodies[i].Real() && Before(m, w.bodies[k])
    ensures Before(m, w.bodies[i])
  {
    if k < i {
      BeforeTransitive(m, w.bodies[k], w.bodies[i]);
    }
  }

  lemma NotItself(w: Win, m: Msg, i: nat)
    requires m.Real() && !w.HasId(m.id.value) && i < |w.bodies| && w.bodies[i].Real()
    ensures Before(m, w.bodies[i]) <==> !Before(w.bodies[i], m)
  {
    BeforeTotal(w.bodies[i], m);
  }

  lemma FirstAfterSplits(w: Win, m: Msg)
    requires w.WellFormed() && m.Real() && !w.HasId(m.id.value)
    ensures Splits(w.bodies, FirstAfter(w.bodies, m), m)
  {
    var k := FirstAfter(w.bodies, m);
    forall i | 0 <= i < |w.bodies| && w.bodies[i].Real()
      ensures if i < k then Before(w.bodies[i], m) else Before(m, w.bodies[i])
    {
      if i < k {
        NotItself(w, m, i);
      } else {
        BelowSplit(w, k, m, i);
      }
    }
  }

  lemma PastLastBeforeSplits(w: Win, m: Msg)
    requires w.WellFormed() && m.Real() && !w.HasId(m.id.value)
    ensures Splits(w.bodies, PastLastBefore(w.bodies, m), m)
  {
    var k := PastLastBefore(w.bodies, m);
    forall i | 0 <= i < |w.bodies| && w.bodies[i].Real()
      ensures if i < k then Before(w.bodies[i], m) else Before(m, w.bodies[i])
    {
      if i < k {
        AboveSplit(w, k, m, i);
      } else {
        NotItself(w, m, i);
      }
    }
  }

  lemma InsertOrdered(w: Win, k: nat, m: Msg, v: Win)
    requires w.Sorted() && w.DistinctIds() && m.Real() && k <= |w.bodies|
    requires Splits(w.bodies, k, m) && !w.HasId(m.id.value)
    requires v.bodies == InsertAt(w.bodies, k, m)
    ensures v.Sorted() && v.DistinctIds()
  {
  }

  lemma FillOrdered(w: Win, k: nat, m: Msg, v: Win)
    requires w.Sorted() && w.DistinctIds() && m.Real() && k < |w.bodies| && !w.bodies[k].Real()
    requires Splits(w.bodies, k, m) && !w.HasId(m.id.value)
    requires v.bodies == w.bodies[k := m]
    ensures v.Sorted() && v.DistinctIds()
  {
  }

  /** Dropping an idle placeholder keeps the order and the messages. */
  lemma DropIdle(w: Win)
    requires w.bodies != [] && w.Sorted() && w.DistinctIds()
    ensures DropIdleTop(w).Sorted() && DropIdleTop(w).DistinctIds()
    ensures DropIdleBottom(w).Sorted() && DropIdleBottom(w).DistinctIds()
    ensures Reals(DropIdleTop(w).bodies) == Reals(w.bodies) == Reals(DropIdleBottom(w).bodies)
  {
    var n := |w.bodies| - 1;
    RealsConcat(w.bodies[..n], [w.bodies[n]]);
    assert w.bodies == w.bodies[..n] + [w.bodies[n]];
  }

  lemma {:induction false} InsertSortedFirst(b: seq<Msg>, m: Msg)
    requires m.Real() && Splits(b, 0, m)
    ensures InsertSorted(Reals(b), m) == [m] + Reals(b)
  {
    if b != [] && !b[0].Real() {
      assert forall i :: 0 <= i < |b[1..]| ==> b[1..][i] == b[i + 1];
      InsertSortedFirst(b[1..], m);
    } else if b != [] {
      assert Before(m, b[0]) && Reals(b)[0] == b[0];
    } else {
      assert [m] + Reals(b) == [m];
    }
  }

  lemma {:induction false} InsertSortedAt(a: seq<Msg>, b: seq<Msg>, m: Msg)
    requires m.Real() && Splits(a + b, |a|, m)
    ensures InsertSorted(Reals(a + b), m) == Reals(a) + [m] + Reals(b)
  {
    if a == [] {
      assert a + b == b;
      InsertSortedFirst(b, m);
    } else {
      assert (a + b)[1..] == a[1..] + b && (a + b)[0] == a[0];
      assert forall i :: 0 <= i < |a[1..] + b| ==> (a[1..] + b)[i] == (a + b)[i + 1];
      InsertSortedAt(a[1..], b, m);
      if a[0].Real() {
        assert Before((a + b)[0], m);
        BeforeAsymmetric(a[0], m);
        assert Reals(a + b) == [a[0]] + Reals(a[1..] + b);
        assert Reals(a + b)[1..] == Reals(a[1..] + b);
        assert [a[0]] + (Reals(a[1..]) + [m] + Reals(b)) == Reals(a) + [m] + Reals(b);
      }
    }
  }

  lemma BeforeAsymmetric(a: Msg, b: Msg)
    requires Before(a, b)
    ensures !Before(b, a)
  {
    if Before(b, a) {
      BeforeTransitive(a, b, a);
      StrLessIrreflexive(a.id.value);
    }
  }

  lemma RealsInsert(bs: seq<Msg>, k: nat, m: Msg)
    requires m.Real() && k <= |bs| && Splits(bs, k, m)
    ensures Reals(InsertAt(bs, k, m)) == InsertSorted(Reals(bs), m)
  {
    var a, b := bs[..k], bs[k..];
    assert bs == a + b;
    RealsConcat(a + [m], b);
    RealsConcat(a, [m]);
    InsertSortedAt(a, b, m);
  }

  lemma RealsFill(bs: seq<Msg>, p: nat, m: Msg)
    requires m.Real() && p < |bs| && !bs[p].Real() && Splits(bs, p, m)
    ensures Reals(bs[p := m]) == InsertSorted(Reals(bs), m)
  {
    var a, b := bs[..p], bs[p + 1..];
    var cs := a + b;
    assert forall i :: 0 <= i < |cs| ==> cs[i] == bs[if i < p then i else i + 1];
    RealsInsert(cs, p, m);
    assert bs[p := m] == InsertAt(cs, p, m);
    RealsWithoutPlaceholder(a, bs[p], b);
    assert bs == a + [bs[p]] + b;
  }

  lemma RealsWithoutPlaceholder(a: seq<Msg>, x: Msg, b: seq<Msg>)
    requires !x.Real()
    ensures Reals(a + [x] + b) == Reals(a + b)
  {
    RealsConcat(a + [x], b);
    RealsConcat(a, [x]);
    RealsConcat(a, b);
  }

  lemma MergeFills(w: Win, p: nat, m: Msg)
    requires w.WellFormed() && m.Real() && !w.HasId(m.id.value)
    requires p < |w.bodies| && !w.bodies[p].Real() && Splits(w.bodies, p, m)
    ensures Filled(w, p, m).WellFormed() && Filled(w, p, m).futs == w.futs
    ensures Reals(Filled(w, p, m).bodies) == InsertSorted(Reals(w.bodies), m)
  {
    FillShape(w, p, m);
    FillOrdered(w, p, m, Filled(w, p, m));
    RealsFill(w.bodies, p, m);
  }

  lemma MergeInsertsDown(w: Win, k: nat, m: Msg)
    requires w.WellFormed() && w.futs != [] && m.Real() && !w.HasId(m.id.value)
    requires k <= |w.bodies| && Splits(w.bodies, k, m)
    requires (k > 0 ==> w.bodies[k - 1].Real()) && (k < |w.bodies| ==> w.bodies[k].Real())
    ensures DropIdleTop(InsertSlidingDown(w, k, m)).WellFormed()
    ensures DropIdleTop(InsertSlidingDown(w, k, m)).futs == w.futs
    ensures Reals(DropIdleTop(InsertSlidingDown(w, k, m)).bodies) == InsertSorted(Reals(w.bodies), m)
  {
    SlideDownShape(w, k, m);
    InsertOrdered(w, k, m, InsertSlidingDown(w, k, m));
    DropIdle(InsertSlidingDown(w, k, m));
    RealsInsert(w.bodies, k, m);
  }

  lemma MergeInsertsUp(w: Win, k: nat, m: Msg)
    requires w.WellFormed() && w.futs != [] && m.Real() && !w.HasId(m.id.value)
    requires k <= |w.bodies| && Splits(w.bodies, k, m)
    requires (k > 0 ==> w.bodies[k - 1].Real()) && (k < |w.bodies| ==> w.bodies[k].Real())
    ensures DropIdleBottom(InsertSlidingUp(w, k, m)).WellFormed()
    ensures DropIdleBottom(InsertSlidingUp(w, k, m)).futs == w.futs
    ensures Reals(DropIdleBottom(InsertSlidingUp(w, k, m)).bodies) == InsertSorted(Reals(w.bodies), m)
  {
    SlideUpShape(w, k, m);
    InsertOrdered(w, k, m, InsertSlidingUp(w, k, m));
    DropIdle(InsertSlidingUp(w, k, m));
    RealsInsert(w.bodies, k, m);
  }

  /** A placeholder is on neither side of a split. */
  lemma SplitsBelowPlaceholder(bs: seq<Msg>, k: nat, m: Msg)
    requires 0 < k <= |bs| && !bs[k - 1].Real() && Splits(bs, k, m)
    ensures Splits(bs, k - 1, m)
  {
  }

  lemma FirstAfterReal(w: Win, m: Msg, k: nat)
    requires m.Real() && k == FirstAfter(w.bodies, m)
    ensures k <= |w.bodies| && (k < |w.bodies| ==> w.bodies[k].Real())
  {
  }

  lemma PastLastBeforeReal(w: Win, m: Msg, k: nat)
    requires m.Real() && k == PastLastBefore(w.bodies, m)
    ensures k <= |w.bodies| && (k > 0 ==> w.bodies[k - 1].Real())
  {
  }

  lemma MergeUpKeeps(w: Win, m: Msg)
    requires w.WellFormed() && w.futs != [] && m.Real() && !w.HasId(m.id.value)
    ensures MergeUp(w, m).WellFormed() && MergeUp(w, m).futs == w.futs
    ensures Reals(MergeUp(w, m).bodies) == InsertSorted(Reals(w.bodies), m)
  {
    hide *;
    var k := FirstAfter(w.bodies, m);
    FirstAfterReal(w, m, k);
    FirstAfterSplits(w, m);
    MergeUpCases(w, m, k);
    if k > 0 && !w.bodies[k - 1].Real() {
      SplitsBelowPlaceholder(w.bodies, k, m);
      MergeFills(w, k - 1, m);
    } else {
      MergeInsertsDown(w, k, m);
    }
  }

  lemma MergeDownKeeps(w: Win, m: Msg)
    requires w.WellFormed() && w.futs != [] && m.Real() && !w.HasId(m.id.value)
    ensures MergeDown(w, m).WellFormed() && MergeDown(w, m).futs == w.futs
    ensures Reals(MergeDown(w, m).bodies) == InsertSorted(Reals(w.bodies), m)
  {
    hide *;
    var k := PastLastBefore(w.bodies, m);
    PastLastBeforeReal(w, m, k);
    PastLastBeforeSplits(w, m);
    MergeDownCases(w, m, k);
    if k < |w.bodies| && !w.bodies[k].Real() {
      MergeFills(w, k, m);
    } else {
      MergeInsertsUp(w, k, m);
    }
  }

  /** Merging an unknown message, in either direction, keeps the window well formed, adds that message
      at its place in the order and nothing else, and leaves the futures alone. */
  lemma MergeKeeps(w: Win, m: Msg, up: bool)
    requires w.WellFormed() && w.futs != []
    requires m.Real() && !w.HasId(m.id.value)
    ensures Merge(w, m, up).WellFormed() && Merge(w, m, up).futs == w.futs
    ensures Reals(Merge(w, m, up).bodies) == InsertSorted(Reals(w.bodies), m)
  {
    if up {
      MergeUpKeeps(w, m);
    } else {
      MergeDownKeeps(w, m);
    }
  }

  // ---------- what each future shows ----------

  /** The message that future number `t` of the run shows. */
  function Under(w: Win, t: nat): Msg
    requires w.start + t < |w.bodies|
  {
    w.bodies[w.start + t]
  }

  lemma SlideDownUnder(w: Win, k: nat, m: Msg, t: nat)
    requires w.Shaped() && t < |w.futs| && k <= |w.bodies|
    requires k > 0 ==> w.bodies[k - 1].Real()
    ensures var v := DropIdleTop(InsertSlidingDown(w, k, m));
            var moved := w.start < k <= w.start + |w.futs| && w.start + t < k;
            && v.start + t < |v.bodies|
            && Under(v, t) == if !moved then Under(w, t) else if w.start + t == k - 1 then m else Under(w, t + 1)
  {
    var u := InsertSlidingDown(w, k, m);
    var p := u.start + t;
    InsertedAt(w.bodies, k, m, p);
    DroppedTopAt(u, p);
  }

  lemma InsertedAt(bs: seq<Msg>, k: nat, m: Msg, p: nat)
    requires k <= |bs| && p <= |bs|
    ensures InsertAt(bs, k, m)[p] == if p < k then bs[p] else if p == k then m else bs[p - 1]
  {
  }

  lemma DroppedTopAt(u: Win, p: nat)
    requires u.InRun(p) && p < |u.bodies|
    ensures var v := DropIdleTop(u);
            v.start + (p - u.start) < |v.bodies| && v.bodies[v.start + (p - u.start)] == u.bodies[p]
  {
  }

  lemma SlideUpUnder(w: Win, k: nat, m: Msg, t: nat)
    requires w.Shaped() && t < |w.futs| && k <= |w.bodies|
    requires k < |w.bodies| ==> w.bodies[k].Real()
    ensures var v := DropIdleBottom(InsertSlidingUp(w, k, m));
            var moved := w.start <= k < w.start + |w.futs| && w.start + t >= k;
            && v.start + t < |v.bodies|
            && Under(v, t) == if !moved then Under(w, t) else if w.start + t == k then m else Under(w, t - 1)
  {
    var u := InsertSlidingUp(w, k, m);
    var p := u.start + t;
    assert u.bodies[p] == if p < k then w.bodies[p] else if p == k then m else w.bodies[p - 1];
  }

  /** Merging upward into the run moves the futures above the new message one message down, the lowest of
      them onto the new message; every other future stays on its message. */
  lemma MergeUpUnder(w: Win, m: Msg, t: nat)
    requires w.Shaped() && t < |w.futs| && m.Real()
    ensures var k, v := FirstAfter(w.bodies, m), MergeUp(w, m);
            && v.start + t < |v.bodies|
            && if k > 0 && !w.bodies[k - 1].Real() then
                 Under(v, t) == if w.start + t == k - 1 then m else Under(w, t)
               else
                 var moved := w.start < k <= w.start + |w.futs| && w.start + t < k;
                 Under(v, t) == if !moved then Under(w, t) else if w.start + t == k - 1 then m else Under(w, t + 1)
  {
    var k := FirstAfter(w.bodies, m);
    if !(k > 0 && !w.bodies[k - 1].Real()) {
      SlideDownUnder(w, k, m, t);
    }
  }

  /** Merging downward is the mirror image. */
  lemma MergeDownUnder(w: Win, m: Msg, t: nat)
    requires w.Shaped() && t < |w.futs| && m.Real()
    ensures var k, v := PastLastBefore(w.bodies, m), MergeDown(w, m);
            && v.start + t < |v.bodies|
            && if k < |w.bodies| && !w.bodies[k].Real() then
                 Under(v, t) == if w.start + t == k then m else Under(w, t)
               else
                 var moved := w.start <= k < w.start + |w.futs| && w.start + t >= k;
                 Under(v, t) == if !moved then Under(w, t) else if w.start + t == k then m else Under(w, t - 1)
  {
    var k := PastLastBefore(w.bodies, m);
    if !(k < |w.bodies| && !w.bodies[k].Real()) {
      SlideUpUnder(w, k, m, t);
    }
  }

  /** A future that shows a message, rather than waiting for one, goes on showing one. */
  lemma MergeKeepsReal(w: Win, m: Msg, up: bool, t: nat)
    requires w.Shaped() && t < |w.futs| && m.Real()
    ensures Merge(w, m, up).start + t < |Merge(w, m, up).bodies|
    ensures Under(w, t).Real() ==> Under(Merge(w, m, up), t).Real()
  {
    if up {
      MergeUpUnder(w, m, t);
      assert Under(w, t).Real() ==> Under(MergeUp(w, m), t).Real();
    } else {
      MergeDownUnder(w, m, t);
      assert Under(w, t).Real() ==> Under(MergeDown(w, m), t).Real();
    }
  }

  // ---------- a whole chunk ----------

  /** beeper_task_event_data_message_t */
  datatype Incoming = Incoming(id: string, text: Option<string>, member: Member, stamp: nat)

  /** The position of the message with this id; the length of the list if there is none. */
  function Find(bs: seq<Msg>, id: string): (k: nat)
    ensures k <= |bs|
    ensures k < |bs| ==> bs[k].id == Some(id)
    ensures forall i :: 0 <= i < k ==> bs[i].id != Some(id)
  {
    if bs == [] || bs[0].id == Some(id) then 0 else 1 + Find(bs[1..], id)
  }

  /** What a known message's text becomes when it comes again: it can lose its text only to a notice. */
  function Retext(have: Option<string>, got: Option<string>): Option<string>
  {
    if got.Some? then got else if have.Some? then Some("(deleted)") else None
  }

  /** A message that is already in the window comes again. Only shown messages get new text. */
  function Refresh(w: Win, e: Incoming): Win
  {
    var k := Find(w.bodies, e.id);
    if k == |w.bodies| then w
    else
      var b := w.bodies[k];
      var text := if w.InRun(k) then Retext(b.text, e.text) else b.text;
      w.(bodies := w.bodies[k := b.(member := e.member, text := text)])
  }

  lemma RefreshCases(w: Win, e: Incoming)
    ensures var k := Find(w.bodies, e.id);
            && k <= |w.bodies|
            && if k == |w.bodies| then Refresh(w, e) == w
               else
                 var b := w.bodies[k];
                 && b.Real()
                 && Refresh(w, e) ==
                      Filled(w, k, if w.InRun(k) then b.(member := e.member, text := Retext(b.text, e.text))
                                                  else b.(member := e.member))
  {
  }

  function RefreshAll(w: Win, es: seq<Incoming>): Win
  {
    if es == [] then w else Refresh(RefreshAll(w, es[..|es| - 1]), es[|es| - 1])
  }

  function ToMsg(e: Incoming, chunk: ChunkRef): Msg
  {
    Msg(Some(chunk), Some(e.id), e.text, e.member, e.stamp)
  }

  lemma ToMsgParts(e: Incoming, chunk: ChunkRef)
    ensures ToMsg(e, chunk).Real() && ToMsg(e, chunk).chunk == Some(chunk)
  {
  }

  /** The messages of the chunk that the window does not have yet. */
  function News(bs: seq<Msg>, es: seq<Incoming>): seq<Incoming>
  {
    if es == [] then []
    else News(bs, es[..|es| - 1]) + if Find(bs, es[|es| - 1].id) == |bs| then [es[|es| - 1]] else []
  }

  function MergeAll(w: Win, es: seq<Incoming>, chunk: ChunkRef, up: bool): Win
  {
    if es == [] then w else Merge(MergeAll(w, es[..|es| - 1], chunk, up), ToMsg(es[|es| - 1], chunk), up)
  }

  function MergeChunk(w: Win, es: seq<Incoming>, chunk: ChunkRef, up: bool): Win
  {
    MergeAll(RefreshAll(w, es), News(w.bodies, es), chunk, up)
  }

  lemma RefreshKeeps(w: Win, e: Incoming)
    requires w.Shaped()
    ensures var v := Refresh(w, e);
            && v.Shaped() && v.futs == w.futs && v.start == w.start && |v.bodies| == |w.bodies|
            && (forall i :: 0 <= i < |w.bodies| ==>
                  && v.bodies[i].id == w.bodies[i].id && v.bodies[i].stamp == w.bodies[i].stamp
                  && v.bodies[i].chunk == w.bodies[i].chunk
                  && (w.bodies[i].id != Some(e.id) ==> v.bodies[i] == w.bodies[i]))
  {
  }

  /** Same messages at the same places, up to their texts. */
  ghost predicate SameIds(v: Win, w: Win)
  {
    && v.futs == w.futs && v.start == w.start && |v.bodies| == |w.bodies|
    && (forall i :: 0 <= i < |w.bodies| ==> v.bodies[i].id == w.bodies[i].id && v.bodies[i].stamp == w.bodies[i].stamp)
  }

  lemma {:induction false} RefreshAllKeeps(w: Win, es: seq<Incoming>)
    requires w.Shaped()
    ensures RefreshAll(w, es).Shaped() && SameIds(RefreshAll(w, es), w)
  {
    if es != [] {
      RefreshAllKeeps(w, es[..|es| - 1]);
      RefreshKeeps(RefreshAll(w, es[..|es| - 1]), es[|es| - 1]);
    }
  }

  lemma SameIdsWellFormed(v: Win, w: Win)
    requires v.Shaped() && w.Shaped() && SameIds(v, w)
    ensures v.WellFormed() <==> w.WellFormed()
    ensures forall id :: v.HasId(id) <==> w.HasId(id)
  {
    forall i | 0 <= i < |w.bodies| ensures v.bodies[i].Real() <==> w.bodies[i].Real() {
      assert v.bodies[i].id == w.bodies[i].id;
    }
    assert forall i, j :: 0 <= i < |w.bodies| && 0 <= j < |w.bodies| ==>
        (Before(v.bodies[i], v.bodies[j]) <==> Before(w.bodies[i], w.bodies[j]));
    forall id ensures v.HasId(id) <==> w.HasId(id) {
      if w.HasId(id) {
        var i :| 0 <= i < |w.bodies| && w.bodies[i].id == Some(id);
        assert v.bodies[i].id == Some(id);
      }
      if v.HasId(id) {
        var i :| 0 <= i < |v.bodies| && v.bodies[i].id == Some(id);
        assert w.bodies[i].id == Some(id);
      }
    }
  }

  /** Which messages of a chunk are unknown does not change when the known ones are refreshed. */
  lemma {:induction false} NewsSame(a: seq<Msg>, b: seq<Msg>, es: seq<Incoming>)
    requires |a| == |b| && forall i :: 0 <= i < |a| ==> a[i].id == b[i].id
    ensures News(a, es) == News(b, es)
  {
    if es != [] {
      NewsSame(a, b, es[..|es| - 1]);
      FindSame(a, b, es[|es| - 1].id);
    }
  }

  lemma NewsAfterRefresh(w: Win, es: seq<Incoming>)
    requires w.Shaped()
    ensures News(RefreshAll(w, es).bodies, es) == News(w.bodies, es)
  {
    RefreshAllKeeps(w, es);
    NewsSame(RefreshAll(w, es).bodies, w.bodies, es);
  }

  // ---------- merging a chunk loses nothing ----------

  function IdsOf(m: Msg): multiset<string>
  {
    if m.Real() then multiset{m.id.value} else multiset{}
  }

  /** The ids in the window, with how often each occurs. */
  function Ids(bs: seq<Msg>): multiset<string>
  {
    if bs == [] then multiset{} else IdsOf(bs[0]) + Ids(bs[1..])
  }

  lemma SumAssociates(a: multiset<string>, b: multiset<string>, c: multiset<string>)
    ensures a + (b + c) == (a + b) + c
  {
  }

  lemma {:induction false} IdsConcat(a: seq<Msg>, b: seq<Msg>)
    ensures Ids(a + b) == Ids(a) + Ids(b)
  {
    if a == [] {
      assert a + b == b;
    } else {
      var c := a + b;
      assert c[0] == a[0];
      assert c[1..] == a[1..] + b;
      calc {
        Ids(c);
        IdsOf(c[0]) + Ids(c[1..]);
        IdsOf(a[0]) + Ids(a[1..] + b);
        { IdsConcat(a[1..], b); }
        IdsOf(a[0]) + (Ids(a[1..]) + Ids(b));
        { SumAssociates(IdsOf(a[0]), Ids(a[1..]), Ids(b)); }
        (IdsOf(a[0]) + Ids(a[1..])) + Ids(b);
        Ids(a) + Ids(b);
      }
    }
  }

  lemma IdsMiddle(a: seq<Msg>, x: Msg, b: seq<Msg>)
    ensures Ids(a + [x] + b) == Ids(a) + IdsOf(x) + Ids(b)
  {
    IdsConcat(a + [x], b);
    IdsConcat(a, [x]);
  }

  lemma {:induction false} IdsOccur(bs: seq<Msg>, id: string)
    ensures Ids(bs)[id] > 0 <==> exists i :: 0 <= i < |bs| && bs[i].id == Some(id)
  {
    if bs != [] {
      var cs := bs[1..];
      IdsOccur(cs, id);
      assert forall i :: 0 <= i < |cs| ==> cs[i] == bs[i + 1];
      if i :| 0 <= i < |cs| && cs[i].id == Some(id) {
        assert bs[i + 1].id == Some(id);
      }
      if i :| 0 < i < |bs| && bs[i].id == Some(id) {
        assert cs[i - 1].id == Some(id);
      }
    }
  }

  lemma {:induction false} IdsCount(bs: seq<Msg>, id: string)
    ensures Ids(bs)[id] > 0 <==> exists i :: 0 <= i < |bs| && bs[i].id == Some(id)
    ensures Ids(bs)[id] <= 1 <==> forall i, j :: 0 <= i < j < |bs| && bs[i].id == Some(id) ==> bs[j].id != Some(id)
  {
    IdsOccur(bs, id);
    if bs != [] {
      var cs := bs[1..];
      IdsCount(cs, id);
      assert forall i :: 0 <= i < |cs| ==> cs[i] == bs[i + 1];
      if i, j :| 0 <= i < j < |cs| && cs[i].id == Some(id) && cs[j].id == Some(id) {
        assert bs[i + 1].id == Some(id) && bs[j + 1].id == Some(id);
      }
      if i, j :| 0 <= i < j < |bs| && bs[i].id == Some(id) && bs[j].id == Some(id) {
        assert cs[j - 1].id == Some(id);
        assert i > 0 ==> cs[i - 1].id == Some(id);
      }
    }
  }

  lemma DistinctIdsCount(w: Win)
    ensures w.DistinctIds() <==> forall id :: Ids(w.bodies)[id] <= 1
    ensures forall id :: w.HasId(id) <==> id in Ids(w.bodies)
  {
    forall id ensures w.HasId(id) <==> id in Ids(w.bodies) {
      IdsCount(w.bodies, id);
    }
    if w.DistinctIds() {
      forall id ensures Ids(w.bodies)[id] <= 1 {
        IdsCount(w.bodies, id);
      }
    } else {
      var i, j :| 0 <= i < j < |w.bodies| && w.bodies[i].Real() && w.bodies[j].Real()
          && w.bodies[i].id == w.bodies[j].id;
      IdsCount(w.bodies, w.bodies[i].id.value);
    }
  }

  lemma FillIds(bs: seq<Msg>, p: nat, m: Msg)
    requires m.Real() && p < |bs| && !bs[p].Real()
    ensures Ids(bs[p := m]) == Ids(bs) + multiset{m.id.value}
  {
    var a, b := bs[..p], bs[p + 1..];
    assert bs == a + [bs[p]] + b && bs[p := m] == a + [m] + b;
    IdsMiddle(a, bs[p], b);
    IdsMiddle(a, m, b);
  }

  lemma InsertIds(bs: seq<Msg>, k: nat, m: Msg)
    requires m.Real() && k <= |bs|
    ensures Ids(InsertAt(bs, k, m)) == Ids(bs) + multiset{m.id.value}
  {
    assert bs == bs[..k] + bs[k..];
    IdsConcat(bs[..k], bs[k..]);
    IdsMiddle(bs[..k], m, bs[k..]);
  }

  lemma DropIdleIds(w: Win)
    requires w.bodies != []
    ensures Ids(DropIdleTop(w).bodies) == Ids(w.bodies) == Ids(DropIdleBottom(w).bodies)
  {
    var n := |w.bodies| - 1;
    assert w.bodies == w.bodies[..n] + [w.bodies[n]];
    IdsConcat(w.bodies[..n], [w.bodies[n]]);
  }

  lemma MergeUpIds(w: Win, m: Msg)
    requires m.Real()
    ensures Ids(MergeUp(w, m).bodies) == Ids(w.bodies) + multiset{m.id.value}
  {
    var k := FirstAfter(w.bodies, m);
    if k > 0 && !w.bodies[k - 1].Real() {
      FillIds(w.bodies, k - 1, m);
    } else {
      InsertIds(w.bodies, k, m);
      DropIdleIds(InsertSlidingDown(w, k, m));
    }
  }

  lemma MergeDownIds(w: Win, m: Msg)
    requires m.Real()
    ensures Ids(MergeDown(w, m).bodies) == Ids(w.bodies) + multiset{m.id.value}
  {
    var k := PastLastBefore(w.bodies, m);
    if k < |w.bodies| && !w.bodies[k].Real() {
      FillIds(w.bodies, k, m);
    } else {
      InsertIds(w.bodies, k, m);
      DropIdleIds(InsertSlidingUp(w, k, m));
    }
  }

  lemma MergeIds(w: Win, m: Msg, up: bool)
    requires m.Real()
    ensures Ids(Merge(w, m, up).bodies) == Ids(w.bodies) + multiset{m.id.value}
  {
    if up {
      MergeUpIds(w, m);
    } else {
      MergeDownIds(w, m);
    }
  }

  lemma MergeShape(w: Win, m: Msg, up: bool)
    requires w.Shaped() && w.futs != [] && m.Real()
    ensures Merge(w, m, up).Shaped() && Merge(w, m, up).futs == w.futs
  {
    if up {
      var k := FirstAfter(w.bodies, m);
      if k > 0 && !w.bodies[k - 1].Real() {
        FillShape(w, k - 1, m);
      } else {
        SlideDownShape(w, k, m);
      }
    } else {
      var k := PastLastBefore(w.bodies, m);
      if k < |w.bodies| && !w.bodies[k].Real() {
        FillShape(w, k, m);
      } else {
        SlideUpShape(w, k, m);
      }
    }
  }

  function IncomingIds(es: seq<Incoming>): multiset<string>
  {
    if es == [] then multiset{} else IncomingIds(es[..|es| - 1]) + multiset{es[|es| - 1].id}
  }

  lemma {:induction false} MergeAllKeeps(w: Win, es: seq<Incoming>, chunk: ChunkRef, up: bool)
    requires w.Shaped() && w.futs != []
    ensures var v := MergeAll(w, es, chunk, up);
            && v.Shaped() && v.futs == w.futs
            && Ids(v.bodies) == Ids(w.bodies) + IncomingIds(es)
  {
    if es != [] {
      var es', m := es[..|es| - 1], ToMsg(es[|es| - 1], chunk);
      MergeAllKeeps(w, es', chunk, up);
      MergeShape(MergeAll(w, es', chunk, up), m, up);
      MergeIds(MergeAll(w, es', chunk, up), m, up);
    }
  }

  lemma {:induction false} MergeAllOrdered(w: Win, es: seq<Incoming>, chunk: ChunkRef, up: bool)
    requires w.WellFormed() && w.futs != []
    requires forall id :: (Ids(w.bodies) + IncomingIds(es))[id] <= 1
    ensures MergeAll(w, es, chunk, up).WellFormed()
  {
    if es != [] {
      var es', m := es[..|es| - 1], ToMsg(es[|es| - 1], chunk);
      assert forall id :: (Ids(w.bodies) + IncomingIds(es'))[id] <= (Ids(w.bodies) + IncomingIds(es))[id];
      MergeAllOrdered(w, es', chunk, up);
      MergeAllKeeps(w, es', chunk, up);
      var v := MergeAll(w, es', chunk, up);
      DistinctIdsCount(v);
      assert (Ids(v.bodies) + multiset{m.id.value})[m.id.value] <= 1;
      MergeKeeps(v, m, up);
    }
  }

  lemma ChunkIds(w: Win, es: seq<Incoming>, chunk: ChunkRef, up: bool)
    requires w.WellFormed() && w.futs != []
    ensures MergeChunk(w, es, chunk, up).Shaped() && MergeChunk(w, es, chunk, up).futs == w.futs
    ensures Ids(MergeChunk(w, es, chunk, up).bodies) == Ids(w.bodies) + IncomingIds(News(w.bodies, es))
  {
    var u := RefreshAll(w, es);
    RefreshAllKeeps(w, es);
    SameIdsSameIds(u.bodies, w.bodies);
    MergeAllKeeps(u, News(w.bodies, es), chunk, up);
  }

  lemma ChunkOrdered(w: Win, es: seq<Incoming>, chunk: ChunkRef, up: bool)
    requires w.WellFormed() && w.futs != []
    requires forall id :: IncomingIds(News(w.bodies, es))[id] <= 1
    ensures MergeChunk(w, es, chunk, up).WellFormed()
  {
    var u, ns := RefreshAll(w, es), News(w.bodies, es);
    RefreshAllKeeps(w, es);
    SameIdsWellFormed(u, w);
    SameIdsSameIds(u.bodies, w.bodies);
    DistinctIdsCount(w);
    NewsUnknown(w.bodies, es);
    forall id ensures (Ids(u.bodies) + IncomingIds(ns))[id] <= 1 {
      assert id in IncomingIds(ns) ==> id !in Ids(w.bodies);
    }
    MergeAllOrdered(u, ns, chunk, up);
  }

  /** Taking in a chunk keeps the run of futures and every message id, adds exactly the ids that were
      unknown, and keeps the window well formed exactly when those are distinct. */
  lemma ChunkKeeps(w: Win, es: seq<Incoming>, chunk: ChunkRef, up: bool)
    requires w.WellFormed() && w.futs != []
    ensures MergeChunk(w, es, chunk, up).Shaped() && MergeChunk(w, es, chunk, up).futs == w.futs
    ensures Ids(MergeChunk(w, es, chunk, up).bodies) == Ids(w.bodies) + IncomingIds(News(w.bodies, es))
    ensures MergeChunk(w, es, chunk, up).WellFormed() <==> forall id :: IncomingIds(News(w.bodies, es))[id] <= 1
  {
    ChunkIds(w, es, chunk, up);
    if forall id :: IncomingIds(News(w.bodies, es))[id] <= 1 {
      ChunkOrdered(w, es, chunk, up);
    } else {
      var id :| IncomingIds(News(w.bodies, es))[id] > 1;
      DistinctIdsCount(MergeChunk(w, es, chunk, up));
      assert Ids(MergeChunk(w, es, chunk, up).bodies)[id] > 1;
    }
  }

  lemma {:induction false} SameIdsSameIds(a: seq<Msg>, b: seq<Msg>)
    requires |a| == |b| && forall i :: 0 <= i < |a| ==> a[i].id == b[i].id
    ensures Ids(a) == Ids(b)
  {
    if a != [] {
      SameIdsSameIds(a[1..], b[1..]);
    }
  }

  lemma {:induction false} NewsUnknown(bs: seq<Msg>, es: seq<Incoming>)
    ensures forall id :: id in IncomingIds(News(bs, es)) ==> id !in Ids(bs)
  {
    if es != [] {
      NewsUnknown(bs, es[..|es| - 1]);
      var e := es[|es| - 1];
      if Find(bs, e.id) == |bs| {
        IdsCount(bs, e.id);
        var ns := News(bs, es);
        assert ns[..|ns| - 1] == News(bs, es[..|es| - 1]);
      } else {
        assert News(bs, es) == News(bs, es[..|es| - 1]);
      }
    }
  }

  /** The ids of a chunk's messages are distinct. */
  ghost predicate DistinctIncoming(es: seq<Incoming>)
  {
    forall i, j :: 0 <= i < j < |es| ==> es[i].id != es[j].id
  }

  lemma {:induction false} NewsFrom(bs: seq<Msg>, es: seq<Incoming>, id: string)
    ensures id in IncomingIds(News(bs, es)) ==> exists i :: 0 <= i < |es| && es[i].id == id
  {
    if es != [] {
      var es', e, ns := es[..|es| - 1], es[|es| - 1], News(bs, es);
      NewsFrom(bs, es', id);
      if Find(bs, e.id) == |bs| {
        assert ns[..|ns| - 1] == News(bs, es') && ns[|ns| - 1] == e;
      } else {
        assert ns == News(bs, es');
      }
      if id in IncomingIds(News(bs, es')) {
        var i :| 0 <= i < |es'| && es'[i].id == id;
        assert es[i].id == id;
      }
    }
  }

  lemma {:induction false} NewsDistinct(bs: seq<Msg>, es: seq<Incoming>)
    requires DistinctIncoming(es)
    ensures forall id :: IncomingIds(News(bs, es))[id] <= 1
  {
    if es != [] {
      var es', e, ns := es[..|es| - 1], es[|es| - 1], News(bs, es);
      NewsDistinct(bs, es');
      NewsFrom(bs, es', e.id);
      if Find(bs, e.id) == |bs| {
        assert ns[..|ns| - 1] == News(bs, es') && ns[|ns| - 1] == e;
      } else {
        assert ns == News(bs, es');
      }
    }
  }

  /** Every id of the chunk is in the window afterwards, whether it was known or not. */
  lemma {:induction false} NewsComplete(bs: seq<Msg>, es: seq<Incoming>, i: nat)
    requires i < |es|
    ensures es[i].id in Ids(bs) + IncomingIds(News(bs, es))
  {
    var e, es' := es[|es| - 1], es[..|es| - 1];
    var ns := News(bs, es);
    if Find(bs, e.id) == |bs| {
      assert ns[..|ns| - 1] == News(bs, es') && ns[|ns| - 1] == e;
    } else {
      assert ns == News(bs, es');
      IdsCount(bs, e.id);
    }
    if i < |es| - 1 {
      NewsComplete(bs, es', i);
      assert es'[i] == es[i];
    }
  }

  // ---------- the UI asks for one more message, or gives one back ----------

  /** A new future at one side of the run: for the next message there, or for a placeholder when the list
      ends there. */
  function Load(w: Win, side: Side, f: Fut): Win
  {
    if w.futs == [] then Win([PLACEHOLDER], 0, [f])
    else if side.Top? then
      if w.start > 0 then Win(w.bodies, w.start - 1, [f] + w.futs) else Win([PLACEHOLDER] + w.bodies, 0, [f] + w.futs)
    else
      Win(if w.start + |w.futs| < |w.bodies| then w.bodies else w.bodies + [PLACEHOLDER], w.start, w.futs + [f])
  }

  /** One future less; the messages beyond the remaining run on that side go too. */
  function Unload(w: Win, side: Side): Win
    requires w.start + |w.futs| <= |w.bodies|
  {
    if |w.futs| <= 1 then EMPTY
    else if side.Top? then Win(w.bodies[w.start + 1..], 0, w.futs[1..])
    else Win(w.bodies[..w.start + |w.futs| - 1], w.start, w.futs[..|w.futs| - 1])
  }

  /** The run ends at a placeholder on this side, which is still waiting for a message. */
  predicate EndWaits(w: Win, side: Side)
    requires w.start + |w.futs| <= |w.bodies|
  {
    w.futs != [] &&
    if side.Top? then w.start == 0 && !w.bodies[0].Real()
    else w.start + |w.futs| == |w.bodies| && !w.bodies[|w.bodies| - 1].Real()
  }

  lemma LoadKeeps(w: Win, side: Side, f: Fut)
    requires w.WellFormed() && f !in w.futs
    ensures Load(w, side, f).WellFormed() <==> !EndWaits(w, side)
  {
    var v := Load(w, side, f);
    if side.Top? && w.futs != [] && w.start == 0 {
      assert v.bodies[1] == w.bodies[0];
      assert forall i :: 0 < i < |v.bodies| ==> v.bodies[i] == w.bodies[i - 1];
      assert v.WellFormed() <==> !EndWaits(w, side);
    } else if side.Bottom? && w.futs != [] && w.start + |w.futs| == |w.bodies| {
      assert v.bodies[|w.bodies| - 1] == w.bodies[|w.bodies| - 1];
      assert forall i :: 0 <= i < |w.bodies| ==> v.bodies[i] == w.bodies[i];
      assert v.WellFormed() <==> !EndWaits(w, side);
    }
  }

  /** The chunk id that leads on from the end of the run. */
  function NextRef(w: Win, side: Side): Option<ChunkRef>
    requires w.start + |w.futs| <= |w.bodies|
  {
    if w.futs == [] then None else if side.Top? then w.bodies[w.start].chunk else w.bodies[w.Bottom()].chunk
  }

  /** The new future has to wait: there is no message for it. */
  predicate LoadWaits(w: Win, side: Side)
  {
    w.futs == [] || if side.Top? then w.start == 0 else w.start + |w.futs| == |w.bodies|
  }

  lemma LoadTopShape(w: Win, f: Fut)
    requires w.Shaped() && f !in w.futs && !EndWaits(w, Top)
    ensures var v := Load(w, Top, f);
            && v.Shaped() && v.futs != [] && (!v.bodies[v.start].Real() <==> LoadWaits(w, Top))
  {
  }

  lemma LoadBottomShape(w: Win, f: Fut)
    requires w.Shaped() && f !in w.futs && !EndWaits(w, Bottom)
    ensures var v := Load(w, Bottom, f);
            && v.Shaped() && v.futs != [] && (!v.bodies[v.Bottom()].Real() <==> LoadWaits(w, Bottom))
  {
  }

  lemma LoadRefs(w: Win, side: Side, f: Fut)
    requires w.Shaped()
    ensures ChunkRefs(Load(w, side, f).bodies) == ChunkRefs(w.bodies)
  {
    ChunkRefsOne(PLACEHOLDER);
    ChunkRefsConcat([PLACEHOLDER], w.bodies);
    ChunkRefsConcat(w.bodies, [PLACEHOLDER]);
  }

  lemma UnloadShape(w: Win, side: Side)
    requires w.Shaped()
    ensures Unload(w, side).Shaped()
  {
    var v := Unload(w, side);
    if |w.futs| > 1 && side.Top? {
      assert forall i :: 0 <= i < |v.bodies| ==> v.bodies[i] == w.bodies[w.start + 1 + i];
    }
  }

  lemma NextRefIn(w: Win, side: Side)
    requires w.Shaped() && NextRef(w, side).Some?
    ensures NextRef(w, side).value in ChunkRefs(w.bodies)
  {
    ChunkRefsIn(w.bodies, if side.Top? then w.start else w.Bottom());
  }

  lemma UnloadKeeps(w: Win, side: Side)
    requires w.WellFormed()
    ensures Unload(w, side).WellFormed()
  {
    var v := Unload(w, side);
    if |w.futs| > 1 && side.Top? {
      assert forall i :: 0 <= i < |v.bodies| ==> v.bodies[i] == w.bodies[w.start + 1 + i];
    }
  }

  /** A message was decrypted after it had come in. */
  function Decrypted(w: Win, id: string, text: string): Win
  {
    var k := Find(w.bodies, id);
    if k == |w.bodies| then w else w.(bodies := w.bodies[k := w.bodies[k].(text := Some(text))])
  }

  lemma DecryptedCases(w: Win, id: string, text: string)
    ensures var k := Find(w.bodies, id);
            && k <= |w.bodies|
            && if k == |w.bodies| || w.bodies[k].text == Some(text) then Decrypted(w, id, text) == w
               else w.bodies[k].Real() && Decrypted(w, id, text) == Filled(w, k, w.bodies[k].(text := Some(text)))
  {
  }

  lemma DecryptedShape(w: Win, id: string, text: string)
    requires w.Shaped()
    ensures Decrypted(w, id, text).Shaped() && SameIds(Decrypted(w, id, text), w)
  {
  }

  lemma DecryptedRefs(w: Win, id: string, text: string)
    ensures ChunkRefs(Decrypted(w, id, text).bodies) == ChunkRefs(w.bodies)
  {
    var k := Find(w.bodies, id);
    if k < |w.bodies| {
      SameChunkRefs(w.bodies, k, w.bodies[k].(text := Some(text)));
    }
  }

  lemma SameChunkRefs(bs: seq<Msg>, k: nat, m: Msg)
    requires k < |bs| && m.chunk == bs[k].chunk
    ensures ChunkRefs(bs[k := m]) == ChunkRefs(bs)
  {
    ChunkRefsUpdate(bs, k, m);
    SameMinus(ChunkRefs(bs[k := m]), ChunkRefs(bs), RefsOf(m.chunk));
  }

  lemma DecryptedKeeps(w: Win, id: string, text: string)
    requires w.WellFormed()
    ensures Decrypted(w, id, text).WellFormed() && SameIds(Decrypted(w, id, text), w)
  {
    DecryptedShape(w, id, text);
    SameIdsWellFormed(Decrypted(w, id, text), w);
  }

  // ---------- inserting one message and sliding the futures, half way ----------

  /** After an insertion, with the hole at `j`: the futures above the hole are where they were, those
      below it are one message lower than they were. */
  function HoleFut(w: Win, j: int, i: int): Option<Fut>
  {
    if i < j then w.FutAt(i) else if i == j then None else w.FutAt(i - 1)
  }

  /** Where the future at `p` is when the hole is at `j`. */
  function HolePos(j: int, p: int): int
  {
    if p < j then p else p + 1
  }

  /** The hole, opened at `k`, has moved up to `j` and can go no further. */
  lemma HoleUpDone(w: Win, k: nat, m: Msg, j: nat, i: nat)
    requires w.start + |w.futs| <= |w.bodies| && w.futs != [] && j <= k <= |w.bodies| && i <= |w.bodies|
    requires forall p :: j <= p < k ==> w.InRun(p)
    requires !w.InRun(j - 1)
    ensures InsertSlidingDown(w, k, m).FutAt(i) == HoleFut(w, j, i)
  {
    assert j < k ==> w.InRun(j) && w.InRun(k - 1);
  }

  lemma HoleDownDone(w: Win, k: nat, m: Msg, j: nat, i: nat)
    requires w.start + |w.futs| <= |w.bodies| && w.futs != [] && k <= j <= |w.bodies| && i <= |w.bodies|
    requires forall p :: k <= p < j ==> w.InRun(p)
    requires !w.InRun(j)
    ensures InsertSlidingUp(w, k, m).FutAt(i) == HoleFut(w, j, i)
  {
    assert k < j ==> w.InRun(k) && w.InRun(j - 1);
  }

  /** Moving the hole to a neighbour moves just that neighbour's future. */
  lemma HoleStep(w: Win, j: int, i: int)
    requires i == j - 1 || i == j + 1
    ensures forall x ::
              HoleFut(w, i, x) == if x == j then HoleFut(w, j, i) else if x == i then None else HoleFut(w, j, x)
    ensures forall p :: HolePos(i, p) == if HolePos(j, p) == i then j else HolePos(j, p)
  {
  }

  /** What was at `p` is at `HolePos(k, p)` once something has been inserted at `k`. */
  lemma InsertAtHolePos<T>(s: seq<T>, k: nat, x: T, p: nat)
    requires k <= |s| && p < |s|
    ensures InsertAt(s, k, x)[HolePos(k, p)] == s[p]
  {
  }

  // ---------- which counted strings the messages point at ----------

  function ChunkRefs(bs: seq<Msg>): multiset<ChunkRef>
  {
    if bs == [] then multiset{} else RefsOf(bs[0].chunk) + ChunkRefs(bs[1..])
  }

  lemma {:induction false} ChunkRefsConcat(a: seq<Msg>, b: seq<Msg>)
    ensures ChunkRefs(a + b) == ChunkRefs(a) + ChunkRefs(b)
  {
    if a == [] {
      assert a + b == b;
    } else {
      var c := a + b;
      assert c[0] == a[0];
      assert c[1..] == a[1..] + b;
      calc {
        ChunkRefs(c);
        RefsOf(a[0].chunk) + ChunkRefs(a[1..] + b);
        { ChunkRefsConcat(a[1..], b); }
        RefsOf(a[0].chunk) + (ChunkRefs(a[1..]) + ChunkRefs(b));
        (RefsOf(a[0].chunk) + ChunkRefs(a[1..])) + ChunkRefs(b);
        ChunkRefs(a) + ChunkRefs(b);
      }
    }
  }

  lemma ChunkRefsOne(m: Msg)
    ensures ChunkRefs([m]) == RefsOf(m.chunk)
  {
    var s := [m];
    assert s[1..] == [];
    calc {
      ChunkRefs(s);
      RefsOf(s[0].chunk) + ChunkRefs(s[1..]);
      RefsOf(m.chunk) + ChunkRefs([]);
      RefsOf(m.chunk);
    }
  }

  lemma ChunkRefsInsert(bs: seq<Msg>, k: nat, m: Msg)
    requires k <= |bs|
    ensures ChunkRefs(InsertAt(bs, k, m)) == ChunkRefs(bs) + RefsOf(m.chunk)
  {
    hide ChunkRefs, RefsOf;
    var a, b := bs[..k], bs[k..];
    assert bs == a + b && InsertAt(bs, k, m) == a + [m] + b;
    ChunkRefsConcat(a + [m], b);
    ChunkRefsConcat(a, [m]);
    ChunkRefsConcat(a, b);
    ChunkRefsOne(m);
    Exchange(ChunkRefs(a), RefsOf(m.chunk), ChunkRefs(b));
  }

  lemma Exchange<T>(a: multiset<T>, b: multiset<T>, c: multiset<T>)
    ensures a + b + c == a + c + b
  {
  }

  /** Replacing a message exchanges one pointer. */
  lemma ChunkRefsUpdate(bs: seq<Msg>, k: nat, m: Msg)
    requires k < |bs|
    ensures ChunkRefs(bs[k := m]) + RefsOf(bs[k].chunk) == ChunkRefs(bs) + RefsOf(m.chunk)
  {
    var cs := bs[..k] + bs[k + 1..];
    ChunkRefsInsert(cs, k, m);
    ChunkRefsInsert(cs, k, bs[k]);
    assert InsertAt(cs, k, m) == bs[k := m];
    assert InsertAt(cs, k, bs[k]) == bs;
  }

  lemma ChunkRefsIn(bs: seq<Msg>, k: nat)
    requires k < |bs| && bs[k].chunk.Some?
    ensures bs[k].chunk.value in ChunkRefs(bs)
  {
    var v := bs[k].chunk.value;
    ChunkRefsUpdate(bs, k, bs[k].(chunk := None));
    assert ChunkRefs(bs)[v] == (ChunkRefs(bs[k := bs[k].(chunk := None)]) + multiset{v})[v];
  }

  lemma ChunkRefsEnds(bs: seq<Msg>)
    requires bs != []
    ensures ChunkRefs(bs) == RefsOf(bs[0].chunk) + ChunkRefs(bs[1..])
    ensures ChunkRefs(bs) == ChunkRefs(bs[..|bs| - 1]) + RefsOf(bs[|bs| - 1].chunk)
  {
    var n := |bs| - 1;
    assert bs == bs[..n] + [bs[n]];
    ChunkRefsConcat(bs[..n], [bs[n]]);
    ChunkRefsOne(bs[n]);
  }

  lemma DropIdleRefs(w: Win)
    requires w.bodies != []
    requires forall i :: 0 <= i < |w.bodies| ==> Plain(w.bodies[i])
    ensures ChunkRefs(DropIdleTop(w).bodies) == ChunkRefs(w.bodies)
    ensures ChunkRefs(DropIdleBottom(w).bodies) == ChunkRefs(w.bodies)
  {
    ChunkRefsEnds(w.bodies);
    var n := |w.bodies| - 1;
    assert !w.bodies[0].Real() ==> w.bodies[0] == PLACEHOLDER;
    assert !w.bodies[n].Real() ==> w.bodies[n] == PLACEHOLDER;
  }

  lemma FilledRefs(w: Win, k: nat, m: Msg)
    requires k < |w.bodies| && w.bodies[k].chunk == None
    ensures ChunkRefs(Filled(w, k, m).bodies) == ChunkRefs(w.bodies) + RefsOf(m.chunk)
  {
    ChunkRefsUpdate(w.bodies, k, m);
  }

  lemma SlidDownRefs(w: Win, k: nat, m: Msg)
    requires w.Shaped() && m.Real() && k <= |w.bodies|
    ensures ChunkRefs(DropIdleTop(InsertSlidingDown(w, k, m)).bodies) == ChunkRefs(w.bodies) + RefsOf(m.chunk)
  {
    ChunkRefsInsert(w.bodies, k, m);
    DropIdleRefs(InsertSlidingDown(w, k, m));
  }

  lemma SlidUpRefs(w: Win, k: nat, m: Msg)
    requires w.Shaped() && m.Real() && k <= |w.bodies|
    ensures ChunkRefs(DropIdleBottom(InsertSlidingUp(w, k, m)).bodies) == ChunkRefs(w.bodies) + RefsOf(m.chunk)
  {
    ChunkRefsInsert(w.bodies, k, m);
    DropIdleRefs(InsertSlidingUp(w, k, m));
  }

  lemma MergeUpRefs(w: Win, m: Msg)
    requires w.Shaped() && m.Real()
    ensures ChunkRefs(MergeUp(w, m).bodies) == ChunkRefs(w.bodies) + RefsOf(m.chunk)
  {
    hide *;
    var k := FirstAfter(w.bodies, m);
    FirstAfterReal(w, m, k);
    MergeUpCases(w, m, k);
    if k > 0 && !w.bodies[k - 1].Real() {
      NotReal(w, k - 1);
      PlaceholderRefs();
      FilledRefs(w, k - 1, m);
    } else {
      SlidDownRefs(w, k, m);
    }
  }

  lemma PlaceholderRefs()
    ensures PLACEHOLDER.chunk == None
  {
  }

  lemma MergeDownRefs(w: Win, m: Msg)
    requires w.Shaped() && m.Real()
    ensures ChunkRefs(MergeDown(w, m).bodies) == ChunkRefs(w.bodies) + RefsOf(m.chunk)
  {
    hide *;
    var k := PastLastBefore(w.bodies, m);
    PastLastBeforeReal(w, m, k);
    MergeDownCases(w, m, k);
    if k < |w.bodies| && !w.bodies[k].Real() {
      NotReal(w, k);
      PlaceholderRefs();
      FilledRefs(w, k, m);
    } else {
      SlidUpRefs(w, k, m);
    }
  }

  /** Merging a message points at its chunk id string once more, and changes no other pointer. */
  lemma MergeRefs(w: Win, m: Msg, up: bool)
    requires w.Shaped() && m.Real()
    ensures ChunkRefs(Merge(w, m, up).bodies) == ChunkRefs(w.bodies) + RefsOf(m.chunk)
  {
    if up {
      MergeUpRefs(w, m);
    } else {
      MergeDownRefs(w, m);
    }
  }

  lemma {:induction false} FindSame(a: seq<Msg>, b: seq<Msg>, id: string)
    requires |a| == |b| && forall i :: 0 <= i < |a| ==> a[i].id == b[i].id
    ensures Find(a, id) == Find(b, id)
  {
    if a != [] && a[0].id != Some(id) {
      FindSame(a[1..], b[1..], id);
    }
  }

  lemma {:induction false} RefreshAllRefs(w: Win, es: seq<Incoming>)
    requires w.Shaped()
    ensures ChunkRefs(RefreshAll(w, es).bodies) == ChunkRefs(w.bodies)
  {
    if es != [] {
      var u, e := RefreshAll(w, es[..|es| - 1]), es[|es| - 1];
      RefreshAllRefs(w, es[..|es| - 1]);
      var k := Find(u.bodies, e.id);
      if k < |u.bodies| {
        SameChunkRefs(u.bodies, k, Refresh(u, e).bodies[k]);
      }
    }
  }

  lemma SameMinus(a: multiset<ChunkRef>, b: multiset<ChunkRef>, c: multiset<ChunkRef>)
    requires a + c == b + c
    ensures a == b
  {
    assert a == (a + c) - c && b == (b + c) - c;
  }

  lemma RefreshAllStep(w: Win, es: seq<Incoming>, i: nat)
    requires i < |es|
    ensures RefreshAll(w, es[..i + 1]) == Refresh(RefreshAll(w, es[..i]), es[i])
    ensures News(w.bodies, es[..i + 1]) ==
            News(w.bodies, es[..i]) + if Find(w.bodies, es[i].id) == |w.bodies| then [es[i]] else []
  {
    assert es[..i + 1][..i] == es[..i];
  }

  lemma MergeAllNone(w: Win, chunk: ChunkRef, up: bool)
    ensures MergeAll(w, [], chunk, up) == w
  {
  }

  lemma MergeAllStep(w: Win, es: seq<Incoming>, i: nat, chunk: ChunkRef, up: bool)
    requires i < |es|
    ensures MergeAll(w, es[..i + 1], chunk, up) == Merge(MergeAll(w, es[..i], chunk, up), ToMsg(es[i], chunk), up)
  {
    assert es[..i + 1][..i] == es[..i];
  }

  // ---------- what a chunk brings, field by field ----------

  /** This is the message that came. */
  ghost predicate Came(b: Msg, e: Incoming)
  {
    b.id == Some(e.id) && b.stamp == e.stamp && b.text == e.text && b.member == e.member
  }

  lemma ToMsgCame(e: Incoming, chunk: ChunkRef)
    ensures Came(ToMsg(e, chunk), e) && ToMsg(e, chunk).chunk == Some(chunk)
  {
  }

  /** The real messages after a merge: those there were, as they were, and the new one. */
  lemma MergeHas(w: Win, m: Msg, up: bool)
    requires m.Real()
    ensures forall b: Msg :: b.Real() ==> (b in Merge(w, m, up).bodies <==> b in w.bodies || b == m)
  {
    if up {
      var k := FirstAfter(w.bodies, m);
      if k > 0 && !w.bodies[k - 1].Real() {
        UpdateHas(w.bodies, k - 1, m);
      } else {
        InsertHas(w.bodies, k, m);
        DropHas(InsertSlidingDown(w, k, m));
      }
    } else {
      var k := PastLastBefore(w.bodies, m);
      if k < |w.bodies| && !w.bodies[k].Real() {
        UpdateHas(w.bodies, k, m);
      } else {
        InsertHas(w.bodies, k, m);
        DropHas(InsertSlidingUp(w, k, m));
      }
    }
  }

  lemma UpdateHas(bs: seq<Msg>, k: nat, m: Msg)
    requires k < |bs| && m.Real() && !bs[k].Real()
    ensures forall b: Msg :: b.Real() ==> (b in bs[k := m] <==> b in bs || b == m)
  {
    forall b: Msg | b.Real()
      ensures b in bs[k := m] <==> b in bs || b == m
    {
      assert bs[k := m][k] == m;
      if i :| 0 <= i < |bs| && bs[i] == b {
        assert bs[k := m][i] == b;
      }
    }
  }

  lemma InsertHas(bs: seq<Msg>, k: nat, m: Msg)
    requires k <= |bs|
    ensures forall b: Msg :: b in InsertAt(bs, k, m) <==> b in bs || b == m
  {
    assert bs == bs[..k] + bs[k..];
  }

  lemma DropHas(w: Win)
    requires w.bodies != []
    ensures forall b: Msg :: b.Real() ==> (b in DropIdleTop(w).bodies <==> b in w.bodies)
    ensures forall b: Msg :: b.Real() ==> (b in DropIdleBottom(w).bodies <==> b in w.bodies)
  {
    var n := |w.bodies| - 1;
    assert w.bodies == [w.bodies[0]] + w.bodies[1..] && w.bodies == w.bodies[..n] + [w.bodies[n]];
  }

  /** This message came with the chunk. */
  ghost predicate CameWith(b: Msg, es: seq<Incoming>, chunk: ChunkRef)
  {
    b.chunk == Some(chunk) && exists i :: 0 <= i < |es| && Came(b, es[i])
  }

  lemma CameWithMore(b: Msg, es: seq<Incoming>, chunk: ChunkRef)
    requires es != []
    ensures CameWith(b, es, chunk) <==> CameWith(b, es[..|es| - 1], chunk) || b == ToMsg(es[|es| - 1], chunk)
  {
    var n := |es| - 1;
    assert b == ToMsg(es[n], chunk) <==> Came(b, es[n]) && b.chunk == Some(chunk);
    if i :| 0 <= i < n && Came(b, es[..n][i]) {
      assert es[..n][i] == es[i];
    }
    if i :| 0 <= i < |es| && Came(b, es[i]) {
      assert i < n ==> es[..n][i] == es[i];
    }
  }

  lemma {:induction false} MergeAllHas(w: Win, es: seq<Incoming>, chunk: ChunkRef, up: bool, b: Msg)
    requires b.Real()
    ensures b in MergeAll(w, es, chunk, up).bodies <==> b in w.bodies || CameWith(b, es, chunk)
  {
    hide CameWith, Merge;
    if es == [] {
      NoneCame(b, chunk);
    } else {
      var n := |es| - 1;
      MergeAllHas(w, es[..n], chunk, up, b);
      ToMsgCame(es[n], chunk);
      MergeHas(MergeAll(w, es[..n], chunk, up), ToMsg(es[n], chunk), up);
      CameWithMore(b, es, chunk);
    }
  }

  lemma NoneCame(b: Msg, chunk: ChunkRef)
    ensures !CameWith(b, [], chunk)
  {
  }

  /** After a chunk, the real messages are the old ones, the known ones of them refreshed, and those of the chunk that
      were unknown: each with the id, the time, the text and the member that it came with. */
  lemma ChunkHas(w: Win, es: seq<Incoming>, chunk: ChunkRef, up: bool, b: Msg)
    requires b.Real()
    ensures b in MergeChunk(w, es, chunk, up).bodies <==>
            b in RefreshAll(w, es).bodies || CameWith(b, News(w.bodies, es), chunk)
  {
    MergeAllHas(RefreshAll(w, es), News(w.bodies, es), chunk, up, b);
  }

  /** The unknown messages of a chunk are those of it whose id no message has, in the order in which they came. */
  lemma {:induction false} NewsAre(bs: seq<Msg>, es: seq<Incoming>, e: Incoming)
    ensures e in News(bs, es) <==> e in es && forall i :: 0 <= i < |bs| ==> bs[i].id != Some(e.id)
  {
    if es != [] {
      var n := |es| - 1;
      NewsAre(bs, es[..n], e);
      assert es == es[..n] + [es[n]];
      var k := Find(bs, es[n].id);
      assert k < |bs| ==> bs[k].id == Some(es[n].id);
    }
  }

  /** Each message of a chunk that was unknown is in the window afterwards, just as it came. */
  lemma NewsCame(w: Win, es: seq<Incoming>, chunk: ChunkRef, up: bool, e: Incoming)
    requires e in es && forall i :: 0 <= i < |w.bodies| ==> w.bodies[i].id != Some(e.id)
    ensures Msg(Some(chunk), Some(e.id), e.text, e.member, e.stamp) in MergeChunk(w, es, chunk, up).bodies
  {
    NewsAre(w.bodies, es, e);
    var b := Msg(Some(chunk), Some(e.id), e.text, e.member, e.stamp);
    ChunkHas(w, es, chunk, up, b);
    var i :| 0 <= i < |News(w.bodies, es)| && News(w.bodies, es)[i] == e;
    assert Came(b, News(w.bodies, es)[i]);
  }

  /** A message that was there keeps its id, its time and its chunk. It gets the member that it came with last; a text
      that came replaces its own if it is shown, and one that is shown and comes without a text has been deleted. */
  ghost predicate Refreshed(b: Msg, c: Msg, inRun: bool, e: Incoming)
  {
    && c.id == b.id && c.stamp == b.stamp && c.chunk == b.chunk && c.member == e.member
    && (!inRun ==> c.text == b.text) && (inRun && e.text.Some? ==> c.text == e.text)
    && (inRun && e.text == None ==> c.text == if b.text == None then None else Some("(deleted)"))
  }

  lemma RefreshIs(w: Win, e: Incoming, i: nat)
    requires i < |w.bodies|
    ensures |Refresh(w, e).bodies| == |w.bodies| && Refresh(w, e).futs == w.futs && Refresh(w, e).start == w.start
    ensures w.bodies[i].id != Some(e.id) ==> Refresh(w, e).bodies[i] == w.bodies[i]
    ensures w.bodies[i].id == Some(e.id) && (forall j :: 0 <= j < i ==> w.bodies[j].id != Some(e.id)) ==>
              Refreshed(w.bodies[i], Refresh(w, e).bodies[i], w.start <= i < w.start + |w.futs|, e)
  {
  }

  lemma RefreshId(w: Win, e: Incoming, i: nat)
    requires i < |w.bodies|
    ensures |Refresh(w, e).bodies| == |w.bodies| && Refresh(w, e).bodies[i].id == w.bodies[i].id
  {
  }

  /** A known message after a whole chunk, which mentions it once or not at all. */
  lemma {:induction false} RefreshAllIs(w: Win, es: seq<Incoming>, i: nat)
    requires i < |w.bodies| && w.bodies[i].Real() && w.DistinctIds()
    requires forall j, k :: 0 <= j < k < |es| ==> es[j].id != es[k].id
    ensures var v := RefreshAll(w, es);
            && |v.bodies| == |w.bodies| && v.futs == w.futs && v.start == w.start && v.DistinctIds()
            && (forall j :: 0 <= j < |w.bodies| ==> v.bodies[j].id == w.bodies[j].id)
            && ((forall j :: 0 <= j < |es| ==> es[j].id != w.bodies[i].id.value) ==> v.bodies[i] == w.bodies[i])
            && (forall j :: 0 <= j < |es| && es[j].id == w.bodies[i].id.value ==>
                  Refreshed(w.bodies[i], v.bodies[i], w.start <= i < w.start + |w.futs|, es[j]))
  {
    if es != [] {
      var n := |es| - 1;
      RefreshAllIs(w, es[..n], i);
      var u, e := RefreshAll(w, es[..n]), es[n];
      RefreshIs(u, e, i);
      forall j | 0 <= j < |w.bodies| ensures Refresh(u, e).bodies[j].id == w.bodies[j].id {
        RefreshId(u, e, j);
      }
      if e.id != w.bodies[i].id.value {
        assert forall j :: 0 <= j < n ==> es[..n][j] == es[j];
      }
    }
  }

  /** The messages are in order: the earlier ones above, those of the same time by their ids. */
  ghost predicate ByTime(bs: seq<Msg>)
  {
    forall i, j :: 0 <= i < j < |bs| && bs[i].id.Some? && bs[j].id.Some? ==>
      bs[i].stamp < bs[j].stamp || (bs[i].stamp == bs[j].stamp && Precedes(bs[i].id.value, bs[j].id.value))
  }

  lemma WellFormedByTime(w: Win)
    requires w.WellFormed()
    ensures ByTime(w.bodies)
  {
    forall i, j | 0 <= i < j < |w.bodies| && w.bodies[i].Real() && w.bodies[j].Real()
      ensures w.bodies[i].stamp < w.bodies[j].stamp
              || (w.bodies[i].stamp == w.bodies[j].stamp && Precedes(w.bodies[i].id.value, w.bodies[j].id.value))
    {
      assert Before(w.bodies[i], w.bodies[j]);
      StrLessIs(w.bodies[i].id.value, w.bodies[j].id.value);
    }
  }
}
