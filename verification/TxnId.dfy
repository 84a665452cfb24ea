/** Transaction ids of beeper_task.c: a counter that does not go back when the process dies, because a bound above
    every id handed out is on the disk before the first of them is. */
module TxnId {
  import opened Basics

  const INCREMENT: nat := 0x1_0000
  const TWO_64: nat := 0x1_0000_0000_0000_0000
  const SIZE: nat := 16

  // ---------- sixteen digits ----------

  function Digit(v: nat): (c: char)
    requires v < 16
    ensures '0' <= c <= '9' || 'A' <= c <= 'F'
  {
    if v < 10 then ('0' as int + v) as char else ('A' as int + v - 10) as char
  }

  function Pow16(k: nat): (p: nat)
    ensures p > 0
  {
    if k == 0 then 1 else 16 * Pow16(k - 1)
  }

  /** snprintf of "%016PRIX64", for k digits. */
  function Hex(n: nat, k: nat): (s: string)
    ensures |s| == k
  {
    if k == 0 then [] else Hex(n / 16, k - 1) + [Digit(n % 16)]
  }

  /** The value of the digits that a string starts with, after those that gave v. */
  function Strtoull(v: nat, s: string): nat
    decreases |s|
  {
    if s == [] || !HexDigit(s[0]) then v else Strtoull(16 * v + DigitValue(s[0]), s[1..])
  }

  lemma {:induction false} StrtoullMore(v: nat, s: string, c: char)
    requires HexDigit(c) && forall i :: 0 <= i < |s| ==> HexDigit(s[i])
    ensures Strtoull(v, s + [c]) == 16 * Strtoull(v, s) + DigitValue(c)
    decreases |s|
  {
    if s == [] {
      assert (s + [c])[1..] == [];
    } else {
      assert (s + [c])[1..] == s[1..] + [c];
      StrtoullMore(16 * v + DigitValue(s[0]), s[1..], c);
    }
  }

  lemma {:induction false} HexDigits(n: nat, k: nat)
    ensures forall i :: 0 <= i < k ==> HexDigit(Hex(n, k)[i])
  {
    if k > 0 {
      HexDigits(n / 16, k - 1);
    }
  }

  /** What is printed is read back. */
  lemma {:induction false} RoundTrip(n: nat, k: nat)
    requires n < Pow16(k)
    ensures Strtoull(0, Hex(n, k)) == n
  {
    if k > 0 {
      assert n / 16 < Pow16(k - 1);
      RoundTrip(n / 16, k - 1);
      HexDigits(n / 16, k - 1);
      StrtoullMore(0, Hex(n / 16, k - 1), Digit(n % 16));
    }
  }

  lemma SixteenDigits()
    ensures Pow16(SIZE) == TWO_64
  {
    assert Pow16(4) == 0x1_0000;
    assert Pow16(8) == 0x1_0000_0000;
    assert Pow16(12) == 0x1_0000_0000_0000;
  }

  /** An id as it stands in a path or a file. */
  function Text(id: nat): (s: string)
    ensures |s| == SIZE
  {
    Hex(id, SIZE)
  }

  lemma TextReads(id: nat)
    requires id < TWO_64
    ensures Strtoull(0, Text(id)) == id
  {
    SixteenDigits();
    RoundTrip(id, SIZE);
  }

  /** Two ids do not look the same. */
  lemma TextsDiffer(a: nat, b: nat)
    requires a < TWO_64 && b < TWO_64
    ensures Text(a) == Text(b) <==> a == b
  {
    TextReads(a);
    TextReads(b);
  }

  // ---------- the bound ----------

  /** The end of the range that starts here, in 64 bits. */
  function RangeEnd(id: nat): nat
  {
    (id + INCREMENT) % TWO_64
  }

  /** ++ in 64 bits. */
  function Successor(id: nat): nat
  {
    (id + 1) % TWO_64
  }

  lemma SuccessorBelow(id: nat, bound: nat)
    requires id < bound < TWO_64
    ensures Successor(id) == id + 1
  {
  }

  /** The bound is above its start exactly where the sum fits. */
  lemma RangeGrows(id: nat)
    requires id < TWO_64
    ensures RangeEnd(id) > id <==> id + INCREMENT < TWO_64
    ensures id + INCREMENT < TWO_64 ==> RangeEnd(id) == id + INCREMENT
  {
  }

  ghost predicate Rising(ids: seq<nat>)
  {
    forall i, j :: 0 <= i < j < |ids| ==> ids[i] < ids[j]
  }

  ghost predicate AllBelow(ids: seq<nat>, bound: nat)
  {
    forall i :: 0 <= i < |ids| ==> ids[i] < bound
  }

  lemma RisingMore(ids: seq<nat>, id: nat)
    requires Rising(ids) && AllBelow(ids, id)
    ensures Rising(ids + [id]) && AllBelow(ids + [id], id + 1)
  {
  }

  /** A process starts, or takes an id; it may die right after it has written the file, if it does write it. */
  datatype Event = Start(dies: bool) | Take(dies: bool)

  /** The file, and what the process has in memory. */
  datatype State = State(file: Option<string>, alive: bool, txnid: nat, rangeEnd: nat)

  const Initial: State := State(None, false, 0, 0)

  /** Where a process that starts goes on. */
  function FileValue(file: Option<string>): nat
  {
    if file.None? then 0 else Strtoull(0, file.value)
  }

  function Updated(s: State): State
  {
    s.(rangeEnd := RangeEnd(s.txnid), file := Some(Text(RangeEnd(s.txnid))))
  }

  function Reserved(s: State): State
  {
    if s.txnid == s.rangeEnd then Updated(s) else s
  }

  function After(s: State, e: Event): State
  {
    match e
    case Start(dies) => Updated(s.(txnid := FileValue(s.file))).(alive := !dies)
    case Take(dies) =>
      if !s.alive then s
      else if dies then Reserved(s).(alive := false)
      else Reserved(s).(txnid := Successor(s.txnid))
  }

  /** Where a range of ids starts, if one does. */
  function Starts(s: State, e: Event): seq<nat>
  {
    match e
    case Start(_) => [FileValue(s.file)]
    case Take(_) => if s.alive && s.txnid == s.rangeEnd then [s.txnid] else []
  }

  function Ids(s: State, e: Event): seq<nat>
  {
    if e.Take? && !e.dies && s.alive then [s.txnid] else []
  }

  function AllAfter(s: State, es: seq<Event>): State
  {
    if es == [] then s else After(AllAfter(s, es[..|es| - 1]), es[|es| - 1])
  }

  function AllStarts(s: State, es: seq<Event>): seq<nat>
  {
    if es == [] then [] else AllStarts(s, es[..|es| - 1]) + Starts(AllAfter(s, es[..|es| - 1]), es[|es| - 1])
  }

  function AllIds(s: State, es: seq<Event>): seq<nat>
  {
    if es == [] then [] else AllIds(s, es[..|es| - 1]) + Ids(AllAfter(s, es[..|es| - 1]), es[|es| - 1])
  }

  /** No range starts at or above 2^64 - 0x10000. */
  ghost predicate AllFit(starts: seq<nat>)
  {
    forall i :: 0 <= i < |starts| ==> starts[i] + INCREMENT < TWO_64
  }

  /** The ids rise, and whatever becomes of the process, the disk has a bound above them all. */
  ghost predicate Sound(s: State, issued: seq<nat>)
  {
    && Rising(issued)
    && (s.file.None? ==> issued == [] && !s.alive)
    && (s.file.Some? ==> exists bound: nat :: BoundIs(s, issued, bound))
  }

  ghost predicate BoundIs(s: State, issued: seq<nat>, bound: nat)
  {
    && bound < TWO_64 && s.file == Some(Text(bound)) && AllBelow(issued, bound)
    && (s.alive ==> s.rangeEnd == bound && s.txnid <= bound && AllBelow(issued, s.txnid))
  }

  lemma StartKeeps(s: State, issued: seq<nat>, dies: bool)
    requires Sound(s, issued) && FileValue(s.file) + INCREMENT < TWO_64
    ensures Sound(After(s, Start(dies)), issued)
  {
    hide Text, Strtoull;
    var id := FileValue(s.file);
    if s.file.Some? {
      var bound: nat :| BoundIs(s, issued, bound);
      TextReads(bound);
    }
    RangeGrows(id);
    assert BoundIs(After(s, Start(dies)), issued, id + INCREMENT);
  }

  lemma ReservedKeeps(s: State, issued: seq<nat>)
    requires Sound(s, issued) && s.alive && (s.txnid == s.rangeEnd ==> s.txnid + INCREMENT < TWO_64)
    ensures BoundIs(Reserved(s), issued, Reserved(s).rangeEnd) && s.txnid < Reserved(s).rangeEnd
  {
    hide Text, Strtoull;
    var bound: nat :| BoundIs(s, issued, bound);
    RangeGrows(s.txnid);
  }

  lemma TakeKeeps(s: State, issued: seq<nat>, dies: bool)
    requires Sound(s, issued) && s.alive && (s.txnid == s.rangeEnd ==> s.txnid + INCREMENT < TWO_64)
    ensures Sound(After(s, Take(dies)), if dies then issued else issued + [s.txnid])
  {
    hide Text, Strtoull;
    ReservedKeeps(s, issued);
    var r := Reserved(s);
    SuccessorBelow(s.txnid, r.rangeEnd);
    RisingMore(issued, s.txnid);
    assert BoundIs(After(s, Take(dies)), if dies then issued else issued + [s.txnid], r.rangeEnd);
  }

  lemma StepKeeps(s: State, issued: seq<nat>, e: Event)
    requires Sound(s, issued) && AllFit(Starts(s, e))
    ensures Sound(After(s, e), issued + Ids(s, e))
  {
    hide Sound, Text, Strtoull;
    assert issued + [] == issued;
    match e {
      case Start(dies) =>
        assert Starts(s, e)[0] + INCREMENT < TWO_64;
        StartKeeps(s, issued, dies);
      case Take(dies) =>
        if s.alive {
          if s.txnid == s.rangeEnd {
            assert Starts(s, e)[0] + INCREMENT < TWO_64;
          }
          TakeKeeps(s, issued, dies);
        }
    }
  }

  /** A range starts exactly where the bound on the disk is written, which is then 65536 above it, in 64 bits. */
  lemma StartsRight(s: State, issued: seq<nat>, e: Event)
    requires Sound(s, issued)
    ensures Starts(s, e) != [] <==> e.Start? || After(s, e).file != s.file
    ensures Starts(s, e) != [] ==>
              && |Starts(s, e)| == 1
              && After(s, e).file == Some(Text((Starts(s, e)[0] + 65536) % 0x1_0000_0000_0000_0000))
  {
    hide Text, Strtoull;
    if e.Take? && s.alive && s.txnid == s.rangeEnd {
      var bound: nat :| BoundIs(s, issued, bound);
      TextsDiffer(bound, RangeEnd(bound));
    }
  }

  lemma AllFitParts(a: seq<nat>, b: seq<nat>)
    requires AllFit(a + b)
    ensures AllFit(a) && AllFit(b)
  {
    assert forall i :: 0 <= i < |a| ==> a[i] == (a + b)[i];
    assert forall i :: 0 <= i < |b| ==> b[i] == (a + b)[|a| + i];
  }

  /** Any run of starts, takes and deaths in which every range fits: the ids rise, after those of earlier runs. */
  lemma {:induction false} RunRises(s: State, issued: seq<nat>, es: seq<Event>)
    requires Sound(s, issued) && AllFit(AllStarts(s, es))
    ensures Sound(AllAfter(s, es), issued + AllIds(s, es)) && Rising(issued + AllIds(s, es))
  {
    if es == [] {
      assert issued + [] == issued;
    } else {
      var before, e := es[..|es| - 1], es[|es| - 1];
      AllFitParts(AllStarts(s, before), Starts(AllAfter(s, before), e));
      RunRises(s, issued, before);
      StepKeeps(AllAfter(s, before), issued + AllIds(s, before), e);
      assert issued + AllIds(s, before) + Ids(AllAfter(s, before), e) == issued + AllIds(s, es);
    }
  }

  lemma OneMore(s: State, es: seq<Event>, e: Event)
    ensures AllAfter(s, es + [e]) == After(AllAfter(s, es), e)
    ensures AllIds(s, es + [e]) == AllIds(s, es) + Ids(AllAfter(s, es), e)
  {
    assert (es + [e])[..|es|] == es;
  }

  /** Where a range does not fit, this goes wrong: after its first id a new process hands out a smaller one. */
  lemma TopRepeats(s: State, issued: seq<nat>)
    requires Sound(s, issued) && s.alive && s.txnid == s.rangeEnd && s.txnid + INCREMENT >= TWO_64
    ensures !Rising(AllIds(s, [Take(false), Start(false), Take(false)]))
  {
    hide Text, Strtoull, AllAfter, AllIds;
    var es := [Take(false), Start(false), Take(false)];
    var bound: nat :| BoundIs(s, issued, bound);
    TextReads(RangeEnd(s.txnid));
    RangeGrows(s.txnid);
    NothingYet(s);
    OneMore(s, [], es[0]);
    OneMore(s, [es[0]], es[1]);
    OneMore(s, [es[0], es[1]], es[2]);
    assert [] + [es[0]] == [es[0]] && [es[0]] + [es[1]] == [es[0], es[1]] && [es[0], es[1]] + [es[2]] == es;
    var ids := AllIds(s, es);
    assert ids == [s.txnid, RangeEnd(s.txnid)];
    assert ids[0] >= ids[1];
  }

  lemma NothingYet(s: State)
    ensures AllAfter(s, []) == s && AllIds(s, []) == []
  {
  }

  /** A file, the process that has it, and every id that this process and those before it have handed out. */
  class Counter {
    var file: Option<string>
    var alive: bool
    var txnid: nat
    var rangeEnd: nat
    ghost var issued: seq<nat>

    constructor ()
      ensures Now() == Initial && issued == [] && Sound(Now(), issued)
    {
      file, alive, txnid, rangeEnd, issued := None, false, 0, 0, [];
    }

    function Now(): State
      reads this`file, this`alive, this`txnid, this`rangeEnd
    {
      State(file, alive, txnid, rangeEnd)
    }

    /** txnid_range_end_update_ */
    method UpdateRangeEnd()
      modifies this`rangeEnd, this`file
      ensures Now() == Updated(old(Now()))
    {
      rangeEnd := (txnid + INCREMENT) % TWO_64;
      file := Some(Text(rangeEnd));
    }

    /** txnid_init; a process that was running is no more. */
    method Init()
      modifies this`file, this`alive, this`txnid, this`rangeEnd
      ensures Now() == After(old(Now()), Start(false))
      ensures old(Sound(Now(), issued)) && FileValue(old(file)) + INCREMENT < TWO_64 ==> Sound(Now(), issued)
    {
      ghost var s := Now();
      if file.None? {
        txnid := 0;
      } else {
        txnid := Strtoull(0, file.value);
      }
      UpdateRangeEnd();
      alive := true;
      if Sound(s, issued) && FileValue(s.file) + INCREMENT < TWO_64 {
        StartKeeps(s, issued, false);
      }
    }

    /** txnid_next, up to where the id is taken. */
    method Reserve()
      modifies this`file, this`rangeEnd
      ensures Now() == Reserved(old(Now()))
    {
      if txnid == rangeEnd {
        UpdateRangeEnd();
      }
    }

    /** txnid_next: an id above all those before, if the range that starts with it fits. */
    method Next() returns (id: nat)
      requires alive
      modifies this`file, this`rangeEnd, this`txnid, this`issued
      ensures Now() == After(old(Now()), Take(false)) && id == old(txnid) && issued == old(issued) + [id]
      ensures old(Sound(Now(), issued)) && (old(txnid) == old(rangeEnd) ==> old(txnid) + INCREMENT < TWO_64) ==>
                Sound(Now(), issued) && AllBelow(old(issued), id)
    {
      hide Text, Strtoull;
      ghost var s := Now();
      Reserve();
      id := txnid;
      issued := issued + [id];
      txnid := Successor(txnid);
      if Sound(s, old(issued)) && (s.txnid == s.rangeEnd ==> s.txnid + INCREMENT < TWO_64) {
        TakeKeeps(s, old(issued), false);
        ghost var bound: nat :| BoundIs(s, old(issued), bound);
      }
    }

    /** One event; an id can only be taken from a process that runs. */
    method Step(e: Event) returns (text: Option<string>)
      modifies this
      ensures Now() == After(old(Now()), e) && issued == old(issued) + Ids(old(Now()), e)
      ensures text == if Ids(old(Now()), e) == [] then None else Some(Text(Ids(old(Now()), e)[0]))
    {
      hide Text, Strtoull, Sound;
      text := None;
      assert issued + [] == issued;
      match e {
        case Start(dies) =>
          Init();
          alive := !dies;
        case Take(dies) =>
          if alive {
            if dies {
              Reserve();
              alive := false;
            } else {
              var id := Next();
              text := Some(Text(id));
            }
          }
      }
    }

    /** Any run of starts, takes and deaths: if no range starts too high, the ids rise after those of earlier runs,
        and no two of their texts are the same. */
    method Run(events: seq<Event>) returns (texts: seq<string>)
      modifies this
      ensures Now() == AllAfter(old(Now()), events)
      ensures issued == old(issued) + AllIds(old(Now()), events) && texts == Texts(AllIds(old(Now()), events))
      ensures old(Sound(Now(), issued)) && AllFit(AllStarts(old(Now()), events)) ==>
                Sound(Now(), issued) && Rising(issued) && Distinct(texts)
    {
      hide *;
      texts := [];
      ghost var s := Now();
      var i := 0;
      RunNone(s, events);
      assert issued + [] == issued;
      while i < |events|
        invariant 0 <= i <= |events| && Now() == AllAfter(s, events[..i])
        invariant issued == old(issued) + AllIds(s, events[..i]) && texts == Texts(AllIds(s, events[..i]))
      {
        RunMore(s, events, i);
        ghost var ids, more := AllIds(s, events[..i]), Ids(Now(), events[i]);
        var text := Step(events[i]);
        assert old(issued) + ids + more == old(issued) + (ids + more);
        IdsAre(AllAfter(s, events[..i]), events[i]);
        TextsMore(ids, more);
        if text.Some? {
          texts := texts + [text.value];
        }
        i := i + 1;
      }
      assert events[..i] == events;
      if Sound(s, old(issued)) && AllFit(AllStarts(s, events)) {
        RunRises(s, old(issued), events);
        SoundBelow(Now(), issued);
        RisingPart(old(issued), AllIds(s, events));
        TextsDistinct(AllIds(s, events));
      }
    }
  }

  lemma RunNone(s: State, es: seq<Event>)
    ensures AllAfter(s, es[..0]) == s && AllIds(s, es[..0]) == [] && Texts([]) == []
  {
  }

  lemma RunMore(s: State, es: seq<Event>, i: nat)
    requires i < |es|
    ensures AllAfter(s, es[..i + 1]) == After(AllAfter(s, es[..i]), es[i])
    ensures AllIds(s, es[..i + 1]) == AllIds(s, es[..i]) + Ids(AllAfter(s, es[..i]), es[i])
  {
    assert es[..i + 1][..i] == es[..i];
  }

  lemma IdsAre(s: State, e: Event)
    ensures Ids(s, e) == [] || Ids(s, e) == [s.txnid]
  {
  }

  lemma SoundBelow(s: State, issued: seq<nat>)
    requires Sound(s, issued)
    ensures AllBelow(issued, TWO_64)
  {
    hide Text, Strtoull;
    if s.file.Some? {
      var bound: nat :| BoundIs(s, issued, bound);
    }
  }

  function Texts(ids: seq<nat>): (r: seq<string>)
    ensures |r| == |ids|
    ensures forall i :: 0 <= i < |r| ==> r[i] == Text(ids[i])
  {
    if ids == [] then [] else Texts(ids[..|ids| - 1]) + [Text(ids[|ids| - 1])]
  }

  lemma TextsMore(ids: seq<nat>, more: seq<nat>)
    requires |more| <= 1
    ensures Texts(ids + more) == Texts(ids) + if more == [] then [] else [Text(more[0])]
  {
    assert more == [] ==> ids + more == ids;
    assert more != [] ==> (ids + more)[..|ids|] == ids;
  }

  lemma RisingPart(a: seq<nat>, b: seq<nat>)
    requires Rising(a + b) && AllBelow(a + b, TWO_64)
    ensures Rising(b) && AllBelow(b, TWO_64)
  {
    assert forall i :: 0 <= i < |b| ==> b[i] == (a + b)[|a| + i];
  }

  lemma TextsDistinct(ids: seq<nat>)
    requires Rising(ids) && AllBelow(ids, TWO_64)
    ensures Distinct(Texts(ids))
  {
    forall i, j | 0 <= i < j < |ids| ensures Texts(ids)[i] != Texts(ids)[j] {
      TextsDiffer(ids[i], ids[j]);
    }
  }

  /** Where the sum does not fit, the bound on the disk is below the id, and the next process hands it out again. */
  lemma TopWraps(id: nat)
    requires id < TWO_64
    ensures Strtoull(0, Text(RangeEnd(id))) > id <==> id + INCREMENT < TWO_64
  {
    TextReads(RangeEnd(id));
    RangeGrows(id);
  }
}
