/** The key list in memory, of beeper_task.c: who is in it, and who has to be asked for again. */
module DeviceLists {
  import opened Basics
  import opened KeyList

  const TWO_32: nat := 0x1_0000_0000

  /** A number kept in 32 bits. */
  function Wrapped(n: int): nat
  {
    n % TWO_32
  }

  lemma StepOn(i: nat)
    requires i < TWO_32 - 1
    ensures Wrapped(i + 1) == i + 1
  {
  }

  /** Going one back and one on, even from 0. */
  lemma StepBackAndOn(i: nat)
    requires i < TWO_32
    ensures Wrapped(Wrapped(i - 1) + 1) == i
  {
    assert i == 0 ==> Wrapped(-1) == TWO_32 - 1;
    assert i > 0 ==> Wrapped(i - 1) == i - 1;
  }

  /** The server says that this user is gone. */
  predicate Gone(u: User, left: Option<seq<string>>)
  {
    left.Some? && u.id in left.value
  }

  /** The server says that this user's keys have changed. */
  predicate Stale(u: User, changed: Option<seq<string>>)
  {
    changed.Some? && u.id in changed.value
  }

  function Touched(u: User, changed: Option<seq<string>>): User
  {
    if Stale(u, changed) then u.(outdated := true) else u
  }

  function Current(u: User): User
  {
    u.(outdated := false)
  }

  /** The users who stay, marked where they have changed. */
  function Survivors(us: seq<User>, changed: Option<seq<string>>, left: Option<seq<string>>): seq<User>
  {
    if us == [] then []
    else (if Gone(us[0], left) then [] else [Touched(us[0], changed)]) + Survivors(us[1..], changed, left)
  }

  lemma {:induction false} SurvivorIff(us: seq<User>, changed: Option<seq<string>>, left: Option<seq<string>>, u: User)
    ensures u in Survivors(us, changed, left) <==> exists v :: v in us && !Gone(v, left) && u == Touched(v, changed)
  {
    if us != [] {
      SurvivorIff(us[1..], changed, left, u);
      assert us == [us[0]] + us[1..];
    }
  }

  lemma {:induction false} SurvivorsConcat(a: seq<User>, b: seq<User>, changed: Option<seq<string>>,
                                           left: Option<seq<string>>)
    ensures Survivors(a + b, changed, left) == Survivors(a, changed, left) + Survivors(b, changed, left)
  {
    hide Gone, Touched;
    if a == [] {
      assert a + b == b;
    } else {
      assert (a + b)[1..] == a[1..] + b && (a + b)[0] == a[0];
      SurvivorsConcat(a[1..], b, changed, left);
    }
  }

  /** What the users before and from i make together. */
  function Tally(us: seq<User>, i: nat, changed: Option<seq<string>>, left: Option<seq<string>>): multiset<User>
    requires i <= |us|
  {
    multiset(us[..i]) + multiset(Survivors(us[i..], changed, left))
  }

  lemma TallyStart(us: seq<User>, changed: Option<seq<string>>, left: Option<seq<string>>)
    ensures Tally(us, 0, changed, left) == multiset(Survivors(us, changed, left))
  {
    assert us[..0] == [] && us[0..] == us;
  }

  lemma TallyEnd(us: seq<User>, changed: Option<seq<string>>, left: Option<seq<string>>)
    ensures Tally(us, |us|, changed, left) == multiset(us)
  {
    assert us[..|us|] == us && us[|us|..] == [];
  }

  lemma SurvivorsFirst(us: seq<User>, i: nat, changed: Option<seq<string>>, left: Option<seq<string>>)
    requires i < |us|
    ensures Survivors(us[i..], changed, left) ==
            (if Gone(us[i], left) then [] else [Touched(us[i], changed)]) + Survivors(us[i + 1..], changed, left)
  {
    assert us[i..][1..] == us[i + 1..];
  }

  lemma SurvivorsTurned(a: seq<User>, b: seq<User>, changed: Option<seq<string>>, left: Option<seq<string>>)
    ensures multiset(Survivors(a + b, changed, left)) == multiset(Survivors(b + a, changed, left))
  {
    SurvivorsConcat(a, b, changed, left);
    SurvivorsConcat(b, a, changed, left);
  }

  lemma AddFirst(a: multiset<User>, s: seq<User>, x: User)
    ensures a + multiset([x] + s) == a + multiset{x} + multiset(s)
  {
  }

  /** A user who stays is passed by. */
  lemma TallyStay(us: seq<User>, i: nat, changed: Option<seq<string>>, left: Option<seq<string>>)
    requires i < |us| && !Gone(us[i], left)
    ensures Tally(us[i := Touched(us[i], changed)], i + 1, changed, left) == Tally(us, i, changed, left)
  {
    hide *;
    var x := Touched(us[i], changed);
    var now := us[i := x];
    var more := Survivors(us[i + 1..], changed, left);
    calc {
      Tally(now, i + 1, changed, left);
      { TallyIs(now, i + 1, changed, left); assert now[i + 1..] == us[i + 1..]; }
      multiset(now[..i + 1]) + multiset(more);
      { assert now[..i + 1] == us[..i] + [x]; }
      multiset(us[..i]) + multiset{x} + multiset(more);
      { AddFirst(multiset(us[..i]), more, x); }
      multiset(us[..i]) + multiset([x] + more);
      { SurvivorsFirst(us, i, changed, left); TallyIs(us, i, changed, left); }
      Tally(us, i, changed, left);
    }
  }

  /** The last user takes the place of one who is gone. */
  lemma TallyGone(us: seq<User>, i: nat, changed: Option<seq<string>>, left: Option<seq<string>>)
    requires i < |us| && Gone(us[i], left)
    ensures Tally(us[i := us[|us| - 1]][..|us| - 1], i, changed, left) == Tally(us, i, changed, left)
  {
    hide *;
    var now := us[i := us[|us| - 1]][..|us| - 1];
    SurvivorsFirst(us, i, changed, left);
    assert [] + Survivors(us[i + 1..], changed, left) == Survivors(us[i + 1..], changed, left);
    assert multiset(Survivors(now[i..], changed, left)) == multiset(Survivors(us[i + 1..], changed, left)) by {
      if i == |us| - 1 {
        assert now[i..] == us[i + 1..];
      } else {
        var last, middle := us[|us| - 1], us[i + 1..|us| - 1];
        assert us[i + 1..] == middle + [last];
        assert now[i..] == [last] + middle;
        SurvivorsTurned(middle, [last], changed, left);
      }
    }
    assert now[..i] == us[..i];
    TallyIs(us, i, changed, left);
    TallyIs(now, i, changed, left);
  }

  lemma TallyIs(us: seq<User>, i: nat, changed: Option<seq<string>>, left: Option<seq<string>>)
    requires i <= |us|
    ensures Tally(us, i, changed, left) == multiset(us[..i]) + multiset(Survivors(us[i..], changed, left))
  {
  }

  ghost predicate AnyGone(us: seq<User>, left: Option<seq<string>>)
  {
    exists u :: u in us && Gone(u, left)
  }

  ghost predicate AnyStale(us: seq<User>, changed: Option<seq<string>>, left: Option<seq<string>>)
  {
    exists u :: u in us && !Gone(u, left) && Stale(u, changed)
  }

  lemma AnyFirst(us: seq<User>, i: nat, changed: Option<seq<string>>, left: Option<seq<string>>)
    requires i < |us|
    ensures AnyGone(us[i..], left) <==> Gone(us[i], left) || AnyGone(us[i + 1..], left)
    ensures AnyStale(us[i..], changed, left) <==>
            (!Gone(us[i], left) && Stale(us[i], changed)) || AnyStale(us[i + 1..], changed, left)
  {
    assert us[i..] == [us[i]] + us[i + 1..];
  }

  /** The users still to be looked at, when the last takes the place of the next. */
  lemma AnyAfterSwap(us: seq<User>, i: nat, changed: Option<seq<string>>, left: Option<seq<string>>)
    requires i < |us|
    ensures var now := us[i := us[|us| - 1]][..|us| - 1];
            (AnyGone(now[i..], left) <==> AnyGone(us[i + 1..], left)) &&
            (AnyStale(now[i..], changed, left) <==> AnyStale(us[i + 1..], changed, left))
  {
    var now := us[i := us[|us| - 1]][..|us| - 1];
    if i == |us| - 1 {
      assert now[i..] == us[i + 1..];
    } else {
      var last, middle := us[|us| - 1], us[i + 1..|us| - 1];
      assert us[i + 1..] == middle + [last];
      assert now[i..] == [last] + middle;
    }
  }

  /** Nobody who is out of date is overlooked by a refresh. */
  ghost predicate Flagged(us: seq<User>, hasOutdated: bool)
  {
    forall u :: u in us && u.outdated ==> hasOutdated
  }

  datatype Marks = Marks(users: seq<User>, hasOutdated: bool, needsSave: bool)

  /** The users before i have been dealt with. */
  ghost predicate Doing(was: Marks, now: Marks, i: nat, changed: Option<seq<string>>, left: Option<seq<string>>)
  {
    && i <= |now.users|
    && Tally(now.users, i, changed, left) == multiset(Survivors(was.users, changed, left))
    && (now.hasOutdated || AnyStale(now.users[i..], changed, left)) ==
       (was.hasOutdated || AnyStale(was.users, changed, left))
    && (now.needsSave || AnyGone(now.users[i..], left)) == (was.needsSave || AnyGone(was.users, left))
    && (Flagged(was.users, was.hasOutdated) ==> Flagged(now.users, now.hasOutdated))
  }

  lemma Begin(was: Marks, changed: Option<seq<string>>, left: Option<seq<string>>)
    ensures Doing(was, was, 0, changed, left)
  {
    TallyStart(was.users, changed, left);
    assert was.users[0..] == was.users;
  }

  lemma DoGone(was: Marks, now: Marks, i: nat, changed: Option<seq<string>>, left: Option<seq<string>>)
    requires Doing(was, now, i, changed, left) && i < |now.users| && Gone(now.users[i], left)
    ensures Doing(was, Marks(now.users[i := now.users[|now.users| - 1]][..|now.users| - 1], now.hasOutdated, true), i,
                  changed, left)
  {
    hide Tally, Survivors, AnyGone, AnyStale, Flagged, Gone, Stale;
    var us := now.users;
    var next := us[i := us[|us| - 1]][..|us| - 1];
    AnyFirst(us, i, changed, left);
    TallyGone(us, i, changed, left);
    AnyAfterSwap(us, i, changed, left);
    FlaggedPart(us, next, now.hasOutdated);
  }

  lemma DoStay(was: Marks, now: Marks, i: nat, changed: Option<seq<string>>, left: Option<seq<string>>)
    requires Doing(was, now, i, changed, left) && i < |now.users| && !Gone(now.users[i], left)
    ensures Stale(now.users[i], changed) ==>
              Doing(was, Marks(now.users[i := now.users[i].(outdated := true)], true, now.needsSave), i + 1,
                    changed, left)
    ensures !Stale(now.users[i], changed) ==> Doing(was, now, i + 1, changed, left)
  {
    hide Tally, Survivors, AnyGone, AnyStale, Flagged, Gone, Stale;
    var us := now.users;
    AnyFirst(us, i, changed, left);
    TallyStay(us, i, changed, left);
    assert us[i := us[i]] == us;
    assert us[i := us[i].(outdated := true)][i + 1..] == us[i + 1..];
    AllFlagged(us[i := us[i].(outdated := true)]);
  }

  lemma Finish(was: Marks, now: Marks, changed: Option<seq<string>>, left: Option<seq<string>>)
    requires Doing(was, now, |now.users|, changed, left)
    ensures multiset(now.users) == multiset(Survivors(was.users, changed, left))
    ensures now.hasOutdated == (was.hasOutdated || AnyStale(was.users, changed, left))
    ensures now.needsSave == (was.needsSave || AnyGone(was.users, left))
    ensures Flagged(was.users, was.hasOutdated) ==> Flagged(now.users, now.hasOutdated)
  {
    TallyEnd(now.users, changed, left);
    assert now.users[|now.users|..] == [];
  }

  lemma FlaggedPart(us: seq<User>, part: seq<User>, hasOutdated: bool)
    requires forall u :: u in part ==> u in us
    ensures Flagged(us, hasOutdated) ==> Flagged(part, hasOutdated)
  {
  }

  lemma AllFlagged(us: seq<User>)
    ensures Flagged(us, true)
  {
  }

  lemma ListedIs(u: User, changed: Option<seq<string>>, left: Option<seq<string>>)
    ensures Gone(u, left) <==> left.Some? && u.id in left.value
    ensures Stale(u, changed) <==> changed.Some? && u.id in changed.value
  {
  }

  class Directory {
    var users: seq<User>
    var hasOutdated: bool
    var needsSave: bool

    constructor (users: seq<User>)
      requires forall u :: u in users ==> !u.outdated
      ensures this.users == users && !hasOutdated && !needsSave && Flagged(users, hasOutdated)
    {
      this.users, hasOutdated, needsSave := users, false, false;
    }

    /** key_list_apply_devicelists, with an index of 32 bits. */
    method Apply(changed: Option<seq<string>>, left: Option<seq<string>>)
      requires |users| < TWO_32
      modifies this
      ensures multiset(users) == multiset(Survivors(old(users), changed, left))
      ensures hasOutdated == (old(hasOutdated) || AnyStale(old(users), changed, left))
      ensures needsSave == (old(needsSave) || AnyGone(old(users), left))
      ensures Flagged(old(users), old(hasOutdated)) ==> Flagged(users, hasOutdated)
    {
      hide *;
      ghost var was := Marks(users, hasOutdated, needsSave);
      if changed.Some? || left.Some? {
        var i := 0;
        Begin(was, changed, left);
        while i < |users|
          invariant 0 <= i <= |users| < TWO_32
          invariant Doing(was, Marks(users, hasOutdated, needsSave), i, changed, left)
          decreases |users| - i
        {
          ListedIs(users[i], changed, left);
          if left.Some? && users[i].id in left.value {
            DoGone(was, Marks(users, hasOutdated, needsSave), i, changed, left);
            users := users[i := users[|users| - 1]];
            users := users[..|users| - 1];
            StepBackAndOn(i);
            i := Wrapped(i - 1);
            needsSave := true;
          } else {
            StepOn(i);
            DoStay(was, Marks(users, hasOutdated, needsSave), i, changed, left);
            if changed.Some? && users[i].id in changed.value {
              users := users[i := users[i].(outdated := true)];
              hasOutdated := true;
            }
          }
          i := Wrapped(i + 1);
        }
        Finish(was, Marks(users, hasOutdated, needsSave), changed, left);
      } else {
        NothingSaid(users, changed, left);
      }
    }

    /** key_list_update_, less the answer: nobody is out of date any more. */
    method Refresh()
      requires Flagged(users, hasOutdated)
      modifies this`users, this`hasOutdated
      ensures |users| == |old(users)| && forall i :: 0 <= i < |users| ==> users[i] == Current(old(users)[i])
      ensures !hasOutdated
    {
      if !hasOutdated {
        assert forall i :: 0 <= i < |users| ==> users[i] in users;
      } else {
        hasOutdated := false;
        var i := 0;
        while i < |users|
          invariant 0 <= i <= |users| == |old(users)| && !hasOutdated
          invariant forall k :: 0 <= k < |users| ==> users[k] == if k < i then Current(old(users)[k]) else old(users)[k]
        {
          if users[i].outdated {
            users := users[i := users[i].(outdated := false)];
          }
          i := i + 1;
        }
      }
    }
  }

  lemma {:induction false} NothingSaid(us: seq<User>, changed: Option<seq<string>>, left: Option<seq<string>>)
    requires changed.None? && left.None?
    ensures Survivors(us, changed, left) == us
    ensures !AnyGone(us, left) && !AnyStale(us, changed, left)
  {
    if us != [] {
      NothingSaid(us[1..], changed, left);
      assert us == [us[0]] + us[1..];
    }
  }
}
