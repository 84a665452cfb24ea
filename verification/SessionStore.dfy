/** The sessions of a room in beeper_task.c: a small cache with the most recently used in front, session files
    written when a changed session leaves the cache or is saved, and the messages that wait for a session. */
module SessionStore {
  import opened Basics
  import opened Sessions

  /** room_session_t. `pickle` is what the file is known to hold. */
  datatype Slot<S> = Slot(id: string, pickle: Option<string>, session: S, needsSave: bool)

  /** base64_filename_safe */
  function FileName(id: string): (n: string)
    ensures |n| == |id|
    ensures forall i :: 0 <= i < |id| ==> n[i] == if id[i] == '+' then '-' else if id[i] == '/' then '_' else id[i]
  {
    if id == [] then []
    else [if id[0] == '+' then '-' else if id[0] == '/' then '_' else id[0]] + FileName(id[1..])
  }

  /** A session id in base64 does not use the two characters that stand in for others in a file name. */
  predicate Safe(id: string)
  {
    '-' !in id && '_' !in id
  }

  /** The file name of either has the same character here. */
  predicate SameInName(c: char, d: char)
  {
    c == d || {c, d} == {'+', '-'} || {c, d} == {'/', '_'}
  }

  /** Two ids share a file exactly when, character by character, they are the same but for a character and the one that
      stands in for it. */
  lemma FileNamesEqual(a: string, b: string)
    ensures FileName(a) == FileName(b) <==> |a| == |b| && forall i :: 0 <= i < |a| ==> SameInName(a[i], b[i])
  {
    if FileName(a) == FileName(b) {
      forall i | 0 <= i < |a| ensures SameInName(a[i], b[i]) {
        NameChar(a, b, i);
      }
    } else if |a| == |b| && forall i :: 0 <= i < |a| ==> SameInName(a[i], b[i]) {
      forall i | 0 <= i < |a| ensures FileName(a)[i] == FileName(b)[i] {
        NameChar(a, b, i);
      }
      assert false;
    }
  }

  lemma NameChar(a: string, b: string, i: nat)
    requires |a| == |b| && i < |a|
    ensures FileName(a)[i] == FileName(b)[i] <==> SameInName(a[i], b[i])
  {
    var c, d := a[i], b[i];
    if {c, d} == {'+', '-'} || {c, d} == {'/', '_'} {
      assert c in {c, d} && d in {c, d};
      assert '+' in {c, d} || '/' in {c, d};
      assert '-' in {c, d} || '_' in {c, d};
    }
    if c != d && FileName(a)[i] == FileName(b)[i] {
      assert (c == '+' && d == '-') || (c == '-' && d == '+') || (c == '/' && d == '_') || (c == '_' && d == '/');
    }
  }

  lemma OneOfThem(c: char, d: char)
    requires SameInName(c, d)
    ensures c == d || c in {'-', '_'} || d in {'-', '_'}
  {
    if c != d {
      assert {c, d} == {'+', '-'} ==> '-' in {c, d};
      assert {c, d} == {'/', '_'} ==> '_' in {c, d};
    }
  }

  /** Ids in base64 do not share files. */
  lemma FileNameInjective(a: string, b: string)
    requires Safe(a) && Safe(b) && FileName(a) == FileName(b)
    ensures a == b
  {
    FileNamesEqual(a, b);
    forall i | 0 <= i < |a| ensures a[i] == b[i] {
      assert a[i] in a && b[i] in b && SameInName(a[i], b[i]);
      OneOfThem(a[i], b[i]);
    }
  }

  /** For ids that are not base64 this fails: two of them can share a file. */
  lemma FileNamesClash()
    ensures FileName("a+b") == FileName("a-b") && "a+b" != "a-b"
  {
    assert "a+b"[1] == '+';
  }

  /** The cached session with this id; the size of the cache if there is none. */
  function FindSlot<S>(lru: seq<Option<Slot<S>>>, id: string): (k: nat)
    ensures k <= |lru| && (k < |lru| ==> lru[k].Some? && lru[k].value.id == id)
    ensures forall i :: 0 <= i < k ==> lru[i].None? || lru[i].value.id != id
  {
    if lru == [] || (lru[0].Some? && lru[0].value.id == id) then 0 else 1 + FindSlot(lru[1..], id)
  }

  /** The session that the cache, or else the disk, gives for this id. */
  function Lookup<S>(olm: Olm<S>, lru: seq<Option<Slot<S>>>, files: map<string, string>, id: string): Option<S>
  {
    var k := FindSlot(lru, id);
    if k < |lru| then Some(lru[k].value.session)
    else if FileName(id) in files then Some(olm.unpickle(files[FileName(id)]))
    else None
  }

  /** A slot's pickle is what its file holds; a session that needs no save is what its file holds. */
  ghost predicate SlotRight<S(!new)>(olm: Olm<S>, s: Slot<S>, files: map<string, string>)
  {
    && Safe(s.id)
    && (s.pickle.Some? ==> FileName(s.id) in files && files[FileName(s.id)] == s.pickle.value)
    && (!s.needsSave ==> s.pickle == Some(olm.pickle(s.session)))
  }

  /** The occupied slots are in front and are for distinct sessions. */
  ghost predicate Packed<S(!new)>(lru: seq<Option<Slot<S>>>)
  {
    && (forall i, j :: 0 <= i < j < |lru| && lru[j].Some? ==> lru[i].Some? && lru[i].value.id != lru[j].value.id)
  }

  ghost predicate Stored<S(!new)>(olm: Olm<S>, lru: seq<Option<Slot<S>>>, files: map<string, string>)
  {
    && Packed(lru)
    && (forall i {:trigger lru[i]} :: 0 <= i < |lru| && lru[i].Some? ==> SlotRight(olm, lru[i].value, files))
    && (forall n :: n in files ==> olm.pickle(olm.unpickle(files[n])) == files[n])
  }

  /** Cache and files together are the map. */
  ghost predicate Refines<S(!new)>(olm: Olm<S>, lru: seq<Option<Slot<S>>>, files: map<string, string>,
                            sessions: map<string, S>)
  {
    && (forall id :: Safe(id) ==> Lookup(olm, lru, files, id) == if id in sessions then Some(sessions[id]) else None)
    && (forall id :: id in sessions ==> Safe(id))
  }

  lemma FindSlotAt<S(!new)>(lru: seq<Option<Slot<S>>>, id: string, k: nat)
    requires Packed(lru) && k < |lru| && lru[k].Some? && lru[k].value.id == id
    ensures FindSlot(lru, id) == k
  {
  }

  lemma FindSlotNone<S(!new)>(lru: seq<Option<Slot<S>>>, id: string)
    requires forall i :: 0 <= i < |lru| && lru[i].Some? ==> lru[i].value.id != id
    ensures FindSlot(lru, id) == |lru|
  {
  }

  // ---------- writing a session back ----------

  function Saved<S>(olm: Olm<S>, s: Slot<S>): Slot<S>
  {
    s.(pickle := Some(olm.pickle(s.session)), needsSave := false)
  }

  lemma SaveStored<S(!new)>(olm: Olm<S>, lru: seq<Option<Slot<S>>>, files: map<string, string>, i: nat)
    requires Lawful(olm) && Stored(olm, lru, files) && i < |lru| && lru[i].Some?
    ensures var s := Saved(olm, lru[i].value);
            Stored(olm, lru[i := Some(s)], files[FileName(s.id) := s.pickle.value])
  {
    var s := Saved(olm, lru[i].value);
    var lru', files' := lru[i := Some(s)], files[FileName(s.id) := s.pickle.value];
    forall j | 0 <= j < |lru'| && lru'[j].Some?
      ensures SlotRight(olm, lru'[j].value, files')
    {
      if j != i {
        assert SlotRight(olm, lru[j].value, files) && SlotRight(olm, lru[i].value, files);
        assert lru[j].value.id != lru[i].value.id;
        if FileName(lru[j].value.id) == FileName(s.id) {
          FileNameInjective(lru[j].value.id, s.id);
        }
      }
    }
  }

  lemma SaveLookup<S(!new)>(olm: Olm<S>, lru: seq<Option<Slot<S>>>, files: map<string, string>, i: nat, id: string)
    requires Stored(olm, lru, files) && i < |lru| && lru[i].Some? && Safe(id)
    ensures var s := Saved(olm, lru[i].value);
            Lookup(olm, lru[i := Some(s)], files[FileName(s.id) := s.pickle.value], id) == Lookup(olm, lru, files, id)
  {
    var s := Saved(olm, lru[i].value);
    var lru' := lru[i := Some(s)];
    var k := FindSlot(lru, id);
    if k < |lru| {
      FindSlotAt(lru', id, k);
    } else {
      FindSlotNone(lru', id);
      assert SlotRight(olm, lru[i].value, files);
      if FileName(id) == FileName(s.id) {
        FileNameInjective(id, s.id);
      }
    }
  }

  // ---------- moving sessions about in the cache ----------

  function MoveToFront<T>(s: seq<T>, k: nat): (r: seq<T>)
    requires k < |s|
    ensures |r| == |s| && r[0] == s[k]
    ensures forall i :: 0 < i <= k ==> r[i] == s[i - 1]
    ensures forall i :: k < i < |s| ==> r[i] == s[i]
  {
    [s[k]] + s[..k] + s[k + 1..]
  }

  function Push<T>(s: seq<T>, x: T): (r: seq<T>)
    requires s != []
    ensures |r| == |s| && r[0] == x && forall i :: 0 < i < |s| ==> r[i] == s[i - 1]
  {
    [x] + s[..|s| - 1]
  }

  lemma MoveStored<S(!new)>(olm: Olm<S>, lru: seq<Option<Slot<S>>>, files: map<string, string>, k: nat)
    requires Stored(olm, lru, files) && k < |lru| && lru[k].Some?
    ensures Stored(olm, MoveToFront(lru, k), files)
  {
    var lru' := MoveToFront(lru, k);
    forall i | 0 <= i < |lru'| && lru'[i].Some?
      ensures SlotRight(olm, lru'[i].value, files)
    {
      assert lru'[i] == lru[if i == 0 then k else if i <= k then i - 1 else i];
    }
  }

  lemma MoveLookup<S(!new)>(olm: Olm<S>, lru: seq<Option<Slot<S>>>, files: map<string, string>, k: nat, id: string)
    requires Stored(olm, lru, files) && k < |lru| && lru[k].Some?
    ensures Lookup(olm, MoveToFront(lru, k), files, id) == Lookup(olm, lru, files, id)
  {
    MoveStored(olm, lru, files, k);
    var lru', j := MoveToFront(lru, k), FindSlot(lru, id);
    if j < |lru| {
      FindSlotAt(lru', id, if j == k then 0 else if j < k then j + 1 else j);
    } else {
      FindSlotNone(lru', id);
    }
  }

  lemma PushStored<S(!new)>(olm: Olm<S>, lru: seq<Option<Slot<S>>>, files: map<string, string>, s: Slot<S>)
    requires Stored(olm, lru, files) && lru != [] && FindSlot(lru, s.id) == |lru| && SlotRight(olm, s, files)
    ensures Stored(olm, Push(lru, Some(s)), files)
  {
    var lru' := Push(lru, Some(s));
    forall i | 0 <= i < |lru'| && lru'[i].Some?
      ensures SlotRight(olm, lru'[i].value, files)
    {
      assert i > 0 ==> lru'[i] == lru[i - 1];
    }
  }

  lemma PushFind<S(!new)>(lru: seq<Option<Slot<S>>>, s: Slot<S>, id: string)
    requires Packed(lru) && lru != [] && FindSlot(lru, s.id) == |lru|
    ensures FindSlot(lru, id) <= |lru| == |Push(lru, Some(s))|
    ensures FindSlot(Push(lru, Some(s)), id) ==
            if id == s.id then 0 else if FindSlot(lru, id) < |lru| - 1 then FindSlot(lru, id) + 1 else |lru|
  {
    var lru', j, n := Push(lru, Some(s)), FindSlot(lru, id), |lru| - 1;
    if id == s.id {
      assert lru'[0] == Some(s);
    } else if j < n {
      assert lru'[j + 1] == lru[j];
      assert forall i :: 0 <= i <= j ==> lru'[i].None? || lru'[i].value.id != id;
    } else {
      FindSlotNone(lru', id);
    }
  }

  /** A session that leaves the cache needing no save is still found, in its file. */
  lemma PushLookup<S(!new)>(olm: Olm<S>, lru: seq<Option<Slot<S>>>, files: map<string, string>, s: Slot<S>, id: string)
    requires Lawful(olm) && Stored(olm, lru, files) && Packed(lru) && lru != [] && FindSlot(lru, s.id) == |lru|
    requires lru[|lru| - 1].Some? ==> !lru[|lru| - 1].value.needsSave
    ensures Lookup(olm, Push(lru, Some(s)), files, id) ==
              if id == s.id then Some(s.session) else Lookup(olm, lru, files, id)
  {
    assert lru[|lru| - 1].Some? ==> SlotRight(olm, lru[|lru| - 1].value, files);
    hide *;
    PushFind(lru, s, id);
    LookupCases(olm, lru, files, id);
    LookupCases(olm, Push(lru, Some(s)), files, id);
    var j, n := FindSlot(lru, id), |lru| - 1;
    if j == n {
      SavedLookup(olm, lru[n].value, files);
    } else if j < n {
      PushParts(lru, Some(s));
    }
  }

  lemma LookupCases<S>(olm: Olm<S>, lru: seq<Option<Slot<S>>>, files: map<string, string>, id: string)
    ensures FindSlot(lru, id) < |lru| ==> lru[FindSlot(lru, id)].Some? && lru[FindSlot(lru, id)].value.id == id
    ensures FindSlot(lru, id) < |lru| ==> Lookup(olm, lru, files, id) == Some(lru[FindSlot(lru, id)].value.session)
    ensures FindSlot(lru, id) == |lru| && FileName(id) in files ==>
              Lookup(olm, lru, files, id) == Some(olm.unpickle(files[FileName(id)]))
    ensures FindSlot(lru, id) == |lru| && FileName(id) !in files ==> Lookup(olm, lru, files, id) == None
  {
  }

  /** A session that needs no save can be read back from its file. */
  lemma SavedLookup<S(!new)>(olm: Olm<S>, s: Slot<S>, files: map<string, string>)
    requires Lawful(olm) && SlotRight(olm, s, files) && !s.needsSave
    ensures FileName(s.id) in files && olm.unpickle(files[FileName(s.id)]) == s.session
  {
  }

  lemma PushParts<T>(s: seq<T>, x: T)
    requires s != []
    ensures |Push(s, x)| == |s| && Push(s, x)[0] == x && forall i :: 0 < i < |s| ==> Push(s, x)[i] == s[i - 1]
  {
  }

  lemma AwayFrom<S(!new)>(lru: seq<Option<Slot<S>>>, id: string)
    requires FindSlot(lru, id) == |lru|
    ensures forall i :: 0 <= i < |lru| && lru[i].Some? ==> lru[i].value.id != id
  {
  }

  lemma PushRefines<S(!new)>(olm: Olm<S>, lru: seq<Option<Slot<S>>>, files: map<string, string>,
                      sessions: map<string, S>, s: Slot<S>)
    requires Lawful(olm) && Stored(olm, lru, files) && lru != [] && FindSlot(lru, s.id) == |lru|
    requires SlotRight(olm, s, files)
    requires lru[|lru| - 1].Some? ==> !lru[|lru| - 1].value.needsSave
    requires Refines(olm, lru, files, sessions)
    ensures Refines(olm, Push(lru, Some(s)), files, sessions[s.id := s.session])
  {
    forall id | Safe(id)
      ensures Lookup(olm, Push(lru, Some(s)), files, id) ==
              if id in sessions[s.id := s.session] then Some(sessions[s.id := s.session][id]) else None
    {
      hide Lookup, Stored, Lawful, SlotRight;
      PushLookup(olm, lru, files, s, id);
    }
  }

  /** The session in front has gone on. */
  lemma AdvanceStored<S(!new)>(olm: Olm<S>, lru: seq<Option<Slot<S>>>, files: map<string, string>, k: nat, s: S)
    requires Stored(olm, lru, files) && k < |lru| && lru[k].Some?
    ensures Stored(olm, lru[k := Some(lru[k].value.(session := s, needsSave := true))], files)
  {
    assert SlotRight(olm, lru[k].value, files);
  }

  lemma AdvanceLookup<S(!new)>(olm: Olm<S>, lru: seq<Option<Slot<S>>>, files: map<string, string>, k: nat, s: S,
                        id: string)
    requires Stored(olm, lru, files) && k < |lru| && lru[k].Some?
    ensures Lookup(olm, lru[k := Some(lru[k].value.(session := s, needsSave := true))], files, id)
            == if id == lru[k].value.id then Some(s) else Lookup(olm, lru, files, id)
  {
    AdvanceStored(olm, lru, files, k, s);
    var lru', j := lru[k := Some(lru[k].value.(session := s, needsSave := true))], FindSlot(lru, id);
    if id == lru[k].value.id {
      FindSlotAt(lru', id, k);
    } else if j < |lru| {
      FindSlotAt(lru', id, j);
    } else {
      FindSlotNone(lru', id);
    }
  }

  datatype Op = Take(x: Input) | SaveRoom

  predicate SafeInput(x: Input)
  {
    x.Bridge? || Safe(x.id)
  }

  function Inputs(ops: seq<Op>): seq<Input>
  {
    if ops == [] then []
    else Inputs(ops[..|ops| - 1]) + if ops[|ops| - 1].Take? then [ops[|ops| - 1].x] else []
  }

  lemma {:induction false} InputsPrefix(ops: seq<Op>, i: nat)
    requires i <= |ops|
    ensures Inputs(ops[..i]) <= Inputs(ops)
  {
    if i < |ops| {
      InputsPrefix(ops[..|ops| - 1], i);
      assert ops[..|ops| - 1][..i] == ops[..i];
    } else {
      assert ops[..i] == ops;
    }
  }

  lemma NoInputs<S>(olm: Olm<S>, b: Book<S>, ops: seq<Op>)
    ensures Run(olm, b, Inputs(ops[..0])) == b && TextsNow(olm, b, Inputs(ops[..0])) == []
  {
  }

  lemma NextInput<S>(olm: Olm<S>, b: Book<S>, ops: seq<Op>, i: nat)
    requires i < |ops| && FreshRun(olm, b, Inputs(ops))
    ensures var c := Run(olm, b, Inputs(ops[..i]));
            && (ops[i].Take? ==> Fresh(c, ops[i].x))
            && Run(olm, b, Inputs(ops[..i + 1])) == (if ops[i].Take? then Step(olm, c, ops[i].x) else c)
            && TextsNow(olm, b, Inputs(ops[..i + 1]))
               == TextsNow(olm, b, Inputs(ops[..i])) + if ops[i].Take? then [TextNow(olm, c, ops[i].x)] else []
  {
    var xs, ys := Inputs(ops[..i]), Inputs(ops[..i + 1]);
    assert ops[..i + 1][..i] == ops[..i];
    InputsPrefix(ops, i + 1);
    if ops[i].Take? {
      assert ys == xs + [ops[i].x] && ys[..|xs|] == xs;
      assert Inputs(ops)[|xs|] == ys[|xs|] && Inputs(ops)[..|xs|] == xs;
    } else {
      assert ys == xs;
    }
  }

  lemma StepIs<S>(olm: Olm<S>, b: Book<S>, x: Input)
    ensures x.Encrypted? ==> Step(olm, b, x) == OnEncrypted(olm, b, x.id, Pending(x.event, x.ciphertext), x.senderKey).0
    ensures x.Key? ==> Step(olm, b, x) == OnKey(olm, b, x.forwarded, x.id, x.key)
    ensures x.Bridge? ==> Step(olm, b, x) == OnBridge(b, x.bot)
    ensures x.Outbound? ==> Step(olm, b, x) == OnOutbound(olm, b, x.id, x.key)
    ensures SafeInput(x) && !x.Bridge? ==> Safe(x.id)
  {
  }

  /** Every session has a file, if perhaps one of before. */
  ghost predicate Filed<S>(sessions: map<string, S>, files: map<string, string>)
  {
    forall id :: id in sessions ==> FileName(id) in files
  }

  /** The session's file has it in this state. */
  ghost predicate Written<S>(olm: Olm<S>, files: map<string, string>, id: string, s: S)
  {
    FileName(id) in files && files[FileName(id)] == olm.pickle(s)
  }

  lemma WrittenIs<S>(olm: Olm<S>, files: map<string, string>, id: string, s: S)
    requires FileName(id) in files && files[FileName(id)] == olm.pickle(s)
    ensures Written(olm, files, id, s)
  {
  }

  class Store<S(!new)> {
    const olm: Olm<S>
    var lru: seq<Option<Slot<S>>>     // session_lru; the one used last is in front
    var files: map<string, string>    // the session files on disk
    var waits: seq<Wait>              // decrypting
    var bridgebot: Option<string>
    var requests: seq<KeyRequest>     // the key requests sent
    var emitted: seq<Emitted>         // the MESSAGE_DECRYPTED events sent
    ghost var sessions: map<string, S>
    ghost var started: seq<string>
    ghost var spared: seq<string>

    ghost predicate Kept()
      reads this`lru, this`files, this`sessions
    {
      && Lawful(olm) && lru != [] && Stored(olm, lru, files) && Refines(olm, lru, files, sessions)
    }

    ghost function View(): Book<S>
      reads this`waits, this`bridgebot, this`requests, this`emitted, this`sessions, this`started, this`spared
    {
      Book(sessions, waits, bridgebot, requests, emitted, started, spared)
    }

    ghost predicate Valid()
      reads this
    {
      Kept() && Right(View()) && Filed(sessions, files)
    }

    /** A room after a start, with the session files that an earlier run has left. */
    constructor (olm: Olm<S>, capacity: nat, files: map<string, string>, ghost known: map<string, S>)
      requires Lawful(olm) && capacity > 0 && Stored(olm, [], files) && Refines(olm, [], files, known)
      ensures Valid() && this.olm == olm && |lru| == capacity && View() == Book(known, [], None, [], [], [], [])
    {
      this.olm := olm;
      lru, waits, bridgebot := seq(capacity, _ => None), [], None;
      this.files := files;
      requests, emitted, sessions, started, spared := [], [], known, [], [];
      new;
      forall id ensures Lookup(olm, lru, files, id) == Lookup(olm, [], files, id) {
        FindSlotNone(lru, id);
      }
      forall id | id in known ensures FileName(id) in files {
        assert Lookup(olm, [], files, id) == Some(known[id]);
      }
    }

    /** room_session_save: writes the file, unless it is known to hold just that. */
    method Save(i: nat)
      requires Kept() && i < |lru| && lru[i].Some?
      modifies this`lru, this`files
      ensures Kept() && |lru| == |old(lru)| && lru[i].Some? && !lru[i].value.needsSave
      ensures lru[i].value.id == old(lru)[i].value.id && lru[i].value.session == old(lru)[i].value.session
      ensures forall j :: 0 <= j < |lru| && j != i ==> lru[j] == old(lru)[j]
      ensures files == old(files)[FileName(lru[i].value.id) := olm.pickle(lru[i].value.session)]
    {
      var s := lru[i].value;
      assert SlotRight(olm, s, files);
      if !s.needsSave {
        assert files == files[FileName(s.id) := olm.pickle(s.session)];
        return;
      }
      SaveStored(olm, lru, files, i);
      forall id | Safe(id)
        ensures Lookup(olm, lru[i := Some(Saved(olm, s))], files[FileName(s.id) := olm.pickle(s.session)], id)
                == Lookup(olm, lru, files, id)
      {
        SaveLookup(olm, lru, files, i, id);
      }
      var pickle := olm.pickle(s.session);
      lru := lru[i := Some(s.(needsSave := false, pickle := Some(pickle)))];
      if s.pickle == Some(pickle) {
        assert files == files[FileName(s.id) := pickle];
        return;
      }
      files := files[FileName(s.id) := pickle];
    }

    /** beeper_lru_add_unchecked, and the new session put into the slot that is free then: the one used least
        recently leaves the cache, and is written back first. */
    method Add(s: Slot<S>)
      requires Kept() && FindSlot(lru, s.id) == |lru| && SlotRight(olm, s, files)
      modifies this`lru, this`files, this`sessions
      ensures Kept() && |lru| == |old(lru)| && lru[0] == Some(s) && sessions == old(sessions)[s.id := s.session]
      ensures forall j :: 0 < j < |lru| ==> lru[j].Some? == old(lru)[j - 1].Some?
      ensures forall n :: n in old(files) ==> n in files
    {
      hide *;
      KeptParts();
      var n := |lru| - 1;
      if lru[n].Some? {
        EvictRight(s, n);
        AwayFrom(lru, s.id);
        Save(n);
        FindSlotNone(lru, s.id);
        KeptParts();
      }
      PushStored(olm, lru, files, s);
      PushRefines(olm, lru, files, sessions, s);
      PushParts(lru, Some(s));
      lru := Push(lru, Some(s));
      sessions := sessions[s.id := s.session];
      KeptAgain();
    }

    lemma KeptParts()
      requires Kept()
      ensures Lawful(olm) && lru != [] && Stored(olm, lru, files) && Refines(olm, lru, files, sessions)
    {
    }

    lemma KeptAgain()
      requires Lawful(olm) && lru != [] && Stored(olm, lru, files) && Refines(olm, lru, files, sessions)
      ensures Kept()
    {
    }

    /** Writing another session back does not touch this one's file. */
    lemma EvictRight(s: Slot<S>, n: nat)
      requires Kept() && n < |lru| && lru[n].Some? && FindSlot(lru, s.id) == |lru| && SlotRight(olm, s, files)
      ensures SlotRight(olm, s, files[FileName(lru[n].value.id) := olm.pickle(lru[n].value.session)])
    {
      assert SlotRight(olm, lru[n].value, files);
      if FileName(s.id) == FileName(lru[n].value.id) {
        FileNameInjective(s.id, lru[n].value.id);
      }
    }

    /** beeper_lru_get: finds a session in the cache and moves it to the front. */
    method Get(id: string) returns (found: bool)
      requires Kept()
      modifies this`lru
      ensures Kept() && |lru| == |old(lru)| && (found <==> FindSlot(old(lru), id) < |old(lru)|)
      ensures found ==>
                && lru[0].Some? && lru[0].value.id == id
                && lru[0].value.session == old(lru)[FindSlot(old(lru), id)].value.session
      ensures !found ==> lru == old(lru)
    {
      var k := Index(id);
      found := k < |lru|;
      if found {
        MoveStored(olm, lru, files, k);
        forall x ensures Lookup(olm, MoveToFront(lru, k), files, x) == Lookup(olm, lru, files, x) {
          MoveLookup(olm, lru, files, k, x);
        }
        lru := MoveToFront(lru, k);
      }
    }

    /** beeper_lru_get_no_rearrange */
    method Index(id: string) returns (k: nat)
      ensures k == FindSlot(lru, id)
    {
      k := 0;
      while k < |lru| && !(lru[k].Some? && lru[k].value.id == id)
        invariant k <= |lru|
        invariant forall i :: 0 <= i < k ==> lru[i].None? || lru[i].value.id != id
      {
        k := k + 1;
      }
    }

    method WaitIndex(id: string) returns (k: nat)
      ensures k == FindWait(waits, id)
    {
      k := 0;
      while k < |waits| && waits[k].id != id
        invariant k <= |waits|
        invariant forall i :: 0 <= i < k ==> waits[i].id != id
      {
        k := k + 1;
      }
    }

    /** The session in front decrypts a message. */
    method DecryptFront(ciphertext: string) returns (text: Option<string>)
      requires Kept() && lru[0].Some? && lru[0].value.id in sessions
      requires sessions[lru[0].value.id] == lru[0].value.session
      modifies this`lru, this`sessions
      ensures Kept() && |lru| == |old(lru)| && lru[0].Some? && lru[0].value.id == old(lru)[0].value.id
      ensures lru[0].value.id in sessions && sessions[lru[0].value.id] == lru[0].value.session
      ensures var r := olm.decrypt(old(lru)[0].value.session, ciphertext);
              if r.None? then text == None && lru == old(lru) && sessions == old(sessions)
              else text == Some(r.value.1) && sessions == old(sessions)[old(lru)[0].value.id := r.value.0]
                   && lru[0].value.session == r.value.0
    {
      var s := lru[0].value;
      var r := olm.decrypt(s.session, ciphertext);
      if r.None? {
        return None;
      }
      AdvanceStored(olm, lru, files, 0, r.value.0);
      forall id ensures Lookup(olm, lru[0 := Some(s.(session := r.value.0, needsSave := true))], files, id)
                        == if id == s.id then Some(r.value.0) else Lookup(olm, lru, files, id) {
        AdvanceLookup(olm, lru, files, 0, r.value.0, id);
      }
      lru := lru[0 := Some(s.(session := r.value.0, needsSave := true))];
      sessions := sessions[s.id := r.value.0];
      text := Some(r.value.1);
    }

    /** Brings a session into the front of the cache, from the cache or from its file. */
    method Fetch(id: string) returns (found: bool)
      requires Kept() && Safe(id)
      modifies this`lru, this`files, this`sessions
      ensures Kept() && |lru| == |old(lru)| && sessions == old(sessions) && (found <==> id in sessions)
      ensures found ==> lru[0].Some? && lru[0].value.id == id && lru[0].value.session == sessions[id]
      ensures found && FindSlot(old(lru), id) == |old(lru)| ==> !lru[0].value.needsSave
      ensures forall n :: n in old(files) ==> n in files
    {
      assert Lookup(olm, lru, files, id) == if id in sessions then Some(sessions[id]) else None;
      found := Get(id);
      if !found && FileName(id) in files {
        var pickle := files[FileName(id)];
        ghost var s := olm.unpickle(pickle);
        assert sessions == sessions[id := s];
        Add(Slot(id, Some(pickle), olm.unpickle(pickle), false));
        found := true;
      }
    }

    // -------- the events --------

    lemma ViewIs()
      ensures View() == Book(sessions, waits, bridgebot, requests, emitted, started, spared)
    {
    }

    lemma ValidParts()
      requires Valid()
      ensures Kept() && Right(View()) && |lru| > 0 && Filed(sessions, files)
    {
    }

    lemma ValidAgain()
      requires Kept() && Right(View()) && Filed(sessions, files)
      ensures Valid()
    {
    }

    /** room_decrypt_message: does what the map of all sessions would do. */
    method RoomDecrypt(id: string, event: string, ciphertext: string, senderKey: string) returns (text: Option<string>)
      requires Valid() && Safe(id)
      modifies this
      ensures Valid() && |lru| == |old(lru)|
      ensures (View(), text) == OnEncrypted(olm, old(View()), id, Pending(event, ciphertext), senderKey)
    {
      hide *;
      ValidParts();
      ViewIs();
      EncryptedKeeps(olm, View(), id, Pending(event, ciphertext), senderKey);
      OnEncryptedCases(olm, View(), id, Pending(event, ciphertext), senderKey);
      var k := WaitIndex(id);
      text := None;
      if k < |waits| {
        JoinWait(k, Pending(event, ciphertext));
      } else {
        var found := Fetch(id);
        if found {
          text := DecryptFront(ciphertext);
        } else {
          StartWait(id, Pending(event, ciphertext), senderKey);
        }
      }
      ViewIs();
      ValidAgain();
    }

    /** Starts to wait for a session, and asks for its key if the bridgebot is known. */
    method StartWait(id: string, m: Pending, senderKey: string)
      modifies this`waits, this`requests, this`started
      ensures View() == Start(old(View()), id, m, senderKey)
    {
      var w := Wait(id, senderKey, false, [m]);
      started := started + [id];
      if bridgebot.Some? {
        w := w.(asked := true);
        requests := requests + [Ask(w, bridgebot.value)];
      }
      waits := waits + [w];
    }

    /** A message joins those that wait, unless it is there already. */
    method JoinWait(k: nat, m: Pending)
      requires k < |waits|
      modifies this`waits
      ensures waits == old(waits)[k := old(waits)[k].(msgs := Join(old(waits)[k].msgs, m))]
    {
      var ms := waits[k].msgs;
      var i := 0;
      while i < |ms| && ms[i].event != m.event
        invariant i <= |ms| && forall j :: 0 <= j < i ==> ms[j].event != m.event
      {
        i := i + 1;
      }
      if i == |ms| {
        waits := waits[k := waits[k].(msgs := ms + [m])];
      }
    }

    /** Decrypts the waiting messages with the session in front, up to the first that fails. */
    method EmitAll(ms: seq<Pending>)
      requires Kept() && lru[0].Some? && lru[0].value.id in sessions
      requires sessions[lru[0].value.id] == lru[0].value.session
      modifies this`lru, this`sessions, this`emitted
      ensures Kept() && |lru| == |old(lru)| && lru[0].Some? && lru[0].value.id == old(lru)[0].value.id
      ensures var r := DecryptAll(olm, old(lru)[0].value.session, ms);
              && sessions == old(sessions)[old(lru)[0].value.id := r.0] && emitted == old(emitted) + r.1
              && lru[0].value.session == r.0
    {
      hide *;
      KeptFront();
      var i := 0;
      ghost var id, s := lru[0].value.id, lru[0].value.session;
      ghost var done := [];
      assert ms[0..] == ms && sessions == sessions[id := s]
             && [] + DecryptAll(olm, s, ms).1 == DecryptAll(olm, s, ms).1;
      while i < |ms|
        invariant i <= |ms| && Kept() && |lru| == |old(lru)| && |lru| > 0 && lru[0].Some? && lru[0].value.id == id
        invariant s == lru[0].value.session && id in sessions && sessions == old(sessions)[id := s]
        invariant emitted == old(emitted) + done
        invariant DecryptAll(olm, old(lru)[0].value.session, ms)
                  == (DecryptAll(olm, s, ms[i..]).0, done + DecryptAll(olm, s, ms[i..]).1)
      {
        assert ms[i..][0] == ms[i] && ms[i..][1..] == ms[i + 1..];
        DecryptAllStep(olm, s, ms[i..]);
        var text := DecryptFront(ms[i].ciphertext);
        if text.None? {
          return;
        }
        s := lru[0].value.session;
        ghost var rest := DecryptAll(olm, s, ms[i + 1..]).1;
        assert done + ([Emitted(ms[i].event, text.value)] + rest) == (done + [Emitted(ms[i].event, text.value)]) + rest;
        done := done + [Emitted(ms[i].event, text.value)];
        emitted := emitted + [Emitted(ms[i].event, text.value)];
        i := i + 1;
      }
      assert ms[i..] == [];
      DecryptNone(olm, s);
    }

    lemma KeptFront()
      requires Kept()
      ensures |lru| > 0
    {
    }

    /** A new session, straight to disk. */
    method AddNew(id: string, s: S)
      requires Kept() && Safe(id) && FindSlot(lru, id) == |lru|
      modifies this`lru, this`files, this`sessions
      ensures Kept() && |lru| == |old(lru)| && sessions == old(sessions)[id := s]
      ensures FileName(id) in files && files[FileName(id)] == olm.pickle(s)
      ensures forall n :: n in old(files) ==> n in files
    {
      hide *;
      KeptFront();
      FreshSlot(id, s);
      Add(Slot(id, None, s, true));
      Save(0);
    }

    /** A new session decrypts the messages that wait for it, and goes to disk. */
    method AddAndEmit(id: string, s: S, ms: seq<Pending>)
      requires Kept() && Safe(id) && FindSlot(lru, id) == |lru|
      modifies this`lru, this`files, this`sessions, this`emitted
      ensures Kept() && |lru| == |old(lru)|
      ensures sessions == old(sessions)[id := DecryptAll(olm, s, ms).0]
      ensures FileName(id) in files && files[FileName(id)] == olm.pickle(DecryptAll(olm, s, ms).0)
      ensures forall n :: n in old(files) ==> n in files
      ensures emitted == old(emitted) + DecryptAll(olm, s, ms).1
    {
      hide *;
      KeptFront();
      FreshSlot(id, s);
      Add(Slot(id, None, s, true));
      EmitAll(ms);
      assert sessions == old(sessions)[id := DecryptAll(olm, s, ms).0];
      Save(0);
    }

    /** handle_room_key_event */
    method RoomKey(forwarded: bool, id: string, key: string)
      requires Valid() && Safe(id)
      modifies this
      ensures Valid() && |lru| == |old(lru)| && View() == OnKey(olm, old(View()), forwarded, id, key)
      ensures id !in old(sessions) ==> id in sessions && Written(olm, files, id, sessions[id])
    {
      hide *;
      ValidParts();
      ViewIs();
      KeyKeeps(olm, View(), forwarded, id, key);
      OnKeyCases(olm, View(), forwarded, id, key);
      NotCached(id);
      var k := WaitIndex(id);
      if k < |waits| {
        var w := waits[k];
        AddAndEmit(id, olm.load(forwarded, key), w.msgs);
        waits := waits[..k] + waits[k + 1..];
        spared := spared + if w.asked then [] else [id];
        WrittenIs(olm, files, id, sessions[id]);
      } else {
        var i := Index(id);
        if i == |lru| && FileName(id) !in files {
          AddNew(id, olm.load(forwarded, key));
          WrittenIs(olm, files, id, sessions[id]);
        }
      }
      ViewIs();
      ValidAgain();
    }

    lemma FreshSlot(id: string, s: S)
      requires Safe(id)
      ensures SlotRight(olm, Slot(id, None, s, true), files)
    {
    }

    /** A session that is waited for is neither cached nor on disk; one that is neither is not known. */
    lemma NotCached(id: string)
      requires Valid() && Safe(id)
      ensures id in sessions <==> FindSlot(lru, id) < |lru| || FileName(id) in files
      ensures FindWait(waits, id) < |waits| ==> id !in sessions
      ensures id !in sessions ==> FindSlot(lru, id) == |lru|
    {
      assert Lookup(olm, lru, files, id) == if id in sessions then Some(sessions[id]) else None;
      RightApart(View());
    }

    /** The bridgebot becomes known: the keys that are still to be asked for are asked for. */
    method Bridge(bot: string)
      requires Valid()
      modifies this`bridgebot, this`waits, this`requests
      ensures Valid() && View() == OnBridge(old(View()), bot)
    {
      hide *;
      ValidParts();
      ViewIs();
      BridgeKeeps(View(), bot);
      OnBridgeCases(View(), bot);
      if bot != "" {
        bridgebot := Some(bot);
        AskKeys(bot);
      }
      ViewIs();
      ValidAgain();
    }

    method AskKeys(bot: string)
      modifies this`waits, this`requests
      ensures waits == AllAsked(old(waits)) && requests == old(requests) + AskAll(old(waits), bot)
    {
      var i := 0;
      ghost var ws := waits;
      assert ws[..0] == [];
      while i < |waits|
        invariant i <= |waits| == |ws|
        invariant forall j :: 0 <= j < |ws| ==> waits[j] == if j < i then ws[j].(asked := true) else ws[j]
        invariant requests == old(requests) + AskAll(ws[..i], bot)
      {
        AskAllStep(ws, bot, i);
        if !waits[i].asked {
          requests := requests + [Ask(waits[i], bot)];
          waits := waits[i := waits[i].(asked := true)];
        }
        i := i + 1;
      }
      assert ws[..i] == ws && waits == AllAsked(ws);
    }

    /** A new session for sending, of which the room keeps the receiving side. */
    method Outbound(id: string, key: string)
      requires Valid() && Safe(id) && Fresh(View(), Input.Outbound(id, key))
      modifies this`lru, this`files, this`sessions
      ensures Valid() && |lru| == |old(lru)| && View() == OnOutbound(olm, old(View()), id, key)
      ensures id in sessions && Written(olm, files, id, sessions[id])
    {
      hide *;
      ValidParts();
      ViewIs();
      StepKeeps(olm, View(), Input.Outbound(id, key));
      OnOutboundIs(olm, View(), id, key);
      NotCached(id);
      AddNew(id, olm.load(false, key));
      WrittenIs(olm, files, id, sessions[id]);
      ViewIs();
      ValidAgain();
    }

    /** room_save_sessions: afterwards every session is on disk as it is. */
    method SaveAll()
      requires Valid()
      modifies this`lru, this`files
      ensures Valid() && |lru| == |old(lru)| && View() == old(View())
      ensures forall id :: id in sessions ==> FileName(id) in files && olm.unpickle(files[FileName(id)]) == sessions[id]
    {
      hide *;
      ValidParts();
      ViewIs();
      var i := 0;
      while i < |lru| && lru[i].Some?
        invariant i <= |lru| == |old(lru)| && Kept()
        invariant forall j :: 0 <= j < i ==> lru[j].Some? && !lru[j].value.needsSave
      {
        Save(i);
        i := i + 1;
      }
      RestSaved(i);
      ViewIs();
      ValidAgain();
    }

    /** The program stops and starts again: the sessions that were saved are all there, and what waited is forgotten. */
    method Reopen(capacity: nat) returns (s: Store<S>)
      requires Valid() && capacity > 0
      modifies this`lru, this`files
      ensures fresh(s) && s.Valid() && s.View() == Book(sessions, [], None, [], [], [], [])
    {
      hide *;
      SaveAll();
      ValidParts();
      SavedAlone();
      s := new Store(olm, capacity, files, sessions);
    }

    /** The program dies between two inputs, without a save, and starts again: no session is lost. Each is there as it
        was when it was last written. */
    method Die(capacity: nat) returns (s: Store<S>)
      requires Valid() && capacity > 0
      ensures fresh(s) && s.Valid() && s.sessions.Keys == sessions.Keys
      ensures s.View() == Book(s.sessions, [], None, [], [], [], [])
      ensures forall id :: id in sessions ==> Written(olm, files, id, s.sessions[id])
    {
      ghost var known := map id | id in sessions :: olm.unpickle(files[FileName(id)]);
      FiledAlone(known);
      s := new Store(olm, capacity, files, known);
    }

    lemma FiledAlone(known: map<string, S>)
      requires Valid() && known == map id | id in sessions :: olm.unpickle(files[FileName(id)])
      ensures Lawful(olm) && Stored(olm, [], files) && Refines(olm, [], files, known)
      ensures forall id :: id in sessions ==> Written(olm, files, id, known[id])
    {
      forall id | Safe(id)
        ensures Lookup(olm, [], files, id) == if id in known then Some(known[id]) else None
      {
        assert Lookup(olm, lru, files, id).Some? <==> id in sessions;
      }
    }

    lemma SavedAlone()
      requires Kept()
      requires forall id :: id in sessions ==>
                 FileName(id) in files && olm.unpickle(files[FileName(id)]) == sessions[id]
      ensures Lawful(olm) && Stored(olm, [], files) && Refines(olm, [], files, sessions)
    {
      forall id | Safe(id)
        ensures Lookup(olm, [], files, id) == if id in sessions then Some(sessions[id]) else None
      {
        assert Lookup(olm, lru, files, id).Some? <==> id in sessions;
      }
    }

    /** One thing that happens to the room, or its sessions are saved. */
    method Do(op: Op) returns (text: Option<string>)
      requires Valid() && (op.Take? ==> SafeInput(op.x) && Fresh(View(), op.x))
      modifies this
      ensures Valid() && View() == if op.Take? then Step(olm, old(View()), op.x) else old(View())
      ensures op.Take? ==> text == TextNow(olm, old(View()), op.x)
    {
      hide *;
      text := None;
      match op {
        case SaveRoom => SaveAll();
        case Take(x) =>
          StepIs(olm, View(), x);
          TextNowIs(olm, View(), x);
          match x {
            case Encrypted(id, event, ciphertext, senderKey) =>
              text := RoomDecrypt(id, event, ciphertext, senderKey);
            case Key(forwarded, id, key) => RoomKey(forwarded, id, key);
            case Bridge(bot) => Bridge(bot);
            case Outbound(id, key) => Outbound(id, key);
          }
      }
    }

    /** However inputs and saves follow each other, cache, files and waits end up as the unbounded map does after the
        same inputs, and the texts that are shown at once are the map's. */
    method DoAll(ops: seq<Op>) returns (texts: seq<Option<string>>)
      requires Valid() && FreshRun(olm, View(), Inputs(ops))
      requires forall i {:trigger ops[i]} :: 0 <= i < |ops| && ops[i].Take? ==> SafeInput(ops[i].x)
      modifies this
      ensures Valid() && View() == Run(olm, old(View()), Inputs(ops))
      ensures texts == TextsNow(olm, old(View()), Inputs(ops))
    {
      hide *;
      var i := 0;
      ghost var b := View();
      NoInputs(olm, b, ops);
      texts := [];
      while i < |ops|
        invariant i <= |ops| && Valid() && View() == Run(olm, b, Inputs(ops[..i]))
        invariant texts == TextsNow(olm, b, Inputs(ops[..i]))
      {
        NextInput(olm, b, ops, i);
        var text := Do(ops[i]);
        if ops[i].Take? {
          texts := texts + [text];
        }
        i := i + 1;
      }
      assert ops[..i] == ops;
    }

    lemma RestSaved(i: nat)
      requires Kept() && i <= |lru| && (i < |lru| ==> lru[i].None?)
      requires forall j :: 0 <= j < i ==> lru[j].Some? && !lru[j].value.needsSave
      ensures forall id :: id in sessions ==> FileName(id) in files && olm.unpickle(files[FileName(id)]) == sessions[id]
    {
      forall id | id in sessions
        ensures FileName(id) in files && olm.unpickle(files[FileName(id)]) == sessions[id]
      {
        AllSaved(id);
      }
    }

    lemma AllSaved(id: string)
      requires Kept() && id in sessions
      requires forall j :: 0 <= j < |lru| && lru[j].Some? ==> !lru[j].value.needsSave
      ensures FileName(id) in files && olm.unpickle(files[FileName(id)]) == sessions[id]
    {
      assert Lookup(olm, lru, files, id) == Some(sessions[id]);
      var k := FindSlot(lru, id);
      if k < |lru| {
        assert SlotRight(olm, lru[k].value, files);
      }
    }
  }

  lemma OnBridgeCases<S>(b: Book<S>, bot: string)
    ensures OnBridge(b, bot) == if bot == "" then b
                                else b.(bridgebot := Some(bot), waits := AllAsked(b.waits),
                                        requests := b.requests + AskAll(b.waits, bot))
  {
  }

  lemma OnOutboundIs<S>(olm: Olm<S>, b: Book<S>, id: string, key: string)
    ensures Step(olm, b, Input.Outbound(id, key)) == OnOutbound(olm, b, id, key)
            == b.(sessions := b.sessions[id := olm.load(false, key)])
    ensures Fresh(b, Input.Outbound(id, key)) ==> id !in b.sessions
  {
  }

  lemma TextNowIs<S>(olm: Olm<S>, b: Book<S>, x: Input)
    ensures TextNow(olm, b, x) ==
            if x.Encrypted? then OnEncrypted(olm, b, x.id, Pending(x.event, x.ciphertext), x.senderKey).1 else None
  {
  }

  lemma DecryptNone<S>(olm: Olm<S>, s: S)
    ensures DecryptAll(olm, s, []) == (s, [])
  {
  }
}
