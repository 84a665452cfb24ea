/** The list of users, devices and keys of beeper_task.c: its file, and what a list of changed and left users
    does to it. */
module KeyList {
  import opened Basics

  datatype Key = Key(id: string, value: string)

  datatype Device = Device(id: string, signedBySsk: bool, keys: seq<Key>)

  datatype User = User(id: string, outdated: bool, dontSave: bool, allDevices: bool, sskSigned: bool,
                       devices: seq<Device>, masterKeys: seq<Key>, selfSigningKeys: seq<Key>)

  /** What isspace() is true of. */
  ghost predicate Space(c: char)
  {
    c in {' ', '\t', '\n', '\U{0B}', '\U{0C}', '\r'}
  }

  /** One line, and not an empty one. */
  predicate Whole(s: string)
  {
    s != [] && '\n' !in s
  }

  /** A line that can follow a number: it does not start with what the number's line would swallow. */
  ghost predicate Solid(s: string)
  {
    Whole(s) && !Space(s[0])
  }

  // ---------- numbers ----------

  function Digits(n: nat): (s: string)
    ensures s != [] && forall i :: 0 <= i < |s| ==> '0' <= s[i] <= '9'
  {
    (if n < 10 then [] else Digits(n / 10)) + [('0' as int + n % 10) as char]
  }

  /** What "%u" makes of a run of digits. */
  function Value(s: string): nat
    requires forall i :: 0 <= i < |s| ==> '0' <= s[i] <= '9'
  {
    if s == [] then 0 else 10 * Value(s[..|s| - 1]) + (s[|s| - 1] as int - '0' as int)
  }

  lemma {:induction false} ValueOfDigits(n: nat)
    ensures Value(Digits(n)) == n
  {
    var s := Digits(n);
    if n < 10 {
      assert s[..|s| - 1] == [];
    } else {
      assert s[..|s| - 1] == Digits(n / 10);
      ValueOfDigits(n / 10);
    }
  }

  // ---------- the file, with what follows ----------

  function Line(s: string, rest: string): string
  {
    s + ("\n" + rest)
  }

  function Number(n: nat, rest: string): string
  {
    Line(Digits(n), rest)
  }

  function Flag(b: bool, rest: string): string
  {
    Number(if b then 1 else 0, rest)
  }

  function KeyLines(ks: seq<Key>, rest: string): string
  {
    if ks == [] then rest else Line(ks[0].id, Line(ks[0].value, KeyLines(ks[1..], rest)))
  }

  function Keys(ks: seq<Key>, rest: string): string
  {
    Number(|ks|, KeyLines(ks, rest))
  }

  function DeviceLines(ds: seq<Device>, rest: string): string
  {
    if ds == [] then rest
    else Line(ds[0].id, Flag(ds[0].signedBySsk, Keys(ds[0].keys, DeviceLines(ds[1..], rest))))
  }

  function Devices(ds: seq<Device>, rest: string): string
  {
    Number(|ds|, DeviceLines(ds, rest))
  }

  function UserLine(u: User, rest: string): string
  {
    Line(u.id, Flag(u.allDevices, Flag(u.sskSigned,
      Devices(u.devices, Keys(u.masterKeys, Keys(u.selfSigningKeys, rest))))))
  }

  function UserLines(us: seq<User>, rest: string): string
  {
    if us == [] then rest else UserLine(us[0], UserLines(us[1..], rest))
  }

  /** The file of a list all of whose users and devices are written. */
  function File(us: seq<User>): string
  {
    Number(|us|, UserLines(us, ""))
  }

  // ---------- what is worth saving ----------

  function Keyed(ds: seq<Device>): seq<Device>
  {
    if ds == [] then [] else (if ds[0].keys == [] then [] else [ds[0]]) + Keyed(ds[1..])
  }

  function Clean(u: User): User
  {
    u.(outdated := false, dontSave := false, devices := Keyed(u.devices))
  }

  /** The list without what is not saved: users to leave out, devices without keys, and the two marks. */
  function Saved(us: seq<User>): seq<User>
  {
    if us == [] then [] else (if us[0].dontSave then [] else [Clean(us[0])]) + Saved(us[1..])
  }

  ghost predicate SolidKeys(ks: seq<Key>)
  {
    forall i {:trigger ks[i]} :: 0 <= i < |ks| ==> Solid(ks[i].id) && Whole(ks[i].value)
  }

  ghost predicate SolidDevices(ds: seq<Device>)
  {
    forall i {:trigger ds[i]} :: 0 <= i < |ds| ==> Solid(ds[i].id) && SolidKeys(ds[i].keys)
  }

  ghost predicate SolidUser(u: User)
  {
    Solid(u.id) && SolidDevices(u.devices) && SolidKeys(u.masterKeys) && SolidKeys(u.selfSigningKeys)
  }

  ghost predicate SolidUsers(us: seq<User>)
  {
    forall i {:trigger us[i]} :: 0 <= i < |us| ==> SolidUser(us[i])
  }

  // ---------- writing ----------

  /** A file being written; `all` is what it has to become. */
  class Writer {
    var out: string
    ghost const all: string

    constructor (ghost all: string)
      ensures this.all == all && out == "" && Owes(all)
    {
      this.all, out := all, "";
    }

    /** This is still to be written. */
    ghost predicate Owes(rest: string)
      reads this`out
    {
      out + rest == all
    }

    method WriteString(s: string, ghost rest: string)
      requires Owes(Line(s, rest))
      modifies this`out
      ensures Owes(rest)
    {
      assert out + (s + ("\n" + rest)) == out + s + "\n" + rest;
      out := out + s;
      out := out + "\n";
    }

    method WriteNumber(n: nat, ghost rest: string)
      requires Owes(Number(n, rest))
      modifies this`out
      ensures Owes(rest)
    {
      WriteString(Digits(n), rest);
    }

    method WriteKeys(ks: seq<Key>, ghost rest: string)
      requires Owes(Keys(ks, rest))
      modifies this`out
      ensures Owes(rest)
    {
      WriteNumber(|ks|, KeyLines(ks, rest));
      var i := 0;
      assert ks[0..] == ks;
      while i < |ks|
        invariant i <= |ks| && Owes(KeyLines(ks[i..], rest))
      {
        assert ks[i..][0] == ks[i] && ks[i..][1..] == ks[i + 1..];
        WriteString(ks[i].id, Line(ks[i].value, KeyLines(ks[i + 1..], rest)));
        WriteString(ks[i].value, KeyLines(ks[i + 1..], rest));
        i := i + 1;
      }
    }

    method WriteDevices(ds: seq<Device>, ghost rest: string)
      requires Owes(Devices(Keyed(ds), rest))
      modifies this`out
      ensures Owes(rest)
    {
      var count := CountKeyed(ds);
      WriteNumber(count, DeviceLines(Keyed(ds), rest));
      var i := 0;
      assert ds[0..] == ds;
      while i < |ds|
        invariant i <= |ds| && Owes(DeviceLines(Keyed(ds[i..]), rest))
      {
        KeyedStep(ds, i);
        if ds[i].keys != [] {
          ghost var more := DeviceLines(Keyed(ds[i + 1..]), rest);
          DeviceLinesStep(ds[i], Keyed(ds[i + 1..]), rest);
          WriteString(ds[i].id, Flag(ds[i].signedBySsk, Keys(ds[i].keys, more)));
          WriteNumber(if ds[i].signedBySsk then 1 else 0, Keys(ds[i].keys, more));
          WriteKeys(ds[i].keys, more);
        }
        i := i + 1;
      }
    }

    method WriteUser(u: User, ghost rest: string)
      requires Owes(UserLine(Clean(u), rest))
      modifies this`out
      ensures Owes(rest)
    {
      hide *;
      UserLineParts(u, rest);
      ghost var e := Keys(u.selfSigningKeys, rest);
      ghost var d := Keys(u.masterKeys, e);
      ghost var c := Devices(Keyed(u.devices), d);
      ghost var b := Flag(u.sskSigned, c);
      WriteString(u.id, Flag(u.allDevices, b));
      FlagIs(u.allDevices, b);
      WriteNumber(if u.allDevices then 1 else 0, b);
      FlagIs(u.sskSigned, c);
      WriteNumber(if u.sskSigned then 1 else 0, c);
      WriteDevices(u.devices, d);
      WriteKeys(u.masterKeys, e);
      WriteKeys(u.selfSigningKeys, rest);
    }

    method WriteUsers(us: seq<User>)
      requires Owes(File(Saved(us)))
      modifies this`out
      ensures out == all
    {
      hide *;
      FileIs(Saved(us));
      var count := CountSaved(us);
      WriteNumber(count, UserLines(Saved(us), ""));
      var i := 0;
      assert us[0..] == us;
      while i < |us|
        invariant i <= |us| && Owes(UserLines(Saved(us[i..]), ""))
      {
        SavedStep(us, i);
        if !us[i].dontSave {
          UserLinesStep(Clean(us[i]), Saved(us[i + 1..]), "");
          WriteUser(us[i], UserLines(Saved(us[i + 1..]), ""));
        }
        i := i + 1;
      }
      NothingOwed(us, i);
    }

    lemma NothingOwed(us: seq<User>, i: nat)
      requires i == |us| && Owes(UserLines(Saved(us[i..]), ""))
      ensures out == all
    {
      assert us[i..] == [];
      assert out + "" == out;
    }
  }

  method CountKeyed(ds: seq<Device>) returns (count: nat)
    ensures count == |Keyed(ds)|
  {
    count := 0;
    var i := 0;
    assert ds[0..] == ds;
    while i < |ds|
      invariant i <= |ds| && count + |Keyed(ds[i..])| == |Keyed(ds)|
    {
      KeyedStep(ds, i);
      count := count + if ds[i].keys == [] then 0 else 1;
      i := i + 1;
    }
  }

  method CountSaved(us: seq<User>) returns (count: nat)
    ensures count == |Saved(us)|
  {
    count := 0;
    var i := 0;
    assert us[0..] == us;
    while i < |us|
      invariant i <= |us| && count + |Saved(us[i..])| == |Saved(us)|
    {
      SavedStep(us, i);
      count := count + if us[i].dontSave then 0 else 1;
      i := i + 1;
    }
  }

  lemma FileIs(us: seq<User>)
    ensures File(us) == Number(|us|, UserLines(us, ""))
  {
  }

  /** key_list_save: the file holds what is worth saving. */
  method Save(us: seq<User>) returns (text: string)
    ensures text == File(Saved(us))
  {
    var w := new Writer(File(Saved(us)));
    w.WriteUsers(us);
    text := w.out;
  }

  lemma KeyedStep(ds: seq<Device>, i: nat)
    requires i < |ds|
    ensures Keyed(ds[i..]) == if ds[i].keys == [] then Keyed(ds[i + 1..]) else [ds[i]] + Keyed(ds[i + 1..])
    ensures |Keyed(ds[i..])| == (if ds[i].keys == [] then 0 else 1) + |Keyed(ds[i + 1..])|
  {
    assert ds[i..][1..] == ds[i + 1..];
  }

  lemma SavedStep(us: seq<User>, i: nat)
    requires i < |us|
    ensures Saved(us[i..]) == if us[i].dontSave then Saved(us[i + 1..]) else [Clean(us[i])] + Saved(us[i + 1..])
    ensures |Saved(us[i..])| == (if us[i].dontSave then 0 else 1) + |Saved(us[i + 1..])|
  {
    assert us[i..][1..] == us[i + 1..];
  }

  lemma DeviceLinesStep(d: Device, ds: seq<Device>, rest: string)
    ensures DeviceLines([d] + ds, rest) == Line(d.id, Flag(d.signedBySsk, Keys(d.keys, DeviceLines(ds, rest))))
  {
    assert ([d] + ds)[1..] == ds;
  }

  lemma UserLinesStep(u: User, us: seq<User>, rest: string)
    ensures UserLines([u] + us, rest) == UserLine(u, UserLines(us, rest))
  {
    assert ([u] + us)[1..] == us;
  }

  lemma FlagIs(b: bool, rest: string)
    ensures Flag(b, rest) == Number(if b then 1 else 0, rest)
  {
  }

  lemma UserLineParts(u: User, rest: string)
    ensures UserLine(Clean(u), rest) ==
            Line(u.id, Flag(u.allDevices, Flag(u.sskSigned,
              Devices(Keyed(u.devices), Keys(u.masterKeys, Keys(u.selfSigningKeys, rest))))))
  {
  }

  // ---------- reading ----------

  /** What follows a number does not start with white space, which would be taken for part of the number's line. */
  ghost predicate Firm(rest: string)
  {
    rest == "" || !Space(rest[0])
  }

  lemma LineFirm(s: string, rest: string)
    requires Solid(s)
    ensures Firm(Line(s, rest))
  {
    assert Line(s, rest)[0] == s[0];
  }

  lemma NumberFirm(n: nat, rest: string)
    ensures Firm(Number(n, rest))
  {
    assert Number(n, rest)[0] == Digits(n)[0];
  }

  lemma KeyLinesFirm(ks: seq<Key>, rest: string)
    requires SolidKeys(ks) && Firm(rest)
    ensures Firm(KeyLines(ks, rest))
  {
    if ks != [] {
      LineFirm(ks[0].id, Line(ks[0].value, KeyLines(ks[1..], rest)));
    }
  }

  lemma DeviceLinesFirm(ds: seq<Device>, rest: string)
    requires SolidDevices(ds) && Firm(rest)
    ensures Firm(DeviceLines(ds, rest))
  {
    if ds != [] {
      LineFirm(ds[0].id, Flag(ds[0].signedBySsk, Keys(ds[0].keys, DeviceLines(ds[1..], rest))));
    }
  }

  lemma UserLinesFirm(us: seq<User>, rest: string)
    requires SolidUsers(us) && Firm(rest)
    ensures Firm(UserLines(us, rest))
  {
    if us != [] {
      var u := us[0];
      assert SolidUser(u);
      LineFirm(u.id, Flag(u.allDevices, Flag(u.sskSigned,
        Devices(u.devices, Keys(u.masterKeys, Keys(u.selfSigningKeys, UserLines(us[1..], rest)))))));
    }
  }

  /** A file being read. */
  class Reader {
    const text: string
    var pos: nat

    constructor (text: string)
      ensures this.text == text && Rest(text)
    {
      this.text, pos := text, 0;
    }

    /** This is still to be read. */
    ghost predicate Rest(s: string)
      reads this`pos
    {
      pos <= |text| && text[pos..] == s
    }

    lemma RestAt(a: string, b: string)
      requires Rest(a + b)
      ensures pos + |a| <= |text| && text[pos..pos + |a|] == a && text[pos + |a|..] == b
      ensures forall i {:trigger a[i]} :: 0 <= i < |a| ==> text[pos + i] == a[i]
    {
      var s := text[pos..];
      assert text[pos..pos + |a|] == s[..|a|] == (a + b)[..|a|] == a;
      assert text[pos + |a|..] == s[|a|..] == (a + b)[|a|..] == b;
      assert forall i {:trigger a[i]} :: 0 <= i < |a| ==> text[pos + i] == s[i] == (a + b)[i] == a[i];
    }

    /** getline, less the end of the line. */
    method ReadString(ghost s: string, ghost rest: string) returns (r: string)
      requires Rest(Line(s, rest)) && s != [] && '\n' !in s
      modifies this`pos
      ensures r == s && Rest(rest)
    {
      RestAt(s, "\n" + rest);
      ghost var line := s + "\n";
      assert line + rest == Line(s, rest);
      RestAt(line, rest);
      assert text[pos + |s|] == line[|s|];
      forall i | pos <= i < pos + |s| ensures text[i] != '\n' {
        assert text[i] == s[i - pos];
      }
      var end := pos;
      while text[end] != '\n'
        invariant pos <= end <= pos + |s|
        decreases pos + |s| - end
      {
        end := end + 1;
      }
      r := text[pos..end];
      pos := end + 1;
    }

    /** A run of digits. */
    method ReadDigits(ghost s: string, ghost rest: string) returns (r: string)
      requires Rest(Line(s, rest)) && forall i :: 0 <= i < |s| ==> '0' <= s[i] <= '9'
      modifies this`pos
      ensures r == s && pos == old(pos) + |s| && Rest("\n" + rest)
    {
      RestAt(s, "\n" + rest);
      assert text[pos + |s|..][0] == '\n';
      forall i | pos <= i < pos + |s| ensures '0' <= text[i] <= '9' {
        assert text[i] == s[i - pos];
      }
      var end := pos;
      while '0' <= text[end] <= '9'
        invariant pos <= end <= pos + |s|
        decreases pos + |s| - end
      {
        end := end + 1;
      }
      r := text[pos..end];
      pos := end;
    }

    /** The white space after a number. */
    method SkipSpace(ghost rest: string)
      requires Rest("\n" + rest) && Firm(rest)
      modifies this`pos
      ensures Rest(rest)
    {
      ghost var start := pos;
      assert text[start..][1..] == rest && text[start..][0] == '\n';
      assert rest != "" ==> text[start + 1] == rest[0];
      while pos < |text| && (text[pos] == ' ' || '\t' <= text[pos] <= '\r')
        invariant start <= pos <= start + 1 <= |text|
        decreases |text| - pos
      {
        pos := pos + 1;
      }
      assert pos == start + 1;
    }

    /** fscanf(f, "%u\n"): a run of digits, and all the white space after it. */
    method ReadNumber(ghost n: nat, ghost rest: string) returns (v: nat)
      requires Rest(Number(n, rest)) && Firm(rest)
      modifies this`pos
      ensures v == n && Rest(rest)
    {
      var digits := ReadDigits(Digits(n), rest);
      ValueOfDigits(n);
      v := Value(digits);
      SkipSpace(rest);
    }

    method ReadFlag(ghost b: bool, ghost rest: string) returns (v: bool)
      requires Rest(Flag(b, rest)) && Firm(rest)
      modifies this`pos
      ensures v == b && Rest(rest)
    {
      var n := ReadNumber(if b then 1 else 0, rest);
      v := n != 0;
    }

    method ReadKeys(ghost ks: seq<Key>, ghost rest: string) returns (r: seq<Key>)
      requires Rest(Keys(ks, rest)) && SolidKeys(ks) && Firm(rest)
      modifies this`pos
      ensures r == ks && Rest(rest)
    {
      hide *;
      KeyLinesFirm(ks, rest);
      KeysIs(ks, rest);
      var n := ReadNumber(|ks|, KeyLines(ks, rest));
      r := [];
      assert ks[0..] == ks;
      while |r| < n
        invariant |r| <= n == |ks| && r == ks[..|r|] && Rest(KeyLines(ks[|r|..], rest))
        decreases n - |r|
      {
        ghost var i := |r|;
        KeyLinesStep(ks, i, rest);
        var id := ReadString(ks[i].id, Line(ks[i].value, KeyLines(ks[i + 1..], rest)));
        var value := ReadString(ks[i].value, KeyLines(ks[i + 1..], rest));
        r := r + [Key(id, value)];
      }
      NoKeyLines(ks, rest);
    }

    method ReadDevice(ghost d: Device, ghost rest: string) returns (r: Device)
      requires Rest(Line(d.id, Flag(d.signedBySsk, Keys(d.keys, rest)))) && Solid(d.id) && SolidKeys(d.keys)
      requires Firm(rest)
      modifies this`pos
      ensures r == d && Rest(rest)
    {
      KeyLinesFirm(d.keys, rest);
      NumberFirm(|d.keys|, KeyLines(d.keys, rest));
      var id := ReadString(d.id, Flag(d.signedBySsk, Keys(d.keys, rest)));
      var signed := ReadFlag(d.signedBySsk, Keys(d.keys, rest));
      var keys := ReadKeys(d.keys, rest);
      r := Device(id, signed, keys);
    }

    method ReadDevices(ghost ds: seq<Device>, ghost rest: string) returns (r: seq<Device>)
      requires Rest(Devices(ds, rest)) && SolidDevices(ds) && Firm(rest)
      modifies this`pos
      ensures r == ds && Rest(rest)
    {
      hide *;
      DeviceLinesFirm(ds, rest);
      DevicesIs(ds, rest);
      var n := ReadNumber(|ds|, DeviceLines(ds, rest));
      r := [];
      assert ds[0..] == ds;
      while |r| < n
        invariant |r| <= n == |ds| && r == ds[..|r|] && Rest(DeviceLines(ds[|r|..], rest))
        decreases n - |r|
      {
        ghost var i := |r|;
        SolidFrom(ds, i);
        DeviceLinesAt(ds, i, rest);
        DeviceLinesFirm(ds[i + 1..], rest);
        var d := ReadDevice(ds[i], DeviceLines(ds[i + 1..], rest));
        r := r + [d];
      }
      NoDeviceLines(ds, rest);
    }

    method ReadUser(ghost u: User, ghost rest: string) returns (r: User)
      requires Rest(UserLine(u, rest)) && SolidUser(u) && Firm(rest)
      modifies this`pos
      ensures r == u.(outdated := false, dontSave := false) && Rest(rest)
    {
      hide *;
      UserPlain(u, rest);
      ghost var e := Keys(u.selfSigningKeys, rest);
      ghost var d := Keys(u.masterKeys, e);
      ghost var c := Devices(u.devices, d);
      ghost var b := Flag(u.sskSigned, c);
      var id := ReadString(u.id, Flag(u.allDevices, b));
      var allDevices := ReadFlag(u.allDevices, b);
      var sskSigned := ReadFlag(u.sskSigned, c);
      var devices := ReadDevices(u.devices, d);
      var masterKeys := ReadKeys(u.masterKeys, e);
      var selfSigningKeys := ReadKeys(u.selfSigningKeys, rest);
      r := User(id, false, false, allDevices, sskSigned, devices, masterKeys, selfSigningKeys);
    }

    /** key_list_init, when there is a file. */
    method ReadUsers(ghost us: seq<User>) returns (r: seq<User>)
      requires Rest(File(us)) && SolidUsers(us)
      requires forall i {:trigger us[i]} :: 0 <= i < |us| ==> !us[i].outdated && !us[i].dontSave
      modifies this`pos
      ensures r == us
    {
      hide *;
      FirmEnd();
      UserLinesFirm(us, "");
      FileIs(us);
      var n := ReadNumber(|us|, UserLines(us, ""));
      r := [];
      assert us[0..] == us;
      while |r| < n
        invariant |r| <= n == |us| && r == us[..|r|] && Rest(UserLines(us[|r|..], ""))
        decreases n - |r|
      {
        ghost var i := |r|;
        SolidUsersFrom(us, i);
        UserLinesAt(us, i, "");
        UserLinesFirm(us[i + 1..], "");
        var u := ReadUser(us[i], UserLines(us[i + 1..], ""));
        r := r + [u];
      }
    }
  }

  lemma KeysIs(ks: seq<Key>, rest: string)
    ensures Keys(ks, rest) == Number(|ks|, KeyLines(ks, rest))
  {
  }

  lemma KeyLinesStep(ks: seq<Key>, i: nat, rest: string)
    requires i < |ks| && SolidKeys(ks)
    ensures KeyLines(ks[i..], rest) == Line(ks[i].id, Line(ks[i].value, KeyLines(ks[i + 1..], rest)))
    ensures ks[i].id != [] && '\n' !in ks[i].id && ks[i].value != [] && '\n' !in ks[i].value
  {
    assert ks[i..][0] == ks[i] && ks[i..][1..] == ks[i + 1..];
  }

  lemma NoKeyLines(ks: seq<Key>, rest: string)
    ensures KeyLines(ks[|ks|..], rest) == rest
  {
  }

  lemma DevicesIs(ds: seq<Device>, rest: string)
    ensures Devices(ds, rest) == Number(|ds|, DeviceLines(ds, rest))
  {
  }

  lemma DeviceLinesAt(ds: seq<Device>, i: nat, rest: string)
    requires i < |ds|
    ensures DeviceLines(ds[i..], rest) ==
            Line(ds[i].id, Flag(ds[i].signedBySsk, Keys(ds[i].keys, DeviceLines(ds[i + 1..], rest))))
  {
    assert ds[i..][0] == ds[i] && ds[i..][1..] == ds[i + 1..];
  }

  lemma NoDeviceLines(ds: seq<Device>, rest: string)
    ensures DeviceLines(ds[|ds|..], rest) == rest
  {
  }

  lemma SolidFrom(ds: seq<Device>, i: nat)
    requires SolidDevices(ds) && i < |ds|
    ensures Solid(ds[i].id) && SolidKeys(ds[i].keys) && SolidDevices(ds[i + 1..])
  {
  }

  lemma UserLinesAt(us: seq<User>, i: nat, rest: string)
    requires i < |us|
    ensures UserLines(us[i..], rest) == UserLine(us[i], UserLines(us[i + 1..], rest))
  {
    assert us[i..][0] == us[i] && us[i..][1..] == us[i + 1..];
  }

  lemma SolidUsersFrom(us: seq<User>, i: nat)
    requires SolidUsers(us) && i < |us|
    ensures SolidUser(us[i]) && SolidUsers(us[i + 1..])
  {
  }

  lemma FirmEnd()
    ensures Firm("")
  {
  }

  lemma UserPlain(u: User, rest: string)
    requires SolidUser(u) && Firm(rest)
    ensures UserLine(u, rest) == Line(u.id, Flag(u.allDevices, Flag(u.sskSigned,
              Devices(u.devices, Keys(u.masterKeys, Keys(u.selfSigningKeys, rest))))))
    ensures u.id != [] && '\n' !in u.id && SolidDevices(u.devices) && SolidKeys(u.masterKeys)
    ensures SolidKeys(u.selfSigningKeys)
    ensures Firm(Keys(u.selfSigningKeys, rest))
    ensures Firm(Keys(u.masterKeys, Keys(u.selfSigningKeys, rest)))
    ensures Firm(Devices(u.devices, Keys(u.masterKeys, Keys(u.selfSigningKeys, rest))))
    ensures Firm(Flag(u.sskSigned, Devices(u.devices, Keys(u.masterKeys, Keys(u.selfSigningKeys, rest)))))
  {
    ghost var e := Keys(u.selfSigningKeys, rest);
    ghost var d := Keys(u.masterKeys, e);
    ghost var c := Devices(u.devices, d);
    NumberFirm(|u.selfSigningKeys|, KeyLines(u.selfSigningKeys, rest));
    NumberFirm(|u.masterKeys|, KeyLines(u.masterKeys, e));
    NumberFirm(|u.devices|, DeviceLines(u.devices, d));
    NumberFirm(if u.sskSigned then 1 else 0, c);
  }

  lemma {:induction false} SavedSolid(us: seq<User>)
    requires SolidUsers(us)
    ensures SolidUsers(Saved(us))
    ensures forall i {:trigger Saved(us)[i]} :: 0 <= i < |Saved(us)| ==>
              !Saved(us)[i].outdated && !Saved(us)[i].dontSave
  {
    if us != [] {
      SavedSolid(us[1..]);
      assert SolidUser(us[0]);
      KeyedSolid(us[0].devices);
    }
  }

  lemma {:induction false} KeyedSolid(ds: seq<Device>)
    requires SolidDevices(ds)
    ensures SolidDevices(Keyed(ds))
  {
    if ds != [] {
      KeyedSolid(ds[1..]);
    }
  }

  /** A list that was saved is loaded again as it was, less what is not worth saving. */
  method SaveAndLoad(us: seq<User>) returns (text: string, loaded: seq<User>)
    requires SolidUsers(us)
    ensures text == File(Saved(us)) && loaded == Saved(us)
  {
    text := Save(us);
    SavedSolid(us);
    var r := new Reader(text);
    loaded := r.ReadUsers(Saved(us));
  }
}
