/** Verifying this device with another one of the same user by comparing emoji (Matrix Client-Server API, "Short
    Authentication String (SAS) verification"), as the thread of beeper_task.c does it: the user and the network each
    take it a step on. */
module Sas {
  import opened Basics
  import opened KeyList

  // ---------- the emoji ----------

  /** Bytes read as one number, the first the most significant. */
  function BigEndian(bytes: seq<nat>, base: nat): nat
  {
    if bytes == [] then 0 else base * BigEndian(bytes[..|bytes| - 1], base) + bytes[|bytes| - 1]
  }

  /** Seven numbers below 64 that make the first 42 of the 48 bits. */
  ghost predicate Emoji(bytes: seq<nat>, ids: seq<nat>)
  {
    |ids| == 7 && (forall i :: 0 <= i < 7 ==> ids[i] < 64) && BigEndian(ids, 64) == BigEndian(bytes, 256) / 64
  }

  lemma BigEndianMore(s: seq<nat>, x: nat, base: nat)
    ensures BigEndian(s + [x], base) == base * BigEndian(s, base) + x
  {
    assert (s + [x])[..|s|] == s;
  }

  lemma LastDigit(q: nat, d: nat)
    requires d < 64
    ensures (64 * q + d) % 64 == d && (64 * q + d) / 64 == q
  {
  }

  /** The number is all there is to the digits. */
  lemma {:induction false} SameDigits(a: seq<nat>, b: seq<nat>)
    requires |a| == |b| && BigEndian(a, 64) == BigEndian(b, 64)
    requires forall i :: 0 <= i < |a| ==> a[i] < 64 && b[i] < 64
    ensures a == b
  {
    if a != [] {
      var m := |a| - 1;
      LastDigit(BigEndian(a[..m], 64), a[m]);
      LastDigit(BigEndian(b[..m], 64), b[m]);
      SameDigits(a[..m], b[..m]);
      assert a == a[..m] + [a[m]] && b == b[..m] + [b[m]];
    }
  }

  /** Two devices with the same bytes show the same emoji. */
  lemma OneEmoji(bytes: seq<nat>, a: seq<nat>, b: seq<nat>)
    requires Emoji(bytes, a) && Emoji(bytes, b)
    ensures a == b
  {
    SameDigits(a, b);
  }

  function Pow64(k: nat): (p: nat)
    ensures p > 0
  {
    if k == 0 then 1 else 64 * Pow64(k - 1)
  }

  lemma {:induction false} BigEndianFirst(x: nat, s: seq<nat>)
    ensures BigEndian([x] + s, 64) == x * Pow64(|s|) + BigEndian(s, 64)
  {
    if s == [] {
      assert [x] + s == [] + [x];
      BigEndianMore([], x, 64);
    } else {
      var n, y := |s| - 1, s[|s| - 1];
      assert [x] + s == ([x] + s[..n]) + [y];
      BigEndianMore([x] + s[..n], y, 64);
      BigEndianFirst(x, s[..n]);
      assert 64 * (x * Pow64(n)) == x * Pow64(n + 1);
    }
  }

  /** Taking six bits off: q stands for what has not been written yet. */
  lemma TakeSix(q: nat, s: seq<nat>)
    ensures q * Pow64(|s|) + BigEndian(s, 64) == q / 64 * Pow64(|s| + 1) + BigEndian([q % 64] + s, 64)
  {
    BigEndianFirst(q % 64, s);
    var p := Pow64(|s|);
    Distribute(q, q / 64, q % 64, p);
  }

  lemma Distribute(q: nat, a: nat, b: nat, p: nat)
    requires q == 64 * a + b
    ensures q * p == a * (64 * p) + b * p
  {
    assert (64 * a + b) * p == 64 * (a * p) + b * p;
    assert a * (64 * p) == 64 * (a * p);
  }

  /** The bytes, put together. */
  method Together(bytes: seq<nat>) returns (n: nat)
    requires |bytes| == 6 && forall i :: 0 <= i < 6 ==> bytes[i] < 256
    ensures n == BigEndian(bytes, 256) < 0x1_0000_0000_0000
  {
    n := 0;
    var i := 0;
    ghost var limit := 1;
    while i < 6
      invariant i <= 6 && n == BigEndian(bytes[..i], 256) && n < limit
      invariant limit == [1, 0x100, 0x1_0000, 0x100_0000, 0x1_0000_0000, 0x100_0000_0000, 0x1_0000_0000_0000][i]
    {
      BigEndianMore(bytes[..i], bytes[i], 256);
      assert bytes[..i + 1] == bytes[..i] + [bytes[i]];
      n := n * 256 + bytes[i];
      i := i + 1;
      limit := limit * 256;
    }
    assert bytes[..6] == bytes;
  }

  /** The emoji of six bytes, the last first. */
  method EmojiIds(bytes: seq<nat>) returns (ids: seq<nat>)
    requires |bytes| == 6 && forall i :: 0 <= i < 6 ==> bytes[i] < 256
    ensures Emoji(bytes, ids)
  {
    var n := Together(bytes);
    var a := new nat[7];
    var i := 6;
    ghost var m := n / 64;
    assert Pow64(7) == 0x400_0000_0000;
    assert a[7..] == [] && BigEndian([], 64) == 0;
    while i >= 0
      invariant -1 <= i <= 6 && 0 <= n / 64 < Pow64(i + 1)
      invariant m == n / 64 * Pow64(6 - i) + BigEndian(a[i + 1..], 64)
      invariant forall k :: i < k < 7 ==> a[k] < 64
    {
      TakeSix(n / 64, a[i + 1..]);
      n := n / 64;
      a[i] := n % 64;
      assert a[i..] == [n % 64] + a[i + 1..];
      i := i - 1;
    }
    assert n / 64 == 0 && 0 * Pow64(7) == 0;
    ids := a[..];
    assert a[0..] == ids;
  }

  function SixBits(n: nat, k: nat): (s: seq<nat>)
    ensures |s| == k && forall i :: 0 <= i < k ==> s[i] < 64
  {
    if k == 0 then [] else SixBits(n / 64, k - 1) + [n % 64]
  }

  function EmojiOf(bytes: seq<nat>): seq<nat>
  {
    SixBits(BigEndian(bytes, 256) / 64, 7)
  }

  lemma {:induction false} SixBitsMake(n: nat, k: nat)
    requires n < Pow64(k)
    ensures BigEndian(SixBits(n, k), 64) == n
  {
    if k > 0 {
      SixBitsMake(n / 64, k - 1);
      BigEndianMore(SixBits(n / 64, k - 1), n % 64, 64);
    }
  }

  /** Any emoji that fit the bytes are these. */
  lemma EmojiOfIs(bytes: seq<nat>, ids: seq<nat>)
    requires BigEndian(bytes, 256) < 0x1_0000_0000_0000 && Emoji(bytes, ids)
    ensures ids == EmojiOf(bytes)
  {
    assert Pow64(7) == 0x400_0000_0000;
    SixBitsMake(BigEndian(bytes, 256) / 64, 7);
    SameDigits(ids, EmojiOf(bytes));
  }

  // ---------- what is abstract ----------

  /** What the cryptographic library computes. */
  datatype Olm = Olm(pubkey: nat -> string, goodKey: string -> bool, agree: (nat, string) -> string,
                     byte: (string, string, nat) -> nat, mac: (string, string, string) -> string, sha: string -> string)
  {
    function Bytes(secret: string, info: string): (bytes: seq<nat>)
      ensures |bytes| == 6 && forall i :: 0 <= i < 6 ==> bytes[i] < 256
    {
      seq(6, i requires 0 <= i < 6 => byte(secret, info, i) % 256)
    }
  }

  /** This device, and the user's account that it is on. */
  datatype Own = Own(user: string, device: string, identityKey: string, verified: bool, olm: Olm)

  // ---------- what goes over the network ----------

  datatype Mac = Mac(keys: string, macs: seq<Key>)

  datatype Message =
    | Ready(tx: string)
    | Accept(tx: string, commitment: string)
    | PubKey(tx: string, key: string)
    | MacIs(tx: string, mac: Mac)
    | Done(tx: string)

  datatype Offers = Offers(hashes: seq<string>, agreements: seq<string>, codes: seq<string>, strings: seq<string>)
  {
    function At(i: nat): seq<string>
      requires i < 4
    {
      if i == 0 then hashes else if i == 1 then agreements else if i == 2 then codes else strings
    }
  }

  const REQUIRED: seq<string> := ["sha256", "curve25519-hkdf-sha256", "hkdf-hmac-sha256.v2", "emoji"]

  predicate Suits(o: Offers)
  {
    && "sha256" in o.hashes
    && "curve25519-hkdf-sha256" in o.agreements
    && "hkdf-hmac-sha256.v2" in o.codes
    && "emoji" in o.strings
  }

  /** Sent along with what the user says and with what the peer proves is what the key list knows of the user then. */
  datatype Event =
    | Matches(user: User)
    | RequestIn(sender: string, methods: seq<string>, timestamp: real, now: real, tx: string, from: string)
    | StartIn(sender: string, from: string, tx: string, meth: string, offers: Offers, canonical: string, random: nat)
    | KeyIn(sender: string, tx: string, key: string)
    | MacIn(sender: string, tx: string, mac: Mac, user: User)
    | DoneIn(sender: string, tx: string)

  datatype News = SasEmoji(ids: seq<nat>) | SasComplete

  // ---------- proving a key ----------

  function MacInfo(user: string, from: string, to: string, tx: string, what: string): string
  {
    "MATRIX_KEY_VERIFICATION_MAC" + user + from + user + to + tx + what
  }

  function KeyIds(a: string, b: string): string
  {
    if StrLess(a, b) then a + "," + b else b + "," + a
  }

  lemma KeyIdsEitherWay(a: string, b: string)
    ensures KeyIds(a, b) == KeyIds(b, a)
  {
    StrLessTotal(a, b);
    if StrLess(a, b) && StrLess(b, a) {
      StrLessTransitive(a, b, a);
      StrLessIrreflexive(a);
    }
  }

  /** What one device of a user sends another to prove two keys, under a transaction. */
  function Sealed(olm: Olm, secret: string, user: string, from: string, to: string, tx: string, a: Key, b: Key): Mac
  {
    Mac(olm.mac(secret, KeyIds(a.id, b.id), MacInfo(user, from, to, tx, "KEY_IDS")),
        [Key(a.id, olm.mac(secret, a.value, MacInfo(user, from, to, tx, a.id))),
         Key(b.id, olm.mac(secret, b.value, MacInfo(user, from, to, tx, b.id)))])
  }

  function DeviceOf(ds: seq<Device>, id: string): Option<Device>
  {
    if ds == [] then None else if ds[0].id == id then Some(ds[0]) else DeviceOf(ds[1..], id)
  }

  function KeyOf(ks: seq<Key>, id: string): Option<Key>
  {
    if ks == [] then None else if ks[0].id == id then Some(ks[0]) else KeyOf(ks[1..], id)
  }

  /** The key list has one master key, and has the device, signed for, with these keys. */
  ghost predicate Known(user: User, from: string, master: Key, deviceKeys: seq<Key>)
  {
    && user.masterKeys == [master] && user.sskSigned
    && var d := DeviceOf(user.devices, from); d.Some? && d.value.signedBySsk && d.value.keys == deviceKeys != []
  }

  /** The peer has proved one master key and one key of its device, as the key list has them. */
  ghost predicate Proves(own: Own, secret: string, from: string, tx: string, user: User, c: Mac)
  {
    exists master, ks, k: Key ::
      && Known(user, from, master, ks)
      && KeyOf(ks, k.id) == Some(k)
      && (c == Sealed(own.olm, secret, own.user, from, own.device, tx, master, k) ||
          (k.id != master.id && c == Sealed(own.olm, secret, own.user, from, own.device, tx, k, master)))
  }

  /** The value of a key, under its id, is sealed. */
  predicate Fits(own: Own, secret: string, from: string, tx: string, value: string, entry: Key)
  {
    entry.value == own.olm.mac(secret, value, MacInfo(own.user, from, own.device, tx, entry.id))
  }

  predicate FitsDevice(own: Own, secret: string, from: string, tx: string, ks: seq<Key>, entry: Key)
  {
    var k := KeyOf(ks, entry.id); k.Some? && Fits(own, secret, from, tx, k.value.value, entry)
  }

  predicate FitsMaster(own: Own, secret: string, from: string, tx: string, master: Key, entry: Key)
  {
    entry.id == master.id && Fits(own, secret, from, tx, master.value, entry)
  }

  /** The two entries, one after the other. */
  predicate Passes(own: Own, secret: string, from: string, tx: string, master: Key, ks: seq<Key>, c: Mac)
  {
    && |c.macs| == 2
    && c.keys == own.olm.mac(secret, KeyIds(c.macs[0].id, c.macs[1].id),
                             MacInfo(own.user, from, own.device, tx, "KEY_IDS"))
    && if c.macs[0].id == master.id
       then FitsMaster(own, secret, from, tx, master, c.macs[0]) && FitsDevice(own, secret, from, tx, ks, c.macs[1])
       else FitsDevice(own, secret, from, tx, ks, c.macs[0]) && FitsMaster(own, secret, from, tx, master, c.macs[1])
  }

  lemma {:induction false} KeyOfHasId(ks: seq<Key>, id: string)
    ensures KeyOf(ks, id).Some? ==> KeyOf(ks, id).value.id == id
  {
    if ks != [] {
      KeyOfHasId(ks[1..], id);
    }
  }

  lemma SealedPasses(own: Own, secret: string, from: string, tx: string, master: Key, ks: seq<Key>, k: Key, c: Mac)
    requires KeyOf(ks, k.id) == Some(k)
    requires c == Sealed(own.olm, secret, own.user, from, own.device, tx, master, k) ||
             (k.id != master.id && c == Sealed(own.olm, secret, own.user, from, own.device, tx, k, master))
    ensures Passes(own, secret, from, tx, master, ks, c)
  {
  }

  lemma PassesIsSealed(own: Own, secret: string, from: string, tx: string, master: Key, ks: seq<Key>, c: Mac)
    returns (k: Key)
    requires Passes(own, secret, from, tx, master, ks, c)
    ensures KeyOf(ks, k.id) == Some(k)
    ensures c == Sealed(own.olm, secret, own.user, from, own.device, tx, master, k) ||
            (k.id != master.id && c == Sealed(own.olm, secret, own.user, from, own.device, tx, k, master))
  {
    var d := if c.macs[0].id == master.id then c.macs[1] else c.macs[0];
    KeyOfHasId(ks, d.id);
    k := KeyOf(ks, d.id).value;
    assert c.macs == [c.macs[0], c.macs[1]];
  }

  lemma ProvesIs(own: Own, secret: string, from: string, tx: string, user: User, master: Key, ks: seq<Key>, c: Mac)
    requires Known(user, from, master, ks)
    ensures Proves(own, secret, from, tx, user, c) <==> Passes(own, secret, from, tx, master, ks, c)
  {
    if Proves(own, secret, from, tx, user, c) {
      var m, js, k: Key :|
        && Known(user, from, m, js)
        && KeyOf(js, k.id) == Some(k)
        && (c == Sealed(own.olm, secret, own.user, from, own.device, tx, m, k) ||
            (k.id != m.id && c == Sealed(own.olm, secret, own.user, from, own.device, tx, k, m)));
      assert m == user.masterKeys[0] == master;
      SealedPasses(own, secret, from, tx, master, ks, k, c);
    }
    if Passes(own, secret, from, tx, master, ks, c) {
      var k := PassesIsSealed(own, secret, from, tx, master, ks, c);
    }
  }

  method FindKey(ks: seq<Key>, id: string) returns (k: Option<Key>)
    ensures k == KeyOf(ks, id)
  {
    k := None;
    var j := 0;
    assert ks[0..] == ks;
    while j < |ks|
      invariant 0 <= j <= |ks| && KeyOf(ks, id) == KeyOf(ks[j..], id)
    {
      assert ks[j..][0] == ks[j] && ks[j..][1..] == ks[j + 1..];
      if ks[j].id == id {
        return Some(ks[j]);
      }
      j := j + 1;
    }
  }

  method FindDevice(ds: seq<Device>, id: string) returns (d: Option<Device>)
    ensures d == DeviceOf(ds, id)
  {
    d := None;
    var j := 0;
    assert ds[0..] == ds;
    while j < |ds|
      invariant 0 <= j <= |ds| && DeviceOf(ds, id) == DeviceOf(ds[j..], id)
    {
      assert ds[j..][0] == ds[j] && ds[j..][1..] == ds[j + 1..];
      if ds[j].id == id {
        return Some(ds[j]);
      }
      j := j + 1;
    }
  }

  /** sas_process_peer_mac_and_send_done, up to the sending; it does not return where this is false. */
  method VerifyPeer(own: Own, secret: string, from: string, tx: string, user: User, c: Mac) returns (ok: bool)
    ensures ok <==> Proves(own, secret, from, tx, user, c)
  {
    var device := FindDevice(user.devices, from);
    if |user.masterKeys| != 1 || !user.sskSigned || device.None? || |device.value.keys| == 0
       || !device.value.signedBySsk {
      return false;
    }
    ok := VerifyEntries(own, secret, from, tx, user.masterKeys[0], device.value.keys, c);
    assert user.masterKeys == [user.masterKeys[0]];
    ProvesIs(own, secret, from, tx, user, user.masterKeys[0], device.value.keys, c);
  }

  method VerifyEntries(own: Own, secret: string, from: string, tx: string, master: Key, ks: seq<Key>, c: Mac)
    returns (ok: bool)
    ensures ok <==> Passes(own, secret, from, tx, master, ks, c)
  {
    if |c.macs| != 2 {
      return false;
    }
    var ids := KeyIds(c.macs[0].id, c.macs[1].id);
    if c.keys != own.olm.mac(secret, ids, MacInfo(own.user, from, own.device, tx, "KEY_IDS")) {
      return false;
    }
    var didMaster, didDevice := false, false;
    var i := 0;
    while i < 2
      invariant 0 <= i <= 2
      invariant i == 0 ==> !didMaster && !didDevice
      invariant i == 1 && c.macs[0].id == master.id ==>
                  didMaster && !didDevice && FitsMaster(own, secret, from, tx, master, c.macs[0])
      invariant i == 1 && c.macs[0].id != master.id ==>
                  !didMaster && didDevice && FitsDevice(own, secret, from, tx, ks, c.macs[0])
      invariant i == 2 ==> didMaster && didDevice && Passes(own, secret, from, tx, master, ks, c)
    {
      var keyVal: Option<string> := None;
      if !didMaster {
        if c.macs[i].id == master.id {
          didMaster := true;
          keyVal := Some(master.value);
        }
      }
      if !didDevice && keyVal.None? {
        var k := FindKey(ks, c.macs[i].id);
        if k.Some? {
          didDevice := true;
          keyVal := Some(k.value.value);
        }
      }
      if keyVal.None? {
        return false;
      }
      if c.macs[i].value != own.olm.mac(secret, keyVal.value, MacInfo(own.user, from, own.device, tx, c.macs[i].id)) {
        return false;
      }
      i := i + 1;
    }
    ok := true;
  }
}
