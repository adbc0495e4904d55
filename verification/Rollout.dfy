/** Staged rollout: the server's reference (naming.py) and the client's copy (rollout.rs). */
module Rollout {
  import opened Text

  type Byte = b: nat | b < 256

  const PREFIXES: nat := 0x1_0000_0000

  /** The four leading bytes of a SHA-256 digest. */
  datatype Leading = Leading(b0: Byte, b1: Byte, b2: Byte, b3: Byte)

  /** What the hash makes of a text: any function at all. */
  type Hash = string -> Leading

  /** `int.from_bytes(digest[:4], "big")`. */
  function FromBytes(bytes: seq<Byte>): nat {
    if bytes == [] then 0 else 256 * FromBytes(bytes[..|bytes| - 1]) + bytes[|bytes| - 1]
  }

  /** `u32::from_be_bytes`. */
  function FromBeBytes(l: Leading): (n: nat)
    ensures n < PREFIXES
  {
    l.b0 * 0x100_0000 + l.b1 * 0x1_0000 + l.b2 * 0x100 + l.b3
  }

  function FirstFour(l: Leading): seq<Byte> {
    [l.b0, l.b1, l.b2, l.b3]
  }

  lemma ReadAlike(l: Leading)
    ensures FromBytes(FirstFour(l)) == FromBeBytes(l)
  {
    var bytes := FirstFour(l);
    assert bytes[..3] == [l.b0, l.b1, l.b2] && bytes[..3][..2] == [l.b0, l.b1] && bytes[..3][..2][..1] == [l.b0];
    assert FromBytes([l.b0]) == l.b0 by { assert [l.b0][..0] == []; }
    assert FromBytes([l.b0, l.b1]) == 256 * l.b0 + l.b1;
    assert FromBytes([l.b0, l.b1, l.b2]) == 256 * (256 * l.b0 + l.b1) + l.b2;
  }

  /** The prefix a 32-bit number is the reading of. */
  function PrefixOf(n: nat): Leading
    requires n < PREFIXES
  {
    var q1, q2 := n / 256, n / 256 / 256;
    Leading(q2 / 256, q2 % 256, q1 % 256, n % 256)
  }

  lemma DivideOut(high: nat, low: Byte)
    ensures (256 * high + low) / 256 == high && (256 * high + low) % 256 == low
  {
  }

  /** Every 32-bit number is the reading of exactly one prefix, so counting numbers counts prefixes. */
  lemma OnePrefixEach(n: nat, l: Leading)
    requires n < PREFIXES
    ensures FromBeBytes(l) == n <==> l == PrefixOf(n)
  {
    if FromBeBytes(l) == n {
      var h1 := 256 * l.b0 + l.b1;
      var h2 := 256 * h1 + l.b2;
      assert n == 256 * h2 + l.b3;
      DivideOut(h2, l.b3);
      DivideOut(h1, l.b2);
      DivideOut(l.b0, l.b1);
    }
  }

  /** naming.py: `None` is its ValueError. */
  function InRolloutServer(sha: Hash, installId: string, appId: string, pct: int): Option<bool> {
    if !(0 <= pct <= 100) then None
    else if pct == 0 then Some(false)
    else if pct == 100 then Some(true)
    else Some(FromBytes(FirstFour(sha(installId + ":" + appId))) % 100 < pct)
  }

  /** rollout.rs: the same text, fed to the hasher in three updates. */
  function InRolloutClient(sha: Hash, installId: string, appId: string, pct: nat): Option<bool> {
    if pct > 100 then None
    else if pct == 0 then Some(false)
    else if pct == 100 then Some(true)
    else
      var hasher := Update(Update(Update([], installId), ":"), appId);
      var bucket := FromBeBytes(sha(hasher)) % 100;
      Some(bucket < pct)
  }

  function Update(hasher: string, data: string): string {
    hasher + data
  }

  /** The two implementations agree on every hash, install, app and percentage. */
  lemma ImplementationsAgree(sha: Hash, installId: string, appId: string, pct: nat)
    ensures InRolloutClient(sha, installId, appId, pct) == InRolloutServer(sha, installId, appId, pct)
  {
    assert Update(Update(Update([], installId), ":"), appId) == installId + ":" + appId;
    ReadAlike(sha(installId + ":" + appId));
  }

  /**
   One formula for every percentage, the two ends included: the four bytes after hashing install and app, read
   most significant first, fall in the first `pct` of a hundred. Outside 0 to 100 both refuse.
   */
  lemma SelectsByLeadingBytes(sha: Hash, installId: string, appId: string, pct: nat)
    ensures var l := sha(installId + ":" + appId);
            var n: nat := 16777216 * l.b0 + 65536 * l.b1 + 256 * l.b2 + l.b3;
            && InRolloutServer(sha, installId, appId, pct) == (if pct <= 100 then Some(n % 100 < pct) else None)
            && InRolloutClient(sha, installId, appId, pct) == InRolloutServer(sha, installId, appId, pct)
  {
    ImplementationsAgree(sha, installId, appId, pct);
    ReadAlike(sha(installId + ":" + appId));
    hide FromBytes;
  }

  /** Raising the percentage never drops an install that was inside. */
  lemma SelectionIsMonotone(sha: Hash, installId: string, appId: string, p: nat, q: nat)
    requires p <= q <= 100
    ensures InRolloutServer(sha, installId, appId, p) == Some(true)
        ==> InRolloutServer(sha, installId, appId, q) == Some(true)
  {
    assert FromBytes(FirstFour(sha(installId + ":" + appId))) % 100 < 100;
  }

  // -------------------------------------------------------- size of the slice

  /** The prefixes below `n` that a percentage selects. */
  ghost function Slice(n: nat, pct: nat): set<nat> {
    set x: nat | x < n && x % 100 < pct
  }

  /** Whole hundreds contribute `pct` each, the rest at most that many. */
  function Count(n: nat, pct: nat): nat {
    n / 100 * pct + if n % 100 < pct then n % 100 else pct
  }

  lemma CountStep(m: nat, pct: nat)
    requires pct <= 100
    ensures Count(m + 1, pct) == Count(m, pct) + if m % 100 < pct then 1 else 0
  {
    var n := m + 1;
    if m % 100 == 99 {
      assert n % 100 == 0 && n / 100 == m / 100 + 1;
      assert (m / 100 + 1) * pct == m / 100 * pct + pct;
    } else {
      assert n % 100 == m % 100 + 1 && n / 100 == m / 100;
    }
  }

  lemma SliceStep(m: nat, pct: nat)
    ensures Slice(m + 1, pct) == Slice(m, pct) + if m % 100 < pct then {m} else {}
    ensures m !in Slice(m, pct) && Slice(0, pct) == {}
  {
  }

  lemma {:induction false} SliceSize(n: nat, pct: nat)
    requires pct <= 100
    ensures |Slice(n, pct)| == Count(n, pct)
  {
    SliceStep(if n == 0 then 0 else n - 1, pct);
    if n > 0 {
      hide Slice, Count;
      SliceSize(n - 1, pct);
      CountStep(n - 1, pct);
    }
  }

  /** The hash that puts every text at one prefix. */
  ghost function HashTo(n: nat): Hash
    requires n < PREFIXES
  {
    _ => PrefixOf(n)
  }

  /**
   Of all 2^32 prefixes a hash may begin with, the server and the client each select exactly this many;
   within four of `pct` percent. At 0 that is none and at 100 everybody.
   */
  lemma ExactSlice(installId: string, appId: string, pct: nat)
    requires pct <= 100
    ensures var server := set n: nat | n < 0x1_0000_0000
                                       && InRolloutServer(HashTo(n), installId, appId, pct) == Some(true);
            var client := set n: nat | n < 0x1_0000_0000
                                       && InRolloutClient(HashTo(n), installId, appId, pct) == Some(true);
            && |server| == |client| == 42949672 * pct + (if pct < 96 then pct else 96)
            && -400 < 100 * |server| - 0x1_0000_0000 * pct < 400
    ensures pct == 100 ==> 42949672 * pct + 96 == 0x1_0000_0000
  {
    SliceSize(PREFIXES, pct);
    assert PREFIXES / 100 == 42949672 && PREFIXES % 100 == 96;
    forall n: nat | n < PREFIXES
      ensures InRolloutServer(HashTo(n), installId, appId, pct) == Some(n % 100 < pct)
      ensures InRolloutClient(HashTo(n), installId, appId, pct) == Some(n % 100 < pct)
    {
      SelectsByLeadingBytes(HashTo(n), installId, appId, pct);
      OnePrefixEach(n, PrefixOf(n));
    }
    hide InRolloutServer, InRolloutClient, HashTo;
    var slice := Slice(PREFIXES, pct);
    assert (set n: nat | n < PREFIXES && InRolloutServer(HashTo(n), installId, appId, pct) == Some(true)) == slice;
    assert (set n: nat | n < PREFIXES && InRolloutClient(HashTo(n), installId, appId, pct) == Some(true)) == slice;
  }
}
