/** The bodies of PreDelete and Delete scatters: little-endian times, then a raw inode. */
module DeleteBodies {
  import opened Names
  import opened Words

  function Power256(k: nat): nat {
    if k == 0 then 1 else 256 * Power256(k - 1)
  }

  function LittleEndian(n: nat, k: nat): (b: seq<Byte>)
    ensures |b| == k
  {
    if k == 0 then [] else [n % 256] + LittleEndian(n / 256, k - 1)
  }

  function FromLittleEndian(b: seq<Byte>): nat {
    if b == [] then 0 else b[0] + 256 * FromLittleEndian(b[1..])
  }

  /** Two's complement. */
  function BitsOf(x: I64): nat {
    if x < 0 then (x as int) + U64_MAX + 1 else x
  }

  function FromBits(n: nat): I64
    requires n <= U64_MAX
  {
    if n <= I64_MAX then n else (n as int) - U64_MAX - 1
  }

  lemma {:induction false} LittleEndianReadsBack(n: nat, k: nat)
    requires n < Power256(k)
    ensures FromLittleEndian(LittleEndian(n, k)) == n
  {
    if k > 0 {
      LittleEndianReadsBack(n / 256, k - 1);
      assert LittleEndian(n, k)[1..] == LittleEndian(n / 256, k - 1);
    }
  }

  lemma {:induction false} FromLittleEndianBound(b: seq<Byte>)
    ensures FromLittleEndian(b) < Power256(|b|)
  {
    if b != [] {
      FromLittleEndianBound(b[1..]);
    }
  }

  /** Place value, the last byte counting the highest power of 256. */
  function PlaceValue(b: seq<Byte>): nat {
    if b == [] then 0 else
      var m := |b| - 1;
      PlaceValue(b[..m]) + b[m] * Power256(m)
  }

  lemma {:induction false} LittleEndianPlaces(b: seq<Byte>)
    ensures PlaceValue(b) == FromLittleEndian(b)
  {
    if b != [] {
      LittleEndianPlaces(b[1..]);
      PlaceValueShifts(b);
    }
  }

  lemma {:induction false} PlaceValueShifts(b: seq<Byte>)
    requires b != []
    ensures PlaceValue(b) == b[0] + 256 * PlaceValue(b[1..])
  {
    var m := |b| - 1;
    if m > 0 {
      PlaceValueShifts(b[..m]);
      assert b[1..][..m - 1] == b[..m][1..];
      var x, p := b[m], Power256(m - 1);
      assert x * (256 * p) == 256 * (x * p);
    } else {
      assert b[..0] == [] && b[1..] == [];
    }
  }

  lemma EightBytes()
    ensures Power256(8) == U64_MAX + 1
  {
    assert Power256(4) == 0x1_0000_0000;
    assert Power256(8) == 256 * 256 * 256 * 256 * Power256(4);
  }

  function TimeBytes(x: I64): (b: seq<Byte>)
    ensures |b| == 8
  {
    LittleEndian(BitsOf(x), 8)
  }

  function TimeOf(b: seq<Byte>): I64
    requires |b| == 8
  {
    FromLittleEndianBound(b);
    EightBytes();
    FromBits(FromLittleEndian(b))
  }

  lemma TimeReadsBack(x: I64)
    ensures TimeOf(TimeBytes(x)) == x
  {
    EightBytes();
    LittleEndianReadsBack(BitsOf(x), 8);
  }

  /** Eight bytes of a body hold a time: its two's complement, least byte first. */
  ghost predicate HoldsTime(b: seq<Byte>, at: nat, x: I64) {
    && at + 8 <= |b|
    && PlaceValue(b[at..at + 8]) == if x < 0 then x as int + 0x1_0000_0000_0000_0000 else x as int
  }

  lemma TimeIsHeld(x: I64)
    ensures HoldsTime(TimeBytes(x), 0, x)
  {
    EightBytes();
    LittleEndianReadsBack(BitsOf(x), 8);
    LittleEndianPlaces(TimeBytes(x));
    assert TimeBytes(x)[0..8] == TimeBytes(x);
  }

  // ----- PreDelete -----

  datatype PreDelete = PreDelete(isDir: bool, retention: I64)

  function PreDeleteBody(p: PreDelete): seq<Byte> {
    [if p.isDir then 1 else 0] + TimeBytes(p.retention)
  }

  /** Short bodies are tolerated: what is missing is false, or no retention. */
  function ParsePreDelete(body: seq<Byte>): PreDelete {
    PreDelete(|body| > 0 && body[0] != 0, if |body| >= 9 then TimeOf(body[1..9]) else 0)
  }

  lemma PreDeleteReadsBack(p: PreDelete, extra: seq<Byte>)
    ensures ParsePreDelete(PreDeleteBody(p) + extra) == p
  {
    assert (PreDeleteBody(p) + extra)[1..9] == TimeBytes(p.retention);
    TimeReadsBack(p.retention);
  }

  /** The flag, then the deadline, and what becomes of a body cut short. */
  lemma PreDeleteLayout(p: PreDelete, n: nat)
    requires n <= 9
    ensures var b := PreDeleteBody(p);
      && |b| == 9 && b[0] == (if p.isDir then 1 else 0) && HoldsTime(b, 1, p.retention)
      && ParsePreDelete(b[..n]) == PreDelete(n > 0 && p.isDir, if n == 9 then p.retention else 0)
  {
    TimeIsHeld(p.retention);
    var b := PreDeleteBody(p);
    assert b[1..9] == TimeBytes(p.retention)[0..8];
    if n == 9 {
      assert b[..n] == b + [];
      PreDeleteReadsBack(p, []);
    }
  }

  // ----- tombstones -----

  const HEADER_SIZE := 16

  datatype Tombstone = Tombstone(deletedAt: I64, retentionUntil: I64, inode: seq<Byte>)

  function TombstoneBody(t: Tombstone): seq<Byte> {
    TimeBytes(t.deletedAt) + TimeBytes(t.retentionUntil) + t.inode
  }

  /** Anything shorter than the header is InvalidData. */
  function ParseTombstone(body: seq<Byte>): Option<Tombstone> {
    if |body| < HEADER_SIZE then None
    else Some(Tombstone(TimeOf(body[..8]), TimeOf(body[8..16]), body[16..]))
  }

  lemma TombstoneReadsBack(t: Tombstone)
    ensures ParseTombstone(TombstoneBody(t)) == Some(t)
  {
    var b := TombstoneBody(t);
    assert b[..8] == TimeBytes(t.deletedAt);
    assert b[8..16] == TimeBytes(t.retentionUntil);
    assert b[16..] == t.inode;
    TimeReadsBack(t.deletedAt);
    TimeReadsBack(t.retentionUntil);
  }

  /** Deletion time, deadline, inode; a body parses exactly when the header is all there. */
  lemma TombstoneLayout(t: Tombstone, body: seq<Byte>)
    ensures var b := TombstoneBody(t);
      |b| == 16 + |t.inode| && HoldsTime(b, 0, t.deletedAt) && HoldsTime(b, 8, t.retentionUntil) && b[16..] == t.inode
    ensures ParseTombstone(body).Some? <==> |body| >= 16
  {
    TimeIsHeld(t.deletedAt);
    TimeIsHeld(t.retentionUntil);
    var b := TombstoneBody(t);
    assert b[0..8] == TimeBytes(t.deletedAt)[0..8] && b[8..16] == TimeBytes(t.retentionUntil)[0..8];
  }
}
