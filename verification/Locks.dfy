/** The byte-range lock engine: what each operation does to the list of entries. */
module Locks {
  import opened Names
  import opened Words

  type Owner = string

  datatype Mode = Read | Write

  datatype LockEntry = LockEntry(owner: Owner, mode: Mode, start: U64, end: U64, pid: U32, expire: I64)

  datatype Request = Lock(mode: Mode) | Unlock

  datatype Conflict = Conflict(start: U64, end: U64, mode: Mode, pid: U32)

  /** A byte range, both ends included; nothing keeps `start` at or below `end`. */
  datatype Range = Range(start: U64, end: U64)

  predicate Overlaps(a: Range, b: Range) {
    a.start <= b.end && b.start <= a.end
  }

  function RangeOf(e: LockEntry): Range {
    Range(e.start, e.end)
  }

  /** Another owner's unexpired entry that excludes the request. */
  predicate Blocks(e: LockEntry, owner: Owner, mode: Mode, r: Range, now: I64) {
    e.expire > now && e.owner != owner && Overlaps(r, RangeOf(e)) && (mode.Write? || e.mode.Write?)
  }

  /** The same, spelled out: live, another owner's, sharing the range, and one of the two writing. */
  predicate InTheWay(e: LockEntry, owner: Owner, mode: Mode, r: Range, now: I64) {
    && e.expire > now && e.owner != owner
    && r.start <= e.end && e.start <= r.end
    && (mode == Write || e.mode == Write)
  }

  /** The first entry in the way is at `i`, and the caller is told its range, mode and pid. */
  ghost predicate Reports(es: seq<LockEntry>, owner: Owner, mode: Mode, r: Range, now: I64, c: Conflict, i: int) {
    && 0 <= i < |es| && InTheWay(es[i], owner, mode, r, now)
    && (forall j :: 0 <= j < i ==> !InTheWay(es[j], owner, mode, r, now))
    && c.start == es[i].start && c.end == es[i].end && c.mode == es[i].mode && c.pid == es[i].pid
  }

  /** What a request is told: the first entry in its way, or nothing when there is none. */
  ghost predicate Answers(es: seq<LockEntry>, owner: Owner, mode: Mode, r: Range, now: I64, c: Option<Conflict>) {
    match c
    case None => forall i :: 0 <= i < |es| ==> !InTheWay(es[i], owner, mode, r, now)
    case Some(x) => exists i :: Reports(es, owner, mode, r, now, x, i)
  }

  function ConflictOf(e: LockEntry): Conflict {
    Conflict(e.start, e.end, e.mode, e.pid)
  }

  // ----- the operations as functions on the entries -----

  function Unexpired(es: seq<LockEntry>, now: I64): seq<LockEntry> {
    if es == [] then []
    else
      var m := |es| - 1;
      Unexpired(es[..m], now) + if es[m].expire > now then [es[m]] else []
  }

  /** What is left of an entry once its owner gives up `r`. */
  function Pieces(e: LockEntry, owner: Owner, r: Range): seq<LockEntry> {
    if e.owner != owner || !Overlaps(r, RangeOf(e)) then [e]
    else
      (if e.start < r.start then [e.(end := r.start - 1)] else []) +
      (if e.end > r.end then [e.(start := r.end + 1)] else [])
  }

  function Carve(es: seq<LockEntry>, owner: Owner, r: Range): seq<LockEntry> {
    if es == [] then []
    else
      var m := |es| - 1;
      Carve(es[..m], owner, r) + Pieces(es[m], owner, r)
  }

  function FirstBlock(es: seq<LockEntry>, owner: Owner, mode: Mode, r: Range, now: I64): Option<LockEntry> {
    if es == [] then None
    else
      var m := |es| - 1;
      var before := FirstBlock(es[..m], owner, mode, r, now);
      if before.Some? then before
      else if Blocks(es[m], owner, mode, r, now) then Some(es[m])
      else None
  }

  function Granted(es: seq<LockEntry>, owner: Owner, req: Request, r: Range, pid: U32, expire: I64, now: I64): seq<LockEntry> {
    var carved := Carve(Unexpired(es, now), owner, r);
    if req.Unlock? then carved else carved + [LockEntry(owner, req.mode, r.start, r.end, pid, expire)]
  }

  /** The conflict a set meets, if any. */
  function Refusal(es: seq<LockEntry>, owner: Owner, req: Request, r: Range, now: I64): Option<Conflict> {
    if req.Unlock? then None
    else
      var e := FirstBlock(Unexpired(es, now), owner, req.mode, r, now);
      if e.Some? then Some(ConflictOf(e.value)) else None
  }

  function Released(es: seq<LockEntry>, owner: Owner): seq<LockEntry> {
    if es == [] then []
    else
      var m := |es| - 1;
      Released(es[..m], owner) + if es[m].owner != owner then [es[m]] else []
  }

  function Renewed(es: seq<LockEntry>, owner: Owner, expire: I64): seq<LockEntry> {
    seq(|es|, i requires 0 <= i < |es| => if es[i].owner == owner then es[i].(expire := expire) else es[i])
  }

  predicate HoldsAny(es: seq<LockEntry>, owner: Owner) {
    exists e :: e in es && e.owner == owner
  }

  /** Every operation works entry by entry, and keeps the entries in order. */
  lemma EntryByEntry(a: seq<LockEntry>, b: seq<LockEntry>, owner: Owner, r: Range, now: I64)
    ensures Unexpired(a + b, now) == Unexpired(a, now) + Unexpired(b, now)
    ensures Carve(a + b, owner, r) == Carve(a, owner, r) + Carve(b, owner, r)
    ensures Released(a + b, owner) == Released(a, owner) + Released(b, owner)
    ensures r.start <= r.end ==> forall e | e in a ::
      var p := Pieces(e, owner, r); |p| <= 2 && (|p| == 2 ==> p[0].end < r.start && r.end < p[1].start)
  {
    UnexpiredSplits(a, b, now);
    CarveSplits(a, b, owner, r);
    ReleasedSplits(a, b, owner);
  }

  lemma {:induction false} UnexpiredSplits(a: seq<LockEntry>, b: seq<LockEntry>, now: I64)
    ensures Unexpired(a + b, now) == Unexpired(a, now) + Unexpired(b, now)
  {
    if b == [] {
      assert a + b == a;
    } else {
      var m := |b| - 1;
      UnexpiredSplits(a, b[..m], now);
      assert (a + b)[..|a + b| - 1] == a + b[..m];
    }
  }

  lemma {:induction false} CarveSplits(a: seq<LockEntry>, b: seq<LockEntry>, owner: Owner, r: Range)
    ensures Carve(a + b, owner, r) == Carve(a, owner, r) + Carve(b, owner, r)
  {
    if b == [] {
      assert a + b == a;
    } else {
      var m := |b| - 1;
      CarveSplits(a, b[..m], owner, r);
      assert (a + b)[..|a + b| - 1] == a + b[..m];
      CarveLast(a + b, owner, r);
      CarveLast(b, owner, r);
      assert (a + b)[|a + b| - 1] == b[m];
      Glue(Carve(a, owner, r), Carve(b[..m], owner, r), Pieces(b[m], owner, r));
    }
  }

  lemma Glue(x: seq<LockEntry>, y: seq<LockEntry>, z: seq<LockEntry>)
    ensures (x + y) + z == x + (y + z)
  {
  }

  lemma CarveLast(es: seq<LockEntry>, owner: Owner, r: Range)
    requires es != []
    ensures Carve(es, owner, r) == Carve(es[..|es| - 1], owner, r) + Pieces(es[|es| - 1], owner, r)
  {
  }

  lemma {:induction false} ReleasedSplits(a: seq<LockEntry>, b: seq<LockEntry>, owner: Owner)
    ensures Released(a + b, owner) == Released(a, owner) + Released(b, owner)
  {
    if b == [] {
      assert a + b == a;
    } else {
      var m := |b| - 1;
      ReleasedSplits(a, b[..m], owner);
      assert (a + b)[..|a + b| - 1] == a + b[..m];
    }
  }

  // ----- the table -----

  /** The locks held on one file or directory. */
  class LockTable {
    var entries: seq<LockEntry>

    constructor (entries: seq<LockEntry>)
      ensures this.entries == entries
    {
      this.entries := entries;
    }

    method PurgeExpired(now: I64)
      modifies this
      ensures entries == Unexpired(old(entries), now)
    {
      var kept := [];
      for i := 0 to |entries|
        invariant entries == old(entries) && kept == Unexpired(entries[..i], now)
      {
        assert entries[..i + 1][..i] == entries[..i];
        if entries[i].expire > now {
          kept := kept + [entries[i]];
        }
      }
      assert entries[..|entries|] == entries;
      entries := kept;
    }

    /** The first entry in the way of the request, if any. */
    method Test(owner: Owner, mode: Mode, r: Range, now: I64) returns (c: Option<Conflict>)
      ensures c == match FirstBlock(entries, owner, mode, r, now) case None => None case Some(e) => Some(ConflictOf(e))
      ensures Answers(entries, owner, mode, r, now, c)
    {
      FirstBlockAnswers(entries, owner, mode, r, now);
      for i := 0 to |entries|
        invariant FirstBlock(entries[..i], owner, mode, r, now) == None
      {
        assert entries[..i + 1][..i] == entries[..i];
        var e := entries[i];
        if e.expire <= now || e.owner == owner {
          continue;
        }
        if Overlaps(r, RangeOf(e)) && (mode.Write? || e.mode.Write?) {
          FirstBlockOfPrefix(entries, i + 1, owner, mode, r, now);
          return Some(Conflict(e.start, e.end, e.mode, e.pid));
        }
      }
      assert entries[..|entries|] == entries;
      return None;
    }

    /** Both bounds computed by a split are machine words: neither wraps. */
    method RemoveRange(owner: Owner, r: Range)
      modifies this
      ensures entries == Carve(old(entries), owner, r)
    {
      var out := [];
      for i := 0 to |entries|
        invariant entries == old(entries) && out == Carve(entries[..i], owner, r)
      {
        assert entries[..i + 1][..i] == entries[..i];
        var e := entries[i];
        if e.owner != owner || !Overlaps(r, RangeOf(e)) {
          out := out + [e];
          continue;
        }
        if e.start < r.start {
          var last: U64 := r.start - 1;
          out := out + [e.(end := last)];
        }
        if e.end > r.end {
          var first: U64 := r.end + 1;
          out := out + [e.(start := first)];
        }
      }
      assert entries[..|entries|] == entries;
      entries := out;
    }

    /** A refused request still purges the table in memory. */
    method Set(owner: Owner, req: Request, r: Range, pid: U32, expire: I64, now: I64) returns (c: Option<Conflict>)
      modifies this
      ensures c == Refusal(old(entries), owner, req, r, now)
      ensures req.Unlock? ==> c == None
      ensures req.Lock? ==> Answers(old(entries), owner, req.mode, r, now, c)
      ensures entries ==
        if c.Some? then Unexpired(old(entries), now) else Granted(old(entries), owner, req, r, pid, expire, now)
    {
      RefusalAnswers(entries, owner, req, r, now);
      PurgeExpired(now);
      if req.Unlock? {
        RemoveRange(owner, r);
        return None;
      }
      c := Test(owner, req.mode, r, now);
      if c.Some? {
        return;
      }
      RemoveRange(owner, r);
      entries := entries + [LockEntry(owner, req.mode, r.start, r.end, pid, expire)];
    }

    /** The code tells by the length whether anything went. */
    method ReleaseOwner(owner: Owner) returns (any: bool)
      modifies this
      ensures entries == Released(old(entries), owner)
      ensures any == HoldsAny(old(entries), owner)
    {
      var before := |entries|;
      var kept := [];
      for i := 0 to |entries|
        invariant entries == old(entries) && kept == Released(entries[..i], owner)
      {
        assert entries[..i + 1][..i] == entries[..i];
        if entries[i].owner != owner {
          kept := kept + [entries[i]];
        }
      }
      assert entries[..|entries|] == entries;
      ReleasedLength(entries, owner);
      entries := kept;
      any := |entries| != before;
    }

    method Renew(owner: Owner, expire: I64) returns (any: bool)
      modifies this
      ensures entries == Renewed(old(entries), owner, expire)
      ensures any == HoldsAny(old(entries), owner)
    {
      any := false;
      var n := |entries|;
      for i := 0 to n
        invariant |entries| == n == |old(entries)| && entries[i..] == old(entries)[i..]
        invariant entries[..i] == Renewed(old(entries)[..i], owner, expire)
        invariant any == HoldsAny(old(entries)[..i], owner)
      {
        HoldsAnyOfPrefix(old(entries), i, owner);
        assert entries[i] == old(entries)[i];
        if entries[i].owner == owner {
          entries := entries[i := entries[i].(expire := expire)];
          any := true;
        }
        assert old(entries)[..i + 1][..i] == old(entries)[..i];
        assert old(entries)[..i + 1] == old(entries)[..i] + [old(entries)[i]];
      }
      assert old(entries)[..n] == old(entries);
      assert entries[..n] == entries;
    }
  }

  lemma {:induction false} ReleasedLength(es: seq<LockEntry>, owner: Owner)
    ensures |Released(es, owner)| <= |es|
    ensures |Released(es, owner)| != |es| <==> HoldsAny(es, owner)
  {
    if es != [] {
      var m := |es| - 1;
      ReleasedLength(es[..m], owner);
      HoldsAnyOfPrefix(es, m, owner);
      assert es[..m + 1] == es;
    }
  }

  lemma HoldsAnyOfPrefix(es: seq<LockEntry>, i: nat, owner: Owner)
    requires i < |es|
    ensures HoldsAny(es[..i + 1], owner) <==> HoldsAny(es[..i], owner) || es[i].owner == owner
  {
    assert es[..i + 1] == es[..i] + [es[i]];
  }

  lemma {:induction false} FirstBlockAnswers(es: seq<LockEntry>, owner: Owner, mode: Mode, r: Range, now: I64)
    ensures var b := FirstBlock(es, owner, mode, r, now);
      Answers(es, owner, mode, r, now, if b.Some? then Some(ConflictOf(b.value)) else None)
  {
    if es != [] {
      var m := |es| - 1;
      FirstBlockAnswers(es[..m], owner, mode, r, now);
      var before := FirstBlock(es[..m], owner, mode, r, now);
      if before.Some? {
        var i :| Reports(es[..m], owner, mode, r, now, ConflictOf(before.value), i);
        assert Reports(es, owner, mode, r, now, ConflictOf(before.value), i);
      } else if Blocks(es[m], owner, mode, r, now) {
        forall j | 0 <= j < m ensures !InTheWay(es[j], owner, mode, r, now) {
          assert es[..m][j] == es[j];
        }
        assert Reports(es, owner, mode, r, now, ConflictOf(es[m]), m);
      } else {
        forall j | 0 <= j < |es| ensures !InTheWay(es[j], owner, mode, r, now) {
          assert j < m ==> es[..m][j] == es[j];
        }
      }
    }
  }

  /** Purging first makes no difference: an expired entry is in nobody's way. */
  lemma {:induction false} PurgeKeepsFirst(es: seq<LockEntry>, owner: Owner, mode: Mode, r: Range, now: I64)
    ensures FirstBlock(Unexpired(es, now), owner, mode, r, now) == FirstBlock(es, owner, mode, r, now)
  {
    if es != [] {
      var m := |es| - 1;
      var before := Unexpired(es[..m], now);
      PurgeKeepsFirst(es[..m], owner, mode, r, now);
      if es[m].expire > now {
        assert (before + [es[m]])[..|before|] == before;
      } else {
        assert before + [] == before;
      }
    }
  }

  lemma RefusalAnswers(es: seq<LockEntry>, owner: Owner, req: Request, r: Range, now: I64)
    ensures req.Unlock? ==> Refusal(es, owner, req, r, now) == None
    ensures req.Lock? ==> Answers(es, owner, req.mode, r, now, Refusal(es, owner, req, r, now))
  {
    if req.Lock? {
      PurgeKeepsFirst(es, owner, req.mode, r, now);
      FirstBlockAnswers(es, owner, req.mode, r, now);
    }
  }

  lemma {:induction false} FirstBlockOfPrefix(es: seq<LockEntry>, k: nat, owner: Owner, mode: Mode, r: Range, now: I64)
    requires k <= |es| && FirstBlock(es[..k], owner, mode, r, now).Some?
    ensures FirstBlock(es, owner, mode, r, now) == FirstBlock(es[..k], owner, mode, r, now)
  {
    if k < |es| {
      var m := |es| - 1;
      assert es[..m][..k] == es[..k];
      FirstBlockOfPrefix(es[..m], k, owner, mode, r, now);
    } else {
      assert es[..k] == es;
    }
  }
}
