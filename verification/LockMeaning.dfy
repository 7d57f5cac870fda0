/** What the lock table means byte by byte, and what every operation keeps. */
module LockMeaning {
  import opened Names
  import opened Words
  import opened Locks

  // ----- membership -----

  lemma {:induction false} UnexpiredMembers(es: seq<LockEntry>, now: I64)
    ensures forall e :: e in Unexpired(es, now) <==> e in es && e.expire > now
  {
    if es != [] {
      var m := |es| - 1;
      UnexpiredMembers(es[..m], now);
      assert es == es[..m] + [es[m]];
    }
  }

  lemma {:induction false} CarveMembers(es: seq<LockEntry>, owner: Owner, r: Range)
    ensures forall x :: x in Carve(es, owner, r) <==> exists e :: e in es && x in Pieces(e, owner, r)
  {
    if es != [] {
      var m := |es| - 1;
      CarveMembers(es[..m], owner, r);
      assert es == es[..m] + [es[m]];
    }
  }

  lemma {:induction false} FirstBlockMembers(es: seq<LockEntry>, owner: Owner, mode: Mode, r: Range, now: I64)
    ensures var b := FirstBlock(es, owner, mode, r, now);
      && (b.Some? ==> b.value in es && Blocks(b.value, owner, mode, r, now))
      && (b.None? ==> forall e :: e in es ==> !Blocks(e, owner, mode, r, now))
  {
    if es != [] {
      var m := |es| - 1;
      FirstBlockMembers(es[..m], owner, mode, r, now);
      assert es == es[..m] + [es[m]];
    }
  }

  lemma {:induction false} ReleasedMembers(es: seq<LockEntry>, owner: Owner)
    ensures forall e :: e in Released(es, owner) <==> e in es && e.owner != owner
  {
    if es != [] {
      var m := |es| - 1;
      ReleasedMembers(es[..m], owner);
      assert es == es[..m] + [es[m]];
    }
  }

  ghost predicate Blocked(es: seq<LockEntry>, owner: Owner, mode: Mode, r: Range, now: I64) {
    exists e :: e in es && Blocks(e, owner, mode, r, now)
  }

  lemma RefusalIff(es: seq<LockEntry>, owner: Owner, req: Request, r: Range, now: I64)
    ensures Refusal(es, owner, req, r, now).Some? <==> req.Lock? && Blocked(es, owner, req.mode, r, now)
  {
    UnexpiredMembers(es, now);
    if req.Lock? {
      FirstBlockMembers(Unexpired(es, now), owner, req.mode, r, now);
    }
  }

  // ----- exclusion -----

  predicate Compatible(a: LockEntry, b: LockEntry) {
    !Overlaps(RangeOf(a), RangeOf(b)) || (a.mode.Read? && b.mode.Read?)
  }

  /** No two owners' entries, expired ones included, overlap in an incompatible mode. */
  ghost predicate Exclusive(es: seq<LockEntry>) {
    forall a, b :: a in es && b in es && a.owner != b.owner ==> Compatible(a, b)
  }

  /** A piece is its entry with the range cut down. */
  lemma PieceWithin(e: LockEntry, owner: Owner, r: Range, x: LockEntry)
    requires x in Pieces(e, owner, r)
    ensures x == e.(start := x.start, end := x.end) && e.start <= x.start && x.end <= e.end
  {
  }

  lemma CarveOrigin(es: seq<LockEntry>, owner: Owner, r: Range, x: LockEntry) returns (e: LockEntry)
    requires x in Carve(es, owner, r)
    ensures e in es && x in Pieces(e, owner, r)
    ensures x == e.(start := x.start, end := x.end) && e.start <= x.start && x.end <= e.end
  {
    CarveMembers(es, owner, r);
    e :| e in es && x in Pieces(e, owner, r);
  }

  lemma CarveKeepsExclusion(es: seq<LockEntry>, owner: Owner, r: Range)
    requires Exclusive(es)
    ensures Exclusive(Carve(es, owner, r))
  {
    var carved := Carve(es, owner, r);
    forall x, y | x in carved && y in carved && x.owner != y.owner ensures Compatible(x, y) {
      var a := CarveOrigin(es, owner, r, x);
      var b := CarveOrigin(es, owner, r, y);
      assert Compatible(a, b);
    }
  }

  lemma AppendKeepsExclusion(es: seq<LockEntry>, n: LockEntry)
    requires Exclusive(es) && forall x :: x in es && x.owner != n.owner ==> Compatible(x, n)
    ensures Exclusive(es + [n])
  {
    assert forall x :: x in es + [n] <==> x in es || x == n;
  }

  /** For every range, even a reversed one, and every clock. */
  lemma SetKeepsExclusion(es: seq<LockEntry>, owner: Owner, req: Request, r: Range, pid: U32, expire: I64, now: I64)
    requires Exclusive(es) && Refusal(es, owner, req, r, now).None?
    ensures Exclusive(Granted(es, owner, req, r, pid, expire, now))
  {
    var live := Unexpired(es, now);
    UnexpiredMembers(es, now);
    CarveKeepsExclusion(live, owner, r);
    if req.Lock? {
      var carved, n := Carve(live, owner, r), LockEntry(owner, req.mode, r.start, r.end, pid, expire);
      RefusalIff(es, owner, req, r, now);
      forall x | x in carved && x.owner != owner ensures Compatible(x, n) {
        var a := CarveOrigin(live, owner, r, x);
        assert !Blocks(a, owner, req.mode, r, now);
      }
      AppendKeepsExclusion(carved, n);
    }
  }

  lemma ReleaseKeepsExclusion(es: seq<LockEntry>, owner: Owner)
    requires Exclusive(es)
    ensures Exclusive(Released(es, owner))
  {
    ReleasedMembers(es, owner);
  }

  /** Reviving an expired entry is harmless: exclusion never depended on its expiry. */
  lemma RenewKeepsExclusion(es: seq<LockEntry>, owner: Owner, expire: I64)
    requires Exclusive(es)
    ensures Exclusive(Renewed(es, owner, expire))
  {
    var rs := Renewed(es, owner, expire);
    forall x, y | x in rs && y in rs && x.owner != y.owner ensures Compatible(x, y) {
      var i :| 0 <= i < |rs| && rs[i] == x;
      var j :| 0 <= j < |rs| && rs[j] == y;
      assert Compatible(es[i], es[j]);
    }
  }

  // ----- bytes -----

  predicate Covers(e: LockEntry, b: U64) {
    e.start <= b <= e.end
  }

  predicate In(b: U64, r: Range) {
    r.start <= b <= r.end
  }

  datatype Tag = Tag(mode: Mode, pid: U32, expire: I64)

  function TagOf(e: LockEntry): Tag {
    Tag(e.mode, e.pid, e.expire)
  }

  /** The owner holds the byte, in this mode and until this time. */
  ghost predicate Holding(es: seq<LockEntry>, o: Owner, b: U64, tag: Tag) {
    exists e :: e in es && e.owner == o && Covers(e, b) && TagOf(e) == tag
  }

  lemma PiecesMeaning(e: LockEntry, owner: Owner, r: Range, b: U64)
    requires r.start <= r.end
    ensures (exists x :: x in Pieces(e, owner, r) && Covers(x, b)) <==> Covers(e, b) && !(e.owner == owner && In(b, r))
  {
    if Covers(e, b) && !(e.owner == owner && In(b, r)) {
      var left, right := e.(end := if r.start > 0 then r.start - 1 else 0), e.(start := if r.end < U64_MAX then r.end + 1 else 0);
      assert (e in Pieces(e, owner, r) && Covers(e, b)) || (left in Pieces(e, owner, r) && Covers(left, b))
        || (right in Pieces(e, owner, r) && Covers(right, b));
    }
  }

  /** Nothing outside the range is lost, even when the range is reversed. */
  lemma CarveLosesOnlyTheRange(es: seq<LockEntry>, owner: Owner, r: Range, o: Owner, b: U64, tag: Tag)
    requires Holding(es, o, b, tag) && !(o == owner && In(b, r))
    ensures Holding(Carve(es, owner, r), o, b, tag)
  {
    CarveMembers(es, owner, r);
    var e :| e in es && e.owner == o && Covers(e, b) && TagOf(e) == tag;
    var x := if e in Pieces(e, owner, r) then e
             else if b < r.start then e.(end := r.start - 1)
             else e.(start := r.end + 1);
    assert x in Pieces(e, owner, r) && Covers(x, b);
    assert x in Carve(es, owner, r) && x.owner == o && TagOf(x) == tag;
  }

  lemma CarveMeaning(es: seq<LockEntry>, owner: Owner, r: Range, o: Owner, b: U64, tag: Tag)
    requires r.start <= r.end
    ensures Holding(Carve(es, owner, r), o, b, tag) <==> Holding(es, o, b, tag) && !(o == owner && In(b, r))
  {
    var carved := Carve(es, owner, r);
    CarveMembers(es, owner, r);
    if Holding(carved, o, b, tag) {
      var x :| x in carved && x.owner == o && Covers(x, b) && TagOf(x) == tag;
      var e :| e in es && x in Pieces(e, owner, r);
      PieceWithin(e, owner, r, x);
      PiecesMeaning(e, owner, r, b);
      assert Covers(e, b) && TagOf(e) == tag;
    }
    if Holding(es, o, b, tag) && !(o == owner && In(b, r)) {
      var e :| e in es && e.owner == o && Covers(e, b) && TagOf(e) == tag;
      PiecesMeaning(e, owner, r, b);
      var x :| x in Pieces(e, owner, r) && Covers(x, b);
      PieceWithin(e, owner, r, x);
      assert x in carved && TagOf(x) == tag;
    }
  }

  /**
   * A granted set, byte by byte: the caller's range takes the new mode, or none on unlock;
   * every other holding is the old one, less what has expired.
   */
  lemma SetMeaning(es: seq<LockEntry>, owner: Owner, req: Request, r: Range, pid: U32, expire: I64, now: I64,
                   o: Owner, b: U64, tag: Tag)
    requires r.start <= r.end
    ensures Holding(Granted(es, owner, req, r, pid, expire, now), o, b, tag) <==>
      if o == owner && In(b, r) then req.Lock? && tag == Tag(req.mode, pid, expire)
      else tag.expire > now && Holding(es, o, b, tag)
  {
    var live := Unexpired(es, now);
    UnexpiredMembers(es, now);
    assert Holding(live, o, b, tag) <==> tag.expire > now && Holding(es, o, b, tag);
    CarveMeaning(live, owner, r, o, b, tag);
    if req.Lock? {
      var carved, n := Carve(live, owner, r), LockEntry(owner, req.mode, r.start, r.end, pid, expire);
      assert Holding(carved + [n], o, b, tag) <==>
        Holding(carved, o, b, tag) || (o == owner && Covers(n, b) && TagOf(n) == tag);
    }
  }

  lemma ReleaseMeaning(es: seq<LockEntry>, owner: Owner, o: Owner, b: U64, tag: Tag)
    ensures Holding(Released(es, owner), o, b, tag) <==> o != owner && Holding(es, o, b, tag)
  {
    ReleasedMembers(es, owner);
  }

  lemma RenewMeaning(es: seq<LockEntry>, owner: Owner, expire: I64, o: Owner, b: U64, tag: Tag)
    ensures Holding(Renewed(es, owner, expire), o, b, tag) <==>
      if o == owner then tag.expire == expire && exists was :: Holding(es, o, b, tag.(expire := was))
      else Holding(es, o, b, tag)
  {
    var rs := Renewed(es, owner, expire);
    if Holding(rs, o, b, tag) {
      var x :| x in rs && x.owner == o && Covers(x, b) && TagOf(x) == tag;
      var i :| 0 <= i < |rs| && rs[i] == x;
      assert es[i] in es && TagOf(es[i]) == tag.(expire := es[i].expire);
      assert Holding(es, o, b, tag.(expire := es[i].expire));
    }
    if o == owner && tag.expire == expire {
      forall was | Holding(es, o, b, tag.(expire := was)) ensures Holding(rs, o, b, tag) {
        var e :| e in es && e.owner == o && Covers(e, b) && TagOf(e) == tag.(expire := was);
        var i :| 0 <= i < |es| && es[i] == e;
        assert rs[i] in rs && TagOf(rs[i]) == tag;
      }
    }
    if o != owner && Holding(es, o, b, tag) {
      var e :| e in es && e.owner == o && Covers(e, b) && TagOf(e) == tag;
      var i :| 0 <= i < |es| && es[i] == e;
      assert rs[i] in rs && rs[i] == e;
    }
  }

  ghost predicate Proper(es: seq<LockEntry>) {
    forall e :: e in es ==> e.start <= e.end
  }

  ghost predicate Shares(e: LockEntry, r: Range) {
    exists b :: In(b, r) && Covers(e, b)
  }

  /** A set is refused exactly when a live entry of another owner shares a byte incompatibly. */
  lemma SetFailsIff(es: seq<LockEntry>, owner: Owner, req: Request, r: Range, now: I64)
    requires Proper(es) && r.start <= r.end
    ensures Refusal(es, owner, req, r, now).Some? <==>
      req.Lock? && exists e :: e in es && e.expire > now && e.owner != owner && Shares(e, r) && (req.mode.Write? || e.mode.Write?)
  {
    RefusalIff(es, owner, req, r, now);
    forall e | e in es ensures Overlaps(r, RangeOf(e)) <==> Shares(e, r) {
      if Overlaps(r, RangeOf(e)) {
        var b: U64 := if r.start <= e.start then e.start else r.start;
        assert In(b, r) && Covers(e, b);
      }
    }
  }

  lemma SetKeepsProper(es: seq<LockEntry>, owner: Owner, req: Request, r: Range, pid: U32, expire: I64, now: I64)
    requires Proper(es) && r.start <= r.end
    ensures Proper(Granted(es, owner, req, r, pid, expire, now))
  {
    var live := Unexpired(es, now);
    UnexpiredMembers(es, now);
    CarveMembers(live, owner, r);
  }

  // ----- one owner's ranges stay disjoint -----

  predicate Meet(a: LockEntry, c: LockEntry) {
    a.owner == c.owner && a.start <= a.end && c.start <= c.end && Overlaps(RangeOf(a), RangeOf(c))
  }

  lemma MeetIsAByte(a: LockEntry, c: LockEntry)
    ensures Meet(a, c) <==> a.owner == c.owner && exists b :: Covers(a, b) && Covers(c, b)
  {
    if Meet(a, c) {
      var b: U64 := if a.start <= c.start then c.start else a.start;
      assert Covers(a, b) && Covers(c, b);
    }
  }

  /** No owner has two entries over one byte. */
  ghost predicate Disjoint(es: seq<LockEntry>) {
    forall i, j :: 0 <= i < j < |es| ==> !Meet(es[i], es[j])
  }

  /** Byte by byte, that is what it says. */
  lemma DisjointIsByByte(es: seq<LockEntry>)
    ensures Disjoint(es) <==> forall i, j, b :: 0 <= i < j < |es| && Covers(es[i], b) && Covers(es[j], b) ==> es[i].owner != es[j].owner
  {
    forall i, j | 0 <= i < j < |es|
      ensures Meet(es[i], es[j]) <==> es[i].owner == es[j].owner && exists b :: Covers(es[i], b) && Covers(es[j], b)
    {
      MeetIsAByte(es[i], es[j]);
    }
  }

  /** A reversed range that punches a hole of negative width into the entry, doubling its middle. */
  predicate Doubles(e: LockEntry, owner: Owner, r: Range) {
    e.owner == owner && r.end + 2 <= r.start && e.start <= r.end && r.start <= e.end
  }

  lemma DisjointAppend(a: seq<LockEntry>, b: seq<LockEntry>)
    requires Disjoint(a) && Disjoint(b) && forall x, y :: x in a && y in b ==> !Meet(x, y)
    ensures Disjoint(a + b)
  {
  }

  lemma {:induction false} UnexpiredDisjoint(es: seq<LockEntry>, now: I64)
    requires Disjoint(es)
    ensures Disjoint(Unexpired(es, now))
  {
    if es != [] {
      var m := |es| - 1;
      UnexpiredDisjoint(es[..m], now);
      UnexpiredMembers(es[..m], now);
      DisjointAppend(Unexpired(es[..m], now), if es[m].expire > now then [es[m]] else []);
    }
  }

  lemma {:induction false} CarveDisjoint(es: seq<LockEntry>, owner: Owner, r: Range)
    requires Disjoint(es) && forall e :: e in es ==> !Doubles(e, owner, r)
    ensures Disjoint(Carve(es, owner, r))
  {
    if es != [] {
      var m := |es| - 1;
      var done, next := Carve(es[..m], owner, r), Pieces(es[m], owner, r);
      CarveDisjoint(es[..m], owner, r);
      CarveMembers(es[..m], owner, r);
      forall x, y | x in done && y in next ensures !Meet(x, y) {
        var e :| e in es[..m] && x in Pieces(e, owner, r);
        PieceWithin(e, owner, r, x);
        PieceWithin(es[m], owner, r, y);
        assert !Meet(e, es[m]);
      }
      assert !Doubles(es[m], owner, r);
      DisjointAppend(done, next);
    }
  }

  lemma {:induction false} CarveDoubles(es: seq<LockEntry>, owner: Owner, r: Range, k: nat)
    requires k < |es| && Doubles(es[k], owner, r)
    ensures !Disjoint(Carve(es, owner, r))
  {
    var m := |es| - 1;
    var done, next := Carve(es[..m], owner, r), Pieces(es[m], owner, r);
    if k < m {
      CarveDoubles(es[..m], owner, r, k);
      var i, j :| 0 <= i < j < |done| && Meet(done[i], done[j]);
      assert (done + next)[i] == done[i] && (done + next)[j] == done[j];
    } else {
      assert Meet(next[0], next[1]);
      assert (done + next)[|done|] == next[0] && (done + next)[|done| + 1] == next[1];
    }
  }

  lemma CarveDisjointIff(es: seq<LockEntry>, owner: Owner, r: Range)
    requires Disjoint(es)
    ensures Disjoint(Carve(es, owner, r)) <==> forall e :: e in es ==> !Doubles(e, owner, r)
  {
    if e :| e in es && Doubles(e, owner, r) {
      var k :| 0 <= k < |es| && es[k] == e;
      CarveDoubles(es, owner, r, k);
    } else {
      CarveDisjoint(es, owner, r);
    }
  }

  /** The range just carved out never meets what is left. */
  lemma CarvedRangeIsFree(es: seq<LockEntry>, owner: Owner, r: Range, n: LockEntry)
    requires RangeOf(n) == r && n.owner == owner
    ensures Disjoint(Carve(es, owner, r) + [n]) <==> Disjoint(Carve(es, owner, r))
  {
    var carved := Carve(es, owner, r);
    if Disjoint(carved) {
      forall x | x in carved ensures !Meet(x, n) {
        var e := CarveOrigin(es, owner, r, x);
      }
      DisjointAppend(carved, [n]);
    } else {
      var i, j :| 0 <= i < j < |carved| && Meet(carved[i], carved[j]);
      assert (carved + [n])[i] == carved[i] && (carved + [n])[j] == carved[j];
    }
  }

  /** Disjointness survives a granted set if and only if the range doubles none of the owner's live entries. */
  lemma SetKeepsDisjointIff(es: seq<LockEntry>, owner: Owner, req: Request, r: Range, pid: U32, expire: I64, now: I64)
    requires Disjoint(es)
    ensures Disjoint(Granted(es, owner, req, r, pid, expire, now)) <==>
      forall e :: e in es && e.expire > now ==> !Doubles(e, owner, r)
  {
    var live := Unexpired(es, now);
    UnexpiredMembers(es, now);
    UnexpiredDisjoint(es, now);
    CarveDisjointIff(live, owner, r);
    if req.Lock? {
      CarvedRangeIsFree(live, owner, r, LockEntry(owner, req.mode, r.start, r.end, pid, expire));
    }
  }

  /** In particular no range with its ends in order ever doubles anything. */
  lemma OrderedRangesDoubleNothing(e: LockEntry, owner: Owner, r: Range)
    requires r.start <= r.end
    ensures !Doubles(e, owner, r)
  {
  }

  lemma {:induction false} ReleasedDisjoint(es: seq<LockEntry>, owner: Owner)
    requires Disjoint(es)
    ensures Disjoint(Released(es, owner))
  {
    if es != [] {
      var m := |es| - 1;
      ReleasedDisjoint(es[..m], owner);
      ReleasedMembers(es[..m], owner);
      DisjointAppend(Released(es[..m], owner), if es[m].owner != owner then [es[m]] else []);
    }
  }

  lemma RenewedDisjoint(es: seq<LockEntry>, owner: Owner, expire: I64)
    requires Disjoint(es) && Proper(es)
    ensures Disjoint(Renewed(es, owner, expire)) && Proper(Renewed(es, owner, expire))
  {
    var rs := Renewed(es, owner, expire);
    forall i, j | 0 <= i < j < |rs| ensures !Meet(rs[i], rs[j]) {
      assert !Meet(es[i], es[j]);
    }
  }
}
