/** The classification loop of compaction, and its agreement with the protocol's fold. */
module Compaction {
  import opened Names
  import opened ScatterStore
  import opened ScatterProtocol
  import opened ScatterInvariant
  import opened DirIndexes

  /** The batch holds exactly the changes the listing amounts to. */
  ghost predicate Describes(c: Changes, got: Listing) {
    && (forall n :: n in c.upserts <==> Touched(got, None, n) && Effect(Change(got, None, n)).Some?)
    && (forall n :: n in c.upserts ==> c.upserts[n] == Change(got, None, n).entry)
    && (forall n :: n in c.deletes <==> Touched(got, None, n) && Change(got, None, n).op.Delete?)
    && (forall n :: n in c.deletes ==> c.deletes[n] == Change(got, None, n).entry.uuid)
    && (forall n :: n in c.predeletes <==> Touched(got, None, n) && Change(got, None, n).op.PreDelete?)
    && (forall n :: n in c.predeletes ==> c.predeletes[n] == Change(got, None, n).entry.uuid)
  }

  /** `last` lists the latest scatter of every listed name, once each. */
  ghost predicate IsLastView(last: seq<Scatter>, listed: set<Scatter>) {
    && (forall s :: s in last <==> s in listed && IsLatest(listed, s.name, s))
    && (forall i, j :: 0 <= i < j < |last| ==> last[i].name != last[j].name)
  }

  /** One scatter added to a batch; a body that was not fetched adds nothing. */
  function Add(c: Changes, s: Scatter, fetched: set<Scatter>): Changes {
    match s.op
    case Create => if s in fetched then c.(upserts := c.upserts[s.name := s.entry]) else c
    case Update => if s in fetched then c.(upserts := c.upserts[s.name := s.entry]) else c
    case PreDelete => if s in fetched then c.(predeletes := c.predeletes[s.name := s.entry.uuid]) else c
    case Delete => c.(deletes := c.deletes[s.name := s.entry.uuid])
  }

  function Batch(last: seq<Scatter>, fetched: set<Scatter>): Changes {
    if last == [] then Changes(map[], map[], map[])
    else Add(Batch(last[..|last| - 1], fetched), last[|last| - 1], fetched)
  }

  /** One pass over the latest scatters: fetch results, deletes, and the tombstones to keep. */
  method Classify(last: seq<Scatter>, ghost listed: set<Scatter>, fetched: set<Scatter>)
    returns (c: Changes, tombstones: set<Scatter>)
    requires IsLastView(last, listed) && Ranked(listed)
    ensures Describes(c, Listing(listed, fetched, {}))
    ensures c.upserts.Keys !! c.deletes.Keys !! c.predeletes.Keys
    ensures listed - tombstones == Stripped(Listing(listed, fetched, {}))
    ensures forall s :: s in tombstones <==>
      s in listed && s.op == Delete && forall k :: k in listed && k.name == s.name ==> k.stamp <= s.stamp
  {
    c, tombstones := Changes(map[], map[], map[]), {};
    for i := 0 to |last|
      invariant c == Batch(last[..i], fetched)
      invariant forall s :: s in tombstones <==> s in last[..i] && s.op.Delete?
    {
      var s := last[i];
      assert last[..i + 1][..i] == last[..i];
      match s.op {
        case Create => if s in fetched { c := c.(upserts := c.upserts[s.name := s.entry]); }
        case Update => if s in fetched { c := c.(upserts := c.upserts[s.name := s.entry]); }
        case PreDelete => if s in fetched { c := c.(predeletes := c.predeletes[s.name := s.entry.uuid]); }
        case Delete =>
          c := c.(deletes := c.deletes[s.name := s.entry.uuid]);
          tombstones := tombstones + {s};
      }
      assert last[..i + 1] == last[..i] + [s];
    }
    assert last[..|last|] == last;
    BatchDescribes(last, Listing(listed, fetched, {}));
  }

  predicate Kept(s: Scatter, fetched: set<Scatter>) {
    NeedsBody(None, s) ==> s in fetched
  }

  /** A batch at the name of its `k`-th scatter, names being distinct. */
  lemma {:induction false} BatchAt(last: seq<Scatter>, fetched: set<Scatter>, k: nat)
    requires k < |last| && forall i, j :: 0 <= i < j < |last| ==> last[i].name != last[j].name
    ensures var c, s := Batch(last, fetched), last[k];
      && Get(c.upserts, s.name) == (if Kept(s, fetched) then Effect(s) else None)
      && Get(c.deletes, s.name) == (if s.op.Delete? then Some(s.entry.uuid) else None)
      && Get(c.predeletes, s.name) == (if s.op.PreDelete? && s in fetched then Some(s.entry.uuid) else None)
  {
    var m := |last| - 1;
    if k < m {
      BatchAt(last[..m], fetched, k);
    } else {
      BatchElsewhere(last[..m], fetched, last[k].name);
    }
  }

  lemma {:induction false} BatchElsewhere(last: seq<Scatter>, fetched: set<Scatter>, n: Name)
    requires forall i :: 0 <= i < |last| ==> last[i].name != n
    ensures var c := Batch(last, fetched); n !in c.upserts && n !in c.deletes && n !in c.predeletes
  {
    if last != [] {
      BatchElsewhere(last[..|last| - 1], fetched, n);
    }
  }

  lemma BatchDescribes(last: seq<Scatter>, got: Listing)
    requires IsLastView(last, got.listed) && Ranked(got.listed)
    ensures Describes(Batch(last, got.fetched), got)
    ensures var c := Batch(last, got.fetched); c.upserts.Keys !! c.deletes.Keys !! c.predeletes.Keys
  {
    LastViewTouches(last, got);
    var c := Batch(last, got.fetched);
    forall n
      ensures n in c.upserts ==> n !in c.deletes && n !in c.predeletes
      ensures n in c.deletes ==> n !in c.predeletes
      ensures Get(c.upserts, n) == (if Touched(got, None, n) then Effect(Change(got, None, n)) else None)
      ensures n in c.deletes <==> Touched(got, None, n) && Change(got, None, n).op.Delete?
      ensures n in c.deletes ==> c.deletes[n] == Change(got, None, n).entry.uuid
      ensures n in c.predeletes <==> Touched(got, None, n) && Change(got, None, n).op.PreDelete?
      ensures n in c.predeletes ==> c.predeletes[n] == Change(got, None, n).entry.uuid
    {
      if k :| 0 <= k < |last| && last[k].name == n {
        BatchAt(last, got.fetched, k);
      } else {
        BatchElsewhere(last, got.fetched, n);
      }
    }
  }

  lemma LastViewTouches(last: seq<Scatter>, got: Listing)
    requires IsLastView(last, got.listed) && Ranked(got.listed)
    ensures forall k :: 0 <= k < |last| && Kept(last[k], got.fetched) ==>
      Touched(got, None, last[k].name) && Change(got, None, last[k].name) == last[k]
    ensures forall n :: Touched(got, None, n) ==>
      exists k :: 0 <= k < |last| && last[k].name == n && Kept(last[k], got.fetched)
  {
    forall k | 0 <= k < |last| && Kept(last[k], got.fetched)
      ensures Touched(got, None, last[k].name) && Change(got, None, last[k].name) == last[k]
    {
      assert Applied(got, None, last[k]);
    }
    forall n | Touched(got, None, n)
      ensures exists k :: 0 <= k < |last| && last[k].name == n && Kept(last[k], got.fetched)
    {
      var s := Change(got, None, n);
      assert s in last;
    }
  }

  lemma OverlayAt(base: map<Name, Entry>, c: Changes, got: Listing, n: Name)
    requires Describes(c, got)
    ensures Get(Overlay(base, c), n) == OverlaidAt(base, got, None, n)
  {
    if Touched(got, None, n) {
      var op := Change(got, None, n).op;
      assert op.Create? || op.Update? || op.PreDelete? || op.Delete?;
    }
  }

  lemma SameMap<K, V>(a: map<K, V>, b: map<K, V>)
    requires forall k :: Get(a, k) == Get(b, k)
    ensures a == b
  {
    assert forall k :: k in a <==> Get(a, k).Some?;
    assert forall k :: k in b <==> Get(b, k).Some?;
  }

  /** The imperative fold and the protocol's flush compute the same index. */
  lemma OverlayIsOverlaid(base: map<Name, Entry>, c: Changes, got: Listing)
    requires Describes(c, got)
    ensures Overlay(base, c) == Overlaid(base, got, None)
  {
    forall n ensures Get(Overlay(base, c), n) == Get(Overlaid(base, got, None), n) {
      OverlayAt(base, c, got, n);
      OverlaidGet(base, got, None, n);
    }
    SameMap(Overlay(base, c), Overlaid(base, got, None));
  }

  /** And report the same removals: the names present before that a delete marker takes out. */
  lemma RemovalsAreDebts(base: map<Name, Entry>, c: Changes, got: Listing, version: nat, n: Name)
    requires Describes(c, got)
    ensures Fold(version, n) in DebtsOf(version, base, got) <==> n in (c.deletes.Keys + c.predeletes.Keys) * base.Keys
    ensures Fold(version, n) in DebtsOf(version, base, got) ==>
      DebtsOf(version, base, got)[Fold(version, n)] ==
        if n in c.deletes then Debt(c.deletes[n], false) else Debt(c.predeletes[n], true)
  {
    if Touched(got, None, n) {
      var op := Change(got, None, n).op;
      assert op.Create? || op.Update? || op.PreDelete? || op.Delete?;
    }
  }
}
