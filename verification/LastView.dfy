/** The latest scatter of every name (`filter_last_view`, src/lib.rs). */
module LastView {
  import opened Names
  import opened ScatterStore

  /** A decoded scatter key, with the time S3 reports for it. */
  datatype Listed = Listed(name: Name, lastModified: nat, ulid: nat, key: seq<Byte>, op: Op, entry: Entry)

  /** Byte-wise order of object keys. */
  predicate KeyLess(a: seq<Byte>, b: seq<Byte>) {
    b != [] && (a == [] || a[0] < b[0] || (a[0] == b[0] && KeyLess(a[1..], b[1..])))
  }

  /** Last-modified time, then ULID, then key. */
  predicate Before(a: Listed, b: Listed) {
    || a.lastModified < b.lastModified
    || (a.lastModified == b.lastModified && a.ulid < b.ulid)
    || (a.lastModified == b.lastModified && a.ulid == b.ulid && KeyLess(a.key, b.key))
  }

  /** The keys part at `i`: the first ends there, or has the smaller byte. */
  ghost predicate PartAt(a: seq<Byte>, b: seq<Byte>, i: int) {
    0 <= i <= |a| && i < |b| && a[..i] == b[..i] && (i == |a| || a[i] < b[i])
  }

  lemma {:induction false} KeyLessIff(a: seq<Byte>, b: seq<Byte>)
    ensures KeyLess(a, b) <==> exists i :: PartAt(a, b, i)
  {
    if a != [] && b != [] && a[0] == b[0] {
      KeyLessIff(a[1..], b[1..]);
      if KeyLess(a, b) {
        var i :| PartAt(a[1..], b[1..], i);
        assert a[..i + 1] == [a[0]] + a[1..][..i] && b[..i + 1] == [b[0]] + b[1..][..i];
        assert PartAt(a, b, i + 1);
      }
      forall i | PartAt(a, b, i) ensures KeyLess(a, b) {
        assert i > 0;
        assert a[1..][..i - 1] == a[..i][1..] && b[1..][..i - 1] == b[..i][1..];
        assert PartAt(a[1..], b[1..], i - 1);
      }
    } else {
      assert KeyLess(a, b) ==> PartAt(a, b, 0);
      forall i | PartAt(a, b, i) ensures KeyLess(a, b) {
        assert i == 0 || [a[0]] == a[..i][..1];
        assert i == 0 || [b[0]] == b[..i][..1];
      }
    }
  }

  lemma {:induction false} KeysAreOrdered(a: seq<Byte>, b: seq<Byte>)
    ensures KeyLess(a, b) || KeyLess(b, a) || a == b
    ensures !(KeyLess(a, b) && KeyLess(b, a)) && !KeyLess(a, a)
  {
    if a != [] && b != [] {
      KeysAreOrdered(a[1..], b[1..]);
      assert a == [a[0]] + a[1..] && b == [b[0]] + b[1..];
    }
    if a != [] {
      KeysAreOrdered(a[1..], a[1..]);
    }
  }

  lemma {:induction false} KeyLessIsTransitive(a: seq<Byte>, b: seq<Byte>, c: seq<Byte>)
    requires KeyLess(a, b) && KeyLess(b, c)
    ensures KeyLess(a, c)
  {
    if a != [] && a[0] == b[0] && b[0] == c[0] {
      KeyLessIsTransitive(a[1..], b[1..], c[1..]);
    }
  }

  lemma BeforeIsTransitive(a: Listed, b: Listed, c: Listed)
    requires Before(a, b) && Before(b, c)
    ensures Before(a, c)
  {
    if KeyLess(a.key, b.key) && KeyLess(b.key, c.key) {
      KeyLessIsTransitive(a.key, b.key, c.key);
    }
  }

  /** `k` is no later than `s`: in S3's time, then in ULID, then in key. */
  ghost predicate NoLater(k: Listed, s: Listed) {
    && k.lastModified <= s.lastModified
    && (k.lastModified == s.lastModified ==> k.ulid <= s.ulid)
    && (k.lastModified == s.lastModified && k.ulid == s.ulid ==> k.key == s.key || exists i :: PartAt(k.key, s.key, i))
  }

  lemma NoLaterIff(k: Listed, s: Listed)
    ensures !Before(s, k) <==> NoLater(k, s)
  {
    KeysAreOrdered(k.key, s.key);
    KeyLessIff(k.key, s.key);
  }

  /** No scatter of its name among `all` comes after `s`. */
  ghost predicate IsLast(all: seq<Listed>, s: Listed) {
    s in all && forall k :: k in all && k.name == s.name ==> !Before(s, k)
  }

  /** S3 keys are unique. */
  ghost predicate DistinctKeys(all: seq<Listed>) {
    forall a, b :: a in all && b in all && a.key == b.key ==> a == b
  }

  lemma LastIsUnique(all: seq<Listed>, a: Listed, b: Listed)
    requires DistinctKeys(all) && IsLast(all, a) && IsLast(all, b) && a.name == b.name
    ensures a == b
  {
    KeysAreOrdered(a.key, b.key);
  }

  /** The last element of a group once sorted. */
  method PopLast(v: seq<Listed>) returns (last: Listed)
    requires v != []
    ensures last in v && forall k :: k in v ==> !Before(last, k)
  {
    last := v[0];
    KeysAreOrdered(last.key, last.key);
    for i := 1 to |v|
      invariant last in v[..i] && forall k :: k in v[..i] ==> !Before(last, k)
    {
      if !Before(v[i], last) {
        forall k | k in v[..i] ensures !Before(v[i], k) {
          if Before(v[i], k) {
            NotBeforeChain(last, k, v[i]);
          }
        }
        last := v[i];
      }
      KeysAreOrdered(v[i].key, v[i].key);
      KeysAreOrdered(v[i].key, last.key);
      assert v[..i + 1] == v[..i] + [v[i]];
    }
  }

  /** If `k` is not after `last`, and `x` is not before it, then `k` is not after `x`. */
  lemma NotBeforeChain(last: Listed, k: Listed, x: Listed)
    requires !Before(last, k) && !Before(x, last)
    ensures !Before(x, k)
  {
    KeysAreOrdered(last.key, k.key);
    KeysAreOrdered(x.key, last.key);
    if Before(x, k) {
      if Before(k, last) {
        BeforeIsTransitive(x, k, last);
      }
    }
  }

  /** Groups by name, then keeps the last of each group; groups may be visited in any order. */
  method FilterLastView(scatters: seq<Listed>) returns (last: seq<Listed>)
    ensures forall s :: s in last ==> IsLast(scatters, s)
    ensures forall s, k :: s in last && k in scatters && k.name == s.name ==> NoLater(k, s)
    ensures forall s :: s in scatters ==> exists k :: k in last && k.name == s.name
    ensures forall i, j :: 0 <= i < j < |last| ==> last[i].name != last[j].name
    ensures DistinctKeys(scatters) ==> forall s :: s in last <==> IsLast(scatters, s)
  {
    var groups: map<Name, seq<Listed>> := map[];
    for i := 0 to |scatters|
      invariant forall n :: n in groups ==> groups[n] != []
      invariant forall n, s :: n in groups && s in groups[n] ==> s in scatters[..i] && s.name == n
      invariant forall s :: s in scatters[..i] ==> s.name in groups && s in groups[s.name]
    {
      var s := scatters[i];
      var group := if s.name in groups then groups[s.name] else [];
      groups := groups[s.name := group + [s]];
      assert scatters[..i + 1] == scatters[..i] + [s];
    }
    assert scatters[..|scatters|] == scatters;

    last := [];
    var todo := groups.Keys;
    while todo != {}
      invariant todo <= groups.Keys
      invariant forall s :: s in last ==> IsLast(scatters, s) && s.name !in todo
      invariant forall n :: n in groups && n !in todo ==> exists k :: k in last && k.name == n
      invariant forall i, j :: 0 <= i < j < |last| ==> last[i].name != last[j].name
      decreases todo
    {
      var n :| n in todo;
      var s := PopLast(groups[n]);
      assert IsLast(scatters, s);
      last := last + [s];
      todo := todo - {n};
    }
    forall s, k | s in last && k in scatters && k.name == s.name ensures NoLater(k, s) { NoLaterIff(k, s); }
    if DistinctKeys(scatters) {
      forall s | IsLast(scatters, s) ensures s in last {
        var k :| k in last && k.name == s.name;
        LastIsUnique(scatters, s, k);
      }
    }
  }

  /** The result depends on which scatters are listed, not on the order they are listed in. */
  lemma OrderDoesNotMatter(a: seq<Listed>, b: seq<Listed>, s: Listed)
    requires multiset(a) == multiset(b)
    ensures IsLast(a, s) <==> IsLast(b, s)
  {
    forall x ensures x in a <==> x in b {
      assert x in multiset(a) <==> x in multiset(b);
    }
  }

  function OnlyName(all: seq<Listed>, n: Name): (r: seq<Listed>)
    ensures forall s :: s in r <==> s in all && s.name == n
  {
    if all == [] then [] else
      var rest := OnlyName(all[1..], n);
      if all[0].name == n then [all[0]] + rest else rest
  }

  /** Listing one name's folder gives that name the latest scatter a full listing would. */
  lemma RestrictionCommutes(all: seq<Listed>, n: Name, s: Listed)
    ensures IsLast(OnlyName(all, n), s) <==> IsLast(all, s) && s.name == n
  {
  }

  // ----- ranks -----

  const ULID_SPAN: nat := 0x1_0000_0000_0000_0000_0000_0000_0000_0000

  function Rank(s: Listed): nat {
    s.lastModified * ULID_SPAN + s.ulid
  }

  function AsScatter(s: Listed): Scatter {
    Scatter(s.name, Rank(s), s.op, s.entry)
  }

  /** ULIDs are 128-bit and distinct. */
  ghost predicate DistinctUlids(all: seq<Listed>) {
    && (forall a :: a in all ==> a.ulid < ULID_SPAN)
    && (forall a, b :: a in all && b in all && a.ulid == b.ulid ==> a == b)
  }

  lemma RankIsOrder(a: Listed, b: Listed)
    requires a.ulid < ULID_SPAN && b.ulid < ULID_SPAN && a.ulid != b.ulid
    ensures Before(a, b) <==> Rank(a) < Rank(b)
  {
  }

  /** With distinct ULIDs, the last scatter of a name is the one of highest rank. */
  lemma LastIsHighestRank(all: seq<Listed>, s: Listed)
    requires DistinctUlids(all) && s in all
    ensures IsLast(all, s) <==> IsLatest(set x | x in all :: AsScatter(x), s.name, AsScatter(s))
  {
    var scatters := set x | x in all :: AsScatter(x);
    forall k | k in all && k.name == s.name ensures AsScatter(k) in scatters && (Before(s, k) <==> Rank(s) < Rank(k)) {
      if k != s {
        RankIsOrder(s, k);
      } else {
        KeysAreOrdered(s.key, s.key);
      }
    }
  }
}
