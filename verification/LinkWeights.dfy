/** Counting the links that names take up. */
module LinkWeights {
  import opened Names
  import opened LinkProtocol

  // ----- runs in a chain -----

  lemma {:induction false} RunsZero(c: seq<Option<Uuid>>, u: Uuid)
    ensures Runs(c, u) == 0 <==> Some(u) !in c
  {
    if c != [] {
      var m := |c| - 1;
      RunsZero(c[..m], u);
      assert c == c[..m] + [c[m]];
    }
  }

  lemma RunsAppend(c: seq<Option<Uuid>>, v: Option<Uuid>, u: Uuid)
    requires c != []
    ensures Runs(c + [v], u) == Runs(c, u) + if v == Some(u) && c[|c| - 1] != Some(u) then 1 else 0
  {
    assert (c + [v])[..|c|] == c;
  }

  /** A run that straddles the cut counts on both sides. */
  predicate Straddles(c: seq<Option<Uuid>>, k: nat, u: Uuid)
    requires 0 < k < |c|
  {
    c[k - 1] == Some(u) && c[k] == Some(u)
  }

  lemma {:induction false} RunsCut(c: seq<Option<Uuid>>, k: nat, u: Uuid)
    requires 0 < k < |c|
    ensures Runs(c[..k], u) + Runs(c[k..], u) == Runs(c, u) + if Straddles(c, k, u) then 1 else 0
  {
    var m := |c| - 1;
    assert c[k..][..m - k] == c[k..m];
    if k < m {
      var d := c[..m];
      RunsCut(d, k, u);
      assert d[..k] == c[..k] && d[k..] == c[k..m];
      assert c[k..][m - k] == c[m] && c[k..][m - k - 1] == c[m - 1];
    } else {
      assert c[k..] == [c[m]];
      RunsOne(c[m], u);
    }
  }

  lemma RunsDrop(c: seq<Option<Uuid>>, k: nat, u: Uuid)
    requires k < |c|
    ensures Runs(c[k..], u) <= Runs(c, u)
  {
    if k == 0 {
      assert c[k..] == c;
    } else {
      RunsCut(c, k, u);
      RunsZero(c[..k], u);
      assert c[..k][k - 1] == c[k - 1];
    }
  }

  lemma RunsOne(v: Option<Uuid>, u: Uuid)
    ensures Runs([v], u) == if v == Some(u) then 1 else 0
  {
    var c := [v];
    assert c[..0] == [];
  }

  /** The head of a chain taken out. */
  lemma RunsBehead(c: seq<Option<Uuid>>, u: Uuid)
    requires c != []
    ensures Runs([None] + c[1..], u) ==
      Runs(c, u) - if c[0] == Some(u) && (|c| == 1 || c[1] != Some(u)) then 1 else 0
  {
    var d := [None] + c[1..];
    RunsOne(c[0], u);
    RunsOne(None, u);
    if |c| == 1 {
      assert c == [c[0]] && d == [None];
    } else {
      RunsCut(c, 1, u);
      RunsCut(d, 1, u);
      assert c[..1] == [c[0]] && d[..1] == [None] && d[1..] == c[1..];
    }
  }

  // ----- sums over names -----

  lemma {:induction false} WeightsRemove(s: State, u: Uuid, ls: set<Loc>, l: Loc)
    requires l in ls
    ensures Weights(s, u, ls) == Weight(s, l, u) + Weights(s, u, ls - {l})
    decreases ls
  {
    var m :| m in ls && Weights(s, u, ls) == Weight(s, m, u) + Weights(s, u, ls - {m});
    if m != l {
      WeightsRemove(s, u, ls - {m}, l);
      WeightsRemove(s, u, ls - {l}, m);
      assert ls - {m} - {l} == ls - {l} - {m};
    }
  }

  lemma {:induction false} WeightsSame(s: State, s': State, u: Uuid, ls: set<Loc>)
    requires forall l :: l in ls ==> Weight(s', l, u) == Weight(s, l, u)
    ensures Weights(s', u, ls) == Weights(s, u, ls)
    decreases ls
  {
    if ls != {} {
      var l :| l in ls;
      WeightsRemove(s, u, ls, l);
      WeightsRemove(s', u, ls, l);
      WeightsSame(s, s', u, ls - {l});
    }
  }

  lemma {:induction false} WeightsShrink(s: State, s': State, u: Uuid, ls: set<Loc>)
    requires forall l :: l in ls ==> Weight(s', l, u) <= Weight(s, l, u)
    ensures Weights(s', u, ls) <= Weights(s, u, ls)
    decreases ls
  {
    if ls != {} {
      var l :| l in ls;
      WeightsRemove(s, u, ls, l);
      WeightsRemove(s', u, ls, l);
      WeightsShrink(s, s', u, ls - {l});
    }
  }

  lemma NothingThere(s: State, l: Loc, u: Uuid)
    requires l !in s.index.Keys + s.todo.Keys
    ensures Weight(s, l, u) == 0
  {
    assert Chain(s, l) == [None];
    RunsOne(None, u);
  }

  /** Names without anything add nothing. */
  lemma {:induction false} WeightsBeyond(s: State, u: Uuid, ls: set<Loc>)
    requires s.index.Keys + s.todo.Keys <= ls
    ensures Weights(s, u, ls) == NameClaims(s, u)
    decreases ls
  {
    var own := s.index.Keys + s.todo.Keys;
    if l :| l in ls && l !in own {
      WeightsRemove(s, u, ls, l);
      NothingThere(s, l, u);
      WeightsBeyond(s, u, ls - {l});
    } else {
      assert ls == own;
    }
  }

  ghost function Everywhere(s: State, s': State): set<Loc> {
    s.index.Keys + s.todo.Keys + s'.index.Keys + s'.todo.Keys
  }

  /** Where only `l` changes, the sum changes by what `l` does. */
  lemma OneNameChanges(s: State, s': State, u: Uuid, l: Loc)
    requires forall k :: k != l ==> Weight(s', k, u) == Weight(s, k, u)
    ensures NameClaims(s', u) == NameClaims(s, u) - Weight(s, l, u) + Weight(s', l, u)
  {
    var ls := Everywhere(s, s') + {l};
    WeightsBeyond(s, u, ls);
    WeightsBeyond(s', u, ls);
    WeightsRemove(s, u, ls, l);
    WeightsRemove(s', u, ls, l);
    WeightsSame(s, s', u, ls - {l});
  }

  lemma TwoNamesChange(s: State, s': State, u: Uuid, a: Loc, b: Loc)
    requires a != b && forall k :: k != a && k != b ==> Weight(s', k, u) == Weight(s, k, u)
    ensures NameClaims(s', u) ==
      NameClaims(s, u) - Weight(s, a, u) - Weight(s, b, u) + Weight(s', a, u) + Weight(s', b, u)
  {
    var ls := Everywhere(s, s') + {a, b};
    var rest := ls - {a};
    WeightsBeyond(s, u, ls);
    WeightsBeyond(s', u, ls);
    WeightsRemove(s, u, ls, a);
    WeightsRemove(s', u, ls, a);
    WeightsRemove(s, u, rest, b);
    WeightsRemove(s', u, rest, b);
    WeightsSame(s, s', u, rest - {b});
  }

  lemma NamesShrink(s: State, s': State, u: Uuid)
    requires forall l :: Weight(s', l, u) <= Weight(s, l, u)
    ensures NameClaims(s', u) <= NameClaims(s, u)
  {
    var ls := Everywhere(s, s');
    WeightsBeyond(s, u, ls);
    WeightsBeyond(s', u, ls);
    WeightsShrink(s, s', u, ls);
  }

  lemma NamesSame(s: State, s': State, u: Uuid)
    requires forall l :: Weight(s', l, u) == Weight(s, l, u)
    ensures NameClaims(s', u) == NameClaims(s, u)
  {
    NamesShrink(s, s', u);
    NamesShrink(s', s, u);
  }

  /** A name that holds a child takes up a link of it, unless it is being left. */
  lemma WeightPositive(s: State, l: Loc, u: Uuid)
    ensures Weight(s, l, u) > 0 <==> Holds(s, l, u) && !Leaving(s, l, u)
  {
    RunsZero(Chain(s, l), u);
  }

  /** At least one link for every name that takes one up. */
  lemma {:induction false} WeightsCount(s: State, u: Uuid, names: set<Loc>)
    requires forall l :: l in names ==> Weight(s, l, u) > 0
    ensures |names| <= Weights(s, u, names)
    decreases names
  {
    if names != {} {
      var l :| l in names;
      WeightsRemove(s, u, names, l);
      WeightsCount(s, u, names - {l});
    }
  }

  lemma {:induction false} WeightsMore(s: State, u: Uuid, names: set<Loc>, ls: set<Loc>)
    requires names <= ls
    ensures Weights(s, u, names) <= Weights(s, u, ls)
    decreases ls
  {
    if l :| l in ls && l !in names {
      WeightsRemove(s, u, ls, l);
      WeightsMore(s, u, names, ls - {l});
    } else {
      assert names == ls;
    }
  }

  lemma NamesCount(s: State, u: Uuid, names: set<Loc>)
    requires forall l :: l in names ==> Weight(s, l, u) > 0
    ensures |names| <= NameClaims(s, u)
  {
    var ls := s.index.Keys + s.todo.Keys + names;
    WeightsCount(s, u, names);
    WeightsMore(s, u, names, ls);
    WeightsBeyond(s, u, ls);
  }
}
