/** Every step of the link protocol that is safe keeps every claim counted, and no other does. */
module LinkInvariant {
  import opened Names
  import opened Counting
  import opened LinkProtocol
  import opened LinkWeights

  // ----- chains -----

  lemma ChainSame(s: State, s': State, l: Loc)
    requires Todo(s', l) == Todo(s, l) && Get(s'.index, l) == Get(s.index, l)
    ensures Chain(s', l) == Chain(s, l)
  {
  }

  lemma ChainAppended(s: State, s': State, l: Loc, c: Change)
    requires s'.todo == Appended(s, l, c) && s'.index == s.index
    ensures Chain(s', l) == Chain(s, l) + [Effect(c)]
    ensures forall k :: k != l ==> Chain(s', k) == Chain(s, k)
  {
    forall k | k != l ensures Chain(s', k) == Chain(s, k) { ChainSame(s, s', k); }
  }

  lemma ChainFolded(s: State, s': State, l: Loc, k: nat, f: DebtId)
    requires Folds(s, s', l, k, f)
    ensures Chain(s', l) == Chain(s, l)[k..]
    ensures forall m :: m != l ==> Chain(s', m) == Chain(s, m)
  {
    forall m | m != l ensures Chain(s', m) == Chain(s, m) { ChainSame(s, s', m); }
  }

  lemma ChainBeheaded(s: State, s': State, l: Loc)
    requires s'.todo == s.todo && s'.index == Without(s.index, l)
    ensures Chain(s', l) == [None] + Chain(s, l)[1..]
    ensures forall m :: m != l ==> Chain(s', m) == Chain(s, m)
  {
    forall m | m != l ensures Chain(s', m) == Chain(s, m) { ChainSame(s, s', m); }
  }

  // ----- claims that are not names -----

  lemma SameOwing(s: State, s': State, u: Uuid)
    requires s'.debts == s.debts && s'.links == s.links
    ensures |Owing(s', u)| == |Owing(s, u)| && |InFlight(s', u)| == |InFlight(s, u)|
  {
    assert Owing(s', u) == Owing(s, u) && InFlight(s', u) == InFlight(s, u);
  }

  lemma SameNames(s: State, s': State, u: Uuid)
    requires s'.index == s.index && s'.todo == s.todo && s'.moves == s.moves
    ensures NameClaims(s', u) == NameClaims(s, u)
  {
    forall l ensures Weight(s', l, u) == Weight(s, l, u) { ChainSame(s, s', l); }
    NamesSame(s, s', u);
  }

  lemma NewDebt(s: State, s': State, f: DebtId, d: Debt, u: Uuid)
    requires f !in s.debts && s'.debts == s.debts[f := d] && s'.links == s.links
    ensures |Owing(s', u)| == |Owing(s, u)| + if d.uuid == u then 1 else 0
    ensures |InFlight(s', u)| == |InFlight(s, u)|
  {
    SameFlights(s, s', u);
    if d.uuid == u {
      assert Owing(s', u) == Owing(s, u) + {f};
    } else {
      assert Owing(s', u) == Owing(s, u);
    }
  }

  lemma SameFlights(s: State, s': State, u: Uuid)
    requires s'.links == s.links
    ensures InFlight(s', u) == InFlight(s, u)
  {
  }

  lemma DebtEnds(s: State, s': State, f: DebtId, u: Uuid)
    requires f in s.debts && s'.debts == Without(s.debts, f) && s'.links == s.links
    ensures |InFlight(s', u)| == |InFlight(s, u)|
    ensures |Owing(s', u)| == |Owing(s, u)| - if s.debts[f].uuid == u then 1 else 0
  {
    assert InFlight(s', u) == InFlight(s, u);
    assert Owing(s', u) == Owing(s, u) - {f};
  }

  lemma FlightEnds(s: State, s': State, p: Pid, u: Uuid)
    requires s'.links == Without(s.links, p) && s'.debts == s.debts
    ensures |InFlight(s', u)| == |InFlight(s, u)| - if p in InFlight(s, u) then 1 else 0
    ensures |Owing(s', u)| == |Owing(s, u)|
  {
    assert Owing(s', u) == Owing(s, u);
    assert InFlight(s', u) == InFlight(s, u) - {p};
  }

  lemma FlightGoesOn(s: State, s': State, p: Pid, c: Link, u: Uuid)
    requires p in s.links && s'.links == s.links[p := c] && s'.debts == s.debts
    requires c.uuid == s.links[p].uuid && !c.Checked? && !s.links[p].Checked?
    ensures |InFlight(s', u)| == |InFlight(s, u)| && |Owing(s', u)| == |Owing(s, u)|
  {
    assert Owing(s', u) == Owing(s, u) && InFlight(s', u) == InFlight(s, u);
  }

  lemma FlightBegins(s: State, s': State, p: Pid, c: Link, u: Uuid)
    requires p in s.links && s.links[p].Checked? && s'.links == s.links[p := c] && !c.Checked? && s'.debts == s.debts
    ensures |InFlight(s', u)| == |InFlight(s, u)| + if c.uuid == u then 1 else 0
    ensures |Owing(s', u)| == |Owing(s, u)|
  {
    assert Owing(s', u) == Owing(s, u);
    if c.uuid == u {
      assert InFlight(s', u) == InFlight(s, u) + {p};
    } else {
      assert InFlight(s', u) == InFlight(s, u);
    }
  }

  lemma CallBegins(s: State, s': State, p: Pid, c: Link, u: Uuid)
    requires p !in s.links && s'.links == s.links[p := c] && c.Checked? && s'.debts == s.debts
    ensures |InFlight(s', u)| == |InFlight(s, u)| && |Owing(s', u)| == |Owing(s, u)|
  {
    assert Owing(s', u) == Owing(s, u) && InFlight(s', u) == InFlight(s, u);
  }

  lemma NlinkAdjusted(s: State, s': State, w: Uuid, delta: int, u: Uuid)
    requires s'.files == Adjusted(s, w, delta) && IsLive(s, w)
    ensures Nlink(s', u) ==
      if u != w then Nlink(s, u) else if s.files[w].nlink + delta < 0 then 0 else s.files[w].nlink + delta
  {
  }

  /** Where every other child is covered, one child decides. */
  lemma OneDecides(s': State, v: Uuid)
    requires forall u :: u != v ==> Claims(s', u) <= Nlink(s', u)
    ensures Covered(s') <==> Claims(s', v) <= Nlink(s', v)
  {
  }

  // ----- announcing -----

  /** Announcing `u` under a name takes up one more link of it, unless the name has it last or is being left. */
  lemma AppendClaims(s: State, s': State, l: Loc, c: Change, u: Uuid)
    requires s'.todo == Appended(s, l, c) && s'.index == s.index && s'.moves == s.moves
    requires s'.debts == s.debts && s'.links == s.links
    ensures Claims(s', u) == Claims(s, u) +
      if c == Up(u) && Latest(s, l) != Some(u) && !Leaving(s, l, u) then 1 else 0
  {
    SameOwing(s, s', u);
    ChainAppended(s, s', l, c);
    RunsAppend(Chain(s, l), Effect(c), u);
    OneNameChanges(s, s', u, l);
  }

  lemma CreateKeeps(s: State, s': State, l: Loc, u: Uuid)
    requires Covered(s) && EmitNext(s, s', Create(l, u))
    ensures Covered(s')
  {
    forall w ensures Claims(s', w) <= Nlink(s', w) {
      assert Claims(s, w) <= Nlink(s, w);
      AppendClaims(s, s', l, Up(u), w);
    }
  }

  lemma WriteKeeps(s: State, s': State, u: Uuid)
    requires Covered(s) && EmitNext(s, s', WriteInode(u))
    ensures Covered(s')
  {
    forall w ensures Claims(s', w) <= Nlink(s', w) {
      assert Claims(s, w) <= Nlink(s, w);
      SameNames(s, s', w);
      SameOwing(s, s', w);
    }
  }

  lemma UnlinkKeeps(s: State, s': State, l: Loc, u: Uuid, tombstone: bool)
    requires Covered(s) && EmitNext(s, s', Unlink(l, u, tombstone))
    ensures Covered(s')
  {
    forall w ensures Claims(s', w) <= Nlink(s', w) {
      assert Claims(s, w) <= Nlink(s, w);
      AppendClaims(s, s', l, Down(u, tombstone), w);
    }
  }

  lemma EmitSafeIff(s: State, s': State, e: Emission)
    requires Covered(s) && EmitNext(s, s', e)
    ensures Covered(s') <==> EmitSafe(s, e)
  {
    match e
    case Create(l, u) => CreateKeeps(s, s', l, u);
    case WriteInode(u) => WriteKeeps(s, s', u);
    case Update(l, u) => UpdateSafeIff(s, s', l, u);
    case Unlink(l, u, tombstone) => UnlinkKeeps(s, s', l, u, tombstone);
  }

  lemma UpdateSpares(s: State, s': State, l: Loc, u: Uuid, w: Uuid)
    requires Covered(s) && s' == s.(todo := Appended(s, l, Up(u))) && w != u
    ensures Claims(s', w) <= Nlink(s', w)
  {
    assert Claims(s, w) <= Nlink(s, w);
    AppendClaims(s, s', l, Up(u), w);
  }

  lemma UpdateCharges(s: State, s': State, l: Loc, u: Uuid)
    requires Claims(s, u) <= Nlink(s, u) && s' == s.(todo := Appended(s, l, Up(u)))
    ensures Claims(s', u) <= Nlink(s', u) <==> UpdateSafe(s, l, u)
  {
    AppendClaims(s, s', l, Up(u), u);
    SameNlink(s, s', u);
  }

  lemma SameNlink(s: State, s': State, u: Uuid)
    requires s'.files == s.files
    ensures Nlink(s', u) == Nlink(s, u)
  {
  }

  lemma UpdateSafeIff(s: State, s': State, l: Loc, u: Uuid)
    requires Covered(s) && s' == s.(todo := Appended(s, l, Up(u)))
    ensures Covered(s') <==> UpdateSafe(s, l, u)
  {
    forall w | w != u ensures Claims(s', w) <= Nlink(s', w) { UpdateSpares(s, s', l, u, w); }
    OneDecides(s', u);
    assert Claims(s, u) <= Nlink(s, u);
    UpdateCharges(s, s', l, u);
  }

  // ----- compaction -----

  /** A fold gives back the links of what it takes out, and owes one to the child its marker names. */
  lemma FoldClaims(s: State, s': State, l: Loc, k: nat, f: DebtId, u: Uuid)
    requires Folds(s, s', l, k, f)
    ensures var c, freed := Todo(s, l)[k - 1], if Leaving(s, l, u) then 0 else Runs(Chain(s, l)[..k], u);
      && (c.Up? ==> Claims(s', u) <= Claims(s, u))
      && (c.Down? ==> Claims(s', u) == Claims(s, u) - freed + if c.uuid == u && l in s.index then 1 else 0)
  {
    var c, chain := Todo(s, l)[k - 1], Chain(s, l);
    ChainFolded(s, s', l, k, f);
    RunsDrop(chain, k, u);
    RunsCut(chain, k, u);
    assert chain[k] == Effect(c);
    OneNameChanges(s, s', u, l);
    if c.Down? && l in s.index {
      NewDebt(s, s', f, Debt(c.uuid, c.tombstone), u);
    } else {
      SameOwing(s, s', u);
    }
  }

  /** A fold that charges nobody, and every child but the one charged. */
  lemma FoldSpares(s: State, s': State, l: Loc, k: nat, f: DebtId, u: Uuid)
    requires Covered(s) && Folds(s, s', l, k, f)
    requires var c := Todo(s, l)[k - 1]; c.Up? || c.uuid != u || l !in s.index
    ensures Claims(s', u) <= Nlink(s', u)
  {
    FoldClaims(s, s', l, k, f, u);
    assert Claims(s, u) <= Nlink(s, u);
  }

  lemma FoldCharges(s: State, s': State, l: Loc, k: nat, f: DebtId)
    requires Folds(s, s', l, k, f) && Todo(s, l)[k - 1].Down? && l in s.index
    requires Claims(s, Todo(s, l)[k - 1].uuid) <= Nlink(s, Todo(s, l)[k - 1].uuid)
    ensures var v := Todo(s, l)[k - 1].uuid; Claims(s', v) <= Nlink(s', v) <==> FoldSafe(s, l, k)
  {
    var v := Todo(s, l)[k - 1].uuid;
    FoldClaims(s, s', l, k, f, v);
    RunsZero(Chain(s, l)[..k], v);
    SameNlink(s, s', v);
  }

  lemma FoldSafeIff(s: State, s': State, l: Loc, k: nat, f: DebtId)
    requires Covered(s) && Folds(s, s', l, k, f)
    ensures Covered(s') <==> FoldSafe(s, l, k)
  {
    var c := Todo(s, l)[k - 1];
    if c.Down? && l in s.index {
      forall u | u != c.uuid ensures Claims(s', u) <= Nlink(s', u) { FoldSpares(s, s', l, k, f, u); }
      OneDecides(s', c.uuid);
      assert Claims(s, c.uuid) <= Nlink(s, c.uuid);
      FoldCharges(s, s', l, k, f);
    } else {
      forall u ensures Claims(s', u) <= Nlink(s', u) { FoldSpares(s, s', l, k, f, u); }
    }
  }

  lemma RefoldClaims(s: State, s': State, l: Loc, f: DebtId, u: Uuid)
    requires Refolds(s, s', l, f)
    ensures var freed := if l in s.index && s.index[l] == u && (Todo(s, l) == [] || Effect(Todo(s, l)[0]) != Some(u)) && !Leaving(s, l, u) then 1 else 0;
      Claims(s', u) == Claims(s, u) - freed + if l in s.index && s.kept[l] == u then 1 else 0
  {
    var chain := Chain(s, l);
    ChainBeheaded(s, s', l);
    RunsBehead(chain, u);
    OneNameChanges(s, s', u, l);
    if l in s.index {
      NewDebt(s, s', f, Debt(s.kept[l], true), u);
    } else {
      SameOwing(s, s', u);
    }
  }

  lemma RefoldSpares(s: State, s': State, l: Loc, f: DebtId, u: Uuid)
    requires Covered(s) && Refolds(s, s', l, f) && u != s.kept[l]
    ensures Claims(s', u) <= Nlink(s', u)
  {
    RefoldClaims(s, s', l, f, u);
    assert Claims(s, u) <= Nlink(s, u);
  }

  lemma RefoldCharges(s: State, s': State, l: Loc, f: DebtId)
    requires Refolds(s, s', l, f) && Claims(s, s.kept[l]) <= Nlink(s, s.kept[l])
    ensures Claims(s', s.kept[l]) <= Nlink(s', s.kept[l]) <==> RefoldSafe(s, l)
  {
    RefoldClaims(s, s', l, f, s.kept[l]);
    SameNlink(s, s', s.kept[l]);
  }

  lemma RefoldSafeIff(s: State, s': State, l: Loc, f: DebtId)
    requires Covered(s) && Refolds(s, s', l, f)
    ensures Covered(s') <==> RefoldSafe(s, l)
  {
    forall u | u != s.kept[l] ensures Claims(s', u) <= Nlink(s', u) { RefoldSpares(s, s', l, f, u); }
    OneDecides(s', s.kept[l]);
    assert Claims(s, s.kept[l]) <= Nlink(s, s.kept[l]);
    RefoldCharges(s, s', l, f);
  }

  lemma SameDebtors(s: State, s': State, f: DebtId, d: Debt, u: Uuid)
    requires f in s.debts && s'.debts == s.debts[f := d] && d.uuid == s.debts[f].uuid && s'.links == s.links
    ensures |Owing(s', u)| == |Owing(s, u)| && |InFlight(s', u)| == |InFlight(s, u)|
  {
    assert Owing(s', u) == Owing(s, u) && InFlight(s', u) == InFlight(s, u);
  }

  lemma BuryClaims(s: State, s': State, f: DebtId, u: Uuid)
    requires Buries(s, s', f)
    ensures Claims(s', u) == Claims(s, u) && Nlink(s', u) == Nlink(s, u)
  {
    var mid := s.(todo := s'.todo);
    AppendClaims(s, mid, f.loc, Down(s.debts[f].uuid, true), u);
    SameNames(mid, s', u);
    SameDebtors(mid, s', f, s'.debts[f], u);
  }

  lemma BuryKeeps(s: State, s': State, f: DebtId)
    requires Covered(s) && Buries(s, s', f)
    ensures Covered(s')
  {
    forall u ensures Claims(s', u) <= Nlink(s', u) {
      assert Claims(s, u) <= Nlink(s, u);
      BuryClaims(s, s', f, u);
    }
  }

  lemma PayKeeps(s: State, s': State, f: DebtId)
    requires Covered(s) && CompactNext(s, s', Pay(f))
    ensures Covered(s')
  {
    var w := s.debts[f].uuid;
    forall u ensures Claims(s', u) <= Nlink(s', u) {
      assert Claims(s, u) <= Nlink(s, u);
      SameNames(s, s', u);
      DebtEnds(s, s', f, u);
      if IsLive(s, w) {
        NlinkAdjusted(s, s', w, -1, u);
      }
    }
  }

  lemma CollectKeeps(s: State, s': State, l: Loc)
    requires Covered(s) && CompactNext(s, s', Collect(l))
    ensures Covered(s')
  {
    forall u ensures Claims(s', u) <= Nlink(s', u) {
      assert Claims(s, u) <= Nlink(s, u);
      SameNames(s, s', u);
      SameOwing(s, s', u);
    }
  }

  lemma ForgetKeeps(s: State, s': State, f: DebtId)
    requires Covered(s) && CompactNext(s, s', Forget(f))
    ensures Covered(s')
  {
    forall u ensures Claims(s', u) <= Nlink(s', u) {
      assert Claims(s, u) <= Nlink(s, u);
      SameNames(s, s', u);
      DebtEnds(s, s', f, u);
    }
  }

  lemma CompactSafeIff(s: State, s': State, c: Compaction)
    requires Covered(s) && CompactNext(s, s', c)
    ensures Covered(s') <==> CompactSafe(s, c)
  {
    match c
    case Fold(l, k, f) => FoldSafeIff(s, s', l, k, f);
    case Refold(l, f) => RefoldSafeIff(s, s', l, f);
    case Collect(l) => CollectKeeps(s, s', l);
    case Bury(f) => BuryKeeps(s, s', f);
    case Pay(f) => PayKeeps(s, s', f);
    case Forget(f) => ForgetKeeps(s, s', f);
  }

  // ----- hard links -----

  lemma BumpKeeps(s: State, s': State, p: Pid)
    requires Covered(s) && Bumps(s, s', p)
    ensures Covered(s')
  {
    forall u ensures Claims(s', u) <= Nlink(s', u) {
      assert Claims(s, u) <= Nlink(s, u);
      BumpClaims(s, s', p, u);
    }
  }

  lemma BumpNames(s: State, s': State, p: Pid, u: Uuid)
    requires Bumps(s, s', p)
    ensures NameClaims(s', u) == NameClaims(s, u)
  {
    BumpFrame(s, s', p);
    SameNames(s, s', u);
  }

  lemma BumpCounts(s: State, s': State, p: Pid, u: Uuid)
    requires Bumps(s, s', p)
    ensures |Owing(s', u)| == |Owing(s, u)|
    ensures |InFlight(s', u)| - |InFlight(s, u)| <= Nlink(s', u) - Nlink(s, u)
  {
    var c := s.links[p];
    if IsLive(s, c.uuid) {
      FlightBegins(s, s', p, Bumped(c.loc, c.uuid, 0), u);
      NlinkAdjusted(s, s', c.uuid, 1, u);
    } else {
      FlightEnds(s, s', p, u);
    }
  }

  lemma BumpClaims(s: State, s': State, p: Pid, u: Uuid)
    requires Bumps(s, s', p)
    ensures Claims(s', u) - Claims(s, u) <= Nlink(s', u) - Nlink(s, u)
  {
    BumpNames(s, s', p, u);
    BumpCounts(s, s', p, u);
  }

  /** Replacing the index entry of a name with nothing pending. */
  lemma WeightOfEntry(s: State, l: Loc, u: Uuid)
    requires Todo(s, l) == []
    ensures Chain(s, l) == [Get(s.index, l)]
    ensures Weight(s, l, u) == if Get(s.index, l) == Some(u) && !Leaving(s, l, u) then 1 else 0
  {
    RunsOne(Get(s.index, l), u);
  }

  lemma CommitNames(s: State, s': State, l: Loc, w: Uuid, u: Uuid)
    requires l !in s.index && Todo(s, l) == [] && s'.todo == s.todo && s'.moves == s.moves && s'.index == s.index[l := w]
    ensures NameClaims(s', u) <= NameClaims(s, u) + if u == w then 1 else 0
  {
    forall k | k != l ensures Weight(s', k, u) == Weight(s, k, u) { ChainSame(s, s', k); }
    OneNameChanges(s, s', u, l);
    WeightOfEntry(s, l, u);
    WeightOfEntry(s', l, u);
  }

  lemma CommitClaims(s: State, s': State, p: Pid, u: Uuid)
    requires Inserts(s, s', p, false) && s.links[p].loc !in s.index
    ensures Claims(s', u) <= Claims(s, u) && Nlink(s', u) == Nlink(s, u)
  {
    CommitNames(s, s', s.links[p].loc, s.links[p].uuid, u);
    FlightEnds(s, s', p, u);
  }

  lemma RefusedClaims(s: State, s': State, p: Pid, conflict: bool, u: Uuid)
    requires Inserts(s, s', p, conflict) && (s.links[p].loc in s.index || conflict)
    ensures Claims(s', u) == Claims(s, u) && Nlink(s', u) == Nlink(s, u)
  {
    SameNames(s, s', u);
    FlightGoesOn(s, s', p, AfterRefusal(s, s.links[p]), u);
  }

  lemma InsertKeeps(s: State, s': State, p: Pid, conflict: bool)
    requires Covered(s) && Inserts(s, s', p, conflict)
    ensures Covered(s')
  {
    forall u ensures Claims(s', u) <= Nlink(s', u) {
      assert Claims(s, u) <= Nlink(s, u);
      if s.links[p].loc in s.index || conflict {
        RefusedClaims(s, s', p, conflict, u);
      } else {
        CommitClaims(s, s', p, u);
      }
    }
  }

  lemma RollbackKeeps(s: State, s': State, p: Pid, failed: bool)
    requires Covered(s) && LinkNext(s, s', p, Rollback(failed))
    ensures Covered(s')
  {
    var w := s.links[p].uuid;
    forall u ensures Claims(s', u) <= Nlink(s', u) {
      assert Claims(s, u) <= Nlink(s, u);
      SameNames(s, s', u);
      FlightEnds(s, s', p, u);
      if !failed && IsLive(s, w) {
        NlinkAdjusted(s, s', w, -1, u);
      }
    }
  }

  lemma LinkKeeps(s: State, s': State, p: Pid, c: Call)
    requires Covered(s) && LinkNext(s, s', p, c)
    ensures Covered(s')
  {
    match c
    case Start(l, u) =>
      forall w ensures Claims(s', w) <= Nlink(s', w) {
        assert Claims(s, w) <= Nlink(s, w);
        SameNames(s, s', w);
        CallBegins(s, s', p, Checked(l, u), w);
      }
    case Bump => BumpKeeps(s, s', p);
    case Insert(conflict) => InsertKeeps(s, s', p, conflict);
    case Rollback(failed) => RollbackKeeps(s, s', p, failed);
    case Crash =>
      forall w ensures Claims(s', w) <= Nlink(s', w) {
        assert Claims(s, w) <= Nlink(s, w);
        SameNames(s, s', w);
        FlightEnds(s, s', p, w);
      }
  }

  // ----- renames -----

  lemma WithinClaims(s: State, s': State, a: Loc, b: Loc, w: Uuid)
    requires RenameNext(s, s', Within(a, b))
    ensures var u := s.index[a];
      && (w != u ==> Claims(s', w) <= Claims(s, w))
      && (w == u ==>
            Claims(s', u) == Claims(s, u) - (if Leaving(s, a, u) then 0 else 1)
              + (if Holds(s, b, u) || Leaving(s, b, u) then 0 else 1))
  {
    SameOwing(s, s', w);
    forall k | k != a && k != b ensures Weight(s', k, w) == Weight(s, k, w) { ChainSame(s, s', k); }
    TwoNamesChange(s, s', w, a, b);
    WeightOfEntry(s, a, w);
    WeightOfEntry(s, b, w);
    WeightOfEntry(s', a, w);
    WeightOfEntry(s', b, w);
  }

  lemma WithinSafeIff(s: State, s': State, a: Loc, b: Loc)
    requires Covered(s) && RenameNext(s, s', Within(a, b))
    ensures Covered(s') <==> WithinSafe(s, a, b)
  {
    var u := s.index[a];
    forall w | w != u ensures Claims(s', w) <= Nlink(s', w) {
      assert Claims(s, w) <= Nlink(s, w);
      WithinClaims(s, s', a, b, w);
    }
    OneDecides(s', u);
    WithinClaims(s, s', a, b, u);
    assert Claims(s, u) <= Nlink(s, u);
  }

  lemma AddLeaves(s: State, s': State, p: Pid, l: Loc, w: Uuid)
    requires RenameNext(s, s', Add(p))
    ensures Leaving(s', l, w) <==> Leaving(s, l, w) || (l == s.moves[p].src && w == s.moves[p].uuid)
  {
    var m := s.moves[p];
    if Leaving(s, l, w) {
      var q :| q in s.moves && s.moves[q].added && s.moves[q].src == l && s.moves[q].uuid == w;
      assert s'.moves[q].added && s'.moves[q].src == l && s'.moves[q].uuid == w;
    }
    assert s'.moves[p] == m.(added := true);
    if Leaving(s', l, w) {
      var q :| q in s'.moves && s'.moves[q].added && s'.moves[q].src == l && s'.moves[q].uuid == w;
      assert q != p ==> s.moves[q] == s'.moves[q];
    }
  }

  lemma AddElsewhere(s: State, s': State, p: Pid, l: Loc, w: Uuid)
    requires RenameNext(s, s', Add(p)) && l != s.moves[p].dst && (l != s.moves[p].src || w != s.moves[p].uuid)
    ensures Weight(s', l, w) == Weight(s, l, w)
  {
    AddLeaves(s, s', p, l, w);
    ChainSame(s, s', l);
  }

  lemma AddClaims(s: State, s': State, p: Pid, w: Uuid)
    requires MovesOk(s) && RenameNext(s, s', Add(p))
    ensures var m := s.moves[p];
      && (w != m.uuid ==> Claims(s', w) <= Claims(s, w))
      && (w == m.uuid ==>
            Claims(s', w) == Claims(s, w) - Weight(s, m.src, w)
              + (if Holds(s, m.dst, w) || Leaving(s, m.dst, w) then 0 else 1))
  {
    var m := s.moves[p];
    SameOwing(s, s', w);
    forall k | k != m.src && k != m.dst ensures Weight(s', k, w) == Weight(s, k, w) { AddElsewhere(s, s', p, k, w); }
    TwoNamesChange(s, s', w, m.src, m.dst);
    AddLeaves(s, s', p, m.src, w);
    AddLeaves(s, s', p, m.dst, w);
    WeightOfEntry(s, m.dst, w);
    WeightOfEntry(s', m.dst, w);
    if w != m.uuid {
      AddElsewhere(s, s', p, m.src, w);
    }
  }

  /** The source of an added rename takes up nothing any more. */
  lemma AddedIsLeft(s: State, p: Pid)
    requires p in s.moves && s.moves[p].added
    ensures Weight(s, s.moves[p].src, s.moves[p].uuid) == 0
  {
  }

  lemma AddSpares(s: State, s': State, p: Pid, w: Uuid)
    requires Covered(s) && MovesOk(s) && RenameNext(s, s', Add(p)) && w != s.moves[p].uuid
    ensures Claims(s', w) <= Nlink(s', w)
  {
    assert Claims(s, w) <= Nlink(s, w);
    AddClaims(s, s', p, w);
  }

  lemma AddCharges(s: State, s': State, p: Pid)
    requires MovesOk(s) && RenameNext(s, s', Add(p)) && Claims(s, s.moves[p].uuid) <= Nlink(s, s.moves[p].uuid)
    ensures Claims(s', s.moves[p].uuid) <= Nlink(s', s.moves[p].uuid) <==> AddSafe(s, p)
  {
    var u := s.moves[p].uuid;
    AddClaims(s, s', p, u);
    SameNlink(s, s', u);
    if s.moves[p].added {
      AddedIsLeft(s, p);
    }
  }

  lemma AddSafeIff(s: State, s': State, p: Pid)
    requires Covered(s) && MovesOk(s) && RenameNext(s, s', Add(p))
    ensures Covered(s') <==> AddSafe(s, p)
  {
    forall w | w != s.moves[p].uuid ensures Claims(s', w) <= Nlink(s', w) { AddSpares(s, s', p, w); }
    OneDecides(s', s.moves[p].uuid);
    assert Claims(s, s.moves[p].uuid) <= Nlink(s, s.moves[p].uuid);
    AddCharges(s, s', p);
  }

  lemma RemoveKeeps(s: State, s': State, p: Pid)
    requires Covered(s) && RenameNext(s, s', Remove(p))
    ensures Covered(s')
  {
    forall w ensures Claims(s', w) <= Nlink(s', w) {
      assert Claims(s, w) <= Nlink(s, w);
      RemoveClaims(s, s', p, w);
    }
  }

  lemma RemoveClaims(s: State, s': State, p: Pid, w: Uuid)
    requires RenameNext(s, s', Remove(p))
    ensures Claims(s', w) <= Claims(s, w) && Nlink(s', w) == Nlink(s, w)
  {
    SameOwing(s, s', w);
    forall l ensures Weight(s', l, w) <= Weight(s, l, w) { RemoveAt(s, s', p, l, w); }
    NamesShrink(s, s', w);
  }

  lemma RemoveAt(s: State, s': State, p: Pid, l: Loc, w: Uuid)
    requires RenameNext(s, s', Remove(p))
    ensures Weight(s', l, w) <= Weight(s, l, w)
  {
    if l == s.moves[p].src {
      WeightOfEntry(s', l, w);
    } else {
      ChainSame(s, s', l);
      if Leaving(s, l, w) {
        var q :| q in s.moves && s.moves[q].added && s.moves[q].src == l && s.moves[q].uuid == w;
        assert q in s'.moves && s'.moves[q] == s.moves[q];
      }
    }
  }

  /** A rename not yet added leaves nothing. */
  lemma RecheckAt(s: State, s': State, p: Pid, a: Loc, b: Loc, l: Loc, w: Uuid)
    requires RenameNext(s, s', Recheck(p, a, b))
    ensures Weight(s', l, w) == Weight(s, l, w)
  {
    ChainSame(s, s', l);
    if Leaving(s, l, w) {
      var q :| q in s.moves && s.moves[q].added && s.moves[q].src == l && s.moves[q].uuid == w;
      assert q in s'.moves && s'.moves[q] == s.moves[q];
    }
  }

  lemma RecheckKeeps(s: State, s': State, p: Pid, a: Loc, b: Loc)
    requires Covered(s) && RenameNext(s, s', Recheck(p, a, b))
    ensures Covered(s')
  {
    forall w ensures Claims(s', w) <= Nlink(s', w) {
      assert Claims(s, w) <= Nlink(s, w);
      SameOwing(s, s', w);
      forall l ensures Weight(s', l, w) == Weight(s, l, w) { RecheckAt(s, s', p, a, b, l, w); }
      NamesSame(s, s', w);
    }
  }

  lemma RenameSafeIff(s: State, s': State, r: Renaming)
    requires Covered(s) && MovesOk(s) && RenameNext(s, s', r)
    ensures Covered(s') <==> RenameSafe(s, r)
  {
    match r
    case Within(a, b) => WithinSafeIff(s, s', a, b);
    case Recheck(p, a, b) => RecheckKeeps(s, s', p, a, b);
    case Add(p) => AddSafeIff(s, s', p);
    case Remove(p) => RemoveKeeps(s, s', p);
  }

  // ----- garbage collection -----

  lemma GcKeeps(s: State, s': State, c: Collection)
    requires Inv(s) && GcNext(s, s', c)
    ensures Covered(s')
  {
    forall w ensures Claims(s', w) <= Nlink(s', w) {
      assert Claims(s, w) <= Nlink(s, w);
      SameNames(s, s', w);
      SameOwing(s, s', w);
    }
  }

  // ----- all steps -----

  /** From every well-counted state, a step keeps everything counted if and only if it is safe. */
  lemma StepIsSafeIff(s: State, s': State, step: Step)
    requires Inv(s) && NextAny(s, s', step)
    ensures Covered(s') <==> Safe(s, step)
  {
    match step
    case Emits(e) => EmitSafeIff(s, s', e);
    case Compacts(c) => CompactSafeIff(s, s', c);
    case Links(p, call) => LinkKeeps(s, s', p, call);
    case Renames(r) => RenameSafeIff(s, s', r);
    case Collects(g) => GcKeeps(s, s', g);
  }

  // ----- what each kind of step leaves alone -----

  lemma EmitFrame(s: State, s': State, e: Emission)
    requires EmitNext(s, s', e)
    ensures s'.index == s.index && s'.kept == s.kept && s'.links == s.links && s'.debts == s.debts
    ensures s'.buried == s.buried && s'.sweeps == s.sweeps && s'.moves == s.moves
  {
    match e
    case Create(l, u) =>
    case WriteInode(u) =>
    case Update(l, u) =>
    case Unlink(l, u, tombstone) =>
  }

  lemma CompactFrame(s: State, s': State, c: Compaction)
    requires CompactNext(s, s', c)
    ensures s'.links == s.links && s'.sweeps == s.sweeps && s'.moves == s.moves
    ensures s'.files == if c.Pay? then Adjusted(s, s.debts[c.f].uuid, -1) else s.files
    ensures s'.buried == if c.Bury? then s.buried + {s.debts[c.f].uuid} else s.buried
  {
    match c
    case Fold(l, k, f) =>
    case Refold(l, f) =>
    case Collect(l) =>
    case Bury(f) =>
    case Pay(f) =>
    case Forget(f) =>
  }

  /** Only the index, the files and the call itself may change. */
  ghost predicate LeavesRest(s: State, s': State) {
    && s'.todo == s.todo && s'.kept == s.kept && s'.debts == s.debts
    && s'.buried == s.buried && s'.sweeps == s.sweeps && s'.moves == s.moves
  }

  lemma BumpFrame(s: State, s': State, p: Pid)
    requires Bumps(s, s', p)
    ensures LeavesRest(s, s') && s'.index == s.index
    ensures s'.files == s.files || s'.files == Adjusted(s, s.links[p].uuid, 1)
  {
    if IsLive(s, s.links[p].uuid) {
    }
  }

  lemma InsertFrame(s: State, s': State, p: Pid, conflict: bool)
    requires Inserts(s, s', p, conflict)
    ensures LeavesRest(s, s') && s'.files == s.files
  {
    if s.links[p].loc in s.index || conflict {
    }
  }

  lemma LinkFrame(s: State, s': State, p: Pid, c: Call)
    requires LinkNext(s, s', p, c)
    ensures LeavesRest(s, s')
    ensures s'.files == s.files || (p in s.links && c.Bump? && s'.files == Adjusted(s, s.links[p].uuid, 1))
      || (p in s.links && c.Rollback? && s'.files == Adjusted(s, s.links[p].uuid, -1))
  {
    match c
    case Start(l, u) =>
    case Bump => BumpFrame(s, s', p);
    case Insert(conflict) => InsertFrame(s, s', p, conflict);
    case Rollback(failed) =>
    case Crash =>
  }

  lemma RenameFrame(s: State, s': State, r: Renaming)
    requires RenameNext(s, s', r)
    ensures s'.todo == s.todo && s'.kept == s.kept && s'.files == s.files && s'.links == s.links && s'.debts == s.debts
    ensures s'.buried == s.buried && s'.sweeps == s.sweeps
  {
    match r
    case Within(a, b) =>
    case Recheck(p, a, b) =>
    case Add(p) =>
    case Remove(p) =>
  }

  lemma GcFrame(s: State, s': State, c: Collection)
    requires GcNext(s, s', c)
    ensures s'.index == s.index && s'.todo == s.todo && s'.kept == s.kept && s'.links == s.links
    ensures s'.debts == s.debts && s'.buried == s.buried && s'.moves == s.moves
  {
    match c
    case Sweep(g, u) =>
    case Reclaim(g) =>
    case Abandon(g) =>
  }

  // ----- files and collections -----

  /** The child's inode object exists or existed. */
  ghost predicate IsWritten(s: State, u: Uuid) {
    u in s.files && !s.files[u].Unwritten?
  }

  /** A written child stays written, and a count of zero stays zero. */
  ghost predicate StaysPut(s: State, s': State, u: Uuid) {
    && (IsWritten(s, u) ==> IsWritten(s', u))
    && (IsWritten(s, u) && Nlink(s, u) == 0 ==> Nlink(s', u) == 0)
  }

  lemma AdjustedStays(s: State, s': State, w: Uuid, delta: int, u: Uuid)
    requires s'.files == Adjusted(s, w, delta) && (delta <= 0 || u != w)
    ensures StaysPut(s, s', u)
  {
  }

  lemma AdjustedWritten(s: State, s': State, w: Uuid, delta: int, u: Uuid)
    requires s'.files == Adjusted(s, w, delta)
    ensures IsWritten(s, u) ==> IsWritten(s', u)
  {
  }

  lemma EmitStays(s: State, s': State, e: Emission, u: Uuid)
    requires EmitNext(s, s', e)
    ensures StaysPut(s, s', u)
  {
    match e
    case Create(l, w) =>
    case WriteInode(w) =>
    case Update(l, w) =>
    case Unlink(l, w, tombstone) =>
  }

  lemma GcStays(s: State, s': State, c: Collection, u: Uuid)
    requires GcNext(s, s', c)
    ensures StaysPut(s, s', u)
  {
    match c
    case Sweep(g, w) =>
    case Reclaim(g) =>
    case Abandon(g) =>
  }

  lemma WrittenStays(s: State, s': State, step: Step, u: Uuid)
    requires NextAny(s, s', step) && IsWritten(s, u)
    ensures IsWritten(s', u)
    ensures Nlink(s, u) == 0 && !(step.Links? && step.call.Bump? && step.p in s.links && s.links[step.p].uuid == u) ==> Nlink(s', u) == 0
  {
    match step
    case Emits(e) => EmitStays(s, s', e, u);
    case Compacts(c) =>
      CompactFrame(s, s', c);
      if c.Pay? { AdjustedStays(s, s', s.debts[c.f].uuid, -1, u); }
    case Links(p, call) => LinkStays(s, s', p, call, u);
    case Renames(r) => RenameFrame(s, s', r);
    case Collects(g) => GcStays(s, s', g, u);
  }

  lemma LinkStays(s: State, s': State, p: Pid, c: Call, u: Uuid)
    requires LinkNext(s, s', p, c) && IsWritten(s, u)
    ensures IsWritten(s', u)
    ensures Nlink(s, u) == 0 && !(c.Bump? && p in s.links && s.links[p].uuid == u) ==> Nlink(s', u) == 0
  {
    LinkFrame(s, s', p, c);
    if s'.files != s.files {
      var w, delta := s.links[p].uuid, if c.Bump? then 1 else -1;
      AdjustedWritten(s, s', w, delta, u);
      if delta < 0 || u != w { AdjustedStays(s, s', w, delta, u); }
    }
  }

  lemma BuriedStays(s: State, s': State, step: Step)
    requires NextAny(s, s', step)
    ensures s.buried <= s'.buried && forall u :: u in s'.buried && u !in s.buried ==> IsLive(s, u)
  {
    match step
    case Emits(e) => EmitFrame(s, s', e);
    case Compacts(c) => CompactFrame(s, s', c);
    case Links(p, call) => LinkFrame(s, s', p, call);
    case Renames(r) => RenameFrame(s, s', r);
    case Collects(g) => GcFrame(s, s', g);
  }

  /** Collections about to reclaim were so before, or have just seen the count at zero. */
  lemma SweepStays(s: State, s': State, step: Step, g: Pid)
    requires SweepsOk(s) && NextAny(s, s', step) && g in s'.sweeps
    ensures (g in s.sweeps && s'.sweeps[g] == s.sweeps[g])
      || (s'.files == s.files && s'.sweeps[g] in s.buried && Nlink(s, s'.sweeps[g]) == 0)
  {
    match step
    case Emits(e) => EmitFrame(s, s', e);
    case Compacts(c) => CompactFrame(s, s', c);
    case Links(p, call) => LinkFrame(s, s', p, call);
    case Renames(r) => RenameFrame(s, s', r);
    case Collects(c) => GcSweeps(s, s', c, g);
  }

  lemma GcSweeps(s: State, s': State, c: Collection, g: Pid)
    requires SweepsOk(s) && GcNext(s, s', c) && g in s'.sweeps
    ensures (g in s.sweeps && s'.sweeps[g] == s.sweeps[g])
      || (s'.files == s.files && s'.sweeps[g] in s.buried && Nlink(s, s'.sweeps[g]) == 0)
  {
    match c
    case Sweep(h, u) =>
    case Reclaim(h) =>
    case Abandon(h) =>
  }

  lemma SweepsStay(s: State, s': State, step: Step)
    requires SweepsOk(s) && NextAny(s, s', step) && BumpSafe(s, step)
    ensures SweepsOk(s')
  {
    BuriedStays(s, s', step);
    forall u | u in s'.buried ensures IsWritten(s', u) {
      WrittenStays(s, s', step, u);
    }
    forall g | g in s'.sweeps ensures s'.sweeps[g] in s'.buried && Nlink(s', s'.sweeps[g]) == 0 {
      SweepStays(s, s', step, g);
      if g in s.sweeps && s'.sweeps[g] == s.sweeps[g] {
        assert Condemned(s, s.sweeps[g]);
        WrittenStays(s, s', step, s.sweeps[g]);
      }
    }
  }

  lemma RenameMoves(s: State, s': State, r: Renaming)
    requires MovesOk(s) && RenameNext(s, s', r)
    ensures MovesOk(s')
  {
    match r
    case Within(a, b) =>
    case Recheck(p, a, b) =>
    case Add(p) =>
    case Remove(p) =>
  }

  lemma MovesStay(s: State, s': State, step: Step)
    requires MovesOk(s) && NextAny(s, s', step)
    ensures MovesOk(s')
  {
    match step
    case Emits(e) => EmitFrame(s, s', e);
    case Compacts(c) => CompactFrame(s, s', c);
    case Links(p, call) => LinkFrame(s, s', p, call);
    case Renames(r) => RenameMoves(s, s', r);
    case Collects(g) => GcFrame(s, s', g);
  }

  lemma StepKeeps(s: State, s': State, step: Step)
    requires Inv(s) && Next(s, s', step)
    ensures Inv(s')
  {
    StepIsSafeIff(s, s', step);
    SweepsStay(s, s', step);
    MovesStay(s, s', step);
  }
}
