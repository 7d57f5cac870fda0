/** One directory as it lies in S3: pending scatter objects over a persisted index. */
module ScatterStore {
  import opened Names

  datatype Op = Create | Update | PreDelete | Delete

  /**
   * A scatter object. `stamp` is its rank in the per-name order that picks the latest
   * scatter (LastView relates ranks to last-modified time, ULID and key); `entry` is the
   * directory entry its key and body describe.
   */
  datatype Scatter = Scatter(name: Name, stamp: nat, op: Op, entry: Entry)

  /** What a scatter says its name resolves to. */
  function Effect(s: Scatter): Option<Entry> {
    if s.op.Create? || s.op.Update? then Some(s.entry) else None
  }

  /** The inode version, the index it carries, and the scatter objects present. */
  datatype Store = Store(version: nat, index: map<Name, Entry>, scatters: set<Scatter>)

  ghost predicate Pending(scatters: set<Scatter>, n: Name) {
    exists s :: s in scatters && s.name == n
  }

  ghost predicate IsLatest(scatters: set<Scatter>, n: Name, s: Scatter) {
    s in scatters && s.name == n && forall k :: k in scatters && k.name == n ==> k.stamp <= s.stamp
  }

  ghost predicate IsOldest(scatters: set<Scatter>, s: Scatter) {
    s in scatters && forall k :: k in scatters && k.name == s.name ==> s.stamp <= k.stamp
  }

  /** No two scatters of one name share a rank. */
  ghost predicate Ranked(scatters: set<Scatter>) {
    forall a, b :: a in scatters && b in scatters && a.name == b.name && a.stamp == b.stamp ==> a == b
  }

  lemma {:induction false} LatestExists(scatters: set<Scatter>, n: Name)
    requires Pending(scatters, n)
    ensures exists s :: IsLatest(scatters, n, s)
    decreases scatters
  {
    var s :| s in scatters && s.name == n;
    var rest := scatters - {s};
    if Pending(rest, n) {
      LatestExists(rest, n);
      var m :| IsLatest(rest, n, m);
      assert IsLatest(scatters, n, if m.stamp <= s.stamp then s else m);
    } else {
      assert IsLatest(scatters, n, s);
    }
  }

  ghost function LatestOf(scatters: set<Scatter>, n: Name): (s: Scatter)
    requires Pending(scatters, n)
    ensures IsLatest(scatters, n, s)
  {
    LatestExists(scatters, n);
    var s :| IsLatest(scatters, n, s);
    s
  }

  /** What a name resolves to: its latest pending scatter, and only failing that the index. */
  ghost function Visible(st: Store, n: Name): Option<Entry> {
    if Pending(st.scatters, n) then Effect(LatestOf(st.scatters, n)) else Get(st.index, n)
  }

  lemma VisibleOfLatest(st: Store, s: Scatter)
    requires Ranked(st.scatters) && IsLatest(st.scatters, s.name, s)
    ensures Visible(st, s.name) == Effect(s)
  {
    assert LatestOf(st.scatters, s.name) == s;
  }
}
