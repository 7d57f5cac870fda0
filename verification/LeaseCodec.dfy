/** The two-line body of the compactor lease object. */
module LeaseCodec {
  import opened Names
  import opened Words
  import opened Text

  const HOLDER := "holder="
  const EXPIRES := "expires_at_unix_ms="

  datatype Lease = Lease(holder: string, expires: I64)

  function LeaseBody(l: Lease): string {
    HOLDER + l.holder + "\n" + (EXPIRES + DecimalOf(l.expires) + "\n")
  }

  function StripPrefix(s: string, p: string): Option<string> {
    if p <= s then Some(s[|p|..]) else None
  }

  /** What the lines read so far say; a later line of a kind overrides an earlier one. */
  datatype Seen = Seen(holder: Option<string>, expires: Option<I64>)

  function Scan(lines: seq<string>): Seen {
    if lines == [] then Seen(None, None)
    else
      var before, line := Scan(lines[..|lines| - 1]), lines[|lines| - 1];
      if StripPrefix(line, HOLDER).Some? then before.(holder := StripPrefix(line, HOLDER))
      else if StripPrefix(line, EXPIRES).Some? then before.(expires := ParseI64(StripPrefix(line, EXPIRES).value))
      else before
  }

  /** None is the InvalidData error for a missing or unreadable field. */
  function LeaseOf(seen: Seen): Option<Lease> {
    if seen.holder.Some? && seen.expires.Some? then Some(Lease(seen.holder.value, seen.expires.value)) else None
  }

  function ParsedLease(body: string): Option<Lease> {
    LeaseOf(Scan(Lines(body)))
  }

  method ParseLeaseBody(body: string) returns (lease: Option<Lease>)
    ensures lease == ParsedLease(body)
    ensures forall l :: lease == Some(l) <==> Says(Lines(body), l)
  {
    var lines := Lines(body);
    var holder: Option<string>, expires: Option<I64> := None, None;
    for i := 0 to |lines|
      invariant Seen(holder, expires) == Scan(lines[..i])
    {
      assert lines[..i + 1][..i] == lines[..i];
      var h := StripPrefix(lines[i], HOLDER);
      if h.Some? {
        holder := h;
      } else {
        var e := StripPrefix(lines[i], EXPIRES);
        if e.Some? {
          expires := ParseI64(e.value);
        }
      }
    }
    assert lines[..|lines|] == lines;
    forall l ensures ParsedLease(body) == Some(l) <==> Says(lines, l) { ParsedIsLastLines(body, l); }
    if holder.None? || expires.None? {
      return None;
    }
    return Some(Lease(holder.value, expires.value));
  }

  /** Line `k` is the last with the prefix. */
  ghost predicate LastWith(lines: seq<string>, prefix: string, k: int) {
    && 0 <= k < |lines| && prefix <= lines[k]
    && forall j :: k < j < |lines| ==> !(prefix <= lines[j])
  }

  /** The last holder line and the last expiry line give just this lease. */
  ghost predicate Says(lines: seq<string>, l: Lease) {
    && (exists k :: LastWith(lines, "holder=", k) && lines[k] == "holder=" + l.holder)
    && (exists k :: LastWith(lines, "expires_at_unix_ms=", k)
          && ParseI64(lines[k][|"expires_at_unix_ms="|..]) == Some(l.expires))
  }

  lemma {:induction false} ScanIsLast(lines: seq<string>, k: int)
    ensures LastWith(lines, HOLDER, k) ==> Scan(lines).holder == Some(lines[k][|HOLDER|..])
    ensures LastWith(lines, EXPIRES, k) ==> Scan(lines).expires == ParseI64(lines[k][|EXPIRES|..])
  {
    if lines != [] {
      var m := |lines| - 1;
      assert lines[m][..] == lines[m];
      assert !(HOLDER <= lines[m] && EXPIRES <= lines[m]) by {
        assert HOLDER[0] != EXPIRES[0];
      }
      if k < m {
        ScanIsLast(lines[..m], k);
        forall p | LastWith(lines, p, k) ensures LastWith(lines[..m], p, k) {}
      }
    }
  }

  lemma ExtendLast(lines: seq<string>, prefix: string, k: int)
    requires lines != [] && LastWith(lines[..|lines| - 1], prefix, k) && !(prefix <= lines[|lines| - 1])
    ensures LastWith(lines, prefix, k)
  {
    forall j | k < j < |lines| ensures !(prefix <= lines[j]) {
      assert j < |lines| - 1 ==> lines[j] == lines[..|lines| - 1][j];
    }
  }

  lemma {:induction false} ScanHasHolder(lines: seq<string>) returns (k: int)
    requires Scan(lines).holder.Some?
    ensures LastWith(lines, HOLDER, k)
  {
    k := |lines| - 1;
    if !(HOLDER <= lines[k]) {
      k := ScanHasHolder(lines[..k]);
      ExtendLast(lines, HOLDER, k);
    }
  }

  lemma {:induction false} ScanHasExpiry(lines: seq<string>) returns (k: int)
    requires Scan(lines).expires.Some?
    ensures LastWith(lines, EXPIRES, k)
  {
    k := |lines| - 1;
    if !(EXPIRES <= lines[k]) {
      k := ScanHasExpiry(lines[..k]);
      ExtendLast(lines, EXPIRES, k);
    }
  }

  /** A body parses to a lease exactly when its last lines of each kind say so. */
  lemma ParsedIsLastLines(body: string, l: Lease)
    ensures ParsedLease(body) == Some(l) <==> Says(Lines(body), l)
  {
    var lines := Lines(body);
    if ParsedLease(body) == Some(l) {
      var h := ScanHasHolder(lines);
      var e := ScanHasExpiry(lines);
    }
    forall k: int ensures (LastWith(lines, HOLDER, k) ==> Scan(lines).holder == Some(lines[k][|HOLDER|..]))
      && (LastWith(lines, EXPIRES, k) ==> Scan(lines).expires == ParseI64(lines[k][|EXPIRES|..]))
    {
      ScanIsLast(lines, k);
    }
  }

  /** A holder that fits on a line. */
  predicate OneLine(h: string) {
    '\n' !in h && StripCr(h) == h
  }

  lemma ScanTwo(a: string, b: string)
    ensures Scan([a, b]) ==
      var first := Scan([a]);
      if StripPrefix(b, HOLDER).Some? then first.(holder := StripPrefix(b, HOLDER))
      else if StripPrefix(b, EXPIRES).Some? then first.(expires := ParseI64(StripPrefix(b, EXPIRES).value))
      else first
  {
    assert [a, b][..1] == [a];
  }

  lemma {:induction false} ScannedHolder(lines: seq<string>)
    requires forall i :: 0 <= i < |lines| ==> '\n' !in lines[i]
    ensures Scan(lines).holder.Some? ==> '\n' !in Scan(lines).holder.value
  {
    if lines != [] {
      ScannedHolder(lines[..|lines| - 1]);
    }
  }

  lemma PlainNumber(x: int)
    ensures '\n' !in DecimalOf(x) && '\r' !in DecimalOf(x) && DecimalOf(x) != []
  {
  }

  lemma LinesOfBody(l: Lease)
    requires '\n' !in l.holder
    ensures Lines(LeaseBody(l)) == [HOLDER + StripCr(l.holder), EXPIRES + DecimalOf(l.expires)]
  {
    var a, b := HOLDER + l.holder, EXPIRES + DecimalOf(l.expires);
    PlainNumber(l.expires);
    LinesFirst(a, b + "\n");
    assert b + "\n" == b + "\n" + "";
    LinesFirst(b, "");
    assert b[|b| - 1] == DecimalOf(l.expires)[|DecimalOf(l.expires)| - 1];
    assert StripCr(a) == HOLDER + StripCr(l.holder);
  }

  /** A lease body reads back as written exactly when its holder fits on a line. */
  lemma LeaseRoundTripIff(l: Lease)
    ensures ParsedLease(LeaseBody(l)) == Some(l) <==> OneLine(l.holder)
  {
    var body := LeaseBody(l);
    forall i | 0 <= i < |Lines(body)| ensures '\n' !in Lines(body)[i] { LinesAreClean(body, i); }
    ScannedHolder(Lines(body));
    if '\n' !in l.holder {
      LinesOfBody(l);
      var a, b := HOLDER + StripCr(l.holder), EXPIRES + DecimalOf(l.expires);
      assert StripPrefix(a, HOLDER) == Some(StripCr(l.holder));
      assert [a][..0] == [];
      assert Scan([a]) == Seen(Some(StripCr(l.holder)), None);
      assert b[0] == 'e' && StripPrefix(b, HOLDER) == None;
      assert StripPrefix(b, EXPIRES) == Some(DecimalOf(l.expires));
      ScanTwo(a, b);
      I64Parses(l.expires);
    }
  }
}
