/** Decimal numbers, splitting and lines, as the standard library of the source has them. */
module Text {
  import opened Names
  import opened Words

  // ----- decimal -----

  predicate IsDigit(c: char) {
    '0' <= c <= '9'
  }

  function Digit(d: nat): (c: char)
    requires d < 10
    ensures IsDigit(c) && c as int - '0' as int == d
  {
    ('0' as int + d) as char
  }

  function Decimal(n: nat): (s: string)
    ensures s != [] && forall c :: c in s ==> IsDigit(c)
  {
    if n < 10 then [Digit(n)] else Decimal(n / 10) + [Digit(n % 10)]
  }

  function DecimalOf(x: int): string {
    if x < 0 then "-" + Decimal(-x) else Decimal(x)
  }

  /** The value of a nonempty run of digits. */
  function ParseDigits(s: string): Option<nat> {
    if s == [] then None
    else
      var c := s[|s| - 1];
      if !IsDigit(c) then None
      else if |s| == 1 then Some(c as int - '0' as int)
      else
        var rest := ParseDigits(s[..|s| - 1]);
        if rest.None? then None else Some(10 * rest.value + (c as int - '0' as int))
  }

  /** Accepts a leading plus sign; fails above `max`. */
  function ParseUnsigned(s: string, max: nat): (r: Option<nat>)
    ensures r.Some? ==> r.value <= max
  {
    var digits := if s != [] && s[0] == '+' then s[1..] else s;
    var v := ParseDigits(digits);
    if v.Some? && v.value <= max then v else None
  }

  function ParseI64(s: string): Option<I64> {
    if s != [] && s[0] == '-' then
      var v := ParseDigits(s[1..]);
      if v.Some? && v.value as int <= -I64_MIN then Some(0 - v.value as int) else None
    else
      var v := ParseUnsigned(s, I64_MAX);
      if v.Some? then Some(v.value) else None
  }

  lemma {:induction false} DecimalParses(n: nat)
    ensures ParseDigits(Decimal(n)) == Some(n)
  {
    if n >= 10 {
      DecimalParses(n / 10);
      assert Decimal(n)[..|Decimal(n)| - 1] == Decimal(n / 10);
    }
  }

  function Power10(i: nat): (p: nat)
    ensures p > 0
  {
    if i == 0 then 1 else 10 * Power10(i - 1)
  }

  /** Place value: every character a digit, the first counting the highest power of ten. */
  function PlaceValue(s: string): int {
    if s == [] then 0 else (s[0] as int - '0' as int) * Power10(|s| - 1) + PlaceValue(s[1..])
  }

  lemma {:induction false} PlaceValueGrows(s: string, c: char)
    ensures PlaceValue(s + [c]) == 10 * PlaceValue(s) + (c as int - '0' as int)
  {
    var all := s + [c];
    if s == [] {
      assert all[1..] == [];
    } else {
      PlaceValueGrows(s[1..], c);
      assert all[1..] == s[1..] + [c];
      var d, p := s[0] as int - '0' as int, Power10(|s| - 1);
      assert d * (10 * p) == 10 * (d * p);
    }
  }

  /** The usual decimal notation, without leading zeros. */
  lemma {:induction false} DecimalIsPlaceValue(n: nat)
    ensures PlaceValue(Decimal(n)) == n
    ensures |Decimal(n)| > 1 ==> Decimal(n)[0] != '0'
  {
    if n >= 10 {
      DecimalIsPlaceValue(n / 10);
      PlaceValueGrows(Decimal(n / 10), Digit(n % 10));
      if n / 10 < 10 {
        assert Decimal(n / 10) == [Digit(n / 10)];
      }
    } else {
      assert Decimal(n)[1..] == [];
    }
  }

  /** Numbers up to the maximum parse, larger ones do not. */
  lemma UnsignedParses(n: nat, max: nat)
    ensures ParseUnsigned(Decimal(n), max) == if n <= max then Some(n) else None
  {
    DecimalParses(n);
    assert Decimal(n)[0] in Decimal(n);
  }

  /** A plus sign makes no difference. */
  lemma PlusParses(n: nat, max: nat)
    ensures ParseUnsigned("+" + Decimal(n), max) == ParseUnsigned(Decimal(n), max)
  {
    UnsignedParses(n, max);
    DecimalParses(n);
    assert ("+" + Decimal(n))[1..] == Decimal(n);
  }

  lemma DecimalHasNoSign(n: nat)
    ensures Decimal(n)[0] != '-' && Decimal(n)[0] != '+'
  {
    assert Decimal(n)[0] in Decimal(n);
  }

  lemma I64Parses(x: int)
    ensures ParseI64(DecimalOf(x)) == if I64_MIN <= x <= I64_MAX then Some(x) else None
  {
    if x < 0 {
      var n: nat := -x;
      DecimalParses(n);
      var s := "-" + Decimal(n);
      assert s[1..] == Decimal(n);
      assert DecimalOf(x) == s;
    } else {
      UnsignedParses(x, I64_MAX);
      DecimalHasNoSign(x);
    }
  }

  // ----- splitting -----

  function Split(s: string, c: char): (r: seq<string>)
    ensures |r| >= 1
  {
    if s == [] then [[]]
    else
      var r := Split(s[1..], c);
      if s[0] == c then [[]] + r else [[s[0]] + r[0]] + r[1..]
  }

  lemma {:induction false} SplitFirst(a: string, c: char, b: string)
    requires c !in a
    ensures Split(a + [c] + b, c) == [a] + Split(b, c)
  {
    var s := a + [c] + b;
    if a == [] {
      assert s[1..] == b;
    } else {
      assert s[1..] == a[1..] + [c] + b;
      SplitFirst(a[1..], c, b);
      assert [a[0]] + a[1..] == a;
    }
  }

  lemma {:induction false} SplitAround(a: string, c: char, b: string)
    ensures Split(a + [c] + b, c) == Split(a, c) + Split(b, c)
  {
    var s := a + [c] + b;
    if a == [] {
      assert s[1..] == b;
    } else {
      assert s[1..] == a[1..] + [c] + b;
      SplitAround(a[1..], c, b);
    }
  }

  lemma {:induction false} SplitFinds(a: string, c: char)
    ensures |Split(a, c)| >= 2 <==> c in a
  {
    if a != [] {
      SplitFinds(a[1..], c);
      assert a == [a[0]] + a[1..];
    }
  }

  lemma {:induction false} SplitCounts(s: string, c: char)
    ensures |Split(s, c)| == multiset(s)[c] + 1
  {
    if s != [] {
      SplitCounts(s[1..], c);
      assert s == [s[0]] + s[1..];
    }
  }

  lemma {:induction false} SplitNone(a: string, c: char)
    requires c !in a
    ensures Split(a, c) == [a]
  {
    if a != [] {
      SplitNone(a[1..], c);
      assert [a[0]] + a[1..] == a;
    }
  }

  lemma {:induction false} SplitIsClean(s: string, c: char, k: nat)
    requires k < |Split(s, c)|
    ensures c !in Split(s, c)[k]
    ensures forall x :: x in Split(s, c)[k] ==> x in s
  {
    if s != [] {
      var r := Split(s[1..], c);
      if s[0] == c {
        if k > 0 { SplitIsClean(s[1..], c, k - 1); }
      } else {
        SplitIsClean(s[1..], c, k);
        assert k > 0 ==> Split(s, c)[k] == r[k];
      }
    }
  }

  function Join(fields: seq<string>, c: char): string {
    if |fields| == 0 then [] else if |fields| == 1 then fields[0] else fields[0] + [c] + Join(fields[1..], c)
  }

  lemma {:induction false} SplitOfJoin(fields: seq<string>, c: char)
    requires |fields| > 0 && forall f :: f in fields ==> c !in f
    ensures Split(Join(fields, c), c) == fields
  {
    if |fields| == 1 {
      SplitNone(fields[0], c);
    } else {
      SplitOfJoin(fields[1..], c);
      SplitFirst(fields[0], c, Join(fields[1..], c));
      assert [fields[0]] + fields[1..] == fields;
    }
  }

  lemma {:induction false} JoinChars(fields: seq<string>, c: char, d: char)
    requires c != d && forall f :: f in fields ==> d !in f
    ensures d !in Join(fields, c)
  {
    if |fields| > 1 {
      JoinChars(fields[1..], c, d);
    }
  }

  lemma {:induction false} JoinLast(fields: seq<string>, c: char)
    requires |fields| > 0 && fields[|fields| - 1] != []
    ensures var s, l := Join(fields, c), fields[|fields| - 1]; s != [] && s[|s| - 1] == l[|l| - 1]
  {
    if |fields| > 1 {
      JoinLast(fields[1..], c);
    }
  }

  // ----- lines -----

  function StripCr(l: string): string {
    if l != [] && l[|l| - 1] == '\r' then l[..|l| - 1] else l
  }

  /** Lines end in LF or CRLF; the last may lack its terminator, and then keeps a CR. */
  function LinesOf(parts: seq<string>): seq<string> {
    if |parts| == 0 then []
    else if |parts| == 1 then (if parts[0] == [] then [] else parts)
    else [StripCr(parts[0])] + LinesOf(parts[1..])
  }

  function Lines(s: string): seq<string> {
    LinesOf(Split(s, '\n'))
  }

  lemma LinesFirst(a: string, b: string)
    requires '\n' !in a
    ensures Lines(a + "\n" + b) == [StripCr(a)] + Lines(b)
  {
    SplitFirst(a, '\n', b);
    assert ([a] + Split(b, '\n'))[1..] == Split(b, '\n');
  }

  lemma {:induction false} LinesOfClean(parts: seq<string>, k: nat)
    requires forall i :: 0 <= i < |parts| ==> '\n' !in parts[i]
    requires k < |LinesOf(parts)|
    ensures '\n' !in LinesOf(parts)[k]
  {
    if |parts| > 1 && k > 0 { LinesOfClean(parts[1..], k - 1); }
  }

  lemma LinesAreClean(s: string, k: nat)
    requires k < |Lines(s)|
    ensures '\n' !in Lines(s)[k]
  {
    forall i | 0 <= i < |Split(s, '\n')| ensures '\n' !in Split(s, '\n')[i] { SplitIsClean(s, '\n', i); }
    LinesOfClean(Split(s, '\n'), k);
  }
}
