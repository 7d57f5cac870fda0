/** Scatter object keys: `<dir>/!/<base64 name>/<ulid>_<uuid>_<op><suffix>`. */
module ScatterKeys {
  import opened Names
  import opened Text
  import B64 = Base64

  datatype KeyOp = Create | Update | PreDelete | Delete | Unknown

  function OpCode(op: KeyOp): nat {
    match op case Create => 1 case Update => 2 case PreDelete => 3 case Delete => 4 case Unknown => 255
  }

  function OpOf(n: nat): KeyOp {
    if n == 1 then Create else if n == 2 then Update else if n == 3 then PreDelete else if n == 4 then Delete else Unknown
  }

  /** The text of a ULID or UUID. */
  predicate IsToken(s: string) {
    s != [] && forall c :: c in s ==> '0' <= c <= '9' || 'A' <= c <= 'Z' || 'a' <= c <= 'z' || c == '-'
  }

  datatype Key = Key(name: Name, ulid: string, uuid: string, op: KeyOp)

  function Suffix(op: KeyOp): string {
    if op.Delete? then ".tombstone" else ".inode"
  }

  function Fields(k: Key): string {
    Join([k.ulid, k.uuid, Decimal(OpCode(k.op))], '_')
  }

  /** Everything after the `!`. */
  function Tail(k: Key): string {
    "/" + B64.Encode(k.name) + "/" + Fields(k) + Suffix(k.op)
  }

  function PathEncode(dir: string, k: Key): string {
    dir + "/" + "!" + Tail(k)
  }

  function OpText(op: KeyOp): string {
    match op
    case Create => "1.inode"
    case Update => "2.inode"
    case PreDelete => "3.inode"
    case Delete => "4.tombstone"
    case Unknown => "255.inode"
  }

  lemma OpIsText(op: KeyOp)
    ensures Decimal(OpCode(op)) + Suffix(op) == OpText(op)
  {
    if op.Unknown? {
      assert Decimal(2) == "2" && Decimal(25) == "25" && Decimal(255) == "255";
    }
  }

  lemma JoinThree(a: string, b: string, c: string, x: char)
    ensures Join([a, b, c], x) == a + [x] + b + [x] + c
  {
    assert [a, b, c][1..] == [b, c] && [b, c][1..] == [c];
    assert Join([c], x) == c;
    assert Join([b, c], x) == b + [x] + c;
  }

  /** The key, written out. */
  lemma KeyText(dir: string, k: Key)
    ensures PathEncode(dir, k) == dir + "/!/" + B64.Encode(k.name) + "/" + (k.ulid + "_" + k.uuid + "_" + OpText(k.op))
  {
    TailText(k);
    Regroup(dir, B64.Encode(k.name), k.ulid + "_" + k.uuid + "_" + OpText(k.op));
  }

  lemma Regroup(dir: string, name: string, rest: string)
    ensures dir + "/" + "!" + ("/" + name + "/" + rest) == dir + "/!/" + name + "/" + rest
  {
  }

  lemma TailText(k: Key)
    ensures Tail(k) == "/" + B64.Encode(k.name) + "/" + (k.ulid + "_" + k.uuid + "_" + OpText(k.op))
  {
    var code := Decimal(OpCode(k.op));
    JoinThree(k.ulid, k.uuid, code, '_');
    OpIsText(k.op);
    assert Fields(k) + Suffix(k.op) == k.ulid + "_" + k.uuid + "_" + (code + Suffix(k.op));
  }

  function TrimSlashes(s: string): string {
    if s != [] && s[0] == '/' then TrimSlashes(s[1..]) else s
  }

  function StripSuffix(s: string, suffix: string): Option<string> {
    if |suffix| <= |s| && s[|s| - |suffix|..] == suffix then Some(s[..|s| - |suffix|]) else None
  }

  datatype Halves = Halves(before: string, after: string)

  function SplitOnce(s: string, c: char): Option<Halves> {
    if s == [] then None
    else if s[0] == c then Some(Halves([], s[1..]))
    else
      var r := SplitOnce(s[1..], c);
      if r.None? then None else Some(Halves([s[0]] + r.value.before, r.value.after))
  }

  function ParseStem(stem: string): Option<Key> {
    var halves := SplitOnce(stem, '/');
    if halves.None? then None
    else
      var name, parts := B64.Decode(halves.value.before), Split(halves.value.after, '_');
      if name.None? || |parts| < 3 || !IsToken(parts[0]) || !IsToken(parts[1]) then None
      else
        var op := ParseUnsigned(parts[2], 255);
        if op.None? then None else Some(Key(name.value, parts[0], parts[1], OpOf(op.value)))
  }

  /** None stands for the panics of the source. */
  function PathDecode(path: string): Option<Key> {
    var components := Split(path, '!');
    if |components| != 2 then None
    else
      var rest := TrimSlashes(components[1]);
      var live := StripSuffix(rest, ".inode");
      var stem := if live.Some? then live else StripSuffix(rest, ".tombstone");
      if stem.None? then None else ParseStem(stem.value)
  }

  // ----- round trip -----

  predicate WellFormed(k: Key) {
    IsToken(k.ulid) && IsToken(k.uuid)
  }

  lemma FieldsAreSafe(k: Key)
    requires WellFormed(k)
    ensures '/' !in Fields(k) && '!' !in Fields(k) && Fields(k) != []
    ensures Split(Fields(k), '_') == [k.ulid, k.uuid, Decimal(OpCode(k.op))]
  {
    var fields := [k.ulid, k.uuid, Decimal(OpCode(k.op))];
    JoinChars(fields, '_', '/');
    JoinChars(fields, '_', '!');
    SplitOfJoin(fields, '_');
  }

  lemma {:induction false} SplitOnceFinds(a: string, c: char, b: string)
    requires c !in a
    ensures SplitOnce(a + [c] + b, c) == Some(Halves(a, b))
  {
    var s := a + [c] + b;
    if a == [] {
      assert s[1..] == b;
    } else {
      assert s[1..] == a[1..] + [c] + b;
      SplitOnceFinds(a[1..], c, b);
      assert s[0] == a[0] && [a[0]] + a[1..] == a;
    }
  }

  lemma {:induction false} SplitOnceMisses(a: string, c: char)
    requires c !in a
    ensures SplitOnce(a, c) == None
  {
    if a != [] {
      SplitOnceMisses(a[1..], c);
    }
  }

  /** The two suffixes cannot be mistaken for each other. */
  lemma StripsSuffix(stem: string, op: KeyOp)
    ensures var rest := stem + Suffix(op);
      (if StripSuffix(rest, ".inode").Some? then StripSuffix(rest, ".inode") else StripSuffix(rest, ".tombstone")) == Some(stem)
  {
    var rest := stem + Suffix(op);
    if op.Delete? {
      assert rest[|rest| - 6] == 'b';
      assert rest[|rest| - 6..][0] == 'b';
      assert rest[|rest| - 10..] == ".tombstone";
    } else {
      assert rest[|rest| - 6..] == ".inode";
    }
  }

  lemma ParseStemOf(k: Key)
    requires WellFormed(k)
    ensures ParseStem(B64.Encode(k.name) + "/" + Fields(k)) == Some(k)
  {
    B64.EncodeIsSafe(k.name);
    SplitOnceFinds(B64.Encode(k.name), '/', Fields(k));
    FieldsAreSafe(k);
    B64.RoundTrip(k.name, []);
    UnsignedParses(OpCode(k.op), 255);
  }

  lemma TrimsOne(s: string)
    ensures TrimSlashes("/" + s) == TrimSlashes(s)
  {
    assert ("/" + s)[1..] == s;
  }

  lemma TrimmedTail(k: Key)
    requires WellFormed(k)
    ensures TrimSlashes(Tail(k)) == (if k.name == [] then Fields(k) else B64.Encode(k.name) + "/" + Fields(k)) + Suffix(k.op)
  {
    B64.EncodeIsSafe(k.name);
    FieldsAreSafe(k);
    var name, rest := B64.Encode(k.name), Fields(k) + Suffix(k.op);
    var inner := name + "/" + rest;
    assert Tail(k) == "/" + inner;
    TrimsOne(inner);
    if k.name == [] {
      assert inner == "/" + rest;
      TrimsOne(rest);
      assert rest[0] == Fields(k)[0] && Fields(k)[0] in Fields(k);
    } else {
      assert inner[0] == name[0] && name[0] in name;
      assert inner == (name + "/" + Fields(k)) + Suffix(k.op);
    }
  }

  lemma TailHasNoMark(k: Key)
    requires WellFormed(k)
    ensures '!' !in Tail(k)
  {
    B64.EncodeIsSafe(k.name);
    FieldsAreSafe(k);
  }

  lemma SplitOfPath(dir: string, k: Key)
    requires WellFormed(k)
    ensures Split(PathEncode(dir, k), '!') == Split(dir + "/", '!') + [Tail(k)]
    ensures |Split(dir + "/", '!')| == 1 <==> '!' !in dir
  {
    TailHasNoMark(k);
    SplitAround(dir + "/", '!', Tail(k));
    SplitNone(Tail(k), '!');
    SplitFinds(dir + "/", '!');
  }

  /** A key reads back exactly when its name is not empty and its directory path has no `!`. */
  lemma KeyRoundTripIff(dir: string, k: Key)
    requires WellFormed(k)
    ensures PathDecode(PathEncode(dir, k)) == Some(k) <==> k.name != [] && '!' !in dir
  {
    SplitOfPath(dir, k);
    if '!' !in dir {
      TrimmedTail(k);
      if k.name == [] {
        StripsSuffix(Fields(k), k.op);
        FieldsAreSafe(k);
        SplitOnceMisses(Fields(k), '/');
      } else {
        StripsSuffix(B64.Encode(k.name) + "/" + Fields(k), k.op);
        ParseStemOf(k);
      }
    }
  }

  /** The LIST prefix of one name. */
  function NamePrefix(dir: string, name: Name): string {
    dir + "/" + "!" + "/" + B64.Encode(name) + "/"
  }

  lemma SamePrefix(a: string, b: string, y: string, c: char)
    requires c !in a && c !in b && a + [c] <= b + [c] + y
    ensures a == b
  {
    var s := b + [c] + y;
    assert s == a + [c] + s[|a| + 1..];
    SplitOnceFinds(a, c, s[|a| + 1..]);
    SplitOnceFinds(b, c, y);
  }

  lemma DropHead(head: string, x: string, y: string)
    ensures head + x <= head + y <==> x <= y
  {
    if head + x <= head + y {
      assert x == (head + x)[|head|..] && y == (head + y)[|head|..];
    }
  }

  lemma SplitsAtHead(dir: string, n: Name, k: Key)
    ensures var head := dir + "/" + "!" + "/";
      && NamePrefix(dir, n) == head + (B64.Encode(n) + "/")
      && PathEncode(dir, k) == head + (B64.Encode(k.name) + "/" + (Fields(k) + Suffix(k.op)))
  {
  }

  lemma SameEncoding(n: Name, m: Name, y: string)
    ensures B64.Encode(n) + "/" <= B64.Encode(m) + "/" + y <==> m == n
  {
    var a, b := B64.Encode(n), B64.Encode(m);
    B64.EncodeIsSafe(n);
    B64.EncodeIsSafe(m);
    if a + "/" <= b + "/" + y {
      SamePrefix(a, b, y, '/');
      B64.RoundTrip(n, a);
      B64.RoundTrip(m, b);
    }
  }

  /** Listing one name's prefix finds that name's keys and no others. */
  lemma PrefixListsOneName(dir: string, n: Name, k: Key)
    ensures NamePrefix(dir, n) <= PathEncode(dir, k) <==> k.name == n
  {
    SplitsAtHead(dir, n, k);
    var y := Fields(k) + Suffix(k.op);
    DropHead(dir + "/" + "!" + "/", B64.Encode(n) + "/", B64.Encode(k.name) + "/" + y);
    SameEncoding(n, k.name, y);
  }
}
