/** The text form of a lock table: a header line, then one tab-separated record per entry. */
module LockCodec {
  import opened Names
  import opened Words
  import opened Text
  import opened Locks

  function ModeText(m: Mode): string {
    if m.Read? then "R" else "W"
  }

  /** Only the first character of the field is looked at. */
  function ParseMode(s: string): Option<Mode> {
    if s == [] then None
    else if s[0] == 'R' then Some(Read)
    else if s[0] == 'W' then Some(Write)
    else None
  }

  function Fields(e: LockEntry): seq<string> {
    [e.owner, ModeText(e.mode), Decimal(e.start), Decimal(e.end), Decimal(e.pid), DecimalOf(e.expire)]
  }

  function Record(e: LockEntry): string {
    Join(Fields(e), '\t')
  }

  function Records(es: seq<LockEntry>): string {
    if es == [] then [] else Record(es[0]) + "\n" + Records(es[1..])
  }

  function Body(es: seq<LockEntry>): string {
    "v1" + "\n" + Records(es)
  }

  /** A record, written out. */
  lemma RecordText(e: LockEntry)
    ensures Record(e) == e.owner + (if e.mode == Read then "\tR\t" else "\tW\t") + Decimal(e.start) + "\t" + Decimal(e.end)
      + "\t" + Decimal(e.pid) + "\t" + DecimalOf(e.expire)
  {
    var f := Fields(e);
    assert f[1..] == [f[1], f[2], f[3], f[4], f[5]];
    assert f[1..][1..] == [f[2], f[3], f[4], f[5]];
    assert f[2..] == [f[2], f[3], f[4], f[5]];
    JoinFour(f[2], f[3], f[4], f[5], '\t');
    assert Join(f, '\t') == f[0] + "\t" + (f[1] + "\t" + Join([f[2], f[3], f[4], f[5]], '\t'));
  }

  lemma JoinFour(a: string, b: string, c: string, d: string, x: char)
    ensures Join([a, b, c, d], x) == a + [x] + b + [x] + c + [x] + d
  {
    assert [a, b, c, d][1..] == [b, c, d] && [b, c, d][1..] == [c, d] && [c, d][1..] == [d];
    assert Join([d], x) == d;
    assert Join([c, d], x) == c + [x] + d;
    assert Join([b, c, d], x) == b + [x] + c + [x] + d;
  }

  /** A body is its header line and one line per entry, in order. */
  lemma {:induction false} RecordsGrow(es: seq<LockEntry>, e: LockEntry)
    ensures Records(es + [e]) == Records(es) + Record(e) + "\n"
  {
    if es != [] {
      RecordsGrow(es[1..], e);
      assert (es + [e])[1..] == es[1..] + [e];
    }
  }

  lemma BodyText(es: seq<LockEntry>, e: LockEntry)
    ensures Body([]) == "v1\n" && Body(es + [e]) == Body(es) + Record(e) + "\n"
  {
    RecordsGrow(es, e);
  }

  function ParseRecord(line: string): Option<LockEntry> {
    var f := Split(line, '\t');
    if |f| != 6 then None
    else
      var mode, start, end := ParseMode(f[1]), ParseUnsigned(f[2], U64_MAX), ParseUnsigned(f[3], U64_MAX);
      var pid, expire := ParseUnsigned(f[4], U32_MAX), ParseI64(f[5]);
      if mode.None? || start.None? || end.None? || pid.None? || expire.None? then None
      else Some(LockEntry(f[0], mode.value, start.value, end.value, pid.value, expire.value))
  }

  /** Only lines of exactly six fields are records. */
  lemma RecordHasFiveTabs(line: string)
    ensures ParseRecord(line).Some? ==> multiset(line)['\t'] == 5
  {
    SplitCounts(line, '\t');
  }

  /** Lines that do not parse are skipped. */
  function ParseRecords(lines: seq<string>): seq<LockEntry> {
    if lines == [] then []
    else
      var e := ParseRecord(lines[0]);
      (if e.Some? then [e.value] else []) + ParseRecords(lines[1..])
  }

  function Parse(body: string): seq<LockEntry> {
    var lines := Lines(body);
    if lines == [] then [] else ParseRecords(lines[1..])
  }

  method Encode(t: LockTable) returns (body: string)
    ensures body == Body(t.entries)
  {
    body := "v1" + "\n";
    for i := 0 to |t.entries|
      invariant body + Records(t.entries[i..]) == Body(t.entries)
    {
      assert t.entries[i..][1..] == t.entries[i + 1..];
      ghost var before := body;
      body := body + Record(t.entries[i]) + "\n";
      assert before + (Record(t.entries[i]) + "\n" + Records(t.entries[i + 1..])) == body + Records(t.entries[i + 1..]);
    }
  }

  method Decode(body: string) returns (t: LockTable)
    ensures fresh(t) && t.entries == Parse(body)
  {
    var lines := Lines(body);
    if lines == [] {
      t := new LockTable([]);
      return;
    }
    var entries := [];
    for i := 1 to |lines|
      invariant entries + ParseRecords(lines[i..]) == ParseRecords(lines[1..])
    {
      assert lines[i..][1..] == lines[i + 1..];
      var e := ParseRecord(lines[i]);
      if e.Some? {
        entries := entries + [e.value];
      }
    }
    t := new LockTable(entries);
  }

  predicate CleanOwner(o: Owner) {
    '\t' !in o && '\n' !in o
  }

  ghost predicate Clean(es: seq<LockEntry>) {
    forall e :: e in es ==> CleanOwner(e.owner)
  }

  lemma NumberIsPlain(x: int, c: char)
    requires c == '\t' || c == '\n' || c == '\r'
    ensures c !in DecimalOf(x) && DecimalOf(x) != []
  {
  }

  lemma FieldsAreClean(e: LockEntry)
    requires CleanOwner(e.owner)
    ensures forall f :: f in Fields(e) ==> '\t' !in f && '\n' !in f
    ensures Fields(e)[5] != [] && '\r' !in Fields(e)[5]
  {
    NumberIsPlain(e.expire, '\t');
    NumberIsPlain(e.expire, '\n');
    NumberIsPlain(e.expire, '\r');
  }

  lemma RecordParses(e: LockEntry)
    requires CleanOwner(e.owner)
    ensures ParseRecord(Record(e)) == Some(e)
  {
    FieldsAreClean(e);
    SplitOfJoin(Fields(e), '\t');
    UnsignedParses(e.start, U64_MAX);
    UnsignedParses(e.end, U64_MAX);
    UnsignedParses(e.pid, U32_MAX);
    I64Parses(e.expire);
  }

  lemma RecordIsALine(e: LockEntry)
    requires CleanOwner(e.owner)
    ensures '\n' !in Record(e) && StripCr(Record(e)) == Record(e)
  {
    FieldsAreClean(e);
    JoinChars(Fields(e), '\t', '\n');
    JoinLast(Fields(e), '\t');
  }

  lemma {:induction false} RecordsParse(es: seq<LockEntry>)
    requires Clean(es)
    ensures ParseRecords(Lines(Records(es))) == es
  {
    if es != [] {
      var e, rest := es[0], Records(es[1..]);
      RecordsParse(es[1..]);
      RecordIsALine(e);
      RecordParses(e);
      LinesFirst(Record(e), rest);
      assert ([Record(e)] + Lines(rest))[1..] == Lines(rest);
    }
  }

  /** Whatever is decoded has clean owners. */
  lemma {:induction false} ParsedIsClean(lines: seq<string>)
    requires forall i :: 0 <= i < |lines| ==> '\n' !in lines[i]
    ensures Clean(ParseRecords(lines))
  {
    if lines != [] {
      ParsedIsClean(lines[1..]);
      if |Split(lines[0], '\t')| == 6 {
        SplitIsClean(lines[0], '\t', 0);
      }
    }
  }

  lemma DecodedIsClean(body: string)
    ensures Clean(Parse(body))
  {
    var lines := Lines(body);
    forall i | 0 <= i < |lines| ensures '\n' !in lines[i] { LinesAreClean(body, i); }
    if lines != [] {
      ParsedIsClean(lines[1..]);
    }
  }

  /** A table survives encoding and decoding exactly when no owner holds a tab or a newline. */
  lemma RoundTripIff(es: seq<LockEntry>)
    ensures Parse(Body(es)) == es <==> Clean(es)
  {
    DecodedIsClean(Body(es));
    if Clean(es) {
      RecordsParse(es);
      LinesFirst("v1", Records(es));
      assert (["v1"] + Lines(Records(es)))[1..] == Lines(Records(es));
    }
  }
}
