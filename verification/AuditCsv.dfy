/**
  The audit export and a reader of the format of section 2 of RFC 4180, with the line feed
  the export uses between records.
 */
module AuditCsv {
  import opened Wrappers

  datatype AuditLog = AuditLog(
    id: string, actorUserId: Option<string>, action: string, resourceType: string, resourceId: Option<string>,
    outcome: string, correlationId: Option<string>, createdAt: string)

  const NAMES := ["id", "actorUserId", "action", "resourceType", "resourceId", "outcome", "correlationId", "createdAt"]

  // -------------------------------------------------------------- the export

  function Text(value: Option<string>): string { if value.Some? then value.value else "" }

  function Values(log: AuditLog): seq<string> {
    [log.id, Text(log.actorUserId), log.action, log.resourceType, Text(log.resourceId), log.outcome,
     Text(log.correlationId), log.createdAt]
  }

  function DoubledChar(c: char): string { if c == '"' then "\"\"" else [c] }

  function Doubled(value: string): string {
    if value == [] then [] else Doubled(value[..|value| - 1]) + DoubledChar(value[|value| - 1])
  }

  function Quote(value: string): string { "\"" + Doubled(value) + "\"" }

  function Quoted(values: seq<string>): (r: seq<string>)
    ensures |r| == |values| && forall i :: 0 <= i < |r| ==> r[i] == Quote(values[i])
  {
    seq(|values|, i requires 0 <= i < |values| => Quote(values[i]))
  }

  function Join(parts: seq<string>, separator: string): string {
    if parts == [] then ""
    else if |parts| == 1 then parts[0]
    else Join(parts[..|parts| - 1], separator) + separator + parts[|parts| - 1]
  }

  function Rows(logs: seq<AuditLog>): (r: seq<string>)
    ensures |r| == |logs| && forall i :: 0 <= i < |r| ==> r[i] == Join(Quoted(Values(logs[i])), ",")
  {
    seq(|logs|, i requires 0 <= i < |logs| => Join(Quoted(Values(logs[i])), ","))
  }

  function Export(logs: seq<AuditLog>): string {
    Join([Join(NAMES, ",")] + Rows(logs), "\n")
  }

  // -------------------------------------------------------------- the reader

  datatype Mode = FieldStart | Plain | Inside | QuoteSeen | Broken

  datatype Reader = Reader(mode: Mode, field: string, record: seq<string>, records: seq<seq<string>>)

  const FRESH := Reader(FieldStart, "", [], [])

  function EndField(r: Reader): Reader { r.(mode := FieldStart, field := "", record := r.record + [r.field]) }

  function EndRecord(r: Reader): Reader {
    Reader(FieldStart, "", [], r.records + [r.record + [r.field]])
  }

  function Step(r: Reader, c: char): Reader {
    match r.mode
    case FieldStart =>
      if c == '"' then r.(mode := Inside)
      else if c == ',' then EndField(r)
      else if c == '\n' then EndRecord(r)
      else r.(mode := Plain, field := [c])
    case Plain =>
      if c == ',' then EndField(r)
      else if c == '\n' then EndRecord(r)
      else if c == '"' then r.(mode := Broken)
      else r.(field := r.field + [c])
    case Inside => if c == '"' then r.(mode := QuoteSeen) else r.(field := r.field + [c])
    case QuoteSeen =>
      if c == '"' then r.(mode := Inside, field := r.field + ['"'])
      else if c == ',' then EndField(r)
      else if c == '\n' then EndRecord(r)
      else r.(mode := Broken)
    case Broken => r
  }

  function Read(r: Reader, text: string): Reader {
    if text == [] then r else Step(Read(r, text[..|text| - 1]), text[|text| - 1])
  }

  /** The records of a text, unless it is malformed. */
  function Parse(text: string): Option<seq<seq<string>>> {
    var r := Read(FRESH, text);
    if r.mode == Broken || r.mode == Inside then None else Some(EndRecord(r).records)
  }

  // ---------------------------------------------------------- reading it back

  lemma {:induction false} ReadConcat(r: Reader, a: string, b: string)
    ensures Read(r, a + b) == Read(Read(r, a), b)
  {
    if b == [] {
      assert a + b == a;
    } else {
      ReadConcat(r, a, b[..|b| - 1]);
      assert (a + b)[..|a + b| - 1] == a + b[..|b| - 1];
    }
  }

  lemma ReadOne(r: Reader, c: char)
    ensures Read(r, [c]) == Step(r, c)
  {
    assert [c][..0] == [];
    assert Read(r, [c]) == Step(Read(r, [c][..0]), c);
  }

  lemma ReadDoubledChar(r: Reader, c: char)
    requires r.mode == Inside
    ensures Read(r, DoubledChar(c)) == r.(field := r.field + [c])
  {
    if c == '"' {
      ReadConcat(r, ['"'], ['"']);
      assert DoubledChar(c) == ['"'] + ['"'];
      ReadOne(r, '"');
      ReadOne(r.(mode := QuoteSeen), '"');
    } else {
      ReadOne(r, c);
    }
  }

  lemma DoubledStep(value: string)
    requires value != []
    ensures Doubled(value) == Doubled(value[..|value| - 1]) + DoubledChar(value[|value| - 1])
  {
  }

  lemma FrontAndLast(value: string)
    requires value != []
    ensures value == value[..|value| - 1] + [value[|value| - 1]]
  {
  }

  lemma AppendIsAssociative(a: string, b: string, c: string)
    ensures (a + b) + c == a + (b + c)
  {
  }

  lemma {:induction false} ReadDoubled(r: Reader, value: string)
    requires r.mode == Inside
    ensures Read(r, Doubled(value)) == r.(field := r.field + value)
  {
    if value == [] {
      assert r.field + value == r.field;
    } else {
      var front, last := value[..|value| - 1], value[|value| - 1];
      DoubledStep(value);
      FrontAndLast(value);
      ReadDoubled(r, front);
      ReadConcat(r, Doubled(front), DoubledChar(last));
      ReadDoubledChar(r.(field := r.field + front), last);
      AppendIsAssociative(r.field, front, [last]);
    }
  }

  /** A quoted field leaves its value, whatever characters it has. */
  lemma ReadQuote(r: Reader, value: string)
    requires r.mode == FieldStart && r.field == ""
    ensures Read(r, Quote(value)) == r.(mode := QuoteSeen, field := value)
  {
    ReadConcat(r, "\"" + Doubled(value), "\"");
    ReadConcat(r, "\"", Doubled(value));
    assert Quote(value) == ("\"" + Doubled(value)) + "\"";
    ReadOne(r, '"');
    ReadDoubled(r.(mode := Inside), value);
    ReadOne(r.(mode := Inside, field := value), '"');
    assert "" + value == value;
  }

  predicate Unquoted(value: string) {
    value != "" && forall i :: 0 <= i < |value| ==> value[i] !in {'"', ',', '\n'}
  }

  lemma {:induction false} ReadPlain(r: Reader, value: string)
    requires r.mode == FieldStart && r.field == "" && Unquoted(value)
    ensures Read(r, value) == r.(mode := Plain, field := value)
  {
    var n := |value| - 1;
    assert value == value[..n] + [value[n]];
    ReadConcat(r, value[..n], [value[n]]);
    if n == 0 {
      assert value[..n] == "";
      ReadOne(r, value[0]);
    } else {
      ReadPlain(r, value[..n]);
      ReadOne(Read(r, value[..n]), value[n]);
    }
  }

  /** What one field's text leaves in the reader, quoted or not. */
  ghost predicate Reads(part: string, value: string) {
    forall r: Reader :: r.mode == FieldStart && r.field == "" ==> FieldRead(r, part, value)
  }

  ghost predicate FieldRead(r: Reader, part: string, value: string) {
    var after := Read(r, part);
    && (after.mode == QuoteSeen || after.mode == Plain)
    && after.field == value && after.record == r.record && after.records == r.records
  }

  ghost predicate AllRead(parts: seq<string>, values: seq<string>) {
    |parts| == |values| && forall i :: 0 <= i < |parts| ==> Reads(parts[i], values[i])
  }

  /** The reader stands at the end of a field, the last of these values. */
  predicate AtField(r: Reader, values: seq<string>, records: seq<seq<string>>) {
    (r.mode == QuoteSeen || r.mode == Plain) && r.record + [r.field] == values && r.records == records
  }

  lemma ReadFirstField(r: Reader, part: string, value: string)
    requires r.mode == FieldStart && r.field == "" && r.record == [] && Reads(part, value)
    ensures AtField(Read(r, part), [value], r.records)
  {
    assert FieldRead(r, part, value);
  }

  lemma ReadNextField(
    r: Reader, text: string, values: seq<string>, records: seq<seq<string>>, part: string, value: string)
    requires AtField(Read(r, text), values, records) && Reads(part, value)
    ensures AtField(Read(r, text + "," + part), values + [value], records)
  {
    var before := Read(r, text);
    ReadConcat(r, text + ",", part);
    ReadConcat(r, text, ",");
    ReadOne(before, ',');
    assert FieldRead(EndField(before), part, value);
  }

  /** The fields of one record, up to its end. */
  lemma {:induction false} ReadRecord(r: Reader, parts: seq<string>, values: seq<string>)
    requires r.mode == FieldStart && r.field == "" && r.record == []
    requires AllRead(parts, values) && parts != []
    ensures AtField(Read(r, Join(parts, ",")), values, r.records)
    decreases |parts|
  {
    var n := |parts| - 1;
    assert Reads(parts[n], values[n]);
    assert values == values[..n] + [values[n]];
    if n == 0 {
      ReadFirstField(r, parts[0], values[0]);
    } else {
      AllReadPrefix(parts, values, n);
      ReadRecord(r, parts[..n], values[..n]);
      ReadNextField(r, Join(parts[..n], ","), values[..n], r.records, parts[n], values[n]);
    }
  }

  lemma AllReadPrefix(parts: seq<string>, values: seq<string>, n: nat)
    requires AllRead(parts, values) && n <= |parts|
    ensures AllRead(parts[..n], values[..n])
  {
    var p, v := parts[..n], values[..n];
    forall i | 0 <= i < n ensures Reads(p[i], v[i]) {
      assert Reads(parts[i], values[i]);
    }
  }

  ghost predicate LineOf(line: string, parts: seq<string>, values: seq<string>) {
    parts != [] && AllRead(parts, values) && line == Join(parts, ",")
  }

  /** A line made of fields that read as these values. */
  ghost predicate LineReads(line: string, values: seq<string>) {
    exists parts: seq<string> :: LineOf(line, parts, values)
  }

  /** The reader stands at the end of the last record of a table. */
  predicate AtEnd(r: Reader, table: seq<seq<string>>) {
    (r.mode == QuoteSeen || r.mode == Plain) && r.records + [r.record + [r.field]] == table
  }

  lemma ReadLine(r: Reader, line: string, values: seq<string>)
    requires r.mode == FieldStart && r.field == "" && r.record == [] && LineReads(line, values)
    ensures AtEnd(Read(r, line), r.records + [values])
  {
    var parts: seq<string> :| LineOf(line, parts, values);
    ReadRecord(r, parts, values);
  }

  lemma ReadNextLine(text: string, table: seq<seq<string>>, line: string, values: seq<string>)
    requires AtEnd(Read(FRESH, text), table) && LineReads(line, values)
    ensures AtEnd(Read(FRESH, text + "\n" + line), table + [values])
  {
    var before := Read(FRESH, text);
    ReadConcat(FRESH, text + "\n", line);
    ReadConcat(FRESH, text, "\n");
    ReadOne(before, '\n');
    ReadLine(EndRecord(before), line, values);
  }

  lemma {:induction false} ReadLines(lines: seq<string>, table: seq<seq<string>>)
    requires lines != [] && |lines| == |table|
    requires forall i :: 0 <= i < |lines| ==> LineReads(lines[i], table[i])
    ensures AtEnd(Read(FRESH, Join(lines, "\n")), table)
    decreases |lines|
  {
    var n := |lines| - 1;
    assert table == table[..n] + [table[n]];
    if n == 0 {
      ReadLine(FRESH, lines[0], table[0]);
      assert table[..n] == FRESH.records;
    } else {
      ReadLines(lines[..n], table[..n]);
      ReadNextLine(Join(lines[..n], "\n"), table[..n], lines[n], table[n]);
    }
  }

  lemma LinesParse(lines: seq<string>, table: seq<seq<string>>)
    requires lines != [] && |lines| == |table|
    requires forall i :: 0 <= i < |lines| ==> LineReads(lines[i], table[i])
    ensures Parse(Join(lines, "\n")) == Some(table)
  {
    ReadLines(lines, table);
  }

  lemma NamesRead()
    ensures LineReads(Join(NAMES, ","), NAMES)
  {
    forall i | 0 <= i < |NAMES| ensures Reads(NAMES[i], NAMES[i]) {
      NamePlain(i);
      forall r: Reader | r.mode == FieldStart && r.field == "" ensures FieldRead(r, NAMES[i], NAMES[i]) {
        ReadPlain(r, NAMES[i]);
      }
    }
    assert LineOf(Join(NAMES, ","), NAMES, NAMES);
  }

  lemma NamePlain(i: nat)
    requires i < |NAMES|
    ensures Unquoted(NAMES[i])
  {
  }

  lemma QuotedRead(values: seq<string>)
    requires values != []
    ensures LineReads(Join(Quoted(values), ","), values)
  {
    forall i | 0 <= i < |values| ensures Reads(Quoted(values)[i], values[i]) {
      forall r: Reader | r.mode == FieldStart && r.field == "" ensures FieldRead(r, Quote(values[i]), values[i]) {
        ReadQuote(r, values[i]);
      }
    }
    assert LineOf(Join(Quoted(values), ","), Quoted(values), values);
  }

  function Table(logs: seq<AuditLog>): (r: seq<seq<string>>)
    ensures |r| == |logs| && forall i :: 0 <= i < |r| ==> r[i] == Values(logs[i])
  {
    seq(|logs|, i requires 0 <= i < |logs| => Values(logs[i]))
  }

  lemma RowReads(logs: seq<AuditLog>, i: nat)
    requires i < |logs|
    ensures LineReads(Rows(logs)[i], Table(logs)[i])
  {
    QuotedRead(Values(logs[i]));
  }

  lemma LineOfExport(header: string, names: seq<string>, logs: seq<AuditLog>, i: nat)
    requires LineReads(header, names) && i <= |logs|
    ensures LineReads(([header] + Rows(logs))[i], ([names] + Table(logs))[i])
  {
    if i > 0 {
      RowReads(logs, i - 1);
    }
  }

  lemma HeaderAndRows(header: string, names: seq<string>, logs: seq<AuditLog>)
    requires LineReads(header, names)
    ensures Parse(Join([header] + Rows(logs), "\n")) == Some([names] + Table(logs))
  {
    var lines, table := [header] + Rows(logs), [names] + Table(logs);
    forall i | 0 <= i < |lines| ensures LineReads(lines[i], table[i]) {
      LineOfExport(header, names, logs, i);
    }
    LinesParse(lines, table);
  }

  /** Reading the export gives the column names and then every field of every log, absent ones as empty. */
  lemma ExportReadsBack(logs: seq<AuditLog>)
    ensures Parse(Export(logs)) == Some([NAMES] + Table(logs))
  {
    NamesRead();
    HeaderAndRows(Join(NAMES, ","), NAMES, logs);
  }
}
