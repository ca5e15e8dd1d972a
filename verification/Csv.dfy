/** packages/observability/src/index.ts: the CSV export, and a reader for the
    grammar of section 2 of RFC 4180 that it is proved against. */
module Csv {
  import opened JsText
  import Decimal

  const CR: CodeUnit := 13
  const LF: CodeUnit := 10

  datatype Metric = Metric(payer: Text, payee: Text, model: Text, amount: Text, asset: Text,
                           latencyMs: int, outcome: Text, at: Text)

  // ----- The printer -----

  /** value.replace(/"/g, '""'). */
  function Doubled(value: Text): Text {
    if value == [] then []
    else (if value[0] == QUOTE then [QUOTE, QUOTE] else [value[0]]) + Doubled(value[1..])
  }

  function CsvEscape(value: Text): Text {
    [QUOTE] + Doubled(value) + [QUOTE]
  }

  /** A field is printed escaped or, for numbers and the header, as it is. */
  datatype Cell = Escaped(value: Text) | Bare(value: Text)

  function Written(cell: Cell): Text {
    match cell
    case Escaped(value) => CsvEscape(value)
    case Bare(value) => value
  }

  function Row(cells: seq<Cell>): Text {
    Join(seq(|cells|, i requires 0 <= i < |cells| => Written(cells[i])), COMMA)
  }

  function Header(): seq<Cell> {
    [Bare(Lit("payer")), Bare(Lit("payee")), Bare(Lit("model")), Bare(Lit("amount")),
     Bare(Lit("asset")), Bare(Lit("latencyMs")), Bare(Lit("outcome")), Bare(Lit("at"))]
  }

  function Cells(m: Metric): seq<Cell> {
    [Escaped(m.payer), Escaped(m.payee), Escaped(m.model), Escaped(m.amount),
     Escaped(m.asset), Bare(Decimal.PrintInt(m.latencyMs)), Escaped(m.outcome), Escaped(m.at)]
  }

  /** lines.join("\r\n"). */
  function JoinLines(lines: seq<Text>): Text {
    if |lines| == 0 then []
    else if |lines| == 1 then lines[0]
    else lines[0] + [CR, LF] + JoinLines(lines[1..])
  }

  function Table(metrics: seq<Metric>): seq<seq<Cell>> {
    [Header()] + seq(|metrics|, i requires 0 <= i < |metrics| => Cells(metrics[i]))
  }

  function Rows(table: seq<seq<Cell>>): seq<Text> {
    seq(|table|, i requires 0 <= i < |table| => Row(table[i]))
  }

  function CsvText(metrics: seq<Metric>): Text {
    JoinLines(Rows(Table(metrics)))
  }

  method ToCsv(metrics: seq<Metric>) returns (text: Text)
    ensures text == CsvText(metrics)
  {
    var lines := [Row(Header())];
    for i := 0 to |metrics|
      invariant lines == Rows(Table(metrics))[..i + 1]
    {
      lines := lines + [Row(Cells(metrics[i]))];
    }
    assert lines == Rows(Table(metrics));
    text := JoinLines(lines);
  }

  // ----- The reader -----

  /** The rest of an escaped field, after its opening quote. */
  function ReadEscaped(t: Text): Option<(Text, Text)> {
    if t == [] then None
    else if t[0] != QUOTE then
      var more := ReadEscaped(t[1..]);
      if more.None? then None else Some(([t[0]] + more.value.0, more.value.1))
    else if |t| >= 2 && t[1] == QUOTE then
      var more := ReadEscaped(t[2..]);
      if more.None? then None else Some(([QUOTE] + more.value.0, more.value.1))
    else Some(([], t[1..]))
  }

  predicate IsTextData(c: CodeUnit) {
    c != COMMA && c != QUOTE && c != CR && c != LF
  }

  function ReadBare(t: Text): (r: (Text, Text))
    ensures |r.1| <= |t|
  {
    if t == [] || !IsTextData(t[0]) then ([], t)
    else
      var more := ReadBare(t[1..]);
      ([t[0]] + more.0, more.1)
  }

  function ReadField(t: Text): Option<(Text, Text)> {
    if t != [] && t[0] == QUOTE then ReadEscaped(t[1..]) else Some(ReadBare(t))
  }

  /** Fields separated by commas. */
  function ReadRecord(t: Text): Option<(seq<Text>, Text)>
    decreases |t|
  {
    var field := ReadField(t);
    if field.None? then None
    else
      var rest := field.value.1;
      if rest != [] && rest[0] == COMMA && |rest| <= |t| then
        var more := ReadRecord(rest[1..]);
        if more.None? then None else Some(([field.value.0] + more.value.0, more.value.1))
      else Some(([field.value.0], rest))
  }

  /** Records separated by CRLF, with an optional CRLF at the end. */
  function ReadFile(t: Text): Option<seq<seq<Text>>>
    decreases |t|
  {
    var record := ReadRecord(t);
    if record.None? then None
    else
      var rest := record.value.1;
      if rest == [] || rest == [CR, LF] then Some([record.value.0])
      else if [CR, LF] <= rest && |rest| <= |t| then
        var more := ReadFile(rest[2..]);
        if more.None? then None else Some([record.value.0] + more.value)
      else None
  }

  // ----- The reader undoes the printer -----

  /** A bare field must be plain text data to be readable. */
  predicate Readable(cell: Cell) {
    cell.Bare? ==> forall i :: 0 <= i < |cell.value| ==> IsTextData(cell.value[i])
  }

  /** What may follow a field: the end, a comma or a line break. */
  predicate EndsField(rest: Text) {
    rest == [] || rest[0] == COMMA || rest[0] == CR
  }

  lemma ReadEscapedStep(c: CodeUnit, t: Text, value: Text, rest: Text)
    requires ReadEscaped(t) == Some((value, rest))
    ensures c != QUOTE ==> ReadEscaped([c] + t) == Some(([c] + value, rest))
    ensures c == QUOTE ==> ReadEscaped([QUOTE, QUOTE] + t) == Some(([c] + value, rest))
  {
    assert ([c] + t)[1..] == t && ([QUOTE, QUOTE] + t)[2..] == t;
  }

  lemma {:induction false} ReadEscapedDoubled(value: Text, rest: Text)
    requires EndsField(rest)
    ensures ReadEscaped(Doubled(value) + ([QUOTE] + rest)) == Some((value, rest))
  {
    var tail := [QUOTE] + rest;
    if value == [] {
      assert Doubled(value) + tail == tail && tail[1..] == rest;
    } else {
      var front := if value[0] == QUOTE then [QUOTE, QUOTE] else [value[0]];
      ReadEscapedDoubled(value[1..], rest);
      ReadEscapedStep(value[0], Doubled(value[1..]) + tail, value[1..], rest);
      Reassociate(front, Doubled(value[1..]), tail);
      assert value == [value[0]] + value[1..];
    }
  }

  lemma {:induction false} ReadBareText(value: Text, rest: Text)
    requires forall i :: 0 <= i < |value| ==> IsTextData(value[i])
    requires EndsField(rest)
    ensures ReadBare(value + rest) == (value, rest)
  {
    if value == [] {
      assert value + rest == rest;
    } else {
      assert (value + rest)[1..] == value[1..] + rest;
      ReadBareText(value[1..], rest);
      assert value == [value[0]] + value[1..];
    }
  }

  lemma ReadWritten(cell: Cell, rest: Text)
    requires Readable(cell) && EndsField(rest)
    ensures ReadField(Written(cell) + rest) == Some((cell.value, rest))
  {
    var t := Written(cell) + rest;
    match cell
    case Escaped(value) =>
      assert t == [QUOTE] + (Doubled(value) + ([QUOTE] + rest));
      assert t[1..] == Doubled(value) + ([QUOTE] + rest);
      ReadEscapedDoubled(value, rest);
    case Bare(value) =>
      if value == [] {
        assert t == rest;
      } else {
        assert t[0] == value[0];
      }
      ReadBareText(value, rest);
  }

  function Contents(cells: seq<Cell>): seq<Text> {
    seq(|cells|, i requires 0 <= i < |cells| => cells[i].value)
  }

  lemma RowStep(cells: seq<Cell>, rest: Text)
    requires |cells| > 1
    ensures Row(cells) + rest == Written(cells[0]) + ([COMMA] + (Row(cells[1..]) + rest))
    ensures Contents(cells) == [cells[0].value] + Contents(cells[1..])
  {
    var parts := seq(|cells|, i requires 0 <= i < |cells| => Written(cells[i]));
    JoinHead(parts, COMMA, rest);
    assert parts[1..] == seq(|cells[1..]|, i requires 0 <= i < |cells[1..]| => Written(cells[1..][i]));
  }

  lemma {:induction false} ReadRow(cells: seq<Cell>, rest: Text)
    requires cells != [] && (forall i :: 0 <= i < |cells| ==> Readable(cells[i]))
    requires rest == [] || rest[0] == CR
    ensures ReadRecord(Row(cells) + rest) == Some((Contents(cells), rest))
  {
    if |cells| == 1 {
      ReadWritten(cells[0], rest);
      assert Row(cells) == Written(cells[0]) && Contents(cells) == [cells[0].value];
    } else {
      var after := [COMMA] + (Row(cells[1..]) + rest);
      RowStep(cells, rest);
      ReadWritten(cells[0], after);
      assert after[1..] == Row(cells[1..]) + rest;
      ReadRow(cells[1..], rest);
    }
  }

  function AllContents(table: seq<seq<Cell>>): seq<seq<Text>> {
    seq(|table|, i requires 0 <= i < |table| => Contents(table[i]))
  }

  predicate ReadableRow(cells: seq<Cell>) {
    |cells| > 1 && forall i :: 0 <= i < |cells| ==> Readable(cells[i])
  }

  predicate ReadableTable(table: seq<seq<Cell>>) {
    forall r :: 0 <= r < |table| ==> ReadableRow(table[r])
  }

  lemma ReadFileStep(line: Text, more: Text, values: seq<Text>, table: seq<seq<Text>>)
    requires more != [] && ReadRecord(line + ([CR, LF] + more)) == Some((values, [CR, LF] + more))
    requires ReadFile(more) == Some(table)
    ensures ReadFile(line + ([CR, LF] + more)) == Some([values] + table)
  {
    var rest := [CR, LF] + more;
    assert rest[2..] == more;
  }

  lemma RowNonEmpty(cells: seq<Cell>)
    requires |cells| > 1
    ensures Row(cells) != []
  {
    RowStep(cells, []);
    assert Row(cells) + [] == Row(cells);
  }

  lemma TableStep(table: seq<seq<Cell>>)
    requires |table| > 1
    ensures JoinLines(Rows(table)) == Row(table[0]) + ([CR, LF] + JoinLines(Rows(table[1..])))
    ensures AllContents(table) == [Contents(table[0])] + AllContents(table[1..])
  {
    assert Rows(table)[1..] == Rows(table[1..]);
    Reassociate(Row(table[0]), [CR, LF], JoinLines(Rows(table[1..])));
  }

  lemma {:induction false} ReadTable(table: seq<seq<Cell>>)
    requires table != [] && ReadableTable(table)
    ensures JoinLines(Rows(table)) != []
    ensures ReadFile(JoinLines(Rows(table))) == Some(AllContents(table))
  {
    var first := table[0];
    RowNonEmpty(first);
    if |table| == 1 {
      assert Row(first) + [] == Row(first);
      ReadRow(first, []);
      assert AllContents(table) == [Contents(first)];
    } else {
      var more := JoinLines(Rows(table[1..]));
      TableStep(table);
      ReadTable(table[1..]);
      ReadRow(first, [CR, LF] + more);
      ReadFileStep(Row(first), more, Contents(first), AllContents(table[1..]));
    }
  }

  // ----- Main results -----

  lemma PrintIntIsTextData(n: int)
    ensures forall i :: 0 <= i < |Decimal.PrintInt(n)| ==> IsTextData(Decimal.PrintInt(n)[i])
  {
    Decimal.PrintThenParse(if n < 0 then -n else n);
  }

  lemma CellsReadable(m: Metric)
    ensures ReadableRow(Cells(m))
  {
    PrintIntIsTextData(m.latencyMs);
  }

  lemma TableReadable(metrics: seq<Metric>)
    ensures ReadableTable(Table(metrics))
  {
    var table := Table(metrics);
    forall r | 0 <= r < |table| ensures ReadableRow(table[r]) {
      if r > 0 {
        assert table[r] == Cells(metrics[r - 1]);
        CellsReadable(metrics[r - 1]);
      } else {
        HeaderReadable();
      }
    }
  }

  lemma HeaderReadable()
    ensures ReadableRow(Header())
  {
  }

  /** A reader of the standard recovers the header and every metric, field by
      field, whatever quotes, commas and line breaks the fields contain. */
  lemma ExportRoundTrip(metrics: seq<Metric>)
    ensures ReadFile(CsvText(metrics)) == Some(AllContents(Table(metrics)))
  {
    TableReadable(metrics);
    ReadTable(Table(metrics));
  }

  /** Which column holds what, as a reader of the file sees it: the names in the
      first record, and every metric's fields under their names. */
  lemma ColumnsAre(metrics: seq<Metric>)
    ensures ReadFile(CsvText(metrics)).Some? && |ReadFile(CsvText(metrics)).value| == |metrics| + 1
    ensures ReadFile(CsvText(metrics)).value[0] ==
              [Lit("payer"), Lit("payee"), Lit("model"), Lit("amount"), Lit("asset"), Lit("latencyMs"), Lit("outcome"), Lit("at")]
    ensures forall i :: 0 <= i < |metrics| ==>
              var m := metrics[i];
              ReadFile(CsvText(metrics)).value[i + 1] ==
                [m.payer, m.payee, m.model, m.amount, m.asset, Decimal.PrintInt(m.latencyMs), m.outcome, m.at]
  {
    ExportRoundTrip(metrics);
    var rows := AllContents(Table(metrics));
    assert rows[0] == Contents(Header());
    forall i | 0 <= i < |metrics|
      ensures rows[i + 1] == [metrics[i].payer, metrics[i].payee, metrics[i].model, metrics[i].amount, metrics[i].asset,
                              Decimal.PrintInt(metrics[i].latencyMs), metrics[i].outcome, metrics[i].at]
    {
      assert rows[i + 1] == Contents(Cells(metrics[i]));
    }
  }

  lemma CellsDetermineMetric(a: Metric, b: Metric)
    requires Contents(Cells(a)) == Contents(Cells(b))
    ensures a == b
  {
    var x, y := Contents(Cells(a)), Contents(Cells(b));
    assert x[0] == y[0] && x[1] == y[1] && x[2] == y[2] && x[3] == y[3];
    assert x[4] == y[4] && x[5] == y[5] && x[6] == y[6] && x[7] == y[7];
    assert Decimal.PrintInt(a.latencyMs) + [] == Decimal.PrintInt(b.latencyMs) + [];
    Decimal.PrintIntUnique(a.latencyMs, b.latencyMs, [], []);
  }

  lemma ExportInjective(a: seq<Metric>, b: seq<Metric>)
    requires CsvText(a) == CsvText(b)
    ensures a == b
  {
    ExportRoundTrip(a);
    ExportRoundTrip(b);
    var x, y := AllContents(Table(a)), AllContents(Table(b));
    assert |x| == |a| + 1 && |y| == |b| + 1;
    forall i | 0 <= i < |a| ensures a[i] == b[i] {
      assert x[i + 1] == Contents(Cells(a[i])) && y[i + 1] == Contents(Cells(b[i]));
      CellsDetermineMetric(a[i], b[i]);
    }
  }
}
