/**
  The CSV renderer against a reader: what the renderer prints, a parser written from section 2 of
  RFC 4180 reads back, field by field.
 */
module Csv {
  import opened Wrappers

  datatype ItemLine = ItemLine(id: int, name: string, synthetic: bool)

  datatype AnalyticsStat = AnalyticsStat(eventType: string, count: int)

  datatype AnalyticsSection = AnalyticsSection(available: bool, stats: seq<AnalyticsStat>, note: Option<string>)

  /** `generatedAt` is the formatted instant. */
  datatype ItemsSummary = ItemsSummary(generatedAt: string, items: seq<ItemLine>, analytics: AnalyticsSection)

  const CRLF := "\r\n"

  // ------------------------------------------------------------------ numbers

  function Digit(d: nat): char
    requires d < 10
  {
    "0123456789"[d]
  }

  function Natural(n: nat): (s: string)
    ensures s != ""
  {
    if n < 10 then [Digit(n)] else Natural(n / 10) + [Digit(n % 10)]
  }

  function Decimal(n: int): (s: string)
    ensures s != ""
  {
    if n < 0 then "-" + Natural(-n) else Natural(n)
  }

  function DigitValue(c: char): int {
    c as int - '0' as int
  }

  function NaturalValue(s: string): int {
    if s == "" then 0 else 10 * NaturalValue(s[..|s| - 1]) + DigitValue(s[|s| - 1])
  }

  lemma {:induction false} NaturalRoundTrip(n: nat)
    ensures NaturalValue(Natural(n)) == n
    decreases n
  {
    assert DigitValue(Digit(n % 10)) == n % 10;
    if n < 10 {
      assert [Digit(n)][..0] == "";
    } else {
      NaturalRoundTrip(n / 10);
      assert Natural(n)[..|Natural(n)| - 1] == Natural(n / 10);
    }
  }

  /** A number that is not negative is never neutralised. */
  lemma {:induction false} NaturalIsInert(n: nat)
    ensures Neutralize(Natural(n)) == Natural(n)
  {
    NaturalStartsWithDigit(n);
  }

  lemma {:induction false} NaturalStartsWithDigit(n: nat)
    ensures '0' <= Natural(n)[0] <= '9'
    decreases n
  {
    if n >= 10 {
      NaturalStartsWithDigit(n / 10);
    }
  }

  // ------------------------------------------------------------------ printing

  predicate Trigger(c: char) {
    c == '=' || c == '+' || c == '-' || c == '@' || c == '\t' || c == '\r'
  }

  predicate StartsWithTrigger(field: string) {
    field != "" && Trigger(field[0])
  }

  function Neutralize(field: string): (r: string)
    ensures !StartsWithTrigger(r)
  {
    if field != "" && Trigger(field[0]) then "'" + field else field
  }

  predicate Special(c: char) {
    c == ',' || c == '"' || c == '\n' || c == '\r'
  }

  predicate Plain(field: string) {
    forall i :: 0 <= i < |field| ==> !Special(field[i])
  }

  function DoubleQuotes(field: string): string {
    if field == "" then ""
    else (if field[0] == '"' then "\"\"" else [field[0]]) + DoubleQuotes(field[1..])
  }

  function Escape(field: string): string {
    var neutralized := Neutralize(field);
    if Plain(neutralized) then neutralized else "\"" + DoubleQuotes(neutralized) + "\""
  }

  function JoinEscaped(fields: seq<string>): string {
    if fields == [] then ""
    else if |fields| == 1 then Escape(fields[0])
    else Escape(fields[0]) + "," + JoinEscaped(fields[1..])
  }

  function Line(fields: seq<string>): string {
    JoinEscaped(fields) + CRLF
  }

  function Lines(records: seq<seq<string>>): string {
    if records == [] then "" else Line(records[0]) + Lines(records[1..])
  }

  // ------------------------------------------------------------------ reading, after RFC 4180 section 2

  /** The content of a quoted field and what follows its closing quote; `s` starts behind the opening one. */
  function ParseQuoted(s: string): Option<(string, string)> {
    if s == "" then None
    else if s[0] != '"' then
      var tail := ParseQuoted(s[1..]);
      if tail.None? then None else Some(([s[0]] + tail.value.0, tail.value.1))
    else if |s| > 1 && s[1] == '"' then
      var tail := ParseQuoted(s[2..]);
      if tail.None? then None else Some(("\"" + tail.value.0, tail.value.1))
    else Some(("", s[1..]))
  }

  /** The reader's own notion of what ends an unquoted field: a comma, a quote or half of a line break. */
  predicate EndsText(c: char) {
    c == ',' || c == '"' || c == '\r' || c == '\n'
  }

  /** An unquoted field runs to the next comma, quote or line break. */
  function ParseBare(s: string): (string, string) {
    if s == "" || EndsText(s[0]) then ("", s)
    else
      var tail := ParseBare(s[1..]);
      ([s[0]] + tail.0, tail.1)
  }

  function ParseField(s: string): Option<(string, string)> {
    if s != "" && s[0] == '"' then ParseQuoted(s[1..]) else Some(ParseBare(s))
  }

  lemma {:induction false} QuotedConsumes(s: string)
    ensures ParseQuoted(s).Some? ==> |ParseQuoted(s).value.1| < |s|
    decreases |s|
  {
    if s != "" {
      if s[0] != '"' {
        QuotedConsumes(s[1..]);
      } else if |s| > 1 && s[1] == '"' {
        QuotedConsumes(s[2..]);
      }
    }
  }

  lemma {:induction false} BareConsumes(s: string)
    ensures |ParseBare(s).1| <= |s|
    decreases |s|
  {
    if s != "" && !EndsText(s[0]) {
      BareConsumes(s[1..]);
    }
  }

  lemma FieldConsumes(s: string)
    ensures ParseField(s).Some? ==> |ParseField(s).value.1| <= |s|
  {
    if s != "" && s[0] == '"' {
      QuotedConsumes(s[1..]);
    } else {
      BareConsumes(s);
    }
  }

  /** One record: fields between commas, ended by CRLF or by the end of the text. */
  function ParseRecord(s: string): (r: Option<(seq<string>, string)>)
    ensures r.Some? && s != "" ==> |r.value.1| < |s|
    decreases |s|
  {
    FieldConsumes(s);
    var field := ParseField(s);
    if field.None? then None
    else
      var rest := field.value.1;
      if rest == "" then Some(([field.value.0], ""))
      else if rest[0] == ',' then
        var tail := ParseRecord(rest[1..]);
        if tail.None? then None else Some(([field.value.0] + tail.value.0, tail.value.1))
      else if |rest| >= 2 && rest[0] == '\r' && rest[1] == '\n' then Some(([field.value.0], rest[2..]))
      else None
  }

  function Parse(s: string): Option<seq<seq<string>>>
    decreases |s|
  {
    if s == "" then Some([])
    else
      var record := ParseRecord(s);
      if record.None? then None
      else
        var tail := Parse(record.value.1);
        if tail.None? then None else Some([record.value.0] + tail.value)
  }

  // ------------------------------------------------------------------ round trip

  lemma QuotedChar(c: char, doubled: string, rest: string)
    requires c != '"'
    ensures var text := [c] + doubled + "\"" + rest;
            text[0] == c && text[1..] == doubled + "\"" + rest
  {
  }

  lemma QuotedQuote(doubled: string, rest: string)
    ensures var text := "\"\"" + doubled + "\"" + rest;
            text[0] == '"' && text[1] == '"' && text[2..] == doubled + "\"" + rest
  {
  }

  lemma FirstAndRest(field: string)
    requires field != ""
    ensures field == [field[0]] + field[1..]
  {
  }

  lemma {:induction false} QuotedRoundTrip(field: string, rest: string)
    requires rest == "" || rest[0] != '"'
    ensures ParseQuoted(DoubleQuotes(field) + "\"" + rest) == Some((field, rest))
    decreases |field|
  {
    if field == "" {
      assert DoubleQuotes(field) + "\"" + rest == "\"" + rest;
    } else {
      QuotedRoundTrip(field[1..], rest);
      FirstAndRest(field);
      if field[0] == '"' {
        QuotedQuote(DoubleQuotes(field[1..]), rest);
      } else {
        QuotedChar(field[0], DoubleQuotes(field[1..]), rest);
      }
    }
  }

  lemma {:induction false} BareRoundTrip(field: string, rest: string)
    requires Plain(field) && (rest == "" || EndsText(rest[0]))
    ensures ParseBare(field + rest) == (field, rest)
    decreases |field|
  {
    if field == "" {
      assert field + rest == rest;
    } else {
      BareRoundTrip(field[1..], rest);
      assert (field + rest)[1..] == field[1..] + rest;
      assert field == [field[0]] + field[1..];
    }
  }

  lemma FieldRoundTrip(field: string, rest: string)
    requires rest != "" && (rest[0] == ',' || rest[0] == '\r')
    ensures ParseField(Escape(field) + rest) == Some((Neutralize(field), rest))
  {
    var neutralized := Neutralize(field);
    if Plain(neutralized) {
      BareField(neutralized, rest);
    } else {
      QuotedField(neutralized, rest);
    }
  }

  lemma BareField(text: string, rest: string)
    requires Plain(text) && rest != "" && (rest[0] == ',' || rest[0] == '\r')
    ensures ParseField(text + rest) == Some((text, rest))
  {
    BareRoundTrip(text, rest);
    assert text != "" ==> (text + rest)[0] == text[0];
  }

  lemma QuotedField(text: string, rest: string)
    requires rest != "" && rest[0] != '"'
    ensures ParseField("\"" + DoubleQuotes(text) + "\"" + rest) == Some((text, rest))
  {
    QuotedRoundTrip(text, rest);
    BehindTheQuote(DoubleQuotes(text), rest);
  }

  lemma BehindTheQuote(doubled: string, rest: string)
    ensures var s := "\"" + doubled + "\"" + rest;
            s[0] == '"' && s[1..] == doubled + "\"" + rest
  {
  }

  function NeutralizeAll(fields: seq<string>): (r: seq<string>)
    ensures |r| == |fields|
    ensures forall i :: 0 <= i < |r| ==> r[i] == Neutralize(fields[i])
  {
    seq(|fields|, i requires 0 <= i < |fields| => Neutralize(fields[i]))
  }

  lemma JoinTexts(a: string, b: string, c: string)
    ensures (a + b) + c == a + (b + c)
  {
  }

  lemma LineOfOne(field: string, rest: string)
    ensures Line([field]) + rest == Escape(field) + (CRLF + rest)
  {
    JoinTexts(Escape(field), CRLF, rest);
  }

  lemma LineOfMore(fields: seq<string>, rest: string)
    requires |fields| > 1
    ensures Line(fields) + rest == Escape(fields[0]) + ("," + (Line(fields[1..]) + rest))
  {
    var e, j := Escape(fields[0]), JoinEscaped(fields[1..]);
    assert Line(fields) == e + "," + j + CRLF;
    JoinTexts(e + ",", j, CRLF);
    JoinTexts(e + ",", j + CRLF, rest);
    JoinTexts(e, ",", j + CRLF + rest);
  }

  lemma LastField(s: string, field: string, rest: string)
    requires ParseField(s) == Some((field, CRLF + rest))
    ensures ParseRecord(s) == Some(([field], rest))
  {
    assert (CRLF + rest)[2..] == rest;
  }

  lemma FieldThenMore(s: string, field: string, tail: string)
    requires ParseField(s) == Some((field, "," + tail)) && ParseRecord(tail).Some?
    ensures ParseRecord(s) == Some(([field] + ParseRecord(tail).value.0, ParseRecord(tail).value.1))
  {
    assert ("," + tail)[1..] == tail;
  }

  lemma NeutralizeFirst(fields: seq<string>)
    requires fields != []
    ensures NeutralizeAll(fields) == [Neutralize(fields[0])] + NeutralizeAll(fields[1..])
  {
  }

  lemma MoreFields(fields: seq<string>, rest: string)
    requires |fields| > 1 && ParseRecord(Line(fields[1..]) + rest).Some?
    ensures var tail := ParseRecord(Line(fields[1..]) + rest).value;
            ParseRecord(Line(fields) + rest) == Some(([Neutralize(fields[0])] + tail.0, tail.1))
  {
    LineOfMore(fields, rest);
    FieldRoundTrip(fields[0], "," + (Line(fields[1..]) + rest));
    FieldThenMore(Line(fields) + rest, Neutralize(fields[0]), Line(fields[1..]) + rest);
  }

  lemma {:induction false} RecordRoundTrip(fields: seq<string>, rest: string)
    requires fields != []
    ensures ParseRecord(Line(fields) + rest) == Some((NeutralizeAll(fields), rest))
    decreases |fields|
  {
    if |fields| == 1 {
      assert fields == [fields[0]];
      assert NeutralizeAll(fields) == [Neutralize(fields[0])];
      LineOfOne(fields[0], rest);
      FieldRoundTrip(fields[0], CRLF + rest);
      LastField(Line(fields) + rest, Neutralize(fields[0]), rest);
    } else {
      RecordRoundTrip(fields[1..], rest);
      MoreFields(fields, rest);
      NeutralizeFirst(fields);
    }
  }

  function NeutralizeRecords(records: seq<seq<string>>): (r: seq<seq<string>>)
    ensures |r| == |records|
    ensures forall i :: 0 <= i < |r| ==> r[i] == NeutralizeAll(records[i])
  {
    seq(|records|, i requires 0 <= i < |records| => NeutralizeAll(records[i]))
  }

  lemma NeutralizeFirstRecord(records: seq<seq<string>>)
    requires records != []
    ensures NeutralizeRecords(records) == [NeutralizeAll(records[0])] + NeutralizeRecords(records[1..])
  {
  }

  /** Any list of non-empty records is read back with every field neutralised and nothing else changed. */
  lemma {:induction false} LinesRoundTrip(records: seq<seq<string>>)
    requires forall i :: 0 <= i < |records| ==> records[i] != []
    ensures Parse(Lines(records)) == Some(NeutralizeRecords(records))
    decreases |records|
  {
    if records != [] {
      LinesRoundTrip(records[1..]);
      RecordRoundTrip(records[0], Lines(records[1..]));
      NeutralizeFirstRecord(records);
    }
  }

  /** Neutralising loses exactly one distinction: a triggering field and the same field typed with an apostrophe. */
  lemma NeutralizeCollides(a: string, b: string)
    ensures Neutralize(a) == Neutralize(b)
       <==> a == b || (StartsWithTrigger(a) && b == "'" + a) || (StartsWithTrigger(b) && a == "'" + b)
  {
    if StartsWithTrigger(a) && StartsWithTrigger(b) && Neutralize(a) == Neutralize(b) {
      assert a == Neutralize(a)[1..] && b == Neutralize(b)[1..];
    }
  }

  /** Quotes are put around a field exactly when it holds a comma, a quote, or half of a line break. */
  lemma QuotedWhenNeeded(field: string)
    ensures var inert := Neutralize(field);
            Escape(field) == if exists i :: 0 <= i < |inert| && (inert[i] == ',' || inert[i] == '"' || inert[i] == '\n' || inert[i] == '\r')
                             then "\"" + DoubleQuotes(inert) + "\"" else inert
  {
    var inert := Neutralize(field);
    if !Plain(inert) {
      var i :| 0 <= i < |inert| && Special(inert[i]);
      assert inert[i] == ',' || inert[i] == '"' || inert[i] == '\n' || inert[i] == '\r';
    }
  }

  /** A cell never starts like a formula, and only a field that does is changed. */
  lemma CellsAreInert(records: seq<seq<string>>, i: nat, j: nat)
    requires i < |records| && j < |records[i]|
    ensures var field, cell := records[i][j], NeutralizeRecords(records)[i][j];
            && (cell != "" ==> cell[0] != '=' && cell[0] != '+' && cell[0] != '-' && cell[0] != '@' && cell[0] != '\t' && cell[0] != '\r')
            && cell == (if field != "" && (field[0] == '=' || field[0] == '+' || field[0] == '-' || field[0] == '@'
                                           || field[0] == '\t' || field[0] == '\r')
                        then "'" + field else field)
  {
  }

  // ------------------------------------------------------------------ the report

  function SyntheticCount(items: seq<ItemLine>): nat {
    if items == [] then 0
    else SyntheticCount(items[..|items| - 1]) + (if items[|items| - 1].synthetic then 1 else 0)
  }

  function Flag(b: bool): string {
    if b then "true" else "false"
  }

  function SummaryRecords(m: ItemsSummary): seq<seq<string>> {
    [["section", "value"],
     ["generated_at", m.generatedAt],
     ["total_items", Decimal(|m.items|)],
     ["synthetic_items", Decimal(SyntheticCount(m.items))],
     ["real_items", Decimal(|m.items| - SyntheticCount(m.items))]]
  }

  function ItemRecords(items: seq<ItemLine>): (r: seq<seq<string>>)
    ensures |r| == |items|
  {
    seq(|items|, i requires 0 <= i < |items| => [Decimal(items[i].id), items[i].name, Flag(items[i].synthetic)])
  }

  function StatRecords(stats: seq<AnalyticsStat>): (r: seq<seq<string>>)
    ensures |r| == |stats|
  {
    seq(|stats|, i requires 0 <= i < |stats| => [stats[i].eventType, Decimal(stats[i].count)])
  }

  function AnalyticsRecords(a: AnalyticsSection): seq<seq<string>> {
    if a.available then [["event_type", "count"]] + StatRecords(a.stats)
    else
      [["analytics_status", "note"],
       ["unavailable", if a.note.Some? then a.note.value else "analytics unavailable"]]
  }

  /** An empty line is a record of one empty field. */
  const SEPARATOR: seq<string> := [""]

  function ItemBlock(items: seq<ItemLine>): seq<seq<string>> {
    [["id", "name", "synthetic"]] + ItemRecords(items)
  }

  /** The logical content of a report, block by block. */
  function Records(m: ItemsSummary): seq<seq<string>> {
    SummaryRecords(m) + [SEPARATOR] + ItemBlock(m.items) + [SEPARATOR] + AnalyticsRecords(m.analytics)
  }

  lemma RecordsAreNonEmpty(m: ItemsSummary)
    ensures forall i :: 0 <= i < |Records(m)| ==> Records(m)[i] != []
  {
  }

  /** The separators are the only records of one empty field, whatever the names contain. */
  lemma OnlySeparatorsAreBlank(m: ItemsSummary, i: nat)
    requires i < |Records(m)|
    ensures NeutralizeRecords(Records(m))[i] == SEPARATOR <==> i == 5 || i == 7 + |m.items|
  {
    var n := |m.items|;
    var r := Records(m);
    if i == 5 || i == 7 + n {
      assert r[i] == SEPARATOR;
      assert NeutralizeAll(SEPARATOR) == SEPARATOR;
    } else {
      assert |r[i]| >= 2;
    }
  }

  lemma FirstOfConcat(a: seq<seq<string>>, b: seq<seq<string>>)
    requires a != []
    ensures a + b != [] && (a + b)[0] == a[0] && (a + b)[1..] == a[1..] + b
  {
  }

  /** A number is read back from its digits; a negative one is neutralised and comes back behind an apostrophe. */
  predicate ReadsBack(cell: string, n: int) {
    if n >= 0 then NaturalValue(cell) == n
    else |cell| >= 2 && cell[0] == '\'' && cell[1] == '-' && NaturalValue(cell[2..]) == -n
  }

  lemma NegativeDecimal(k: int)
    requires k > 0
    ensures Neutralize(Decimal(-k)) == "'-" + Natural(k)
  {
    assert "'" + ("-" + Natural(k)) == "'-" + Natural(k);
  }

  lemma BehindTwo(text: string)
    ensures ("'-" + text)[0] == '\'' && ("'-" + text)[1] == '-' && ("'-" + text)[2..] == text
  {
  }

  lemma NegativeReadsBack(k: int)
    requires k > 0
    ensures ReadsBack("'-" + Natural(k), -k)
  {
    NaturalRoundTrip(k);
    NegativeCell(Natural(k), -k);
  }

  lemma NegativeCell(text: string, n: int)
    requires n < 0 && NaturalValue(text) == -n
    ensures ReadsBack("'-" + text, n)
  {
    BehindTwo(text);
  }

  lemma NonNegativeReadsBack(n: nat)
    ensures NaturalValue(Neutralize(Decimal(n))) == n
  {
    NaturalIsInert(n);
    NaturalRoundTrip(n);
  }

  lemma NumberReadsBack(n: int)
    ensures ReadsBack(Neutralize(Decimal(n)), n)
  {
    if n >= 0 {
      NonNegativeReadsBack(n);
    } else {
      NegativeDecimal(-n);
      NegativeReadsBack(-n);
    }
  }

  lemma ItemRecordAt(m: ItemsSummary, i: nat)
    requires i < |m.items|
    ensures 7 + i < |Records(m)|
    ensures Records(m)[7 + i] == [Decimal(m.items[i].id), m.items[i].name, Flag(m.items[i].synthetic)]
  {
    var before := SummaryRecords(m) + [SEPARATOR] + [["id", "name", "synthetic"]];
    var after := [SEPARATOR] + AnalyticsRecords(m.analytics);
    assert Records(m) == before + ItemRecords(m.items) + after;
    assert |before| == 7;
  }

  lemma ItemHeaderReadsBack(m: ItemsSummary)
    ensures |Records(m)| > 6 && NeutralizeRecords(Records(m))[6] == ["id", "name", "synthetic"]
  {
    var before := SummaryRecords(m) + [SEPARATOR];
    assert Records(m) == before + ItemBlock(m.items) + [SEPARATOR] + AnalyticsRecords(m.analytics);
    assert |before| == 6 && Records(m)[6] == ItemBlock(m.items)[0];
    HeaderCells(Records(m), 6);
  }

  lemma HeaderCells(records: seq<seq<string>>, i: nat)
    requires i < |records| && records[i] == ["id", "name", "synthetic"]
    ensures NeutralizeRecords(records)[i] == ["id", "name", "synthetic"]
  {
    var cells := NeutralizeAll(records[i]);
    assert cells[0] == "id" && cells[1] == "name" && cells[2] == "synthetic";
  }

  /** Item i is found behind the summary, the separator and the header, with its own name and number. */
  lemma ItemsReadBack(m: ItemsSummary, i: nat)
    requires i < |m.items|
    ensures var record := NeutralizeRecords(Records(m))[7 + i];
            && |record| == 3 && record[1] == Neutralize(m.items[i].name)
            && record[2] == (if m.items[i].synthetic then "true" else "false")
            && ReadsBack(record[0], m.items[i].id)
  {
    ItemRecordAt(m, i);
    NumberReadsBack(m.items[i].id);
  }

  /** The number of synthetic items is that of the items marked so. */
  lemma {:induction false} SyntheticAreCounted(items: seq<ItemLine>)
    ensures SyntheticCount(items) == |set i | 0 <= i < |items| && items[i].synthetic|
    ensures SyntheticCount(items) <= |items|
    decreases |items|
  {
    if items != [] {
      var n := |items| - 1;
      var init := items[..n];
      SyntheticAreCounted(init);
      var before, all := set i | 0 <= i < |init| && init[i].synthetic, set i | 0 <= i < |items| && items[i].synthetic;
      assert all == if items[n].synthetic then before + {n} else before;
    }
  }

  lemma SummaryRecordAt(m: ItemsSummary)
    ensures |Records(m)| > 5 && Records(m)[..5] == SummaryRecords(m)
  {
    var rest := [SEPARATOR] + ItemBlock(m.items) + [SEPARATOR] + AnalyticsRecords(m.analytics);
    assert Records(m) == SummaryRecords(m) + rest;
  }

  lemma CellOf(records: seq<seq<string>>, i: nat, a: string, b: string)
    requires i < |records| && records[i] == [a, b]
    ensures NeutralizeRecords(records)[i] == [Neutralize(a), Neutralize(b)]
  {
  }

  lemma LabelledCell(records: seq<seq<string>>, i: nat, title: string, b: string)
    requires i < |records| && records[i] == [title, b] && title != "" && !Trigger(title[0])
    ensures NeutralizeRecords(records)[i] == [title, Neutralize(b)]
  {
    CellOf(records, i, title, b);
  }

  /** Record i of the preamble is read back with its title and its neutralised value. */
  ghost predicate Row(m: ItemsSummary, i: nat, title: string, value: string) {
    i < |NeutralizeRecords(Records(m))| && NeutralizeRecords(Records(m))[i] == [title, Neutralize(value)]
  }

  lemma PreambleRow(m: ItemsSummary, i: nat, title: string, value: string)
    requires i < 5 && SummaryRecords(m)[i] == [title, value] && title != "" && !Trigger(title[0])
    ensures Row(m, i, title, value)
  {
    SummaryRecordAt(m);
    assert Records(m)[i] == Records(m)[..5][i];
    LabelledCell(Records(m), i, title, value);
  }

  lemma PreambleRows(m: ItemsSummary)
    ensures Row(m, 0, "section", "value") && Row(m, 1, "generated_at", m.generatedAt)
    ensures Row(m, 2, "total_items", Decimal(|m.items|))
    ensures Row(m, 3, "synthetic_items", Decimal(SyntheticCount(m.items)))
    ensures Row(m, 4, "real_items", Decimal(|m.items| - SyntheticCount(m.items)))
  {
    PreambleRow(m, 0, "section", "value");
    PreambleRow(m, 1, "generated_at", m.generatedAt);
    PreambleRow(m, 2, "total_items", Decimal(|m.items|));
    PreambleRow(m, 3, "synthetic_items", Decimal(SyntheticCount(m.items)));
    PreambleRow(m, 4, "real_items", Decimal(|m.items| - SyntheticCount(m.items)));
  }

  /** The number in the second cell of record i. */
  function NumberAt(m: ItemsSummary, i: nat): int {
    var r := NeutralizeRecords(Records(m));
    if i < |r| && |r[i]| == 2 then NaturalValue(r[i][1]) else -1
  }

  lemma NumberRow(m: ItemsSummary, i: nat, title: string, n: nat)
    requires Row(m, i, title, Decimal(n))
    ensures NumberAt(m, i) == n
  {
    NonNegativeReadsBack(n);
  }

  /** The preamble reads back: the labels as they are, the date neutralised, and three numbers that add up. */
  lemma SummaryReadsBack(m: ItemsSummary)
    ensures Row(m, 0, "section", "value") && Row(m, 1, "generated_at", m.generatedAt)
    ensures Row(m, 2, "total_items", Decimal(|m.items|)) && NumberAt(m, 2) == |m.items|
    ensures NumberAt(m, 3) == |set i | 0 <= i < |m.items| && m.items[i].synthetic|
    ensures NumberAt(m, 3) + NumberAt(m, 4) == |m.items|
    ensures Row(m, 3, "synthetic_items", Decimal(NumberAt(m, 3))) && Row(m, 4, "real_items", Decimal(NumberAt(m, 4)))
  {
    var n := SyntheticCount(m.items);
    PreambleRows(m);
    SyntheticAreCounted(m.items);
    NumberRow(m, 2, "total_items", |m.items|);
    NumberRow(m, 3, "synthetic_items", n);
    NumberRow(m, 4, "real_items", |m.items| - n);
  }

  lemma AnalyticsRecordAt(m: ItemsSummary, i: nat)
    requires i < |AnalyticsRecords(m.analytics)|
    ensures |Records(m)| == 8 + |m.items| + |AnalyticsRecords(m.analytics)|
    ensures Records(m)[8 + |m.items| + i] == AnalyticsRecords(m.analytics)[i]
  {
    var before := SummaryRecords(m) + [SEPARATOR] + ItemBlock(m.items) + [SEPARATOR];
    assert Records(m) == before + AnalyticsRecords(m.analytics);
    assert |before| == 8 + |m.items|;
  }

  /** One statistic, in its columns. */
  lemma StatReadsBack(m: ItemsSummary, i: nat)
    requires m.analytics.available && i < |m.analytics.stats|
    ensures var r, k := NeutralizeRecords(Records(m)), 9 + |m.items| + i;
            && k < |r| && |r[k]| == 2 && r[k][0] == Neutralize(m.analytics.stats[i].eventType)
            && ReadsBack(r[k][1], m.analytics.stats[i].count)
  {
    var stat := m.analytics.stats[i];
    AnalyticsRecordAt(m, i + 1);
    CellOf(Records(m), 9 + |m.items| + i, stat.eventType, Decimal(stat.count));
    NumberReadsBack(stat.count);
  }

  /** The analytics block reads back: each statistic in its columns, or the note that stands for them. */
  lemma AnalyticsReadBack(m: ItemsSummary)
    ensures m.analytics.available ==>
              && |NeutralizeRecords(Records(m))| == 9 + |m.items| + |m.analytics.stats|
              && Row(m, 8 + |m.items|, "event_type", "count")
              && forall i: nat :: i < |m.analytics.stats| ==>
                   var cells := NeutralizeRecords(Records(m))[9 + |m.items| + i];
                   && |cells| == 2 && cells[0] == Neutralize(m.analytics.stats[i].eventType)
                   && ReadsBack(cells[1], m.analytics.stats[i].count)
    ensures !m.analytics.available ==>
              && |NeutralizeRecords(Records(m))| == 10 + |m.items|
              && Row(m, 8 + |m.items|, "analytics_status", "note")
              && Row(m, 9 + |m.items|, "unavailable",
                     if m.analytics.note.Some? then m.analytics.note.value else "analytics unavailable")
  {
    var n := 8 + |m.items|;
    AnalyticsRecordAt(m, 0);
    if m.analytics.available {
      LabelledCell(Records(m), n, "event_type", "count");
      forall i: nat | i < |m.analytics.stats| {
        StatReadsBack(m, i);
      }
    } else {
      AnalyticsRecordAt(m, 1);
      LabelledCell(Records(m), n, "analytics_status", "note");
      LabelledCell(Records(m), n + 1, "unavailable",
        if m.analytics.note.Some? then m.analytics.note.value else "analytics unavailable");
    }
  }

  lemma {:induction false} LinesConcat(a: seq<seq<string>>, b: seq<seq<string>>)
    ensures Lines(a + b) == Lines(a) + Lines(b)
    decreases |a|
  {
    if a == [] {
      assert a + b == b;
    } else {
      LinesConcat(a[1..], b);
      FirstOfConcat(a, b);
      JoinTexts(Line(a[0]), Lines(a[1..]), Lines(b));
    }
  }

  lemma LinesSnoc(records: seq<seq<string>>, record: seq<string>)
    ensures Lines(records + [record]) == Lines(records) + Line(record)
  {
    LinesConcat(records, [record]);
    assert Lines([record]) == Line(record);
  }

  /** What `done` already holds plus one more record. */
  lemma TextGrows(start: string, done: seq<seq<string>>, record: seq<string>)
    ensures start + Lines(done) + Line(record) == start + Lines(done + [record])
  {
    LinesSnoc(done, record);
    JoinTexts(start, Lines(done), Line(record));
  }

  class StringBuilder {
    var text: string

    constructor ()
      ensures text == ""
    {
      text := "";
    }

    method Append(s: string)
      modifies this
      ensures text == old(text) + s
    {
      text := text + s;
    }

    method AppendCsv(fields: seq<string>)
      requires fields != []
      modifies this
      ensures text == old(text) + Line(fields)
    {
      var joined := Escape(fields[|fields| - 1]);
      assert fields[|fields| - 1..] == [fields[|fields| - 1]];
      for i := |fields| - 1 downto 0
        invariant joined == JoinEscaped(fields[i..])
      {
        joined := Escape(fields[i]) + "," + joined;
      }
      assert fields[0..] == fields;
      Append(joined);
      Append(CRLF);
    }
  }

  lemma TakeOneMore<T>(s: seq<T>, i: nat)
    requires i < |s|
    ensures s[..i + 1] == s[..i] + [s[i]]
  {
  }

  lemma OneMoreRow<T>(before: seq<T>, rows: seq<T>, i: nat)
    requires i < |rows|
    ensures before + rows[..i + 1] == before + rows[..i] + [rows[i]]
  {
  }

  /** A block of consecutive appendCsv calls. */
  method AppendRecords(sb: StringBuilder, records: seq<seq<string>>)
    requires forall i :: 0 <= i < |records| ==> records[i] != []
    modifies sb
    ensures sb.text == old(sb.text) + Lines(records)
  {
    for i := 0 to |records|
      invariant sb.text == old(sb.text) + Lines(records[..i])
    {
      TextGrows(old(sb.text), records[..i], records[i]);
      TakeOneMore(records, i);
      sb.AppendCsv(records[i]);
    }
    assert records[..|records|] == records;
  }

  method AppendItems(sb: StringBuilder, items: seq<ItemLine>)
    modifies sb
    ensures sb.text == old(sb.text) + Lines(ItemBlock(items))
  {
    AppendItemRows(sb, ["id", "name", "synthetic"], items);
  }

  method AppendItemRows(sb: StringBuilder, header: seq<string>, items: seq<ItemLine>)
    requires header != []
    modifies sb
    ensures sb.text == old(sb.text) + Lines([header] + ItemRecords(items))
  {
    AppendRecords(sb, [header]);
    ghost var rows := ItemRecords(items);
    assert [header] + rows[..0] == [header];
    for i := 0 to |items|
      invariant sb.text == old(sb.text) + Lines([header] + rows[..i])
    {
      TextGrows(old(sb.text), [header] + rows[..i], rows[i]);
      sb.AppendCsv([Decimal(items[i].id), items[i].name, Flag(items[i].synthetic)]);
      OneMoreRow([header], rows, i);
    }
    assert rows[..|items|] == rows;
  }

  method AppendStats(sb: StringBuilder, header: seq<string>, stats: seq<AnalyticsStat>)
    requires header != []
    modifies sb
    ensures sb.text == old(sb.text) + Lines([header] + StatRecords(stats))
  {
    AppendRecords(sb, [header]);
    ghost var rows := StatRecords(stats);
    assert [header] + rows[..0] == [header];
    for i := 0 to |stats|
      invariant sb.text == old(sb.text) + Lines([header] + rows[..i])
    {
      TextGrows(old(sb.text), [header] + rows[..i], rows[i]);
      sb.AppendCsv([stats[i].eventType, Decimal(stats[i].count)]);
      OneMoreRow([header], rows, i);
    }
    assert rows[..|stats|] == rows;
  }

  method AppendAnalytics(sb: StringBuilder, a: AnalyticsSection)
    modifies sb
    ensures sb.text == old(sb.text) + Lines(AnalyticsRecords(a))
  {
    if a.available {
      AppendStats(sb, ["event_type", "count"], a.stats);
    } else {
      AppendRecords(sb, [["analytics_status", "note"],
                         ["unavailable", if a.note.Some? then a.note.value else "analytics unavailable"]]);
    }
  }

  /** The rendered report reads back as exactly the summary, item and analytics records, neutralised. */
  method Render(m: ItemsSummary) returns (text: string)
    ensures text == Lines(Records(m))
    ensures Parse(text) == Some(NeutralizeRecords(Records(m)))
    ensures forall i, j :: 0 <= i < |Records(m)| && 0 <= j < |Records(m)[i]| ==>
              var field, cell := Records(m)[i][j], Parse(text).value[i][j];
              && (cell != "" ==> cell[0] != '=' && cell[0] != '+' && cell[0] != '-' && cell[0] != '@' && cell[0] != '\t' && cell[0] != '\r')
              && cell == (if field != "" && (field[0] == '=' || field[0] == '+' || field[0] == '-' || field[0] == '@'
                                             || field[0] == '\t' || field[0] == '\r')
                          then "'" + field else field)
  {
    forall i, j | 0 <= i < |Records(m)| && 0 <= j < |Records(m)[i]| {
      CellsAreInert(Records(m), i, j);
    }
    var sb := new StringBuilder();
    AppendRecords(sb, SummaryRecords(m));
    sb.Append(CRLF);
    AppendItems(sb, m.items);
    sb.Append(CRLF);
    AppendAnalytics(sb, m.analytics);
    text := sb.text;
    BlocksMakeTheDocument(m);
    RecordsAreNonEmpty(m);
    LinesRoundTrip(Records(m));
  }

  lemma BlocksMakeTheDocument(m: ItemsSummary)
    ensures Lines(Records(m)) ==
            "" + Lines(SummaryRecords(m)) + CRLF + Lines(ItemBlock(m.items)) + CRLF + Lines(AnalyticsRecords(m.analytics))
  {
    assert Line(SEPARATOR) == CRLF by {
      assert Escape("") == "";
    }
    SeparatedBlocks(SummaryRecords(m), ItemBlock(m.items), AnalyticsRecords(m.analytics), SEPARATOR);
  }

  lemma BlockAfterSeparator(a: seq<seq<string>>, separator: seq<string>, b: seq<seq<string>>)
    ensures Lines(a + [separator] + b) == Lines(a) + Line(separator) + Lines(b)
  {
    LinesSnoc(a, separator);
    LinesConcat(a + [separator], b);
  }

  lemma SeparatedBlocks(a: seq<seq<string>>, b: seq<seq<string>>, c: seq<seq<string>>, separator: seq<string>)
    ensures Lines(a + [separator] + b + [separator] + c) == "" + Lines(a) + Line(separator) + Lines(b) + Line(separator) + Lines(c)
  {
    BlockAfterSeparator(a, separator, b);
    BlockAfterSeparator(a + [separator] + b, separator, c);
    EmptyPrefix(Lines(a));
  }

  lemma EmptyPrefix(text: string)
    ensures "" + text == text
  {
  }
}
