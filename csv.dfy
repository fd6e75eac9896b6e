/** CSV export of the filtered rows: an unquoted header line, then one line per
    row whose nine fields are each wrapped in double quotes with inner quotes
    doubled (section 2 of RFC 4180), lines joined by "\n". A reader for that
    format shows that the export loses nothing. */
module Csv {
  import opened Wrappers
  import opened Strings
  import opened Leads

  const HEADERS: seq<string> := ["Lead ID", "Campaign", "Status", "Name", "Email", "Phone", "Created At", "Sold At", "Step"]

  /** A field's text doubled-quote escaped: every `"` becomes `""`. */
  function Escape(v: string): (r: string)
    ensures |r| >= |v|
  {
    if v == [] then []
    else (if v[0] == '"' then "\"\"" else [v[0]]) + Escape(v[1..])
  }

  /** `"${String(field || "").replace(/"/g, '""')}"`. */
  function QuoteField(v: string): (r: string)
    ensures |r| >= 2 && r[0] == '"' && r[|r| - 1] == '"'
  {
    "\"" + Escape(v) + "\""
  }

  /** `String(field || "")` for a string-or-undefined property. */
  function FieldText(v: Option<string>): (r: string)
    ensures v.None? ==> r == ""
    ensures v.Some? ==> r == v.value
  {
    v.GetOr("")
  }

  /** The nine values of a row, in column order. */
  function RowValues(l: Lead): (r: seq<string>)
    ensures |r| == |HEADERS|
    ensures r[0] == l.leadId && r[1] == l.campaign && r[3] == l.name && r[4] == l.email
    ensures r[5] == l.phone && r[6] == l.createdAt
    ensures r[2] == FieldText(l.status) && r[7] == FieldText(l.soldAt) && r[8] == FieldText(l.step)
  {
    [l.leadId, l.campaign, FieldText(l.status), l.name, l.email, l.phone, l.createdAt, FieldText(l.soldAt), FieldText(l.step)]
  }

  function QuoteAll(vs: seq<string>): (r: seq<string>)
    ensures |r| == |vs|
    ensures forall i :: 0 <= i < |vs| ==> r[i] == QuoteField(vs[i])
  {
    seq(|vs|, i requires 0 <= i < |vs| => QuoteField(vs[i]))
  }

  function RowLine(l: Lead): string
  {
    Join(QuoteAll(RowValues(l)), ",")
  }

  function RowLines(leads: seq<Lead>): (r: seq<string>)
    ensures |r| == |leads|
    ensures forall i :: 0 <= i < |leads| ==> r[i] == RowLine(leads[i])
  {
    seq(|leads|, i requires 0 <= i < |leads| => RowLine(leads[i]))
  }

  /** The `csvContent` of `handleExportCSV`. */
  function Export(leads: seq<Lead>): string
  {
    Join([Join(HEADERS, ",")] + RowLines(leads), "\n")
  }

  // ---------------------------------------------------------------------------
  // Reading the format back.

  /** Reads the body of a quoted field after its opening quote: up to the quote
      that is not doubled. Returns the value and what follows the closing quote. */
  function ReadQuoted(s: string): (r: Option<(string, string)>)
    ensures r.Some? ==> |r.value.1| < |s|
    decreases |s|
  {
    if s == [] then None
    else if s[0] == '"' then
      if |s| >= 2 && s[1] == '"' then
        match ReadQuoted(s[2..])
        case None => None
        case Some(p) => Some(("\"" + p.0, p.1))
      else Some(("", s[1..]))
    else
      match ReadQuoted(s[1..])
      case None => None
      case Some(p) => Some(([s[0]] + p.0, p.1))
  }

  /** Reads an unquoted field: up to the next `,` or line break. */
  function ReadBare(s: string): (r: (string, string))
    ensures |r.1| <= |s|
  {
    if s == [] || s[0] == ',' || s[0] == '\n' then ("", s)
    else var p := ReadBare(s[1..]); ([s[0]] + p.0, p.1)
  }

  function ReadField(s: string): (r: Option<(string, string)>)
    ensures r.Some? ==> |r.value.1| <= |s|
  {
    if s != [] && s[0] == '"' then ReadQuoted(s[1..]) else Some(ReadBare(s))
  }

  /** Reads the fields of one record; stops before a line break or at the end. */
  function ReadRecord(s: string): (r: Option<(seq<string>, string)>)
    ensures r.Some? ==> |r.value.1| <= |s|
    decreases |s|
  {
    match ReadField(s)
    case None => None
    case Some(f) =>
      if f.1 != [] && f.1[0] == ',' then
        match ReadRecord(f.1[1..])
        case None => None
        case Some(rest) => Some(([f.0] + rest.0, rest.1))
      else Some(([f.0], f.1))
  }

  /** Reads every record of a text; `None` when it is not in the format. */
  function ReadRecords(s: string): (r: Option<seq<seq<string>>>)
    decreases |s|
  {
    match ReadRecord(s)
    case None => None
    case Some(rec) =>
      if rec.1 == [] then Some([rec.0])
      else if rec.1[0] == '\n' then
        match ReadRecords(rec.1[1..])
        case None => None
        case Some(more) => Some([rec.0] + more)
      else None
  }

  // ---------------------------------------------------------------------------
  // Round trip.

  /** What may follow a field: nothing, a separator or a line break. */
  predicate FieldEnd(rest: string) { rest == [] || rest[0] == ',' || rest[0] == '\n' }

  lemma {:induction false} ReadQuotedEscape(v: string, rest: string)
    requires rest == [] || rest[0] != '"'
    ensures ReadQuoted(Escape(v) + "\"" + rest) == Some((v, rest))
    decreases |v|
  {
    if v == [] {
      assert Escape(v) + "\"" + rest == "\"" + rest;
    } else {
      ReadQuotedEscape(v[1..], rest);
      var tail := Escape(v[1..]) + "\"" + rest;
      if v[0] == '"' {
        assert Escape(v) + "\"" + rest == "\"\"" + tail;
        assert ("\"\"" + tail)[2..] == tail;
        assert "\"" + v[1..] == v;
      } else {
        assert Escape(v) + "\"" + rest == [v[0]] + tail;
        assert ([v[0]] + tail)[1..] == tail;
        assert [v[0]] + v[1..] == v;
      }
    }
  }

  /** A serialised field reads back as the original text, whatever it contains. */
  lemma FieldRoundTrip(v: string, rest: string)
    requires FieldEnd(rest)
    ensures ReadField(QuoteField(v) + rest) == Some((v, rest))
  {
    ReadQuotedEscape(v, rest);
    assert QuoteField(v) + rest == "\"" + (Escape(v) + "\"" + rest);
  }

  /** A header name: no quote at the start, no separator, no line break. */
  predicate IsBare(h: string)
  {
    (h == [] || h[0] != '"') && forall i :: 0 <= i < |h| ==> h[i] != ',' && h[i] != '\n'
  }

  lemma {:induction false} ReadBareRoundTrip(h: string, rest: string)
    requires forall i :: 0 <= i < |h| ==> h[i] != ',' && h[i] != '\n'
    requires FieldEnd(rest)
    ensures ReadBare(h + rest) == (h, rest)
  {
    if h == [] {
      assert h + rest == rest;
    } else {
      ReadBareRoundTrip(h[1..], rest);
      assert (h + rest)[0] == h[0];
      assert (h + rest)[1..] == h[1..] + rest;
      assert [h[0]] + h[1..] == h;
    }
  }

  /** How a record's fields are written: quoted or bare. */
  function Encode(quoted: bool, v: string): string
  {
    if quoted then QuoteField(v) else v
  }

  function EncodeAll(quoted: bool, vs: seq<string>): (r: seq<string>)
    ensures |r| == |vs|
    ensures forall i :: 0 <= i < |vs| ==> r[i] == Encode(quoted, vs[i])
  {
    seq(|vs|, i requires 0 <= i < |vs| => Encode(quoted, vs[i]))
  }

  /** A record as written: its values, and whether they are quoted. */
  datatype Record = Record(quoted: bool, values: seq<string>)

  predicate Encodable(r: Record)
  {
    |r.values| >= 1 && (r.quoted || forall i :: 0 <= i < |r.values| ==> IsBare(r.values[i]))
  }

  function Line(r: Record): string
  {
    Join(EncodeAll(r.quoted, r.values), ",")
  }

  function Lines(rs: seq<Record>): (r: seq<string>)
    ensures |r| == |rs|
  {
    if rs == [] then [] else [Line(rs[0])] + Lines(rs[1..])
  }

  function Values(rs: seq<Record>): (r: seq<seq<string>>)
    ensures |r| == |rs|
  {
    if rs == [] then [] else [rs[0].values] + Values(rs[1..])
  }

  lemma EncodeRoundTrip(quoted: bool, v: string, rest: string)
    requires quoted || IsBare(v)
    requires FieldEnd(rest)
    ensures ReadField(Encode(quoted, v) + rest) == Some((v, rest))
  {
    if quoted {
      FieldRoundTrip(v, rest);
    } else {
      ReadBareRoundTrip(v, rest);
      if v == [] {
        assert v + rest == rest;
      }
    }
  }

  lemma {:induction false} ReadRecordJoin(quoted: bool, vs: seq<string>, rest: string)
    requires Encodable(Record(quoted, vs))
    requires rest == [] || rest[0] == '\n'
    ensures ReadRecord(Join(EncodeAll(quoted, vs), ",") + rest) == Some((vs, rest))
    decreases |vs|
  {
    var enc := EncodeAll(quoted, vs);
    if |vs| == 1 {
      assert Join(enc, ",") == Encode(quoted, vs[0]);
      EncodeRoundTrip(quoted, vs[0], rest);
      assert vs == [vs[0]];
    } else {
      var tailEnc := EncodeAll(quoted, vs[1..]);
      assert enc[1..] == tailEnc;
      var after := Join(tailEnc, ",") + rest;
      assert Join(enc, ",") + rest == Encode(quoted, vs[0]) + ("," + after);
      EncodeRoundTrip(quoted, vs[0], "," + after);
      assert ("," + after)[1..] == after;
      ReadRecordJoin(quoted, vs[1..], rest);
      assert [vs[0]] + vs[1..] == vs;
    }
  }

  /** Records written one per line read back as their values. */
  lemma {:induction false} ReadRecordsRoundTrip(rs: seq<Record>)
    requires |rs| >= 1
    requires forall i :: 0 <= i < |rs| ==> Encodable(rs[i])
    ensures ReadRecords(Join(Lines(rs), "\n")) == Some(Values(rs))
    decreases |rs|
  {
    var lines := Lines(rs);
    assert Encodable(rs[0]);
    if |rs| == 1 {
      ReadRecordJoin(rs[0].quoted, rs[0].values, "");
      assert Line(rs[0]) + "" == Line(rs[0]);
      assert lines == [Line(rs[0])];
      assert Values(rs) == [rs[0].values];
    } else {
      assert lines[1..] == Lines(rs[1..]);
      var after := Join(Lines(rs[1..]), "\n");
      assert Join(lines, "\n") == Line(rs[0]) + ("\n" + after);
      ReadRecordJoin(rs[0].quoted, rs[0].values, "\n" + after);
      assert ("\n" + after)[1..] == after;
      ReadRecordsRoundTrip(rs[1..]);
    }
  }

  /** The export as records: the bare header, then each row's quoted values. */
  function ExportRecords(leads: seq<Lead>): (r: seq<Record>)
    ensures |r| == |leads| + 1
  {
    [Record(false, HEADERS)] + RowRecords(leads)
  }

  function RowRecords(leads: seq<Lead>): (r: seq<Record>)
    ensures |r| == |leads|
  {
    if leads == [] then [] else [Record(true, RowValues(leads[0]))] + RowRecords(leads[1..])
  }

  lemma QuotedLine(vs: seq<string>)
    ensures Line(Record(true, vs)) == Join(QuoteAll(vs), ",")
  {
    assert EncodeAll(true, vs) == QuoteAll(vs);
  }

  lemma BareLine(vs: seq<string>)
    ensures Line(Record(false, vs)) == Join(vs, ",")
  {
    assert EncodeAll(false, vs) == vs;
  }

  lemma {:induction false} RowRecordsAt(leads: seq<Lead>)
    ensures forall i :: 0 <= i < |leads| ==> RowRecords(leads)[i] == Record(true, RowValues(leads[i]))
  {
    if leads != [] {
      RowRecordsAt(leads[1..]);
      var rs := RowRecords(leads);
      assert rs[1..] == RowRecords(leads[1..]);
      forall i | 1 <= i < |leads|
        ensures rs[i] == Record(true, RowValues(leads[i]))
      {
        assert rs[i] == rs[1..][i - 1];
        assert leads[i] == leads[1..][i - 1];
      }
    }
  }

  lemma {:induction false} LinesAt(rs: seq<Record>)
    ensures forall i :: 0 <= i < |rs| ==> Lines(rs)[i] == Line(rs[i])
  {
    if rs != [] {
      LinesAt(rs[1..]);
      var ls := Lines(rs);
      assert ls[1..] == Lines(rs[1..]);
      forall i | 1 <= i < |rs|
        ensures ls[i] == Line(rs[i])
      {
        assert ls[i] == ls[1..][i - 1];
        assert rs[i] == rs[1..][i - 1];
      }
    }
  }

  lemma RowRecordsLines(leads: seq<Lead>)
    ensures Lines(RowRecords(leads)) == RowLines(leads)
  {
    var rs := RowRecords(leads);
    RowRecordsAt(leads);
    LinesAt(rs);
    forall i | 0 <= i < |leads|
      ensures Lines(rs)[i] == RowLines(leads)[i]
    {
      QuotedLine(RowValues(leads[i]));
    }
  }

  lemma HeadersAreBare()
    ensures Encodable(Record(false, HEADERS))
  {
    assert IsBare(HEADERS[0]) && IsBare(HEADERS[1]) && IsBare(HEADERS[2]);
    assert IsBare(HEADERS[3]) && IsBare(HEADERS[4]) && IsBare(HEADERS[5]);
    assert IsBare(HEADERS[6]) && IsBare(HEADERS[7]) && IsBare(HEADERS[8]);
  }

  lemma ExportIsRecords(leads: seq<Lead>)
    ensures Export(leads) == Join(Lines(ExportRecords(leads)), "\n")
  {
    var header := Record(false, HEADERS);
    BareLine(HEADERS);
    RowRecordsLines(leads);
    var rs := ExportRecords(leads);
    assert rs == [header] + RowRecords(leads);
    assert rs[1..] == RowRecords(leads);
    assert Lines(rs) == [Line(header)] + RowLines(leads);
  }

  lemma ExportRecordsEncodable(leads: seq<Lead>)
    ensures forall i :: 0 <= i < |leads| + 1 ==> Encodable(ExportRecords(leads)[i])
  {
    HeadersAreBare();
    RowRecordsAt(leads);
  }

  /** The header and then, for every row in order, its nine values. */
  function ExportValues(leads: seq<Lead>): (r: seq<seq<string>>)
    ensures |r| == |leads| + 1 && r[0] == HEADERS
    ensures forall i :: 0 <= i < |leads| ==> r[i + 1] == RowValues(leads[i])
  {
    RowRecordsAt(leads);
    var rs := ExportRecords(leads);
    ValuesAt(rs);
    Values(rs)
  }

  lemma {:induction false} ValuesAt(rs: seq<Record>)
    ensures forall i :: 0 <= i < |rs| ==> Values(rs)[i] == rs[i].values
  {
    if rs != [] {
      ValuesAt(rs[1..]);
    }
  }

  /** The export reads back as the header names followed by one record per row,
      holding that row's nine values: values with commas, quotes or line
      breaks survive, and missing values read back as empty. */
  lemma ExportRoundTrip(leads: seq<Lead>)
    ensures ReadRecords(Export(leads)) == Some(ExportValues(leads))
  {
    ExportIsRecords(leads);
    ExportRecordsEncodable(leads);
    ReadRecordsRoundTrip(ExportRecords(leads));
  }
}
