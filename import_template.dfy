/**
 * The downloadable import template (app/api/admin/products/template/route.ts): a
 * header line and one sample row, with fields quoted the way section 2 of RFC 4180
 * quotes them (rules 6 and 7), except that line breaks do not trigger quoting and
 * lines are joined by "\n" rather than CRLF (rule 1).
 */
module ImportTemplate {
  import opened Text

  const Headers: seq<string> := [
    "id", "slug", "name", "brand", "description", "price", "compare_at_price",
    "tags", "categories", "flavors", "rating", "reviews_count", "images", "stock", "meta"]

  const SampleRow: seq<string> := [
    "uuid-opcional", "producto-ejemplo", "Producto de ejemplo", "MarcaX", "Descripción breve",
    "19.99", "24.99", "[\"proteína\",\"vegano\"]", "[\"Proteínas\",\"Veganos\"]",
    "[\"Chocolate\",\"Vainilla\"]", "4.5", "10", "[\"/img1.jpg\",\"/img2.jpg\"]", "100",
    "{\"servings\":30,\"notes\":\"campo libre\"}"]

  /** `s.replace(/"/g, '""')`. */
  function DoubleQuotes(s: string): (r: string)
    ensures forall c :: c in r ==> c in s
  {
    if s == [] then []
    else (if s[0] == '"' then "\"\"" else [s[0]]) + DoubleQuotes(s[1..])
  }

  /** A field is quoted when it holds a comma or a double quote; its quotes are then doubled. */
  function Escape(s: string): (r: string)
    ensures ',' !in s && '"' !in s ==> r == s
    ensures ',' in s || '"' in s ==> r == "\"" + DoubleQuotes(s) + "\""
  {
    if ',' in s || '"' in s then "\"" + DoubleQuotes(s) + "\"" else s
  }

  /** Reading doubled quotes back as single ones. */
  function HalveQuotes(s: string): (r: string)
    ensures |r| <= |s|
  {
    if s == [] then []
    else if |s| >= 2 && s[0] == '"' && s[1] == '"' then "\"" + HalveQuotes(s[2..])
    else [s[0]] + HalveQuotes(s[1..])
  }

  /** Reading one field: strip the enclosing quotes of a quoted field and halve its quotes. */
  function Unescape(f: string): (r: string)
    ensures |r| <= |f|
    ensures !(|f| >= 2 && f[0] == '"' && f[|f| - 1] == '"') ==> r == f
  {
    if |f| >= 2 && f[0] == '"' && f[|f| - 1] == '"' then HalveQuotes(f[1..|f| - 1]) else f
  }

  lemma {:induction false} HalveDoubled(s: string)
    ensures HalveQuotes(DoubleQuotes(s)) == s
  {
    if s != [] {
      HalveDoubled(s[1..]);
      var rest := DoubleQuotes(s[1..]);
      if s[0] == '"' {
        assert ("\"\"" + rest)[2..] == rest;
      } else {
        assert ([s[0]] + rest)[1..] == rest;
      }
    }
  }

  /** Every field reads back as written. */
  lemma UnescapeEscape(s: string)
    ensures Unescape(Escape(s)) == s
  {
    if ',' in s || '"' in s {
      var d := DoubleQuotes(s);
      assert ("\"" + d + "\"")[1..|d| + 1] == d;
      HalveDoubled(s);
    }
  }

  /** A field with a line break but neither comma nor quote is left unquoted. */
  lemma LineBreakNotQuoted()
    ensures Escape("a\nb") == "a\nb"
  {
  }

  // ---------------------------------------------------------------------------
  // Lines
  // ---------------------------------------------------------------------------

  function EscapeAll(fields: seq<string>): (r: seq<string>)
    ensures |r| == |fields| && forall k :: 0 <= k < |r| ==> r[k] == Escape(fields[k])
  {
    if fields == [] then [] else [Escape(fields[0])] + EscapeAll(fields[1..])
  }

  /** No value needs quoting: none holds a comma or a quote. */
  predicate Plain(fields: seq<string>) {
    forall k :: 0 <= k < |fields| ==> ',' !in fields[k] && '"' !in fields[k]
  }

  /** One CSV line: the escaped fields joined by commas. */
  function Line(fields: seq<string>): (r: string)
    ensures Plain(fields) ==> r == Join(fields, ",")
  {
    var escaped := EscapeAll(fields);
    assert Plain(fields) ==> escaped == fields;
    Join(escaped, ",")
  }

  /** The whole file: the header line (not escaped), then one line per row, joined by "\n". */
  function Csv(headers: seq<string>, rows: seq<seq<string>>): (r: string)
    ensures StartsWith(r, Join(headers, ","))
  {
    Join([Join(headers, ",")] + Lines(rows), "\n")
  }

  function Lines(rows: seq<seq<string>>): (r: seq<string>)
    ensures |r| == |rows| && forall k :: 0 <= k < |r| ==> r[k] == Line(rows[k])
  {
    if rows == [] then [] else [Line(rows[0])] + Lines(rows[1..])
  }

  /** The template served by `GET`. */
  function TemplateCsv(): string {
    Csv(Headers, [SampleRow])
  }

  // ---------------------------------------------------------------------------
  // Counting fields: commas outside quotes
  // ---------------------------------------------------------------------------

  datatype ScanState = ScanState(commas: nat, quoted: bool)

  /** Reading left to right, a quote flips "inside quotes" and a comma outside quotes separates fields. */
  function Scan(s: string, quoted: bool): ScanState {
    if s == [] then ScanState(0, quoted)
    else if s[0] == '"' then Scan(s[1..], !quoted)
    else if s[0] == ',' && !quoted then
      var r := Scan(s[1..], quoted);
      ScanState(r.commas + 1, r.quoted)
    else Scan(s[1..], quoted)
  }

  /** The number of fields of a line, split at unquoted commas. */
  function FieldCount(line: string): nat {
    Scan(line, false).commas + 1
  }

  lemma {:induction false} ScanAppend(a: string, b: string, quoted: bool)
    ensures var r1 := Scan(a, quoted);
            var r2 := Scan(b, r1.quoted);
            Scan(a + b, quoted) == ScanState(r1.commas + r2.commas, r2.quoted)
  {
    if a == [] {
      assert a + b == b;
    } else {
      assert (a + b)[0] == a[0] && (a + b)[1..] == a[1..] + b;
      if a[0] == '"' {
        ScanAppend(a[1..], b, !quoted);
      } else {
        ScanAppend(a[1..], b, quoted);
      }
    }
  }

  lemma {:induction false} ScanPlain(s: string, quoted: bool)
    requires ',' !in s && '"' !in s
    ensures Scan(s, quoted) == ScanState(0, quoted)
  {
    if s != [] {
      ScanPlain(s[1..], quoted);
    }
  }

  /** Inside quotes, doubled quotes flip twice and commas do not count. */
  lemma {:induction false} ScanDoubled(s: string)
    ensures Scan(DoubleQuotes(s), true) == ScanState(0, true)
  {
    if s != [] {
      ScanDoubled(s[1..]);
      var rest := DoubleQuotes(s[1..]);
      if s[0] == '"' {
        ScanAppend("\"\"", rest, true);
      } else {
        ScanAppend([s[0]], rest, true);
      }
    }
  }

  /** An escaped field holds no unquoted comma and ends outside quotes. */
  lemma EscapedFieldBalanced(s: string)
    ensures Scan(Escape(s), false) == ScanState(0, false)
  {
    if ',' in s || '"' in s {
      var d := DoubleQuotes(s);
      ScanAppend("\"", d + "\"", false);
      ScanAppend(d, "\"", true);
      ScanDoubled(s);
      assert "\"" + d + "\"" == "\"" + (d + "\"");
    } else {
      ScanPlain(s, false);
    }
  }

  /** Split at unquoted commas, a line has exactly one field per value. */
  lemma {:induction false} LineFieldCount(fields: seq<string>)
    requires |fields| >= 1
    ensures Scan(Line(fields), false) == ScanState(|fields| - 1, false)
    ensures FieldCount(Line(fields)) == |fields|
  {
    EscapedFieldBalanced(fields[0]);
    if |fields| > 1 {
      LineFieldCount(fields[1..]);
      var e := EscapeAll(fields);
      assert e[1..] == EscapeAll(fields[1..]);
      var rest := Join(e[1..], ",");
      assert Line(fields) == e[0] + ("," + rest);
      ScanAppend(e[0], "," + rest, false);
      ScanAppend(",", rest, false);
    }
  }

  // ---------------------------------------------------------------------------
  // Records: lines split at "\n"
  // ---------------------------------------------------------------------------

  lemma {:induction false} DoubleQuotesKeepsOut(s: string, c: char)
    requires c != '"' && c !in s
    ensures c !in DoubleQuotes(s)
  {
  }

  lemma {:induction false} JoinKeepsOut(xs: seq<string>, sep: string, c: char)
    requires c !in sep && forall k :: 0 <= k < |xs| ==> c !in xs[k]
    ensures c !in Join(xs, sep)
  {
    if |xs| > 1 {
      JoinKeepsOut(xs[1..], sep, c);
    }
  }

  lemma LineWithoutBreaks(fields: seq<string>)
    requires forall k :: 0 <= k < |fields| ==> '\n' !in fields[k]
    ensures '\n' !in Line(fields)
  {
    forall k | 0 <= k < |fields|
      ensures '\n' !in Escape(fields[k])
    {
      DoubleQuotesKeepsOut(fields[k], '\n');
    }
    JoinKeepsOut(EscapeAll(fields), ",", '\n');
  }

  /** Without line breaks in any field, the file splits at "\n" into the header line and one line per row. */
  lemma CsvRecords(headers: seq<string>, rows: seq<seq<string>>)
    requires forall k :: 0 <= k < |headers| ==> '\n' !in headers[k]
    requires forall i, k :: 0 <= i < |rows| && 0 <= k < |rows[i]| ==> '\n' !in rows[i][k]
    ensures Split(Csv(headers, rows), '\n') == [Join(headers, ",")] + Lines(rows)
  {
    JoinKeepsOut(headers, ",", '\n');
    var xs := [Join(headers, ",")] + Lines(rows);
    forall k | 0 <= k < |xs|
      ensures '\n' !in xs[k]
    {
      if k > 0 {
        LineWithoutBreaks(rows[k - 1]);
      }
    }
    SplitJoin(xs, '\n');
  }

  /** A value with a line break splits its row into two records: one row, three lines. */
  lemma LineBreakSplitsRecord()
    ensures Split(Csv(["h"], [["a\nb"]]), '\n') == ["h", "a", "b"]
  {
    var r := "a" + ['\n'] + "b";
    CsvWithBreak();
    SplitPrefix("h", r, '\n');
    SplitPrefix("a", "b", '\n');
    SplitPrefix("b", "", '\n');
    assert ["h"] + (["a"] + ["b"]) == ["h", "a", "b"];
  }

  /** The value is written as it stands, line break included. */
  lemma CsvWithBreak()
    ensures Csv(["h"], [["a\nb"]]) == "h" + ['\n'] + ("a" + ['\n'] + "b")
  {
    assert Line(["a\nb"]) == "a\nb";
    assert Lines([["a\nb"]]) == ["a\nb"];
    assert Join(["h"], ",") == "h";
    var xs := ["h", "a\nb"];
    assert [Join(["h"], ",")] + Lines([["a\nb"]]) == xs;
    assert xs[1..] == ["a\nb"];
    assert Join(xs, "\n") == "h" + "\n" + "a\nb";
  }

  lemma HeadersWithoutBreaks()
    ensures forall k :: 0 <= k < |Headers| ==> '\n' !in Headers[k]
  {
  }

  lemma SampleWithoutBreaks()
    ensures forall k :: 0 <= k < |SampleRow| ==> '\n' !in SampleRow[k]
  {
  }

  /** The template is two records: the header line and the sample line. */
  lemma TemplateRecords()
    ensures Split(TemplateCsv(), '\n') == [Join(Headers, ","), Line(SampleRow)]
  {
    HeadersWithoutBreaks();
    SampleWithoutBreaks();
    CsvRecords(Headers, [SampleRow]);
  }

  /** The sample line has as many fields as the header line. */
  lemma TemplateFieldCounts()
    ensures |SampleRow| == |Headers| == 15
    ensures FieldCount(Line(SampleRow)) == |Headers| && FieldCount(Line(Headers)) == |Headers|
  {
    LineFieldCount(SampleRow);
    LineFieldCount(Headers);
  }
}
