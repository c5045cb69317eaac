/**
 * The CSV line codec of the iOS export: `csvEscape` on the way out, the
 * quote-aware `parseCSVLine` state machine on the way in, and the
 * newline split `importCSV` applies to the whole file first.
 */
module CsvCodec {

  /** `csvEscape` quotes a value that holds a comma, a quote or a line feed. */
  predicate NeedsQuotes(v: string) {
    ',' in v || '"' in v || '\n' in v
  }

  /** `replacingOccurrences(of: "\"", with: "\"\"")`. */
  function DoubleQuotes(v: string): (r: string)
    ensures '"' !in v ==> r == v
    ensures |r| >= |v|
  {
    if v == [] then []
    else (if v[0] == '"' then "\"\"" else [v[0]]) + DoubleQuotes(v[1..])
  }

  /** `csvEscape`. */
  function Escape(v: string): (r: string)
    ensures !NeedsQuotes(v) ==> r == v
    ensures NeedsQuotes(v) <==> (|r| >= 2 && r[0] == '"' && r[|r| - 1] == '"')
  {
    if NeedsQuotes(v) then "\"" + DoubleQuotes(v) + "\"" else DoubleQuotes(v)
  }

  /** `map(csvEscape)`. */
  function EscapeAll(fs: seq<string>): seq<string> {
    if fs == [] then [] else [Escape(fs[0])] + EscapeAll(fs[1..])
  }

  /** `joined(separator:)`. */
  function Join(parts: seq<string>, sep: string): string {
    if |parts| == 0 then ""
    else if |parts| == 1 then parts[0]
    else Join(parts[..|parts| - 1], sep) + sep + parts[|parts| - 1]
  }

  /** One CSV line: the escaped fields, comma-separated. */
  function EncodeLine(fs: seq<string>): string {
    Join(EscapeAll(fs), ",")
  }

  /**
   * The fields `parseCSVLine` returns once it has collected `fields`, holds
   * the partial field `current`, is inside quotes or not, and has `rest`
   * still to read.
   */
  function ParseFrom(rest: string, fields: seq<string>, current: string, inQuotes: bool): seq<string>
    decreases |rest|
  {
    if rest == [] then fields + [current]
    else if rest[0] == '"' then
      if inQuotes && |rest| > 1 && rest[1] == '"' then ParseFrom(rest[2..], fields, current + "\"", inQuotes)
      else ParseFrom(rest[1..], fields, current, !inQuotes)
    else if rest[0] == ',' && !inQuotes then ParseFrom(rest[1..], fields + [current], "", inQuotes)
    else ParseFrom(rest[1..], fields, current + [rest[0]], inQuotes)
  }

  /** What `parseCSVLine` returns for `line`. */
  function ParseLine(line: string): seq<string> {
    ParseFrom(line, [], "", false)
  }

  /** `parseCSVLine`. */
  method ParseCsvLine(line: string) returns (fields: seq<string>)
    ensures fields == ParseLine(line)
  {
    fields := [];
    var current := "";
    var inQuotes := false;
    var index := 0;
    while index < |line|
      invariant 0 <= index <= |line|
      invariant ParseFrom(line[index..], fields, current, inQuotes) == ParseLine(line)
    {
      var ch := line[index];
      if ch == '"' {
        var nextIndex := index + 1;
        if inQuotes && nextIndex < |line| && line[nextIndex] == '"' {
          assert line[index..][2..] == line[index + 2..];
          current := current + "\"";
          index := nextIndex;
        } else {
          assert line[index..][1..] == line[index + 1..];
          inQuotes := !inQuotes;
        }
      } else if ch == ',' && !inQuotes {
        assert line[index..][1..] == line[index + 1..];
        fields := fields + [current];
        current := "";
      } else {
        assert line[index..][1..] == line[index + 1..];
        current := current + [ch];
      }
      index := index + 1;
    }
    assert line[index..] == [];
    fields := fields + [current];
  }

  /** The number of occurrences of `ch` in `s`. */
  function CountOf(s: string, ch: char): nat {
    if s == [] then 0 else (if s[0] == ch then 1 else 0) + CountOf(s[1..], ch)
  }

  /** Reading on only adds fields. */
  lemma {:induction false} ParseFromGrows(rest: string, fields: seq<string>, current: string, inQuotes: bool)
    ensures |ParseFrom(rest, fields, current, inQuotes)| > |fields|
    decreases |rest|
  {
    if rest == [] {
    } else if rest[0] == '"' {
      if inQuotes && |rest| > 1 && rest[1] == '"' {
        ParseFromGrows(rest[2..], fields, current + "\"", inQuotes);
      } else {
        ParseFromGrows(rest[1..], fields, current, !inQuotes);
      }
    } else if rest[0] == ',' && !inQuotes {
      ParseFromGrows(rest[1..], fields + [current], "", inQuotes);
    } else {
      ParseFromGrows(rest[1..], fields, current + [rest[0]], inQuotes);
    }
  }

  /** Every line, the empty one included, parses to at least one field. */
  lemma ParseNeverEmpty(line: string)
    ensures |ParseLine(line)| >= 1
  {
    ParseFromGrows(line, [], "", false);
  }

  /** Inside quotes a doubled quote is one literal quote. */
  lemma DoubledQuote(rest: string, fields: seq<string>, current: string)
    ensures ParseFrom("\"\"" + rest, fields, current, true) == ParseFrom(rest, fields, current + "\"", true)
  {
    assert ("\"\"" + rest)[2..] == rest;
  }

  /** Inside quotes any other character, a comma included, is part of the field. */
  lemma QuotedChar(c: char, rest: string, fields: seq<string>, current: string)
    requires c != '"'
    ensures ParseFrom([c] + rest, fields, current, true) == ParseFrom(rest, fields, current + [c], true)
  {
    assert ([c] + rest)[1..] == rest;
  }

  /** A quote inside quotes that is not followed by another ends the quoted part. */
  lemma ClosingQuote(rest: string, fields: seq<string>, current: string)
    requires rest == [] || rest[0] != '"'
    ensures ParseFrom("\"" + rest, fields, current, true) == ParseFrom(rest, fields, current, false)
  {
    assert ("\"" + rest)[1..] == rest;
  }

  /** Extending the last part extends the joined string. */
  lemma JoinExtendLast(ps: seq<string>, a: string, s: string, sep: string)
    ensures Join(ps + [a + s], sep) == Join(ps + [a], sep) + s
  {
    if ps != [] {
      assert (ps + [a + s])[..|ps|] == ps;
      assert (ps + [a])[..|ps|] == ps;
    }
  }

  /** Joining a part onto the end. */
  lemma JoinSnoc(ps: seq<string>, a: string, sep: string)
    requires ps != []
    ensures Join(ps + [a], sep) == Join(ps, sep) + sep + a
  {
    assert (ps + [a])[..|ps|] == ps;
  }

  /** Joining from the front. */
  lemma {:induction false} JoinCons(p: string, ps: seq<string>, sep: string)
    requires ps != []
    ensures Join([p] + ps, sep) == p + sep + Join(ps, sep)
    decreases |ps|
  {
    if |ps| == 1 {
      assert [p] + ps == [p] + [ps[0]];
      JoinSnoc([p], ps[0], sep);
    } else {
      var init := ps[..|ps| - 1];
      var last := ps[|ps| - 1];
      assert ps == init + [last];
      assert [p] + ps == ([p] + init) + [last];
      JoinSnoc([p] + init, last, sep);
      JoinCons(p, init, sep);
      JoinSnoc(init, last, sep);
    }
  }

  /** Outside quotes, the first character of a quote-free `rest` either ends the field or joins it. */
  lemma PlainStep(rest: string, fields: seq<string>, current: string)
    requires rest != [] && '"' !in rest
    ensures '"' !in rest[1..]
    ensures ParseFrom(rest, fields, current, false)
            == if rest[0] == ',' then ParseFrom(rest[1..], fields + [current], "", false)
               else ParseFrom(rest[1..], fields, current + [rest[0]], false)
  {
    assert rest[0] in rest;
    assert forall i :: 0 <= i < |rest[1..]| ==> rest[1..][i] == rest[i + 1];
  }

  /** Reading a quote-free `rest` outside quotes adds one field per comma. */
  lemma {:induction false} PlainFromCount(rest: string, fields: seq<string>, current: string)
    requires '"' !in rest
    ensures |ParseFrom(rest, fields, current, false)| == |fields| + 1 + CountOf(rest, ',')
    decreases |rest|
  {
    if rest != [] {
      PlainStep(rest, fields, current);
      if rest[0] == ',' {
        PlainFromCount(rest[1..], fields + [current], "");
      } else {
        PlainFromCount(rest[1..], fields, current + [rest[0]]);
      }
    }
  }

  /** Reading a quote-free `rest` outside quotes, the fields rejoin to what was read. */
  lemma {:induction false} PlainFromJoin(rest: string, fields: seq<string>, current: string)
    requires '"' !in rest
    ensures Join(ParseFrom(rest, fields, current, false), ",") == Join(fields + [current], ",") + rest
    decreases |rest|
  {
    if rest != [] {
      PlainStep(rest, fields, current);
      if rest[0] == ',' {
        PlainFromJoin(rest[1..], fields + [current], "");
        JoinSnoc(fields + [current], "", ",");
        assert rest == "," + rest[1..];
      } else {
        PlainFromJoin(rest[1..], fields, current + [rest[0]]);
        JoinExtendLast(fields, current, [rest[0]], ",");
        assert rest == [rest[0]] + rest[1..];
      }
    }
  }

  /** Reading a quote-free `rest` outside quotes, no field holds a comma. */
  lemma {:induction false} PlainFromNoComma(rest: string, fields: seq<string>, current: string)
    requires '"' !in rest && ',' !in current
    requires forall i :: 0 <= i < |fields| ==> ',' !in fields[i]
    ensures forall i :: 0 <= i < |ParseFrom(rest, fields, current, false)| ==> ',' !in ParseFrom(rest, fields, current, false)[i]
    decreases |rest|
  {
    if rest != [] {
      PlainStep(rest, fields, current);
      if rest[0] == ',' {
        var fc := fields + [current];
        assert forall i :: 0 <= i < |fc| ==> ',' !in fc[i];
        PlainFromNoComma(rest[1..], fc, "");
      } else {
        PlainFromNoComma(rest[1..], fields, current + [rest[0]]);
      }
    }
  }

  /** A line without quotes splits at each of its commas: one more field than commas, none holding a comma, and rejoining gives the line back. */
  lemma PlainLine(line: string)
    requires '"' !in line
    ensures |ParseLine(line)| == CountOf(line, ',') + 1
    ensures Join(ParseLine(line), ",") == line
    ensures forall i :: 0 <= i < |ParseLine(line)| ==> ',' !in ParseLine(line)[i]
  {
    PlainFromCount(line, [], "");
    PlainFromJoin(line, [], "");
    PlainFromNoComma(line, [], "");
  }

  /** A field body with its quotes doubled, then the closing quote, reads back as the field. */
  lemma {:induction false} QuotedBody(f: string, rest: string, fields: seq<string>, current: string)
    requires rest == [] || rest[0] != '"'
    ensures ParseFrom(DoubleQuotes(f) + "\"" + rest, fields, current, true) == ParseFrom(rest, fields, current + f, false)
    decreases |f|
  {
    if f == [] {
      assert DoubleQuotes(f) + "\"" + rest == "\"" + rest;
      ClosingQuote(rest, fields, current);
      assert current + f == current;
    } else {
      QuotedBody(f[1..], rest, fields, current + [f[0]]);
      QuotedBodyStep(f, rest, fields, current);
    }
  }

  /** One character of the field read inside quotes, the rest by the induction hypothesis. */
  lemma {:induction false} QuotedBodyStep(f: string, rest: string, fields: seq<string>, current: string)
    requires f != [] && (rest == [] || rest[0] != '"')
    requires ParseFrom(DoubleQuotes(f[1..]) + "\"" + rest, fields, current + [f[0]], true)
             == ParseFrom(rest, fields, current + [f[0]] + f[1..], false)
    ensures ParseFrom(DoubleQuotes(f) + "\"" + rest, fields, current, true) == ParseFrom(rest, fields, current + f, false)
  {
    var body := DoubleQuotes(f[1..]) + "\"" + rest;
    QuotedHead(f, rest);
    if f[0] == '"' {
      DoubledQuote(body, fields, current);
    } else {
      QuotedChar(f[0], body, fields, current);
    }
    HeadThenTail(current, f);
  }

  /** The escaped field starts with its first character, doubled when it is a quote. */
  lemma QuotedHead(f: string, rest: string)
    requires f != []
    ensures DoubleQuotes(f) + "\"" + rest
            == (if f[0] == '"' then "\"\"" else [f[0]]) + (DoubleQuotes(f[1..]) + "\"" + rest)
  {
  }

  lemma HeadThenTail(current: string, f: string)
    requires f != []
    ensures current + [f[0]] + f[1..] == current + f
  {
  }

  /** A field with neither commas nor quotes reads straight through. */
  lemma {:induction false} PlainBody(f: string, rest: string, fields: seq<string>, current: string)
    requires ',' !in f && '"' !in f
    ensures ParseFrom(f + rest, fields, current, false) == ParseFrom(rest, fields, current + f, false)
    decreases |f|
  {
    if f == [] {
      assert f + rest == rest;
      assert current + f == current;
    } else {
      var s := f + rest;
      assert f[0] in f;
      assert s[0] == f[0] && s[1..] == f[1..] + rest;
      assert ParseFrom(s, fields, current, false) == ParseFrom(s[1..], fields, current + [f[0]], false);
      assert ',' !in f[1..] && '"' !in f[1..] by { assert forall i :: 0 <= i < |f[1..]| ==> f[1..][i] == f[i + 1]; }
      PlainBody(f[1..], rest, fields, current + [f[0]]);
      assert current + [f[0]] + f[1..] == current + f;
    }
  }

  /** An opening quote at the start of a field switches to quoted reading. */
  lemma OpeningQuote(body: string, fields: seq<string>)
    ensures ParseFrom("\"" + body, fields, "", false) == ParseFrom(body, fields, "", true)
  {
    var s := "\"" + body;
    assert s[0] == '"' && s[1..] == body;
  }

  /** An escaped field followed by a comma or the end of the line reads back as that field. */
  lemma EscapedField(f: string, rest: string, fields: seq<string>)
    requires rest == [] || rest[0] == ','
    ensures ParseFrom(Escape(f) + rest, fields, "", false) == ParseFrom(rest, fields, f, false)
  {
    if NeedsQuotes(f) {
      QuotedField(f, rest, fields);
    } else {
      PlainBody(f, rest, fields, "");
      assert "" + f == f;
    }
  }

  /** A quoted field, opening quote included, reads back as the field. */
  lemma QuotedField(f: string, rest: string, fields: seq<string>)
    requires rest == [] || rest[0] == ','
    ensures ParseFrom("\"" + DoubleQuotes(f) + "\"" + rest, fields, "", false) == ParseFrom(rest, fields, f, false)
  {
    var body := DoubleQuotes(f) + "\"" + rest;
    assert "\"" + DoubleQuotes(f) + "\"" + rest == "\"" + body;
    OpeningQuote(body, fields);
    QuotedBody(f, rest, fields, "");
    assert "" + f == f;
  }

  /** An encoded non-empty field list reads back field by field. */
  lemma {:induction false} EncodeLineFrom(fs: seq<string>, fields: seq<string>)
    requires fs != []
    ensures ParseFrom(EncodeLine(fs), fields, "", false) == fields + fs
    decreases |fs|
  {
    if |fs| == 1 {
      OneFieldLine(fs[0], fields);
      assert fs == [fs[0]];
    } else {
      EncodeLineFrom(fs[1..], fields + [fs[0]]);
      EncodeLineCons(fs, fields);
    }
  }

  /** The step of `EncodeLineFrom`: the first field and its separator are read, then the rest of the line. */
  lemma {:induction false} EncodeLineCons(fs: seq<string>, fields: seq<string>)
    requires |fs| >= 2
    requires ParseFrom(EncodeLine(fs[1..]), fields + [fs[0]], "", false) == fields + [fs[0]] + fs[1..]
    ensures ParseFrom(EncodeLine(fs), fields, "", false) == fields + fs
  {
    var tail := EncodeLine(fs[1..]);
    assert EncodeLine(fs) == Escape(fs[0]) + ("," + tail) by {
      assert EscapeAll(fs) == [Escape(fs[0])] + EscapeAll(fs[1..]);
      JoinCons(Escape(fs[0]), EscapeAll(fs[1..]), ",");
    }
    calc {
      ParseFrom(EncodeLine(fs), fields, "", false);
      == { EscapedField(fs[0], "," + tail, fields); }
      ParseFrom("," + tail, fields, fs[0], false);
      == { CommaStep(tail, fields, fs[0]); }
      ParseFrom(tail, fields + [fs[0]], "", false);
      ==
      fields + [fs[0]] + fs[1..];
      == { assert [fs[0]] + fs[1..] == fs; }
      fields + fs;
    }
  }

  /** A separator outside quotes ends the current field. */
  lemma CommaStep(tail: string, fields: seq<string>, current: string)
    ensures ParseFrom("," + tail, fields, current, false) == ParseFrom(tail, fields + [current], "", false)
  {
    assert ("," + tail)[1..] == tail;
  }

  /** A one-field line reads back as that field. */
  lemma OneFieldLine(f: string, fields: seq<string>)
    ensures ParseFrom(EncodeLine([f]), fields, "", false) == fields + [f]
  {
    assert EscapeAll([f]) == [Escape(f)];
    assert EncodeLine([f]) == Escape(f) + [];
    EscapedField(f, [], fields);
  }

  /** The line round trip: parsing the encoding of a non-empty field list gives the list back. */
  lemma LineRoundTrip(fs: seq<string>)
    requires fs != []
    ensures ParseLine(EncodeLine(fs)) == fs
  {
    EncodeLineFrom(fs, []);
  }

  /** The empty field list is the one that does not come back: its line is empty, which parses to one empty field. */
  lemma EmptyListComesBackAsOneField()
    ensures EncodeLine([]) == ""
    ensures ParseLine(EncodeLine([])) == [""]
  {
  }

  /** The characters Swift's `isNewline` accepts. */
  predicate IsNewline(c: char) {
    c == '\n' || c == '\r' || c == '\U{0B}' || c == '\U{0C}' || c == '\U{85}' || c == '\U{2028}' || c == '\U{2029}'
  }

  predicate NoNewline(s: string) {
    forall i :: 0 <= i < |s| ==> !IsNewline(s[i])
  }

  /** The pieces `split(whereSeparator: \.isNewline)` yields from `rest`, the current piece being `current`; empty pieces are dropped. */
  function LinesFrom(rest: string, current: string): seq<string>
    decreases |rest|
  {
    if rest == [] then (if current == [] then [] else [current])
    else if IsNewline(rest[0]) then (if current == [] then [] else [current]) + LinesFrom(rest[1..], "")
    else LinesFrom(rest[1..], current + [rest[0]])
  }

  /** The lines `importCSV` reads from the file's content. */
  function Lines(content: string): seq<string> {
    LinesFrom(content, "")
  }

  /** Every piece is non-empty and free of line breaks. */
  lemma {:induction false} LinesFromShape(rest: string, current: string)
    requires NoNewline(current)
    ensures forall i :: 0 <= i < |LinesFrom(rest, current)| ==>
              LinesFrom(rest, current)[i] != [] && NoNewline(LinesFrom(rest, current)[i])
    decreases |rest|
  {
    if rest == [] {
    } else if IsNewline(rest[0]) {
      LinesFromShape(rest[1..], "");
    } else {
      LinesFromShape(rest[1..], current + [rest[0]]);
    }
  }

  /** No line of the file is empty, and none holds a line break. */
  lemma LinesShape(content: string)
    ensures forall i :: 0 <= i < |Lines(content)| ==> Lines(content)[i] != [] && NoNewline(Lines(content)[i])
  {
    LinesFromShape(content, "");
  }

  /** A stretch without line breaks joins the current piece. */
  lemma {:induction false} NoBreakBody(r: string, rest: string, current: string)
    requires NoNewline(r)
    ensures LinesFrom(r + rest, current) == LinesFrom(rest, current + r)
    decreases |r|
  {
    if r == [] {
      assert r + rest == rest;
      assert current + r == current;
    } else {
      var s := r + rest;
      assert s[0] == r[0] && s[1..] == r[1..] + rest;
      assert !IsNewline(r[0]);
      assert LinesFrom(s, current) == LinesFrom(s[1..], current + [r[0]]);
      assert NoNewline(r[1..]) by { assert forall i :: 0 <= i < |r[1..]| ==> r[1..][i] == r[i + 1]; }
      NoBreakBody(r[1..], rest, current + [r[0]]);
      assert current + [r[0]] + r[1..] == current + r;
    }
  }

  /** Splitting undoes joining with line feeds, for non-empty rows without line breaks. */
  lemma {:induction false} LinesOfJoin(rows: seq<string>)
    requires forall i :: 0 <= i < |rows| ==> rows[i] != [] && NoNewline(rows[i])
    ensures Lines(Join(rows, "\n")) == rows
    decreases |rows|
  {
    if |rows| == 1 {
      NoBreakBody(rows[0], [], "");
      assert rows[0] + [] == rows[0];
      assert "" + rows[0] == rows[0];
    } else if |rows| > 1 {
      var tail := Join(rows[1..], "\n");
      assert rows == [rows[0]] + rows[1..];
      JoinCons(rows[0], rows[1..], "\n");
      assert Join(rows, "\n") == rows[0] + ("\n" + tail);
      NoBreakBody(rows[0], "\n" + tail, "");
      assert "" + rows[0] == rows[0];
      assert ("\n" + tail)[1..] == tail;
      LinesOfJoin(rows[1..]);
    }
  }
}
