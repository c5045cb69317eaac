/**
 * CSV export and import of assets. The JSON encoding of the values map,
 * ISO-8601 date formatting and parsing, and the display strings of the
 * category (icon and colour) are foreign and enter as parameters.
 */
module CsvService {
  import opened Wrappers
  import opened AssetCategories
  import opened FieldValues
  import opened CategoryDefinitions
  import opened Assets
  import opened CsvCodec
  import opened Sequences

  /** `headers`. */
  const Headers: seq<string> := ["id", "category", "name", "icon", "color", "values", "createdAt", "updatedAt"]

  /** What the export calls: `jsonString(from:)`, `isoString`, the category's `symbolName` and `color.description`. */
  datatype Encoders = Encoders(
    valuesJson: map<string, FieldValue> -> string,
    isoString: Date -> string,
    symbolName: AssetCategory -> string,
    color: AssetCategory -> string)

  /** What the import calls: `parseValues` and `parseDate`. */
  datatype Decoders = Decoders(
    parseValues: string -> map<string, FieldValue>,
    parseDate: string -> Option<Date>)

  /** The eight fields written for one asset, in header order. */
  function ExportFields(a: Asset, enc: Encoders): (r: seq<string>)
    ensures |r| == |Headers|
  {
    [a.id, RawValue(a.category), a.name, enc.symbolName(a.category), enc.color(a.category),
     enc.valuesJson(a.values), enc.isoString(a.createdAt), enc.isoString(a.updatedAt)]
  }

  /** The header line. */
  function HeaderLine(): string {
    Join(Headers, ",")
  }

  /** The lines of the export: the header, then one line per asset. */
  function ExportRows(assets: seq<Asset>, enc: Encoders): (r: seq<string>)
    ensures |r| == |assets| + 1
  {
    [HeaderLine()] + seq(|assets|, i requires 0 <= i < |assets| => EncodeLine(ExportFields(assets[i], enc)))
  }

  /** What `exportCSV` returns. */
  function ExportOf(assets: seq<Asset>, enc: Encoders): string {
    Join(ExportRows(assets, enc), "\n")
  }

  /** `exportCSV`. */
  method ExportCsv(assets: seq<Asset>, enc: Encoders) returns (csv: string)
    ensures csv == ExportOf(assets, enc)
  {
    var rows := [Join(Headers, ",")];
    var i := 0;
    while i < |assets|
      invariant 0 <= i <= |assets|
      invariant rows == ExportRows(assets[..i], enc)
    {
      var asset := assets[i];
      var fields := [asset.id, RawValue(asset.category), asset.name, enc.symbolName(asset.category),
                     enc.color(asset.category), enc.valuesJson(asset.values),
                     enc.isoString(asset.createdAt), enc.isoString(asset.updatedAt)];
      rows := rows + [EncodeLine(fields)];
      i := i + 1;
      assert ExportRows(assets[..i], enc) == ExportRows(assets[..i - 1], enc) + [EncodeLine(ExportFields(assets[i - 1], enc))];
    }
    assert assets[..i] == assets;
    csv := Join(rows, "\n");
  }

  /** The asset a parsed line becomes, if it is long enough and names a known category; `freshId` stands for `UUID()`. */
  function RowAsset(fields: seq<string>, freshId: string, now: Date, dec: Decoders): Option<Asset> {
    if |fields| < |Headers| then None
    else
      match FromRawValue(fields[1])
      case None => None
      case Some(c) =>
        Some(Asset(
          if fields[0] == "" then freshId else fields[0],
          c,
          if fields[2] == "" then Definition(c).name else fields[2],
          dec.parseValues(fields[5]),
          dec.parseDate(fields[6]).GetOr(now),
          dec.parseDate(fields[7]).GetOr(now)))
  }

  /** How `importCSV` reads data line `i`; the fresh id of that line is `newId(i)`. */
  function RowReader(newId: nat -> string, now: Date, dec: Decoders): (string, nat) -> Option<Asset> {
    (line: string, i: nat) => RowAsset(ParseLine(line), newId(i), now, dec)
  }

  /** The assets the data lines `rows` yield, in order. */
  function ImportedRows(rows: seq<string>, newId: nat -> string, now: Date, dec: Decoders): seq<Asset> {
    KeptBy(rows, RowReader(newId, now, dec))
  }

  /** What `importCSV` returns for `content`. */
  function ImportOf(content: string, newId: nat -> string, now: Date, dec: Decoders): seq<Asset> {
    var lines := Lines(content);
    if lines == [] || ParseLine(lines[0]) != Headers then []
    else ImportedRows(lines[1..], newId, now, dec)
  }

  /** `importCSV`, with `Date()` as `now` and the row's `UUID()` as `newId` of its index. */
  method ImportCsv(content: string, newId: nat -> string, now: Date, dec: Decoders) returns (assets: seq<Asset>)
    ensures assets == ImportOf(content, newId, now, dec)
  {
    var lines := Lines(content);
    if |lines| == 0 {
      return [];
    }
    var headerFields := ParseCsvLine(lines[0]);
    if headerFields != Headers {
      return [];
    }
    assets := [];
    var rows := lines[1..];
    var i := 0;
    while i < |rows|
      invariant 0 <= i <= |rows|
      invariant assets == ImportedRows(rows[..i], newId, now, dec)
    {
      assert rows[..i + 1][..i] == rows[..i];
      var row := ReadRow(rows[i], newId(i), now, dec);
      assert RowReader(newId, now, dec)(rows[i], i) == row;
      if row.Some? {
        assets := assets + [row.value];
      }
      i := i + 1;
    }
    assert rows[..i] == rows;
  }

  /** The body of the `importCSV` loop for one data line: the asset it appends, or `None` where it continues. */
  method ReadRow(line: string, freshId: string, now: Date, dec: Decoders) returns (asset: Option<Asset>)
    ensures asset == RowAsset(ParseLine(line), freshId, now, dec)
  {
    var fields := ParseCsvLine(line);
    if |fields| < |Headers| {
      return None;
    }
    var id := fields[0];
    var categoryRaw := fields[1];
    var name := fields[2];
    var valuesString := fields[5];
    var createdAt := dec.parseDate(fields[6]).GetOr(now);
    var updatedAt := dec.parseDate(fields[7]).GetOr(now);
    var category := FromRawValue(categoryRaw);
    if category.None? {
      return None;
    }
    var values := dec.parseValues(valuesString);
    asset := Some(Asset(
      if id == "" then freshId else id,
      category.value,
      if name == "" then Definition(category.value).name else name,
      values,
      createdAt,
      updatedAt));
  }

  /** An empty file, or one whose first line is not exactly the eight headers, imports nothing. */
  lemma ImportRejects(content: string, newId: nat -> string, now: Date, dec: Decoders)
    requires Lines(content) == [] || ParseLine(Lines(content)[0]) != Headers
    ensures ImportOf(content, newId, now, dec) == []
  {
  }

  /** A line is kept exactly when it has at least eight fields and its second one is the raw value of a category. */
  lemma RowAccepted(fields: seq<string>, freshId: string, now: Date, dec: Decoders)
    ensures RowAsset(fields, freshId, now, dec).Some? <==> |fields| >= 8 && exists c :: RawValue(c) == fields[1]
  {
    if |fields| >= 8 {
      FromRawValueComplete(fields[1]);
    }
  }

  /** A kept line's asset: its category is the one named, an empty id becomes the fresh id and an empty name the category's name. */
  lemma RowAssetFields(fields: seq<string>, freshId: string, now: Date, dec: Decoders)
    requires RowAsset(fields, freshId, now, dec).Some?
    ensures var a := RowAsset(fields, freshId, now, dec).value;
      && RawValue(a.category) == fields[1]
      && a.id == (if fields[0] == "" then freshId else fields[0])
      && a.name == (if fields[2] == "" then Definition(a.category).name else fields[2])
      && a.values == dec.parseValues(fields[5])
  {
  }

  /** At most one asset per data line, kept in file order; when every line is kept, the i-th asset is that of the i-th line. */
  lemma ImportedRowsMeaning(rows: seq<string>, newId: nat -> string, now: Date, dec: Decoders)
    ensures |ImportedRows(rows, newId, now, dec)| <= |rows|
    ensures forall k :: 0 <= k <= |rows| ==> ImportedRows(rows[..k], newId, now, dec) <= ImportedRows(rows, newId, now, dec)
    ensures (forall i :: 0 <= i < |rows| ==> RowAsset(ParseLine(rows[i]), newId(i), now, dec).Some?) ==>
              |ImportedRows(rows, newId, now, dec)| == |rows|
              && forall i :: 0 <= i < |rows| ==> ImportedRows(rows, newId, now, dec)[i] == RowAsset(ParseLine(rows[i]), newId(i), now, dec).value
  {
    var read := RowReader(newId, now, dec);
    KeptByFromElements(rows, read);
    forall k | 0 <= k <= |rows| ensures ImportedRows(rows[..k], newId, now, dec) <= ImportedRows(rows, newId, now, dec) {
      KeptByPrefix(rows, k, read);
    }
    if forall i :: 0 <= i < |rows| ==> RowAsset(ParseLine(rows[i]), newId(i), now, dec).Some? {
      assert forall i :: 0 <= i < |rows| ==> read(rows[i], i) == RowAsset(ParseLine(rows[i]), newId(i), now, dec);
      KeptByAll(rows, read);
    }
  }

  /** Doubling quotes adds no line break. */
  lemma {:induction false} DoubleQuotesNoNewline(v: string)
    requires NoNewline(v)
    ensures NoNewline(DoubleQuotes(v))
    decreases |v|
  {
    if v != [] {
      assert NoNewline(v[1..]) by { assert forall i :: 0 <= i < |v[1..]| ==> v[1..][i] == v[i + 1]; }
      DoubleQuotesNoNewline(v[1..]);
      assert !IsNewline(v[0]);
      NoNewlineConcat(if v[0] == '"' then "\"\"" else [v[0]], DoubleQuotes(v[1..]));
    }
  }

  lemma NoNewlineConcat(a: string, b: string)
    requires NoNewline(a) && NoNewline(b)
    ensures NoNewline(a + b)
  {
    assert forall i :: 0 <= i < |a + b| ==> (a + b)[i] == if i < |a| then a[i] else b[i - |a|];
  }

  /** Escaping adds no line break. */
  lemma EscapeNoNewline(v: string)
    requires NoNewline(v)
    ensures NoNewline(Escape(v))
  {
    DoubleQuotesNoNewline(v);
    if NeedsQuotes(v) {
      NoNewlineConcat("\"", DoubleQuotes(v));
      NoNewlineConcat("\"" + DoubleQuotes(v), "\"");
    }
  }

  /** Joining parts without line breaks, by a separator without one, gives none. */
  lemma {:induction false} JoinNoNewline(parts: seq<string>, sep: string)
    requires NoNewline(sep)
    requires forall i :: 0 <= i < |parts| ==> NoNewline(parts[i])
    ensures NoNewline(Join(parts, sep))
    decreases |parts|
  {
    if |parts| > 1 {
      var init := parts[..|parts| - 1];
      assert forall i :: 0 <= i < |init| ==> init[i] == parts[i];
      JoinNoNewline(init, sep);
      NoNewlineConcat(Join(init, sep), sep);
      NoNewlineConcat(Join(init, sep) + sep, parts[|parts| - 1]);
    }
  }

  /** Escaping keeps the list's length and each field's freedom from line breaks. */
  lemma {:induction false} EscapeAllShape(fs: seq<string>)
    ensures |EscapeAll(fs)| == |fs|
    ensures (forall i :: 0 <= i < |fs| ==> NoNewline(fs[i])) ==> forall i :: 0 <= i < |fs| ==> NoNewline(EscapeAll(fs)[i])
    decreases |fs|
  {
    if fs != [] {
      EscapeAllShape(fs[1..]);
      if forall i :: 0 <= i < |fs| ==> NoNewline(fs[i]) {
        EscapeNoNewline(fs[0]);
        assert forall i :: 1 <= i < |fs| ==> fs[1..][i - 1] == fs[i];
        assert forall i :: 1 <= i < |fs| ==> EscapeAll(fs)[i] == EscapeAll(fs[1..])[i - 1];
      }
    }
  }

  /** A line of two or more fields holds a comma, so it is not empty; without line breaks in the fields it has none either. */
  lemma EncodeLineShape(fs: seq<string>)
    requires |fs| >= 2
    ensures EncodeLine(fs) != []
    ensures (forall i :: 0 <= i < |fs| ==> NoNewline(fs[i])) ==> NoNewline(EncodeLine(fs))
  {
    EscapeAllShape(fs);
    var es := EscapeAll(fs);
    assert es == [es[0]] + es[1..];
    JoinCons(es[0], es[1..], ",");
    assert |EncodeLine(fs)| >= 1;
    if forall i :: 0 <= i < |fs| ==> NoNewline(fs[i]) {
      JoinNoNewline(es, ",");
    }
  }

  /** Values that need no quotes are written as they are. */
  lemma {:induction false} EscapeAllPlain(fs: seq<string>)
    requires forall i :: 0 <= i < |fs| ==> !NeedsQuotes(fs[i])
    ensures EscapeAll(fs) == fs
    decreases |fs|
  {
    if fs != [] {
      assert forall i :: 0 <= i < |fs[1..]| ==> fs[1..][i] == fs[i + 1];
      EscapeAllPlain(fs[1..]);
      assert fs == [fs[0]] + fs[1..];
    }
  }

  /** The header line reads back as the headers. */
  lemma HeaderLineRoundTrip()
    ensures ParseLine(HeaderLine()) == Headers
  {
    forall i | 0 <= i < |Headers| ensures !NeedsQuotes(Headers[i]) {
    }
    EscapeAllPlain(Headers);
    LineRoundTrip(Headers);
  }

  /** The header line is a non-empty line without line breaks. */
  lemma HeaderLineShape()
    ensures HeaderLine() != [] && NoNewline(HeaderLine())
  {
    assert NoNewline("id") && NoNewline("category") && NoNewline("name") && NoNewline("icon");
    assert NoNewline("color") && NoNewline("values") && NoNewline("createdAt") && NoNewline("updatedAt");
    JoinNoNewline(Headers, ",");
  }

  /** No field the export writes for these assets holds a line break. */
  predicate ExportSafe(assets: seq<Asset>, enc: Encoders) {
    forall j, k :: 0 <= j < |assets| && 0 <= k < |Headers| ==> NoNewline(ExportFields(assets[j], enc)[k])
  }

  /** The export is the header line and then exactly one line per asset, in order, each reading back as that asset's fields. */
  lemma ExportLayout(assets: seq<Asset>, enc: Encoders)
    requires ExportSafe(assets, enc)
    ensures Lines(ExportOf(assets, enc)) == ExportRows(assets, enc)
    ensures ParseLine(ExportRows(assets, enc)[0]) == Headers
    ensures forall j :: 0 <= j < |assets| ==> ParseLine(ExportRows(assets, enc)[j + 1]) == ExportFields(assets[j], enc)
  {
    var rows := ExportRows(assets, enc);
    HeaderLineRoundTrip();
    HeaderLineShape();
    forall j | 0 <= j < |assets|
      ensures rows[j + 1] != [] && NoNewline(rows[j + 1])
      ensures ParseLine(rows[j + 1]) == ExportFields(assets[j], enc)
    {
      EncodeLineShape(ExportFields(assets[j], enc));
      LineRoundTrip(ExportFields(assets[j], enc));
    }
    assert forall i :: 1 <= i < |rows| ==> rows[i] != [] && NoNewline(rows[i]) by {
      forall i | 1 <= i < |rows| ensures rows[i] != [] && NoNewline(rows[i]) {
        assert rows[(i - 1) + 1] != [];
      }
    }
    LinesOfJoin(rows);
  }

  /**
   * What importing brings back of an exported asset: the same category, the
   * same id and name unless empty, and the values and dates the foreign
   * decoders read from what the encoders wrote.
   */
  function Reimported(a: Asset, freshId: string, now: Date, enc: Encoders, dec: Decoders): Asset {
    Asset(
      if a.id == "" then freshId else a.id,
      a.category,
      if a.name == "" then Definition(a.category).name else a.name,
      dec.parseValues(enc.valuesJson(a.values)),
      dec.parseDate(enc.isoString(a.createdAt)).GetOr(now),
      dec.parseDate(enc.isoString(a.updatedAt)).GetOr(now))
  }

  /** A line the export writes for an asset is kept on import and gives back the reimported asset. */
  lemma ExportedRowReads(a: Asset, enc: Encoders, line: string, freshId: string, now: Date, dec: Decoders)
    requires ParseLine(line) == ExportFields(a, enc)
    ensures RowAsset(ParseLine(line), freshId, now, dec) == Some(Reimported(a, freshId, now, enc, dec))
  {
    FromRawValueOfRawValue(a.category);
  }

  /**
   * The file round trip: importing an export gives back one asset per
   * exported asset, in order, each the reimported form of the original.
   */
  lemma ExportImport(assets: seq<Asset>, enc: Encoders, newId: nat -> string, now: Date, dec: Decoders)
    requires ExportSafe(assets, enc)
    ensures |ImportOf(ExportOf(assets, enc), newId, now, dec)| == |assets|
    ensures forall j :: 0 <= j < |assets| ==>
              ImportOf(ExportOf(assets, enc), newId, now, dec)[j] == Reimported(assets[j], newId(j), now, enc, dec)
  {
    ExportLayout(assets, enc);
    var rows := ExportRows(assets, enc)[1..];
    forall i | 0 <= i < |rows|
      ensures RowAsset(ParseLine(rows[i]), newId(i), now, dec) == Some(Reimported(assets[i], newId(i), now, enc, dec))
    {
      assert rows[i] == ExportRows(assets, enc)[i + 1];
      ExportedRowReads(assets[i], enc, rows[i], newId(i), now, dec);
    }
    ImportedRowsMeaning(rows, newId, now, dec);
  }
}
