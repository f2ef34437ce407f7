/** The CSV export of the candidate snapshot: a fixed header line, then one line of
    seven double-quoted fields built straight from the parsed record, with no
    escaping of quotes, commas or line breaks inside the fields. */
module CsvExport {
  import opened Text
  import opened Wrappers

  /** The parsed snapshot record as far as the export reads it: the scalar fields,
      already rendered as text, keyed by their JSON names, and the skills list when
      the record has one. */
  datatype Snapshot = Snapshot(fields: map<string, string>, skills: Option<seq<string>>)

  /** The header line, without its line break. */
  const Header: string := "Name,Email,Phone,Current Role,Company,Experience,Skills"

  /** The record keys read for the first six columns, in column order. */
  const ScalarKeys: seq<string> :=
    ["name", "email", "phone", "current_role", "current_company", "experience_years"]

  /** The separator placed between skills in the last column. */
  const SkillSeparator: string := ", "

  /** `data.get(key, '')`. */
  function Lookup(data: Snapshot, key: string): string
  {
    if key in data.fields then data.fields[key] else ""
  }

  /** The seven field values, before quoting: the six scalars looked up by key (a
      missing key gives "") and the skills joined with ", " (missing skills give ""). */
  function ExportFields(data: Snapshot): (fs: seq<string>)
    ensures |fs| == |ScalarKeys| + 1
    ensures forall k :: 0 <= k < |ScalarKeys| ==>
              fs[k] == (if ScalarKeys[k] in data.fields then data.fields[ScalarKeys[k]] else "")
    ensures fs[|ScalarKeys|] == Join(data.skills.GetOr([]), SkillSeparator)
  {
    [Lookup(data, "name"), Lookup(data, "email"), Lookup(data, "phone"),
     Lookup(data, "current_role"), Lookup(data, "current_company"),
     Lookup(data, "experience_years"), Join(data.skills.GetOr([]), SkillSeparator)]
  }

  /** The fields each wrapped in double quotes and separated by commas. */
  function QuotedRow(fs: seq<string>): string
  {
    if |fs| == 0 then ""
    else if |fs| == 1 then "\"" + fs[0] + "\""
    else "\"" + fs[0] + "\"," + QuotedRow(fs[1..])
  }

  /** The whole downloaded text: header line, data line, each ending in a line break. */
  function CsvText(data: Snapshot): string
  {
    Header + "\n" + QuotedRow(ExportFields(data)) + "\n"
  }

  /** No double quote occurs in the text. */
  predicate QuoteFree(f: string)
  {
    forall k :: 0 <= k < |f| ==> f[k] != '"'
  }

  /** None of the seven exported values holds a double quote. */
  predicate ExportQuoteFree(data: Snapshot)
  {
    forall k :: 0 <= k < |ExportFields(data)| ==> QuoteFree(ExportFields(data)[k])
  }

  /** Every value of the record is free of double quotes. */
  predicate SnapshotQuoteFree(data: Snapshot)
  {
    (forall key :: key in data.fields ==> QuoteFree(data.fields[key])) &&
    (data.skills.Some? ==> forall k :: 0 <= k < |data.skills.value| ==> QuoteFree(data.skills.value[k]))
  }

  /** The first index at or after `i` holding `c`, if any. */
  function FindFrom(s: string, c: char, i: nat): (r: Option<nat>)
    requires i <= |s|
    ensures r.Some? ==> i <= r.value < |s| && s[r.value] == c
    decreases |s| - i
  {
    if i == |s| then None
    else if s[i] == c then Some(i)
    else FindFrom(s, c, i + 1)
  }

  /** A scan from `i` stops at `j` when `j` holds `c` and nothing before it does. */
  lemma {:induction false} FindFromStops(s: string, c: char, i: nat, j: nat)
    requires i <= j < |s| && s[j] == c
    requires forall k :: i <= k < j ==> s[k] != c
    ensures FindFrom(s, c, i) == Some(j)
    decreases j - i
  {
    if i < j {
      FindFromStops(s, c, i + 1, j);
    }
  }

  /** Reads a data line back, from index `i` on: a quoted field, then either the end
      of the line or a comma and further fields. A field ends at the next quote. */
  function ParseFieldsFrom(s: string, i: nat): Option<seq<string>>
    requires i <= |s|
    decreases |s| - i
  {
    if i == |s| || s[i] != '"' then None
    else
      match FindFrom(s, '"', i + 1)
      case None => None
      case Some(j) =>
        if j + 1 == |s| then Some([s[i + 1..j]])
        else if s[j + 1] != ',' then None
        else
          match ParseFieldsFrom(s, j + 2)
          case None => None
          case Some(more) => Some([s[i + 1..j]] + more)
  }

  /** Reads a whole exported text back: the header line, then one data line. */
  function ParseCsv(text: string): Option<seq<string>>
  {
    var start := |Header| + 1;
    if |text| > start && text[..start] == Header + "\n" && text[|text| - 1] == '\n'
    then ParseFieldsFrom(text[start..|text| - 1], 0)
    else None
  }

  /** Where the scan for the closing quote stops on a quote-free field. */
  lemma FindClosingQuote(s: string, i: nat, f: string)
    requires i + |f| < |s| && s[i..i + |f|] == f && s[i + |f|] == '"' && QuoteFree(f)
    ensures FindFrom(s, '"', i) == Some(i + |f|)
  {
    forall k | i <= k < i + |f| ensures s[k] != '"' {
      assert s[k] == f[k - i];
    }
    FindFromStops(s, '"', i, i + |f|);
  }

  /** The layout of a data line: the first field between quotes, then either the end
      or a comma and the line of the remaining fields. */
  lemma RowShape(fs: seq<string>, r: string)
    requires |fs| >= 1 && r == QuotedRow(fs)
    ensures |r| >= |fs[0]| + 2
    ensures r[0] == '"' && r[1..|fs[0]| + 1] == fs[0] && r[|fs[0]| + 1] == '"'
    ensures |fs| == 1 ==> |r| == |fs[0]| + 2
    ensures |fs| > 1 ==> |r| > |fs[0]| + 2 && r[|fs[0]| + 2] == ',' &&
                         r[|fs[0]| + 3..] == QuotedRow(fs[1..])
  {
    var f := fs[0];
    if |fs| == 1 {
      assert r == "\"" + f + "\"";
    } else {
      var q := QuotedRow(fs[1..]);
      assert r == "\"" + f + "\"," + q;
      assert r[|f| + 3..] == q;
    }
  }

  /** The same layout, read at offset `i` of a longer text. */
  lemma RowShapeAt(s: string, i: nat, fs: seq<string>)
    requires |fs| >= 1 && i <= |s| && s[i..] == QuotedRow(fs)
    ensures i + |fs[0]| + 2 <= |s|
    ensures s[i] == '"' && s[i + 1..i + 1 + |fs[0]|] == fs[0] && s[i + 1 + |fs[0]|] == '"'
    ensures |fs| == 1 ==> |s| == i + |fs[0]| + 2
    ensures |fs| > 1 ==> |s| > i + |fs[0]| + 2 && s[i + |fs[0]| + 2] == ',' &&
                         s[i + |fs[0]| + 3..] == QuotedRow(fs[1..])
  {
    var f := fs[0];
    var r := s[i..];
    RowShape(fs, r);
    assert s[i] == r[0];
    assert s[i + 1..i + 1 + |f|] == r[1..|f| + 1];
    assert s[i + 1 + |f|] == r[|f| + 1];
    if |fs| > 1 {
      assert s[i + |f| + 2] == r[|f| + 2];
      assert s[i + |f| + 3..] == r[|f| + 3..];
    }
  }

  /** One step of reading a line: a quoted field closed at `j` and followed by a comma
      adds that field in front of whatever the rest of the line reads as. */
  lemma ParseFieldThenMore(s: string, i: nat, j: nat, more: seq<string>)
    requires i < |s| && s[i] == '"' && FindFrom(s, '"', i + 1) == Some(j)
    requires j + 1 < |s| && s[j + 1] == ','
    requires ParseFieldsFrom(s, j + 2) == Some(more)
    ensures ParseFieldsFrom(s, i) == Some([s[i + 1..j]] + more)
  {
  }

  /** The last step of reading a line: a quoted field closed at the end of the line. */
  lemma ParseLastField(s: string, i: nat, j: nat)
    requires i < |s| && s[i] == '"' && FindFrom(s, '"', i + 1) == Some(j)
    requires j + 1 == |s|
    ensures ParseFieldsFrom(s, i) == Some([s[i + 1..j]])
  {
  }

  /** Reading the last field of a line: one quote-free field reads back as itself. */
  lemma ReadLastField(s: string, i: nat, fs: seq<string>)
    requires |fs| == 1 && QuoteFree(fs[0])
    requires i <= |s| && s[i..] == QuotedRow(fs)
    ensures ParseFieldsFrom(s, i) == Some(fs)
  {
    var f := fs[0];
    RowShapeAt(s, i, fs);
    FindClosingQuote(s, i + 1, f);
    ParseLastField(s, i, i + 1 + |f|);
    assert [f] == fs;
  }

  /** Reading a field that a comma follows: the quote-free first field, then whatever
      the rest of the line reads as. */
  lemma ReadFieldThenMore(s: string, i: nat, fs: seq<string>)
    requires |fs| > 1 && QuoteFree(fs[0])
    requires i <= |s| && s[i..] == QuotedRow(fs)
    requires i + |fs[0]| + 3 <= |s| && ParseFieldsFrom(s, i + |fs[0]| + 3) == Some(fs[1..])
    ensures ParseFieldsFrom(s, i) == Some(fs)
  {
    var f := fs[0];
    RowShapeAt(s, i, fs);
    FindClosingQuote(s, i + 1, f);
    ParseFieldThenMore(s, i, i + 1 + |f|, fs[1..]);
    assert [f] + fs[1..] == fs;
  }

  /** A data line of quote-free fields reads back as those fields, wherever it starts. */
  lemma {:induction false} QuotedRowReadsBack(s: string, i: nat, fs: seq<string>)
    requires |fs| >= 1
    requires forall k :: 0 <= k < |fs| ==> QuoteFree(fs[k])
    requires i <= |s| && s[i..] == QuotedRow(fs)
    ensures ParseFieldsFrom(s, i) == Some(fs)
    decreases |fs|
  {
    if |fs| == 1 {
      ReadLastField(s, i, fs);
    } else {
      var rest := fs[1..];
      forall k | 0 <= k < |rest| ensures QuoteFree(rest[k]) {
        assert rest[k] == fs[k + 1];
      }
      RowShapeAt(s, i, fs);
      QuotedRowReadsBack(s, i + |fs[0]| + 3, rest);
      ReadFieldThenMore(s, i, fs);
    }
  }

  /** Round trip of the whole export: when no exported value holds a double quote,
      the exported text reads back as the header and exactly the seven field values.
      Keys the export does not read may hold anything. */
  lemma CsvRoundTrip(data: Snapshot)
    requires ExportQuoteFree(data)
    ensures ParseCsv(CsvText(data)) == Some(ExportFields(data))
  {
    var fs := ExportFields(data);
    var row := QuotedRow(fs);
    var text := CsvText(data);
    var start := |Header| + 1;
    assert text == (Header + "\n") + row + "\n";
    assert text[..start] == Header + "\n";
    var line := text[start..|text| - 1];
    assert line == row;
    assert line[0..] == row;
    QuotedRowReadsBack(line, 0, fs);
  }

  /** A record with no double quote in any value, skills included, exports
      quote-free values, so its export reads back. */
  lemma QuoteFreeRecordExports(data: Snapshot)
    requires SnapshotQuoteFree(data)
    ensures ExportQuoteFree(data)
  {
    var fs := ExportFields(data);
    forall k | 0 <= k < |fs| ensures QuoteFree(fs[k]) {
      if k == |ScalarKeys| {
        JoinQuoteFree(data.skills.GetOr([]), SkillSeparator);
      }
    }
  }

  /** Joining quote-free items with a quote-free separator gives quote-free text. */
  lemma {:induction false} JoinQuoteFree(items: seq<string>, sep: string)
    requires QuoteFree(sep)
    requires forall k :: 0 <= k < |items| ==> QuoteFree(items[k])
    ensures QuoteFree(Join(items, sep))
  {
    if |items| > 1 {
      JoinQuoteFree(items[1..], sep);
      var rest := Join(items[1..], sep);
      var j := items[0] + sep + rest;
      forall k | 0 <= k < |j| ensures j[k] != '"' {
        if k < |items[0]| {
          assert j[k] == items[0][k];
        } else if k < |items[0]| + |sep| {
          assert j[k] == sep[k - |items[0]|];
        } else {
          assert j[k] == rest[k - |items[0]| - |sep|];
        }
      }
    }
  }

  /** No escaping: a value holding `","` is written exactly as two separate values
      would be, so the data line cannot tell them apart. */
  lemma EmbeddedSeparatorSplits(x: string, y: string, rest: seq<string>)
    ensures QuotedRow([x + "\",\"" + y] + rest) == QuotedRow([x, y] + rest)
  {
    var a := [x + "\",\"" + y] + rest;
    var b := [x, y] + rest;
    assert b[1..] == [y] + rest;
    if rest == [] {
      assert QuotedRow(b[1..]) == "\"" + y + "\"";
    } else {
      assert ([y] + rest)[1..] == rest;
      assert a[1..] == rest;
    }
  }

  /** A record with none of the keys exports seven empty quoted fields. */
  lemma EmptySnapshotExport()
    ensures CsvText(Snapshot(map[], None)) ==
            Header + "\n" + "\"\",\"\",\"\",\"\",\"\",\"\",\"\"" + "\n"
  {
    var fs := ExportFields(Snapshot(map[], None));
    assert fs == ["", "", "", "", "", "", ""];
  }

  /** The skills column lists the skills in order, separated by ", ". */
  lemma SkillsColumnExample(data: Snapshot)
    requires data.skills == Some(["Go", "Rust"])
    ensures ExportFields(data)[|ScalarKeys|] == "Go, Rust"
  {
    assert ["Go", "Rust"][1..] == ["Rust"];
  }
}
