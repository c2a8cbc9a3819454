/** The CSV text `downloadCSV` builds: a header line of the first row's keys,
    then one line per row with every cell in double quotes and every quote
    inside a cell doubled (rules 5 to 7 of section 2 of RFC 4180). A parser
    for that text is the partner the encoder is proved against. The Blob
    and the download link are left out. */
module Csv {
  import opened Options
  import opened Text

  /** A cell value as the encoder sees it: a string is written as is,
      any other value as its `JSON.stringify` text, and `undefined` (a key
      the row lacks) has no text, so `.replace` on it throws. */
  datatype Cell = Str(s: string) | Json(text: string) | Undefined

  /** An object's entries in `Object.keys` order. */
  type Row = seq<(string, Cell)>

  function Keys(row: Row): (r: seq<string>)
    ensures |r| == |row| && forall k :: 0 <= k < |row| ==> r[k] == row[k].0
  {
    if |row| == 0 then [] else [row[0].0] + Keys(row[1..])
  }

  /** `row[key]`. */
  function Lookup(row: Row, key: string): (c: Cell)
    ensures c != Undefined ==> exists k :: 0 <= k < |row| && row[k] == (key, c)
    ensures (forall k :: 0 <= k < |row| ==> row[k].0 != key) ==> c == Undefined
  {
    if |row| == 0 then Undefined else if row[0].0 == key then row[0].1 else Lookup(row[1..], key)
  }

  /** `cellStr.replace(/"/g, '""')`: one character more per quote, and a
      cell without quotes is left as it is. */
  function Double(s: string): (r: string)
    ensures |r| == |s| + multiset(s)['"']
    ensures '"' !in s ==> r == s
  {
    if |s| == 0 then ""
    else
      assert s == [s[0]] + s[1..];
      (if s[0] == '"' then "\"\"" else [s[0]]) + Double(s[1..])
  }

  /** One quoted cell. */
  function Quote(s: string): string { "\"" + Double(s) + "\"" }

  function QuoteAll(cells: seq<string>): (r: seq<string>)
    ensures |r| == |cells| && forall k :: 0 <= k < |cells| ==> r[k] == Quote(cells[k])
  {
    if |cells| == 0 then [] else [Quote(cells[0])] + QuoteAll(cells[1..])
  }

  /** The texts of a row's cells under the headers, or `None` when one of
      them is `undefined`. */
  function RowTexts(row: Row, headers: seq<string>): (r: Option<seq<string>>)
    ensures r.Some? ==> |r.value| == |headers|
    ensures r.Some? ==> forall k :: 0 <= k < |headers| ==> Lookup(row, headers[k]) != Undefined
    ensures r.None? ==> exists k :: 0 <= k < |headers| && Lookup(row, headers[k]) == Undefined
  {
    if |headers| == 0 then Some([])
    else
      match Lookup(row, headers[0])
      case Undefined => None
      case Str(s) => (match RowTexts(row, headers[1..]) case None => None case Some(t) => Some([s] + t))
      case Json(j) => (match RowTexts(row, headers[1..]) case None => None case Some(t) => Some([j] + t))
  }

  function DataLine(texts: seq<string>): string { Join(QuoteAll(texts), ",") }

  /** All data lines, or `None` as soon as one row throws. */
  function DataLines(rows: seq<Row>, headers: seq<string>): (r: Option<seq<string>>)
    ensures r.Some? ==> |r.value| == |rows|
  {
    if |rows| == 0 then Some([])
    else
      match RowTexts(rows[0], headers)
      case None => None
      case Some(t) => (match DataLines(rows[1..], headers) case None => None case Some(ls) => Some([DataLine(t)] + ls))
  }

  datatype Outcome = NoOutput | Output(text: string) | Throws

  /** `downloadCSV`'s text: nothing for no rows; a `TypeError` when some row
      lacks a header key; otherwise the header line and the data lines
      joined by newlines. */
  function ToCsv(data: seq<Row>): (r: Outcome)
    ensures |data| == 0 <==> r == NoOutput
  {
    if |data| == 0 then NoOutput
    else
      var headers := Keys(data[0]);
      match DataLines(data, headers)
      case None => Throws
      case Some(lines) => Output(Join([Join(headers, ",")] + lines, "\n"))
  }

  /** Every row's texts, when none is `undefined`. */
  function AllTexts(rows: seq<Row>, headers: seq<string>): (r: Option<seq<seq<string>>>)
    ensures r.Some? ==> |r.value| == |rows| && forall k :: 0 <= k < |rows| ==> |r.value[k]| == |headers|
  {
    if |rows| == 0 then Some([])
    else
      match RowTexts(rows[0], headers)
      case None => None
      case Some(t) => (match AllTexts(rows[1..], headers) case None => None case Some(ts) => Some([t] + ts))
  }

  // ---------------------------------------------------------------------
  // Reading the text back

  /** The content of a quoted cell whose opening quote is already consumed:
      `""` stands for one quote and a lone `"` closes the cell. Returns the
      content and the text after the closing quote. */
  function ParseBody(s: string): (r: Option<(string, string)>)
    ensures r.Some? ==> |r.value.1| < |s|
  {
    if |s| == 0 then None
    else if s[0] == '"' then
      if |s| > 1 && s[1] == '"' then
        match ParseBody(s[2..]) case None => None case Some(p) => Some(("\"" + p.0, p.1))
      else Some(("", s[1..]))
    else
      match ParseBody(s[1..]) case None => None case Some(p) => Some(([s[0]] + p.0, p.1))
  }

  /** Un-doubling a doubled cell recovers the original text, whatever
      follows the closing quote (short of another quote). */
  lemma {:induction false} ParseBodyOfDouble(s: string, tail: string)
    requires |tail| == 0 || tail[0] != '"'
    ensures ParseBody(Double(s) + "\"" + tail) == Some((s, tail))
  {
    if |s| == 0 {
      assert Double(s) + "\"" + tail == "\"" + tail;
    } else {
      ParseBodyOfDouble(s[1..], tail);
      if s[0] == '"' {
        QuoteStep(s, tail);
      } else {
        PlainStep(s, tail);
      }
    }
  }

  lemma {:induction false} DoubleCons(s: string)
    requires |s| > 0
    ensures Double(s) == (if s[0] == '"' then "\"\"" else [s[0]]) + Double(s[1..])
  {
  }

  lemma {:induction false} QuoteStep(s: string, tail: string)
    requires |s| > 0 && s[0] == '"'
    requires ParseBody(Double(s[1..]) + "\"" + tail) == Some((s[1..], tail))
    ensures ParseBody(Double(s) + "\"" + tail) == Some((s, tail))
  {
    var d := Double(s[1..]);
    DoubleCons(s);
    Regroup("\"\"", d, tail);
    BodyQuote(d + "\"" + tail, (s[1..], tail));
    assert "\"" + s[1..] == s;
  }

  lemma {:induction false} PlainStep(s: string, tail: string)
    requires |s| > 0 && s[0] != '"'
    requires ParseBody(Double(s[1..]) + "\"" + tail) == Some((s[1..], tail))
    ensures ParseBody(Double(s) + "\"" + tail) == Some((s, tail))
  {
    var d := Double(s[1..]);
    DoubleCons(s);
    Regroup([s[0]], d, tail);
    BodyPlain(s[0], d + "\"" + tail, (s[1..], tail));
    assert [s[0]] + s[1..] == s;
  }

  lemma {:induction false} Regroup(h: string, d: string, tail: string)
    ensures h + d + "\"" + tail == h + (d + "\"" + tail)
  {
  }

  lemma {:induction false} BodyQuote(rest: string, p: (string, string))
    requires ParseBody(rest) == Some(p)
    ensures ParseBody("\"\"" + rest) == Some(("\"" + p.0, p.1))
  {
    assert ("\"\"" + rest)[2..] == rest;
  }

  /** Any other character is content as it stands. */
  lemma {:induction false} BodyPlain(c: char, rest: string, p: (string, string))
    requires c != '"' && ParseBody(rest) == Some(p)
    ensures ParseBody([c] + rest) == Some(([c] + p.0, p.1))
  {
    assert ([c] + rest)[1..] == rest;
  }

  /** A line of comma-separated quoted cells, up to (not including) the
      first character after a closing quote that is not a comma. */
  function ParseRecord(s: string): (r: Option<(seq<string>, string)>)
    ensures r.Some? ==> |r.value.1| < |s|
    decreases |s|
  {
    if |s| == 0 || s[0] != '"' then None
    else
      match ParseBody(s[1..])
      case None => None
      case Some(p) =>
        if |p.1| > 0 && p.1[0] == ',' then
          match ParseRecord(p.1[1..]) case None => None case Some(q) => Some(([p.0] + q.0, q.1))
        else Some(([p.0], p.1))
  }

  /** Reading a line of quoted cells back gives exactly those cells and
      stops at the newline (or the end) after it. */
  lemma {:induction false} ParseRecordOfLine(cells: seq<string>, tail: string)
    requires |cells| > 0
    requires |tail| == 0 || tail[0] == '\n'
    ensures ParseRecord(DataLine(cells) + tail) == Some((cells, tail))
  {
    if |cells| == 1 {
      LineOfOne(cells, tail);
      ParseBodyOfDouble(cells[0], tail);
      LastCell(DataLine(cells) + tail, cells[0], tail);
      assert cells == [cells[0]];
    } else {
      var rest := DataLine(cells[1..]) + tail;
      LineOfMany(cells, tail);
      ParseBodyOfDouble(cells[0], "," + rest);
      ParseRecordOfLine(cells[1..], tail);
      NextCell(DataLine(cells) + tail, cells[0], rest, cells[1..], tail);
      assert [cells[0]] + cells[1..] == cells;
    }
  }

  lemma {:induction false} LineOfOne(cells: seq<string>, tail: string)
    requires |cells| == 1
    ensures var line := DataLine(cells) + tail;
            |line| > 0 && line[0] == '"' && line[1..] == Double(cells[0]) + "\"" + tail
  {
    assert DataLine(cells) == Quote(cells[0]);
  }

  lemma {:induction false} LineOfMany(cells: seq<string>, tail: string)
    requires |cells| > 1
    ensures var line := DataLine(cells) + tail;
            |line| > 0 && line[0] == '"' && line[1..] == Double(cells[0]) + "\"" + ("," + (DataLine(cells[1..]) + tail))
  {
    var q := QuoteAll(cells);
    calc {
      DataLine(cells);
      Join(q, ",");
      q[0] + "," + Join(q[1..], ",");
      { assert q[1..] == QuoteAll(cells[1..]); }
      Quote(cells[0]) + "," + DataLine(cells[1..]);
    }
    QuotedThenRest(Double(cells[0]), DataLine(cells[1..]), tail);
  }

  lemma {:induction false} QuotedThenRest(d: string, rest: string, tail: string)
    ensures var line := "\"" + d + "\"" + "," + rest + tail;
            |line| > 0 && line[0] == '"' && line[1..] == d + "\"" + ("," + (rest + tail))
  {
    var line := "\"" + d + "\"" + "," + rest + tail;
    assert line == "\"" + (d + "\"" + ("," + (rest + tail)));
  }

  /** A cell closed by a newline or the end of the text ends the record. */
  lemma {:induction false} LastCell(s: string, cell: string, tail: string)
    requires |s| > 0 && s[0] == '"' && ParseBody(s[1..]) == Some((cell, tail))
    requires |tail| == 0 || tail[0] == '\n'
    ensures ParseRecord(s) == Some(([cell], tail))
  {
  }

  /** A cell closed by a comma is followed by the rest of the record. */
  lemma {:induction false} NextCell(s: string, cell: string, rest: string, cells: seq<string>, tail: string)
    requires |s| > 0 && s[0] == '"' && ParseBody(s[1..]) == Some((cell, "," + rest))
    requires ParseRecord(rest) == Some((cells, tail))
    ensures ParseRecord(s) == Some(([cell] + cells, tail))
  {
    assert ("," + rest)[1..] == rest;
  }

  /** Records separated by newlines, to the end of the text. */
  function ParseRecords(s: string): Option<seq<seq<string>>>
    decreases |s|
  {
    match ParseRecord(s)
    case None => None
    case Some(p) =>
      if |p.1| == 0 then Some([p.0])
      else if p.1[0] == '\n' then
        (match ParseRecords(p.1[1..]) case None => None case Some(rs) => Some([p.0] + rs))
      else None
  }

  /** `line.split(sep)`. */
  function Split(s: string, sep: char): (r: seq<string>)
    ensures |r| > 0
  {
    if |s| == 0 then [""]
    else
      var rest := Split(s[1..], sep);
      if s[0] == sep then [""] + rest else [[s[0]] + rest[0]] + rest[1..]
  }

  /** The text before the first newline, and what follows that newline. */
  function FirstLine(s: string): (r: (string, Option<string>))
  {
    if |s| == 0 then ("", None)
    else if s[0] == '\n' then ("", Some(s[1..]))
    else var p := FirstLine(s[1..]); ([s[0]] + p.0, p.1)
  }

  /** Reads a document back: the header names and every record's cells. */
  function ParseCsv(text: string): Option<(seq<string>, seq<seq<string>>)>
  {
    var (line, rest) := FirstLine(text);
    match rest
    case None => None
    case Some(body) =>
      (match ParseRecords(body) case None => None case Some(rs) => Some((Split(line, ','), rs)))
  }

  predicate PlainKey(k: string) { forall i :: 0 <= i < |k| ==> k[i] != ',' && k[i] != '\n' && k[i] != '"' }

  // ---------------------------------------------------------------------
  // Round trip

  lemma {:induction false} SplitOfJoin(keys: seq<string>)
    requires |keys| > 0 && forall k :: 0 <= k < |keys| ==> PlainKey(keys[k])
    ensures Split(Join(keys, ","), ',') == keys
  {
    if |keys| == 1 {
      SplitPlain(keys[0], "");
      assert keys[0] + "" == keys[0];
    } else {
      SplitOfJoin(keys[1..]);
      var rest := Join(keys[1..], ",");
      SplitPlain(keys[0], "," + rest);
      assert Join(keys, ",") == keys[0] + ("," + rest);
      assert ("," + rest)[1..] == rest;
      assert Split("," + rest, ',') == [""] + Split(rest, ',');
      assert keys[0] + "" == keys[0];
      assert [keys[0]] + keys[1..] == keys;
    }
  }

  /** A key without commas is read whole, up to the next comma. */
  lemma {:induction false} SplitPlain(k: string, rest: string)
    requires PlainKey(k)
    requires |rest| == 0 || rest[0] == ','
    ensures Split(k + rest, ',') == [k + Split(rest, ',')[0]] + Split(rest, ',')[1..]
  {
    if |k| > 0 {
      var t := Split(rest, ',');
      calc {
        Split(k + rest, ',');
        { assert k + rest == [k[0]] + (k[1..] + rest); }
        Split([k[0]] + (k[1..] + rest), ',');
        { SplitCons(k[0], k[1..] + rest, ','); }
        [[k[0]] + Split(k[1..] + rest, ',')[0]] + Split(k[1..] + rest, ',')[1..];
        { SplitPlain(k[1..], rest); }
        [[k[0]] + (k[1..] + t[0])] + t[1..];
        { assert [k[0]] + (k[1..] + t[0]) == k + t[0]; }
        [k + t[0]] + t[1..];
      }
    } else {
      var t := Split(rest, ',');
      assert k + rest == rest;
      assert k + t[0] == t[0];
      assert [t[0]] + t[1..] == t;
    }
  }

  lemma {:induction false} SplitCons(c: char, t: string, sep: char)
    requires c != sep
    ensures Split([c] + t, sep) == [[c] + Split(t, sep)[0]] + Split(t, sep)[1..]
  {
    assert ([c] + t)[1..] == t;
  }

  /** The text before the first newline is the header when the keys hold
      no newline. */
  lemma {:induction false} FirstLineOf(h: string, body: string)
    requires forall i :: 0 <= i < |h| ==> h[i] != '\n'
    ensures FirstLine(h + "\n" + body) == (h, Some(body))
  {
    if |h| > 0 {
      FirstLineOf(h[1..], body);
      assert (h + "\n" + body)[1..] == h[1..] + "\n" + body;
      assert [h[0]] + h[1..] == h;
    } else {
      assert h + "\n" + body == "\n" + body;
    }
  }

  lemma {:induction false} JoinPlain(keys: seq<string>)
    requires forall k :: 0 <= k < |keys| ==> PlainKey(keys[k])
    ensures forall i :: 0 <= i < |Join(keys, ",")| ==> Join(keys, ",")[i] != '\n'
  {
    if |keys| > 1 {
      JoinPlain(keys[1..]);
      var j := Join(keys, ",");
      var r := Join(keys[1..], ",");
      assert j == keys[0] + "," + r;
      forall i | 0 <= i < |j|
        ensures j[i] != '\n'
      {
        if i < |keys[0]| {
          assert j[i] == keys[0][i];
        } else if i > |keys[0]| {
          assert j[i] == r[i - |keys[0]| - 1];
        }
      }
    }
  }

  /** Data lines joined by newlines read back as their records. */
  lemma {:induction false} ParseRecordsOfLines(texts: seq<seq<string>>)
    requires |texts| > 0 && forall k :: 0 <= k < |texts| ==> |texts[k]| > 0
    ensures ParseRecords(Join(Lines(texts), "\n")) == Some(texts)
  {
    if |texts| == 1 {
      ParseRecordOfLine(texts[0], "");
      assert DataLine(texts[0]) + "" == DataLine(texts[0]);
      assert Join(Lines(texts), "\n") == DataLine(texts[0]);
      assert texts == [texts[0]];
    } else {
      var rest := Join(Lines(texts[1..]), "\n");
      calc {
        Join(Lines(texts), "\n");
        Lines(texts)[0] + "\n" + Join(Lines(texts)[1..], "\n");
        { assert Lines(texts)[1..] == Lines(texts[1..]); }
        DataLine(texts[0]) + ("\n" + rest);
      }
      ParseRecordOfLine(texts[0], "\n" + rest);
      ParseRecordsOfLines(texts[1..]);
      RecordsStep(DataLine(texts[0]) + ("\n" + rest), texts[0], rest, texts[1..]);
      assert [texts[0]] + texts[1..] == texts;
    }
  }

  /** A record ended by a newline is followed by the remaining records. */
  lemma {:induction false} RecordsStep(s: string, cells: seq<string>, rest: string, more: seq<seq<string>>)
    requires ParseRecord(s) == Some((cells, "\n" + rest))
    requires ParseRecords(rest) == Some(more)
    ensures ParseRecords(s) == Some([cells] + more)
  {
    assert ("\n" + rest)[1..] == rest;
  }

  function Lines(texts: seq<seq<string>>): (r: seq<string>)
    ensures |r| == |texts| && forall k :: 0 <= k < |texts| ==> r[k] == DataLine(texts[k])
  {
    if |texts| == 0 then [] else [DataLine(texts[0])] + Lines(texts[1..])
  }

  lemma {:induction false} DataLinesAreLines(rows: seq<Row>, headers: seq<string>)
    ensures DataLines(rows, headers).Some? <==> AllTexts(rows, headers).Some?
    ensures DataLines(rows, headers).Some? ==> DataLines(rows, headers).value == Lines(AllTexts(rows, headers).value)
  {
    if |rows| > 0 {
      DataLinesAreLines(rows[1..], headers);
    }
  }

  /** What `downloadCSV` writes reads back as the first row's keys and every
      row's cell texts, one record per row, provided the keys are plain
      (no comma, newline or quote) and there is at least one. A row lacking
      a key throws instead. */
  lemma {:induction false} CsvRoundTrip(data: seq<Row>)
    requires |data| > 0
    requires var hs := Keys(data[0]); |hs| > 0 && forall k :: 0 <= k < |hs| ==> PlainKey(hs[k])
    ensures var hs := Keys(data[0]);
            (ToCsv(data) == Throws <==> AllTexts(data, hs).None?)
            && (ToCsv(data).Output? ==> ParseCsv(ToCsv(data).text) == Some((hs, AllTexts(data, hs).value)))
  {
    var hs := Keys(data[0]);
    DataLinesAreLines(data, hs);
    if AllTexts(data, hs).Some? {
      var texts := AllTexts(data, hs).value;
      var h := Join(hs, ",");
      var body := Join(Lines(texts), "\n");
      assert Join([h] + Lines(texts), "\n") == h + "\n" + body by {
        assert ([h] + Lines(texts))[1..] == Lines(texts);
      }
      JoinPlain(hs);
      FirstLineOf(h, body);
      SplitOfJoin(hs);
      ParseRecordsOfLines(texts);
    }
  }
}
