/**
 * Reading and writing the CSV table (CSVFormat/CSVProcessing.cs), over text
 * rather than streams: the writer's `WriteLine` ends every line with '\n'.
 */
module CsvProcessing {
  import opened Wrappers
  import opened StringUtil
  import opened CultObjectProcessing
  import opened CsvReadProcessing

  /** The human-readable second header line, unquoted. */
  const RussianHeader: seq<string> :=
    ["Идентификатор в АИС Мосгорнаследия", "Номер ЕГРОКН", "Наименование объекта по документам",
     "Наименование ансамбля по документам", "Охранный статус", "Категория объекта",
     "Вид объекта недвижимости", "global_id"]

  function Quoted(fs: seq<string>): (r: seq<string>)
    ensures |r| == |fs| && forall i :: 0 <= i < |fs| ==> r[i] == Quote(fs[i])
  {
    seq(|fs|, i requires 0 <= i < |fs| => Quote(fs[i]))
  }

  /** One written line: every field quoted, joined by ';', with a trailing ';'. */
  function RowLine(fs: seq<string>): string
  {
    Join(Quoted(fs), ';') + ";"
  }

  function RecordLines(xs: seq<CultObject>): (r: seq<string>)
    ensures |r| == |xs| && forall i :: 0 <= i < |xs| ==> r[i] == RowLine(Fields(xs[i]))
  {
    seq(|xs|, i requires 0 <= i < |xs| => RowLine(Fields(xs[i])))
  }

  /** The lines `Write` emits, in order: two header lines, then one per record. */
  function WrittenLines(xs: seq<CultObject>): seq<string>
  {
    Table(RowLine(Header), RowLine(RussianHeader), xs)
  }

  /** Two heading lines, then one line per record. */
  function Table(first: string, second: string, xs: seq<CultObject>): seq<string>
  {
    [first, second] + RecordLines(xs)
  }

  /** The complete text `Write` produces. */
  function Document(xs: seq<CultObject>): string
  {
    Terminated(WrittenLines(xs), '\n')
  }

  /** The lines `Read` works on: the text trimmed of '\n' at both ends, split on '\n'. */
  function Lines(text: string): (r: seq<string>)
    ensures |r| >= 1
  {
    Split(Trim(text, '\n'), '\n')
  }

  /** The record one data line contributes: one if it has at least eight ';'-fields, else none. */
  function RowRecords(line: string): (r: seq<CultObject>)
    ensures |r| <= 1
  {
    var fields := Split(line, ';');
    if |fields| >= 8 then [MakeObject(fields)] else []
  }

  /** The records of a run of data lines, in line order. */
  function RecordsOf(ls: seq<string>): (r: seq<CultObject>)
    ensures |r| <= |ls|
  {
    if |ls| == 0 then [] else RecordsOf(ls[..|ls| - 1]) + RowRecords(ls[|ls| - 1])
  }

  /**
   * What `Read` returns for the given lines: nothing (null) when the first line
   * is not the header or there are fewer than three lines; otherwise the
   * records of lines 2 onward. Line 1 is never looked at.
   */
  function ParseLines(lines: seq<string>): Option<seq<CultObject>>
    requires |lines| >= 1
  {
    if !IsHeaderRow(Split(lines[0], ';')) || |lines| < 3 then None
    else Some(RecordsOf(lines[2..]))
  }

  method Read(text: string) returns (r: Option<seq<CultObject>>)
    ensures r == ParseLines(Lines(text))
  {
    var lines := Lines(text);
    var header := CheckData(Split(lines[0], ';'));
    if !header || |lines| < 3 {
      return None;
    }
    var objects := ReadRecords(lines);
    return Some(objects);
  }

  /** The loop of `Read`: every line after the two headers, in order. */
  method ReadRecords(lines: seq<string>) returns (objects: seq<CultObject>)
    requires |lines| >= 2
    ensures objects == RecordsOf(lines[2..])
  {
    objects := [];
    for i := 2 to |lines|
      invariant objects == RecordsOf(lines[2..i])
    {
      var fields := Split(lines[i], ';');
      RecordsOfNextLine(lines, i);
      if |fields| >= 8 {
        objects := objects + [MakeObject(fields)];
      }
    }
    assert lines[2..|lines|] == lines[2..];
  }

  /** One more line read adds that line's record, if any. */
  lemma {:induction false} RecordsOfNextLine(lines: seq<string>, i: int)
    requires 2 <= i < |lines|
    ensures RecordsOf(lines[2..i + 1]) == RecordsOf(lines[2..i]) + RowRecords(lines[i])
  {
    assert lines[2..i + 1][..i - 2] == lines[2..i];
    assert lines[2..i + 1][i - 2] == lines[i];
  }

  /** Writes the two header lines, then one line per object, each followed by '\n'. */
  method Write(objects: seq<CultObject>) returns (text: string)
    ensures text == Document(objects)
  {
    text := WriteTable(RowLine(Header), RowLine(RussianHeader), objects);
  }

  /** The writer's loop, for any pair of header lines. */
  method WriteTable(english: string, russian: string, objects: seq<CultObject>) returns (text: string)
    ensures text == Terminated([english, russian] + RecordLines(objects), '\n')
  {
    text := english + "\n";
    text := text + russian + "\n";
    TerminatedSnoc([english], russian, '\n');
    assert Terminated([english], '\n') == english + "\n" + Terminated([], '\n');
    assert [english, russian] + RecordLines(objects[..0]) == [english] + [russian];
    for i := 0 to |objects|
      invariant text == Terminated([english, russian] + RecordLines(objects[..i]), '\n')
    {
      var line := RowLine(Fields(objects[i]));
      assert [english, russian] + RecordLines(objects[..i]) + [line] == [english, russian] + RecordLines(objects[..i + 1]);
      TerminatedSnoc([english, russian] + RecordLines(objects[..i]), line, '\n');
      text := text + line + "\n";
    }
    assert objects[..|objects|] == objects;
  }

  // ---------------------------------------------------------------------
  // Properties of the reader
  // ---------------------------------------------------------------------

  /** When every line is long enough, each yields exactly one record, in line order. */
  lemma {:induction false} RecordsOfLongLines(ls: seq<string>)
    requires forall i :: 0 <= i < |ls| ==> |Split(ls[i], ';')| >= 8
    ensures |RecordsOf(ls)| == |ls|
    ensures forall i :: 0 <= i < |ls| ==> RecordsOf(ls)[i] == MakeObject(Split(ls[i], ';'))
    decreases |ls|
  {
    if |ls| > 0 {
      RecordsOfLongLines(ls[..|ls| - 1]);
    }
  }

  /** Lines with fewer than eight fields are skipped without trace. */
  lemma {:induction false} ShortLinesSkipped(ls: seq<string>, line: string, more: seq<string>)
    requires |Split(line, ';')| < 8
    ensures RecordsOf(ls + [line] + more) == RecordsOf(ls + more)
    decreases |more|
  {
    if |more| == 0 {
      assert ls + [line] + more == ls + [line];
      assert (ls + [line])[..|ls|] == ls;
      assert RowRecords(line) == [];
      assert ls + more == ls;
    } else {
      var m := more[..|more| - 1];
      var last := more[|m|];
      assert ls + [line] + more == (ls + [line] + m) + [last];
      assert ls + more == (ls + m) + [last];
      assert ((ls + [line] + m) + [last])[..|ls| + 1 + |m|] == ls + [line] + m;
      assert ((ls + m) + [last])[..|ls| + |m|] == ls + m;
      ShortLinesSkipped(ls, line, m);
    }
  }

  /** The second line never influences the result. */
  lemma {:induction false} SecondLineIgnored(lines: seq<string>, other: string)
    requires |lines| >= 2
    ensures ParseLines(lines[1 := other]) == ParseLines(lines)
  {
    assert lines[1 := other][2..] == lines[2..];
  }

  /** At most one record per data line. */
  lemma {:induction false} RecordCountBound(lines: seq<string>)
    requires |lines| >= 1 && ParseLines(lines).Some?
    ensures |ParseLines(lines).value| <= |lines| - 2
  {
  }

  // ---------------------------------------------------------------------
  // Properties of the writer and the round trip
  // ---------------------------------------------------------------------

  /** Record fields that survive the text format: no ';' and no line break. */
  predicate Writable(c: CultObject)
  {
    forall i :: 0 <= i < 8 ==> ';' !in Fields(c)[i] && '\n' !in Fields(c)[i]
  }

  lemma {:induction false} QuotedFree(fs: seq<string>, c: char)
    requires Free(fs, c) && c != '"'
    ensures Free(Quoted(fs), c)
  {
    forall i | 0 <= i < |fs|
      ensures c !in Quoted(fs)[i]
    {
      assert Quoted(fs)[i] == ['"'] + fs[i] + ['"'];
    }
  }

  /** Splitting a written line on ';' gives the quoted fields and one empty piece after the trailing ';'. */
  lemma {:induction false} SplitRowLine(fs: seq<string>)
    requires |fs| >= 1 && Free(fs, ';')
    ensures Split(RowLine(fs), ';') == Quoted(fs) + [""]
  {
    QuotedFree(fs, ';');
    SplitJoinThen(Quoted(fs), "", ';');
    assert RowLine(fs) == Join(Quoted(fs), ';') + [';'] + "";
  }

  /** A written line starts with a quote, ends with ';' and holds no line break. */
  lemma {:induction false} RowLineShape(fs: seq<string>)
    requires |fs| >= 1 && Free(fs, '\n')
    ensures |RowLine(fs)| >= 1 && RowLine(fs)[0] == '"' && RowLine(fs)[|RowLine(fs)| - 1] == ';'
    ensures '\n' !in RowLine(fs)
  {
    QuotedFree(fs, '\n');
    JoinFirst(Quoted(fs), ';');
    JoinFree(Quoted(fs), ';', '\n');
  }

  /** The first written line passes the reader's header check. */
  lemma {:induction false} HeaderLineAccepted()
    ensures IsHeaderRow(Split(RowLine(Header), ';'))
  {
    HeadersWritable();
    SplitRowLine(Header);
    forall i | 0 <= i < 8
      ensures ElementFormating(Split(RowLine(Header), ';')[i]) == Header[i]
    {
      UnquoteQuoted(Header[i]);
    }
  }

  lemma {:induction false} RussianHeaderFree(i: int)
    requires 0 <= i < 8
    ensures '\n' !in RussianHeader[i]
  {
    if i == 0 { assert '\n' !in RussianHeader[0]; }
    else if i == 1 { assert '\n' !in RussianHeader[1]; }
    else if i == 2 { assert '\n' !in RussianHeader[2]; }
    else if i == 3 { assert '\n' !in RussianHeader[3]; }
    else if i == 4 { assert '\n' !in RussianHeader[4]; }
    else if i == 5 { assert '\n' !in RussianHeader[5]; }
    else if i == 6 { assert '\n' !in RussianHeader[6]; }
  }

  lemma {:induction false} HeaderFree(i: int)
    requires 0 <= i < 8
    ensures '\n' !in Header[i] && ';' !in Header[i]
  {
  }

  /** Both header rows are eight names free of line breaks; the English one is also free of ';'. */
  lemma {:induction false} HeadersWritable()
    ensures |Header| == 8 && Free(Header, ';') && Free(Header, '\n')
    ensures |RussianHeader| == 8 && Free(RussianHeader, '\n')
  {
    forall i | 0 <= i < 8
      ensures '\n' !in RussianHeader[i] && '\n' !in Header[i] && ';' !in Header[i]
    {
      RussianHeaderFree(i);
      HeaderFree(i);
    }
  }

  /** A written line: opens with a quote, closes with ';', no line break inside. */
  ghost predicate LineShape(l: string)
  {
    |l| >= 1 && l[0] == '"' && l[|l| - 1] == ';' && '\n' !in l
  }

  lemma {:induction false} HeaderLinesShape()
    ensures LineShape(RowLine(Header)) && LineShape(RowLine(RussianHeader))
  {
    HeadersWritable();
    RowLineShape(Header);
    RowLineShape(RussianHeader);
  }

  lemma {:induction false} TableLineShape(first: string, second: string, xs: seq<CultObject>, i: int)
    requires LineShape(first) && LineShape(second)
    requires forall k :: 0 <= k < |xs| ==> Writable(xs[k])
    requires 0 <= i < |xs| + 2
    ensures LineShape(Table(first, second, xs)[i])
  {
    var ls := Table(first, second, xs);
    if i >= 2 {
      var c := xs[i - 2];
      assert Writable(c);
      assert ls[i] == RecordLines(xs)[i - 2] == RowLine(Fields(c));
      assert Free(Fields(c), '\n') by {
        forall k | 0 <= k < |Fields(c)|
          ensures '\n' !in Fields(c)[k]
        {
        }
      }
      RowLineShape(Fields(c));
    }
  }

  /** Every written line starts with a quote, ends with ';' and holds no line break. */
  lemma {:induction false} WrittenLinesShape(xs: seq<CultObject>, i: int)
    requires forall k :: 0 <= k < |xs| ==> Writable(xs[k])
    requires 0 <= i < |xs| + 2
    ensures LineShape(WrittenLines(xs)[i])
  {
    HeaderLinesShape();
    TableLineShape(RowLine(Header), RowLine(RussianHeader), xs, i);
  }

  /** Without line breaks in the fields, the reader sees exactly the lines the writer wrote. */
  lemma {:induction false} DocumentLines(xs: seq<CultObject>)
    requires forall k :: 0 <= k < |xs| ==> Writable(xs[k])
    ensures Lines(Document(xs)) == WrittenLines(xs)
    ensures |Lines(Document(xs))| == |xs| + 2
  {
    var ls := WrittenLines(xs);
    var n := |ls|;
    forall i | 0 <= i < n
      ensures '\n' !in ls[i]
    {
      WrittenLinesShape(xs, i);
    }
    WrittenLinesShape(xs, 0);
    WrittenLinesShape(xs, n - 1);
    TerminatedIsJoin(ls, '\n');
    JoinFirst(ls, '\n');
    JoinLast(ls, '\n');
    TrimOneTerminator(Join(ls, '\n'), '\n');
    SplitJoin(ls, '\n');
  }

  /** A written record line is read back as that one record. */
  lemma {:induction false} RowRecordsOfRecordLine(c: CultObject)
    requires Writable(c)
    ensures RowRecords(RowLine(Fields(c))) == [c]
  {
    assert Free(Fields(c), ';');
    SplitRowLine(Fields(c));
    MakeObjectOfQuoted(c, Split(RowLine(Fields(c)), ';'));
  }

  /** The reader turns the written record lines back into the records. */
  lemma {:induction false} RecordsOfRecordLines(xs: seq<CultObject>)
    requires forall k :: 0 <= k < |xs| ==> Writable(xs[k])
    ensures RecordsOf(RecordLines(xs)) == xs
    decreases |xs|
  {
    if |xs| > 0 {
      var n := |xs| - 1;
      var init, last := xs[..n], xs[n];
      assert init + [last] == xs;
      var ls := RecordLines(xs);
      assert ls[..n] == RecordLines(init);
      assert ls[n] == RowLine(Fields(last));
      assert forall k :: 0 <= k < |init| ==> Writable(init[k]);
      RecordsOfRecordLines(init);
      RowRecordsOfRecordLine(last);
      assert RecordsOf(ls) == RecordsOf(ls[..n]) + RowRecords(ls[n]);
      assert RecordsOf(ls) == init + [last];
    }
  }

  /** Writing a non-empty list of writable records and reading it back gives the same records. */
  lemma {:induction false} RoundTrip(xs: seq<CultObject>)
    requires |xs| >= 1
    requires forall k :: 0 <= k < |xs| ==> Writable(xs[k])
    ensures ParseLines(Lines(Document(xs))) == Some(xs)
  {
    DocumentLines(xs);
    HeaderLineAccepted();
    ParseTable(RowLine(Header), RowLine(RussianHeader), xs);
  }

  /** The reader accepts a table whose first line passes the header check and returns its records. */
  lemma {:induction false} ParseTable(first: string, second: string, xs: seq<CultObject>)
    requires IsHeaderRow(Split(first, ';'))
    requires |xs| >= 1
    requires forall k :: 0 <= k < |xs| ==> Writable(xs[k])
    ensures ParseLines(Table(first, second, xs)) == Some(xs)
  {
    var ls := Table(first, second, xs);
    assert ls[0] == first;
    assert ls[2..] == RecordLines(xs);
    RecordsOfRecordLines(xs);
  }

  /** An empty list is written as two header lines only, which the reader rejects. */
  lemma {:induction false} EmptyDocumentRejected()
    ensures ParseLines(Lines(Document([]))) == None
  {
    DocumentLines([]);
  }
}
