/** The loader of NWPC observation text files: the header line, the
    pairing of lines into table rows, and the station blocks of RTEMP
    files.  Opening the file and pandas' parser are outside the model: the
    file arrives as its lines, and pandas' reading of a text is modelled
    by `Rows`, the whitespace-separated fields of each non-blank line. */
module ObsTable {
  import opened Wrappers
  import opened Text
  import opened Calendar
  import opened DataFinder

  // ------------------------------------------------------------ StringIO

  /** The text after writing `s` at `pos`: `s` replaces what was there and
      extends the text where it runs past the end. */
  function Overwrite(text: string, pos: nat, s: string): (r: string)
    requires pos <= |text|
    ensures |r| == if pos + |s| > |text| then pos + |s| else |text|
  {
    text[..pos] + s + (if pos + |s| < |text| then text[pos + |s|..] else "")
  }

  /** Each character comes from what was written where the write reached,
      and from the old text elsewhere. */
  lemma OverwriteAt(text: string, pos: nat, s: string, i: nat)
    requires pos <= |text| && i < |Overwrite(text, pos, s)|
    ensures Overwrite(text, pos, s)[i] == if pos <= i < pos + |s| then s[i - pos] else text[i]
  {
  }

  /** Writing at the end appends. */
  lemma WriteAtEnd(text: string, s: string)
    ensures Overwrite(text, |text|, s) == text + s
  {
  }

  /** Writing from the start leaves exactly what was written only when it
      covers the old text. */
  lemma OverwriteFromStart(text: string, s: string)
    ensures Overwrite(text, 0, s) == s <==> |s| >= |text|
  {
    if |s| >= |text| {
      assert text[..0] + s + "" == s;
    }
  }

  /** Two writes in a row are one write of both texts. */
  lemma WriteTwice(text: string, pos: nat, a: string, b: string)
    requires pos <= |text|
    ensures Overwrite(Overwrite(text, pos, a), pos + |a|, b) == Overwrite(text, pos, a + b)
  {
    var r1 := Overwrite(text, pos, a);
    var r2, r := Overwrite(r1, pos + |a|, b), Overwrite(text, pos, a + b);
    forall i | 0 <= i < |r|
      ensures r2[i] == r[i]
    {
      OverwriteAt(r1, pos + |a|, b, i);
      OverwriteAt(text, pos, a + b, i);
      if i < pos + |a| {
        OverwriteAt(text, pos, a, i);
      }
    }
  }

  /** `io.StringIO`: its text and its position, where writing overwrites. */
  class TextBuffer {
    var text: string
    var pos: nat

    ghost predicate Valid()
      reads this
    {
      pos <= |text|
    }

    constructor (initial: string)
      ensures Valid() && text == initial && pos == 0
    {
      text, pos := initial, 0;
    }

    method Write(s: string)
      requires Valid()
      modifies this
      ensures Valid() && text == Overwrite(old(text), old(pos), s) && pos == old(pos) + |s|
    {
      text := Overwrite(text, pos, s);
      pos := pos + |s|;
    }
  }

  // ---------------------------------------------------------- the header

  datatype Header = Header(obsType: string, obsTime: Timestamp)

  /** The header line holds nine or ten tokens. */
  predicate HeaderLength(n: int) {
    n == 9 || n == 10
  }

  /** The header: the observation type, then year, month, day and hour of
      the observation time; a wrong token count, a token that is not an
      integer, an impossible date or a time `pd.Timestamp` cannot hold is
      refused. */
  function ParseHeader(line: string): (r: Result<Header>)
    ensures !HeaderLength(|SplitWs(line)|) ==> r.Err?
    ensures r.Ok? ==>
      var tokens := SplitWs(line);
      && HeaderLength(|tokens|)
      && r.value.obsType == tokens[0]
      && ParseInt(tokens[1]) == Some(Year(r.value.obsTime))
      && ParseInt(tokens[2]) == Some(Month(r.value.obsTime))
      && ParseInt(tokens[3]) == Some(Day(r.value.obsTime))
      && ParseInt(tokens[4]) == Some(Hour(r.value.obsTime))
      && Minute(r.value.obsTime) == 0
      && InPandasRange(r.value.obsTime)
  {
    var tokens := SplitWs(line);
    if !HeaderLength(|tokens|) then Err("ValueError: first line must have 9 or 10 tokens")
    else
      match (ParseInt(tokens[1]), ParseInt(tokens[2]), ParseInt(tokens[3]), ParseInt(tokens[4]))
      case (Some(y), Some(m), Some(d), Some(h)) =>
        (match MakeTimestamp(y, m, d, h, 0)
         case Some(t) =>
           if InPandasRange(t) then Ok(Header(tokens[0], t))
           else Err("OutOfBoundsDatetime: Out of bounds nanosecond timestamp")
         case None => Err("ValueError: the header's date is not a valid time"))
      case _ => Err("ValueError: invalid literal for int()")
  }

  /** A header is accepted exactly when it has nine or ten tokens whose
      second to fifth are integers naming a valid hour within pandas'
      range. */
  lemma HeaderAccepted(line: string)
    ensures ParseHeader(line).Ok? <==>
      var tokens := SplitWs(line);
      && HeaderLength(|tokens|)
      && ParseInt(tokens[1]).Some? && ParseInt(tokens[2]).Some?
      && ParseInt(tokens[3]).Some? && ParseInt(tokens[4]).Some?
      && ValidDate(DateTime(ParseInt(tokens[1]).value, ParseInt(tokens[2]).value,
                            ParseInt(tokens[3]).value, ParseInt(tokens[4]).value, 0))
      && InPandasRange(FromCivil(DateTime(ParseInt(tokens[1]).value, ParseInt(tokens[2]).value,
                                          ParseInt(tokens[3]).value, ParseInt(tokens[4]).value, 0)))
  {
  }

  /** A header line written from an observation type, the time's labels
      and the remaining tokens. */
  function HeaderLine(obsType: string, t: Timestamp, rest: seq<string>): string {
    Join([obsType, YearLabel(t), MonthLabel(t), DayLabel(t), HourLabel(t)] + rest, " ")
  }

  lemma DigitsAreWord(s: string)
    requires s != [] && AllDigits(s)
    ensures NoSpace(s)
  {
    forall i | 0 <= i < |s|
      ensures !IsSpace(s[i])
    {
      assert IsDigit(s[i]);
    }
  }

  lemma LabelIsWord(n: nat, width: int)
    ensures Label(n, width) != [] && NoSpace(Label(n, width))
  {
    assert Label(n, width) == ZeroPad(n, width);
    DigitsAreWord(ZeroPad(n, width));
  }

  /** The header line splits back into the tokens it was written from. */
  lemma HeaderTokens(obsType: string, t: Timestamp, rest: seq<string>)
    requires obsType != [] && NoSpace(obsType)
    requires Words(rest)
    ensures SplitWs(HeaderLine(obsType, t, rest))
      == [obsType, YearLabel(t), MonthLabel(t), DayLabel(t), HourLabel(t)] + rest
  {
    HeaderWords(obsType, t, rest);
    SplitJoinWords([obsType, YearLabel(t), MonthLabel(t), DayLabel(t), HourLabel(t)] + rest);
  }

  /** The header's tokens are words. */
  lemma HeaderWords(obsType: string, t: Timestamp, rest: seq<string>)
    requires obsType != [] && NoSpace(obsType)
    requires Words(rest)
    ensures Words([obsType, YearLabel(t), MonthLabel(t), DayLabel(t), HourLabel(t)] + rest)
  {
    var y, mo, d, h := YearLabel(t), MonthLabel(t), DayLabel(t), HourLabel(t);
    LabelIsWord(Year(t), 4);
    LabelIsWord(Month(t), 2);
    LabelIsWord(Day(t), 2);
    LabelIsWord(Hour(t), 2);
    WordsCons(h, rest);
    WordsCons(d, [h] + rest);
    WordsCons(mo, [d] + ([h] + rest));
    WordsCons(y, [mo] + ([d] + ([h] + rest)));
    WordsCons(obsType, [y] + ([mo] + ([d] + ([h] + rest))));
    assert [obsType] + ([y] + ([mo] + ([d] + ([h] + rest)))) == [obsType, y, mo, d, h] + rest;
  }

  /** The date labels read back as integers. */
  lemma LabelsParse(t: Timestamp)
    ensures ParseInt(YearLabel(t)) == Some(Year(t))
    ensures ParseInt(MonthLabel(t)) == Some(Month(t))
    ensures ParseInt(DayLabel(t)) == Some(Day(t))
    ensures ParseInt(HourLabel(t)) == Some(Hour(t))
  {
    var dt := ToCivil(t);
    FormatIntParses(dt.year, 4);
    FormatIntParses(dt.month, 2);
    FormatIntParses(dt.day, 2);
    FormatIntParses(dt.hour, 2);
  }

  /** A time on the hour is rebuilt from its date and hour. */
  lemma OnTheHour(t: Timestamp)
    requires Minute(t) == 0
    ensures MakeTimestamp(Year(t), Month(t), Day(t), Hour(t), 0) == Some(t)
  {
    var dt := ToCivil(t);
    assert DateTime(dt.year, dt.month, dt.day, dt.hour, 0) == dt;
    CivilRoundTrip(t);
  }

  /** Writing a header and parsing it gives back its type and its time, for
      a time on the hour. */
  lemma HeaderRoundTrip(obsType: string, t: Timestamp, rest: seq<string>)
    requires obsType != [] && NoSpace(obsType)
    requires Words(rest) && (|rest| == 4 || |rest| == 5)
    requires Minute(t) == 0 && InPandasRange(t)
    ensures ParseHeader(HeaderLine(obsType, t, rest)) == Ok(Header(obsType, t))
  {
    var line := HeaderLine(obsType, t, rest);
    HeaderTokens(obsType, t, rest);
    LabelTokens(SplitWs(line), obsType, t, rest);
    LabelsParse(t);
    OnTheHour(t);
    ParseHeaderOk(line, obsType, Year(t), Month(t), Day(t), Hour(t), t);
  }

  /** The tokens of a written header, one by one. */
  lemma LabelTokens(tokens: seq<string>, obsType: string, t: Timestamp, rest: seq<string>)
    requires tokens == [obsType, YearLabel(t), MonthLabel(t), DayLabel(t), HourLabel(t)] + rest
    ensures |tokens| == |rest| + 5 && tokens[0] == obsType
    ensures tokens[1] == YearLabel(t) && tokens[2] == MonthLabel(t)
    ensures tokens[3] == DayLabel(t) && tokens[4] == HourLabel(t)
  {
  }

  /** A line with the right token count, integers in the date positions
      and a valid date parses to that type and time. */
  lemma ParseHeaderOk(line: string, obsType: string, y: int, m: int, d: int, h: int, t: Timestamp)
    requires HeaderLength(|SplitWs(line)|) && SplitWs(line)[0] == obsType
    requires ParseInt(SplitWs(line)[1]) == Some(y) && ParseInt(SplitWs(line)[2]) == Some(m)
    requires ParseInt(SplitWs(line)[3]) == Some(d) && ParseInt(SplitWs(line)[4]) == Some(h)
    requires MakeTimestamp(y, m, d, h, 0) == Some(t) && InPandasRange(t)
    ensures ParseHeader(line) == Ok(Header(obsType, t))
  {
  }

  /** A header year before 1677 or after 2262 is refused, as
      `pd.Timestamp` raises `OutOfBoundsDatetime` on it. */
  lemma HeaderYearOutOfRange(line: string, y: int)
    requires HeaderLength(|SplitWs(line)|) && ParseInt(SplitWs(line)[1]) == Some(y)
    requires y < 1677 || y > 2262
    ensures ParseHeader(line).Err?
  {
    if ParseHeader(line).Ok? {
      PandasYears(ParseHeader(line).value.obsTime);
    }
  }

  // -------------------------------------------------------------- rows

  /** The rows pandas reads with `sep=r"\s+"`: the fields of each line of
      the text that has any. */
  function Rows(text: string): seq<seq<string>> {
    RowsOf(SplitOn(text, '\n'))
  }

  function RowsOf(ls: seq<string>): (r: seq<seq<string>>)
    ensures forall k :: 0 <= k < |r| ==> r[k] != [] && Words(r[k])
  {
    if ls == [] then []
    else
      var fields := SplitWs(ls[0]);
      (if fields == [] then [] else [fields]) + RowsOf(ls[1..])
  }

  /** The buffer after writing each record and a line break. */
  function Lines(rs: seq<string>): string {
    if rs == [] then "" else rs[0] + "\n" + Lines(rs[1..])
  }

  lemma {:induction false} LinesSnoc(rs: seq<string>, r: string)
    ensures Lines(rs + [r]) == Lines(rs) + (r + "\n")
    decreases |rs|
  {
    if rs == [] {
      assert Lines([r]) == r + "\n" + Lines([]);
    } else {
      assert (rs + [r])[1..] == rs[1..] + [r];
      LinesSnoc(rs[1..], r);
    }
  }

  lemma {:induction false} LinesJoin(rs: seq<string>)
    ensures Lines(rs) == Join(rs + [""], "\n")
    decreases |rs|
  {
    if rs != [] {
      assert (rs + [""])[1..] == rs[1..] + [""];
      LinesJoin(rs[1..]);
    }
  }

  lemma {:induction false} RowsOfBlankEnd(rs: seq<string>)
    ensures RowsOf(rs + [""]) == RowsOf(rs)
    decreases |rs|
  {
    if rs == [] {
      SplitWsBlank("");
    } else {
      assert (rs + [""])[1..] == rs[1..] + [""];
      RowsOfBlankEnd(rs[1..]);
    }
  }

  /** Records on one line each are read back one row per record that has
      fields, in order. */
  lemma RowsOfLines(rs: seq<string>)
    requires forall k :: 0 <= k < |rs| ==> '\n' !in rs[k]
    ensures Rows(Lines(rs)) == RowsOf(rs)
  {
    var ps := rs + [""];
    LinesJoin(rs);
    forall k | 0 <= k < |ps|
      ensures '\n' !in ps[k]
    {
      if k < |rs| {
        assert ps[k] == rs[k];
      }
    }
    assert "\n" == ['\n'];
    SplitOnJoin(ps, '\n');
    assert SplitOn(Lines(rs), '\n') == ps;
    RowsOfBlankEnd(rs);
  }

  // -------------------------------------------------------- paired lines

  /** The five spaces put in front of every stripped line. */
  const Gap := "     "

  /** What a line adds to the text of its row: the gap and the stripped
      line. */
  function Piece(line: string): string {
    Gap + Strip(line)
  }

  /** A piece has the fields of its line. */
  lemma PieceFields(line: string)
    ensures SplitWs(Piece(line)) == SplitWs(line)
  {
    assert SplitWs(Gap) == [] by {
      SplitWsBlank(Gap);
    }
    SplitWsAppend(Gap, Strip(line));
    SplitWsStrip(line);
  }

  /** Two pieces have the fields of their lines, one after the other. */
  lemma PiecesFields(a: string, b: string)
    ensures SplitWs(Piece(a) + Piece(b)) == SplitWs(a) + SplitWs(b)
  {
    PieceFields(a);
    PieceFields(b);
    assert IsSpace(Piece(b)[0]);
    SplitWsAppend(Piece(a), Piece(b));
  }

  /** A piece of a line whose stripped text holds no line break holds none. */
  lemma PieceOneLine(line: string)
    requires '\n' !in Strip(line)
    ensures '\n' !in Piece(line)
  {
  }

  /** The text of the `k`-th row: two lines, or the last line alone. */
  function RowText(lines: seq<string>, k: nat): string
    requires 2 * k < |lines|
  {
    if 2 * k + 1 < |lines| then Piece(lines[2 * k]) + Piece(lines[2 * k + 1]) else Piece(lines[2 * k])
  }

  /** The records the pairing is meant to write: one per pair of lines,
      and the last line alone when their number is odd. */
  function PairRecords(lines: seq<string>): (r: seq<string>)
    ensures |r| == (|lines| + 1) / 2
  {
    seq((|lines| + 1) / 2, k requires 0 <= k < (|lines| + 1) / 2 => Strip(RowText(lines, k)))
  }

  /** Each record has the fields of the two lines it pairs, and the last
      record of an odd number of lines those of the last line. */
  lemma PairFields(lines: seq<string>, k: nat)
    requires 2 * k < |lines|
    ensures 2 * k + 1 < |lines| ==>
      SplitWs(PairRecords(lines)[k]) == SplitWs(lines[2 * k]) + SplitWs(lines[2 * k + 1])
    ensures 2 * k + 1 == |lines| ==> SplitWs(PairRecords(lines)[k]) == SplitWs(lines[2 * k])
  {
    var text := RowText(lines, k);
    assert PairRecords(lines)[k] == Strip(text);
    SplitWsStrip(text);
    if 2 * k + 1 < |lines| {
      assert text == Piece(lines[2 * k]) + Piece(lines[2 * k + 1]);
      PiecesFields(lines[2 * k], lines[2 * k + 1]);
    } else {
      assert text == Piece(lines[2 * k]);
      PieceFields(lines[2 * k]);
    }
  }

  /** Records of stripped lines without line breaks hold none. */
  lemma RecordOneLine(lines: seq<string>, k: nat)
    requires 2 * k < |lines|
    requires forall j :: 0 <= j < |lines| ==> '\n' !in Strip(lines[j])
    ensures '\n' !in PairRecords(lines)[k]
  {
    PieceOneLine(lines[2 * k]);
    if 2 * k + 1 < |lines| {
      PieceOneLine(lines[2 * k + 1]);
    }
    StripInside(RowText(lines, k), '\n');
  }

  /** How many records the loop has written after `n` lines: a record is
      written when the next even index arrives. */
  function WrittenPairs(n: nat): nat {
    if n == 0 then 0 else (n - 1) / 2
  }

  /** The text of the open row after `n` lines. */
  function OpenText(lines: seq<string>, n: nat): string
    requires n <= |lines|
  {
    if n == 0 then ""
    else if n % 2 == 1 then Piece(lines[n - 1])
    else Piece(lines[n - 2]) + Piece(lines[n - 1])
  }

  /** The state of the paired-line loop after `index` lines: the buffer
      holds the records written so far and `t` the open row's text. */
  ghost predicate PairState(lines: seq<string>, index: nat, text: string, t: string) {
    && index <= |lines|
    && text == Lines(PairRecords(lines)[..WrittenPairs(index)])
    && t == OpenText(lines, index)
  }

  /** The row closed at an even index is the next record. */
  lemma CloseRow(lines: seq<string>, index: nat)
    requires index % 2 == 0 && 0 < index < |lines|
    ensures Lines(PairRecords(lines)[..WrittenPairs(index + 1)])
      == Lines(PairRecords(lines)[..WrittenPairs(index)]) + (Strip(OpenText(lines, index)) + "\n")
  {
    var c := WrittenPairs(index);
    assert index == 2 * c + 2 && WrittenPairs(index + 1) == c + 1;
    OpenIsRow(lines, index, c);
    LinesPrefix(PairRecords(lines), c);
  }

  /** The open row after an even number of lines, or after all of them,
      is the text of row `c`, the one the loop has not written yet. */
  lemma OpenIsRow(lines: seq<string>, n: nat, c: nat)
    requires 0 < n <= |lines| && c == WrittenPairs(n)
    requires n % 2 == 0 || n == |lines|
    ensures 2 * c < |lines| && PairRecords(lines)[c] == Strip(OpenText(lines, n))
  {
    var text := OpenText(lines, n);
    if n % 2 == 1 {
      assert n == 2 * c + 1;
      assert text == Piece(lines[2 * c]);
    } else {
      assert n == 2 * c + 2;
      assert text == Piece(lines[2 * c]) + Piece(lines[2 * c + 1]);
    }
    assert RowText(lines, c) == text;
  }

  /** Writing one more record adds it and a line break to the buffer. */
  lemma LinesPrefix(records: seq<string>, c: nat)
    requires c < |records|
    ensures Lines(records[..c + 1]) == Lines(records[..c]) + (records[c] + "\n")
  {
    assert records[..c + 1] == records[..c] + [records[c]];
    LinesSnoc(records[..c], records[c]);
  }

  /** A line that does not close a row joins the open one; at an even
      index it starts a new one. */
  lemma OpenRow(lines: seq<string>, index: nat)
    requires index < |lines|
    ensures index % 2 == 0 ==> OpenText(lines, index + 1) == Piece(lines[index])
    ensures index % 2 == 1 ==> OpenText(lines, index + 1) == OpenText(lines, index) + Piece(lines[index])
    ensures index % 2 == 1 || index == 0 ==> WrittenPairs(index + 1) == WrittenPairs(index)
  {
    var m := index / 2;
    if index % 2 == 0 {
      assert index + 1 == 2 * m + 1 && (index + 1) % 2 == 1;
    } else {
      assert index == 2 * m + 1 && index + 1 == 2 * m + 2 && (index + 1) % 2 == 0;
      var a, b := Piece(lines[index - 1]), Piece(lines[index]);
      assert OpenText(lines, index) == a;
      assert OpenText(lines, index + 1) == a + b;
      assert WrittenPairs(index) == m && WrittenPairs(index + 1) == m;
    }
  }

  /** One turn of the loop: the open row is written at an even index,
      then the line joins the row. */
  method AddLine(lines: seq<string>, index: nat, sio: TextBuffer, t0: string) returns (t: string)
    requires index < |lines| && sio.Valid() && sio.pos == |sio.text|
    requires PairState(lines, index, sio.text, t0)
    modifies sio
    ensures sio.Valid() && sio.pos == |sio.text|
    ensures PairState(lines, index + 1, sio.text, t)
  {
    t := t0;
    OpenRow(lines, index);
    if index % 2 == 0 && index > 0 {
      CloseRow(lines, index);
      t := Strip(t);
      WriteAtEnd(sio.text, t + "\n");
      sio.Write(t + "\n");
      t := "";
    }
    t := t + Piece(lines[index]);
  }

  /** The accumulation loop of the paired-line loader. */
  method AccumulatePairs(lines: seq<string>) returns (sio: TextBuffer, t: string)
    ensures fresh(sio) && sio.Valid() && sio.pos == |sio.text|
    ensures PairState(lines, |lines|, sio.text, t)
  {
    sio := new TextBuffer("");
    t := "";
    for index := 0 to |lines|
      invariant fresh(sio) && sio.Valid() && sio.pos == |sio.text|
      invariant PairState(lines, index, sio.text, t)
    {
      t := AddLine(lines, index, sio, t);
    }
  }

  /** The paired-line loader as written: the open row is never written,
      so the buffer lacks the last record. */
  method PairLinesAsWritten(lines: seq<string>) returns (text: string)
    ensures text == Lines(PairRecords(lines)[..WrittenPairs(|lines|)])
  {
    var sio, t := AccumulatePairs(lines);
    text := sio.text;
  }

  /** The open row is the last record. */
  lemma LastRow(lines: seq<string>)
    requires lines != []
    ensures Lines(PairRecords(lines))
      == Lines(PairRecords(lines)[..WrittenPairs(|lines|)]) + (Strip(OpenText(lines, |lines|)) + "\n")
  {
    var records, c := PairRecords(lines), WrittenPairs(|lines|);
    OpenIsRow(lines, |lines|, c);
    LinesPrefix(records, c);
    assert records[..c + 1] == records;
  }

  /** The paired-line loader with the open row written after the loop:
      the buffer holds every record. */
  method PairLines(lines: seq<string>) returns (text: string)
    ensures text == Lines(PairRecords(lines))
  {
    var sio, t := AccumulatePairs(lines);
    if lines != [] {
      LastRow(lines);
      WriteAtEnd(sio.text, Strip(t) + "\n");
      sio.Write(Strip(t) + "\n");
    }
    text := sio.text;
  }

  /** As written, every file loses its last record, and a file with a
      single pair of lines gives no record at all. */
  lemma LastRecordLost(lines: seq<string>)
    requires lines != []
    ensures WrittenPairs(|lines|) == |PairRecords(lines)| - 1
    ensures |lines| <= 2 ==> Lines(PairRecords(lines)[..WrittenPairs(|lines|)]) == ""
  {
  }

  /** When no stripped line holds a line break, the first `c` records are
      read back as one row per record that has fields. */
  lemma PairedRowsUpTo(lines: seq<string>, c: nat)
    requires c <= |PairRecords(lines)|
    requires forall k :: 0 <= k < |lines| ==> '\n' !in Strip(lines[k])
    ensures Rows(Lines(PairRecords(lines)[..c])) == RowsOf(PairRecords(lines)[..c])
  {
    var records := PairRecords(lines)[..c];
    forall k | 0 <= k < |records|
      ensures '\n' !in records[k]
    {
      RecordOneLine(lines, k);
    }
    RowsOfLines(records);
  }

  /** As written, the table has one row per record that has fields, the
      last record excepted. */
  lemma PairedRowsAsWritten(lines: seq<string>)
    requires forall k :: 0 <= k < |lines| ==> '\n' !in Strip(lines[k])
    ensures Rows(Lines(PairRecords(lines)[..WrittenPairs(|lines|)]))
      == RowsOf(PairRecords(lines)[..WrittenPairs(|lines|)])
  {
    PairedRowsUpTo(lines, WrittenPairs(|lines|));
  }

  /** With the last record written, the table has one row per record that
      has fields. */
  lemma PairedRows(lines: seq<string>)
    requires forall k :: 0 <= k < |lines| ==> '\n' !in Strip(lines[k])
    ensures Rows(Lines(PairRecords(lines))) == RowsOf(PairRecords(lines))
  {
    PairedRowsUpTo(lines, |PairRecords(lines)|);
    assert PairRecords(lines)[..|PairRecords(lines)|] == PairRecords(lines);
  }

  // ------------------------------------------------------ RTEMP stations

  /** The fields of a station's first line, the last being the number of
      data lines that follow it. */
  const StationHeaderColumns: seq<string> :=
    ["Station_Id_d", "Lat", "Lon", "Alti", "Day", "HourMin", "count"]

  /** The columns of a station's data lines. */
  const StationDataColumns: seq<string> :=
    ["PRS_HWC", "EVSS", "GPH", "TEM", "DPT", "WIN_D", "WIN_S", "Time_Dev_WQ", "Lat_Dev", "Lon_Dev",
     "Q_PRS_HWC", "Q_GPH", "Q_TEM", "Q_DPT", "Q_WIN_D", "Q_WIN_S"]

  /** A station header: the six values copied into every row of the
      station, and how many data lines follow. */
  datatype StationHeader = StationHeader(values: seq<string>, count: nat)

  /** The station header line read as one row of seven fields; a negative
      count reads no data line, as `range` of it is empty. */
  function ParseStationHeader(line: string): (r: Result<StationHeader>)
    ensures r.Ok? <==> |SplitWs(line)| == 7 && ParseInt(SplitWs(line)[6]).Some?
    ensures r.Ok? ==> r.value.values + [SplitWs(line)[6]] == SplitWs(line)
    ensures r.Ok? ==> r.value.count == if ParseInt(SplitWs(line)[6]).value < 0 then 0
                                       else ParseInt(SplitWs(line)[6]).value
  {
    var fields := SplitWs(line);
    if fields == [] then Err("EmptyDataError: No columns to parse from file")
    else if |fields| < 7 then Err("ValueError: cannot convert float NaN to integer")
    else if |fields| > 7 then Err("ValueError: a station header has seven fields")
    else
      match ParseInt(fields[6])
      case None => Err("ValueError: invalid literal for int()")
      case Some(n) => Ok(StationHeader(fields[..6], if n < 0 then 0 else n))
  }

  /** A station block: its header line, the header it reads as, and the
      data lines it takes. */
  datatype Station = Station(line: string, header: StationHeader, data: seq<string>)

  /** How a header line is read: the loader reads it with
      `ParseStationHeader`; the splitting of a body into blocks is stated
      for any reading. */
  type HeaderReader = string -> Result<StationHeader>

  /** A station whose header line reads as its header and which holds as
      many data lines as the header counts. */
  predicate Counted(s: Station, read: HeaderReader) {
    read(s.line) == Ok(s.header) && |s.data| == s.header.count
  }

  predicate WellFormed(s: Station) {
    Counted(s, ParseStationHeader)
  }

  /** The lines of a sequence of stations, in file order. */
  function Flatten(ss: seq<Station>): seq<string> {
    if ss == [] then [] else [ss[0].line] + ss[0].data + Flatten(ss[1..])
  }

  /** The blocks of a body: each header line takes the number of lines it
      counts; running out of lines raises. */
  function Blocks(lines: seq<string>, read: HeaderReader): Result<seq<Station>>
    decreases |lines|
  {
    if lines == [] then Ok([])
    else
      var header :- read(lines[0]);
      if header.count > |lines| - 1 then Err("IndexError: pop from empty list")
      else
        var rest :- Blocks(lines[1 + header.count..], read);
        Ok([Station(lines[0], header, lines[1..1 + header.count])] + rest)
  }

  /** The station blocks of an RTEMP body. */
  function Stations(lines: seq<string>): Result<seq<Station>> {
    Blocks(lines, ParseStationHeader)
  }

  /** The blocks found are a split of the body: their lines, in order, are
      the body. */
  lemma {:induction false} BlocksCover(lines: seq<string>, read: HeaderReader)
    requires Blocks(lines, read).Ok?
    ensures Flatten(Blocks(lines, read).value) == lines
    decreases |lines|
  {
    if lines != [] {
      var n := read(lines[0]).value.count;
      BlocksCover(lines[1 + n..], read);
      var ss := Blocks(lines, read).value;
      assert ss[1..] == Blocks(lines[1 + n..], read).value;
      assert lines == [lines[0]] + lines[1..1 + n] + lines[1 + n..];
    }
  }

  /** Every block found holds the lines its header counts. */
  lemma {:induction false} BlocksCounted(lines: seq<string>, read: HeaderReader)
    requires Blocks(lines, read).Ok?
    ensures forall k :: 0 <= k < |Blocks(lines, read).value| ==> Counted(Blocks(lines, read).value[k], read)
    decreases |lines|
  {
    if lines != [] {
      var n := read(lines[0]).value.count;
      BlocksCounted(lines[1 + n..], read);
      var ss := Blocks(lines, read).value;
      assert ss[1..] == Blocks(lines[1 + n..], read).value;
      assert Counted(ss[0], read);
      forall k | 1 <= k < |ss|
        ensures Counted(ss[k], read)
      {
        assert ss[k] == ss[1..][k - 1];
      }
    }
  }

  /** Blocks written one after another are found again. */
  lemma {:induction false} BlocksOfFlatten(ss: seq<Station>, read: HeaderReader)
    requires forall k :: 0 <= k < |ss| ==> Counted(ss[k], read)
    ensures Blocks(Flatten(ss), read) == Ok(ss)
    decreases |ss|
  {
    if ss != [] {
      var lines, s := Flatten(ss), ss[0];
      BlocksOfFlatten(ss[1..], read);
      assert lines[0] == s.line;
      assert lines[1..1 + |s.data|] == s.data;
      assert lines[1 + |s.data|..] == Flatten(ss[1..]);
      assert ss == [s] + ss[1..];
    }
  }

  /** The stations of an RTEMP body are a split of it into well-formed
      blocks, and well-formed stations written out are found again. */
  lemma StationsSplit(lines: seq<string>, ss: seq<Station>)
    ensures Stations(lines).Ok? ==> Flatten(Stations(lines).value) == lines
    ensures Stations(lines).Ok? ==>
      forall k :: 0 <= k < |Stations(lines).value| ==> WellFormed(Stations(lines).value[k])
    ensures (forall k :: 0 <= k < |ss| ==> WellFormed(ss[k])) ==> Stations(Flatten(ss)) == Ok(ss)
  {
    if Stations(lines).Ok? {
      BlocksCover(lines, ParseStationHeader);
      BlocksCounted(lines, ParseStationHeader);
    }
    if forall k :: 0 <= k < |ss| ==> WellFormed(ss[k]) {
      BlocksOfFlatten(ss, ParseStationHeader);
    }
  }

  /** The text the data lines of a station add up to. */
  function Concat(ls: seq<string>): string {
    if ls == [] then "" else Concat(ls[..|ls| - 1]) + ls[|ls| - 1]
  }

  /** Writes each line in turn at the buffer's position. */
  method WriteAll(sio: TextBuffer, ls: seq<string>)
    requires sio.Valid()
    modifies sio
    ensures sio.Valid() && sio.pos == old(sio.pos) + |Concat(ls)|
    ensures sio.text == Overwrite(old(sio.text), old(sio.pos), Concat(ls))
  {
    ghost var text0, pos0 := sio.text, sio.pos;
    for i := 0 to |ls|
      invariant sio.Valid() && sio.pos == pos0 + |Concat(ls[..i])|
      invariant sio.text == Overwrite(text0, pos0, Concat(ls[..i]))
    {
      assert ls[..i + 1][..i] == ls[..i];
      WriteTwice(text0, pos0, Concat(ls[..i]), ls[i]);
      sio.Write(ls[i]);
    }
    assert ls[..|ls|] == ls;
  }

  /** As written, the station's data is written into a buffer that starts
      out holding the header line, from its start: what the data does not
      cover of the header line stays. */
  method ReadStationAsWritten(line: string, data: seq<string>) returns (text: string)
    ensures text == Overwrite(line, 0, Concat(data))
  {
    var sio := new TextBuffer(line);
    WriteAll(sio, data);
    text := sio.text;
  }

  /** The station's data written into an empty buffer: the data lines
      alone. */
  method ReadStation(data: seq<string>) returns (text: string)
    ensures text == Concat(data)
  {
    var sio := new TextBuffer("");
    WriteAll(sio, data);
    OverwriteFromStart("", Concat(data));
    text := sio.text;
  }

  /** Rows with the station's header values put in front of each. */
  function WithValues(values: seq<string>, rows: seq<seq<string>>): (r: seq<seq<string>>)
    ensures |r| == |rows|
    ensures forall k :: 0 <= k < |r| ==>
      |r[k]| == |values| + |rows[k]| && r[k][..|values|] == values && r[k][|values|..] == rows[k]
  {
    if rows == [] then [] else [values + rows[0]] + WithValues(values, rows[1..])
  }

  /** The rows of one station as the loader reads them: its header values,
      then the fields of each line of the buffer, where the data lines are
      written over the header line from its start. */
  function StationRows(s: Station): seq<seq<string>> {
    WithValues(s.header.values, Rows(Overwrite(s.line, 0, Concat(s.data))))
  }

  /** The rows of one station as evidently intended: its header values,
      then the fields of each data line. */
  function IntendedStationRows(s: Station): seq<seq<string>> {
    WithValues(s.header.values, Rows(Concat(s.data)))
  }

  /** A station whose data text is at least as long as its header line, so
      that writing the data covers the header line. */
  predicate CoversHeader(s: Station) {
    |Concat(s.data)| >= |s.line|
  }

  /** A station whose data covers its header line is read as intended. */
  lemma CoveredStationRows(s: Station)
    requires CoversHeader(s)
    ensures StationRows(s) == IntendedStationRows(s)
  {
    OverwriteFromStart(s.line, Concat(s.data));
  }

  /** The rows of all stations, in order, as the loader reads them. */
  function AllStationRows(ss: seq<Station>): seq<seq<string>> {
    if ss == [] then [] else AllStationRows(ss[..|ss| - 1]) + StationRows(ss[|ss| - 1])
  }

  /** The rows of all stations, in order, as evidently intended. */
  function AllIntendedRows(ss: seq<Station>): seq<seq<string>> {
    if ss == [] then [] else AllIntendedRows(ss[..|ss| - 1]) + IntendedStationRows(ss[|ss| - 1])
  }

  /** Stations whose data covers their header lines are all read as
      intended. */
  lemma {:induction false} CoveredRows(ss: seq<Station>)
    requires forall k :: 0 <= k < |ss| ==> CoversHeader(ss[k])
    ensures AllStationRows(ss) == AllIntendedRows(ss)
    decreases |ss|
  {
    if ss != [] {
      CoveredRows(ss[..|ss| - 1]);
      CoveredStationRows(ss[|ss| - 1]);
    }
  }

  /** An empty text has no row. */
  lemma RowsEmpty()
    ensures Rows("") == []
  {
    assert SplitOn("", '\n') == [""];
    SplitWsBlank("");
  }

  /** A line and its break read as the line's fields, when it has any. */
  lemma RowsOfOneLine(w: string)
    requires '\n' !in w && SplitWs(w) != []
    ensures Rows(w + "\n") == [SplitWs(w)]
  {
    assert Lines([w]) == w + "\n";
    RowsOfLines([w]);
    assert [w][1..] == [];
  }

  /** The line break at the end of a line adds no field. */
  lemma LineBreakNoField(w: string)
    ensures SplitWs(w + "\n") == SplitWs(w)
  {
    SplitWsBlank("\n");
    SplitWsAppend(w, "\n");
  }

  /** A station with no data lines is read, as written, as one row holding
      its own header's fields; it is meant to give no row. */
  lemma EmptyStationReadsHeader(s: Station, w: string)
    requires WellFormed(s) && s.data == []
    requires s.line == w + "\n" && '\n' !in w
    ensures IntendedStationRows(s) == []
    ensures StationRows(s) == [s.header.values + SplitWs(w)]
  {
    assert Concat(s.data) == "";
    RowsEmpty();
    assert Overwrite(s.line, 0, "") == s.line;
    LineBreakNoField(w);
    RowsOfOneLine(w);
  }

  /** The RTEMP rows of a body: those of each station, or an error when a
      block is malformed or there is no station at all. */
  function RtempRows(lines: seq<string>): (r: Result<seq<seq<string>>>)
    ensures lines == [] ==> r.Err?
    ensures Stations(lines).Err? ==> r.Err?
    ensures r.Ok? ==> r.value == AllStationRows(Stations(lines).value)
  {
    var ss :- Stations(lines);
    if ss == [] then Err("ValueError: No objects to concatenate") else Ok(AllStationRows(ss))
  }

  /** The outcome of splitting a body whose first stations are `done`. */
  function After(done: seq<Station>, r: Result<seq<Station>>): Result<seq<Station>> {
    match r
    case Ok(ss) => Ok(done + ss)
    case Err(e) => Err(e)
  }

  /** One station more is found by splitting one block off the front. */
  lemma AfterStep(done: seq<Station>, s: Station, rest: Result<seq<Station>>)
    ensures After(done, After([s], rest)) == After(done + [s], rest)
  {
    if rest.Ok? {
      assert done + ([s] + rest.value) == done + [s] + rest.value;
    }
  }

  /** The first block of a body is its first line and the lines that line
      counts. */
  lemma BlocksStep(lines: seq<string>, read: HeaderReader)
    requires lines != [] && read(lines[0]).Ok?
    requires read(lines[0]).value.count <= |lines| - 1
    ensures var header := read(lines[0]).value;
      Blocks(lines, read)
      == After([Station(lines[0], header, lines[1..][..header.count])], Blocks(lines[1..][header.count..], read))
  {
    SliceAfterFirst(lines, read(lines[0]).value.count);
  }

  /** Slices of the lines after the first are slices of the lines. */
  lemma SliceAfterFirst<T>(s: seq<T>, n: nat)
    requires 1 + n <= |s|
    ensures s[1..][..n] == s[1..1 + n] && s[1..][n..] == s[1 + n..]
  {
  }

  /** One turn of the station loop: pop a header line, read the header,
      pop its data lines into a buffer and read the station's rows. */
  method NextStation(rest: seq<string>) returns (r: Result<Station>, rows: seq<seq<string>>, left: seq<string>)
    requires rest != []
    ensures r.Err? ==> Stations(rest) == Err(r.msg)
    ensures r.Ok? ==> Stations(rest) == After([r.value], Stations(left))
    ensures r.Ok? ==> rows == StationRows(r.value) && |left| < |rest|
  {
    var line := rest[0];
    left := rest[1..];
    var header := ParseStationHeader(line);
    if header.Err? {
      return Err(header.msg), [], left;
    }
    var count := header.value.count;
    if count > |left| {
      return Err("IndexError: pop from empty list"), [], left;
    }
    var text := ReadStationAsWritten(line, left[..count]);
    var s := Station(line, header.value, left[..count]);
    BlocksStep(rest, ParseStationHeader);
    r, rows, left := Ok(s), WithValues(header.value.values, Rows(text)), left[count..];
  }

  /** The station loop: read stations until the lines run out, then join
      their rows; no station at all is an error. */
  method LoadRtemp(lines: seq<string>) returns (r: Result<seq<seq<string>>>)
    ensures r == RtempRows(lines)
  {
    var rest := lines;
    var rows: seq<seq<string>> := [];
    var found := 0;
    ghost var done: seq<Station> := [];
    AfterNothing(Stations(lines));
    while rest != []
      invariant Stations(lines) == After(done, Stations(rest))
      invariant rows == AllStationRows(done) && found == |done|
      decreases |rest|
    {
      var s, stationRows, left := NextStation(rest);
      if s.Err? {
        RtempRowsOutcome(lines, done, Stations(rest));
        return Err(s.msg);
      }
      AfterStep(done, s.value, Stations(left));
      assert (done + [s.value])[..|done|] == done;
      rows := rows + stationRows;
      done := done + [s.value];
      found := found + 1;
      rest := left;
    }
    RtempRowsOutcome(lines, done, Stations(rest));
    if found == 0 {
      return Err("ValueError: No objects to concatenate");
    }
    r := Ok(rows);
  }

  lemma AfterNothing(r: Result<seq<Station>>)
    ensures After([], r) == r
  {
    if r.Ok? {
      assert [] + r.value == r.value;
    }
  }

  /** The RTEMP rows once the stations read so far and the outcome of the
      remaining lines are known. */
  lemma RtempRowsOutcome(lines: seq<string>, done: seq<Station>, rest: Result<seq<Station>>)
    requires Stations(lines) == After(done, rest)
    ensures rest.Err? ==> RtempRows(lines) == Err(rest.msg)
    ensures rest == Ok([]) ==>
      RtempRows(lines) == if done == [] then Err("ValueError: No objects to concatenate") else Ok(AllStationRows(done))
  {
    if rest == Ok([]) {
      assert done + [] == done;
    }
  }

  // ----------------------------------------------------------- the loader

  /** The table read from an observation file: its columns, its rows of
      fields, and the observation time of the header. */
  datatype Table = Table(columns: seq<string>, rows: seq<seq<string>>, obsTime: Timestamp)

  const RgwstColumns: seq<string> := [
    "Station_Id_C", "Station_Id_d", "Lat", "Lon", "Alti", "Day", "Hour",
    "PRS_Sea", "TEM", "DPT", "WIN_D_INST", "WIN_S_INST", "PRE_1h", "PRE_6h", "PRE_24h", "PRS",
    "Q_PRS_Sea", "Q_TEM", "Q_DPT", "Q_WIN_D_INST", "Q_WIN_S_INST", "Q_PRE_1h", "Q_PRE_6h", "Q_PRE_24h", "Q_PRS"]

  const RsurfColumns: seq<string> := [
    "Station_Id_C", "Station_Id_d", "Lat", "Lon", "Alti", "Day", "Hour", "Min",
    "PRS_HWC", "EVSS", "GPH", "TEM", "DPT", "WIN_D", "WIN_S", "Time_Dev_WQ", "Lat_Dev", "Lon_Dev",
    "Q_PRS_HWC", "Q_GPH", "Q_TEM", "Q_DPT", "Q_WIN_D", "Q_WIN_S"]

  const R2cweColumns: seq<string> := [
    "SATE_ID", "Lat", "Lon", "Day", "HourMin", "V02023",
    "PRS_HWC", "V12071", "WIN_D", "WIN_S",
    "Q07004_001", "Q12071_001", "Q11001_001", "Q11002_001"]

  const RsingColumns: seq<string> := [
    "Station_Id_C", "Lat", "Lon", "Day", "HourMin", "Flight_Stat",
    "Flight_Heigh", "TEM", "WIN_D", "WIN_S",
    "Q_Flight_Heigh", "Q_TEM", "Q_WIN_D", "Q_WIN_S"]

  /** An RTEMP table has the station header's values, without the count,
      and then the data columns. */
  const RtempColumns: seq<string> := StationHeaderColumns[..6] + StationDataColumns

  /** The columns of each supported observation type. */
  function ObsColumns(obsType: string): Option<seq<string>> {
    if obsType == "RGWST" then Some(RgwstColumns)
    else if obsType == "RSURF" then Some(RsurfColumns)
    else if obsType == "R2CWE" then Some(R2cweColumns)
    else if obsType == "RSING" then Some(RsingColumns)
    else if obsType == "RTEMP" then Some(RtempColumns)
    else None
  }

  /** The table of a body, read the way the header's type asks: station
      blocks for RTEMP, pairs of lines for the other types, where the
      records the pairing loop has written are read.  An unknown type has
      no columns to read with. */
  function LoadBody(header: Header, body: seq<string>): (r: Result<Table>)
    ensures r.Ok? ==> r.value.obsTime == header.obsTime && ObsColumns(header.obsType) == Some(r.value.columns)
    ensures ObsColumns(header.obsType).None? ==> r.Err?
    ensures ObsColumns(header.obsType).Some? && header.obsType != "RTEMP" ==>
      r.Ok? && r.value.rows == Rows(Lines(PairRecords(body)[..WrittenPairs(|body|)]))
  {
    match ObsColumns(header.obsType)
    case None => Err("TypeError: 'NoneType' object is not subscriptable")
    case Some(columns) =>
      if header.obsType == "RTEMP" then
        var rows :- RtempRows(body);
        Ok(Table(columns, rows, header.obsTime))
      else Ok(Table(columns, Rows(Lines(PairRecords(body)[..WrittenPairs(|body|)])), header.obsTime))
  }

  /** RTEMP is told apart from the other types by its second letter. */
  lemma RtempColumnsOf()
    ensures ObsColumns("RTEMP") == Some(RtempColumns)
  {
    assert "RTEMP"[1] == 'T';
    assert "RGWST"[1] == 'G' && "RSURF"[1] == 'S' && "R2CWE"[1] == '2' && "RSING"[1] == 'S';
  }

  /** An observation file, as its lines: the header line, then the body. */
  function LoadObs(lines: seq<string>): (r: Result<Table>)
    ensures lines == [] ==> r.Err?
    ensures lines != [] ==> r == (var header :- ParseHeader(lines[0]); LoadBody(header, lines[1..]))
  {
    if lines == [] then Err("IndexError: pop from empty list")
    else
      var header :- ParseHeader(lines[0]);
      LoadBody(header, lines[1..])
  }

  /** Reads the body the way the header's type asks. */
  method ReadBody(header: Header, body: seq<string>) returns (r: Result<Table>)
    ensures r == LoadBody(header, body)
  {
    var columns := ObsColumns(header.obsType);
    if header.obsType == "RTEMP" {
      RtempColumnsOf();
      var rows := LoadRtemp(body);
      if rows.Err? {
        return Err(rows.msg);
      }
      r := Ok(Table(columns.value, rows.value, header.obsTime));
    } else {
      var text := PairLinesAsWritten(body);
      if columns.None? {
        return Err("TypeError: 'NoneType' object is not subscriptable");
      }
      r := Ok(Table(columns.value, Rows(text), header.obsTime));
    }
  }

  /** The loader: pop the header line, parse it, and read the body. */
  method LoadNwpcObsFromFile(lines: seq<string>) returns (r: Result<Table>)
    ensures r == LoadObs(lines)
  {
    if lines == [] {
      return Err("IndexError: pop from empty list");
    }
    var header := ParseHeader(lines[0]);
    if header.Err? {
      return Err(header.msg);
    }
    r := ReadBody(header.value, lines[1..]);
  }

  /** A file is read as its body once its header line is. */
  lemma LoadWithHeader(line: string, header: Header, body: seq<string>)
    requires ParseHeader(line) == Ok(header)
    ensures LoadObs([line] + body) == LoadBody(header, body)
  {
    assert ([line] + body)[0] == line && ([line] + body)[1..] == body;
  }

  /** A file of a paired type, written from a header and body lines that
      hold no inner line break, is read back as its time and one row per
      record that has fields, every record but the last. */
  lemma PairedFileRoundTrip(obsType: string, t: Timestamp, rest: seq<string>, body: seq<string>)
    requires ObsColumns(obsType).Some? && obsType != "RTEMP"
    requires Words(rest) && (|rest| == 4 || |rest| == 5)
    requires Minute(t) == 0 && InPandasRange(t)
    requires forall k :: 0 <= k < |body| ==> '\n' !in Strip(body[k])
    ensures body != [] ==> WrittenPairs(|body|) == |PairRecords(body)| - 1
    ensures LoadObs([HeaderLine(obsType, t, rest)] + body)
      == Ok(Table(ObsColumns(obsType).value, RowsOf(PairRecords(body)[..WrittenPairs(|body|)]), t))
  {
    HeaderRoundTrip(obsType, t, rest);
    LoadWithHeader(HeaderLine(obsType, t, rest), Header(obsType, t), body);
    PairedRowsAsWritten(body);
  }

  /** An RTEMP file written from a header and well-formed stations is read
      back as its time and the rows of its stations, as the loader reads
      them; by CoveredRows, those are the fields of the data lines when
      every station's data covers its header line. */
  lemma RtempFileRoundTrip(t: Timestamp, rest: seq<string>, ss: seq<Station>)
    requires Words(rest) && (|rest| == 4 || |rest| == 5)
    requires Minute(t) == 0 && InPandasRange(t)
    requires ss != [] && forall k :: 0 <= k < |ss| ==> WellFormed(ss[k])
    ensures LoadObs([HeaderLine("RTEMP", t, rest)] + Flatten(ss))
      == Ok(Table(RtempColumns, AllStationRows(ss), t))
  {
    StationsSplit([], ss);
    RtempIsWord();
    HeaderRoundTrip("RTEMP", t, rest);
    LoadWithHeader(HeaderLine("RTEMP", t, rest), Header("RTEMP", t), Flatten(ss));
    RtempBody(t, Flatten(ss), ss);
  }

  lemma RtempIsWord()
    ensures "RTEMP" != [] && NoSpace("RTEMP")
  {
    var w := "RTEMP";
    assert forall i :: 0 <= i < |w| ==> w[i] in "RTEMP";
  }

  /** A body split into stations is read as their rows. */
  lemma RtempBody(t: Timestamp, body: seq<string>, ss: seq<Station>)
    requires ss != [] && Stations(body) == Ok(ss)
    ensures LoadBody(Header("RTEMP", t), body) == Ok(Table(RtempColumns, AllStationRows(ss), t))
  {
    RtempColumnsOf();
  }
}
