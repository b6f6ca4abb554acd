/** What each line of a GrADS data descriptor means, one handler at a time,
    as reki/format/grads/grads_ctl.py and its older copy
    nwpc_data/format/grads/grads_ctl.py read it. Every function here is the
    value a handler computes from the lines and the cursor; the parser
    classes in grads_parser.dfy store these values. */
module GradsLines {
  import opened Wrappers
  import opened Text
  import opened Calendar
  import opened GradsCatalog

  // ================================================================ dispatch

  /** The keys of `parser_mapper`. */
  datatype Keyword = CtlFileName | Dset | Options | Title | Undef | Xdef | Ydef | Zdef | Tdef | Vars

  function KeywordName(k: Keyword): string {
    match k
    case CtlFileName => "ctl_file_name"
    case Dset => "dset"
    case Options => "options"
    case Title => "title"
    case Undef => "undef"
    case Xdef => "xdef"
    case Ydef => "ydef"
    case Zdef => "zdef"
    case Tdef => "tdef"
    case Vars => "vars"
  }

  /** The keyword spelled exactly `w`, if any. */
  function KeywordOf(w: string): (r: Option<Keyword>)
    ensures r.Some? ==> KeywordName(r.value) == w
    ensures r.None? ==> forall k: Keyword :: KeywordName(k) != w
  {
    if w == "ctl_file_name" then Some(CtlFileName)
    else if w == "dset" then Some(Dset)
    else if w == "options" then Some(Options)
    else if w == "title" then Some(Title)
    else if w == "undef" then Some(Undef)
    else if w == "xdef" then Some(Xdef)
    else if w == "ydef" then Some(Ydef)
    else if w == "zdef" then Some(Zdef)
    else if w == "tdef" then Some(Tdef)
    else if w == "vars" then Some(Vars)
    else None
  }

  /** `line[0:line.find(' ')]`: the text before the first space, or, for a
      line without a space, everything but its last character. */
  function FirstWord(line: string): (w: string)
    ensures ' ' in line ==> StartsWith(line, w + " ") && ' ' !in w
    ensures ' ' !in line && line != [] ==> line == w + [line[|line| - 1]]
    ensures line == [] ==> w == []
  {
    match IndexOf(line, ' ')
    case Some(i) =>
      assert line[..i + 1] == line[..i] + " ";
      line[..i]
    case None => if line == [] then [] else line[..|line| - 1]
  }

  /** The handler a line selects: none when its first word, lower-cased, is
      not a keyword; a KeyError when it is one only after lower-casing,
      because the handler is then fetched by the word as written. (The
      keywords are lower case, so a word that is exactly a keyword is one
      after lower-casing too.) */
  function Dispatch(line: string): (r: Result<Option<Keyword>>)
    ensures r.Ok? && r.value.Some? ==>
      StartsWith(line, KeywordName(r.value.value)) && FirstWord(line) == KeywordName(r.value.value)
    ensures r.Ok? && r.value.None? ==> KeywordOf(Lower(FirstWord(line))).None?
  {
    var w := FirstWord(line);
    match KeywordOf(w)
    case Some(k) =>
      assert StartsWith(line, w) by {
        if ' ' in line {
          assert line[..|w|] == line[..|w| + 1][..|w|];
        }
      }
      Ok(Some(k))
    case None =>
      if KeywordOf(Lower(w)).Some? then Err("KeyError: " + w) else Ok(None)
  }

  /** Each keyword is recognised by its own name. */
  lemma KeywordOfName(k: Keyword)
    ensures KeywordOf(KeywordName(k)) == Some(k)
  {
    match k
    case CtlFileName =>
    case Dset =>
    case Options =>
    case Title =>
    case Undef =>
    case Xdef =>
    case Ydef =>
    case Zdef =>
    case Tdef =>
    case Vars =>
  }

  /** The first word of a line `w rest` with a space after `w` is `w`. */
  lemma FirstWordBeforeSpace(w: string, rest: string)
    requires ' ' !in w
    ensures FirstWord(w + " " + rest) == w
  {
    IndexOfAfter(w, ' ', rest);
    assert (w + " " + rest)[..|w|] == w;
  }

  /** A line that starts with a keyword and a space runs that keyword's
      handler. */
  lemma DispatchKeywordLine(k: Keyword, rest: string)
    ensures Dispatch(KeywordName(k) + " " + rest) == Ok(Some(k))
  {
    assert ' ' !in KeywordName(k);
    FirstWordBeforeSpace(KeywordName(k), rest);
    KeywordOfName(k);
  }

  /** A first word that is not a keyword as written but is one after
      lower-casing (`DSET`, `Vars`) is recognised, then looked up as
      written, and fails. */
  lemma {:induction false} CapitalKeywordFails(w: string, rest: string)
    requires KeywordOf(w).None? && KeywordOf(Lower(w)).Some? && ' ' !in w
    ensures Dispatch(w + " " + rest) == Err("KeyError: " + w)
  {
    FirstWordBeforeSpace(w, rest);
  }

  // ================================================================ dset

  /** The text after `dset`, stripped. */
  function DsetText(line: string): string {
    Strip(Drop(line, 4))
  }

  /** The path a `dset` line names: a leading `^` makes it relative to the
      descriptor's directory `dir`; an empty path raises IndexError. Both
      parsers share this. */
  function DsetPath(dir: string, line: string): (r: Result<string>)
    ensures r.Ok? <==> DsetText(line) != []
  {
    var p := DsetText(line);
    if p == [] then Err("IndexError: string index out of range")
    else if p[0] == '^' then Ok(JoinPath(dir, p[1..]))
    else Ok(p)
  }

  /** Whether a `dset` line names a template (reki only). */
  predicate DsetTemplate(line: string) {
    '%' in DsetText(line)
  }

  /** A `dset` line written as `dset <path>` gives the path back, and marks
      a template exactly when the path holds a `%`; written as
      `dset ^<file>` it names the file in the descriptor's directory. */
  lemma {:induction false} DsetLineRoundTrip(dir: string, p: string)
    requires p != [] && !IsSpace(p[0]) && !IsSpace(p[|p| - 1])
    ensures p[0] != '^' ==> DsetPath(dir, "dset " + p) == Ok(p)
    ensures p[0] == '^' ==> DsetPath(dir, "dset " + p) == Ok(JoinPath(dir, p[1..]))
    ensures DsetTemplate("dset " + p) <==> '%' in p
  {
    var line := "dset " + p;
    assert Drop(line, 4) == " " + p;
    StripLeftSpace(' ', p);
    assert StripLeft(" " + p) == p;
    StripNoSpace(p);
    assert DsetText(line) == p;
  }

  // ================================================================ options

  datatype Endian = Little | Big

  function EndianName(e: Endian): string {
    match e
    case Little => "little"
    case Big => "big"
  }

  /** `line[7:].strip().split(' ')`. */
  function OptionTokens(line: string): (r: seq<string>)
    ensures |r| >= 1
    ensures Join(r, " ") == Strip(Drop(line, 7))
  {
    JoinSplitOn(Strip(Drop(line, 7)), ' ');
    SplitOn(Strip(Drop(line, 7)), ' ')
  }

  /** An options line lists its words back, in order. */
  lemma {:induction false} OptionsRoundTrip(words: seq<string>)
    requires Words(words) && words != []
    ensures OptionTokens("options " + Join(words, " ")) == words
  {
    var s := Join(words, " ");
    var line := "options " + s;
    assert Drop(line, 7) == " " + s;
    JoinWordsStrip(words);
    JoinWordsEnds(words);
    StripLeftSpace(' ', s);
    assert StripLeft(" " + s) == s;
    assert Strip(" " + s) == Strip(s);
    assert forall k :: 0 <= k < |words| ==> ' ' !in words[k] by {
      forall k | 0 <= k < |words|
        ensures ' ' !in words[k]
      {
        assert NoSpace(words[k]);
      }
    }
    SplitOnJoin(words, ' ');
  }

  predicate IsEndianOption(o: string) {
    o == "big_endian" || o == "little_endian"
  }

  function EndianOption(o: string): Endian
    requires IsEndianOption(o)
  {
    if o == "big_endian" then Big else Little
  }

  /** The byte order after the options loop has read `opts`, starting from
      `e`. */
  function EndianAfter(e: Endian, opts: seq<string>): (r: Endian)
    ensures r == e || exists i :: 0 <= i < |opts| && IsEndianOption(opts[i]) && r == EndianOption(opts[i])
    decreases |opts|
  {
    if opts == [] then e
    else
      var prev := EndianAfter(e, opts[..|opts| - 1]);
      var o := opts[|opts| - 1];
      if o == "big_endian" then Big else if o == "little_endian" then Little else prev
  }

  /** No byte-order option at or after position `i`. */
  predicate NoEndianFrom(opts: seq<string>, i: nat) {
    forall j :: i <= j < |opts| ==> !IsEndianOption(opts[j])
  }

  /** Options without a byte order leave it as it was. */
  lemma {:induction false} EndianUnchanged(e: Endian, opts: seq<string>)
    requires NoEndianFrom(opts, 0)
    ensures EndianAfter(e, opts) == e
    decreases |opts|
  {
    if opts != [] {
      assert !IsEndianOption(opts[|opts| - 1]);
      assert NoEndianFrom(opts[..|opts| - 1], 0);
      EndianUnchanged(e, opts[..|opts| - 1]);
    }
  }

  /** The last `big_endian`/`little_endian` wins. */
  lemma {:induction false} LastEndianWins(e: Endian, opts: seq<string>, i: nat)
    requires i < |opts| && IsEndianOption(opts[i]) && NoEndianFrom(opts, i + 1)
    ensures EndianAfter(e, opts) == EndianOption(opts[i])
    decreases |opts|
  {
    if i < |opts| - 1 {
      var init := opts[..|opts| - 1];
      assert !IsEndianOption(opts[|opts| - 1]);
      assert init[i] == opts[i];
      assert NoEndianFrom(init, i + 1);
      LastEndianWins(e, init, i);
    }
  }

  /** `yrev` once set stays set. */
  function YrevAfter(y: bool, opts: seq<string>): (r: bool)
    ensures r <==> y || "yrev" in opts
    decreases |opts|
  {
    if opts == [] then y
    else YrevAfter(y, opts[..|opts| - 1]) || opts[|opts| - 1] == "yrev"
  }

  /** One more option word: the loop body of `_parse_options`. */
  lemma OptionsAfterNext(e: Endian, y: bool, opts: seq<string>, i: nat)
    requires i < |opts|
    ensures EndianAfter(e, opts[..i + 1]) ==
      if opts[i] == "big_endian" then Big else if opts[i] == "little_endian" then Little else EndianAfter(e, opts[..i])
    ensures YrevAfter(y, opts[..i + 1]) == (YrevAfter(y, opts[..i]) || opts[i] == "yrev")
  {
    assert opts[..i + 1][..i] == opts[..i];
  }

  // ================================================================ title, undef

  function TitleOf(line: string): string {
    Strip(Drop(line, 5))
  }

  /** `float(line[5:].strip())`. */
  function UndefOf(line: string): (r: Result<real>)
    ensures r.Ok? <==> ParseDecimal(Strip(Drop(line, 5))).Some?
  {
    match ParseDecimal(Strip(Drop(line, 5)))
    case None => Err("ValueError: could not convert string to float")
    case Some(x) => Ok(x)
  }

  // ================================================================ xdef, ydef, zdef

  /** `[start + step * n for n in range(count)]`. */
  function LinearValues(start: real, step: real, count: int): (vs: seq<real>)
    ensures |vs| == if count < 0 then 0 else count
    ensures forall i :: 0 <= i < |vs| ==> vs[i] == start + step * (i as real)
    decreases count
  {
    if count <= 0 then []
    else LinearValues(start, step, count - 1) + [start + step * ((count - 1) as real)]
  }

  /** `vals` are what `parse` reads from `tokens`, one each. */
  predicate ParsedAs(parse: string -> Option<real>, tokens: seq<string>, vals: seq<real>) {
    |vals| == |tokens| && forall i :: 0 <= i < |tokens| ==> parse(tokens[i]) == Some(vals[i])
  }

  /** `[parse(t) for t in tokens]`: fails at the first token `parse`
      rejects. Stated for any number syntax; `ParseFloats` is the case of
      `float()`. */
  function ParseEach(parse: string -> Option<real>, tokens: seq<string>): (r: Result<seq<real>>)
    ensures r.Ok? ==> ParsedAs(parse, tokens, r.value)
    ensures r.Err? ==> exists i :: 0 <= i < |tokens| && parse(tokens[i]).None?
    decreases |tokens|
  {
    if tokens == [] then Ok([])
    else
      var init := tokens[..|tokens| - 1];
      match ParseEach(parse, init)
      case Err(m) =>
        assert forall i :: 0 <= i < |init| ==> init[i] == tokens[i];
        Err(m)
      case Ok(vals) =>
        match parse(tokens[|tokens| - 1])
        case None => Err("ValueError: could not convert string to float")
        case Some(x) =>
          assert forall i :: 0 <= i < |init| ==> init[i] == tokens[i];
          Ok(vals + [x])
  }

  /** `[float(t) for t in tokens]`. */
  function ParseFloats(tokens: seq<string>): Result<seq<real>> {
    ParseEach(ParseDecimal, tokens)
  }

  /** Every value read is the number its token spells, and a failure
      points at a token that is not a number. */
  lemma ParseFloatsMeaning(tokens: seq<string>)
    ensures ParseFloats(tokens).Ok? ==> |ParseFloats(tokens).value| == |tokens|
    ensures ParseFloats(tokens).Ok? ==>
      forall i :: 0 <= i < |tokens| ==> ParseDecimal(tokens[i]) == Some(ParseFloats(tokens).value[i])
    ensures ParseFloats(tokens).Err? ==> exists i :: 0 <= i < |tokens| && ParseDecimal(tokens[i]).None?
  {
    var r := ParseEach(ParseDecimal, tokens);
    if r.Ok? {
      assert ParsedAs(ParseDecimal, tokens, r.value);
    }
  }

  /** A `linear` dimension from the lower-cased tokens of its line. The
      guard checks for four tokens but the step is the fifth. */
  function ParseLinear(tokens: seq<string>): (r: Result<Dimension>)
    ensures r.Ok? ==> |tokens| >= 5 && r.value.Linear?
    ensures r.Ok? ==> r.value.values == LinearValues(r.value.start, r.value.step, r.value.count)
  {
    if |tokens| < 4 then Err("parser error")
    else
      match ParseInt(tokens[1])
      case None => Err("ValueError: invalid literal for int()")
      case Some(count) =>
        match ParseDecimal(tokens[3])
        case None => Err("ValueError: could not convert string to float")
        case Some(start) =>
          if |tokens| < 5 then Err("IndexError: list index out of range")
          else
            match ParseDecimal(tokens[4])
            case None => Err("ValueError: could not convert string to float")
            case Some(step) => Ok(Linear(count, start, step, LinearValues(start, step, count)))
  }

  /** Four tokens pass the length guard and still fail. */
  lemma FourTokenLinearFails(tokens: seq<string>)
    requires |tokens| == 4
    ensures ParseLinear(tokens).Err?
  {
  }

  /** reki's `levels` continuation: while fewer than `count` values are
      known, the next line is read and every token on it is a value. The
      result is the values and the cursor on the last line read. */
  function CollectLevels(lines: seq<string>, cur: nat, acc: seq<real>, count: int): (r: Result<(seq<real>, nat)>)
    requires cur < |lines|
    ensures r.Ok? ==> cur <= r.value.1 < |lines| && |r.value.0| >= count && acc <= r.value.0
    decreases |lines| - cur
  {
    if |acc| >= count then Ok((acc, cur))
    else if cur + 1 >= |lines| then Err("IndexError: list index out of range")
    else
      var vals :- ParseFloats(SplitWs(lines[cur + 1]));
      CollectLevels(lines, cur + 1, acc + vals, count)
  }

  /** One more line of the reki `levels` continuation: its values are
      appended, as many as it has tokens, or its first bad token ends the
      reading. */
  lemma CollectLevelsNext(lines: seq<string>, cur: nat, acc: seq<real>, count: int)
    requires cur + 1 < |lines| && |acc| < count
    ensures var vals := ParseFloats(SplitWs(lines[cur + 1]));
      && (vals.Ok? ==> |vals.value| == |SplitWs(lines[cur + 1])|)
      && CollectLevels(lines, cur, acc, count) ==
         if vals.Err? then Err(vals.msg) else CollectLevels(lines, cur + 1, acc + vals.value, count)
  {
    var tokens := SplitWs(lines[cur + 1]);
    match ParseFloats(tokens)
    case Err(_) =>
    case Ok(vals) =>
      ParseFloatsMeaning(tokens);
  }

  /** Reading stops at the first line that completes the count: before the
      last line read, fewer than `count` values were known. */
  lemma {:induction false} CollectLevelsStopsEarly(lines: seq<string>, cur: nat, acc: seq<real>, count: int)
    requires cur < |lines|
    requires CollectLevels(lines, cur, acc, count).Ok?
    ensures var (vals, c) := CollectLevels(lines, cur, acc, count).value;
      c == cur || |vals| - |SplitWs(lines[c])| < count
    decreases |lines| - cur
  {
    if |acc| < count {
      var vals := ParseFloats(SplitWs(lines[cur + 1])).value;
      var r := CollectLevels(lines, cur + 1, acc + vals, count);
      assert r == CollectLevels(lines, cur, acc, count);
      CollectLevelsStopsEarly(lines, cur + 1, acc + vals, count);
      if r.value.1 == cur + 1 {
        assert r == Ok((acc + vals, cur + 1));
      }
    }
  }

  /** nwpc_data's `levels` continuation: one value per line, one line per
      missing value, each line read with `parse`. The walk is stated for
      any number syntax so that the proofs about it never look inside
      `float()`. */
  function CollectEachLine(parse: string -> Option<real>, lines: seq<string>, cur: nat, acc: seq<real>, count: int): (r: Result<(seq<real>, nat)>)
    requires cur < |lines|
    ensures r.Ok? ==> var missing := if count > |acc| then count - |acc| else 0;
      && r.value.1 == cur + missing && r.value.1 < |lines|
      && |r.value.0| == |acc| + missing && acc <= r.value.0
    decreases |lines| - cur
  {
    if |acc| >= count then Ok((acc, cur))
    else if cur + 1 >= |lines| then Err("IndexError: list index out of range")
    else
      match parse(lines[cur + 1])
      case None => Err("ValueError: could not convert string to float")
      case Some(x) => CollectEachLine(parse, lines, cur + 1, acc + [x], count)
  }

  /** Value `i` beyond the inline ones is what `parse` reads from the
      `i`-th line after the header. */
  lemma {:induction false} CollectEachLineAt(parse: string -> Option<real>, lines: seq<string>, cur: nat, acc: seq<real>, count: int, i: nat)
    requires cur < |lines|
    requires CollectEachLine(parse, lines, cur, acc, count).Ok?
    requires |acc| <= i < |CollectEachLine(parse, lines, cur, acc, count).value.0|
    ensures cur + 1 + i - |acc| < |lines|
    ensures parse(lines[cur + 1 + i - |acc|]) == Some(CollectEachLine(parse, lines, cur, acc, count).value.0[i])
    decreases |lines| - cur
  {
    var x := parse(lines[cur + 1]).value;
    if i > |acc| {
      CollectEachLineAt(parse, lines, cur + 1, acc + [x], count, i);
      assert (cur + 1) + 1 + i - |acc + [x]| == cur + 1 + i - |acc|;
    }
  }

  function CollectLevelsLegacy(lines: seq<string>, cur: nat, acc: seq<real>, count: int): Result<(seq<real>, nat)>
    requires cur < |lines|
  {
    CollectEachLine(ParseDecimal, lines, cur, acc, count)
  }

  /** The legacy continuation takes value `i` from line
      `cur + 1 + i - |acc|`, read with `float()`. */
  lemma CollectLevelsLegacyAt(lines: seq<string>, cur: nat, acc: seq<real>, count: int, i: nat)
    requires cur < |lines|
    requires CollectLevelsLegacy(lines, cur, acc, count).Ok?
    requires |acc| <= i < |CollectLevelsLegacy(lines, cur, acc, count).value.0|
    ensures cur + 1 + i - |acc| < |lines|
    ensures ParseDecimal(lines[cur + 1 + i - |acc|]) == Some(CollectLevelsLegacy(lines, cur, acc, count).value.0[i])
  {
    CollectEachLineAt(ParseDecimal, lines, cur, acc, count, i);
  }

  /** The tokens of a dimension line: lower-cased, then split. */
  function DimensionTokens(line: string): seq<string> {
    SplitWs(Lower(line))
  }

  /** An `xdef`/`ydef`/`zdef` entry starting on line `cur`, with the cursor
      on the last line it used. `legacy` selects nwpc_data's one value per
      continuation line. */
  function ParseDimension(lines: seq<string>, cur: nat, legacy: bool): (r: Result<(Dimension, nat)>)
    requires cur < |lines|
    ensures r.Ok? ==> cur <= r.value.1 < |lines|
    ensures r.Ok? ==> |DimensionTokens(lines[cur])| >= 3
    ensures r.Ok? && r.value.0.Levels? ==> |r.value.0.values| >= r.value.0.count
    ensures r.Ok? && r.value.0.Linear? ==> r.value.1 == cur
  {
    var tokens := DimensionTokens(lines[cur]);
    if |tokens| < 3 then Err("IndexError: list index out of range")
    else if tokens[2] == "linear" then
      var d :- ParseLinear(tokens);
      Ok((d, cur))
    else if tokens[2] == "levels" then
      match ParseInt(tokens[1])
      case None => Err("ValueError: invalid literal for int()")
      case Some(count) =>
        var inline :- ParseFloats(tokens[3..]);
        var (vals, c) :- if legacy then CollectLevelsLegacy(lines, cur, inline, count)
                         else CollectLevels(lines, cur, inline, count);
        Ok((Levels(count, vals), c))
    else Err("dimension_type is not supported")
  }

  // ================================================================ tdef

  /** `%Hz%d%b%Y` on a lower-cased twelve-character start time: two-digit
      hour, `z`, two-digit day, month abbreviation, four-digit year, and a
      date that exists. Other lengths, and a `:` in position 3, are not
      supported. */
  function ParseStartTime(s: string): (r: Result<Timestamp>)
    ensures r.Ok? ==> |s| == 12 && Lower(s)[2] == 'z' && ToCivil(r.value).minute == 0
  {
    if |s| < 4 then Err("IndexError: string index out of range")
    else if s[3] == ':' then Err("Not supported time with hh")
    else if |s| != 12 then Err("start time not supported")
    else
      var t := Lower(s);
      if !(AllDigits(t[..2]) && t[2] == 'z' && AllDigits(t[3..5]) && AllDigits(t[8..])) then
        Err("ValueError: time data does not match format")
      else
        match ParseMonthAbbr(t[5..8])
        case None => Err("ValueError: time data does not match format")
        case Some(month) =>
          match MakeTimestamp(DigitsValue(t[8..]), month, DigitsValue(t[3..5]), DigitsValue(t[..2]), 0)
          case None => Err("ValueError: day is out of range for month")
          case Some(ts) => Ok(ts)
  }

  /** The descriptor spelling of a start time on the hour: `HHzDDmonYYYY`. */
  function FormatStartTime(dt: DateTime): string
    requires 1 <= dt.month <= 12
  {
    FormatInt(dt.hour, 2) + "z" + FormatInt(dt.day, 2) + MonthAbbrs[dt.month - 1] + FormatInt(dt.year, 4)
  }

  /** A digit string of a given width, as `FormatInt` writes small numbers. */
  lemma {:induction false} PaddedDigits(n: nat, width: nat)
    requires 1 <= width && n < Pow10(width)
    ensures var s := FormatInt(n, width);
      |s| == width && AllDigits(s) && DigitsValue(s) == n
  {
    NatDigitsFit(n, width);
    ZeroPadValue(n, width);
  }

  lemma PaddedWidth(n: nat, width: nat)
    requires 1 <= width && n < Pow10(width)
    ensures |FormatInt(n, width)| == width && AllDigits(FormatInt(n, width))
  {
    NatDigitsFit(n, width);
  }

  lemma {:induction false} NatDigitsFit(n: nat, width: nat)
    requires 1 <= width && n < Pow10(width)
    ensures |NatToStr(n)| <= width
    decreases width
  {
    if n >= 10 {
      assert width >= 2;
      NatDigitsFit(n / 10, width - 1);
    }
  }

  lemma MonthAbbrLower(m: int)
    requires 1 <= m <= 12
    ensures |MonthAbbrs[m - 1]| == 3 && NoUpper(MonthAbbrs[m - 1])
  {
  }

  lemma {:induction false} MonthAbbrParses(m: int)
    requires 1 <= m <= 12
    ensures ParseMonthAbbr(MonthAbbrs[m - 1]) == Some(m)
  {
    var r := ParseMonthAbbr(MonthAbbrs[m - 1]);
    assert r.Some?;
    MonthAbbrsDistinct(r.value, m);
  }

  lemma MonthAbbrsDistinct(a: int, b: int)
    requires 1 <= a <= 12 && 1 <= b <= 12 && MonthAbbrs[a - 1] == MonthAbbrs[b - 1]
    ensures a == b
  {
  }

  /** A formatted start time has no upper-case letter. */
  lemma {:induction false} StartTimeLower(dt: DateTime)
    requires ValidDate(dt) && dt.year <= 9999
    ensures Lower(FormatStartTime(dt)) == FormatStartTime(dt)
  {
    StartTimeNoUpper(dt);
    LowerNoUpper(FormatStartTime(dt));
  }

  lemma {:induction false} StartTimeNoUpper(dt: DateTime)
    requires ValidDate(dt) && dt.year <= 9999
    ensures NoUpper(FormatStartTime(dt))
  {
    var hh, dd, mon, yy := FormatInt(dt.hour, 2), FormatInt(dt.day, 2), MonthAbbrs[dt.month - 1], FormatInt(dt.year, 4);
    assert FormatStartTime(dt) == hh + "z" + dd + mon + yy;
    PaddedWidth(dt.hour, 2);
    PaddedWidth(dt.day, 2);
    PaddedWidth(dt.year, 4);
    DigitsNoUpper(hh);
    DigitsNoUpper(dd);
    DigitsNoUpper(yy);
    MonthAbbrLower(dt.month);
    assert NoUpper("z");
    NoUpperAppend(hh, "z");
    NoUpperAppend(hh + "z", dd);
    NoUpperAppend(hh + "z" + dd, mon);
    NoUpperAppend(hh + "z" + dd + mon, yy);
  }

  /** The pieces of a formatted start time: two digits, a `z`, two digits,
      a month abbreviation and four digits. */
  lemma {:induction false} StartTimeText(dt: DateTime)
    requires ValidDate(dt) && dt.year <= 9999
    ensures var s := FormatStartTime(dt);
      && |s| == 12 && s[2] == 'z' && s[3] != ':'
      && s[..2] == FormatInt(dt.hour, 2) && s[3..5] == FormatInt(dt.day, 2)
      && s[5..8] == MonthAbbrs[dt.month - 1] && s[8..] == FormatInt(dt.year, 4)
  {
    var hh, dd, mon, yy := FormatInt(dt.hour, 2), FormatInt(dt.day, 2), MonthAbbrs[dt.month - 1], FormatInt(dt.year, 4);
    var s := FormatStartTime(dt);
    assert s == hh + "z" + dd + mon + yy;
    PaddedWidth(dt.hour, 2);
    PaddedWidth(dt.day, 2);
    PaddedWidth(dt.year, 4);
    assert |mon| == 3;
    Pieces(hh, "z", dd, mon, yy);
  }

  /** Where each piece of `a + b + c + d + e` lies, for pieces of 2, 1, 2,
      3 and 4 characters. */
  lemma Pieces(a: string, b: string, c: string, d: string, e: string)
    requires |a| == 2 && |b| == 1 && |c| == 2 && |d| == 3 && |e| == 4
    ensures var s := a + b + c + d + e;
      && |s| == 12 && s[2] == b[0] && s[3] == c[0]
      && s[..2] == a && s[3..5] == c && s[5..8] == d && s[8..] == e
  {
    var s := a + b + c + d + e;
    assert s[..2] == a;
    assert s[3..5] == c;
    assert s[5..8] == d;
    assert s[8..] == e;
  }

  /** A start time on the hour, written in the descriptor's spelling, reads
      back as the same time. */
  lemma {:induction false} StartTimeRoundTrip(dt: DateTime)
    requires ValidDate(dt) && dt.minute == 0 && dt.year <= 9999
    ensures ParseStartTime(FormatStartTime(dt)) == Ok(FromCivil(dt))
  {
    StartTimeText(dt);
    StartTimeLower(dt);
    PaddedDigits(dt.hour, 2);
    PaddedDigits(dt.day, 2);
    PaddedDigits(dt.year, 4);
    MonthAbbrParses(dt.month);
    var t := Lower(FormatStartTime(dt));
    assert t[..2] == FormatInt(dt.hour, 2) && t[3..5] == FormatInt(dt.day, 2);
    assert t[5..8] == MonthAbbrs[dt.month - 1] && t[8..] == FormatInt(dt.year, 4);
    assert ParseMonthAbbr(t[5..8]) == Some(dt.month);
    assert dt == DateTime(DigitsValue(t[8..]), dt.month, DigitsValue(t[3..5]), DigitsValue(t[..2]), 0);
    assert MakeTimestamp(DigitsValue(t[8..]), dt.month, DigitsValue(t[3..5]), DigitsValue(t[..2]), 0) == Some(FromCivil(dt));
  }

  /** The units of a `tdef` increment. */
  datatype TimeUnit = Mn | Hr | Dy

  function UnitName(u: TimeUnit): string {
    match u
    case Mn => "mn"
    case Hr => "hr"
    case Dy => "dy"
  }

  function UnitMinutes(u: TimeUnit): nat {
    match u
    case Mn => 1
    case Hr => MinutesPerHour
    case Dy => MinutesPerDay
  }

  /** `int(s[:-2])` scaled by the unit in `s[-2:]`; months and years are
      not supported. */
  function ParseIncrement(s: string): (r: Result<Duration>)
    ensures |s| <= 2 ==> r.Err?
    ensures r.Ok? ==> |s| > 2 && s[|s| - 2..] in {"mn", "hr", "dy"}
  {
    var n := if |s| >= 2 then |s| - 2 else 0;
    match ParseInt(s[..n])
    case None => Err("ValueError: invalid literal for int()")
    case Some(v) =>
      var unit := s[n..];
      if unit == "mn" then Ok(v)
      else if unit == "hr" then Ok(v * MinutesPerHour)
      else if unit == "dy" then Ok(v * MinutesPerDay)
      else Err(unit + " is not supported")
  }

  /** An increment written as a number and a unit reads back as that many
      units. */
  lemma {:induction false} IncrementRoundTrip(v: int, u: TimeUnit)
    ensures ParseIncrement(IntToStr(v) + UnitName(u)) == Ok(v * UnitMinutes(u))
  {
    FormatIntParses(v, 0);
    IncrementOf(IntToStr(v), UnitName(u), v);
    UnitScale(u, v);
  }

  /** Each unit's name selects its own scale. */
  lemma UnitScale(u: TimeUnit, v: int)
    ensures var unit := UnitName(u);
      (if unit == "mn" then Ok(v)
       else if unit == "hr" then Ok(v * MinutesPerHour)
       else if unit == "dy" then Ok(v * MinutesPerDay)
       else Err(unit + " is not supported")) == Ok(v * UnitMinutes(u))
  {
    match u
    case Mn =>
    case Hr =>
      assert "hr" != "mn";
    case Dy =>
      assert "dy" != "mn" && "dy" != "hr";
  }

  /** An increment is its number scaled by its two-letter unit. */
  lemma IncrementOf(d: string, unit: string, v: int)
    requires |unit| == 2 && ParseInt(d) == Some(v)
    ensures ParseIncrement(d + unit)
      == if unit == "mn" then Ok(v)
         else if unit == "hr" then Ok(v * MinutesPerHour)
         else if unit == "dy" then Ok(v * MinutesPerDay)
         else Err(unit + " is not supported")
  {
    IncrementPieces(d, unit);
  }

  /** A number followed by a two-letter unit splits back into the two. */
  lemma IncrementPieces(d: string, unit: string)
    requires |unit| == 2
    ensures var s := d + unit; |s| >= 2 && s[..|s| - 2] == d && s[|s| - 2..] == unit
  {
  }

  /** A month or year increment fails. */
  lemma MonthIncrementFails()
    ensures ParseIncrement("1mo").Err?
  {
    assert "1mo"[..1] == "1";
    assert "1mo"[1..] == "mo";
  }

  /** `[start + step * i for i in range(count)]`, failing once a time
      falls before the calendar's first minute. The times change linearly,
      so only the first and the last need checking. */
  function TimeValues(start: Timestamp, step: Duration, count: int): (r: Result<seq<Timestamp>>)
    ensures r.Ok? <==> count <= 0 || start + step * (count - 1) >= 0
    ensures r.Ok? ==> |r.value| == (if count < 0 then 0 else count)
    ensures r.Ok? ==> forall i :: 0 <= i < |r.value| ==> r.value[i] == start + step * i
    decreases count
  {
    if count <= 0 then Ok([])
    else
      assert count >= 2 ==> step * (count - 1) == step * (count - 2) + step;
      var prev :- TimeValues(start, step, count - 1);
      match Shift(start, step * (count - 1))
      case None => Err("OverflowError: date value out of range")
      case Some(t) => Ok(prev + [t])
  }

  /** The `tdef` entry of a line `tdef <count> linear <start> <increment>`. */
  function TdefOf(line: string): (r: Result<TimeDef>)
    ensures r.Ok? ==> var parts := SplitWs(Strip(line));
      && |parts| == 5 && parts[2] == "linear"
      && ParseInt(parts[1]) == Some(r.value.count)
      && ParseStartTime(parts[3]) == Ok(r.value.start)
      && ParseIncrement(parts[4]) == Ok(r.value.step)
      && TimeValues(r.value.start, r.value.step, r.value.count) == Ok(r.value.values)
  {
    var parts := SplitWs(Strip(line));
    if |parts| < 3 then Err("IndexError: list index out of range")
    else if parts[2] != "linear" then Err("AssertionError")
    else if |parts| != 5 then Err("AssertionError")
    else
      match ParseInt(parts[1])
      case None => Err("ValueError: invalid literal for int()")
      case Some(count) =>
        var start :- ParseStartTime(parts[3]);
        var step :- ParseIncrement(parts[4]);
        var values :- TimeValues(start, step, count);
        Ok(TimeDef(count, start, step, values))
  }

  // ================================================================ vars

  /** The count on the `vars` line, which must hold exactly two tokens. */
  function VarsCount(line: string): (r: Result<int>)
    ensures r.Ok? ==> |SplitWs(Strip(line))| == 2 && ParseInt(SplitWs(Strip(line))[1]) == Some(r.value)
  {
    var parts := SplitWs(Strip(line));
    if |parts| != 2 then Err("AssertionError")
    else
      match ParseInt(parts[1])
      case None => Err("ValueError: invalid literal for int()")
      case Some(n) => Ok(n)
  }

  /** One variable line: name, integer level count, units, and a
      description made of the remaining tokens joined by single spaces. */
  function VarLine(line: string): (r: Result<VarDef>)
    ensures r.Ok? <==> |SplitWs(Strip(line))| >= 3 && ParseInt(SplitWs(Strip(line))[1]).Some?
  {
    var parts := SplitWs(Strip(line));
    if |parts| < 2 then Err("IndexError: list index out of range")
    else
      match ParseInt(parts[1])
      case None => Err("ValueError: invalid literal for int()")
      case Some(levels) =>
        if |parts| < 3 then Err("IndexError: list index out of range")
        else Ok(VarDef(parts[0], levels, parts[2], Join(parts[3..], " ")))
  }

  lemma IntToStrWord(n: int)
    ensures IntToStr(n) != [] && NoSpace(IntToStr(n))
  {
    if n < 0 {
      var d := ZeroPad(-n, -1);
      assert IntToStr(n) == "-" + d;
      assert forall i :: 0 < i < |IntToStr(n)| ==> IntToStr(n)[i] == d[i - 1];
    }
  }

  /** A variable written as a line of words reads back as the same
      variable: the description's own spacing is the only thing a line can
      lose, and single spaces survive. */
  lemma {:induction false} VarLineRoundTrip(name: string, levels: int, units: string, words: seq<string>)
    requires name != [] && NoSpace(name) && units != [] && NoSpace(units) && Words(words)
    ensures VarLine(Join([name, IntToStr(levels), units] + words, " ")) ==
      Ok(VarDef(name, levels, units, Join(words, " ")))
  {
    var parts := [name, IntToStr(levels), units] + words;
    IntToStrWord(levels);
    WordsCons(units, words);
    assert [units] + words == parts[2..];
    WordsCons(IntToStr(levels), parts[2..]);
    assert [IntToStr(levels)] + parts[2..] == parts[1..];
    WordsCons(name, parts[1..]);
    assert [name] + parts[1..] == parts;
    JoinWordsStrip(parts);
    SplitJoinWords(parts);
    FormatIntParses(levels, 0);
    assert parts[3..] == words;
  }

  /** The `n` lines after line `cur`, each read with `read`, in order;
      the first line that fails stops the reading. */
  function ReadEach<T>(read: string -> Result<T>, lines: seq<string>, cur: nat, n: int): (r: Result<seq<T>>)
    ensures r.Ok? ==> |r.value| == (if n < 0 then 0 else n)
    ensures r.Ok? && n > 0 ==> cur + n < |lines|
    decreases n
  {
    if n <= 0 then Ok([])
    else
      match ReadEach(read, lines, cur, n - 1)
      case Err(e) => Err(e)
      case Ok(prev) =>
        if cur + n >= |lines| then Err("IndexError: list index out of range")
        else
          match read(lines[cur + n])
          case Err(e) => Err(e)
          case Ok(v) => Ok(prev + [v])
  }

  /** One more line read: the loop body of `_parse_variables`. */
  lemma ReadEachNext<T>(read: string -> Result<T>, lines: seq<string>, cur: nat, n: nat, prev: seq<T>)
    requires ReadEach(read, lines, cur, n) == Ok(prev)
    ensures cur + n + 1 >= |lines| ==> ReadEach(read, lines, cur, n + 1).Err?
    ensures cur + n + 1 < |lines| && read(lines[cur + n + 1]).Err? ==> ReadEach(read, lines, cur, n + 1).Err?
    ensures cur + n + 1 < |lines| && read(lines[cur + n + 1]).Ok? ==>
      ReadEach(read, lines, cur, n + 1) == Ok(prev + [read(lines[cur + n + 1]).value])
  {
  }

  /** Item `i` is what `read` makes of line `cur + 1 + i`. */
  lemma {:induction false} ReadEachAt<T>(read: string -> Result<T>, lines: seq<string>, cur: nat, n: int, i: nat)
    requires ReadEach(read, lines, cur, n).Ok? && i < |ReadEach(read, lines, cur, n).value|
    ensures cur + 1 + i < |lines|
    ensures read(lines[cur + 1 + i]) == Ok(ReadEach(read, lines, cur, n).value[i])
    decreases n
  {
    var prev := ReadEach(read, lines, cur, n - 1);
    assert prev.Ok? && cur + n < |lines|;
    if i < n - 1 {
      ReadEachAt(read, lines, cur, n - 1, i);
    }
  }

  /** A line that fails stops the reading for good: asking for more lines
      fails too. */
  lemma {:induction false} ReadEachStops<T>(read: string -> Result<T>, lines: seq<string>, cur: nat, n: int, m: int)
    requires n <= m && ReadEach(read, lines, cur, n).Err?
    ensures ReadEach(read, lines, cur, m).Err?
    decreases m
  {
    if n < m {
      ReadEachStops(read, lines, cur, n, m - 1);
    }
  }

  /** The `n` variable lines after line `cur`, read in order. */
  function VarsFrom(lines: seq<string>, cur: nat, n: int): Result<seq<VarDef>> {
    ReadEach(VarLine, lines, cur, n)
  }

  /** Variable `i` is what `VarLine` reads from line `cur + 1 + i`. */
  lemma VarsFromAt(lines: seq<string>, cur: nat, n: int, i: nat)
    requires VarsFrom(lines, cur, n).Ok? && i < |VarsFrom(lines, cur, n).value|
    ensures cur + 1 + i < |lines|
    ensures VarLine(lines[cur + 1 + i]) == Ok(VarsFrom(lines, cur, n).value[i])
  {
    ReadEachAt(VarLine, lines, cur, n, i);
  }

  // ================================================================ file name inference

  /** The start and forecast time a descriptor's file name states. */
  datatype NameTimes = NameTimes(start: Timestamp, forecast: Duration)

  /** `%Y%m%d%H`: ten digits naming a valid hour. */
  function HourStamp(s: string): (r: Result<Timestamp>)
    ensures r.Ok? ==> |s| == 10 && AllDigits(s) && ToCivil(r.value).minute == 0
  {
    if |s| != 10 || !AllDigits(s) then Err("ValueError: time data does not match format")
    else
      match MakeTimestamp(DigitsValue(s[..4]), DigitsValue(s[4..6]), DigitsValue(s[6..8]), DigitsValue(s[8..]), 0)
      case None => Err("ValueError: time data does not match format")
      case Some(t) => Ok(t)
  }

  /** `re.match(r"[0-9]{15}", fn)`: a GRAPES MESO name. */
  predicate MesoName(fn: string) {
    |fn| >= 15 && AllDigits(fn[..15])
  }

  /** `re.match(r"[0-9]{10}_[0-9]{3}", fn)`: a GRAPES GFS name. */
  predicate GfsName(fn: string) {
    |fn| >= 14 && AllDigits(fn[..10]) && fn[10] == '_' && AllDigits(fn[11..14])
  }

  /** The forecast hours reki reads from the text after `post.ctl_` or
      `model.ctl_`, as written: characters 11..13 of a MESO name, and
      everything from character 12 on of a GFS name. */
  function RekiForecastAsWritten(fn: string): (r: Result<Option<Duration>>)
    ensures r.Ok? && r.value.Some? ==> MesoName(fn) || GfsName(fn)
  {
    if MesoName(fn) then Ok(Some(DigitsValue(fn[11..14]) * MinutesPerHour))
    else if GfsName(fn) then
      match ParseInt(fn[12..])
      case None => Err("ValueError: invalid literal for int()")
      case Some(h) => Ok(Some(h * MinutesPerHour))
    else Ok(None)
  }

  /** The forecast hours those names carry: the three digits after the ten
      digits of the start time (characters 10..12 of a MESO name,
      characters 11..13 of a GFS name). */
  function RekiForecast(fn: string): (r: Option<Duration>)
    ensures r.Some? <==> MesoName(fn) || GfsName(fn)
  {
    if MesoName(fn) then Some(DigitsValue(fn[10..13]) * MinutesPerHour)
    else if GfsName(fn) then Some(DigitsValue(fn[11..14]) * MinutesPerHour)
    else None
  }

  /** The names `_parse_ctl_file_name` recognises in reki. */
  predicate RekiModelName(name: string) {
    StartsWith(name, "post.ctl_") || StartsWith(name, "model.ctl_")
  }

  /** The text after the first `_` of the name. */
  function AfterUnderscore(name: string): string {
    match IndexOf(name, '_')
    case None => name
    case Some(i) => name[i + 1..]
  }

  /** reki's file-name inference as written: the start time from the ten
      digits after the first `_`, the forecast from where the code reads
      it. */
  function RekiNameTimesAsWritten(name: string): (r: Result<Option<NameTimes>>)
    ensures !RekiModelName(name) ==> r == Ok(None)
    ensures r.Ok? && r.value.Some? ==>
      && (MesoName(AfterUnderscore(name)) || GfsName(AfterUnderscore(name)))
      && HourStamp(AfterUnderscore(name)[..10]) == Ok(r.value.value.start)
      && RekiForecastAsWritten(AfterUnderscore(name)) == Ok(Some(r.value.value.forecast))
  {
    if !RekiModelName(name) then Ok(None)
    else
      var fn := AfterUnderscore(name);
      if !(MesoName(fn) || GfsName(fn)) then Ok(None)
      else
        var start :- HourStamp(fn[..10]);
        var f :- RekiForecastAsWritten(fn);
        if f.None? then Ok(None) else Ok(Some(NameTimes(start, f.value)))
  }

  /** reki's file-name inference with the forecast digits read where the
      names hold them. */
  function RekiNameTimes(name: string): (r: Result<Option<NameTimes>>)
    ensures !RekiModelName(name) ==> r == Ok(None)
    ensures r.Ok? && r.value.Some? ==> RekiForecast(AfterUnderscore(name)) == Some(r.value.value.forecast)
  {
    if !RekiModelName(name) then Ok(None)
    else
      var fn := AfterUnderscore(name);
      match RekiForecast(fn)
      case None => Ok(None)
      case Some(f) =>
        var start :- HourStamp(fn[..10]);
        Ok(Some(NameTimes(start, f)))
  }

  /** `post.ctl_` followed by fifteen digits (nwpc_data). */
  predicate LegacyMesoName(name: string) {
    |name| >= 24 && AllDigits(name[9..24])
  }

  /** `post.ctl_` followed by ten digits, `_` and three digits (nwpc_data). */
  predicate LegacyGfsName(name: string) {
    |name| >= 23 && AllDigits(name[9..19]) && name[19] == '_' && AllDigits(name[20..23])
  }

  lemma LegacyMesoDigits(name: string)
    requires LegacyMesoName(name)
    ensures AllDigits(name[19..22])
  {
    var t := name[9..24];
    forall k | 0 <= k < 3
      ensures IsDigit(name[19..22][k])
    {
      assert name[19..22][k] == t[10 + k];
    }
  }

  /** Python's `s[i:j]` for `0 <= i <= j`. */
  function Slice(s: string, i: nat, j: nat): string
    requires i <= j
  {
    Take(Drop(s, i), j - i)
  }

  /** nwpc_data's forecast hours as written: `name[19:22]` for MESO, and
      `name[21:24]` for GFS. */
  function LegacyForecastAsWritten(name: string): (r: Result<Option<Duration>>)
    ensures r.Ok? && r.value.Some? ==> LegacyMesoName(name) || LegacyGfsName(name)
  {
    if LegacyMesoName(name) then
      LegacyMesoDigits(name);
      Ok(Some(DigitsValue(name[19..22]) * MinutesPerHour))
    else if LegacyGfsName(name) then
      match ParseInt(Slice(name, 21, 24))
      case None => Err("ValueError: invalid literal for int()")
      case Some(h) => Ok(Some(h * MinutesPerHour))
    else Ok(None)
  }

  /** nwpc_data's forecast hours read where the names hold them:
      `name[19:22]` for MESO and `name[20:23]` for GFS. */
  function LegacyForecast(name: string): (r: Option<Duration>)
    ensures r.Some? <==> LegacyMesoName(name) || LegacyGfsName(name)
  {
    if LegacyMesoName(name) then
      LegacyMesoDigits(name);
      Some(DigitsValue(name[19..22]) * MinutesPerHour)
    else if LegacyGfsName(name) then Some(DigitsValue(name[20..23]) * MinutesPerHour)
    else None
  }

  /** nwpc_data's file-name inference as written: the start time from the
      ten digits after `post.ctl_`, the forecast from where the code reads
      it. */
  function LegacyNameTimesAsWritten(name: string): (r: Result<Option<NameTimes>>)
    ensures !StartsWith(name, "post.ctl_") ==> r == Ok(None)
    ensures r.Ok? && r.value.Some? ==>
      && (LegacyMesoName(name) || LegacyGfsName(name))
      && HourStamp(name[9..19]) == Ok(r.value.value.start)
      && LegacyForecastAsWritten(name) == Ok(Some(r.value.value.forecast))
  {
    if !StartsWith(name, "post.ctl_") then Ok(None)
    else if !(LegacyMesoName(name) || LegacyGfsName(name)) then Ok(None)
    else
      var start :- HourStamp(name[9..19]);
      var f :- LegacyForecastAsWritten(name);
      if f.None? then Ok(None) else Ok(Some(NameTimes(start, f.value)))
  }

  /** nwpc_data's file-name inference with the GFS forecast digits read
      where the names hold them. */
  function LegacyNameTimes(name: string): (r: Result<Option<NameTimes>>)
    ensures !StartsWith(name, "post.ctl_") ==> r == Ok(None)
    ensures r.Ok? && r.value.Some? ==> LegacyForecast(name) == Some(r.value.value.forecast)
  {
    if !StartsWith(name, "post.ctl_") then Ok(None)
    else
      match LegacyForecast(name)
      case None => Ok(None)
      case Some(f) =>
        var start :- HourStamp(name[9..19]);
        Ok(Some(NameTimes(start, f)))
  }

  // ---------------------------------------------------------------- findings

  /** reki reads a MESO name's forecast from characters 11..13: the last
      two forecast digits and the first minute digit. */
  lemma {:induction false} RekiMesoAsWritten(fn: string)
    requires MesoName(fn)
    ensures AllDigits(fn[11..14])
    ensures RekiForecastAsWritten(fn) == Ok(Some(DigitsValue(fn[11..14]) * 60))
  {
  }

  /** reki reads a GFS name's forecast from character 12 on, which drops
      the first forecast digit. */
  lemma {:induction false} RekiGfsAsWritten(fn: string)
    requires GfsName(fn) && |fn| == 14
    ensures AllDigits(fn[12..])
    ensures RekiForecastAsWritten(fn) == Ok(Some(DigitsValue(fn[12..]) * 60))
  {
    assert fn[12..] == fn[11..14][1..];
    DigitsSlice(fn[11..14], 1, 3);
    DigitsParse(fn[12..]);
  }

  /** nwpc_data reads a GFS name's forecast from `name[21:24]`, which drops
      the first forecast digit. */
  lemma {:induction false} LegacyGfsAsWritten(name: string)
    requires LegacyGfsName(name) && |name| == 23
    ensures AllDigits(name[21..])
    ensures LegacyForecastAsWritten(name) == Ok(Some(DigitsValue(name[21..]) * 60))
  {
    assert !LegacyMesoName(name);
    assert name[21..] == name[20..23][1..];
    DigitsSlice(name[20..23], 1, 3);
    assert Slice(name, 21, 24) == name[21..];
    DigitsParse(name[21..]);
  }

  /** The corrected reki reading recovers the three forecast digits of
      either name form. */
  lemma {:induction false} RekiForecastReadsHours(start: string, fff: string, tail: string)
    requires |start| == 10 && AllDigits(start) && |fff| == 3 && AllDigits(fff)
    ensures RekiForecast(start + fff + "00" + tail) == Some(DigitsValue(fff) * 60)
    ensures RekiForecast(start + "_" + fff + tail) == Some(DigitsValue(fff) * 60)
  {
    var meso := start + fff + "00" + tail;
    assert meso[..15] == start + fff + "00";
    assert MesoName(meso);
    assert meso[10..13] == fff;
    var gfs := start + "_" + fff + tail;
    assert gfs[10] == '_';
    assert !MesoName(gfs) by { if |gfs| >= 15 { assert gfs[..15][10] == '_'; } }
    assert gfs[..10] == start && gfs[11..14] == fff;
    assert GfsName(gfs);
  }

  lemma LegacyGfsCorrected(name: string)
    requires LegacyGfsName(name) && |name| == 23
    ensures LegacyForecast(name) == Some(DigitsValue(name[20..23]) * 60)
  {
    assert !LegacyMesoName(name);
  }

  /** The corrected nwpc_data reading recovers the three forecast digits of
      either name form. */
  lemma {:induction false} LegacyForecastReadsHours(start: string, fff: string, tail: string)
    requires |start| == 10 && AllDigits(start) && |fff| == 3 && AllDigits(fff)
    ensures LegacyForecast("post.ctl_" + start + fff + "00" + tail) == Some(DigitsValue(fff) * 60)
    ensures LegacyForecast("post.ctl_" + start + "_" + fff + tail) == Some(DigitsValue(fff) * 60)
  {
    var meso := "post.ctl_" + start + fff + "00" + tail;
    assert |meso| >= 24;
    assert meso[9..24] == start + fff + "00";
    assert LegacyMesoName(meso);
    assert meso[19..22] == fff;
    var gfs := "post.ctl_" + start + "_" + fff + tail;
    assert |gfs| >= 23;
    assert gfs[19] == '_';
    assert !LegacyMesoName(gfs) by { if |gfs| >= 24 { assert gfs[9..24][10] == '_'; } }
    assert gfs[9..19] == start && gfs[20..23] == fff;
    assert LegacyGfsName(gfs);
  }

  /** The value of a two-digit and of a three-digit string. */
  lemma DigitsOf2(b: char, c: char)
    requires IsDigit(b) && IsDigit(c)
    ensures DigitsValue([b, c]) == DigitValue(b) * 10 + DigitValue(c)
  {
    assert [b, c][..1] == [b];
    assert DigitsValue([b]) == DigitValue(b) by { assert [b][..0] == []; }
  }

  lemma DigitsOf3(a: char, b: char, c: char)
    requires IsDigit(a) && IsDigit(b) && IsDigit(c)
    ensures DigitsValue([b, c]) == DigitValue(b) * 10 + DigitValue(c)
    ensures DigitsValue([a, b, c]) == DigitValue(a) * 100 + DigitValue(b) * 10 + DigitValue(c)
  {
    DigitsOf2(b, c);
    DigitsOf2(a, b);
    assert [a, b, c][..2] == [a, b];
  }

  /** Forecast 29 h of a MESO name: read as 290 h as written, 29 h once
      corrected. */
  lemma RekiMesoForecastShifted(start: string)
    requires |start| == 10 && AllDigits(start)
    ensures RekiForecastAsWritten(start + "02900") == Ok(Some(290 * 60))
    ensures RekiForecast(start + "02900") == Some(29 * 60)
  {
    var fn := start + "02900";
    assert fn[..15] == start + "02900";
    RekiMesoAsWritten(fn);
    assert fn[11..14] == ['2', '9', '0'];
    assert fn[10..13] == ['0', '2', '9'];
    DigitsOf3('2', '9', '0');
    DigitsOf3('0', '2', '9');
  }

  /** Forecast 120 h of a GFS name: read as 20 h as written, 120 h once
      corrected. */
  lemma RekiGfsForecastTruncated(start: string)
    requires |start| == 10 && AllDigits(start)
    ensures RekiForecastAsWritten(start + "_120") == Ok(Some(20 * 60))
    ensures RekiForecast(start + "_120") == Some(120 * 60)
  {
    var fn := start + "_120";
    RekiGfsShape(start, fn);
    RekiGfsAsWritten(fn);
    DigitsOf3('1', '2', '0');
  }

  lemma RekiGfsShape(start: string, fn: string)
    requires |start| == 10 && AllDigits(start) && fn == start + "_120"
    ensures |fn| == 14 && GfsName(fn) && !MesoName(fn)
    ensures fn[12..] == ['2', '0'] && fn[11..14] == ['1', '2', '0']
  {
    assert fn[..10] == start && fn[10] == '_' && fn[11..14] == ['1', '2', '0'];
  }

  /** nwpc_data on a GFS name with forecast 120 h: 20 h as written, 120 h
      once corrected. */
  lemma LegacyGfsForecastTruncated(start: string)
    requires |start| == 10 && AllDigits(start)
    ensures LegacyForecastAsWritten("post.ctl_" + start + "_120") == Ok(Some(20 * 60))
    ensures LegacyForecast("post.ctl_" + start + "_120") == Some(120 * 60)
  {
    var name := "post.ctl_" + start + "_120";
    LegacyGfsShape(start, name);
    LegacyGfsAsWritten(name);
    LegacyGfsCorrected(name);
    DigitsOf3('1', '2', '0');
  }

  lemma LegacyGfsShape(start: string, name: string)
    requires |start| == 10 && AllDigits(start) && name == "post.ctl_" + start + "_120"
    ensures |name| == 23 && LegacyGfsName(name)
    ensures name[21..] == ['2', '0'] && name[20..23] == ['1', '2', '0']
  {
    assert name[9..19] == start && name[19] == '_' && name[20..23] == ['1', '2', '0'];
  }
}
