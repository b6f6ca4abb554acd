/** The attributes of `GradsCtl` after each handler of
    reki/format/grads/grads_ctl.py and nwpc_data/format/grads/grads_ctl.py,
    written as values: the specification the parser classes of
    grads_parser.dfy are proved against. */
module GradsState {
  import opened Wrappers
  import opened Text
  import opened Calendar
  import opened GradsCatalog
  import opened GradsLines

  /** reki's parser, or nwpc_data's older one. */
  datatype Dialect = Reki | Legacy

  /** The attributes of a `GradsCtl`. A dimension, `tdef` or time that was
      never set is `None`; nwpc_data's object has no `xdef`..`vars`
      attributes before their lines are read, which `None` and `[]` stand
      for as well. */
  datatype CtlState = CtlState(
    dset: Option<string>,
    dsetTemplate: bool,
    title: string,
    options: seq<string>,
    dataEndian: Endian,
    yrev: bool,
    undef: Option<real>,
    startTime: Option<Timestamp>,
    forecastTime: Option<Duration>,
    xdef: Option<Dimension>,
    ydef: Option<Dimension>,
    zdef: Option<Dimension>,
    tdef: Option<TimeDef>,
    vars: seq<VarDef>,
    records: seq<Record>)

  /** `GradsCtl()`: reki starts without a data file, nwpc_data with `''`. */
  function Initial(d: Dialect): (st: CtlState)
    ensures st.options == [] && st.dataEndian == Little && !st.yrev && !st.dsetTemplate
    ensures st.startTime.None? && st.forecastTime.None? && st.records == []
    ensures st.dset == (if d == Reki then None else Some(""))
  {
    CtlState(if d == Reki then None else Some(""), false, "", [], Little, false, None,
             None, None, None, None, None, None, [], [])
  }

  // ================================================================ records

  /** `_generate_records` (reki) or `_parse_records` (nwpc_data) run on the
      state: reki subscripts `tdef` first, so a missing `tdef` fails even
      without variables; a variable with more levels than `zdef` lists
      fails, in reki only when some time step reaches it.  With no `zdef`
      line reki's attribute is `None`, while nwpc_data's descriptor has no
      such attribute at all. */
  function RecordsOf(st: CtlState, d: Dialect): (r: Result<seq<Record>>)
    ensures d == Reki ==>
      (r.Ok? <==> st.tdef.Some? && (st.tdef.value.values == [] || Covers(st.vars, ValuesOf(st.zdef))))
    ensures d == Legacy ==> (r.Ok? <==> Covers(st.vars, ValuesOf(st.zdef)))
  {
    var zvals := ValuesOf(st.zdef);
    var failure := if st.zdef.Some? then "IndexError: list index out of range"
                   else if d == Reki then "TypeError: 'NoneType' object is not subscriptable"
                   else "AttributeError: 'GradsCtl' object has no attribute 'zdef'";
    match d
    case Reki =>
      if st.tdef.None? then Err("TypeError: 'NoneType' object is not subscriptable")
      else if st.tdef.value.values != [] && !Covers(st.vars, zvals) then Err(failure)
      else Ok(Catalog(st.vars, zvals, st.tdef.value, st.dsetTemplate))
    case Legacy =>
      if !Covers(st.vars, zvals) then Err(failure)
      else Ok(StepRecords(st.vars, zvals, None, 0))
  }

  /** reki's catalog holds one block of records per time step, each as
      long as the variables' levels add up to; nwpc_data's holds one
      block. */
  lemma RecordsOfLength(st: CtlState, d: Dialect)
    requires RecordsOf(st, d).Ok?
    ensures d == Reki ==> |RecordsOf(st, d).value| == |st.tdef.value.values| * StepSize(st.vars)
    ensures d == Legacy ==> |RecordsOf(st, d).value| == StepSize(st.vars)
  {
    if d == Reki {
      StepOffsetIsProduct(st.vars, |st.tdef.value.values|);
    }
  }

  // ================================================================ readers

  /** The `vars` line and the variable lines after it, with the cursor on
      the last variable line. */
  function VarsBlock(lines: seq<string>, cur: nat): (r: Result<(seq<VarDef>, nat)>)
    requires cur < |lines|
    ensures r.Ok? ==> cur <= r.value.1 < |lines|
    ensures r.Ok? ==> r.value.1 == cur + |r.value.0|
  {
    match VarsCount(lines[cur])
    case Err(e) => Err(e)
    case Ok(n) => VarsAfterCount(cur, n, VarsFrom(lines, cur, n))
  }

  /** The block once its count `n` is known: the variables read, the
      cursor moved past them. */
  function VarsAfterCount(cur: nat, n: int, vs: Result<seq<VarDef>>): Result<(seq<VarDef>, nat)> {
    match vs
    case Err(e) => Err(e)
    case Ok(v) => Ok((v, if n > 0 then cur + n else cur))
  }

  /** The `vars` block read in two parts: the count, then the variable
      lines, the cursor on the last. */
  lemma VarsBlockOf(lines: seq<string>, cur: nat, count: int, vs: seq<VarDef>, c: nat)
    requires cur < |lines| && VarsCount(lines[cur]) == Ok(count) && VarsFrom(lines, cur, count) == Ok(vs)
    requires c == if count > 0 then cur + count else cur
    ensures VarsBlock(lines, cur) == Ok((vs, c))
  {
    assert VarsBlock(lines, cur) == VarsAfterCount(cur, count, VarsFrom(lines, cur, count));
  }

  /** The `vars` block fails with its count line or with its variable
      lines. */
  lemma VarsBlockFails(lines: seq<string>, cur: nat)
    requires cur < |lines|
    requires VarsCount(lines[cur]).Err? || VarsFrom(lines, cur, VarsCount(lines[cur]).value).Err?
    ensures VarsBlock(lines, cur).Err?
  {
  }

  /** How a line selects its handler, what the handlers read from the
      descriptor's lines, and the file-name times: the parse loop is stated
      over these, which is where the two parsers differ. */
  datatype Readers = Readers(
    dispatch: string -> Result<Option<Keyword>>,
    dsetPath: string -> Result<string>,
    marksTemplate: string -> bool,
    undef: string -> Result<real>,
    dimension: (seq<string>, nat) -> Result<(Dimension, nat)>,
    tdef: string -> Result<TimeDef>,
    vars: (seq<string>, nat) -> Result<(seq<VarDef>, nat)>,
    records: CtlState -> Result<seq<Record>>,
    nameTimes: Result<Option<NameTimes>>)

  /** Readers that leave the cursor inside the file, at or after where they
      started. */
  ghost predicate Sound(h: Readers) {
    && (forall lines: seq<string>, cur: nat ::
          cur < |lines| && h.dimension(lines, cur).Ok? ==> cur <= h.dimension(lines, cur).value.1 < |lines|)
    && (forall lines: seq<string>, cur: nat ::
          cur < |lines| && h.vars(lines, cur).Ok? ==> cur <= h.vars(lines, cur).value.1 < |lines|)
  }

  /** The times the descriptor's file name states, read the dialect's
      way, as its code reads them. */
  function NameTimesOf(d: Dialect, name: string): Result<Option<NameTimes>> {
    if d == Reki then RekiNameTimesAsWritten(name) else LegacyNameTimesAsWritten(name)
  }

  /** The readers of dialect `d` for the descriptor `name` in directory
      `dir`. */
  function ReadersOf(d: Dialect, dir: string, name: string): Readers {
    Readers(
      Dispatch,
      line => DsetPath(dir, line),
      line => d == Reki && DsetTemplate(line),
      UndefOf,
      (lines: seq<string>, cur: nat) =>
        if cur < |lines| then ParseDimension(lines, cur, d == Legacy) else Err("IndexError: list index out of range"),
      TdefOf,
      (lines: seq<string>, cur: nat) =>
        if cur < |lines| then VarsBlock(lines, cur) else Err("IndexError: list index out of range"),
      st => RecordsOf(st, d),
      NameTimesOf(d, name))
  }

  /** `h` reads lines as dialect `d` does for the descriptor `name` in
      directory `dir`. Each fact is triggered by the concrete reader, so a
      proof that only handles `h` never unfolds the readers. */
  ghost predicate Implements(h: Readers, d: Dialect, dir: string, name: string) {
    && (forall line {:trigger Dispatch(line)} :: h.dispatch(line) == Dispatch(line))
    && (forall line {:trigger DsetPath(dir, line)} :: h.dsetPath(line) == DsetPath(dir, line))
    && (forall line {:trigger DsetTemplate(line)} :: h.marksTemplate(line) == (d == Reki && DsetTemplate(line)))
    && (forall line {:trigger UndefOf(line)} :: h.undef(line) == UndefOf(line))
    && (forall lines: seq<string>, cur: nat, legacy: bool {:trigger ParseDimension(lines, cur, legacy)} ::
          cur < |lines| && legacy == (d == Legacy) ==> h.dimension(lines, cur) == ParseDimension(lines, cur, legacy))
    && (forall line {:trigger TdefOf(line)} :: h.tdef(line) == TdefOf(line))
    && (forall lines: seq<string>, cur: nat {:trigger VarsBlock(lines, cur)} ::
          cur < |lines| ==> h.vars(lines, cur) == VarsBlock(lines, cur))
    && (forall st {:trigger RecordsOf(st, d)} :: h.records(st) == RecordsOf(st, d))
    && (forall n {:trigger NameTimesOf(d, n)} :: n == name ==> h.nameTimes == NameTimesOf(d, n))
  }

  lemma ReadersOfSound(d: Dialect, dir: string, name: string)
    ensures Sound(ReadersOf(d, dir, name))
    ensures Implements(ReadersOf(d, dir, name), d, dir, name)
  {
  }

  // ================================================================ handlers

  /** `_parse_ctl_file_name`: only a state with neither time set takes the
      times the descriptor's file name states. */
  function Infer(st: CtlState, times: Result<Option<NameTimes>>): (r: Result<CtlState>)
    ensures st.startTime.Some? || st.forecastTime.Some? ==> r == Ok(st)
    ensures r.Ok? ==> r.value.(startTime := st.startTime, forecastTime := st.forecastTime) == st
  {
    if st.startTime.Some? || st.forecastTime.Some? then Ok(st)
    else
      var t :- times;
      match t
      case None => Ok(st)
      case Some(nt) => Ok(st.(startTime := Some(nt.start), forecastTime := Some(nt.forecast)))
  }

  /** The state after `_parse_dset`: a template, once marked, stays
      marked. */
  function DsetStep(h: Readers, st: CtlState, line: string): (r: Result<CtlState>)
    ensures r.Ok? ==> r.value.dsetTemplate == (st.dsetTemplate || h.marksTemplate(line))
  {
    var p :- h.dsetPath(line);
    Ok(st.(dset := Some(p), dsetTemplate := st.dsetTemplate || h.marksTemplate(line)))
  }

  /** The state after `_parse_options`: the words are appended, and the
      byte order and row flip are updated word by word. */
  function OptionsStep(st: CtlState, line: string): (r: CtlState)
    ensures r.options == st.options + OptionTokens(line)
  {
    var opts := OptionTokens(line);
    st.(options := st.options + opts,
        dataEndian := EndianAfter(st.dataEndian, opts),
        yrev := YrevAfter(st.yrev, opts))
  }

  /** The dimension a `xdef`/`ydef`/`zdef` handler stores, in the attribute
      the keyword names. */
  function SetDimension(st: CtlState, k: Keyword, dim: Dimension): CtlState
    requires k == Xdef || k == Ydef || k == Zdef
  {
    match k
    case Xdef => st.(xdef := Some(dim))
    case Ydef => st.(ydef := Some(dim))
    case Zdef => st.(zdef := Some(dim))
  }

  /** The state after `_parse_vars`: the variables, then the catalog made
      from them and the state as it stands. */
  function VarsStep(h: Readers, st: CtlState, lines: seq<string>, cur: nat): (r: Result<(CtlState, nat)>)
    requires cur < |lines| && Sound(h)
    ensures r.Ok? ==> cur <= r.value.1 < |lines|
    ensures r.Ok? ==> h.records(r.value.0.(records := st.records)) == Ok(r.value.0.records)
  {
    var (vs, c) :- h.vars(lines, cur);
    var st1 := st.(vars := vs);
    var recs :- h.records(st1);
    Ok((st1.(records := recs), c))
  }

  /** What handler `k` makes of the state, reading from line `cur` on, and
      the line its cursor ends on. */
  function Handle(h: Readers, k: Keyword, st: CtlState, lines: seq<string>, cur: nat): (r: Result<(CtlState, nat)>)
    requires cur < |lines| && Sound(h)
    ensures r.Ok? ==> cur <= r.value.1 < |lines|
  {
    var line := lines[cur];
    match k
    case CtlFileName =>
      var st1 :- Infer(st, h.nameTimes);
      Ok((st1, cur))
    case Dset =>
      var st1 :- DsetStep(h, st, line);
      Ok((st1, cur))
    case Options => Ok((OptionsStep(st, line), cur))
    case Title => Ok((st.(title := TitleOf(line)), cur))
    case Undef =>
      var u :- h.undef(line);
      Ok((st.(undef := Some(u)), cur))
    case Tdef =>
      var t :- h.tdef(line);
      Ok((st.(tdef := Some(t)), cur))
    case Vars => VarsStep(h, st, lines, cur)
    case _ =>
      var (dim, c) :- h.dimension(lines, cur);
      Ok((SetDimension(st, k, dim), c))
  }

  /** One turn of the parse loop on line `cur`: the handler the line
      selects, or nothing. */
  function Step(h: Readers, st: CtlState, lines: seq<string>, cur: nat): (r: Result<(CtlState, nat)>)
    requires cur < |lines| && Sound(h)
    ensures r.Ok? ==> cur <= r.value.1 < |lines|
    ensures h.dispatch(lines[cur]) == Ok(None) ==> r == Ok((st, cur))
  {
    match h.dispatch(lines[cur])
    case Err(e) => Err(e)
    case Ok(None) => Ok((st, cur))
    case Ok(Some(k)) => Handle(h, k, st, lines, cur)
  }

  /** The parse loop from line `cur` to the end: after each handler the
      cursor moves one line past where the handler left it. */
  function ParseFrom(h: Readers, st: CtlState, lines: seq<string>, cur: nat): Result<CtlState>
    requires Sound(h)
    decreases |lines| - cur
  {
    if cur >= |lines| then Ok(st)
    else
      match Step(h, st, lines, cur)
      case Err(e) => Err(e)
      case Ok((st1, c)) => ParseFrom(h, st1, lines, c + 1)
  }

  /** A turn of the parse loop that succeeds hands on its state and
      cursor. */
  lemma ParseFromNext(h: Readers, st: CtlState, lines: seq<string>, cur: nat, st1: CtlState, c: nat)
    requires cur < |lines| && Sound(h) && Step(h, st, lines, cur).Ok? && (st1, c) == Step(h, st, lines, cur).value
    ensures ParseFrom(h, st, lines, cur) == ParseFrom(h, st1, lines, c + 1)
  {
    var (s1, c1) := Step(h, st, lines, cur).value;
    assert ParseFrom(h, st, lines, cur) == ParseFrom(h, s1, lines, c1 + 1);
  }

  /** A turn of the parse loop that fails ends the parse. */
  lemma ParseFromStops(h: Readers, st: CtlState, lines: seq<string>, cur: nat)
    requires cur < |lines| && Sound(h) && Step(h, st, lines, cur).Err?
    ensures ParseFrom(h, st, lines, cur).Err?
  {
  }

  /** `line.strip()` for every line of the file. */
  function StripAll(raw: seq<string>): (lines: seq<string>)
    ensures |lines| == |raw|
    ensures forall i :: 0 <= i < |raw| ==> lines[i] == Strip(raw[i])
  {
    seq(|raw|, i requires 0 <= i < |raw| => Strip(raw[i]))
  }

  /** `parse(path)` on a parser holding `st`, for a descriptor whose lines
      are `raw`: the loop, then the file-name inference. */
  function ParseWith(h: Readers, st: CtlState, raw: seq<string>): Result<CtlState>
    requires Sound(h)
  {
    var st1 :- ParseFrom(h, st, StripAll(raw), 0);
    Infer(st1, h.nameTimes)
  }

  /** `GradsCtlParser().parse(path)` for a descriptor in directory `dir`
      named `name` whose lines are `raw`. */
  function ParseCtl(d: Dialect, dir: string, name: string, raw: seq<string>): Result<CtlState> {
    ReadersOfSound(d, dir, name);
    ParseWith(ReadersOf(d, dir, name), Initial(d), raw)
  }

  // ================================================================ properties

  /** Reading options in two batches sets the byte order as one batch. */
  lemma {:induction false} EndianAfterAppend(e: Endian, a: seq<string>, b: seq<string>)
    ensures EndianAfter(e, a + b) == EndianAfter(EndianAfter(e, a), b)
    decreases |b|
  {
    if b == [] {
      assert a + b == a;
    } else {
      assert (a + b)[..|a + b| - 1] == a + b[..|b| - 1];
      assert (a + b)[|a + b| - 1] == b[|b| - 1];
      EndianAfterAppend(e, a, b[..|b| - 1]);
    }
  }

  /** The byte order and row flip are those of all option words read so
      far, in order. */
  ghost predicate OptionsAgree(st: CtlState) {
    && st.dataEndian == EndianAfter(Little, st.options)
    && (st.yrev <==> "yrev" in st.options)
  }

  /** The attributes only `options` and `dset` lines write. */
  predicate SameOptions(a: CtlState, b: CtlState) {
    a.options == b.options && a.dataEndian == b.dataEndian && a.yrev == b.yrev && a.dsetTemplate == b.dsetTemplate
  }

  lemma HandleSameOptions(h: Readers, k: Keyword, st: CtlState, lines: seq<string>, cur: nat)
    requires cur < |lines| && Sound(h) && k != Options && k != Dset
    requires Handle(h, k, st, lines, cur).Ok?
    ensures SameOptions(st, Handle(h, k, st, lines, cur).value.0)
  {
    var st1 := Handle(h, k, st, lines, cur).value.0;
    match k
    case CtlFileName =>
      assert st1 == Infer(st, h.nameTimes).value;
    case Vars =>
      var (vs, c) := h.vars(lines, cur).value;
      assert st1 == st.(vars := vs, records := h.records(st.(vars := vs)).value);
    case Title =>
    case Undef =>
    case Tdef =>
    case Xdef =>
    case Ydef =>
    case Zdef =>
  }

  lemma StepKeepsOptions(h: Readers, st: CtlState, lines: seq<string>, cur: nat)
    requires cur < |lines| && Sound(h) && OptionsAgree(st)
    requires Step(h, st, lines, cur).Ok?
    ensures OptionsAgree(Step(h, st, lines, cur).value.0)
  {
    var st1 := Step(h, st, lines, cur).value.0;
    match h.dispatch(lines[cur])
    case Ok(None) =>
      assert st1 == st;
    case Ok(Some(k)) =>
      assert Step(h, st, lines, cur) == Handle(h, k, st, lines, cur);
      if k == Options {
        assert st1 == OptionsStep(st, lines[cur]);
        EndianAfterAppend(Little, st.options, OptionTokens(lines[cur]));
      } else if k == Dset {
        assert st1 == DsetStep(h, st, lines[cur]).value;
      } else {
        HandleSameOptions(h, k, st, lines, cur);
      }
  }

  lemma {:induction false} ParseFromKeepsOptions(h: Readers, st: CtlState, lines: seq<string>, cur: nat)
    requires Sound(h) && OptionsAgree(st)
    requires ParseFrom(h, st, lines, cur).Ok?
    ensures OptionsAgree(ParseFrom(h, st, lines, cur).value)
    decreases |lines| - cur
  {
    if cur < |lines| {
      var (st1, c) := Step(h, st, lines, cur).value;
      ParseFromNext(h, st, lines, cur, st1, c);
      StepKeepsOptions(h, st, lines, cur);
      ParseFromKeepsOptions(h, st1, lines, c + 1);
    }
  }

  /** After a whole descriptor, the byte order is the last `big_endian` or
      `little_endian` among all its option words (`little` if none), and
      the rows are flipped exactly when some options line says `yrev`. */
  lemma ParseCtlOptions(d: Dialect, dir: string, name: string, raw: seq<string>)
    requires ParseCtl(d, dir, name, raw).Ok?
    ensures OptionsAgree(ParseCtl(d, dir, name, raw).value)
  {
    var h := ReadersOf(d, dir, name);
    ReadersOfSound(d, dir, name);
    ParseFromKeepsOptions(h, Initial(d), StripAll(raw), 0);
  }

  lemma StepNoTemplate(h: Readers, st: CtlState, lines: seq<string>, cur: nat)
    requires cur < |lines| && Sound(h) && !st.dsetTemplate && forall line :: !h.marksTemplate(line)
    requires Step(h, st, lines, cur).Ok?
    ensures !Step(h, st, lines, cur).value.0.dsetTemplate
  {
    var st1 := Step(h, st, lines, cur).value.0;
    match h.dispatch(lines[cur])
    case Ok(None) =>
    case Ok(Some(k)) =>
      assert Step(h, st, lines, cur) == Handle(h, k, st, lines, cur);
      if k == Options {
        assert st1 == OptionsStep(st, lines[cur]);
      } else if k == Dset {
        assert st1 == DsetStep(h, st, lines[cur]).value;
      } else {
        HandleSameOptions(h, k, st, lines, cur);
      }
  }

  /** nwpc_data never marks a template. */
  lemma {:induction false} ParseFromNoTemplate(h: Readers, st: CtlState, lines: seq<string>, cur: nat)
    requires Sound(h) && !st.dsetTemplate && forall line :: !h.marksTemplate(line)
    requires ParseFrom(h, st, lines, cur).Ok?
    ensures !ParseFrom(h, st, lines, cur).value.dsetTemplate
    decreases |lines| - cur
  {
    if cur < |lines| {
      var (st1, c) := Step(h, st, lines, cur).value;
      ParseFromNext(h, st, lines, cur, st1, c);
      StepNoTemplate(h, st, lines, cur);
      ParseFromNoTemplate(h, st1, lines, c + 1);
    }
  }

  lemma LegacyNoTemplate(dir: string, name: string, raw: seq<string>)
    requires ParseCtl(Legacy, dir, name, raw).Ok?
    ensures !ParseCtl(Legacy, dir, name, raw).value.dsetTemplate
  {
    ReadersOfSound(Legacy, dir, name);
    ParseFromNoTemplate(ReadersOf(Legacy, dir, name), Initial(Legacy), StripAll(raw), 0);
  }

  /** A line that is not a keyword line is skipped: the loop goes on from
      the next line with the state unchanged. */
  lemma SkipLine(h: Readers, d: Dialect, dir: string, name: string, st: CtlState, lines: seq<string>, cur: nat)
    requires cur < |lines| && Sound(h) && Implements(h, d, dir, name) && Dispatch(lines[cur]) == Ok(None)
    ensures ParseFrom(h, st, lines, cur) == ParseFrom(h, st, lines, cur + 1)
  {
    assert h.dispatch(lines[cur]) == Ok(None);
  }

  /** A line whose first word is a keyword only once lower-cased stops the
      parse with a KeyError. */
  lemma KeyErrorStops(h: Readers, d: Dialect, dir: string, name: string, st: CtlState, lines: seq<string>, cur: nat)
    requires cur < |lines| && Sound(h) && Implements(h, d, dir, name) && Dispatch(lines[cur]).Err?
    ensures ParseFrom(h, st, lines, cur) == Err(Dispatch(lines[cur]).msg)
  {
    assert h.dispatch(lines[cur]) == Dispatch(lines[cur]);
  }

  /** The catalog `vars` stores is the one the dialect derives from the
      variables just read and the state before them; in reki it has one
      block per time step. */
  lemma VarsRecords(d: Dialect, dir: string, name: string, st: CtlState, lines: seq<string>, cur: nat)
    requires cur < |lines| && Sound(ReadersOf(d, dir, name))
    requires VarsStep(ReadersOf(d, dir, name), st, lines, cur).Ok?
    ensures var st1 := VarsStep(ReadersOf(d, dir, name), st, lines, cur).value.0;
      && RecordsOf(st1.(records := st.records), d) == Ok(st1.records)
      && (d == Reki ==> |st1.records| == |st1.tdef.value.values| * StepSize(st1.vars))
      && (d == Legacy ==> |st1.records| == StepSize(st1.vars))
  {
    var st1 := VarsStep(ReadersOf(d, dir, name), st, lines, cur).value.0;
    assert RecordsOf(st1.(records := st.records), d) == Ok(st1.records);
    RecordsOfLength(st1.(records := st.records), d);
  }
}
