/** The parser objects of reki/format/grads/grads_ctl.py and
    nwpc_data/format/grads/grads_ctl.py: a `GradsCtl` whose attributes the
    handlers write, and a `GradsCtlParser` holding the stripped lines and
    the cursor `cur_no`. Each method is proved against the value
    specification of grads_state.dfy. */
module GradsParser {
  import opened Wrappers
  import opened Text
  import opened Calendar
  import opened GradsCatalog
  import opened GradsLines
  import opened GradsState

  /** The descriptor's attributes. */
  class GradsCtl {
    var dset: Option<string>
    var dsetTemplate: bool
    var title: string
    var options: seq<string>
    var dataEndian: Endian
    var yrev: bool
    var undef: Option<real>
    var startTime: Option<Timestamp>
    var forecastTime: Option<Duration>
    var xdef: Option<Dimension>
    var ydef: Option<Dimension>
    var zdef: Option<Dimension>
    var tdef: Option<TimeDef>
    var vars: seq<VarDef>
    var records: seq<Record>

    /** `GradsCtl()` of dialect `d`. */
    constructor (d: Dialect)
      ensures State() == Initial(d)
    {
      dset := if d == Reki then None else Some("");
      dsetTemplate := false;
      title := "";
      options := [];
      dataEndian := Little;
      yrev := false;
      undef := None;
      startTime := None;
      forecastTime := None;
      xdef := None;
      ydef := None;
      zdef := None;
      tdef := None;
      vars := [];
      records := [];
    }

    /** The attributes as one value. */
    function State(): CtlState
      reads this
    {
      CtlState(dset, dsetTemplate, title, options, dataEndian, yrev, undef, startTime, forecastTime,
               xdef, ydef, zdef, tdef, vars, records)
    }

    /** The loop of `_parse_options` over the words `opts`: the last byte
        order named wins, and `yrev` once seen stays set. */
    method ReadOptionWords(opts: seq<string>)
      modifies this`dataEndian, this`yrev
      ensures dataEndian == EndianAfter(old(dataEndian), opts)
      ensures yrev == YrevAfter(old(yrev), opts)
    {
      for i := 0 to |opts|
        invariant dataEndian == EndianAfter(old(dataEndian), opts[..i])
        invariant yrev == YrevAfter(old(yrev), opts[..i])
      {
        OptionsAfterNext(old(dataEndian), old(yrev), opts, i);
        if opts[i] == "big_endian" {
          dataEndian := Big;
        } else if opts[i] == "little_endian" {
          dataEndian := Little;
        } else if opts[i] == "yrev" {
          yrev := true;
        }
      }
      assert opts[..|opts|] == opts;
    }

    /** Stores a parsed `xdef`, `ydef` or `zdef` entry under the keyword's
        name. */
    method StoreDimension(k: Keyword, dim: Dimension)
      requires k == Xdef || k == Ydef || k == Zdef
      modifies this`xdef, this`ydef, this`zdef
      ensures State() == SetDimension(old(State()), k, dim)
    {
      match k
      case Xdef => xdef := Some(dim);
      case Ydef => ydef := Some(dim);
      case Zdef => zdef := Some(dim);
    }

    /** `_generate_records` (reki, `timed`) or `_parse_records` (nwpc_data):
        the catalog, appended record by record with a running
        `record_index`. */
    method GenerateRecords(d: Dialect) returns (r: Outcome)
      modifies this
      ensures r.Pass? <==> RecordsOf(old(State()), d).Ok?
      ensures r.Pass? ==> State() == old(State()).(records := RecordsOf(old(State()), d).value)
      ensures r.Fail? ==> State() == old(State())
    {
      var zvals := ValuesOf(zdef);
      if d == Legacy {
        var recs;
        recs, r := StepBlock(vars, zvals, None, 0);
        if r.Pass? {
          records := recs;
        }
        return;
      }
      if tdef.None? {
        return Fail("TypeError: 'NoneType' object is not subscriptable");
      }
      var td := tdef.value;
      var recordList: seq<Record> := [];
      var recordIndex: nat := 0;
      var t := 0;
      while t < |td.values|
        invariant 0 <= t <= |td.values|
        invariant recordList == CatalogUpTo(vars, zvals, td, dsetTemplate, t)
        invariant !dsetTemplate ==> recordIndex == StepOffset(vars, t)
        invariant t > 0 ==> Covers(vars, zvals)
        invariant State() == old(State())
      {
        if dsetTemplate {
          recordIndex := 0;
        }
        var block;
        block, r := StepBlock(vars, zvals, Some(StepTime(td, t)), recordIndex);
        if r.Fail? {
          return;
        }
        recordList := recordList + block;
        recordIndex := recordIndex + |block|;
        t := t + 1;
      }
      records := recordList;
      r := Pass;
    }
  }

  /** The records of variable `v` in one time step, numbered from `ri`:
      one single-level record, or one per level index, each level read
      from `zvals`, which fails past its end. */
  method VarBlock(v: VarDef, zvals: seq<real>, time: Option<RecordTime>, ri: nat) returns (recs: seq<Record>, r: Outcome)
    ensures r.Pass? <==> v.levels <= |zvals|
    ensures r.Pass? ==> recs == VarRecords(v, zvals, time, ri)
  {
    if v.levels == 0 {
      assert VarRecords(v, zvals, time, ri) == [SingleRecord(v, time, ri)];
      return [SingleRecord(v, time, ri)], Pass;
    }
    recs := [];
    var li := 0;
    while li < v.levels
      invariant 0 <= li <= |zvals| && li <= LevelCount(v)
      invariant recs == LevelRecords(v, zvals, time, ri, li)
    {
      if li >= |zvals| {
        return recs, Fail("IndexError: list index out of range");
      }
      recs := recs + [MultiRecord(v, zvals, li, time, ri + li)];
      li := li + 1;
    }
    assert li == LevelCount(v);
    r := Pass;
  }

  /** The records of one time step, numbered from `base`: the variables in
      declaration order, with a running `record_index`. */
  method StepBlock(vs: seq<VarDef>, zvals: seq<real>, time: Option<RecordTime>, base: nat) returns (block: seq<Record>, r: Outcome)
    ensures r.Pass? <==> Covers(vs, zvals)
    ensures r.Pass? ==> block == StepRecords(vs, zvals, time, base)
  {
    block := [];
    var recordIndex := base;
    var j := 0;
    while j < |vs|
      invariant 0 <= j <= |vs|
      invariant block == StepRecords(vs[..j], zvals, time, base)
      invariant recordIndex == base + |block|
      invariant Covers(vs[..j], zvals)
    {
      var recs;
      recs, r := VarBlock(vs[j], zvals, time, recordIndex);
      if r.Fail? {
        NotCoversAt(vs, zvals, j);
        return;
      }
      StepRecordsPrefix(vs, zvals, time, base, j);
      CoversGrow(vs, zvals, j);
      block := block + recs;
      recordIndex := recordIndex + |recs|;
      j := j + 1;
    }
    assert vs[..j] == vs;
    r := Pass;
  }

  /** The parser: the descriptor's directory and file name, its stripped
      lines, the cursor `cur_no`, and the `GradsCtl` it fills in. */
  class GradsCtlParser {
    const dialect: Dialect
    const ctl: GradsCtl
    var dir: string
    var name: string
    var lines: seq<string>
    var cur: int

    /** `GradsCtlParser()`: a fresh `GradsCtl` and no file yet. */
    constructor (d: Dialect)
      ensures dialect == d && fresh(ctl) && ctl.State() == Initial(d)
      ensures lines == [] && cur == -1
    {
      dialect := d;
      ctl := new GradsCtl(d);
      dir, name := "", "";
      lines := [];
      cur := -1;
    }

    /** `GradsCtlParser(grads_ctl)`: the parser fills in an existing
        object. */
    constructor WithCtl(d: Dialect, c: GradsCtl)
      ensures dialect == d && ctl == c && lines == [] && cur == -1
    {
      dialect := d;
      ctl := c;
      dir, name := "", "";
      lines := [];
      cur := -1;
    }

    /** `set_ctl_file_path`: the file's lines, stripped, and the cursor on
        the first. */
    method SetCtlFilePath(path: string, fileName: string, raw: seq<string>)
      modifies this`dir, this`name, this`lines, this`cur
      ensures dir == path && name == fileName && lines == StripAll(raw) && cur == 0
    {
      dir, name := path, fileName;
      lines := StripAll(raw);
      cur := 0;
    }

    /** `_parse_ctl_file_name`. */
    method ParseCtlFileName(ghost h: Readers) returns (r: Outcome)
      requires Implements(h, dialect, dir, name)
      modifies ctl
      ensures r.Pass? <==> Infer(old(ctl.State()), h.nameTimes).Ok?
      ensures r.Pass? ==> ctl.State() == Infer(old(ctl.State()), h.nameTimes).value
      ensures r.Fail? ==> ctl.State() == old(ctl.State())
    {
      if ctl.startTime.None? && ctl.forecastTime.None? {
        match NameTimesOf(dialect, name)
        case Err(e) =>
          return Fail(e);
        case Ok(None) =>
        case Ok(Some(nt)) =>
          ctl.startTime := Some(nt.start);
          ctl.forecastTime := Some(nt.forecast);
      }
      r := Pass;
    }

    /** `_parse_dset`: a `%` marks a template (reki), a leading `^` makes
        the path relative to the descriptor's directory. */
    method ParseDset(ghost h: Readers) returns (r: Outcome)
      requires 0 <= cur < |lines| && Implements(h, dialect, dir, name)
      modifies ctl
      ensures r.Pass? <==> DsetStep(h, old(ctl.State()), lines[cur]).Ok?
      ensures r.Pass? ==> ctl.State() == DsetStep(h, old(ctl.State()), lines[cur]).value
      ensures r.Fail? ==> ctl.State() == old(ctl.State())
    {
      var line := lines[cur];
      var path := DsetPath(dir, line);
      var isTemplate := DsetTemplate(line);
      var mark := dialect == Reki && isTemplate;
      assert h.dsetPath(line) == path && h.marksTemplate(line) == mark;
      if mark {
        ctl.dsetTemplate := true;
      }
      if path.Err? {
        return Fail(path.msg);
      }
      ctl.dset := Some(path.value);
      r := Pass;
    }

    /** `_parse_options`: the words are appended, then read one by one. */
    method ParseOptions()
      requires 0 <= cur < |lines|
      modifies ctl
      ensures ctl.State() == OptionsStep(old(ctl.State()), lines[cur])
    {
      var opts := OptionTokens(lines[cur]);
      ctl.options := ctl.options + opts;
      ctl.ReadOptionWords(opts);
    }

    /** `_parse_title`. */
    method ParseTitle()
      requires 0 <= cur < |lines|
      modifies ctl
      ensures ctl.State() == old(ctl.State()).(title := TitleOf(lines[cur]))
    {
      ctl.title := TitleOf(lines[cur]);
    }

    /** `_parse_undef`. */
    method ParseUndef(ghost h: Readers) returns (r: Outcome)
      requires 0 <= cur < |lines| && Implements(h, dialect, dir, name)
      modifies ctl
      ensures r.Pass? <==> h.undef(lines[cur]).Ok?
      ensures r.Pass? ==> ctl.State() == old(ctl.State()).(undef := Some(h.undef(lines[cur]).value))
      ensures r.Fail? ==> ctl.State() == old(ctl.State())
    {
      match UndefOf(lines[cur])
      case Err(e) =>
        return Fail(e);
      case Ok(u) =>
        ctl.undef := Some(u);
        r := Pass;
    }

    /** `_parse_tdef`. */
    method ParseTdef(ghost h: Readers) returns (r: Outcome)
      requires 0 <= cur < |lines| && Implements(h, dialect, dir, name)
      modifies ctl
      ensures r.Pass? <==> h.tdef(lines[cur]).Ok?
      ensures r.Pass? ==> ctl.State() == old(ctl.State()).(tdef := Some(h.tdef(lines[cur]).value))
      ensures r.Fail? ==> ctl.State() == old(ctl.State())
    {
      var line := lines[cur];
      var t := TdefOf(line);
      assert h.tdef(line) == t;
      if t.Err? {
        return Fail(t.msg);
      }
      ctl.tdef := Some(t.value);
      r := Pass;
    }

    /** reki's `_parse_levels_dimension` loop: whole lines of values until
        `count` are known, the cursor on the last line read. */
    method CollectLevelLines(inline: seq<real>, count: int) returns (levels: seq<real>, r: Outcome)
      requires 0 <= cur < |lines|
      modifies this`cur
      ensures r.Pass? <==> CollectLevels(lines, old(cur), inline, count).Ok?
      ensures r.Pass? ==> (levels, cur) == CollectLevels(lines, old(cur), inline, count).value
    {
      ghost var ls := lines;
      levels := inline;
      var i := |levels|;
      while i < count
        invariant ls == lines && old(cur) <= cur < |ls| && i == |levels|
        invariant CollectLevels(ls, cur, levels, count) == CollectLevels(ls, old(cur), inline, count)
        decreases |ls| - cur
      {
        if cur + 1 >= |lines| {
          return levels, Fail("IndexError: list index out of range");
        }
        CollectLevelsNext(ls, cur, levels, count);
        cur := cur + 1;
        var tokens := SplitWs(lines[cur]);
        var vals := ParseFloats(tokens);
        if vals.Err? {
          return levels, Fail(vals.msg);
        }
        levels := levels + vals.value;
        i := i + |tokens|;
      }
      r := Pass;
    }

    /** nwpc_data's `_parse_levels_dimension` loop: one value per line. */
    method CollectLevelValues(inline: seq<real>, count: int) returns (levels: seq<real>, r: Outcome)
      requires 0 <= cur < |lines|
      modifies this`cur
      ensures r.Pass? <==> CollectLevelsLegacy(lines, old(cur), inline, count).Ok?
      ensures r.Pass? ==> (levels, cur) == CollectLevelsLegacy(lines, old(cur), inline, count).value
    {
      levels := inline;
      var i := |levels|;
      while i < count
        invariant old(cur) <= cur < |lines| && i == |levels|
        invariant CollectEachLine(ParseDecimal, lines, cur, levels, count) ==
          CollectEachLine(ParseDecimal, lines, old(cur), inline, count)
        decreases |lines| - cur
      {
        if cur + 1 >= |lines| {
          return levels, Fail("IndexError: list index out of range");
        }
        cur := cur + 1;
        match ParseDecimal(lines[cur])
        case None =>
          return levels, Fail("ValueError: could not convert string to float");
        case Some(x) =>
          levels := levels + [x];
          i := i + 1;
      }
      r := Pass;
    }

    /** `_parse_dimension` without storing the result: the entry on the
        current line, and the cursor on the last line it used. */
    method ReadDimension() returns (dim: Dimension, r: Outcome)
      requires 0 <= cur < |lines|
      modifies this`cur
      ensures r.Pass? <==> ParseDimension(lines, old(cur), dialect == Legacy).Ok?
      ensures r.Pass? ==> (dim, cur) == ParseDimension(lines, old(cur), dialect == Legacy).value
    {
      var tokens := DimensionTokens(lines[cur]);
      if |tokens| < 3 {
        return Linear(0, 0.0, 0.0, []), Fail("IndexError: list index out of range");
      }
      if tokens[2] == "linear" {
        match ParseLinear(tokens)
        case Err(e) =>
          return Linear(0, 0.0, 0.0, []), Fail(e);
        case Ok(d) =>
          return d, Pass;
      } else if tokens[2] == "levels" {
        match ParseInt(tokens[1])
        case None =>
          return Linear(0, 0.0, 0.0, []), Fail("ValueError: invalid literal for int()");
        case Some(count) =>
          match ParseFloats(tokens[3..])
          case Err(e) =>
            return Linear(0, 0.0, 0.0, []), Fail(e);
          case Ok(inline) =>
            var vals;
            if dialect == Legacy {
              vals, r := CollectLevelValues(inline, count);
            } else {
              vals, r := CollectLevelLines(inline, count);
            }
            dim := Levels(count, vals);
      } else {
        return Linear(0, 0.0, 0.0, []), Fail("dimension_type is not supported");
      }
    }

    /** `_parse_dimension` for `xdef`, `ydef` or `zdef` (`k`): the entry is
        stored under the keyword's name. */
    method ParseDimensionLine(ghost h: Readers, k: Keyword) returns (r: Outcome)
      requires 0 <= cur < |lines| && (k == Xdef || k == Ydef || k == Zdef)
      requires Implements(h, dialect, dir, name)
      modifies ctl, this`cur
      ensures r.Pass? <==> h.dimension(lines, old(cur)).Ok?
      ensures r.Pass? ==> var (dim, c) := h.dimension(lines, old(cur)).value;
        ctl.State() == SetDimension(old(ctl.State()), k, dim) && cur == c
    {
      ghost var c0, legacy := cur, dialect == Legacy;
      assert h.dimension(lines, c0) == ParseDimension(lines, c0, legacy);
      var dim;
      dim, r := ReadDimension();
      if r.Fail? {
        return;
      }
      ctl.StoreDimension(k, dim);
    }

    /** The loop of `_parse_variables`: `count` lines after the current
        one, each read with `read`, the cursor on the last. Stated for any
        line reader, as `ReadEach` is. */
    method ReadLines<T>(read: string -> Result<T>, count: int) returns (items: seq<T>, r: Outcome)
      requires 0 <= cur < |lines|
      modifies this`cur
      ensures r.Pass? ==> ReadEach(read, lines, old(cur), count) == Ok(items) && cur == old(cur) + |items|
      ensures r.Fail? ==> ReadEach(read, lines, old(cur), count).Err?
    {
      items := [];
      var j := 0;
      while j < count
        invariant 0 <= j <= (if count < 0 then 0 else count)
        invariant cur == old(cur) + j < |lines|
        invariant ReadEach(read, lines, old(cur), j) == Ok(items)
      {
        ReadEachNext(read, lines, old(cur), j, items);
        if cur + 1 >= |lines| {
          ReadEachStops(read, lines, old(cur), j + 1, count);
          return items, Fail("IndexError: list index out of range");
        }
        cur := cur + 1;
        match read(lines[cur])
        case Err(e) =>
          ReadEachStops(read, lines, old(cur), j + 1, count);
          return items, Fail(e);
        case Ok(v) =>
          items := items + [v];
          j := j + 1;
      }
      r := Pass;
    }

    /** The variable lines of `_parse_variables`. */
    method ReadVarLines(count: int) returns (varList: seq<VarDef>, r: Outcome)
      requires 0 <= cur < |lines|
      modifies this`cur
      ensures r.Pass? ==> VarsFrom(lines, old(cur), count) == Ok(varList)
      ensures r.Pass? ==> cur == if count > 0 then old(cur) + count else old(cur)
      ensures r.Fail? ==> VarsFrom(lines, old(cur), count).Err?
    {
      varList, r := ReadLines(VarLine, count);
    }

    /** `_parse_variables` without storing the result: the count on the
        `vars` line, then one variable per following line. */
    method ReadVariables() returns (varList: seq<VarDef>, r: Outcome)
      requires 0 <= cur < |lines|
      modifies this`cur
      ensures r.Pass? ==> VarsBlock(lines, old(cur)) == Ok((varList, cur))
      ensures r.Fail? ==> VarsBlock(lines, old(cur)).Err?
    {
      ghost var c0 := cur;
      match VarsCount(lines[cur])
      case Err(e) =>
        VarsBlockFails(lines, c0);
        return [], Fail(e);
      case Ok(count) =>
        varList, r := ReadVarLines(count);
        if r.Pass? {
          VarsBlockOf(lines, c0, count, varList, cur);
        } else {
          VarsBlockFails(lines, c0);
        }
    }

    /** `_parse_vars`: the variables, then the catalog. */
    method ParseVars(ghost h: Readers) returns (r: Outcome)
      requires 0 <= cur < |lines| && Sound(h) && Implements(h, dialect, dir, name)
      modifies ctl, this`cur
      ensures r.Pass? <==> VarsStep(h, old(ctl.State()), lines, old(cur)).Ok?
      ensures r.Pass? ==> (ctl.State(), cur) == VarsStep(h, old(ctl.State()), lines, old(cur)).value
    {
      var vs;
      vs, r := ReadVariables();
      if r.Fail? {
        return;
      }
      ctl.vars := vs;
      r := ctl.GenerateRecords(dialect);
    }

    /** The handler `parser_mapper` selects for keyword `k`. */
    method HandleLine(ghost h: Readers, k: Keyword) returns (r: Outcome)
      requires 0 <= cur < |lines| && Sound(h) && Implements(h, dialect, dir, name)
      modifies ctl, this`cur
      ensures r.Pass? <==> Handle(h, k, old(ctl.State()), lines, old(cur)).Ok?
      ensures r.Pass? ==> (ctl.State(), cur) == Handle(h, k, old(ctl.State()), lines, old(cur)).value
    {
      match k
      case CtlFileName =>
        r := ParseCtlFileName(h);
      case Dset =>
        r := ParseDset(h);
      case Options =>
        ParseOptions();
        r := Pass;
      case Title =>
        ParseTitle();
        r := Pass;
      case Undef =>
        r := ParseUndef(h);
      case Tdef =>
        r := ParseTdef(h);
      case Vars =>
        r := ParseVars(h);
      case _ =>
        r := ParseDimensionLine(h, k);
    }

    /** One turn of `parse`: the handler the line's first word selects, if
        any. */
    method StepLine(ghost h: Readers) returns (r: Outcome)
      requires 0 <= cur < |lines| && Sound(h) && Implements(h, dialect, dir, name)
      modifies ctl, this`cur
      ensures r.Pass? <==> Step(h, old(ctl.State()), lines, old(cur)).Ok?
      ensures r.Pass? ==> (ctl.State(), cur) == Step(h, old(ctl.State()), lines, old(cur)).value
    {
      var line := lines[cur];
      var selected := Dispatch(line);
      assert h.dispatch(line) == selected;
      match selected
      case Err(e) =>
        return Fail(e);
      case Ok(None) =>
        return Pass;
      case Ok(Some(k)) =>
        r := HandleLine(h, k);
    }

    /** One turn of `parse` followed by the move to the next line, stated
        as what it leaves of the rest of the loop. */
    method Advance(ghost h: Readers) returns (r: Outcome)
      requires 0 <= cur < |lines| && Sound(h) && Implements(h, dialect, dir, name)
      modifies ctl, this`cur
      ensures r.Fail? ==> ParseFrom(h, old(ctl.State()), lines, old(cur)).Err?
      ensures r.Pass? ==> old(cur) < cur <= |lines|
      ensures r.Pass? ==> ParseFrom(h, ctl.State(), lines, cur) == ParseFrom(h, old(ctl.State()), lines, old(cur))
    {
      ghost var st0, c0, ls := ctl.State(), cur, lines;
      r := StepLine(h);
      if r.Fail? {
        ParseFromStops(h, st0, ls, c0);
        assert lines == ls;
        return;
      }
      ghost var st1, c1 := ctl.State(), cur;
      ParseFromNext(h, st0, ls, c0, st1, c1);
      cur := cur + 1;
      assert lines == ls && ctl.State() == st1 && cur == c1 + 1;
      assert ParseFrom(h, ctl.State(), lines, cur) == ParseFrom(h, st1, ls, c1 + 1);
    }

    /** The loop of `parse`: every line from the cursor on, the cursor
        moved one past where each handler left it. */
    method RunLines(ghost h: Readers) returns (r: Outcome)
      requires 0 <= cur && Sound(h) && Implements(h, dialect, dir, name)
      modifies ctl, this`cur
      ensures r.Pass? <==> ParseFrom(h, old(ctl.State()), lines, old(cur)).Ok?
      ensures r.Pass? ==> ctl.State() == ParseFrom(h, old(ctl.State()), lines, old(cur)).value
    {
      while cur < |lines|
        invariant 0 <= cur
        invariant ParseFrom(h, ctl.State(), lines, cur) == ParseFrom(h, old(ctl.State()), lines, old(cur))
        decreases |lines| - cur
      {
        r := Advance(h);
        if r.Fail? {
          return;
        }
      }
      r := Pass;
    }

    /** `parse(path)` for the descriptor `fileName` in directory `path`
        whose lines are `raw`: the loop over its lines, then the file-name
        inference. */
    method Parse(path: string, fileName: string, raw: seq<string>) returns (r: Outcome)
      modifies this`dir, this`name, this`lines, this`cur, ctl
      ensures r.Pass? <==> ParseWith(ReadersOf(dialect, path, fileName), old(ctl.State()), raw).Ok?
      ensures r.Pass? ==> ctl.State() == ParseWith(ReadersOf(dialect, path, fileName), old(ctl.State()), raw).value
    {
      SetCtlFilePath(path, fileName, raw);
      ghost var h := ReadersOf(dialect, path, fileName);
      ReadersOfSound(dialect, path, fileName);
      r := RunLines(h);
      if r.Fail? {
        return;
      }
      r := ParseCtlFileName(h);
    }
  }
}
