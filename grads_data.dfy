/** The binary side of a GrADS data set: record offsets and record lookup
    (reki/format/grads/grads_data_handler.py) and the decoding of one
    record's grid (nwpc_data/format/grads/grads_record_handler.py). A data
    file is a sequence of bytes; a grid word is kept as its four bytes. */
module GradsData {
  import opened Wrappers
  import opened Calendar
  import opened GradsCatalog
  import opened GradsLines
  import opened GradsState
  import opened GradsParser

  // ================================================================ offsets

  /** `xdef["count"]` or `ydef["count"]`: the attribute is `None` until its
      line is parsed, and subscripting `None` raises. */
  function CountOf(d: Option<Dimension>): (r: Result<int>)
    ensures r.Ok? <==> d.Some?
  {
    match d
    case None => Err("TypeError: 'NoneType' object is not subscriptable")
    case Some(dim) => Ok(dim.count)
  }

  /** Whether each record is a Fortran sequential block, framed by a 4-byte
      length marker on either side. */
  predicate Sequential(st: CtlState) {
    "sequential" in st.options
  }

  /** The bytes one record takes in the data file. */
  function RecordBytes(nx: int, ny: int, sequential: bool): int {
    if sequential then (nx * ny + 2) * 4 else nx * ny * 4
  }

  /** `get_offset_by_record_index`. */
  function OffsetOf(st: CtlState, ri: int): (r: Result<int>)
    ensures r.Ok? <==> ri < |st.records| && st.xdef.Some? && st.ydef.Some?
  {
    if ri >= |st.records| then Err("ValueError: record_index is too large.")
    else
      var nx :- CountOf(st.xdef);
      var ny :- CountOf(st.ydef);
      if Sequential(st) then Ok((nx * ny + 2) * 4 * ri) else Ok(nx * ny * 4 * ri)
  }

  /** Offsets are whole records: record `ri` starts `ri` record sizes into
      the file, so consecutive records lie one record size apart. */
  lemma OffsetIsRecords(st: CtlState, ri: int)
    requires OffsetOf(st, ri).Ok?
    ensures var size := RecordBytes(st.xdef.value.count, st.ydef.value.count, Sequential(st));
      && OffsetOf(st, ri).value == size * ri
      && (ri + 1 < |st.records| ==> OffsetOf(st, ri + 1).value == OffsetOf(st, ri).value + size)
  {
    var nx, ny := st.xdef.value.count, st.ydef.value.count;
    var size := RecordBytes(nx, ny, Sequential(st));
    if Sequential(st) {
      assert (nx * ny + 2) * 4 * ri == size * ri;
      assert (nx * ny + 2) * 4 * (ri + 1) == size * ri + size;
    } else {
      assert nx * ny * 4 * ri == size * ri;
      assert nx * ny * 4 * (ri + 1) == size * ri + size;
    }
  }

  /** An offset names its record: dividing by the record size gives the
      record index back. */
  lemma OffsetRecordIndex(st: CtlState, ri: int)
    requires OffsetOf(st, ri).Ok?
    requires RecordBytes(st.xdef.value.count, st.ydef.value.count, Sequential(st)) > 0
    ensures var size := RecordBytes(st.xdef.value.count, st.ydef.value.count, Sequential(st));
      OffsetOf(st, ri).value % size == 0 && OffsetOf(st, ri).value / size == ri
  {
    OffsetIsRecords(st, ri);
    var size := RecordBytes(st.xdef.value.count, st.ydef.value.count, Sequential(st));
    MulDiv(size, ri);
  }

  lemma MulDiv(size: int, k: int)
    requires size > 0
    ensures (size * k) % size == 0 && (size * k) / size == k
  {
    var q, m := (size * k) / size, (size * k) % size;
    assert size * k == size * q + m && 0 <= m < size;
    assert size * (k - q) == m;
    MulSign(size, k - q);
  }

  lemma MulSign(size: int, d: int)
    requires size > 0
    ensures d >= 1 ==> size * d >= size
    ensures d <= -1 ==> size * d <= -size
  {
  }

  /** An index past the catalog is refused, whatever the grid. */
  lemma OffsetPastCatalog(st: CtlState, ri: int)
    requires ri >= |st.records|
    ensures OffsetOf(st, ri) == Err("ValueError: record_index is too large.")
  {
  }

  // ================================================================ lookup

  /** The filters of `find_record`; `None` stands for "not given". */
  datatype Query = Query(
    name: string,
    level: Option<real>,
    levelType: Option<string>,
    validTime: Option<Timestamp>,
    forecastTime: Option<Duration>)

  /** The level `find_record` compares with: 0 for `'single'`, otherwise
      the requested level, `None` meaning any. */
  function QueryLevel(q: Query): Option<real> {
    if q.levelType == Some("single") then Some(0.0) else q.level
  }

  /** Name, level type and level agree. */
  predicate FieldsAgree(rec: Record, q: Query) {
    && rec.name == q.name
    && (q.levelType.None? || KindName(rec.kind) == q.levelType.value)
    && (QueryLevel(q).None? || rec.level == QueryLevel(q).value)
  }

  /** The times agree with those given. */
  predicate TimesAgree(rec: Record, q: Query)
    requires rec.time.Some?
  {
    && (q.validTime.None? || rec.time.value.validTime == q.validTime.value)
    && (q.forecastTime.None? || rec.time.value.forecastTime == q.forecastTime.value)
  }

  /** The condition of `find_record` on one catalog entry, evaluated left
      to right: a time filter reaching an entry without time keys raises
      KeyError. */
  function Matches(rec: Record, q: Query): (r: Result<bool>)
    ensures r == Ok(true) <==>
      (FieldsAgree(rec, q) && (rec.time.Some? ==> TimesAgree(rec, q))
       && (rec.time.None? ==> q.validTime.None? && q.forecastTime.None?))
    ensures r.Err? <==> FieldsAgree(rec, q) && rec.time.None? && (q.validTime.Some? || q.forecastTime.Some?)
  {
    if !FieldsAgree(rec, q) then Ok(false)
    else if q.validTime.Some? && rec.time.None? then Err("KeyError: 'valid_time'")
    else if q.validTime.Some? && rec.time.value.validTime != q.validTime.value then Ok(false)
    else if q.forecastTime.Some? && rec.time.None? then Err("KeyError: 'forecast_time'")
    else Ok(q.forecastTime.None? || rec.time.value.forecastTime == q.forecastTime.value)
  }

  /** No entry before `p` matches. */
  predicate NoMatchBefore(records: seq<Record>, q: Query, p: nat)
    requires p <= |records|
  {
    forall j :: 0 <= j < p ==> Matches(records[j], q) == Ok(false)
  }

  /** The scan of `find_record` from position `i`: the first matching
      position, `None` past the end, or the error of the first entry that
      raises. */
  function FirstMatch(records: seq<Record>, q: Query, i: nat): (r: Result<Option<nat>>)
    requires i <= |records|
    ensures r.Ok? && r.value.Some? ==> i <= r.value.value < |records|
    decreases |records| - i
  {
    if i == |records| then Ok(None)
    else
      match Matches(records[i], q)
      case Err(e) => Err(e)
      case Ok(true) => Ok(Some(i))
      case Ok(false) => FirstMatch(records, q, i + 1)
  }

  /** The scan finds the lowest matching position; it finds nothing only
      when no entry matches, and it fails only at an entry that raises with
      none matching before it. */
  lemma {:induction false} FirstMatchLowest(records: seq<Record>, q: Query, i: nat)
    requires i <= |records| && NoMatchBefore(records, q, i)
    ensures var r := FirstMatch(records, q, i);
      && (r.Ok? && r.value.Some? ==>
            var p := r.value.value;
            p < |records| && Matches(records[p], q) == Ok(true) && NoMatchBefore(records, q, p))
      && (r == Ok(None) ==> NoMatchBefore(records, q, |records|))
      && (r.Err? ==> exists p :: i <= p < |records| && Matches(records[p], q).Err? && NoMatchBefore(records, q, p))
    decreases |records| - i
  {
    if i < |records| {
      match Matches(records[i], q)
      case Err(e) =>
      case Ok(true) =>
      case Ok(false) =>
        FirstMatchLowest(records, q, i + 1);
    }
  }

  /** The loop of `find_record` over the catalog. */
  method FindIndex(records: seq<Record>, q: Query) returns (r: Result<Option<nat>>)
    ensures r == FirstMatch(records, q, 0)
  {
    var i := 0;
    while i < |records|
      invariant i <= |records|
      invariant FirstMatch(records, q, i) == FirstMatch(records, q, 0)
      decreases |records| - i
    {
      var m := Matches(records[i], q);
      if m.Err? {
        return Err(m.msg);
      }
      if m.value {
        return Ok(Some(i));
      }
      i := i + 1;
    }
    r := Ok(None);
  }

  // ================================================================ positions

  /** Records variable `v` occupies in the count of
      `get_record_by_index`: one when single-level, otherwise `levels` as
      written (a negative count subtracts). */
  function Slots(v: VarDef): int {
    if v.levels == 0 then 1 else v.levels
  }

  /** The records the variables before `k` occupy. */
  function SlotsBefore(vs: seq<VarDef>, k: int): int
    requires k <= |vs|
    decreases k
  {
    if k <= 0 then 0 else SlotsBefore(vs, k - 1) + Slots(vs[k - 1])
  }

  /** `get_record_by_index`: the position of level `li` of variable `vi`
      (Python indexing, so a negative `vi` counts from the end while the
      sum over earlier variables stays empty). */
  function RecordPosition(vs: seq<VarDef>, vi: int, li: int): Result<int> {
    if vi >= |vs| then Err("ValueError: variable index is too large.")
    else
      match PyIndex(vs, vi)
      case None => Err("IndexError: list index out of range")
      case Some(v) =>
        if 0 < v.levels <= li then Err("ValueError: level index is too large.")
        else Ok(SlotsBefore(vs, vi) + li)
  }

  /** No variable declares a negative level count. */
  predicate LevelsWellFormed(vs: seq<VarDef>) {
    forall j :: 0 <= j < |vs| ==> vs[j].levels >= 0
  }

  /** Without negative level counts, the slots before a variable are the
      records one time step of the catalog holds for those variables. */
  lemma {:induction false} SlotsAreStepSize(vs: seq<VarDef>, k: nat)
    requires k <= |vs| && LevelsWellFormed(vs)
    ensures SlotsBefore(vs, k) == StepSize(vs[..k])
    decreases k
  {
    if k > 0 {
      SlotsAreStepSize(vs, k - 1);
      StepSizePrefix(vs, k - 1);
    } else {
      assert vs[..0] == [];
    }
  }

  /** An existing level of a variable has its position. */
  lemma PositionOfLevel(vs: seq<VarDef>, vi: nat, li: nat)
    requires LevelsWellFormed(vs) && vi < |vs| && li < LevelCount(vs[vi])
    ensures RecordPosition(vs, vi, li) == Ok(SlotsBefore(vs, vi) + li)
  {
  }

  /** The position `get_record_by_index` computes for an existing level of
      a variable is where the reki catalog keeps that level in its first
      time step. */
  lemma PositionInCatalog(vs: seq<VarDef>, zvals: seq<real>, tdef: TimeDef, template: bool, vi: nat, li: nat)
    requires LevelsWellFormed(vs) && vi < |vs| && li < LevelCount(vs[vi]) && 0 < |tdef.values|
    ensures var p := SlotsBefore(vs, vi) + li;
      && 0 <= p < |Catalog(vs, zvals, tdef, template)|
      && Catalog(vs, zvals, tdef, template)[p] == LevelRecord(vs[vi], zvals, li, Some(StepTime(tdef, 0)), p)
  {
    SlotsAreStepSize(vs, vi);
    var p := StepSize(vs[..vi]) + li;
    var time := Some(StepTime(tdef, 0));
    assert StepOffset(vs, 0) == 0 && StepBase(vs, template, 0) == 0;
    StepRecordsAt(vs, zvals, time, 0, vi, li);
    var step := StepRecords(vs, zvals, time, 0);
    assert step[p] == LevelRecord(vs[vi], zvals, li, time, p);
    var k := |tdef.values|;
    CatalogAt(vs, zvals, tdef, template, k, 0, p);
    var all := CatalogUpTo(vs, zvals, tdef, template, k);
    assert p < |all| && all[p] == step[p];
    assert Catalog(vs, zvals, tdef, template) == all;
  }

  // ================================================================ decoding

  /** A grid word as its four bytes, most significant first. */
  datatype Word = Word(b0: bv8, b1: bv8, b2: bv8, b3: bv8)

  /** The same word with its bytes in the other order. */
  function Swap(w: Word): Word {
    Word(w.b3, w.b2, w.b1, w.b0)
  }

  /** The word at `file[at..at + 4]`, read big-endian (`'>f'`) or
      little-endian (`'<f'`). */
  function WordAt(file: seq<bv8>, at: nat, big: bool): (w: Word)
    requires at + 4 <= |file|
    ensures big ==> w == Word(file[at], file[at + 1], file[at + 2], file[at + 3])
    ensures !big ==> Swap(w) == Word(file[at], file[at + 1], file[at + 2], file[at + 3])
  {
    if big then Word(file[at], file[at + 1], file[at + 2], file[at + 3])
    else Word(file[at + 3], file[at + 2], file[at + 1], file[at])
  }

  /** Grid cell `(r, c)` lies inside the `ny` by `nx` block. */
  lemma CellInGrid(r: nat, c: nat, nx: nat, ny: nat)
    requires r < ny && c < nx
    ensures 0 <= r * nx + c < nx * ny
  {
    assert 0 <= r * nx;
    assert (r + 1) * nx == r * nx + nx;
    assert (r + 1) * nx <= ny * nx;
    assert ny * nx == nx * ny;
  }

  /** The word of raw row `r`, column `c`, `values.reshape((ny, nx))`. */
  function Cell(file: seq<bv8>, offset: nat, nx: nat, ny: nat, big: bool, r: nat, c: nat): Word
    requires offset + 4 * (nx * ny) <= |file| && r < ny && c < nx
  {
    CellInGrid(r, c, nx, ny);
    WordAt(file, offset + 4 * (r * nx + c), big)
  }

  /** Raw row `r` of the grid. */
  function Row(file: seq<bv8>, offset: nat, nx: nat, ny: nat, big: bool, r: nat): (row: seq<Word>)
    requires offset + 4 * (nx * ny) <= |file| && r < ny
    ensures |row| == nx
  {
    seq(nx, c requires 0 <= c < nx => Cell(file, offset, nx, ny, big, r, c))
  }

  /** The rows in reverse order, `np.flip(values, 0)`. */
  function FlipRows<T>(g: seq<T>): (f: seq<T>)
    ensures |f| == |g|
    ensures forall r :: 0 <= r < |g| ==> f[r] == g[|g| - 1 - r]
  {
    seq(|g|, r requires 0 <= r < |g| => g[|g| - 1 - r])
  }

  /** Flipping twice restores the rows. */
  lemma FlipFlip<T>(g: seq<T>)
    ensures FlipRows(FlipRows(g)) == g
  {
  }

  /** `count` words from `offset` laid out as `ny` rows of `nx`, rows
      flipped when `yrev`. Seeking before the start fails; a file too
      short for the block leaves `reshape` too few words. Negative counts
      are refused. */
  function Grid(file: seq<bv8>, offset: int, nx: int, ny: int, big: bool, yrev: bool): (r: Result<seq<seq<Word>>>)
    ensures r.Ok? <==> 0 <= offset && 0 <= nx && 0 <= ny && offset + 4 * (nx * ny) <= |file|
  {
    if offset < 0 then Err("OSError: negative seek position")
    else if nx < 0 || ny < 0 || offset + 4 * (nx * ny) > |file| then Err("ValueError: cannot reshape array")
    else
      var raw := seq(ny, r requires 0 <= r < ny => Row(file, offset, nx, ny, big, r));
      Ok(if yrev then FlipRows(raw) else raw)
  }

  /** The decoded grid is `ny` rows of `nx` words; row `r` is raw row
      `ny - 1 - r` under `yrev` and raw row `r` otherwise, and its word `c`
      is the four bytes at `offset + 4 * (row * nx + c)` in the chosen
      byte order. */
  lemma GridLayout(file: seq<bv8>, offset: int, nx: int, ny: int, big: bool, yrev: bool, r: nat, c: nat)
    requires Grid(file, offset, nx, ny, big, yrev).Ok? && r < ny && c < nx
    ensures var g := Grid(file, offset, nx, ny, big, yrev).value;
      var raw := if yrev then ny - 1 - r else r;
      && |g| == ny && |g[r]| == nx
      && 0 <= offset + 4 * (raw * nx + c) && offset + 4 * (raw * nx + c) + 4 <= |file|
      && g[r][c] == WordAt(file, offset + 4 * (raw * nx + c), big)
  {
    var raw := if yrev then ny - 1 - r else r;
    CellInGrid(raw, c, nx, ny);
  }

  /** Little-endian words are the big-endian words byte-swapped. */
  lemma ByteOrders(file: seq<bv8>, offset: int, nx: int, ny: int, yrev: bool, r: nat, c: nat)
    requires Grid(file, offset, nx, ny, true, yrev).Ok? && r < ny && c < nx
    ensures Grid(file, offset, nx, ny, false, yrev).Ok?
    ensures Grid(file, offset, nx, ny, false, yrev).value[r][c] == Swap(Grid(file, offset, nx, ny, true, yrev).value[r][c])
  {
    GridLayout(file, offset, nx, ny, true, yrev, r, c);
    GridLayout(file, offset, nx, ny, false, yrev, r, c);
  }

  /** `yrev` flips the decoded rows and nothing else. */
  lemma YrevFlips(file: seq<bv8>, offset: int, nx: int, ny: int, big: bool)
    requires Grid(file, offset, nx, ny, big, false).Ok?
    ensures Grid(file, offset, nx, ny, big, true) == Ok(FlipRows(Grid(file, offset, nx, ny, big, false).value))
  {
  }

  /** What `load_data` reads for a descriptor in state `st` from `offset`. */
  function Decode(st: CtlState, file: seq<bv8>, offset: int): Result<seq<seq<Word>>> {
    var nx :- CountOf(st.xdef);
    var ny :- CountOf(st.ydef);
    Grid(file, offset, nx, ny, st.dataEndian == Big, st.yrev)
  }

  // ================================================================ handlers

  /** `GradsRecordHandler`: one catalog entry and where its data starts. */
  class GradsRecordHandler {
    const ctl: GradsCtl
    const recordIndex: int
    const recordInfo: Record
    var offset: int
    const varIndex: int
    const levelIndex: int
    var data: Option<seq<seq<Word>>>

    /** `GradsRecordHandler(grads_ctl, record_index, offset, var_index,
        level_index)`: the entry is `grads_ctl.record[record_index]`. */
    constructor (c: GradsCtl, ri: int, off: int, vi: int, li: int)
      requires PyIndex(c.records, ri).Some?
      ensures ctl == c && recordIndex == ri && recordInfo == PyIndex(c.records, ri).value
      ensures offset == off && varIndex == vi && levelIndex == li && data == None
    {
      ctl := c;
      recordIndex := ri;
      recordInfo := PyIndex(c.records, ri).value;
      offset := off;
      varIndex := vi;
      levelIndex := li;
      data := None;
    }

    /** `load_data(data_file)`: under `sequential` the stored offset first
        moves past the block's length marker (and moves again on every
        call); then the grid at the offset is decoded and kept. */
    method LoadData(file: seq<bv8>) returns (r: Result<seq<seq<Word>>>)
      modifies this`offset, this`data
      ensures offset == old(offset) + (if Sequential(ctl.State()) then 4 else 0)
      ensures r == Decode(ctl.State(), file, offset)
      ensures r.Ok? ==> data == Some(r.value)
      ensures r.Err? ==> data == old(data)
    {
      if "sequential" in ctl.options {
        offset := offset + 4;
      }
      var nx :- CountOf(ctl.xdef);
      var ny :- CountOf(ctl.ydef);
      var values := Grid(file, offset, nx, ny, ctl.dataEndian == Big, ctl.yrev);
      if values.Err? {
        return values;
      }
      data := Some(values.value);
      r := values;
    }
  }

  /** `GradsDataHandler`: record lookup over a parsed descriptor. */
  class GradsDataHandler {
    const ctl: GradsCtl

    /** `GradsDataHandler(grads_ctl)`. */
    constructor (c: GradsCtl)
      ensures ctl == c
    {
      ctl := c;
    }

    /** `GradsDataHandler()`: an empty descriptor of its own. */
    constructor Empty()
      ensures fresh(ctl) && ctl.State() == Initial(Reki)
    {
      ctl := new GradsCtl(Reki);
    }

    /** `get_offset_by_record_index`. */
    method GetOffsetByRecordIndex(ri: int) returns (r: Result<int>)
      ensures r == OffsetOf(ctl.State(), ri)
    {
      if ri >= |ctl.records| {
        return Err("ValueError: record_index is too large.");
      }
      var nx :- CountOf(ctl.xdef);
      var ny :- CountOf(ctl.ydef);
      if "sequential" in ctl.options {
        r := Ok((nx * ny + 2) * 4 * ri);
      } else {
        r := Ok(nx * ny * 4 * ri);
      }
    }

    /** `find_record`: the first matching entry, as a handler holding its
        catalog position and the offset of its own `record_index`. */
    method FindRecord(q: Query) returns (r: Result<Option<GradsRecordHandler>>)
      ensures var found := FirstMatch(ctl.records, q, 0);
        && (found.Err? ==> r == Err(found.msg))
        && (found == Ok(None) ==> r == Ok(None))
        && (found.Ok? && found.value.Some? ==>
              var p := found.value.value;
              && p < |ctl.records|
              && (r.Ok? <==> OffsetOf(ctl.State(), ctl.records[p].recordIndex).Ok?)
              && (r.Err? ==> r == Err(OffsetOf(ctl.State(), ctl.records[p].recordIndex).msg))
              && (r.Ok? ==>
                    && r.value.Some? && fresh(r.value.value)
                    && r.value.value.ctl == ctl && r.value.value.recordIndex == p
                    && r.value.value.recordInfo == ctl.records[p]
                    && r.value.value.offset == OffsetOf(ctl.State(), ctl.records[p].recordIndex).value
                    && r.value.value.varIndex == -1 && r.value.value.levelIndex == -1))
    {
      var found := FindIndex(ctl.records, q);
      FirstMatchLowest(ctl.records, q, 0);
      match found
      case Err(e) =>
        return Err(e);
      case Ok(None) =>
        return Ok(None);
      case Ok(Some(p)) =>
        var off := GetOffsetByRecordIndex(ctl.records[p].recordIndex);
        if off.Err? {
          return Err(off.msg);
        }
        var handler := new GradsRecordHandler(ctl, p, off.value, -1, -1);
        r := Ok(Some(handler));
    }

    /** The loop of `get_record_by_index` over the variables before `vi`. */
    method SlotsUpTo(vi: int) returns (pos: int)
      requires vi <= |ctl.vars|
      ensures pos == SlotsBefore(ctl.vars, vi)
    {
      pos := 0;
      var a := 0;
      while a < vi
        invariant 0 <= a <= (if vi < 0 then 0 else vi)
        invariant pos == SlotsBefore(ctl.vars, a)
        decreases vi - a
      {
        var levels := ctl.vars[a].levels;
        if levels == 0 {
          pos := pos + 1;
        } else {
          pos := pos + levels;
        }
        a := a + 1;
      }
    }

    /** `get_record_by_index(var_index, level_index)`. */
    method GetRecordByIndex(vi: int, li: int) returns (r: Result<GradsRecordHandler>)
      ensures var pos := RecordPosition(ctl.vars, vi, li);
        && (pos.Err? ==> r.Err?)
        && (pos.Ok? ==>
              (r.Ok? <==> OffsetOf(ctl.State(), pos.value).Ok? && PyIndex(ctl.records, pos.value).Some?)
              && (r.Ok? ==>
                    && fresh(r.value) && r.value.ctl == ctl && r.value.recordIndex == pos.value
                    && r.value.recordInfo == PyIndex(ctl.records, pos.value).value
                    && r.value.offset == OffsetOf(ctl.State(), pos.value).value
                    && r.value.varIndex == vi && r.value.levelIndex == li))
    {
      if vi >= |ctl.vars| {
        return Err("ValueError: variable index is too large.");
      }
      var v := PyIndex(ctl.vars, vi);
      if v.None? {
        return Err("IndexError: list index out of range");
      }
      if 0 < v.value.levels <= li {
        return Err("ValueError: level index is too large.");
      }
      var pos := SlotsUpTo(vi);
      pos := pos + li;
      var off := GetOffsetByRecordIndex(pos);
      if off.Err? {
        return Err(off.msg);
      }
      if PyIndex(ctl.records, pos).None? {
        return Err("IndexError: list index out of range");
      }
      var handler := new GradsRecordHandler(ctl, pos, off.value, vi, li);
      r := Ok(handler);
    }
  }
}
