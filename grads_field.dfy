/** The field loaders of the GrADS format: `load_field_from_file` and
    `create_data_array_from_record` in reki/format/grads/field.py and in
    nwpc_data/format/grads/field.py. A loaded field is kept as its grid and
    its coordinate record; the data files are a map from path to bytes. */
module GradsField {
  import opened Wrappers
  import opened Calendar
  import opened GradsCatalog
  import opened GradsLines
  import opened GradsState
  import opened GradsParser
  import opened GradsData

  // ================================================================ requests

  /** One requested level: Python `None`, an `int` or a `float`. */
  datatype Level = NoLevel | Int(i: int) | Float(x: real)

  /** The `level` argument: one value, or a list of them. */
  datatype LevelRequest = One(level: Level) | Many(levels: seq<Level>)

  /** A non-list level is wrapped into a one-element list. */
  function Requested(req: LevelRequest): seq<Level> {
    match req
    case One(l) => [l]
    case Many(ls) => ls
  }

  /** The level `find_record` compares with, `float(level)`. */
  function LevelValue(l: Level): Option<real> {
    match l
    case NoLevel => None
    case Int(i) => Some(i as real)
    case Float(x) => Some(x)
  }

  /** `grads_ctl.zdef["values"][cur_level]` of the `'index'` level type. */
  function IndexedLevel(zdef: Option<Dimension>, l: Level): (r: Result<Level>)
    ensures r.Ok? <==> zdef.Some? && l.Int? && PyIndex(zdef.value.values, l.i).Some?
    ensures r.Ok? ==> r.value == Float(PyIndex(zdef.value.values, l.i).value)
  {
    if zdef.None? then Err("TypeError: 'NoneType' object is not subscriptable")
    else
      match l
      case NoLevel => Err("TypeError: list indices must be integers or slices, not NoneType")
      case Float(_) => Err("TypeError: list indices must be integers or slices, not float")
      case Int(i) =>
        match PyIndex(zdef.value.values, i)
        case None => Err("IndexError: list index out of range")
        case Some(v) => Ok(Float(v))
  }

  /** The list comprehension of `'index'`, element by element: the first
      element that fails raises. */
  function IndexedLevels(zdef: Option<Dimension>, ls: seq<Level>): (r: Result<seq<Level>>)
    ensures r.Ok? <==> forall i :: 0 <= i < |ls| ==> IndexedLevel(zdef, ls[i]).Ok?
    ensures r.Ok? ==> |r.value| == |ls| && forall i :: 0 <= i < |ls| ==> r.value[i] == IndexedLevel(zdef, ls[i]).value
  {
    if ls == [] then Ok([])
    else
      match IndexedLevel(zdef, ls[0])
      case Err(e) => Err(e)
      case Ok(l) =>
        match IndexedLevels(zdef, ls[1..])
        case Err(e) => Err(e)
        case Ok(rest) =>
          assert forall i :: 1 <= i < |ls| ==> ls[i] == ls[1..][i - 1];
          Ok([l] + rest)
  }

  /** Level normalisation: the levels to look up and the record kind to
      search. `'single'` looks up zero for each request among single-level
      records, `'index'` maps each request to a `zdef` value, and every other
      level type keeps the requests and searches multi-level records. */
  function Normalise(zdef: Option<Dimension>, levelType: Option<string>, req: LevelRequest): (r: Result<(seq<Level>, LevelKind)>)
    ensures r.Ok? ==> |r.value.0| == |Requested(req)|
    ensures levelType == Some("single") ==>
      && r.Ok? && r.value.1 == Single
      && forall i :: 0 <= i < |r.value.0| ==> r.value.0[i] == Float(0.0)
    ensures levelType == Some("index") ==>
      && (r.Ok? <==> forall i :: 0 <= i < |Requested(req)| ==> IndexedLevel(zdef, Requested(req)[i]).Ok?)
      && (r.Ok? ==> r.value.1 == Multi && forall i :: 0 <= i < |r.value.0| ==>
            r.value.0[i] == IndexedLevel(zdef, Requested(req)[i]).value)
    ensures levelType != Some("single") && levelType != Some("index") ==> r == Ok((Requested(req), Multi))
  {
    var ls := Requested(req);
    if levelType == Some("single") then Ok((seq(|ls|, _ => Float(0.0)), Single))
    else if levelType == Some("index") then
      var mapped :- IndexedLevels(zdef, ls);
      Ok((mapped, Multi))
    else Ok((ls, Multi))
  }

  /** The name of the level axis in reki: `level_dim` when given, else the
      level type when it is `'pl'` or `'ml'`, else `'level'`. */
  function DimName(levelType: Option<string>, levelDim: Option<string>): (name: string)
    ensures levelDim.Some? ==> name == levelDim.value
    ensures levelDim.None? && levelType in {Some("pl"), Some("ml")} ==> name == levelType.value
    ensures levelDim.None? && levelType !in {Some("pl"), Some("ml")} ==> name == "level"
  {
    if levelDim.Some? then levelDim.value
    else if levelType == Some("pl") || levelType == Some("ml") then levelType.value
    else "level"
  }

  /** The name of the level axis in nwpc_data as written: it is assigned
      only for `'pl'`/`'ml'` or an explicit `level_dim`, and is otherwise
      unbound (`None` here). */
  function LegacyDimNameAsWritten(levelType: Option<string>, levelDim: Option<string>): (name: Option<string>)
    ensures name.None? <==> levelDim.None? && levelType !in {Some("pl"), Some("ml")}
    ensures name.Some? ==> name.value == DimName(levelType, levelDim)
  {
    if levelDim.Some? then levelDim
    else if levelType == Some("pl") || levelType == Some("ml") then levelType
    else None
  }

  // ================================================================ fields

  /** A loaded field: its grid and its coordinate record. `run` holds the
      `start_time` and `forecast_time` coordinates when both are attached;
      `description` is the one attribute reki sets. */
  datatype Field = Field(
    name: string,
    values: seq<seq<Word>>,
    lats: seq<real>,
    latUnits: string,
    lons: seq<real>,
    levelDim: string,
    level: Level,
    validTime: Option<Timestamp>,
    run: Option<(Timestamp, Duration)>,
    description: Option<string>)

  /** What one call returns: `None`, the only field, or the fields stacked
      along the level axis. */
  datatype Loaded = NoField | OneField(field: Field) | Stacked(dim: string, fields: seq<Field>)

  /** The arguments that stay the same across the lookups of one call.
      `dim` is `None` while the axis name is unbound; the legacy loader has
      no latitude direction and no forecast time. */
  datatype Ask = Ask(
    parameter: string,
    kind: LevelKind,
    dim: Option<string>,
    latDir: string,
    forecastTime: Option<Duration>)

  /** `open(path, "rb")`: no path is a TypeError, a missing file a
      FileNotFoundError. */
  function ReadFile(files: map<string, seq<bv8>>, path: Option<string>): (r: Result<seq<bv8>>)
    ensures r.Ok? <==> path.Some? && path.value in files
    ensures r.Ok? ==> r.value == files[path.value]
  {
    match path
    case None => Err("TypeError: expected str, bytes or os.PathLike object, not NoneType")
    case Some(p) => if p in files then Ok(files[p]) else Err("FileNotFoundError: " + p)
  }

  /** The run coordinates: attached only when both times are set. */
  function RunOf(st: CtlState): Option<(Timestamp, Duration)> {
    if st.startTime.Some? && st.forecastTime.Some? then Some((st.startTime.value, st.forecastTime.value))
    else None
  }

  /** The file a record's data is read from: reki resolves the `dset`
      template for the record, nwpc_data always opens `dset`. */
  function DataPath(d: Dialect, st: CtlState, rec: Record): Result<Option<string>> {
    if d == Reki then DataFilePath(st.dset, st.dsetTemplate, rec) else Ok(st.dset)
  }

  /** The decoded grid of a record whose handler holds `offset`: the data
      file is opened, then `load_data` reads from the offset, moved past
      the length marker under `sequential`. */
  function RecordGrid(d: Dialect, st: CtlState, files: map<string, seq<bv8>>, rec: Record, offset: int): Result<seq<seq<Word>>> {
    var path :- DataPath(d, st, rec);
    var bytes :- ReadFile(files, path);
    Decode(st, bytes, offset + (if Sequential(st) then 4 else 0))
  }

  /** `create_data_array_from_record` for a record whose handler holds
      `offset`: the grid, then the coordinates. reki flips rows and
      latitudes for `'degree_north'` and needs the record's valid time;
      nwpc_data keeps the decoded order and labels the latitudes
      `'degrees_south'`. */
  function FieldOf(d: Dialect, st: CtlState, files: map<string, seq<bv8>>, rec: Record, offset: int,
                   ask: Ask, dim: string, level: Level): Result<Field>
  {
    var grid :- RecordGrid(d, st, files, rec, offset);
    var lons := ValuesOf(st.xdef);
    var lats := ValuesOf(st.ydef);
    if d == Legacy then
      Ok(Field(ask.parameter, grid, lats, "degrees_south", lons, dim, level, None, None, None))
    else if rec.time.None? then Err("KeyError: 'valid_time'")
    else
      var north := ask.latDir == "degree_north";
      Ok(Field(ask.parameter, if north then FlipRows(grid) else grid, if north then FlipRows(lats) else lats,
               ask.latDir, lons, dim, level, Some(rec.time.value.validTime), RunOf(st), Some(rec.description)))
  }

  /** A field carries the parameter as its name and the requested level as
      its level coordinate, whatever the record's own level; its grid is
      the record's grid, and in reki under `'degree_north'` both its rows
      and its latitudes are reversed. reki adds the record's valid time,
      its description and, when both are set, the run times; nwpc_data
      adds none of them and labels latitudes `'degrees_south'`. */
  lemma FieldCoordinates(d: Dialect, st: CtlState, files: map<string, seq<bv8>>, rec: Record, offset: int,
                         ask: Ask, dim: string, level: Level)
    requires FieldOf(d, st, files, rec, offset, ask, dim, level).Ok?
    ensures var f := FieldOf(d, st, files, rec, offset, ask, dim, level).value;
      var grid := RecordGrid(d, st, files, rec, offset);
      var north := d == Reki && ask.latDir == "degree_north";
      && grid.Ok?
      && f.name == ask.parameter && f.level == level && f.levelDim == dim
      && f.values == (if north then FlipRows(grid.value) else grid.value)
      && f.lats == (if north then FlipRows(ValuesOf(st.ydef)) else ValuesOf(st.ydef))
      && f.lons == ValuesOf(st.xdef)
    ensures var f := FieldOf(d, st, files, rec, offset, ask, dim, level).value;
      d == Reki ==>
        && rec.time.Some? && f.validTime == Some(rec.time.value.validTime)
        && f.description == Some(rec.description) && f.latUnits == ask.latDir
        && f.run == RunOf(st)
    ensures var f := FieldOf(d, st, files, rec, offset, ask, dim, level).value;
      d == Legacy ==>
        && f.validTime.None? && f.run.None? && f.description.None?
        && f.latUnits == "degrees_south"
  {
  }

  /** reki reads the file named by the `dset` template for the record;
      nwpc_data always reads `dset`. */
  lemma RecordFile(d: Dialect, st: CtlState, files: map<string, seq<bv8>>, rec: Record, offset: int)
    requires RecordGrid(d, st, files, rec, offset).Ok?
    ensures var path := if d == Reki then DataFilePath(st.dset, st.dsetTemplate, rec) else Ok(st.dset);
      && path.Ok? && path.value.Some? && path.value.value in files
      && RecordGrid(d, st, files, rec, offset) == Decode(st, files[path.value.value], offset + (if Sequential(st) then 4 else 0))
  {
  }

  /** The `find_record` filters of one lookup. */
  function QueryOf(ask: Ask, l: Level): Query {
    Query(ask.parameter, LevelValue(l), Some(KindName(ask.kind)), None, ask.forecastTime)
  }

  /** One pass of the loop: no matching record is a miss; a match whose
      axis name is unbound fails before its data is read; otherwise the
      field of the matching record. */
  function Hit(d: Dialect, st: CtlState, files: map<string, seq<bv8>>, ask: Ask, l: Level): Result<Option<Field>>
  {
    var found :- FirstMatch(st.records, QueryOf(ask, l), 0);
    if found.None? then Ok(None)
    else
      var rec := st.records[found.value];
      var offset :- OffsetOf(st, rec.recordIndex);
      if ask.dim.None? then Err("UnboundLocalError: local variable 'level_dim_name' referenced before assignment")
      else
        var f :- FieldOf(d, st, files, rec, offset, ask, ask.dim.value, l);
        Ok(Some(f))
  }

  /** A lookup with no matching record is a miss; a field comes from the
      first matching record, read at the offset of its record index. */
  lemma HitIsFirstMatch(d: Dialect, st: CtlState, files: map<string, seq<bv8>>, ask: Ask, l: Level)
    ensures var found := FirstMatch(st.records, QueryOf(ask, l), 0);
      found == Ok(None) ==> Hit(d, st, files, ask, l) == Ok(None)
    ensures var r := Hit(d, st, files, ask, l);
      r.Ok? && r.value.Some? ==>
        var found := FirstMatch(st.records, QueryOf(ask, l), 0);
        && found.Ok? && found.value.Some? && ask.dim.Some?
        && var rec := st.records[found.value.value];
           && OffsetOf(st, rec.recordIndex).Ok?
           && FieldOf(d, st, files, rec, OffsetOf(st, rec.recordIndex).value, ask, ask.dim.value, l) == Ok(r.value.value)
  {
    if FirstMatch(st.records, QueryOf(ask, l), 0) == Ok(None) {
      HitMiss(d, st, files, ask, l);
    }
    HitMatch(d, st, files, ask, l);
  }

  /** No matching record: the lookup is a miss. */
  lemma HitMiss(d: Dialect, st: CtlState, files: map<string, seq<bv8>>, ask: Ask, l: Level)
    requires FirstMatch(st.records, QueryOf(ask, l), 0) == Ok(None)
    ensures Hit(d, st, files, ask, l) == Ok(None)
  {
  }

  /** A field the lookup returns is read from the first matching record. */
  lemma HitMatch(d: Dialect, st: CtlState, files: map<string, seq<bv8>>, ask: Ask, l: Level)
    ensures var r := Hit(d, st, files, ask, l);
      r.Ok? && r.value.Some? ==>
        var found := FirstMatch(st.records, QueryOf(ask, l), 0);
        && found.Ok? && found.value.Some? && ask.dim.Some?
        && var rec := st.records[found.value.value];
           && OffsetOf(st, rec.recordIndex).Ok?
           && FieldOf(d, st, files, rec, OffsetOf(st, rec.recordIndex).value, ask, ask.dim.value, l) == Ok(r.value.value)
  {
    var r := Hit(d, st, files, ask, l);
    if r.Ok? && r.value.Some? {
      var found := FirstMatch(st.records, QueryOf(ask, l), 0);
      assert found.Ok? && found.value.Some?;
      var p := found.value.value;
      var rec := st.records[p];
      assert OffsetOf(st, rec.recordIndex).Ok? && ask.dim.Some?;
      var offset := OffsetOf(st, rec.recordIndex).value;
      HitFound(d, st, files, ask, l, p, offset, FieldOf(d, st, files, rec, offset, ask, ask.dim.value, l));
    }
  }

  /** The lookup's result once the first match, its offset and its field
      are known. */
  lemma HitFound(d: Dialect, st: CtlState, files: map<string, seq<bv8>>, ask: Ask, l: Level,
                 p: nat, offset: int, fr: Result<Field>)
    requires FirstMatch(st.records, QueryOf(ask, l), 0).Ok?
    requires FirstMatch(st.records, QueryOf(ask, l), 0).value == Some(p) && p < |st.records|
    requires OffsetOf(st, st.records[p].recordIndex).Ok? && OffsetOf(st, st.records[p].recordIndex).value == offset
    requires ask.dim.Some? && fr == FieldOf(d, st, files, st.records[p], offset, ask, ask.dim.value, l)
    ensures Hit(d, st, files, ask, l) == (if fr.Ok? then Ok(Some(fr.value)) else Err(fr.msg))
  {
  }

  // ================================================================ the loop

  /** The loop over the requested levels, one lookup each in request
      order: misses are skipped and the first lookup that raises ends the
      call. It is stated for any lookup `f`. */
  function Walk<T, U>(f: T -> Result<Option<U>>, xs: seq<T>): Result<seq<U>>
    decreases |xs|
  {
    if xs == [] then Ok([])
    else
      match Walk(f, xs[..|xs| - 1])
      case Err(e) => Err(e)
      case Ok(init) =>
        match f(xs[|xs| - 1])
        case Err(e) => Err(e)
        case Ok(hit) => Ok(init + (if hit.Some? then [hit.value] else []))
  }

  /** The positions of the requests that hit, in increasing order. */
  function HitPositions<T, U>(f: T -> Result<Option<U>>, xs: seq<T>): seq<nat>
    decreases |xs|
  {
    if xs == [] then []
    else
      var init := HitPositions(f, xs[..|xs| - 1]);
      var last := f(xs[|xs| - 1]);
      if last.Ok? && last.value.Some? then init + [|xs| - 1] else init
  }

  /** The positions are increasing, in range, and hold exactly the requests
      whose lookup found a record. */
  lemma {:induction false} HitPositionsExact<T, U>(f: T -> Result<Option<U>>, xs: seq<T>)
    ensures var ps := HitPositions(f, xs);
      && (forall k :: 0 <= k < |ps| ==> ps[k] < |xs| && f(xs[ps[k]]).Ok? && f(xs[ps[k]]).value.Some?)
      && (forall j, k :: 0 <= j < k < |ps| ==> ps[j] < ps[k])
      && (forall i :: 0 <= i < |xs| && f(xs[i]).Ok? && f(xs[i]).value.Some? ==> i in ps)
    decreases |xs|
  {
    if xs != [] {
      var n := |xs| - 1;
      HitPositionsExact(f, xs[..n]);
      var init := HitPositions(f, xs[..n]);
      assert forall k :: 0 <= k < |init| ==> init[k] < n && xs[init[k]] == xs[..n][init[k]];
      assert forall i :: 0 <= i < n ==> xs[i] == xs[..n][i];
    }
  }

  /** The loop succeeds exactly when every lookup succeeds. */
  lemma {:induction false} WalkOk<T, U>(f: T -> Result<Option<U>>, xs: seq<T>)
    ensures Walk(f, xs).Ok? <==> forall i :: 0 <= i < |xs| ==> f(xs[i]).Ok?
    decreases |xs|
  {
    if xs != [] {
      var n := |xs| - 1;
      WalkOk(f, xs[..n]);
      assert forall i :: 0 <= i < n ==> xs[i] == xs[..n][i];
    }
  }

  /** The fields come out in request order, one per hit: field `k` is the
      result of the `k`-th request that found a record. */
  lemma {:induction false} WalkInRequestOrder<T, U>(f: T -> Result<Option<U>>, xs: seq<T>)
    requires Walk(f, xs).Ok?
    ensures var ps := HitPositions(f, xs);
      var fs := Walk(f, xs).value;
      && |fs| == |ps|
      && forall k :: 0 <= k < |fs| ==> ps[k] < |xs| && f(xs[ps[k]]) == Ok(Some(fs[k]))
    decreases |xs|
  {
    if xs != [] {
      var n := |xs| - 1;
      WalkInRequestOrder(f, xs[..n]);
      var init := HitPositions(f, xs[..n]);
      assert forall k :: 0 <= k < |init| ==> init[k] < n && xs[init[k]] == xs[..n][init[k]];
    }
  }

  /** Once a prefix of the requests fails, the whole loop fails with the
      same error. */
  lemma {:induction false} WalkPrefixFails<T, U>(f: T -> Result<Option<U>>, xs: seq<T>, k: nat)
    requires k <= |xs| && Walk(f, xs[..k]).Err?
    ensures Walk(f, xs) == Walk(f, xs[..k])
    decreases |xs| - k
  {
    if k < |xs| {
      var n := |xs| - 1;
      assert xs[..n][..k] == xs[..k];
      WalkPrefixFails(f, xs[..n], k);
    } else {
      assert xs[..k] == xs;
    }
  }

  /** One more request extends the loop by its hit, or ends it with its
      error. */
  lemma WalkStep<T, U>(f: T -> Result<Option<U>>, xs: seq<T>, k: nat)
    requires k < |xs| && Walk(f, xs[..k]).Ok?
    ensures f(xs[k]).Err? ==> Walk(f, xs[..k + 1]) == Err(f(xs[k]).msg)
    ensures f(xs[k]).Ok? ==>
      Walk(f, xs[..k + 1]) == Ok(Walk(f, xs[..k]).value + (if f(xs[k]).value.Some? then [f(xs[k]).value.value] else []))
  {
    assert xs[..k + 1][..k] == xs[..k];
    assert xs[..k + 1][k] == xs[k];
  }

  /** The lookup of one level, as a function value. */
  function Lookup(d: Dialect, st: CtlState, files: map<string, seq<bv8>>, ask: Ask): Level -> Result<Option<Field>> {
    l => Hit(d, st, files, ask, l)
  }

  /** Zero hits give `None`, one hit gives that field, more are stacked
      along the level axis in the order found. */
  function Assemble(fs: seq<Field>, dim: string): (r: Loaded)
    ensures r.NoField? <==> fs == []
    ensures r.OneField? <==> |fs| == 1
    ensures r.OneField? ==> r.field == fs[0]
    ensures r.Stacked? ==> 2 <= |fs| && r.fields == fs && r.dim == dim
  {
    if |fs| == 0 then NoField
    else if |fs| == 1 then OneField(fs[0])
    else Stacked(dim, fs)
  }

  /** `load_field_from_file` after parsing, in either dialect, given the
      axis name in force. */
  function LoadWith(d: Dialect, st: CtlState, files: map<string, seq<bv8>>, parameter: string,
                    levelType: Option<string>, req: LevelRequest, dim: Option<string>,
                    latDir: string, forecastTime: Option<Duration>): Result<Loaded>
  {
    var norm :- Normalise(st.zdef, levelType, req);
    var ask := Ask(parameter, norm.1, dim, latDir, if d == Reki then forecastTime else None);
    var fs :- Walk(Lookup(d, st, files, ask), norm.0);
    Ok(Assemble(fs, if dim.Some? then dim.value else ""))
  }

  /** reki's `load_field_from_file` on a parsed descriptor. */
  function RekiLoad(st: CtlState, files: map<string, seq<bv8>>, parameter: string, levelType: Option<string>,
                    req: LevelRequest, levelDim: Option<string>, latDir: string,
                    forecastTime: Option<Duration>): Result<Loaded> {
    LoadWith(Reki, st, files, parameter, levelType, req, Some(DimName(levelType, levelDim)), latDir, forecastTime)
  }

  /** nwpc_data's `load_field_from_file` as written: the axis name may be
      unbound. */
  function LegacyLoadAsWritten(st: CtlState, files: map<string, seq<bv8>>, parameter: string,
                               levelType: Option<string>, req: LevelRequest, levelDim: Option<string>): Result<Loaded> {
    LoadWith(Legacy, st, files, parameter, levelType, req, LegacyDimNameAsWritten(levelType, levelDim), "", None)
  }

  /** nwpc_data's `load_field_from_file` with the axis named `'level'` by
      default, as reki names it. */
  function LegacyLoad(st: CtlState, files: map<string, seq<bv8>>, parameter: string,
                      levelType: Option<string>, req: LevelRequest, levelDim: Option<string>): Result<Loaded> {
    LoadWith(Legacy, st, files, parameter, levelType, req, Some(DimName(levelType, levelDim)), "", None)
  }

  // ================================================================ properties

  /** A call returns nothing exactly when no requested level finds a
      record, and a single field exactly when one does. */
  lemma LoadHits(d: Dialect, st: CtlState, files: map<string, seq<bv8>>, parameter: string,
                 levelType: Option<string>, req: LevelRequest, dim: Option<string>,
                 latDir: string, forecastTime: Option<Duration>)
    requires LoadWith(d, st, files, parameter, levelType, req, dim, latDir, forecastTime).Ok?
    ensures var norm := Normalise(st.zdef, levelType, req).value;
      var ask := Ask(parameter, norm.1, dim, latDir, if d == Reki then forecastTime else None);
      var ps := HitPositions(Lookup(d, st, files, ask), norm.0);
      var r := LoadWith(d, st, files, parameter, levelType, req, dim, latDir, forecastTime).value;
      && (r.NoField? <==> ps == [])
      && (r.OneField? <==> |ps| == 1)
      && (r.OneField? ==> ps[0] < |norm.0| && Hit(d, st, files, ask, norm.0[ps[0]]) == Ok(Some(r.field)))
      && (r.Stacked? ==> |r.fields| == |ps| && forall k :: 0 <= k < |ps| ==>
            ps[k] < |norm.0| && Hit(d, st, files, ask, norm.0[ps[k]]) == Ok(Some(r.fields[k])))
  {
    var norm := Normalise(st.zdef, levelType, req).value;
    var ask := Ask(parameter, norm.1, dim, latDir, if d == Reki then forecastTime else None);
    WalkInRequestOrder(Lookup(d, st, files, ask), norm.0);
  }

  /** The rows reki hands out: under `'degree_north'` the decoded grid
      is flipped again, so row `r` is raw row `r` of the file when `yrev`
      and `'degree_north'` cancel or are both absent, and raw row
      `ny - 1 - r` otherwise. */
  lemma NorthRowOrder(bytes: seq<bv8>, at: int, nx: int, ny: int, big: bool, yrev: bool, north: bool, r: nat, c: nat)
    requires Grid(bytes, at, nx, ny, big, yrev).Ok? && r < ny && c < nx
    ensures var g := Grid(bytes, at, nx, ny, big, yrev).value;
      var v := if north then FlipRows(g) else g;
      var raw := if yrev != north then ny - 1 - r else r;
      && |v| == ny && |v[r]| == nx
      && 0 <= at + 4 * (raw * nx + c) && at + 4 * (raw * nx + c) + 4 <= |bytes|
      && v[r][c] == WordAt(bytes, at + 4 * (raw * nx + c), big)
  {
    var g := Grid(bytes, at, nx, ny, big, yrev).value;
    if north {
      var row := ny - 1 - r;
      GridLayout(bytes, at, nx, ny, big, yrev, row, c);
      assert FlipRows(g)[r] == g[row];
      if yrev {
        assert ny - 1 - row == r;
      }
    } else {
      GridLayout(bytes, at, nx, ny, big, yrev, r, c);
    }
  }

  /** With `yrev` and `'degree_north'` together a reki field is the grid
      in file row order. */
  lemma NorthUndoesYrev(st: CtlState, files: map<string, seq<bv8>>, rec: Record, offset: int, ask: Ask,
                        dim: string, level: Level)
    requires FieldOf(Reki, st, files, rec, offset, ask, dim, level).Ok?
    requires st.yrev && ask.latDir == "degree_north"
    ensures var path := DataFilePath(st.dset, st.dsetTemplate, rec);
      path.Ok? && path.value.Some? && path.value.value in files
    ensures var bytes := files[DataFilePath(st.dset, st.dsetTemplate, rec).value.value];
      var at := offset + (if Sequential(st) then 4 else 0);
      var plain := Grid(bytes, at, CountOf(st.xdef).value, CountOf(st.ydef).value, st.dataEndian == Big, false);
      plain.Ok? && FieldOf(Reki, st, files, rec, offset, ask, dim, level).value.values == plain.value
  {
    FieldCoordinates(Reki, st, files, rec, offset, ask, dim, level);
    RecordFile(Reki, st, files, rec, offset);
    var bytes := files[DataFilePath(st.dset, st.dsetTemplate, rec).value.value];
    var at := offset + (if Sequential(st) then 4 else 0);
    var nx, ny := CountOf(st.xdef).value, CountOf(st.ydef).value;
    var big := st.dataEndian == Big;
    YrevFlips(bytes, at, nx, ny, big);
    FlipFlip(Grid(bytes, at, nx, ny, big, false).value);
  }

  /** In nwpc_data as written, a scalar request with neither `'pl'`/`'ml'`
      nor `level_dim` fails as soon as its lookup finds a record. */
  lemma LegacyUnboundName(st: CtlState, files: map<string, seq<bv8>>, parameter: string, l: Level)
    requires Hit(Legacy, st, files, Ask(parameter, Multi, Some("level"), "", None), l).Ok?
    requires Hit(Legacy, st, files, Ask(parameter, Multi, Some("level"), "", None), l).value.Some?
    ensures LegacyLoadAsWritten(st, files, parameter, None, One(l), None).Err?
  {
    HitUnbound(Legacy, st, files, Ask(parameter, Multi, Some("level"), "", None), l);
    LoadScalar(Legacy, st, files, parameter, l, None, "", None);
  }

  /** The corrected nwpc_data loader returns that request's field, on an
      axis named `'level'`. */
  lemma LegacyDefaultName(st: CtlState, files: map<string, seq<bv8>>, parameter: string, l: Level)
    requires Hit(Legacy, st, files, Ask(parameter, Multi, Some("level"), "", None), l).Ok?
    requires Hit(Legacy, st, files, Ask(parameter, Multi, Some("level"), "", None), l).value.Some?
    ensures var r := LegacyLoad(st, files, parameter, None, One(l), None);
      && r.Ok? && r.value.OneField? && r.value.field.levelDim == "level"
      && r.value.field.level == l
  {
    var ask := Ask(parameter, Multi, Some("level"), "", None);
    HitIsFirstMatch(Legacy, st, files, ask, l);
    var found := FirstMatch(st.records, QueryOf(ask, l), 0);
    var rec := st.records[found.value.value];
    FieldCoordinates(Legacy, st, files, rec, OffsetOf(st, rec.recordIndex).value, ask, "level", l);
    LoadScalar(Legacy, st, files, parameter, l, Some("level"), "", None);
  }

  /** A scalar request with no level type is one lookup: its error, `None`
      for a miss, or the field itself. */
  lemma LoadScalar(d: Dialect, st: CtlState, files: map<string, seq<bv8>>, parameter: string, l: Level,
                   dim: Option<string>, latDir: string, forecastTime: Option<Duration>)
    ensures var ask := Ask(parameter, Multi, dim, latDir, if d == Reki then forecastTime else None);
      var hit := Hit(d, st, files, ask, l);
      var r := LoadWith(d, st, files, parameter, None, One(l), dim, latDir, forecastTime);
      && (hit.Err? ==> r.Err?)
      && (hit == Ok(None) ==> r == Ok(NoField))
      && (hit.Ok? && hit.value.Some? ==> r == Ok(OneField(hit.value.value)))
  {
    var ask := Ask(parameter, Multi, dim, latDir, if d == Reki then forecastTime else None);
    assert Normalise(st.zdef, None, One(l)) == Ok(([l], Multi));
    WalkOne(Lookup(d, st, files, ask), l);
  }

  /** A lookup that finds a record fails when the axis name is unbound. */
  lemma HitUnbound(d: Dialect, st: CtlState, files: map<string, seq<bv8>>, ask: Ask, l: Level)
    requires Hit(d, st, files, ask, l).Ok? && Hit(d, st, files, ask, l).value.Some?
    ensures Hit(d, st, files, ask.(dim := None), l).Err?
  {
    assert QueryOf(ask.(dim := None), l) == QueryOf(ask, l);
  }

  /** The loop over a single request. */
  lemma WalkOne<T, U>(f: T -> Result<Option<U>>, x: T)
    ensures f(x).Err? ==> Walk(f, [x]) == Err(f(x).msg)
    ensures f(x).Ok? ==> Walk(f, [x]) == Ok(if f(x).value.Some? then [f(x).value.value] else [])
  {
    assert [x][..0] == [];
    assert [x][0] == x;
    assert Walk(f, [x][..0]) == Ok([]);
    assert forall s: seq<U> :: [] + s == s;
  }

  // ================================================================ methods

  /** `open(path, "rb")` on the data files. */
  method OpenFile(files: map<string, seq<bv8>>, path: Option<string>) returns (r: Result<seq<bv8>>)
    ensures r == ReadFile(files, path)
  {
    if path.None? {
      return Err("TypeError: expected str, bytes or os.PathLike object, not NoneType");
    }
    if path.value !in files {
      return Err("FileNotFoundError: " + path.value);
    }
    r := Ok(files[path.value]);
  }

  /** `create_data_array_from_record`: reads through the record handler,
      which moves its offset under `sequential`. */
  method CreateDataArrayFromRecord(d: Dialect, record: GradsRecordHandler, files: map<string, seq<bv8>>,
                                   ask: Ask, dim: string, level: Level, ghost st: CtlState) returns (r: Result<Field>)
    requires record.ctl.State() == st
    modifies record`offset, record`data
    ensures r == FieldOf(d, st, files, record.recordInfo, old(record.offset), ask, dim, level)
  {
    var ctl := record.ctl;
    var path := if d == Reki then DataFilePath(ctl.dset, ctl.dsetTemplate, record.recordInfo) else Ok(ctl.dset);
    if path.Err? {
      return Err(path.msg);
    }
    var bytes := OpenFile(files, path.value);
    if bytes.Err? {
      return Err(bytes.msg);
    }
    var values := record.LoadData(bytes.value);
    if values.Err? {
      return Err(values.msg);
    }
    var grid := values.value;
    var lons := ctl.xdef;
    var lats := ValuesOf(ctl.ydef);
    if d == Legacy {
      return Ok(Field(ask.parameter, grid, lats, "degrees_south", ValuesOf(lons), dim, level, None, None, None));
    }
    if ask.latDir == "degree_north" {
      grid := FlipRows(grid);
      lats := FlipRows(lats);
    }
    if record.recordInfo.time.None? {
      return Err("KeyError: 'valid_time'");
    }
    var run := None;
    if ctl.startTime.Some? && ctl.forecastTime.Some? {
      run := Some((ctl.startTime.value, ctl.forecastTime.value));
    }
    r := Ok(Field(ask.parameter, grid, lats, ask.latDir, ValuesOf(lons), dim, level,
                  Some(record.recordInfo.time.value.validTime), run, Some(record.recordInfo.description)));
  }

  /** One pass of the loop: `find_record`, then the field of the match. */
  method LoadLevel(d: Dialect, handler: GradsDataHandler, files: map<string, seq<bv8>>, ask: Ask, l: Level)
    returns (r: Result<Option<Field>>)
    ensures r == Hit(d, handler.ctl.State(), files, ask, l)
  {
    ghost var st := handler.ctl.State();
    ghost var found := FirstMatch(st.records, QueryOf(ask, l), 0);
    var record := handler.FindRecord(QueryOf(ask, l));
    if record.Err? {
      return Err(record.msg);
    }
    if record.value.None? {
      return Ok(None);
    }
    r := LoadFound(d, record.value.value, files, ask, l, st, found.value.value);
  }

  /** The rest of the pass once `find_record` has returned a record: the
      level dimension's name, then the field. */
  method LoadFound(d: Dialect, rec: GradsRecordHandler, files: map<string, seq<bv8>>, ask: Ask, l: Level,
                   ghost st: CtlState, ghost p: nat)
    returns (r: Result<Option<Field>>)
    requires rec.ctl.State() == st && p < |st.records|
    requires FirstMatch(st.records, QueryOf(ask, l), 0) == Ok(Some(p))
    requires rec.recordInfo == st.records[p]
    requires OffsetOf(st, st.records[p].recordIndex) == Ok(rec.offset)
    modifies rec`offset, rec`data
    ensures r == Hit(d, st, files, ask, l)
  {
    if ask.dim.None? {
      return Err("UnboundLocalError: local variable 'level_dim_name' referenced before assignment");
    }
    ghost var offset := rec.offset;
    var field := CreateDataArrayFromRecord(d, rec, files, ask, ask.dim.value, l, st);
    HitFound(d, st, files, ask, l, p, offset, field);
    if field.Err? {
      return Err(field.msg);
    }
    r := Ok(Some(field.value));
  }

  /** The loop of `load_field_from_file` over the normalised levels. */
  method CollectFields(d: Dialect, handler: GradsDataHandler, files: map<string, seq<bv8>>, ask: Ask, ls: seq<Level>)
    returns (r: Result<seq<Field>>)
    ensures r == Walk(Lookup(d, handler.ctl.State(), files, ask), ls)
  {
    ghost var f := Lookup(d, handler.ctl.State(), files, ask);
    var fields := [];
    var i := 0;
    while i < |ls|
      invariant i <= |ls|
      invariant Walk(f, ls[..i]) == Ok(fields)
      decreases |ls| - i
    {
      var hit := LoadLevel(d, handler, files, ask, ls[i]);
      assert f(ls[i]) == hit;
      WalkStep(f, ls, i);
      if hit.Err? {
        WalkPrefixFails(f, ls, i + 1);
        return Err(hit.msg);
      }
      fields := fields + if hit.value.Some? then [hit.value.value] else [];
      i := i + 1;
    }
    assert ls[..i] == ls;
    r := Ok(fields);
  }

  /** reki's `load_field_from_file`: parse the descriptor, normalise the
      levels, look each one up and assemble the hits. */
  method RekiLoadFieldFromFile(path: string, fileName: string, raw: seq<string>, files: map<string, seq<bv8>>,
                               parameter: string, levelType: Option<string>, req: LevelRequest,
                               levelDim: Option<string>, latDir: string, forecastTime: Option<Duration>)
    returns (r: Result<Loaded>)
    ensures ParseCtl(Reki, path, fileName, raw).Err? ==> r.Err?
    ensures ParseCtl(Reki, path, fileName, raw).Ok? ==>
      r == RekiLoad(ParseCtl(Reki, path, fileName, raw).value, files, parameter, levelType, req, levelDim, latDir, forecastTime)
  {
    var parser := new GradsCtlParser(Reki);
    var parsed := parser.Parse(path, fileName, raw);
    ghost var parsedCtl := ParseCtl(Reki, path, fileName, raw);
    assert parsedCtl == ParseWith(ReadersOf(Reki, path, fileName), Initial(Reki), raw);
    if parsed.Fail? {
      return Err(parsed.msg);
    }
    var ctl := parser.ctl;
    ghost var st := ctl.State();
    assert st == parsedCtl.value;
    RekiLoadSteps(st, files, parameter, levelType, req, levelDim, latDir, forecastTime);
    var norm := Normalise(ctl.zdef, levelType, req);
    if norm.Err? {
      return Err(norm.msg);
    }
    var dim := DimName(levelType, levelDim);
    var handler := new GradsDataHandler(ctl);
    var ask := Ask(parameter, norm.value.1, Some(dim), latDir, forecastTime);
    var fields := CollectFields(Reki, handler, files, ask, norm.value.0);
    if fields.Err? {
      return Err(fields.msg);
    }
    r := Ok(Assemble(fields.value, dim));
  }

  /** reki's loader on a parsed descriptor, step by step as the method
      takes it. */
  lemma RekiLoadSteps(st: CtlState, files: map<string, seq<bv8>>, parameter: string, levelType: Option<string>,
                      req: LevelRequest, levelDim: Option<string>, latDir: string, forecastTime: Option<Duration>)
    ensures var norm := Normalise(st.zdef, levelType, req);
      var dim := DimName(levelType, levelDim);
      var load := RekiLoad(st, files, parameter, levelType, req, levelDim, latDir, forecastTime);
      && (norm.Err? ==> load == Err(norm.msg))
      && (norm.Ok? ==>
            var fs := Walk(Lookup(Reki, st, files, Ask(parameter, norm.value.1, Some(dim), latDir, forecastTime)), norm.value.0);
            load == if fs.Err? then Err(fs.msg) else Ok(Assemble(fs.value, dim)))
  {
  }

  /** nwpc_data's `load_field_from_file`: the axis name is bound only for
      `'pl'`/`'ml'` or an explicit `level_dim`, and a found record fails
      without it. */
  method LegacyLoadFieldFromFile(path: string, fileName: string, raw: seq<string>, files: map<string, seq<bv8>>,
                                 parameter: string, levelType: Option<string>, req: LevelRequest,
                                 levelDim: Option<string>)
    returns (r: Result<Loaded>)
    ensures ParseCtl(Legacy, path, fileName, raw).Err? ==> r.Err?
    ensures ParseCtl(Legacy, path, fileName, raw).Ok? ==>
      r == LegacyLoadAsWritten(ParseCtl(Legacy, path, fileName, raw).value, files, parameter, levelType, req, levelDim)
  {
    var parser := new GradsCtlParser(Legacy);
    var parsed := parser.Parse(path, fileName, raw);
    if parsed.Fail? {
      return Err(parsed.msg);
    }
    var ctl := parser.ctl;
    var norm := Normalise(ctl.zdef, levelType, req);
    if norm.Err? {
      return Err(norm.msg);
    }
    var dim := LegacyDimNameAsWritten(levelType, levelDim);
    var handler := new GradsDataHandler(ctl);
    var ask := Ask(parameter, norm.value.1, dim, "", None);
    var fields := CollectFields(Legacy, handler, files, ask, norm.value.0);
    if fields.Err? {
      return Err(fields.msg);
    }
    r := Ok(Assemble(fields.value, if dim.Some? then dim.value else ""));
  }
}
