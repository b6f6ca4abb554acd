/** The entities of a GrADS data descriptor (".ctl") as
    reki/format/grads/grads_ctl.py builds them: dimensions, variables, the
    record catalog `_generate_records` derives from them, and the `%`-token
    data file templates of `get_data_file_path`. */
module GradsCatalog {
  import opened Wrappers
  import opened Text
  import opened Calendar

  // ================================================================ data model

  /** An `xdef`/`ydef`/`zdef` entry. `count` is the header count as written;
      `values` are the generated or listed coordinates. */
  datatype Dimension =
    | Linear(count: int, start: real, step: real, values: seq<real>)
    | Levels(count: int, values: seq<real>)

  /** The `tdef` entry: `values[i] == start + step * i`. */
  datatype TimeDef = TimeDef(count: int, start: Timestamp, step: Duration, values: seq<Timestamp>)

  /** One line of the `vars` block. */
  datatype VarDef = VarDef(name: string, levels: int, units: string, description: string)

  /** `'single'` or `'multi'`. */
  datatype LevelKind = Single | Multi

  function KindName(k: LevelKind): string {
    match k
    case Single => "single"
    case Multi => "multi"
  }

  /** The time keys of a catalog entry (absent in the legacy catalog). */
  datatype RecordTime = RecordTime(validTime: Timestamp, forecastTime: Duration)

  /** One catalog entry: a (variable, level, time step) block of the data. */
  datatype Record = Record(
    name: string,
    kind: LevelKind,
    level: real,
    levelIndex: nat,
    time: Option<RecordTime>,
    units: string,
    description: string,
    recordIndex: nat)

  /** The coordinate list of an optional dimension (`None` has none). */
  function ValuesOf(d: Option<Dimension>): seq<real> {
    match d
    case None => []
    case Some(dim) => dim.values
  }

  // ================================================================ catalog

  /** Number of records one variable contributes per time step:
      `range(levels)` is empty for a negative count. */
  function LevelCount(v: VarDef): nat {
    if v.levels == 0 then 1 else if v.levels < 0 then 0 else v.levels
  }

  /** Records per time step: the sum of `LevelCount` over the variables. */
  function StepSize(vs: seq<VarDef>): nat
    decreases |vs|
  {
    if vs == [] then 0 else StepSize(vs[..|vs| - 1]) + LevelCount(vs[|vs| - 1])
  }

  /** Every multi-level variable finds its levels among the `zdef` values
      `zvals`; otherwise `zdef["values"][level_index]` raises. */
  predicate Covers(vs: seq<VarDef>, zvals: seq<real>) {
    forall v :: v in vs ==> v.levels <= |zvals|
  }

  /** `zdef["values"][li]` where it exists. */
  function LevelAt(zvals: seq<real>, li: nat): real {
    if li < |zvals| then zvals[li] else 0.0
  }

  function SingleRecord(v: VarDef, time: Option<RecordTime>, ri: nat): Record {
    Record(v.name, Single, 0.0, 0, time, v.units, v.description, ri)
  }

  function MultiRecord(v: VarDef, zvals: seq<real>, li: nat, time: Option<RecordTime>, ri: nat): Record {
    Record(v.name, Multi, LevelAt(zvals, li), li, time, v.units, v.description, ri)
  }

  /** Level `li` of variable `v` in one time step, numbered `ri`. */
  function LevelRecord(v: VarDef, zvals: seq<real>, li: nat, time: Option<RecordTime>, ri: nat): Record {
    if v.levels == 0 then SingleRecord(v, time, ri) else MultiRecord(v, zvals, li, time, ri)
  }

  /** The first `n` levels of a multi-level variable, numbered from `base`. */
  function LevelRecords(v: VarDef, zvals: seq<real>, time: Option<RecordTime>, base: nat, n: nat): (rs: seq<Record>)
    ensures |rs| == n
  {
    if n == 0 then []
    else LevelRecords(v, zvals, time, base, n - 1) + [MultiRecord(v, zvals, n - 1, time, base + n - 1)]
  }

  /** The records of one variable in one time step, numbered from `base`. */
  function VarRecords(v: VarDef, zvals: seq<real>, time: Option<RecordTime>, base: nat): (rs: seq<Record>)
    ensures |rs| == LevelCount(v)
  {
    if v.levels == 0 then [SingleRecord(v, time, base)]
    else LevelRecords(v, zvals, time, base, LevelCount(v))
  }

  lemma {:induction false} LevelRecordsAt(v: VarDef, zvals: seq<real>, time: Option<RecordTime>, base: nat, n: nat, li: nat)
    requires li < n
    ensures LevelRecords(v, zvals, time, base, n)[li] == MultiRecord(v, zvals, li, time, base + li)
  {
    if li < n - 1 {
      LevelRecordsAt(v, zvals, time, base, n - 1, li);
    }
  }

  lemma VarRecordsAt(v: VarDef, zvals: seq<real>, time: Option<RecordTime>, base: nat, li: nat)
    requires li < LevelCount(v)
    ensures VarRecords(v, zvals, time, base)[li] == LevelRecord(v, zvals, li, time, base + li)
  {
    if v.levels != 0 {
      LevelRecordsAt(v, zvals, time, base, LevelCount(v), li);
    }
  }

  /** The records of one time step: the variables in declaration order. */
  function StepRecords(vs: seq<VarDef>, zvals: seq<real>, time: Option<RecordTime>, base: nat): (rs: seq<Record>)
    ensures |rs| == StepSize(vs)
    decreases |vs|
  {
    if vs == [] then []
    else
      var init := vs[..|vs| - 1];
      StepRecords(init, zvals, time, base) + VarRecords(vs[|vs| - 1], zvals, time, base + StepSize(init))
  }

  /** Position of the first record of time step `t` in the catalog: `t`
      whole steps. */
  function StepOffset(vs: seq<VarDef>, t: nat): nat {
    if t == 0 then 0 else StepOffset(vs, t - 1) + StepSize(vs)
  }

  lemma {:induction false} StepOffsetIsProduct(vs: seq<VarDef>, t: nat)
    ensures StepOffset(vs, t) == t * StepSize(vs)
  {
    if t > 0 {
      StepOffsetIsProduct(vs, t - 1);
      MulSucc(t - 1, StepSize(vs));
    }
  }

  lemma {:induction false} StepOffsetLess(vs: seq<VarDef>, t: nat, k: nat, p: nat)
    requires t < k && p < StepSize(vs)
    ensures StepOffset(vs, t) + p < StepOffset(vs, k)
    decreases k
  {
    if t < k - 1 {
      StepOffsetLess(vs, t, k - 1, p);
    }
  }

  /** The counter value at the start of time step `t`: it restarts at every
      step for a templated `dset` and runs on otherwise. */
  function StepBase(vs: seq<VarDef>, template: bool, t: nat): nat {
    if template then 0 else StepOffset(vs, t)
  }

  /** The time keys of step `t`: its valid time and `step * t`. */
  function StepTime(tdef: TimeDef, t: nat): RecordTime
    requires t < |tdef.values|
  {
    RecordTime(tdef.values[t], tdef.step * t)
  }

  lemma MulSucc(a: nat, b: nat)
    ensures (a + 1) * b == a * b + b
  {
  }

  /** The records of the first `k` time steps. */
  function CatalogUpTo(vs: seq<VarDef>, zvals: seq<real>, tdef: TimeDef, template: bool, k: nat): (rs: seq<Record>)
    requires k <= |tdef.values|
    ensures |rs| == StepOffset(vs, k)
  {
    if k == 0 then []
    else
      CatalogUpTo(vs, zvals, tdef, template, k - 1)
        + StepRecords(vs, zvals, Some(StepTime(tdef, k - 1)), StepBase(vs, template, k - 1))
  }

  /** The catalog `_generate_records` builds: time step, then variable, then
      level index. */
  function Catalog(vs: seq<VarDef>, zvals: seq<real>, tdef: TimeDef, template: bool): seq<Record> {
    CatalogUpTo(vs, zvals, tdef, template, |tdef.values|)
  }

  lemma {:induction false} StepSizePrefix(vs: seq<VarDef>, j: nat)
    requires j < |vs|
    ensures StepSize(vs[..j + 1]) == StepSize(vs[..j]) + LevelCount(vs[j])
  {
    assert vs[..j + 1][..j] == vs[..j];
  }

  /** A variable that needs more levels than `zvals` holds breaks coverage. */
  lemma NotCoversAt(vs: seq<VarDef>, zvals: seq<real>, j: nat)
    requires j < |vs| && vs[j].levels > |zvals|
    ensures !Covers(vs, zvals)
  {
    assert vs[j] in vs;
  }

  /** Coverage grows one variable at a time. */
  lemma CoversGrow(vs: seq<VarDef>, zvals: seq<real>, j: nat)
    requires j < |vs|
    requires Covers(vs[..j], zvals) && vs[j].levels <= |zvals|
    ensures Covers(vs[..j + 1], zvals)
  {
    assert vs[..j + 1] == vs[..j] + [vs[j]];
  }

  /** A step's records grow one variable at a time. */
  lemma StepRecordsPrefix(vs: seq<VarDef>, zvals: seq<real>, time: Option<RecordTime>, base: nat, j: nat)
    requires j < |vs|
    ensures StepRecords(vs[..j + 1], zvals, time, base) ==
      StepRecords(vs[..j], zvals, time, base) + VarRecords(vs[j], zvals, time, base + StepSize(vs[..j]))
  {
    assert vs[..j + 1][..j] == vs[..j];
  }

  lemma {:induction false} StepSizeMonotone(vs: seq<VarDef>, j: nat)
    requires j <= |vs|
    ensures StepSize(vs[..j]) <= StepSize(vs)
    decreases |vs| - j
  {
    if j < |vs| {
      StepSizePrefix(vs, j);
      StepSizeMonotone(vs, j + 1);
      if j + 1 == |vs| {
        assert vs[..j + 1] == vs;
      }
    } else {
      assert vs[..j] == vs;
    }
  }

  /** The levels of the last variable close the step. */
  lemma StepRecordsAtLast(vs: seq<VarDef>, zvals: seq<real>, time: Option<RecordTime>, base: nat, li: nat)
    requires vs != [] && li < LevelCount(vs[|vs| - 1])
    ensures StepSize(vs[..|vs| - 1]) + li < StepSize(vs)
    ensures var q := StepSize(vs[..|vs| - 1]) + li;
      StepRecords(vs, zvals, time, base)[q] == LevelRecord(vs[|vs| - 1], zvals, li, time, base + q)
  {
    var n := |vs| - 1;
    VarRecordsAt(vs[n], zvals, time, base + StepSize(vs[..n]), li);
  }

  /** Dropping the last variable keeps the records before it. */
  lemma StepRecordsInit(vs: seq<VarDef>, zvals: seq<real>, time: Option<RecordTime>, base: nat, q: nat)
    requires vs != [] && q < StepSize(vs[..|vs| - 1])
    ensures q < StepSize(vs)
    ensures StepRecords(vs, zvals, time, base)[q] == StepRecords(vs[..|vs| - 1], zvals, time, base)[q]
  {
  }

  /** Position `StepSize(vs[..j]) + li` of a step holds level `li` of
      variable `j`, numbered `base` plus that position. */
  lemma {:induction false} StepRecordsAt(vs: seq<VarDef>, zvals: seq<real>, time: Option<RecordTime>, base: nat, j: nat, li: nat)
    requires j < |vs| && li < LevelCount(vs[j])
    ensures StepSize(vs[..j]) + li < StepSize(vs)
    ensures var q := StepSize(vs[..j]) + li;
      StepRecords(vs, zvals, time, base)[q] == LevelRecord(vs[j], zvals, li, time, base + q)
    decreases |vs|, 1
  {
    if j == |vs| - 1 {
      StepRecordsAtLast(vs, zvals, time, base, li);
      assert vs[..j] == vs[..|vs| - 1];
    } else {
      StepRecordsAtEarlier(vs, zvals, time, base, j, li);
    }
  }

  /** A variable before the last keeps the position it has without the
      last one. */
  lemma {:induction false} StepRecordsAtEarlier(vs: seq<VarDef>, zvals: seq<real>, time: Option<RecordTime>, base: nat, j: nat, li: nat)
    requires j < |vs| - 1 && li < LevelCount(vs[j])
    ensures StepSize(vs[..j]) + li < StepSize(vs)
    ensures var q := StepSize(vs[..j]) + li;
      StepRecords(vs, zvals, time, base)[q] == LevelRecord(vs[j], zvals, li, time, base + q)
    decreases |vs|, 0
  {
    var init := vs[..|vs| - 1];
    assert vs[..j] == init[..j];
    assert init[j] == vs[j];
    StepRecordsAt(init, zvals, time, base, j, li);
    StepRecordsInit(vs, zvals, time, base, StepSize(vs[..j]) + li);
  }

  /** Every record of a step carries the step's time and is numbered `base`
      plus its position. */
  lemma {:induction false} StepRecordsIndex(vs: seq<VarDef>, zvals: seq<real>, time: Option<RecordTime>, base: nat, p: nat)
    requires p < StepSize(vs)
    ensures StepRecords(vs, zvals, time, base)[p].recordIndex == base + p
    ensures StepRecords(vs, zvals, time, base)[p].time == time
    decreases |vs|
  {
    var n := |vs| - 1;
    var init := vs[..n];
    if p < StepSize(init) {
      StepRecordsIndex(init, zvals, time, base, p);
    } else {
      VarRecordsAt(vs[n], zvals, time, base + StepSize(init), p - StepSize(init));
    }
  }

  lemma CatalogUpToInit(vs: seq<VarDef>, zvals: seq<real>, tdef: TimeDef, template: bool, k: nat, q: nat)
    requires 0 < k <= |tdef.values| && q < StepOffset(vs, k - 1)
    ensures q < StepOffset(vs, k)
    ensures CatalogUpTo(vs, zvals, tdef, template, k)[q] == CatalogUpTo(vs, zvals, tdef, template, k - 1)[q]
  {
  }

  lemma CatalogUpToLast(vs: seq<VarDef>, zvals: seq<real>, tdef: TimeDef, template: bool, k: nat, p: nat)
    requires 0 < k <= |tdef.values| && p < StepSize(vs)
    ensures StepOffset(vs, k - 1) + p < StepOffset(vs, k)
    ensures CatalogUpTo(vs, zvals, tdef, template, k)[StepOffset(vs, k - 1) + p] ==
      StepRecords(vs, zvals, Some(StepTime(tdef, k - 1)), StepBase(vs, template, k - 1))[p]
  {
    var prev := CatalogUpTo(vs, zvals, tdef, template, k - 1);
    var step := StepRecords(vs, zvals, Some(StepTime(tdef, k - 1)), StepBase(vs, template, k - 1));
    assert CatalogUpTo(vs, zvals, tdef, template, k) == prev + step;
    assert |prev| == StepOffset(vs, k - 1);
  }

  /** Position `StepOffset(t) + p` of the catalog is position `p` of step `t`. */
  lemma {:induction false} CatalogAt(vs: seq<VarDef>, zvals: seq<real>, tdef: TimeDef, template: bool, k: nat, t: nat, p: nat)
    requires k <= |tdef.values| && t < k && p < StepSize(vs)
    ensures StepOffset(vs, t) + p < StepOffset(vs, k)
    ensures CatalogUpTo(vs, zvals, tdef, template, k)[StepOffset(vs, t) + p] ==
      StepRecords(vs, zvals, Some(StepTime(tdef, t)), StepBase(vs, template, t))[p]
    decreases k
  {
    if t < k - 1 {
      CatalogAt(vs, zvals, tdef, template, k - 1, t, p);
      CatalogUpToInit(vs, zvals, tdef, template, k, StepOffset(vs, t) + p);
    } else {
      CatalogUpToLast(vs, zvals, tdef, template, k, p);
    }
  }

  /** The catalog holds `tdef.count` (as generated) times the records of one
      step. Position `p` of step `t` carries the step's valid time and
      forecast time; its `record_index` restarts at every step for a
      templated `dset` (one file per time step) and runs over the whole
      catalog otherwise. */
  lemma CatalogRecordIndex(vs: seq<VarDef>, zvals: seq<real>, tdef: TimeDef, template: bool, t: nat, p: nat)
    requires t < |tdef.values| && p < StepSize(vs)
    ensures |Catalog(vs, zvals, tdef, template)| == |tdef.values| * StepSize(vs)
    ensures StepOffset(vs, t) + p < |Catalog(vs, zvals, tdef, template)|
    ensures var r := Catalog(vs, zvals, tdef, template)[StepOffset(vs, t) + p];
      && r.recordIndex == (if template then p else StepOffset(vs, t) + p)
      && r.time == Some(RecordTime(tdef.values[t], tdef.step * t))
  {
    StepOffsetIsProduct(vs, |tdef.values|);
    CatalogAt(vs, zvals, tdef, template, |tdef.values|, t, p);
    StepRecordsIndex(vs, zvals, Some(StepTime(tdef, t)), StepBase(vs, template, t), p);
  }

  /** The fields of one generated record: a single-level variable gives
      level 0 and index 0, a multi-level one `zdef["values"][li]` and `li`. */
  lemma LevelRecordFields(r: Record, v: VarDef, zvals: seq<real>, li: nat, time: Option<RecordTime>, ri: nat)
    requires r == LevelRecord(v, zvals, li, time, ri)
    ensures r.name == v.name && r.units == v.units && r.description == v.description
    ensures r.time == time && r.recordIndex == ri
    ensures v.levels == 0 ==> r.kind == Single && r.level == 0.0 && r.levelIndex == 0
    ensures v.levels != 0 && li < |zvals| ==> r.kind == Multi && r.level == zvals[li] && r.levelIndex == li
  {
  }

  /** When the `zdef` values cover the variables, every level index of a
      multi-level variable has its coordinate. */
  lemma CoveredLevel(vs: seq<VarDef>, zvals: seq<real>, j: nat, li: nat)
    requires Covers(vs, zvals) && j < |vs| && li < LevelCount(vs[j]) && vs[j].levels != 0
    ensures li < |zvals|
  {
    assert vs[j] in vs;
  }
  // ================================================================ data file templates

  /** The substitution keys of `get_data_file_path`. */
  datatype Key = Y2 | Y4 | M1 | M2 | D1 | D2 | H1 | H2 | H3 | N2 | F2 | F3 | Fn2 | Fhn

  function KeyName(k: Key): string {
    match k
    case Y2 => "y2"
    case Y4 => "y4"
    case M1 => "m1"
    case M2 => "m2"
    case D1 => "d1"
    case D2 => "d2"
    case H1 => "h1"
    case H2 => "h2"
    case H3 => "h3"
    case N2 => "n2"
    case F2 => "f2"
    case F3 => "f3"
    case Fn2 => "fn2"
    case Fhn => "fhn"
  }

  /** The order in which the keys are tried. */
  const TemplateKeys: seq<Key> := [Y2, Y4, M1, M2, D1, D2, H1, H2, H3, N2, F2, F3, Fn2, Fhn]

  /** `Timedelta.seconds`: the seconds part left after whole (floored) days. */
  function TimedeltaSeconds(d: Duration): nat {
    (d % MinutesPerDay) * 60
  }

  /** The text a key stands for, given the calendar fields of a record's
      valid time and its forecast time. */
  function KeyText(key: Key, v: DateTime, f: Duration): string {
    match key
    case Y2 => FormatInt(v.year % 100, 2)
    case Y4 => FormatInt(v.year, 4)
    case M1 => IntToStr(v.month)
    case M2 => FormatInt(v.month, 2)
    case D1 => IntToStr(v.day)
    case D2 => FormatInt(v.day, 2)
    case H1 => IntToStr(v.hour)
    case H2 => FormatInt(v.hour, 2)
    case H3 => FormatInt(v.hour, 3)
    case N2 => FormatInt(TimedeltaSeconds(f) / 60 % 60, 2)
    case F2 => FormatInt(TruncHours(f), 2)
    case F3 => FormatInt(TruncHours(f), 3)
    case Fn2 => FormatInt(f, 2)
    case Fhn => FormatInt(TruncHours(f), 2) + FormatInt((f * 60) % 3600 / 60, 2)
  }

  /** The first key, from position `i` of `TemplateKeys` on, that `token`
      starts with. */
  function FirstKey(token: string, i: nat): (r: Option<Key>)
    requires i <= |TemplateKeys|
    ensures r.Some? ==> StartsWith(token, KeyName(r.value))
    ensures r.None? <==> forall k :: i <= k < |TemplateKeys| ==> !StartsWith(token, KeyName(TemplateKeys[k]))
    decreases |TemplateKeys| - i
  {
    if i == |TemplateKeys| then None
    else if StartsWith(token, KeyName(TemplateKeys[i])) then Some(TemplateKeys[i])
    else FirstKey(token, i + 1)
  }

  /** One `%`-separated piece: its leading key replaced by the key's text.
      A record without time keys raises KeyError once a key is met. */
  function ExpandToken(token: string, time: Option<RecordTime>): Result<string> {
    match FirstKey(token, 0)
    case None => Ok(token)
    case Some(key) =>
      if time.None? then Err("KeyError: 'valid_time'")
      else Ok(KeyText(key, ToCivil(time.value.validTime), time.value.forecastTime) + token[|KeyName(key)|..])
  }

  function ExpandTokens(tokens: seq<string>, time: Option<RecordTime>): Result<string> {
    if tokens == [] then Ok("")
    else
      var head :- ExpandToken(tokens[0], time);
      var rest :- ExpandTokens(tokens[1..], time);
      Ok(head + rest)
  }

  /** The text before the first `%` is kept; each later piece is expanded. */
  function ExpandTemplate(dset: string, time: Option<RecordTime>): Result<string> {
    var tokens := SplitOn(dset, '%');
    var rest :- ExpandTokens(tokens[1..], time);
    Ok(tokens[0] + rest)
  }

  /** `str(x)` of an optional path. */
  function PathText(dset: Option<string>): string {
    match dset
    case None => "None"
    case Some(p) => p
  }

  /** `get_data_file_path`: the `dset` path itself, or, for a template, the
      path with every key replaced for this record. */
  function DataFilePath(dset: Option<string>, template: bool, rec: Record): Result<Option<string>> {
    if !template then Ok(dset)
    else
      var p :- ExpandTemplate(PathText(dset), rec.time);
      Ok(Some(p))
  }

  /** A path without `%` is not a template: it expands to itself. */
  lemma PlainPathUnchanged(dset: string, time: Option<RecordTime>)
    requires '%' !in dset
    ensures ExpandTemplate(dset, time) == Ok(dset)
  {
    assert SplitOn(dset, '%') == [dset];
    assert SplitOn(dset, '%')[1..] == [];
    assert dset + "" == dset;
  }

  /** The keys differ in their first two characters. */
  lemma KeyHeadsDistinct(a: Key, b: Key)
    requires a != b
    ensures |KeyName(a)| >= 2 && |KeyName(b)| >= 2
    ensures KeyName(a)[0] != KeyName(b)[0] || KeyName(a)[1] != KeyName(b)[1]
  {
  }

  /** No key is a prefix of another, so a piece that starts with a key is
      expanded by that key. */
  lemma {:induction false} KeyExpands(key: Key, rest: string, rt: RecordTime)
    ensures ExpandToken(KeyName(key) + rest, Some(rt)) ==
      Ok(KeyText(key, ToCivil(rt.validTime), rt.forecastTime) + rest)
  {
    var token := KeyName(key) + rest;
    assert StartsWith(token, KeyName(key));
    var r := FirstKey(token, 0);
    assert r == Some(key) by {
      if r.Some? && r.value != key {
        KeyHeadsDistinct(key, r.value);
      }
    }
    assert token[|KeyName(key)|..] == rest;
  }

  /** The minutes `%n2` writes are the forecast time's minutes past the
      hour. */
  lemma MinuteOfTimedelta(f: Duration)
    ensures TimedeltaSeconds(f) / 60 % 60 == f % 60
  {
    var q := f / MinutesPerDay;
    var r := f % MinutesPerDay;
    assert TimedeltaSeconds(f) / 60 == r;
    assert f == MinutesPerDay * q + r;
    assert r == f - 60 * (24 * q);
  }

  /** `%fn2` writes the forecast time in minutes, and for a non-negative
      forecast time `%f3` with `%n2` write its hours and remaining minutes:
      the file name records the forecast time exactly. */
  lemma ForecastKeysRecoverTime(v: DateTime, f: Duration)
    ensures ParseInt(KeyText(Fn2, v, f)) == Some(f)
    ensures f >= 0 ==>
      && ParseInt(KeyText(F3, v, f)).Some?
      && ParseInt(KeyText(N2, v, f)).Some?
      && ParseInt(KeyText(F3, v, f)).value * 60 + ParseInt(KeyText(N2, v, f)).value == f
  {
    FormatIntParses(f, 2);
    FormatIntParses(TruncHours(f), 3);
    MinuteOfTimedelta(f);
    FormatIntParses(f % 60, 2);
  }

  /** `%y4`, `%m1`/`%m2`, `%d1`/`%d2` and `%h1`/`%h2`/`%h3` write the valid
      time's calendar fields: each reads back as the field it came from. */
  lemma DateKeysRecoverDate(v: DateTime, f: Duration)
    ensures ParseInt(KeyText(Y4, v, f)) == Some(v.year)
    ensures ParseInt(KeyText(M1, v, f)) == Some(v.month) && ParseInt(KeyText(M2, v, f)) == Some(v.month)
    ensures ParseInt(KeyText(D1, v, f)) == Some(v.day) && ParseInt(KeyText(D2, v, f)) == Some(v.day)
    ensures ParseInt(KeyText(H1, v, f)) == Some(v.hour) && ParseInt(KeyText(H2, v, f)) == Some(v.hour)
    ensures ParseInt(KeyText(H3, v, f)) == Some(v.hour)
  {
    FormatIntParses(v.year, 4);
    FormatIntParses(v.month, 0);
    FormatIntParses(v.month, 2);
    FormatIntParses(v.day, 0);
    FormatIntParses(v.day, 2);
    FormatIntParses(v.hour, 0);
    FormatIntParses(v.hour, 2);
    FormatIntParses(v.hour, 3);
  }
}
