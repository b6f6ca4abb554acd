/** The data finder: time labels and query variables for the path
    templates, the data-level filter, and the search for the first (or
    every) existing file among the configured locations.  Template
    rendering, YAML and the file system are outside the model: locations
    arrive rendered, and whether a path is a file, and what a glob
    matches, are parameters. */
module DataFinder {
  import opened Wrappers
  import opened Text
  import opened Calendar
  import opened PyValue

  // ------------------------------------------------------------ time labels

  /** `f"{n:0{width}d}"`, the form strftime and the `get_*` helpers give. */
  function Label(n: int, width: int): string {
    FormatInt(n, width)
  }

  /** A label of a number with at most `width` digits has exactly `width`
      digits and reads back as the number. */
  lemma LabelDigits(n: nat, width: nat)
    requires 1 <= width && n < Pow10(width)
    ensures |Label(n, width)| == width && AllDigits(Label(n, width))
    ensures ParseNat(Label(n, width)) == Some(n)
  {
    NatToStrBound(n, width);
    ZeroPadValue(n, width);
  }

  /** `get_year`, `get_month`, `get_day`, `get_hour`, `get_minute`. */
  function YearLabel(t: Timestamp): string { Label(Year(t), 4) }
  function MonthLabel(t: Timestamp): string { Label(Month(t), 2) }
  function DayLabel(t: Timestamp): string { Label(Day(t), 2) }
  function HourLabel(t: Timestamp): string { Label(Hour(t), 2) }
  function MinuteLabel(t: Timestamp): string { Label(Minute(t), 2) }

  /** Month, day, hour and minute labels are two digits that read back as
      the calendar fields; the year reads back too. */
  lemma TimeLabels(t: Timestamp)
    ensures |MonthLabel(t)| == 2 && ParseNat(MonthLabel(t)) == Some(Month(t))
    ensures |DayLabel(t)| == 2 && ParseNat(DayLabel(t)) == Some(Day(t))
    ensures |HourLabel(t)| == 2 && ParseNat(HourLabel(t)) == Some(Hour(t))
    ensures |MinuteLabel(t)| == 2 && ParseNat(MinuteLabel(t)) == Some(Minute(t))
    ensures |YearLabel(t)| >= 4 && ParseInt(YearLabel(t)) == Some(Year(t))
  {
    var dt := ToCivil(t);
    assert Pow10(2) == 100;
    LabelDigits(dt.month, 2);
    LabelDigits(dt.day, 2);
    LabelDigits(dt.hour, 2);
    LabelDigits(dt.minute, 2);
    FormatIntParses(dt.year, 4);
  }

  // -------------------------------------------------------- forecast time

  /** `get_forecast_hour` (nwpc_data's `get_hour`): the whole hours of the
      timedelta's seconds plus 24 per day, where pandas keeps the seconds
      of a negative timedelta positive and its days negative. */
  function ForecastHour(d: Duration): int {
    (d / MinutesPerDay) * 24 + (d % MinutesPerDay) / 60
  }

  /** `get_forecast_minute`: the minutes component of the timedelta. */
  function ForecastMinute(d: Duration): int {
    (d % MinutesPerDay) % 60
  }

  /** The forecast hour is the duration in whole hours rounded down, and the
      minute is what is left: together they give the duration back. */
  lemma ForecastSplit(d: Duration)
    ensures ForecastHour(d) * 60 <= d < ForecastHour(d) * 60 + 60
    ensures 0 <= ForecastMinute(d) < 60
    ensures ForecastHour(d) * 60 + ForecastMinute(d) == d
  {
    var q, r := d / MinutesPerDay, d % MinutesPerDay;
    assert d == q * MinutesPerDay + r && 0 <= r < MinutesPerDay;
    assert r == (r / 60) * 60 + r % 60;
  }

  /** A negative duration that is not whole hours rounds away from zero. */
  lemma NegativeForecastRoundsDown()
    ensures ForecastHour(-30) == -1 && ForecastMinute(-30) == 30
  {
  }

  /** `f"{get_forecast_hour(forecast_time):03}"`. */
  function ForecastLabel(d: Duration): string {
    Label(ForecastHour(d), 3)
  }

  lemma ForecastLabelDigits(d: Duration)
    requires 0 <= d < 1000 * 60
    ensures |ForecastLabel(d)| == 3 && ParseInt(ForecastLabel(d)) == Some(d / 60)
  {
    ForecastSplit(d);
    assert ForecastHour(d) == d / 60;
    assert Pow10(3) == 1000;
    LabelDigits(d / 60, 3);
    FormatIntParses(d / 60, 3);
  }

  /** `generate_start_time`: the start time moved by whole hours. */
  function GenerateStartTime(t: Timestamp, hours: int): (r: Option<Timestamp>)
    ensures r.Some? <==> t + hours * 60 >= 0
    ensures r.Some? ==> r.value == t + hours * 60
  {
    Shift(t, hours * 60)
  }

  /** Moving by whole hours keeps the minute of the hour. */
  lemma StartTimeKeepsMinute(t: Timestamp, hours: int)
    requires GenerateStartTime(t, hours).Some?
    ensures Minute(GenerateStartTime(t, hours).value) == Minute(t)
  {
    var u := t + hours * 60;
    assert u % MinutesPerDay % 60 == u % 60 == t % 60 == t % MinutesPerDay % 60;
  }

  // ----------------------------------------------------------- time vars

  /** reki's `TimeVars`: the labels of the start time and of the forecast
      time that path templates use. */
  class TimeVars {
    var startTime: Timestamp
    var forecastTime: Duration
    var year: string
    var month: string
    var day: string
    var hour: string
    var minute: string
    var forecastHour: string
    var forecastMinute: string

    /** The labels are those of `t` and `d`. */
    ghost predicate Labels(t: Timestamp, d: Duration)
      reads this
    {
      && startTime == t && forecastTime == d
      && year == YearLabel(t) && month == MonthLabel(t) && day == DayLabel(t)
      && hour == HourLabel(t) && minute == MinuteLabel(t)
      && forecastHour == ForecastLabel(d)
      && forecastMinute == Label(ForecastMinute(d), 2)
    }

    constructor (t: Timestamp, d: Duration)
      ensures Labels(t, d)
    {
      startTime, forecastTime := t, d;
      year, month, day := YearLabel(t), MonthLabel(t), DayLabel(t);
      hour, minute := HourLabel(t), MinuteLabel(t);
      forecastHour := ForecastLabel(d);
      forecastMinute := Label(ForecastMinute(d), 2);
    }

    /** Without a forecast time the forecast is zero hours. */
    constructor AtStart(t: Timestamp)
      ensures Labels(t, 0)
    {
      startTime, forecastTime := t, 0;
      year, month, day := YearLabel(t), MonthLabel(t), DayLabel(t);
      hour, minute := HourLabel(t), MinuteLabel(t);
      forecastHour := ForecastLabel(0);
      forecastMinute := Label(ForecastMinute(0), 2);
    }
  }

  /** The year, month, day and hour labels of `t`. */
  method DateLabels(t: Timestamp) returns (year: string, month: string, day: string, hour: string)
    ensures year == YearLabel(t) && month == MonthLabel(t) && day == DayLabel(t) && hour == HourLabel(t)
  {
    year, month, day, hour := YearLabel(t), MonthLabel(t), DayLabel(t), HourLabel(t);
  }

  /** The minutes in the three hours before a 4DVar analysis time. */
  const AssimilationWindow := 180

  /** nwpc_data's `TimeVars`: the start-time labels, the forecast hours, and
      the labels of the time three hours before the start. */
  class LegacyTimeVars {
    var year: string
    var month: string
    var day: string
    var hour: string
    var forecast: string
    var year4DV: string
    var month4DV: string
    var day4DV: string
    var hour4DV: string

    /** The labels are those of start `t` and forecast `d`, and of the
        assimilation time `w`. */
    ghost predicate Labels(t: Timestamp, w: Timestamp, d: Duration)
      reads this
    {
      && year == YearLabel(t) && month == MonthLabel(t) && day == DayLabel(t) && hour == HourLabel(t)
      && forecast == ForecastLabel(d)
      && year4DV == YearLabel(w) && month4DV == MonthLabel(w) && day4DV == DayLabel(w) && hour4DV == HourLabel(w)
    }

    /** The labels, given the assimilation time computed beside it. */
    constructor (t: Timestamp, w: Timestamp, d: Duration)
      ensures Labels(t, w, d)
    {
      var y, m, dd, h := DateLabels(t);
      var y4, m4, d4, h4 := DateLabels(w);
      year, month, day, hour := y, m, dd, h;
      forecast := ForecastLabel(d);
      year4DV, month4DV, day4DV, hour4DV := y4, m4, d4, h4;
    }
  }

  /** nwpc_data's `TimeVars(start_time, forecast_time)`: the assimilation
      time is three hours before the start, and computing it fails in the
      first three hours of the calendar. */
  method NewLegacyTimeVars(t: Timestamp, d: Duration) returns (r: Result<LegacyTimeVars>)
    ensures r.Ok? <==> t >= AssimilationWindow
    ensures r.Ok? ==> fresh(r.value) && r.value.Labels(t, t - AssimilationWindow, d)
  {
    if t < AssimilationWindow {
      return Err("OverflowError: date value out of range");
    }
    var w := t - AssimilationWindow;
    var v := new LegacyTimeVars(t, w, d);
    r := Ok(v);
    assert r.value == v;
  }

  /** The 4DVar time is three hours earlier on the same day from 03:00 on,
      and 21 hours later on the day before otherwise. */
  lemma AssimilationTime(t: Timestamp)
    requires t >= AssimilationWindow
    ensures var w := t - AssimilationWindow;
      && Minute(w) == Minute(t)
      && (Hour(t) >= 3 ==>
            && Hour(w) == Hour(t) - 3 && ToCivil(w).year == ToCivil(t).year
            && Month(w) == Month(t) && Day(w) == Day(t))
      && (Hour(t) < 3 ==>
            && Hour(w) == Hour(t) + 21 && w / MinutesPerDay == t / MinutesPerDay - 1)
  {
    var w := t - AssimilationWindow;
    var days, h, mi := t / MinutesPerDay, t % MinutesPerDay / 60, t % MinutesPerDay % 60;
    ClockSplit(t);
    assert t == (days * 24 + h) * 60 + mi;
    if h >= 3 {
      assert w == (days * 24 + (h - 3)) * 60 + mi;
      ClockUnique(days, h - 3, mi);
    } else {
      assert days >= 1;
      assert w == ((days - 1) * 24 + (h + 21)) * 60 + mi;
      ClockUnique(days - 1, h + 21, mi);
    }
  }

  // ---------------------------------------------------------- query vars

  /** `QueryVars`: the attributes path templates read as `query_vars`. */
  class QueryVars {
    var attrs: Entries

    /** nwpc_data's empty query variables. */
    constructor ()
      ensures attrs == []
    {
      attrs := [];
    }

    /** reki's query variables, where storage_base starts as None. */
    constructor WithStorageBase()
      ensures attrs == [("storage_base", Nil)]
    {
      attrs := [("storage_base", Nil)];
    }

    /** `for key in e: setattr(query_vars, key, e[key])`. */
    method SetAttrs(e: Entries)
      modifies this
      ensures attrs == Update(old(attrs), e)
    {
      for i := 0 to |e|
        invariant attrs == Update(old(attrs), e[..i])
      {
        assert e[..i + 1] == e[..i] + [e[i]];
        UpdateSnoc(old(attrs), e[..i], e[i].0, e[i].1);
        attrs := Set(attrs, e[i].0, e[i].1);
      }
      assert e[..|e|] == e;
    }
  }

  /** nwpc_data's query variables: the config's query section, then the
      keyword arguments. */
  method LegacyQueryVars(query: Entries, kwargs: Entries) returns (q: QueryVars)
    ensures fresh(q) && q.attrs == Update(Update([], query), kwargs)
  {
    q := new QueryVars();
    q.SetAttrs(query);
    q.SetAttrs(kwargs);
  }

  /** reki's query variables: storage_base, then the keyword arguments. */
  method RekiQueryVars(kwargs: Entries) returns (q: QueryVars)
    ensures fresh(q) && q.attrs == Update([("storage_base", Nil)], kwargs)
  {
    q := new QueryVars.WithStorageBase();
    q.SetAttrs(kwargs);
  }

  /** storage_base is None unless a keyword argument sets it, and every
      keyword argument is readable with its value. */
  lemma StorageBaseDefault(kwargs: Entries, k: string)
    requires DistinctKeys(kwargs)
    ensures "storage_base" !in Keys(kwargs) ==> Lookup(Update([("storage_base", Nil)], kwargs), "storage_base") == Some(Nil)
    ensures k in Keys(kwargs) ==> Lookup(Update([("storage_base", Nil)], kwargs), k) == Lookup(kwargs, k)
  {
    LookupUpdate([("storage_base", Nil)], kwargs, k);
    LookupUpdate([("storage_base", Nil)], kwargs, "storage_base");
  }

  /** A keyword argument overrides the config's query entry of the same
      name; other entries keep their config value. */
  lemma KwargsOverrideQuery(query: Entries, kwargs: Entries, k: string)
    requires DistinctKeys(query) && DistinctKeys(kwargs)
    ensures Lookup(Update(Update([], query), kwargs), k)
      == if k in Keys(kwargs) then Lookup(kwargs, k) else Lookup(query, k)
  {
    LookupUpdate(Update([], query), kwargs, k);
    LookupUpdate([], query, k);
  }

  // ----------------------------------------------------------- data level

  /** `check_data_level(data_level, required_level)`: no requirement passes
      everything, a string must be equal, a list or a dictionary must
      contain the level, anything else raises. */
  function CheckDataLevel(level: string, required: Value): (r: Result<bool>)
    ensures r.Err? <==> !(required.Nil? || required.Str? || required.List? || required.Dict?)
  {
    match required
    case Nil => Ok(true)
    case Str(s) => Ok(level == s)
    case List(items) => Ok(Str(level) in items)
    case Dict(e) => Ok(level in Keys(e))
    case _ => Err("ValueError: level is not supported")
  }

  /** A single required level and a list holding only it select the same
      entries. */
  lemma LevelListOfOne(level: string, s: string)
    ensures CheckDataLevel(level, Str(s)) == CheckDataLevel(level, List([Str(s)]))
  {
    assert Str(level) in [Str(s)] <==> level == s;
  }

  /** A list of levels passes exactly the levels some element names. */
  lemma LevelListAny(level: string, names: seq<string>)
    ensures CheckDataLevel(level, List(seq(|names|, i requires 0 <= i < |names| => Str(names[i]))))
      == Ok(level in names)
  {
    var items := seq(|names|, i requires 0 <= i < |names| => Str(names[i]));
    if level in names {
      var i :| 0 <= i < |names| && names[i] == level;
      assert items[i] == Str(level);
    }
  }

  // -------------------------------------------------------------- search

  /** A configured location: its data level and its rendered directory. */
  datatype PathEntry = PathEntry(level: string, dir: string)

  /** `Path(directory, name)`; pathlib's normalisation is not modelled. */
  datatype FilePath = FilePath(dir: string, name: string)

  predicate ValidRequirement(required: Value) {
    required.Nil? || required.Str? || required.List? || required.Dict?
  }

  /** The location passes the level filter and holds the file. */
  predicate Hit(e: PathEntry, fileName: string, required: Value, isFile: FilePath -> bool) {
    CheckDataLevel(e.level, required) == Ok(true) && isFile(FilePath(e.dir, fileName))
  }

  /** The file of the first location, in config order, that passes the
      level filter and holds it. */
  function FirstFile(paths: seq<PathEntry>, fileName: string, required: Value,
                     isFile: FilePath -> bool): (r: Result<Option<FilePath>>)
    ensures r.Err? <==> paths != [] && !ValidRequirement(required)
    ensures r.Ok? && r.value.None? ==> forall i :: 0 <= i < |paths| ==> !Hit(paths[i], fileName, required, isFile)
    ensures r.Ok? && r.value.Some? ==>
      exists i :: (0 <= i < |paths| && Hit(paths[i], fileName, required, isFile)
        && r.value.value == FilePath(paths[i].dir, fileName)
        && forall j :: 0 <= j < i ==> !Hit(paths[j], fileName, required, isFile))
  {
    if paths == [] then Ok(None)
    else
      var pass :- CheckDataLevel(paths[0].level, required);
      if pass && isFile(FilePath(paths[0].dir, fileName)) then Ok(Some(FilePath(paths[0].dir, fileName)))
      else
        FirstFile(paths[1..], fileName, required, isFile)
  }

  /** `find_file`'s search: locations are tried in config order and the
      search stops at the first file found. */
  method FindFile(paths: seq<PathEntry>, fileName: string, required: Value, isFile: FilePath -> bool)
    returns (r: Result<Option<FilePath>>)
    ensures r == FirstFile(paths, fileName, required, isFile)
  {
    var i := 0;
    while i < |paths|
      invariant 0 <= i <= |paths|
      invariant FirstFile(paths, fileName, required, isFile) == FirstFile(paths[i..], fileName, required, isFile)
    {
      assert paths[i..][1..] == paths[i + 1..];
      var pass :- CheckDataLevel(paths[i].level, required);
      if pass {
        var candidate := FilePath(paths[i].dir, fileName);
        if isFile(candidate) {
          return Ok(Some(candidate));
        }
      }
      i := i + 1;
    }
    return Ok(None);
  }

  /** `[f for f in files if f.is_file()]`. */
  function OnlyFiles(files: seq<FilePath>, isFile: FilePath -> bool): (r: seq<FilePath>)
    ensures forall f :: f in r <==> f in files && isFile(f)
  {
    if files == [] then []
    else
      var last := files[|files| - 1];
      OnlyFiles(files[..|files| - 1], isFile) + (if isFile(last) then [last] else [])
  }

  /** Every file the glob finds in every location that passes the level
      filter, in config order. */
  function AllFiles(paths: seq<PathEntry>, fileName: string, required: Value,
                    glob: (string, string) -> seq<FilePath>, isFile: FilePath -> bool): (r: Result<seq<FilePath>>)
    ensures r.Err? <==> paths != [] && !ValidRequirement(required)
    ensures r.Ok? ==> forall f :: f in r.value ==>
      && isFile(f)
      && exists i :: (0 <= i < |paths| && CheckDataLevel(paths[i].level, required) == Ok(true)
           && f in glob(paths[i].dir, fileName))
    decreases |paths|
  {
    if paths == [] then Ok([])
    else
      var init := paths[..|paths| - 1];
      var last := paths[|paths| - 1];
      var before :- AllFiles(init, fileName, required, glob, isFile);
      var pass :- CheckDataLevel(last.level, required);
      assert forall i :: 0 <= i < |init| ==> init[i] == paths[i];
      Ok(before + (if pass then OnlyFiles(glob(last.dir, fileName), isFile) else []))
  }

  /** Adding a location adds the files it holds, when it passes. */
  lemma AllFilesSnoc(paths: seq<PathEntry>, e: PathEntry, fileName: string, required: Value,
                     glob: (string, string) -> seq<FilePath>, isFile: FilePath -> bool)
    requires AllFiles(paths, fileName, required, glob, isFile).Ok?
    ensures AllFiles(paths + [e], fileName, required, glob, isFile)
      == match CheckDataLevel(e.level, required)
         case Err(m) => Err(m)
         case Ok(pass) =>
           Ok(AllFiles(paths, fileName, required, glob, isFile).value
              + (if pass then OnlyFiles(glob(e.dir, fileName), isFile) else []))
  {
    assert (paths + [e])[..|paths|] == paths;
  }

  /** A file found by the glob of a passing location is among the results. */
  lemma {:induction false} AllFilesComplete(paths: seq<PathEntry>, fileName: string, required: Value,
                                            glob: (string, string) -> seq<FilePath>, isFile: FilePath -> bool,
                                            i: nat, f: FilePath)
    requires i < |paths| && CheckDataLevel(paths[i].level, required) == Ok(true)
    requires f in glob(paths[i].dir, fileName) && isFile(f)
    ensures AllFiles(paths, fileName, required, glob, isFile).Ok?
    ensures f in AllFiles(paths, fileName, required, glob, isFile).value
    decreases |paths|
  {
    var init := paths[..|paths| - 1];
    if i < |paths| - 1 {
      assert init[i] == paths[i];
      AllFilesComplete(init, fileName, required, glob, isFile, i, f);
    }
  }

  /** `find_files`' search: the files of every passing location, or None
      when there are none. */
  method FindFiles(paths: seq<PathEntry>, fileName: string, required: Value,
                   glob: (string, string) -> seq<FilePath>, isFile: FilePath -> bool)
    returns (r: Result<Option<seq<FilePath>>>)
    ensures var all := AllFiles(paths, fileName, required, glob, isFile);
      && (r.Ok? <==> all.Ok?)
      && (r.Ok? ==> (r.value.None? <==> all.value == []))
      && (r.Ok? && r.value.Some? ==> r.value.value == all.value)
  {
    var found: seq<FilePath> := [];
    for i := 0 to |paths|
      invariant AllFiles(paths[..i], fileName, required, glob, isFile) == Ok(found)
    {
      assert paths[..i + 1] == paths[..i] + [paths[i]];
      AllFilesSnoc(paths[..i], paths[i], fileName, required, glob, isFile);
      var pass :- CheckDataLevel(paths[i].level, required);
      if pass {
        found := found + OnlyFiles(glob(paths[i].dir, fileName), isFile);
      } else {
        assert found + [] == found;
      }
    }
    assert paths[..|paths|] == paths;
    if found == [] {
      return Ok(None);
    }
    return Ok(Some(found));
  }
}
