/** Coordinates, names and attributes that the eccodes loaders derive from
    the keys of one GRIB message (`all_attrs`, a dictionary of the values
    eccodes read for a fixed list of keys). */
module GribAttrs {
  import opened Wrappers
  import opened Text
  import opened PyValue
  import GribCheck

  /** The keys read from a message and the values eccodes gave for them. */
  type Attrs = map<string, Value>

  /** `all_attrs[key]`. */
  function Attr(attrs: Attrs, key: string): (r: Result<Value>)
    ensures r.Ok? <==> key in attrs
    ensures r.Ok? ==> r.value == attrs[key]
  {
    if key in attrs then Ok(attrs[key]) else Err("KeyError: " + key)
  }

  /** The two spellings eccodes uses for a key with no value. */
  predicate Undefined(v: Value) {
    v == Str("undef") || v == Str("unknown")
  }

  /** Python's `v == n` for an integer constant `n`. */
  predicate NumberIs(v: Value, n: int) {
    Number(v) == Some(n as real)
  }

  /** Python's `f"{v}"` for the values eccodes gives for code keys. */
  function Show(v: Value): (r: Result<string>)
    ensures v.Str? ==> r == Ok(v.s)
    ensures v.Int? ==> r == Ok(IntToStr(v.i))
  {
    match v
    case Str(s) => Ok(s)
    case Int(i) => Ok(IntToStr(i))
    case Bool(b) => Ok(if b then "True" else "False")
    case Nil => Ok("None")
    case _ => Err("formatting of this value is not modelled")
  }

  function ShowAttr(attrs: Attrs, key: string): Result<string> {
    var v :- Attr(attrs, key);
    Show(v)
  }

  // ---------------------------------------------------------------- step

  /** The fixed-length units of GRIB2 Code Table 4.4 (indicator of unit of
      time range), in minutes; months, years and the reserved codes have no
      fixed length. */
  function UnitMinutes(code: int): Option<real> {
    if code == 0 then Some(1.0)
    else if code == 1 then Some(60.0)
    else if code == 2 then Some(1440.0)
    else if code == 10 then Some(180.0)
    else if code == 11 then Some(360.0)
    else if code == 12 then Some(720.0)
    else if code == 13 then Some(1.0 / 60.0)
    else None
  }

  function EndStep(attrs: Attrs, endKey: string): Result<real> {
    var e :- Attr(attrs, endKey);
    if Number(e).Some? then Ok(Number(e).value)
    else Err("TypeError: invalid Timedelta argument")
  }

  /** `get_step_from_attrs`: the forecast step, in minutes, from the end
      step and its unit; reki reads the end step as "endStep:int" and
      nwpc_data as "endStep". */
  function StepFromAttrs(attrs: Attrs, endKey: string): (r: Result<(string, real)>)
    ensures r.Ok? ==> r.value.0 == "step" && "stepUnits" in attrs && endKey in attrs
  {
    var units :- Attr(attrs, "stepUnits");
    if NumberIs(units, 1) then
      var e :- EndStep(attrs, endKey);
      Ok(("step", e * 60.0))
    else if NumberIs(units, 0) then
      var e :- EndStep(attrs, endKey);
      Ok(("step", e))
    else if NumberIs(units, 2) then
      var e :- EndStep(attrs, endKey);
      Ok(("step", e * 1440.0))
    else Err("ValueError: stepUnits is not supported")
  }

  /** The step is the end step in the unit Code Table 4.4 gives its code,
      for minutes, hours and days; every other unit is refused, even the
      fixed-length ones. */
  lemma StepFollowsCodeTable(attrs: Attrs, endKey: string)
    requires "stepUnits" in attrs && endKey in attrs && Number(attrs[endKey]).Some?
    ensures var u := attrs["stepUnits"];
      && (StepFromAttrs(attrs, endKey).Ok? <==> NumberIs(u, 0) || NumberIs(u, 1) || NumberIs(u, 2))
      && (StepFromAttrs(attrs, endKey).Ok? ==>
            exists code :: 0 <= code <= 2 && NumberIs(u, code) && UnitMinutes(code).Some?
              && StepFromAttrs(attrs, endKey).value.1 == Number(attrs[endKey]).value * UnitMinutes(code).value)
  {
    var u := attrs["stepUnits"];
    if NumberIs(u, 0) {
      assert UnitMinutes(0) == Some(1.0);
    } else if NumberIs(u, 1) {
      assert UnitMinutes(1) == Some(60.0);
    } else if NumberIs(u, 2) {
      assert UnitMinutes(2) == Some(1440.0);
    }
  }

  lemma FixedLengthUnitsRefused(attrs: Attrs, endKey: string, code: int)
    requires "stepUnits" in attrs && NumberIs(attrs["stepUnits"], code)
    requires 10 <= code <= 13
    ensures UnitMinutes(code).Some? && StepFromAttrs(attrs, endKey).Err?
  {
  }

  // ---------------------------------------------------------- valid time

  /** `get_valid_time_from_attrs`: no valid time when either part is
      undefined; otherwise the date and time that pandas parses (the parse
      is not part of this model). */
  function ValidTimeFromAttrs(attrs: Attrs): (r: Result<Option<(Value, Value)>>)
    ensures r.Ok? <==> "validityDate" in attrs && (Undefined(attrs["validityDate"]) || "validityTime" in attrs)
    ensures r.Ok? ==> (r.value.None? <==> Undefined(attrs["validityDate"]) || Undefined(attrs["validityTime"]))
    ensures r.Ok? && r.value.Some? ==> r.value.value == (attrs["validityDate"], attrs["validityTime"])
  {
    var date :- Attr(attrs, "validityDate");
    if Undefined(date) then Ok(None)
    else
      var time :- Attr(attrs, "validityTime");
      if Undefined(time) then Ok(None) else Ok(Some((date, time)))
  }

  // ------------------------------------------------------- surface value

  function Pow10Real(e: int): (p: real)
    ensures p > 0.0
  {
    if e >= 0 then Pow10(e) as real else 1.0 / (Pow10(-e) as real)
  }

  /** The value of a fixed surface as GRIB2 defines it (section 4): the
      scaled value divided by ten to the scale factor. */
  function SurfaceValue(scaleFactor: int, scaledValue: int): (v: real)
    ensures v * Pow10Real(scaleFactor) == scaledValue as real
  {
    scaledValue as real * Pow10Real(-scaleFactor)
  }

  /** reki's pressure-level value as written: the scaled value multiplied
      by ten to the scale factor. */
  function SurfaceAsWritten(scaleFactor: int, scaledValue: int): (v: real)
    ensures scaleFactor == 0 ==> v == SurfaceValue(scaleFactor, scaledValue)
  {
    Pow10Real(scaleFactor) * scaledValue as real
  }

  /** 850 hPa encoded as 850 with scale factor -2 reads as 8.5 Pa. */
  lemma SurfaceScaleInverted()
    ensures SurfaceAsWritten(-2, 850) == 8.5
    ensures SurfaceValue(-2, 850) == 85000.0
  {
    assert Pow10(2) == 100;
  }

  /** The first fixed surface's value as reki computes it. */
  function FirstSurface(attrs: Attrs): (r: Result<real>) {
    var f :- Attr(attrs, "scaleFactorOfFirstFixedSurface");
    var v :- Attr(attrs, "scaledValueOfFirstFixedSurface");
    if f.Int? && v.Int? then Ok(SurfaceAsWritten(f.i, v.i))
    else Err("non-integer fixed-surface keys are not modelled")
  }

  // ---------------------------------------------------------- level name

  /** The coordinate name of a level with no typeOfLevel, as documented:
      "level_" and the first surface type, then "_" and the second type
      when there is one. */
  function LevelName(first: string, second: Option<string>): string {
    "level_" + first + (if second.Some? then "_" + second.value else "")
  }

  /** The same name as written: the second type follows the first with no
      separator. */
  function LevelNameAsWritten(first: string, second: Option<string>): string {
    "level_" + first + (if second.Some? then second.value else "")
  }

  /** As written, a name with a second surface type is the name of one
      surface type spelled as the two types run together. */
  lemma AsWrittenNamesConcatenate(first: string, second: string)
    ensures LevelNameAsWritten(first, Some(second)) == LevelNameAsWritten(first + second, None)
    ensures LevelNameAsWritten(first, Some(second)) != LevelName(first, Some(second))
  {
    var w, c := LevelNameAsWritten(first, Some(second)), LevelName(first, Some(second));
    assert w == "level_" + (first + second) + "";
    assert |c| == |w| + 1;
  }

  lemma IntToStrNat(n: nat)
    ensures IntToStr(n) == NatToStr(n)
  {
    assert ZeroPad(n, 0) == "" + NatToStr(n);
  }

  lemma IntToStrPlain(n: int)
    ensures '_' !in IntToStr(n)
  {
    var d := ZeroPad(if n < 0 then -n else n, if n < 0 then -1 else 0);
    assert AllDigits(d);
    assert '_' !in d;
  }

  /** Surface types 10 and 1 (entire atmosphere over ground) and 101 alone
      (mean sea level) get the same name as written. */
  lemma LevelNamesCollide()
    ensures IntToStr(10) == "10" && IntToStr(1) == "1" && IntToStr(101) == "101"
    ensures LevelNameAsWritten(IntToStr(10), Some(IntToStr(1))) == LevelNameAsWritten(IntToStr(101), None)
    ensures LevelName(IntToStr(10), Some(IntToStr(1))) != LevelName(IntToStr(101), None)
  {
    assert NatToStr(1) == "1";
    assert NatToStr(10) == NatToStr(1) + "0";
    assert NatToStr(101) == NatToStr(10) + "1";
    IntToStrNat(1);
    IntToStrNat(10);
    IntToStrNat(101);
    assert LevelName("10", Some("1"))[8] == '_';
    assert LevelName("101", None) == "level_101";
  }

  /** The part of a level name after "level_". */
  function NameTail(first: string, second: Option<string>): string {
    first + (if second.Some? then "_" + second.value else "")
  }

  lemma NameTailSplit(first: string, second: Option<string>)
    requires '_' !in first
    requires second.Some? ==> '_' !in second.value
    ensures var t := NameTail(first, second);
      && IndexOf(t, '_') == (if second.Some? then Some(|first|) else None)
      && |first| <= |t| && t[..|first|] == first
      && (second.Some? ==> t[|first| + 1..] == second.value)
  {
    var t := NameTail(first, second);
    if second.Some? {
      assert t == first + ['_'] + second.value;
      IndexOfAfter(first, '_', second.value);
    } else {
      assert t == first;
    }
  }

  /** With the separator, names of surface types that hold no "_" tell
      their types apart. */
  lemma LevelNameInjective(a: string, sa: Option<string>, b: string, sb: Option<string>)
    requires '_' !in a && '_' !in b
    requires sa.Some? ==> '_' !in sa.value
    requires sb.Some? ==> '_' !in sb.value
    requires LevelName(a, sa) == LevelName(b, sb)
    ensures a == b && sa == sb
  {
    var ta := NameTail(a, sa);
    var tb := NameTail(b, sb);
    assert LevelName(a, sa) == "level_" + ta;
    assert LevelName(b, sb) == "level_" + tb;
    assert ta == LevelName(a, sa)[6..];
    assert ta == tb;
    NameTailSplit(a, sa);
    NameTailSplit(b, sb);
  }

  /** `get_level_from_attrs` with no level dimension name (nwpc_data's
      helper, and reki's when none is given): typeOfLevel when it is
      defined, otherwise a name made of the surface types, where 255 means
      there is no second surface. */
  function DefaultLevel(attrs: Attrs): (r: Result<(Value, Value)>)
    ensures r.Ok? && "typeOfLevel" in attrs && !Undefined(attrs["typeOfLevel"]) ==> r.value.0 == attrs["typeOfLevel"]
    ensures r.Ok? ==> "level" in attrs && r.value.1 == attrs["level"]
  {
    var t :- Attr(attrs, "typeOfLevel");
    if !Undefined(t) then
      var level :- Attr(attrs, "level");
      Ok((t, level))
    else
      var first :- ShowAttr(attrs, "typeOfFirstFixedSurface");
      var second :- Attr(attrs, "typeOfSecondFixedSurface");
      var suffix :- if NumberIs(second, 255) then Ok(None) else (var s :- Show(second); Ok(Some(s)));
      var level :- Attr(attrs, "level");
      Ok((Str(LevelNameAsWritten(first, suffix)), level))
  }

  /** With typeOfLevel undefined and integer surface types the name is
      "level_" and the first type, followed directly by the second type
      unless that is 255. */
  lemma DefaultLevelName(attrs: Attrs, first: int, second: int)
    requires "typeOfLevel" in attrs && Undefined(attrs["typeOfLevel"])
    requires "level" in attrs
    requires "typeOfFirstFixedSurface" in attrs && attrs["typeOfFirstFixedSurface"] == Int(first)
    requires "typeOfSecondFixedSurface" in attrs && attrs["typeOfSecondFixedSurface"] == Int(second)
    ensures DefaultLevel(attrs)
      == Ok((Str(LevelNameAsWritten(IntToStr(first), if second == 255 then None else Some(IntToStr(second)))), attrs["level"]))
  {
  }

  /** reki's `get_level_from_attrs(all_attrs, level_dim_name)`: pressure
      names take the first surface (in Pa, or in hPa for "isobaricInhPa"
      and "pl"), any other string names the level key, no name falls back
      to the default, and anything else is refused. */
  function LevelFromAttrs(attrs: Attrs, levelDimName: Value): (r: Result<(Value, Value)>)
    ensures levelDimName.Str? && levelDimName.s !in {"isobaricInPa", "isobaricInhPa", "pl"} ==>
      r == (if "level" in attrs then Ok((levelDimName, attrs["level"])) else r) && (r.Ok? <==> "level" in attrs)
    ensures levelDimName == Nil ==> r == DefaultLevel(attrs)
    ensures !levelDimName.Str? && levelDimName != Nil ==> r.Err?
  {
    match levelDimName
    case Str(name) =>
      if name == "isobaricInPa" then
        var pa :- FirstSurface(attrs);
        Ok((levelDimName, Float(pa)))
      else if name == "isobaricInhPa" || name == "pl" then
        var pa :- FirstSurface(attrs);
        Ok((levelDimName, Float(pa / 100.0)))
      else
        var level :- Attr(attrs, "level");
        Ok((levelDimName, level))
    case Nil => DefaultLevel(attrs)
    case _ => Err("TypeError: level_dim_name is not supported")
  }

  /** "isobaricInPa" takes the first fixed surface's scaled value times
      ten to its scale factor; this is the value GRIB2 defines only when
      the scale factor is 0. */
  lemma PascalLevel(attrs: Attrs, factor: int, scaled: int)
    requires "scaleFactorOfFirstFixedSurface" in attrs && attrs["scaleFactorOfFirstFixedSurface"] == Int(factor)
    requires "scaledValueOfFirstFixedSurface" in attrs && attrs["scaledValueOfFirstFixedSurface"] == Int(scaled)
    ensures LevelFromAttrs(attrs, Str("isobaricInPa")) == Ok((Str("isobaricInPa"), Float(SurfaceAsWritten(factor, scaled))))
    ensures LevelFromAttrs(attrs, Str("isobaricInPa")).value.1.x == Pow10Real(factor) * scaled as real
    ensures factor == 0 ==> LevelFromAttrs(attrs, Str("isobaricInPa")).value.1.x == SurfaceValue(factor, scaled)
  {
  }

  /** "isobaricInhPa" and "pl" give the "isobaricInPa" value in hPa. */
  lemma HectopascalLevels(attrs: Attrs, name: string)
    requires name == "isobaricInhPa" || name == "pl"
    ensures LevelFromAttrs(attrs, Str(name)).Ok? <==> LevelFromAttrs(attrs, Str("isobaricInPa")).Ok?
    ensures LevelFromAttrs(attrs, Str(name)).Ok? ==>
      LevelFromAttrs(attrs, Str(name)).value.1
        == Float(LevelFromAttrs(attrs, Str("isobaricInPa")).value.1.x / 100.0)
  {
  }

  // -------------------------------------------------- coordinates, names

  /** `get_level_coordinate_name`: the first coordinate whose name starts
      with "level_". */
  function LevelCoordinateName(coords: seq<string>): (r: Option<string>)
    ensures r.None? <==> forall i :: 0 <= i < |coords| ==> !StartsWith(coords[i], "level_")
    ensures r.Some? ==>
      exists i :: (0 <= i < |coords| && coords[i] == r.value
        && StartsWith(r.value, "level_") && forall j :: 0 <= j < i ==> !StartsWith(coords[j], "level_"))
  {
    match FirstIndex(coords, (c: string) => StartsWith(c, "level_"))
    case Some(i) => Some(coords[i])
    case None => None
  }

  /** The name given to a field: the requested name, else the message's
      shortName unless it is unknown, else the three parameter codes
      joined by "_". */
  function FieldName(fieldName: Value, attrs: Attrs): (r: Result<Value>)
    ensures fieldName != Nil ==> r == Ok(fieldName)
    ensures fieldName == Nil && "shortName" in attrs && attrs["shortName"] != Str("unknown") ==> r == Ok(attrs["shortName"])
    ensures fieldName == Nil && !("shortName" in attrs && attrs["shortName"] != Str("unknown")) ==>
      && (r.Ok? <==> CodesShown(attrs))
      && (r.Ok? ==> r.value == Str(Join(ShownCodes(attrs), "_")))
  {
    if fieldName != Nil then Ok(fieldName)
    else if "shortName" in attrs && attrs["shortName"] != Str("unknown") then Ok(attrs["shortName"])
    else
      var d :- ShowAttr(attrs, "discipline");
      var c :- ShowAttr(attrs, "parameterCategory");
      var n :- ShowAttr(attrs, "parameterNumber");
      JoinThree(d, c, n);
      Ok(Str(d + "_" + c + "_" + n))
  }

  lemma JoinThree(a: string, b: string, c: string)
    ensures Join([a, b, c], "_") == a + "_" + b + "_" + c
  {
    assert [a, b, c][1..] == [b, c] && [b, c][1..] == [c];
    assert Join([b, c], "_") == b + "_" + c;
  }

  /** The three parameter codes can be spelled out. */
  predicate CodesShown(attrs: Attrs) {
    && ShowAttr(attrs, "discipline").Ok?
    && ShowAttr(attrs, "parameterCategory").Ok?
    && ShowAttr(attrs, "parameterNumber").Ok?
  }

  /** The three parameter codes, spelled out in order. */
  function ShownCodes(attrs: Attrs): seq<string>
    requires CodesShown(attrs)
  {
    [ShowAttr(attrs, "discipline").value, ShowAttr(attrs, "parameterCategory").value,
     ShowAttr(attrs, "parameterNumber").value]
  }

  /** A field with an unknown short name and integer codes is named so that
      splitting the name at "_" gives the three codes back. */
  lemma FieldNameCodes(attrs: Attrs, d: int, c: int, n: int)
    requires "shortName" in attrs ==> attrs["shortName"] == Str("unknown")
    requires "discipline" in attrs && attrs["discipline"] == Int(d)
    requires "parameterCategory" in attrs && attrs["parameterCategory"] == Int(c)
    requires "parameterNumber" in attrs && attrs["parameterNumber"] == Int(n)
    ensures FieldName(Nil, attrs).Ok? && FieldName(Nil, attrs).value.Str?
    ensures SplitOn(FieldName(Nil, attrs).value.s, '_') == [IntToStr(d), IntToStr(c), IntToStr(n)]
  {
    var codes := [IntToStr(d), IntToStr(c), IntToStr(n)];
    assert ShownCodes(attrs) == codes;
    IntToStrPlain(d);
    IntToStrPlain(c);
    IntToStrPlain(n);
    assert "_" == ['_'];
    SplitOnJoin(codes, '_');
  }

  /** A parameter with an unknown short name is named by its codes, as for
      discipline 0, category 2, number 224. */
  lemma FieldNameFromCodes()
    ensures FieldName(Nil, map["shortName" := Str("unknown"), "discipline" := Int(0),
                               "parameterCategory" := Int(2), "parameterNumber" := Int(224)])
      == Ok(Str("0_2_224"))
  {
    var attrs := map["shortName" := Str("unknown"), "discipline" := Int(0),
                     "parameterCategory" := Int(2), "parameterNumber" := Int(224)];
    assert NatToStr(2) == "2" && NatToStr(0) == "0";
    assert NatToStr(22) == NatToStr(2) + [DigitChar(2)] == "22";
    assert NatToStr(224) == NatToStr(22) + [DigitChar(4)] == "224";
    IntToStrNat(0);
    IntToStrNat(2);
    IntToStrNat(224);
    assert ShowAttr(attrs, "discipline") == Ok("0");
    assert ShowAttr(attrs, "parameterCategory") == Ok("2");
    assert ShowAttr(attrs, "parameterNumber") == Ok("224");
    assert "0" + "_" + "2" + "_" + "224" == "0_2_224";
  }

  // ----------------------------------------------------------- attributes

  /** The `GRIB_`-prefixed copies of the listed keys whose values are
      defined, set one key after another into a dictionary: a key listed
      twice keeps the place of its first listing. */
  function GribAttrs(keys: seq<string>, attrs: Attrs): (r: Result<Entries>)
    ensures r.Ok? <==> forall i :: 0 <= i < |keys| ==> keys[i] in attrs
    ensures r.Ok? ==> |r.value| <= |keys|
    decreases |keys|
  {
    if keys == [] then Ok([])
    else
      var init :- GribAttrs(keys[..|keys| - 1], attrs);
      var k := keys[|keys| - 1];
      var v :- Attr(attrs, k);
      Ok(if Undefined(v) then init else Set(init, "GRIB_" + k, v))
  }

  /** The attributes never hold a key twice, however often it is listed. */
  lemma {:induction false} GribAttrsDistinct(keys: seq<string>, attrs: Attrs)
    requires GribAttrs(keys, attrs).Ok?
    ensures DistinctKeys(GribAttrs(keys, attrs).value)
    decreases |keys|
  {
    if keys != [] {
      var init := keys[..|keys| - 1];
      var k := keys[|keys| - 1];
      GribAttrsDistinct(init, attrs);
      if !Undefined(attrs[k]) {
        GribCheck.SetDistinct(GribAttrs(init, attrs).value, "GRIB_" + k, attrs[k]);
      }
    }
  }

  /** Every attribute is a defined value of a listed key, and every listed
      key with a defined value is there. */
  lemma {:induction false} GribAttrsLookup(keys: seq<string>, attrs: Attrs, k: string)
    requires GribAttrs(keys, attrs).Ok?
    ensures Lookup(GribAttrs(keys, attrs).value, "GRIB_" + k).Some?
      <==> k in keys && !Undefined(attrs[k])
    ensures Lookup(GribAttrs(keys, attrs).value, "GRIB_" + k).Some?
      ==> Lookup(GribAttrs(keys, attrs).value, "GRIB_" + k).value == attrs[k]
    decreases |keys|
  {
    if keys != [] {
      var init := keys[..|keys| - 1];
      var last := keys[|keys| - 1];
      GribAttrsLookup(init, attrs, k);
      assert keys == init + [last];
      if "GRIB_" + last == "GRIB_" + k {
        assert ("GRIB_" + last)[5..] == last && ("GRIB_" + k)[5..] == k;
      }
      var e := GribAttrs(init, attrs).value;
      if !Undefined(attrs[last]) {
        LookupSet(e, "GRIB_" + last, attrs[last], "GRIB_" + k);
      }
    }
  }

  /** The long name of a field: GRIB_name when there is one, else the
      three codes spelled out. */
  function LongName(e: Entries, attrs: Attrs): Result<Value> {
    match Lookup(e, "GRIB_name")
    case Some(v) => Ok(v)
    case None =>
      var d :- ShowAttr(attrs, "discipline");
      var c :- ShowAttr(attrs, "parameterCategory");
      var n :- ShowAttr(attrs, "parameterNumber");
      Ok(Str("discipline=" + d + " parmcat=" + c + " parm=" + n))
  }

  /** long_name: GRIB_name when there is one, else the three codes spelled
      out. */
  function WithLongName(e: Entries, attrs: Attrs): (r: Result<Entries>)
    ensures r.Ok? ==> Lookup(r.value, "long_name").Some?
    ensures r.Ok? && Lookup(e, "GRIB_name").Some? ==> Lookup(r.value, "long_name") == Lookup(e, "GRIB_name")
    ensures r.Ok? <==>
      (Lookup(e, "GRIB_name").Some?
       || (ShowAttr(attrs, "discipline").Ok? && ShowAttr(attrs, "parameterCategory").Ok?
           && ShowAttr(attrs, "parameterNumber").Ok?))
    ensures r.Ok? && Lookup(e, "GRIB_name").None? ==>
      Lookup(r.value, "long_name") == Some(Str("discipline=" + ShowAttr(attrs, "discipline").value
        + " parmcat=" + ShowAttr(attrs, "parameterCategory").value
        + " parm=" + ShowAttr(attrs, "parameterNumber").value))
  {
    var name :- LongName(e, attrs);
    LookupSet(e, "long_name", name, "long_name");
    Ok(Set(e, "long_name", name))
  }

  /** units: a copy of GRIB_units when there is one. */
  function WithUnits(e: Entries): (r: Entries)
    ensures Lookup(r, "long_name") == Lookup(e, "long_name")
    ensures Lookup(r, "units") == if Lookup(e, "GRIB_units").Some? then Lookup(e, "GRIB_units") else Lookup(e, "units")
  {
    match Lookup(e, "GRIB_units")
    case Some(u) =>
      LookupSet(e, "units", u, "long_name");
      LookupSet(e, "units", u, "units");
      Set(e, "units", u)
    case None => e
  }

  /** The data attributes of a field: the defined listed keys, a long_name
      and the units. */
  function DataAttrs(keys: seq<string>, attrs: Attrs): (r: Result<Entries>)
    ensures r.Ok? ==> Lookup(r.value, "long_name").Some?
  {
    var e :- GribAttrs(keys, attrs);
    var named :- WithLongName(e, attrs);
    Ok(WithUnits(named))
  }

  /** Setting long_name leaves every other attribute alone. */
  lemma WithLongNameKeeps(e: Entries, attrs: Attrs, j: string)
    requires WithLongName(e, attrs).Ok? && j != "long_name"
    ensures Lookup(WithLongName(e, attrs).value, j) == Lookup(e, j)
  {
    LookupSet(e, "long_name", LongName(e, attrs).value, j);
  }

  /** Setting units leaves every other attribute alone. */
  lemma WithUnitsKeeps(e: Entries, j: string)
    requires j != "units"
    ensures Lookup(WithUnits(e), j) == Lookup(e, j)
  {
    if Lookup(e, "GRIB_units").Some? {
      LookupSet(e, "units", Lookup(e, "GRIB_units").value, j);
    }
  }

  /** The defined listed keys come through unchanged: long_name and units
      are never `GRIB_` keys. */
  lemma DataAttrsKeepGribKeys(keys: seq<string>, attrs: Attrs, k: string)
    requires DataAttrs(keys, attrs).Ok?
    ensures Lookup(DataAttrs(keys, attrs).value, "GRIB_" + k) == Lookup(GribAttrs(keys, attrs).value, "GRIB_" + k)
  {
    var e := GribAttrs(keys, attrs).value;
    var j := "GRIB_" + k;
    assert j[0] == 'G';
    WithLongNameKeeps(e, attrs, j);
    WithUnitsKeeps(WithLongName(e, attrs).value, j);
  }
}
