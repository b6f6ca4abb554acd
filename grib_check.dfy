/** reki's eccodes condition matcher: a query (parameter, level type, level
    and extra keys) becomes one dictionary of conditions, and a message
    passes when every condition holds. */
module GribCheck {
  import opened Wrappers
  import opened Text
  import opened PyValue

  // ------------------------------------------------------------- conditions

  /** `get_parameter_conditions`. */
  function ParameterConditions(p: Value): (r: Result<Entries>)
    ensures r.Ok? <==> p.Nil? || p.Str? || p.Dict?
  {
    match p
    case Nil => Ok([])
    case Str(_) => Ok([("shortName", p)])
    case Dict(e) => Ok(e)
    case _ => Err("ValueError: parameter is not supported")
  }

  /** `get_level_type_conditions`. */
  function LevelTypeConditions(lt: Value): (r: Result<Entries>)
    ensures r.Ok? <==> lt.Nil? || lt.Str? || lt.List? || lt.Dict?
  {
    match lt
    case Nil => Ok([])
    case Str(_) => Ok([("typeOfLevel", lt)])
    case List(_) => Ok([("typeOfLevel", lt)])
    case Dict(e) => Ok(e)
    case _ => Err("ValueError: level_type is not supported")
  }

  /** `get_level_value_conditions`: a bool counts as an int, and the string
      "all" asks for no level condition. */
  function LevelConditions(level: Value): (r: Result<Entries>)
    ensures r.Ok? <==> !(level.Str? && level.s != "all")
  {
    match level
    case Nil => Ok([])
    case Int(_) => Ok([("level", level)])
    case Float(_) => Ok([("level", level)])
    case Bool(_) => Ok([("level", level)])
    case List(_) => Ok([("level", level)])
    case Dict(e) => Ok(e)
    case Str(s) => if s == "all" then Ok([]) else Err("ValueError: level is not supported")
  }

  /** The conditions of `_check_message`: parameter, level-type, level and
      extra-key conditions merged in that order. */
  function Conditions(p: Value, lt: Value, level: Value, extra: Entries): (r: Result<Entries>)
    ensures r.Ok? <==> ParameterConditions(p).Ok? && LevelTypeConditions(lt).Ok? && LevelConditions(level).Ok?
  {
    var pc :- ParameterConditions(p);
    var tc :- LevelTypeConditions(lt);
    var lc :- LevelConditions(level);
    Ok(Update(Update(Update(Update([], pc), tc), lc), extra))
  }

  /** A later source overrides an equal key of an earlier one. */
  lemma ConditionsPrecedence(p: Value, lt: Value, level: Value, extra: Entries, k: string)
    requires Conditions(p, lt, level, extra).Ok?
    requires DistinctKeys(ParameterConditions(p).value) && DistinctKeys(LevelTypeConditions(lt).value)
    requires DistinctKeys(LevelConditions(level).value) && DistinctKeys(extra)
    ensures var pc := ParameterConditions(p).value;
      var tc := LevelTypeConditions(lt).value;
      var lc := LevelConditions(level).value;
      Lookup(Conditions(p, lt, level, extra).value, k) ==
        if Lookup(extra, k).Some? then Lookup(extra, k)
        else if Lookup(lc, k).Some? then Lookup(lc, k)
        else if Lookup(tc, k).Some? then Lookup(tc, k)
        else Lookup(pc, k)
  {
    var pc := ParameterConditions(p).value;
    var tc := LevelTypeConditions(lt).value;
    var lc := LevelConditions(level).value;
    var d1 := Update([], pc);
    var d2 := Update(d1, tc);
    var d3 := Update(d2, lc);
    LookupUpdate([], pc, k);
    LookupUpdate(d1, tc, k);
    LookupUpdate(d2, lc, k);
    LookupUpdate(d3, extra, k);
  }

  // -------------------------------------------------------------- key reads

  /** The read type a ":suffix" names. */
  function ReadTypeOf(suffix: string): (r: Result<ReadType>)
    ensures r.Ok? <==> suffix == "str" || suffix == "int" || suffix == "float"
  {
    if suffix == "str" then Ok(AsStr)
    else if suffix == "int" then Ok(AsInt)
    else if suffix == "float" then Ok(AsFloat)
    else Err("ValueError: key_type is not supported")
  }

  /** The key name and read type of a key written "name" or "name:type"
      (`get_key_value_from_message` before the read). */
  function KeyRead(key: string, t: ReadType): (r: Result<(string, ReadType)>)
    ensures ':' !in key ==> r == Ok((key, t))
  {
    var parts := SplitOn(key, ':');
    if |parts| == 1 then
      assert parts == [key];
      Ok((key, t))
    else
      var rt :- ReadTypeOf(parts[1]);
      Ok((parts[0], rt))
  }

  /** A suffix ":str", ":int" or ":float" selects the read type; any other
      suffix is refused. */
  lemma KeySuffix(name: string, suffix: string, t: ReadType)
    requires ':' !in name && ':' !in suffix
    ensures KeyRead(name + ":" + suffix, t).Ok? <==> ReadTypeOf(suffix).Ok?
    ensures ReadTypeOf(suffix).Ok? ==> KeyRead(name + ":" + suffix, t) == Ok((name, ReadTypeOf(suffix).value))
  {
    var key := name + ":" + suffix;
    IndexOfAfter(name, ':', suffix);
    assert key[..|name|] == name && key[|name| + 1..] == suffix;
    assert SplitOn(key, ':') == [name] + SplitOn(suffix, ':');
    assert SplitOn(suffix, ':') == [suffix];
  }

  /** `get_key_value_from_message(message, key, ktype)`. */
  function GetKey(m: Message, key: string, t: ReadType): (r: Result<Reading>)
    ensures ':' !in key ==> r == Get(m, key, t)
  {
    var kr :- KeyRead(key, t);
    Get(m, kr.0, kr.1)
  }

  /** A key with no ":" is read as written. */
  lemma PlainKey(key: string)
    requires key == "shortName" || key == "level" || key == "typeOfLevel"
    ensures ':' !in key
  {
  }

  /** `check_value`: membership for a list, equality otherwise. */
  predicate CheckValue(expected: Value, got: Reading) {
    if expected.List? then Member(got, expected.items) else Equals(expected, got)
  }

  // ---------------------------------------------------------- surface levels

  /** Checks the `key` entry of `d`, if any, against the decoded surface
      `name`; gives the verdict and `d` without that entry. */
  function SurfaceLevel(m: Message, d: Entries, key: string, name: string): (r: Result<(bool, Entries)>)
    ensures key !in Keys(d) ==> r == Ok((true, d))
    ensures key in Keys(d) && r.Ok? ==>
      && r.value.1 == Remove(d, key)
      && Surface(m, name).Ok? && ToFloat(Lookup(d, key).value).Ok?
      && (r.value.0 <==> Surface(m, name).value == ToFloat(Lookup(d, key).value).value)
  {
    match Lookup(d, key)
    case None => Ok((true, d))
    case Some(required) =>
      var rest := Remove(d, key);
      var got :- Surface(m, name);
      var want :- ToFloat(required);
      Ok((got == want, rest))
  }

  /** The `first_level` and then the `second_level` condition. */
  function SurfaceLevels(m: Message, d: Entries): (r: Result<(bool, Entries)>)
  {
    var first :- SurfaceLevel(m, d, "first_level", "First");
    if !first.0 then Ok((false, first.1))
    else SurfaceLevel(m, first.1, "second_level", "Second")
  }

  // ------------------------------------------------------ check_conditions

  /** Conditions ask for pressure levels when they hold
      "typeOfFirstFixedSurface:int" equal to 100. */
  predicate PlConditions(conditions: Entries) {
    var v := Lookup(conditions, "typeOfFirstFixedSurface:int");
    v.Some? && Number(v.value) == Some(100.0)
  }

  /** The level a message is compared at: its "level" key read as a float,
      replaced by the first surface in hPa for pressure-level conditions. */
  function LevelReading(m: Message, conditions: Entries): (r: Result<Reading>)
    ensures r.Ok? <==> Get(m, "level", AsFloat).Ok? && (PlConditions(conditions) ==> "First" in m.surface)
    ensures r.Ok? && PlConditions(conditions) ==> r.value == Float(m.surface["First"] / 100.0)
    ensures r.Ok? && !PlConditions(conditions) ==> r.value == Get(m, "level", AsFloat).value
  {
    PlainKey("level");
    var level :- GetKey(m, "level", AsFloat);
    if PlConditions(conditions) then
      var pa :- Surface(m, "First");
      Ok(Float(pa / 100.0))
    else Ok(level)
  }

  /** Each remaining key, read with its own type, must pass `check_value`;
      the first failing read or value decides. */
  function Remaining(m: Message, d: Entries): (r: Result<bool>)
    ensures r == Ok(true) <==> forall i :: 0 <= i < |d| ==>
      GetKey(m, d[i].0, Native).Ok? && CheckValue(d[i].1, GetKey(m, d[i].0, Native).value)
    ensures r == Ok(false) ==> exists i :: (0 <= i < |d| && GetKey(m, d[i].0, Native).Ok?
      && !CheckValue(d[i].1, GetKey(m, d[i].0, Native).value))
    ensures r.Err? ==> exists i :: 0 <= i < |d| && GetKey(m, d[i].0, Native) == Err(r.msg)
  {
    if d == [] then Ok(true)
    else
      var got :- GetKey(m, d[0].0, Native);
      if !CheckValue(d[0].1, got) then Ok(false)
      else
        var rest := Remaining(m, d[1..]);
        assert forall i :: 1 <= i < |d| ==> d[i] == d[1..][i - 1];
        rest
  }

  /** `check_conditions(message, conditions)`: surface levels, then the
      level, then every other key. */
  function Satisfies(m: Message, conditions: Entries): (r: Result<bool>)
  {
    var lv :- SurfaceLevels(m, conditions);
    if !lv.0 then Ok(false) else LevelThenKeys(m, conditions, lv.1)
  }

  /** The part of `check_conditions` after the surface checks: the level,
      if `current` still holds one, then the key loop. */
  function LevelThenKeys(m: Message, conditions: Entries, current: Entries): Result<bool> {
    match Lookup(current, "level")
    case None => Remaining(m, current)
    case Some(expected) =>
      var got :- LevelReading(m, conditions);
      if !CheckValue(expected, got) then Ok(false)
      else Remaining(m, Remove(current, "level"))
  }

  /** `check_conditions` as the source runs it: on a copy of the conditions,
      popping the surface and level entries before the key loop. */
  method CheckConditions(m: Message, conditions: Entries) returns (r: Result<bool>)
    ensures r == Satisfies(m, conditions)
  {
    var current := conditions;
    var first :- SurfaceLevel(m, current, "first_level", "First");
    current := first.1;
    if !first.0 {
      return Ok(false);
    }
    var second :- SurfaceLevel(m, current, "second_level", "Second");
    current := second.1;
    if !second.0 {
      return Ok(false);
    }
    var level := Lookup(current, "level");
    if level.Some? {
      var got :- LevelReading(m, conditions);
      var expected := level.value;
      current := Remove(current, "level");
      if !CheckValue(expected, got) {
        return Ok(false);
      }
    }
    r := CheckRemaining(m, current);
  }

  /** The key loop of `check_conditions`: the first key whose read fails or
      whose value does not pass decides. */
  method CheckRemaining(m: Message, current: Entries) returns (r: Result<bool>)
    ensures r == Remaining(m, current)
  {
    var i := 0;
    while i < |current|
      invariant 0 <= i <= |current|
      invariant Remaining(m, current) == Remaining(m, current[i..])
    {
      var v :- GetKey(m, current[i].0, Native);
      if !CheckValue(current[i].1, v) {
        return Ok(false);
      }
      assert current[i..][1..] == current[i + 1..];
      i := i + 1;
    }
    return Ok(true);
  }

  /** `_check_message`: the merged conditions, checked; a message passes
      exactly when it meets every one of them. */
  function CheckMessage(m: Message, p: Value, lt: Value, level: Value, extra: Entries): (r: Result<bool>)
    ensures Conditions(p, lt, level, extra).Err? ==> r.Err?
    ensures Conditions(p, lt, level, extra).Ok? ==>
      (r == Ok(true) <==> ConditionsMet(m, Conditions(p, lt, level, extra).value))
  {
    var conditions :- Conditions(p, lt, level, extra);
    ConditionsDistinct(p, lt, level, extra);
    SatisfiesMet(m, conditions);
    Satisfies(m, conditions)
  }

  // ----------------------------------------------------- conditions met

  /** A `first_level` or `second_level` condition holds: the decoded surface
      equals the condition's value read as a float. */
  predicate SurfaceMet(m: Message, c: Entries, key: string, name: string) {
    Lookup(c, key).Some? ==>
      && Surface(m, name).Ok? && ToFloat(Lookup(c, key).value).Ok?
      && Surface(m, name).value == ToFloat(Lookup(c, key).value).value
  }

  /** A plain-key condition holds: the key reads with its own type and its
      value passes `check_value`. */
  predicate KeyPasses(m: Message, x: (string, Value)) {
    GetKey(m, x.0, Native).Ok? && CheckValue(x.1, GetKey(m, x.0, Native).value)
  }

  /** The `level` condition, if any, holds at the level the conditions ask
      for (in hPa for pressure-level conditions). */
  predicate LevelMet(m: Message, c: Entries) {
    Lookup(c, "level").Some? ==>
      LevelReading(m, c).Ok? && CheckValue(Lookup(c, "level").value, LevelReading(m, c).value)
  }

  /** Every condition holds as `check_conditions` reads it: the surface
      levels, the level and every other key. */
  predicate ConditionsMet(m: Message, c: Entries) {
    && SurfaceMet(m, c, "first_level", "First")
    && SurfaceMet(m, c, "second_level", "Second")
    && LevelMet(m, c)
    && forall x :: x in c && x.0 != "first_level" && x.0 != "second_level" && x.0 != "level" ==> KeyPasses(m, x)
  }

  /** The conditions left for the key loop once the surface entries and
      `level` are popped. */
  function Popped(c: Entries): Entries {
    Remove(Remove(Remove(c, "first_level"), "second_level"), "level")
  }

  /** A message passes the conditions exactly when it meets every one. */
  lemma SatisfiesMet(m: Message, c: Entries)
    requires DistinctKeys(c)
    ensures Satisfies(m, c) == Ok(true) <==> ConditionsMet(m, c)
  {
    SatisfiesStages(m, c);
    var c1 := Remove(c, "first_level");
    var c2 := Remove(c1, "second_level");
    PoppedElements(c, c1, c2, Popped(c));
    RemainingAll(m, Popped(c));
  }

  /** `check_conditions` passes exactly when the surface checks pass, the
      level holds and the key loop passes over the popped conditions. */
  lemma SatisfiesStages(m: Message, c: Entries)
    requires DistinctKeys(c)
    ensures Satisfies(m, c) == Ok(true) <==>
      && SurfaceMet(m, c, "first_level", "First") && SurfaceMet(m, c, "second_level", "Second")
      && LevelMet(m, c) && Remaining(m, Popped(c)) == Ok(true)
  {
    var c1 := Remove(c, "first_level");
    var c2 := Remove(c1, "second_level");
    SurfaceStep(m, c, "first_level", "First");
    RemoveDistinct(c, "first_level");
    SurfaceStep(m, c1, "second_level", "Second");
    LookupRemove(c, "first_level", "second_level");
    assert SurfaceMet(m, c1, "second_level", "Second") == SurfaceMet(m, c, "second_level", "Second");
    LevelStage(m, c, c1, c2);
  }

  /** After the surface checks, the level check and the key loop pass
      exactly when the level holds and the popped conditions pass. */
  lemma LevelStage(m: Message, c: Entries, c1: Entries, c2: Entries)
    requires DistinctKeys(c) && c1 == Remove(c, "first_level") && c2 == Remove(c1, "second_level")
    ensures LevelThenKeys(m, c, c2) == Ok(true) <==> LevelMet(m, c) && Remaining(m, Popped(c)) == Ok(true)
  {
    RemoveDistinct(c, "first_level");
    LookupRemove(c, "first_level", "level");
    LookupRemove(c1, "second_level", "level");
    if Lookup(c2, "level").None? {
      RemoveAbsent(c2, "level");
    }
  }

  /** After popping the surface keys and `level`, exactly the other
      conditions are left. */
  lemma PoppedElements(c: Entries, c1: Entries, c2: Entries, c3: Entries)
    requires DistinctKeys(c)
    requires c1 == Remove(c, "first_level") && c2 == Remove(c1, "second_level") && c3 == Remove(c2, "level")
    ensures forall x :: x in c3 <==>
      x in c && x.0 != "first_level" && x.0 != "second_level" && x.0 != "level"
  {
    RemoveDistinct(c, "first_level");
    RemoveDistinct(c1, "second_level");
    RemoveElements(c, "first_level");
    RemoveElements(c1, "second_level");
    RemoveElements(c2, "level");
  }

  /** One surface check passes exactly when its condition holds, and leaves
      the entries without its key. */
  lemma SurfaceStep(m: Message, d: Entries, key: string, name: string)
    ensures SurfaceLevel(m, d, key, name).Ok? ==> SurfaceLevel(m, d, key, name).value.1 == Remove(d, key)
    ensures (SurfaceLevel(m, d, key, name).Ok? && SurfaceLevel(m, d, key, name).value.0) <==> SurfaceMet(m, d, key, name)
  {
    if Lookup(d, key).None? {
      RemoveAbsent(d, key);
    }
  }

  /** The key loop passes exactly when every entry passes. */
  lemma RemainingAll(m: Message, d: Entries)
    ensures Remaining(m, d) == Ok(true) <==> forall x :: x in d ==> KeyPasses(m, x)
  {
    if Remaining(m, d) == Ok(true) {
      forall x | x in d
        ensures KeyPasses(m, x)
      {
        var i :| 0 <= i < |d| && d[i] == x;
      }
    }
    if forall x :: x in d ==> KeyPasses(m, x) {
      forall i | 0 <= i < |d|
        ensures KeyPasses(m, d[i])
      {
        assert d[i] in d;
      }
    }
  }

  lemma {:induction false} RemoveAbsent(d: Entries, k: string)
    requires Lookup(d, k).None?
    ensures Remove(d, k) == d
  {
    if d != [] {
      RemoveAbsent(d[1..], k);
    }
  }

  /** `pop` on distinct keys drops exactly the entry of that key. */
  lemma {:induction false} RemoveElements(d: Entries, k: string)
    requires DistinctKeys(d)
    ensures forall x :: x in Remove(d, k) <==> x in d && x.0 != k
  {
    if d != [] {
      assert DistinctKeys(d[1..]);
      RemoveElements(d[1..], k);
      assert d == [d[0]] + d[1..];
      if d[0].0 == k {
        forall x | x in d[1..]
          ensures x.0 != k
        {
          var i :| 0 <= i < |d[1..]| && d[1..][i] == x;
          assert d[i + 1] == x;
        }
      }
    }
  }

  // --------------------------------------------------------------- lemmas

  lemma {:induction false} RemoveDistinct(d: Entries, k: string)
    requires DistinctKeys(d)
    ensures DistinctKeys(Remove(d, k))
    ensures forall j :: j in Keys(Remove(d, k)) ==> j in Keys(d) && j != k
  {
    if d != [] {
      assert DistinctKeys(d[1..]);
      RemoveDistinct(d[1..], k);
      if d[0].0 != k {
        var rest := Remove(d[1..], k);
        assert Keys(Remove(d, k)) == [d[0].0] + Keys(rest);
        assert Keys(d) == [d[0].0] + Keys(d[1..]);
        assert d[0].0 !in Keys(d[1..]);
      } else {
        assert Keys(d) == [d[0].0] + Keys(d[1..]);
        assert k !in Keys(d[1..]);
      }
    }
  }

  /** A key that passes `Remaining` was read and matched. */
  lemma RemainingKey(m: Message, d: Entries, k: string)
    requires Remaining(m, d) == Ok(true) && k in Keys(d)
    ensures GetKey(m, k, Native).Ok? && CheckValue(Lookup(d, k).value, GetKey(m, k, Native).value)
  {
    var i :| 0 <= i < |d| && d[i] == (k, Lookup(d, k).value);
  }

  /** Passing conditions: every key other than the surface and level
      entries was read with its own type and passed `check_value`. */
  lemma SatisfiesKey(m: Message, c: Entries, k: string)
    requires Satisfies(m, c) == Ok(true) && DistinctKeys(c) && k in Keys(c)
    requires k != "first_level" && k != "second_level" && k != "level"
    ensures GetKey(m, k, Native).Ok? && CheckValue(Lookup(c, k).value, GetKey(m, k, Native).value)
  {
    var current := SurfaceLevels(m, c).value.1;
    SurfacesKeepKey(m, c, k);
    if "level" in Keys(current) {
      RemoveDistinct(current, "level");
      LookupRemove(current, "level", k);
      RemainingKey(m, Remove(current, "level"), k);
    } else {
      RemainingKey(m, current, k);
    }
  }

  /** The surface checks take out only their own entries. */
  lemma SurfacesKeepKey(m: Message, c: Entries, k: string)
    requires SurfaceLevels(m, c).Ok? && DistinctKeys(c) && k in Keys(c)
    requires k != "first_level" && k != "second_level"
    ensures var current := SurfaceLevels(m, c).value.1;
      DistinctKeys(current) && Lookup(current, k) == Lookup(c, k) && k in Keys(current)
  {
    var first := SurfaceLevel(m, c, "first_level", "First").value;
    assert DistinctKeys(first.1) && Lookup(first.1, k) == Lookup(c, k) && k in Keys(first.1) by {
      if "first_level" in Keys(c) {
        RemoveDistinct(c, "first_level");
        LookupRemove(c, "first_level", k);
      }
    }
    if first.0 {
      var second := SurfaceLevel(m, first.1, "second_level", "Second").value;
      if "second_level" in Keys(first.1) {
        RemoveDistinct(first.1, "second_level");
        LookupRemove(first.1, "second_level", k);
      }
    }
  }

  /** Passing conditions with a level and no surface entries: the level was
      compared at the first surface in hPa for pressure-level conditions,
      and at the message's own "level" otherwise. */
  lemma SatisfiesLevel(m: Message, c: Entries)
    requires Satisfies(m, c) == Ok(true) && "level" in Keys(c)
    requires "first_level" !in Keys(c) && "second_level" !in Keys(c)
    ensures GetKey(m, "level", AsFloat).Ok?
    ensures PlConditions(c) ==>
      && "First" in m.surface
      && CheckValue(Lookup(c, "level").value, Float(m.surface["First"] / 100.0))
    ensures !PlConditions(c) ==> CheckValue(Lookup(c, "level").value, GetKey(m, "level", AsFloat).value)
  {
    SatisfiedLevelReading(m, c);
    LevelCompared(m, c, Lookup(c, "level").value);
  }

  /** A level reading that passes `check_value` against `expected`. */
  lemma LevelCompared(m: Message, c: Entries, expected: Value)
    requires LevelReading(m, c).Ok? && CheckValue(expected, LevelReading(m, c).value)
    ensures GetKey(m, "level", AsFloat).Ok?
    ensures PlConditions(c) ==> "First" in m.surface && CheckValue(expected, Float(m.surface["First"] / 100.0))
    ensures !PlConditions(c) ==> CheckValue(expected, GetKey(m, "level", AsFloat).value)
  {
    PlainKey("level");
  }

  /** Without surface entries the surface checks pass and leave the
      conditions as they are, so the level reading must pass. */
  lemma SatisfiedLevelReading(m: Message, c: Entries)
    requires Satisfies(m, c) == Ok(true) && "level" in Keys(c)
    requires "first_level" !in Keys(c) && "second_level" !in Keys(c)
    ensures LevelReading(m, c).Ok? && CheckValue(Lookup(c, "level").value, LevelReading(m, c).value)
  {
    assert SurfaceLevel(m, c, "first_level", "First") == Ok((true, c));
    assert SurfaceLevel(m, c, "second_level", "Second") == Ok((true, c));
    assert SurfaceLevels(m, c) == Ok((true, c));
  }

  /** A string parameter's shortName condition survives the merge unless a
      later source names shortName. */
  lemma ConditionsShortName(name: string, lt: Value, level: Value, extra: Entries)
    requires Conditions(Str(name), lt, level, extra).Ok?
    requires DistinctKeys(LevelTypeConditions(lt).value) && DistinctKeys(LevelConditions(level).value)
    requires DistinctKeys(extra)
    requires Lookup(extra, "shortName").None? && Lookup(LevelConditions(level).value, "shortName").None?
    requires Lookup(LevelTypeConditions(lt).value, "shortName").None?
    ensures Lookup(Conditions(Str(name), lt, level, extra).value, "shortName") == Some(Str(name))
  {
    ConditionsPrecedence(Str(name), lt, level, extra, "shortName");
  }

  /** A message that passes a string parameter's conditions has that
      shortName, unless a later source of conditions names shortName. */
  lemma CheckMessageShortName(m: Message, name: string, lt: Value, level: Value, extra: Entries)
    requires CheckMessage(m, Str(name), lt, level, extra) == Ok(true)
    requires DistinctKeys(LevelTypeConditions(lt).value) && DistinctKeys(LevelConditions(level).value)
    requires DistinctKeys(extra)
    requires Lookup(extra, "shortName").None? && Lookup(LevelConditions(level).value, "shortName").None?
    requires Lookup(LevelTypeConditions(lt).value, "shortName").None?
    ensures Get(m, "shortName", Native).Ok? && Equals(Str(name), Get(m, "shortName", Native).value)
  {
    var c := Conditions(Str(name), lt, level, extra).value;
    ConditionsShortName(name, lt, level, extra);
    ConditionsDistinct(Str(name), lt, level, extra);
    SatisfiesKey(m, c, "shortName");
    PlainKey("shortName");
    var got: Reading := Get(m, "shortName", Native).value;
    assert CheckValue(Str(name), got);
  }

  lemma {:induction false} SetDistinct(d: Entries, k: string, v: Value)
    requires DistinctKeys(d)
    ensures DistinctKeys(Set(d, k, v))
  {
    KeysSet(d, k, v);
    var r := Set(d, k, v);
    if k !in Keys(d) {
      assert r == d + [(k, v)];
      forall i, j | 0 <= i < j < |r|
        ensures r[i].0 != r[j].0
      {
        if j == |d| {
          assert Keys(d)[i] == d[i].0;
        }
      }
    } else {
      assert Keys(r) == Keys(d);
      forall i, j | 0 <= i < j < |r|
        ensures r[i].0 != r[j].0
      {
        assert Keys(r)[i] == r[i].0 && Keys(r)[j] == r[j].0;
        assert Keys(d)[i] == d[i].0 && Keys(d)[j] == d[j].0;
      }
    }
  }

  lemma {:induction false} UpdateDistinct(d: Entries, e: Entries)
    requires DistinctKeys(d)
    ensures DistinctKeys(Update(d, e))
    decreases |e|
  {
    if e != [] {
      SetDistinct(d, e[0].0, e[0].1);
      UpdateDistinct(Set(d, e[0].0, e[0].1), e[1..]);
    }
  }

  lemma ConditionsDistinct(p: Value, lt: Value, level: Value, extra: Entries)
    requires Conditions(p, lt, level, extra).Ok?
    ensures DistinctKeys(Conditions(p, lt, level, extra).value)
  {
    var pc := ParameterConditions(p).value;
    var tc := LevelTypeConditions(lt).value;
    var lc := LevelConditions(level).value;
    UpdateDistinct([], pc);
    UpdateDistinct(Update([], pc), tc);
    UpdateDistinct(Update(Update([], pc), tc), lc);
    UpdateDistinct(Update(Update(Update([], pc), tc), lc), extra);
  }
}
