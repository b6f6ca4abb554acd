/** The step-by-step message predicates of reki's and nwpc_data's eccodes
    helpers: parameter, level type, level value and extra keys, each checked
    against a message and combined with early exits. */
module GribMatch {
  import opened Wrappers
  import opened PyValue
  import opened GribCheck

  // ------------------------------------------------------------ shared parts

  /** Every entry equals the message's value for its key, read with the
      key's own type; the first failing read or mismatch decides.  This is
      `_check_keys` and the dictionary branch of `_check_parameter`. */
  function KeysEqual(m: Message, d: Entries): (r: Result<bool>)
    ensures r == Ok(true) <==> forall i :: 0 <= i < |d| ==>
      Get(m, d[i].0, Native).Ok? && Equals(d[i].1, Get(m, d[i].0, Native).value)
    ensures r == Ok(false) ==> exists i :: (0 <= i < |d| && Get(m, d[i].0, Native).Ok?
      && !Equals(d[i].1, Get(m, d[i].0, Native).value))
    ensures r.Err? ==> exists i :: 0 <= i < |d| && Get(m, d[i].0, Native) == Err(r.msg)
  {
    if d == [] then Ok(true)
    else
      var got :- Get(m, d[0].0, Native);
      if !Equals(d[0].1, got) then Ok(false)
      else
        var rest := KeysEqual(m, d[1..]);
        assert forall i :: 1 <= i < |d| ==> d[i] == d[1..][i - 1];
        rest
  }

  /** The read type `type(requested_value)` selects: a requested value of
      another type than str, int or float has no reader. */
  function ReaderFor(v: Value): (r: Result<ReadType>)
    ensures r.Ok? <==> v.Str? || v.Int? || v.Float?
  {
    match v
    case Str(_) => Ok(AsStr)
    case Int(_) => Ok(AsInt)
    case Float(_) => Ok(AsFloat)
    case _ => Err("TypeError: unsupported key type")
  }

  /** The dictionary branch of `_check_level_type`: every key, read with the
      type of its requested value, must equal it. */
  function TypedKeysEqual(m: Message, d: Entries): (r: Result<bool>)
    ensures r == Ok(true) <==> forall i :: 0 <= i < |d| ==>
      ReaderFor(d[i].1).Ok? && Get(m, d[i].0, ReaderFor(d[i].1).value).Ok?
      && Equals(d[i].1, Get(m, d[i].0, ReaderFor(d[i].1).value).value)
  {
    if d == [] then Ok(true)
    else
      var t :- ReaderFor(d[0].1);
      var got :- Get(m, d[0].0, t);
      if !Equals(d[0].1, got) then Ok(false)
      else
        var rest := TypedKeysEqual(m, d[1..]);
        assert forall i :: 1 <= i < |d| ==> d[i] == d[1..][i - 1];
        rest
  }

  // ---------------------------------------------------------- reki `_util`

  /** reki's `_check_parameter`. */
  function CheckParameter(m: Message, p: Value): (r: Result<bool>)
    ensures p.Nil? ==> r == Ok(true)
    ensures !(p.Nil? || p.Str? || p.Dict?) ==> r == Err("ValueError: parameter is not supported")
    ensures p.Str? ==> (r == Ok(true) <==> Get(m, "shortName", Native).Ok? && Get(m, "shortName", Native).value == p)
    ensures p.Dict? ==> r == KeysEqual(m, p.entries)
  {
    match p
    case Nil => Ok(true)
    case Str(_) =>
      var name :- Get(m, "shortName", Native);
      Ok(Equals(p, name))
    case Dict(e) => KeysEqual(m, e)
    case _ => Err("ValueError: parameter is not supported")
  }

  /** reki's `_check_level_type`: a list matches when any of its elements
      does, tried in order; the message's typeOfLevel is read first, even
      for a dictionary. */
  function CheckLevelType(m: Message, lt: Value): (r: Result<bool>)
    ensures lt.Nil? ==> r == Ok(true)
    ensures !lt.Nil? && Get(m, "typeOfLevel", AsStr).Err? ==> r.Err?
    ensures lt.Str? && Get(m, "typeOfLevel", AsStr).Ok? ==>
      r.Ok? && (r.value <==> Get(m, "typeOfLevel", AsStr).value == lt)
    ensures lt.Dict? && Get(m, "typeOfLevel", AsStr).Ok? ==> r == TypedKeysEqual(m, lt.entries)
    decreases lt, 1
  {
    if lt.Nil? then Ok(true)
    else
      var levelType :- Get(m, "typeOfLevel", AsStr);
      match lt
      case Str(_) => Ok(Equals(lt, levelType))
      case List(items) => AnyLevelType(m, lt, 0)
      case Dict(e) => TypedKeysEqual(m, e)
      case _ => Err("ValueError: level_type is not supported")
  }

  /** The loop over a list of level types from position `i`: the first
      element that matches, or raises, decides. */
  function AnyLevelType(m: Message, lt: Value, i: nat): Result<bool>
    requires lt.List? && i <= |lt.items|
    decreases lt, 0, |lt.items| - i
  {
    if i == |lt.items| then Ok(false)
    else
      var one :- CheckLevelType(m, lt.items[i]);
      if one then Ok(true) else AnyLevelType(m, lt, i + 1)
  }

  lemma {:induction false} AnyLevelTypeFrom(m: Message, lt: Value, i: nat)
    requires lt.List? && i <= |lt.items|
    ensures AnyLevelType(m, lt, i) == Ok(true) ==>
      exists j :: i <= j < |lt.items| && CheckLevelType(m, lt.items[j]) == Ok(true)
    ensures AnyLevelType(m, lt, i) == Ok(false) <==>
      forall j :: i <= j < |lt.items| ==> CheckLevelType(m, lt.items[j]) == Ok(false)
    ensures (forall j :: i <= j < |lt.items| ==> CheckLevelType(m, lt.items[j]).Ok?) ==> AnyLevelType(m, lt, i).Ok?
    decreases |lt.items| - i
  {
    if i < |lt.items| {
      AnyLevelTypeFrom(m, lt, i + 1);
    }
  }

  /** A list of level types matches when one of its elements does, and
      fails only when every element fails. */
  lemma LevelTypeList(m: Message, items: seq<Value>)
    ensures CheckLevelType(m, List(items)) == Ok(true) ==>
      exists i :: 0 <= i < |items| && CheckLevelType(m, items[i]) == Ok(true)
    ensures CheckLevelType(m, List(items)) == Ok(false) <==>
      Get(m, "typeOfLevel", AsStr).Ok? && forall i :: 0 <= i < |items| ==> CheckLevelType(m, items[i]) == Ok(false)
  {
    AnyLevelTypeFrom(m, List(items), 0);
  }

  /** reki's `_check_level_value`: the message level (in hPa for a
      pressure-level dictionary) against a number, a list, a dictionary of
      surface levels and keys, or "all". */
  function CheckLevelValue(m: Message, level: Value, lt: Value): (r: Result<bool>)
    ensures level.Nil? ==> r == Ok(true)
    ensures !level.Nil? && Get(m, "level", AsFloat).Err? ==> r.Err?
    ensures (level.Int? || level.Float? || level.Bool? || level.List?) ==>
      (r.Ok? <==> MessageLevel(m, lt).Ok?)
    ensures (level.Int? || level.Float? || level.Bool?) && r.Ok? ==>
      (r.value <==> Equals(level, MessageLevel(m, lt).value))
    ensures level.List? && r.Ok? ==>
      (r.value <==> Member(MessageLevel(m, lt).value, level.items))
    ensures level == Str("all") ==> (r == Ok(true) <==> MessageLevel(m, lt).Ok?)
    ensures level.Str? && level.s != "all" && MessageLevel(m, lt).Ok? ==>
      r == Err("ValueError: level is not supported")
  {
    if level.Nil? then Ok(true)
    else
      var got :- MessageLevel(m, lt);
      match level
      case Int(_) => Ok(Equals(level, got))
      case Float(_) => Ok(Equals(level, got))
      case Bool(_) => Ok(Equals(level, got))
      case List(items) => Ok(Member(got, items))
      case Dict(e) =>
        var surface :- SurfaceLevels(m, e);
        if !surface.0 then Ok(false) else KeysEqual(m, surface.1)
      case Str(s) => if s == "all" then Ok(true) else Err("ValueError: level is not supported")
  }

  /** A level-type dictionary asks for pressure levels when it holds
      typeOfFirstFixedSurface equal to 100. */
  predicate PlLevelType(lt: Value) {
    lt.Dict? && var v := Lookup(lt.entries, "typeOfFirstFixedSurface");
    v.Some? && Number(v.value) == Some(100.0)
  }

  /** The message level `_check_level_value` compares: "level" read as a
      float, or the first surface in hPa for a pressure-level dictionary. */
  function MessageLevel(m: Message, lt: Value): (r: Result<Reading>)
    ensures r.Ok? <==> Get(m, "level", AsFloat).Ok? && (PlLevelType(lt) ==> "First" in m.surface)
    ensures r.Ok? && PlLevelType(lt) ==> r.value == Float(m.surface["First"] / 100.0)
    ensures r.Ok? && !PlLevelType(lt) ==> r.value == Get(m, "level", AsFloat).value
  {
    var level :- Get(m, "level", AsFloat);
    if PlLevelType(lt) then
      var pa :- Surface(m, "First");
      Ok(Float(pa / 100.0))
    else Ok(level)
  }

  /** reki's `_check_message`: parameter, level type, level value and extra
      keys, stopping at the first that fails. */
  function CheckMessage(m: Message, p: Value, lt: Value, level: Value, extra: Entries): (r: Result<bool>)
    ensures r == Ok(true) <==>
      && CheckParameter(m, p) == Ok(true) && CheckLevelType(m, lt) == Ok(true)
      && CheckLevelValue(m, level, lt) == Ok(true) && KeysEqual(m, extra) == Ok(true)
  {
    var parameter :- CheckParameter(m, p);
    if !parameter then Ok(false)
    else
      var levelType :- CheckLevelType(m, lt);
      if !levelType then Ok(false)
      else
        var levelValue :- CheckLevelValue(m, level, lt);
        if !levelValue then Ok(false)
        else KeysEqual(m, extra)
  }

  /** A dictionary level holds when its surface levels match and every other
      key equals the message's; the caller's dictionary is not changed,
      since only a copy loses the surface entries. */
  lemma DictLevel(m: Message, e: Entries, lt: Value)
    requires DistinctKeys(e) && Lookup(e, "first_level").None? && Lookup(e, "second_level").None?
    requires Get(m, "level", AsFloat).Ok? && (PlLevelType(lt) ==> "First" in m.surface)
    ensures CheckLevelValue(m, Dict(e), lt) == KeysEqual(m, e)
  {
    assert SurfaceLevel(m, e, "first_level", "First") == Ok((true, e));
    assert SurfaceLevels(m, e) == Ok((true, e));
  }

  /** A dictionary level with `first_level` fails when the decoded first
      surface differs from its float, and otherwise is checked as the same
      dictionary without `first_level`. */
  lemma DictFirstLevel(m: Message, e: Entries, lt: Value)
    requires DistinctKeys(e) && Lookup(e, "first_level").Some?
    requires MessageLevel(m, lt).Ok?
    requires Surface(m, "First").Ok? && ToFloat(Lookup(e, "first_level").value).Ok?
    ensures Surface(m, "First").value != ToFloat(Lookup(e, "first_level").value).value ==>
      CheckLevelValue(m, Dict(e), lt) == Ok(false)
    ensures Surface(m, "First").value == ToFloat(Lookup(e, "first_level").value).value ==>
      CheckLevelValue(m, Dict(e), lt) == CheckLevelValue(m, Dict(Remove(e, "first_level")), lt)
  {
    var rest := Remove(e, "first_level");
    DictLevelSurfaces(m, e, lt);
    DictLevelSurfaces(m, rest, lt);
    FirstLevelPopped(m, e);
  }

  /** The surface checks of `e` and of `e` without `first_level` agree once
      the first surface matches. */
  lemma FirstLevelPopped(m: Message, e: Entries)
    requires DistinctKeys(e) && Lookup(e, "first_level").Some?
    requires Surface(m, "First").Ok? && ToFloat(Lookup(e, "first_level").value).Ok?
    ensures Surface(m, "First").value != ToFloat(Lookup(e, "first_level").value).value ==>
      SurfaceLevels(m, e) == Ok((false, Remove(e, "first_level")))
    ensures Surface(m, "First").value == ToFloat(Lookup(e, "first_level").value).value ==>
      SurfaceLevels(m, e) == SurfaceLevels(m, Remove(e, "first_level"))
  {
    var rest := Remove(e, "first_level");
    LookupRemove(e, "first_level", "first_level");
    assert SurfaceLevel(m, rest, "first_level", "First") == Ok((true, rest));
  }

  /** A dictionary level, once the message level reads, is decided by its
      surface checks and then by the keys they leave. */
  lemma DictLevelSurfaces(m: Message, e: Entries, lt: Value)
    requires MessageLevel(m, lt).Ok?
    ensures SurfaceLevels(m, e).Err? ==> CheckLevelValue(m, Dict(e), lt) == Err(SurfaceLevels(m, e).msg)
    ensures SurfaceLevels(m, e).Ok? && !SurfaceLevels(m, e).value.0 ==> CheckLevelValue(m, Dict(e), lt) == Ok(false)
    ensures SurfaceLevels(m, e).Ok? && SurfaceLevels(m, e).value.0 ==>
      CheckLevelValue(m, Dict(e), lt) == KeysEqual(m, SurfaceLevels(m, e).value.1)
  {
  }

  /** A dictionary level with `second_level` and no `first_level` fails when
      the decoded second surface differs from its float, and otherwise is a
      keys check of the remaining entries. */
  lemma DictSecondLevel(m: Message, e: Entries, lt: Value)
    requires DistinctKeys(e) && Lookup(e, "first_level").None? && Lookup(e, "second_level").Some?
    requires MessageLevel(m, lt).Ok?
    requires Surface(m, "Second").Ok? && ToFloat(Lookup(e, "second_level").value).Ok?
    ensures Surface(m, "Second").value != ToFloat(Lookup(e, "second_level").value).value ==>
      CheckLevelValue(m, Dict(e), lt) == Ok(false)
    ensures Surface(m, "Second").value == ToFloat(Lookup(e, "second_level").value).value ==>
      CheckLevelValue(m, Dict(e), lt) == KeysEqual(m, Remove(e, "second_level"))
  {
    assert SurfaceLevel(m, e, "first_level", "First") == Ok((true, e));
  }

  // ------------------------------------------------------ nwpc_data `_util`

  /** nwpc_data's `_check_parameter`: there is no None case. */
  function LegacyCheckParameter(m: Message, p: Value): (r: Result<bool>)
    ensures p.Nil? ==> r.Err?
    ensures !p.Nil? ==> r == CheckParameter(m, p)
  {
    match p
    case Str(_) =>
      var name :- Get(m, "shortName", Native);
      Ok(Equals(p, name))
    case Dict(e) => KeysEqual(m, e)
    case _ => Err("ValueError: parameter is not supported")
  }

  /** nwpc_data's `_check_level_type`: a list is a plain membership test. */
  function LegacyCheckLevelType(m: Message, lt: Value): (r: Result<bool>)
    ensures lt.List? && r.Ok? ==>
      Get(m, "typeOfLevel", AsStr).Ok? && (r.value <==> Member(Get(m, "typeOfLevel", AsStr).value, lt.items))
    ensures !lt.List? ==> r == CheckLevelType(m, lt)
  {
    if lt.Nil? then Ok(true)
    else
      var levelType :- Get(m, "typeOfLevel", AsStr);
      match lt
      case Str(_) => Ok(Equals(lt, levelType))
      case List(items) => Ok(Member(levelType, items))
      case Dict(e) => TypedKeysEqual(m, e)
      case _ => Err("ValueError: level_type is not supported")
  }

  /** For a list of plain names both helpers agree. */
  lemma LevelTypeListsAgree(m: Message, items: seq<Value>)
    requires forall i :: 0 <= i < |items| ==> items[i].Str?
    ensures LegacyCheckLevelType(m, List(items)) == CheckLevelType(m, List(items))
  {
    var lt := List(items);
    AnyLevelTypeFrom(m, lt, 0);
    if Get(m, "typeOfLevel", AsStr).Ok? {
      var got := Get(m, "typeOfLevel", AsStr).value;
      assert forall i :: 0 <= i < |items| ==> CheckLevelType(m, items[i]) == Ok(Equals(items[i], got));
      assert CheckLevelType(m, lt) == AnyLevelType(m, lt, 0);
      assert LegacyCheckLevelType(m, lt) == Ok(Member(got, items));
      if Member(got, items) {
        var i :| 0 <= i < |items| && Equals(items[i], got);
        assert CheckLevelType(m, lt.items[i]) == Ok(true);
        assert forall j :: 0 <= j < |lt.items| ==> CheckLevelType(m, lt.items[j]).Ok?;
        assert AnyLevelType(m, lt, 0).Ok? && AnyLevelType(m, lt, 0) != Ok(false);
        assert AnyLevelType(m, lt, 0).value;
        assert CheckLevelType(m, lt) == Ok(true);
      } else {
        assert AnyLevelType(m, lt, 0) == Ok(false);
      }
    }
  }

  /** nwpc_data's `_check_level_value` as written: the message level is read
      as an int and compared by equality whatever the request is. */
  function LegacyCheckLevelValueAsWritten(m: Message, level: Value): (r: Result<bool>)
  {
    if level.Nil? then Ok(true)
    else
      var got :- Get(m, "level", AsInt);
      if got.Int? then Ok(Equals(level, got))
      else Err("ValueError: level is not supported")
  }

  /** As written, a list of levels never matches: an int never equals a
      list. */
  lemma ListLevelNeverMatches(m: Message, levels: seq<Value>)
    ensures LegacyCheckLevelValueAsWritten(m, List(levels)) != Ok(true)
  {
  }

  /** A request for levels [850, 500] misses a message on level 850. */
  lemma ListLevelMissesItsLevel()
    ensures var m := Message(map[("level", AsInt) := Int(850)], map[]);
      && LegacyCheckLevelValueAsWritten(m, List([Int(850), Int(500)])) == Ok(false)
      && LegacyCheckLevelValue(m, List([Int(850), Int(500)])) == Ok(true)
  {
    var m := Message(map[("level", AsInt) := Int(850)], map[]);
    assert Get(m, "level", AsInt) == Ok(Int(850));
    assert Equals([Int(850), Int(500)][0], Int(850));
  }

  /** nwpc_data's `_check_level_value` as evidently intended: a list of
      levels is a membership test. */
  function LegacyCheckLevelValue(m: Message, level: Value): (r: Result<bool>)
    ensures level.List? && r.Ok? ==>
      Get(m, "level", AsInt).Ok? && (r.value <==> Member(Get(m, "level", AsInt).value, level.items))
    ensures !level.List? ==> r == LegacyCheckLevelValueAsWritten(m, level)
  {
    if level.Nil? then Ok(true)
    else
      var got :- Get(m, "level", AsInt);
      if !got.Int? then Err("ValueError: level is not supported")
      else if level.List? then Ok(Member(got, level.items))
      else Ok(Equals(level, got))
  }

  /** nwpc_data's `_check_message`: parameter, level type and level,
      stopping at the first that fails. */
  function LegacyCheckMessage(m: Message, p: Value, lt: Value, level: Value): (r: Result<bool>)
    ensures r == Ok(true) <==>
      && LegacyCheckParameter(m, p) == Ok(true) && LegacyCheckLevelType(m, lt) == Ok(true)
      && LegacyCheckLevelValueAsWritten(m, level) == Ok(true)
    ensures level.List? ==> r != Ok(true)
  {
    var parameter :- LegacyCheckParameter(m, p);
    if !parameter then Ok(false)
    else
      var levelType :- LegacyCheckLevelType(m, lt);
      if !levelType then Ok(false)
      else LegacyCheckLevelValueAsWritten(m, level)
  }
}
