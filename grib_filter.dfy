/** The cfgrib request builders: each one updates the caller's
    `filter_by_keys` dictionary, `read_keys` list or `backend_kwargs`
    dictionary in place and hands the same objects back.  reki's and
    nwpc_data's builders are the same except that reki first converts a
    parameter name through its parameter tables. */
module GribFilter {
  import opened Wrappers
  import opened PyValue
  import opened GribParameter

  /** A Python dictionary that the builders change in place. */
  class PyDict {
    var entries: Entries

    constructor (e: Entries)
      ensures entries == e
    {
      entries := e;
    }
  }

  /** A Python list of key names that the builders extend in place. */
  class PyList {
    var items: seq<string>

    constructor (xs: seq<string>)
      ensures items == xs
    {
      items := xs;
    }
  }

  predicate NoDuplicates(xs: seq<string>) {
    forall i, j :: 0 <= i < j < |xs| ==> xs[i] != xs[j]
  }

  // ------------------------------------------------------ specification

  /** `_fill_parameter` after any name conversion: a string names the
      shortName; a dictionary is merged and its keys are appended to the
      read keys; anything else is refused. */
  function ParameterFill(p: Value, filter: Entries, readKeys: seq<string>): (r: Result<(Entries, seq<string>)>)
    ensures r.Err? <==> !(p.Str? || p.Dict?)
  {
    match p
    case Str(_) => Ok((Set(filter, "shortName", p), readKeys))
    case Dict(e) => Ok((Update(filter, e), readKeys + Keys(e)))
    case _ => Err("ValueError: parameter is not supported")
  }

  /** `_fill_level`: typeOfLevel and level are set together. */
  function LevelFill(levelType: Value, level: Value, filter: Entries): Entries {
    Update(filter, [("typeOfLevel", levelType), ("level", level)])
  }

  /** The keys of `keys` that `present` lacks, in order. */
  function NewKeys(keys: seq<string>, present: seq<string>): (r: seq<string>)
    ensures forall x :: x in r <==> x in keys && x !in present
    ensures |r| <= |keys|
  {
    if keys == [] then []
    else
      var last := keys[|keys| - 1];
      NewKeys(keys[..|keys| - 1], present) + (if last in present then [] else [last])
  }

  /** `_fill_level_type`: a dictionary is merged and only its keys the read
      keys lack are appended; anything else sets typeOfLevel. */
  function LevelTypeFill(levelType: Value, filter: Entries, readKeys: seq<string>): (Entries, seq<string>) {
    if levelType.Dict? then
      (Update(filter, levelType.entries), readKeys + NewKeys(Keys(levelType.entries), readKeys))
    else (Set(filter, "typeOfLevel", levelType), readKeys)
  }

  /** `_fill_index_path`: a string is the index path, False asks for no
      index file (the empty path), and True or anything else keeps cfgrib's
      default. */
  function IndexPathFill(withIndex: Value, kwargs: Entries): Entries {
    match withIndex
    case Str(_) => Set(kwargs, "indexpath", withIndex)
    case Bool(b) => if b then kwargs else Set(kwargs, "indexpath", Str(""))
    case _ => kwargs
  }

  // --------------------------------------------------------- properties

  /** A string parameter sets shortName and nothing else. */
  lemma ParameterFillName(name: string, filter: Entries, readKeys: seq<string>, j: string)
    ensures ParameterFill(Str(name), filter, readKeys).Ok?
    ensures var r := ParameterFill(Str(name), filter, readKeys).value;
      && r.1 == readKeys
      && Lookup(r.0, j) == if j == "shortName" then Some(Str(name)) else Lookup(filter, j)
  {
    LookupSet(filter, "shortName", Str(name), j);
  }

  /** A dictionary parameter overrides the filter on its own keys, leaves
      every other key alone, and appends all its keys to the read keys. */
  lemma ParameterFillCodes(e: Entries, filter: Entries, readKeys: seq<string>, j: string)
    requires DistinctKeys(e)
    ensures ParameterFill(Dict(e), filter, readKeys).Ok?
    ensures var r := ParameterFill(Dict(e), filter, readKeys).value;
      && r.1 == readKeys + Keys(e)
      && Lookup(r.0, j) == (if j in Keys(e) then Lookup(e, j) else Lookup(filter, j))
      && Keys(filter) <= Keys(r.0)
  {
    LookupUpdate(filter, e, j);
    KeysUpdatePrefix(filter, e);
  }

  /** Unlike the level-type builder, the parameter builder appends keys the
      read keys already hold. */
  lemma ParameterFillMayRepeat()
    ensures var r := ParameterFill(Dict([("discipline", Int(0))]), [], ["discipline"]);
      r.Ok? && !NoDuplicates(r.value.1)
  {
    var r := ParameterFill(Dict([("discipline", Int(0))]), [], ["discipline"]);
    assert Keys([("discipline", Int(0))]) == ["discipline"];
    assert r.value.1 == ["discipline", "discipline"];
    assert r.value.1[0] == r.value.1[1];
  }

  /** reki converts a known name to its table codes before filling, so the
      filter asks for the codes and not for the name. */
  lemma ConvertedNameFillsCodes(name: string, wgrib: seq<ShortNameRow>, cemc: seq<CemcRow>, i: nat,
                                filter: Entries, readKeys: seq<string>)
    requires i < |wgrib| && wgrib[i].shortName == name
    requires forall j :: 0 <= j < i ==> wgrib[j].shortName != name
    ensures ParameterFill(ConvertParameter(Str(name), wgrib, cemc), filter, readKeys)
      == Ok((Update(filter, wgrib[i].codes), readKeys + Keys(wgrib[i].codes)))
  {
    ConvertFirstRow(name, wgrib, cemc, i);
  }

  /** `_fill_level` overwrites typeOfLevel and level and nothing else. */
  lemma LevelFillSetsTwoKeys(levelType: Value, level: Value, filter: Entries, j: string)
    ensures Lookup(LevelFill(levelType, level, filter), j)
      == if j == "typeOfLevel" then Some(levelType)
         else if j == "level" then Some(level)
         else Lookup(filter, j)
  {
    var e := [("typeOfLevel", levelType), ("level", level)];
    assert Keys(e) == ["typeOfLevel", "level"];
    LookupUpdate(filter, e, j);
  }

  /** Filling the same level twice changes nothing more. */
  lemma {:induction false} LevelFillIdempotent(levelType: Value, level: Value, filter: Entries, j: string)
    ensures Lookup(LevelFill(levelType, level, LevelFill(levelType, level, filter)), j)
      == Lookup(LevelFill(levelType, level, filter), j)
  {
    LevelFillSetsTwoKeys(levelType, level, LevelFill(levelType, level, filter), j);
    LevelFillSetsTwoKeys(levelType, level, filter, j);
  }

  lemma {:induction false} NewKeysDistinct(keys: seq<string>, present: seq<string>)
    requires NoDuplicates(keys)
    ensures NoDuplicates(NewKeys(keys, present))
  {
    if keys != [] {
      var init := keys[..|keys| - 1];
      assert NoDuplicates(init);
      NewKeysDistinct(init, present);
      assert keys[|keys| - 1] !in init;
    }
  }

  lemma KeysDistinct(e: Entries)
    requires DistinctKeys(e)
    ensures NoDuplicates(Keys(e))
  {
  }

  /** A level-type dictionary keeps the read keys free of duplicates, keeps
      the ones already there in place, and adds exactly its own keys. */
  lemma LevelTypeFillKeys(e: Entries, filter: Entries, readKeys: seq<string>)
    requires DistinctKeys(e) && NoDuplicates(readKeys)
    ensures var r := LevelTypeFill(Dict(e), filter, readKeys).1;
      && NoDuplicates(r)
      && readKeys <= r
      && forall k :: k in r <==> k in readKeys || k in Keys(e)
  {
    var added := NewKeys(Keys(e), readKeys);
    KeysDistinct(e);
    NewKeysDistinct(Keys(e), readKeys);
    var r := readKeys + added;
    forall i, j | 0 <= i < j < |r| ensures r[i] != r[j] {
      if j >= |readKeys| && i < |readKeys| {
        assert r[j] in added;
      } else if i >= |readKeys| {
        assert r[i] == added[i - |readKeys|] && r[j] == added[j - |readKeys|];
      }
    }
  }

  /** A non-dictionary level type sets typeOfLevel only. */
  lemma LevelTypeFillName(levelType: Value, filter: Entries, readKeys: seq<string>, j: string)
    requires !levelType.Dict?
    ensures var r := LevelTypeFill(levelType, filter, readKeys);
      && r.1 == readKeys
      && Lookup(r.0, j) == if j == "typeOfLevel" then Some(levelType) else Lookup(filter, j)
  {
    LookupSet(filter, "typeOfLevel", levelType, j);
  }

  /** The index path is the string given, empty for False, and untouched
      otherwise. */
  lemma IndexPathCases(withIndex: Value, kwargs: Entries, j: string)
    ensures j != "indexpath" ==> Lookup(IndexPathFill(withIndex, kwargs), j) == Lookup(kwargs, j)
    ensures withIndex.Str? ==> Lookup(IndexPathFill(withIndex, kwargs), "indexpath") == Some(withIndex)
    ensures withIndex == Bool(false) ==> Lookup(IndexPathFill(withIndex, kwargs), "indexpath") == Some(Str(""))
    ensures !withIndex.Str? && withIndex != Bool(false) ==> IndexPathFill(withIndex, kwargs) == kwargs
  {
    match withIndex
    case Str(_) =>
      LookupSet(kwargs, "indexpath", withIndex, j);
      LookupSet(kwargs, "indexpath", withIndex, "indexpath");
    case Bool(b) =>
      if !b {
        LookupSet(kwargs, "indexpath", Str(""), j);
        LookupSet(kwargs, "indexpath", Str(""), "indexpath");
      }
    case _ =>
  }

  // ------------------------------------------------------------ builders

  /** nwpc_data's `_fill_parameter`; an unsupported parameter raises before
      anything is changed. */
  method LegacyFillParameter(parameter: Value, filterByKeys: PyDict, readKeys: PyList)
    returns (r: Result<(PyDict, PyList)>)
    modifies filterByKeys, readKeys
    ensures var spec := ParameterFill(parameter, old(filterByKeys.entries), old(readKeys.items));
      && (r.Ok? <==> spec.Ok?)
      && (r.Ok? ==>
            && r.value == (filterByKeys, readKeys)
            && filterByKeys.entries == spec.value.0
            && readKeys.items == spec.value.1)
      && (r.Err? ==> filterByKeys.entries == old(filterByKeys.entries) && readKeys.items == old(readKeys.items))
  {
    if parameter.Str? {
      filterByKeys.entries := Set(filterByKeys.entries, "shortName", parameter);
    } else if parameter.Dict? {
      filterByKeys.entries := Update(filterByKeys.entries, parameter.entries);
      readKeys.items := readKeys.items + Keys(parameter.entries);
    } else {
      return Err("ValueError: parameter is not supported");
    }
    r := Ok((filterByKeys, readKeys));
  }

  /** reki's `_fill_parameter`: the parameter goes through the WGRIB2 and
      CEMC tables first. */
  method FillParameter(parameter: Value, wgrib: seq<ShortNameRow>, cemc: seq<CemcRow>,
                       filterByKeys: PyDict, readKeys: PyList)
    returns (r: Result<(PyDict, PyList)>)
    modifies filterByKeys, readKeys
    ensures var spec := ParameterFill(ConvertParameter(parameter, wgrib, cemc),
                                      old(filterByKeys.entries), old(readKeys.items));
      && (r.Ok? <==> spec.Ok?)
      && (r.Ok? ==>
            && r.value == (filterByKeys, readKeys)
            && filterByKeys.entries == spec.value.0
            && readKeys.items == spec.value.1)
      && (r.Err? ==> filterByKeys.entries == old(filterByKeys.entries) && readKeys.items == old(readKeys.items))
  {
    var converted := ConvertParameter(parameter, wgrib, cemc);
    r := LegacyFillParameter(converted, filterByKeys, readKeys);
  }

  /** `_fill_level` in both packages. */
  method FillLevel(levelType: Value, level: Value, filterByKeys: PyDict, readKeys: PyList)
    returns (f: PyDict, k: PyList)
    modifies filterByKeys
    ensures f == filterByKeys && k == readKeys
    ensures filterByKeys.entries == LevelFill(levelType, level, old(filterByKeys.entries))
  {
    filterByKeys.entries := Update(filterByKeys.entries, [("typeOfLevel", levelType), ("level", level)]);
    f, k := filterByKeys, readKeys;
  }

  /** `_fill_level_type` in both packages: the keys to add are collected
      against the read keys as they were, then appended. */
  method FillLevelType(levelType: Value, filterByKeys: PyDict, readKeys: PyList)
    returns (f: PyDict, k: PyList)
    modifies filterByKeys, readKeys
    ensures f == filterByKeys && k == readKeys
    ensures (filterByKeys.entries, readKeys.items)
      == LevelTypeFill(levelType, old(filterByKeys.entries), old(readKeys.items))
  {
    if levelType.Dict? {
      filterByKeys.entries := Update(filterByKeys.entries, levelType.entries);
      var keys := Keys(levelType.entries);
      var present := readKeys.items;
      var added: seq<string> := [];
      for i := 0 to |keys|
        invariant added == NewKeys(keys[..i], present)
      {
        assert keys[..i + 1][..i] == keys[..i];
        if keys[i] !in present {
          added := added + [keys[i]];
        }
      }
      assert keys[..|keys|] == keys;
      readKeys.items := present + added;
    } else {
      filterByKeys.entries := Set(filterByKeys.entries, "typeOfLevel", levelType);
    }
    f, k := filterByKeys, readKeys;
  }

  /** `_fill_level_value` in both packages. */
  method FillLevelValue(level: Value, filterByKeys: PyDict, readKeys: PyList)
    returns (f: PyDict, k: PyList)
    modifies filterByKeys
    ensures f == filterByKeys && k == readKeys
    ensures filterByKeys.entries == Set(old(filterByKeys.entries), "level", level)
  {
    filterByKeys.entries := Set(filterByKeys.entries, "level", level);
    f, k := filterByKeys, readKeys;
  }

  /** `_fill_index_path` in both packages. */
  method FillIndexPath(withIndex: Value, backendKwargs: PyDict) returns (r: PyDict)
    modifies backendKwargs
    ensures r == backendKwargs
    ensures backendKwargs.entries == IndexPathFill(withIndex, old(backendKwargs.entries))
  {
    if withIndex.Str? {
      backendKwargs.entries := Set(backendKwargs.entries, "indexpath", withIndex);
    } else if withIndex.Bool? {
      if !withIndex.b {
        backendKwargs.entries := Set(backendKwargs.entries, "indexpath", Str(""));
      }
    }
    r := backendKwargs;
  }
}
