/** Level-type aliases: the short names "pl", "sfc" and "ml" that users may
    pass instead of a GRIB key dictionary, as the four loaders expand them
    (reki's eccodes and common helpers, nwpc_data's GRIB and eccodes
    helpers). */
module GribLevel {
  import opened Wrappers
  import opened PyValue

  predicate IsAliasName(s: string) {
    s == "pl" || s == "sfc" || s == "ml"
  }

  predicate IsAlias(v: Value) {
    v.Str? && IsAliasName(v.s)
  }

  /** A value with no alias left in it, at any depth of list nesting
      (dictionaries are never looked into). */
  predicate Settled(v: Value) {
    match v
    case Str(s) => !IsAliasName(s)
    case List(items) => forall i :: 0 <= i < |items| ==> Settled(items[i])
    case _ => true
  }

  /** An empty list somewhere in the list nesting of `v`. */
  predicate HasEmptyList(v: Value) {
    v.List? && (v.items == [] || exists i :: 0 <= i < |v.items| && HasEmptyList(v.items[i]))
  }

  function Key(k: string, v: Value): Value {
    Dict([(k, v)])
  }

  // ------------------------------------------------- reki eccodes `_fix_level`

  /** The level-dimension name an alias implies when none is given: the alias
      itself, or, for a list, whatever its first element implies. */
  function ImpliedDim(lt: Value): Option<string> {
    match lt
    case Str(s) => if IsAliasName(s) then Some(s) else None
    case List(items) => if items == [] then None else ImpliedDim(items[0])
    case _ => None
  }

  function FirstOf(ps: seq<(Value, Option<string>)>): (r: seq<Value>)
    ensures |r| == |ps| && forall i :: 0 <= i < |ps| ==> r[i] == ps[i].0
  {
    seq(|ps|, i requires 0 <= i < |ps| => ps[i].0)
  }

  /** reki's eccodes `_fix_level(level_type, level_dim)`: an alias becomes
      its key dictionary (with the ":int" read suffix) and names the level
      dimension unless one is given; a list is fixed element by element with
      the dimension its first element gives; an empty list raises. */
  function FixLevel(lt: Value, dim: Option<string>): (r: Result<(Value, Option<string>)>)
    ensures r.Err? <==> HasEmptyList(lt)
    ensures r.Ok? ==> Settled(r.value.0) && !HasEmptyList(r.value.0)
    decreases lt
  {
    match lt
    case List(items) =>
      if items == [] then Err("IndexError: list index out of range")
      else
        var head :- FixLevel(items[0], dim);
        var fixed :- AllOk(seq(|items|, i requires 0 <= i < |items| => FixLevel(items[i], head.1)));
        assert forall i :: 0 <= i < |items| ==> FixLevel(items[i], head.1) == Ok(fixed[i]);
        Ok((List(FirstOf(fixed)), head.1))
    case Str(s) =>
      var named := if dim.None? then Some(s) else dim;
      if s == "pl" then Ok((Key("typeOfFirstFixedSurface:int", Int(100)), named))
      else if s == "sfc" then Ok((Key("typeOfLevel", Str("surface")), named))
      else if s == "ml" then Ok((Key("typeOfFirstFixedSurface:int", Int(131)), named))
      else Ok((lt, dim))
    case _ => Ok((lt, dim))
  }

  /** The level dimension comes back as given when one is given, and
      otherwise as the one the level type implies. */
  lemma {:induction false} FixLevelDim(lt: Value, dim: Option<string>)
    requires FixLevel(lt, dim).Ok?
    ensures FixLevel(lt, dim).value.1 == if dim.Some? then dim else ImpliedDim(lt)
    decreases lt
  {
    if lt.List? {
      FixLevelDim(lt.items[0], dim);
    }
  }

  /** A list is fixed element by element, every element with the dimension
      the first element gives. */
  lemma FixLevelList(items: seq<Value>, dim: Option<string>)
    requires items != [] && FixLevel(List(items), dim).Ok?
    ensures FixLevel(items[0], dim).Ok?
    ensures var d := FixLevel(items[0], dim).value.1;
      var r := FixLevel(List(items), dim).value;
      && r.1 == d
      && r.0.List? && |r.0.items| == |items|
      && forall i :: 0 <= i < |items| ==> FixLevel(items[i], d) == Ok((r.0.items[i], FixLevel(items[i], d).value.1))
  {
  }

  /** A settled value with no empty list is its own fix. */
  lemma {:induction false} FixLevelSettled(v: Value, dim: Option<string>)
    requires Settled(v) && !HasEmptyList(v)
    ensures FixLevel(v, dim) == Ok((v, dim))
    decreases v
  {
    if v.List? {
      var items := v.items;
      FixLevelSettled(items[0], dim);
      forall i | 0 <= i < |items|
        ensures FixLevel(items[i], dim) == Ok((items[i], dim))
      {
        FixLevelSettled(items[i], dim);
      }
      var rs := seq(|items|, i requires 0 <= i < |items| => FixLevel(items[i], dim));
      var fixed := AllOk(rs).value;
      assert FirstOf(fixed) == items;
    }
  }

  /** Fixing an already fixed level type returns the same pair. */
  lemma FixLevelIdempotent(lt: Value, dim: Option<string>)
    requires FixLevel(lt, dim).Ok?
    ensures var r := FixLevel(lt, dim).value;
      FixLevel(r.0, r.1) == Ok(r)
  {
    var r := FixLevel(lt, dim).value;
    FixLevelSettled(r.0, r.1);
  }

  // ------------------------------------------- nwpc_data eccodes `_fix_level`

  /** nwpc_data's eccodes `_fix_level`: the same three aliases with plain key
      names; lists and everything else pass through. */
  function LegacyFixLevel(lt: Value, dim: Option<string>): (r: (Value, Option<string>))
    ensures !IsAlias(lt) ==> r == (lt, dim)
    ensures IsAlias(lt) ==> r.0.Dict? && r.1 == (if dim.None? then Some(lt.s) else dim)
  {
    if lt.Str? && IsAliasName(lt.s) then
      var named := if dim.None? then Some(lt.s) else dim;
      if lt.s == "pl" then (Key("typeOfFirstFixedSurface", Int(100)), named)
      else if lt.s == "sfc" then (Key("typeOfLevel", Str("surface")), named)
      else (Key("typeOfFirstFixedSurface", Int(131)), named)
    else (lt, dim)
  }

  /** Fixing a fixed pair changes nothing. */
  lemma LegacyFixLevelIdempotent(lt: Value, dim: Option<string>)
    ensures var r := LegacyFixLevel(lt, dim);
      LegacyFixLevel(r.0, r.1) == r
  {
  }

  /** A list of aliases is not expanded by nwpc_data, while reki expands
      every element. */
  lemma LegacyLeavesLists(items: seq<Value>, dim: Option<string>)
    requires items != [] && forall i :: 0 <= i < |items| ==> IsAlias(items[i])
    ensures LegacyFixLevel(List(items), dim) == (List(items), dim)
    ensures FixLevel(List(items), dim).Ok?
    ensures FixLevel(List(items), dim).value.0 != List(items)
  {
    var r := FixLevel(List(items), dim).value.0;
    FixLevelList(items, dim);
    assert Settled(r);
    assert Settled(r.items[0]);
    assert !Settled(items[0]);
  }

  // --------------------------------------------------- reki `fix_level_type`

  /** reki's common `fix_level_type(level_type, engine)`: "pl" names the
      cfgrib level type for the cfgrib engine and the surface code 100
      otherwise; "sfc" and "ml" do not depend on the engine. */
  function FixLevelType(lt: Value, engine: string): (r: Value)
    ensures !IsAlias(r)
    ensures !IsAlias(lt) ==> r == lt
    ensures IsAlias(lt) ==> r.Dict? && |r.entries| == 1
  {
    if lt == Str("pl") then
      if engine == "cfgrib" then Key("typeOfLevel", Str("isobaricInhPa"))
      else Key("typeOfFirstFixedSurface:int", Int(100))
    else if lt == Str("sfc") then Key("typeOfLevel", Str("sfc"))
    else if lt == Str("ml") then Key("typeOfFirstFixedSurface:int", Int(131))
    else lt
  }

  lemma FixLevelTypeIdempotent(lt: Value, engine: string)
    ensures FixLevelType(FixLevelType(lt, engine), engine) == FixLevelType(lt, engine)
  {
  }

  /** For the eccodes engine reki's two helpers agree on "pl" and "ml" but not
      on "sfc": one asks for typeOfLevel "sfc", the other for "surface". */
  lemma CommonAndEccodesAliases(dim: Option<string>)
    ensures FixLevelType(Str("pl"), "eccodes") == FixLevel(Str("pl"), dim).value.0
    ensures FixLevelType(Str("ml"), "eccodes") == FixLevel(Str("ml"), dim).value.0
    ensures FixLevelType(Str("sfc"), "eccodes") != FixLevel(Str("sfc"), dim).value.0
  {
    assert Str("sfc") != Str("surface");
    assert [("typeOfLevel", Str("sfc"))][0] != [("typeOfLevel", Str("surface"))][0];
  }

  // ---------------------------------------------- nwpc_data `fix_level_type`

  /** nwpc_data's `fix_level_type(level_type)`: the cfgrib-style names. */
  function LegacyFixLevelType(lt: Value): (r: Value)
    ensures !IsAlias(r)
    ensures !IsAlias(lt) ==> r == lt
    ensures IsAlias(lt) ==> r.Dict? && |r.entries| == 1
  {
    if lt == Str("pl") then Key("typeOfLevel", Str("isobaricInhPa"))
    else if lt == Str("sfc") then Key("typeOfLevel", Str("sfc"))
    else if lt == Str("ml") then Key("typeOfFirstFixedSurface", Int(131))
    else lt
  }

  /** nwpc_data's helper is reki's for the cfgrib engine, except that "ml"
      is asked for without the ":int" suffix. */
  lemma LegacyIsCfgribExceptMl(lt: Value)
    ensures lt != Str("ml") ==> LegacyFixLevelType(lt) == FixLevelType(lt, "cfgrib")
    ensures lt == Str("ml") ==> LegacyFixLevelType(lt) != FixLevelType(lt, "cfgrib")
  {
    if lt == Str("ml") {
      assert "typeOfFirstFixedSurface" != "typeOfFirstFixedSurface:int";
      assert [("typeOfFirstFixedSurface", Int(131))][0] != [("typeOfFirstFixedSurface:int", Int(131))][0];
    }
  }

  lemma LegacyFixLevelTypeIdempotent(lt: Value)
    ensures LegacyFixLevelType(LegacyFixLevelType(lt)) == LegacyFixLevelType(lt)
  {
  }
}
