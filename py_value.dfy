/** The Python values that GRIB queries are made of, Python dictionaries as
    ordered key/value lists, and a GRIB message seen only through the keys it
    answers. */
module PyValue {
  import opened Wrappers
  import opened Text

  /** A value passed as a parameter, level type, level or extra key. */
  datatype Value =
    | Nil
    | Str(s: string)
    | Int(i: int)
    | Float(x: real)
    | Bool(b: bool)
    | List(items: seq<Value>)
    | Dict(entries: Entries)

  /** A Python `dict` with string keys, in insertion order. */
  type Entries = seq<(string, Value)>

  /** What a message answers for a key: eccodes gives back a string, an
      integer or a float. */
  type Reading = v: Value | v.Str? || v.Int? || v.Float? witness Int(0)

  // ------------------------------------------------------------- dictionaries

  function Keys(d: Entries): (r: seq<string>)
    ensures |r| == |d|
    ensures forall i :: 0 <= i < |d| ==> r[i] == d[i].0
  {
    if d == [] then [] else [d[0].0] + Keys(d[1..])
  }

  /** Python dictionaries never hold a key twice. */
  predicate DistinctKeys(d: Entries) {
    forall i, j :: 0 <= i < j < |d| ==> d[i].0 != d[j].0
  }

  /** `d.get(k)`. */
  function Lookup(d: Entries, k: string): (r: Option<Value>)
    ensures r.Some? <==> k in Keys(d)
    ensures r.Some? ==> exists i :: 0 <= i < |d| && d[i] == (k, r.value)
  {
    if d == [] then None
    else if d[0].0 == k then Some(d[0].1)
    else Lookup(d[1..], k)
  }

  /** `d[k] = v`: an existing key keeps its place, a new key goes last. */
  function Set(d: Entries, k: string, v: Value): (r: Entries)
    ensures k in Keys(d) ==> |r| == |d|
    ensures k !in Keys(d) ==> r == d + [(k, v)]
  {
    if d == [] then [(k, v)]
    else if d[0].0 == k then [(k, v)] + d[1..]
    else [d[0]] + Set(d[1..], k, v)
  }

  /** `d.update(e)`: the entries of `e` are set one by one, in order. */
  function Update(d: Entries, e: Entries): (r: Entries)
    decreases |e|
  {
    if e == [] then d else Update(Set(d, e[0].0, e[0].1), e[1..])
  }

  /** `d.pop(k)` on a key `d` holds: the entry is removed and the rest keep
      their order. */
  function Remove(d: Entries, k: string): (r: Entries)
    ensures |r| <= |d|
  {
    if d == [] then []
    else if d[0].0 == k then d[1..]
    else [d[0]] + Remove(d[1..], k)
  }

  lemma {:induction false} LookupSet(d: Entries, k: string, v: Value, j: string)
    ensures Lookup(Set(d, k, v), j) == if j == k then Some(v) else Lookup(d, j)
  {
    if d != [] && d[0].0 != k {
      LookupSet(d[1..], k, v, j);
    }
  }

  lemma {:induction false} KeysSet(d: Entries, k: string, v: Value)
    ensures Keys(Set(d, k, v)) == if k in Keys(d) then Keys(d) else Keys(d) + [k]
  {
    if d != [] && d[0].0 != k {
      KeysSet(d[1..], k, v);
      assert Keys(d) == [d[0].0] + Keys(d[1..]);
    }
  }

  /** After `d.update(e)` a key of `e` maps to its last value in `e`, and
      every other key keeps its value in `d`. */
  lemma {:induction false} LookupUpdate(d: Entries, e: Entries, j: string)
    requires DistinctKeys(e)
    ensures Lookup(Update(d, e), j) == if j in Keys(e) then Lookup(e, j) else Lookup(d, j)
    decreases |e|
  {
    if e != [] {
      assert DistinctKeys(e[1..]);
      LookupUpdate(Set(d, e[0].0, e[0].1), e[1..], j);
      LookupSet(d, e[0].0, e[0].1, j);
      assert Keys(e) == [e[0].0] + Keys(e[1..]);
      if j == e[0].0 {
        assert j !in Keys(e[1..]);
      }
    }
  }

  /** Updating with one more entry sets it after the others. */
  lemma {:induction false} UpdateSnoc(d: Entries, e: Entries, k: string, v: Value)
    ensures Update(d, e + [(k, v)]) == Set(Update(d, e), k, v)
    decreases |e|
  {
    if e == [] {
      assert Update(Set(d, k, v), []) == Set(d, k, v);
      assert ([] + [(k, v)])[1..] == [];
    } else {
      assert (e + [(k, v)])[1..] == e[1..] + [(k, v)];
      UpdateSnoc(Set(d, e[0].0, e[0].1), e[1..], k, v);
    }
  }

  /** Updating keeps the keys already present in their places and appends
      the new ones. */
  lemma {:induction false} KeysUpdatePrefix(d: Entries, e: Entries)
    ensures Keys(d) <= Keys(Update(d, e))
    decreases |e|
  {
    if e != [] {
      KeysSet(d, e[0].0, e[0].1);
      KeysUpdatePrefix(Set(d, e[0].0, e[0].1), e[1..]);
    }
  }

  lemma {:induction false} LookupRemove(d: Entries, k: string, j: string)
    requires DistinctKeys(d)
    ensures Lookup(Remove(d, k), j) == if j == k then None else Lookup(d, j)
  {
    if d != [] {
      assert DistinctKeys(d[1..]);
      if d[0].0 == k {
        if j == k {
          assert k !in Keys(d[1..]);
        }
      } else {
        LookupRemove(d[1..], k, j);
      }
    }
  }

  // ----------------------------------------------------------------- equality

  /** The numeric value of an int, float or bool. */
  function Number(v: Value): (r: Option<real>)
    ensures r.Some? <==> v.Int? || v.Float? || v.Bool?
  {
    match v
    case Int(i) => Some(i as real)
    case Float(x) => Some(x)
    case Bool(b) => Some(if b then 1.0 else 0.0)
    case _ => None
  }

  /** Python's `expected == got` when `got` is what a message answered:
      numbers compare by value across int and float, strings by content,
      and nothing else equals a string or a number. */
  predicate Equals(expected: Value, got: Reading) {
    if got.Str? then expected.Str? && expected.s == got.s
    else Number(expected).Some? && Number(expected) == Number(got)
  }

  /** Python's `got in xs`. */
  predicate Member(got: Reading, xs: seq<Value>) {
    exists i :: 0 <= i < |xs| && Equals(xs[i], got)
  }

  /** Python's `float(v)`; a string must read as a decimal number. */
  function ToFloat(v: Value): (r: Result<real>)
    ensures Number(v).Some? ==> r == Ok(Number(v).value)
    ensures v.Str? ==> (r.Ok? <==> ParseDecimal(v.s).Some?)
    ensures !(v.Str? || Number(v).Some?) ==> r.Err?
  {
    match v
    case Str(s) =>
      (match ParseDecimal(s)
       case Some(x) => Ok(x)
       case None => Err("ValueError: could not convert string to float"))
    case Nil => Err("TypeError: float() argument must be a string or a number")
    case List(_) => Err("TypeError: float() argument must be a string or a number")
    case Dict(_) => Err("TypeError: float() argument must be a string or a number")
    case _ => Ok(Number(v).value)
  }

  // ------------------------------------------------------------------ messages

  /** The type a key is read as: the key's own type, or a requested one. */
  datatype ReadType = Native | AsStr | AsInt | AsFloat

  /** A GRIB message as the keys it answers.  `surface` holds the decoded
      value (10^-scaleFactor * scaledValue) of the "First" and "Second"
      fixed surfaces that the message defines. */
  datatype Message = Message(values: map<(string, ReadType), Reading>, surface: map<string, real>)

  /** `codes_get(message, key, ktype)`: a key the message lacks raises. */
  function Get(m: Message, key: string, t: ReadType): (r: Result<Reading>)
    ensures r.Ok? <==> (key, t) in m.values
    ensures r.Ok? ==> r.value == m.values[(key, t)]
  {
    if (key, t) in m.values then Ok(m.values[(key, t)])
    else Err("KeyValueNotFoundError: " + key)
  }

  /** The decoded value of the "First" or "Second" fixed surface. */
  function Surface(m: Message, name: string): (r: Result<real>)
    ensures r.Ok? <==> name in m.surface
    ensures r.Ok? ==> r.value == m.surface[name]
  {
    if name in m.surface then Ok(m.surface[name])
    else Err("KeyValueNotFoundError: scaleFactorOf" + name + "FixedSurface")
  }
}
