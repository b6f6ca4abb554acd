/** Parameter-name tables: a short name becomes the GRIB codes of the first
    table row that carries it, and codes become the name of the first row
    that carries them. */
module GribParameter {
  import opened Wrappers
  import opened PyValue

  /** A row of a short-name table (the WGRIB2 table, or nwpc_data's
      SHORT_NAME_TABLE): the name and the other columns in table order. */
  datatype ShortNameRow = ShortNameRow(shortName: string, codes: Entries)

  /** A row of the CEMC parameter table, reduced to the columns used here. */
  datatype CemcRow = CemcRow(name: string, discipline: int, category: int, number: int)

  /** The codes of a CEMC row, as floats. */
  function CemcCodes(row: CemcRow): Value {
    Dict([("discipline", Float(row.discipline as real)),
          ("parameterCategory", Float(row.category as real)),
          ("parameterNumber", Float(row.number as real))])
  }

  /** A single-table lookup: reki's `_convert_parameter` over the WGRIB2
      table and nwpc_data's over its SHORT_NAME_TABLE.  A string found in
      the table becomes the first matching row without its name; anything
      else is returned unchanged. */
  function TableParameter(p: Value, table: seq<ShortNameRow>): (r: Value)
    ensures !p.Str? ==> r == p
    ensures p.Str? && (forall i :: 0 <= i < |table| ==> table[i].shortName != p.s) ==> r == p
    ensures p.Str? && r != p ==>
      exists i :: (0 <= i < |table| && table[i].shortName == p.s
        && r == Dict(table[i].codes) && forall j :: 0 <= j < i ==> table[j].shortName != p.s)
  {
    if p.Str? then
      match FirstIndex(table, (row: ShortNameRow) => row.shortName == p.s)
      case Some(i) => Dict(table[i].codes)
      case None => p
    else p
  }

  /** reki's `convert_parameter`: the WGRIB2 table first, then the CEMC
      table (codes as floats); an unknown name or a non-string is returned
      unchanged. */
  function ConvertParameter(p: Value, wgrib: seq<ShortNameRow>, cemc: seq<CemcRow>): (r: Value)
    ensures !p.Str? ==> r == p
    ensures p.Str? && (exists i :: 0 <= i < |wgrib| && wgrib[i].shortName == p.s) ==> r == TableParameter(p, wgrib)
    ensures p.Str? && (forall i :: 0 <= i < |wgrib| ==> wgrib[i].shortName != p.s) ==>
      if exists i :: 0 <= i < |cemc| && cemc[i].name == p.s then
        exists i :: 0 <= i < |cemc| && cemc[i].name == p.s && r == CemcCodes(cemc[i])
          && forall j :: 0 <= j < i ==> cemc[j].name != p.s
      else r == p
  {
    if p.Str? then
      match FirstIndex(wgrib, (row: ShortNameRow) => row.shortName == p.s)
      case Some(i) => Dict(wgrib[i].codes)
      case None =>
        match FirstIndex(cemc, (row: CemcRow) => row.name == p.s)
        case Some(i) => CemcCodes(cemc[i])
        case None => p
    else p
  }

  /** The single-table lookup is the two-table one with an empty CEMC
      table: a name only the CEMC table knows stays a name. */
  lemma {:induction false} SingleTableHasNoFallback(p: Value, wgrib: seq<ShortNameRow>, cemc: seq<CemcRow>)
    ensures TableParameter(p, wgrib) == ConvertParameter(p, wgrib, [])
    ensures p.Str? && (forall i :: 0 <= i < |wgrib| ==> wgrib[i].shortName != p.s)
      && (exists i :: 0 <= i < |cemc| && cemc[i].name == p.s)
      ==> TableParameter(p, wgrib) == p && ConvertParameter(p, wgrib, cemc).Dict?
  {
    if p.Str? && (forall i :: 0 <= i < |wgrib| ==> wgrib[i].shortName != p.s)
      && (exists i :: 0 <= i < |cemc| && cemc[i].name == p.s)
    {
      var i :| 0 <= i < |cemc| && cemc[i].name == p.s && ConvertParameter(p, wgrib, cemc) == CemcCodes(cemc[i]);
    }
  }

  /** A short-name row whose discipline, category and number columns all
      equal the given codes. */
  predicate RowHasCodes(row: ShortNameRow, discipline: int, category: int, number: int) {
    var d := Lookup(row.codes, "discipline");
    var c := Lookup(row.codes, "parameterCategory");
    var n := Lookup(row.codes, "parameterNumber");
    && d.Some? && Equals(d.value, Int(discipline))
    && c.Some? && Equals(c.value, Int(category))
    && n.Some? && Equals(n.value, Int(number))
  }

  predicate CemcHasCodes(row: CemcRow, discipline: int, category: int, number: int) {
    row.discipline == discipline && row.category == category && row.number == number
  }

  /** reki's `find_short_name`: the name of the first WGRIB2 row with all
      three codes, else of the first such CEMC row, else nothing. */
  function FindShortName(discipline: int, category: int, number: int,
                         wgrib: seq<ShortNameRow>, cemc: seq<CemcRow>): (r: Option<string>)
    ensures (exists i :: 0 <= i < |wgrib| && RowHasCodes(wgrib[i], discipline, category, number)) ==>
      exists i :: 0 <= i < |wgrib| && RowHasCodes(wgrib[i], discipline, category, number)
        && r == Some(wgrib[i].shortName)
        && forall j :: 0 <= j < i ==> !RowHasCodes(wgrib[j], discipline, category, number)
    ensures (forall i :: 0 <= i < |wgrib| ==> !RowHasCodes(wgrib[i], discipline, category, number)) ==>
      if exists i :: 0 <= i < |cemc| && CemcHasCodes(cemc[i], discipline, category, number) then
        exists i :: 0 <= i < |cemc| && CemcHasCodes(cemc[i], discipline, category, number)
          && r == Some(cemc[i].name)
          && forall j :: 0 <= j < i ==> !CemcHasCodes(cemc[j], discipline, category, number)
      else r == None
  {
    match FirstIndex(wgrib, (row: ShortNameRow) => RowHasCodes(row, discipline, category, number))
    case Some(i) => Some(wgrib[i].shortName)
    case None =>
      match FirstIndex(cemc, (row: CemcRow) => CemcHasCodes(row, discipline, category, number))
      case Some(i) => Some(cemc[i].name)
      case None => None
  }

  /** The codes of a WGRIB2 row in the table's column order. */
  function WgribCodes(discipline: int, category: int, number: int): Entries {
    [("discipline", Int(discipline)), ("parameterCategory", Int(category)), ("parameterNumber", Int(number))]
  }

  lemma WgribCodesMatch(discipline: int, category: int, number: int, d: int, c: int, n: int)
    ensures RowHasCodes(ShortNameRow("", WgribCodes(discipline, category, number)), d, c, n)
      <==> discipline == d && category == c && number == n
  {
    var e := WgribCodes(discipline, category, number);
    assert Lookup(e, "discipline") == Some(Int(discipline));
    assert Lookup(e, "parameterCategory") == Some(Int(category));
    assert Lookup(e, "parameterNumber") == Some(Int(number));
  }

  /** A name converts to the codes of the first row that carries it. */
  lemma ConvertFirstRow(name: string, wgrib: seq<ShortNameRow>, cemc: seq<CemcRow>, i: nat)
    requires i < |wgrib| && wgrib[i].shortName == name
    requires forall j :: 0 <= j < i ==> wgrib[j].shortName != name
    ensures ConvertParameter(Str(name), wgrib, cemc) == Dict(wgrib[i].codes)
  {
    var k := FirstIndex(wgrib, (row: ShortNameRow) => row.shortName == name);
    assert k == Some(i);
  }

  /** Codes find the name of the first row that carries them. */
  lemma FindFirstRow(wgrib: seq<ShortNameRow>, cemc: seq<CemcRow>, i: nat,
                     discipline: int, category: int, number: int)
    requires i < |wgrib| && RowHasCodes(wgrib[i], discipline, category, number)
    requires forall j :: 0 <= j < i ==> !RowHasCodes(wgrib[j], discipline, category, number)
    ensures FindShortName(discipline, category, number, wgrib, cemc) == Some(wgrib[i].shortName)
  {
    var q := FirstIndex(wgrib, (row: ShortNameRow) => RowHasCodes(row, discipline, category, number));
    assert q == Some(i);
  }

  /** Name to codes and back: for a WGRIB2 table whose rows carry the three
      integer codes, converting a name and looking its codes up returns the
      name, as long as no earlier row carries the same codes. */
  lemma ConvertThenFind(name: string, wgrib: seq<ShortNameRow>, cemc: seq<CemcRow>, i: nat,
                        discipline: int, category: int, number: int)
    requires i < |wgrib| && wgrib[i].shortName == name
    requires wgrib[i].codes == WgribCodes(discipline, category, number)
    requires forall j :: 0 <= j < i ==> wgrib[j].shortName != name
    requires forall j :: 0 <= j < i ==> !RowHasCodes(wgrib[j], discipline, category, number)
    ensures ConvertParameter(Str(name), wgrib, cemc) == Dict(WgribCodes(discipline, category, number))
    ensures FindShortName(discipline, category, number, wgrib, cemc) == Some(name)
  {
    ConvertFirstRow(name, wgrib, cemc, i);
    WgribCodesMatch(discipline, category, number, discipline, category, number);
    assert RowHasCodes(wgrib[i], discipline, category, number);
    FindFirstRow(wgrib, cemc, i, discipline, category, number);
  }

  /** The first rows of the CEMC table, where ps and psfc share codes. */
  const CemcSample: seq<CemcRow> := [
    CemcRow("ps", 0, 3, 0),
    CemcRow("psfc", 0, 3, 0),
    CemcRow("psl", 0, 3, 1)
  ]

  /** Codes shared by several CEMC rows resolve to the earliest, so "psfc"
      converts to codes that find "ps". */
  lemma SharedCodesFindEarliest()
    ensures ConvertParameter(Str("psfc"), [], CemcSample) == CemcCodes(CemcRow("psfc", 0, 3, 0))
    ensures FindShortName(0, 3, 0, [], CemcSample) == Some("ps")
  {
    assert CemcSample[0].name != "psfc";
  }
}
