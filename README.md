# reki core, modelled in Dafny

This project models the core of reki, a Python toolkit for numerical
weather prediction data, and of its predecessor nwpc_data. It covers:

- **GrADS control files** (`grads_catalog`, `grads_lines`, `grads_state`,
  `grads_parser`).
  - The keyword-driven `.ctl` parser of both dialects: `dset`, `options`,
    `undef`, `title`, `xdef`/`ydef`/`zdef`, `tdef`, `vars`.
  - The start and forecast times guessed from the control file name.
  - The `%`-template data file paths.
  - The record catalogue that the parser builds, one record per variable,
    level and time step.
- **GrADS data** (`grads_data`, `grads_field`).
  - The record lookup: finding a record and computing its offset and
    position in the data file.
  - Decoding a record's grid from 4-byte words.
  - The field loaders that turn a level request into fields with
    coordinates.
- **GRIB message selection** (`grib_level`, `grib_check`, `grib_match`).
  - Level-type normalisation.
  - The parameter, level-type and level checks that pick messages, for
    both reki generations and for nwpc_data.
- **GRIB names** (`grib_parameter`, `grib_filter`).
  - Short-name conversion through the WGRIB2 and CEMC tables, and the way
    back.
  - The cfgrib `filter_by_keys` and `read_keys` builders.
- **GRIB field attributes** (`grib_attrs`): step, valid time, level
  coordinate, field name and the `GRIB_` attributes of a field built from
  a message.
- **Data finder** (`data_finder`).
  - Time and query variables for path templates.
  - The data-level filter.
  - The first-file and all-files searches over the configured locations.
- **NWPC observation tables** (`obs_table`).
  - The header line.
  - The paired-line layout of the RGWST, RSURF, R2CWE and RSING files.
  - The station blocks of RTEMP files.
  - The `StringIO` buffers the loader writes into.

The shared modules are:
- `wrappers`: `Option` and `Result`;
- `text`: Python's `strip`, `split`, `lower` and `int`, and zero-padded
  formatting;
- `calendar`: timestamps as whole minutes since 0001-01-01 00:00, with a
  civil-date split and its inverse;
- `py_value`: Python values and insertion-ordered dicts.

The model follows the form of the code:
- Parsers, handlers and loops that update objects in place are classes
  and methods: `GradsCtl`, `GradsCtlParser`, `GradsDataHandler`,
  `GradsRecordHandler`, `TimeVars`, `QueryVars`, `TextBuffer`, and the
  cfgrib dicts and lists.
- Every method is proved against a specification function.
- The case analyses are functions, with lemmas relating them: round trips,
  first-match properties, preserved invariants, and agreement between the
  two code generations.
- Python exceptions are the `Err` case of a `Result`. Each keeps the
  exception's name in its message.
- The parsers and loaders follow the code as written. Where the code
  departs from what it evidently means, a separate corrected definition
  states the intended behaviour; "## Findings" lists both.

## Model

| member | source | states |
|---|---|---|
| Text.Strip | reki/format/table/__init__.py:130 | a stripped text has no space at either end, is never longer, and a text without spaces is left as it is; it is a contiguous slice of the text, and everything cut before and after it is whitespace |
| Text.SplitWs | reki/format/table/__init__.py:103 | splitting on runs of spaces gives words: non-empty and without spaces |
| Text.SplitJoinWords | reki/format/table/__init__.py:103 | splitting words joined by single spaces gives the same words back |
| Text.SplitWsStrip | reki/format/table/__init__.py:133 | stripping a line does not change its fields |
| Text.SplitOn | reki/format/grads/grads_ctl.py:380 | splitting on a character gives at least one piece, and no piece holds that character |
| Text.JoinSplitOn | reki/format/grads/grads_ctl.py:130 | joining the pieces with the separator gives the text back |
| Text.SplitOnJoin | reki/format/grads/grads_ctl.py:380 | pieces without the separator, joined by it, split back into the same pieces |
| Text.Lower | reki/format/grads/grads_ctl.py:78 | lower-casing keeps the length and lower-cases every character |
| Text.ParseNat | reki/format/table/__init__.py:108-111 | a text reads as a natural number exactly when it is a non-empty run of digits |
| Text.NatToStr | reki/data_finder/_util.py:229 | a number's decimal form is a non-empty run of digits |
| Text.NatToStrValue | reki/data_finder/_util.py:229 | the decimal form reads back as the number |
| Text.ZeroPad | reki/data_finder/_util.py:229-245 | zero-padding gives the wider of the width and the number's own digits, all digits |
| Text.ZeroPadValue | reki/data_finder/_util.py:229-245 | a zero-padded number reads back as the number |
| Text.FormatIntParses | reki/data_finder/_util.py:203 | a formatted integer, negative ones included, reads back as the integer |
| Text.JoinPath | reki/data_finder/_util.py:81 | joining a directory and a name puts a `/` between them, and an absolute name replaces the directory |
| Calendar.TruncHours | reki/format/grads/grads_ctl.py:392-393 | `int(forecast_time / 1 hour)` truncates toward zero: for a non-negative duration the hours are floored, for a negative one they are rounded up, always within one hour of the duration |
| Calendar.ParseMonthAbbr | reki/format/grads/grads_ctl.py:271 | the `%b` month name is one of the twelve lower-case abbreviations, and its number is its position in that list |
| Calendar.MakeTimestamp | reki/format/grads/grads_ctl.py:271 | a timestamp exists exactly for a valid calendar date and clock time, and it reads back as those fields |
| Calendar.CivilRoundTrip | reki/format/grads/grads_ctl.py:382-390 | a timestamp is recovered from its calendar fields |
| Calendar.CivilRoundTripBack | reki/format/grads/grads_ctl.py:382-390 | valid calendar fields are recovered from the timestamp built from them |
| Calendar.Shift | reki/data_finder/_util.py:256-257 | shifting a timestamp by a duration succeeds exactly when the result is not before the epoch of the model, and adds the duration |
| Calendar.PandasYears | reki/format/table/__init__.py:107-112 | `pd.Timestamp`'s range holds every time of the years 1678 to 2261 and no time before 1677 or after 2262 |
| GradsCatalog.VarRecords | reki/format/grads/grads_ctl.py:343-371 | one variable contributes one record per level in a time step (one record when it has no levels) |
| GradsCatalog.VarRecordsAt | reki/format/grads/grads_ctl.py:357-371 | the records of a variable are its levels in order, numbered consecutively from the running record index |
| GradsCatalog.StepRecords | reki/format/grads/grads_ctl.py:343-371 | a time step holds as many records as its variables have levels together |
| GradsCatalog.StepRecordsAt | reki/format/grads/grads_ctl.py:343-371 | level `li` of variable `j` sits at position (levels of the variables before `j`) + `li` of its step, carrying that position as record index |
| GradsCatalog.StepRecordsIndex | reki/format/grads/grads_ctl.py:339-371 | every record of a step carries the step's time and the running record index |
| GradsCatalog.CatalogUpTo | reki/format/grads/grads_ctl.py:339-371 | the first `k` time steps hold `k` times the records of one step |
| GradsCatalog.CatalogAt | reki/format/grads/grads_ctl.py:339-371 | position (step offset of `t`) + `p` of the record list is position `p` of step `t`, built with that step's valid and forecast time |
| GradsCatalog.CatalogRecordIndex | reki/format/grads/grads_ctl.py:336-373 | the record list has (number of times) x (records per step) entries; each carries valid time `tdef.values[t]` and forecast time `step * t`; its record index restarts at 0 in each step for a templated `dset` and runs over the whole list otherwise |
| GradsCatalog.LevelRecordFields | reki/format/grads/grads_ctl.py:344-370 | a single-level record has level 0 and level index 0; a multi-level one has `zdef["values"][li]` and `li`; name, units, description, times and record index come from the variable and the step |
| GradsCatalog.CoveredLevel | reki/format/grads/grads_ctl.py:358-359 | when the `zdef` values cover every variable's level count, the level lookup `zdef["values"][level_index]` is in range |
| GradsCatalog.FirstKey | reki/format/grads/grads_ctl.py:398-403 | a token is expanded by a key it starts with, and by none exactly when it starts with no key |
| GradsCatalog.PlainPathUnchanged | reki/format/grads/grads_ctl.py:376-410 | a `dset` without `%` is returned unchanged |
| GradsCatalog.KeyExpands | reki/format/grads/grads_ctl.py:381-403 | a piece that starts with a key is that key's text followed by the rest of the piece (no key is a prefix of another, so the mapping order cannot pick a wrong key) |
| GradsCatalog.MinuteOfTimedelta | reki/format/grads/grads_ctl.py:391 | `%n2` writes the forecast time's minutes past the hour, also for negative forecast times |
| GradsCatalog.ForecastKeysRecoverTime | reki/format/grads/grads_ctl.py:391-394 | `%fn2` reads back as the forecast time in minutes; for a non-negative forecast time `%f3` and `%n2` read back as its hours and remaining minutes |
| GradsCatalog.DateKeysRecoverDate | reki/format/grads/grads_ctl.py:383-390 | `%y4`, `%m1`, `%m2`, `%d1`, `%d2`, `%h1`, `%h2`, `%h3` read back as the valid time's year, month, day and hour |
| GradsLines.KeywordOf | reki/format/grads/grads_ctl.py:52-63 | a word names a keyword exactly when it is one of the handler table's keys |
| GradsLines.FirstWord | reki/format/grads/grads_ctl.py:77 | the first word is the text before the first space; a line without a space loses its last character (the `find` result -1) |
| GradsLines.Dispatch | reki/format/grads/grads_ctl.py:76-79 | a handled line starts with its keyword; a line whose lower-cased first word is no keyword is skipped; a lower-cased match whose original spelling is not a key raises `KeyError` |
| GradsLines.DispatchKeywordLine | reki/format/grads/grads_ctl.py:76-79 | a line made of a keyword, a space and anything dispatches to that keyword's handler |
| GradsLines.CapitalKeywordFails | reki/format/grads/grads_ctl.py:78-79 | a keyword written with capitals passes the lower-case membership test and then fails the lookup with `KeyError` |
| GradsLines.DsetPath | reki/format/grads/grads_ctl.py:118-126 | the data file path is read from the text after `dset`; an empty path fails its first-character test |
| GradsLines.DsetLineRoundTrip | reki/format/grads/grads_ctl.py:118-126 | `dset p` yields `p`, or `p` without its `^` joined to the descriptor's directory; the path is a template exactly when it contains `%` |
| GradsLines.OptionTokens | reki/format/grads/grads_ctl.py:130 | the option tokens joined by single spaces give back the stripped text after `options` |
| GradsLines.OptionsRoundTrip | reki/format/grads/grads_ctl.py:130-131 | an `options` line of space-separated words yields exactly those words |
| GradsLines.EndianAfter | reki/format/grads/grads_ctl.py:132-136 | the byte order after an options line is the one before it or the one an endian option of the line names |
| GradsLines.EndianUnchanged | reki/format/grads/grads_ctl.py:132-136 | options without an endian word keep the byte order |
| GradsLines.LastEndianWins | reki/format/grads/grads_ctl.py:132-136 | the last endian word of the line decides the byte order |
| GradsLines.YrevAfter | reki/format/grads/grads_ctl.py:137-138 | `yrev` is set after the line exactly when it was set before or the line holds `yrev` |
| GradsLines.UndefOf | reki/format/grads/grads_ctl.py:145-148 | `undef` succeeds exactly when the text after the keyword parses as a float |
| GradsLines.LinearValues | reki/format/grads/grads_ctl.py:181 | a linear dimension has `count` values (none for a negative count), value `n` being `start + step * n` |
| GradsLines.ParseFloatsMeaning | reki/format/grads/grads_ctl.py:208 | a token list parses when every token is a float, giving one value per token; otherwise some token is not a float |
| GradsLines.ParseLinear | reki/format/grads/grads_ctl.py:169-188 | a parsed linear dimension had at least five tokens and its values are `LinearValues(start, step, count)` |
| GradsLines.FourTokenLinearFails | reki/format/grads/grads_ctl.py:176-180 | a four-token linear line passes the length guard and then fails on the missing step token |
| GradsLines.CollectLevels | reki/format/grads/grads_ctl.py:205-217 | the levels reader ends on a line of the file, keeps the levels already read and collects at least `count` values |
| GradsLines.CollectLevelsStopsEarly | reki/format/grads/grads_ctl.py:210-216 | the reader stops at the first line that brings the number of values to `count` |
| GradsLines.CollectEachLine | nwpc_data/format/grads/grads_ctl.py:165-174 | the one-value-per-line reader reads exactly the missing number of lines |
| GradsLines.CollectLevelsLegacyAt | nwpc_data/format/grads/grads_ctl.py:170-174 | value `i` collected by the one-value-per-line reader is the float of the `i`-th following line |
| GradsLines.ParseDimension | reki/format/grads/grads_ctl.py:150-167 | a parsed dimension line had a type token; a levels dimension holds at least `count` values; a linear one consumes only its own line |
| GradsLines.ParseStartTime | reki/format/grads/grads_ctl.py:254-274 | an accepted start time has 12 characters with `z` after the hour, and is on the hour |
| GradsLines.StartTimeRoundTrip | reki/format/grads/grads_ctl.py:254-274 | a start time written as `HHzDDmmmYYYY` parses back to that time |
| GradsLines.MonthAbbrParses | reki/format/grads/grads_ctl.py:271 | every month abbreviation reads back as its month |
| GradsLines.ParseIncrement | reki/format/grads/grads_ctl.py:290-301 | an increment of two characters or fewer fails; an accepted one ends in `mn`, `hr` or `dy` |
| GradsLines.IncrementRoundTrip | reki/format/grads/grads_ctl.py:290-299 | `<v>mn`, `<v>hr` and `<v>dy` parse to `v` minutes, hours and days |
| GradsLines.MonthIncrementFails | reki/format/grads/grads_ctl.py:298-301 | a month increment such as `1mo` is not supported |
| GradsLines.TimeValues | reki/format/grads/grads_ctl.py:243 | the time values are `start + step * i` for `i` below `count` |
| GradsLines.TdefOf | reki/format/grads/grads_ctl.py:224-251 | a parsed `tdef` line had five tokens with `linear` third, and its count, start, step and values are those of the tokens |
| GradsLines.VarsCount | reki/format/grads/grads_ctl.py:310-312 | the `vars` line has exactly two tokens and its count is the second |
| GradsLines.VarLine | reki/format/grads/grads_ctl.py:316-324 | a variable line parses exactly when it has at least three tokens and an integer level count |
| GradsLines.VarLineRoundTrip | reki/format/grads/grads_ctl.py:316-331 | a variable line `name levels units words...` yields that name, level count, units and the words joined by spaces |
| GradsLines.ReadEach | reki/format/grads/grads_ctl.py:313-332 | reading `count` variable lines yields `count` variables and needs that many lines after the `vars` line |
| GradsLines.ReadEachAt | reki/format/grads/grads_ctl.py:313-332 | variable `i` is read from line `i + 1` after the `vars` line |
| GradsLines.ReadEachStops | reki/format/grads/grads_ctl.py:313-317 | once a variable line fails, reading more variables fails too |
| GradsLines.HourStamp | reki/format/grads/grads_ctl.py:100 | a `%Y%m%d%H` start time is ten digits and on the hour |
| GradsLines.RekiForecastAsWritten | reki/format/grads/grads_ctl.py:95-108 | as written, a forecast time is guessed only for the GRAPES MESO and GFS name shapes |
| GradsLines.RekiForecast | reki/format/grads/grads_ctl.py:95-108 | corrected: a forecast time is guessed exactly for the MESO and GFS name shapes |
| GradsLines.RekiNameTimesAsWritten | reki/format/grads/grads_ctl.py:86-108 | only `post.ctl_`/`model.ctl_` names give times: the start from the ten digits after `_`, the forecast from where the code reads it |
| GradsLines.RekiNameTimes | reki/format/grads/grads_ctl.py:86-108 | corrected: only `post.ctl_`/`model.ctl_` names give times, and the forecast is the one the name holds; the parser reads names as written |
| GradsLines.LegacyForecast | nwpc_data/format/grads/grads_ctl.py:82-94 | corrected: a forecast time is guessed exactly for the MESO and GFS name shapes after `post.ctl_` |
| GradsLines.LegacyNameTimesAsWritten | nwpc_data/format/grads/grads_ctl.py:73-94 | only MESO and GFS names after `post.ctl_` give times: the start from the ten digits after the prefix, the forecast from where the code reads it |
| GradsLines.LegacyNameTimes | nwpc_data/format/grads/grads_ctl.py:73-94 | corrected: only `post.ctl_` names give times, and the forecast is the one the name holds; the parser reads names as written |
| GradsLines.RekiMesoAsWritten | reki/format/grads/grads_ctl.py:99-101 | as written, a 15-digit MESO name's forecast hours are read from characters 11 to 13, one place too far right |
| GradsLines.RekiMesoForecastShifted | reki/format/grads/grads_ctl.py:98-101 | `YYYYMMDDHH02900` is read as 290 hours as written and as 29 hours after correction |
| GradsLines.RekiGfsAsWritten | reki/format/grads/grads_ctl.py:104-106 | as written, a GFS name's forecast hours are read from character 12 on, dropping the first digit after `_` |
| GradsLines.RekiGfsForecastTruncated | reki/format/grads/grads_ctl.py:103-106 | `YYYYMMDDHH_120` is read as 20 hours as written and as 120 hours after correction |
| GradsLines.RekiForecastReadsHours | reki/format/grads/grads_ctl.py:95-106 | corrected: both name shapes give the three forecast-hour digits after the start time |
| GradsLines.LegacyGfsAsWritten | nwpc_data/format/grads/grads_ctl.py:90-92 | as written, a GFS name's forecast hours are read from character 21 on, dropping the first digit after `_` |
| GradsLines.LegacyGfsForecastTruncated | nwpc_data/format/grads/grads_ctl.py:89-92 | `post.ctl_YYYYMMDDHH_120` is read as 20 hours as written and as 120 hours after correction |
| GradsLines.LegacyGfsCorrected | nwpc_data/format/grads/grads_ctl.py:90-92 | corrected: a GFS name's forecast hours are its three digits after `_` |
| GradsLines.LegacyForecastReadsHours | nwpc_data/format/grads/grads_ctl.py:82-92 | corrected: both name shapes after `post.ctl_` give the three forecast-hour digits after the start time |
| GradsState.Initial | reki/format/grads/grads_ctl.py:14-35 | a fresh descriptor has no options, little-endian data, no `yrev`, no template, no start or forecast time and no records; reki's `dset` is unset while nwpc_data's is the empty string (nwpc_data/format/grads/grads_ctl.py:14) |
| GradsState.RecordsOf | reki/format/grads/grads_ctl.py:336-373 | reki generates records exactly when `tdef` was read and either it has no times or the `zdef` values cover every variable's levels; nwpc_data (nwpc_data/format/grads/grads_ctl.py:284-313) needs only the coverage, and its missing `zdef` raises `AttributeError` |
| GradsState.RecordsOfLength | nwpc_data/format/grads/grads_ctl.py:284-313 | reki generates (number of times) x (records per step) records, nwpc_data one step's worth without times |
| GradsState.VarsBlock | reki/format/grads/grads_ctl.py:307-334 | the `vars` handler leaves the cursor on the last variable line |
| GradsState.VarsBlockOf | reki/format/grads/grads_ctl.py:310-334 | the `vars` block is the count line followed by that many variable lines |
| GradsState.VarsBlockFails | reki/format/grads/grads_ctl.py:310-317 | a bad count line or a bad variable line stops the parse |
| GradsState.ReadersOfSound | reki/format/grads/grads_ctl.py:52-63 | the handler table of each dialect keeps the cursor inside the file and does what the line functions say |
| GradsState.Infer | reki/format/grads/grads_ctl.py:86-92 | file-name inference changes nothing when a start or forecast time is already set, and otherwise only those two attributes |
| GradsState.DsetStep | reki/format/grads/grads_ctl.py:120-121 | the template flag, once set by a `dset` line with `%`, stays set |
| GradsState.OptionsStep | reki/format/grads/grads_ctl.py:131 | an `options` line appends its tokens to the options list |
| GradsState.VarsStep | reki/format/grads/grads_ctl.py:303-305 | after a `vars` block the records are the ones generated from the new state |
| GradsState.VarsRecords | reki/format/grads/grads_ctl.py:303-305 | after a `vars` block reki holds (number of times) x (records per step) records and nwpc_data one step's worth |
| GradsState.Handle | reki/format/grads/grads_ctl.py:52-63 | every handler leaves the cursor on a line of the file at or after the one it started on |
| GradsState.Step | reki/format/grads/grads_ctl.py:75-80 | one turn of the parse loop keeps the cursor in the file, and a line without a keyword changes nothing |
| GradsState.ParseFromNext | reki/format/grads/grads_ctl.py:75-80 | the parse continues on the line after the one a handler left the cursor on |
| GradsState.ParseFromStops | reki/format/grads/grads_ctl.py:75-80 | a failing handler stops the parse |
| GradsState.SkipLine | reki/format/grads/grads_ctl.py:77-80 | a line whose first word is no keyword is skipped |
| GradsState.KeyErrorStops | reki/format/grads/grads_ctl.py:78-79 | a capitalised keyword stops the parse with its `KeyError` |
| GradsState.StripAll | reki/format/grads/grads_ctl.py:69 | every line is stripped before parsing |
| GradsState.EndianAfterAppend | reki/format/grads/grads_ctl.py:131-136 | reading two option lists one after the other sets the byte order as reading their concatenation does |
| GradsState.HandleSameOptions | reki/format/grads/grads_ctl.py:140-334 | handlers other than `options` and `dset` do not touch the options, byte order, `yrev` or template flag |
| GradsState.StepKeepsOptions | reki/format/grads/grads_ctl.py:128-138 | each turn of the loop keeps the byte order and `yrev` agreeing with the options list read so far |
| GradsState.ParseFromKeepsOptions | reki/format/grads/grads_ctl.py:72-84 | the rest of the parse keeps the byte order and `yrev` agreeing with the options list |
| GradsState.ParseCtlOptions | reki/format/grads/grads_ctl.py:72-84 | a parsed descriptor's byte order is the last endian option (little when none) and `yrev` is set exactly when some option is `yrev` |
| GradsState.LegacyNoTemplate | nwpc_data/format/grads/grads_ctl.py:96-103 | nwpc_data never marks `dset` as a template |
| GradsParser.GradsCtl.constructor | reki/format/grads/grads_ctl.py:14-35 | a new descriptor holds the initial state of its dialect |
| GradsParser.GradsCtl.ReadOptionWords | reki/format/grads/grads_ctl.py:132-138 | the options loop leaves the byte order set by the last endian word and `yrev` set when any word is `yrev` |
| GradsParser.GradsCtl.StoreDimension | reki/format/grads/grads_ctl.py:182-188 | storing a dimension changes only the attribute it names |
| GradsParser.GradsCtl.GenerateRecords | reki/format/grads/grads_ctl.py:336-373 | the record loop succeeds exactly when the specification's record list exists, and then stores that list and nothing else; on failure the descriptor is unchanged |
| GradsParser.VarBlock | reki/format/grads/grads_ctl.py:344-371 | one variable's records are built exactly when `zdef` has a value for each of its levels, and they are `VarRecords` |
| GradsParser.StepBlock | reki/format/grads/grads_ctl.py:343-371 | one step's records are built exactly when `zdef` covers every variable, and they are `StepRecords` |
| GradsParser.GradsCtlParser.constructor | reki/format/grads/grads_ctl.py:42-50 | a new parser owns a fresh initial descriptor, has no lines and its cursor is -1 |
| GradsParser.GradsCtlParser.WithCtl | reki/format/grads/grads_ctl.py:42-50 | a parser given a descriptor keeps it, has no lines and its cursor is -1 |
| GradsParser.GradsCtlParser.SetCtlFilePath | reki/format/grads/grads_ctl.py:65-70 | the lines are the stripped file lines and the cursor starts at 0 |
| GradsParser.GradsCtlParser.ParseCtlFileName | reki/format/grads/grads_ctl.py:86-108 | the descriptor becomes `Infer` of its state and the file-name times as the dialect's code reads them, and is unchanged on failure |
| GradsParser.GradsCtlParser.ParseDset | reki/format/grads/grads_ctl.py:110-126 | the descriptor becomes `DsetStep` of the current line, and is unchanged on failure |
| GradsParser.GradsCtlParser.ParseOptions | reki/format/grads/grads_ctl.py:128-138 | the descriptor becomes `OptionsStep` of the current line |
| GradsParser.GradsCtlParser.ParseTitle | reki/format/grads/grads_ctl.py:140-143 | only the title changes, to the stripped text after `title` |
| GradsParser.GradsCtlParser.ParseUndef | reki/format/grads/grads_ctl.py:145-148 | only `undef` changes, to the float of the line, and nothing changes when it is not a float |
| GradsParser.GradsCtlParser.ParseTdef | reki/format/grads/grads_ctl.py:224-251 | only `tdef` changes, to the parsed time dimension, and nothing changes on failure |
| GradsParser.GradsCtlParser.CollectLevelLines | reki/format/grads/grads_ctl.py:205-217 | the loop over following lines yields the values and final cursor of `CollectLevels` |
| GradsParser.GradsCtlParser.CollectLevelValues | nwpc_data/format/grads/grads_ctl.py:165-174 | the one-value-per-line loop yields the values and final cursor of `CollectLevelsLegacy` |
| GradsParser.GradsCtlParser.ReadDimension | reki/format/grads/grads_ctl.py:150-222 | reading a dimension yields the dimension and cursor of `ParseDimension` in the parser's dialect |
| GradsParser.GradsCtlParser.ParseDimensionLine | reki/format/grads/grads_ctl.py:150-167 | an `xdef`/`ydef`/`zdef` line sets that dimension only and moves the cursor past its value lines |
| GradsParser.GradsCtlParser.ReadLines | reki/format/grads/grads_ctl.py:313-332 | the variable-line loop reads what `ReadEach` reads and advances the cursor by one line per item |
| GradsParser.GradsCtlParser.ReadVarLines | reki/format/grads/grads_ctl.py:313-332 | `count` variable lines give `VarsFrom` and leave the cursor on the last of them |
| GradsParser.GradsCtlParser.ReadVariables | reki/format/grads/grads_ctl.py:307-334 | a `vars` block reads as `VarsBlock` says |
| GradsParser.GradsCtlParser.ParseVars | reki/format/grads/grads_ctl.py:303-305 | the `vars` handler reads the variables and generates the records as `VarsStep` says |
| GradsParser.GradsCtlParser.HandleLine | reki/format/grads/grads_ctl.py:52-63 | each keyword's handler changes the descriptor and cursor as `Handle` says |
| GradsParser.GradsCtlParser.StepLine | reki/format/grads/grads_ctl.py:76-79 | one line is dispatched as `Step` says |
| GradsParser.GradsCtlParser.Advance | reki/format/grads/grads_ctl.py:75-80 | one turn of the loop moves the cursor forward and leaves the outcome of the rest of the parse unchanged |
| GradsParser.GradsCtlParser.RunLines | reki/format/grads/grads_ctl.py:74-80 | the loop over the lines succeeds exactly when `ParseFrom` does, leaving its state |
| GradsParser.GradsCtlParser.Parse | reki/format/grads/grads_ctl.py:72-84 | parsing a descriptor file succeeds exactly when `ParseWith` does, and leaves its state: the keyword lines in order, then the file-name inference as written |
| GradsData.CountOf | reki/format/grads/grads_data_handler.py:38-39 | a dimension's `count` is read only when the dimension was declared |
| GradsData.OffsetOf | reki/format/grads/grads_data_handler.py:34-45 | an offset exists exactly for a record index below the number of records, with `xdef` and `ydef` declared |
| GradsData.OffsetIsRecords | reki/format/grads/grads_data_handler.py:37-45 | the offset is the record index times the record size (`nx*ny*4`, plus 8 bytes of markers for `sequential` data), so consecutive records are one record size apart |
| GradsData.OffsetRecordIndex | reki/format/grads/grads_data_handler.py:37-45 | the offset is a whole number of records and gives back the record index |
| GradsData.OffsetPastCatalog | reki/format/grads/grads_data_handler.py:34-35 | an index at or past the number of records raises `ValueError` |
| GradsData.Matches | reki/format/grads/grads_data_handler.py:95-101 | a record matches when name, level type and level agree and each given time equals the record's; asking for a time of a record without times raises `KeyError` |
| GradsData.FirstMatch | reki/format/grads/grads_data_handler.py:93-103 | a found position is a position of the record list |
| GradsData.FirstMatchLowest | reki/format/grads/grads_data_handler.py:93-109 | the search finds the first matching record, finds none when no record matches, and fails only on a record before any match |
| GradsData.FindIndex | reki/format/grads/grads_data_handler.py:85-103 | the search loop returns what `FirstMatch` specifies |
| GradsData.PositionOfLevel | reki/format/grads/grads_data_handler.py:124-140 | level `li` of variable `vi` is at position (slots of the variables before `vi`) + `li` |
| GradsData.SlotsAreStepSize | reki/format/grads/grads_data_handler.py:132-138 | the slots before variable `k` are the records generated for the variables before it |
| GradsData.PositionInCatalog | reki/format/grads/grads_data_handler.py:111-145 | the position computed from variable and level indices holds that very level's record in the first time step |
| GradsData.WordAt | nwpc_data/format/grads/grads_record_handler.py:29-35 | a big-endian word is the file's four bytes in order; a little-endian one is them reversed |
| GradsData.Row | nwpc_data/format/grads/grads_record_handler.py:42-43 | each grid row holds `x_count` words |
| GradsData.FlipRows | nwpc_data/format/grads/grads_record_handler.py:45-46 | flipping reverses the row order |
| GradsData.FlipFlip | nwpc_data/format/grads/grads_record_handler.py:45-46 | flipping twice gives back the grid |
| GradsData.Grid | nwpc_data/format/grads/grads_record_handler.py:38-43 | a grid can be read exactly when the `x_count * y_count` words after the offset lie in the file |
| GradsData.GridLayout | nwpc_data/format/grads/grads_record_handler.py:38-46 | cell (r, c) is the word at offset + 4(raw·nx + c), where raw is r, or ny-1-r under `yrev` |
| GradsData.ByteOrders | nwpc_data/format/grads/grads_record_handler.py:29-32 | the two byte orders read every cell as byte-reversed words of each other |
| GradsData.YrevFlips | nwpc_data/format/grads/grads_record_handler.py:45-46 | `yrev` reads the same grid with its rows flipped |
| GradsData.GradsRecordHandler.constructor | nwpc_data/format/grads/grads_record_handler.py:12-21 | a record handler keeps its descriptor, index, offset, variable and level indices, takes its record from the descriptor and has no data |
| GradsData.GradsRecordHandler.LoadData | nwpc_data/format/grads/grads_record_handler.py:23-49 | loading moves the offset past the 4-byte marker of `sequential` data, returns the grid `Decode` reads at the new offset and keeps it as the handler's data |
| GradsData.GradsDataHandler.constructor | reki/format/grads/grads_data_handler.py:14-18 | a data handler keeps the descriptor it is given |
| GradsData.GradsDataHandler.Empty | reki/format/grads/grads_data_handler.py:15-16 | without a descriptor the handler makes a fresh empty one |
| GradsData.GradsDataHandler.GetOffsetByRecordIndex | reki/format/grads/grads_data_handler.py:20-45 | the method returns the offset `OffsetOf` specifies |
| GradsData.GradsDataHandler.FindRecord | reki/format/grads/grads_data_handler.py:59-109 | the first matching record gives a fresh handler whose index is its list position and whose offset is that of its `record_index`; no match gives `None`; lookup errors pass through |
| GradsData.GradsDataHandler.SlotsUpTo | reki/format/grads/grads_data_handler.py:132-138 | the slot loop counts one slot per single-level variable and one per level otherwise |
| GradsData.GradsDataHandler.GetRecordByIndex | reki/format/grads/grads_data_handler.py:111-145 | too large a variable or level index raises `ValueError`; otherwise the handler is for the computed position, with that position's offset and the given indices |
| GradsField.IndexedLevel | reki/format/grads/field.py:95-96 | an index level becomes `zdef["values"][i]` (negative indices count from the end); it fails without `zdef`, for a non-integer or for an index out of range |
| GradsField.IndexedLevels | reki/format/grads/field.py:96 | a list of index levels converts when every index does, element by element |
| GradsField.Normalise | reki/format/grads/field.py:88-98 | `single` asks for one zero level per requested level with level type `single`; `index` replaces each index by its `zdef` value; any other level type keeps the levels, with level type `multi` |
| GradsField.DimName | reki/format/grads/field.py:89-100 | the level dimension is `level_dim` when given, else `pl`/`ml` when that is the level type, else `level` |
| GradsField.LegacyDimNameAsWritten | nwpc_data/format/grads/field.py:52-55 | as written, the level dimension name is bound only when `level_dim` is given or the level type is `pl`/`ml`; when bound it agrees with `DimName` |
| GradsField.ReadFile | reki/format/grads/field.py:145-147 | opening the data file succeeds exactly when its path names an existing file, and reads that file's bytes |
| GradsField.FieldCoordinates | reki/format/grads/field.py:142-200 | a built field carries the parameter, level and dimension name it was asked for; its values are the record's grid, flipped north-up for `degree_north`, with matching latitudes; reki adds the valid time, description, latitude units and, when both are known, start and forecast time |
| GradsField.RecordFile | reki/format/grads/field.py:145-147 | the grid is read from the template-expanded file for reki (from `dset` itself for nwpc_data, nwpc_data/format/grads/field.py:97-98), past the 4-byte marker of `sequential` data |
| GradsField.NorthUndoesYrev | reki/format/grads/field.py:153-155 | for `yrev` data asked `degree_north`, the two flips cancel and the field holds the file's rows in file order |
| GradsField.HitIsFirstMatch | reki/format/grads/field.py:105-122 | a level yields no field when no record matches, and otherwise the field built from the first matching record at its `record_index` offset |
| GradsField.HitFound | reki/format/grads/field.py:106-121 | once the first matching record is found, the level's outcome is that of building its field |
| GradsField.HitUnbound | nwpc_data/format/grads/field.py:69-74 | building a found field without a bound level dimension name fails |
| GradsField.HitPositionsExact | reki/format/grads/field.py:105-122 | the levels that yield fields are listed in request order, each once, and every level that yields a field is listed |
| GradsField.WalkOk | reki/format/grads/field.py:105-122 | the level loop succeeds exactly when no requested level fails |
| GradsField.WalkInRequestOrder | reki/format/grads/field.py:105-122 | the collected fields are the fields of the hitting levels, in request order |
| GradsField.WalkPrefixFails | reki/format/grads/field.py:105-122 | a failure stops the loop: later levels do not change the outcome |
| GradsField.WalkStep | reki/format/grads/field.py:105-122 | each turn appends the level's field, skips a level without a record, or stops with its error |
| GradsField.Assemble | reki/format/grads/field.py:124-132 | no field gives `None`, one field is returned alone, and several are stacked along the level dimension in order |
| GradsField.LoadHits | reki/format/grads/field.py:80-132 | the result is `None`, one field or a stack exactly when zero, one or several requested levels hit, and each field is that level's first matching record |
| GradsField.LoadScalar | reki/format/grads/field.py:90-91 | a single requested level gives `None` when it does not hit and its field alone when it does |
| GradsField.LegacyUnboundName | nwpc_data/format/grads/field.py:43-74 | as written, a hit without `level_type` `pl`/`ml` and without `level_dim` fails with an unbound name |
| GradsField.LegacyDefaultName | nwpc_data/format/grads/field.py:43-74 | corrected: such a hit gives one field on the `level` dimension |
| GradsField.OpenFile | reki/format/grads/field.py:146-147 | opening returns what `ReadFile` specifies |
| GradsField.CreateDataArrayFromRecord | reki/format/grads/field.py:135-200 | building a field from a record handler gives `FieldOf` of its record and offset (and nwpc_data's from nwpc_data/format/grads/field.py:88-139) |
| GradsField.LoadLevel | reki/format/grads/field.py:106-122 | looking up and building one level gives what `Hit` specifies |
| GradsField.LoadFound | reki/format/grads/field.py:115-121 | building the first matching record's field gives what `Hit` specifies |
| GradsField.CollectFields | reki/format/grads/field.py:104-122 | the level loop gives what `Walk` specifies |
| GradsField.RekiLoadFieldFromFile | reki/format/grads/field.py:13-132 | a descriptor that does not parse fails the load; otherwise the load gives `RekiLoad` of the parsed descriptor |
| GradsField.LegacyLoadFieldFromFile | nwpc_data/format/grads/field.py:12-85 | a descriptor that does not parse fails the load; otherwise the load gives `LegacyLoadAsWritten` of the parsed descriptor, where a found record with no bound axis name fails |
| GribLevel.FixLevel | reki/format/grib/eccodes/_level.py:4-38 | fixing fails exactly when some list inside the level type is empty (`level_type[0]` raises `IndexError`); a fixed level type holds no `pl`/`sfc`/`ml` alias any more |
| GribLevel.FixLevelDim | reki/format/grib/eccodes/_level.py:8-38 | the level dimension is the given one, or else the alias the level type (or its first element, for a list) names |
| GribLevel.FixLevelList | reki/format/grib/eccodes/_level.py:14-17 | a list takes its dimension from its first element and fixes every element with that dimension |
| GribLevel.FixLevelSettled | reki/format/grib/eccodes/_level.py:8-12 | `None`, a dict and any value without aliases or empty lists come back unchanged with the dimension |
| GribLevel.FixLevelIdempotent | reki/format/grib/eccodes/_level.py:4-38 | fixing a fixed level type and dimension changes nothing |
| GribLevel.LegacyFixLevel | nwpc_data/grib/eccodes/_level.py:4-33 | nwpc_data turns only a string alias into a dict, taking the alias as dimension when none is given; every other value is left alone |
| GribLevel.LegacyFixLevelIdempotent | nwpc_data/grib/eccodes/_level.py:4-33 | nwpc_data's fixing is idempotent |
| GribLevel.LegacyLeavesLists | nwpc_data/grib/eccodes/_level.py:14-33 | nwpc_data leaves a list of aliases unconverted, where reki converts it (reki/format/grib/eccodes/_level.py:14-17) |
| GribLevel.FixLevelType | reki/format/grib/common/_level.py:4-55 | aliases become one-key dicts, which depend on the engine for `pl`; other values are returned unchanged |
| GribLevel.FixLevelTypeIdempotent | reki/format/grib/common/_level.py:33-36 | converting a converted level type changes nothing |
| GribLevel.CommonAndEccodesAliases | reki/format/grib/eccodes/_level.py:19-37 | for the eccodes engine the common conversion and the eccodes one agree on `pl` and `ml` and differ on `sfc` (`sfc` against `surface`) |
| GribLevel.LegacyFixLevelType | nwpc_data/grib/_level.py:4-31 | nwpc_data's conversion turns aliases into one-key dicts and leaves other values alone |
| GribLevel.LegacyIsCfgribExceptMl | nwpc_data/grib/_level.py:14-31 | nwpc_data's conversion is reki's cfgrib one except for `ml`, whose key is untyped |
| GribLevel.LegacyFixLevelTypeIdempotent | nwpc_data/grib/_level.py:14-17 | nwpc_data's conversion is idempotent |
| GribCheck.ParameterConditions | reki/format/grib/eccodes/_check.py:51-62 | a parameter gives conditions exactly when it is `None`, a string or a dict; anything else raises `ValueError` |
| GribCheck.LevelTypeConditions | reki/format/grib/eccodes/_check.py:65-81 | a level type gives conditions exactly when it is `None`, a string, a list or a dict |
| GribCheck.LevelConditions | reki/format/grib/eccodes/_check.py:84-104 | a level gives conditions unless it is a string other than `all` |
| GribCheck.Conditions | reki/format/grib/eccodes/_check.py:35-46 | the merged conditions exist exactly when all three parts do |
| GribCheck.ConditionsPrecedence | reki/format/grib/eccodes/_check.py:35-46 | in the merged conditions a key takes its value from the extra keys, else the level, else the level type, else the parameter: later updates win |
| GribCheck.ConditionsDistinct | reki/format/grib/eccodes/_check.py:35-46 | the merged conditions hold each key once |
| GribCheck.ReadTypeOf | reki/format/grib/eccodes/_check.py:152-159 | a key type suffix is accepted exactly when it is `str`, `int` or `float` |
| GribCheck.KeyRead | reki/format/grib/eccodes/_check.py:147-160 | a key without `:` is read with the type the caller asks for |
| GribCheck.KeySuffix | reki/format/grib/eccodes/_check.py:148-159 | `name:suffix` is read as `name` with the suffix's type, and an unknown suffix raises `ValueError` |
| GribCheck.GetKey | reki/format/grib/eccodes/_check.py:147-160 | reading a plain key is reading the message |
| GribCheck.SurfaceLevel | reki/format/grib/eccodes/_check.py:109-118 | a `first_level`/`second_level` condition is popped and holds exactly when the decoded fixed surface equals its float; without the condition nothing changes |
| GribCheck.LevelReading | reki/format/grib/eccodes/_check.py:120-126 | the level compared is the `level` key, or the first fixed surface divided by 100 when the conditions ask for `typeOfFirstFixedSurface:int` 100 |
| GribCheck.Remaining | reki/format/grib/eccodes/_check.py:133-137 | the remaining keys hold exactly when every key reads and checks; a failed check means some key reads and does not check; an error comes from some key |
| GribCheck.CheckConditions | reki/format/grib/eccodes/_check.py:107-137 | the condition check returns what `Satisfies` specifies |
| GribCheck.CheckRemaining | reki/format/grib/eccodes/_check.py:133-137 | the loop over the remaining keys returns what `Remaining` specifies |
| GribCheck.CheckMessage | reki/format/grib/eccodes/_check.py:7-48 | a message check fails when the conditions cannot be built, and otherwise passes exactly when the message meets every merged condition (`ConditionsMet`) |
| GribCheck.RemoveDistinct | reki/format/grib/eccodes/_check.py:110 | popping a key keeps the keys distinct and removes just that key |
| GribCheck.RemainingKey | reki/format/grib/eccodes/_check.py:133-137 | when the remaining keys hold, each of them reads from the message and checks |
| GribCheck.SatisfiesKey | reki/format/grib/eccodes/_check.py:107-137 | a satisfied condition on a plain key means the message's value checks against it |
| GribCheck.SatisfiesMet | reki/format/grib/eccodes/_check.py:107-137 | a message passes the conditions exactly when the surface levels, the level (in hPa under `typeOfFirstFixedSurface:int` 100) and every other key hold |
| GribCheck.SatisfiesLevel | reki/format/grib/eccodes/_check.py:120-131 | a satisfied `level` condition means the message's level (in hPa for `pl`) checks against it |
| GribCheck.ConditionsShortName | reki/format/grib/eccodes/_check.py:55-58 | a string parameter becomes the `shortName` condition unless a later part overrides it |
| GribCheck.CheckMessageShortName | reki/format/grib/eccodes/_check.py:7-48 | a message that passes with a string parameter has that `shortName` |
| GribCheck.SetDistinct | reki/format/grib/eccodes/_check.py:46 | setting a key keeps the keys distinct |
| GribCheck.UpdateDistinct | reki/format/grib/eccodes/_check.py:38-46 | `dict.update` keeps the keys distinct |
| PyValue.Keys | reki/format/grib/eccodes/_check.py:133 | the keys of a dict are its entries' keys in insertion order |
| PyValue.Lookup | reki/format/grib/eccodes/_check.py:124 | a key is found exactly when it is among the keys, with the value of its entry |
| PyValue.Set | reki/format/grib/eccodes/_check.py:38-46 | setting an existing key keeps the dict's size; a new key is appended at the end |
| PyValue.LookupSet | reki/format/grib/eccodes/_check.py:38-46 | after setting a key it maps to the new value and every other key keeps its value |
| PyValue.KeysSet | reki/format/grib/eccodes/_check.py:38-46 | setting a key keeps the key order and appends a new key |
| PyValue.LookupUpdate | reki/format/grib/eccodes/_check.py:38-46 | after `d.update(e)` a key of `e` has `e`'s value and any other key keeps `d`'s |
| PyValue.UpdateSnoc | reki/format/grib/eccodes/_check.py:38-46 | updating with one more entry is updating and then setting it |
| PyValue.KeysUpdatePrefix | reki/format/grib/eccodes/_check.py:38-46 | `update` keeps the existing keys in front |
| PyValue.LookupRemove | reki/format/grib/eccodes/_check.py:110 | after `pop` the key is gone and the other keys keep their values |
| PyValue.Number | reki/format/grib/eccodes/_check.py:112 | a value is numeric exactly when it is an int, a float or a bool |
| PyValue.ToFloat | reki/format/grib/eccodes/_check.py:112 | `float()` accepts numbers and decimal strings and raises for other values |
| PyValue.Get | reki/format/grib/eccodes/_check.py:160 | reading a key with a type succeeds exactly when the message holds it, and gives its value |
| PyValue.Surface | reki/format/grib/eccodes/_check.py:140-144 | a decoded fixed-surface value exists exactly when the message holds it |
| GribMatch.KeysEqual | reki/format/grib/eccodes/_util.py:127-132 | the keys check holds exactly when every key reads and equals its value; `False` means some key reads and differs; an error comes from some key |
| GribMatch.ReaderFor | reki/format/grib/eccodes/_util.py:79 | `type(requested_value)` gives a reader for strings, ints and floats only |
| GribMatch.TypedKeysEqual | reki/format/grib/eccodes/_util.py:76-82 | a dict level type holds exactly when every key reads with its value's type and equals it |
| GribMatch.CheckParameter | reki/format/grib/eccodes/_util.py:46-59 | `None` holds; a string parameter holds exactly when it is the message's `shortName`; a dict is a keys check; an int, float, bool or list raises `ValueError` |
| GribMatch.CheckLevelType | reki/format/grib/eccodes/_util.py:62-84 | `None` always holds; otherwise `typeOfLevel` must read; once it reads, a string succeeds and holds exactly when it equals `typeOfLevel`; a dict is a typed keys check |
| GribMatch.AnyLevelTypeFrom | reki/format/grib/eccodes/_util.py:71-75 | the list loop holds when some element holds, is `False` exactly when every element is `False`, and succeeds when no element fails |
| GribMatch.LevelTypeList | reki/format/grib/eccodes/_util.py:71-75 | a list of level types holds when one of them holds, and is `False` exactly when none holds |
| GribMatch.CheckLevelValue | reki/format/grib/eccodes/_util.py:87-124 | `None` holds; otherwise `level` must read; a number or a list succeeds exactly when the message level reads, and then a number holds iff it equals that level and a list iff it contains it; `all` holds when it reads; any other string raises `ValueError` |
| GribMatch.MessageLevel | reki/format/grib/eccodes/_util.py:95-102 | the message level is `level`, or the first fixed surface divided by 100 for a dict level type with `typeOfFirstFixedSurface` 100 |
| GribMatch.CheckMessage | reki/format/grib/eccodes/_util.py:7-43 | a message matches exactly when the parameter, level type, level and extra keys all hold |
| GribMatch.DictLevel | reki/format/grib/eccodes/_util.py:108-120 | a dict level without `first_level`/`second_level` is a keys check |
| GribMatch.DictFirstLevel | reki/format/grib/eccodes/_util.py:108-113 | a dict level with `first_level` fails when the decoded first surface differs from its float, and otherwise checks as the dict without `first_level` |
| GribMatch.DictSecondLevel | reki/format/grib/eccodes/_util.py:114-120 | a dict level with `second_level` only fails when the decoded second surface differs from its float, and otherwise is a keys check of the other entries |
| GribMatch.LegacyCheckParameter | nwpc_data/grib/eccodes/_util.py:21-31 | nwpc_data has no `None` case for the parameter (it raises); every other parameter gives reki's result, a string compared with `shortName`, a dict as a keys check and any other type `ValueError` |
| GribMatch.LegacyCheckLevelType | nwpc_data/grib/eccodes/_util.py:34-53 | nwpc_data checks a list by membership of `typeOfLevel`, and other level types as reki does |
| GribMatch.LevelTypeListsAgree | nwpc_data/grib/eccodes/_util.py:43-44 | for a list of strings, membership and reki's element loop agree |
| GribMatch.ListLevelNeverMatches | nwpc_data/grib/eccodes/_util.py:62-68 | as written, a list of levels never matches: the message level read as an int is never a list |
| GribMatch.ListLevelMissesItsLevel | nwpc_data/grib/eccodes/_util.py:62-68 | a message at 850 asked for `[850, 500]` is refused as written and accepted after correction |
| GribMatch.LegacyCheckLevelValue | nwpc_data/grib/eccodes/_util.py:56-68 | corrected: a list of levels holds exactly when it contains the message level; other levels check as written |
| GribMatch.LegacyCheckMessage | nwpc_data/grib/eccodes/_util.py:6-18 | a message matches exactly when parameter, level type and the level check as written hold, so a list of levels never matches |
| GribParameter.TableParameter | reki/format/grib/_parameter.py:18-23 | a non-string parameter comes back unchanged; a string found in the short-name table becomes the codes of its first row; an unknown string comes back unchanged |
| GribParameter.ConvertParameter | reki/format/grib/common/_parameter.py:54-68 | a name in the WGRIB2 table converts as in that table alone; a name found only in the CEMC table becomes the codes of its first CEMC row; any other value comes back unchanged |
| GribParameter.SingleTableHasNoFallback | nwpc_data/grib/_parameter.py:18-25 | the single-table lookup is the two-table lookup with an empty CEMC table, and a CEMC-only name is left as a string by it but converted by the two-table lookup |
| GribParameter.FindShortName | reki/format/grib/config/__init__.py:25-37 | codes found in the WGRIB2 table give the short name of its first matching row; otherwise the first matching CEMC row's name; otherwise `None` |
| GribParameter.WgribCodesMatch | reki/format/grib/config/__init__.py:25-29 | a row built from three codes matches a query exactly when all three codes agree |
| GribParameter.ConvertFirstRow | reki/format/grib/common/_parameter.py:55-57 | a name converts to the codes of the first WGRIB2 row that carries it |
| GribParameter.FindFirstRow | reki/format/grib/config/__init__.py:25-29 | codes find the short name of the first WGRIB2 row that matches them |
| GribParameter.ConvertThenFind | reki/format/grib/config/__init__.py:7-37 | when a name's first WGRIB2 row is also the first row with its codes, converting the name and looking its codes up again gives the name back |
| GribParameter.SharedCodesFindEarliest | reki/format/grib/config/__init__.py:31-35 | two CEMC names sharing codes do not round-trip: the later name converts to codes that find the earlier name |
| GribFilter.PyDict.constructor | reki/format/grib/cfgrib/_util.py:10 | a filter dict starts with the given entries |
| GribFilter.PyList.constructor | reki/format/grib/cfgrib/_util.py:11 | a read-keys list starts with the given keys |
| GribFilter.ParameterFill | nwpc_data/grib/cfgrib/_util.py:11-17 | filling fails exactly when the parameter is neither a string nor a dict |
| GribFilter.NewKeys | reki/format/grib/cfgrib/_util.py:50 | the keys appended are exactly the given keys not already read, and never more of them |
| GribFilter.ParameterFillName | nwpc_data/grib/cfgrib/_util.py:11-12 | a string parameter sets `shortName` to it, leaves every other filter key alone and reads no new key |
| GribFilter.ParameterFillCodes | nwpc_data/grib/cfgrib/_util.py:13-15 | a dict parameter overrides the filter with its entries, keeps every earlier filter key and appends its keys to the read keys |
| GribFilter.ParameterFillMayRepeat | reki/format/grib/cfgrib/_util.py:24 | a dict parameter appends its keys even when they were read already, so the read keys can repeat |
| GribFilter.ConvertedNameFillsCodes | reki/format/grib/cfgrib/_util.py:13-24 | a name with a WGRIB2 row fills the filter with that row's codes and reads their keys, not `shortName` |
| GribFilter.LevelFillSetsTwoKeys | reki/format/grib/cfgrib/_util.py:36-39 | filling a level sets `typeOfLevel` and `level` and nothing else |
| GribFilter.LevelFillIdempotent | reki/format/grib/cfgrib/_util.py:30-40 | filling the same level twice gives the same lookups as filling it once |
| GribFilter.NewKeysDistinct | reki/format/grib/cfgrib/_util.py:50 | the appended keys have no repeats when the level-type keys have none |
| GribFilter.KeysDistinct | reki/format/grib/cfgrib/_util.py:48-50 | the keys of a dict with distinct keys have no repeats |
| GribFilter.LevelTypeFillKeys | reki/format/grib/cfgrib/_util.py:48-50 | a dict level type keeps the read keys as a prefix, adds exactly its own keys and never repeats one |
| GribFilter.LevelTypeFillName | reki/format/grib/cfgrib/_util.py:51-54 | any other level type sets `typeOfLevel` only and reads no new key |
| GribFilter.IndexPathCases | reki/format/grib/cfgrib/_util.py:69-78 | a string sets `indexpath` to it; `False` sets it to the empty string; `True` and any other value change nothing; other keys are never touched |
| GribFilter.LegacyFillParameter | nwpc_data/grib/cfgrib/_util.py:6-18 | updates the caller's dict and list in place as the fill function says and returns them; on an unsupported parameter it raises and changes nothing |
| GribFilter.FillParameter | reki/format/grib/cfgrib/_util.py:8-27 | converts the parameter through the short-name tables first, then fills as the legacy version does |
| GribFilter.FillLevel | reki/format/grib/cfgrib/_util.py:30-40 | updates the filter dict in place with the level fill and returns the same dict and list |
| GribFilter.FillLevelType | reki/format/grib/cfgrib/_util.py:43-55 | updates the filter dict and read-keys list in place with the level-type fill and returns them |
| GribFilter.FillLevelValue | reki/format/grib/cfgrib/_util.py:58-66 | sets `level` in the filter dict in place and returns the same dict and list |
| GribFilter.FillIndexPath | reki/format/grib/cfgrib/_util.py:69-78 | updates the backend arguments in place with the index-path fill and returns them |
| GribAttrs.Attr | reki/format/grib/eccodes/_xarray.py:119-135 | reading a decoded attribute succeeds exactly when its key was collected, and gives the collected value |
| GribAttrs.Show | reki/format/grib/eccodes/_xarray.py:321-323 | formatting a string gives the string and formatting an integer gives its decimal digits |
| GribAttrs.StepFromAttrs | reki/format/grib/eccodes/_xarray.py:266-275 | a step is always named `step` and needs the unit and end-step keys |
| GribAttrs.StepFollowsCodeTable | reki/format/grib/eccodes/_xarray.py:266-275 | the step is accepted exactly for units 0, 1 and 2, and is then the end step times that unit's length in minutes (1, 60, 1440) |
| GribAttrs.FixedLengthUnitsRefused | nwpc_data/grib/eccodes/_xarray.py:153-162 | units 10 to 13 (3, 6 and 12 hours, seconds) have a fixed length but are still refused with `ValueError` |
| GribAttrs.ValidTimeFromAttrs | reki/format/grib/eccodes/_xarray.py:278-284 | there is no valid time exactly when the date or the time is `undef` or `unknown`; otherwise it is made from that date and time |
| GribAttrs.SurfaceValue | reki/format/grib/eccodes/_xarray.py:308-313 | corrected: the GRIB2 surface value times ten to the scale factor gives back the scaled value |
| GribAttrs.SurfaceAsWritten | reki/format/grib/eccodes/_xarray.py:309 | the value as written agrees with the GRIB2 value only when the scale factor is 0 |
| GribAttrs.SurfaceScaleInverted | reki/format/grib/eccodes/_xarray.py:309 | 850 with scale factor -2 gives 8.5 as written, where GRIB2 defines 85000 |
| GribAttrs.PascalLevel | reki/format/grib/eccodes/_xarray.py:308-310 | `isobaricInPa` names the level and gives the scaled value times ten to the scale factor, which is the GRIB2 value only for scale factor 0 |
| GribAttrs.HectopascalLevels | reki/format/grib/eccodes/_xarray.py:311-313 | `isobaricInhPa` and `pl` succeed exactly when `isobaricInPa` does, and give its value divided by 100 |
| GribAttrs.LevelNamesCollide | reki/format/grib/eccodes/_xarray.py:321-323 | as written, surfaces 10 and 1 and surface 101 alone both get `level_101`; with the documented separator they do not |
| GribAttrs.AsWrittenNamesConcatenate | reki/format/grib/eccodes/_xarray.py:321-323 | as written, a name with a second type is the one-type name of the two types run together, and differs from the documented name |
| GribAttrs.NameTailSplit | reki/format/grib/eccodes/_xarray.py:294-296 | a documented name starts with the first type, has its first `_` right after it exactly when there is a second type, and ends with the second type |
| GribAttrs.LevelNameInjective | reki/format/grib/eccodes/_xarray.py:294-296 | documented names of surface types without `_` are equal only for equal types |
| GribAttrs.DefaultLevel | nwpc_data/grib/eccodes/_xarray.py:165-176 | with no level name given, a defined `typeOfLevel` names the level, and the value is always the `level` key |
| GribAttrs.DefaultLevelName | reki/format/grib/eccodes/_xarray.py:317-324 | with `typeOfLevel` undefined, the name is `level_` and the first type, followed directly by the second type unless it is 255 |
| GribAttrs.LevelFromAttrs | reki/format/grib/eccodes/_xarray.py:287-326 | any string other than the pressure names names the `level` key; no name gives the default level; any other value raises `TypeError`; the pressure values are the as-written ones of PascalLevel and HectopascalLevels |
| GribAttrs.LevelCoordinateName | reki/format/grib/eccodes/_xarray.py:251-255 | the result is the first coordinate starting with `level_`, or `None` exactly when there is none |
| GribAttrs.FieldName | reki/format/grib/eccodes/_xarray.py:214-220 | a requested name wins; otherwise a known `shortName` is used; otherwise the name is the three codes joined by `_`, and fails exactly when a code cannot be read |
| GribAttrs.FieldNameFromCodes | reki/format/grib/eccodes/_xarray.py:219-220 | an unknown short name with codes 0, 2 and 224 gives the name `0_2_224` |
| GribAttrs.FieldNameCodes | reki/format/grib/eccodes/_xarray.py:214-220 | with an unknown short name and integer codes, splitting the name at `_` gives the three codes back |
| GribAttrs.GribAttrs | reki/format/grib/eccodes/_xarray.py:203 | the attributes can be built exactly when every listed key was collected, and there are never more of them than keys |
| GribAttrs.GribAttrsDistinct | nwpc_data/grib/eccodes/_xarray.py:109 | no attribute appears twice, even for a key listed twice |
| GribAttrs.GribAttrsLookup | reki/format/grib/eccodes/_xarray.py:203 | `GRIB_k` is present exactly when `k` is listed and defined, and it holds that key's value |
| GribAttrs.WithLongName | reki/format/grib/eccodes/_xarray.py:205-212 | a long name is set exactly when there is a `GRIB_name` or all three codes are collected; it is `GRIB_name` when there is one, and otherwise `discipline=<d> parmcat=<c> parm=<n>` |
| GribAttrs.WithLongNameKeeps | reki/format/grib/eccodes/_xarray.py:205-212 | setting the long name changes no other attribute |
| GribAttrs.WithUnits | reki/format/grib/eccodes/_xarray.py:222-224 | units become `GRIB_units` when there is one and stay as they were otherwise; the long name is kept |
| GribAttrs.WithUnitsKeeps | reki/format/grib/eccodes/_xarray.py:222-224 | setting the units changes no other attribute |
| GribAttrs.DataAttrs | nwpc_data/grib/eccodes/_xarray.py:109-124 | the data attributes always carry a long name |
| GribAttrs.DataAttrsKeepGribKeys | reki/format/grib/eccodes/_xarray.py:203-224 | every `GRIB_` attribute of the field is the one collected from the listed keys |
| DataFinder.LabelDigits | reki/data_finder/_util.py:228-245 | a zero-padded label of a number that fits the width has exactly that many digits and reads back as the number |
| DataFinder.TimeLabels | reki/data_finder/_util.py:197-201 | the month, day, hour and minute labels are two digits that read back as the calendar fields, and the year label reads back as the year |
| DataFinder.ForecastSplit | reki/data_finder/_util.py:248-253 | the forecast hour is the duration in whole hours rounded down, the minute is the remainder below 60, and together they give the duration back |
| DataFinder.NegativeForecastRoundsDown | reki/data_finder/_util.py:248-253 | minus 30 minutes gives forecast hour -1 and minute 30, because the day and second components of a duration are floored |
| DataFinder.ForecastLabelDigits | reki/data_finder/_util.py:203 | a forecast below 1000 hours gets a three-digit label that reads back as its whole hours |
| DataFinder.GenerateStartTime | reki/data_finder/_util.py:256-257 | the start time moves by the given number of hours, and fails only before the model's epoch |
| DataFinder.StartTimeKeepsMinute | reki/data_finder/_util.py:256-257 | moving by whole hours keeps the minute of the hour |
| DataFinder.TimeVars.constructor | reki/data_finder/_util.py:188-204 | the time variables hold the start time, the forecast time and their labels |
| DataFinder.TimeVars.AtStart | reki/data_finder/_util.py:192 | with no forecast time given, the forecast is zero |
| DataFinder.LegacyTimeVars.constructor | nwpc_data/data_finder/_util.py:100-111 | the legacy time variables hold the labels of the start time, the forecast and the given 4DVar time |
| DataFinder.NewLegacyTimeVars | nwpc_data/data_finder/_util.py:99-111 | the 4DVar labels are those of the time three hours before the start; building them fails exactly when that time would fall before the epoch |
| DataFinder.AssimilationTime | nwpc_data/data_finder/_util.py:107 | from 03:00 on, the 4DVar time is three hours earlier on the same day; before 03:00 it is 21 hours later on the previous day; the minute never changes |
| DataFinder.QueryVars.constructor | nwpc_data/data_finder/_util.py:95-96 | nwpc_data's query variables start empty |
| DataFinder.QueryVars.WithStorageBase | reki/data_finder/_util.py:183-185 | reki's query variables start with only `storage_base`, set to `None` |
| DataFinder.QueryVars.SetAttrs | reki/data_finder/_util.py:56-57 | setting attributes one by one gives the old attributes updated with the new ones in order |
| DataFinder.LegacyQueryVars | nwpc_data/data_finder/_util.py:16-21 | the query variables are the config's query section, then the keyword arguments |
| DataFinder.RekiQueryVars | reki/data_finder/_util.py:52-57 | the query variables are `storage_base`, then the keyword arguments |
| DataFinder.StorageBaseDefault | reki/data_finder/_util.py:52-57 | `storage_base` reads `None` unless a keyword argument sets it, and every keyword argument reads with its own value |
| DataFinder.KwargsOverrideQuery | nwpc_data/data_finder/_util.py:18-21 | a keyword argument overrides the config's query entry of the same name, and other entries keep their config value |
| DataFinder.CheckDataLevel | reki/data_finder/_util.py:160-180 | the level check raises `ValueError` exactly when the requirement is neither `None`, a string, a list nor a dict |
| DataFinder.LevelListOfOne | nwpc_data/data_finder/_util.py:80-88 | one required level and a list holding only it pass the same levels |
| DataFinder.LevelListAny | reki/data_finder/_util.py:177-178 | a list of levels passes exactly the levels it names |
| DataFinder.FirstFile | reki/data_finder/_util.py:72-88 | the result is the file in the first location, in config order, that passes the level check and holds it; it is `None` exactly when no location does; it fails only on an unsupported requirement |
| DataFinder.FindFile | nwpc_data/data_finder/_util.py:27-41 | the loop that stops at the first file found returns the first-file result |
| DataFinder.OnlyFiles | reki/data_finder/_util.py:153 | keeps exactly the glob results that are files |
| DataFinder.AllFiles | reki/data_finder/_util.py:143-157 | every file returned is a file found by the glob of some location that passes the level check; it fails only on an unsupported requirement |
| DataFinder.AllFilesSnoc | reki/data_finder/_util.py:145-153 | one more location adds its files at the end when it passes the level check, and adds nothing otherwise |
| DataFinder.AllFilesComplete | reki/data_finder/_util.py:145-153 | every file found by the glob of a passing location is among the results |
| DataFinder.FindFiles | nwpc_data/data_finder/_util.py:63-77 | the loop returns all the files found, or `None` exactly when there are none |
| ObsTable.Overwrite | reki/format/table/__init__.py:158-160 | writing into a text at a position keeps its length unless the write runs past the end, where it grows to the end of the write |
| ObsTable.OverwriteAt | reki/format/table/__init__.py:158-160 | after the write, each character inside the written span comes from the write and every other one from the old text |
| ObsTable.WriteAtEnd | reki/format/table/__init__.py:126-131 | writing at the end of the text appends to it |
| ObsTable.OverwriteFromStart | reki/format/table/__init__.py:158-160 | writing from the start gives exactly the written text only when it is at least as long as the old one |
| ObsTable.WriteTwice | reki/format/table/__init__.py:159-160 | two writes one after the other equal one write of both texts |
| ObsTable.TextBuffer.constructor | reki/format/table/__init__.py:126 | a new buffer holds its initial text with the position at its start |
| ObsTable.TextBuffer.Write | reki/format/table/__init__.py:131 | a write overwrites the text from the position and moves the position past what was written |
| ObsTable.ParseHeader | reki/format/table/__init__.py:102-113 | a first line without 9 or 10 fields is refused; an accepted one gives its first field as the type and a time whose year, month, day and hour are the next four fields, on the hour and within `pd.Timestamp`'s range |
| ObsTable.HeaderYearOutOfRange | reki/format/table/__init__.py:107-112 | a header year before 1677 or after 2262 is refused, as `pd.Timestamp` raises `OutOfBoundsDatetime` |
| ObsTable.HeaderAccepted | reki/format/table/__init__.py:104-113 | the first line is accepted exactly when it has 9 or 10 fields, the next four read as integers, and they form a valid date and hour that `pd.Timestamp` can hold (1677-09-21 00:12:43 to 2262-04-11 23:47:16) |
| ObsTable.HeaderRoundTrip | reki/format/table/__init__.py:102-113 | a header line written from a type and a time on the hour within pandas' range reads back as that type and time |
| ObsTable.RowsOfLines | reki/format/table/__init__.py:136-140 | reading a text of records written one per line gives the fields of each record that has any |
| ObsTable.PairRecords | reki/format/table/__init__.py:128-133 | the intended pairing has one record per pair of lines, plus one for a last line left alone |
| ObsTable.PairFields | reki/format/table/__init__.py:133 | each record has the fields of its two lines in order, and a last line alone keeps its own fields |
| ObsTable.AccumulatePairs | reki/format/table/__init__.py:126-133 | after the loop, the buffer holds every record closed at an even index, and the open text holds the last one or two lines |
| ObsTable.PairLinesAsWritten | reki/format/table/__init__.py:126-134 | as written, the buffer holds only the records closed inside the loop |
| ObsTable.PairedRowsAsWritten | reki/format/table/__init__.py:126-140 | as written, the rows read back are the fields of every non-empty record but the last |
| ObsTable.LastRecordLost | reki/format/table/__init__.py:128-134 | as written, the last record is never written, so a body of one or two lines yields an empty text |
| ObsTable.PairLines | reki/format/table/__init__.py:125-142 | the corrected loop writes every record, the last one included |
| ObsTable.PairedRows | reki/format/table/__init__.py:136-140 | corrected: with the last record written, the rows read back are the fields of every non-empty record |
| ObsTable.ParseStationHeader | reki/format/table/__init__.py:149-156 | a station header is accepted exactly when it has seven fields and the last reads as an integer; the first six are the values, and the count is the last field, with a negative count read as zero |
| ObsTable.BlocksCover | reki/format/table/__init__.py:147-160 | the station blocks, taken in order, make up the whole body |
| ObsTable.BlocksCounted | reki/format/table/__init__.py:156-160 | every block takes exactly as many data lines as its header counts |
| ObsTable.BlocksOfFlatten | reki/format/table/__init__.py:147-160 | a body laid out from stations whose headers count their data lines splits back into those stations |
| ObsTable.StationsSplit | reki/format/table/__init__.py:147-160 | the RTEMP body splits into well-formed stations that make up the body, and this split inverts laying them out |
| ObsTable.WriteAll | reki/format/table/__init__.py:159-160 | writing the lines one after the other overwrites the buffer with their concatenation from the old position |
| ObsTable.ReadStationAsWritten | reki/format/table/__init__.py:158-161 | as written, the data lines overwrite the station's own header line from its start, so whatever they do not cover of that line remains |
| ObsTable.ReadStation | reki/format/table/__init__.py:158-161 | the corrected buffer holds exactly the data lines |
| ObsTable.WithValues | reki/format/table/__init__.py:169-173 | every row gets the header values in front of its own fields, and there is one output row per input row |
| ObsTable.CoveredStationRows | reki/format/table/__init__.py:158-166 | a station whose data text is at least as long as its header line is read exactly as its data lines |
| ObsTable.CoveredRows | reki/format/table/__init__.py:147-178 | when every station's data covers its header line, all stations are read exactly as their data lines |
| ObsTable.EmptyStationReadsHeader | reki/format/table/__init__.py:158-166 | a station with no data lines has no rows when corrected, but as written it reads one row: the header line's own fields behind its values |
| ObsTable.RtempRows | reki/format/table/__init__.py:145-179 | an empty body raises, as `pd.concat` does with no station; a body that does not split raises; otherwise the rows are those of every station, in order, each read from the buffer that starts as its header line |
| ObsTable.NextStation | reki/format/table/__init__.py:148-175 | one pass of the loop takes the next station, gives its rows as read from the buffer that starts as its header line, and leaves a shorter remainder; an error is the split's error |
| ObsTable.LoadRtemp | reki/format/table/__init__.py:145-179 | the station loop gives the RTEMP rows of the body, as written |
| ObsTable.RtempRowsOutcome | reki/format/table/__init__.py:147-178 | an error part way through the body is the result; a body fully split into stations gives their rows, or the empty-concatenation error when there are none |
| ObsTable.LoadBody | reki/format/table/__init__.py:114-121 | a loaded table has the columns of its type and the time of the header; an unknown type is refused; a paired body gives the rows of the records the loop wrote, which lack the last record |
| ObsTable.RtempColumnsOf | reki/format/table/__init__.py:65-74 | RTEMP columns are the station header fields without the count, followed by the data columns |
| ObsTable.LoadObs | reki/format/table/__init__.py:99-122 | a file with no line raises; otherwise the header line is parsed and the body is read as its type asks |
| ObsTable.ReadBody | reki/format/table/__init__.py:114-119 | dispatches on the type, RTEMP to the station loop and the rest to the paired-line loop as written, and gives the body's table |
| ObsTable.LoadNwpcObsFromFile | reki/format/table/__init__.py:77-122 | the loader's result is the table of the file's lines |
| ObsTable.LoadWithHeader | reki/format/table/__init__.py:102-119 | a file whose first line parses as a header loads as its body under that header |
| ObsTable.PairedFileRoundTrip | reki/format/table/__init__.py:77-142 | a file written as a header line and a paired-line body loads as the type's columns, the fields of every non-empty paired record but the last, and the header's time |
| ObsTable.RtempFileRoundTrip | reki/format/table/__init__.py:77-179 | a file written as an RTEMP header line and well-formed stations loads as the RTEMP columns, the rows of those stations as the loader reads them, and the header's time |
| ObsTable.RtempBody | reki/format/table/__init__.py:116-117 | an RTEMP body that splits into stations loads as their rows, as the loader reads them |

## Left out

- File, network and library I/O are not modelled. Control files, observation files and data files come in as their lines or bytes. The existence test, the glob and the eccodes key reads are parameters or abstract maps.
- Logging and debug printing are not modelled.
- The eccodes library is abstract. A message is a map from (key, read type) to value. Its fixed-surface values come already decoded; the `math.pow` scaling in reki/format/grib/eccodes/_check.py:140-144 is one of those decoded values.
- xarray packaging is not modelled: `DataArray` construction and `xr.concat`. A field is its grid values plus a record of its coordinates and attributes.
- Floating-point numbers are not modelled. Levels and dimension values are exact reals. A grid word is an opaque 4-byte value, and byte order is a permutation of its bytes. IEEE-754 decoding is not part of this model.
- pandas and datetime parsing is reduced to what the code relies on. Timestamps are whole minutes from 0001-01-01 00:00, and a time that falls before that is an error. The sub-minute parts of a `Timedelta` are not modelled. The nanosecond range of `pd.Timestamp` (1677-09-21 to 2262-04-11) is modelled for the observation header only; the lines below name the other places where it is not. `strftime` years below 1000 are modelled as zero-padded to four digits.
- pandas table reading is not modelled beyond this: the rows are the whitespace-separated fields of each non-blank line, as strings. Type conversion, NaN filling of short rows, and column-count mismatches are not modelled.
- Jinja2 template rendering, YAML loading, `render_file_name` and `generate_forecast_time` are not part of this model. The data finder sees the rendered file name and directories.
- pathlib normalisation of joined paths is not modelled.
- The WGRIB2 and CEMC short-name tables are not modelled as data. They are parameters, and three CEMC rows serve as a sample.
- nwpc_data/format/grads/grads_data_handler.py is not part of this model. The legacy field loader reuses the reki data handler.
- reki/format/grads/grads_record_handler.py is not part of this model. The record loader models nwpc_data/format/grads/grads_record_handler.py.
- The ensemble `perturbationNumber` coordinate, and the latitude and longitude spacing of a GRIB field, are not modelled.
- The `obs_time` column is the table's `obsTime` value, not a column added to each row.
- GribAttrs.Show: formats strings, integers, booleans and `None`. The formatting of floats is not modelled and is an error.
- GribAttrs.StepFromAttrs: only step units 0, 1 and 2 are accepted, as in the code. Python's coercion of float end steps inside `Timedelta` is not modelled.
- GribAttrs.ValidTimeFromAttrs: gives the validity date and time as read. The pandas parse that joins them into a timestamp is not modelled.
- GribAttrs.DataAttrs: its own contract states only that a long name is set. The members it is built from state the rest: WithLongName gives the long name, `GRIB_name` or the codes spelled out, and GribAttrsLookup, DataAttrsKeepGribKeys and WithUnits give the other attributes.
- GribAttrs.LevelFromAttrs: pressure levels need integer fixed-surface keys. Non-integer values of those keys are an error.
- GribFilter.FillParameter: the conversion of `numpy.int64` code values to `int` is not modelled. The codes are already integers here.
- GradsCatalog.FirstKey: states the match found and that none exists when none is found. It does not state that the match is the earliest; no two of the keys it searches share their first two characters (KeyHeadsDistinct), so at most one can match.
- ObsTable.ParseStationHeader: a station header line with more than seven fields is refused. pandas would shift the extra field into the index.
- DataFinder.NewLegacyTimeVars: the 4DVar time three hours before the start is an error when it falls before 0001-01-01 00:00, as Python's `datetime` raises there.
- DataFinder.GenerateStartTime: a start time moved before 0001-01-01 00:00 is an error. A shift past 2262-04-11 is accepted here, though `pd.Timestamp` arithmetic raises `OutOfBoundsDatetime` on it.
- GradsLines.ParseStartTime: reki reads the `tdef` start time with `pd.to_datetime`, which raises `OutOfBoundsDatetime` outside 1677-09-21 to 2262-04-11; the model accepts every four-digit year there, as nwpc_data's `strptime` does.
- GradsLines.TimeValues: the `tdef` times fail only when one falls before 0001-01-01 00:00. reki adds a `pd.Timestamp` and a `pd.Timedelta`, which raises `OutOfBoundsDatetime` for a time past 2262-04-11. nwpc_data adds a `datetime` and a `timedelta`, which raises `OverflowError` past 9999-12-31. Neither ceiling is modelled, so `tdef 200 linear 00z01jan2262 1dy` parses here and fails in reki.
- GradsLines.HourStamp: reki reads the file-name start time with `pd.to_datetime`; years outside pandas' range are accepted here, though reki refuses them.
- Text.Strip: strips ASCII whitespace only. Python's `strip()` also removes the other Unicode whitespace characters.
- Text.SplitWs: splits on ASCII whitespace only. `str.split()` also splits on the other Unicode whitespace characters and on `\x1c`-`\x1f`.
- Text.Lower: lower-cases ASCII letters only. Python's `lower()` also maps other letters, and can change the length of a string (`'İ'`).
- Text.ParseNat: refuses underscores between digits, and so does `Text.ParseInt`, which `int()` accepts (`"1_000"`). Non-ASCII digits are refused too.
- PyValue.ToFloat: refuses `"nan"`, `"inf"`, `"-inf"`, `"infinity"` and underscores between digits, which `float()` accepts. Floating point is not modelled, so an `undef nan` line fails to parse.
- GradsLines.RekiNameTimes: is the corrected file-name reading. The parser uses GradsLines.RekiNameTimesAsWritten, as the code reads names.
- GradsLines.LegacyNameTimes: is the corrected file-name reading. The parser uses GradsLines.LegacyNameTimesAsWritten, as the code reads names.
- GradsField.RekiLoadFieldFromFile: takes the forecast time as a duration. reki/format/grads/field.py:80-81 also accepts a string and converts it with `pd.to_timedelta`, which raises `ValueError` on text it cannot parse; that string path is not modelled.
- GradsData.Grid: refuses a negative `xdef` or `ydef` count. With `np.fromfile(..., count=x_count*y_count)` a negative count reads the whole rest of the file, and `reshape` accepts one `-1` dimension, so a descriptor with count -1 on one axis can still load there.
- GradsField.IndexedLevel: in the nwpc_data loader, a descriptor without a `zdef` line raises `AttributeError`; the message here is reki's `TypeError`. GradsData.CountOf reports `TypeError` the same way for a missing `xdef` or `ydef`. Only the message differs.

## Findings

| source | as written | input that shows it | evidently intended | confidence | as-written member | corrected member |
|---|---|---|---|---|---|---|
| reki/format/grads/grads_ctl.py:99-101 | a 15-digit MESO name's forecast hours are read from characters 11 to 13 | `post.ctl_<YYYYMMDDHH>02900` gives 290 h | characters 10 to 12, as nwpc_data reads them: 29 h | not executed | GradsLines.RekiMesoForecastShifted | GradsLines.RekiForecastReadsHours |
| reki/format/grads/grads_ctl.py:104-106 | a GFS name's forecast hours are read from character 12 on | `post.ctl_<YYYYMMDDHH>_120` gives 20 h | the three digits after `_`: 120 h | not executed | GradsLines.RekiGfsForecastTruncated | GradsLines.RekiForecastReadsHours |
| nwpc_data/format/grads/grads_ctl.py:90-92 | a GFS name's forecast hours are read from `ctl_file_name[21:24]` | `post.ctl_<YYYYMMDDHH>_120` gives 20 h | `ctl_file_name[20:23]`: 120 h | not executed | GradsLines.LegacyGfsForecastTruncated | GradsLines.LegacyForecastReadsHours |
| nwpc_data/format/grads/field.py:52-55 | `level_dim_name` is bound only for level types `pl` and `ml` or an explicit `level_dim` | the default level type with no `level_dim` raises `UnboundLocalError` when a record is found | the default dimension name `level`, as reki uses | not executed | GradsField.LegacyUnboundName | GradsField.LegacyDefaultName |
| nwpc_data/grib/eccodes/_util.py:62-68 | a list of levels is compared with the message's integer level by equality | a message on level 850 and the request [850, 500] do not match | membership of the message's level in the list | not executed | GribMatch.ListLevelNeverMatches | GribMatch.LegacyCheckLevelValue |
| reki/format/grib/eccodes/_xarray.py:308-313 | the pressure is the scaled value times ten to the scale factor | scale factor -2 and scaled value 850 give 8.5 Pa | the GRIB2 value, scaled value over ten to the scale factor: 85000 Pa | not executed | GribAttrs.SurfaceScaleInverted | GribAttrs.SurfaceValue |
| reki/format/grib/eccodes/_xarray.py:321-323 | the second surface type is appended to the level name with no separator | surfaces (10, 1) and (101, none) both give `level_101` | `level_10_1`, as the docstring at lines 294-296 says | not executed | GribAttrs.LevelNamesCollide | GribAttrs.LevelNameInjective |
| reki/format/table/__init__.py:127-134 | a record is written only when the next even line arrives, so the last record is never written | a body of exactly one pair of lines gives no row | one row per pair of lines, the last included | not executed | ObsTable.LastRecordLost | ObsTable.PairLines |
| reki/format/table/__init__.py:158-160 | the station's data is written into a buffer that already holds the header line, starting at position 0 | a station with count 0 gives one row made of its header line's fields | a buffer holding only the data lines, so no row for that station | not executed | ObsTable.EmptyStationReadsHeader | ObsTable.ReadStation |
