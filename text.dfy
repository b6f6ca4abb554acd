/** The pieces of Python's `str` behaviour the descriptor parser, the path
    templates and the label formatters rely on: `strip`, `split()`,
    `split(c)`, `join`, `lower` (ASCII), `startswith`, `find`, `int(...)`,
    `float(...)` on plain decimals and zero-padded integer formatting. */
module Text {
  import opened Wrappers

  /** Python's ASCII whitespace. */
  predicate IsSpace(c: char) {
    c == ' ' || c == '\t' || c == '\n' || c == '\r' || c == '\U{0B}' || c == '\U{0C}'
  }

  predicate NoSpace(s: string) {
    forall i :: 0 <= i < |s| ==> !IsSpace(s[i])
  }

  predicate IsDigit(c: char) { '0' <= c <= '9' }

  predicate AllDigits(s: string) {
    forall i :: 0 <= i < |s| ==> IsDigit(s[i])
  }

  predicate StartsWith(s: string, prefix: string) {
    |prefix| <= |s| && s[..|prefix|] == prefix
  }

  /** Position of the first `c` in `s`, if any. */
  function IndexOf(s: string, c: char): (r: Option<nat>)
    ensures r.None? <==> c !in s
    ensures r.Some? ==> r.value < |s| && s[r.value] == c && c !in s[..r.value]
  {
    if s == [] then None
    else if s[0] == c then Some(0)
    else match IndexOf(s[1..], c)
      case None => None
      case Some(i) =>
        assert s[1..][..i] == s[1..i + 1];
        Some(i + 1)
  }

  /** Python's `s.find(c)`: the first position, or -1. */
  function Find(s: string, c: char): (r: int)
    ensures r == -1 <==> c !in s
    ensures r != -1 ==> 0 <= r < |s| && s[r] == c && c !in s[..r]
  {
    match IndexOf(s, c)
    case None => -1
    case Some(i) => i
  }

  /** Python's `s[k:]` for `k >= 0`. */
  function Drop(s: string, k: nat): (r: string)
    ensures k <= |s| ==> r == s[k..]
    ensures k > |s| ==> r == []
  {
    if k <= |s| then s[k..] else []
  }

  /** Python's `s[:k]` for `k >= 0`. */
  function Take(s: string, k: nat): (r: string)
    ensures k <= |s| ==> r == s[..k]
    ensures k > |s| ==> r == s
  {
    if k <= |s| then s[..k] else s
  }

  /** `pathlib.Path(dir, rest)` rendered as a string: an absolute `rest`
      replaces `dir`, an empty one adds nothing, and `.` or an empty `dir`
      is dropped. */
  function JoinPath(dir: string, rest: string): (r: string)
    ensures StartsWith(rest, "/") ==> r == rest
    ensures !StartsWith(rest, "/") && rest != [] && dir != [] && dir != "." ==> r == dir + "/" + rest
  {
    if StartsWith(rest, "/") then rest
    else if rest == [] then dir
    else if dir == [] || dir == "." then rest
    else dir + "/" + rest
  }

  // ---------------------------------------------------------------- strip

  /** The end of the run of whitespace that starts at `i`. */
  function SpacesFrom(s: string, i: nat): (n: nat)
    requires i <= |s|
    ensures i <= n <= |s|
    ensures n < |s| ==> !IsSpace(s[n])
    decreases |s| - i
  {
    if i < |s| && IsSpace(s[i]) then SpacesFrom(s, i + 1) else i
  }

  lemma {:induction false} SpacesFromCons(x: char, s: string, i: nat)
    requires i <= |s|
    ensures SpacesFrom([x] + s, i + 1) == SpacesFrom(s, i) + 1
    decreases |s| - i
  {
    assert ([x] + s)[i + 1..] == s[i..];
    if i < |s| {
      assert ([x] + s)[i + 1] == s[i];
      if IsSpace(s[i]) {
        SpacesFromCons(x, s, i + 1);
      }
    }
  }

  /** Every character before the end of the run is whitespace. */
  lemma {:induction false} SpacesFromAll(s: string, i: nat)
    requires i <= |s|
    ensures forall k :: i <= k < SpacesFrom(s, i) ==> IsSpace(s[k])
    decreases |s| - i
  {
    if i < |s| && IsSpace(s[i]) {
      SpacesFromAll(s, i + 1);
    }
  }

  function StripLeft(s: string): (r: string)
    ensures |r| <= |s| && r == s[|s| - |r|..]
    ensures r == [] || !IsSpace(r[0])
  {
    s[SpacesFrom(s, 0)..]
  }

  /** Only whitespace is cut in front. */
  lemma StripLeftCutsSpace(s: string)
    ensures forall k :: 0 <= k < |s| - |StripLeft(s)| ==> IsSpace(s[k])
  {
    SpacesFromAll(s, 0);
  }

  /** Whitespace in front of a string is dropped with the rest of the
      leading whitespace. */
  lemma StripLeftSpace(x: char, s: string)
    requires IsSpace(x)
    ensures StripLeft([x] + s) == StripLeft(s)
  {
    SpacesFromCons(x, s, 0);
    assert SpacesFrom([x] + s, 0) == SpacesFrom([x] + s, 1);
  }

  function StripRight(s: string): (r: string)
    ensures |r| <= |s| && r == s[..|r|]
    ensures r == [] || !IsSpace(r[|r| - 1])
    ensures forall k :: |r| <= k < |s| ==> IsSpace(s[k])
  {
    if s != [] && IsSpace(s[|s| - 1]) then StripRight(s[..|s| - 1]) else s
  }

  /** Python's `s.strip()`: the longest slice of `s` that neither starts nor
      ends with whitespace, with only whitespace cut on either side. */
  function Strip(s: string): (r: string)
    ensures r == [] || (!IsSpace(r[0]) && !IsSpace(r[|r| - 1]))
    ensures |r| <= |s|
    ensures NoSpace(s) ==> r == s
    ensures exists i ::
      && 0 <= i <= |s| - |r| && r == s[i..][..|r|]
      && (forall k :: 0 <= k < i || i + |r| <= k < |s| ==> IsSpace(s[k]))
  {
    var left := StripLeft(s);
    StripLeftCutsSpace(s);
    var r := StripRight(left);
    var i := |s| - |left|;
    assert r == s[i..][..|r|];
    r
  }

  lemma {:induction false} StripNoSpace(s: string)
    requires s == [] || (!IsSpace(s[0]) && !IsSpace(s[|s| - 1]))
    ensures Strip(s) == s
  {
  }

  // ---------------------------------------------------------------- split()

  /** Length of the leading run of non-whitespace characters. */
  function WordLength(s: string): (n: nat)
    ensures n <= |s|
    ensures NoSpace(s[..n])
    ensures n < |s| ==> IsSpace(s[n])
  {
    if s == [] || IsSpace(s[0]) then 0
    else
      var n := WordLength(s[1..]);
      assert s[..n + 1] == [s[0]] + s[1..][..n];
      n + 1
  }

  /** Python's `s.split()`: the maximal runs of non-whitespace, in order. */
  function SplitWs(s: string): (r: seq<string>)
    ensures Words(r)
    decreases |s|
  {
    var t := StripLeft(s);
    if t == [] then []
    else
      var n := WordLength(t);
      assert n != 0 by { assert !IsSpace(t[0]); }
      var rest := SplitWs(t[n..]);
      WordsCons(t[..n], rest);
      [t[..n]] + rest
  }

  /** Python's `sep.join(parts)`. */
  function Join(parts: seq<string>, sep: string): (r: string)
  {
    if parts == [] then ""
    else if |parts| == 1 then parts[0]
    else parts[0] + sep + Join(parts[1..], sep)
  }

  lemma {:induction false} SplitWsWord(w: string, rest: string)
    requires w != [] && NoSpace(w)
    requires rest == [] || IsSpace(rest[0])
    ensures SplitWs(w + rest) == [w] + SplitWs(rest)
  {
    var s := w + rest;
    assert StripLeft(s) == s;
    WordLengthOf(w, rest);
    assert s[..|w|] == w;
    assert s[|w|..] == rest;
  }

  lemma {:induction false} WordLengthOf(w: string, rest: string)
    requires NoSpace(w)
    requires rest == [] || IsSpace(rest[0])
    ensures WordLength(w + rest) == |w|
    decreases |w|
  {
    if w != [] {
      assert (w + rest)[1..] == w[1..] + rest;
      WordLengthOf(w[1..], rest);
    }
  }

  lemma {:induction false} SplitWsWordSpace(w: string, rest: string)
    requires w != [] && NoSpace(w)
    ensures SplitWs(w + " " + rest) == [w] + SplitWs(rest)
  {
    assert w + " " + rest == w + (" " + rest);
    SplitWsWord(w, " " + rest);
    SplitWsSpace(rest);
  }

  /** Non-empty, whitespace-free strings: what `split()` returns. */
  predicate Words(ws: seq<string>) {
    forall k :: 0 <= k < |ws| ==> ws[k] != [] && NoSpace(ws[k])
  }

  lemma WordsCons(w: string, ws: seq<string>)
    requires w != [] && NoSpace(w) && Words(ws)
    ensures Words([w] + ws)
  {
    assert forall k :: 0 < k <= |ws| ==> ([w] + ws)[k] == ws[k - 1];
  }

  lemma WordsTail(ws: seq<string>)
    requires Words(ws) && ws != []
    ensures ws[0] != [] && NoSpace(ws[0]) && Words(ws[1..])
    ensures ws == [ws[0]] + ws[1..]
  {
  }

  /** Splitting a single-space join of words gives the words back; this is
      what makes `" ".join(parts[3:])` recoverable. */
  lemma {:induction false} SplitJoinWords(words: seq<string>)
    requires Words(words)
    ensures SplitWs(Join(words, " ")) == words
  {
    if words != [] {
      WordsTail(words);
      var w, tail := words[0], words[1..];
      if tail == [] {
        SplitWsWord(w, "");
        assert w + "" == w;
      } else {
        SplitJoinWords(tail);
        SplitWsWordSpace(w, Join(tail, " "));
      }
    }
  }

  lemma {:induction false} SplitWsSpace(rest: string)
    ensures SplitWs(" " + rest) == SplitWs(rest)
  {
    StripLeftSpace(' ', rest);
  }

  /** Leading whitespace of any kind does not change `split()`. */
  lemma SplitWsLeadingSpace(c: char, rest: string)
    requires IsSpace(c)
    ensures SplitWs([c] + rest) == SplitWs(rest)
  {
    StripLeftSpace(c, rest);
  }

  /** A string of whitespace splits into nothing. */
  lemma SplitWsBlank(s: string)
    requires forall k :: 0 <= k < |s| ==> IsSpace(s[k])
    ensures SplitWs(s) == []
  {
    SpacesFromAllBlank(s, 0);
  }

  lemma {:induction false} SpacesFromAllBlank(s: string, i: nat)
    requires i <= |s|
    requires forall k :: 0 <= k < |s| ==> IsSpace(s[k])
    ensures SpacesFrom(s, i) == |s|
    decreases |s| - i
  {
    if i < |s| {
      SpacesFromAllBlank(s, i + 1);
    }
  }

  /** `split()` of two strings that whitespace separates is the split of
      each, one after the other. */
  lemma {:induction false} SplitWsAppend(x: string, y: string)
    requires x == [] || y == [] || IsSpace(x[|x| - 1]) || IsSpace(y[0])
    ensures SplitWs(x + y) == SplitWs(x) + SplitWs(y)
    decreases |x|, 1
  {
    if x == [] {
      assert x + y == y;
    } else if IsSpace(x[0]) {
      assert x + y == [x[0]] + (x[1..] + y);
      assert x == [x[0]] + x[1..];
      SplitWsLeadingSpace(x[0], x[1..] + y);
      SplitWsLeadingSpace(x[0], x[1..]);
      SplitWsAppend(x[1..], y);
    } else {
      SplitWsAppendWord(x, y);
    }
  }

  lemma {:induction false} SplitWsAppendWord(x: string, y: string)
    requires x != [] && !IsSpace(x[0])
    requires y == [] || IsSpace(x[|x| - 1]) || IsSpace(y[0])
    ensures SplitWs(x + y) == SplitWs(x) + SplitWs(y)
    decreases |x|, 0
  {
    var n := WordLength(x);
    var w, tail := x[..n], x[n..];
    assert x == w + tail;
    if tail == [] {
      assert w == x;
      SplitWsWordAlone(x, y);
    } else {
      assert n > 0 && IsSpace(tail[0]) && tail[|tail| - 1] == x[|x| - 1];
      SplitWsAppend(tail, y);
      SplitWsWordThen(w, tail, y);
      assert x + y == w + tail + y;
    }
  }

  lemma SplitWsWordThen(w: string, tail: string, y: string)
    requires w != [] && NoSpace(w) && tail != [] && IsSpace(tail[0])
    requires SplitWs(tail + y) == SplitWs(tail) + SplitWs(y)
    ensures SplitWs(w + tail + y) == SplitWs(w + tail) + SplitWs(y)
  {
    var ty, wt := tail + y, w + tail;
    assert wt + y == w + ty;
    assert SplitWs(w + ty) == [w] + SplitWs(ty) by {
      SplitWsWord(w, ty);
    }
    assert SplitWs(wt) == [w] + SplitWs(tail) by {
      SplitWsWord(w, tail);
    }
    ConsAppend([w], SplitWs(tail), SplitWs(y));
  }

  lemma ConsAppend<T>(a: seq<T>, b: seq<T>, c: seq<T>)
    ensures a + (b + c) == (a + b) + c
  {
  }

  lemma SplitWsWordAlone(x: string, y: string)
    requires x != [] && NoSpace(x)
    requires y == [] || IsSpace(y[0])
    ensures SplitWs(x + y) == SplitWs(x) + SplitWs(y)
  {
    assert SplitWs(x) == [x] by {
      SplitWsWord(x, "");
      assert x + "" == x;
      assert SplitWs("") == [];
    }
    SplitWsWord(x, y);
  }

  /** Surrounding whitespace does not change `split()`. */
  lemma SplitWsStrip(s: string)
    ensures SplitWs(Strip(s)) == SplitWs(s)
  {
    var t := StripLeft(s);
    assert StripLeft(t) == t by {
      if t != [] {
        assert !IsSpace(t[0]);
      }
    }
    SplitWsStripRight(t);
  }

  lemma {:induction false} SplitWsStripRight(s: string)
    ensures SplitWs(StripRight(s)) == SplitWs(s)
    decreases |s|
  {
    if s != [] && IsSpace(s[|s| - 1]) {
      var init, c := s[..|s| - 1], s[|s| - 1];
      assert s == init + [c];
      SplitWsStripRight(init);
      SplitWsAppend(init, [c]);
      SplitWsBlank([c]);
    }
  }

  /** `strip()` returns a slice of its argument, so it adds no character. */
  lemma StripInside(s: string, c: char)
    requires c !in s
    ensures c !in Strip(s)
  {
    var l := StripLeft(s);
    assert l == s[|s| - |l|..];
    assert StripRight(l) == l[..|StripRight(l)|];
  }

  // ---------------------------------------------------------------- split(c)

  /** Python's `s.split(c)`: the pieces between occurrences of `c`. */
  function SplitOn(s: string, c: char): (r: seq<string>)
    ensures |r| >= 1
    ensures forall k :: 0 <= k < |r| ==> c !in r[k]
    decreases |s|
  {
    match IndexOf(s, c)
    case None => [s]
    case Some(i) => [s[..i]] + SplitOn(s[i + 1..], c)
  }

  /** Joining the pieces with the separator restores the string. */
  lemma {:induction false} JoinSplitOn(s: string, c: char)
    ensures Join(SplitOn(s, c), [c]) == s
    decreases |s|
  {
    match IndexOf(s, c)
    case None =>
    case Some(i) =>
      var rest := SplitOn(s[i + 1..], c);
      var parts := [s[..i]] + rest;
      assert SplitOn(s, c) == parts;
      assert parts[0] == s[..i] && parts[1..] == rest && |parts| > 1;
      assert Join(parts, [c]) == s[..i] + [c] + Join(rest, [c]);
      JoinSplitOn(s[i + 1..], c);
      assert s == s[..i] + [c] + s[i + 1..];
  }

  /** The first `c` in `w + [c] + rest` is the one after `w` when `w` holds
      none. */
  lemma IndexOfAfter(w: string, c: char, rest: string)
    requires c !in w
    ensures IndexOf(w + [c] + rest, c) == Some(|w|)
  {
    var s := w + [c] + rest;
    assert s[|w|] == c;
    assert s[..|w|] == w;
  }

  /** Splitting a join on a separator that no piece contains gives the
      pieces back. */
  lemma {:induction false} SplitOnJoin(parts: seq<string>, c: char)
    requires |parts| >= 1
    requires forall k :: 0 <= k < |parts| ==> c !in parts[k]
    ensures SplitOn(Join(parts, [c]), c) == parts
    decreases |parts|
  {
    if |parts| > 1 {
      var w, tail := parts[0], parts[1..];
      var rest := Join(tail, [c]);
      assert Join(parts, [c]) == w + [c] + rest;
      SplitOnStep(w, c, rest);
      assert forall k :: 0 <= k < |tail| ==> tail[k] == parts[k + 1];
      SplitOnJoin(tail, c);
      assert parts == [w] + tail;
    } else {
      assert Join(parts, [c]) == parts[0];
    }
  }

  /** The first piece ends at the first separator. */
  lemma SplitOnStep(w: string, c: char, rest: string)
    requires c !in w
    ensures SplitOn(w + [c] + rest, c) == [w] + SplitOn(rest, c)
  {
    IndexOfAfter(w, c, rest);
    assert (w + [c] + rest)[..|w|] == w;
    assert (w + [c] + rest)[|w| + 1..] == rest;
  }

  /** A single-space join of words neither starts nor ends with whitespace,
      so `strip` leaves it alone. */
  lemma {:induction false} JoinWordsStrip(words: seq<string>)
    requires Words(words)
    ensures Strip(Join(words, " ")) == Join(words, " ")
  {
    var s := Join(words, " ");
    if words != [] {
      JoinWordsEnds(words);
    }
    StripNoSpace(s);
  }

  lemma {:induction false} JoinWordsEnds(words: seq<string>)
    requires Words(words) && words != []
    ensures var s := Join(words, " ");
      s != [] && s[0] == words[0][0] && s[|s| - 1] == words[|words| - 1][|words[|words| - 1]| - 1]
    decreases |words|
  {
    WordsTail(words);
    if |words| > 1 {
      var tail := words[1..];
      JoinWordsEnds(tail);
      assert words[|words| - 1] == tail[|tail| - 1];
    }
  }

  // ---------------------------------------------------------------- lower

  function LowerChar(c: char): char {
    if 'A' <= c <= 'Z' then ((c as int) + 32) as char else c
  }

  /** Python's `s.lower()` restricted to ASCII letters. */
  function Lower(s: string): (r: string)
    ensures |r| == |s|
    ensures forall i :: 0 <= i < |s| ==> r[i] == LowerChar(s[i])
  {
    seq(|s|, i requires 0 <= i < |s| => LowerChar(s[i]))
  }

  predicate NoUpper(s: string) {
    forall i :: 0 <= i < |s| ==> !('A' <= s[i] <= 'Z')
  }

  /** Lower-casing text without capitals changes nothing. */
  lemma LowerNoUpper(s: string)
    requires NoUpper(s)
    ensures Lower(s) == s
  {
  }

  lemma LowerAppend(a: string, b: string)
    ensures Lower(a + b) == Lower(a) + Lower(b)
  {
  }

  lemma DigitsSlice(s: string, i: nat, j: nat)
    requires AllDigits(s) && i <= j <= |s|
    ensures AllDigits(s[i..j])
  {
  }

  lemma NoUpperAppend(a: string, b: string)
    requires NoUpper(a) && NoUpper(b)
    ensures NoUpper(a + b)
  {
    assert forall i :: 0 <= i < |a| ==> (a + b)[i] == a[i];
    assert forall i :: |a| <= i < |a| + |b| ==> (a + b)[i] == b[i - |a|];
  }

  lemma DigitsNoUpper(s: string)
    requires AllDigits(s)
    ensures NoUpper(s)
  {
  }

  // ---------------------------------------------------------------- numbers

  function DigitValue(c: char): (d: nat)
    requires IsDigit(c)
    ensures d < 10
  {
    (c as int) - ('0' as int)
  }

  function DigitChar(d: nat): (c: char)
    requires d < 10
    ensures IsDigit(c) && DigitValue(c) == d
  {
    (('0' as int) + d) as char
  }

  /** The value of a string of decimal digits, most significant first. */
  function DigitsValue(s: string): nat
    requires AllDigits(s)
  {
    if s == [] then 0 else DigitsValue(s[..|s| - 1]) * 10 + DigitValue(s[|s| - 1])
  }

  function ParseNat(s: string): (r: Option<nat>)
    ensures r.Some? <==> s != [] && AllDigits(s)
  {
    if s != [] && AllDigits(s) then Some(DigitsValue(s)) else None
  }

  /** Python's `int(s)`: surrounding whitespace, an optional sign, then at
      least one decimal digit. */
  function ParseInt(s: string): Option<int> {
    var t := Strip(s);
    if t != [] && (t[0] == '-' || t[0] == '+') then
      match ParseNat(t[1..])
      case None => None
      case Some(n) =>
        var v: int := if t[0] == '-' then 0 - n else n;
        Some(v)
    else
      match ParseNat(t)
      case None => None
      case Some(n) => Some(n)
  }

  /** Decimal digits of `n` without leading zeros. */
  function NatToStr(n: nat): (r: string)
    ensures r != [] && AllDigits(r)
    ensures |r| == 1 ==> n < 10
  {
    if n < 10 then [DigitChar(n)] else NatToStr(n / 10) + [DigitChar(n % 10)]
  }

  lemma {:induction false} NatToStrValue(n: nat)
    ensures DigitsValue(NatToStr(n)) == n
  {
    if n >= 10 {
      var s := NatToStr(n);
      assert s[..|s| - 1] == NatToStr(n / 10);
      NatToStrValue(n / 10);
    }
  }

  /** A number below 10^k has at most k digits. */
  lemma {:induction false} NatToStrBound(n: nat, k: nat)
    requires 1 <= k && n < Pow10(k)
    ensures |NatToStr(n)| <= k
  {
    if n >= 10 {
      assert Pow10(1) == 10;
      assert n / 10 < Pow10(k - 1);
      NatToStrBound(n / 10, k - 1);
    }
  }

  function Zeros(k: nat): (r: string)
    ensures |r| == k && AllDigits(r)
    ensures forall i :: 0 <= i < k ==> r[i] == '0'
  {
    if k == 0 then "" else Zeros(k - 1) + "0"
  }

  /** `f"{n:0{width}d}"` for a non-negative `n`. */
  function ZeroPad(n: nat, width: int): (r: string)
    ensures AllDigits(r) && r != []
    ensures |r| == if width > |NatToStr(n)| then width else |NatToStr(n)|
  {
    var s := NatToStr(n);
    (if width > |s| then Zeros(width - |s|) else "") + s
  }

  lemma {:induction false} LeadingZerosValue(k: nat, s: string)
    requires AllDigits(s)
    ensures AllDigits(Zeros(k) + s) && DigitsValue(Zeros(k) + s) == DigitsValue(s)
    decreases |s|
  {
    if s == [] {
      ZerosValue(k);
      assert Zeros(k) + s == Zeros(k);
    } else {
      var t := Zeros(k) + s;
      assert t[..|t| - 1] == Zeros(k) + s[..|s| - 1];
      LeadingZerosValue(k, s[..|s| - 1]);
    }
  }

  lemma {:induction false} ZerosValue(k: nat)
    ensures DigitsValue(Zeros(k)) == 0
  {
    if k > 0 {
      assert Zeros(k)[..k - 1] == Zeros(k - 1);
      ZerosValue(k - 1);
    }
  }

  /** Zero padding never changes the number the digits denote. */
  lemma ZeroPadValue(n: nat, width: int)
    ensures DigitsValue(ZeroPad(n, width)) == n
    ensures ParseNat(ZeroPad(n, width)) == Some(n)
  {
    var s := NatToStr(n);
    NatToStrValue(n);
    if width > |s| {
      LeadingZerosValue(width - |s|, s);
    } else {
      assert ZeroPad(n, width) == s;
    }
  }

  /** `f"{n:0{width}d}"` for any integer: the sign counts towards the width. */
  function FormatInt(n: int, width: int): (r: string)
    ensures r != []
  {
    if n < 0 then "-" + ZeroPad(-n, width - 1) else ZeroPad(n, width)
  }

  /** `f"{n}"` / `str(n)`. */
  function IntToStr(n: int): string {
    FormatInt(n, 0)
  }

  lemma {:induction false} DigitsHaveNoDot(d: string)
    requires AllDigits(d)
    ensures '.' !in d
  {
  }

  /** `int(s)` of a minus sign followed by digits. */
  lemma {:induction false} NegativeDigitsParse(r: string, m: nat)
    requires |r| >= 2 && r[0] == '-' && AllDigits(r[1..]) && DigitsValue(r[1..]) == m
    ensures ParseInt(r) == Some(0 - m)
  {
    assert r[1..][|r| - 2] == r[|r| - 1];
    StripNoSpace(r);
  }

  /** `int(s)` of plain digits. */
  lemma {:induction false} DigitsParse(d: string)
    requires d != [] && AllDigits(d)
    ensures ParseInt(d) == Some(DigitsValue(d) as int)
  {
    assert IsDigit(d[0]) && IsDigit(d[|d| - 1]);
    StripNoSpace(d);
  }

  /** Padded labels read back as the number they were made from. */
  lemma {:induction false} FormatIntParses(n: int, width: int)
    ensures ParseInt(FormatInt(n, width)) == Some(n)
  {
    if n < 0 {
      var d := ZeroPad(-n, width - 1);
      ZeroPadValue(-n, width - 1);
      var r := "-" + d;
      assert r[1..] == d;
      NegativeDigitsParse(r, -n);
      assert FormatInt(n, width) == r;
    } else {
      ZeroPadValue(n, width);
      DigitsParse(ZeroPad(n, width));
      assert FormatInt(n, width) == ZeroPad(n, width);
    }
  }

  function Pow10(k: nat): (p: nat)
    ensures p >= 1
  {
    if k == 0 then 1 else 10 * Pow10(k - 1)
  }

  /** Python's `float(t)` for an unsigned plain decimal: `D+`, `D+.`, `D+.D+`
      or `.D+`. */
  function ParseUnsignedDecimal(t: string): Option<real> {
    match IndexOf(t, '.')
    case None =>
      (match ParseNat(t)
       case None => None
       case Some(n) => Some(n as real))
    case Some(i) =>
      var whole := t[..i];
      var frac := t[i + 1..];
      if (whole != [] || frac != []) && AllDigits(whole) && AllDigits(frac) then
        Some(DigitsValue(whole) as real + (DigitsValue(frac) as real) / (Pow10(|frac|) as real))
      else None
  }

  /** `x * 10^e` for an integer exponent, exactly. */
  function ScaleBy10(x: real, e: int): real {
    if e >= 0 then x * (Pow10(e) as real) else x / (Pow10(-e) as real)
  }

  /** An exponent: an optional sign and at least one digit, no spaces. */
  function ParseExponent(s: string): (r: Option<int>)
    ensures r.Some? ==> s != []
  {
    if s != [] && (s[0] == '-' || s[0] == '+') then
      match ParseNat(s[1..])
      case None => None
      case Some(n) => Some(if s[0] == '-' then 0 - n else n)
    else
      match ParseNat(s)
      case None => None
      case Some(n) => Some(n)
  }

  /** The first `e` or `E` in `t` at or after `i`: where `float()` looks
      for an exponent. */
  function ExponentMark(t: string, i: nat): (r: Option<nat>)
    requires i <= |t|
    ensures r.Some? ==> i <= r.value < |t| && LowerChar(t[r.value]) == 'e'
    decreases |t| - i
  {
    if i == |t| then None
    else if t[i] == 'e' || t[i] == 'E' then Some(i)
    else ExponentMark(t, i + 1)
  }

  /** An unsigned decimal with an optional `e`/`E` exponent. */
  function ParseUnsignedFloat(t: string): Option<real> {
    match ExponentMark(t, 0)
    case None => ParseUnsignedDecimal(t)
    case Some(i) =>
      match ParseUnsignedDecimal(t[..i])
      case None => None
      case Some(m) =>
        match ParseExponent(t[i + 1..])
        case None => None
        case Some(e) => Some(ScaleBy10(m, e))
  }

  /** Python's `float(s)` on a signed decimal, optionally with an exponent,
      with surrounding whitespace. */
  function ParseDecimal(s: string): Option<real> {
    var t := Strip(s);
    if t != [] && (t[0] == '-' || t[0] == '+') then
      match ParseUnsignedFloat(t[1..])
      case None => None
      case Some(x) => Some(if t[0] == '-' then -x else x)
    else ParseUnsignedFloat(t)
  }

  lemma {:induction false} DigitsHaveNoE(d: string, i: nat)
    requires AllDigits(d) && i <= |d|
    ensures ExponentMark(d, i).None?
    decreases |d| - i
  {
    if i < |d| {
      DigitsHaveNoE(d, i + 1);
    }
  }

  lemma {:induction false} ParseUnsignedOfDigits(d: string)
    requires d != [] && AllDigits(d)
    ensures ParseUnsignedFloat(d) == Some(DigitsValue(d) as real)
  {
    DigitsHaveNoDot(d);
    DigitsHaveNoE(d, 0);
  }

  /** `float(s)` of plain digits. */
  lemma {:induction false} DigitsDecimal(d: string)
    requires d != [] && AllDigits(d)
    ensures ParseDecimal(d) == Some(DigitsValue(d) as real)
  {
    assert IsDigit(d[0]) && IsDigit(d[|d| - 1]);
    StripNoSpace(d);
    ParseUnsignedOfDigits(d);
  }
}
