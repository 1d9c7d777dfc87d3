/** The few Python built-ins the core relies on, on `string` = `seq<char>`:
    `str.strip`, `str.find`, `"sep".join`, negative-start slicing and `int(str)`. */
module PyBuiltins {

  datatype Option<+T> = None | Some(value: T)

  /** Characters for which Python's `str.isspace` holds. */
  predicate IsSpace(c: char)
  {
    c == ' ' || ('\t' <= c <= '\r') || ('\U{1c}' <= c <= '\U{1f}') || c == '\U{85}' || c == '\U{a0}'
    || c == '\U{1680}' || ('\U{2000}' <= c <= '\U{200a}') || c == '\U{2028}' || c == '\U{2029}'
    || c == '\U{202f}' || c == '\U{205f}' || c == '\U{3000}'
  }

  predicate AllSpace(s: string)
  {
    forall i :: 0 <= i < |s| ==> IsSpace(s[i])
  }

  function StripLeading(s: string): (r: string)
    ensures |r| <= |s| && r == s[|s| - |r|..]
    ensures AllSpace(s[..|s| - |r|])
    ensures r == "" || !IsSpace(r[0])
  {
    if |s| > 0 && IsSpace(s[0]) then
      var r := StripLeading(s[1..]);
      assert s[..|s| - |r|] == [s[0]] + s[1..][..|s| - 1 - |r|];
      r
    else s
  }

  function StripTrailing(s: string): (r: string)
    ensures |r| <= |s| && r == s[..|r|]
    ensures AllSpace(s[|r|..])
    ensures r == "" || !IsSpace(r[|r| - 1])
  {
    if |s| > 0 && IsSpace(s[|s| - 1]) then
      var r := StripTrailing(s[..|s| - 1]);
      assert s[|r|..] == s[..|s| - 1][|r|..] + [s[|s| - 1]];
      r
    else s
  }

  /** Python's `s.strip()`: the part of `s` between its leading and trailing whitespace. */
  function Strip(s: string): (r: string)
    ensures r == "" <==> AllSpace(s)
    ensures r != "" ==> !IsSpace(r[0]) && !IsSpace(r[|r| - 1])
    ensures |r| <= |s|
  {
    var l := StripLeading(s);
    var r := StripTrailing(l);
    if r == "" then
      assert s[..|s| - |l|] == s;
      r
    else
      assert r[0] == l[0] == s[|s| - |l|];
      r
  }

  /** A string whose ends are not whitespace is its own strip. */
  lemma {:induction false} StripOfTrimmed(s: string)
    requires s != "" ==> !IsSpace(s[0]) && !IsSpace(s[|s| - 1])
    ensures Strip(s) == s
  {
    assert StripLeading(s) == s;
    assert StripTrailing(s) == s;
  }

  /** `strip` is idempotent. */
  lemma StripIdempotent(s: string)
    ensures Strip(Strip(s)) == Strip(s)
  {
    StripOfTrimmed(Strip(s));
  }

  /** Python's `s.find(c, i)` for a one-character needle: the first index at or after `i` that
      holds `c`, or -1 (the "first" part is `FindFromIsFirst`). */
  function FindFrom(s: string, c: char, i: nat): (r: int)
    requires i <= |s|
    ensures r == -1 || (i <= r < |s| && s[r] == c)
    decreases |s| - i
  {
    if i == |s| then -1 else if s[i] == c then i else FindFrom(s, c, i + 1)
  }

  /** No index between `i` and the result holds `c`; with -1, none at all from `i` on. */
  lemma {:induction false} FindFromIsFirst(s: string, c: char, i: nat)
    requires i <= |s|
    ensures var r := FindFrom(s, c, i);
            forall j :: i <= j < (if r == -1 then |s| else r) ==> s[j] != c
    decreases |s| - i
  {
    if i < |s| && s[i] != c {
      FindFromIsFirst(s, c, i + 1);
    }
  }

  /** `c` first occurs at or after `i` at `k`: what `s.find(c, i)` returns then. */
  lemma {:induction false} FindFromAt(s: string, c: char, i: nat, k: nat)
    requires i <= k < |s| && s[k] == c
    requires forall j :: i <= j < k ==> s[j] != c
    ensures FindFrom(s, c, i) == k
    decreases k - i
  {
    if i < k {
      FindFromAt(s, c, i + 1, k);
    }
  }

  /** No `c` at or after `i`: `s.find(c, i)` is -1. */
  lemma {:induction false} FindFromNone(s: string, c: char, i: nat)
    requires i <= |s|
    requires forall j :: i <= j < |s| ==> s[j] != c
    ensures FindFrom(s, c, i) == -1
    decreases |s| - i
  {
    if i < |s| {
      FindFromNone(s, c, i + 1);
    }
  }

  /** Python's `s.find(c)`. */
  function Find(s: string, c: char): (r: int)
    ensures -1 <= r < |s|
    ensures r == -1 <==> c !in s
    ensures r >= 0 ==> s[r] == c
  {
    FindFromIsFirst(s, c, 0);
    FindFrom(s, c, 0)
  }

  /** `s.find(c)` on the suffix `s[i:]` is `s.find(c, i)` shifted by `i`. */
  lemma FindInSuffix(s: string, c: char, i: nat)
    requires i <= |s|
    ensures var f := FindFrom(s, c, i);
            Find(s[i..], c) == if f == -1 then -1 else f - i
  {
    var f := FindFrom(s, c, i);
    var t := s[i..];
    FindFromIsFirst(s, c, i);
    if f == -1 {
      FindFromNone(t, c, 0);
    } else {
      FindFromAt(t, c, 0, f - i);
    }
  }

  /** `"\n".join(chunks)`. */
  function JoinLines(chunks: seq<string>): string
  {
    if |chunks| == 0 then ""
    else if |chunks| == 1 then chunks[0]
    else chunks[0] + "\n" + JoinLines(chunks[1..])
  }

  /** Each chunk followed by one newline: an independent reading of a transcript. */
  function Terminated(chunks: seq<string>): string
  {
    if chunks == [] then "" else chunks[0] + "\n" + Terminated(chunks[1..])
  }

  /** `"\n".join(chunks) + ("\n" if chunks else "")` puts exactly one newline after each chunk. */
  lemma {:induction false} JoinThenNewline(chunks: seq<string>)
    ensures JoinLines(chunks) + (if chunks == [] then "" else "\n") == Terminated(chunks)
  {
    if |chunks| > 1 {
      JoinThenNewline(chunks[1..]);
      assert chunks[1..] != [];
    } else if |chunks| == 1 {
      assert chunks[1..] == [];
    }
  }

  lemma {:induction false} TerminatedEndsInNewline(chunks: seq<string>)
    ensures var t := Terminated(chunks); (|t| > 0 && t[|t| - 1] == '\n') <==> chunks != []
  {
    if chunks != [] {
      var rest := Terminated(chunks[1..]);
      TerminatedEndsInNewline(chunks[1..]);
      assert Terminated(chunks) == chunks[0] + "\n" + rest;
    }
  }

  /** Python's `s[start:]` for an integer `start` that may be negative. */
  function SliceFrom<T>(s: seq<T>, start: int): (r: seq<T>)
    ensures start >= 0 ==> r == s[if start <= |s| then start else |s|..]
    ensures start < 0 ==> r == s[if -start <= |s| then |s| + start else 0..]
  {
    var lo := if start >= 0 then (if start <= |s| then start else |s|)
              else (if -start <= |s| then |s| + start else 0);
    s[lo..]
  }

  // ----- int(str) and its inverse -----

  predicate IsAsciiDigit(c: char)
  {
    '0' <= c <= '9'
  }

  /** The digit part accepted by Python's `int()`: digits, with single underscores between digits. */
  predicate WellFormedDigits(s: string)
  {
    |s| > 0 && DigitsOrUnderscores(s) &&
    forall i :: 0 <= i < |s| && s[i] == '_' ==> 0 < i && i + 1 < |s| && IsAsciiDigit(s[i + 1])
  }

  predicate DigitsOrUnderscores(s: string)
  {
    forall i :: 0 <= i < |s| ==> IsAsciiDigit(s[i]) || s[i] == '_'
  }

  /** The value of a digit string, underscores skipped. */
  function DigitsValue(s: string): nat
    requires DigitsOrUnderscores(s)
  {
    if s == [] then 0
    else
      var last := s[|s| - 1];
      assert IsAsciiDigit(last) || last == '_';
      if last == '_' then DigitsValue(s[..|s| - 1])
      else 10 * DigitsValue(s[..|s| - 1]) + (last as int - '0' as int)
  }

  /** Python's `int(s)` on text: surrounding whitespace, an optional sign, then digits. `None` is the
      `ValueError` case. */
  function ParseInt(s: string): Option<int>
  {
    ParseStripped(Strip(s))
  }

  /** `int` on text already stripped of its surrounding whitespace. */
  function ParseStripped(t: string): Option<int>
  {
    if |t| > 0 && (t[0] == '-' || t[0] == '+') then
      var body := t[1..];
      var v: int := if WellFormedDigits(body) then DigitsValue(body) else 0;
      if WellFormedDigits(body) then Some(if t[0] == '-' then -v else v)
      else None
    else if WellFormedDigits(t) then Some(DigitsValue(t))
    else None
  }

  function DecimalDigits(n: nat): (r: string)
    ensures |r| > 0 && forall i :: 0 <= i < |r| ==> IsAsciiDigit(r[i])
  {
    if n < 10 then [('0' as int + n) as char]
    else DecimalDigits(n / 10) + [('0' as int + n % 10) as char]
  }

  /** Python's `str(n)`. */
  function Show(n: int): string
  {
    if n < 0 then "-" + DecimalDigits(-n) else DecimalDigits(n)
  }

  lemma {:induction false} DecimalDigitsValue(n: nat)
    ensures DigitsValue(DecimalDigits(n)) == n
  {
    if n >= 10 {
      var r := DecimalDigits(n);
      assert r[..|r| - 1] == DecimalDigits(n / 10);
      DecimalDigitsValue(n / 10);
    }
  }

  lemma AllDigitsWellFormed(d: string)
    requires |d| > 0 && forall i :: 0 <= i < |d| ==> IsAsciiDigit(d[i])
    ensures WellFormedDigits(d) && ParseStripped(d) == Some(DigitsValue(d))
  {
  }

  lemma ParseNegative(d: string)
    requires |d| > 0 && forall i :: 0 <= i < |d| ==> IsAsciiDigit(d[i])
    ensures ParseStripped("-" + d) == Some(-(DigitsValue(d) as int))
  {
    assert ("-" + d)[1..] == d;
    AllDigitsWellFormed(d);
  }

  /** `str(n)` has no whitespace at either end. */
  lemma ShowIsTrimmed(n: int)
    ensures var s := Show(n); s != "" && !IsSpace(s[0]) && !IsSpace(s[|s| - 1])
  {
    var d := DecimalDigits(if n < 0 then -n else n);
    assert IsAsciiDigit(d[0]) && IsAsciiDigit(d[|d| - 1]);
  }

  /** `int(str(n)) == n`. */
  lemma ParseShow(n: int)
    ensures ParseInt(Show(n)) == Some(n)
  {
    var m: nat := if n < 0 then -n else n;
    var d := DecimalDigits(m);
    DecimalDigitsValue(m);
    ShowIsTrimmed(n);
    StripOfTrimmed(Show(n));
    if n < 0 {
      ParseNegative(d);
    } else {
      AllDigitsWellFormed(d);
    }
  }
}
