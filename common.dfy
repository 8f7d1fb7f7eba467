/** Small helpers shared by every module: an Option type and the string
    operations the backend (Python) and the frontend (JavaScript) rely on,
    restricted to ASCII characters. */
module Common {

  datatype Option<T> = None | Some(value: T)

  function Min(a: int, b: int): int { if a <= b then a else b }

  function Max(a: int, b: int): int { if a >= b then a else b }

  /** The prefix of at most n elements, as Python's `xs[:n]`. */
  function Take<T>(xs: seq<T>, n: nat): (r: seq<T>)
    ensures |r| == Min(n, |xs|)
    ensures r == xs[..|r|]
  {
    if |xs| <= n then xs else xs[..n]
  }

  /** The ASCII characters Python's `str.strip()` drops: tab, line feed,
      vertical tab, form feed, carriage return, the four separators
      \x1c to \x1f, and space. */
  predicate IsSpace(c: char)
  {
    ('\t' <= c <= '\r') || (0x1c <= c as int <= 0x20)
  }

  /** A string that neither starts nor ends with whitespace. */
  predicate Stripped(s: string)
  {
    s == [] || (!IsSpace(s[0]) && !IsSpace(s[|s| - 1]))
  }

  /** Python's `str.strip()`: drops leading and trailing whitespace. */
  function Strip(s: string): (r: string)
    ensures |r| <= |s|
    ensures Stripped(r)
    ensures Stripped(s) ==> r == s
    decreases |s|
  {
    if |s| > 0 && IsSpace(s[0]) then Strip(s[1..])
    else if |s| > 0 && IsSpace(s[|s| - 1]) then Strip(s[..|s| - 1])
    else s
  }

  lemma StripIdempotent(s: string)
    ensures Strip(Strip(s)) == Strip(s)
  {
  }

  /** The ASCII characters JavaScript's `trim()` (and `parseInt`) skip: tab,
      line feed, vertical tab, form feed, carriage return and space, but not
      \x1c to \x1f. */
  predicate IsJsSpace(c: char)
  {
    ('\t' <= c <= '\r') || c == ' '
  }

  predicate Trimmed(s: string)
  {
    s == [] || (!IsJsSpace(s[0]) && !IsJsSpace(s[|s| - 1]))
  }

  /** JavaScript's `String.prototype.trim()`. */
  function Trim(s: string): (r: string)
    ensures |r| <= |s|
    ensures Trimmed(r)
    ensures Trimmed(s) ==> r == s
    decreases |s|
  {
    if |s| > 0 && IsJsSpace(s[0]) then Trim(s[1..])
    else if |s| > 0 && IsJsSpace(s[|s| - 1]) then Trim(s[..|s| - 1])
    else s
  }

  /** The two differ: Python strips a trailing \x1f, JavaScript keeps it. */
  lemma StripAndTrimDiffer()
    ensures Strip("a\U{1f}") == "a" && Trim("a\U{1f}") == "a\U{1f}"
  {
    assert Strip("a\U{1f}") == Strip("a\U{1f}"[..1]);
    assert "a\U{1f}"[..1] == "a";
  }

  predicate IsUpper(c: char) { 'A' <= c <= 'Z' }

  predicate IsLower(c: char) { 'a' <= c <= 'z' }

  predicate IsLetter(c: char) { IsUpper(c) || IsLower(c) }

  function LowerChar(c: char): (r: char)
    ensures IsLetter(c) <==> IsLetter(r)
    ensures !IsUpper(r)
    ensures !IsLetter(c) ==> r == c
  {
    if IsUpper(c) then (c as int + 32) as char else c
  }

  function UpperChar(c: char): (r: char)
    ensures IsLetter(c) <==> IsLetter(r)
    ensures !IsLower(r)
    ensures !IsLetter(c) ==> r == c
  {
    if IsLower(c) then (c as int - 32) as char else c
  }

  /** Python's `str.lower()` / JavaScript's `toLowerCase()` on ASCII letters. */
  function Lower(s: string): (r: string)
    ensures |r| == |s|
    ensures forall i :: 0 <= i < |s| ==> r[i] == LowerChar(s[i])
  {
    if s == [] then [] else [LowerChar(s[0])] + Lower(s[1..])
  }

  /** Lower-casing twice is lower-casing once. */
  lemma LowerIdempotent(s: string)
    ensures Lower(Lower(s)) == Lower(s)
  {
    assert forall i :: 0 <= i < |s| ==> Lower(Lower(s))[i] == Lower(s)[i];
  }

  /** Two strings that agree letter by letter once lower-cased. */
  lemma SameIgnoringCase(s: string, t: string)
    requires |s| == |t| && forall i :: 0 <= i < |s| ==> LowerChar(s[i]) == LowerChar(t[i])
    ensures Lower(s) == Lower(t)
  {
  }

  /** JavaScript's `xs.find(x => x.toLowerCase() === s.toLowerCase())`: the
      first entry equal to `s` ignoring case. */
  function FindIgnoringCase(xs: seq<string>, s: string): (r: Option<string>)
    ensures r.Some? ==> r.value in xs && Lower(r.value) == Lower(s)
    ensures r.Some? ==> exists i :: 0 <= i < |xs| && xs[i] == r.value && forall j :: 0 <= j < i ==> Lower(xs[j]) != Lower(s)
    ensures r.None? <==> forall x :: x in xs ==> Lower(x) != Lower(s)
  {
    if xs == [] then None
    else if Lower(xs[0]) == Lower(s) then Some(xs[0])
    else
      var r := FindIgnoringCase(xs[1..], s);
      if r.Some? then
        ghost var i :| 0 <= i < |xs[1..]| && xs[1..][i] == r.value && forall j :: 0 <= j < i ==> Lower(xs[1..][j]) != Lower(s);
        assert xs[i + 1] == r.value && forall j :: 0 <= j < i + 1 ==> Lower(xs[j]) != Lower(s);
        r
      else r
  }

  /** Python's `str.title()` restricted to ASCII: a letter is upper-cased when the
      character before it is not a letter, and lower-cased otherwise. */
  function TitleFrom(s: string, afterLetter: bool): (r: string)
    ensures |r| == |s|
  {
    if s == [] then []
    else
      var c := s[0];
      [if afterLetter then LowerChar(c) else UpperChar(c)] + TitleFrom(s[1..], IsLetter(c))
  }

  function Title(s: string): string { TitleFrom(s, false) }

  lemma {:induction false} TitleFromIgnoresCase(s: string, b: bool)
    ensures TitleFrom(Lower(s), b) == TitleFrom(s, b)
  {
    if s != [] {
      assert Lower(s)[1..] == Lower(s[1..]);
      TitleFromIgnoresCase(s[1..], IsLetter(s[0]));
      var c := s[0];
      if IsUpper(c) {
        assert LowerChar(LowerChar(c)) == LowerChar(c);
        assert UpperChar(LowerChar(c)) == UpperChar(c);
      }
    }
  }

  /** Title casing does not depend on the case of the input. */
  lemma TitleIgnoresCase(s: string)
    ensures Title(Lower(s)) == Title(s)
  {
    TitleFromIgnoresCase(s, false);
  }

  lemma {:induction false} TitleFromIdempotent(s: string, b: bool)
    ensures TitleFrom(TitleFrom(s, b), b) == TitleFrom(s, b)
  {
    if s != [] {
      var c := s[0];
      var c' := if b then LowerChar(c) else UpperChar(c);
      assert IsLetter(c') == IsLetter(c);
      TitleFromIdempotent(s[1..], IsLetter(c));
      var t := TitleFrom(s, b);
      assert t[0] == c' && t[1..] == TitleFrom(s[1..], IsLetter(c));
      if IsLetter(c) {
        if b { assert LowerChar(c') == c'; } else { assert UpperChar(c') == c'; }
      }
    }
  }

  lemma {:induction false} TitleFromLowerWord(s: string)
    requires forall i :: 0 <= i < |s| ==> IsLower(s[i])
    ensures TitleFrom(s, true) == s
  {
    if s != [] {
      TitleFromLowerWord(s[1..]);
    }
  }

  /** A capitalised word (one upper-case letter, then lower-case letters) is its own title case. */
  lemma TitleOfCapitalized(s: string)
    requires |s| > 0 && IsUpper(s[0])
    requires forall i :: 1 <= i < |s| ==> IsLower(s[i])
    ensures Title(s) == s
  {
    TitleFromLowerWord(s[1..]);
  }

  lemma TitleIdempotent(s: string)
    ensures Title(Title(s)) == Title(s)
  {
    TitleFromIdempotent(s, false);
  }

  function DigitChar(d: nat): (c: char)
    requires d < 10
    ensures '0' <= c <= '9'
  {
    ('0' as int + d) as char
  }

  /** Decimal rendering of a natural number, as Python's `str(n)`. */
  function NatToString(n: nat): (r: string)
    ensures |r| >= 1
    ensures forall i :: 0 <= i < |r| ==> '0' <= r[i] <= '9'
    ensures n >= 10 ==> r[0] != '0'
  {
    if n < 10 then [DigitChar(n)] else NatToString(n / 10) + [DigitChar(n % 10)]
  }

  /** The value of a string of decimal digits. */
  function DigitsValue(s: string): nat
    requires forall i :: 0 <= i < |s| ==> '0' <= s[i] <= '9'
    decreases |s|
  {
    if s == [] then 0 else DigitsValue(s[..|s| - 1]) * 10 + (s[|s| - 1] as int - '0' as int)
  }

  /** Decimal rendering reads back. */
  lemma {:induction false} DigitsOfNat(n: nat)
    ensures DigitsValue(NatToString(n)) == n
    decreases n
  {
    if n >= 10 {
      DigitsOfNat(n / 10);
      var s := NatToString(n);
      assert s[..|s| - 1] == NatToString(n / 10);
    }
  }

  function IntToString(i: int): (r: string)
    ensures |r| >= 1 && (r[0] == '-' || '0' <= r[0] <= '9')
    ensures i >= 0 ==> r == NatToString(i)
  {
    if i < 0 then "-" + NatToString(-i) else NatToString(i)
  }

  predicate StartsWith(s: string, prefix: string)
  {
    |prefix| <= |s| && s[..|prefix|] == prefix
  }

  /** Position of the first occurrence of `sep` in `s`. */
  function IndexOf(s: string, sep: string): (r: Option<nat>)
    ensures r.Some? ==> r.value + |sep| <= |s| && s[r.value..r.value + |sep|] == sep
    ensures r.Some? ==> StartsWith(s[r.value..], sep)
    ensures r.Some? ==> forall j :: 0 <= j < r.value ==> !StartsWith(s[j..], sep)
    ensures r.None? ==> forall j :: 0 <= j <= |s| ==> !StartsWith(s[j..], sep)
  {
    IndexFrom(s, sep, 0)
  }

  /** Position of the first occurrence of `sep` in `s` at or after `k`. */
  function IndexFrom(s: string, sep: string, k: nat): (r: Option<nat>)
    requires k <= |s|
    ensures r.Some? ==> k <= r.value && r.value + |sep| <= |s| && s[r.value..r.value + |sep|] == sep
    ensures r.Some? ==> StartsWith(s[r.value..], sep)
    ensures r.Some? ==> forall j :: k <= j < r.value ==> !StartsWith(s[j..], sep)
    ensures r.None? ==> forall j :: k <= j <= |s| ==> !StartsWith(s[j..], sep)
    decreases |s| - k
  {
    if StartsWith(s[k..], sep) then
      assert s[k..][..|sep|] == s[k..k + |sep|];
      Some(k)
    else if k == |s| then None
    else IndexFrom(s, sep, k + 1)
  }

  /** Python's `sep in s`. */
  predicate Contains(s: string, sep: string)
  {
    IndexOf(s, sep).Some?
  }

  /** Python's `s.split(sep)` / JavaScript's `s.split(sep)` for a non-empty separator. */
  function Split(s: string, sep: string): (parts: seq<string>)
    requires |sep| > 0
    ensures |parts| >= 1
    ensures !Contains(s, sep) ==> parts == [s]
    decreases |s|
  {
    match IndexOf(s, sep)
    case None => [s]
    case Some(i) => [s[..i]] + Split(s[i + |sep|..], sep)
  }

  /** Replaces the first occurrence of `pat` by `rep`, as JavaScript's `s.replace(pat, rep)` with a string pattern. */
  function ReplaceFirst(s: string, pat: string, rep: string): (r: string)
    ensures !Contains(s, pat) ==> r == s
  {
    match IndexOf(s, pat)
    case None => s
    case Some(i) => s[..i] + rep + s[i + |pat|..]
  }

  function Join(parts: seq<string>, sep: string): string
  {
    if parts == [] then "" else if |parts| == 1 then parts[0] else parts[0] + sep + Join(parts[1..], sep)
  }

  lemma JoinTwo(a: string, b: string, sep: string)
    ensures Join([a, b], sep) == a + sep + b
  {
    assert [a, b][1..] == [b];
  }

  lemma JoinThree(a: string, b: string, c: string, sep: string)
    ensures Join([a, b, c], sep) == a + sep + b + sep + c
  {
    assert [a, b, c][1..] == [b, c];
    JoinTwo(b, c, sep);
  }
}
