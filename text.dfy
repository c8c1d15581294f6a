/**
 * The JavaScript string and array primitives the route handlers rely on:
 * `trim`, `join`, `slice` with relative indices, and the decimal rendering of
 * a non-negative integer inside a template literal.  Strings are sequences of
 * characters; the corpus and the prompts only use characters of the Basic
 * Multilingual Plane, where a character is one UTF-16 code unit.
 */
module Text {
  import opened Wrappers

  /** ECMAScript WhiteSpace and LineTerminator code points: what `String.prototype.trim` removes. */
  predicate IsWs(c: char) {
    || c == '\t' || c == '\n' || c == '\U{000B}' || c == '\U{000C}' || c == '\r'
    || c == ' ' || c == '\U{00A0}' || c == '\U{1680}'
    || ('\U{2000}' <= c <= '\U{200A}')
    || c == '\U{2028}' || c == '\U{2029}' || c == '\U{202F}' || c == '\U{205F}'
    || c == '\U{3000}' || c == '\U{FEFF}'
  }

  /** Every character is white space, so `s.trim()` is "" and `!s.trim()` holds. */
  predicate IsBlank(s: string) {
    forall i :: 0 <= i < |s| ==> IsWs(s[i])
  }

  /** `!s?.trim()`: the field is missing, or blank. */
  predicate MissingOrBlank(s: Option<string>) {
    s.None? || IsBlank(s.value)
  }

  /** `r` is `s` with a blank prefix and a blank suffix cut off. */
  predicate CutBlankEnds(r: string, s: string) {
    exists i, j :: 0 <= i <= j <= |s| && r == s[i..j] && IsBlank(s[..i]) && IsBlank(s[j..])
  }

  /** Drops leading white space: what is dropped is blank, what is kept starts with a non-space. */
  function TrimStart(s: string): (r: string)
    ensures |r| <= |s| && r == s[|s| - |r|..]
    ensures IsBlank(s[..|s| - |r|])
    ensures r == [] || !IsWs(r[0])
  {
    if s != [] && IsWs(s[0]) then
      var r := TrimStart(s[1..]);
      BlankCons(s[0], s[1..][..|s| - 1 - |r|]);
      assert s[..|s| - |r|] == [s[0]] + s[1..][..|s| - 1 - |r|];
      r
    else
      s
  }

  /** White space followed by a blank run is blank. */
  lemma BlankCons(c: char, t: string)
    requires IsWs(c) && IsBlank(t)
    ensures IsBlank([c] + t)
  {
  }

  /** Drops trailing white space: what is dropped is blank, what is kept ends with a non-space. */
  function TrimEnd(s: string): (r: string)
    ensures |r| <= |s| && r == s[..|r|]
    ensures IsBlank(s[|r|..])
    ensures r == [] || !IsWs(r[|r| - 1])
  {
    if s != [] && IsWs(s[|s| - 1]) then
      var r := TrimEnd(s[..|s| - 1]);
      assert s[|r|..] == s[..|s| - 1][|r|..] + [s[|s| - 1]];
      r
    else
      s
  }

  /**
   * `String.prototype.trim`: `s` with only white space cut from either end, so
   * that what is left neither starts nor ends with white space; it is empty
   * exactly when `s` is blank.
   */
  function Trim(s: string): (r: string)
    ensures CutBlankEnds(r, s)
    ensures r == [] <==> IsBlank(s)
    ensures r != [] ==> !IsWs(r[0]) && !IsWs(r[|r| - 1])
  {
    var t := TrimStart(s);
    var r := TrimEnd(t);
    TrimStartEmpty(s);
    TrimEndEmpty(t);
    CutsBothEnds(s, t, r);
    r
  }

  /** Cutting a blank prefix of `s`, then a blank suffix of the rest, cuts blank ends of `s`. */
  lemma CutsBothEnds(s: string, t: string, r: string)
    requires |t| <= |s| && t == s[|s| - |t|..] && IsBlank(s[..|s| - |t|])
    requires |r| <= |t| && r == t[..|r|] && IsBlank(t[|r|..])
    ensures CutBlankEnds(r, s)
  {
    var i := |s| - |t|;
    var j := i + |r|;
    SuffixParts(s, i, |r|);
    assert r == s[i..j] && IsBlank(s[..i]) && IsBlank(s[j..]);
  }

  /** The first `n` characters of `s[i..]`, and what follows them. */
  lemma SuffixParts(s: string, i: nat, n: nat)
    requires i + n <= |s|
    ensures s[i..][..n] == s[i..i + n]
    ensures s[i..][n..] == s[i + n..]
  {
  }

  lemma TrimStartEmpty(s: string)
    ensures TrimStart(s) == [] <==> IsBlank(s)
  {
    var r := TrimStart(s);
    if r == [] {
      assert s[..|s|] == s;
    } else {
      assert s[|s| - |r|] == r[0];
    }
  }

  lemma TrimEndEmpty(s: string)
    ensures TrimEnd(s) == [] <==> IsBlank(s)
  {
    var r := TrimEnd(s);
    if r == [] {
      assert s[0..] == s;
    } else {
      assert s[|r| - 1] == r[|r| - 1];
    }
  }

  /** Dropping a blank prefix that ends just before a non-space (or at the end) is `TrimStart`. */
  lemma {:induction false} TrimStartUnique(s: string, i: nat)
    requires i <= |s| && IsBlank(s[..i])
    requires i < |s| ==> !IsWs(s[i])
    ensures TrimStart(s) == s[i..]
  {
    if i > 0 {
      assert s[..i][0] == s[0];
      assert s[1..][..i - 1] == s[..i][1..];
      assert s[1..][i - 1..] == s[i..];
      TrimStartUnique(s[1..], i - 1);
    }
  }

  /** Dropping a blank suffix that starts just after a non-space (or at the start) is `TrimEnd`. */
  lemma {:induction false} TrimEndUnique(s: string, j: nat)
    requires j <= |s| && IsBlank(s[j..])
    requires 0 < j ==> !IsWs(s[j - 1])
    ensures TrimEnd(s) == s[..j]
  {
    if j < |s| {
      var s' := s[..|s| - 1];
      assert s[j..][|s| - 1 - j] == s[|s| - 1];
      assert s'[j..] == s[j..][..|s| - 1 - j];
      assert s'[..j] == s[..j];
      TrimEndUnique(s', j);
    } else {
      assert s[..j] == s;
    }
  }

  /**
   * The partner of `Trim`: cutting a blank prefix and a blank suffix so that the
   * rest starts and ends with a non-space (or nothing is left) is exactly `trim`.
   */
  lemma TrimUnique(s: string, i: nat, j: nat)
    requires i <= j <= |s|
    requires IsBlank(s[..i]) && IsBlank(s[j..])
    requires i < j ==> !IsWs(s[i]) && !IsWs(s[j - 1])
    ensures Trim(s) == s[i..j]
  {
    if i == j {
      BlankHalves(s, i);
      assert Trim(s) == [];
    } else {
      TrimStartUnique(s, i);
      TrimEndOfSuffix(s, i, j);
    }
  }

  /** The `TrimEnd` step of `TrimUnique`, on what `TrimStart` left. */
  lemma TrimEndOfSuffix(s: string, i: nat, j: nat)
    requires i < j <= |s|
    requires IsBlank(s[j..]) && !IsWs(s[j - 1])
    ensures TrimEnd(s[i..]) == s[i..j]
  {
    var t := s[i..];
    assert t[j - i..] == s[j..] && t[j - i - 1] == s[j - 1];
    TrimEndUnique(t, j - i);
    assert t[..j - i] == s[i..j];
  }

  /** A string whose two halves are blank is blank. */
  lemma BlankHalves(s: string, i: int)
    requires 0 <= i <= |s|
    requires IsBlank(s[..i]) && IsBlank(s[i..])
    ensures IsBlank(s)
  {
    assert s == s[..i] + s[i..];
  }

  /** Trimming twice changes nothing more. */
  lemma TrimIdempotent(s: string)
    ensures Trim(Trim(s)) == Trim(s)
  {
    var r := Trim(s);
    TrimUnique(r, 0, |r|);
    assert r[0..|r|] == r;
  }

  /** `Array.prototype.join`: the parts in order, with `sep` between neighbours and nowhere else. */
  function Join(parts: seq<string>, sep: string): (r: string)
    ensures parts == [] ==> r == ""
    ensures parts != [] ==> parts[0] <= r
  {
    if |parts| == 0 then ""
    else if |parts| == 1 then parts[0]
    else parts[0] + sep + Join(parts[1..], sep)
  }

  /** Joining one more part appends the separator and that part (and nothing at all when it is the first). */
  lemma {:induction false} JoinSnoc(parts: seq<string>, p: string, sep: string)
    ensures Join(parts + [p], sep) == if parts == [] then p else Join(parts, sep) + sep + p
  {
    if |parts| == 1 {
      assert parts + [p] == [parts[0], p];
      assert [parts[0], p][1..] == [p];
    } else if |parts| > 1 {
      assert (parts + [p])[1..] == parts[1..] + [p];
      JoinSnoc(parts[1..], p, sep);
    }
  }

  /** Total length of the parts. */
  function TotalLength(parts: seq<string>): nat
  {
    if parts == [] then 0 else |parts[0]| + TotalLength(parts[1..])
  }

  /** A join of `n > 0` parts is as long as the parts plus `n - 1` separators. */
  lemma {:induction false} JoinLength(parts: seq<string>, sep: string)
    requires parts != []
    ensures |Join(parts, sep)| == TotalLength(parts) + (|parts| - 1) * |sep|
  {
    if |parts| > 1 {
      JoinLength(parts[1..], sep);
    }
  }

  /**
   * The index `slice` actually uses for a relative index `rel` into a sequence of
   * length `len`: a negative index counts from the end, and the result is clamped
   * to [0, len].
   */
  function RelativeIndex(rel: int, len: nat): (k: nat)
    ensures k <= len
    ensures 0 <= rel <= len ==> k == rel
    ensures len < rel ==> k == len
    ensures rel < 0 ==> k == if len + rel < 0 then 0 else len + rel
  {
    if rel < 0 then (if len + rel < 0 then 0 else len + rel)
    else if rel < len then rel
    else len
  }

  /** `Array.prototype.slice` and `String.prototype.slice`. */
  function Slice<T>(s: seq<T>, start: int, end: int): (r: seq<T>)
    ensures |r| == Max(0, RelativeIndex(end, |s|) - RelativeIndex(start, |s|))
    ensures r <= s[RelativeIndex(start, |s|)..]
  {
    var from := RelativeIndex(start, |s|);
    var to := RelativeIndex(end, |s|);
    if from < to then s[from..to] else []
  }

  function Min(x: int, y: int): int { if x <= y then x else y }

  function Max(x: int, y: int): int { if x <= y then y else x }

  /** Concatenation regroups freely. */
  lemma ConcatAssoc<T>(a: seq<T>, b: seq<T>, c: seq<T>)
    ensures a + b + c == a + (b + c)
  {
  }

  /** `s.slice(0, n)` for `n >= 0` is the prefix of length min(n, |s|). */
  lemma SlicePrefix<T>(s: seq<T>, n: int)
    requires 0 <= n
    ensures Slice(s, 0, n) == s[..Min(n, |s|)]
    ensures |Slice(s, 0, n)| == Min(n, |s|)
  {
  }

  /** `s.slice(-n)` for `n > 0` is the suffix of length min(n, |s|). */
  lemma SliceLast<T>(s: seq<T>, n: int)
    requires 0 < n
    ensures Slice(s, -n, |s|) == s[|s| - Min(n, |s|)..]
    ensures |Slice(s, -n, |s|)| == Min(n, |s|)
  {
  }

  predicate IsDigits(s: string) {
    forall i :: 0 <= i < |s| ==> '0' <= s[i] <= '9'
  }

  function DigitChar(d: nat): (c: char)
    requires d < 10
    ensures '0' <= c <= '9'
  {
    "0123456789"[d]
  }

  /** The decimal digits of `n` with no leading zero: a non-negative integer in a template literal. */
  function NatToString(n: nat): (r: string)
    ensures r != [] && IsDigits(r)
    ensures |r| > 1 ==> r[0] != '0'
  {
    if n < 10 then [DigitChar(n)] else NatToString(n / 10) + [DigitChar(n % 10)]
  }

  /** Reads a string of decimal digits back as a number. */
  function ParseNat(s: string): nat
    requires IsDigits(s)
  {
    if s == [] then 0 else 10 * ParseNat(s[..|s| - 1]) + (s[|s| - 1] as int - '0' as int)
  }

  /** The ordinal written by `NatToString` reads back as the same number. */
  lemma {:induction false} ParseNatToString(n: nat)
    ensures ParseNat(NatToString(n)) == n
  {
    var r := NatToString(n);
    if n < 10 {
      assert r[..|r| - 1] == [];
    } else {
      assert r[..|r| - 1] == NatToString(n / 10);
      ParseNatToString(n / 10);
    }
  }
}
