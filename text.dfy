/**
 * The slice of Go's `strings`/`strconv` packages and of Python's `str` methods
 * that the scanner and the controller rely on, written out over `seq<char>`.
 */
module Text {

  /** Go's unicode.IsSpace. */
  predicate IsSpace(c: char) {
    var n := c as int;
    n == 0x20 || (0x09 <= n <= 0x0D) || n == 0x85 || n == 0xA0 || n == 0x1680
    || (0x2000 <= n <= 0x200A) || n == 0x2028 || n == 0x2029 || n == 0x202F
    || n == 0x205F || n == 0x3000
  }

  /** Python's str.isspace on one character: Go's set plus the separators 0x1C-0x1F. */
  predicate IsPySpace(c: char) {
    IsSpace(c) || (0x1C <= c as int <= 0x1F)
  }

  predicate NoSpace(s: string) {
    forall i :: 0 <= i < |s| ==> !IsSpace(s[i])
  }

  predicate HasPrefix(s: string, prefix: string) {
    |prefix| <= |s| && s[..|prefix|] == prefix
  }

  predicate HasSuffix(s: string, suffix: string) {
    |suffix| <= |s| && s[|s| - |suffix|..] == suffix
  }

  /** strings.TrimLeftFunc: drops the longest prefix whose characters satisfy `f`. */
  function TrimLeftFunc(s: string, f: char -> bool): (r: string)
    ensures |r| <= |s| && r == s[|s| - |r|..]
    ensures r != [] ==> !f(r[0])
    ensures forall i :: 0 <= i < |s| - |r| ==> f(s[i])
    decreases |s|
  {
    if s != [] && f(s[0]) then TrimLeftFunc(s[1..], f) else s
  }

  /** strings.TrimRightFunc: drops the longest suffix whose characters satisfy `f`. */
  function TrimRightFunc(s: string, f: char -> bool): (r: string)
    ensures |r| <= |s| && r == s[..|r|]
    ensures r != [] ==> !f(r[|r| - 1])
    ensures forall i :: |r| <= i < |s| ==> f(s[i])
    decreases |s|
  {
    if s != [] && f(s[|s| - 1]) then TrimRightFunc(s[..|s| - 1], f) else s
  }

  /** strings.TrimSpace. */
  function TrimSpace(s: string): (r: string)
    ensures r != [] ==> !IsSpace(r[0]) && !IsSpace(r[|r| - 1])
    ensures exists a :: OccursAt(s, r, a)
  {
    var t := TrimLeftFunc(s, IsSpace);
    var u := TrimRightFunc(t, IsSpace);
    assert OccursAt(s, u, |s| - |t|) by {
      var d := |s| - |t|;
      assert u == t[..|u|] && t == s[d..];
      assert s[d..][..|u|] == s[d..d + |u|];
    }
    u
  }

  /** Trimming a trimmed text changes nothing. */
  lemma TrimSpaceIdempotent(s: string)
    ensures TrimSpace(TrimSpace(s)) == TrimSpace(s)
  {
    var r := TrimSpace(s);
    if r != [] {
      assert TrimLeftFunc(r, IsSpace) == r;
      assert TrimRightFunc(r, IsSpace) == r;
    }
  }

  /** Python's str.strip() with no argument. */
  function Strip(s: string): (r: string)
    ensures r != [] ==> !IsPySpace(r[0]) && !IsPySpace(r[|r| - 1])
    ensures |r| <= |s|
  {
    TrimRightFunc(TrimLeftFunc(s, IsPySpace), IsPySpace)
  }

  /** strings.TrimRight(s, cutset): drops trailing characters that occur in `cutset`. */
  function TrimRight(s: string, cutset: string): (r: string)
    ensures |r| <= |s| && r == s[..|r|]
    ensures r != [] ==> r[|r| - 1] !in cutset
    ensures forall i :: |r| <= i < |s| ==> s[i] in cutset
    decreases |s|
  {
    if s != [] && s[|s| - 1] in cutset then TrimRight(s[..|s| - 1], cutset) else s
  }

  /** strings.TrimLeft(s, cutset). */
  function TrimLeft(s: string, cutset: string): (r: string)
    ensures |r| <= |s| && r == s[|s| - |r|..]
    ensures r != [] ==> r[0] !in cutset
    decreases |s|
  {
    if s != [] && s[0] in cutset then TrimLeft(s[1..], cutset) else s
  }

  /** strings.Trim(s, cutset). */
  function Trim(s: string, cutset: string): (r: string)
    ensures r != [] ==> r[0] !in cutset && r[|r| - 1] !in cutset
  {
    TrimRight(TrimLeft(s, cutset), cutset)
  }

  /** strings.TrimSuffix. */
  function TrimSuffix(s: string, suffix: string): (r: string)
    ensures HasSuffix(s, suffix) ==> r + suffix == s
    ensures !HasSuffix(s, suffix) ==> r == s
  {
    if HasSuffix(s, suffix) then s[..|s| - |suffix|] else s
  }

  predicate OccursAt(s: string, sub: string, i: int) {
    0 <= i && i + |sub| <= |s| && s[i..i + |sub|] == sub
  }

  lemma OccursShift(s: string, sub: string, i: int)
    requires s != [] && 0 <= i
    ensures OccursAt(s[1..], sub, i) <==> OccursAt(s, sub, i + 1)
  {
    if 0 <= i && i + 1 + |sub| <= |s| {
      assert s[1..][i..i + |sub|] == s[i + 1..i + 1 + |sub|];
    }
  }

  /** An occurrence inside an occurring piece is an occurrence in the whole text. */
  lemma OccursWithin(s: string, t: string, a: int, sub: string, i: int)
    requires OccursAt(s, t, a) && OccursAt(t, sub, i)
    ensures OccursAt(s, sub, a + i)
  {
    forall k | 0 <= k < |sub| ensures s[a + i + k] == sub[k] {
      assert t[i..i + |sub|][k] == t[i + k];
      assert s[a..a + |t|][i + k] == s[a + i + k];
    }
    assert s[a + i..a + i + |sub|] == sub;
  }

  /** A character missing from a text is missing from every piece occurring in it. */
  lemma CharsWithin(s: string, t: string, a: int, c: char)
    requires OccursAt(s, t, a) && c !in s
    ensures c !in t
  {
    forall j | 0 <= j < |t| ensures t[j] != c {
      assert t[j] == s[a..a + |t|][j] == s[a + j];
    }
  }

  /** A pattern missing from a text is missing from every piece occurring in it. */
  lemma AbsentWithin(s: string, t: string, a: int, sub: string)
    requires OccursAt(s, t, a)
    requires forall i :: 0 <= i ==> !OccursAt(s, sub, i)
    ensures forall i :: 0 <= i ==> !OccursAt(t, sub, i)
  {
    forall i | 0 <= i ensures !OccursAt(t, sub, i) {
      if OccursAt(t, sub, i) {
        OccursWithin(s, t, a, sub, i);
      }
    }
  }

  /** An occurrence in a suffix of a text is an occurrence in the text, shifted by where the suffix starts. */
  lemma OccursInSuffix(s: string, d: int, sub: string, j: int)
    requires 0 <= d <= |s| && 0 <= j
    ensures OccursAt(s[d..], sub, j) <==> OccursAt(s, sub, d + j)
  {
    if d + j + |sub| <= |s| {
      assert s[d..][j..j + |sub|] == s[d + j..d + j + |sub|];
    }
  }

  /** What does not start in a suffix of a text, in a range or at all, does not start there in the text. */
  lemma AbsentInSuffix(s: string, d: int, sub: string, q: int)
    requires 0 <= d <= |s|
    ensures (forall i :: 0 <= i < q ==> !OccursAt(s[d..], sub, i)) ==> forall i :: d <= i < d + q ==> !OccursAt(s, sub, i)
    ensures (forall i :: 0 <= i ==> !OccursAt(s[d..], sub, i)) ==> forall i :: d <= i ==> !OccursAt(s, sub, i)
  {
    forall i | d <= i ensures OccursAt(s, sub, i) ==> OccursAt(s[d..], sub, i - d) {
      OccursInSuffix(s, d, sub, i - d);
    }
  }

  /** strings.Index: the first position where `sub` occurs in `s`, or -1. */
  function Index(s: string, sub: string): (r: int)
    ensures -1 <= r
    ensures r >= 0 ==> OccursAt(s, sub, r)
    ensures forall i :: 0 <= i && (r < 0 || i < r) ==> !OccursAt(s, sub, i)
    decreases |s|
  {
    if |s| < |sub| then -1
    else if s[..|sub|] == sub then 0
    else
      var k := Index(s[1..], sub);
      assert !OccursAt(s, sub, 0) by {
        assert s[0..|sub|] == s[..|sub|];
      }
      assert forall i | 1 <= i :: OccursAt(s, sub, i) <==> OccursAt(s[1..], sub, i - 1) by {
        forall i | 1 <= i ensures OccursAt(s, sub, i) <==> OccursAt(s[1..], sub, i - 1) {
          OccursShift(s, sub, i - 1);
        }
      }
      if k < 0 then -1 else k + 1
  }

  predicate Contains(s: string, sub: string) {
    Index(s, sub) >= 0
  }

  /** `strings.SplitN(s, string(c), 2)[0]`: the text before the first `c`, or all of `s`. */
  function BeforeFirst(s: string, c: char): (r: string)
    ensures |r| <= |s| && r == s[..|r|] && c !in r
    ensures |r| < |s| ==> s[|r|] == c
  {
    if s == [] || s[0] == c then [] else [s[0]] + BeforeFirst(s[1..], c)
  }

  /** Cutting at `c` passes over a prefix without `c`. */
  lemma {:induction false} BeforeFirstPrefix(x: string, y: string, c: char)
    requires c !in x
    ensures BeforeFirst(x + y, c) == x + BeforeFirst(y, c)
    decreases |x|
  {
    if x == [] {
      assert x + y == y;
    } else {
      assert (x + y)[0] == x[0] && (x + y)[1..] == x[1..] + y;
      BeforeFirstPrefix(x[1..], y, c);
      assert [x[0]] + (x[1..] + BeforeFirst(y, c)) == x + BeforeFirst(y, c);
    }
  }

  /**
   * When `sub` is absent from `a` and its last character occurs nowhere else
   * in it, the first `sub` in `a + sub + y` is the one written after `a`.
   */
  lemma IndexAfterPrefix(a: string, sub: string, y: string)
    requires |sub| > 0 && Index(a, sub) < 0
    requires forall k :: 0 <= k < |sub| - 1 ==> sub[k] != sub[|sub| - 1]
    ensures Index(a + sub + y, sub) == |a|
  {
    var o := a + sub + y;
    var n := |sub|;
    assert o[|a|..|a| + n] == sub;
    forall i | 0 <= i < |a| ensures !OccursAt(o, sub, i) {
      if i + n <= |a| {
        assert o[i..i + n] == a[i..i + n];
        assert !OccursAt(a, sub, i);
      } else if i + n <= |o| {
        var m := i + n - 1;
        assert o[m] == sub[m - |a|];
        assert o[i..i + n][n - 1] == o[m];
      }
    }
    assert OccursAt(o, sub, |a|);
  }

  /** strings.Split with a one-character separator; it always yields at least one piece. */
  function Split(s: string, sep: char): (r: seq<string>)
    ensures |r| >= 1
    decreases |s|
  {
    if s == [] then [""]
    else
      var rest := Split(s[1..], sep);
      if s[0] == sep then [""] + rest
      else [[s[0]] + rest[0]] + rest[1..]
  }

  /** No piece of a split holds the separator. */
  lemma {:induction false} SplitPiecesFree(s: string, sep: char)
    ensures forall i :: 0 <= i < |Split(s, sep)| ==> sep !in Split(s, sep)[i]
    decreases |s|
  {
    if s != [] {
      SplitPiecesFree(s[1..], sep);
      var rest := Split(s[1..], sep);
      if s[0] != sep {
        assert sep !in rest[0];
        assert sep !in [s[0]] + rest[0];
      }
    }
  }

  /** strings.Join. */
  function Join(parts: seq<string>, sep: string): string
    decreases |parts|
  {
    if |parts| == 0 then ""
    else if |parts| == 1 then parts[0]
    else parts[0] + sep + Join(parts[1..], sep)
  }

  /** Splitting and re-joining on the same separator gives back the text. */
  lemma {:induction false} JoinSplit(s: string, sep: char)
    ensures Join(Split(s, sep), [sep]) == s
    decreases |s|
  {
    if s != [] {
      JoinSplit(s[1..], sep);
      var rest := Split(s[1..], sep);
      if s[0] == sep {
        assert Split(s, sep) == [""] + rest;
      } else {
        assert Split(s, sep) == [[s[0]] + rest[0]] + rest[1..];
        if |rest| > 1 {
          assert rest == [rest[0]] + rest[1..];
        }
      }
    }
  }

  /** Text free of the separator is a single piece. */
  lemma {:induction false} SplitNoSeparator(s: string, sep: char)
    requires sep !in s
    ensures Split(s, sep) == [s]
    decreases |s|
  {
    if s != [] {
      SplitNoSeparator(s[1..], sep);
      assert [s[0]] + s[1..] == s;
    }
  }

  /** A separator between two texts separates their pieces. */
  lemma {:induction false} SplitAround(a: string, b: string, sep: char)
    ensures Split(a + [sep] + b, sep) == Split(a, sep) + Split(b, sep)
    decreases |a|
  {
    var x := a + [sep] + b;
    if a == [] {
      assert x[0] == sep && x[1..] == b;
    } else {
      SplitAround(a[1..], b, sep);
      assert x[0] == a[0] && x[1..] == a[1..] + [sep] + b;
      if a[0] != sep {
        SplitAroundStep(a, Split(a[1..], sep), Split(b, sep), Split(x[1..], sep));
      }
    }
  }

  /** The list step of SplitAround: gluing a character onto the first piece commutes with appending pieces. */
  lemma SplitAroundStep(a: string, ra: seq<string>, rb: seq<string>, rest: seq<string>)
    requires a != [] && |ra| >= 1 && rest == ra + rb
    ensures [[a[0]] + rest[0]] + rest[1..] == ([[a[0]] + ra[0]] + ra[1..]) + rb
  {
    assert rest[0] == ra[0];
    assert rest[1..] == ra[1..] + rb;
  }

  /** A piece of `Join(parts, sep)` for each part, when no part holds the separator. */
  lemma {:induction false} SplitJoin(parts: seq<string>, sep: char)
    requires |parts| >= 1
    requires forall i :: 0 <= i < |parts| ==> sep !in parts[i]
    ensures Split(Join(parts, [sep]), sep) == parts
    decreases |parts|
  {
    SplitNoSeparator(parts[0], sep);
    if |parts| > 1 {
      SplitJoin(parts[1..], sep);
      SplitAround(parts[0], Join(parts[1..], [sep]), sep);
      assert parts == [parts[0]] + parts[1..];
    }
  }

  /** The length of the leading run of non-space characters. */
  function TokenLength(s: string): (n: nat)
    ensures n <= |s|
    ensures forall i :: 0 <= i < n ==> !IsSpace(s[i])
    ensures n < |s| ==> IsSpace(s[n])
    ensures s != [] && !IsSpace(s[0]) ==> n >= 1
  {
    if s == [] || IsSpace(s[0]) then 0 else 1 + TokenLength(s[1..])
  }

  /** strings.Fields: the maximal runs of non-space characters, in order. */
  function Fields(s: string): (r: seq<string>)
    ensures forall i :: 0 <= i < |r| ==> r[i] != []
    decreases |s|
  {
    if s == [] then []
    else if IsSpace(s[0]) then Fields(s[1..])
    else
      var n := TokenLength(s);
      [s[..n]] + Fields(s[n..])
  }

  function LowerChar(c: char): char {
    if 'A' <= c <= 'Z' then (c as int + 32) as char else c
  }

  /** strings.ToLower restricted to ASCII letters. */
  function ToLowerAscii(s: string): (r: string)
    ensures |r| == |s|
    ensures forall i :: 0 <= i < |s| ==> r[i] == LowerChar(s[i])
  {
    seq(|s|, i requires 0 <= i < |s| => LowerChar(s[i]))
  }

  const MaxInt64: int := 0x7fff_ffff_ffff_ffff
  const MinInt64: int := -0x8000_0000_0000_0000

  predicate IsDigit(c: char) {
    '0' <= c <= '9'
  }

  predicate AllDigits(s: string) {
    forall i :: 0 <= i < |s| ==> IsDigit(s[i])
  }

  /** The value of a run of decimal digits, most significant first. */
  function DigitsValue(s: string): nat
    requires AllDigits(s)
    decreases |s|
  {
    if s == [] then 0
    else DigitsValue(s[..|s| - 1]) * 10 + (s[|s| - 1] as int - '0' as int)
  }

  /** What strconv.Atoi accepts: an optional sign followed by at least one decimal digit. */
  predicate IsDecimal(s: string) {
    if s != [] && (s[0] == '+' || s[0] == '-') then |s| >= 2 && AllDigits(s[1..])
    else s != [] && AllDigits(s)
  }

  function Clamp64(n: int): int {
    if n > MaxInt64 then MaxInt64 else if n < MinInt64 then MinInt64 else n
  }

  /**
   * The int that strconv.Atoi returns when its error is ignored: 0 on a syntax
   * error, the saturated 64-bit bound on a range error, the value otherwise.
   */
  function AtoiValue(s: string): (r: int)
    ensures MinInt64 <= r <= MaxInt64
    ensures !IsDecimal(s) ==> r == 0
  {
    if !IsDecimal(s) then 0
    else if s[0] == '-' then Clamp64(-(DigitsValue(s[1..]) as int))
    else if s[0] == '+' then Clamp64(DigitsValue(s[1..]))
    else Clamp64(DigitsValue(s))
  }

  function DigitChar(d: nat): char
    requires d < 10
  {
    ('0' as int + d) as char
  }

  /** fmt's %d of a natural number. */
  function NatString(n: nat): (r: string)
    ensures r != [] && AllDigits(r)
  {
    if n < 10 then [DigitChar(n)] else NatString(n / 10) + [DigitChar(n % 10)]
  }

  /** fmt's %d of an int. */
  function DecimalString(n: int): (r: string)
    ensures r != []
  {
    if n < 0 then "-" + NatString(-n) else NatString(n)
  }

  /** Reading back a rendered natural number gives the number. */
  lemma {:induction false} NatStringValue(n: nat)
    ensures DigitsValue(NatString(n)) == n
  {
    if n >= 10 {
      NatStringValue(n / 10);
      var s := NatString(n);
      assert s[..|s| - 1] == NatString(n / 10);
    }
  }

  /** strconv.Atoi inverts %d on every 64-bit int. */
  lemma AtoiDecimalString(n: int)
    requires MinInt64 <= n <= MaxInt64
    ensures AtoiValue(DecimalString(n)) == n
  {
    var s := DecimalString(n);
    if n < 0 {
      NatStringValue(-n);
      assert s[0] == '-' && s[1..] == NatString(-n);
      assert IsDecimal(s);
    } else {
      NatStringValue(n);
      assert s == NatString(n) && IsDigit(s[0]);
      assert IsDecimal(s);
    }
  }
}
