/** Shared vocabulary: optional values, results, and the handful of JavaScript string
    operations the application relies on (`trim`, `toLowerCase`, `includes`, `String(n)`
    on an integer, and `split('/').pop()`). */
module Base {

  /** The conventional Some/None datatype, standing for `T | undefined` or `T | null`. */
  datatype Option<+T> = None | Some(value: T)

  /** A settled promise: resolved with a value or rejected with an error. */
  datatype Result<+T, +E> = Success(value: T) | Failure(error: E)

  /** The characters JavaScript's regular-expression class `\s` and `String.prototype.trim`
      treat as white space: the WhiteSpace and LineTerminator productions of ECMA-262
      (sections 12.2 and 12.3). */
  predicate IsSpace(c: char) {
    || c == '\t' || c == '\n' || c == '\U{000B}' || c == '\U{000C}' || c == '\r'
    || c == ' ' || c == '\U{00A0}' || c == '\U{1680}' || ('\U{2000}' <= c <= '\U{200A}')
    || c == '\U{2028}' || c == '\U{2029}' || c == '\U{202F}' || c == '\U{205F}'
    || c == '\U{3000}' || c == '\U{FEFF}'
  }

  predicate AllSpace(s: string) {
    forall i :: 0 <= i < |s| ==> IsSpace(s[i])
  }

  /** Drops leading white space. */
  function TrimStart(s: string): (r: string)
    ensures |r| <= |s| && r == s[|s| - |r|..]
    ensures AllSpace(s[..|s| - |r|])
    ensures r == [] || !IsSpace(r[0])
  {
    if s == [] || !IsSpace(s[0]) then s else TrimStart(s[1..])
  }

  /** Drops trailing white space. */
  function TrimEnd(s: string): (r: string)
    ensures |r| <= |s| && r == s[..|r|]
    ensures AllSpace(s[|r|..])
    ensures r == [] || !IsSpace(r[|r| - 1])
  {
    if s == [] || !IsSpace(s[|s| - 1]) then s else TrimEnd(s[..|s| - 1])
  }

  /** `String.prototype.trim`. */
  function Trim(s: string): string {
    TrimEnd(TrimStart(s))
  }

  /** A string trims to the empty string exactly when it is all white space. */
  lemma TrimEmptyIffAllSpace(s: string)
    ensures Trim(s) == [] <==> AllSpace(s)
  {
    var t := TrimStart(s);
    assert t[0..] == t;
    assert s[..|s|] == s;
    assert t != [] ==> t[0] == s[|s| - |t|];
  }

  /** Trimming twice changes nothing. */
  lemma TrimIdempotent(s: string)
    ensures Trim(Trim(s)) == Trim(s)
  {
    var r := Trim(s);
    if r != [] {
      var t := TrimStart(s);
      assert r[0] == t[0];
      assert TrimStart(r) == r;
    }
  }

  /** `toLowerCase` on one character, for the ASCII letters. */
  function LowerChar(c: char): (d: char)
    ensures !('A' <= d <= 'Z')
    ensures c == d || ('A' <= c <= 'Z' && d as int == c as int + 32)
  {
    if 'A' <= c <= 'Z' then (c as int + 32) as char else c
  }

  /** `String.prototype.toLowerCase`, for the ASCII letters. */
  function ToLower(s: string): (r: string)
    ensures |r| == |s|
    ensures forall i :: 0 <= i < |s| ==> r[i] == LowerChar(s[i])
  {
    seq(|s|, i requires 0 <= i < |s| => LowerChar(s[i]))
  }

  lemma ToLowerIdempotent(s: string)
    ensures ToLower(ToLower(s)) == ToLower(s)
  {
  }

  /** A character outside the Basic Multilingual Plane, which UTF-16 stores as a surrogate
      pair. */
  predicate Astral(c: char) {
    c as int >= 0x1_0000
  }

  /** `s.length`: JavaScript counts UTF-16 code units, so an astral character counts
      twice. */
  function JsLength(s: string): (n: nat)
    ensures |s| <= n <= 2 * |s|
    ensures (forall i :: 0 <= i < |s| ==> !Astral(s[i])) <==> n == |s|
    decreases |s|
  {
    if s == [] then 0
    else
      var init := s[..|s| - 1];
      assert forall i :: 0 <= i < |init| ==> init[i] == s[i];
      JsLength(init) + (if Astral(s[|s| - 1]) then 2 else 1)
  }

  /** Counting is additive over concatenation. */
  lemma {:induction false} JsLengthAppend(a: string, b: string)
    ensures JsLength(a + b) == JsLength(a) + JsLength(b)
    decreases |b|
  {
    if b != [] {
      var ab := a + b;
      assert ab[..|ab| - 1] == a + b[..|b| - 1];
      assert ab[|ab| - 1] == b[|b| - 1];
      JsLengthAppend(a, b[..|b| - 1]);
    } else {
      assert a + b == a;
    }
  }

  /** `sub` occurs in `s` starting at index `i`. */
  predicate OccursAt(s: string, sub: string, i: int) {
    0 <= i <= |s| - |sub| && s[i..i + |sub|] == sub
  }

  /** `s.includes(sub)`. */
  function Contains(s: string, sub: string): (b: bool)
    ensures b <==> exists i :: OccursAt(s, sub, i)
    decreases |s|
  {
    if |s| < |sub| then false
    else if s[..|sub|] == sub then assert OccursAt(s, sub, 0); true
    else
      var r := Contains(s[1..], sub);
      forall i
        ensures OccursAt(s[1..], sub, i) <==> OccursAt(s, sub, i + 1)
      {
        if 0 <= i <= |s| - 1 - |sub| {
          assert s[1..][i..i + |sub|] == s[i + 1..i + 1 + |sub|];
        }
      }
      assert !OccursAt(s, sub, 0);
      assert forall i :: OccursAt(s, sub, i) ==> i == 0 || OccursAt(s[1..], sub, i - 1);
      r
  }

  /** `s.split(c).pop()`: what follows the last occurrence of `c`, or all of `s`. */
  function AfterLast(s: string, c: char): (r: string)
    ensures |r| <= |s| && r == s[|s| - |r|..]
    ensures c !in r
    ensures |r| < |s| ==> s[|s| - |r| - 1] == c
  {
    if s == [] then []
    else if s[|s| - 1] == c then []
    else AfterLast(s[..|s| - 1], c) + [s[|s| - 1]]
  }

  /** Splits `s` at every occurrence of `c`, as `String.prototype.split` does. */
  function Split(s: string, c: char): (parts: seq<string>)
    ensures |parts| >= 1
  {
    if s == [] then [""]
    else
      var rest := Split(s[1..], c);
      if s[0] == c then [""] + rest else [[s[0]] + rest[0]] + rest[1..]
  }

  lemma {:induction false} SplitNoSeparator(a: string, c: char)
    requires c !in a
    ensures Split(a, c) == [a]
  {
    if a != [] {
      SplitNoSeparator(a[1..], c);
      assert [a[0]] + a[1..] == a;
    }
  }

  lemma {:induction false} SplitAtFirst(a: string, c: char, b: string)
    requires c !in a
    ensures Split(a + [c] + b, c) == [a] + Split(b, c)
  {
    if a == [] {
      assert ([c] + b)[1..] == b;
    } else {
      assert (a + [c] + b)[0] == a[0];
      assert (a + [c] + b)[1..] == a[1..] + [c] + b;
      SplitAtFirst(a[1..], c, b);
      assert [a[0]] + a[1..] == a;
    }
  }

  /** Whatever precedes the last separator does not matter to what follows it. */
  lemma {:induction false} AfterLastSkipsPrefix(p: string, c: char, b: string)
    ensures AfterLast(p + [c] + b, c) == AfterLast(b, c)
    decreases |b|
  {
    var s := p + [c] + b;
    if b == [] {
      assert s[|s| - 1] == c;
    } else {
      assert s[|s| - 1] == b[|b| - 1];
      if b[|b| - 1] != c {
        assert s[..|s| - 1] == p + [c] + b[..|b| - 1];
        AfterLastSkipsPrefix(p, c, b[..|b| - 1]);
      }
    }
  }

  /** `AfterLast` is the last element `split` returns, which is what `pop()` takes. */
  lemma {:induction false} AfterLastIsLastPart(s: string, c: char)
    ensures AfterLast(s, c) == Split(s, c)[|Split(s, c)| - 1]
    decreases |s|
  {
    if c !in s {
      SplitNoSeparator(s, c);
      AfterLastWithoutSeparator(s, c);
    } else {
      var k :| 0 <= k < |s| && s[k] == c;
      var i := FirstIndexOf(s, c, k);
      var a, b := s[..i], s[i + 1..];
      assert s == a + [c] + b;
      AfterLastIsLastPart(b, c);
      AfterLastSkipsPrefix(a, c, b);
      LastPartSkipsFirst(a, c, b);
    }
  }

  /** `split` skips a first field that has no separator. */
  lemma {:induction false} LastPartSkipsFirst(a: string, c: char, b: string)
    requires c !in a
    ensures Split(a + [c] + b, c)[|Split(a + [c] + b, c)| - 1] == Split(b, c)[|Split(b, c)| - 1]
  {
    SplitAtFirst(a, c, b);
    LastOfCons(a, Split(b, c));
  }

  lemma {:induction false} LastOfCons<T>(x: T, t: seq<T>)
    requires t != []
    ensures ([x] + t)[|t|] == t[|t| - 1]
  {
  }

  lemma {:induction false} AfterLastWithoutSeparator(s: string, c: char)
    requires c !in s
    ensures AfterLast(s, c) == s
  {
  }

  /** The first index holding `c`, given some index that does. */
  lemma {:induction false} FirstIndexOf(s: string, c: char, k: int) returns (i: int)
    requires 0 <= k < |s| && s[k] == c
    ensures 0 <= i <= k && s[i] == c && forall j :: 0 <= j < i ==> s[j] != c
    decreases k
  {
    if exists j :: 0 <= j < k && s[j] == c {
      var j :| 0 <= j < k && s[j] == c;
      i := FirstIndexOf(s, c, j);
    } else {
      i := k;
    }
  }

  predicate IsDigit(c: char) {
    '0' <= c <= '9'
  }

  function DigitChar(d: nat): (c: char)
    requires d < 10
    ensures IsDigit(c)
  {
    ('0' as int + d) as char
  }

  function DigitValue(c: char): (d: nat)
    requires IsDigit(c)
    ensures d < 10
  {
    c as int - '0' as int
  }

  /** The decimal digits of `n`, most significant first, with no leading zero. */
  function NatToString(n: nat): (r: string)
    ensures r != []
    ensures forall i :: 0 <= i < |r| ==> IsDigit(r[i])
    ensures r[0] == '0' ==> r == "0"
  {
    if n < 10 then [DigitChar(n)] else NatToString(n / 10) + [DigitChar(n % 10)]
  }

  /** `String(n)` for an integer `n`. */
  function IntToString(n: int): (r: string)
    ensures r != []
    ensures n < 0 <==> r[0] == '-'
  {
    if n < 0 then "-" + NatToString(-n) else NatToString(n)
  }

  /** Reads back a string of decimal digits. */
  function ParseNat(s: string): nat
    requires forall i :: 0 <= i < |s| ==> IsDigit(s[i])
  {
    if s == [] then 0 else ParseNat(s[..|s| - 1]) * 10 + DigitValue(s[|s| - 1])
  }

  /** Reads back an optionally negative decimal integer. */
  function ParseInt(s: string): Option<int> {
    if s != [] && s[0] == '-' then
      var digits := s[1..];
      if digits != [] && forall i :: 0 <= i < |digits| ==> IsDigit(digits[i])
      then Some(0 - ParseNat(digits) as int) else None
    else if s != [] && forall i :: 0 <= i < |s| ==> IsDigit(s[i]) then Some(ParseNat(s))
    else None
  }

  lemma {:induction false} ParseNatToString(n: nat)
    ensures ParseNat(NatToString(n)) == n
    decreases n
  {
    if n >= 10 {
      var s := NatToString(n);
      ParseNatToString(n / 10);
      assert s[..|s| - 1] == NatToString(n / 10);
      assert DigitValue(s[|s| - 1]) == n % 10;
    }
  }

  /** `String(n)` loses nothing: the decimal text of an integer reads back as that integer,
      so two different numbers are never sent as the same text. */
  lemma IntToStringRoundTrip(n: int)
    ensures ParseInt(IntToString(n)) == Some(n)
  {
    if n < 0 {
      ParseNatToString(-n);
      assert IntToString(n)[1..] == NatToString(-n);
    } else {
      ParseNatToString(n);
    }
  }

  lemma IntToStringInjective(m: int, n: int)
    ensures IntToString(m) == IntToString(n) ==> m == n
  {
    IntToStringRoundTrip(m);
    IntToStringRoundTrip(n);
  }
}
