/**
 * String helpers with the semantics of the JavaScript built-ins the source uses:
 * `String.prototype.trim`, `String.prototype.replace` with a string pattern,
 * ASCII `toLowerCase`, and the decimal rendering of `Date.now().toString()`.
 */
module Text {
  import opened Wrappers

  /** The characters `trim` removes: ECMAScript WhiteSpace and LineTerminator. */
  predicate IsSpace(c: char) {
    || c == ' ' || c == '\t' || c == '\n' || c == '\r'
    || c == '\U{000B}' || c == '\U{000C}' || c == '\U{00A0}' || c == '\U{1680}'
    || ('\U{2000}' <= c <= '\U{200A}')
    || c == '\U{2028}' || c == '\U{2029}' || c == '\U{202F}' || c == '\U{205F}'
    || c == '\U{3000}' || c == '\U{FEFF}'
  }

  /** True when every character of `s` is white space (so `s.trim()` is falsy). */
  predicate AllSpace(s: string) {
    forall i :: 0 <= i < |s| ==> IsSpace(s[i])
  }

  /** `s` drops its leading white space. */
  function TrimStart(s: string): string {
    if s == [] then s
    else if IsSpace(s[0]) then TrimStart(s[1..])
    else s
  }

  /** `s` drops its trailing white space. */
  function TrimEnd(s: string): string {
    if s == [] then s
    else if IsSpace(s[|s| - 1]) then TrimEnd(s[..|s| - 1])
    else s
  }

  /** JavaScript's `s.trim()`. */
  function Trim(s: string): string {
    TrimEnd(TrimStart(s))
  }

  /** Leading trimming cuts a white-space prefix and stops at the first other character. */
  lemma {:induction false} TrimStartSpec(s: string)
    ensures |TrimStart(s)| <= |s| && TrimStart(s) == s[|s| - |TrimStart(s)|..]
    ensures AllSpace(s[..|s| - |TrimStart(s)|])
    ensures TrimStart(s) == [] || !IsSpace(TrimStart(s)[0])
  {
    if s != [] && IsSpace(s[0]) {
      TrimStartSpec(s[1..]);
      var r := TrimStart(s);
      assert s[1..][|s| - 1 - |r|..] == s[|s| - |r|..];
      assert s[..|s| - |r|] == [s[0]] + s[1..][..|s| - 1 - |r|];
    }
  }

  /** Trailing trimming cuts a white-space suffix and stops at the last other character. */
  lemma {:induction false} TrimEndSpec(s: string)
    ensures |TrimEnd(s)| <= |s| && TrimEnd(s) == s[..|TrimEnd(s)|]
    ensures AllSpace(s[|TrimEnd(s)|..])
    ensures TrimEnd(s) == [] || !IsSpace(TrimEnd(s)[|TrimEnd(s)| - 1])
  {
    if s != [] && IsSpace(s[|s| - 1]) {
      var p := s[..|s| - 1];
      TrimEndSpec(p);
      var r := TrimEnd(s);
      assert p[..|r|] == s[..|r|];
      assert s[|r|..] == p[|r|..] + [s[|s| - 1]];
    }
  }

  /**
   * `trim` returns a contiguous piece of its input that neither starts nor ends with
   * white space, and only white space was cut from either side.
   */
  lemma TrimIsCore(s: string)
    ensures exists i, j ::
              && 0 <= i <= j <= |s| && Trim(s) == s[i..j]
              && AllSpace(s[..i]) && AllSpace(s[j..])
    ensures Trim(s) == [] || (!IsSpace(Trim(s)[0]) && !IsSpace(Trim(s)[|Trim(s)| - 1]))
  {
    var a := TrimStart(s);
    TrimStartSpec(s);
    var i := |s| - |a|;
    assert a == s[i..];
    var b := TrimEnd(a);
    TrimEndSpec(a);
    var j := i + |b|;
    assert b == a[..|b|];
    assert b == s[i..j];
    assert s[j..] == a[|b|..];
    assert AllSpace(s[..i]) && AllSpace(s[j..]);
    if b != [] {
      assert b[0] == a[0];
    }
  }

  /** `s.trim()` is empty exactly when `s` is blank. */
  lemma TrimEmptyIffBlank(s: string)
    ensures Trim(s) == [] <==> AllSpace(s)
  {
    var a := TrimStart(s);
    TrimStartSpec(s);
    TrimEndSpec(a);
    if Trim(s) == [] {
      assert AllSpace(a[0..]);
      assert s == s[..|s| - |a|] + a;
    }
    if AllSpace(s) {
      TrimStartOfBlank(s);
    }
  }

  lemma {:induction false} TrimStartOfBlank(s: string)
    requires AllSpace(s)
    ensures TrimStart(s) == []
  {
    if s != [] {
      TrimStartOfBlank(s[1..]);
    }
  }

  /** Text that neither starts nor ends with white space is its own trim. */
  lemma TrimOfUnpadded(s: string)
    requires s == [] || (!IsSpace(s[0]) && !IsSpace(s[|s| - 1]))
    ensures Trim(s) == s
  {
    if s != [] {
      assert TrimStart(s) == s;
      assert TrimEnd(s) == s;
    }
  }

  /** Trimming twice is trimming once. */
  lemma TrimIdempotent(s: string)
    ensures Trim(Trim(s)) == Trim(s)
  {
    TrimIsCore(s);
    TrimOfUnpadded(Trim(s));
  }

  /** True when `pat` occurs in `s` at position `i`. */
  predicate OccursAt(s: string, pat: string, i: nat) {
    i + |pat| <= |s| && s[i..i + |pat|] == pat
  }

  /** Index of the first occurrence of `pat` in `s` at or after `from`. */
  function IndexOfFrom(s: string, pat: string, from: nat): (r: Option<nat>)
    requires from <= |s|
    ensures r.Some? ==> from <= r.value && OccursAt(s, pat, r.value)
    ensures forall k :: from <= k && (r.None? || k < r.value) ==> !OccursAt(s, pat, k)
    decreases |s| - from
  {
    if OccursAt(s, pat, from) then Some(from)
    else if from == |s| then None
    else IndexOfFrom(s, pat, from + 1)
  }

  /** JavaScript's `s.replace(pat, "")` with a string pattern: removes the first occurrence only. */
  function RemoveFirst(s: string, pat: string): string
  {
    match IndexOfFrom(s, pat, 0)
    case None => s
    case Some(i) => s[..i] + s[i + |pat|..]
  }

  /**
   * `RemoveFirst` cuts `pat` out at its earliest position and leaves strings
   * without `pat` unchanged.
   */
  lemma RemoveFirstSpec(s: string, pat: string)
    ensures (forall k :: 0 <= k <= |s| ==> !OccursAt(s, pat, k)) ==> RemoveFirst(s, pat) == s
    ensures forall i ::
              && 0 <= i <= |s| && OccursAt(s, pat, i)
              && (forall k :: 0 <= k < i ==> !OccursAt(s, pat, k))
              ==> RemoveFirst(s, pat) == s[..i] + s[i + |pat|..]
  {
    var r := IndexOfFrom(s, pat, 0);
    if r.Some? {
      var first := r.value;
      assert first <= |s| && OccursAt(s, pat, first);
      forall i | 0 <= i <= |s| && OccursAt(s, pat, i) && (forall k :: 0 <= k < i ==> !OccursAt(s, pat, k))
        ensures i == first
      {
        assert !(i < first);
        assert !(first < i);
      }
    }
  }

  /** A prefix followed by any rest loses exactly that prefix. */
  lemma RemoveLeadingPrefix(pat: string, rest: string)
    ensures RemoveFirst(pat + rest, pat) == rest
  {
    var s := pat + rest;
    assert OccursAt(s, pat, 0);
    assert s[0 + |pat|..] == rest;
  }

  /** Removing a non-empty pattern leaves nothing only from nothing or from the pattern itself. */
  lemma RemoveFirstEmpty(s: string, pat: string)
    requires pat != []
    ensures RemoveFirst(s, pat) == [] <==> s == [] || s == pat
  {
    var r := IndexOfFrom(s, pat, 0);
    if r.None? {
      assert s == pat ==> OccursAt(s, pat, 0);
    } else {
      var i := r.value;
      assert |RemoveFirst(s, pat)| == |s| - |pat|;
      if |s| == |pat| {
        assert i == 0 && s == s[0..|pat|];
      }
    }
  }

  /** ASCII `toLowerCase`: maps 'A'..'Z' to 'a'..'z' and keeps every other character. */
  function ToLower(s: string): string {
    if s == [] then []
    else [LowerChar(s[0])] + ToLower(s[1..])
  }

  /** Lower-casing keeps the length, shifts each capital by 32 code points and keeps every other character. */
  lemma {:induction false} ToLowerSpec(s: string)
    ensures |ToLower(s)| == |s|
    ensures forall i :: 0 <= i < |s| ==>
      if 'A' <= s[i] <= 'Z' then ToLower(s)[i] as int == s[i] as int + 32 else ToLower(s)[i] == s[i]
  {
    if s != [] {
      ToLowerSpec(s[1..]);
      assert forall i :: 1 <= i < |s| ==> ToLower(s)[i] == ToLower(s[1..])[i - 1] && s[1..][i - 1] == s[i];
    }
  }

  function LowerChar(c: char): char {
    if 'A' <= c <= 'Z' then (c as int + 32) as char else c
  }

  /** The decimal digits of `n`, as `Number.prototype.toString()` renders a non-negative integer. */
  function Decimal(n: nat): (r: string)
    ensures |r| > 0
    ensures forall i :: 0 <= i < |r| ==> '0' <= r[i] <= '9'
  {
    if n < 10 then [Digit(n)] else Decimal(n / 10) + [Digit(n % 10)]
  }

  function Digit(d: nat): (c: char)
    requires d < 10
    ensures '0' <= c <= '9' && c as int - '0' as int == d
  {
    ('0' as int + d) as char
  }

  predicate AllDigits(s: string) {
    forall i :: 0 <= i < |s| ==> '0' <= s[i] <= '9'
  }

  /** The number a string of decimal digits denotes. */
  function DigitsValue(s: string): nat
    requires AllDigits(s)
    decreases |s|
  {
    if s == [] then 0
    else DigitsValue(s[..|s| - 1]) * 10 + (s[|s| - 1] as int - '0' as int)
  }

  /** Reading the rendered digits back gives the number, and the rendering has no leading zero. */
  lemma {:induction false} DecimalRoundTrip(n: nat)
    ensures AllDigits(Decimal(n)) && DigitsValue(Decimal(n)) == n
    ensures Decimal(n)[0] == '0' ==> n == 0
    decreases n
  {
    if n >= 10 {
      DecimalRoundTrip(n / 10);
      var r := Decimal(n);
      assert r[..|r| - 1] == Decimal(n / 10);
    }
  }

  /** Different numbers render differently. */
  lemma DecimalInjective(m: nat, n: nat)
    requires Decimal(m) == Decimal(n)
    ensures m == n
  {
    DecimalRoundTrip(m);
    DecimalRoundTrip(n);
  }
}
