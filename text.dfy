/**
 * The few Python `str` operations the application uses, on strings of
 * code points: `isspace`/`strip`, `startswith`/`endswith`, `lower`,
 * `rfind`/`find`, slicing with a prefix bound, and `sep.join`/`split`.
 */
module Text {

  /** Python's `str.isspace` for one code point (the characters `str.strip()` removes). */
  predicate IsSpace(c: char) {
    var n := c as int;
    (0x09 <= n <= 0x0D) || (0x1C <= n <= 0x20) || n == 0x85 || n == 0xA0 || n == 0x1680
    || (0x2000 <= n <= 0x200A) || n == 0x2028 || n == 0x2029 || n == 0x202F
    || n == 0x205F || n == 0x3000
  }

  predicate AllSpace(s: string) {
    forall i :: 0 <= i < |s| ==> IsSpace(s[i])
  }

  /** Neither begins nor ends with whitespace: what `strip()` leaves. */
  predicate Stripped(s: string) {
    s == [] || (!IsSpace(s[0]) && !IsSpace(s[|s| - 1]))
  }

  /** Every character of `s[lo..hi]` is whitespace. */
  predicate SpaceBetween(s: string, lo: int, hi: int) {
    forall i :: lo <= i < hi && 0 <= i < |s| ==> IsSpace(s[i])
  }

  /** The first index at or after `i` that does not hold whitespace (`|s|` if none). */
  function SkipSpace(s: string, i: nat): (k: nat)
    requires i <= |s|
    ensures i <= k <= |s|
    ensures SpaceBetween(s, i, k)
    ensures k < |s| ==> !IsSpace(s[k])
    decreases |s| - i
  {
    if i < |s| && IsSpace(s[i]) then SkipSpace(s, i + 1) else i
  }

  /** The end of `s[lo..j]` once its trailing whitespace is cut off. */
  function TrimSpace(s: string, lo: nat, j: nat): (k: nat)
    requires lo <= j <= |s|
    ensures lo <= k <= j
    ensures SpaceBetween(s, k, j)
    ensures k > lo ==> !IsSpace(s[k - 1])
    decreases j
  {
    if j > lo && IsSpace(s[j - 1]) then TrimSpace(s, lo, j - 1) else j
  }

  /** Number of whitespace characters `strip()` removes at the front. */
  function StripOffset(s: string): (k: nat)
    ensures k <= |s|
  {
    SkipSpace(s, 0)
  }

  /** Where the text `strip()` keeps ends. */
  function StripEnd(s: string): (k: nat)
    ensures StripOffset(s) <= k <= |s|
  {
    TrimSpace(s, StripOffset(s), |s|)
  }

  /** `s.strip()`: `s` with leading and trailing whitespace removed. */
  function Strip(s: string): (r: string)
    ensures Stripped(r)
    ensures StripOffset(s) + |r| <= |s| && r == s[StripOffset(s)..StripOffset(s) + |r|]
    ensures SpaceBetween(s, 0, StripOffset(s)) && SpaceBetween(s, StripOffset(s) + |r|, |s|)
  {
    s[StripOffset(s)..StripEnd(s)]
  }

  /** The characterisation of `SkipSpace` determines it. */
  lemma {:induction false} SkipSpaceAt(s: string, i: nat, k: nat)
    requires i <= k <= |s| && SpaceBetween(s, i, k)
    requires k < |s| ==> !IsSpace(s[k])
    ensures SkipSpace(s, i) == k
    decreases k - i
  {
    if i < k {
      assert IsSpace(s[i]);
      SkipSpaceAt(s, i + 1, k);
    }
  }

  /** The characterisation of `TrimSpace` determines it. */
  lemma {:induction false} TrimSpaceAt(s: string, lo: nat, j: nat, k: nat)
    requires lo <= k <= j <= |s| && SpaceBetween(s, k, j)
    requires k > lo ==> !IsSpace(s[k - 1])
    ensures TrimSpace(s, lo, j) == k
    decreases j - k
  {
    if k < j {
      assert IsSpace(s[j - 1]);
      TrimSpaceAt(s, lo, j - 1, k);
    }
  }

  /** Whitespace padding around an already stripped text is exactly what `strip()` removes. */
  lemma StripPadded(a: string, p: string, b: string)
    requires AllSpace(a) && Stripped(p) && AllSpace(b)
    ensures Strip(a + p + b) == p
  {
    var s := a + p + b;
    assert forall i :: 0 <= i < |a| ==> s[i] == a[i];
    assert forall i :: |a| + |p| <= i < |s| ==> s[i] == b[i - |a| - |p|];
    if p == [] {
      assert forall i :: |a| <= i < |s| ==> s[i] == b[i - |a|];
      SkipSpaceAt(s, 0, |s|);
    } else {
      assert s[|a|] == p[0] && s[|a| + |p| - 1] == p[|p| - 1];
      SkipSpaceAt(s, 0, |a|);
      TrimSpaceAt(s, |a|, |s|, |a| + |p|);
      assert s[|a|..|a| + |p|] == p;
    }
  }

  /** `s.startswith(p)`. */
  predicate StartsWith(s: string, p: string) {
    |p| <= |s| && s[..|p|] == p
  }

  /** `s.endswith(p)`. */
  predicate EndsWith(s: string, p: string) {
    |p| <= |s| && s[|s| - |p|..] == p
  }

  /** Python's `lower()` restricted to the ASCII letters. */
  function LowerChar(c: char): (r: char)
    ensures 'A' <= c <= 'Z' ==> r as int == c as int + 32
    ensures !('A' <= c <= 'Z') ==> r == c
  {
    if 'A' <= c <= 'Z' then (c as int + 32) as char else c
  }

  function Lower(s: string): (r: string)
    ensures |r| == |s|
    ensures forall i :: 0 <= i < |s| ==> r[i] == LowerChar(s[i])
  {
    if s == [] then [] else [LowerChar(s[0])] + Lower(s[1..])
  }

  /** `s.rfind(c)`: the index of the last `c` in `s`, or -1 when there is none. */
  function RFind(s: string, c: char): (r: int)
    ensures -1 <= r < |s|
    ensures r >= 0 ==> s[r] == c
    ensures forall j :: r < j < |s| ==> s[j] != c
  {
    if s == [] then -1
    else if s[|s| - 1] == c then |s| - 1
    else RFind(s[..|s| - 1], c)
  }

  /** `s.find(c)`: the index of the first `c` in `s`, or -1 when there is none. */
  function Find(s: string, c: char): (r: int)
    ensures -1 <= r < |s|
    ensures r >= 0 ==> s[r] == c && forall j :: 0 <= j < r ==> s[j] != c
    ensures r == -1 ==> forall j :: 0 <= j < |s| ==> s[j] != c
  {
    if s == [] then -1
    else if s[0] == c then 0
    else
      var r := Find(s[1..], c);
      if r == -1 then -1 else r + 1
  }

  /** `s[:n]` for a non-negative `n`: the first min(|s|, n) characters. */
  function Take(s: string, n: nat): (r: string)
    ensures |r| == if |s| <= n then |s| else n
    ensures r == s[..|r|]
  {
    if |s| <= n then s else s[..n]
  }

  /** `sep.join(parts)`. */
  function Join(sep: string, parts: seq<string>): string
  {
    if |parts| == 0 then ""
    else if |parts| == 1 then parts[0]
    else parts[0] + sep + Join(sep, parts[1..])
  }

  /** `s.split(c)` for a one-character separator: never empty, empty pieces kept. */
  function Split(s: string, c: char): (r: seq<string>)
    ensures |r| >= 1
    decreases |s|
  {
    var i := Find(s, c);
    if i == -1 then [s] else [s[..i]] + Split(s[i + 1..], c)
  }

  /** Number of occurrences of `c` in `s`. */
  function Count(s: string, c: char): nat
  {
    if s == [] then 0 else (if s[0] == c then 1 else 0) + Count(s[1..], c)
  }

  function CountAll(parts: seq<string>, c: char): nat
  {
    if parts == [] then 0 else Count(parts[0], c) + CountAll(parts[1..], c)
  }

  lemma {:induction false} CountConcat(a: string, b: string, c: char)
    ensures Count(a + b, c) == Count(a, c) + Count(b, c)
    decreases |a|
  {
    if a != [] {
      assert (a + b)[1..] == a[1..] + b;
      CountConcat(a[1..], b, c);
    } else {
      assert a + b == b;
    }
  }

  /**
   * Joining n >= 1 parts with a one-character separator adds exactly n - 1
   * separators to the ones already in the parts.
   */
  lemma {:induction false} JoinCount(parts: seq<string>, c: char)
    requires |parts| >= 1
    ensures Count(Join([c], parts), c) == CountAll(parts, c) + |parts| - 1
    decreases |parts|
  {
    if |parts| == 1 {
      assert parts[1..] == [];
    } else {
      JoinCount(parts[1..], c);
      CountConcat(parts[0] + [c], Join([c], parts[1..]), c);
      CountConcat(parts[0], [c], c);
      assert Count([c], c) == 1 by { assert [c][1..] == []; }
    }
  }

  /**
   * When no part contains the separator, splitting the joined text gives the
   * parts back, in order, empty ones included.
   */
  lemma {:induction false} SplitJoin(parts: seq<string>, c: char)
    requires |parts| >= 1
    requires forall i :: 0 <= i < |parts| ==> c !in parts[i]
    ensures Split(Join([c], parts), c) == parts
    decreases |parts|
  {
    if |parts| == 1 {
    } else {
      var s := Join([c], parts[1..]);
      var t := parts[0] + [c] + s;
      assert t[|parts[0]|] == c;
      assert t[..|parts[0]|] == parts[0];
      assert Find(t, c) == |parts[0]|;
      assert t[|parts[0]| + 1..] == s;
      SplitJoin(parts[1..], c);
      assert [parts[0]] + parts[1..] == parts;
    }
  }
}
