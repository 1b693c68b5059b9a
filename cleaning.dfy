/**
 * The clean-up every JSON-producing handler applies to the model's reply
 * before parsing it: strip, drop a leading "```json", then a leading "```",
 * then a trailing "```", strip again. Each step looks at the whole text,
 * not at lines, and each runs at most once.
 */
module Cleaning {
  import opened Text

  const Fence: string := "```"
  const JsonFence: string := "```json"

  function DropJsonOpen(s: string): (r: string)
    ensures |r| <= |s|
  {
    if StartsWith(s, JsonFence) then s[|JsonFence|..] else s
  }

  function DropOpen(s: string): (r: string)
    ensures |r| <= |s|
  {
    if StartsWith(s, Fence) then s[|Fence|..] else s
  }

  function DropClose(s: string): (r: string)
    ensures |r| <= |s|
  {
    if EndsWith(s, Fence) then s[..|s| - |Fence|] else s
  }

  /** The straight-line clean-up chain, applied to a reply. */
  function Clean(raw: string): (r: string)
    ensures Stripped(r)
    ensures |r| <= |raw|
  {
    var stripped := Strip(raw);
    var unfenced := DropOpen(DropJsonOpen(stripped));
    Strip(DropClose(unfenced))
  }

  /** `t` is a contiguous piece of `s`. */
  ghost predicate IsSliceOf(t: string, s: string) {
    exists i, j :: 0 <= i <= j <= |s| && t == s[i..j]
  }

  lemma SliceTrans(t: string, u: string, s: string)
    requires IsSliceOf(t, u) && IsSliceOf(u, s)
    ensures IsSliceOf(t, s)
  {
    var i, j :| 0 <= i <= j <= |u| && t == u[i..j];
    var k, l :| 0 <= k <= l <= |s| && u == s[k..l];
    assert |u| == l - k;
    forall m | 0 <= m < j - i
      ensures t[m] == s[k + i..k + j][m]
    {
      assert t[m] == u[i + m];
      assert u[i + m] == s[k + i + m];
    }
    assert t == s[k + i..k + j];
  }

  lemma StripIsSlice(s: string)
    ensures IsSliceOf(Strip(s), s)
  {
    var k := StripOffset(s);
    assert Strip(s) == s[k..k + |Strip(s)|];
  }

  lemma StagesAreSlices(s: string)
    ensures IsSliceOf(DropJsonOpen(s), s)
    ensures IsSliceOf(DropOpen(s), s)
    ensures IsSliceOf(DropClose(s), s)
  {
    assert s == s[0..|s|];
    if StartsWith(s, JsonFence) { assert DropJsonOpen(s) == s[7..|s|]; }
    if StartsWith(s, Fence) { assert DropOpen(s) == s[3..|s|]; }
    if EndsWith(s, Fence) { assert DropClose(s) == s[0..|s| - 3]; }
  }

  /** The cleaned reply is one contiguous piece of the raw reply. */
  lemma CleanIsSlice(raw: string)
    ensures IsSliceOf(Clean(raw), raw)
  {
    var s0 := Strip(raw);
    var s1 := DropJsonOpen(s0);
    var s2 := DropOpen(s1);
    var s3 := DropClose(s2);
    StripIsSlice(raw);
    StagesAreSlices(s0);
    StagesAreSlices(s1);
    StagesAreSlices(s2);
    StripIsSlice(s3);
    SliceTrans(s1, s0, raw);
    SliceTrans(s2, s1, raw);
    SliceTrans(s3, s2, raw);
    SliceTrans(Clean(raw), s3, raw);
  }

  /** A payload the chain leaves alone: stripped, and no fence at either end. */
  predicate Unfenced(p: string) {
    Stripped(p) && !StartsWith(p, Fence) && !EndsWith(p, Fence)
  }

  lemma NoFenceBeforeNewline(p: string, q: string)
    requires !StartsWith(p, Fence)
    ensures !StartsWith(p + "\n" + q, Fence)
  {
    var s := p + "\n" + q;
    if |p| < 3 {
      assert s[|p|] == '\n';
    } else {
      assert s[..3] == p[..3];
    }
  }

  lemma NoFenceAfterNewline(q: string, p: string)
    requires !EndsWith(p, Fence)
    ensures !EndsWith(q + "\n" + p, Fence)
  {
    var s := q + "\n" + p;
    if |p| < 3 {
      assert s[|s| - 1 - |p|] == '\n';
    } else {
      assert s[|s| - 3..] == p[|p| - 3..];
    }
  }

  lemma JsonFenceIsFence(s: string)
    requires StartsWith(s, JsonFence)
    ensures StartsWith(s, Fence)
  {
    assert s[..3] == s[..7][..3];
  }

  lemma StrippedOnly(p: string)
    requires Stripped(p)
    ensures Strip(p) == p
  {
    assert p == [] + p + [];
    StripPadded([], p, []);
  }

  /** An unfenced payload passes through the chain unchanged. */
  lemma CleanUnfenced(p: string)
    requires Unfenced(p)
    ensures Clean(p) == p
  {
    StrippedOnly(p);
    if StartsWith(p, JsonFence) { JsonFenceIsFence(p); }
  }

  lemma JsonFenceNotFenceNewline(x: string)
    requires StartsWith(x, Fence + "\n")
    ensures !StartsWith(x, JsonFence)
  {
    assert x[3] == '\n';
  }

  lemma NewlineFirstNoFence(y: string)
    requires y != [] && y[0] == '\n'
    ensures DropOpen(y) == y
  {
  }

  /** After the opening fence is gone, nothing else is removed but the newline. */
  lemma CleanAfterOpen(p: string, y: string)
    requires Stripped(p) && !EndsWith(p, Fence)
    requires y == "\n" + p
    ensures Strip(DropClose(DropOpen(y))) == p
  {
    NewlineFirstNoFence(y);
    NoFenceAfterNewline([], p);
    assert DropClose(y) == y;
    StripPadded("\n", p, []);
    assert "\n" + p + [] == y;
  }

  /** The chain's result, from what each of its stages yields. */
  lemma CleanByStages(x: string, stripped: string, unfenced: string, closed: string, p: string)
    requires Strip(x) == stripped
    requires DropOpen(DropJsonOpen(stripped)) == unfenced
    requires DropClose(unfenced) == closed
    requires Strip(closed) == p
    ensures Clean(x) == p
  {
  }

  lemma OpenedEmptyStripped(x: string, fence: string)
    requires fence == JsonFence || fence == Fence
    requires x == fence + "\n"
    ensures Strip(x) == fence
  {
    assert x == [] + fence + "\n";
    StripPadded([], fence, "\n");
  }

  lemma FenceDropsToEmpty(fence: string)
    requires fence == JsonFence || fence == Fence
    ensures DropOpen(DropJsonOpen(fence)) == []
  {
    if fence == Fence { assert DropJsonOpen(fence) == fence; }
  }

  lemma CleanOpenedEmpty(x: string, fence: string)
    requires fence == JsonFence || fence == Fence
    requires x == fence + "\n"
    ensures Clean(x) == []
  {
    OpenedEmptyStripped(x, fence);
    FenceDropsToEmpty(fence);
    CleanByStages(x, fence, [], [], []);
  }

  lemma OpenJsonStage(p: string, x: string)
    requires x == JsonFence + "\n" + p
    ensures DropOpen(DropJsonOpen(x)) == "\n" + p
  {
    assert x[..|JsonFence|] == JsonFence;
    assert x[|JsonFence|..] == "\n" + p;
    NewlineFirstNoFence("\n" + p);
  }

  lemma OpenPlainStage(p: string, x: string)
    requires x == Fence + "\n" + p
    ensures DropOpen(DropJsonOpen(x)) == "\n" + p
  {
    assert x[..4] == Fence + "\n";
    JsonFenceNotFenceNewline(x);
    assert x[..|Fence|] == Fence;
    assert x[|Fence|..] == "\n" + p;
  }

  lemma CleanOpenedAt(p: string, x: string, fence: string)
    requires fence == JsonFence || fence == Fence
    requires Stripped(p) && !EndsWith(p, Fence) && p != []
    requires x == fence + "\n" + p
    ensures Clean(x) == p
  {
    assert x[0] == '`' && x[|x| - 1] == p[|p| - 1];
    StrippedOnly(x);
    if fence == Fence {
      OpenPlainStage(p, x);
    } else {
      OpenJsonStage(p, x);
    }
    CleanAfterOpen(p, "\n" + p);
  }

  lemma CleanOpenedWith(p: string, fence: string)
    requires fence == JsonFence || fence == Fence
    requires Stripped(p) && !EndsWith(p, Fence)
    ensures Clean(fence + "\n" + p) == p
  {
    if p == [] {
      assert fence + "\n" + p == fence + "\n";
      CleanOpenedEmpty(fence + "\n", fence);
    } else {
      CleanOpenedAt(p, fence + "\n" + p, fence);
    }
  }

  /** A payload behind an opening "```json" line comes back exactly. */
  lemma CleanJsonOpened(p: string)
    requires Stripped(p) && !EndsWith(p, Fence)
    ensures Clean(JsonFence + "\n" + p) == p
  {
    CleanOpenedWith(p, JsonFence);
  }

  /** A payload behind an opening "```" line comes back exactly. */
  lemma CleanOpened(p: string)
    requires Stripped(p) && !EndsWith(p, Fence)
    ensures Clean(Fence + "\n" + p) == p
  {
    CleanOpenedWith(p, Fence);
  }

  /** The closing fence is dropped from whatever precedes it. */
  lemma DropCloseOf(q: string)
    ensures DropClose(q + Fence) == q
  {
    assert (q + Fence)[|q|..] == Fence;
    assert (q + Fence)[..|q|] == q;
  }

  lemma ClosedNoOpen(p: string, x: string)
    requires !StartsWith(p, Fence)
    requires x == p + "\n" + Fence
    ensures DropOpen(DropJsonOpen(x)) == x
  {
    NoFenceBeforeNewline(p, Fence);
    if StartsWith(x, JsonFence) { JsonFenceIsFence(x); }
  }

  lemma ClosedIsStripped(p: string, x: string)
    requires Stripped(p) && p != []
    requires x == p + "\n" + Fence
    ensures Strip(x) == x
  {
    assert x[0] == p[0] && x[|x| - 1] == '`';
    StrippedOnly(x);
  }

  lemma CleanClosedEmpty(x: string)
    requires x == "\n" + Fence
    ensures Clean(x) == []
  {
    assert Strip(x) == Fence by {
      assert x == "\n" + Fence + [];
      StripPadded("\n", Fence, []);
    }
    assert DropOpen(DropJsonOpen(Fence)) == [] by {
      assert DropJsonOpen(Fence) == Fence;
    }
    CleanByStages(x, Fence, [], [], []);
  }

  lemma CleanClosedAt(p: string, x: string)
    requires Stripped(p) && !StartsWith(p, Fence)
    requires x == p + "\n" + Fence
    ensures Clean(x) == p
  {
    if p == [] {
      assert x == "\n" + Fence;
      CleanClosedEmpty(x);
    } else {
      ClosedIsStripped(p, x);
      ClosedNoOpen(p, x);
      DropCloseOf(p + "\n");
      assert [] + p + "\n" == p + "\n";
      StripPadded([], p, "\n");
      CleanByStages(x, x, x, p + "\n", p);
    }
  }

  /** A payload followed by a closing "```" line comes back exactly. */
  lemma CleanClosed(p: string)
    requires Stripped(p) && !StartsWith(p, Fence)
    ensures Clean(p + "\n" + Fence) == p
  {
    CleanClosedAt(p, p + "\n" + Fence);
  }

  lemma WrappedIsStripped(p: string, x: string, fence: string)
    requires fence == JsonFence || fence == Fence
    requires x == fence + "\n" + p + "\n" + Fence
    ensures Strip(x) == x
  {
    assert x[0] == '`' && x[|x| - 1] == '`';
    StrippedOnly(x);
  }

  lemma WrappedOpenStage(p: string, x: string, fence: string)
    requires fence == JsonFence || fence == Fence
    requires x == fence + "\n" + p + "\n" + Fence
    ensures DropOpen(DropJsonOpen(x)) == ("\n" + p + "\n") + Fence
  {
    var body := p + "\n" + Fence;
    assert x == fence + "\n" + body;
    if fence == Fence {
      OpenPlainStage(body, x);
    } else {
      OpenJsonStage(body, x);
    }
    assert "\n" + body == ("\n" + p + "\n") + Fence;
  }

  lemma CleanWrappedAt(p: string, x: string, fence: string)
    requires fence == JsonFence || fence == Fence
    requires Stripped(p)
    requires x == fence + "\n" + p + "\n" + Fence
    ensures Clean(x) == p
  {
    var inner := "\n" + p + "\n";
    WrappedIsStripped(p, x, fence);
    WrappedOpenStage(p, x, fence);
    DropCloseOf(inner);
    StripPadded("\n", p, "\n");
    CleanByStages(x, x, inner + Fence, inner, p);
  }

  /** A payload inside a "```json" ... "```" block comes back exactly, whatever it starts or ends with. */
  lemma CleanJsonWrapped(p: string)
    requires Stripped(p)
    ensures Clean(JsonFence + "\n" + p + "\n" + Fence) == p
  {
    CleanWrappedAt(p, JsonFence + "\n" + p + "\n" + Fence, JsonFence);
  }

  /** A payload inside a "```" ... "```" block comes back exactly, whatever it starts or ends with. */
  lemma CleanWrapped(p: string)
    requires Stripped(p)
    ensures Clean(Fence + "\n" + p + "\n" + Fence) == p
  {
    CleanWrappedAt(p, Fence + "\n" + p + "\n" + Fence, Fence);
  }

  /**
   * The chain is not idempotent: a reply fenced twice loses one layer per
   * pass, so cleaning the cleaned text changes it again.
   */
  lemma CleanNotIdempotent()
    ensures var twice := JsonFence + "\n" + (JsonFence + "\n" + "{}" + "\n" + Fence) + "\n" + Fence;
      Clean(twice) == JsonFence + "\n" + "{}" + "\n" + Fence
      && Clean(Clean(twice)) == "{}"
      && Clean(Clean(twice)) != Clean(twice)
  {
    var inner := JsonFence + "\n" + "{}" + "\n" + Fence;
    assert Stripped("{}");
    assert inner[0] == '`' && inner[|inner| - 1] == '`';
    CleanJsonWrapped(inner);
    CleanJsonWrapped("{}");
    assert |inner| != 2;
  }
}
