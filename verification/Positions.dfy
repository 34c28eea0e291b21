/** Bytes that stand at a position of a longer sequence. */
module Positions {
  import opened Common

  /** The bytes `x` stand at `pos`. Sealed, so that the solver compares bytes only where told to. */
  predicate At(d: Bytes, pos: nat, x: Bytes): (r: bool)
    ensures r ==> pos + |x| <= |d|
  {
    AtSealed(d, pos, x, |d| + 3)
  }

  predicate AtSealed(d: Bytes, pos: nat, x: Bytes, depth: nat): (r: bool)
    ensures r ==> pos + |x| <= |d|
    decreases depth
  {
    if depth > 0 then AtSealed(d, pos, x, depth - 1) else pos + |x| <= |d| && d[pos..pos + |x|] == x
  }

  lemma {:induction false} AtUnsealed(d: Bytes, pos: nat, x: Bytes, depth: nat)
    ensures AtSealed(d, pos, x, depth) <==> pos + |x| <= |d| && d[pos..pos + |x|] == x
  {
    if depth > 0 {
      AtUnsealed(d, pos, x, depth - 1);
    }
  }

  lemma AtMeans(d: Bytes, pos: nat, x: Bytes)
    ensures At(d, pos, x) <==> pos + |x| <= |d| && d[pos..pos + |x|] == x
  {
    AtUnsealed(d, pos, x, |d| + 3);
  }

  lemma AtSplit(d: Bytes, pos: nat, a: Bytes, b: Bytes)
    requires At(d, pos, a + b)
    ensures At(d, pos, a) && At(d, pos + |a|, b)
  {
    AtMeans(d, pos, a + b);
    AtMeans(d, pos, a);
    AtMeans(d, pos + |a|, b);
    assert d[pos..pos + |a|] == d[pos..pos + |a + b|][..|a|];
    assert d[pos + |a|..pos + |a| + |b|] == d[pos..pos + |a + b|][|a|..];
  }

  lemma AtIndex(d: Bytes, pos: nat, x: Bytes, i: nat)
    requires At(d, pos, x) && i < |x|
    ensures d[pos + i] == x[i]
  {
    AtMeans(d, pos, x);
    assert d[pos..pos + |x|][i] == x[i];
  }
}
