/** Types and arithmetic shared by every component. */
module Common {

  /** One octet of captured data. */
  type Byte = b: int | 0 <= b < 256

  type Bytes = seq<Byte>

  datatype Option<+T> = None | Some(value: T)

  function Min(a: int, b: int): int { if a <= b then a else b }

  function Max(a: int, b: int): int { if a >= b then a else b }

  function SumNat(s: seq<nat>): nat { if s == [] then 0 else s[0] + SumNat(s[1..]) }

  /** Appends the members of `more` that are not there yet, keeping first-seen order. */
  function AppendNew(ids: seq<nat>, more: seq<nat>): (r: seq<nat>)
    ensures forall x :: x in r <==> x in ids || x in more
    decreases more
  {
    if more == [] then ids
    else AppendNew(if more[0] in ids then ids else ids + [more[0]], more[1..])
  }

  ghost predicate Distinct<T>(s: seq<T>) { forall i, j :: 0 <= i < j < |s| ==> s[i] != s[j] }

  lemma AppendNewDistinct(ids: seq<nat>, more: seq<nat>)
    requires Distinct(ids)
    ensures Distinct(AppendNew(ids, more))
    decreases more
  {
  }

  // Sequence identities, proved away from the contexts that need them.

  lemma AppendNil<T>(a: seq<T>)
    ensures a + [] == a && [] + a == a
  {
  }

  lemma AppendAssoc<T>(a: seq<T>, b: seq<T>, c: seq<T>)
    ensures (a + b) + c == a + (b + c)
  {
  }

  lemma AppendSnoc<T>(a: seq<T>, x: T)
    ensures (a + [x])[..|a|] == a && (a + [x])[|a|] == x
  {
  }

  lemma SplitAt<T>(a: seq<T>, i: nat)
    requires i < |a|
    ensures a == a[..i] + ([a[i]] + a[i + 1..])
  {
  }
}
