/** Vocabulary of the framed cleartext recognisers. */
module Wire {
  import opened Common

  /** What an observed frame proves. */
  datatype Material =
    | RedisAuth(hello: bool, username: Bytes, password: Bytes)
    | PostgresPassword(methodKnown: bool, password: Bytes)
    | Coverage(reason: string)

  /** A complete frame: its length, and the record it gives rise to, if any. */
  datatype Frame = Frame(length: nat, material: Option<Material>)

  const MAX_FIELD_BYTES := 8192
  const MAX_AUTH_MESSAGE_BYTES := 32768

  /** The bytes of `a` from `i` on are a prefix of the bytes of `b` from `j` on. */
  predicate Continues(a: Bytes, i: nat, b: Bytes, j: nat) {
    i <= |a| && j + |a| - i <= |b| && a[i..] == b[j..j + |a| - i]
  }

  lemma ContinuesAt(a: Bytes, i: nat, b: Bytes, j: nat, k: nat)
    requires Continues(a, i, b, j) && i + k < |a|
    ensures j + k < |b| && a[i + k] == b[j + k]
  {
    assert a[i..][k] == a[i + k] && b[j..j + |a| - i][k] == b[j + k];
  }

  lemma ContinuesSlice(a: Bytes, i: nat, b: Bytes, j: nat, lo: nat, hi: nat)
    requires Continues(a, i, b, j) && lo <= hi && i + hi <= |a|
    ensures j + hi <= |b| && a[i + lo..i + hi] == b[j + lo..j + hi]
  {
    var x, y := a[i + lo..i + hi], b[j + lo..j + hi];
    forall k | 0 <= k < |x| ensures x[k] == y[k] {
      ContinuesAt(a, i, b, j, lo + k);
    }
  }

  lemma ContinuesAppend(a: Bytes, b: Bytes, at: nat)
    requires at <= |a|
    ensures Continues(a, at, a + b, at)
  {
  }

  lemma ContinuesSuffix(d: Bytes, base: nat, at: nat)
    requires base <= at <= |d|
    ensures Continues(d, at, d[base..], at - base) && Continues(d[base..], at - base, d, at)
  {
  }

  // ---------------------------------------------------------------- digits and searches

  predicate IsDigit(b: Byte) { 48 <= b <= 57 }

  predicate AllDigits(raw: Bytes) { raw == [] || (IsDigit(raw[0]) && AllDigits(raw[1..])) }

  function Decimal(digits: Bytes): nat {
    if digits == [] then 0 else 10 * Decimal(digits[..|digits| - 1]) + Max(0, digits[|digits| - 1] as int - 48)
  }

  predicate IsHex(b: Byte) { IsDigit(b) || 65 <= b <= 70 || 97 <= b <= 102 }

  /** The first `b` from `at` on. */
  function FindByteFrom(d: Bytes, b: Byte, at: nat): (r: Option<nat>)
    ensures r.Some? ==> at <= r.value < |d|
    decreases |d| - at
  {
    if at >= |d| then None else if d[at] == b then Some(at) else FindByteFrom(d, b, at + 1)
  }

  // ---------------------------------------------------------------- line ends

  const CR: Byte := 13
  const LF: Byte := 10

  predicate CrlfAt(d: Bytes, i: nat) { i + 2 <= |d| && d[i] == CR && d[i + 1] == LF }

  /** The first CR LF that begins at or after `at` and ends by `limit`. */
  function FindCrlf(d: Bytes, at: nat, limit: nat): (r: Option<nat>)
    ensures r.Some? ==> at <= r.value && r.value + 2 <= limit && r.value + 2 <= |d|
    decreases limit - at
  {
    if at + 2 > limit then None
    else if CrlfAt(d, at) then Some(at)
    else FindCrlf(d, at + 1, limit)
  }

  lemma {:induction false} FindCrlfMeans(d: Bytes, at: nat, limit: nat)
    ensures var r := FindCrlf(d, at, limit);
            && (r.Some? ==> CrlfAt(d, r.value) && forall k :: at <= k < r.value ==> !CrlfAt(d, k))
            && (r.None? ==> forall k :: at <= k && k + 2 <= limit ==> !CrlfAt(d, k))
    decreases limit - at
  {
    if at + 2 <= limit && !CrlfAt(d, at) {
      FindCrlfMeans(d, at + 1, limit);
    }
  }

  lemma CrlfContinues(a: Bytes, i: nat, b: Bytes, j: nat, n: nat)
    requires Continues(a, i, b, j) && i + n + 2 <= |a|
    ensures CrlfAt(a, i + n) <==> CrlfAt(b, j + n)
  {
    ContinuesAt(a, i, b, j, n);
    ContinuesAt(a, i, b, j, n + 1);
  }

  /** A line end that was found stays the first one, wherever the bytes are and whatever follows. */
  lemma FindCrlfStable(a: Bytes, i: nat, b: Bytes, j: nat, n: nat, limit: nat, limit': nat)
    requires Continues(a, i, b, j) && FindCrlf(a, i + n, limit).Some?
    requires limit - i <= limit' - j
    ensures FindCrlf(b, j + n, limit') == Some(FindCrlf(a, i + n, limit).value - i + j)
  {
    var e := FindCrlf(a, i + n, limit).value;
    FindCrlfMeans(a, i + n, limit);
    FindCrlfMeans(b, j + n, limit');
    CrlfContinues(a, i, b, j, e - i);
    forall k | j + n <= k < e - i + j ensures !CrlfAt(b, k) {
      CrlfContinues(a, i, b, j, k - j);
      assert !CrlfAt(a, k - j + i);
    }
  }
}
