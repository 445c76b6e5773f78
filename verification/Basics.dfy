/** Definitions shared by every component: bytes, digests, clocks, finite sums. */
module Basics {
  newtype byte = x: int | 0 <= x < 256

  type Bytes = seq<byte>

  datatype Option<+T> = None | Some(value: T)

  /** SHA-256 taken as an injective function: a digest carries the bytes it was taken of. */
  datatype Digest = Sha256(preimage: Bytes)

  /** Instants and durations are counted in microseconds, the resolution of a `datetime`. */
  type Time = int

  const SECOND: Time := 1_000_000
  const MINUTE: Time := 60 * SECOND
  const HOUR: Time := 3600 * SECOND
  const DAY: Time := 24 * HOUR

  /** A body that arrives in chunks. */
  function Joined(chunks: seq<Bytes>): Bytes {
    if chunks == [] then [] else chunks[0] + Joined(chunks[1..])
  }

  lemma {:induction false} JoinedSplit(chunks: seq<Bytes>, i: nat)
    requires i <= |chunks|
    ensures Joined(chunks) == Joined(chunks[..i]) + Joined(chunks[i..])
  {
    if i == 0 {
      assert chunks[i..] == chunks;
    } else {
      assert chunks[1..][..i - 1] == chunks[..i][1..] && chunks[1..][i - 1..] == chunks[i..];
      JoinedSplit(chunks[1..], i - 1);
    }
  }

  function Min(a: int, b: int): int {
    if a <= b then a else b
  }

  function Max(a: int, b: int): int {
    if a >= b then a else b
  }

  /** The sum of the values of a finite map, SQL's `sum` over a table column. */
  ghost function Total<K>(m: map<K, nat>): nat {
    if m == map[] then 0
    else
      var k :| k in m;
      m[k] + Total(m - {k})
  }

  /** Any key may be taken out of the sum first. */
  lemma {:induction false} TotalTake<K>(m: map<K, nat>, k: K)
    requires k in m
    ensures Total(m) == m[k] + Total(m - {k})
    decreases |m|
  {
    var j :| j in m && Total(m) == m[j] + Total(m - {j});
    if j != k {
      TotalTake(m - {j}, k);
      TotalTake(m - {k}, j);
      assert m - {j} - {k} == m - {k} - {j};
    }
  }

  /** A new key adds its value to the sum. */
  lemma TotalAdd<K>(m: map<K, nat>, k: K, v: nat)
    requires k !in m
    ensures Total(m[k := v]) == Total(m) + v
  {
    TotalTake(m[k := v], k);
    assert m[k := v] - {k} == m;
  }

  /** Dropping keys and lowering values never raises the sum. */
  lemma {:induction false} TotalMono<K>(small: map<K, nat>, big: map<K, nat>)
    requires forall k :: k in small ==> k in big && small[k] <= big[k]
    ensures Total(small) <= Total(big)
    decreases |small|
  {
    if small != map[] {
      var k :| k in small;
      TotalTake(small, k);
      TotalTake(big, k);
      TotalMono(small - {k}, big - {k});
    }
  }

  lemma SubsetSize<T>(a: set<T>, b: set<T>)
    requires a <= b
    ensures |a| <= |b|
  {
    assert b == a + (b - a);
  }
}
