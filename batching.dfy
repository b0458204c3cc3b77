/** The batch split of `extract_commercial_opportunities_batched`
    (comment_analyzer.py:339-341): `[xs[i:i + size] for i in range(0, len(xs), size)]`. */
module Batching {

  function Min(a: int, b: int): int {
    if a <= b then a else b
  }

  /** Contiguous batches of `size` elements; the last one may be shorter. */
  function Partition<T>(xs: seq<T>, size: nat): seq<seq<T>>
    requires size > 0
    decreases |xs|
  {
    if xs == [] then []
    else if |xs| <= size then [xs]
    else [xs[..size]] + Partition(xs[size..], size)
  }

  /** All batches, one after the other. */
  function Concat<T>(batches: seq<seq<T>>): seq<T> {
    if batches == [] then [] else batches[0] + Concat(batches[1..])
  }

  /** Concatenating the batches gives back the input. */
  lemma {:induction false} PartitionConcat<T>(xs: seq<T>, size: nat)
    requires size > 0
    ensures Concat(Partition(xs, size)) == xs
    decreases |xs|
  {
    if |xs| > size {
      var rest := Partition(xs[size..], size);
      PartitionConcat(xs[size..], size);
      assert ([xs[..size]] + rest)[1..] == rest;
      assert xs == xs[..size] + xs[size..];
    }
  }

  /** There are `ceil(|xs| / size)` batches (the least count whose
      capacity covers `xs`); each holds `size` elements except the last,
      which holds the remaining one to `size`. */
  lemma {:induction false} PartitionShape<T>(xs: seq<T>, size: nat)
    requires size > 0
    ensures var batches := Partition(xs, size);
      && |xs| <= size * |batches| < |xs| + size
      && (forall i :: 0 <= i < |batches| - 1 ==> |batches[i]| == size)
      && (|batches| > 0 ==>
            var last := batches[|batches| - 1];
            1 <= |last| <= size && |last| == |xs| - size * (|batches| - 1))
    decreases |xs|
  {
    var batches := Partition(xs, size);
    if |xs| > size {
      var rest := Partition(xs[size..], size);
      PartitionShape(xs[size..], size);
      assert batches == [xs[..size]] + rest;
      assert forall i :: 1 <= i < |batches| ==> batches[i] == rest[i - 1];
      assert size * |batches| == size + size * |rest|;
      assert size * (|batches| - 1) == size * |rest|;
      assert size * (|rest| - 1) == size * |rest| - size;
    }
  }

  lemma MulSucc(k: int, size: int)
    ensures (k + 1) * size == k * size + size
  {
  }

  lemma MulAtLeast(k: int, size: int)
    requires k >= 1 && size > 0
    ensures k * size >= size
  {
    assert k * size == (k - 1) * size + size;
  }

  /** The only count whose capacity covers `m` elements with less than one
      batch to spare is `ceil(m / size)`. */
  lemma CeilUnique(m: int, size: int, n: int)
    requires size > 0 && m >= 0 && m <= size * n < m + size
    ensures n == (m + size - 1) / size
  {
    var q := (m + size - 1) / size;
    assert q * size <= m + size - 1 < q * size + size;
    var k := n - q;
    assert size * n == size * q + size * k;
    if k >= 1 {
      MulAtLeast(k, size);
    } else if k <= -1 {
      MulAtLeast(-k, size);
    }
  }

  /** The count is `ceil(|xs| / size)` written with integer division. */
  lemma PartitionCount<T>(xs: seq<T>, size: nat)
    requires size > 0
    ensures |Partition(xs, size)| == (|xs| + size - 1) / size
  {
    PartitionShape(xs, size);
    CeilUnique(|xs|, size, |Partition(xs, size)|);
  }

  /** Batch `i` holds the elements ranked `i * size` up to `i * size + size`. */
  lemma {:induction false} PartitionSlice<T>(xs: seq<T>, size: nat, i: nat)
    requires size > 0 && i < |Partition(xs, size)|
    ensures i * size < |xs|
    ensures Partition(xs, size)[i] == xs[i * size .. Min(i * size + size, |xs|)]
    decreases |xs|
  {
    if i > 0 {
      var tail := xs[size..];
      assert Partition(xs, size) == [xs[..size]] + Partition(tail, size);
      PartitionSlice(tail, size, i - 1);
      var lo := (i - 1) * size;
      MulSucc(i - 1, size);
      assert lo + size == i * size;
      assert tail[lo .. Min(lo + size, |tail|)] == xs[i * size .. Min(i * size + size, |xs|)];
    }
  }
}
