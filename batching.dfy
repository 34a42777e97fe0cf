/** Splitting a list into consecutive bounded slices, and joining slices back together. */
module Batching {

  function Min(a: int, b: int): int
  {
    if a <= b then a else b
  }

  /** The concatenation, in order, of a sequence of sequences. */
  function Flatten<T>(ss: seq<seq<T>>): seq<T>
    decreases |ss|
  {
    if ss == [] then [] else Flatten(ss[..|ss| - 1]) + ss[|ss| - 1]
  }

  lemma {:induction false} FlattenCons<T>(s: seq<T>, ss: seq<seq<T>>)
    ensures Flatten([s] + ss) == s + Flatten(ss)
    decreases |ss|
  {
    var all := [s] + ss;
    if ss == [] {
      assert all[..|all| - 1] == [];
    } else {
      assert all[..|all| - 1] == [s] + ss[..|ss| - 1];
      FlattenCons(s, ss[..|ss| - 1]);
    }
  }

  /** When the first j pieces all have length k, they flatten to k * j items. */
  lemma {:induction false} FlattenPrefixLength<T>(ss: seq<seq<T>>, k: nat, j: nat)
    requires j <= |ss|
    requires forall i | 0 <= i < j :: |ss[i]| == k
    ensures |Flatten(ss[..j])| == k * j
    decreases j
  {
    if j > 0 {
      assert ss[..j][..j - 1] == ss[..j - 1];
      FlattenPrefixLength(ss, k, j - 1);
      assert k * (j - 1) + k == k * j;
    }
  }

  /** Position i + t of the flattening, for t inside piece j, holds item t of piece j,
      where i is the length of the flattened pieces before j. */
  lemma {:induction false} FlattenAt<T>(ss: seq<seq<T>>, j: nat, t: nat)
    requires j < |ss| && t < |ss[j]|
    ensures |Flatten(ss[..j])| + t < |Flatten(ss)|
    ensures Flatten(ss)[|Flatten(ss[..j])| + t] == ss[j][t]
    decreases |ss|
  {
    var init := ss[..|ss| - 1];
    if j == |ss| - 1 {
      assert ss[..j] == init;
    } else {
      assert init[..j] == ss[..j];
      FlattenAt(init, j, t);
    }
  }

  /** The slices data[i..i + size] (cut short at the end of data) for
      i = 0, size, 2 * size, ... while i < |data|. */
  function Batches<T>(data: seq<T>, size: nat): seq<seq<T>>
    requires size > 0
    decreases |data|
  {
    if data == [] then []
    else
      var cut := Min(size, |data|);
      [data[..cut]] + Batches(data[cut..], size)
  }

  /** The batches concatenate back to the input, in order. */
  lemma {:induction false} BatchesFlatten<T>(data: seq<T>, size: nat)
    requires size > 0
    ensures Flatten(Batches(data, size)) == data
    decreases |data|
  {
    if data != [] {
      var cut := Min(size, |data|);
      BatchesFlatten(data[cut..], size);
      FlattenCons(data[..cut], Batches(data[cut..], size));
      assert data[..cut] + data[cut..] == data;
    }
  }

  /** Every batch is non-empty and holds at most size items; all but the last hold exactly size. */
  lemma {:induction false} BatchesShape<T>(data: seq<T>, size: nat)
    requires size > 0
    ensures forall j | 0 <= j < |Batches(data, size)| :: 0 < |Batches(data, size)[j]| <= size
    ensures forall j | 0 <= j < |Batches(data, size)| - 1 :: |Batches(data, size)[j]| == size
    decreases |data|
  {
    if data != [] {
      var cut := Min(size, |data|);
      var rest := Batches(data[cut..], size);
      BatchesShape(data[cut..], size);
      assert Batches(data, size) == [data[..cut]] + rest;
      if rest != [] {
        assert data[cut..] != [];
        assert cut == size;
      }
      forall j | 0 < j < |Batches(data, size)|
        ensures Batches(data, size)[j] == rest[j - 1]
      {
      }
    }
  }

  /** The number of batches is the ceiling of |data| / size: none for empty data, otherwise
      the least count whose total capacity covers the data. */
  lemma {:induction false} BatchesCount<T>(data: seq<T>, size: nat)
    requires size > 0
    ensures |Batches(data, size)| == 0 <==> data == []
    ensures (|Batches(data, size)| - 1) * size < |data| <= |Batches(data, size)| * size
    decreases |data|
  {
    if data != [] {
      var cut := Min(size, |data|);
      var m := |Batches(data[cut..], size)|;
      BatchesCount(data[cut..], size);
      assert |Batches(data, size)| == m + 1;
      assert (m + 1) * size == m * size + size;
      assert (m - 1) * size == m * size - size;
    }
  }

  /** Batch j is exactly the slice data[j * size .. j * size + size], cut short at the end. */
  lemma {:induction false} BatchAt<T>(data: seq<T>, size: nat, j: nat)
    requires size > 0 && j < |Batches(data, size)|
    ensures j * size < |data|
    ensures Batches(data, size)[j] == data[j * size .. Min(j * size + size, |data|)]
    decreases j
  {
    var cut := Min(size, |data|);
    var rest := data[cut..];
    assert Batches(data, size) == [data[..cut]] + Batches(rest, size);
    if j > 0 {
      assert rest != [];
      assert cut == size;
      BatchAt(rest, size, j - 1);
      assert (j - 1) * size + size == j * size;
      assert Batches(data, size)[j] == Batches(rest, size)[j - 1];
    }
  }

  /** One step of the slicing: the batches from position i on start with the slice at i. */
  lemma BatchesFrom<T>(data: seq<T>, size: nat, i: nat)
    requires size > 0 && i < |data|
    ensures Batches(data[i..], size)
            == [data[i..Min(i + size, |data|)]] + Batches(data[Min(i + size, |data|)..], size)
  {
    var stop := Min(i + size, |data|);
    var rest := data[i..];
    assert rest[..stop - i] == data[i..stop];
    assert rest[stop - i..] == data[stop..];
  }

  /** Collects the slices produced by iterating i over range(0, |data|, size). */
  method Batchify<T>(data: seq<T>, size: nat) returns (batches: seq<seq<T>>)
    requires size > 0
    ensures batches == Batches(data, size)
  {
    batches := [];
    var i := 0;
    while i < |data|
      invariant 0 <= i
      invariant batches + Batches(data[Min(i, |data|)..], size) == Batches(data, size)
      decreases |data| - i
    {
      var stop := Min(i + size, |data|);
      BatchesFrom(data, size, i);
      batches := batches + [data[i..stop]];
      i := i + size;
    }
    assert data[Min(i, |data|)..] == [];
  }
}
