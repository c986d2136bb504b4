// Batching of provider audio into rows of the chunk table.
module TtsBatching {
  import opened Jobs

  newtype Byte = x: int | 0 <= x < 256
  type Pcm = seq<Byte>

  function Join(parts: seq<Pcm>): Pcm {
    if parts == [] then [] else Join(parts[..|parts| - 1]) + parts[|parts| - 1]
  }

  lemma JoinOne(parts: seq<Pcm>, part: Pcm)
    ensures Join(parts + [part]) == Join(parts) + part
  {
    assert (parts + [part])[..|parts|] == parts;
  }

  lemma {:induction false} JoinTwo(xs: seq<Pcm>, ys: seq<Pcm>)
    ensures Join(xs + ys) == Join(xs) + Join(ys)
  {
    if ys == [] {
      assert xs + ys == xs;
    } else {
      JoinTwo(xs, ys[..|ys| - 1]);
      assert (xs + ys)[..|xs + ys| - 1] == xs + ys[..|ys| - 1];
    }
  }

  lemma {:induction false} JoinLength(parts: seq<Pcm>, size: nat)
    requires forall i | 0 <= i < |parts| :: |parts[i]| == size
    ensures |Join(parts)| == size * |parts|
  {
    if parts != [] {
      JoinLength(parts[..|parts| - 1], size);
    }
  }

  // The batches of a stream in `size` bytes each, but for a shorter last one
  ghost predicate Batched(batches: seq<Pcm>, size: nat) {
    && (forall i | 0 <= i < |batches| - 1 :: |batches[i]| == size)
    && (batches != [] ==> 0 < |batches[|batches| - 1]| <= size)
  }

  // batch_pcm_chunks. An aborted input ends in an error after its last chunk, so that what is
  // buffered then is never yielded.
  method BatchPcmChunks(chunks: seq<Pcm>, batchBytes: int, aborted: bool) returns (batches: Option<seq<Pcm>>)
    ensures batches.None? <==> batchBytes <= 0
    ensures batches.Some? && !aborted ==> Join(batches.value) == Join(chunks) && Batched(batches.value, batchBytes)
    ensures batches.Some? && aborted ==>
              && Join(batches.value) <= Join(chunks)
              && |Join(chunks)| - |Join(batches.value)| < batchBytes
              && forall i | 0 <= i < |batches.value| :: |batches.value[i]| == batchBytes
  {
    if batchBytes <= 0 {
      return None;
    }
    var buffered: Pcm := [];
    var yielded: seq<Pcm> := [];
    for i := 0 to |chunks|
      invariant Join(yielded) + buffered == Join(chunks[..i])
      invariant forall j | 0 <= j < |yielded| :: |yielded[j]| == batchBytes
      invariant |buffered| < batchBytes
    {
      assert chunks[..i + 1][..i] == chunks[..i];
      if chunks[i] == [] {
        continue;
      }
      buffered := buffered + chunks[i];
      while |buffered| >= batchBytes
        invariant Join(yielded) + buffered == Join(chunks[..i + 1])
        invariant forall j | 0 <= j < |yielded| :: |yielded[j]| == batchBytes
        decreases |buffered|
      {
        JoinOne(yielded, buffered[..batchBytes]);
        yielded := yielded + [buffered[..batchBytes]];
        buffered := buffered[batchBytes..];
      }
    }
    assert chunks[..|chunks|] == chunks;
    if !aborted && buffered != [] {
      JoinOne(yielded, buffered);
      yielded := yielded + [buffered];
    }
    return Some(yielded);
  }

  // Batches of a fixed size are determined by the bytes: there is one way to cut them.
  lemma {:induction false} OneWayToBatch(xs: seq<Pcm>, ys: seq<Pcm>, size: nat)
    requires size > 0 && Batched(xs, size) && Batched(ys, size) && Join(xs) == Join(ys)
    ensures xs == ys
  {
    if xs == [] || ys == [] {
      NothingJoined(xs, size);
      NothingJoined(ys, size);
    } else {
      LengthOfBatches(xs, size);
      LengthOfBatches(ys, size);
      SameCount(size, |xs| - 1, |xs[|xs| - 1]|, |ys| - 1, |ys[|ys| - 1]|);
      var n := |xs| - 1;
      assert Join(xs)[..|Join(xs[..n])|] == Join(xs[..n]);
      assert Join(ys)[..|Join(ys[..n])|] == Join(ys[..n]);
      JoinLength(xs[..n], size);
      JoinLength(ys[..n], size);
      assert Join(xs)[size * n..] == xs[n] && Join(ys)[size * n..] == ys[n];
      OneWayToBatch(xs[..n], ys[..n], size);
      assert xs == xs[..n] + [xs[n]] && ys == ys[..n] + [ys[n]];
    }
  }

  lemma NothingJoined(xs: seq<Pcm>, size: nat)
    requires Batched(xs, size)
    ensures Join(xs) == [] <==> xs == []
  {
  }

  lemma LengthOfBatches(xs: seq<Pcm>, size: nat)
    requires xs != [] && Batched(xs, size)
    ensures |Join(xs)| == size * (|xs| - 1) + |xs[|xs| - 1]|
  {
    JoinLength(xs[..|xs| - 1], size);
  }

  lemma SameCount(size: nat, m: nat, a: nat, n: nat, b: nat)
    requires 0 < a <= size && 0 < b <= size && size * m + a == size * n + b
    ensures m == n && a == b
  {
    MoreBatches(size, m, n);
    MoreBatches(size, n, m);
  }

  lemma MoreBatches(size: nat, m: nat, n: nat)
    ensures m < n ==> size * m + size <= size * n
  {
    if m < n {
      Monotone(size, m + 1, n);
      assert size * (m + 1) == size * m + size;
    }
  }

  lemma Monotone(size: nat, m: nat, n: nat)
    requires m <= n
    ensures size * m <= size * n
  {
  }
}
