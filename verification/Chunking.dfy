// Splitting a document into overlapping chunks of words.
module Chunking {
  import opened Jobs

  // ---- words ---------------------------------------------------------------------------------

  // The characters that str.split() treats as white space
  predicate IsSpace(c: char) {
    || '\t' <= c <= '\r' || '\U{1c}' <= c <= ' ' || c == '\U{85}' || c == '\U{a0}' || c == '\U{1680}'
    || '\U{2000}' <= c <= '\U{200a}' || c == '\U{2028}' || c == '\U{2029}' || c == '\U{202f}'
    || c == '\U{205f}' || c == '\U{3000}'
  }

  // The number of leading characters that are not white space
  function WordEnd(text: string): (end: nat)
    ensures end <= |text|
    ensures forall i | 0 <= i < end :: !IsSpace(text[i])
    ensures end < |text| ==> IsSpace(text[end])
  {
    if text == [] || IsSpace(text[0]) then 0 else 1 + WordEnd(text[1..])
  }

  // text.split()
  function Words(text: string): (words: seq<string>)
    ensures AllWords(words)
    decreases |text|
  {
    if text == [] then []
    else if IsSpace(text[0]) then Words(text[1..])
    else
      assert WordEnd(text) > 0;
      [text[..WordEnd(text)]] + Words(text[WordEnd(text)..])
  }

  predicate IsWord(w: string) {
    w != [] && forall i | 0 <= i < |w| :: !IsSpace(w[i])
  }

  predicate AllWords(words: seq<string>) {
    forall i {:trigger IsWord(words[i])} | 0 <= i < |words| :: IsWord(words[i])
  }

  // " ".join(words)
  function Spaced(words: seq<string>): string {
    if words == [] then []
    else if |words| == 1 then words[0]
    else words[0] + " " + Spaced(words[1..])
  }

  lemma {:induction false} WordEndAt(w: string, rest: string)
    requires forall i | 0 <= i < |w| :: !IsSpace(w[i])
    requires rest == [] || IsSpace(rest[0])
    ensures WordEnd(w + rest) == |w|
  {
    if w == [] {
      assert w + rest == rest;
    } else {
      WordEndAt(w[1..], rest);
      assert (w + rest)[1..] == w[1..] + rest;
    }
  }

  lemma FirstWord(w: string, rest: string)
    requires IsWord(w) && (rest == [] || IsSpace(rest[0]))
    ensures Words(w + rest) == [w] + Words(rest)
  {
    WordEndAt(w, rest);
    var text := w + rest;
    assert !IsSpace(text[0]);
    assert text[..|w|] == w && text[|w|..] == rest;
  }

  // Joined words split into the same words again.
  lemma {:induction false} SplitJoined(words: seq<string>)
    requires AllWords(words)
    ensures Words(Spaced(words)) == words
  {
    if |words| == 1 {
      FirstWord(words[0], []);
      assert words[0] + [] == words[0];
    } else if words != [] {
      SplitJoined(words[1..]);
      var rest := " " + Spaced(words[1..]);
      FirstWord(words[0], rest);
      assert rest[1..] == Spaced(words[1..]);
      assert Spaced(words) == words[0] + rest;
      assert words == [words[0]] + words[1..];
    }
  }

  // ---- chunks --------------------------------------------------------------------------------

  datatype Chunk = Chunk(index: nat, text: string, section: string)

  function Least(a: int, b: int): int {
    if a < b then a else b
  }

  // The i-th element of range(0, ..., step)
  function Start(i: nat, step: nat): nat {
    if i == 0 then 0 else Start(i - 1, step) + step
  }

  // The words of chunk i
  function Slice<T>(words: seq<T>, maximum: nat, step: nat, i: nat): seq<T>
    requires Start(i, step) <= |words|
  {
    words[Start(i, step)..Least(Start(i, step) + maximum, |words|)]
  }

  ghost predicate IsChunk(words: seq<string>, maximum: nat, step: nat, section: string, i: nat, chunk: Chunk) {
    && Start(i, step) < |words|
    && chunk == Chunk(i, Spaced(Slice(words, maximum, step, i)), section)
  }

  // What is promised of the chunks of a text: consecutive numbers, each a full slice but the last,
  // which reaches the end of the document and which no earlier one reaches.
  ghost predicate Chunked(words: seq<string>, maximum: nat, step: nat, section: string, chunks: seq<Chunk>) {
    && (chunks == [] <==> words == [])
    && (forall i | 0 <= i < |chunks| ::
          && IsChunk(words, maximum, step, section, i, chunks[i])
          && (Start(i, step) + maximum >= |words| <==> i == |chunks| - 1))
  }

  // The first chunks, none of which reaches the end
  ghost predicate Started(words: seq<string>, maximum: nat, step: nat, section: string, chunks: seq<Chunk>) {
    forall i | 0 <= i < |chunks| ::
      IsChunk(words, maximum, step, section, i, chunks[i]) && Start(i, step) + maximum < |words|
  }

  lemma OneMore(words: seq<string>, maximum: nat, step: nat, section: string, chunks: seq<Chunk>, chunk: Chunk)
    requires Started(words, maximum, step, section, chunks)
    requires IsChunk(words, maximum, step, section, |chunks|, chunk)
    ensures if Start(|chunks|, step) + maximum < |words| then Started(words, maximum, step, section, chunks + [chunk])
            else Chunked(words, maximum, step, section, chunks + [chunk])
  {
  }

  // chunk_document, None where it raises
  method ChunkDocument(text: string, maximum: int, overlap: int, section: string) returns (chunks: Option<seq<Chunk>>)
    ensures chunks.None? <==> maximum <= 0 || overlap < 0 || overlap >= maximum
    ensures chunks.Some? ==> Chunked(Words(text), maximum, maximum - overlap, section, chunks.value)
  {
    if maximum <= 0 {
      return None;
    }
    if overlap < 0 || overlap >= maximum {
      return None;
    }
    var words := Words(text);
    if words == [] {
      return Some([]);
    }
    var step := maximum - overlap;
    var result: seq<Chunk> := [];
    var start := 0;
    while start < |words|
      invariant start == Start(|result|, step)
      invariant Started(words, maximum, step, section, result)
      invariant |result| == 0 || start < |words|
      decreases |words| - start
    {
      var chunk := Chunk(|result|, Spaced(words[start..Least(start + maximum, |words|)]), section);
      OneMore(words, maximum, step, section, result, chunk);
      result := result + [chunk];
      if start + maximum >= |words| {
        return Some(result);
      }
      start := start + step;
    }
    assert false;
  }

  // ---- nothing is lost -----------------------------------------------------------------------

  // The words back from those of the first k chunks: all of the first, and of each other what
  // follows the overlap
  function Reassembled<T>(parts: seq<seq<T>>, overlap: nat, k: nat): seq<T>
    requires k <= |parts|
  {
    if k == 0 then []
    else if k == 1 then parts[0]
    else Reassembled(parts, overlap, k - 1) + (if overlap <= |parts[k - 1]| then parts[k - 1][overlap..] else [])
  }

  function ChunkParts(chunks: seq<Chunk>): seq<seq<string>> {
    seq(|chunks|, i requires 0 <= i < |chunks| => Words(chunks[i].text))
  }

  // Splitting a stored chunk again gives its words, so that their number is its token count.
  lemma ChunkWords(words: seq<string>, maximum: nat, step: nat, section: string, chunks: seq<Chunk>, i: nat)
    requires Chunked(words, maximum, step, section, chunks) && i < |chunks|
    requires AllWords(words)
    ensures Start(i, step) < |words| && Words(chunks[i].text) == Slice(words, maximum, step, i)
    ensures Start(i, step) + maximum >= |words| <==> i == |chunks| - 1
  {
    assert IsChunk(words, maximum, step, section, i, chunks[i]);
    SplitJoined(Slice(words, maximum, step, i));
  }

  lemma Continue<T>(words: seq<T>, start: nat, end: nat, last: nat)
    requires start <= end <= last <= |words|
    ensures words[..end] + words[start..last][end - start..] == words[..last]
  {
  }

  ghost predicate IsSlice<T>(words: seq<T>, maximum: nat, step: nat, i: nat, part: seq<T>) {
    Start(i, step) <= |words| && part == Slice(words, maximum, step, i)
  }

  // Consecutive slices, none but the last reaching the end
  ghost predicate Slices<T>(words: seq<T>, maximum: nat, step: nat, parts: seq<seq<T>>) {
    forall i | 0 <= i < |parts| ::
      IsSlice(words, maximum, step, i, parts[i]) && (i < |parts| - 1 ==> Start(i, step) + maximum < |words|)
  }

  lemma {:induction false} PartsReassemble<T>(words: seq<T>, maximum: nat, overlap: nat, step: nat,
        parts: seq<seq<T>>, k: nat)
    requires overlap + step == maximum && k < |parts| && Slices(words, maximum, step, parts)
    ensures Reassembled(parts, overlap, k + 1) == words[..Least(Start(k, step) + maximum, |words|)]
  {
    assert IsSlice(words, maximum, step, k, parts[k]);
    if k > 0 {
      PartsReassemble(words, maximum, overlap, step, parts, k - 1);
      assert IsSlice(words, maximum, step, k - 1, parts[k - 1]);
      WordsUpTo(words, maximum, overlap, Start(k - 1, step), Start(k, step), parts[k]);
    }
  }

  lemma WordsUpTo<T>(words: seq<T>, maximum: nat, overlap: nat, before: nat, start: nat, last: seq<T>)
    requires before + maximum == start + overlap < |words| && overlap <= maximum
    requires last == words[start..Least(start + maximum, |words|)]
    ensures overlap <= |last|
    ensures words[..Least(before + maximum, |words|)] + last[overlap..] == words[..Least(start + maximum, |words|)]
  {
    Continue(words, start, start + overlap, Least(start + maximum, |words|));
  }

  lemma PartsAreSlices(words: seq<string>, maximum: nat, step: nat, section: string, chunks: seq<Chunk>)
    requires Chunked(words, maximum, step, section, chunks) && AllWords(words)
    ensures Slices(words, maximum, step, ChunkParts(chunks))
    ensures chunks != [] ==> Start(|chunks| - 1, step) + maximum >= |words|
  {
    forall i | 0 <= i < |chunks|
      ensures IsSlice(words, maximum, step, i, ChunkParts(chunks)[i])
      ensures Start(i, step) + maximum >= |words| <==> i == |chunks| - 1
    {
      ChunkWords(words, maximum, step, section, chunks, i);
    }
  }

  lemma AllReassembled<T>(words: seq<T>, maximum: nat, overlap: nat, step: nat, parts: seq<seq<T>>)
    requires overlap + step == maximum && parts != [] && Slices(words, maximum, step, parts)
    requires Start(|parts| - 1, step) + maximum >= |words|
    ensures Reassembled(parts, overlap, |parts|) == words
  {
    PartsReassemble(words, maximum, overlap, step, parts, |parts| - 1);
    assert words[..|words|] == words;
  }

  // Dropping each overlap and joining gives the document's words back.
  lemma ChunksLoseNothing(words: seq<string>, maximum: nat, overlap: nat, step: nat, section: string,
        chunks: seq<Chunk>)
    requires overlap + step == maximum && Chunked(words, maximum, step, section, chunks) && AllWords(words)
    ensures Reassembled(ChunkParts(chunks), overlap, |chunks|) == words
  {
    PartsAreSlices(words, maximum, step, section, chunks);
    if chunks != [] {
      AllReassembled(words, maximum, overlap, step, ChunkParts(chunks));
    }
  }

  // Neighbours share exactly the overlap, and the later one goes on with at least one new word.
  lemma NeighboursOverlap(words: seq<string>, maximum: nat, overlap: nat, step: nat, section: string,
        chunks: seq<Chunk>, i: nat)
    requires overlap + step == maximum && 0 < step && Chunked(words, maximum, step, section, chunks) && i + 1 < |chunks|
    requires AllWords(words)
    ensures var a := Words(chunks[i].text); var b := Words(chunks[i + 1].text);
            && |a| == maximum && overlap < |b| <= maximum
            && a[step..] == b[..overlap]
            && Start(i, step) + maximum < |words|
            && b[overlap] == words[Start(i, step) + maximum]
  {
    ChunkWords(words, maximum, step, section, chunks, i);
    ChunkWords(words, maximum, step, section, chunks, i + 1);
    assert Start(i + 1, step) == Start(i, step) + step;
    SlicesShare(words, Start(i, step), step, overlap, Least(Start(i + 1, step) + maximum, |words|));
  }

  lemma SlicesShare(words: seq<string>, start: nat, step: nat, overlap: nat, end: nat)
    requires start + step + overlap < end <= |words|
    ensures words[start..start + (overlap + step)][step..] == words[start + step..end][..overlap]
  {
  }

  // The number of chunks: one for a document within the maximum, else ceil((n - overlap) / step)
  lemma ChunkCount(words: seq<string>, maximum: nat, overlap: nat, step: nat, section: string, chunks: seq<Chunk>)
    requires overlap + step == maximum && 0 < step && Chunked(words, maximum, step, section, chunks) && words != []
    ensures |chunks| == if |words| <= maximum then 1 else Ceiling(|words| - overlap, step)
  {
    var k := |chunks| - 1;
    assert IsChunk(words, maximum, step, section, k, chunks[k]);
    if k > 0 {
      assert IsChunk(words, maximum, step, section, k - 1, chunks[k - 1]);
      assert Start(k - 1, step) + maximum < |words| <= Start(k, step) + maximum;
      StartIsProduct(k, step);
      StartIsProduct(k + 1, step);
      CeilingIs(|words| - overlap, step, k + 1);
    }
  }

  // n / step, rounded up
  function Ceiling(n: int, step: nat): int
    requires step > 0
  {
    (n + step - 1) / step
  }

  lemma {:induction false} StartIsProduct(i: nat, step: nat)
    ensures Start(i, step) == i * step
  {
    if i > 0 {
      StartIsProduct(i - 1, step);
    }
  }

  lemma CeilingIs(n: int, step: nat, k: nat)
    requires step > 0 && k > 0 && (k - 1) * step < n <= k * step
    ensures Ceiling(n, step) == k
  {
    var q, r := (n + step - 1) / step, (n + step - 1) % step;
    assert (k - 1) * step == k * step - step;
    assert n + step - 1 == q * step + r;
    assert q * step - k * step == (q - k) * step;
    Between(q - k, step);
  }

  lemma Between(d: int, step: int)
    requires step >= 0
    ensures d >= 1 ==> d * step >= step
    ensures d <= -1 ==> d * step <= -step
  {
    if d >= 1 {
      assert d * step == (d - 1) * step + step;
    } else if d <= -1 {
      assert d * step == (d + 1) * step - step;
      assert (d + 1) * step <= 0;
    }
  }
}
