// Looking for a quote in the text of a chunk, and which quotes the overlap of chunks keeps whole.
module GoldQuotes {
  import opened Jobs
  import Chunking

  // _normalize_whitespace
  function Normalized(text: string): string {
    Chunking.Spaced(Chunking.Words(text))
  }

  predicate OccursAt(text: string, quote: string, i: nat) {
    i + |quote| <= |text| && text[i..i + |quote|] == quote
  }

  // quote in text
  predicate Occurs(text: string, quote: string) {
    exists i | 0 <= i <= |text| :: OccursAt(text, quote, i)
  }

  // contains_gold_quote
  predicate ContainsGoldQuote(text: string, quotes: seq<string>) {
    exists q | 0 <= q < |quotes| :: Normalized(quotes[q]) != [] && Occurs(Normalized(text), Normalized(quotes[q]))
  }

  // ---- quotes made of words of the text ------------------------------------------------------

  lemma OccursBehind(front: string, text: string, quote: string)
    requires Occurs(text, quote)
    ensures Occurs(front + text, quote)
  {
    var i :| 0 <= i <= |text| && OccursAt(text, quote, i);
    assert (front + text)[|front| + i..|front| + i + |quote|] == text[i..i + |quote|];
    assert OccursAt(front + text, quote, |front| + i);
  }

  lemma {:induction false} SpacedPrefix(words: seq<string>, b: nat)
    requires 0 < b <= |words|
    ensures Chunking.Spaced(words[..b]) <= Chunking.Spaced(words)
  {
    if b == |words| {
      assert words[..b] == words;
    } else if b > 1 {
      SpacedPrefix(words[1..], b - 1);
      assert words[..b][1..] == words[1..][..b - 1];
    } else {
      assert words[..1] == [words[0]];
    }
  }

  // Consecutive words occur with single spaces between them.
  lemma {:induction false} WordsOccur(words: seq<string>, a: nat, b: nat)
    requires a < b <= |words|
    ensures Occurs(Chunking.Spaced(words), Chunking.Spaced(words[a..b]))
  {
    if a == 0 {
      SpacedPrefix(words, b);
      assert words[0..b] == words[..b];
      assert OccursAt(Chunking.Spaced(words), Chunking.Spaced(words[..b]), 0);
    } else {
      WordsOccur(words[1..], a - 1, b - 1);
      assert words[1..][a - 1..b - 1] == words[a..b];
      OccursBehind(words[0] + " ", Chunking.Spaced(words[1..]), Chunking.Spaced(words[a..b]));
      assert Chunking.Spaced(words) == words[0] + " " + Chunking.Spaced(words[1..]);
    }
  }

  lemma SpacedIsNotEmpty(words: seq<string>)
    requires words != [] && Chunking.AllWords(words)
    ensures Chunking.Spaced(words) != []
  {
    assert Chunking.IsWord(words[0]);
  }

  // However it is spaced and wrapped, a quote of consecutive words of a text is found in it.
  lemma QuoteIsFound(text: string, quote: string, a: nat, b: nat)
    requires a < b <= |Chunking.Words(text)| && Chunking.Words(quote) == Chunking.Words(text)[a..b]
    ensures ContainsGoldQuote(text, [quote])
  {
    WordsOccur(Chunking.Words(text), a, b);
    SpacedIsNotEmpty(Chunking.Words(quote));
    assert [quote][0] == quote;
  }

  ghost predicate Surrounded(text: string, quote: string) {
    exists front, back :: text == front + quote + back
  }

  lemma OccursIff(text: string, quote: string)
    ensures Occurs(text, quote) <==> Surrounded(text, quote)
  {
    if Occurs(text, quote) {
      var i :| 0 <= i <= |text| && OccursAt(text, quote, i);
      assert text == text[..i] + quote + text[i + |quote|..];
    }
    if Surrounded(text, quote) {
      var front, back :| text == front + quote + back;
      assert OccursAt(text, quote, |front|);
    }
  }

  lemma {:induction false} NoWordsNoText(words: seq<string>)
    requires Chunking.AllWords(words)
    ensures Chunking.Spaced(words) == [] <==> words == []
  {
    if words != [] {
      SpacedIsNotEmpty(words);
    }
  }

  // A match means that the words of some quote, and there are some, really stand in the text, with single
  // spaces on both sides of the comparison.
  lemma MatchIsReal(text: string, quotes: seq<string>)
    ensures ContainsGoldQuote(text, quotes) <==>
              exists q | 0 <= q < |quotes| ::
                && Chunking.Words(quotes[q]) != []
                && Surrounded(Chunking.Spaced(Chunking.Words(text)), Chunking.Spaced(Chunking.Words(quotes[q])))
  {
    forall q | 0 <= q < |quotes|
      ensures Normalized(quotes[q]) != [] <==> Chunking.Words(quotes[q]) != []
      ensures Occurs(Normalized(text), Normalized(quotes[q])) <==> Surrounded(Normalized(text), Normalized(quotes[q]))
    {
      NoWordsNoText(Chunking.Words(quotes[q]));
      OccursIff(Normalized(text), Normalized(quotes[q]));
    }
  }

  // ---- what the overlap is for ---------------------------------------------------------------

  lemma {:induction false} StartRises(i: nat, j: nat, step: nat)
    requires i <= j
    ensures Chunking.Start(i, step) <= Chunking.Start(j, step)
  {
    if i < j {
      StartRises(i, j - 1, step);
    }
  }

  // The last chunk, up to `last`, that starts at word a or before
  function Home(a: nat, step: nat, last: nat): (home: nat)
    ensures home <= last && Chunking.Start(home, step) <= a
    ensures home < last ==> a < Chunking.Start(home + 1, step)
  {
    if Chunking.Start(last, step) <= a then last
    else
      assert last > 0;
      Home(a, step, last - 1)
  }

  // Words a to b lie within chunk i.
  predicate Within(maximum: nat, step: nat, i: nat, a: nat, b: nat) {
    Chunking.Start(i, step) <= a && b <= Chunking.Start(i, step) + maximum
  }

  // A span of the document lies within some chunk if and only if it ends within the last chunk that
  // starts before it.
  lemma WithinSomeIff(words: seq<string>, maximum: nat, step: nat, section: string, chunks: seq<Chunking.Chunk>,
        a: nat, b: nat)
    requires Chunking.Chunked(words, maximum, step, section, chunks) && a < b <= |words|
    ensures chunks != []
    ensures (exists i | 0 <= i < |chunks| :: Within(maximum, step, i, a, b))
            <==> Within(maximum, step, Home(a, step, |chunks| - 1), a, b)
  {
    var home := Home(a, step, |chunks| - 1);
    forall i | 0 <= i < |chunks| && Within(maximum, step, i, a, b) ensures Within(maximum, step, home, a, b) {
      if i <= home {
        StartRises(i, home, step);
      } else {
        StartRises(home + 1, i, step);
      }
    }
  }

  lemma SliceOfSlice<T>(xs: seq<T>, start: nat, end: nat, a: nat, b: nat)
    requires start <= a <= b <= end <= |xs|
    ensures xs[start..end][a - start..b - start] == xs[a..b]
  {
    forall j | 0 <= j < b - a ensures xs[start..end][a - start..b - start][j] == xs[a..b][j] {
      assert xs[start..end][a - start + j] == xs[a + j];
    }
  }

  lemma FoundWithin(words: seq<string>, maximum: nat, step: nat, section: string, chunks: seq<Chunking.Chunk>,
        i: nat, quote: string, a: nat, b: nat)
    requires Chunking.Chunked(words, maximum, step, section, chunks) && Chunking.AllWords(words) && i < |chunks|
    requires a < b <= |words| && Chunking.Words(quote) == words[a..b] && Within(maximum, step, i, a, b)
    ensures ContainsGoldQuote(chunks[i].text, [quote])
  {
    Chunking.ChunkWords(words, maximum, step, section, chunks, i);
    var start := Chunking.Start(i, step);
    SliceOfSlice(words, start, Chunking.Least(start + maximum, |words|), a, b);
    QuoteIsFound(chunks[i].text, quote, a - start, b - start);
  }

  // A quote of at most one word more than the overlap is never cut: some chunk contains it.
  lemma ShortQuotesAreNeverCut(words: seq<string>, maximum: nat, overlap: nat, step: nat, section: string,
        chunks: seq<Chunking.Chunk>, quote: string, a: nat, b: nat)
    requires overlap + step == maximum && 0 < step
    requires Chunking.Chunked(words, maximum, step, section, chunks) && Chunking.AllWords(words)
    requires a < b <= |words| && Chunking.Words(quote) == words[a..b] && b - a <= overlap + 1
    ensures exists i | 0 <= i < |chunks| :: ContainsGoldQuote(chunks[i].text, [quote])
  {
    var home := Home(a, step, |chunks| - 1);
    assert Chunking.IsChunk(words, maximum, step, section, home, chunks[home]);
    assert Within(maximum, step, home, a, b);
    FoundWithin(words, maximum, step, section, chunks, home, quote, a, b);
  }
}
