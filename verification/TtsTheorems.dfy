// What a reader hears, over every run.
module TtsTheorems {
  import opened Jobs
  import opened TtsBatching
  import opened TtsStream

  // ---- rows without a gap --------------------------------------------------------------------

  function Range(token: nat, from: nat, to: nat): seq<Ref> {
    if to <= from then [] else Range(token, from, to - 1) + [Ref(token, to - 1)]
  }

  ghost predicate Full(chunks: map<Ref, Pcm>, token: nat, from: nat, to: nat) {
    forall m | from <= m < to :: Ref(token, m) in chunks
  }

  // A stored row has all its predecessors stored, from `from` on.
  ghost predicate Dense(chunks: map<Ref, Pcm>, token: nat, from: nat) {
    forall m, k | from <= m < k && Ref(token, k) in chunks :: Ref(token, m) in chunks
  }

  lemma {:induction false} RowsFull(chunks: map<Ref, Pcm>, token: nat, from: nat, to: nat)
    requires Full(chunks, token, from, to)
    ensures Rows(chunks, token, from, to) == Range(token, from, to)
  {
    if from < to {
      RowsFull(chunks, token, from, to - 1);
    }
  }

  lemma {:induction false} RowsDense(chunks: map<Ref, Pcm>, token: nat, from: nat, to: nat) returns (k: nat)
    requires Dense(chunks, token, from) && from <= to
    ensures from <= k <= to && Full(chunks, token, from, k) && Rows(chunks, token, from, to) == Range(token, from, k)
  {
    if from == to {
      k := from;
    } else if Ref(token, to - 1) in chunks {
      RowsFull(chunks, token, from, to);
      k := to;
    } else {
      k := RowsDense(chunks, token, from, to - 1);
    }
  }

  ghost predicate Faithful(chunks: map<Ref, Pcm>, attempts: map<nat, Attempt>) {
    forall r :: r in chunks ==> r.token in attempts && r.sequence < |attempts[r.token].batches|
                                && chunks[r] == attempts[r.token].batches[r.sequence]
  }

  lemma {:induction false} RangeContent(chunks: map<Ref, Pcm>, batches: seq<Pcm>, token: nat, from: nat, to: nat)
    requires from <= to <= |batches|
    requires forall m | from <= m < to :: Ref(token, m) in chunks && chunks[Ref(token, m)] == batches[m]
    ensures Join(batches[..from]) + Content(chunks, Range(token, from, to)) == Join(batches[..to])
  {
    if from < to {
      RangeContent(chunks, batches, token, from, to - 1);
      assert batches[..to][..to - 1] == batches[..to - 1];
      var rows := Range(token, from, to);
      assert rows[..|rows| - 1] == Range(token, from, to - 1);
      var before := Content(chunks, Range(token, from, to - 1));
      assert Content(chunks, rows) == before + batches[to - 1];
      assert Join(batches[..from]) + (before + batches[to - 1]) == (Join(batches[..from]) + before) + batches[to - 1];
    }
  }

  lemma RangeShape(token: nat, from: nat, to: nat)
    ensures |Range(token, from, to)| == if from < to then to - from else 0
    ensures from < to ==> Range(token, from, to)[|Range(token, from, to)| - 1] == Ref(token, to - 1)
  {
  }

  lemma {:induction false} RangesJoin(token: nat, from: nat, mid: nat, to: nat)
    requires from <= mid <= to
    ensures Range(token, from, mid) + Range(token, mid, to) == Range(token, from, to)
  {
    if mid < to {
      RangesJoin(token, from, mid, to - 1);
      assert Range(token, from, mid) + Range(token, mid, to)
          == (Range(token, from, mid) + Range(token, mid, to - 1)) + [Ref(token, to - 1)];
    }
  }

  // ---- the invariant -------------------------------------------------------------------------

  // The beginning of what was appended under a token
  function Begun(attempts: map<nat, Attempt>, token: nat, count: nat): Pcm {
    if count <= |Batches(attempts, token)| then Join(Batches(attempts, token)[..count]) else []
  }

  // What the tokens left behind contributed
  function CutPcm(attempts: map<nat, Attempt>, cuts: seq<(nat, nat)>): Pcm {
    if cuts == [] then []
    else CutPcm(attempts, cuts[..|cuts| - 1]) + Begun(attempts, cuts[|cuts| - 1].0, cuts[|cuts| - 1].1)
  }

  function CutRefs(cuts: seq<(nat, nat)>): seq<Ref> {
    if cuts == [] then [] else CutRefs(cuts[..|cuts| - 1]) + Range(cuts[|cuts| - 1].0, 0, cuts[|cuts| - 1].1)
  }

  ghost predicate Tables(s: Stream) {
    && Faithful(s.chunks, s.attempts)
    && (forall t :: t in s.attempts ==> t < s.nextToken)
    && (s.audio.Some? ==> s.audio.value.token < s.nextToken
                          && forall t :: t in s.attempts ==> t <= s.audio.value.token)
    && (s.audio.None? ==> s.chunks == map[])
    && (s.audio.Some? && s.audio.value.status == Ready ==>
          s.audio.value.token in s.attempts && !s.attempts[s.audio.value.token].open)
    && (!s.reader.phase.Idle? && s.audio.Some? ==> s.reader.token <= s.audio.value.token)
    && s.reader.token < s.nextToken
  }

  // Nothing the reader still needs is missing from the table.
  ghost predicate Complete(s: Stream) {
    && (s.audio.Some? ==>
          var token := s.audio.value.token;
          Full(s.chunks, token, From(s, token), |Batches(s.attempts, token)|))
    && (!s.reader.phase.Idle? ==> Dense(s.chunks, s.reader.token, s.reader.next))
  }

  ghost predicate CutsFit(attempts: map<nat, Attempt>, cuts: seq<(nat, nat)>, token: nat) {
    && (forall i | 0 <= i < |cuts| :: cuts[i].0 < token && cuts[i].1 <= |Batches(attempts, cuts[i].0)|)
    && (forall i, j | 0 <= i < j < |cuts| :: cuts[i].0 < cuts[j].0)
  }

  // The reader has heard a beginning of each token in turn.
  ghost predicate Heard(attempts: map<nat, Attempt>, r: Reader) {
    && r.next <= |Batches(attempts, r.token)|
    && CutsFit(attempts, r.cuts, r.token)
    && r.read == CutRefs(r.cuts) + Range(r.token, 0, r.next)
    && r.pcm == CutPcm(attempts, r.cuts) + Begun(attempts, r.token, r.next)
    && (r.phase == Stopped(Some(Ready)) ==>
          r.token in attempts && !attempts[r.token].open && r.next == |attempts[r.token].batches|)
    && (r.phase.Idle? ==> r == START.reader)
  }

  // ---- every step keeps it -------------------------------------------------------------------

  lemma StepKeepsTables(s: Stream, e: Event)
    requires Tables(s)
    ensures Tables(Step(s, e))
  {
  }

  lemma PollKeepsComplete(s: Stream)
    requires Tables(s) && Complete(s) && s.reader.phase.Reading?
        && s.reader.next <= |Batches(s.attempts, s.reader.token)|
    ensures Complete(Poll(s))
  {
    var k := RowsDense(s.chunks, s.reader.token, s.reader.next, |Batches(s.attempts, s.reader.token)|);
    RangeShape(s.reader.token, s.reader.next, k);
  }

  lemma AppendKeepsComplete(s: Stream, token: nat, pcm: Pcm)
    requires Tables(s) && Complete(s) && CanAppend(s, token, pcm) && Safe(s, EAppend(token, pcm))
    requires s.reader.next <= |Batches(s.attempts, s.reader.token)|
    ensures Complete(Append(s, token, pcm))
  {
  }

  lemma StepKeepsComplete(s: Stream, e: Event)
    requires Tables(s) && Complete(s) && Safe(s, e)
    requires s.reader.next <= |Batches(s.attempts, s.reader.token)|
        && (s.reader.phase.Idle? ==> s.reader == START.reader)
    ensures Complete(Step(s, e))
  {
    if e.EPoll? {
      if s.reader.phase.Reading? {
        PollKeepsComplete(s);
      }
    } else if e.EAppend? {
      if CanAppend(s, e.token, e.pcm) {
        AppendKeepsComplete(s, e.token, e.pcm);
      }
    }
  }

  // More batches do not change what the earlier ones were.
  ghost predicate Grows(a: map<nat, Attempt>, b: map<nat, Attempt>) {
    forall token :: token in a ==>
      token in b && a[token].batches <= b[token].batches && (!a[token].open ==> b[token] == a[token])
  }

  lemma {:induction false} CutPcmStays(a: map<nat, Attempt>, b: map<nat, Attempt>, cuts: seq<(nat, nat)>)
    requires Grows(a, b) && forall i | 0 <= i < |cuts| :: cuts[i].1 <= |Batches(a, cuts[i].0)|
    ensures CutPcm(b, cuts) == CutPcm(a, cuts)
  {
    if cuts != [] {
      CutPcmStays(a, b, cuts[..|cuts| - 1]);
      BegunStays(a, b, cuts[|cuts| - 1].0, cuts[|cuts| - 1].1);
    }
  }

  lemma BegunStays(a: map<nat, Attempt>, b: map<nat, Attempt>, token: nat, count: nat)
    requires Grows(a, b) && count <= |Batches(a, token)|
    ensures count <= |Batches(b, token)| && Begun(b, token, count) == Begun(a, token, count)
  {
    if token in a {
      assert a[token].batches <= b[token].batches;
      assert Batches(b, token)[..count] == Batches(a, token)[..count];
    }
  }

  lemma HeardStays(a: map<nat, Attempt>, b: map<nat, Attempt>, r: Reader)
    requires Heard(a, r) && Grows(a, b)
    ensures Heard(b, r)
  {
    CutPcmStays(a, b, r.cuts);
    BegunStays(a, b, r.token, r.next);
    forall i | 0 <= i < |r.cuts| ensures r.cuts[i].1 <= |Batches(b, r.cuts[i].0)| {
      BegunStays(a, b, r.cuts[i].0, r.cuts[i].1);
    }
  }

  lemma WritersKeepHeard(s: Stream, e: Event)
    requires Tables(s) && Heard(s.attempts, s.reader) && !e.EOpen? && !e.EPoll?
    ensures Heard(Step(s, e).attempts, Step(s, e).reader)
  {
    WritersGrow(s, e);
    HeardStays(s.attempts, Step(s, e).attempts, s.reader);
  }

  lemma WritersGrow(s: Stream, e: Event)
    requires Tables(s) && !e.EOpen? && !e.EPoll?
    ensures Grows(s.attempts, Step(s, e).attempts) && Step(s, e).reader == s.reader
  {
  }

  // A poll goes on where the last one stopped.
  lemma PollReads(s: Stream) returns (k: nat)
    requires Tables(s) && Complete(s) && s.reader.phase.Reading?
        && s.reader.next <= |Batches(s.attempts, s.reader.token)|
    ensures s.reader.next <= k <= |Batches(s.attempts, s.reader.token)|
    ensures Full(s.chunks, s.reader.token, s.reader.next, k)
    ensures Unread(s) == Range(s.reader.token, s.reader.next, k)
    ensures s.audio.Some? && s.audio.value.token == s.reader.token ==> k == |Batches(s.attempts, s.reader.token)|
    ensures k == if Unread(s) == [] then s.reader.next else Unread(s)[|Unread(s)| - 1].sequence + 1
  {
    var n := |Batches(s.attempts, s.reader.token)|;
    k := RowsDense(s.chunks, s.reader.token, s.reader.next, n);
    RangeShape(s.reader.token, s.reader.next, k);
    if s.audio.Some? && s.audio.value.token == s.reader.token {
      RowsFull(s.chunks, s.reader.token, s.reader.next, n);
      RangeShape(s.reader.token, s.reader.next, n);
    }
  }

  lemma Assoc<T>(a: seq<T>, b: seq<T>, c: seq<T>)
    ensures (a + b) + c == a + (b + c)
  {
  }

  lemma PollReadsRefs(r: Reader, cuts: seq<Ref>, k: nat)
    requires r.next <= k && r.read == cuts + Range(r.token, 0, r.next)
    ensures r.read + Range(r.token, r.next, k) == cuts + Range(r.token, 0, k)
  {
    RangesJoin(r.token, 0, r.next, k);
    Assoc(cuts, Range(r.token, 0, r.next), Range(r.token, r.next, k));
  }

  lemma PollReadsPcm(s: Stream, cuts: Pcm, k: nat)
    requires Faithful(s.chunks, s.attempts) && s.reader.next <= k <= |Batches(s.attempts, s.reader.token)|
    requires Full(s.chunks, s.reader.token, s.reader.next, k)
    requires s.reader.pcm == cuts + Begun(s.attempts, s.reader.token, s.reader.next)
    ensures s.reader.pcm + Content(s.chunks, Range(s.reader.token, s.reader.next, k))
        == cuts + Begun(s.attempts, s.reader.token, k)
  {
    var r := s.reader;
    RangeContent(s.chunks, Batches(s.attempts, r.token), r.token, r.next, k);
    Assoc(cuts, Begun(s.attempts, r.token, r.next), Content(s.chunks, Range(r.token, r.next, k)));
  }

  lemma CutsGrow(attempts: map<nat, Attempt>, cuts: seq<(nat, nat)>, token: nat, k: nat)
    ensures CutRefs(cuts + [(token, k)]) == CutRefs(cuts) + Range(token, 0, k)
    ensures CutPcm(attempts, cuts + [(token, k)]) == CutPcm(attempts, cuts) + Begun(attempts, token, k)
  {
    assert (cuts + [(token, k)])[..|cuts|] == cuts;
  }

  lemma PollIs(s: Stream, k: nat)
    requires s.reader.phase.Reading?
    requires k == if Unread(s) == [] then s.reader.next else Unread(s)[|Unread(s)| - 1].sequence + 1
    ensures var p := Polled(s); var r := s.reader;
            && p.read == r.read + Unread(s) && p.pcm == r.pcm + Content(s.chunks, Unread(s))
            && (if s.audio.Some? && s.audio.value.token != r.token
                then p.phase == Reading && p.token == s.audio.value.token && p.next == 0
                    && p.cuts == r.cuts + [(r.token, k)]
                else p.token == r.token && p.next == k && p.cuts == r.cuts)
            && (p.phase == Stopped(Some(Ready)) ==> Unread(s) == [] && s.audio == Some(Audio(r.token, Ready)))
            && !p.phase.Idle?
  {
  }

  lemma NothingYet(attempts: map<nat, Attempt>, r: Reader, refs: seq<Ref>, pcm: Pcm)
    requires r.next == 0 && r.read == refs && r.pcm == pcm
    ensures r.read == refs + Range(r.token, 0, r.next) && r.pcm == pcm + Begun(attempts, r.token, r.next)
  {
  }

  // The reader after a poll that read up to k: it goes on with the same token,
  lemma ReadOn(attempts: map<nat, Attempt>, r: Reader, p: Reader, k: nat)
    requires Heard(attempts, r) && k <= |Batches(attempts, r.token)|
    requires p.read == CutRefs(r.cuts) + Range(r.token, 0, k)
    requires p.pcm == CutPcm(attempts, r.cuts) + Begun(attempts, r.token, k)
    requires p.token == r.token && p.next == k && p.cuts == r.cuts && !p.phase.Idle?
    requires p.phase == Stopped(Some(Ready)) ==>
        p.token in attempts && !attempts[p.token].open && k == |attempts[p.token].batches|
    ensures Heard(attempts, p)
  {
  }

  lemma CutsFitOn(attempts: map<nat, Attempt>, cuts: seq<(nat, nat)>, token: nat, k: nat, next: nat)
    requires CutsFit(attempts, cuts, token) && k <= |Batches(attempts, token)| && token < next
    ensures CutsFit(attempts, cuts + [(token, k)], next)
  {
  }

  // or leaves it for the next one.
  lemma MovedOn(attempts: map<nat, Attempt>, r: Reader, p: Reader, k: nat)
    requires CutsFit(attempts, r.cuts, r.token) && k <= |Batches(attempts, r.token)|
    requires p.read == CutRefs(r.cuts) + Range(r.token, 0, k)
    requires p.pcm == CutPcm(attempts, r.cuts) + Begun(attempts, r.token, k)
    requires r.token < p.token && p.phase == Reading && p.next == 0 && p.cuts == r.cuts + [(r.token, k)]
    ensures Heard(attempts, p)
  {
    CutsGrow(attempts, r.cuts, r.token, k);
    NothingYet(attempts, p, CutRefs(p.cuts), CutPcm(attempts, p.cuts));
    CutsFitOn(attempts, r.cuts, r.token, k, p.token);
  }

  lemma PollKeepsHeard(s: Stream)
    requires Tables(s) && Complete(s) && Heard(s.attempts, s.reader) && s.reader.phase.Reading?
    ensures Heard(s.attempts, Polled(s))
  {
    var k := PollReads(s);
    PollReadsRefs(s.reader, CutRefs(s.reader.cuts), k);
    PollReadsPcm(s, CutPcm(s.attempts, s.reader.cuts), k);
    PollIs(s, k);
    if Polled(s).token == s.reader.token {
      ReadOn(s.attempts, s.reader, Polled(s), k);
    } else {
      MovedOn(s.attempts, s.reader, Polled(s), k);
    }
  }

  ghost predicate Inv(s: Stream) {
    Tables(s) && Complete(s) && Heard(s.attempts, s.reader)
  }

  lemma {:induction false} SafeRunKeepsInv(events: seq<Event>)
    requires SafeRun(events)
    ensures Inv(Run(events))
  {
    if events != [] {
      var before := events[..|events| - 1];
      var e := events[|events| - 1];
      SafeRunKeepsInv(before);
      StepKeepsTables(Run(before), e);
      StepKeepsComplete(Run(before), e);
      if e.EPoll? && Run(before).reader.phase.Reading? {
        PollKeepsHeard(Run(before));
      } else if !e.EPoll? && !e.EOpen? {
        WritersKeepHeard(Run(before), e);
      }
    }
  }

  // ---- when nobody is overtaken --------------------------------------------------------------

  // Workers end their attempt when it fails, and chunks do not expire while they matter.
  predicate Punctual(e: Event) {
    !e.EExpire? && (e.EFail? ==> e.stops)
  }

  ghost predicate OpenHolds(s: Stream) {
    forall t :: t in s.attempts && s.attempts[t].open && s.audio.Some? ==> s.audio == Some(Audio(t, Rendering))
  }

  lemma StepKeepsOpen(s: Stream, e: Event)
    requires Tables(s) && OpenHolds(s) && Punctual(e)
    ensures OpenHolds(Step(s, e))
  {
  }

  lemma PunctualIsSafe(s: Stream, e: Event)
    requires Inv(s) && OpenHolds(s) && Punctual(e)
    ensures Safe(s, e)
  {
  }

  lemma {:induction false} PunctualRunIsSafe(events: seq<Event>)
    requires forall i | 0 <= i < |events| :: Punctual(events[i])
    ensures SafeRun(events) && OpenHolds(Run(events))
  {
    if events != [] {
      var before := events[..|events| - 1];
      PunctualRunIsSafe(before);
      SafeRunKeepsInv(before);
      StepKeepsOpen(Run(before), events[|events| - 1]);
      PunctualIsSafe(Run(before), events[|events| - 1]);
    }
  }

  // ---- over every run ------------------------------------------------------------------------

  // The reader's output is a beginning of what was written under each token it followed, in order.
  lemma OutputIsPrefixes(events: seq<Event>)
    requires SafeRun(events)
    ensures var s := Run(events); var r := s.reader;
            && r.next <= |Batches(s.attempts, r.token)|
            && r.pcm == CutPcm(s.attempts, r.cuts) + Join(Batches(s.attempts, r.token)[..r.next])
            && (forall i, j | 0 <= i < j < |r.cuts| :: r.cuts[i].0 < r.cuts[j].0 < r.token)
  {
    SafeRunKeepsInv(events);
  }

  lemma {:induction false} JoinPrefix(batches: seq<Pcm>, k: nat)
    requires k <= |batches|
    ensures Join(batches[..k]) <= Join(batches)
  {
    JoinTwo(batches[..k], batches[k..]);
    assert batches == batches[..k] + batches[k..];
  }

  // Without a retry the output is a prefix of the audio, and all of it when it stops on ready.
  lemma OutputOfOneToken(events: seq<Event>)
    requires SafeRun(events) && Run(events).reader.cuts == []
    ensures var s := Run(events); var r := s.reader;
            && r.pcm <= Join(Batches(s.attempts, r.token))
            && (r.phase == Stopped(Some(Ready)) ==> r.pcm == Join(Batches(s.attempts, r.token)))
  {
    SafeRunKeepsInv(events);
    var s := Run(events);
    var batches := Batches(s.attempts, s.reader.token);
    JoinPrefix(batches, s.reader.next);
    assert [] + Join(batches[..s.reader.next]) == Join(batches[..s.reader.next]);
    assert batches[..|batches|] == batches;
  }

  // After one retry it is a prefix of the first audio and then a prefix of the second.
  lemma OutputAcrossARetry(events: seq<Event>)
    requires SafeRun(events) && |Run(events).reader.cuts| == 1
    ensures var s := Run(events); var r := s.reader;
            exists first, second ::
              && r.pcm == first + second
              && first <= Join(Batches(s.attempts, r.cuts[0].0))
              && second <= Join(Batches(s.attempts, r.token))
              && (r.phase == Stopped(Some(Ready)) ==> second == Join(Batches(s.attempts, r.token)))
  {
    SafeRunKeepsInv(events);
    var s := Run(events);
    var r := s.reader;
    var first := Begun(s.attempts, r.cuts[0].0, r.cuts[0].1);
    var second := Begun(s.attempts, r.token, r.next);
    JoinPrefix(Batches(s.attempts, r.cuts[0].0), r.cuts[0].1);
    JoinPrefix(Batches(s.attempts, r.token), r.next);
    assert CutPcm(s.attempts, r.cuts) == first by {
      assert r.cuts[..0] == [];
      assert CutPcm(s.attempts, r.cuts[..0]) == [];
      assert [] + first == first;
    }
    assert Batches(s.attempts, r.token)[..|Batches(s.attempts, r.token)|] == Batches(s.attempts, r.token);
    assert r.pcm == first + second;
  }

  // ---- the reader stops ----------------------------------------------------------------------

  lemma {:induction false} NoRowsIff(chunks: map<Ref, Pcm>, token: nat, from: nat, to: nat)
    ensures Rows(chunks, token, from, to) == [] <==> forall m | from <= m < to :: Ref(token, m) !in chunks
  {
    if from < to {
      NoRowsIff(chunks, token, from, to - 1);
    }
  }

  // A round stops the reader if and only if the audio is gone, or is over under the reader's token and
  // nothing of it is left to read.
  lemma StopsIff(s: Stream)
    requires s.reader.phase.Reading?
    ensures var bound := |Batches(s.attempts, s.reader.token)|;
            var phase := Poll(s).reader.phase;
            && (phase == Stopped(None) <==> s.audio.None?)
            && (phase.Stopped? && phase.on.Some? <==>
                  && s.audio.Some? && s.audio.value.token == s.reader.token && s.audio.value.status != Rendering
                  && forall m | s.reader.next <= m < bound :: Ref(s.reader.token, m) !in s.chunks)
            && (phase.Stopped? && phase.on.Some? ==> phase.on.value == s.audio.value.status)
            && (phase.Reading? || phase.Stopped?)
  {
    NoRowsIff(s.chunks, s.reader.token, s.reader.next, |Batches(s.attempts, s.reader.token)|);
  }

  lemma PollDrains(s: Stream)
    requires Tables(s) && Complete(s) && s.reader.phase.Reading?
    requires s.reader.next <= |Batches(s.attempts, s.reader.token)|
    requires s.audio.Some? && s.audio.value.token == s.reader.token && s.audio.value.status != Rendering
    ensures Poll(Poll(s)).reader.phase == Stopped(Some(s.audio.value.status))
  {
    var k := PollReads(s);
    PollIs(s, k);
    StopsIff(s);
    if Poll(s).reader.phase.Reading? {
      StopsIff(Poll(s));
    }
  }

  // In every safe run, a reader stops within three rounds once the audio it follows is over: one to move
  // to its token, one to read what is left, and one that finds nothing.
  lemma ReaderStops(events: seq<Event>)
    requires SafeRun(events) && Run(events).reader.phase.Reading?
    requires Run(events).audio.Some? && Run(events).audio.value.status != Rendering
    ensures Poll(Poll(Poll(Run(events)))).reader.phase == Stopped(Some(Run(events).audio.value.status))
  {
    var s := Run(events);
    SafeRunKeepsInv(events);
    if s.audio.value.token == s.reader.token {
      PollDrains(s);
    } else {
      PollKeepsComplete(s);
      PollKeepsHeard(s);
      StopsIff(s);
      PollDrains(Poll(s));
    }
  }

  // ---- an undisturbed rendering --------------------------------------------------------------

  function Appends(batches: seq<Pcm>): seq<Event> {
    if batches == [] then [] else Appends(batches[..|batches| - 1]) + [EAppend(0, batches[|batches| - 1])]
  }

  ghost predicate Rendered(s: Stream, batches: seq<Pcm>) {
    && s.audio == Some(Audio(0, Rendering)) && s.attempts == map[0 := Attempt(batches, true)]
    && s.reader == START.reader && s.nextToken == 1
    && (forall ref :: ref in s.chunks <==> ref.token == 0 && ref.sequence < |batches|)
    && (forall i | 0 <= i < |batches| :: s.chunks[Ref(0, i)] == batches[i])
  }

  lemma {:induction false} RendersAll(batches: seq<Pcm>)
    requires forall i | 0 <= i < |batches| :: batches[i] != []
    ensures Rendered(Run([EBegin] + Appends(batches)), batches)
  {
    if batches == [] {
      assert [EBegin] + [] == [EBegin] && [EBegin][..0] == [];
      assert Run([EBegin]) == Begin(START);
    } else {
      var n := |batches| - 1;
      RendersAll(batches[..n]);
      var before := [EBegin] + Appends(batches[..n]);
      assert [EBegin] + Appends(batches) == before + [EAppend(0, batches[n])];
      RunOn(before, EAppend(0, batches[n]));
      AppendRenders(Run(before), batches[..n], batches[n]);
      assert batches[..n] + [batches[n]] == batches;
    }
  }

  lemma AppendRenders(s: Stream, batches: seq<Pcm>, batch: Pcm)
    requires Rendered(s, batches) && batch != []
    ensures Rendered(Step(s, EAppend(0, batch)), batches + [batch])
  {
    assert s.attempts[0 := Attempt(batches + [batch], true)] == map[0 := Attempt(batches + [batch], true)];
  }

  lemma {:induction false} AllRows(chunks: map<Ref, Pcm>, batches: seq<Pcm>, n: nat)
    requires n <= |batches| && forall i | 0 <= i < |batches| :: Ref(0, i) in chunks && chunks[Ref(0, i)] == batches[i]
    ensures Rows(chunks, 0, 0, n) == Range(0, 0, n)
    ensures Content(chunks, Rows(chunks, 0, 0, n)) == Join(batches[..n])
  {
    RowsFull(chunks, 0, 0, n);
    RangeContent(chunks, batches, 0, 0, n);
    assert batches[0..n] == batches[..n];
  }

  // Whatever the worker appends under one token and completes, a reader that comes after it gets all of it
  // in two rounds and stops on `ready`.
  lemma UndisturbedIsHeard(batches: seq<Pcm>)
    requires forall i | 0 <= i < |batches| :: batches[i] != []
    ensures var finished := [EBegin] + Appends(batches) + [EFinish(0)];
            && Run(finished).audio == Some(Audio(0, Ready))
            && var reader := Run(finished + [EOpen] + [EPoll] + [EPoll]).reader;
               reader.phase == Stopped(Some(Ready)) && reader.pcm == Join(batches)
  {
    RendersAll(batches);
    HeardAfter([EBegin] + Appends(batches), batches);
  }

  lemma HeardAfter(rendered: seq<Event>, batches: seq<Pcm>)
    requires Rendered(Run(rendered), batches)
    ensures Run(rendered + [EFinish(0)]).audio == Some(Audio(0, Ready))
    ensures var reader := Run(rendered + [EFinish(0)] + [EOpen] + [EPoll] + [EPoll]).reader;
            reader.phase == Stopped(Some(Ready)) && reader.pcm == Join(batches)
  {
    var finished := rendered + [EFinish(0)];
    var listening := finished + [EOpen];
    var polled := listening + [EPoll];
    RunOn(rendered, EFinish(0));
    RunOn(finished, EOpen);
    RunOn(listening, EPoll);
    RunOn(polled, EPoll);
    HeardWhole(Run(rendered), batches);
  }

  lemma HeardWhole(s: Stream, batches: seq<Pcm>)
    requires Rendered(s, batches)
    ensures var t := Open(Finish(s, 0));
            && Finish(s, 0).audio == Some(Audio(0, Ready))
            && Poll(Poll(t)).reader.phase == Stopped(Some(Ready)) && Poll(Poll(t)).reader.pcm == Join(batches)
  {
    var t := Open(Finish(s, 0));
    assert t.attempts[0].batches == batches;
    AllRows(s.chunks, batches, |batches|);
    assert batches[..|batches|] == batches;
    assert [] + Join(batches) == Join(batches);
    RangeShape(0, 0, |batches|);
    StopsIff(t);
    var p := Poll(t);
    assert p.reader.pcm == Join(batches);
    if p.reader.phase.Reading? {
      assert p.reader.next == |batches|;
      StopsIff(p);
      assert Rows(p.chunks, 0, |batches|, |batches|) == [];
      assert p.reader.pcm + [] == p.reader.pcm;
    }
  }

  // ---- when it is not: overtaken workers and expired chunks ----------------------------------

  lemma {:induction false} RowsHold(chunks: map<Ref, Pcm>, token: nat, from: nat, to: nat, ref: Ref)
    ensures ref in Rows(chunks, token, from, to) <==> ref in chunks && ref.token == token && from <= ref.sequence < to
  {
    if from < to {
      RowsHold(chunks, token, from, to - 1, ref);
    }
  }

  lemma {:induction false} RangeHolds(token: nat, from: nat, to: nat, ref: Ref)
    ensures ref in Range(token, from, to) <==> ref.token == token && from <= ref.sequence < to
  {
    if from < to {
      RangeHolds(token, from, to - 1, ref);
    }
  }

  lemma {:induction false} CutRefsHold(attempts: map<nat, Attempt>, cuts: seq<(nat, nat)>, token: nat, ref: Ref)
    requires CutsFit(attempts, cuts, token) && ref.token == token
    ensures ref !in CutRefs(cuts)
  {
    if cuts != [] {
      CutRefsHold(attempts, cuts[..|cuts| - 1], token, ref);
      RangeHolds(cuts[|cuts| - 1].0, 0, cuts[|cuts| - 1].1, ref);
    }
  }

  // The reader has read exactly the rows below its position.
  lemma ReadSoFar(s: Stream, ref: Ref)
    requires Heard(s.attempts, s.reader) && ref.token == s.reader.token
    ensures ref in s.reader.read <==> ref.sequence < s.reader.next
  {
    CutRefsHold(s.attempts, s.reader.cuts, s.reader.token, ref);
    RangeHolds(s.reader.token, 0, s.reader.next, ref);
  }

  // The row a worker appends under the reader's token is read next, and in order exactly if the
  // worker's last row is still stored or was read.
  lemma AppendReadInOrderIffSafe(s: Stream, pcm: Pcm)
    requires Inv(s) && s.reader.phase.Reading? && CanAppend(s, s.reader.token, pcm)
    ensures var t := Append(s, s.reader.token, pcm);
            var n := |Batches(s.attempts, s.reader.token)|;
            && Ref(s.reader.token, n) in Polled(t).read
            && ((forall m: nat | m < n :: Ref(s.reader.token, m) in Polled(t).read) <==>
                Safe(s, EAppend(s.reader.token, pcm)))
  {
    var token := s.reader.token;
    var n := |Batches(s.attempts, token)|;
    var read := Polled(Append(s, token, pcm)).read;
    forall m: nat | m <= n ensures Ref(token, m) in read <==> m < s.reader.next || m == n || Ref(token, m) in s.chunks {
      ReadAfterAppend(s, pcm, m);
    }
    ReadIffDense(read, s.chunks, token, s.reader.next, n);
    SafeAppend(s, pcm);
  }

  lemma SafeAppend(s: Stream, pcm: Pcm)
    requires s.reader.phase.Reading? && CanAppend(s, s.reader.token, pcm)
    ensures var n := |Batches(s.attempts, s.reader.token)|;
            Safe(s, EAppend(s.reader.token, pcm)) <==> n <= s.reader.next || Ref(s.reader.token, n - 1) in s.chunks
  {
  }

  lemma ReadIffDense(read: seq<Ref>, chunks: map<Ref, Pcm>, token: nat, from: nat, n: nat)
    requires Dense(chunks, token, from)
    requires forall m: nat | m < n :: Ref(token, m) in read <==> m < from || Ref(token, m) in chunks
    ensures (forall m: nat | m < n :: Ref(token, m) in read) <==> n <= from || Ref(token, n - 1) in chunks
  {
    DenseBelow(chunks, token, from, n);
  }

  // A row appended under the token the reader will move to, when it opens the stream or has learnt of
  // a retry, is always safe: the reader then finds all rows up to it.
  lemma AppendAheadIsReadInOrder(s: Stream, token: nat, pcm: Pcm)
    requires Inv(s) && CanAppend(s, token, pcm) && token == s.audio.value.token
    requires s.reader.phase.Idle? || (s.reader.phase.Reading? && s.reader.token != token)
    ensures Safe(s, EAppend(token, pcm))
    ensures var t := Append(s, token, pcm);
            var moved := if s.reader.phase.Idle? then Open(t) else Poll(t);
            && moved.reader.token == token && moved.reader.next == 0
            && forall m | 0 <= m <= |Batches(s.attempts, token)| :: Ref(token, m) in Polled(moved).read
  {
    var t := Append(s, token, pcm);
    AppendStaysFull(s, token, pcm);
    MovesAhead(t, token);
    ReadsFromTheStart(if s.reader.phase.Idle? then Open(t) else Poll(t), |Batches(s.attempts, token)| + 1);
  }

  lemma AppendStaysFull(s: Stream, token: nat, pcm: Pcm)
    requires CanAppend(s, token, pcm) && Full(s.chunks, token, 0, |Batches(s.attempts, token)|)
    ensures Full(Append(s, token, pcm).chunks, token, 0, |Batches(s.attempts, token)| + 1)
  {
  }

  lemma MovesAhead(t: Stream, token: nat)
    requires t.audio.Some? && t.audio.value.token == token
    requires t.reader.phase.Idle? || (t.reader.phase.Reading? && t.reader.token != token)
    ensures var moved := if t.reader.phase.Idle? then Open(t) else Poll(t);
            moved.chunks == t.chunks && moved.reader.token == token && moved.reader.next == 0
  {
  }

  lemma ReadsFromTheStart(s: Stream, n: nat)
    requires s.reader.next == 0 && Full(s.chunks, s.reader.token, 0, n)
    requires n <= |Batches(s.attempts, s.reader.token)|
    ensures forall m | 0 <= m < n :: Ref(s.reader.token, m) in Polled(s).read
  {
    assert Polled(s).read == s.reader.read + Unread(s);
    forall m | 0 <= m < n ensures Ref(s.reader.token, m) in Polled(s).read {
      RowsHold(s.chunks, s.reader.token, 0, |Batches(s.attempts, s.reader.token)|, Ref(s.reader.token, m));
    }
  }

  lemma ReadAfterAppend(s: Stream, pcm: Pcm, m: nat)
    requires Tables(s) && Heard(s.attempts, s.reader) && s.reader.phase.Reading? && CanAppend(s, s.reader.token, pcm)
    requires m <= |Batches(s.attempts, s.reader.token)|
    ensures Ref(s.reader.token, m) in Polled(Append(s, s.reader.token, pcm)).read
       <==> m < s.reader.next || m == |Batches(s.attempts, s.reader.token)| || Ref(s.reader.token, m) in s.chunks
  {
    var t := Append(s, s.reader.token, pcm);
    assert Polled(t).read == s.reader.read + Unread(t);
    ReadSoFar(s, Ref(s.reader.token, m));
    RowsHold(t.chunks, s.reader.token, s.reader.next, |Batches(s.attempts, s.reader.token)| + 1,
             Ref(s.reader.token, m));
  }

  // The last row below n is stored or read exactly if all of them are.
  lemma DenseBelow(chunks: map<Ref, Pcm>, token: nat, from: nat, n: nat)
    requires Dense(chunks, token, from)
    ensures (forall m: nat | m < n :: m < from || Ref(token, m) in chunks) <==> n <= from || Ref(token, n - 1) in chunks
  {
    if from < n && Ref(token, n - 1) in chunks {
      assert forall m | from <= m < n - 1 :: Ref(token, m) in chunks;
    }
  }

  // A chunk that expires before it was read is never heard, although later ones are.
  lemma ExpiredUnreadIsLost(s: Stream, ref: Ref)
    requires Inv(s) && s.reader.phase.Reading? && ref in s.chunks && ref.token == s.reader.token
    ensures ref in Polled(Expire(s, ref)).read <==> Safe(s, EExpire(ref))
    ensures forall m | ref.sequence < m && Ref(ref.token, m) in s.chunks ::
        Ref(ref.token, m) in Polled(Expire(s, ref)).read
  {
    var t := Expire(s, ref);
    assert Polled(t).read == s.reader.read + Unread(t);
    ReadSoFar(s, ref);
    var n := |Batches(s.attempts, ref.token)|;
    RowsHold(t.chunks, ref.token, s.reader.next, n, ref);
    forall m | ref.sequence < m && Ref(ref.token, m) in s.chunks ensures Ref(ref.token, m) in Polled(t).read {
      ReadSoFar(s, Ref(ref.token, m));
      RowsHold(t.chunks, ref.token, s.reader.next, n, Ref(ref.token, m));
    }
  }

  lemma RunOn(events: seq<Event>, e: Event)
    ensures Run(events + [e]) == Step(Run(events), e)
    ensures SafeRun(events + [e]) <==> SafeRun(events) && Safe(Run(events), e)
  {
    assert (events + [e])[..|events|] == events;
  }

  const LISTENING := Reader(Reading, 0, 0, [], [], [])

  lemma RetriedBehindItsWorker(a: Pcm)
    requires a != []
    ensures Run([EBegin] + [EAppend(0, a)] + [EOpen] + [EFail(0, false)] + [ERetry] + [EBegin])
         == Stream(map[], Some(Audio(1, Rendering)), map[0 := Attempt([a], true), 1 := Attempt([], true)], LISTENING, 2)
  {
    var e := [EBegin];
    assert e[..0] == [];
    var s := Stream(map[], Some(Audio(0, Rendering)), map[0 := Attempt([], true)], START.reader, 1);
    assert Run(e) == s;
    RunOn(e, EAppend(0, a));
    s := s.(chunks := map[Ref(0, 0) := a], attempts := map[0 := Attempt([a], true)]);
    assert [] + [a] == [a];
    assert Run(e + [EAppend(0, a)]).attempts == s.attempts;
    RunOn(e + [EAppend(0, a)], EOpen);
    RunOn(e + [EAppend(0, a)] + [EOpen], EFail(0, false));
    RunOn(e + [EAppend(0, a)] + [EOpen] + [EFail(0, false)], ERetry);
    RunOn(e + [EAppend(0, a)] + [EOpen] + [EFail(0, false)] + [ERetry], EBegin);
    assert s.attempts[1 := Attempt([], true)] == map[0 := Attempt([a], true), 1 := Attempt([], true)];
  }

  // A run in which it happens: the reaper fails an audio whose worker is still at work, the user
  // retries it, the new attempt clears the table, and the old worker appends once more.
  lemma OvertakenWorkerLeavesAGap(a: Pcm, b: Pcm)
    requires a != [] && b != []
    ensures exists events :: !SafeRun(events) && Run(events).reader.read == [Ref(0, 1)] && Run(events).reader.pcm == b
  {
    RetriedBehindItsWorker(a);
    var events := [EBegin] + [EAppend(0, a)] + [EOpen] + [EFail(0, false)] + [ERetry] + [EBegin];
    var s := Run(events);
    RunOn(events, EAppend(0, b));
    var t := Run(events + [EAppend(0, b)]);
    assert t.chunks == map[Ref(0, 1) := b];
    RunOn(events + [EAppend(0, b)], EPoll);
    assert Rows(t.chunks, 0, 0, 1) == [];
    assert Unread(t) == [Ref(0, 1)];
    assert Content(t.chunks, [Ref(0, 1)][..0]) == [];
    assert Run(events + [EAppend(0, b)] + [EPoll]).reader.read == [Ref(0, 1)];
    assert Run(events + [EAppend(0, b)] + [EPoll]).reader.pcm == b;
  }
}
