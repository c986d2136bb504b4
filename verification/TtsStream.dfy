// One persona message's audio: workers append numbered chunks to a table, one attempt per processing
// token, and a polling reader turns them into a stream, switching tokens when the audio is retried.
module TtsStream {
  import opened Jobs
  import opened TtsBatching

  datatype Ref = Ref(token: nat, sequence: nat)

  datatype Generation = Rendering | Ready | Broken
  datatype Audio = Audio(token: nat, status: Generation)

  // What a worker has appended under one token, and whether it may append more
  datatype Attempt = Attempt(batches: seq<Pcm>, open: bool)

  datatype Phase = Idle | Reading | Stopped(on: Option<Generation>)

  // `next` is one more than sequence_no. `cuts` records the tokens left behind and how much was read
  // of each; `read` records the rows read. Both are history variables.
  datatype Reader = Reader(phase: Phase, token: nat, next: nat, pcm: Pcm, read: seq<Ref>, cuts: seq<(nat, nat)>)

  datatype Stream = Stream(chunks: map<Ref, Pcm>, audio: Option<Audio>, attempts: map<nat, Attempt>,
                           reader: Reader, nextToken: nat)

  const START := Stream(map[], Some(Audio(0, Rendering)), map[], Reader(Idle, 0, 0, [], [], []), 1)

  function Batches(attempts: map<nat, Attempt>, token: nat): seq<Pcm> {
    if token in attempts then attempts[token].batches else []
  }

  // ---- the worker ----------------------------------------------------------------------------

  // TTSAdapter.claim: the chunks of the audio are cleared, and an attempt under its token begins.
  predicate CanBegin(s: Stream) {
    s.audio.Some? && s.audio.value.status == Rendering && s.audio.value.token !in s.attempts
  }

  function Begin(s: Stream): Stream
    requires CanBegin(s)
  {
    s.(chunks := map[], attempts := s.attempts[s.audio.value.token := Attempt([], true)])
  }

  predicate CanAppend(s: Stream, token: nat, pcm: Pcm) {
    token in s.attempts && s.attempts[token].open && pcm != [] && s.audio.Some?
  }

  // TTSChunkWriter.append with the next sequence number. On a conflict it does nothing.
  function Append(s: Stream, token: nat, pcm: Pcm): Stream
    requires CanAppend(s, token, pcm)
  {
    var ref := Ref(token, |s.attempts[token].batches|);
    s.(chunks := if ref in s.chunks then s.chunks else s.chunks[ref := pcm],
       attempts := s.attempts[token := Attempt(s.attempts[token].batches + [pcm], true)])
  }

  predicate Holds(s: Stream, token: nat) {
    s.audio == Some(Audio(token, Rendering))
  }

  // complete: the attempt is over, and the audio ready if the token still holds it.
  function Finish(s: Stream, token: nat): Stream
    requires token in s.attempts
  {
    s.(attempts := s.attempts[token := s.attempts[token].(open := false)],
       audio := if Holds(s, token) && s.attempts[token].open then Some(Audio(token, Ready)) else s.audio)
  }

  // The attempt fails; or the reaper fails the audio while its worker goes on unaware.
  function Fail(s: Stream, token: nat, stops: bool): Stream {
    s.(attempts := if stops && token in s.attempts
                   then s.attempts[token := s.attempts[token].(open := false)] else s.attempts,
       audio := if Holds(s, token) then Some(Audio(token, Broken)) else s.audio)
  }

  // retry_tts
  function Retry(s: Stream): Stream {
    if s.audio.Some? && s.audio.value.status == Broken
    then s.(audio := Some(Audio(s.nextToken, Rendering)), nextToken := s.nextToken + 1) else s
  }

  // The message goes, and its audio and chunks with it.
  function Remove(s: Stream): Stream {
    s.(audio := None, chunks := map[])
  }

  // A chunk outlives its five minutes.
  function Expire(s: Stream, ref: Ref): Stream {
    s.(chunks := s.chunks - {ref})
  }

  // ---- the reader ----------------------------------------------------------------------------

  // The stored rows of a token from one number on, in order. `to` is above all stored numbers.
  function Rows(chunks: map<Ref, Pcm>, token: nat, from: nat, to: nat): seq<Ref> {
    if to <= from then []
    else Rows(chunks, token, from, to - 1) + (if Ref(token, to - 1) in chunks then [Ref(token, to - 1)] else [])
  }

  function Content(chunks: map<Ref, Pcm>, rows: seq<Ref>): Pcm {
    if rows == [] then []
    else Content(chunks, rows[..|rows| - 1])
           + (if rows[|rows| - 1] in chunks then chunks[rows[|rows| - 1]] else [])
  }

  // resolve_tts_stream_target
  function Open(s: Stream): Stream {
    if s.reader.phase.Idle? && s.audio.Some?
    then s.(reader := Reader(Reading, s.audio.value.token, 0, [], [], [])) else s
  }

  // What one query round sees: the chunk rows, a number above all of the token's, and the audio row
  datatype View = View(chunks: map<Ref, Pcm>, bound: nat, audio: Option<Audio>)

  // One round of iter_tts_pcm
  function ReadView(r: Reader, v: View): Reader {
    var rows := Rows(v.chunks, r.token, r.next, v.bound);
    var next := if rows == [] then r.next else rows[|rows| - 1].sequence + 1;
    var on := r.(next := next, pcm := r.pcm + Content(v.chunks, rows), read := r.read + rows);
    if v.audio.None? then on.(phase := Stopped(None))
    else if v.audio.value.token != r.token then
      on.(token := v.audio.value.token, next := 0, cuts := on.cuts + [(r.token, next)])
    else if v.audio.value.status != Rendering && rows == [] then on.(phase := Stopped(Some(v.audio.value.status)))
    else on
  }

  function Unread(s: Stream): seq<Ref> {
    Rows(s.chunks, s.reader.token, s.reader.next, |Batches(s.attempts, s.reader.token)|)
  }

  function Polled(s: Stream): Reader {
    ReadView(s.reader, View(s.chunks, |Batches(s.attempts, s.reader.token)|, s.audio))
  }

  function Poll(s: Stream): Stream {
    if s.reader.phase.Reading? then s.(reader := Polled(s)) else s
  }

  // ---- the state machine ---------------------------------------------------------------------

  datatype Event =
    | EBegin
    | EAppend(token: nat, pcm: Pcm)
    | EFinish(token: nat)
    | EFail(token: nat, stops: bool)
    | ERetry
    | ERemove
    | EExpire(ref: Ref)
    | EOpen
    | EPoll

  function Step(s: Stream, e: Event): Stream {
    match e
    case EBegin => if CanBegin(s) then Begin(s) else s
    case EAppend(token, pcm) => if CanAppend(s, token, pcm) then Append(s, token, pcm) else s
    case EFinish(token) => if token in s.attempts then Finish(s, token) else s
    case EFail(token, stops) => Fail(s, token, stops)
    case ERetry => Retry(s)
    case ERemove => Remove(s)
    case EExpire(ref) => Expire(s, ref)
    case EOpen => Open(s)
    case EPoll => Poll(s)
  }

  function Run(events: seq<Event>): Stream {
    if events == [] then START else Step(Run(events[..|events| - 1]), events[|events| - 1])
  }

  // ---- when a chunk can go missing -----------------------------------------------------------

  // How far the reader is, or will be when it gets there, in the chunks of a token
  function From(s: Stream, token: nat): nat {
    if s.reader.phase.Idle? || s.reader.token != token then 0 else s.reader.next
  }

  predicate Followed(s: Stream, token: nat) {
    (!s.reader.phase.Idle? && token == s.reader.token) || (s.audio.Some? && token == s.audio.value.token)
  }

  // A worker that was overtaken by a new attempt must not append behind chunks that are gone, and
  // chunks must not expire before the reader has seen them.
  predicate Safe(s: Stream, e: Event) {
    match e
    case EAppend(token, _) =>
      CanAppend(s, token, e.pcm) && Followed(s, token) ==>
        var n := |s.attempts[token].batches|;
        n <= From(s, token) || Ref(token, n - 1) in s.chunks
    case EExpire(ref) => ref in s.chunks && Followed(s, ref.token) ==> ref.sequence < From(s, ref.token)
    case _ => true
  }

  predicate SafeRun(events: seq<Event>) {
    events == [] || (SafeRun(events[..|events| - 1]) && Safe(Run(events[..|events| - 1]), events[|events| - 1]))
  }
}
