// The chunk writer and the polling reader as they run: the writer on the table of all audios, the
// reader as a loop over what its query rounds see.
module TtsReader {
  import opened Jobs
  import opened TtsBatching
  import opened TtsStream

  datatype Row = Row(audio: nat, token: nat, sequence: nat)

  class TtsChunkWriter {
    var table: map<Row, Pcm>

    constructor ()
      ensures table == map[]
    {
      table := map[];
    }

    // Only this audio's chunks go.
    method Reset(audio: nat)
      modifies this
      ensures forall row :: row in table <==> row in old(table) && row.audio != audio
      ensures forall row | row in table :: table[row] == old(table)[row]
    {
      table := map row | row in table && row.audio != audio :: table[row];
    }

    // A stored chunk is never overwritten.
    method Append(audio: nat, token: nat, sequence: nat, pcm: Pcm)
      modifies this
      ensures table == if Row(audio, token, sequence) in old(table) then old(table)
                       else old(table)[Row(audio, token, sequence) := pcm]
    {
      if Row(audio, token, sequence) !in table {
        table := table[Row(audio, token, sequence) := pcm];
      }
    }

    // The streaming loop of _tts: the batches become rows 0, 1, ... of this token, in order.
    method WriteAll(audio: nat, token: nat, batches: seq<Pcm>)
      requires forall row :: row in table ==> !(row.audio == audio && row.token == token)
      modifies this
      ensures forall i | 0 <= i < |batches| ::
          Row(audio, token, i) in table && table[Row(audio, token, i)] == batches[i]
      ensures forall row :: row in table ==>
                row in old(table) || (row.audio == audio && row.token == token && row.sequence < |batches|)
      ensures forall row :: row in old(table) ==> row in table && table[row] == old(table)[row]
    {
      for i := 0 to |batches|
        invariant forall k | 0 <= k < i :: Row(audio, token, k) in table && table[Row(audio, token, k)] == batches[k]
        invariant forall row :: row in table ==>
                    row in old(table) || (row.audio == audio && row.token == token && row.sequence < i)
        invariant forall row :: row in old(table) ==> row in table && table[row] == old(table)[row]
      {
        Append(audio, token, i, batches[i]);
      }
    }
  }

  function Reads(views: seq<View>, token: nat): Reader {
    if views == [] then Reader(Reading, token, 0, [], [], [])
    else
      var before := Reads(views[..|views| - 1], token);
      if before.phase.Reading? then ReadView(before, views[|views| - 1]) else before
  }

  lemma {:induction false} StoppedStays(views: seq<View>, more: seq<View>, token: nat)
    requires !Reads(views, token).phase.Reading? && views <= more
    ensures Reads(more, token) == Reads(views, token)
    decreases |more|
  {
    if |views| < |more| {
      StoppedStays(views, more[..|more| - 1], token);
    } else {
      assert views == more;
    }
  }

  // The rows of one round, yielded in order
  method YieldRows(chunks: map<Ref, Pcm>, rows: seq<Ref>, last: int) returns (sequenceNo: int, pcm: Pcm)
    ensures sequenceNo == if rows == [] then last else rows[|rows| - 1].sequence
    ensures pcm == Content(chunks, rows)
  {
    sequenceNo := last;
    pcm := [];
    for k := 0 to |rows|
      invariant sequenceNo == if k == 0 then last else rows[k - 1].sequence
      invariant pcm == Content(chunks, rows[..k])
    {
      assert rows[..k + 1][..k] == rows[..k];
      sequenceNo := rows[k].sequence;
      pcm := pcm + (if rows[k] in chunks then chunks[rows[k]] else []);
    }
    assert rows[..|rows|] == rows;
  }

  // A round, and what the clock showed when the loop was about to enter it
  datatype Round = Round(at: real, view: View)

  // The views of the rounds that begin before the deadline
  function InTime(rounds: seq<Round>, deadline: real): seq<View> {
    if rounds == [] || rounds[0].at >= deadline then [] else [rounds[0].view] + InTime(rounds[1..], deadline)
  }

  // The loop ends with the first round that would begin at or after the deadline.
  lemma {:induction false} InTimeIs(rounds: seq<Round>, deadline: real)
    ensures var views := InTime(rounds, deadline);
            && |views| <= |rounds|
            && (forall i | 0 <= i < |views| :: rounds[i].at < deadline && views[i] == rounds[i].view)
            && (|views| < |rounds| ==> rounds[|views|].at >= deadline)
  {
    if rounds != [] && rounds[0].at < deadline {
      InTimeIs(rounds[1..], deadline);
    }
  }

  // The body of the loop, for a reader `r` of the stream model in the same state
  method ReadRound(ghost r: Reader, view: View, token: nat, sequenceNo: int, output: Pcm)
    returns (token': nat, sequenceNo': int, output': Pcm, phase: Phase)
    requires r.phase.Reading? && r.token == token && r.next == sequenceNo + 1 && r.pcm == output
    ensures var p := ReadView(r, view);
            p.phase == phase && p.pcm == output' && (phase.Reading? ==> p.token == token' && p.next == sequenceNo' + 1)
  {
    var rows := Rows(view.chunks, token, sequenceNo + 1, view.bound);
    var pcm;
    token', phase := token, Reading;
    sequenceNo', pcm := YieldRows(view.chunks, rows, sequenceNo);
    output' := output + pcm;
    if view.audio.None? {
      phase := Stopped(None);
    } else if view.audio.value.token != token {
      token' := view.audio.value.token;
      sequenceNo' := -1;
    } else if view.audio.value.status != Rendering && rows == [] {
      phase := Stopped(Some(view.audio.value.status));
    }
  }

  // iter_tts_pcm: the reader of the stream model on the rounds before the timeout.
  method IterTtsPcm(rounds: seq<Round>, token: nat, start: real, timeout: real) returns (output: Pcm, phase: Phase)
    ensures output == Reads(InTime(rounds, start + timeout), token).pcm
    ensures phase == Reads(InTime(rounds, start + timeout), token).phase
  {
    var deadline := start + timeout;
    ghost var views := InTime(rounds, deadline);
    InTimeIs(rounds, deadline);
    var sequenceNo: int := -1;
    var processingToken := token;
    output := [];
    phase := Reading;
    for i := 0 to |rounds|
      invariant i <= |views|
      invariant var r := Reads(views[..i], token);
                && phase.Reading? && r.phase == phase && r.token == processingToken
                && r.next == sequenceNo + 1 && r.pcm == output
    {
      if rounds[i].at >= deadline {
        assert i == |views| && views[..i] == views;
        return;
      }
      assert views[..i + 1][..i] == views[..i];
      processingToken, sequenceNo, output, phase :=
        ReadRound(Reads(views[..i], token), rounds[i].view, processingToken, sequenceNo, output);
      if !phase.Reading? {
        StoppedStays(views[..i + 1], views, token);
        return;
      }
    }
    assert views[..|views|] == views;
  }
}
