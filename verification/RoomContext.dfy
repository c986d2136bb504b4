// What the conversation model and the feedback model get to see of a room: the running summary and
// the raw messages together leave nothing out, whatever the workers do to the summary meanwhile.
module RoomContext {
  import opened Jobs
  import opened RoomModel
  import opened RoomInvariant

  // [1, 2, ..., n]
  function UpTo(n: nat): (s: seq<nat>)
    ensures |s| == n && forall i | 0 <= i < n :: s[i] == i + 1
  {
    if n == 0 then [] else UpTo(n - 1) + [n]
  }

  // The summary was written from the first messages of the room, and remembers the last of them.
  ghost predicate ContextFits(room: Room) {
    && var t := |room.context.covers|;
    && t <= |room.messages|
    && room.context.covers == UpTo(t)
    && room.context.through == if t == 0 then None else Some((t - 1) as Id)
  }

  // A claim was given a beginning of the room in one piece, its own message included.
  ghost predicate PayloadFits(room: Room, claim: Claim) {
    && var shown := |claim.payload.covers| + |claim.payload.raw|;
    && claim.message < shown <= |room.messages|
    && claim.payload.covers + claim.payload.raw == UpTo(shown)
  }

  ghost predicate Coverage(room: Room) {
    ContextFits(room) && forall c :: c in room.claims ==> PayloadFits(room, room.claims[c])
  }

  lemma {:induction false} NothingAfter(messages: seq<Message>, from: nat)
    requires Numbered(messages) && |messages| <= from
    ensures RawAfter(messages, from) == []
  {
    if messages != [] {
      NothingAfter(messages[..|messages| - 1], from);
    }
  }

  lemma {:induction false} RawContinues(messages: seq<Message>, from: nat)
    requires Numbered(messages) && from <= |messages|
    ensures UpTo(from) + RawAfter(messages, from) == UpTo(|messages|)
  {
    if |messages| == from {
      NothingAfter(messages, from);
    } else {
      RawContinues(messages[..|messages| - 1], from);
      assert UpTo(from) + RawAfter(messages, from)
          == (UpTo(from) + RawAfter(messages[..|messages| - 1], from)) + [messages[|messages| - 1].sequence];
    }
  }

  lemma {:induction false} PositionFinds(messages: seq<Message>, sequence: nat)
    requires Numbered(messages) && 1 <= sequence <= |messages|
    ensures Position(messages, sequence) == Some((sequence - 1) as Id)
  {
    if sequence < |messages| {
      PositionFinds(messages[..|messages| - 1], sequence);
    }
  }

  lemma PrefixUpTo(n: nat, covers: seq<nat>, raw: seq<nat>, k: nat)
    requires covers + raw == UpTo(n) && k <= |raw|
    ensures covers + raw[..k] == UpTo(|covers| + k)
  {
    assert covers + raw[..k] == (covers + raw)[..|covers| + k];
  }

  lemma PayloadCovers(room: Room, m: Id)
    requires Ledger(room) && ContextFits(room)
    ensures var payload := PayloadFor(room, m); payload.covers + payload.raw == UpTo(|room.messages|)
  {
    assert Through(room) == |room.context.covers|;
    RawContinues(room.messages, Through(room));
  }

  lemma ClaimKeepsCoverage(room: Room, m: Id)
    requires Ledger(room) && Coverage(room) && Claimable(room, m)
    ensures Coverage(ClaimReply(room, m))
  {
    PayloadCovers(room, m);
    var claimed := ClaimReply(room, m);
    forall c | c in claimed.claims ensures PayloadFits(claimed, claimed.claims[c]) {
      if c == room.nextClaim {
        var p := claimed.claims[c].payload;
        assert |p.covers| + |p.raw| == |p.covers + p.raw|;
      } else {
        assert PayloadFits(room, room.claims[c]);
      }
    }
  }

  lemma SavedContextFits(room: Room, c: Id, reply: Reply, long: bool)
    requires Ledger(room) && Coverage(room) && c in room.claims
    ensures ContextFits(AppendReply(room, c, reply, long))
  {
    var p := room.claims[c].payload;
    assert PayloadFits(room, room.claims[c]);
    if Summarises(p, long) {
      var k := |p.raw| - 2;
      var n := |p.covers| + |p.raw|;
      PrefixUpTo(n, p.covers, p.raw, k);
      assert p.raw[k - 1] == (p.covers + p.raw)[|p.covers| + k - 1];
      PositionFinds(room.messages, |p.covers| + k);
    }
  }

  lemma SaveKeepsCoverage(room: Room, c: Id, reply: Reply, long: bool)
    requires Ledger(room) && Coverage(room) && c in room.claims
    ensures Coverage(SaveReply(room, c, reply, long))
  {
    var saved := SaveReply(room, c, reply, long);
    if Commits(room, c, reply) {
      SavedContextFits(room, c, reply, long);
    }
    forall d | d in saved.claims ensures PayloadFits(saved, saved.claims[d]) {
      assert PayloadFits(room, room.claims[d]);
    }
  }

  lemma StepKeepsCoverage(room: Room, e: Event)
    requires Ledger(room) && Coverage(room)
    ensures Coverage(Step(room, e))
  {
    if Enabled(room, e) {
      match e
      case EClaim(m) => ClaimKeepsCoverage(room, m);
      case ESave(c, model, long) => SaveKeepsCoverage(room, c, ReplyTo(room, c, model), long);
      case _ => QuietStepKeepsCoverage(room, e);
    }
  }

  lemma QuietStepKeepsCoverage(room: Room, e: Event)
    requires Coverage(room) && !e.EClaim? && !e.ESave?
    ensures Coverage(Step(room, e))
  {
    var r := Step(room, e);
    forall c | c in r.claims ensures PayloadFits(r, r.claims[c]) {
      assert PayloadFits(room, room.claims[c]);
    }
  }

  // What the conversation model is shown, after the older messages were summarised if they had to be.
  lemma ShownWithoutGap(room: Room, c: Id, long: bool)
    requires Coverage(room) && c in room.claims
    ensures var (summary, raw) := Shown(room.claims[c].payload, long);
            && summary == UpTo(|summary|)
            && summary + raw == UpTo(|summary| + |raw|)
            && room.claims[c].message + 1 in summary + raw
            && |raw| == if long && |room.claims[c].payload.raw| > 2 then 2 else |room.claims[c].payload.raw|
  {
    var p := room.claims[c].payload;
    assert PayloadFits(room, room.claims[c]);
    var n := |p.covers| + |p.raw|;
    assert UpTo(n)[room.claims[c].message] == room.claims[c].message + 1;
    PrefixUpTo(n, p.covers, p.raw, 0);
    assert p.covers + p.raw[..0] == p.covers;
    if Summarises(p, long) {
      PrefixUpTo(n, p.covers, p.raw, |p.raw| - 2);
      assert p.covers + Older(p.raw) + Recent(p.raw) == p.covers + p.raw;
    }
  }

  // ---- feedback on one user message ----------------------------------------------------------

  // FeedbackAdapter.claim: the summary, and the messages after it that precede the target
  function Preceding(messages: seq<Message>, from: nat, target: nat): seq<nat> {
    if messages == [] then []
    else
      var last := messages[|messages| - 1].sequence;
      Preceding(messages[..|messages| - 1], from, target) + (if from < last < target then [last] else [])
  }

  function FeedbackPrompt(room: Room, target: Id): (seq<nat>, seq<nat>)
    requires target < |room.messages|
  {
    (room.context.covers, Preceding(room.messages, Through(room), room.messages[target].sequence))
  }

  lemma {:induction false} PrecedingIs(messages: seq<Message>, from: nat, target: nat, k: nat)
    requires Numbered(messages) && k <= |messages|
    ensures Preceding(messages[..k], from, target)
         == if from < target <= k then UpTo(target - 1)[from..]
            else if from < k && k < target then UpTo(k)[from..]
            else []
  {
    if k > 0 {
      PrecedingIs(messages, from, target, k - 1);
      assert messages[..k][..k - 1] == messages[..k - 1];
    }
  }

  lemma PrecedingTarget(messages: seq<Message>, from: nat, target: Id)
    requires Numbered(messages) && from <= |messages| && target < |messages|
    ensures Preceding(messages, from, messages[target].sequence) == if from < target then UpTo(target)[from..] else []
  {
    PrecedingIs(messages, from, target + 1, |messages|);
    assert messages[..|messages|] == messages;
    assert UpTo(target)[target..] == [];
  }

  lemma SplitUpTo(t: nat, n: nat)
    requires t <= n
    ensures UpTo(t) + UpTo(n)[t..] == UpTo(n)
  {
  }

  // Everything before the target is either summarised or raw, nothing is both, and nothing raw
  // comes from the target on.
  lemma FeedbackSeesAllBefore(room: Room, target: Id)
    requires Ledger(room) && ContextFits(room) && target < |room.messages|
    ensures var (summary, raw) := FeedbackPrompt(room, target);
            && summary == UpTo(|summary|)
            && (if |summary| < target then summary + raw == UpTo(target) else raw == [])
  {
    var t := |room.context.covers|;
    assert Through(room) == t;
    PrecedingTarget(room.messages, t, target);
    if t < target {
      SplitUpTo(t, target);
    }
  }
}
