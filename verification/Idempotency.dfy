// Idempotency records: a request is claimed under a lease, and completed or failed with the token of
// the claim. The clock may be read by different processes and need not agree between them.
module Idempotency {
  import opened Jobs

  // A user, an action scope and an idempotency key together
  type Key = nat
  type Response = nat
  type Fingerprint = nat

  datatype State =
    | Held(token: nat, lease: int)
    | Completed(response: Response, expires: int)
    | RetryableFailure(expires: int)

  datatype Record = Record(fingerprint: Fingerprint, state: State)

  datatype Table = Table(records: map<Key, Record>, nextToken: nat)

  datatype ClaimResult = Claimed(token: nat) | Replay(response: Response) | KeyReused | InProgress

  // ---- the operations ------------------------------------------------------------------------

  function ClaimOutcome(t: Table, k: Key, fingerprint: Fingerprint, now: int): ClaimResult {
    if k !in t.records then Claimed(t.nextToken)
    else if t.records[k].fingerprint != fingerprint then KeyReused
    else
      match t.records[k].state
      case Completed(response, _) => Replay(response)
      case RetryableFailure(_) => Claimed(t.nextToken)
      case Held(_, lease) => if lease > now then InProgress else Claimed(t.nextToken)
  }

  function Claim(t: Table, k: Key, fingerprint: Fingerprint, now: int, leaseSeconds: int): Table {
    if ClaimOutcome(t, k, fingerprint, now).Claimed?
    then Table(t.records[k := Record(fingerprint, Held(t.nextToken, now + leaseSeconds))], t.nextToken + 1)
    else t
  }

  predicate HeldBy(t: Table, k: Key, token: nat) {
    k in t.records && t.records[k].state.Held? && t.records[k].state.token == token
  }

  function Complete(t: Table, k: Key, token: nat, response: Response, expires: int): Table {
    if HeldBy(t, k, token)
    then t.(records := t.records[k := t.records[k].(state := Completed(response, expires))]) else t
  }

  function FailRetryable(t: Table, k: Key, token: nat, expires: int): Table {
    if HeldBy(t, k, token) then t.(records := t.records[k := t.records[k].(state := RetryableFailure(expires))]) else t
  }

  // purge_expired_idempotency_records, for one record
  predicate Purgeable(t: Table, k: Key, now: int) {
    k in t.records && !t.records[k].state.Held? && t.records[k].state.expires <= now
  }

  datatype Event =
    | EClaim(key: Key, fingerprint: Fingerprint, now: int, lease: int)
    | EComplete(key: Key, token: nat, response: Response, expires: int)
    | EFail(key: Key, token: nat, expires: int)
    | EPurge(key: Key, now: int)

  function Step(t: Table, e: Event): Table {
    match e
    case EClaim(k, fingerprint, now, lease) => Claim(t, k, fingerprint, now, lease)
    case EComplete(k, token, response, expires) => Complete(t, k, token, response, expires)
    case EFail(k, token, expires) => FailRetryable(t, k, token, expires)
    case EPurge(k, now) => if Purgeable(t, k, now) then t.(records := t.records - {k}) else t
  }

  function Run(t: Table, events: seq<Event>): Table {
    if events == [] then t else Step(Run(t, events[..|events| - 1]), events[|events| - 1])
  }

  const EMPTY := Table(map[], 0)

  // ---- what happened to one key --------------------------------------------------------------

  // The responses of the completions of k that succeeded, and how often a completed record of k was
  // purged
  function Completions(t: Table, events: seq<Event>, k: Key): seq<Response> {
    if events == [] then []
    else
      var before := events[..|events| - 1];
      var e := events[|events| - 1];
      Completions(t, before, k)
        + (if e.EComplete? && e.key == k && HeldBy(Run(t, before), k, e.token) then [e.response] else [])
  }

  function Purges(t: Table, events: seq<Event>, k: Key): nat {
    if events == [] then 0
    else
      var before := events[..|events| - 1];
      var e := events[|events| - 1];
      var r := Run(t, before);
      Purges(t, before, k)
        + (if e.EPurge? && e.key == k && Purgeable(r, k, e.now) && r.records[k].state.Completed? then 1 else 0)
  }

  ghost predicate IsCompleted(t: Table, k: Key) {
    k in t.records && t.records[k].state.Completed?
  }

  // One completion for each completed record there has been, the last one being the stored one.
  lemma {:induction false} CompletionsAreStored(events: seq<Event>, k: Key)
    ensures var t := Run(EMPTY, events);
            var done := Completions(EMPTY, events, k);
            && |done| == Purges(EMPTY, events, k) + (if IsCompleted(t, k) then 1 else 0)
            && (IsCompleted(t, k) ==> done[|done| - 1] == t.records[k].state.response)
  {
    if events != [] {
      CompletionsAreStored(events[..|events| - 1], k);
    }
  }

  // As long as its record is retained, at most one completion of a key succeeds, and every later
  // request with the same fingerprint is answered with exactly that response.
  lemma ExactlyOnce(events: seq<Event>, k: Key, fingerprint: Fingerprint, now: int)
    requires Purges(EMPTY, events, k) == 0
    ensures var t := Run(EMPTY, events);
            var done := Completions(EMPTY, events, k);
            && |done| <= 1
            && (|done| == 1 ==> k in t.records && ClaimOutcome(t, k, fingerprint, now)
                                  == if fingerprint == t.records[k].fingerprint then Replay(done[0]) else KeyReused)
            && (ClaimOutcome(t, k, fingerprint, now).Replay? ==>
                done == [ClaimOutcome(t, k, fingerprint, now).response])
  {
    CompletionsAreStored(events, k);
  }

  // A completed record is neither claimed, failed nor completed again; only time removes it.
  lemma {:induction false} CompletedStays(t: Table, events: seq<Event>, k: Key)
    requires IsCompleted(t, k)
    requires forall i | 0 <= i < |events| && events[i].EPurge? && events[i].key == k ::
        events[i].now < t.records[k].state.expires
    ensures k in Run(t, events).records && Run(t, events).records[k] == t.records[k]
  {
    if events != [] {
      CompletedStays(t, events[..|events| - 1], k);
    }
  }

  // A purge takes it exactly from its expiry on; until then a request is answered from it.
  lemma PurgedFromExpiry(t: Table, k: Key, now: int, asked: int)
    requires IsCompleted(t, k)
    ensures var after := Step(t, EPurge(k, now));
            if now < t.records[k].state.expires
            then ClaimOutcome(after, k, t.records[k].fingerprint, asked) == Replay(t.records[k].state.response)
            else ClaimOutcome(after, k, t.records[k].fingerprint, asked).Claimed?
  {
  }

  // A key keeps the fingerprint of its first request while its record exists.
  lemma {:induction false} FingerprintStays(t: Table, events: seq<Event>, k: Key)
    requires k in t.records
    requires forall i | 0 <= i < |events| :: !(events[i].EPurge? && events[i].key == k)
    ensures k in Run(t, events).records && Run(t, events).records[k].fingerprint == t.records[k].fingerprint
  {
    if events != [] {
      FingerprintStays(t, events[..|events| - 1], k);
    }
  }

  // ---- tokens --------------------------------------------------------------------------------

  ghost predicate Fresh(t: Table) {
    && (forall k :: k in t.records && t.records[k].state.Held? ==> t.records[k].state.token < t.nextToken)
    && (forall k, l | k in t.records && l in t.records && t.records[k].state.Held? && t.records[l].state.Held? ::
          t.records[k].state.token == t.records[l].state.token ==> k == l)
  }

  lemma {:induction false} RunKeepsFresh(t: Table, events: seq<Event>)
    requires Fresh(t)
    ensures Fresh(Run(t, events)) && t.nextToken <= Run(t, events).nextToken
  {
    if events != [] {
      RunKeepsFresh(t, events[..|events| - 1]);
    }
  }

  // A token that was issued and does not hold its record now never will again: it can neither
  // complete nor fail, whatever happens.
  lemma {:induction false} SupersededForGood(t: Table, events: seq<Event>, k: Key, token: nat, response: Response,
        expires: int)
    requires Fresh(t) && token < t.nextToken && !HeldBy(t, k, token)
    ensures !HeldBy(Run(t, events), k, token)
    ensures Complete(Run(t, events), k, token, response, expires) == Run(t, events)
    ensures FailRetryable(Run(t, events), k, token, expires) == Run(t, events)
  {
    if events != [] {
      SupersededForGood(t, events[..|events| - 1], k, token, response, expires);
      RunKeepsFresh(t, events[..|events| - 1]);
    }
  }

  // A granted claim supersedes every token issued before it, for good.
  lemma ClaimSupersedes(events: seq<Event>, k: Key, fingerprint: Fingerprint, now: int, lease: int,
        later: seq<Event>, earlier: nat)
    requires ClaimOutcome(Run(EMPTY, events), k, fingerprint, now).Claimed?
    requires earlier < Run(EMPTY, events).nextToken
    ensures var t := Claim(Run(EMPTY, events), k, fingerprint, now, lease);
            HeldBy(t, k, Run(EMPTY, events).nextToken) && !HeldBy(Run(t, later), k, earlier)
  {
    var s := Run(EMPTY, events);
    RunKeepsFresh(EMPTY, events);
    var t := Claim(s, k, fingerprint, now, lease);
    assert Run(s, [EClaim(k, fingerprint, now, lease)]) == t by {
      assert [EClaim(k, fingerprint, now, lease)][..0] == [];
    }
    RunKeepsFresh(s, [EClaim(k, fingerprint, now, lease)]);
    SupersededForGood(t, later, k, earlier, 0, 0);
  }

  // While a claim holds its lease, nobody else gets one, whatever is tried in the meantime.
  lemma {:induction false} LeaseIsExclusive(t: Table, events: seq<Event>, k: Key, token: nat)
    requires Fresh(t) && HeldBy(t, k, token)
    requires forall i | 0 <= i < |events| && events[i].EClaim? && events[i].key == k ::
        events[i].now < t.records[k].state.lease
    requires forall i | 0 <= i < |events| && (events[i].EComplete? || events[i].EFail?) && events[i].key == k ::
        events[i].token != token
    ensures k in Run(t, events).records && Run(t, events).records[k] == t.records[k]
  {
    if events != [] {
      LeaseIsExclusive(t, events[..|events| - 1], k, token);
    }
  }

  // ---- what requests are answered ------------------------------------------------------------

  // The events after a claim leave it alone: its token neither completes nor fails, and nobody with the
  // same fingerprint asks once the lease is over.
  predicate LeavesClaim(e: Event, k: Key, fingerprint: Fingerprint, token: nat, until: int) {
    && (e.EClaim? && e.key == k && e.fingerprint == fingerprint ==> e.now < until)
    && ((e.EComplete? || e.EFail?) && e.key == k ==> e.token != token)
  }

  lemma {:induction false} ClaimRemains(t: Table, k: Key, fingerprint: Fingerprint, token: nat, until: int,
        later: seq<Event>)
    requires k in t.records && t.records[k] == Record(fingerprint, Held(token, until))
    requires forall e | e in later :: LeavesClaim(e, k, fingerprint, token, until)
    ensures k in Run(t, later).records && Run(t, later).records[k] == t.records[k]
  {
    if later != [] {
      ClaimRemains(t, k, fingerprint, token, until, later[..|later| - 1]);
      assert LeavesClaim(later[|later| - 1], k, fingerprint, token, until);
    }
  }

  // A claim granted at `now` holds for `lease` seconds: as long as its token neither completes nor fails,
  // a request with its fingerprint is told to wait if its clock shows less than now + lease, and the first
  // one whose clock shows that much is granted. Any other fingerprint is refused.
  lemma ClaimHoldsForItsLease(events: seq<Event>, k: Key, fingerprint: Fingerprint, now: int, lease: int,
        later: seq<Event>, other: Fingerprint, asked: int)
    requires ClaimOutcome(Run(EMPTY, events), k, fingerprint, now).Claimed?
    requires var token := Run(EMPTY, events).nextToken;
             forall e | e in later :: LeavesClaim(e, k, fingerprint, token, now + lease)
    ensures var t := Run(Step(Run(EMPTY, events), EClaim(k, fingerprint, now, lease)), later);
            && (asked < now + lease ==> ClaimOutcome(t, k, fingerprint, asked) == InProgress)
            && (asked >= now + lease ==> ClaimOutcome(t, k, fingerprint, asked) == Claimed(t.nextToken))
            && (other != fingerprint ==> ClaimOutcome(t, k, other, asked) == KeyReused)
  {
    var s := Run(EMPTY, events);
    ClaimRemains(Step(s, EClaim(k, fingerprint, now, lease)), k, fingerprint, s.nextToken, now + lease, later);
  }

  // A retryable failure is granted to the next request with its fingerprint, whenever that comes.
  lemma {:induction false} FailureStaysOpen(t: Table, k: Key, fingerprint: Fingerprint, later: seq<Event>, asked: int)
    requires k !in t.records || (t.records[k].fingerprint == fingerprint && t.records[k].state.RetryableFailure?)
    requires forall e | e in later :: !(e.EClaim? && e.key == k)
    ensures k !in Run(t, later).records || (Run(t, later).records[k].fingerprint == fingerprint
                                            && Run(t, later).records[k].state.RetryableFailure?)
    ensures ClaimOutcome(Run(t, later), k, fingerprint, asked) == Claimed(Run(t, later).nextToken)
  {
    if later != [] {
      FailureStaysOpen(t, k, fingerprint, later[..|later| - 1], asked);
      assert later[|later| - 1] in later;
    }
  }

  lemma FailureIsGranted(events: seq<Event>, k: Key, token: nat, expires: int, later: seq<Event>, asked: int)
    requires HeldBy(Run(EMPTY, events), k, token) && forall e | e in later :: !(e.EClaim? && e.key == k)
    ensures var s := Run(EMPTY, events);
            var t := Run(Step(s, EFail(k, token, expires)), later);
            ClaimOutcome(t, k, s.records[k].fingerprint, asked) == Claimed(t.nextToken)
  {
    var s := Run(EMPTY, events);
    FailureStaysOpen(Step(s, EFail(k, token, expires)), k, s.records[k].fingerprint, later, asked);
  }

  // ---- the repository ------------------------------------------------------------------------

  class IdempotencyRepository {
    var records: map<Key, Record>
    var nextToken: nat

    function Snapshot(): Table
      reads this
    {
      Table(records, nextToken)
    }

    constructor ()
      ensures Snapshot() == EMPTY
    {
      records, nextToken := map[], 0;
    }

    // Insert unless there is a record; else look at it; else take it over.
    method Claim(k: Key, fingerprint: Fingerprint, now: int, leaseSeconds: int) returns (result: ClaimResult)
      modifies this
      ensures result == ClaimOutcome(old(Snapshot()), k, fingerprint, now)
      ensures Snapshot() == Step(old(Snapshot()), EClaim(k, fingerprint, now, leaseSeconds))
    {
      var token := nextToken;
      if k !in records {
        nextToken := nextToken + 1;
        records := records[k := Record(fingerprint, Held(token, now + leaseSeconds))];
        return Claimed(token);
      }
      var existing := records[k];
      if existing.fingerprint != fingerprint {
        return KeyReused;
      }
      if existing.state.Completed? {
        return Replay(existing.state.response);
      }
      var leaseActive := existing.state.Held? && existing.state.lease > now;
      var retryableFailed := existing.state.RetryableFailure?;
      if leaseActive && !retryableFailed {
        return InProgress;
      }
      if !(retryableFailed || existing.state.lease <= now) {
        return InProgress;
      }
      nextToken := nextToken + 1;
      records := records[k := Record(fingerprint, Held(token, now + leaseSeconds))];
      return Claimed(token);
    }

    method Complete(k: Key, token: nat, response: Response, expires: int) returns (lost: bool)
      modifies this
      ensures lost <==> !HeldBy(old(Snapshot()), k, token)
      ensures Snapshot() == Step(old(Snapshot()), EComplete(k, token, response, expires))
    {
      if k !in records || !records[k].state.Held? || records[k].state.token != token {
        return true;
      }
      records := records[k := records[k].(state := Completed(response, expires))];
      return false;
    }

    method FailRetryable(k: Key, token: nat, expires: int) returns (lost: bool)
      modifies this
      ensures lost <==> !HeldBy(old(Snapshot()), k, token)
      ensures Snapshot() == Step(old(Snapshot()), EFail(k, token, expires))
    {
      if k !in records || !records[k].state.Held? || records[k].state.token != token {
        return true;
      }
      records := records[k := records[k].(state := RetryableFailure(expires))];
      return false;
    }
  }
}
