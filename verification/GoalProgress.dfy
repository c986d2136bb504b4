// The goal of a scenario: evaluations of several turns run at the same time and commit in any order.
module GoalProgress {
  import opened Jobs
  import opened RoomModel
  import opened RoomInvariant

  type Key = nat

  datatype Report = Report(key: Key, achieved: bool, evidence: Option<nat>)
  datatype Progress = Progress(achieved: bool, evidence: Option<Id>)

  // Which success conditions the scenario has, and whether each is required
  type Scenario = map<Key, bool>

  datatype Practice = Practice(room: Room, progress: map<Key, Progress>)

  // The validator of a reported condition: no evidence, not achieved.
  function Normalised(report: Report): Report {
    if report.evidence.None? then report.(achieved := false) else report
  }

  // A report counts if it says that the condition is achieved and names the evidence.
  predicate Counts(report: Report, key: Key) {
    report.key == key && report.achieved && report.evidence.Some?
  }

  // The insert of one report, which leaves achieved conditions alone
  function Record(scenario: Scenario, room: Room, progress: map<Key, Progress>, report: Report): map<Key, Progress> {
    var r := Normalised(report);
    if r.key !in scenario || (r.key in progress && progress[r.key].achieved) then progress
    else
      var evidence := if r.evidence.Some? then Position(room.messages, r.evidence.value) else None;
      progress[r.key := Progress(r.achieved, evidence)]
  }

  function RecordAll(scenario: Scenario, room: Room, progress: map<Key, Progress>, reports: seq<Report>)
    : map<Key, Progress>
  {
    if reports == [] then progress
    else Record(scenario, room, RecordAll(scenario, room, progress, reports[..|reports| - 1]), reports[|reports| - 1])
  }

  predicate Achieved(progress: map<Key, Progress>, key: Key) {
    key in progress && progress[key].achieved
  }

  predicate RequiredMet(scenario: Scenario, progress: map<Key, Progress>) {
    forall key | key in scenario && scenario[key] :: Achieved(progress, key)
  }

  // GoalProgressAdapter.complete, once its row is locked
  function Evaluate(scenario: Scenario, p: Practice, reports: seq<Report>): Practice {
    var progress := RecordAll(scenario, p.room, p.progress, reports);
    Practice(if RequiredMet(scenario, progress) then AchieveGoal(p.room) else p.room, progress)
  }

  // Evaluations commit between any other steps of the room.
  datatype Event = Evaluated(reports: seq<Report>) | Meanwhile(step: RoomModel.Event)

  function Step(scenario: Scenario, p: Practice, e: Event): Practice {
    match e
    case Evaluated(reports) => Evaluate(scenario, p, reports)
    case Meanwhile(step) => if step.EAchieveGoal? then p else p.(room := RoomModel.Step(p.room, step))
  }

  function Run(scenario: Scenario, p: Practice, events: seq<Event>): Practice {
    if events == [] then p else Step(scenario, Run(scenario, p, events[..|events| - 1]), events[|events| - 1])
  }

  // ---- what has been reported ----------------------------------------------------------------

  predicate ReportedIn(reports: seq<Report>, key: Key) {
    exists i | 0 <= i < |reports| :: Counts(reports[i], key)
  }

  predicate Reported(events: seq<Event>, key: Key) {
    exists i | 0 <= i < |events| :: events[i].Evaluated? && ReportedIn(events[i].reports, key)
  }

  lemma {:induction false} RecordAllAchieves(scenario: Scenario, room: Room, progress: map<Key, Progress>,
        reports: seq<Report>, key: Key)
    requires key in scenario
    ensures Achieved(RecordAll(scenario, room, progress, reports), key) <==>
        Achieved(progress, key) || ReportedIn(reports, key)
  {
    if reports != [] {
      var before := reports[..|reports| - 1];
      RecordAllAchieves(scenario, room, progress, before, key);
      if ReportedIn(before, key) {
        var i :| 0 <= i < |before| && Counts(before[i], key);
        assert Counts(reports[i], key);
      }
      if Counts(reports[|reports| - 1], key) {
        assert ReportedIn(reports, key);
      }
    }
  }

  // The achieved conditions are the union of what the evaluations reported as achieved.
  lemma {:induction false} AchievedIsTheUnion(scenario: Scenario, p: Practice, events: seq<Event>, key: Key)
    requires key in scenario
    ensures Achieved(Run(scenario, p, events).progress, key) <==> Achieved(p.progress, key) || Reported(events, key)
  {
    if events != [] {
      var before := events[..|events| - 1];
      var last := events[|events| - 1];
      AchievedIsTheUnion(scenario, p, before, key);
      if Reported(before, key) {
        var i :| 0 <= i < |before| && before[i].Evaluated? && ReportedIn(before[i].reports, key);
        assert events[i] == before[i];
      }
      if last.Evaluated? {
        var q := Run(scenario, p, before);
        RecordAllAchieves(scenario, q.room, q.progress, last.reports, key);
        assert ReportedIn(last.reports, key) ==> Reported(events, key);
      }
    }
  }

  // Whatever order the same evaluations commit in, and whatever the room does in between, the same
  // conditions end up achieved.
  lemma AchievedIgnoresOrder(scenario: Scenario, p: Practice, events: seq<Event>, others: seq<Event>, key: Key)
    requires key in scenario
    requires forall e: Event :: e.Evaluated? ==> (e in events <==> e in others)
    ensures Achieved(Run(scenario, p, events).progress, key) <==> Achieved(Run(scenario, p, others).progress, key)
  {
    AchievedIsTheUnion(scenario, p, events, key);
    AchievedIsTheUnion(scenario, p, others, key);
    SameReports(events, others, key);
    SameReports(others, events, key);
  }

  lemma SameReports(events: seq<Event>, others: seq<Event>, key: Key)
    requires forall e: Event :: e.Evaluated? && e in events ==> e in others
    ensures Reported(events, key) ==> Reported(others, key)
  {
    if Reported(events, key) {
      var i :| 0 <= i < |events| && events[i].Evaluated? && ReportedIn(events[i].reports, key);
      var j :| 0 <= j < |others| && others[j] == events[i];
    }
  }

  // ---- achieved stays achieved, with its first evidence --------------------------------------

  lemma {:induction false} RecordAllKeeps(scenario: Scenario, room: Room, progress: map<Key, Progress>,
        reports: seq<Report>, key: Key)
    requires Achieved(progress, key)
    ensures key in RecordAll(scenario, room, progress, reports)
    ensures RecordAll(scenario, room, progress, reports)[key] == progress[key]
  {
    if reports != [] {
      RecordAllKeeps(scenario, room, progress, reports[..|reports| - 1], key);
    }
  }

  lemma {:induction false} FirstEvidenceStays(scenario: Scenario, p: Practice, events: seq<Event>, key: Key)
    requires Achieved(p.progress, key)
    ensures key in Run(scenario, p, events).progress
    ensures Run(scenario, p, events).progress[key] == p.progress[key]
  {
    if events != [] {
      var before := events[..|events| - 1];
      FirstEvidenceStays(scenario, p, before, key);
      var q := Run(scenario, p, before);
      if events[|events| - 1].Evaluated? {
        RecordAllKeeps(scenario, q.room, q.progress, events[|events| - 1].reports, key);
      }
    }
  }

  // The evidence kept is that of the first report that counts.
  lemma {:induction false} EvidenceIsTheFirst(scenario: Scenario, room: Room, progress: map<Key, Progress>,
        reports: seq<Report>, key: Key, first: nat)
    requires key in scenario && !Achieved(progress, key)
    requires first < |reports| && Counts(reports[first], key)
    requires forall i | 0 <= i < first :: !Counts(reports[i], key)
    ensures Achieved(RecordAll(scenario, room, progress, reports), key)
    ensures RecordAll(scenario, room, progress, reports)[key].evidence
        == Position(room.messages, reports[first].evidence.value)
  {
    var before := reports[..|reports| - 1];
    if first < |before| {
      EvidenceIsTheFirst(scenario, room, progress, before, key, first);
    } else {
      RecordAllAchieves(scenario, room, progress, before, key);
    }
  }

  // Over a run, later evaluations do not replace it.
  lemma FirstEvaluationWins(scenario: Scenario, p: Practice, reports: seq<Report>, later: seq<Event>, key: Key,
        first: nat)
    requires key in scenario && !Achieved(p.progress, key)
    requires first < |reports| && Counts(reports[first], key)
    requires forall i | 0 <= i < first :: !Counts(reports[i], key)
    ensures var end := Run(scenario, Step(scenario, p, Evaluated(reports)), later).progress;
            Achieved(end, key) && end[key].evidence == Position(p.room.messages, reports[first].evidence.value)
  {
    EvidenceIsTheFirst(scenario, p.room, p.progress, reports, key, first);
    FirstEvidenceStays(scenario, Step(scenario, p, Evaluated(reports)), later, key);
  }

  // ---- the suggestion to end -----------------------------------------------------------------

  ghost predicate Suggested(scenario: Scenario, p: Practice) {
    && (p.room.reason == GoalAchieved ==> RequiredMet(scenario, p.progress) && !p.room.dismissed)
    && (p.room.reason == GoalAchieved ==> p.room.kind.Scenario?)
  }

  lemma RecordAllKeepsMet(scenario: Scenario, room: Room, progress: map<Key, Progress>, reports: seq<Report>)
    requires RequiredMet(scenario, progress)
    ensures RequiredMet(scenario, RecordAll(scenario, room, progress, reports))
  {
    forall key | key in scenario && scenario[key] ensures Achieved(RecordAll(scenario, room, progress, reports), key) {
      RecordAllKeeps(scenario, room, progress, reports, key);
    }
  }

  lemma StepKeepsSuggested(scenario: Scenario, p: Practice, e: Event)
    requires Suggested(scenario, p)
    ensures Suggested(scenario, Step(scenario, p, e))
    ensures p.room.dismissed ==> Step(scenario, p, e).room.dismissed
  {
    if e.Evaluated? && RequiredMet(scenario, p.progress) {
      RecordAllKeepsMet(scenario, p.room, p.progress, e.reports);
    }
  }

  // The goal is only ever announced with every required condition achieved.
  lemma {:induction false} GoalMeansAllRequired(scenario: Scenario, kind: Kind, opening: bool, events: seq<Event>)
    ensures Suggested(scenario, Run(scenario, Practice(NewRoom(kind, opening), map[]), events))
  {
    if events != [] {
      GoalMeansAllRequired(scenario, kind, opening, events[..|events| - 1]);
      StepKeepsSuggested(scenario, Run(scenario, Practice(NewRoom(kind, opening), map[]), events[..|events| - 1]),
          events[|events| - 1]);
    }
  }

  // Once the user has chosen to go on, the goal is never announced again.
  lemma {:induction false} DismissedForGood(scenario: Scenario, p: Practice, events: seq<Event>)
    requires Suggested(scenario, p) && p.room.dismissed
    ensures Suggested(scenario, Run(scenario, p, events)) && Run(scenario, p, events).room.dismissed
    ensures Run(scenario, p, events).room.reason != GoalAchieved
  {
    if events != [] {
      DismissedForGood(scenario, p, events[..|events| - 1]);
      StepKeepsSuggested(scenario, Run(scenario, p, events[..|events| - 1]), events[|events| - 1]);
    }
  }

  // In every run in which the user dismisses the announced goal, it is not announced at any time after.
  lemma DismissalIsRemembered(scenario: Scenario, kind: Kind, opening: bool, events: seq<Event>, later: seq<Event>)
    requires var p := Run(scenario, Practice(NewRoom(kind, opening), map[]), events);
             p.room.status == InProgress && p.room.reason == GoalAchieved
    ensures var p := Run(scenario, Practice(NewRoom(kind, opening), map[]), events);
            var after := Run(scenario, Step(scenario, p, Meanwhile(EDismissGoal)), later);
            after.room.reason != GoalAchieved
    ensures var p := Run(scenario, Practice(NewRoom(kind, opening), map[]), events);
            Step(scenario, p, Meanwhile(EDismissGoal)).room.status == InProgress
            && Step(scenario, p, Meanwhile(EDismissGoal)).room.reason == NotEnded
  {
    var p := Run(scenario, Practice(NewRoom(kind, opening), map[]), events);
    GoalMeansAllRequired(scenario, kind, opening, events);
    StepKeepsSuggested(scenario, p, Meanwhile(EDismissGoal));
    DismissedForGood(scenario, Step(scenario, p, Meanwhile(EDismissGoal)), later);
  }

  // A running scenario nobody has dismissed announces its goal with the evaluation that meets it.
  lemma GoalIsAnnounced(scenario: Scenario, p: Practice, reports: seq<Report>)
    requires p.room.kind.Scenario? && p.room.status == InProgress && p.room.reason == NotEnded && !p.room.dismissed
    ensures var after := Evaluate(scenario, p, reports);
            after.room.reason == GoalAchieved <==>
              forall key | key in scenario && scenario[key] :: Achieved(p.progress, key) || ReportedIn(reports, key)
  {
    forall key | key in scenario
      ensures Achieved(RecordAll(scenario, p.room, p.progress, reports), key) <==>
          Achieved(p.progress, key) || ReportedIn(reports, key)
    {
      RecordAllAchieves(scenario, p.room, p.progress, reports, key);
    }
  }

  // ---- the adapter ---------------------------------------------------------------------------

  datatype EvaluationStatus = Evaluating | Concluded(achieved: bool) | Aborted
  datatype Evaluation = Evaluation(status: EvaluationStatus, token: nat)

  class GoalProgressAdapter {
    const scenario: Scenario
    var room: Room
    var progress: map<Key, Progress>
    var evaluations: map<Id, Evaluation>

    constructor (scenario: Scenario, room: Room)
      ensures this.scenario == scenario && this.room == room && progress == map[] && evaluations == map[]
    {
      this.scenario, this.room, progress, evaluations := scenario, room, map[], map[];
    }

    // complete: a superseded or finished evaluation changes nothing.
    method Complete(e: Id, token: nat, reports: seq<Report>) returns (saved: bool)
      modifies this
      ensures saved <==> e in old(evaluations) && old(evaluations)[e] == Evaluation(Evaluating, token)
      ensures Practice(room, progress)
           == if saved then Evaluate(scenario, old(Practice(room, progress)), reports)
               else old(Practice(room, progress))
      ensures evaluations
           == if saved then old(evaluations)[e := Evaluation(Concluded(RequiredMet(scenario, progress)), token)]
               else old(evaluations)
    {
      if e !in evaluations || evaluations[e] != Evaluation(Evaluating, token) {
        return false;
      }
      for i := 0 to |reports|
        invariant room == old(room) && evaluations == old(evaluations)
        invariant progress == RecordAll(scenario, room, old(progress), reports[..i])
      {
        var report := Normalised(reports[i]);
        assert reports[..i + 1][..i] == reports[..i];
        if report.key in scenario {
          var evidence := if report.evidence.Some? then Position(room.messages, report.evidence.value) else None;
          if report.key !in progress || !progress[report.key].achieved {
            progress := progress[report.key := Progress(report.achieved, evidence)];
          }
        }
      }
      assert reports[..|reports|] == reports;
      var met := RequiredMet(scenario, progress);
      if met {
        if room.kind.Scenario? && room.status == InProgress && room.reason == NotEnded && !room.dismissed {
          room := room.(reason := GoalAchieved);
        }
      }
      evaluations := evaluations[e := Evaluation(Concluded(met), token)];
      return true;
    }
  }
}
