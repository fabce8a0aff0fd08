/** Runs of the incident tables: observations from any link, corrections by anybody, link changes and
    operation ids taken elsewhere, in any order from empty tables. */
module IncidentRuns {
  import opened Options
  import opened Streams
  import opened Incidents

  datatype Action =
    | Observed(row: Persisted)
    | Corrects(mutation: Mutation)
    | LinkSet(linkId: Id, link: Link)
    | OperationTaken(operation: Id)

  function Step(t: Tables, action: Action): Tables {
    match action
    case Observed(row) => RecordObservation(t, row).tables
    case Corrects(m) => MutateIncident(t, m).tables
    case LinkSet(linkId, link) => t.(links := t.links[linkId := link])
    case OperationTaken(operation) => t.(operations := t.operations + {operation})
  }

  function Run(actions: seq<Action>): Tables {
    if actions == [] then EMPTY_TABLES
    else Step(Run(actions[..|actions| - 1]), actions[|actions| - 1])
  }

  // ---- What the callers were told ----

  predicate ReportsViolation(t: Tables, action: Action, id: IncidentId) {
    action.Observed? && action.row.observation.IncidentKey() == id
        && RecordObservation(t, action.row).result.ViolationRecorded?
  }

  predicate Overturns(t: Tables, action: Action, id: IncidentId) {
    && action.Corrects? && action.mutation.incident == id && MutateIncident(t, action.mutation).result.Updated?
    && id in t.incidents && t.incidents[id].status.Confirmed?
  }

  /** How often a violation was reported for the incident. */
  function ViolationsReported(actions: seq<Action>, id: IncidentId): nat {
    if actions == [] then 0
    else
      var front, last := actions[..|actions| - 1], actions[|actions| - 1];
      ViolationsReported(front, id) + if ReportsViolation(Run(front), last, id) then 1 else 0
  }

  /** How many violations were reported about the user. */
  function ViolationsOf(actions: seq<Action>, user: Id): nat {
    if actions == [] then 0
    else
      var front, last := actions[..|actions| - 1], actions[|actions| - 1];
      ViolationsOf(front, user)
      + if last.Observed? && last.row.observation.user == user
           && ReportsViolation(Run(front), last, last.row.observation.IncidentKey()) then 1 else 0
  }

  /** How many confirmed incidents of the user were corrected or cancelled. */
  function OverturnedOf(actions: seq<Action>, user: Id): nat {
    if actions == [] then 0
    else
      var front, last := actions[..|actions| - 1], actions[|actions| - 1];
      OverturnedOf(front, user)
      + if last.Corrects? && last.mutation.incident.user == user && Overturns(Run(front), last, last.mutation.incident)
        then 1 else 0
  }

  function RevisionsOf(revisions: seq<Revision>, id: IncidentId): nat {
    if revisions == [] then 0
    else RevisionsOf(revisions[..|revisions| - 1], id) + if revisions[|revisions| - 1].incident == id then 1 else 0
  }

  lemma RevisionsGrow(revisions: seq<Revision>, revision: Revision, id: IncidentId)
    ensures RevisionsOf(revisions + [revision], id)
         == RevisionsOf(revisions, id) + if revision.incident == id then 1 else 0
  {
    assert (revisions + [revision])[..|revisions|] == revisions;
  }

  // ---- One incident ----

  /** An open incident never compares as a violation and a confirmed one always does. */
  predicate Settled(incident: Incident) {
    && (incident.status.Open? ==> !incident.comparison.Violation?)
    && (incident.status.Confirmed? ==> incident.comparison.Violation?)
  }

  predicate ShowsViolation(t: Tables, id: IncidentId) {
    id in t.incidents && t.incidents[id].comparison.Violation?
  }

  predicate IsTerminal(t: Tables, id: IncidentId) {
    id in t.incidents && Terminal(t.incidents[id])
  }

  ghost predicate SettledAt(t: Tables, id: IncidentId) {
    id in t.incidents ==> Settled(t.incidents[id])
  }

  predicate Written(t: Tables, row: Persisted) {
    RecordObservation(t, row).result.Recorded? || RecordObservation(t, row).result.ViolationRecorded?
  }

  lemma RecordWrites(t: Tables, row: Persisted)
    ensures var after := RecordObservation(t, row).tables;
            var id := row.observation.IncidentKey();
            && after.revisions == t.revisions
            && after.incidents == (if Written(t, row)
                                   then t.incidents[id := UpsertIncident(Lookup(t.incidents, id), row)]
                                   else t.incidents)
            && (RecordObservation(t, row).result.ViolationRecorded? <==>
                  Written(t, row) && FirstViolation(Lookup(t.incidents, id), row.comparison))
  {
  }

  lemma UpsertKeepsSettled(prior: Option<Incident>, row: Persisted)
    requires prior.Some? ==> Settled(prior.value)
    ensures var after := UpsertIncident(prior, row);
            && Settled(after) && (Terminal(after) <==> prior.Some? && Terminal(prior.value))
            && (prior.Some? && Terminal(prior.value) ==> after == prior.value)
            && (after.comparison.Violation? <==>
                  FirstViolation(prior, row.comparison) || (prior.Some? && prior.value.comparison.Violation?))
            && (FirstViolation(prior, row.comparison) ==> !(prior.Some? && prior.value.comparison.Violation?))
            && (after.status.Confirmed? <==>
                  FirstViolation(prior, row.comparison) || (prior.Some? && prior.value.status.Confirmed?))
            && (FirstViolation(prior, row.comparison) ==> !(prior.Some? && prior.value.status.Confirmed?))
  {
  }

  lemma MutationWrites(t: Tables, m: Mutation)
    ensures var done := MutateIncident(t, m);
            && (done.result.Updated? ==>
                  && m.incident in t.incidents && !Terminal(t.incidents[m.incident])
                  && done.tables == WriteCorrection(t, m))
            && (!done.result.Updated? ==> done.tables.incidents == t.incidents && done.tables.revisions == t.revisions)
  {
  }

  lemma RecordOnIncident(t: Tables, row: Persisted, id: IncidentId)
    requires SettledAt(t, id)
    ensures var after := RecordObservation(t, row).tables;
            && SettledAt(after, id)
            && (ReportsViolation(t, Observed(row), id) <==> ShowsViolation(after, id) && !ShowsViolation(t, id))
            && (ShowsViolation(t, id) ==> ShowsViolation(after, id))
            && (IsTerminal(t, id) <==> IsTerminal(after, id))
            && (IsTerminal(t, id) ==> after.incidents[id] == t.incidents[id])
  {
    RecordWrites(t, row);
    if row.observation.IncidentKey() == id {
      UpsertKeepsSettled(Lookup(t.incidents, id), row);
    }
  }

  lemma MutationOnIncident(t: Tables, m: Mutation, id: IncidentId)
    requires SettledAt(t, id)
    ensures var after := MutateIncident(t, m).tables;
            && SettledAt(after, id) && (ShowsViolation(t, id) <==> ShowsViolation(after, id))
            && (IsTerminal(t, id) ==> IsTerminal(after, id) && after.incidents[id] == t.incidents[id])
            && RevisionsOf(after.revisions, id)
               == RevisionsOf(t.revisions, id) + if IsTerminal(after, id) && !IsTerminal(t, id) then 1 else 0
  {
    MutationWrites(t, m);
    if MutateIncident(t, m).result.Updated? {
      RevisionsGrow(t.revisions, MutateIncident(t, m).tables.revisions[|t.revisions|], id);
    }
  }

  lemma StepOnIncident(t: Tables, action: Action, id: IncidentId)
    requires SettledAt(t, id)
    ensures SettledAt(Step(t, action), id)
    ensures ReportsViolation(t, action, id) <==> ShowsViolation(Step(t, action), id) && !ShowsViolation(t, id)
    ensures ShowsViolation(t, id) ==> ShowsViolation(Step(t, action), id)
    ensures IsTerminal(t, id) ==> IsTerminal(Step(t, action), id) && Step(t, action).incidents[id] == t.incidents[id]
    ensures RevisionsOf(Step(t, action).revisions, id) == RevisionsOf(t.revisions, id)
              + if IsTerminal(Step(t, action), id) && !IsTerminal(t, id) then 1 else 0
  {
    match action
    case Observed(row) => RecordOnIncident(t, row, id); RecordWrites(t, row);
    case Corrects(m) => MutationOnIncident(t, m, id);
    case LinkSet(_, _) =>
    case OperationTaken(_) =>
  }

  /** A violation is reported exactly once for the incidents that show one and never for the others,
      and an incident has one revision if it was corrected or cancelled and none otherwise. */
  lemma {:induction false} CountsMatchIncident(actions: seq<Action>, id: IncidentId)
    ensures var t := Run(actions);
            && SettledAt(t, id)
            && ViolationsReported(actions, id) == (if ShowsViolation(t, id) then 1 else 0)
            && RevisionsOf(t.revisions, id) == (if IsTerminal(t, id) then 1 else 0)
    decreases |actions|
  {
    if actions != [] {
      var front := actions[..|actions| - 1];
      CountsMatchIncident(front, id);
      StepOnIncident(Run(front), actions[|actions| - 1], id);
    }
  }

  /** However often, from however many links and however late a game is observed, and whatever admins
      do in between, a violation is reported at most once for a game and user. */
  lemma ViolationReportedOnce(actions: seq<Action>, id: IncidentId)
    ensures ViolationsReported(actions, id) <= 1 && RevisionsOf(Run(actions).revisions, id) <= 1
  {
    CountsMatchIncident(actions, id);
  }

  /** Nothing changes a corrected or cancelled incident any more. */
  lemma {:induction false} TerminalIsForever(actions: seq<Action>, later: seq<Action>, id: IncidentId)
    requires IsTerminal(Run(actions), id)
    ensures Lookup(Run(actions + later).incidents, id) == Lookup(Run(actions).incidents, id)
    decreases |later|
  {
    if later == [] {
      assert actions + later == actions;
    } else {
      var front := later[..|later| - 1];
      assert (actions + later)[..|actions + later| - 1] == actions + front;
      TerminalIsForever(actions, front, id);
      CountsMatchIncident(actions + front, id);
      StepOnIncident(Run(actions + front), later[|later| - 1], id);
    }
  }

  /** When an observation reports a violation: the link is there, not removed and at the version observed,
      the game is as recorded, nothing of the game and user is recorded from later, neither source's
      generation is, the evidence is a violation, and the incident is new or still open. */
  lemma ViolationReportedWhen(actions: seq<Action>, row: Persisted)
    ensures var t, o := Run(actions), row.observation;
            var key := o.platformId + ":" + o.gameId;
            RecordObservation(t, row).result.ViolationRecorded? <==>
              && row.comparison.Violation?
              && o.linkId in t.links && !t.links[o.linkId].removed && t.links[o.linkId].version == o.linkVersion
              && (key in t.games ==> t.games[key] == Game(o.platformId, o.gameId, o.queueId, o.gameStartedAt))
              && (forall k | k in t.evidence && k.gameKey == key && k.user == o.user ::
                    t.evidence[k].observedAt <= o.observedAt)
              && EvidenceKey(key, o.user, RiotSpectator, o.riot.generation) !in t.evidence
              && EvidenceKey(key, o.user, DiscordVoice, o.goLive.generation) !in t.evidence
              && (IncidentId(key, o.user) in t.incidents ==> t.incidents[IncidentId(key, o.user)].status.Open?)
  {
    CountsMatchIncident(actions, row.observation.IncidentKey());
  }

  // ---- Versions ----

  /** A row that is there stays, and changes only under a higher version. */
  predicate Advances(was: Option<Incident>, now: Option<Incident>) {
    was.Some? ==> now.Some? && (now == was || now.value.version > was.value.version)
  }

  lemma StepAdvances(t: Tables, action: Action, id: IncidentId)
    ensures Advances(Lookup(t.incidents, id), Lookup(Step(t, action).incidents, id))
  {
    match action
    case Observed(row) => RecordWrites(t, row);
    case Corrects(m) => MutationWrites(t, m);
    case LinkSet(_, _) =>
    case OperationTaken(_) =>
  }

  lemma {:induction false} RunAdvances(actions: seq<Action>, later: seq<Action>, id: IncidentId)
    ensures Advances(Lookup(Run(actions).incidents, id), Lookup(Run(actions + later).incidents, id))
    decreases |later|
  {
    if later == [] {
      assert actions + later == actions;
    } else {
      var front := later[..|later| - 1];
      assert (actions + later)[..|actions + later| - 1] == actions + front;
      RunAdvances(actions, front, id);
      StepAdvances(Run(actions + front), later[|later| - 1], id);
    }
  }

  /** A correction accepted at the version its author read corrects the incident exactly as it was
      read, whatever was observed or corrected in between. */
  lemma CorrectionSeesReadIncident(actions: seq<Action>, later: seq<Action>, m: Mutation)
    requires m.incident in Run(actions).incidents && Run(actions).incidents[m.incident].version == m.expectedVersion
    requires MutateIncident(Run(actions + later), m).result.Updated?
    ensures var read, now := Run(actions), Run(actions + later);
            && now.incidents[m.incident] == read.incidents[m.incident]
            && MutateIncident(now, m).tables.incidents[m.incident]
               == read.incidents[m.incident].(status := NextStatus(m.action), version := m.expectedVersion + 1,
                                              updatedAt := m.occurredAt)
            && MutateIncident(now, m).tables.revisions
               == now.revisions + [Revision(m.incident, m.operation, m.action, read.incidents[m.incident].status,
                                            NextStatus(m.action))]
  {
    RunAdvances(actions, later, m.incident);
    MutationWrites(Run(actions + later), m);
  }

  // ---- A user's stack ----

  lemma RecordOnStack(t: Tables, row: Persisted, user: Id)
    requires SettledAt(t, row.observation.IncidentKey())
    ensures |ConfirmedOf(RecordObservation(t, row).tables, user)| == |ConfirmedOf(t, user)|
              + if row.observation.user == user && ReportsViolation(t, Observed(row), row.observation.IncidentKey())
                then 1 else 0
  {
    var id := row.observation.IncidentKey();
    var before, after := ConfirmedOf(t, user), ConfirmedOf(RecordObservation(t, row).tables, user);
    RecordWrites(t, row);
    UpsertKeepsSettled(Lookup(t.incidents, id), row);
    if ReportsViolation(t, Observed(row), id) && id.user == user {
      assert after == before + {id} && id !in before;
    } else {
      assert after == before;
    }
  }

  lemma MutationOnStack(t: Tables, m: Mutation, user: Id)
    ensures |ConfirmedOf(MutateIncident(t, m).tables, user)| == |ConfirmedOf(t, user)|
              - if m.incident.user == user && Overturns(t, Corrects(m), m.incident) then 1 else 0
  {
    var before, after := ConfirmedOf(t, user), ConfirmedOf(MutateIncident(t, m).tables, user);
    MutationWrites(t, m);
    if m.incident.user == user && Overturns(t, Corrects(m), m.incident) {
      assert after == before - {m.incident} && m.incident in before;
    } else {
      assert after == before;
    }
  }

  /** A user's stack is the violations reported about the user less the confirmed incidents of the
      user that were overturned. */
  lemma {:induction false} StackIsReportedLessOverturned(actions: seq<Action>, user: Id)
    ensures |ConfirmedOf(Run(actions), user)| == ViolationsOf(actions, user) - OverturnedOf(actions, user)
    decreases |actions|
  {
    if actions != [] {
      var front := actions[..|actions| - 1];
      StackIsReportedLessOverturned(front, user);
      var t := Run(front);
      match actions[|actions| - 1]
      case Observed(row) =>
        CountsMatchIncident(front, row.observation.IncidentKey());
        RecordOnStack(t, row, user);
      case Corrects(m) => MutationOnStack(t, m, user);
      case LinkSet(linkId, link) => assert ConfirmedOf(Run(actions), user) == ConfirmedOf(t, user);
      case OperationTaken(operation) => assert ConfirmedOf(Run(actions), user) == ConfirmedOf(t, user);
    }
  }
}
