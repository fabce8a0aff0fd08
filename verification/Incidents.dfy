/** Game evidence and incidents: how two evidence states are compared, what the executor lets through,
    and the observation and incident tables it is recorded in. */
module Incidents {
  import opened Options
  import opened Streams

  datatype ComparisonState = Compliant | Grace | Interrupted | Violation | Undetermined

  datatype Policy = Policy(startGrace: int, interruptionAllowance: int)

  const ACCEPTED_POLICY := Policy(5 * 60_000, 2 * 60_000)
  const POLICY_VERSION: nat := 1
  const OBSERVED_QUEUES: set<int> := {420}

  /** A violation is an active game seen without a stream, past both allowances. */
  function CompareGameEvidence(riot: EvidenceState, goLive: EvidenceState, gameStartedAt: Option<int>,
                               interruptedAt: Option<int>, observedAt: int, policy: Policy) : (r: ComparisonState)
    ensures r.Violation? <==>
            && riot.Active? && goLive.Inactive?
            && gameStartedAt.Some? && observedAt - gameStartedAt.value >= policy.startGrace
            && (interruptedAt.Some? ==> observedAt - interruptedAt.value >= policy.interruptionAllowance)
    ensures r.Undetermined? <==> riot.Unknown? || goLive.Unknown? || (riot.Active? && gameStartedAt.None?)
    ensures r.Grace? <==>
            && riot.Active? && goLive.Inactive?
            && gameStartedAt.Some? && observedAt - gameStartedAt.value < policy.startGrace
    ensures r.Compliant? && riot.Active? ==> goLive.Active?
  {
    if riot.Unknown? || goLive.Unknown? then Undetermined
    else if riot.Inactive? then Compliant
    else if gameStartedAt.None? then Undetermined
    else if goLive.Active? then Compliant
    else if observedAt - gameStartedAt.value < policy.startGrace then Grace
    else if interruptedAt.Some? && observedAt - interruptedAt.value < policy.interruptionAllowance then Interrupted
    else Violation
  }

  // ---- The executor ----

  datatype RiotEvidence = RiotEvidence(state: EvidenceState, code: string, generation: int)

  datatype StreamEvidence = StreamEvidence(state: EvidenceState, code: string, generation: int,
                                           sourceObservedAt: Option<int>, interruptedAt: Option<int>)

  datatype GameObservation = GameObservation(linkId: Id, linkVersion: int, platformId: string, gameId: string,
                                             queueId: int, gameStartedAt: int, user: Id, observedAt: int,
                                             riot: RiotEvidence, goLive: StreamEvidence)
  {
    function GameKey(): string {
      platformId + ":" + gameId
    }

    function IncidentKey(): IncidentId {
      IncidentId(GameKey(), user)
    }
  }

  datatype IncidentId = IncidentId(gameKey: string, user: Id)

  predicate Blank(s: string) {
    forall c | c in s :: c in " \t\n\r"
  }

  predicate SafeInteger(n: int) {
    -0x1F_FFFF_FFFF_FFFF <= n <= 0x1F_FFFF_FFFF_FFFF
  }

  predicate ValidObservation(o: GameObservation) {
    && !Blank(o.platformId) && !Blank(o.linkId) && !Blank(o.gameId) && !Blank(o.user)
    && !Blank(o.riot.code) && !Blank(o.goLive.code)
    && SafeInteger(o.queueId) && o.queueId > 0 && SafeInteger(o.linkVersion) && o.linkVersion >= 0
    && SafeInteger(o.riot.generation) && o.riot.generation >= 0
    && SafeInteger(o.goLive.generation) && o.goLive.generation >= 0
    && o.gameStartedAt <= o.observedAt
    && (o.goLive.sourceObservedAt.Some? ==> o.goLive.sourceObservedAt.value <= o.observedAt)
    && (o.goLive.interruptedAt.Some? ==> o.goLive.interruptedAt.value <= o.observedAt)
  }

  datatype Execution = Rejected | QueueIgnored | Recording(row: Persisted)

  datatype Persisted = Persisted(observation: GameObservation, comparison: ComparisonState, policyVersion: nat)

  function Execute(o: GameObservation): Execution {
    if !ValidObservation(o) then Rejected
    else if o.queueId !in OBSERVED_QUEUES then QueueIgnored
    else Recording(Persisted(o, CompareGameEvidence(o.riot.state, o.goLive.state, Some(o.gameStartedAt),
                                                    o.goLive.interruptedAt, o.observedAt, ACCEPTED_POLICY),
                             POLICY_VERSION))
  }

  // ---- The tables ----

  datatype Link = Link(version: int, removed: bool)

  datatype Game = Game(platformId: string, gameId: string, queueId: int, startedAt: int)

  datatype Source = RiotSpectator | DiscordVoice

  /** The unique key of an observation row. */
  datatype EvidenceKey = EvidenceKey(gameKey: string, user: Id, source: Source, generation: int)

  datatype EvidenceRow = EvidenceRow(state: EvidenceState, observedAt: int, sourceObservedAt: Option<int>, code: string)

  datatype Status = Open | Confirmed | Corrected | Cancelled

  datatype Incident = Incident(status: Status, comparison: ComparisonState, policyVersion: nat, version: nat,
                               createdAt: int, updatedAt: int)

  datatype CorrectionAction = Correct | Cancel

  datatype Revision = Revision(incident: IncidentId, operation: Id, action: CorrectionAction, previous: Status,
                               following: Status)

  datatype AdminOutcome = Success | Conflicting | Failure

  datatype Tables = Tables(links: map<Id, Link>, games: map<string, Game>, evidence: map<EvidenceKey, EvidenceRow>,
                           incidents: map<IncidentId, Incident>, revisions: seq<Revision>, operations: set<Id>,
                           results: map<Id, AdminOutcome>)

  const EMPTY_TABLES := Tables(map[], map[], map[], map[], [], {}, map[])

  datatype RecordResult = Recorded | ViolationRecorded | Duplicate | StaleObservation | WriteFailed

  datatype RecordStep = After(tables: Tables, result: RecordResult)

  predicate LinkIsCurrent(links: map<Id, Link>, linkId: Id, version: int) {
    linkId in links && links[linkId].version == version && !links[linkId].removed
  }

  function GameOf(o: GameObservation): Game {
    Game(o.platformId, o.gameId, o.queueId, o.gameStartedAt)
  }

  predicate SeenLater(evidence: map<EvidenceKey, EvidenceRow>, id: IncidentId, at: int) {
    exists k | k in evidence :: k.gameKey == id.gameKey && k.user == id.user && evidence[k].observedAt > at
  }

  function RiotKey(o: GameObservation): EvidenceKey {
    EvidenceKey(o.GameKey(), o.user, RiotSpectator, o.riot.generation)
  }

  function RiotRow(o: GameObservation): EvidenceRow {
    EvidenceRow(o.riot.state, o.observedAt, None, o.riot.code)
  }

  function VoiceKey(o: GameObservation): EvidenceKey {
    EvidenceKey(o.GameKey(), o.user, DiscordVoice, o.goLive.generation)
  }

  function VoiceRow(o: GameObservation): EvidenceRow {
    EvidenceRow(o.goLive.state, o.observedAt, o.goLive.sourceObservedAt, o.goLive.code)
  }

  predicate FirstViolation(prior: Option<Incident>, comparison: ComparisonState) {
    comparison.Violation? && (prior.None? || (prior.value.status.Open? && !prior.value.comparison.Violation?))
  }

  /** Insert the incident, or update it while it is open. */
  function UpsertIncident(prior: Option<Incident>, row: Persisted): Incident {
    var at := row.observation.observedAt;
    var fresh' := if row.comparison.Violation? then Confirmed else Open;
    if prior.None? then Incident(fresh', row.comparison, row.policyVersion, 0, at, at)
    else if !prior.value.status.Open? then prior.value
    else prior.value.(status := if prior.value.comparison.Violation? then Confirmed else fresh',
                      comparison := if prior.value.comparison.Violation? then Violation else row.comparison,
                      policyVersion := row.policyVersion, version := prior.value.version + 1, updatedAt := at)
  }

  function WriteObservation(t: Tables, row: Persisted): Tables {
    var o := row.observation;
    t.(games := t.games[o.GameKey() := GameOf(o)],
       evidence := t.evidence[RiotKey(o) := RiotRow(o)][VoiceKey(o) := VoiceRow(o)],
       incidents := t.incidents[o.IncidentKey() := UpsertIncident(Lookup(t.incidents, o.IncidentKey()), row)])
  }

  function RecordObservation(t: Tables, row: Persisted): RecordStep {
    var o := row.observation;
    if !LinkIsCurrent(t.links, o.linkId, o.linkVersion) then After(t, StaleObservation)
    else if o.GameKey() in t.games && t.games[o.GameKey()] != GameOf(o) then After(t, WriteFailed)
    else if SeenLater(t.evidence, o.IncidentKey(), o.observedAt) then After(t, StaleObservation)
    else if RiotKey(o) in t.evidence && VoiceKey(o) in t.evidence then After(t, Duplicate)
    else if RiotKey(o) in t.evidence || VoiceKey(o) in t.evidence then After(t, WriteFailed)
    else After(WriteObservation(t, row),
               if FirstViolation(Lookup(t.incidents, o.IncidentKey()), row.comparison)
               then ViolationRecorded else Recorded)
  }

  // ---- Corrections ----

  datatype Mutation = Mutation(incident: IncidentId, expectedVersion: int, action: CorrectionAction, operation: Id,
                               occurredAt: int, byAdminCommand: bool)

  datatype MutationResult = Updated | VersionConflict | NotFound | DuplicateOperation

  datatype Mutated = Done(tables: Tables, result: MutationResult)

  predicate Terminal(incident: Incident) {
    incident.status.Corrected? || incident.status.Cancelled?
  }

  function NextStatus(action: CorrectionAction): Status {
    match action
    case Cancel => Cancelled
    case Correct => Corrected
  }

  /** An admin command that is refused still claims its operation id and leaves a result row. */
  function Refuse(t: Tables, m: Mutation, outcome: AdminOutcome, result: MutationResult): Mutated {
    if m.byAdminCommand
    then Done(t.(operations := t.operations + {m.operation}, results := t.results[m.operation := outcome]), result)
    else Done(t, result)
  }

  function WriteCorrection(t: Tables, m: Mutation): Tables
    requires m.incident in t.incidents
  {
    var prior := t.incidents[m.incident];
    t.(operations := t.operations + {m.operation},
       incidents := t.incidents[m.incident := prior.(status := NextStatus(m.action), version := prior.version + 1,
                                                          updatedAt := m.occurredAt)],
       revisions := t.revisions + [Revision(m.incident, m.operation, m.action, prior.status, NextStatus(m.action))],
       results := if m.byAdminCommand then t.results[m.operation := Success] else t.results)
  }

  function MutateIncident(t: Tables, m: Mutation): Mutated {
    if m.byAdminCommand && m.operation in t.operations then Done(t, DuplicateOperation)
    else if m.incident !in t.incidents then Refuse(t, m, Failure, NotFound)
    else if t.incidents[m.incident].version != m.expectedVersion || Terminal(t.incidents[m.incident])
    then Refuse(t, m, Conflicting, VersionConflict)
    else if m.operation in t.operations then Done(t, VersionConflict)
    else Done(WriteCorrection(t, m), Updated)
  }

  // ---- The stores ----

  class IncidentStore {
    var links: map<Id, Link>
    var games: map<string, Game>
    var evidence: map<EvidenceKey, EvidenceRow>
    var incidents: map<IncidentId, Incident>
    var revisions: seq<Revision>
    var operations: set<Id>
    var results: map<Id, AdminOutcome>

    function View(): Tables
      reads this
    {
      Tables(links, games, evidence, incidents, revisions, operations, results)
    }

    constructor ()
      ensures View() == EMPTY_TABLES
    {
      links, games, evidence, incidents := map[], map[], map[], map[];
      revisions, operations, results := [], {}, map[];
    }

    /** Undo what the transaction wrote to the games and evidence tables. */
    method Rollback(savedGames: map<string, Game>, savedEvidence: map<EvidenceKey, EvidenceRow>)
      modifies this`games, this`evidence
      ensures games == savedGames && evidence == savedEvidence
    {
      games, evidence := savedGames, savedEvidence;
    }

    method InsertEvidence(key: EvidenceKey, row: EvidenceRow) returns (inserted: bool)
      modifies this`evidence
      ensures inserted <==> key !in old(evidence)
      ensures evidence == if inserted then old(evidence)[key := row] else old(evidence)
    {
      if key in evidence { return false; }
      evidence := evidence[key := row];
      inserted := true;
    }

    method Record(row: Persisted) returns (result: RecordResult)
      modifies this`games, this`evidence, this`incidents
      ensures var after := RecordObservation(old(View()), row);
              View() == after.tables && result == after.result
    {
      var o := row.observation;
      var savedGames, savedEvidence := games, evidence;
      if !LinkIsCurrent(links, o.linkId, o.linkVersion) { return StaleObservation; }
      if o.GameKey() !in games {
        games := games[o.GameKey() := GameOf(o)];
      }
      if games[o.GameKey()] != GameOf(o) { return WriteFailed; }
      assert games == savedGames[o.GameKey() := GameOf(o)];
      var prior := Lookup(incidents, o.IncidentKey());
      var firstViolation := FirstViolation(prior, row.comparison);
      if SeenLater(evidence, o.IncidentKey(), o.observedAt) {
        Rollback(savedGames, savedEvidence);
        return StaleObservation;
      }
      var riotInserted := InsertEvidence(RiotKey(o), RiotRow(o));
      var discordInserted := InsertEvidence(VoiceKey(o), VoiceRow(o));
      if !riotInserted || !discordInserted {
        Rollback(savedGames, savedEvidence);
        return if !riotInserted && !discordInserted then Duplicate else WriteFailed;
      }
      incidents := incidents[o.IncidentKey() := UpsertIncident(prior, row)];
      result := if firstViolation then ViolationRecorded else Recorded;
    }

    method CommitRefusal(m: Mutation, outcome: AdminOutcome)
      requires m.byAdminCommand ==> m.operation in operations
      modifies this`results
      ensures results == if m.byAdminCommand then old(results)[m.operation := outcome] else old(results)
    {
      if m.byAdminCommand {
        results := results[m.operation := outcome];
      }
    }

    method Mutate(m: Mutation) returns (result: MutationResult)
      modifies this`incidents, this`revisions, this`operations, this`results
      ensures var done := MutateIncident(old(View()), m);
              View() == done.tables && result == done.result
    {
      if m.byAdminCommand {
        if m.operation in operations { return DuplicateOperation; }
        operations := operations + {m.operation};
      }
      if m.incident !in incidents {
        CommitRefusal(m, Failure);
        return NotFound;
      }
      var row := incidents[m.incident];
      if row.version != m.expectedVersion {
        CommitRefusal(m, Conflicting);
        return VersionConflict;
      }
      if Terminal(row) {
        CommitRefusal(m, Conflicting);
        return VersionConflict;
      }
      if !m.byAdminCommand {
        if m.operation in operations { return VersionConflict; }
        operations := operations + {m.operation};
      }
      var following := NextStatus(m.action);
      incidents := incidents[m.incident := row.(status := following, version := row.version + 1,
                                                    updatedAt := m.occurredAt)];
      revisions := revisions + [Revision(m.incident, m.operation, m.action, row.status, following)];
      CommitRefusal(m, Success);
      result := Updated;
    }
  }

  /** The incidents a user's stack counts. */
  function ConfirmedOf(t: Tables, user: Id): set<IncidentId> {
    set id | id in t.incidents && id.user == user && t.incidents[id].status.Confirmed?
  }
}
