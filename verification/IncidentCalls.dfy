/** What each call of the observation and incident stores answers and writes, told by its input and the
    rows it finds alone, with the numbers written out. */
module IncidentCalls {
  import opened Options
  import opened Streams
  import opened Incidents

  // ---- Observations ----

  /** The link is there, not removed, and at the version that was observed. */
  predicate StillLinked(t: Tables, o: GameObservation) {
    o.linkId in t.links && !t.links[o.linkId].removed && t.links[o.linkId].version == o.linkVersion
  }

  /** What is stored of the game is what was observed of it. */
  predicate SameGame(t: Tables, o: GameObservation) {
    var key := o.platformId + ":" + o.gameId;
    key in t.games ==>
      && t.games[key].platformId == o.platformId && t.games[key].gameId == o.gameId
      && t.games[key].queueId == o.queueId && t.games[key].startedAt == o.gameStartedAt
  }

  /** Nothing of the game and user is stored from a later instant. */
  predicate Newest(t: Tables, o: GameObservation) {
    forall k | k in t.evidence :: k.gameKey == o.platformId + ":" + o.gameId && k.user == o.user ==>
      t.evidence[k].observedAt <= o.observedAt
  }

  function KeyFor(o: GameObservation, source: Source, generation: int): EvidenceKey {
    EvidenceKey(o.platformId + ":" + o.gameId, o.user, source, generation)
  }

  /** Exactly when an observation is stale, a duplicate, refused by a constraint, or recorded, and when
      recording it reports a violation. */
  lemma RecordAnswers(t: Tables, row: Persisted)
    ensures var o, result := row.observation, RecordObservation(t, row).result;
            var id := IncidentId(o.platformId + ":" + o.gameId, o.user);
            var riotIsNew := KeyFor(o, RiotSpectator, o.riot.generation) !in t.evidence;
            var voiceIsNew := KeyFor(o, DiscordVoice, o.goLive.generation) !in t.evidence;
            && (result.StaleObservation? <==> !StillLinked(t, o) || (SameGame(t, o) && !Newest(t, o)))
            && (result.WriteFailed? <==>
                  StillLinked(t, o) && (!SameGame(t, o) || (Newest(t, o) && riotIsNew != voiceIsNew)))
            && (result.Duplicate? <==>
                  StillLinked(t, o) && SameGame(t, o) && Newest(t, o) && !riotIsNew && !voiceIsNew)
            && (result.Recorded? || result.ViolationRecorded? <==>
                  StillLinked(t, o) && SameGame(t, o) && Newest(t, o) && riotIsNew && voiceIsNew)
            && (result.ViolationRecorded? <==>
                  && StillLinked(t, o) && SameGame(t, o) && Newest(t, o) && riotIsNew && voiceIsNew
                  && row.comparison.Violation?
                  && (id in t.incidents ==>
                        t.incidents[id].status.Open? && !t.incidents[id].comparison.Violation?))
  {
    var o := row.observation;
    assert KeyFor(o, RiotSpectator, o.riot.generation) == RiotKey(o);
    assert KeyFor(o, DiscordVoice, o.goLive.generation) == VoiceKey(o);
  }

  /** What becomes of the incident: a new one is confirmed by a violation and open otherwise; an open one
      is confirmed by its first violation and keeps it; any other stays as it is. */
  predicate Follows(prior: Option<Incident>, row: Persisted, now: Incident) {
    var at := row.observation.observedAt;
    match prior
    case None =>
      now == Incident(if row.comparison.Violation? then Confirmed else Open, row.comparison, row.policyVersion, 0, at,
                      at)
    case Some(was) =>
      if was.status != Open then now == was
      else
        && now.createdAt == was.createdAt && now.updatedAt == at && now.version == was.version + 1
        && now.policyVersion == row.policyVersion
        && (now.status, now.comparison) == if was.comparison.Violation? || row.comparison.Violation?
                                           then (Confirmed, Violation) else (Open, row.comparison)
  }

  /** An observation that is recorded leaves the game, one evidence row for each source, and the incident;
      any other changes nothing. */
  lemma RecordWritesRows(t: Tables, row: Persisted)
    ensures var o, done := row.observation, RecordObservation(t, row);
            var key := o.platformId + ":" + o.gameId;
            var id := IncidentId(key, o.user);
            if done.result.Recorded? || done.result.ViolationRecorded?
            then
              && id in done.tables.incidents && Follows(Lookup(t.incidents, id), row, done.tables.incidents[id])
              && done.tables == t.(
                   games := t.games[key := Game(o.platformId, o.gameId, o.queueId, o.gameStartedAt)],
                   evidence := t.evidence
                     [KeyFor(o, RiotSpectator, o.riot.generation) :=
                        EvidenceRow(o.riot.state, o.observedAt, None, o.riot.code)]
                     [KeyFor(o, DiscordVoice, o.goLive.generation) :=
                        EvidenceRow(o.goLive.state, o.observedAt, o.goLive.sourceObservedAt, o.goLive.code)],
                   incidents := t.incidents[id := done.tables.incidents[id]])
            else done.tables == t
  {
  }

  /** Some character is not white space. */
  predicate Visible(s: string) {
    exists i | 0 <= i < |s| :: s[i] != ' ' && s[i] != '\t' && s[i] != '\n' && s[i] != '\r'
  }

  lemma VisibleIsNotBlank(s: string)
    ensures Visible(s) <==> !Blank(s)
  {
    if !Blank(s) {
      var c :| c in s && c !in " \t\n\r";
      var i :| 0 <= i < |s| && s[i] == c;
      assert " \t\n\r"[0] == ' ' && " \t\n\r"[1] == '\t' && " \t\n\r"[2] == '\n' && " \t\n\r"[3] == '\r';
    }
    if i :| 0 <= i < |s| && s[i] != ' ' && s[i] != '\t' && s[i] != '\n' && s[i] != '\r' {
      assert s[i] in s && s[i] !in " \t\n\r";
    }
  }

  /** An observation is well formed exactly if no text is blank, the numbers are safe integers, the queue
      positive and the others not negative, and nothing it tells is from after its instant. */
  lemma WellFormedMeans(o: GameObservation)
    ensures ValidObservation(o) <==>
              && Visible(o.platformId) && Visible(o.linkId) && Visible(o.gameId) && Visible(o.user)
              && Visible(o.riot.code) && Visible(o.goLive.code)
              && 1 <= o.queueId <= 0x1F_FFFF_FFFF_FFFF && 0 <= o.linkVersion <= 0x1F_FFFF_FFFF_FFFF
              && 0 <= o.riot.generation <= 0x1F_FFFF_FFFF_FFFF && 0 <= o.goLive.generation <= 0x1F_FFFF_FFFF_FFFF
              && o.observedAt >= o.gameStartedAt
              && (o.goLive.sourceObservedAt.Some? ==> o.observedAt >= o.goLive.sourceObservedAt.value)
              && (o.goLive.interruptedAt.Some? ==> o.observedAt >= o.goLive.interruptedAt.value)
  {
    VisibleIsNotBlank(o.platformId);
    VisibleIsNotBlank(o.linkId);
    VisibleIsNotBlank(o.gameId);
    VisibleIsNotBlank(o.user);
    VisibleIsNotBlank(o.riot.code);
    VisibleIsNotBlank(o.goLive.code);
  }

  /** The executor passes on what it compares: a well-formed observation of queue 420 under policy 1, in
      which an active game without a stream is in grace for five minutes after its start and interrupted
      for two minutes after the stream stopped, and a violation after that. */
  lemma ExecutesAs(o: GameObservation)
    ensures Execute(o).Rejected? <==> !ValidObservation(o)
    ensures Execute(o).QueueIgnored? <==> ValidObservation(o) && o.queueId != 420
    ensures Execute(o).Recording? ==>
              && Execute(o).row.observation == o && Execute(o).row.policyVersion == 1
              && Execute(o).row.comparison
                 == if o.riot.state.Unknown? || o.goLive.state.Unknown? then Undetermined
                    else if o.riot.state.Inactive? || o.goLive.state.Active? then Compliant
                    else if o.observedAt < o.gameStartedAt + 300_000 then Grace
                    else if o.goLive.interruptedAt.Some? && o.observedAt < o.goLive.interruptedAt.value + 120_000
                    then Interrupted
                    else Violation
  {
  }

  // ---- Corrections ----

  /** Exactly when a correction is carried out, and why it is not: an admin command finds its id taken
      first, and anybody else last. */
  lemma CorrectionAnswers(t: Tables, m: Mutation)
    ensures var result := MutateIncident(t, m).result;
            var taken, there := m.operation in t.operations, m.incident in t.incidents;
            && (result.DuplicateOperation? <==> m.byAdminCommand && taken)
            && (result.NotFound? <==> !there && !(m.byAdminCommand && taken))
            && (result.Updated? <==>
                  && !taken && there && t.incidents[m.incident].version == m.expectedVersion
                  && t.incidents[m.incident].status in {Open, Confirmed})
            && (result.VersionConflict? <==>
                  && there && !(m.byAdminCommand && taken)
                  && (taken || t.incidents[m.incident].version != m.expectedVersion
                      || t.incidents[m.incident].status in {Corrected, Cancelled}))
  {
  }

  /** A correction carried out moves its incident to the status asked for under the next version, leaves
      one revision, and claims its id; a refused admin command claims its id and leaves the refusal; and a
      refusal of anybody else leaves nothing. */
  lemma CorrectionWritesRows(t: Tables, m: Mutation)
    ensures var done := MutateIncident(t, m);
            var following := if m.action.Correct? then Corrected else Cancelled;
            if done.result.Updated? then
              && m.incident in t.incidents
              && var was := t.incidents[m.incident];
                 done.tables == t.(
                   operations := t.operations + {m.operation},
                   incidents := t.incidents[m.incident := Incident(following, was.comparison, was.policyVersion,
                                                                   was.version + 1, was.createdAt, m.occurredAt)],
                   revisions := t.revisions + [Revision(m.incident, m.operation, m.action, was.status, following)],
                   results := if m.byAdminCommand then t.results[m.operation := Success] else t.results)
            else if m.byAdminCommand && !done.result.DuplicateOperation? then
              done.tables == t.(operations := t.operations + {m.operation},
                                results := t.results[m.operation :=
                                             if done.result.NotFound? then Failure else Conflicting])
            else done.tables == t
  {
  }
}
