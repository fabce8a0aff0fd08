/** What holds in every interleaving of the scheduler: notifications follow recorded violations, and a
    confirmed incident was seen to be one. */
module ObservationSafety {
  import opened Members
  import opened Options
  import opened Streams
  import opened Incidents
  import opened IncidentCalls
  import opened Scheduler
  import opened ObservationRuns
  import IR = IncidentRuns

  // ---- Polls and notifications ----

  function Sent(log: seq<Output>, link: Id): nat {
    if log == [] then 0
    else Sent(log[..|log| - 1], link) + if log[|log| - 1] == Notified(link) then 1 else 0
  }

  predicate StoresViolation(output: Output) {
    output.Stored? && output.stored.ViolationRecorded?
  }

  function ViolationsStored(log: seq<Output>, link: Id): nat {
    if log == [] then 0
    else
      var last := log[|log| - 1];
      ViolationsStored(log[..|log| - 1], link) + if StoresViolation(last) && last.link == link then 1 else 0
  }

  lemma LogGrows(log: seq<Output>, output: Output, link: Id)
    ensures Sent(log + [output], link) == Sent(log, link) + if output == Notified(link) then 1 else 0
    ensures ViolationsStored(log + [output], link)
         == ViolationsStored(log, link) + if StoresViolation(output) && output.link == link then 1 else 0
    ensures Returned(link, Superseded) in log + [output] <==>
              Returned(link, Superseded) in log || output == Returned(link, Superseded)
  {
    assert (log + [output])[..|log|] == log;
  }

  predicate PhaseHolds(sched: Scheduler, link: Id, phase: Phase) {
    && phase.target.linkId == link
    && (phase.AwaitRiot? ==> Lookup(sched.generations, link) == Some(phase.generation))
    && (!phase.AwaitRiot? ==> link in sched.activeGames)
    && (phase.AwaitNotify? ==> link in sched.pendingViolations)
    && (phase.AwaitResult? || phase.AwaitNotify? ==> phase.result.StoreSays? || phase.result.IgnoredQueue?)
  }

  /** A notification the link is owed, and a stored violation whose result has not arrived yet. */
  function Unsent(sys: System, link: Id): nat {
    (if link in sys.sched.pendingViolations then 1 else 0)
    + (if link in sys.polls && sys.polls[link].AwaitResult? && sys.polls[link].result == StoreSays(ViolationRecorded)
       then 1 else 0)
  }

  predicate PollHolds(sys: System, link: Id) {
    && (link in sys.sched.inFlight <==> link in sys.polls)
    && (link in sys.polls ==> PhaseHolds(sys.sched, link, sys.polls[link]))
    && (link in sys.sched.pendingViolations ==> link in sys.sched.activeGames)
    && Sent(sys.log, link) + Unsent(sys, link) <= ViolationsStored(sys.log, link)
    && Returned(link, Superseded) !in sys.log
  }

  function SubjectOf(event: Event): Option<Id> {
    match event
    case PollCalled(target) => Some(target.linkId)
    case RiotAnswers(link, _, _) => Some(link)
    case StoreCommits(link) => Some(link)
    case StoreFails(link) => Some(link)
    case ResultArrives(link) => Some(link)
    case NotifySucceeds(link) => Some(link)
    case NotifyFails(link) => Some(link)
    case _ => None
  }

  lemma VoiceSparesPolls(sys: System, event: Event)
    ensures var next := VoiceStep(sys, event);
            && next.polls == sys.polls && next.log == sys.log && next.tables == sys.tables
            && next.sched.inFlight == sys.sched.inFlight && next.sched.generations == sys.sched.generations
            && next.sched.activeGames == sys.sched.activeGames
            && next.sched.pendingViolations == sys.sched.pendingViolations
  {
  }

  /** What deciding a poll may do to the scheduler, and how it may go on. */
  lemma DecidingKeeps(s: Scheduler, target: Target, generation: nat, reply: RiotReply, now: int, freshness: int)
    requires Lookup(s.generations, target.linkId) == Some(generation)
    ensures var decided := DecidePoll(s, target, generation, reply, now, freshness);
            var after, goesOn := decided.scheduler, decided.decision.Ignores? || decided.decision.Stores?;
            && after.generations == s.generations && after.pendingViolations == s.pendingViolations
            && s.activeGames.Keys <= after.activeGames.Keys <= s.activeGames.Keys + {target.linkId}
            && after.inFlight == (if goesOn then s.inFlight else s.inFlight - {target.linkId})
            && (goesOn ==> target.linkId in after.activeGames)
            && (decided.decision.Returns? ==>
                  decided.decision.result.NoActiveGame? && target.linkId !in s.activeGames)
  {
  }

  /** What a step of one link leaves alone at another. */
  predicate Apart(sys: System, next: System, link: Id) {
    && (link in next.sched.inFlight <==> link in sys.sched.inFlight)
    && Lookup(next.polls, link) == Lookup(sys.polls, link)
    && Lookup(next.sched.generations, link) == Lookup(sys.sched.generations, link)
    && (link in sys.sched.activeGames ==> link in next.sched.activeGames)
    && (link in next.sched.pendingViolations <==> link in sys.sched.pendingViolations)
    && Sent(next.log, link) == Sent(sys.log, link)
    && ViolationsStored(next.log, link) == ViolationsStored(sys.log, link)
    && (Returned(link, Superseded) in next.log ==> Returned(link, Superseded) in sys.log)
  }

  /** A step of the subject's poll that moves its phase and says one thing about it leaves the others. */
  lemma MovesLeaveOthers(sys: System, sched: Scheduler, polls: map<Id, Phase>, output: Output, subject: Id, link: Id)
    requires subject != link && output.link == subject
    requires polls - {subject} == sys.polls - {subject}
    requires SchedApart(sys.sched, sched, link)
    ensures Apart(sys, System(sched, sys.asks, polls, sys.tables, sys.log + [output]), link)
    ensures Apart(sys, System(sched, sys.asks, polls, sys.tables, sys.log), link)
  {
    LogGrows(sys.log, output, link);
    assert link in polls <==> link in polls - {subject};
    assert link in sys.polls <==> link in sys.polls - {subject};
    assert link in polls ==> polls[link] == (polls - {subject})[link] == (sys.polls - {subject})[link];
  }

  predicate SchedApart(was: Scheduler, now: Scheduler, link: Id) {
    && (link in now.inFlight <==> link in was.inFlight)
    && Lookup(now.generations, link) == Lookup(was.generations, link)
    && (link in was.activeGames ==> link in now.activeGames)
    && (link in now.pendingViolations <==> link in was.pendingViolations)
  }

  lemma RiotLeavesOthers(sys: System, freshness: int, subject: Id, reply: RiotReply, now: int, link: Id)
    requires PollHolds(sys, subject) && subject in sys.polls && sys.polls[subject].AwaitRiot? && subject != link
    ensures Apart(sys, StepRiot(sys, freshness, subject, reply, now), link)
  {
    var AwaitRiot(target, generation) := sys.polls[subject];
    DecidingKeeps(sys.sched, target, generation, reply, now, freshness);
    var decided := DecidePoll(sys.sched, target, generation, reply, now, freshness);
    var next := StepRiot(sys, freshness, subject, reply, now);
    assert SchedApart(sys.sched, decided.scheduler, link);
    var output := if decided.decision.Returns? then Returned(subject, decided.decision.result) else Threw(subject);
    MovesLeaveOthers(sys, decided.scheduler, next.polls, output, subject, link);
  }

  lemma StoreLeavesOthers(sys: System, subject: Id, link: Id)
    requires PollHolds(sys, subject) && subject in sys.polls && sys.polls[subject].AwaitStore? && subject != link
    ensures Apart(sys, StepStore(sys, subject), link)
  {
    var row := sys.polls[subject].row;
    var result := RecordObservation(sys.tables, row).result;
    var next := StepStore(sys, subject);
    var output := if result.WriteFailed? then Threw(subject)
        else Stored(subject, row.observation.IncidentKey(), result);
    MovesLeaveOthers(sys, next.sched, next.polls, output, subject, link);
  }

  lemma ResultLeavesOthers(sys: System, subject: Id, link: Id)
    requires PollHolds(sys, subject) && subject in sys.polls && sys.polls[subject].AwaitResult? && subject != link
    ensures Apart(sys, StepResult(sys, subject), link)
  {
    LogGrows(sys.log, Returned(subject, sys.polls[subject].result), link);
  }

  lemma PollCallLeavesOthers(sys: System, freshness: int, event: Event, link: Id)
    requires event.PollCalled? && event.target.linkId != link
    ensures Apart(sys, PollStep(sys, freshness, event), link)
  {
    LogGrows(sys.log, Returned(event.target.linkId, AlreadyRunning), link);
  }

  lemma ThrowLeavesOthers(sys: System, freshness: int, event: Event, link: Id)
    requires (event.StoreFails? || event.NotifyFails?) && event.link != link
    ensures Apart(sys, PollStep(sys, freshness, event), link)
  {
    LogGrows(sys.log, Threw(event.link), link);
  }

  lemma NotifyLeavesOthers(sys: System, freshness: int, event: Event, link: Id)
    requires event.NotifySucceeds? && event.link != link
    ensures Apart(sys, PollStep(sys, freshness, event), link)
  {
    if event.link in sys.polls && sys.polls[event.link].AwaitNotify? {
      LogGrows(sys.log, Notified(event.link), link);
      LogGrows(sys.log + [Notified(event.link)], Returned(event.link, sys.polls[event.link].result), link);
    }
  }

  /** A step of one link leaves the others alone. */
  lemma OtherLinksStay(sys: System, freshness: int, event: Event, link: Id)
    requires !IsVoice(event) && SubjectOf(event) != Some(link)
    requires SubjectOf(event).Some? ==> PollHolds(sys, SubjectOf(event).value)
    ensures Apart(sys, PollStep(sys, freshness, event), link)
  {
    if event.RiotAnswers? {
      if event.link in sys.polls && sys.polls[event.link].AwaitRiot? {
        RiotLeavesOthers(sys, freshness, event.link, event.reply, event.now, link);
      }
    } else if event.StoreCommits? {
      if event.link in sys.polls && sys.polls[event.link].AwaitStore? {
        StoreLeavesOthers(sys, event.link, link);
      }
    } else if event.ResultArrives? {
      if event.link in sys.polls && sys.polls[event.link].AwaitResult? {
        ResultLeavesOthers(sys, event.link, link);
      }
    } else if event.PollCalled? {
      PollCallLeavesOthers(sys, freshness, event, link);
    } else if event.NotifySucceeds? {
      NotifyLeavesOthers(sys, freshness, event, link);
    } else if !event.Outside? {
      ThrowLeavesOthers(sys, freshness, event, link);
    }
  }

  lemma OwnRiotKeeps(sys: System, freshness: int, link: Id, reply: RiotReply, now: int)
    requires PollHolds(sys, link) && link in sys.polls && sys.polls[link].AwaitRiot?
    ensures PollHolds(StepRiot(sys, freshness, link, reply, now), link)
  {
    var AwaitRiot(target, generation) := sys.polls[link];
    DecidingKeeps(sys.sched, target, generation, reply, now, freshness);
    var next := StepRiot(sys, freshness, link, reply, now);
    if |next.log| > |sys.log| {
      LogGrows(sys.log, next.log[|sys.log|], link);
    }
  }

  lemma OwnStoreKeeps(sys: System, link: Id)
    requires PollHolds(sys, link) && link in sys.polls && sys.polls[link].AwaitStore?
    ensures PollHolds(StepStore(sys, link), link)
  {
    var row := sys.polls[link].row;
    var result := RecordObservation(sys.tables, row).result;
    if result.WriteFailed? {
      LogGrows(sys.log, Threw(link), link);
    } else {
      LogGrows(sys.log, Stored(link, row.observation.IncidentKey(), result), link);
    }
  }

  lemma OwnResultKeeps(sys: System, link: Id)
    requires PollHolds(sys, link) && link in sys.polls && sys.polls[link].AwaitResult?
    ensures PollHolds(StepResult(sys, link), link)
  {
    var AwaitResult(target, riot, result) := sys.polls[link];
    var taken := TakeResult(sys.sched, link, result);
    if link in taken.pendingViolations {
      assert StepResult(sys, link)
          == sys.(sched := taken, polls := sys.polls[link := AwaitNotify(target, riot, result)]);
    } else {
      LogGrows(sys.log, Returned(link, result), link);
    }
  }

  lemma OwnEndKeeps(sys: System, freshness: int, event: Event, link: Id)
    requires PollHolds(sys, link) && SubjectOf(event) == Some(link)
    requires event.PollCalled? || event.StoreFails? || event.NotifySucceeds? || event.NotifyFails?
    ensures PollHolds(PollStep(sys, freshness, event), link)
  {
    var next := PollStep(sys, freshness, event);
    if |next.log| > |sys.log| {
      LogGrows(sys.log, next.log[|sys.log|], link);
    }
    if |next.log| > |sys.log| + 1 {
      LogGrows(sys.log + [next.log[|sys.log|]], next.log[|sys.log| + 1], link);
    }
  }

  lemma OwnStepKeeps(sys: System, freshness: int, event: Event, link: Id)
    requires PollHolds(sys, link) && SubjectOf(event) == Some(link)
    ensures PollHolds(PollStep(sys, freshness, event), link)
  {
    if event.RiotAnswers? {
      if link in sys.polls && sys.polls[link].AwaitRiot? {
        OwnRiotKeeps(sys, freshness, link, event.reply, event.now);
      }
    } else if event.StoreCommits? {
      if link in sys.polls && sys.polls[link].AwaitStore? {
        OwnStoreKeeps(sys, link);
      }
    } else if event.ResultArrives? {
      if link in sys.polls && sys.polls[link].AwaitResult? {
        OwnResultKeeps(sys, link);
      }
    } else {
      OwnEndKeeps(sys, freshness, event, link);
    }
  }

  lemma VoiceKeepsPoll(sys: System, freshness: int, event: Event, link: Id)
    requires PollHolds(sys, link) && IsVoice(event)
    ensures PollHolds(Next(sys, freshness, event), link)
  {
    VoiceSparesPolls(sys, event);
  }

  lemma StepKeepsPoll(sys: System, freshness: int, event: Event, link: Id)
    requires PollHolds(sys, link)
    requires SubjectOf(event).Some? ==> PollHolds(sys, SubjectOf(event).value)
    ensures PollHolds(Next(sys, freshness, event), link)
  {
    if IsVoice(event) {
      VoiceKeepsPoll(sys, freshness, event, link);
    } else if SubjectOf(event) != Some(link) {
      OtherLinksStay(sys, freshness, event, link);
    } else {
      OwnStepKeeps(sys, freshness, event, link);
    }
  }

  lemma {:induction false} PollsHold(freshness: int, events: seq<Event>, link: Id)
    ensures PollHolds(Exec(freshness, events), link)
    decreases |events|
  {
    if events != [] {
      var front, last := events[..|events| - 1], events[|events| - 1];
      PollsHold(freshness, front, link);
      if SubjectOf(last).Some? {
        PollsHold(freshness, front, SubjectOf(last).value);
      }
      StepKeepsPoll(Exec(freshness, front), freshness, last, link);
    }
  }

  /** A link that is owed a notification has an active game on record, notifications sent never
      outnumber violations stored, and the check of the poll generation after the Riot reply never
      fires: no poll is ever superseded. */
  lemma NotificationsFollowViolations(freshness: int, events: seq<Event>, link: Id)
    ensures var sys := Exec(freshness, events);
            && sys.sched.pendingViolations <= sys.sched.activeGames.Keys
            && Sent(sys.log, link) <= ViolationsStored(sys.log, link)
            && Returned(link, Superseded) !in sys.log
  {
    PollsHold(freshness, events, link);
    var sys := Exec(freshness, events);
    forall other | other in sys.sched.pendingViolations ensures other in sys.sched.activeGames {
      PollsHold(freshness, events, other);
    }
  }

  /** The event ends a poll of the link with the result. */
  predicate Completes(freshness: int, events: seq<Event>, event: Event, link: Id, result: PollResult) {
    var before, after := Exec(freshness, events).log, Exec(freshness, events + [event]).log;
    && |after| > |before| && after[|after| - 1] == Returned(link, result) && !result.AlreadyRunning?
  }

  /** No poll of a link completes while a notification stays owed: it is paid first, also after the
      game has ended, and a failed notification leaves it to the next poll. */
  lemma OwedIsPaidFirst(freshness: int, events: seq<Event>, event: Event, link: Id, result: PollResult)
    requires Completes(freshness, events, event, link, result)
    ensures link !in Exec(freshness, events + [event]).sched.pendingViolations
    ensures link in Exec(freshness, events).sched.pendingViolations ==> event == NotifySucceeds(link)
  {
    assert (events + [event])[..|events|] == events;
    var sys := Exec(freshness, events);
    if IsVoice(event) {
      VoiceSparesPolls(sys, event);
    } else if SubjectOf(event).Some? {
      var subject := SubjectOf(event).value;
      PollsHold(freshness, events, subject);
      if event.RiotAnswers? && subject in sys.polls && sys.polls[subject].AwaitRiot? {
        DecidingKeeps(sys.sched, sys.polls[subject].target, sys.polls[subject].generation, event.reply, event.now,
                      freshness);
      }
    }
  }

  lemma FailedNotificationStaysOwed(freshness: int, events: seq<Event>, link: Id)
    ensures var sys, next := Exec(freshness, events), Exec(freshness, events + [NotifyFails(link)]);
            link in sys.polls && sys.polls[link].AwaitNotify? ==>
              && link in next.sched.pendingViolations && link in next.sched.activeGames && link !in next.sched.inFlight
  {
    assert (events + [NotifyFails(link)])[..|events|] == events;
    PollsHold(freshness, events, link);
    var sys := Exec(freshness, events);
    if link in sys.polls && sys.polls[link].AwaitNotify? {
      assert Next(sys, freshness, NotifyFails(link)) == EndOfPoll(sys, link, Leave(sys.sched, link), Threw(link));
    }
  }

  // ---- The tables are a run of the stores ----

  function TableActions(freshness: int, events: seq<Event>): seq<IR.Action> {
    if events == [] then []
    else
      var front, last := events[..|events| - 1], events[|events| - 1];
      var earlier, polls := TableActions(freshness, front), Exec(freshness, front).polls;
      if last.StoreCommits? && last.link in polls && polls[last.link].AwaitStore?
      then earlier + [IR.Observed(polls[last.link].row)]
      else if last.Outside? && !last.action.Observed? then earlier + [last.action]
      else earlier
  }

  lemma RunGrows(actions: seq<IR.Action>, action: IR.Action, id: IncidentId)
    ensures IR.Run(actions + [action]) == IR.Step(IR.Run(actions), action)
    ensures IR.ViolationsReported(actions + [action], id)
         == IR.ViolationsReported(actions, id) + if IR.ReportsViolation(IR.Run(actions), action, id) then 1 else 0
  {
    assert (actions + [action])[..|actions|] == actions;
  }

  function ViolationsLogged(log: seq<Output>, id: IncidentId): nat {
    if log == [] then 0
    else
      var last := log[|log| - 1];
      ViolationsLogged(log[..|log| - 1], id) + if StoresViolation(last) && last.incident == id then 1 else 0
  }

  lemma LoggedGrows(log: seq<Output>, output: Output, id: IncidentId)
    ensures ViolationsLogged(log + [output], id)
         == ViolationsLogged(log, id) + if StoresViolation(output) && output.incident == id then 1 else 0
  {
    assert (log + [output])[..|log|] == log;
  }

  lemma StoreLogs(sys: System, link: Id, id: IncidentId)
    requires link in sys.polls && sys.polls[link].AwaitStore?
    ensures ViolationsLogged(StepStore(sys, link).log, id) == ViolationsLogged(sys.log, id)
              + if IR.ReportsViolation(sys.tables, IR.Observed(sys.polls[link].row), id) then 1 else 0
  {
    LoggedGrows(sys.log, StepStore(sys, link).log[|sys.log|], id);
  }

  /** Only a store commit logs a stored result. */
  lemma OthersLogNoStore(sys: System, freshness: int, event: Event)
    requires !(event.StoreCommits? && event.link in sys.polls && sys.polls[event.link].AwaitStore?)
    ensures var log := Next(sys, freshness, event).log;
            || log == sys.log
            || (|log| == |sys.log| + 1 && log == sys.log + [log[|sys.log|]] && !log[|sys.log|].Stored?)
            || (event.NotifySucceeds? && |log| == |sys.log| + 2 && !log[|sys.log| + 1].Stored?
                && log == sys.log + [Notified(event.link)] + [log[|sys.log| + 1]])
  {
    if IsVoice(event) {
      VoiceSparesPolls(sys, event);
    }
  }

  lemma StepLogs(sys: System, freshness: int, event: Event, id: IncidentId)
    ensures var next := Next(sys, freshness, event);
            ViolationsLogged(next.log, id) == ViolationsLogged(sys.log, id)
              + if event.StoreCommits? && event.link in sys.polls && sys.polls[event.link].AwaitStore?
                   && IR.ReportsViolation(sys.tables, IR.Observed(sys.polls[event.link].row), id) then 1 else 0
  {
    if event.StoreCommits? && event.link in sys.polls && sys.polls[event.link].AwaitStore? {
      StoreLogs(sys, event.link, id);
    } else {
      OthersLogNoStore(sys, freshness, event);
      var log := Next(sys, freshness, event).log;
      if |log| > |sys.log| {
        LoggedGrows(sys.log, log[|sys.log|], id);
      }
      if |log| > |sys.log| + 1 {
        LoggedGrows(sys.log + [log[|sys.log|]], log[|sys.log| + 1], id);
      }
    }
  }

  lemma StepTables(sys: System, freshness: int, event: Event)
    ensures var next := Next(sys, freshness, event).tables;
            if event.StoreCommits? && event.link in sys.polls && sys.polls[event.link].AwaitStore?
            then next == IR.Step(sys.tables, IR.Observed(sys.polls[event.link].row))
            else if event.Outside? && !event.action.Observed? then next == IR.Step(sys.tables, event.action)
            else next == sys.tables
  {
  }

  lemma {:induction false} TablesAreARun(freshness: int, events: seq<Event>, id: IncidentId)
    ensures var sys, actions := Exec(freshness, events), TableActions(freshness, events);
            sys.tables == IR.Run(actions) && ViolationsLogged(sys.log, id) == IR.ViolationsReported(actions, id)
    decreases |events|
  {
    if events != [] {
      var front, last := events[..|events| - 1], events[|events| - 1];
      TablesAreARun(freshness, front, id);
      var sys := Exec(freshness, front);
      StepTables(sys, freshness, last);
      StepLogs(sys, freshness, last, id);
      var earlier := TableActions(freshness, front);
      if last.StoreCommits? && last.link in sys.polls && sys.polls[last.link].AwaitStore? {
        RunGrows(earlier, IR.Observed(sys.polls[last.link].row), id);
      } else if last.Outside? && !last.action.Observed? {
        RunGrows(earlier, last.action, id);
        assert !IR.ReportsViolation(sys.tables, last.action, id);
      }
    }
  }

  /** Over all links and polls, a violation of one game by one user is stored once, exactly if the
      incident shows it. */
  lemma ViolationStoredOnce(freshness: int, events: seq<Event>, id: IncidentId)
    ensures var sys := Exec(freshness, events);
            ViolationsLogged(sys.log, id) == if IR.ShowsViolation(sys.tables, id) then 1 else 0
  {
    TablesAreARun(freshness, events, id);
    IR.CountsMatchIncident(TableActions(freshness, events), id);
  }

  // ---- Soundness of a confirmed incident ----

  /** The k-th event said, less than the freshness bound ago, that the member does not stream. */
  predicate SaysIdle(m: Member, events: seq<Event>, k: int, now: int, freshness: int) {
    0 <= k < |events| && SaidOf(events[k], m) == Some(false) && now - InstantOf(events[k]) < freshness
  }

  /** The last thing that counted about the member said so. */
  predicate SaidIdle(m: Member, events: seq<Event>, now: int, freshness: int) {
    exists k | 0 <= k < |events| :: CountedLast(m, events, k) && SaysIdle(m, events, k, now, freshness)
  }

  /** The Riot reply reaches a waiting poll of the incident's user that sees the game active in an
      observed queue for five minutes or more, while the last thing that counted about the user said, not
      too long ago, that the user does not stream, and no interruption is on record that is younger than
      two minutes. */
  predicate Sights(freshness: int, events: seq<Event>, event: Event, id: IncidentId) {
    && event.RiotAnswers? && event.reply.RiotActive?
    && var polls := Exec(freshness, events).polls;
       && event.link in polls && polls[event.link].AwaitRiot?
       && var target, game := polls[event.link].target, event.reply.game;
          var m := Member(target.guild, target.user);
          && id == IncidentId(target.platformId + ":" + game.gameId, target.user)
          && game.queueId == 420 && event.now - game.startedAt >= 300_000
          && SaidIdle(m, events, event.now, freshness)
          && (Cut(Marks(m, events)).Some? ==> event.now - Cut(Marks(m, events)).value >= 120_000)
  }

  lemma IdleBySaying(m: Member, events: seq<Event>, k: int, now: int, freshness: int)
    requires CountedLast(m, events, k)
    ensures SaysIdle(m, events, k, now, freshness) <==> SeenState(Marks(m, events), now, freshness).Inactive?
  {
    LastMarkSays(m, events, k);
  }

  lemma IdleIsSeen(m: Member, events: seq<Event>, now: int, freshness: int)
    ensures SaidIdle(m, events, now, freshness) <==> SeenState(Marks(m, events), now, freshness).Inactive?
  {
    if SeenState(Marks(m, events), now, freshness).Inactive? {
      var k := SomethingCounted(m, events);
      IdleBySaying(m, events, k, now, freshness);
    } else if k :| 0 <= k < |events| && CountedLast(m, events, k) && SaysIdle(m, events, k, now, freshness) {
      IdleBySaying(m, events, k, now, freshness);
    }
  }

  /** The poll of the link is about to store a violation of the incident. */
  predicate AboutToStore(sys: System, link: Id, id: IncidentId) {
    && link in sys.polls && sys.polls[link].AwaitStore?
    && sys.polls[link].row.comparison.Violation? && sys.polls[link].row.observation.IncidentKey() == id
  }

  /** The state a poll sees: the last mark's, unless that is older than the freshness bound. */
  function SeenState(marks: seq<Mark>, now: int, freshness: int): EvidenceState {
    if marks == [] || now - marks[|marks| - 1].at >= freshness then Unknown else marks[|marks| - 1].state
  }

  lemma VoiceEvidenceMeans(s: Scheduler, m: Member, marks: seq<Mark>, generation: nat, now: int, freshness: int)
    requires Holds(Lookup(s.streams.states, m), LastMark(marks)) && Lookup(s.interruptedAt, m) == Cut(marks)
    ensures var evidence := VoiceEvidence(s, m, generation, now, freshness);
            && evidence.interruptedAt == Cut(marks) && evidence.generation == generation
            && evidence.state == SeenState(marks, now, freshness)
            && evidence.sourceObservedAt == (if marks == [] then None else Some(marks[|marks| - 1].at))
  {
  }

  /** The voice evidence a poll hands on is the member's history: the last mark's state while fresh and
      unknown otherwise, when it was marked, and since when the stream counts as interrupted. */
  lemma PollSeesHistory(freshness: int, events: seq<Event>, m: Member, generation: nat, now: int)
    ensures var evidence := VoiceEvidence(Exec(freshness, events).sched, m, generation, now, freshness);
            var marks := Marks(m, events);
            && evidence.state == SeenState(marks, now, freshness) && evidence.interruptedAt == Cut(marks)
            && evidence.sourceObservedAt == (if marks == [] then None else Some(marks[|marks| - 1].at))
  {
    MemberStateIsHistory(freshness, events, m);
    VoiceEvidenceMeans(Exec(freshness, events).sched, m, Marks(m, events), generation, now, freshness);
  }

  lemma DecisionIsSighting(s: Scheduler, target: Target, generation: nat, reply: RiotReply, now: int, freshness: int)
    requires Lookup(s.generations, target.linkId) == Some(generation)
    ensures var decision := DecidePoll(s, target, generation, reply, now, freshness).decision;
            var evidence := VoiceEvidence(s, Member(target.guild, target.user), generation, now, freshness);
            (decision.Stores? && decision.row.comparison.Violation? <==>
              && reply.RiotActive? && reply.game.queueId == 420 && evidence.state.Inactive?
              && ValidObservation(Assemble(s, target, reply.game, generation, reply, now, freshness))
              && now - reply.game.startedAt >= 300_000
              && (evidence.interruptedAt.Some? ==> now - evidence.interruptedAt.value >= 120_000))
    ensures var decision := DecidePoll(s, target, generation, reply, now, freshness).decision;
            decision.Stores? && decision.row.comparison.Violation? ==>
              decision.row.observation.IncidentKey()
              == IncidentId(target.platformId + ":" + reply.game.gameId, target.user)
  {
    var noted := NoteRiot(s, target.linkId, reply);
    assert VoiceEvidence(noted, Member(target.guild, target.user), generation, now, freshness)
        == VoiceEvidence(s, Member(target.guild, target.user), generation, now, freshness);
    if reply.RiotActive? {
      assert noted.activeGames[target.linkId] == reply.game;
      assert Assemble(noted, target, reply.game, generation, reply, now, freshness)
          == Assemble(s, target, reply.game, generation, reply, now, freshness);
    }
  }

  lemma RiotPrepares(sys: System, freshness: int, link: Id, reply: RiotReply, now: int, id: IncidentId)
    requires link in sys.polls && sys.polls[link].AwaitRiot?
    ensures var decision := DecidePoll(sys.sched, sys.polls[link].target, sys.polls[link].generation, reply, now,
                                       freshness).decision;
            AboutToStore(StepRiot(sys, freshness, link, reply, now), link, id) <==>
              decision.Stores? && decision.row.comparison.Violation? && decision.row.observation.IncidentKey() == id
  {
  }

  predicate WellNamed(target: Target, game: ActiveGame) {
    Visible(target.platformId) && Visible(target.linkId) && Visible(game.gameId) && Visible(target.user)
  }

  predicate NotFromFuture(marks: seq<Mark>, now: int) {
    marks != [] ==> marks[|marks| - 1].at <= now
  }

  lemma AssembledIsValid(s: Scheduler, target: Target, generation: nat, reply: RiotReply, now: int, freshness: int,
                         marks: seq<Mark>)
    requires Holds(Lookup(s.streams.states, Member(target.guild, target.user)), LastMark(marks))
    requires Lookup(s.interruptedAt, Member(target.guild, target.user)) == Cut(marks)
    requires reply.RiotActive? && reply.game.queueId == 420 && reply.game.startedAt <= now
    requires Cut(marks).Some? ==> Cut(marks).value <= now
    ensures ValidObservation(Assemble(s, target, reply.game, generation, reply, now, freshness)) <==>
              && WellNamed(target, reply.game) && NotFromFuture(marks, now)
              && 0 <= target.version <= 0x1F_FFFF_FFFF_FFFF && generation <= 0x1F_FFFF_FFFF_FFFF
  {
    VoiceEvidenceMeans(s, Member(target.guild, target.user), marks, generation, now, freshness);
    var o := Assemble(s, target, reply.game, generation, reply, now, freshness);
    WellFormedMeans(o);
    assert o.riot.code[0] == 's' && o.goLive.code[0] in "vrgs";
  }

  /** When a Riot reply makes a poll store a violation: exactly when it is a sighting, the names are not
      blank, the numbers are safe integers, and the last mark is not from the future. */
  lemma StoresViolationExactlyWhen(freshness: int, events: seq<Event>, event: Event, id: IncidentId)
    requires event.RiotAnswers?
    requires var polls := Exec(freshness, events).polls; event.link in polls && polls[event.link].AwaitRiot?
    ensures var AwaitRiot(target, generation) := Exec(freshness, events).polls[event.link];
            AboutToStore(Exec(freshness, events + [event]), event.link, id) <==>
              && Sights(freshness, events, event, id) && WellNamed(target, event.reply.game)
              && 0 <= target.version <= 0x1F_FFFF_FFFF_FFFF && generation <= 0x1F_FFFF_FFFF_FFFF
              && NotFromFuture(Marks(Member(target.guild, target.user), events), event.now)
  {
    assert (events + [event])[..|events|] == events;
    var sys := Exec(freshness, events);
    var AwaitRiot(target, generation) := sys.polls[event.link];
    var m := Member(target.guild, target.user);
    PollsHold(freshness, events, event.link);
    RiotPrepares(sys, freshness, event.link, event.reply, event.now, id);
    MemberStateIsHistory(freshness, events, m);
    VoiceEvidenceMeans(sys.sched, m, Marks(m, events), generation, event.now, freshness);
    IdleIsSeen(m, events, event.now, freshness);
    DecisionIsSighting(sys.sched, target, generation, event.reply, event.now, freshness);
    if Sights(freshness, events, event, id) {
      AssembledIsValid(sys.sched, target, generation, event.reply, event.now, freshness, Marks(m, events));
    }
  }

  predicate Sighted(freshness: int, events: seq<Event>, id: IncidentId) {
    exists i :: 0 <= i < |events| && Sights(freshness, events[..i], events[i], id)
  }

  lemma SightedGrows(freshness: int, events: seq<Event>, event: Event, id: IncidentId)
    ensures Sighted(freshness, events, id) || Sights(freshness, events, event, id) ==>
              Sighted(freshness, events + [event], id)
  {
    var all := events + [event];
    if Sights(freshness, events, event, id) {
      assert all[..|events|] == events && all[|events|] == event;
    } else if i :| 0 <= i < |events| && Sights(freshness, events[..i], events[i], id) {
      assert all[..i] == events[..i] && all[i] == events[i];
    }
  }

  /** A step prepares a violation only by a sighting, and shows one only if it was prepared. */
  lemma StepPrepares(sys: System, freshness: int, event: Event, link: Id, id: IncidentId)
    requires AboutToStore(Next(sys, freshness, event), link, id) && !AboutToStore(sys, link, id)
    ensures event.RiotAnswers? && event.link == link && link in sys.polls && sys.polls[link].AwaitRiot?
  {
    if IsVoice(event) {
      VoiceSparesPolls(sys, event);
    }
  }

  lemma StepShows(sys: System, freshness: int, event: Event, id: IncidentId)
    requires IR.SettledAt(sys.tables, id)
    requires IR.ShowsViolation(Next(sys, freshness, event).tables, id) && !IR.ShowsViolation(sys.tables, id)
    ensures event.StoreCommits? && AboutToStore(sys, event.link, id)
  {
    StepTables(sys, freshness, event);
    if event.StoreCommits? && event.link in sys.polls && sys.polls[event.link].AwaitStore? {
      IR.StepOnIncident(sys.tables, IR.Observed(sys.polls[event.link].row), id);
    } else if event.Outside? && !event.action.Observed? {
      IR.StepOnIncident(sys.tables, event.action, id);
    }
  }

  ghost predicate Backed(freshness: int, events: seq<Event>, id: IncidentId) {
    var sys := Exec(freshness, events);
    && (IR.ShowsViolation(sys.tables, id) ==> Sighted(freshness, events, id))
    && (forall link :: AboutToStore(sys, link, id) ==> Sighted(freshness, events, id))
  }

  lemma {:induction false} EveryViolationIsBacked(freshness: int, events: seq<Event>, id: IncidentId)
    ensures Backed(freshness, events, id)
    decreases |events|
  {
    if events != [] {
      var front, last := events[..|events| - 1], events[|events| - 1];
      EveryViolationIsBacked(freshness, front, id);
      assert front + [last] == events;
      SightedGrows(freshness, front, last, id);
      var sys := Exec(freshness, front);
      assert Exec(freshness, events) == Next(sys, freshness, last);
      TablesAreARun(freshness, front, id);
      IR.CountsMatchIncident(TableActions(freshness, front), id);
      if IR.ShowsViolation(Exec(freshness, events).tables, id) && !IR.ShowsViolation(sys.tables, id) {
        StepShows(sys, freshness, last, id);
      }
      forall link | AboutToStore(Exec(freshness, events), link, id) ensures Sighted(freshness, events, id) {
        if !AboutToStore(sys, link, id) {
          StepPrepares(sys, freshness, last, link, id);
          StoresViolationExactlyWhen(freshness, front, last, id);
        }
      }
    }
  }

  /** From empty tables, in every interleaving and whatever admins do, an incident is confirmed only if
      some poll sighted the violation. */
  lemma ConfirmedWasSighted(freshness: int, events: seq<Event>, id: IncidentId)
    requires var t := Exec(freshness, events).tables; id in t.incidents && t.incidents[id].status.Confirmed?
    ensures exists i :: 0 <= i < |events| && Sights(freshness, events[..i], events[i], id)
  {
    EveryViolationIsBacked(freshness, events, id);
    TablesAreARun(freshness, events, id);
    IR.CountsMatchIncident(TableActions(freshness, events), id);
  }
}
