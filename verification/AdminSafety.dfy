/** What the admin command protocol keeps in every interleaving of lost, late and repeated requests. */
module AdminSafety {
  import opened Options
  import opened AdminTables
  import opened AdminProtocol

  function CommitsOf(commits: seq<Commit>, operation: Id): nat {
    if commits == [] then 0
    else
      CommitsOf(commits[..|commits| - 1], operation)
      + if commits[|commits| - 1].operation == operation then 1 else 0
  }

  predicate Decides(change: Change, request: Id) {
    (change.RequestApproved? && change.request == request) || (change.RequestRejected? && change.request == request)
  }

  function DecisionsOf(commits: seq<Commit>, request: Id): nat {
    if commits == [] then 0
    else
      DecisionsOf(commits[..|commits| - 1], request)
      + if Decides(commits[|commits| - 1].change, request) then 1 else 0
  }

  lemma CommitsGrow(commits: seq<Commit>, commit: Commit, operation: Id, request: Id)
    ensures CommitsOf(commits + [commit], operation)
         == CommitsOf(commits, operation) + if commit.operation == operation then 1 else 0
    ensures DecisionsOf(commits + [commit], request)
         == DecisionsOf(commits, request) + if Decides(commit.change, request) then 1 else 0
  {
    assert (commits + [commit])[..|commits|] == commits;
  }

  lemma ExecGrows(events: seq<Event>, event: Event)
    ensures Exec(events + [event]) == Next(Exec(events), event)
  {
    assert (events + [event])[..|events|] == events;
  }

  /** The operation's result says that its change was made. */
  predicate SaysDone(db: Db, operation: Id) {
    operation in db.results && db.results[operation].outcome.Success? && Mutating(db.results[operation].command)
  }

  predicate Decided(db: Db, request: Id) {
    request in db.requests && (db.requests[request].status.Approved? || db.requests[request].status.Rejected?)
  }

  // ---- One operation and one link request ----

  ghost predicate OperationHolds(sys: System, operation: Id) {
    var db := sys.db;
    && (operation in db.operations <==> operation in db.results || operation in sys.elsewhere)
    && !(operation in db.results && operation in sys.elsewhere)
    && CommitsOf(db.commits, operation) == (if SaysDone(db, operation) then 1 else 0)
    && (SaysDone(db, operation) ==> exists change :: Commit(operation, change) in db.commits
                                                     && CommandOf(change) == db.results[operation].command)
  }

  ghost predicate RequestHolds(sys: System, request: Id) {
    DecisionsOf(sys.db.commits, request) == if Decided(sys.db, request) then 1 else 0
  }

  /** A verdict a command can come to: a change of its own kind on what it names, or an outcome that
      is a success only for a read. */
  predicate Fitting(db: Db, command: CommandName, verdict: Verdict) {
    match verdict
    case Settles(outcome, _) => outcome.Success? ==> !Mutating(command)
    case Applies(change) =>
      && CommandOf(change) == command
      && (change.RequestApproved? || change.RequestRejected? ==>
            change.request in db.requests && db.requests[change.request].status.Pending?)
  }

  lemma JudgedFits(db: Db, request: Request, puuid: string, ruling: Ruling)
    ensures Fitting(db, CommandFor(request.body), Judge(db, request, puuid, ruling))
  {
  }

  lemma SettleOnOperation(db: Db, operation: Id, command: CommandName, verdict: Verdict, puuid: string, other: Id)
    requires operation !in db.operations && Fitting(db, command, verdict)
    ensures var after := Settle(db, operation, command, verdict, puuid);
            && after.operations == db.operations + {operation}
            && after.results == db.results[operation := TerminalFor(command, verdict)]
            && after.commits == (if verdict.Applies? then db.commits + [Commit(operation, verdict.change)]
                                 else db.commits)
            && CommitsOf(after.commits, other)
               == CommitsOf(db.commits, other) + if other == operation && verdict.Applies? then 1 else 0
  {
    if verdict.Applies? {
      CommitsGrow(db.commits, Commit(operation, verdict.change), other, "");
    }
  }

  lemma ChangeOnRequest(db: Db, operation: Id, change: Change, puuid: string, request: Id)
    requires change.RequestApproved? || change.RequestRejected? ==>
               change.request in db.requests && db.requests[change.request].status.Pending?
    ensures var after := WriteChange(db, operation, change, puuid);
            && (Decided(after, request) <==> Decided(db, request) || Decides(change, request))
            && (Decides(change, request) ==> !Decided(db, request))
            && after.commits == db.commits + [Commit(operation, change)]
  {
  }

  lemma SettleOnRequest(db: Db, operation: Id, command: CommandName, verdict: Verdict, puuid: string, request: Id)
    requires Fitting(db, command, verdict)
    ensures var after := Settle(db, operation, command, verdict, puuid);
            && (Decided(after, request)
                <==> Decided(db, request) || (verdict.Applies? && Decides(verdict.change, request)))
            && (verdict.Applies? && Decides(verdict.change, request) ==> !Decided(db, request))
            && DecisionsOf(after.commits, request) == DecisionsOf(db.commits, request)
                 + if verdict.Applies? && Decides(verdict.change, request) then 1 else 0
  {
    if verdict.Applies? {
      var claimed := db.(operations := db.operations + {operation},
                         results := db.results[operation := TerminalFor(command, verdict)]);
      ChangeOnRequest(claimed, operation, verdict.change, puuid, request);
      CommitsGrow(db.commits, Commit(operation, verdict.change), "", request);
    }
  }

  /** What a step writes: nothing, or one settled transaction of its own operation. */
  lemma StepWrites(db: Db, delivery: Delivery, around: Surroundings) returns (verdict: Verdict, puuid: string)
    ensures var command, operation := CommandFor(delivery.request.body), delivery.request.operation;
            var after := Proceed(db, delivery, around).0;
            if after == db then true
            else operation !in db.operations && after == Settle(db, operation, command, verdict, puuid)
                 && ((verdict.Settles? && delivery.phase.AwaitRecord?)
                     || (delivery.phase.AwaitTransaction? && Fitting(db, command, verdict)))
                 && (verdict.Applies? && verdict.change.RequestApproved? ==> verdict.change.newLink !in db.links)
    ensures delivery.phase.AwaitRecord? ==> verdict == Settles(delivery.phase.outcome, delivery.phase.recorded)
  {
    puuid := if delivery.phase.AwaitTransaction? then delivery.phase.puuid else "";
    verdict := if delivery.phase.AwaitRecord? then Settles(delivery.phase.outcome, delivery.phase.recorded)
               else Judge(db, delivery.request, puuid, around.ruling);
    JudgedFits(db, delivery.request, puuid, around.ruling);
  }

  /** A recorded success belongs to a status query. */
  predicate PhaseFits(delivery: Delivery) {
    && (delivery.phase.AwaitRecord? && delivery.phase.outcome.Success? ==> delivery.request.body.StatusBody?)
    && (delivery.phase.AwaitStatus? ==> delivery.request.body.StatusBody?)
  }

  lemma StepKeepsFit(db: Db, delivery: Delivery, around: Surroundings)
    requires PhaseFits(delivery)
    ensures PhaseFits(delivery.(phase := Proceed(db, delivery, around).1))
  {
  }

  lemma {:induction false} PhasesFit(events: seq<Event>)
    ensures forall i | 0 <= i < |Exec(events).deliveries| :: PhaseFits(Exec(events).deliveries[i])
    decreases |events|
  {
    if events != [] {
      var front, last := events[..|events| - 1], events[|events| - 1];
      PhasesFit(front);
      var sys := Exec(front);
      if last.Step? && Underway(sys, last.index) {
        StepKeepsFit(sys.db, sys.deliveries[last.index], last.around);
      }
    }
  }

  lemma OwnTransactionKeeps(sys: System, operation: Id, command: CommandName, verdict: Verdict, puuid: string)
    requires OperationHolds(sys, operation) && operation !in sys.db.operations && Fitting(sys.db, command, verdict)
    ensures OperationHolds(sys.(db := Settle(sys.db, operation, command, verdict, puuid)), operation)
  {
    SettleOnOperation(sys.db, operation, command, verdict, puuid, operation);
    if verdict.Applies? {
      assert Commit(operation, verdict.change) in Settle(sys.db, operation, command, verdict, puuid).commits;
    }
  }

  lemma OtherTransactionKeeps(sys: System, operation: Id, command: CommandName, verdict: Verdict, puuid: string,
                              other: Id)
    requires OperationHolds(sys, other) && operation !in sys.db.operations && Fitting(sys.db, command, verdict)
    requires other != operation
    ensures OperationHolds(sys.(db := Settle(sys.db, operation, command, verdict, puuid)), other)
  {
    SettleOnOperation(sys.db, operation, command, verdict, puuid, other);
    if SaysDone(sys.db, other) {
      var change :| Commit(other, change) in sys.db.commits && CommandOf(change) == sys.db.results[other].command;
      assert Commit(other, change) in Settle(sys.db, operation, command, verdict, puuid).commits;
    }
  }

  /** The step of one delivery, or of one that is lost, seen from any operation and link request. */
  lemma ProceedKeeps(sys: System, delivery: Delivery, around: Surroundings, operation: Id, request: Id)
    requires PhaseFits(delivery) && OperationHolds(sys, operation) && RequestHolds(sys, request)
    ensures var after := sys.(db := Proceed(sys.db, delivery, around).0);
            OperationHolds(after, operation) && RequestHolds(after, request)
  {
    var db := Proceed(sys.db, delivery, around).0;
    if db != sys.db {
      var verdict, puuid := StepWrites(sys.db, delivery, around);
      var command := CommandFor(delivery.request.body);
      if operation == delivery.request.operation {
        OwnTransactionKeeps(sys, operation, command, verdict, puuid);
      } else {
        OtherTransactionKeeps(sys, delivery.request.operation, command, verdict, puuid, operation);
      }
      SettleOnRequest(sys.db, delivery.request.operation, command, verdict, puuid, request);
    }
  }

  lemma NextKeeps(sys: System, event: Event, operation: Id, request: Id)
    requires forall i | 0 <= i < |sys.deliveries| :: PhaseFits(sys.deliveries[i])
    requires OperationHolds(sys, operation) && RequestHolds(sys, request)
    ensures OperationHolds(Next(sys, event), operation) && RequestHolds(Next(sys, event), request)
  {
    if (event.Step? || event.StepIsLost?) && Underway(sys, event.index) {
      ProceedKeeps(sys, sys.deliveries[event.index], event.around, operation, request);
      var after := sys.(db := Proceed(sys.db, sys.deliveries[event.index], event.around).0);
      assert OperationHolds(after, operation) && RequestHolds(after, request);
      assert Next(sys, event).db == after.db && Next(sys, event).elsewhere == after.elsewhere;
    }
  }

  lemma {:induction false} AlwaysHolds(events: seq<Event>, operation: Id, request: Id)
    ensures OperationHolds(Exec(events), operation) && RequestHolds(Exec(events), request)
    decreases |events|
  {
    if events != [] {
      var front := events[..|events| - 1];
      AlwaysHolds(front, operation, request);
      PhasesFit(front);
      NextKeeps(Exec(front), events[|events| - 1], operation, request);
    }
  }

  /** Each operation id commits at most one change, exactly if its terminal result is the success of
      the command that makes it; an id claimed by an admin command has its result, one claimed
      elsewhere has none; and each link request is decided at most once. */
  lemma CommitsAtMostOnce(events: seq<Event>, operation: Id, request: Id)
    ensures var sys := Exec(events);
            && CommitsOf(sys.db.commits, operation) == (if SaysDone(sys.db, operation) then 1 else 0)
            && (operation in sys.db.operations <==> operation in sys.db.results || operation in sys.elsewhere)
            && !(operation in sys.db.results && operation in sys.elsewhere)
            && DecisionsOf(sys.db.commits, request) <= 1
  {
    AlwaysHolds(events, operation, request);
  }

  // ---- Settled operations ----

  predicate SameRecord(was: Db, now: Db, operation: Id) {
    && operation in now.operations && Lookup(now.results, operation) == Lookup(was.results, operation)
    && CommitsOf(now.commits, operation) == CommitsOf(was.commits, operation)
  }

  lemma ClaimedStays(sys: System, event: Event, operation: Id)
    requires forall i | 0 <= i < |sys.deliveries| :: PhaseFits(sys.deliveries[i])
    requires operation in sys.db.operations
    ensures SameRecord(sys.db, Next(sys, event).db, operation)
  {
    if (event.Step? || event.StepIsLost?) && Underway(sys, event.index) {
      var delivery := sys.deliveries[event.index];
      var db := Proceed(sys.db, delivery, event.around).0;
      if db != sys.db {
        var verdict, puuid := StepWrites(sys.db, delivery, event.around);
        SettleOnOperation(sys.db, delivery.request.operation, CommandFor(delivery.request.body), verdict, puuid,
                          operation);
      }
    }
  }

  /** Once an operation id is claimed, nothing recorded about it changes, and no further delivery of it
      changes anything. */
  lemma {:induction false} ClaimedIsSettled(events: seq<Event>, later: seq<Event>, operation: Id)
    requires operation in Exec(events).db.operations
    ensures SameRecord(Exec(events).db, Exec(events + later).db, operation)
    decreases |later|
  {
    if later == [] {
      assert events + later == events;
    } else {
      var front := later[..|later| - 1];
      assert (events + later)[..|events + later| - 1] == events + front;
      ClaimedIsSettled(events, front, operation);
      PhasesFit(events + front);
      ClaimedStays(Exec(events + front), later[|later| - 1], operation);
    }
  }

  // ---- What an answer means ----

  /** The operation a status answer to the request is about. */
  function SubjectOf(request: Request): Id {
    if request.body.StatusBody? then request.body.target else request.operation
  }

  /** The answer, against the tables it was given from. */
  ghost predicate Truthful(db: Db, request: Request, answer: Response) {
    && request.operation in db.operations
    && (answer.Changed? ==>
          && Commit(request.operation, answer.change) in db.commits && SaysDone(db, request.operation)
          && db.results[request.operation].command == CommandFor(request.body) == CommandOf(answer.change))
    && (answer.StatusIs? && answer.outcome.Some? ==>
          var subject := SubjectOf(request);
          && subject in db.results && db.results[subject].outcome == answer.outcome.value
          && db.results[subject].reason == answer.status)
  }

  ghost predicate HoldsAnswer(db: Db, delivery: Delivery) {
    match delivery.phase
    case Answered(answer) => Truthful(db, delivery.request, answer)
    case AwaitOutcome => delivery.request.operation in db.operations && !delivery.request.body.StatusBody?
    case AwaitResult => !delivery.request.body.StatusBody?
    case AwaitTransaction(_) => !delivery.request.body.StatusBody?
    case AwaitPending => !delivery.request.body.StatusBody?
    case AwaitValidation => !delivery.request.body.StatusBody?
    case AwaitRecord(_, _, response) =>
      && !response.Changed?
      && (response.StatusIs? && response.outcome.Some? ==>
            && delivery.request.body.StatusBody? && delivery.request.body.target in db.results
            && db.results[delivery.request.body.target].outcome == response.outcome.value
            && db.results[delivery.request.body.target].reason == response.status)
    case _ => true
  }

  /** Later tables extend earlier ones. */
  ghost predicate Extends(was: Db, now: Db) {
    && was.operations <= now.operations
    && (forall operation | operation in was.results ::
          operation in now.results && now.results[operation] == was.results[operation])
    && (forall commit | commit in was.commits :: commit in now.commits)
  }

  lemma ExtendingKeepsAnswers(was: Db, now: Db, delivery: Delivery)
    requires Extends(was, now) && HoldsAnswer(was, delivery)
    ensures HoldsAnswer(now, delivery)
  {
  }

  lemma SettlingExtends(db: Db, operation: Id, command: CommandName, verdict: Verdict, puuid: string)
    requires operation !in db.operations && operation !in db.results
    ensures Extends(db, Settle(db, operation, command, verdict, puuid))
  {
    var after := Settle(db, operation, command, verdict, puuid);
    assert after.commits == (if verdict.Applies? then db.commits + [Commit(operation, verdict.change)] else db.commits);
  }

  lemma NextExtends(sys: System, event: Event)
    requires sys.db.results.Keys <= sys.db.operations
    ensures Extends(sys.db, Next(sys, event).db)
  {
    if (event.Step? || event.StepIsLost?) && Underway(sys, event.index) {
      var delivery := sys.deliveries[event.index];
      if Proceed(sys.db, delivery, event.around).0 != sys.db {
        var verdict, puuid := StepWrites(sys.db, delivery, event.around);
        SettlingExtends(sys.db, delivery.request.operation, CommandFor(delivery.request.body), verdict, puuid);
      }
    }
  }

  lemma TransactionAnswers(db: Db, delivery: Delivery, around: Surroundings)
    requires HoldsAnswer(db, delivery) && delivery.phase.AwaitTransaction?
    ensures var (after, phase) := Proceed(db, delivery, around); HoldsAnswer(after, delivery.(phase := phase))
  {
    var request, puuid := delivery.request, delivery.phase.puuid;
    JudgedFits(db, request, puuid, around.ruling);
    if request.operation !in db.operations {
      var verdict := Judge(db, request, puuid, around.ruling);
      SettleOnOperation(db, request.operation, CommandFor(request.body), verdict, puuid, request.operation);
      if verdict.Applies? {
        var after := Settle(db, request.operation, CommandFor(request.body), verdict, puuid);
        assert after.commits[|db.commits|] == Commit(request.operation, verdict.change);
      }
    }
  }

  lemma RecordAnswers(db: Db, delivery: Delivery, around: Surroundings)
    requires HoldsAnswer(db, delivery) && delivery.phase.AwaitRecord? && db.results.Keys <= db.operations
    ensures var (after, phase) := Proceed(db, delivery, around); HoldsAnswer(after, delivery.(phase := phase))
  {
  }

  lemma StepAnswers(db: Db, delivery: Delivery, around: Surroundings)
    requires HoldsAnswer(db, delivery) && db.results.Keys <= db.operations
    ensures var (after, phase) := Proceed(db, delivery, around); HoldsAnswer(after, delivery.(phase := phase))
  {
    if delivery.phase.AwaitTransaction? {
      TransactionAnswers(db, delivery, around);
    } else if delivery.phase.AwaitRecord? {
      RecordAnswers(db, delivery, around);
    }
  }

  lemma {:induction false} ResultsAreClaimed(events: seq<Event>)
    ensures Exec(events).db.results.Keys <= Exec(events).db.operations
  {
    forall operation | operation in Exec(events).db.results ensures operation in Exec(events).db.operations {
      AlwaysHolds(events, operation, "");
    }
  }

  lemma {:induction false} AnswersHold(events: seq<Event>)
    ensures forall i | 0 <= i < |Exec(events).deliveries| :: HoldsAnswer(Exec(events).db, Exec(events).deliveries[i])
    decreases |events|
  {
    if events != [] {
      var front, last := events[..|events| - 1], events[|events| - 1];
      AnswersHold(front);
      ResultsAreClaimed(front);
      var sys, next := Exec(front), Exec(events);
      NextExtends(sys, last);
      if (last.Step? || last.StepIsLost?) && Underway(sys, last.index) {
        StepAnswers(sys.db, sys.deliveries[last.index], last.around);
      }
      forall i | 0 <= i < |next.deliveries| ensures HoldsAnswer(next.db, next.deliveries[i]) {
        if i < |sys.deliveries| {
          ExtendingKeepsAnswers(sys.db, next.db, sys.deliveries[i]);
        }
      }
    }
  }

  /** Whatever was lost, late or repeated: an answered request has its operation claimed, so what is
      recorded about it is final; a success answer names the change that was committed under it; and a
      status answer other than unknown is the recorded result. */
  lemma AnswersAreTruthful(events: seq<Event>, i: nat)
    requires i < |Exec(events).deliveries| && Exec(events).deliveries[i].phase.Answered?
    ensures Truthful(Exec(events).db, Exec(events).deliveries[i].request, Exec(events).deliveries[i].phase.answer)
  {
    AnswersHold(events);
  }

  /** A status query finds "unknown" exactly when nothing is recorded for the operation at that moment,
      and then the operation has changed nothing so far. */
  lemma UnknownMeansUnrecorded(events: seq<Event>, index: nat, around: Surroundings)
    requires var sys := Exec(events); Underway(sys, index) && sys.deliveries[index].phase.AwaitStatus?
    ensures var sys := Exec(events);
            var target := SubjectOf(sys.deliveries[index].request);
            var phase := Exec(events + [Step(index, around)]).deliveries[index].phase;
            && phase.AwaitRecord? && phase.response.StatusIs?
            && (phase.response.outcome.None? <==> target !in sys.db.results)
            && (phase.response.outcome.None? ==> CommitsOf(sys.db.commits, target) == 0)
  {
    assert (events + [Step(index, around)])[..|events|] == events;
    AlwaysHolds(events, SubjectOf(Exec(events).deliveries[index].request), "");
    PhasesFit(events);
  }

  // ---- Links ----

  ghost predicate PuuidsUnique(links: map<Id, Link>) {
    forall a, b | a in links && b in links && a != b && !links[a].removed && !links[b].removed ::
      links[a].puuid != links[b].puuid
  }

  lemma StepKeepsPuuids(db: Db, delivery: Delivery, around: Surroundings)
    requires PuuidsUnique(db.links)
    ensures PuuidsUnique(Proceed(db, delivery, around).0.links)
  {
  }

  /** No two active links name the same account, through approvals, removals and refreshes. */
  lemma {:induction false} ActivePuuidsUnique(events: seq<Event>)
    ensures PuuidsUnique(Exec(events).db.links)
    decreases |events|
  {
    if events != [] {
      var front, last := events[..|events| - 1], events[|events| - 1];
      ActivePuuidsUnique(front);
      var sys := Exec(front);
      if (last.Step? || last.StepIsLost?) && Underway(sys, last.index) {
        StepKeepsPuuids(sys.db, sys.deliveries[last.index], last.around);
      }
    }
  }

  /** A user has at most one active primary link, and an approved request names a link of its user. */
  ghost predicate LinksBelong(db: Db) {
    && (forall a, b | a in db.links && b in db.links && a != b && db.links[a].primary && db.links[b].primary ::
          db.links[a].user != db.links[b].user)
    && (forall l | l in db.links && db.links[l].primary :: !db.links[l].removed)
    && (forall r | r in db.requests && db.requests[r].status.Approved? ::
          && db.requests[r].status.link in db.links
          && db.links[db.requests[r].status.link].user == db.requests[r].user)
  }

  lemma ChangeKeepsLinks(db: Db, operation: Id, change: Change, puuid: string)
    requires LinksBelong(db) && (change.RequestApproved? ==> change.newLink !in db.links)
    ensures LinksBelong(WriteChange(db, operation, change, puuid))
  {
  }

  lemma StepKeepsLinks(db: Db, delivery: Delivery, around: Surroundings)
    requires LinksBelong(db)
    ensures LinksBelong(Proceed(db, delivery, around).0)
  {
    if Proceed(db, delivery, around).0 != db {
      var verdict, puuid := StepWrites(db, delivery, around);
      var operation, command := delivery.request.operation, CommandFor(delivery.request.body);
      if verdict.Applies? {
        ChangeKeepsLinks(db.(operations := db.operations + {operation},
                             results := db.results[operation := TerminalFor(command, verdict)]),
                         operation, verdict.change, puuid);
      }
    }
  }

  lemma OutsideKeepsLinks(sys: System, change: OutsideChange)
    requires LinksBelong(sys.db)
    ensures LinksBelong(ApplyOutside(sys, change).db)
  {
  }

  /** Approvals, removals and refreshes leave every user at most one active primary link, and every
      approved request a link of its own user. */
  lemma {:induction false} LinksAlwaysBelong(events: seq<Event>)
    ensures LinksBelong(Exec(events).db)
    decreases |events|
  {
    if events != [] {
      var front, last := events[..|events| - 1], events[|events| - 1];
      LinksAlwaysBelong(front);
      var sys := Exec(front);
      if (last.Step? || last.StepIsLost?) && Underway(sys, last.index) {
        StepKeepsLinks(sys.db, sys.deliveries[last.index], last.around);
      } else if last.Outside? {
        OutsideKeepsLinks(sys, last.change);
      }
    }
  }

  // ---- Versions ----

  /** Rows that are there stay, and change only under a higher version. */
  predicate RowsAdvance(was: Db, now: Db, link: Id, request: Id) {
    && (link in was.links ==>
          link in now.links && (now.links[link] == was.links[link]
                                || now.links[link].version > was.links[link].version))
    && (request in was.requests ==>
          request in now.requests
          && (now.requests[request] == was.requests[request]
              || now.requests[request].version > was.requests[request].version))
  }

  lemma ChangeAdvances(db: Db, operation: Id, change: Change, puuid: string, link: Id, request: Id)
    requires change.RequestApproved? ==> change.newLink !in db.links
    ensures RowsAdvance(db, WriteChange(db, operation, change, puuid), link, request)
  {
  }

  lemma NextAdvances(sys: System, event: Event, link: Id, request: Id)
    ensures RowsAdvance(sys.db, Next(sys, event).db, link, request)
  {
    if (event.Step? || event.StepIsLost?) && Underway(sys, event.index) {
      var db, delivery := sys.db, sys.deliveries[event.index];
      if Proceed(db, delivery, event.around).0 != db {
        var verdict, puuid := StepWrites(db, delivery, event.around);
        var operation, command := delivery.request.operation, CommandFor(delivery.request.body);
        if verdict.Applies? {
          ChangeAdvances(db.(operations := db.operations + {operation},
                             results := db.results[operation := TerminalFor(command, verdict)]),
                         operation, verdict.change, puuid, link, request);
        }
      }
    }
  }

  lemma {:induction false} ExecAdvances(events: seq<Event>, later: seq<Event>, link: Id, request: Id)
    ensures RowsAdvance(Exec(events).db, Exec(events + later).db, link, request)
    decreases |later|
  {
    if later == [] {
      assert events + later == events;
    } else {
      var front := later[..|later| - 1];
      assert events + later == (events + front) + [later[|later| - 1]];
      ExecAdvances(events, front, link, request);
      ExecGrows(events + front, later[|later| - 1]);
      NextAdvances(Exec(events + front), later[|later| - 1], link, request);
    }
  }

  /** A decision or removal that is granted at the version its administrator read finds the request or
      link exactly as it was read, whatever else ran in between. */
  lemma GrantedAsRead(events: seq<Event>, later: seq<Event>, request: Request, puuid: string, ruling: Ruling)
    requires Judge(Exec(events + later).db, request, puuid, ruling).Applies?
    ensures var read, now := Exec(events).db, Exec(events + later).db;
            match request.body
            case ApproveBody(id, version) =>
              id in read.requests && read.requests[id].version == version ==> now.requests[id] == read.requests[id]
            case RejectBody(id, version) =>
              id in read.requests && read.requests[id].version == version ==> now.requests[id] == read.requests[id]
            case RemoveBody(id, version) =>
              id in read.links && read.links[id].version == version ==> now.links[id] == read.links[id]
            case _ => true
  {
    match request.body
    case ApproveBody(id, _) => ExecAdvances(events, later, "", id);
    case RejectBody(id, _) => ExecAdvances(events, later, "", id);
    case RemoveBody(id, _) => ExecAdvances(events, later, id, "");
    case _ =>
  }
}
