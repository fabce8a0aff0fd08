/** What an answer of the admin command protocol lets its receiver conclude: about a status, and about
    a refusal. */
module AdminAnswers {
  import opened Options
  import opened AdminTables
  import opened AdminProtocol
  import opened AdminSafety

  ghost predicate SentBy(events: seq<Event>, request: Request) {
    exists i :: 0 <= i < |events| && events[i].Deliver? && events[i].request == request
  }

  lemma SentGrows(events: seq<Event>, event: Event, request: Request)
    ensures SentBy(events, request) ==> SentBy(events + [event], request)
    ensures event.Deliver? && event.request == request ==> SentBy(events + [event], request)
  {
    var all := events + [event];
    if i :| 0 <= i < |events| && events[i].Deliver? && events[i].request == request {
      assert all[i] == events[i];
    }
    assert all[|events|] == event;
  }

  /** A step changes the phase of deliveries only; every delivery is of a request that was sent. */
  lemma NextKeepsRequests(sys: System, event: Event)
    ensures var next := Next(sys, event).deliveries;
            && |next| == (if event.Deliver? then |sys.deliveries| + 1 else |sys.deliveries|)
            && (forall i | 0 <= i < |sys.deliveries| :: next[i].request == sys.deliveries[i].request)
            && (event.Deliver? ==> next[|sys.deliveries|].request == event.request)
  {
  }

  lemma {:induction false} DeliveriesWereSent(events: seq<Event>, i: nat)
    requires i < |Exec(events).deliveries|
    ensures SentBy(events, Exec(events).deliveries[i].request)
    decreases |events|
  {
    var front, last := events[..|events| - 1], events[|events| - 1];
    assert events == front + [last];
    NextKeepsRequests(Exec(front), last);
    var request := Exec(events).deliveries[i].request;
    if i < |Exec(front).deliveries| {
      DeliveriesWereSent(front, i);
    }
    SentGrows(front, last, request);
  }

  // ---- Who claimed an id ----

  /** The delivery a step is of, if it is still under way. */
  function Actor(sys: System, event: Event): Option<Delivery> {
    if (event.Step? || event.StepIsLost?) && Underway(sys, event.index) then Some(sys.deliveries[event.index]) else None
  }

  /** The request whose delivery claimed the id, once an admin command has. */
  function Claimant(events: seq<Event>, operation: Id): Option<Request> {
    if events == [] then None
    else
      var front, last := events[..|events| - 1], events[|events| - 1];
      var prior, actor := Claimant(front, operation), Actor(Exec(front), last);
      if prior.Some? || actor.None? then prior
      else if operation !in Exec(front).db.results && operation in Exec(events).db.results
      then Some(actor.value.request)
      else None
  }

  /** Only a step of a delivery of the id gives it a result, which names that delivery's command. */
  lemma NextClaims(sys: System, event: Event, operation: Id)
    requires operation !in sys.db.results && operation in Next(sys, event).db.results
    ensures var actor := Actor(sys, event);
            && actor.Some? && actor.value.request.operation == operation
            && Next(sys, event).db.results[operation].command == CommandFor(actor.value.request.body)
  {
    if Actor(sys, event).Some? {
      var verdict, puuid := StepWrites(sys.db, sys.deliveries[event.index], event.around);
    }
  }

  lemma ResultStays(events: seq<Event>, event: Event, operation: Id)
    requires operation in Exec(events).db.results
    ensures Lookup(Exec(events + [event]).db.results, operation) == Lookup(Exec(events).db.results, operation)
  {
    ResultsAreClaimed(events);
    ClaimedIsSettled(events, [event], operation);
  }

  lemma {:induction false} ClaimantMeans(events: seq<Event>, operation: Id)
    ensures var claimant, results := Claimant(events, operation), Exec(events).db.results;
            && (claimant.Some? <==> operation in results)
            && (claimant.Some? ==>
                  && claimant.value.operation == operation && SentBy(events, claimant.value)
                  && results[operation].command == CommandFor(claimant.value.body))
    decreases |events|
  {
    if events != [] {
      var front, last := events[..|events| - 1], events[|events| - 1];
      assert events == front + [last];
      ClaimantMeans(front, operation);
      if operation in Exec(front).db.results {
        ResultStays(front, last, operation);
        SentGrows(front, last, Claimant(front, operation).value);
      } else if operation in Exec(events).db.results {
        NextClaims(Exec(front), last, operation);
        DeliveriesWereSent(front, last.index);
        SentGrows(front, last, Claimant(events, operation).value);
      }
    }
  }

  // ---- Statuses ----

  /** A status answer "success" about an id is right if and only if the request that claimed the id
      carries a mutating command; any other outcome is right always. */
  lemma StatusIsRightExactly(events: seq<Event>, i: nat)
    requires var sys := Exec(events);
             && i < |sys.deliveries| && sys.deliveries[i].phase.Answered?
             && sys.deliveries[i].phase.answer.StatusIs? && sys.deliveries[i].phase.answer.outcome.Some?
    ensures var sys := Exec(events);
            var operation := SubjectOf(sys.deliveries[i].request);
            var claimant, commits := Claimant(events, operation), CommitsOf(sys.db.commits, operation);
            && claimant.Some?
            && (sys.deliveries[i].phase.answer.outcome == Some(Success) ==>
                  (commits == 1 <==> Mutating(CommandFor(claimant.value.body))))
            && (sys.deliveries[i].phase.answer.outcome != Some(Success) ==> commits == 0)
  {
    var operation := SubjectOf(Exec(events).deliveries[i].request);
    AnswersAreTruthful(events, i);
    CommitsAtMostOnce(events, operation, "");
    ClaimantMeans(events, operation);
  }

  /** No list or status request was ever sent under the operation id. */
  predicate NamesMutation(events: seq<Event>, operation: Id) {
    forall i | 0 <= i < |events| :: events[i].Deliver? && events[i].request.operation == operation ==>
      Mutating(CommandFor(events[i].request.body))
  }

  /** A status answer about an operation id that only mutating commands were sent under: success
      exactly if its change was committed. */
  lemma StatusTellsCommit(events: seq<Event>, i: nat, operation: Id)
    requires NamesMutation(events, operation)
    requires var sys := Exec(events);
             && i < |sys.deliveries| && sys.deliveries[i].phase.Answered?
             && sys.deliveries[i].phase.answer.StatusIs? && sys.deliveries[i].phase.answer.outcome.Some?
             && operation == SubjectOf(sys.deliveries[i].request)
    ensures var sys := Exec(events);
            CommitsOf(sys.db.commits, operation)
              == if sys.deliveries[i].phase.answer.outcome == Some(Success) then 1 else 0
  {
    StatusIsRightExactly(events, i);
    ClaimantMeans(events, operation);
    var request := Claimant(events, operation).value;
    var n :| 0 <= n < |events| && events[n].Deliver? && events[n].request == request;
    assert Mutating(CommandFor(events[n].request.body));
  }

  // ---- Continuations ----

  /** One more step of a delivery. */
  lemma OneStep(events: seq<Event>, j: nat, around: Surroundings)
    requires Underway(Exec(events), j)
    ensures var sys, next := Exec(events), Exec(events + [Step(j, around)]);
            var (db, phase) := Proceed(sys.db, sys.deliveries[j], around);
            && next.db == db && |next.deliveries| == |sys.deliveries|
            && next.deliveries[j] == sys.deliveries[j].(phase := phase)
            && (forall k | 0 <= k < |sys.deliveries| && k != j :: next.deliveries[k] == sys.deliveries[k])
  {
    ExecGrows(events, Step(j, around));
  }

  function Rank(phase: Phase): nat {
    match phase
    case AwaitAuthorization => 4
    case AwaitResult => 3
    case AwaitStatus => 3
    case AwaitPending => 2
    case AwaitValidation => 1
    case _ => 0
  }

  /** A delivery of a mutating command that its guards let through as the tables are. */
  predicate WillCommit(db: Db, delivery: Delivery, puuid: string) {
    var request := delivery.request;
    && Mutating(CommandFor(request.body)) && Judge(db, request, puuid, Grants).Applies?
    && match delivery.phase
       case AwaitAuthorization => true
       case AwaitResult => true
       case AwaitPending => request.body.ApproveBody?
       case AwaitValidation => request.body.ApproveBody?
       case AwaitTransaction(p) => request.body.ApproveBody? ==> p == puuid
       case _ => false
  }

  function Favourable(puuid: string): Surroundings {
    Surroundings(true, true, Valid(puuid), Grants)
  }

  lemma FavourableStep(db: Db, delivery: Delivery, puuid: string)
    requires WillCommit(db, delivery, puuid) && delivery.request.operation !in db.results
    requires !delivery.phase.AwaitTransaction?
    ensures var (after, phase) := Proceed(db, delivery, Favourable(puuid));
            after == db && WillCommit(db, delivery.(phase := phase), puuid) && Rank(phase) < Rank(delivery.phase)
  {
  }

  lemma FinalStep(db: Db, delivery: Delivery, puuid: string)
    requires WillCommit(db, delivery, puuid) && delivery.request.operation !in db.operations
    requires delivery.phase.AwaitTransaction?
    ensures var after, operation := Proceed(db, delivery, Favourable(puuid)).0, delivery.request.operation;
            operation in after.operations && CommitsOf(after.commits, operation) == CommitsOf(db.commits, operation) + 1
  {
    var request, p := delivery.request, delivery.phase.puuid;
    JudgedFits(db, request, p, Grants);
    SettleOnOperation(db, request.operation, CommandFor(request.body), Judge(db, request, p, Grants), p,
                      request.operation);
  }

  /** Undisturbed, such a delivery commits. */
  lemma {:induction false} RunsToCommit(events: seq<Event>, j: nat, puuid: string) returns (later: seq<Event>)
    requires Underway(Exec(events), j) && WillCommit(Exec(events).db, Exec(events).deliveries[j], puuid)
    requires Exec(events).deliveries[j].request.operation !in Exec(events).db.operations
    ensures var sys, end := Exec(events), Exec(events + later);
            var operation := sys.deliveries[j].request.operation;
            && operation in end.db.operations && CommitsOf(end.db.commits, operation) == 1
            && |end.deliveries| == |sys.deliveries|
            && (forall k | 0 <= k < |sys.deliveries| && k != j :: end.deliveries[k] == sys.deliveries[k])
    decreases Rank(Exec(events).deliveries[j].phase)
  {
    var delivery, db := Exec(events).deliveries[j], Exec(events).db;
    var step := Step(j, Favourable(puuid));
    ResultsAreClaimed(events);
    OneStep(events, j, Favourable(puuid));
    if delivery.phase.AwaitTransaction? {
      FinalStep(db, delivery, puuid);
      CommitsAtMostOnce(events, delivery.request.operation, "");
      later := [step];
    } else {
      FavourableStep(db, delivery, puuid);
      var rest := RunsToCommit(events + [step], j, puuid);
      later := [step] + rest;
      assert events + later == (events + [step]) + rest;
    }
  }

  // ---- Statuses of reads ----

  /** A delivery of a list or status request that nothing will refuse as the tables are. */
  predicate WillRead(db: Db, delivery: Delivery) {
    match delivery.request.body
    case ListBody(cursor) =>
      && !cursor.Undecodable? && JudgeList(db, cursor).outcome.Success?
      && (delivery.phase.AwaitAuthorization? || delivery.phase.AwaitResult? || delivery.phase.AwaitTransaction?)
    case StatusBody(_) =>
      || delivery.phase.AwaitAuthorization? || delivery.phase.AwaitStatus?
      || (delivery.phase.AwaitRecord? && delivery.phase.outcome.Success? && delivery.phase.recorded.Completed?)
    case _ => false
  }

  predicate AtLastStep(delivery: Delivery) {
    delivery.phase.AwaitTransaction? || delivery.phase.AwaitRecord?
  }

  lemma ReadingStep(db: Db, delivery: Delivery)
    requires WillRead(db, delivery) && delivery.request.operation !in db.results && !AtLastStep(delivery)
    ensures var (after, phase) := Proceed(db, delivery, Favourable(""));
            after == db && WillRead(db, delivery.(phase := phase)) && Rank(phase) < Rank(delivery.phase)
  {
  }

  lemma LastReadingStep(db: Db, delivery: Delivery)
    requires WillRead(db, delivery) && delivery.request.operation !in db.operations && AtLastStep(delivery)
    ensures var after, operation := Proceed(db, delivery, Favourable("")).0, delivery.request.operation;
            && operation in after.results && after.commits == db.commits
            && after.results[operation] == Terminal(CommandFor(delivery.request.body), Success, Completed)
  {
  }

  /** Undisturbed, such a delivery claims its id for a read. */
  lemma {:induction false} RunsToRead(events: seq<Event>, j: nat) returns (later: seq<Event>)
    requires Underway(Exec(events), j) && WillRead(Exec(events).db, Exec(events).deliveries[j])
    requires Exec(events).deliveries[j].request.operation !in Exec(events).db.operations
    ensures var sys, end := Exec(events), Exec(events + later);
            var operation := sys.deliveries[j].request.operation;
            && operation in end.db.results && end.db.results[operation].outcome.Success?
            && end.db.results[operation].reason.Completed? && end.db.commits == sys.db.commits
            && |end.deliveries| == |sys.deliveries|
    decreases Rank(Exec(events).deliveries[j].phase)
  {
    var delivery, db := Exec(events).deliveries[j], Exec(events).db;
    var step := Step(j, Favourable(""));
    ResultsAreClaimed(events);
    OneStep(events, j, Favourable(""));
    if AtLastStep(delivery) {
      LastReadingStep(db, delivery);
      later := [step];
    } else {
      ReadingStep(db, delivery);
      var rest := RunsToRead(events + [step], j);
      later := [step] + rest;
      assert events + later == (events + [step]) + rest;
    }
  }

  lemma Uncommitted(events: seq<Event>, operation: Id)
    requires operation !in Exec(events).db.operations
    ensures CommitsOf(Exec(events).db.commits, operation) == 0
  {
    CommitsAtMostOnce(events, operation, "");
  }

  /** A request under an id that has a result is answered with it. */
  lemma AskAgain(events: seq<Event>, request: Request) returns (later: seq<Event>)
    requires request.operation in Exec(events).db.results && !request.body.StatusBody? && request.expiresAt > 0
    ensures var sys, end := Exec(events), Exec(events + later);
            && end.db == sys.db && |end.deliveries| == |sys.deliveries| + 1
            && end.deliveries[|sys.deliveries|]
               == Delivery(request, Answered(TerminalResponse(Some(sys.db.results[request.operation]))))
  {
    var k, around := |Exec(events).deliveries|, Favourable("");
    later := [Deliver(request, 0), Step(k, around), Step(k, around)];
    var sent := events + [Deliver(request, 0)];
    ExecGrows(events, Deliver(request, 0));
    OneStep(sent, k, around);
    OneStep(sent + [Step(k, around)], k, around);
    assert events + later == sent + [Step(k, around)] + [Step(k, around)];
  }

  /** The command sent last is answered with success, and nothing was committed under its id. */
  predicate LossHidden(sys: System, k: nat, operation: Id, body: Body) {
    && |sys.deliveries| == k + 1
    && sys.deliveries[k].request.body == body && sys.deliveries[k].request.operation == operation
    && sys.deliveries[k].phase == Answered(StatusIs(Some(Success), Completed))
    && CommitsOf(sys.db.commits, operation) == 0
  }

  lemma AskAfterRead(events: seq<Event>, operation: Id, body: Body) returns (later: seq<Event>)
    requires var db := Exec(events).db;
             && operation in db.results && db.results[operation].outcome.Success?
             && db.results[operation].reason.Completed? && CommitsOf(db.commits, operation) == 0
    requires Mutating(CommandFor(body))
    ensures LossHidden(Exec(events + later), |Exec(events).deliveries|, operation, body)
  {
    later := AskAgain(events, Request(operation, 1, body));
  }

  /** With a list or status request under way under an unclaimed id, every mutating command sent under
      it may come to be answered with success although nothing is committed. */
  lemma ReadUnderWayHidesLoss(events: seq<Event>, j: nat, body: Body) returns (later: seq<Event>)
    requires Underway(Exec(events), j) && WillRead(Exec(events).db, Exec(events).deliveries[j])
    requires Exec(events).deliveries[j].request.operation !in Exec(events).db.operations
    requires Mutating(CommandFor(body))
    ensures var sys := Exec(events);
            LossHidden(Exec(events + later), |sys.deliveries|, sys.deliveries[j].request.operation, body)
  {
    var operation := Exec(events).deliveries[j].request.operation;
    Uncommitted(events, operation);
    var read := RunsToRead(events, j);
    var again := AskAfterRead(events + read, operation, body);
    later := read + again;
    assert events + later == (events + read) + again;
  }

  /** A status query sent under the id it asks about claims that id itself: the command sent later
      under it is answered with success although nothing was changed. */
  lemma StatusUnderOwnIdHidesLoss() returns (events: seq<Event>)
    ensures var sys := Exec(events);
            && |sys.deliveries| == 2 && sys.deliveries[1].request.body.RejectBody?
            && sys.deliveries[1].phase == Answered(StatusIs(Some(Success), Completed))
            && CommitsOf(sys.db.commits, sys.deliveries[1].request.operation) == 0
  {
    var status := Request("op", 10, StatusBody("op"));
    ExecGrows([], Deliver(status, 0));
    var sent := [] + [Deliver(status, 0)];
    assert Exec(sent).deliveries == [Delivery(status, AwaitAuthorization)];
    var later := ReadUnderWayHidesLoss(sent, 0, RejectBody("request", 0));
    events := sent + later;
  }

  // ---- Refusals ----

  /** A refusal recorded before any transaction settles the operation: it stays uncommitted if it was,
      and stays committed if a delivery before had committed it. */
  lemma RecordedRefusalSettles(events: seq<Event>, index: nat, around: Surroundings, later: seq<Event>)
    requires var sys := Exec(events);
             && Underway(sys, index) && sys.deliveries[index].phase.AwaitRecord?
             && !sys.deliveries[index].phase.outcome.Success?
    ensures var sys := Exec(events);
            var operation := sys.deliveries[index].request.operation;
            CommitsOf(Exec(events + [Step(index, around)] + later).db.commits, operation)
              == CommitsOf(sys.db.commits, operation)
  {
    var sys, recorded := Exec(events), events + [Step(index, around)];
    assert recorded[..|events|] == events;
    var delivery := sys.deliveries[index];
    var operation := delivery.request.operation;
    var verdict, puuid := StepWrites(sys.db, delivery, around);
    if operation !in sys.db.operations {
      SettleOnOperation(sys.db, operation, CommandFor(delivery.request.body), verdict, puuid, operation);
    }
    ClaimedIsSettled(recorded, later, operation);
  }

  /** How many deliveries of the id were made. */
  function TimesSent(events: seq<Event>, operation: Id): nat {
    if events == [] then 0
    else
      var last := events[|events| - 1];
      TimesSent(events[..|events| - 1], operation)
      + if last.Deliver? && last.request.operation == operation then 1 else 0
  }

  /** Two deliveries of an id need two sendings. */
  lemma {:induction false} SoleDelivery(events: seq<Event>, operation: Id, i: nat, j: nat)
    requires i < |Exec(events).deliveries| && j < |Exec(events).deliveries|
    requires Exec(events).deliveries[i].request.operation == operation == Exec(events).deliveries[j].request.operation
    ensures TimesSent(events, operation) >= if i == j then 1 else 2
    decreases |events|
  {
    var front, last := events[..|events| - 1], events[|events| - 1];
    var sys := Exec(front);
    NextKeepsRequests(sys, last);
    var before := |sys.deliveries|;
    if i < before && j < before {
      SoleDelivery(front, operation, i, j);
    } else if i < before {
      SoleDelivery(front, operation, i, i);
    } else if j < before {
      SoleDelivery(front, operation, j, j);
    }
  }

  ghost predicate HasFinished(sys: System, operation: Id) {
    exists j :: 0 <= j < |sys.deliveries| && sys.deliveries[j].request.operation == operation && !Underway(sys, j)
  }

  lemma NextFinishes(sys: System, event: Event, operation: Id)
    requires operation !in sys.db.results && operation in Next(sys, event).db.results
    ensures HasFinished(Next(sys, event), operation)
  {
    NextClaims(sys, event, operation);
    var verdict, puuid := StepWrites(sys.db, sys.deliveries[event.index], event.around);
    assert !Underway(Next(sys, event), event.index);
  }

  lemma FinishedStays(sys: System, event: Event, operation: Id)
    requires HasFinished(sys, operation)
    ensures HasFinished(Next(sys, event), operation)
  {
    var j :| 0 <= j < |sys.deliveries| && sys.deliveries[j].request.operation == operation && !Underway(sys, j);
    assert Next(sys, event).deliveries[j] == sys.deliveries[j];
    assert !Underway(Next(sys, event), j);
  }

  /** An id gets its result from a delivery that is over then. */
  lemma {:induction false} ResultHasFinisher(events: seq<Event>, operation: Id)
    requires operation in Exec(events).db.results
    ensures HasFinished(Exec(events), operation)
    decreases |events|
  {
    var front, last := events[..|events| - 1], events[|events| - 1];
    if operation in Exec(front).db.results {
      ResultHasFinisher(front, operation);
      FinishedStays(Exec(front), last, operation);
    } else {
      NextFinishes(Exec(front), last, operation);
    }
  }

  /** A refusal such as "expired" to the only delivery ever made of an id means that the operation was
      not carried out and never will be, whatever is sent or happens later. */
  lemma SoleRefusalMeansUncommitted(events: seq<Event>, index: nat, around: Surroundings, later: seq<Event>)
    requires var sys := Exec(events);
             && Underway(sys, index) && sys.deliveries[index].phase.AwaitRecord?
             && !sys.deliveries[index].phase.outcome.Success?
    requires TimesSent(events, Exec(events).deliveries[index].request.operation) == 1
    ensures CommitsOf(Exec(events + [Step(index, around)] + later).db.commits,
                      Exec(events).deliveries[index].request.operation) == 0
  {
    var sys := Exec(events);
    var operation := sys.deliveries[index].request.operation;
    if operation in sys.db.results {
      ResultHasFinisher(events, operation);
      var j :| 0 <= j < |sys.deliveries| && sys.deliveries[j].request.operation == operation && !Underway(sys, j);
      SoleDelivery(events, operation, index, j);
    }
    CommitsAtMostOnce(events, operation, "");
    RecordedRefusalSettles(events, index, around, later);
  }

  /** With another delivery of the id under way whose guards let it through, there is a continuation in
      which the refusal is answered and the operation carried out. */
  lemma OtherDeliveryMayCommit(events: seq<Event>, index: nat, other: nat, puuid: string) returns (later: seq<Event>)
    requires var sys := Exec(events);
             && Underway(sys, index) && sys.deliveries[index].phase.AwaitRecord?
             && !sys.deliveries[index].phase.outcome.Success?
             && Underway(sys, other) && other != index && WillCommit(sys.db, sys.deliveries[other], puuid)
             && sys.deliveries[other].request.operation == sys.deliveries[index].request.operation
             && sys.deliveries[index].request.operation !in sys.db.operations
    ensures var sys, end := Exec(events), Exec(events + later);
            && |end.deliveries| == |sys.deliveries|
            && end.deliveries[index].phase == Answered(sys.deliveries[index].phase.response)
            && CommitsOf(end.db.commits, sys.deliveries[index].request.operation) == 1
  {
    var committing := RunsToCommit(events, other, puuid);
    OneStep(events + committing, index, Favourable(puuid));
    later := committing + [Step(index, Favourable(puuid))];
    assert events + later == (events + committing) + [Step(index, Favourable(puuid))];
  }

  const LATE: Phase := AwaitRecord(Failure, RequestExpired, Refusal(RequestExpired))

  lemma SentTwice(request: Request) returns (sent: seq<Event>)
    requires request.expiresAt == 10
    ensures Exec(sent).db == EMPTY_DB
    ensures Exec(sent).deliveries == [Delivery(request, AwaitAuthorization), Delivery(request, LATE)]
  {
    var first := [] + [Deliver(request, 0)];
    ExecGrows([], Deliver(request, 0));
    ExecGrows(first, Deliver(request, 10));
    sent := first + [Deliver(request, 10)];
  }

  /** A command answered as expired may be one that was carried out: the answer to the first delivery
      was lost, the second came too late. */
  lemma ExpiredAnswerMayHideCommit() returns (events: seq<Event>)
    ensures var sys := Exec(events);
            && |sys.deliveries| == 2 && sys.deliveries[1].phase == Answered(Refusal(RequestExpired))
            && CommitsOf(sys.db.commits, sys.deliveries[1].request.operation) == 1
  {
    var adjust := Request("op", 10, AdjustBody);
    var sent := SentTwice(adjust);
    assert WillCommit(EMPTY_DB, Delivery(adjust, AwaitAuthorization), "");
    var later := OtherDeliveryMayCommit(sent, 1, 0, "");
    events := sent + later;
    SameRequests(sent, later, 1);
  }

  lemma {:induction false} SameRequests(events: seq<Event>, later: seq<Event>, i: nat)
    requires i < |Exec(events).deliveries|
    ensures i < |Exec(events + later).deliveries|
    ensures Exec(events + later).deliveries[i].request == Exec(events).deliveries[i].request
    decreases |later|
  {
    if later == [] {
      assert events + later == events;
    } else {
      var front, last := later[..|later| - 1], later[|later| - 1];
      SameRequests(events, front, i);
      assert events + later == (events + front) + [last];
      ExecGrows(events + front, last);
      NextKeepsRequests(Exec(events + front), last);
    }
  }
}
