/** What each transaction and step of the admin commands answers and writes, told by its input and the rows
    it finds alone. */
module AdminCalls {
  import opened Options
  import opened AdminTables
  import opened AdminProtocol

  // ---- Transactions ----

  /** A refusal claims the id and leaves its result, and nothing else. */
  predicate RefusedWith(db: Db, attempt: Attempt, operation: Id, result: Terminal) {
    && attempt.verdict == Some(Settles(result.outcome, result.reason))
    && attempt.db == db.(operations := db.operations + {operation}, results := db.results[operation := result])
  }

  predicate Awaits(db: Db, request: Id) {
    request in db.requests && db.requests[request].status == Pending
  }

  /** The transaction of an approval under a new id: refused for the first of these reasons, else it makes
      the link, primary if the user has no other, and decides the request. */
  lemma ApprovalWrites(db: Db, operation: Id, request: Id, expectedVersion: int, puuid: string)
    requires operation !in db.operations
    ensures var attempt := Try(db, operation, Approve,
                               JudgeApproval(db, operation, request, expectedVersion, puuid), puuid);
            var link := "link:" + operation;
            if !Awaits(db, request)
            then RefusedWith(db, attempt, operation, Terminal(Approve, Failure, LinkRequestUnavailable))
            else if db.requests[request].version != expectedVersion
            then RefusedWith(db, attempt, operation, Terminal(Approve, Conflict, LinkRequestStale))
            else if link in db.links || exists l | l in db.links :: db.links[l].puuid == puuid && !db.links[l].removed
            then RefusedWith(db, attempt, operation, Terminal(Approve, Conflict, ActivePuuidConflict))
            else
              var user := db.requests[request].user;
              var first := forall l | l in db.links :: db.links[l].user == user ==> db.links[l].removed;
              && attempt.verdict == Some(Applies(RequestApproved(request, link)))
              && attempt.db
                 == Db(db.operations + {operation}, db.results[operation := Terminal(Approve, Success, Completed)],
                       db.requests[request := LinkRequest(user, Approved(link), expectedVersion + 1)],
                       db.links[link := Link(user, puuid, false, first, 0)],
                       db.commits + [Commit(operation, RequestApproved(request, link))])
  {
  }

  /** The transaction of a rejection under a new id. */
  lemma RejectionWrites(db: Db, operation: Id, request: Id, expectedVersion: int)
    requires operation !in db.operations
    ensures var attempt := Try(db, operation, Reject, JudgeRejection(db, request, expectedVersion), "");
            if !Awaits(db, request)
            then RefusedWith(db, attempt, operation, Terminal(Reject, Failure, LinkRequestUnavailable))
            else if db.requests[request].version != expectedVersion
            then RefusedWith(db, attempt, operation, Terminal(Reject, Conflict, LinkRequestStale))
            else
              && attempt.verdict == Some(Applies(RequestRejected(request)))
              && attempt.db
                 == Db(db.operations + {operation}, db.results[operation := Terminal(Reject, Success, Completed)],
                       db.requests[request := LinkRequest(db.requests[request].user, Rejected, expectedVersion + 1)],
                       db.links, db.commits + [Commit(operation, RequestRejected(request))])
  {
  }

  /** The transaction of a removal under a new id: the link stays as a removed one that is not primary. */
  lemma RemovalWrites(db: Db, operation: Id, link: Id, expectedVersion: int)
    requires operation !in db.operations
    ensures var attempt := Try(db, operation, RemoveLink, JudgeRemoval(db, link, expectedVersion), "");
            if !(link in db.links && !db.links[link].removed)
            then RefusedWith(db, attempt, operation, Terminal(RemoveLink, Failure, LinkNotFound))
            else if db.links[link].version != expectedVersion
            then RefusedWith(db, attempt, operation, Terminal(RemoveLink, Conflict, LinkStale))
            else
              && attempt.verdict == Some(Applies(LinkRemoved(link)))
              && attempt.db
                 == Db(db.operations + {operation}, db.results[operation := Terminal(RemoveLink, Success, Completed)],
                       db.requests,
                       db.links[link := Link(db.links[link].user, db.links[link].puuid, true, false,
                                             expectedVersion + 1)],
                       db.commits + [Commit(operation, LinkRemoved(link))])
  {
  }

  /** Under an id that is taken no transaction writes, and none reports a verdict. */
  lemma TakenIdWritesNothing(db: Db, operation: Id, command: CommandName, verdict: Verdict, puuid: string,
                             outcome: TerminalOutcome, reason: Reason)
    requires operation in db.operations
    ensures Try(db, operation, command, verdict, puuid) == Attempt(db, None)
    ensures RecordOutcome(db, operation, command, outcome, reason) == db
  {
  }

  /** Recording an outcome under a new id claims it and leaves that result alone. */
  lemma RecordingWrites(db: Db, operation: Id, command: CommandName, outcome: TerminalOutcome, reason: Reason)
    requires operation !in db.operations
    ensures RecordOutcome(db, operation, command, outcome, reason)
         == db.(operations := db.operations + {operation},
                results := db.results[operation := Terminal(command, outcome, reason)])
  {
  }

  /** What others may do meanwhile: claim a free id, make or withdraw a request, and remove or refresh an
      active link, each change of a row under its next version. */
  lemma OthersWrite(sys: System, change: OutsideChange)
    ensures var db, after := sys.db, ApplyOutside(sys, change);
            match change
            case ClaimedElsewhere(operation) =>
              after == if operation in db.operations then sys
                       else sys.(db := db.(operations := db.operations + {operation}),
                                 elsewhere := sys.elsewhere + {operation})
            case RequestMade(id, user) =>
              after == if id in db.requests then sys
                       else sys.(db := db.(requests := db.requests[id := LinkRequest(user, Pending, 0)]))
            case RequestWithdrawn(id) =>
              after == if !Awaits(db, id) then sys
                       else sys.(db := db.(requests := db.requests[id :=
                                   LinkRequest(db.requests[id].user, Withdrawn, db.requests[id].version + 1)]))
            case LinkRemovedByUser(link) =>
              after == if !(link in db.links && !db.links[link].removed) then sys
                       else sys.(db := db.(links := db.links[link :=
                                   Link(db.links[link].user, db.links[link].puuid, true, false,
                                        db.links[link].version + 1)]))
            case LinkRefreshed(link) =>
              after == if !(link in db.links && !db.links[link].removed) then sys
                       else sys.(db := db.(links := db.links[link :=
                                   Link(db.links[link].user, db.links[link].puuid, false, db.links[link].primary,
                                        db.links[link].version + 1)]))
  {
  }

  // ---- Steps of a delivery ----

  /** The delivery goes on to record an outcome and to answer with a refusal of that kind. */
  predicate Records(phase: Phase, outcome: TerminalOutcome, recorded: Reason, kind: ResponseKind, reason: Reason) {
    phase == AwaitRecord(outcome, recorded, Refuses(kind, reason))
  }

  /** A request is refused as expired from the instant it expires on. */
  lemma ExpiredIsRefused(request: Request, now: int)
    ensures Receive(request, now).request == request
    ensures if now >= request.expiresAt
            then Records(Receive(request, now).phase, Failure, RequestExpired, DeniedKind, RequestExpired)
            else Receive(request, now).phase == AwaitAuthorization
  {
  }

  /** Only an administrator's request goes on, to the recorded result or, for a status, to that query. */
  lemma OnlyAdministratorsPass(db: Db, delivery: Delivery, around: Surroundings)
    requires delivery.phase == AwaitAuthorization
    ensures var (after, phase) := Proceed(db, delivery, around);
            && after == db
            && if around.administrator
               then phase == if delivery.request.body.StatusBody? then AwaitStatus else AwaitResult
               else Records(phase, Denied, AdministratorRequired, DeniedKind, AdministratorRequired)
  {
  }

  /** A request whose id has a result is answered with it; any other goes on to what its command needs. */
  lemma ResultOrBegin(db: Db, delivery: Delivery, around: Surroundings)
    requires delivery.phase == AwaitResult
    ensures var (after, phase) := Proceed(db, delivery, around);
            var request := delivery.request;
            && after == db
            && if request.operation in db.results
               then phase == Answered(StatusIs(Some(db.results[request.operation].outcome),
                                               db.results[request.operation].reason))
               else if request.body.ListBody? && request.body.cursor.Undecodable?
               then Records(phase, Failure, RequestMalformed, DeniedKind, RequestMalformed)
               else if request.body.ApproveBody? then phase == AwaitPending
               else if request.body.AdjustBody? && !around.creditsConfigured
               then Records(phase, Failure, RequestUnavailable, UnavailableKind, CreditUnavailable)
               else phase == AwaitTransaction("")
  {
  }

  /** An approval needs a pending request, and then an account the validator knows on the platform. */
  lemma ApprovalIsValidated(db: Db, delivery: Delivery, around: Surroundings)
    requires delivery.request.body.ApproveBody?
    ensures delivery.phase == AwaitPending ==>
              var (after, phase) := Proceed(db, delivery, around);
              after == db && if Awaits(db, delivery.request.body.approve) then phase == AwaitValidation
                             else Records(phase, Failure, LinkRequestUnavailable, UnavailableKind,
                                          LinkRequestUnavailable)
    ensures delivery.phase == AwaitValidation ==>
              var (after, phase) := Proceed(db, delivery, around);
              && after == db
              && (around.validation.Valid? ==> phase == AwaitTransaction(around.validation.puuid))
              && (around.validation.NotAPuuid? ==> Records(phase, Failure, InvalidPuuid, DeniedKind, InvalidPuuid))
              && (around.validation.OtherPlatform? ==>
                    Records(phase, Failure, PlatformMismatch, DeniedKind, PlatformMismatch))
              && (around.validation.ValidatorDown? ==>
                    Records(phase, Failure, ValidatorUnavailable, UnavailableKind, ValidatorUnavailable))
  {
  }

  /** A status query finds the result recorded about its target, or unknown, and records itself first. */
  lemma StatusIsLookedUp(db: Db, delivery: Delivery, around: Surroundings)
    requires delivery.phase == AwaitStatus && delivery.request.body.StatusBody?
    ensures var (after, phase) := Proceed(db, delivery, around);
            var target := delivery.request.body.target;
            && after == db
            && phase == AwaitRecord(Success, Completed,
                                    if target in db.results
                                    then StatusIs(Some(db.results[target].outcome), db.results[target].reason)
                                    else StatusIs(None, OperationUnknown))
  {
  }

  /** What the credit and incident stores rule is passed on as the outcome of the command. */
  lemma RulingsAreOutcomes(db: Db, request: Request, puuid: string, ruling: Ruling)
    ensures request.body.AdjustBody? ==>
              && CommandFor(request.body) == AdjustCredit
              && Judge(db, request, puuid, ruling)
              == if ruling.Grants? then Applies(CreditAdjusted)
                 else if ruling.FindsStale? then Settles(Conflict, CreditStale)
                 else Settles(Denied, if ruling.FindsNothing? then CreditNotFound
                                      else if ruling.FindsSelf? then CreditSelfAdjustment else CreditInsufficient)
    ensures request.body.CorrectBody? || request.body.CancelBody? ==>
              && CommandFor(request.body) == (if request.body.CorrectBody? then CorrectIncident else CancelIncident)
              && Judge(db, request, puuid, ruling)
              == if ruling.Grants? then Applies(if request.body.CorrectBody? then IncidentCorrected
                                                else IncidentCancelled)
                 else if ruling.FindsNothing? then Settles(Failure, IncidentNotFound)
                 else Settles(Conflict, IncidentStale)
    ensures request.body.ListBody? ==>
              && CommandFor(request.body) == ListRequests
              && Judge(db, request, puuid, ruling)
              == if request.body.cursor.After? && !Awaits(db, request.body.cursor.request)
                 then Settles(Denied, RequestMalformed) else Settles(Success, Completed)
  {
  }

  /** Which refusals are conflicts, unavailable or duplicates; every other is a denial. */
  lemma RefusalsHaveKinds(reason: Reason)
    ensures Refusal(reason)
         == Refuses(if reason in {LinkRequestStale, LinkStale, IncidentStale, CreditStale, ActivePuuidConflict}
                    then ConflictKind
                    else if reason in {LinkRequestUnavailable, LinkNotFound, IncidentNotFound, ValidatorUnavailable,
                                       CreditUnavailable} then UnavailableKind
                    else if reason == OperationDuplicate then DuplicateKind else DeniedKind, reason)
  {
  }

  /** The step of the transaction judges and writes what the request asks for; a request whose id was taken
      meanwhile is answered with what is recorded under it, or as a duplicate. */
  lemma TransactionAnswersRequest(db: Db, delivery: Delivery, around: Surroundings)
    requires delivery.phase.AwaitTransaction? && !delivery.request.body.StatusBody?
    ensures var (after, phase) := Proceed(db, delivery, around);
            var request, operation := delivery.request, delivery.request.operation;
            if operation in db.operations then
              && after == db
              && (!request.body.ListBody? ==> phase == AwaitOutcome)
              && (request.body.ListBody? ==>
                    phase == Answered(if operation in db.results
                                      then StatusIs(Some(db.results[operation].outcome), db.results[operation].reason)
                                      else Refuses(DuplicateKind, OperationDuplicate)))
            else
              var verdict := Judge(db, request, delivery.phase.puuid, around.ruling);
              && after == Settle(db, operation, CommandFor(request.body), verdict, delivery.phase.puuid)
              && phase == Answered(if verdict.Applies? then Changed(verdict.change)
                                   else if verdict.outcome == Success then PageOfRequests
                                   else Refusal(verdict.reason))
  {
  }

  /** Each decision and removal is judged on the row it names, at the version it expects. */
  lemma RowsAreJudged(db: Db, request: Request, puuid: string, ruling: Ruling)
    ensures request.body.ApproveBody? ==>
              && CommandFor(request.body) == Approve
              && Judge(db, request, puuid, ruling)
                 == JudgeApproval(db, request.operation, request.body.approve, request.body.expectedVersion, puuid)
    ensures request.body.RejectBody? ==>
              && CommandFor(request.body) == Reject
              && Judge(db, request, puuid, ruling)
                 == JudgeRejection(db, request.body.reject, request.body.expectedVersion)
    ensures request.body.RemoveBody? ==>
              && CommandFor(request.body) == RemoveLink
              && Judge(db, request, puuid, ruling)
                 == JudgeRemoval(db, request.body.remove, request.body.expectedVersion)
    ensures request.body.StatusBody? ==> CommandFor(request.body) == OperationStatus
  {
  }
}
