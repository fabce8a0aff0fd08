/** The admin command protocol: requests delivered any number of times, late or not at all, their
    steps interleaved with each other and with everything else that writes the tables, and failing
    anywhere. */
module AdminProtocol {
  import opened Options
  import opened AdminTables

  datatype Cursor = NoCursor | Undecodable | After(request: Id)

  datatype Body =
    | ListBody(cursor: Cursor)
    | ApproveBody(approve: Id, expectedVersion: int)
    | RejectBody(reject: Id, expectedVersion: int)
    | RemoveBody(remove: Id, expectedVersion: int)
    | AdjustBody
    | CorrectBody
    | CancelBody
    | StatusBody(target: Id)

  datatype Request = Request(operation: Id, expiresAt: int, body: Body)

  datatype ResponseKind = DeniedKind | ConflictKind | UnavailableKind | DuplicateKind

  /** `StatusIs` with no outcome is the status answer "unknown". */
  datatype Response =
    | Changed(change: Change)
    | PageOfRequests
    | StatusIs(outcome: Option<TerminalOutcome>, status: Reason)
    | Refuses(kind: ResponseKind, reason: Reason)

  datatype Phase =
    | AwaitAuthorization
    | AwaitResult
    | AwaitPending
    | AwaitValidation
    | AwaitTransaction(puuid: string)
    | AwaitRecord(outcome: TerminalOutcome, recorded: Reason, response: Response)
    | AwaitOutcome
    | AwaitStatus
    | Answered(answer: Response)
    | Failed

  datatype Delivery = Delivery(request: Request, phase: Phase)

  // ---- What the outside answers ----

  datatype Validation = Valid(puuid: string) | NotAPuuid | OtherPlatform | ValidatorDown

  /** How the credit or incident store rules on a command whose operation it claimed. */
  datatype Ruling = Grants | FindsNothing | FindsStale | FindsSelf | FindsTooLittle

  datatype Surroundings = Surroundings(administrator: bool, creditsConfigured: bool, validation: Validation,
                                       ruling: Ruling)

  datatype OutsideChange =
    | ClaimedElsewhere(operation: Id)
    | RequestMade(request: Id, user: Id)
    | RequestWithdrawn(request: Id)
    | LinkRemovedByUser(link: Id)
    | LinkRefreshed(link: Id)

  // ---- Responses ----

  function CommandFor(body: Body): CommandName {
    match body
    case ListBody(_) => ListRequests
    case ApproveBody(_, _) => Approve
    case RejectBody(_, _) => Reject
    case RemoveBody(_, _) => RemoveLink
    case AdjustBody => AdjustCredit
    case CorrectBody => CorrectIncident
    case CancelBody => CancelIncident
    case StatusBody(_) => OperationStatus
  }

  function KindOf(reason: Reason): ResponseKind {
    match reason
    case LinkRequestStale => ConflictKind
    case LinkStale => ConflictKind
    case IncidentStale => ConflictKind
    case CreditStale => ConflictKind
    case ActivePuuidConflict => ConflictKind
    case LinkRequestUnavailable => UnavailableKind
    case LinkNotFound => UnavailableKind
    case IncidentNotFound => UnavailableKind
    case ValidatorUnavailable => UnavailableKind
    case CreditUnavailable => UnavailableKind
    case OperationDuplicate => DuplicateKind
    case _ => DeniedKind
  }

  function Refusal(reason: Reason): Response {
    Refuses(KindOf(reason), reason)
  }

  /** The answer to a request whose operation id was taken. */
  function TerminalResponse(terminal: Option<Terminal>): Response {
    match terminal
    case None => Refusal(OperationDuplicate)
    case Some(known) => StatusIs(Some(known.outcome), known.reason)
  }

  function StatusResponse(terminal: Option<Terminal>): Response {
    match terminal
    case None => StatusIs(None, OperationUnknown)
    case Some(known) => StatusIs(Some(known.outcome), known.reason)
  }

  function ResponseTo(verdict: Verdict): Response {
    match verdict
    case Applies(change) => Changed(change)
    case Settles(outcome, reason) => if outcome.Success? then PageOfRequests else Refusal(reason)
  }

  // ---- Judging a command ----

  function JudgeList(db: Db, cursor: Cursor): Verdict {
    if cursor.After? && !(cursor.request in db.requests && db.requests[cursor.request].status.Pending?)
    then Settles(Denied, RequestMalformed)
    else Settles(Success, Completed)
  }

  function JudgeCredit(ruling: Ruling): Verdict {
    match ruling
    case Grants => Applies(CreditAdjusted)
    case FindsNothing => Settles(Denied, CreditNotFound)
    case FindsStale => Settles(Conflict, CreditStale)
    case FindsSelf => Settles(Denied, CreditSelfAdjustment)
    case FindsTooLittle => Settles(Denied, CreditInsufficient)
  }

  function JudgeIncident(ruling: Ruling, change: Change): Verdict {
    match ruling
    case Grants => Applies(change)
    case FindsNothing => Settles(Failure, IncidentNotFound)
    case _ => Settles(Conflict, IncidentStale)
  }

  function Judge(db: Db, request: Request, puuid: string, ruling: Ruling): Verdict {
    match request.body
    case ListBody(cursor) => JudgeList(db, cursor)
    case ApproveBody(id, version) => JudgeApproval(db, request.operation, id, version, puuid)
    case RejectBody(id, version) => JudgeRejection(db, id, version)
    case RemoveBody(id, version) => JudgeRemoval(db, id, version)
    case AdjustBody => JudgeCredit(ruling)
    case CorrectBody => JudgeIncident(ruling, IncidentCorrected)
    case CancelBody => JudgeIncident(ruling, IncidentCancelled)
    case StatusBody(_) => Settles(Success, Completed)
  }

  // ---- Steps of a delivery ----

  function Receive(request: Request, now: int): Delivery {
    Delivery(request, if request.expiresAt <= now then AwaitRecord(Failure, RequestExpired, Refusal(RequestExpired))
                      else AwaitAuthorization)
  }

  function Authorize(request: Request, administrator: bool): Phase {
    if !administrator then AwaitRecord(Denied, AdministratorRequired, Refusal(AdministratorRequired))
    else if request.body.StatusBody? then AwaitStatus
    else AwaitResult
  }

  function Begin(request: Request, creditsConfigured: bool): Phase {
    match request.body
    case ListBody(cursor) =>
      if cursor.Undecodable? then AwaitRecord(Failure, RequestMalformed, Refusal(RequestMalformed))
      else AwaitTransaction("")
    case ApproveBody(_, _) => AwaitPending
    case AdjustBody =>
      if creditsConfigured then AwaitTransaction("")
      else AwaitRecord(Failure, RequestUnavailable, Refusal(CreditUnavailable))
    case _ => AwaitTransaction("")
  }

  function Validate(validation: Validation): Phase {
    match validation
    case Valid(puuid) => AwaitTransaction(puuid)
    case NotAPuuid => AwaitRecord(Failure, InvalidPuuid, Refusal(InvalidPuuid))
    case OtherPlatform => AwaitRecord(Failure, PlatformMismatch, Refusal(PlatformMismatch))
    case ValidatorDown => AwaitRecord(Failure, ValidatorUnavailable, Refusal(ValidatorUnavailable))
  }

  predicate IsPending(db: Db, body: Body) {
    body.ApproveBody? && body.approve in db.requests && db.requests[body.approve].status.Pending?
  }

  function Transact(db: Db, request: Request, puuid: string, ruling: Ruling): (Db, Phase) {
    var attempt := Try(db, request.operation, CommandFor(request.body), Judge(db, request, puuid, ruling), puuid);
    if attempt.verdict.Some? then (attempt.db, Answered(ResponseTo(attempt.verdict.value)))
    else if request.body.ListBody? then (attempt.db, Answered(TerminalResponse(Lookup(db.results, request.operation))))
    else (attempt.db, AwaitOutcome)
  }

  function Proceed(db: Db, delivery: Delivery, around: Surroundings): (Db, Phase) {
    var request := delivery.request;
    match delivery.phase
    case AwaitAuthorization => (db, Authorize(request, around.administrator))
    case AwaitResult =>
      (db, if request.operation in db.results then Answered(TerminalResponse(Some(db.results[request.operation])))
           else Begin(request, around.creditsConfigured))
    case AwaitPending =>
      (db, if IsPending(db, request.body) then AwaitValidation
           else AwaitRecord(Failure, LinkRequestUnavailable, Refusal(LinkRequestUnavailable)))
    case AwaitValidation => (db, Validate(around.validation))
    case AwaitTransaction(puuid) => Transact(db, request, puuid, around.ruling)
    case AwaitRecord(outcome, reason, response) =>
      (RecordOutcome(db, request.operation, CommandFor(request.body), outcome, reason), Answered(response))
    case AwaitOutcome => (db, Answered(TerminalResponse(Lookup(db.results, request.operation))))
    case AwaitStatus =>
      (db, if request.body.StatusBody?
           then AwaitRecord(Success, Completed, StatusResponse(Lookup(db.results, request.body.target))) else Failed)
    case Answered(_) => (db, delivery.phase)
    case Failed => (db, delivery.phase)
  }

  // ---- Runs ----

  /** A step may fail before it has any effect, or be carried out without the delivery learning of it. */
  datatype Event =
    | Deliver(request: Request, now: int)
    | Step(index: nat, around: Surroundings)
    | StepFails(index: nat)
    | StepIsLost(index: nat, around: Surroundings)
    | Outside(change: OutsideChange)

  datatype System = System(db: Db, deliveries: seq<Delivery>, elsewhere: set<Id>)

  const FRESH_SYSTEM := System(EMPTY_DB, [], {})

  predicate Underway(sys: System, index: nat) {
    index < |sys.deliveries| && !sys.deliveries[index].phase.Answered? && !sys.deliveries[index].phase.Failed?
  }

  function ApplyOutside(sys: System, change: OutsideChange): System {
    var db := sys.db;
    match change
    case ClaimedElsewhere(operation) =>
      if operation in db.operations then sys
      else sys.(db := db.(operations := db.operations + {operation}), elsewhere := sys.elsewhere + {operation})
    case RequestMade(request, user) =>
      if request in db.requests then sys
      else sys.(db := db.(requests := db.requests[request := LinkRequest(user, Pending, 0)]))
    case RequestWithdrawn(request) =>
      if request in db.requests && db.requests[request].status.Pending?
      then sys.(db := db.(requests := db.requests[request := Decide(db.requests[request], Withdrawn)]))
      else sys
    case LinkRemovedByUser(link) =>
      if link in db.links && !db.links[link].removed
      then sys.(db := db.(links := db.links[link := db.links[link].(removed := true, primary := false,
                                                                    version := db.links[link].version + 1)]))
      else sys
    case LinkRefreshed(link) =>
      if link in db.links && !db.links[link].removed
      then sys.(db := db.(links := db.links[link := db.links[link].(version := db.links[link].version + 1)]))
      else sys
  }

  function SetPhase(sys: System, index: nat, phase: Phase): System
    requires index < |sys.deliveries|
  {
    sys.(deliveries := sys.deliveries[index := sys.deliveries[index].(phase := phase)])
  }

  function Next(sys: System, event: Event): System {
    match event
    case Deliver(request, now) => sys.(deliveries := sys.deliveries + [Receive(request, now)])
    case Step(index, around) =>
      if !Underway(sys, index) then sys
      else
        var (db, phase) := Proceed(sys.db, sys.deliveries[index], around);
        SetPhase(sys, index, phase).(db := db)
    case StepFails(index) => if Underway(sys, index) then SetPhase(sys, index, Failed) else sys
    case StepIsLost(index, around) =>
      if !Underway(sys, index) then sys
      else SetPhase(sys, index, Failed).(db := Proceed(sys.db, sys.deliveries[index], around).0)
    case Outside(change) => ApplyOutside(sys, change)
  }

  function Exec(events: seq<Event>): System {
    if events == [] then FRESH_SYSTEM else Next(Exec(events[..|events| - 1]), events[|events| - 1])
  }
}
