/** The tables behind the admin commands, and the transactions on them. Every transaction claims its
    operation id first and leaves one terminal result when it did. */
module AdminTables {
  import opened Options

  type Id = string

  datatype CommandName = ListRequests | Approve | Reject | RemoveLink | AdjustCredit | CorrectIncident | CancelIncident
                       | OperationStatus

  predicate Mutating(command: CommandName) {
    !command.ListRequests? && !command.OperationStatus?
  }

  datatype TerminalOutcome = Success | Denied | Conflict | Failure

  datatype Reason =
    | Completed | AdministratorRequired | RequestExpired | RequestMalformed | RequestUnavailable | OperationDuplicate
    | OperationUnknown | LinkRequestStale | LinkRequestUnavailable | LinkNotFound | LinkStale | IncidentNotFound
    | IncidentStale | ActivePuuidConflict | InvalidPuuid | PlatformMismatch | ValidatorUnavailable | CreditNotFound
    | CreditStale | CreditSelfAdjustment | CreditInsufficient | CreditUnavailable

  datatype Terminal = Terminal(command: CommandName, outcome: TerminalOutcome, reason: Reason)

  datatype RequestStatus = Pending | Approved(link: Id) | Rejected | Withdrawn

  datatype LinkRequest = LinkRequest(user: Id, status: RequestStatus, version: int)

  datatype Link = Link(user: Id, puuid: string, removed: bool, primary: bool, version: int)

  /** A change an admin command committed, under its operation id. */
  datatype Change = RequestApproved(request: Id, newLink: Id) | RequestRejected(request: Id) | LinkRemoved(oldLink: Id)
                  | CreditAdjusted | IncidentCorrected | IncidentCancelled

  datatype Commit = Commit(operation: Id, change: Change)

  /** `commits` records what was changed, in commit order. */
  datatype Db = Db(operations: set<Id>, results: map<Id, Terminal>, requests: map<Id, LinkRequest>,
                   links: map<Id, Link>,
                   commits: seq<Commit>)

  const EMPTY_DB := Db({}, map[], map[], map[], [])

  function CommandOf(change: Change): CommandName {
    match change
    case RequestApproved(_, _) => Approve
    case RequestRejected(_) => Reject
    case LinkRemoved(_) => RemoveLink
    case CreditAdjusted => AdjustCredit
    case IncidentCorrected => CorrectIncident
    case IncidentCancelled => CancelIncident
  }

  /** What a transaction that claimed its operation comes to: an outcome that changes nothing, or a change. */
  datatype Verdict = Settles(outcome: TerminalOutcome, reason: Reason) | Applies(change: Change)

  function TerminalFor(command: CommandName, verdict: Verdict): Terminal {
    match verdict
    case Settles(outcome, reason) => Terminal(command, outcome, reason)
    case Applies(_) => Terminal(command, Success, Completed)
  }

  // ---- Verdicts ----

  function LinkIdOf(operation: Id): Id {
    "link:" + operation
  }

  predicate PuuidTaken(links: map<Id, Link>, puuid: string) {
    exists l | l in links :: !links[l].removed && links[l].puuid == puuid
  }

  predicate HasActiveLink(links: map<Id, Link>, user: Id) {
    exists l | l in links :: !links[l].removed && links[l].user == user
  }

  function JudgeDecision(db: Db, request: Id, expectedVersion: int): Option<Verdict> {
    if request !in db.requests || !db.requests[request].status.Pending?
    then Some(Settles(Failure, LinkRequestUnavailable))
    else if db.requests[request].version != expectedVersion then Some(Settles(Conflict, LinkRequestStale))
    else None
  }

  function JudgeApproval(db: Db, operation: Id, request: Id, expectedVersion: int, puuid: string): Verdict {
    var refusal := JudgeDecision(db, request, expectedVersion);
    if refusal.Some? then refusal.value
    else if LinkIdOf(operation) in db.links || PuuidTaken(db.links, puuid) then Settles(Conflict, ActivePuuidConflict)
    else Applies(RequestApproved(request, LinkIdOf(operation)))
  }

  function JudgeRejection(db: Db, request: Id, expectedVersion: int): Verdict {
    var refusal := JudgeDecision(db, request, expectedVersion);
    if refusal.Some? then refusal.value else Applies(RequestRejected(request))
  }

  function JudgeRemoval(db: Db, link: Id, expectedVersion: int): Verdict {
    if link !in db.links || db.links[link].removed then Settles(Failure, LinkNotFound)
    else if db.links[link].version != expectedVersion then Settles(Conflict, LinkStale)
    else Applies(LinkRemoved(link))
  }

  // ---- Writing ----

  function Decide(request: LinkRequest, status: RequestStatus): LinkRequest {
    request.(status := status, version := request.version + 1)
  }

  function WriteChange(db: Db, operation: Id, change: Change, puuid: string): Db {
    var logged := db.(commits := db.commits + [Commit(operation, change)]);
    match change
    case RequestApproved(request, link) =>
      if request !in db.requests then logged
      else
        var row := db.requests[request];
        logged.(links := db.links[link := Link(row.user, puuid, false, !HasActiveLink(db.links, row.user), 0)],
                requests := db.requests[request := Decide(row, Approved(link))])
    case RequestRejected(request) =>
      if request !in db.requests then logged
      else logged.(requests := db.requests[request := Decide(db.requests[request], Rejected)])
    case LinkRemoved(link) =>
      if link !in db.links then logged
      else logged.(links := db.links[link := db.links[link].(removed := true, primary := false,
                                                             version := db.links[link].version + 1)])
    case _ => logged
  }

  /** A committed transaction: the claim, the terminal result, and the change if it applies. */
  function Settle(db: Db, operation: Id, command: CommandName, verdict: Verdict, puuid: string): Db {
    var claimed := db.(operations := db.operations + {operation},
                       results := db.results[operation := TerminalFor(command, verdict)]);
    if verdict.Applies? then WriteChange(claimed, operation, verdict.change, puuid) else claimed
  }

  /** The transaction of an admin command; None means the operation id was taken. */
  datatype Attempt = Attempt(db: Db, verdict: Option<Verdict>)

  function Try(db: Db, operation: Id, command: CommandName, verdict: Verdict, puuid: string): Attempt {
    if operation in db.operations then Attempt(db, None)
    else Attempt(Settle(db, operation, command, verdict, puuid), Some(verdict))
  }

  /** Recording an outcome writes nothing when the operation id was taken. */
  function RecordOutcome(db: Db, operation: Id, command: CommandName, outcome: TerminalOutcome, reason: Reason): Db {
    Try(db, operation, command, Settles(outcome, reason), "").db
  }

  // ---- The store object ----

  class AdminStore {
    var operations: set<Id>
    var results: map<Id, Terminal>
    var requests: map<Id, LinkRequest>
    var links: map<Id, Link>
    ghost var commits: seq<Commit>

    ghost function View(): Db
      reads this
    {
      Db(operations, results, requests, links, commits)
    }

    constructor ()
      ensures View() == EMPTY_DB
    {
      operations, results, requests, links := {}, map[], map[], map[];
      commits := [];
    }

    method ClaimOperation(operation: Id) returns (claimed: bool)
      modifies this`operations
      ensures claimed <==> operation !in old(operations)
      ensures operations == old(operations) + {operation}
    {
      claimed := operation !in operations;
      operations := operations + {operation};
    }

    method AppendResult(operation: Id, result: Terminal)
      modifies this`results
      ensures results == old(results)[operation := result]
    {
      results := results[operation := result];
    }

    method ApproveRequest(operation: Id, request: Id, expectedVersion: int, puuid: string)
      returns (verdict: Option<Verdict>)
      modifies this
      ensures Attempt(View(), verdict)
           == Try(old(View()), operation, Approve,
                  JudgeApproval(old(View()), operation, request, expectedVersion, puuid), puuid)
    {
      var claimed := ClaimOperation(operation);
      if !claimed { return None; }
      if request !in requests || !requests[request].status.Pending? {
        AppendResult(operation, Terminal(Approve, Failure, LinkRequestUnavailable));
        return Some(Settles(Failure, LinkRequestUnavailable));
      }
      var row := requests[request];
      if row.version != expectedVersion {
        AppendResult(operation, Terminal(Approve, Conflict, LinkRequestStale));
        return Some(Settles(Conflict, LinkRequestStale));
      }
      var link := LinkIdOf(operation);
      if link in links || PuuidTaken(links, puuid) {
        AppendResult(operation, Terminal(Approve, Conflict, ActivePuuidConflict));
        return Some(Settles(Conflict, ActivePuuidConflict));
      }
      links := links[link := Link(row.user, puuid, false, !HasActiveLink(links, row.user), 0)];
      requests := requests[request := row.(status := Approved(link), version := row.version + 1)];
      commits := commits + [Commit(operation, RequestApproved(request, link))];
      AppendResult(operation, Terminal(Approve, Success, Completed));
      verdict := Some(Applies(RequestApproved(request, link)));
    }

    method RejectRequest(operation: Id, request: Id, expectedVersion: int) returns (verdict: Option<Verdict>)
      modifies this
      ensures Attempt(View(), verdict)
           == Try(old(View()), operation, Reject, JudgeRejection(old(View()), request, expectedVersion), "")
    {
      var claimed := ClaimOperation(operation);
      if !claimed { return None; }
      if request !in requests || !requests[request].status.Pending? {
        AppendResult(operation, Terminal(Reject, Failure, LinkRequestUnavailable));
        return Some(Settles(Failure, LinkRequestUnavailable));
      }
      var row := requests[request];
      if row.version != expectedVersion {
        AppendResult(operation, Terminal(Reject, Conflict, LinkRequestStale));
        return Some(Settles(Conflict, LinkRequestStale));
      }
      requests := requests[request := row.(status := Rejected, version := row.version + 1)];
      commits := commits + [Commit(operation, RequestRejected(request))];
      AppendResult(operation, Terminal(Reject, Success, Completed));
      verdict := Some(Applies(RequestRejected(request)));
    }

    method RemoveActiveLink(operation: Id, link: Id, expectedVersion: int) returns (verdict: Option<Verdict>)
      modifies this
      ensures Attempt(View(), verdict)
           == Try(old(View()), operation, RemoveLink, JudgeRemoval(old(View()), link, expectedVersion), "")
    {
      var claimed := ClaimOperation(operation);
      if !claimed { return None; }
      var judged := if link !in links || links[link].removed then Settles(Failure, LinkNotFound)
                    else if links[link].version != expectedVersion then Settles(Conflict, LinkStale)
                    else Applies(LinkRemoved(link));
      if judged.Applies? {
        links := links[link := links[link].(removed := true, primary := false, version := links[link].version + 1)];
        commits := commits + [Commit(operation, LinkRemoved(link))];
      }
      AppendResult(operation, if judged.Applies? then Terminal(RemoveLink, Success, Completed)
                              else Terminal(RemoveLink, judged.outcome, judged.reason));
      verdict := Some(judged);
    }

    method RecordAdminAudit(operation: Id, command: CommandName, outcome: TerminalOutcome, reason: Reason)
      modifies this
      ensures View() == RecordOutcome(old(View()), operation, command, outcome, reason)
    {
      var claimed := ClaimOperation(operation);
      if claimed {
        AppendResult(operation, Terminal(command, outcome, reason));
      }
    }

    method FindResult(operation: Id) returns (found: Option<Terminal>)
      ensures found == if operation in results then Some(results[operation]) else None
    {
      if operation !in results { return None; }
      found := Some(results[operation]);
    }
  }
}
