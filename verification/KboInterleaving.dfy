/** The stores as concurrent transactions. Each call advances one statement at a time under READ
    COMMITTED: a statement sees only committed rows, row locks are held to the end of the
    transaction, the insert of an operation id waits for any other uncommitted insert of the same
    id, and what a transaction writes becomes visible when it commits. Transactions may stop at any
    statement and roll back. */
module KboInterleaving {
  import opened Members
  import opened Options
  import opened KboMoney
  import opened KboTables
  import opened KboDecisions
  import opened KboRuns
  import opened KboConservation

  datatype Call =
    | SettleCall(settle: SettleInput)
    | PlaceCall(place: PlaceInput)
    | ClaimCall(claim: ClaimInput)
    | AdjustCall(adjust: AdjustInput)
    | EnrollCall(enroll: EnrollInput)

  /** The next statement of a transaction, with the rows it has read so far. */
  datatype Pc =
    | Begin
    | FindOwner
    | LockOwner(owner: Id)
    | Recheck(row: Account)
    | LockGame(gameRow: Account)
    | LockBet(betRow: Account, betGame: Game)
    | LockEnrolled(enrolled: Id)
    | FindExisting(existingRow: Account)
    | Evaluate(policyRow: Account, policyGame: Game)
    | FindToday(todayRow: Account)
    | LockAdjusted
    | FindActive
    | InsertOperation(goal: Goal)
    | Commit(commit: Goal)
    | Done(outcome: Outcome)

  /** A transaction and the locks it holds. */
  datatype Tx = Tx(call: Call, pc: Pc, account: Option<Id>, game: Option<Id>, member: Option<Member>,
                   operation: Option<Id>)

  datatype System = System(db: Db, txs: seq<Tx>)

  datatype Event =
    | Start(call: Call)
    | Advance(tx: nat)
    | Abort(tx: nat)
    | ChangeGameRow(id: Id, game: Game)
    | RegisterMember(member: Member)
    | MemberLeaves(operation: Id, leaver: Member)

  function IdOf(call: Call): Id {
    match call
    case SettleCall(input) => input.operation
    case PlaceCall(input) => input.operation
    case ClaimCall(input) => input.operation
    case AdjustCall(input) => input.operation
    case EnrollCall(input) => input.operation
  }

  function Finish(tx: Tx, outcome: Outcome): Tx {
    Tx(tx.call, Done(outcome), None, None, None, None)
  }

  /** Go on to claim the operation, unless an error was thrown. */
  function Pursue(tx: Tx, goal: Goal): Tx {
    if goal.Crash? then Finish(tx, Failed) else tx.(pc := InsertOperation(goal))
  }

  // ---- Statements, each on the committed database ----

  function SettleStatement(db: Db, tx: Tx, input: SettleInput): Tx {
    match tx.pc
    case Begin =>
      if input.revision <= 0 then Finish(tx, Failed)
      else
        (match FindSettlementByOperation(db.settlements, input.operation)
         case Some(row) => Finish(tx, SettledOutcome(db.ledger, row))
         case None => if input.authorized then tx.(pc := FindOwner) else Pursue(tx, Deny(RightsUnauthorized)))
    case FindOwner =>
      (match BetOwner(db.bets, input)
       case None => Pursue(tx, Deny(BetNotFound))
       case Some(owner) => tx.(pc := LockOwner(owner)))
    case LockOwner(owner) =>
      if owner in db.accounts then tx.(pc := Recheck(db.accounts[owner]), account := Some(owner))
      else Pursue(tx, Deny(BetNotFound))
    case Recheck(row) =>
      (match FindSettlementByOperation(db.settlements, input.operation)
       case Some(settlement) => Finish(tx, SettledOutcome(db.ledger, settlement))
       case None => tx.(pc := LockGame(row)))
    case LockGame(row) =>
      if input.game in db.games then tx.(pc := LockBet(row, db.games[input.game]), game := Some(input.game))
      else Pursue(tx, Deny(GameDataUnavailable))
    case LockBet(row, game) =>
      if tx.account.Some? then Pursue(tx, SettleLocked(db, input, tx.account.value, row, game)) else tx
    case _ => tx
  }

  function PlaceStatement(db: Db, tx: Tx, input: PlaceInput): Tx {
    match tx.pc
    case Begin =>
      if !ValidSlip(input.stake, input.predictedHome, input.predictedAway) then Finish(tx, Failed)
      else
        (match ActiveAccount(db, input.guild, input.user)
         case None => Pursue(tx, Deny(NotEnrolled))
         case Some(id) => tx.(pc := LockEnrolled(id)))
    case LockEnrolled(id) =>
      if id in db.accounts then tx.(pc := FindExisting(db.accounts[id]), account := Some(id))
      else Pursue(tx, Deny(NotEnrolled))
    case FindExisting(row) =>
      if tx.account.None? then tx
      else
        (match FindBetByOperation(db.bets, tx.account.value, input.operation)
         case Some(bet) => Finish(tx, PlacedOutcome(bet))
         case None => tx.(pc := LockGame(row)))
    case LockGame(row) =>
      if input.game in db.games then tx.(pc := Evaluate(row, db.games[input.game]), game := Some(input.game))
      else Pursue(tx, Deny(GameDataUnavailable))
    case Evaluate(row, game) =>
      if tx.account.Some? then Pursue(tx, PlaceLocked(db, input, tx.account.value, row, game)) else tx
    case _ => tx
  }

  function ClaimStatement(db: Db, tx: Tx, input: ClaimInput): Tx {
    match tx.pc
    case Begin =>
      (match ActiveAccount(db, input.guild, input.user)
       case None => Pursue(tx, Deny(NotEnrolled))
       case Some(id) => tx.(pc := LockEnrolled(id)))
    case LockEnrolled(id) =>
      if id in db.accounts then tx.(pc := FindExisting(db.accounts[id]), account := Some(id))
      else Pursue(tx, Deny(NotEnrolled))
    case FindExisting(row) =>
      if tx.account.None? then tx
      else
        (match FindClaimByOperation(db.claims, tx.account.value, input.operation)
         case Some(claim) => Finish(tx, ClaimedOutcome(db.ledger, claim))
         case None => tx.(pc := FindToday(row)))
    case FindToday(row) =>
      if tx.account.Some? then Pursue(tx, ClaimGoal(db, input, tx.account.value, row)) else tx
    case _ => tx
  }

  function AdjustStatement(db: Db, tx: Tx, input: AdjustInput): Tx {
    match tx.pc
    case Begin =>
      if input.operation in db.operations then Finish(tx, DuplicateOperation)
      else tx.(pc := LockAdjusted, operation := Some(input.operation))
    case LockAdjusted =>
      if input.account in db.accounts then
        tx.(pc := Commit(AdjustLocked(db, input, db.accounts[input.account])), account := Some(input.account))
      else tx.(pc := Commit(Deny(AccountNotFound)))
    case _ => tx
  }

  function EnrollStatement(db: Db, tx: Tx, input: EnrollInput): Tx {
    match tx.pc
    case Begin =>
      if Member(input.guild, input.user) in db.registered
      then tx.(pc := FindActive, member := Some(Member(input.guild, input.user)))
      else Pursue(tx, Deny(NotRegistered))
    case FindActive => Pursue(tx, EnrollGoal(db, input))
    case _ => tx
  }

  /** What a repeated operation reports when its id turns out to be taken at the last moment. */
  function LateDuplicate(db: Db, tx: Tx, goal: Goal): Outcome {
    if goal.Deny? then DuplicateOperation
    else
      match tx.call
      case SettleCall(input) =>
        (match FindSettlementByOperation(db.settlements, input.operation)
         case Some(row) => SettledOutcome(db.ledger, row)
         case None => DuplicateOperation)
      case PlaceCall(input) =>
        if tx.account.None? then DuplicateOperation
        else
          (match FindBetByOperation(db.bets, tx.account.value, input.operation)
           case Some(bet) => PlacedOutcome(bet)
           case None => DuplicateOperation)
      case ClaimCall(input) =>
        if tx.account.None? then DuplicateOperation
        else
          (match FindClaimByOperation(db.claims, tx.account.value, input.operation)
           case Some(claim) => ClaimedOutcome(db.ledger, claim)
           case None => DuplicateOperation)
      case _ => DuplicateOperation
  }

  function Statement(db: Db, tx: Tx): Tx {
    match tx.pc
    case InsertOperation(goal) =>
      if IdOf(tx.call) in db.operations then Finish(tx, LateDuplicate(db, tx, goal))
      else tx.(pc := Commit(goal), operation := Some(IdOf(tx.call)))
    case _ =>
      match tx.call
      case SettleCall(input) => SettleStatement(db, tx, input)
      case PlaceCall(input) => PlaceStatement(db, tx, input)
      case ClaimCall(input) => ClaimStatement(db, tx, input)
      case AdjustCall(input) => AdjustStatement(db, tx, input)
      case EnrollCall(input) => EnrollStatement(db, tx, input)
  }

  /** The rows the transaction has prepared, checked against the unique keys. */
  function CommitDecision(db: Db, call: Call, goal: Goal): Decision {
    match goal
    case Deny(reason) => Decision(Refuse(IdOf(call), if call.AdjustCall? then Accepted else Refused), Denied(reason))
    case Write(effect, outcome) => if Admissible(db, effect) then Decision(effect, outcome) else Decision(Keep, Failed)
    case Crash => Decision(Keep, Failed)
  }

  // ---- Locks ----

  /** The lock or uncommitted insert the next statement must wait for. */
  datatype Wait =
    | NoWait
    | ForAccount(account: Id)
    | ForGame(game: Id)
    | ForMember(member: Member)
    | ForOperation(operation: Id)

  function NextWait(tx: Tx): Wait {
    match tx.pc
    case Begin =>
      (match tx.call
       case AdjustCall(input) => ForOperation(input.operation)
       case EnrollCall(input) => ForMember(Member(input.guild, input.user))
       case _ => NoWait)
    case LockOwner(owner) => ForAccount(owner)
    case LockEnrolled(id) => ForAccount(id)
    case LockAdjusted => if tx.call.AdjustCall? then ForAccount(tx.call.adjust.account) else NoWait
    case LockGame(_) =>
      (match tx.call
       case SettleCall(input) => ForGame(input.game)
       case PlaceCall(input) => ForGame(input.game)
       case _ => NoWait)
    case InsertOperation(_) => ForOperation(IdOf(tx.call))
    case _ => NoWait
  }

  predicate Holds(tx: Tx, wait: Wait) {
    match wait
    case NoWait => false
    case ForAccount(id) => tx.account == Some(id)
    case ForGame(id) => tx.game == Some(id)
    case ForMember(member) => tx.member == Some(member)
    case ForOperation(id) => tx.operation == Some(id)
  }

  predicate HeldByOther(txs: seq<Tx>, self: nat, wait: Wait) {
    exists j | 0 <= j < |txs| :: j != self && Holds(txs[j], wait)
  }

  predicate HeldByAny(txs: seq<Tx>, wait: Wait) {
    exists j | 0 <= j < |txs| :: Holds(txs[j], wait)
  }

  // ---- Steps ----

  function Next(sys: System, event: Event): System {
    match event
    case Start(call) => sys.(txs := sys.txs + [Tx(call, Begin, None, None, None, None)])
    case Advance(i) =>
      if i >= |sys.txs| || HeldByOther(sys.txs, i, NextWait(sys.txs[i])) then sys
      else
        var tx := sys.txs[i];
        if tx.pc.Commit? then
          var decision := CommitDecision(sys.db, tx.call, tx.pc.commit);
          System(Apply(sys.db, decision.effect), sys.txs[i := Finish(tx, decision.outcome)])
        else sys.(txs := sys.txs[i := Statement(sys.db, tx)])
    case Abort(i) =>
      if i >= |sys.txs| || sys.txs[i].pc.Done? then sys
      else sys.(txs := sys.txs[i := Finish(sys.txs[i], Failed)])
    case ChangeGameRow(id, game) =>
      if HeldByAny(sys.txs, ForGame(id)) then sys else sys.(db := Step(sys.db, DoChangeGame(id, game)))
    case RegisterMember(member) => sys.(db := Step(sys.db, DoRegister(member)))
    case MemberLeaves(operation, member) =>
      if HeldByAny(sys.txs, ForOperation(operation)) then sys
      else sys.(db := Step(sys.db, DoLeave(operation, member)))
  }

  function Exec(events: seq<Event>): System {
    var last := |events| - 1;
    if last < 0 then System(EMPTY_DB, []) else Next(Exec(events[..last]), events[last])
  }

  // ---- What a transaction knows ----

  /** The write it is about to make is the one the committed rows call for. */
  ghost predicate CurrentWrite(db: Db, tx: Tx, goal: Goal) {
    match tx.call
    case SettleCall(input) =>
      && input.revision > 0 && input.authorized && tx.account.Some? && tx.account == BetOwner(db.bets, input)
      && tx.account.value in db.accounts && tx.game == Some(input.game) && input.game in db.games
      && goal == SettleLocked(db, input, tx.account.value, db.accounts[tx.account.value], db.games[input.game])
    case PlaceCall(input) =>
      && ValidSlip(input.stake, input.predictedHome, input.predictedAway)
      && tx.account.Some? && tx.account.value in db.accounts && tx.game == Some(input.game) && input.game in db.games
      && goal == PlaceLocked(db, input, tx.account.value, db.accounts[tx.account.value], db.games[input.game])
    case ClaimCall(input) =>
      && tx.account.Some? && tx.account.value in db.accounts
      && goal == ClaimGoal(db, input, tx.account.value, db.accounts[tx.account.value])
    case AdjustCall(input) =>
      && tx.account == Some(input.account) && input.account in db.accounts
      && goal == AdjustLocked(db, input, db.accounts[input.account])
    case EnrollCall(input) =>
      tx.member == Some(Member(input.guild, input.user)) && goal == EnrollGoal(db, input)
  }

  ghost predicate ReadAccount(db: Db, tx: Tx, row: Account) {
    tx.account.Some? && tx.account.value in db.accounts && db.accounts[tx.account.value] == row
  }

  ghost predicate SettlesOwned(db: Db, tx: Tx, owner: Option<Id>) {
    tx.call.SettleCall? && tx.call.settle.revision > 0 && tx.call.settle.authorized
    && owner.Some? && owner == BetOwner(db.bets, tx.call.settle)
  }

  ghost predicate Slipped(tx: Tx) {
    tx.call.PlaceCall? ==> ValidSlip(tx.call.place.stake, tx.call.place.predictedHome, tx.call.place.predictedAway)
  }

  /** Locked rows exist, and an inserted operation id is not yet committed. */
  ghost predicate LocksStand(db: Db, tx: Tx) {
    && (tx.account.Some? ==> tx.account.value in db.accounts)
    && (tx.game.Some? ==> tx.game.value in db.games)
    && (tx.operation.Some? ==> tx.operation.value !in db.operations && tx.operation == Some(IdOf(tx.call)))
  }

  ghost predicate ReadGame(db: Db, tx: Tx, id: Id, game: Game) {
    tx.game == Some(id) && id in db.games && db.games[id] == game
  }

  /** Rows read under a lock are still the committed rows. */
  ghost predicate ReadsStand(db: Db, tx: Tx) {
    match tx.pc
    case Begin => tx.account.None?
    case FindOwner => tx.call.SettleCall? && tx.call.settle.revision > 0 && tx.call.settle.authorized
    case LockOwner(owner) => SettlesOwned(db, tx, Some(owner))
    case Recheck(row) => SettlesOwned(db, tx, tx.account) && ReadAccount(db, tx, row)
    case LockGame(row) =>
      ReadAccount(db, tx, row) && Slipped(tx) && (tx.call.PlaceCall? || SettlesOwned(db, tx, tx.account))
    case LockBet(row, game) =>
      SettlesOwned(db, tx, tx.account) && ReadAccount(db, tx, row) && ReadGame(db, tx, tx.call.settle.game, game)
    case LockEnrolled(id) =>
      id in db.accounts && tx.account.None? && (tx.call.PlaceCall? || tx.call.ClaimCall?) && Slipped(tx)
    case FindExisting(row) => ReadAccount(db, tx, row) && (tx.call.PlaceCall? || tx.call.ClaimCall?) && Slipped(tx)
    case Evaluate(row, game) =>
      ReadAccount(db, tx, row) && tx.call.PlaceCall? && Slipped(tx) && ReadGame(db, tx, tx.call.place.game, game)
    case FindToday(row) => ReadAccount(db, tx, row) && tx.call.ClaimCall?
    case LockAdjusted => tx.call.AdjustCall? && tx.operation.Some?
    case FindActive => tx.call.EnrollCall? && tx.member == Some(Member(tx.call.enroll.guild, tx.call.enroll.user))
    case InsertOperation(goal) => !goal.Crash? && !tx.call.AdjustCall? && (goal.Write? ==> CurrentWrite(db, tx, goal))
    case Commit(goal) => tx.operation.Some? && !goal.Crash? && (goal.Write? ==> CurrentWrite(db, tx, goal))
    case Done(_) => true
  }

  ghost predicate UpToDate(db: Db, tx: Tx) {
    LocksStand(db, tx) && ReadsStand(db, tx)
  }

  ghost predicate Exclusive(txs: seq<Tx>) {
    forall i, j | 0 <= i < |txs| && 0 <= j < |txs| && i != j ::
      && (txs[i].account.Some? ==> txs[i].account != txs[j].account)
      && (txs[i].game.Some? ==> txs[i].game != txs[j].game)
      && (txs[i].member.Some? ==> txs[i].member != txs[j].member)
      && (txs[i].operation.Some? ==> txs[i].operation != txs[j].operation)
  }

  ghost predicate Consistent(sys: System) {
    && Grounded(sys.db) && Pointed(sys.db) && Exclusive(sys.txs)
    && forall i | 0 <= i < |sys.txs| :: UpToDate(sys.db, sys.txs[i])
  }
}
