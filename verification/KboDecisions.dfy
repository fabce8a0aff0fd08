/** What each store operation decides on a given database: the rows it writes and the outcome it
    reports. Each decision is split the way the transaction is: a goal computed from the rows that
    were read, and its conclusion when the operation id is claimed and the rows are written. */
module KboDecisions {
  import opened Members
  import opened Options
  import opened KboMoney
  import opened KboTables

  datatype SettleInput = SettleInput(operation: Id, settlement: Id, guild: Id, bet: Id, game: Id,
                                     revision: int, authorized: bool)

  datatype PlaceInput = PlaceInput(operation: Id, bet: Id, guild: Id, user: Id, game: Id, authorized: bool,
                                   stake: int, prediction: GameOutcome,
                                   predictedHome: Option<int>, predictedAway: Option<int>, placedAt: int)

  datatype ClaimInput = ClaimInput(operation: Id, claim: Id, guild: Id, user: Id, claimedAt: int)

  datatype AdjustInput = AdjustInput(operation: Id, account: Id, expectedVersion: int, delta: int, administrator: Id)

  datatype EnrollInput = EnrollInput(operation: Id, account: Id, guild: Id, user: Id)

  datatype Outcome =
    | Settled(settlement: Id, payout: Payout, appliedDelta: int, split: Split, revision: int)
    | Placed(bet: Id, game: Id, market: int, day: int)
    | Claimed(day: int, availablePaid: int, debtPaid: int)
    | Adjusted(available: int, version: int)
    | Created
    | Denied(reason: DenialReason)
    | DuplicateOperation
    | Failed

  datatype Decision = Decision(effect: Effect, outcome: Outcome)

  /** What a transaction is about to do once it holds the rows it needs. */
  datatype Goal = Deny(reason: DenialReason) | Write(effect: Effect, outcome: Outcome) | Crash

  function ActiveAccount(db: Db, guild: Id, user: Id): (r: Option<Id>)
    ensures r.Some? ==> r.value in db.accounts
  {
    var member := Member(guild, user);
    if member in db.active && db.active[member] in db.accounts then Some(db.active[member]) else None
  }

  /** Claiming the operation id decides between the goal and a duplicate; the unique keys decide
      between the write and a rollback. */
  function Conclude(db: Db, operation: Id, goal: Goal): Decision {
    match goal
    case Crash => Decision(Keep, Failed)
    case Deny(reason) =>
      if operation in db.operations then Decision(Keep, DuplicateOperation)
      else Decision(Refuse(operation, Refused), Denied(reason))
    case Write(effect, outcome) =>
      if operation in db.operations then Decision(Keep, DuplicateOperation)
      else if Admissible(db, effect) then Decision(effect, outcome)
      else Decision(Keep, Failed)
  }

  // ---- Settlement ----

  /** The outcome a stored settlement reports when its operation is repeated. */
  function SettledOutcome(ledger: seq<Entry>, row: Settlement): Outcome {
    Settled(row.id, row.payout, row.appliedDelta,
            if row.entry.Some? && row.entry.value < |ledger|
            then Split(ledger[row.entry.value].availableDelta, ledger[row.entry.value].debtDelta)
            else Split(0, 0),
            row.revision)
  }

  function BetOwner(bets: seq<Bet>, input: SettleInput): (r: Option<Id>)
    ensures r.Some? ==> FindBet(bets, input.bet).Some? && r.value == bets[FindBet(bets, input.bet).value].account
  {
    match FindBet(bets, input.bet)
    case None => None
    case Some(i) =>
      if bets[i].guild == input.guild && bets[i].game == input.game then Some(bets[i].account) else None
  }

  function SettlementEntry(account: Id, row: Account, split: Split, reason: Reason, operation: Id): Option<Entry> {
    if split == Split(0, 0) then None
    else Some(Entry(account, reason, split.availableDelta, split.debtDelta,
                    row.available, row.available + split.availableDelta,
                    row.debt, row.debt + split.debtDelta, operation))
  }

  /** The writes of a payout: the bet's return moves from its current one to the payout's. */
  function SettlePayout(db: Db, input: SettleInput, account: Id, row: Account, index: nat, payout: Payout): Goal
    requires index < |db.bets|
  {
    var bet := db.bets[index];
    var appliedDelta := payout.returnAmount - CurrentReturn(db.settlements, bet);
    var first := bet.current.None?;
    var voided := payout.result.VoidResult?;
    match AllocateSettlementDelta(row.available, row.debt, appliedDelta, first && voided)
    case None => Crash
    case Some(split) =>
      var reason := if !first then SettlementCorrection else if voided then BetVoidRefund else BetPayout;
      Write(
        PostSettlement(
          index,
          Settlement(input.settlement, input.bet, input.game, input.revision, payout, appliedDelta,
                     input.operation, None, bet.current),
          if voided then Voided else Resolved,
          SettlementEntry(account, row, split, reason, input.operation)),
        Settled(input.settlement, payout, appliedDelta, split, input.revision))
  }

  /** From the game lock on: the rows are the locked account and game, the bet is read now. */
  function SettleLocked(db: Db, input: SettleInput, account: Id, row: Account, game: Game): Goal {
    if game.revision != input.revision then Deny(RevisionNotCurrent)
    else if BetOwner(db.bets, input) != Some(account) then Deny(BetNotFound)
    else
      var index := FindBet(db.bets, input.bet).value;
      var bet := db.bets[index];
      var current := CurrentSettlement(db.settlements, bet);
      if current.Some? && current.value.revision == input.revision then Deny(AlreadySettled)
      else if current.Some? && current.value.revision > input.revision then Deny(RevisionNotNewer)
      else
        match CalculateSettlement(bet.stake, bet.prediction, bet.predictedHome, bet.predictedAway,
                                  game.status, game.homeScore, game.awayScore)
        case Crashed => Crash
        case NotTerminal => Deny(GameNotTerminal)
        case Terminal(payout) => SettlePayout(db, input, account, row, index, payout)
  }

  function SettleGoal(db: Db, input: SettleInput): Goal {
    if !input.authorized then Deny(RightsUnauthorized)
    else
      match BetOwner(db.bets, input)
      case None => Deny(BetNotFound)
      case Some(account) =>
        if account !in db.accounts then Deny(BetNotFound)
        else if input.game !in db.games then Deny(GameDataUnavailable)
        else SettleLocked(db, input, account, db.accounts[account], db.games[input.game])
  }

  function Settle(db: Db, input: SettleInput): Decision {
    if input.revision <= 0 then Decision(Keep, Failed)
    else
      match FindSettlementByOperation(db.settlements, input.operation)
      case Some(row) => Decision(Keep, SettledOutcome(db.ledger, row))
      case None => Conclude(db, input.operation, SettleGoal(db, input))
  }

  // ---- Bet placement ----

  function PlacedOutcome(bet: Bet): Outcome {
    Placed(bet.id, bet.game, bet.market, bet.day)
  }

  function PlaceLocked(db: Db, input: PlaceInput, account: Id, row: Account, game: Game): Goal {
    match EvaluatePlacement(input.placedAt, game.scheduledStart, input.authorized,
                            EvidenceFresh(input.placedAt, game.sourceUpdated, game.collected), game.status,
                            row.available, row.debt, DailyStake(db.bets, account, KstDay(input.placedAt)),
                            input.stake, input.predictedHome, input.predictedAway)
    case InvalidPlacement => Crash
    case PlacementDenied(reason) => Deny(reason)
    case PlacementAccepted(day) =>
      if PendingBetOn(db.bets, input.guild, account, input.game) then Deny(AlreadyBet)
      else
        var bet := Bet(input.bet, input.guild, account, input.game, game.market, input.prediction,
                       input.predictedHome, input.predictedAway, input.stake, day, input.operation, 0, Pending, None);
        var entry := Entry(account, BetStake, -input.stake, 0, row.available, row.available - input.stake,
                           row.debt, row.debt, input.operation);
        Write(PlaceBet(bet, entry), PlacedOutcome(bet))
  }

  function PlaceGoal(db: Db, input: PlaceInput, account: Id): Goal {
    if account !in db.accounts then Deny(NotEnrolled)
    else if input.game !in db.games then Deny(GameDataUnavailable)
    else PlaceLocked(db, input, account, db.accounts[account], db.games[input.game])
  }

  /** Placement once the enrollment of the caller was resolved to an account, or to none. */
  function PlaceAs(db: Db, account: Option<Id>, input: PlaceInput): Decision {
    if !ValidSlip(input.stake, input.predictedHome, input.predictedAway) then Decision(Keep, Failed)
    else
      match account
      case None => Conclude(db, input.operation, Deny(NotEnrolled))
      case Some(id) =>
        match FindBetByOperation(db.bets, id, input.operation)
        case Some(bet) => Decision(Keep, PlacedOutcome(bet))
        case None => Conclude(db, input.operation, PlaceGoal(db, input, id))
  }

  function Place(db: Db, input: PlaceInput): Decision {
    PlaceAs(db, ActiveAccount(db, input.guild, input.user), input)
  }

  // ---- Daily claim ----

  function ClaimedOutcome(ledger: seq<Entry>, claim: Claim): Outcome {
    if claim.entry < |ledger|
    then Claimed(claim.day, ledger[claim.entry].availableDelta, -ledger[claim.entry].debtDelta)
    else Failed
  }

  function ClaimGoal(db: Db, input: ClaimInput, account: Id, row: Account): Goal {
    var day := KstDay(input.claimedAt);
    if ClaimedOn(db.claims, account, day) then Deny(AlreadyClaimed)
    else
      match AllocateDailyCredit(row.debt)
      case None => Crash
      case Some(split) =>
        Write(
          PayClaim(Claim(input.claim, account, day, input.operation, 0),
                   Entry(account, DailyClaim, split.availableDelta, split.debtDelta,
                         row.available, row.available + split.availableDelta,
                         row.debt, row.debt + split.debtDelta, input.operation)),
          Claimed(day, split.availableDelta, -split.debtDelta))
  }

  function ClaimAs(db: Db, account: Option<Id>, input: ClaimInput): Decision {
    match account
    case None => Conclude(db, input.operation, Deny(NotEnrolled))
    case Some(id) =>
      if id !in db.accounts then Conclude(db, input.operation, Deny(NotEnrolled))
      else
        match FindClaimByOperation(db.claims, id, input.operation)
        case Some(claim) => Decision(Keep, ClaimedOutcome(db.ledger, claim))
        case None => Conclude(db, input.operation, ClaimGoal(db, input, id, db.accounts[id]))
  }

  function ClaimDaily(db: Db, input: ClaimInput): Decision {
    ClaimAs(db, ActiveAccount(db, input.guild, input.user), input)
  }

  // ---- Administrator adjustment ----

  /** After the operation id was claimed, on the locked account row. */
  function AdjustLocked(db: Db, input: AdjustInput, row: Account): Goal {
    if Owns(db.active, input.account, input.administrator) then Deny(SelfAdjustment)
    else if row.version > MAX_SAFE_INTEGER || row.version != input.expectedVersion then Deny(StaleVersion)
    else if row.available + input.delta < 0 then Deny(InsufficientBalance)
    else
      Write(
        PostAdjustment(Entry(input.account, AdminAdjustment, input.delta, 0,
                             row.available, row.available + input.delta, row.debt, row.debt, input.operation),
                       row.version + 1),
        Adjusted(row.available + input.delta, row.version + 1))
  }

  /** A refused adjustment keeps its operation row, which was written as accepted. */
  function ConcludeAdjustment(db: Db, operation: Id, goal: Goal): Decision {
    match goal
    case Crash => Decision(Keep, Failed)
    case Deny(reason) => Decision(Refuse(operation, Accepted), Denied(reason))
    case Write(effect, outcome) =>
      if Admissible(db, effect) then Decision(effect, outcome) else Decision(Keep, Failed)
  }

  function AdjustGoal(db: Db, input: AdjustInput): Goal {
    if input.account !in db.accounts then Deny(AccountNotFound)
    else AdjustLocked(db, input, db.accounts[input.account])
  }

  function Adjust(db: Db, input: AdjustInput): Decision {
    if input.operation in db.operations then Decision(Keep, DuplicateOperation)
    else ConcludeAdjustment(db, input.operation, AdjustGoal(db, input))
  }

  // ---- Enrollment and departure ----

  function EnrollGoal(db: Db, input: EnrollInput): Goal {
    var member := Member(input.guild, input.user);
    if member !in db.registered then Deny(NotRegistered)
    else if member in db.active then Deny(AlreadyEnrolled)
    else Write(OpenAccount(input.operation, member, input.account), Created)
  }

  function Enroll(db: Db, input: EnrollInput): Decision {
    Conclude(db, input.operation, EnrollGoal(db, input))
  }

  function Leave(db: Db, operation: Id, member: Member): Decision {
    if member !in db.active then Decision(Keep, Denied(NotEnrolled))
    else if operation in db.operations then Decision(Keep, Failed)
    else Decision(Depart(operation, member), Created)
  }
}
