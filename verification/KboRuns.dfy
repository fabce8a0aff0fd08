/** Runs of atomic operations over the database, and the basic integrity every reachable database
    has: what a decision may write, and that the rows it writes stay grounded in existing rows. */
module KboRuns {
  import opened Members
  import opened Options
  import opened KboMoney
  import opened KboTables
  import opened KboDecisions

  /** One atomic step. Placement and claims name the account the caller's enrollment resolved to;
      Reject is the commit of a denial; game updates, registration and departure come from outside. */
  datatype Action =
    | DoSettle(settle: SettleInput)
    | DoPlace(placeAccount: Option<Id>, place: PlaceInput)
    | DoClaim(claimAccount: Option<Id>, claim: ClaimInput)
    | DoAdjust(adjust: AdjustInput)
    | DoEnroll(enroll: EnrollInput)
    | DoLeave(leaveOperation: Id, leaver: Member)
    | DoReject(operation: Id, verdict: Verdict, reason: DenialReason)
    | DoChangeGame(id: Id, game: Game)
    | DoRegister(member: Member)

  function Decide(db: Db, action: Action): Decision {
    match action
    case DoSettle(input) => Settle(db, input)
    case DoPlace(account, input) => PlaceAs(db, account, input)
    case DoClaim(account, input) => ClaimAs(db, account, input)
    case DoAdjust(input) => Adjust(db, input)
    case DoEnroll(input) => Enroll(db, input)
    case DoLeave(operation, member) => Leave(db, operation, member)
    case DoReject(operation, verdict, reason) =>
      if operation in db.operations then Decision(Keep, DuplicateOperation)
      else Decision(Refuse(operation, verdict), Denied(reason))
    case DoChangeGame(id, game) => Decision(ChangeGame(id, game), Created)
    case DoRegister(member) => Decision(Register(member), Created)
  }

  function Step(db: Db, action: Action): Db {
    Apply(db, Decide(db, action).effect)
  }

  function Run(db: Db, actions: seq<Action>): Db {
    var last := |actions| - 1;
    if last < 0 then db else Step(Run(db, actions[..last]), actions[last])
  }

  // ---- What a write may be ----

  /** The entry records the move of an existing account from its present row to a non-negative one. */
  ghost predicate Explains(db: Db, entry: Entry) {
    && entry.account in db.accounts
    && entry.availableBefore == db.accounts[entry.account].available
    && entry.debtBefore == db.accounts[entry.account].debt
    && entry.availableAfter == entry.availableBefore + entry.availableDelta >= 0
    && entry.debtAfter == entry.debtBefore + entry.debtDelta >= 0
  }

  ghost predicate LegalPosting(db: Db, bet: Bet, row: Settlement, posting: Option<Entry>) {
    match posting
    case None => row.appliedDelta == 0
    case Some(entry) =>
      && Explains(db, entry)
      && entry.account == bet.account && entry.operation == row.operation
      && entry.reason in {BetPayout, BetVoidRefund, SettlementCorrection}
      && AllocateSettlementDelta(entry.availableBefore, entry.debtBefore, row.appliedDelta,
                                 bet.current.None? && row.payout.result.VoidResult?)
         == Some(Split(entry.availableDelta, entry.debtDelta))
  }

  ghost predicate Legal(db: Db, effect: Effect) {
    match effect
    case Keep => true
    case Refuse(operation, _) => operation !in db.operations
    case OpenAccount(operation, _, account) => operation !in db.operations && account !in db.accounts
    case PayClaim(claim, entry) =>
      && Explains(db, entry) && claim.operation !in db.operations
      && entry.account == claim.account && entry.operation == claim.operation && entry.reason.DailyClaim?
      && ServesDebtFirst(entry.availableBefore, entry.debtBefore, DAILY_CREDIT,
                         Split(entry.availableDelta, entry.debtDelta))
      && !ClaimedOn(db.claims, claim.account, claim.day)
    case PlaceBet(bet, entry) =>
      && Explains(db, entry) && bet.operation !in db.operations
      && entry.account == bet.account && entry.operation == bet.operation && entry.reason.BetStake?
      && entry.availableDelta == -bet.stake && entry.debtDelta == 0 && entry.debtBefore == 0
      && 1_000 <= bet.stake <= 50_000 && bet.status.Pending? && bet.current.None?
      && !PendingBetOn(db.bets, bet.guild, bet.account, bet.game)
      && DailyStake(db.bets, bet.account, bet.day) + bet.stake <= DAILY_STAKE_LIMIT
      && (forall i | 0 <= i < |db.bets| :: db.bets[i].id != bet.id)
    case PostSettlement(index, row, status, posting) =>
      && index < |db.bets| && db.bets[index].id == row.bet && db.bets[index].game == row.game
      && db.bets[index].account in db.accounts
      && row.operation !in db.operations
      && (forall i | 0 <= i < |db.settlements| :: db.settlements[i].id != row.id)
      && row.supersedes == db.bets[index].current
      && row.appliedDelta == row.payout.returnAmount - CurrentReturn(db.settlements, db.bets[index])
      && (CurrentSettlement(db.settlements, db.bets[index]).Some?
          ==> row.revision > CurrentSettlement(db.settlements, db.bets[index]).value.revision)
      && status == (if row.payout.result.VoidResult? then Voided else Resolved)
      && row.payout.returnAmount == db.bets[index].stake * row.payout.multiplier
      && 0 <= row.payout.multiplier <= 3 && (row.payout.result.VoidResult? <==> row.payout.multiplier == 1)
      && LegalPosting(db, db.bets[index], row, posting)
    case PostAdjustment(entry, version) =>
      && Explains(db, entry) && entry.operation !in db.operations
      && entry.reason.AdminAdjustment? && entry.debtDelta == 0
      && version == db.accounts[entry.account].version + 1
    case ChangeGame(_, _) => true
    case Register(_) => true
    case Depart(operation, _) => operation !in db.operations
  }

  // ---- Integrity ----

  /** Rows refer to existing rows, ids are unique, and every row's operation was claimed. */
  ghost predicate Grounded(db: Db) {
    && (forall a | a in db.accounts :: db.accounts[a].available >= 0 && db.accounts[a].debt >= 0)
    && (forall i | 0 <= i < |db.ledger| ::
          db.ledger[i].account in db.accounts && db.ledger[i].operation in db.operations)
    && (forall i | 0 <= i < |db.claims| ::
          db.claims[i].account in db.accounts && db.claims[i].operation in db.operations
          && db.claims[i].entry < |db.ledger|)
    && (forall i | 0 <= i < |db.bets| ::
          db.bets[i].account in db.accounts && db.bets[i].operation in db.operations
          && 1_000 <= db.bets[i].stake <= 50_000)
    && (forall i | 0 <= i < |db.settlements| ::
          db.settlements[i].operation in db.operations
          && FindBet(db.bets, db.settlements[i].bet).Some?
          && (db.settlements[i].entry.Some? ==> db.settlements[i].entry.value < |db.ledger|))
    && UniqueBets(db.bets)
    && UniqueSettlements(db.settlements)
  }

  ghost predicate UniqueBets(bets: seq<Bet>) {
    forall i, j | 0 <= i < j < |bets| :: bets[i].id != bets[j].id
  }

  ghost predicate UniqueSettlements(settlements: seq<Settlement>) {
    forall i, j | 0 <= i < j < |settlements| :: settlements[i].id != settlements[j].id
  }

  lemma SettleIsLegal(db: Db, input: SettleInput)
    requires Grounded(db)
    ensures Legal(db, Settle(db, input).effect)
  {
    var decision := Settle(db, input);
    if decision.effect.PostSettlement? {
      var index := FindBet(db.bets, input.bet).value;
      assert 1_000 <= db.bets[index].stake;
    }
  }

  lemma PlaceIsLegal(db: Db, account: Option<Id>, input: PlaceInput)
    requires Grounded(db)
    ensures Legal(db, PlaceAs(db, account, input).effect)
  {
  }

  lemma ClaimIsLegal(db: Db, account: Option<Id>, input: ClaimInput)
    requires Grounded(db)
    ensures Legal(db, ClaimAs(db, account, input).effect)
  {
    if account.Some? && account.value in db.accounts {
      assert db.accounts[account.value].available >= 0;
    }
  }

  lemma AdjustIsLegal(db: Db, input: AdjustInput)
    requires Grounded(db)
    ensures Legal(db, Adjust(db, input).effect)
  {
  }

  lemma DecisionIsLegal(db: Db, action: Action)
    requires Grounded(db)
    ensures Legal(db, Decide(db, action).effect)
  {
    match action
    case DoSettle(input) => SettleIsLegal(db, input);
    case DoPlace(account, input) => PlaceIsLegal(db, account, input);
    case DoClaim(account, input) => ClaimIsLegal(db, account, input);
    case DoAdjust(input) => AdjustIsLegal(db, input);
    case _ =>
  }

  lemma FindBetGrows(bets: seq<Bet>, bet: Bet, id: Id)
    ensures FindBet(bets + [bet], id) == if bet.id == id then Some(|bets|) else FindBet(bets, id)
  {
    assert (bets + [bet])[..|bets|] == bets;
  }

  lemma FindBetStays(bets: seq<Bet>, index: nat, bet: Bet, id: Id)
    requires index < |bets| && bet.id == bets[index].id
    ensures FindBet(bets[index := bet], id) == FindBet(bets, id)
    decreases |bets|
  {
    var last := |bets| - 1;
    if index == last {
      assert bets[index := bet][..last] == bets[..last];
    } else {
      assert bets[index := bet][..last] == bets[..last][index := bet];
      FindBetStays(bets[..last], index, bet, id);
    }
  }

  lemma PlaceBetKeepsGrounded(db: Db, bet: Bet, entry: Entry)
    requires Grounded(db) && Legal(db, PlaceBet(bet, entry))
    ensures Grounded(Apply(db, PlaceBet(bet, entry)))
  {
    var next := Apply(db, PlaceBet(bet, entry));
    forall i | 0 <= i < |db.settlements| ensures FindBet(next.bets, db.settlements[i].bet).Some? {
      FindBetGrows(db.bets, bet.(entry := |db.ledger|), db.settlements[i].bet);
    }
  }

  lemma PostSettlementKeepsRows(db: Db, index: nat, row: Settlement, status: BetStatus, posting: Option<Entry>)
    requires Grounded(db) && Legal(db, PostSettlement(index, row, status, posting))
    ensures var next := Apply(db, PostSettlement(index, row, status, posting));
            && next.accounts.Keys == db.accounts.Keys && next.operations == db.operations[row.operation := Accepted]
            && (forall a | a in next.accounts :: next.accounts[a].available >= 0 && next.accounts[a].debt >= 0)
            && (forall i | 0 <= i < |next.ledger| ::
                  next.ledger[i].account in next.accounts && next.ledger[i].operation in next.operations)
            && (forall i | 0 <= i < |next.bets| ::
                  next.bets[i].account in next.accounts && next.bets[i].operation in next.operations
                  && 1_000 <= next.bets[i].stake <= 50_000)
            && UniqueBets(next.bets)
  {
  }

  lemma PostSettlementKeepsSettlements(db: Db, index: nat, row: Settlement, status: BetStatus, posting: Option<Entry>)
    requires Grounded(db) && Legal(db, PostSettlement(index, row, status, posting))
    ensures var next := Apply(db, PostSettlement(index, row, status, posting));
            && (forall i | 0 <= i < |next.settlements| ::
                  next.settlements[i].operation in next.operations
                  && FindBet(next.bets, next.settlements[i].bet).Some?
                  && (next.settlements[i].entry.Some? ==> next.settlements[i].entry.value < |next.ledger|))
            && UniqueSettlements(next.settlements)
  {
    var next := Apply(db, PostSettlement(index, row, status, posting));
    var bet := db.bets[index].(status := status, current := Some(row.id));
    FindBetExists(db.bets, index);
    forall i | 0 <= i < |next.settlements| ensures FindBet(next.bets, next.settlements[i].bet).Some? {
      FindBetStays(db.bets, index, bet, next.settlements[i].bet);
    }
  }

  lemma {:induction false} FindBetExists(bets: seq<Bet>, index: nat)
    requires index < |bets|
    ensures FindBet(bets, bets[index].id).Some?
    decreases |bets|
  {
    if index < |bets| - 1 {
      FindBetExists(bets[..|bets| - 1], index);
    }
  }

  lemma PostSettlementKeepsGrounded(db: Db, index: nat, row: Settlement, status: BetStatus, posting: Option<Entry>)
    requires Grounded(db) && Legal(db, PostSettlement(index, row, status, posting))
    ensures Grounded(Apply(db, PostSettlement(index, row, status, posting)))
  {
    PostSettlementKeepsRows(db, index, row, status, posting);
    PostSettlementKeepsSettlements(db, index, row, status, posting);
  }

  lemma ApplyKeepsGrounded(db: Db, effect: Effect)
    requires Grounded(db) && Legal(db, effect)
    ensures Grounded(Apply(db, effect))
  {
    match effect
    case PlaceBet(bet, entry) => PlaceBetKeepsGrounded(db, bet, entry);
    case PostSettlement(index, row, status, posting) => PostSettlementKeepsGrounded(db, index, row, status, posting);
    case _ =>
  }

  lemma {:induction false} RunKeepsGrounded(db: Db, actions: seq<Action>)
    requires Grounded(db)
    ensures Grounded(Run(db, actions))
    decreases |actions|
  {
    if |actions| > 0 {
      var before := Run(db, actions[..|actions| - 1]);
      RunKeepsGrounded(db, actions[..|actions| - 1]);
      DecisionIsLegal(before, actions[|actions| - 1]);
      ApplyKeepsGrounded(before, Decide(before, actions[|actions| - 1]).effect);
    }
  }

  /** The last step of a run from the empty database, as a legal write on the run before it. */
  lemma LastStep(actions: seq<Action>) returns (before: Db, effect: Effect)
    requires |actions| > 0
    ensures before == Run(EMPTY_DB, actions[..|actions| - 1])
    ensures effect == Decide(before, actions[|actions| - 1]).effect
    ensures Grounded(before) && Legal(before, effect)
    ensures Run(EMPTY_DB, actions) == Apply(before, effect)
  {
    before := Run(EMPTY_DB, actions[..|actions| - 1]);
    effect := Decide(before, actions[|actions| - 1]).effect;
    RunKeepsGrounded(EMPTY_DB, actions[..|actions| - 1]);
    DecisionIsLegal(before, actions[|actions| - 1]);
  }
}
