/** What a transaction has read stays what the committed rows say: other commits do not age it, and its
    own statements read no more than they lock. */
module KboUpToDate {
  import opened Options
  import opened KboMoney
  import opened KboTables
  import opened KboDecisions
  import opened KboRuns
  import opened KboConservation
  import opened KboOnce
  import opened KboLimits
  import opened KboInterleaving

  // ---- What a write leaves alone ----

  function TouchedAccount(db: Db, effect: Effect): Option<Id> {
    match effect
    case OpenAccount(_, _, account) => Some(account)
    case PayClaim(claim, _) => Some(claim.account)
    case PlaceBet(bet, _) => Some(bet.account)
    case PostSettlement(index, _, _, _) => if index < |db.bets| then Some(db.bets[index].account) else None
    case PostAdjustment(entry, _) => Some(entry.account)
    case _ => None
  }

  lemma AccountStays(db: Db, effect: Effect, account: Id)
    requires Legal(db, effect) && account in db.accounts && TouchedAccount(db, effect) != Some(account)
    ensures account in Apply(db, effect).accounts && Apply(db, effect).accounts[account] == db.accounts[account]
  {
  }

  lemma AccountExists(db: Db, effect: Effect, account: Id)
    requires account in db.accounts
    ensures account in Apply(db, effect).accounts
  {
  }

  lemma BetOwnerStays(db: Db, effect: Effect, input: SettleInput)
    requires Legal(db, effect) && BetOwner(db.bets, input).Some?
    ensures BetOwner(Apply(db, effect).bets, input) == BetOwner(db.bets, input)
    ensures FindBet(Apply(db, effect).bets, input.bet) == FindBet(db.bets, input.bet)
  {
    var next := Apply(db, effect);
    match effect
    case PlaceBet(bet, _) =>
      FindBetGrows(db.bets, bet.(entry := |db.ledger|), input.bet);
    case PostSettlement(index, _, _, _) =>
      FindBetStays(db.bets, index, next.bets[index], input.bet);
    case _ =>
  }

  lemma SettleLockedReadsBet(db: Db, next: Db, input: SettleInput, account: Id, row: Account, game: Game)
    requires BetOwner(db.bets, input) == Some(account) == BetOwner(next.bets, input)
    requires FindBet(next.bets, input.bet) == FindBet(db.bets, input.bet)
    requires var index := FindBet(db.bets, input.bet).value;
             && next.bets[index] == db.bets[index]
             && CurrentSettlement(next.settlements, db.bets[index]) == CurrentSettlement(db.settlements, db.bets[index])
    ensures SettleLocked(next, input, account, row, game) == SettleLocked(db, input, account, row, game)
  {
  }

  lemma CurrentSettlementStays(db: Db, effect: Effect, bet: Bet)
    requires Legal(db, effect)
    requires bet.current.Some? ==> CurrentSettlement(db.settlements, bet).Some?
    ensures CurrentSettlement(Apply(db, effect).settlements, bet) == CurrentSettlement(db.settlements, bet)
  {
    if effect.PostSettlement? {
      FindSettlementGrows(db.settlements, Apply(db, effect).settlements[|db.settlements|], bet);
    }
  }

  lemma BetRowStays(db: Db, effect: Effect, index: nat)
    requires Legal(db, effect) && index < |db.bets| && TouchedAccount(db, effect) != Some(db.bets[index].account)
    ensures index < |Apply(db, effect).bets| && Apply(db, effect).bets[index] == db.bets[index]
  {
  }

  lemma SettleLockedStays(db: Db, effect: Effect, input: SettleInput, account: Id, row: Account, game: Game)
    requires Pointed(db) && Legal(db, effect)
    requires BetOwner(db.bets, input) == Some(account) && TouchedAccount(db, effect) != Some(account)
    ensures SettleLocked(Apply(db, effect), input, account, row, game) == SettleLocked(db, input, account, row, game)
  {
    var index := FindBet(db.bets, input.bet).value;
    BetOwnerStays(db, effect, input);
    BetRowStays(db, effect, index);
    CurrentSettlementStays(db, effect, db.bets[index]);
    SettleLockedReadsBet(db, Apply(db, effect), input, account, row, game);
  }

  lemma PlaceLockedReads(db: Db, next: Db, input: PlaceInput, account: Id, row: Account, game: Game)
    requires DailyStake(next.bets, account, KstDay(input.placedAt))
        == DailyStake(db.bets, account, KstDay(input.placedAt))
    requires PendingBetOn(next.bets, input.guild, account, input.game)
        == PendingBetOn(db.bets, input.guild, account, input.game)
    ensures PlaceLocked(next, input, account, row, game) == PlaceLocked(db, input, account, row, game)
  {
  }

  lemma PlaceLockedStays(db: Db, effect: Effect, input: PlaceInput, account: Id, row: Account, game: Game)
    requires Legal(db, effect) && TouchedAccount(db, effect) != Some(account)
    ensures PlaceLocked(Apply(db, effect), input, account, row, game) == PlaceLocked(db, input, account, row, game)
  {
    var next := Apply(db, effect);
    StakesStay(db, effect, account, KstDay(input.placedAt), input.guild, input.game);
    PlaceLockedReads(db, next, input, account, row, game);
  }

  lemma StakesStay(db: Db, effect: Effect, account: Id, day: int, guild: Id, game: Id)
    requires Legal(db, effect) && TouchedAccount(db, effect) != Some(account)
    ensures DailyStake(Apply(db, effect).bets, account, day) == DailyStake(db.bets, account, day)
    ensures PendingBetOn(Apply(db, effect).bets, guild, account, game) == PendingBetOn(db.bets, guild, account, game)
  {
    var next := Apply(db, effect);
    match effect
    case PlaceBet(bet, _) =>
      DailyStakeGrows(db.bets, bet.(entry := |db.ledger|), account, day);
      PendingStays(db.bets, next.bets, guild, account, game);
    case PostSettlement(index, _, _, _) =>
      DailyStakeUpdates(db.bets, index, next.bets[index], account, day);
      PendingStays(db.bets, next.bets, guild, account, game);
    case _ =>
  }

  lemma PendingStays(bets: seq<Bet>, next: seq<Bet>, guild: Id, account: Id, game: Id)
    requires |bets| <= |next|
    requires forall i | 0 <= i < |bets| ::
               next[i] == bets[i] || (next[i].account != account && bets[i].account != account)
    requires forall i | |bets| <= i < |next| :: next[i].account != account
    ensures PendingBetOn(next, guild, account, game) == PendingBetOn(bets, guild, account, game)
  {
    if PendingBetOn(bets, guild, account, game) {
      var i :| 0 <= i < |bets| && bets[i].guild == guild && bets[i].account == account && bets[i].game == game
          && bets[i].status.Pending?;
      assert next[i] == bets[i];
    }
  }

  lemma ClaimGoalStays(db: Db, effect: Effect, input: ClaimInput, account: Id, row: Account)
    requires Legal(db, effect) && TouchedAccount(db, effect) != Some(account)
    ensures ClaimGoal(Apply(db, effect), input, account, row) == ClaimGoal(db, input, account, row)
  {
    var next := Apply(db, effect);
    var day := KstDay(input.claimedAt);
    if ClaimedOn(db.claims, account, day) {
      var i :| 0 <= i < |db.claims| && db.claims[i].account == account && db.claims[i].day == day;
      assert next.claims[i] == db.claims[i];
    }
    assert ClaimedOn(next.claims, account, day) == ClaimedOn(db.claims, account, day);
  }

  /** A write by someone else: it holds neither of the rows this transaction locked, nor its id. */
  ghost predicate Spares(db: Db, effect: Effect, tx: Tx) {
    && Legal(db, effect)
    && (tx.account.Some? ==> TouchedAccount(db, effect) != tx.account)
    && (effect.ChangeGame? ==> tx.game != Some(effect.id))
    && (effect.OpenAccount? ==> tx.member != Some(effect.member))
    && (OperationOf(effect).Some? ==> tx.operation != OperationOf(effect))
  }

  lemma GamesStay(db: Db, effect: Effect, id: Id)
    requires id in db.games && !(effect.ChangeGame? && effect.id == id)
    ensures id in Apply(db, effect).games && Apply(db, effect).games[id] == db.games[id]
  {
  }

  lemma AdjustLockedStays(db: Db, effect: Effect, input: AdjustInput, row: Account)
    requires Legal(db, effect) && input.account in db.accounts
    requires AdjustLocked(db, input, row).Write?
    ensures AdjustLocked(Apply(db, effect), input, row) == AdjustLocked(db, input, row)
  {
    var next := Apply(db, effect);
    assert forall member | member in next.active && next.active[member] == input.account ::
      member in db.active && db.active[member] == input.account;
  }

  lemma SettleWriteStays(db: Db, effect: Effect, tx: Tx, goal: Goal)
    requires Pointed(db) && Spares(db, effect, tx) && tx.call.SettleCall? && CurrentWrite(db, tx, goal)
    ensures CurrentWrite(Apply(db, effect), tx, goal)
  {
    var input := tx.call.settle;
    AccountStays(db, effect, tx.account.value);
    BetOwnerStays(db, effect, input);
    GamesStay(db, effect, input.game);
    SettleLockedStays(db, effect, input, tx.account.value, db.accounts[tx.account.value], db.games[input.game]);
  }

  lemma PlaceWriteStays(db: Db, effect: Effect, tx: Tx, goal: Goal)
    requires Spares(db, effect, tx) && tx.call.PlaceCall? && CurrentWrite(db, tx, goal)
    ensures CurrentWrite(Apply(db, effect), tx, goal)
  {
    var input := tx.call.place;
    AccountStays(db, effect, tx.account.value);
    GamesStay(db, effect, input.game);
    PlaceLockedStays(db, effect, input, tx.account.value, db.accounts[tx.account.value], db.games[input.game]);
  }

  lemma ClaimWriteStays(db: Db, effect: Effect, tx: Tx, goal: Goal)
    requires Spares(db, effect, tx) && tx.call.ClaimCall? && CurrentWrite(db, tx, goal)
    ensures CurrentWrite(Apply(db, effect), tx, goal)
  {
    AccountStays(db, effect, tx.account.value);
    ClaimGoalStays(db, effect, tx.call.claim, tx.account.value, db.accounts[tx.account.value]);
  }

  lemma AdjustWriteStays(db: Db, effect: Effect, tx: Tx, goal: Goal)
    requires Spares(db, effect, tx) && tx.call.AdjustCall? && goal.Write? && CurrentWrite(db, tx, goal)
    ensures CurrentWrite(Apply(db, effect), tx, goal)
  {
    var input := tx.call.adjust;
    AccountStays(db, effect, input.account);
    AdjustLockedStays(db, effect, input, db.accounts[input.account]);
  }

  lemma EnrollWriteStays(db: Db, effect: Effect, tx: Tx, goal: Goal)
    requires Grounded(db) && Spares(db, effect, tx) && tx.call.EnrollCall? && goal.Write? && CurrentWrite(db, tx, goal)
    ensures CurrentWrite(Apply(db, effect), tx, goal)
  {
  }

  lemma CurrentWriteStays(db: Db, effect: Effect, tx: Tx, goal: Goal)
    requires Grounded(db) && Pointed(db) && Spares(db, effect, tx)
    requires goal.Write? && CurrentWrite(db, tx, goal)
    ensures CurrentWrite(Apply(db, effect), tx, goal)
  {
    match tx.call
    case SettleCall(_) => SettleWriteStays(db, effect, tx, goal);
    case PlaceCall(_) => PlaceWriteStays(db, effect, tx, goal);
    case ClaimCall(_) => ClaimWriteStays(db, effect, tx, goal);
    case AdjustCall(_) => AdjustWriteStays(db, effect, tx, goal);
    case EnrollCall(_) => EnrollWriteStays(db, effect, tx, goal);
  }

  lemma LocksStillStand(db: Db, effect: Effect, tx: Tx)
    requires LocksStand(db, tx) && Spares(db, effect, tx)
    ensures LocksStand(Apply(db, effect), tx)
    ensures tx.account.Some? ==> Apply(db, effect).accounts[tx.account.value] == db.accounts[tx.account.value]
    ensures tx.game.Some? ==> Apply(db, effect).games[tx.game.value] == db.games[tx.game.value]
  {
    if tx.account.Some? {
      AccountStays(db, effect, tx.account.value);
    }
    if tx.game.Some? {
      GamesStay(db, effect, tx.game.value);
    }
    ApplyClaimsId(db, effect);
  }

  lemma OwnedStays(db: Db, effect: Effect, tx: Tx, owner: Option<Id>)
    requires Legal(db, effect) && SettlesOwned(db, tx, owner)
    ensures SettlesOwned(Apply(db, effect), tx, owner)
  {
    BetOwnerStays(db, effect, tx.call.settle);
  }

  lemma ReadAccountStays(db: Db, effect: Effect, tx: Tx, row: Account)
    requires Spares(db, effect, tx) && ReadAccount(db, tx, row)
    ensures ReadAccount(Apply(db, effect), tx, row)
  {
    AccountStays(db, effect, tx.account.value);
  }

  lemma ReadGameStays(db: Db, effect: Effect, tx: Tx, id: Id, game: Game)
    requires Spares(db, effect, tx) && ReadGame(db, tx, id, game)
    ensures ReadGame(Apply(db, effect), tx, id, game)
  {
    GamesStay(db, effect, id);
  }

  /** Of a settlement: the owner of the bet, its row and the game. */
  lemma SettleReadsStay(db: Db, effect: Effect, tx: Tx)
    requires Spares(db, effect, tx) && ReadsStand(db, tx) && tx.call.SettleCall?
    requires tx.pc.LockOwner? || tx.pc.Recheck? || tx.pc.LockGame? || tx.pc.LockBet?
    ensures ReadsStand(Apply(db, effect), tx)
  {
    OwnedStays(db, effect, tx, BetOwner(db.bets, tx.call.settle));
    match tx.pc
    case LockOwner(_) =>
    case Recheck(row) => ReadAccountStays(db, effect, tx, row);
    case LockGame(row) => ReadAccountStays(db, effect, tx, row);
    case LockBet(row, game) =>
      ReadAccountStays(db, effect, tx, row);
      ReadGameStays(db, effect, tx, tx.call.settle.game, game);
  }

  /** Of a placement or claim: the enrolled account, its row and the game. */
  lemma RowReadsStay(db: Db, effect: Effect, tx: Tx)
    requires Spares(db, effect, tx) && ReadsStand(db, tx) && !tx.call.SettleCall?
    requires tx.pc.LockEnrolled? || tx.pc.LockGame? || tx.pc.FindExisting? || tx.pc.Evaluate? || tx.pc.FindToday?
    ensures ReadsStand(Apply(db, effect), tx)
  {
    match tx.pc
    case LockEnrolled(id) => AccountExists(db, effect, id);
    case LockGame(row) => ReadAccountStays(db, effect, tx, row);
    case FindExisting(row) => ReadAccountStays(db, effect, tx, row);
    case FindToday(row) => ReadAccountStays(db, effect, tx, row);
    case Evaluate(row, game) =>
      ReadAccountStays(db, effect, tx, row);
      ReadGameStays(db, effect, tx, tx.call.place.game, game);
  }

  /** Of any call: the write it is about to make. */
  lemma GoalStays(db: Db, effect: Effect, tx: Tx)
    requires Grounded(db) && Pointed(db) && Spares(db, effect, tx) && ReadsStand(db, tx)
    requires tx.pc.InsertOperation? || tx.pc.Commit?
    ensures ReadsStand(Apply(db, effect), tx)
  {
    var goal := if tx.pc.Commit? then tx.pc.commit else tx.pc.goal;
    if goal.Write? {
      CurrentWriteStays(db, effect, tx, goal);
    }
  }

  /** What others write does not age what a transaction has read. */
  lemma SparedStaysUpToDate(db: Db, effect: Effect, tx: Tx)
    requires Grounded(db) && Pointed(db) && UpToDate(db, tx) && Spares(db, effect, tx)
    ensures UpToDate(Apply(db, effect), tx)
  {
    LocksStillStand(db, effect, tx);
    if tx.pc.InsertOperation? || tx.pc.Commit? {
      GoalStays(db, effect, tx);
    } else if tx.pc.LockOwner? || tx.pc.Recheck? || tx.pc.LockGame? || tx.pc.LockBet? {
      if tx.call.SettleCall? {
        SettleReadsStay(db, effect, tx);
      } else {
        RowReadsStay(db, effect, tx);
      }
    } else if tx.pc.LockEnrolled? || tx.pc.FindExisting? || tx.pc.Evaluate? || tx.pc.FindToday? {
      RowReadsStay(db, effect, tx);
    }
  }

  // ---- Own statements ----

  lemma PursueUpToDate(db: Db, tx: Tx, goal: Goal)
    requires LocksStand(db, tx) && !tx.call.AdjustCall? && (goal.Write? ==> CurrentWrite(db, tx, goal))
    ensures UpToDate(db, Pursue(tx, goal))
  {
  }

  lemma SettleStartUpToDate(db: Db, tx: Tx)
    requires UpToDate(db, tx) && tx.call.SettleCall? && (tx.pc.Begin? || tx.pc.FindOwner?)
    ensures UpToDate(db, SettleStatement(db, tx, tx.call.settle))
  {
    PursueUpToDate(db, tx, Deny(RightsUnauthorized));
    PursueUpToDate(db, tx, Deny(BetNotFound));
  }

  lemma SettleRowsUpToDate(db: Db, tx: Tx)
    requires UpToDate(db, tx) && tx.call.SettleCall? && (tx.pc.LockOwner? || tx.pc.Recheck? || tx.pc.LockGame?)
    ensures UpToDate(db, SettleStatement(db, tx, tx.call.settle))
  {
    PursueUpToDate(db, tx, Deny(GameDataUnavailable));
    PursueUpToDate(db, tx, Deny(BetNotFound));
  }

  lemma LockBetUpToDate(db: Db, tx: Tx, input: SettleInput, goal: Goal)
    requires UpToDate(db, tx) && tx.call == SettleCall(input) && tx.pc.LockBet?
    requires goal == SettleLocked(db, input, tx.account.value, tx.pc.betRow, tx.pc.betGame)
    ensures UpToDate(db, Pursue(tx, goal))
  {
    PursueUpToDate(db, tx, goal);
  }

  lemma EvaluateUpToDate(db: Db, tx: Tx, input: PlaceInput, goal: Goal)
    requires UpToDate(db, tx) && tx.call == PlaceCall(input) && tx.pc.Evaluate?
    requires goal == PlaceLocked(db, input, tx.account.value, tx.pc.policyRow, tx.pc.policyGame)
    ensures UpToDate(db, Pursue(tx, goal))
  {
    PursueUpToDate(db, tx, goal);
  }

  lemma PlaceRowsUpToDate(db: Db, tx: Tx, input: PlaceInput)
    requires UpToDate(db, tx) && tx.call == PlaceCall(input)
    requires tx.pc.Begin? || tx.pc.LockEnrolled? || tx.pc.FindExisting? || tx.pc.LockGame?
    ensures UpToDate(db, PlaceStatement(db, tx, input))
  {
    PursueUpToDate(db, tx, Deny(NotEnrolled));
    PursueUpToDate(db, tx, Deny(GameDataUnavailable));
  }

  lemma PlaceStatementUpToDate(db: Db, tx: Tx)
    requires UpToDate(db, tx) && tx.call.PlaceCall? && !tx.pc.Commit? && !tx.pc.InsertOperation?
    ensures UpToDate(db, PlaceStatement(db, tx, tx.call.place))
  {
    var input := tx.call.place;
    if tx.pc.Evaluate? {
      EvaluateUpToDate(db, tx, input, PlaceLocked(db, input, tx.account.value, tx.pc.policyRow, tx.pc.policyGame));
    } else if tx.pc.Begin? || tx.pc.LockEnrolled? || tx.pc.FindExisting? || tx.pc.LockGame? {
      PlaceRowsUpToDate(db, tx, input);
    }
  }

  lemma ClaimStatementUpToDate(db: Db, tx: Tx)
    requires UpToDate(db, tx) && tx.call.ClaimCall? && !tx.pc.Commit? && !tx.pc.InsertOperation?
    ensures UpToDate(db, ClaimStatement(db, tx, tx.call.claim))
  {
  }

  lemma AdjustStatementUpToDate(db: Db, tx: Tx)
    requires UpToDate(db, tx) && tx.call.AdjustCall? && !tx.pc.Commit?
    ensures UpToDate(db, AdjustStatement(db, tx, tx.call.adjust))
  {
  }

  lemma EnrollStatementUpToDate(db: Db, tx: Tx)
    requires UpToDate(db, tx) && tx.call.EnrollCall? && !tx.pc.Commit? && !tx.pc.InsertOperation?
    ensures UpToDate(db, EnrollStatement(db, tx, tx.call.enroll))
  {
  }

  lemma InsertUpToDate(db: Db, tx: Tx)
    requires UpToDate(db, tx) && tx.pc.InsertOperation?
    ensures UpToDate(db, Statement(db, tx))
  {
    if IdOf(tx.call) in db.operations {
      assert Statement(db, tx).pc.Done?;
    } else {
      assert Statement(db, tx) == tx.(pc := Commit(tx.pc.goal), operation := Some(IdOf(tx.call)));
    }
  }

  lemma StatementKeepsUpToDate(db: Db, tx: Tx)
    requires UpToDate(db, tx) && !tx.pc.Commit?
    ensures UpToDate(db, Statement(db, tx))
  {
    if tx.pc.InsertOperation? {
      InsertUpToDate(db, tx);
    } else {
      match tx.call
      case SettleCall(input) =>
        if tx.pc.LockBet? {
          LockBetUpToDate(db, tx, input, SettleLocked(db, input, tx.account.value, tx.pc.betRow, tx.pc.betGame));
        } else if tx.pc.Begin? || tx.pc.FindOwner? {
          SettleStartUpToDate(db, tx);
        } else if tx.pc.LockOwner? || tx.pc.Recheck? || tx.pc.LockGame? {
          SettleRowsUpToDate(db, tx);
        }
      case PlaceCall(_) => PlaceStatementUpToDate(db, tx);
      case ClaimCall(_) => ClaimStatementUpToDate(db, tx);
      case AdjustCall(_) => AdjustStatementUpToDate(db, tx);
      case EnrollCall(_) => EnrollStatementUpToDate(db, tx);
    }
  }

  /** The statement takes no lock but the one it waited for. */
  predicate TakesOnly(tx: Tx, after: Tx, wait: Wait) {
    && (after.account.Some? ==> after.account == tx.account || wait == ForAccount(after.account.value))
    && (after.game.Some? ==> after.game == tx.game || wait == ForGame(after.game.value))
    && (after.member.Some? ==> after.member == tx.member || wait == ForMember(after.member.value))
    && (after.operation.Some? ==> after.operation == tx.operation || wait == ForOperation(after.operation.value))
  }

  lemma SettleTakesItsLock(db: Db, tx: Tx)
    requires tx.call.SettleCall?
    ensures TakesOnly(tx, SettleStatement(db, tx, tx.call.settle), NextWait(tx))
  {
  }

  lemma PlaceTakesItsLock(db: Db, tx: Tx)
    requires tx.call.PlaceCall?
    ensures TakesOnly(tx, PlaceStatement(db, tx, tx.call.place), NextWait(tx))
  {
  }

  lemma ClaimTakesItsLock(db: Db, tx: Tx)
    requires tx.call.ClaimCall?
    ensures TakesOnly(tx, ClaimStatement(db, tx, tx.call.claim), NextWait(tx))
  {
  }

  lemma AdjustTakesItsLock(db: Db, tx: Tx)
    requires tx.call.AdjustCall?
    ensures TakesOnly(tx, AdjustStatement(db, tx, tx.call.adjust), NextWait(tx))
  {
  }

  lemma EnrollTakesItsLock(db: Db, tx: Tx)
    requires tx.call.EnrollCall?
    ensures TakesOnly(tx, EnrollStatement(db, tx, tx.call.enroll), NextWait(tx))
  {
  }

  lemma StatementTakesItsLock(db: Db, tx: Tx)
    ensures TakesOnly(tx, Statement(db, tx), NextWait(tx))
  {
    if !tx.pc.InsertOperation? {
      match tx.call
      case SettleCall(_) => SettleTakesItsLock(db, tx);
      case PlaceCall(_) => PlaceTakesItsLock(db, tx);
      case ClaimCall(_) => ClaimTakesItsLock(db, tx);
      case AdjustCall(_) => AdjustTakesItsLock(db, tx);
      case EnrollCall(_) => EnrollTakesItsLock(db, tx);
    }
  }
}
