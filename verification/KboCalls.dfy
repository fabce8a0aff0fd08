/** What each credit call pays, writes and answers, told by its input and the rows it finds alone, with the
    numbers written out. */
module KboCalls {
  import opened Members
  import opened Options
  import opened KboMoney
  import opened KboTables
  import opened KboDecisions
  import opened KboRuns

  // ---- Settlement ----

  /** What the game says about the bet: the stake back when the game is called off, nothing on a miss,
      twice the stake on the outcome, three times on the exact score. */
  predicate Pays(bet: Bet, game: Game, payout: Payout) {
    if game.status in {Cancelled, NoGame, Postponed} then payout == Payout(VoidResult, 1, bet.stake)
    else
      && game.status.Final? && game.homeScore.Some? && game.awayScore.Some?
      && var h, a := game.homeScore.value, game.awayScore.value;
         var agrees := || (bet.prediction.HomeWin? && h > a)
                       || (bet.prediction.Draw? && h == a)
                       || (bet.prediction.AwayWin? && h < a);
         var exact := bet.predictedHome == Some(h) && bet.predictedAway == Some(a);
         payout == if !agrees then Payout(Lost, 0, 0)
                   else if exact then Payout(ScoreHit, 3, 3 * bet.stake)
                   else Payout(OutcomeHit, 2, 2 * bet.stake)
  }

  /** A settlement is of the bet it names, at the game's present revision, and pays what the status and
      the scores of the game say about the prediction. */
  lemma SettlementPaysTheScore(db: Db, input: SettleInput)
    requires Settle(db, input).effect.PostSettlement?
    ensures var effect := Settle(db, input).effect;
            && effect.index < |db.bets| && input.game in db.games
            && var row, bet, game := effect.row, db.bets[effect.index], db.games[input.game];
               && (bet.id, bet.guild, bet.game) == (input.bet, input.guild, input.game)
               && game.revision == input.revision
               && (row.id, row.bet, row.game, row.revision) == (input.settlement, input.bet, input.game, game.revision)
               && (row.operation, row.supersedes) == (input.operation, bet.current)
               && Pays(bet, game, row.payout)
               && effect.status == if game.status in {Cancelled, NoGame, Postponed} then Voided else Resolved
  {
  }

  /** What the bet returned before: what its current settlement says, and nothing without one. */
  ghost predicate Returned(db: Db, bet: Bet, amount: int) {
    if forall row | row in db.settlements :: bet.current != Some(row.id) then amount == 0
    else forall row | row in db.settlements && bet.current == Some(row.id) :: row.payout.returnAmount == amount
  }

  /** A first void refund goes to the balance whole, any other gain pays debt first, and a loss empties
      the balance before it makes debt. */
  predicate Moves(was: Account, delta: int, refund: bool, now: Account) {
    && now.available - now.debt == was.available - was.debt + delta
    && now.version == was.version + (if delta == 0 then 0 else 1)
    && if refund then now.debt == was.debt
       else if delta >= 0 then now.debt == if was.debt > delta then was.debt - delta else 0
       else now.available == if was.available > -delta then was.available + delta else 0
  }

  predicate Refunds(bet: Bet, game: Game) {
    bet.current.None? && game.status in {Cancelled, NoGame, Postponed}
  }

  lemma CurrentIs(db: Db, bet: Bet, row: Settlement)
    requires Grounded(db) && row in db.settlements && bet.current == Some(row.id)
    ensures CurrentSettlement(db.settlements, bet) == Some(row)
  {
    var found := CurrentSettlement(db.settlements, bet).value;
    var i :| 0 <= i < |db.settlements| && db.settlements[i] == row;
    var j :| 0 <= j < |db.settlements| && db.settlements[j] == found;
  }

  lemma ReturnedIs(db: Db, bet: Bet, amount: int)
    requires Grounded(db)
    ensures Returned(db, bet, amount) <==> amount == CurrentReturn(db.settlements, bet)
  {
    forall row | row in db.settlements && bet.current == Some(row.id)
      ensures CurrentSettlement(db.settlements, bet) == Some(row)
    {
      CurrentIs(db, bet, row);
    }
  }

  lemma PostingMoves(db: Db, input: SettleInput)
    requires Grounded(db) && Settle(db, input).effect.PostSettlement?
    ensures var effect, next := Settle(db, input).effect, Step(db, DoSettle(input));
            && effect.index < |db.bets|
            && var bet, delta := db.bets[effect.index], effect.row.appliedDelta;
               && delta == effect.row.payout.returnAmount - CurrentReturn(db.settlements, bet)
               && bet.account in db.accounts && bet.account in next.accounts
               && var was, now := db.accounts[bet.account], next.accounts[bet.account];
                  && Moves(was, delta, bet.current.None? && effect.row.payout.result.VoidResult?, now)
                  && next.accounts == db.accounts[bet.account := now]
  {
    SettleIsLegal(db, input);
  }

  /** The account moves by what the bet returns more than before, and no other account moves. */
  lemma SettlementMovesAccount(db: Db, input: SettleInput)
    requires Grounded(db) && Settle(db, input).effect.PostSettlement?
    ensures var effect, next := Settle(db, input).effect, Step(db, DoSettle(input));
            && effect.index < |db.bets| && input.game in db.games
            && var bet, delta := db.bets[effect.index], effect.row.appliedDelta;
               && Returned(db, bet, effect.row.payout.returnAmount - delta)
               && bet.account in db.accounts && bet.account in next.accounts
               && var was, now := db.accounts[bet.account], next.accounts[bet.account];
                  && Moves(was, delta, Refunds(bet, db.games[input.game]), now)
                  && next.accounts == db.accounts[bet.account := now]
  {
    PostingMoves(db, input);
    SettlementPaysTheScore(db, input);
    var effect := Settle(db, input).effect;
    ReturnedIs(db, db.bets[effect.index], effect.row.payout.returnAmount - effect.row.appliedDelta);
  }

  /** The rows a settlement writes: its own, the bet's, the ledger entry unless nothing moved, and the
      operation id. */
  lemma SettlementWritesRows(db: Db, input: SettleInput)
    requires Grounded(db) && Settle(db, input).effect.PostSettlement?
    ensures var effect, next := Settle(db, input).effect, Step(db, DoSettle(input));
            && effect.index < |db.bets| && db.bets[effect.index].account in db.accounts
            && db.bets[effect.index].account in next.accounts
            && var bet, row := db.bets[effect.index], effect.row;
               var was, now := db.accounts[bet.account], next.accounts[bet.account];
               var reason := if bet.current.Some? then SettlementCorrection
                             else if row.payout.result.VoidResult? then BetVoidRefund else BetPayout;
               && next.bets == db.bets[effect.index := bet.(status := effect.status, current := Some(row.id))]
               && next.settlements
                  == db.settlements + [row.(entry := if row.appliedDelta == 0 then None else Some(|db.ledger|))]
               && next.ledger
                  == (if row.appliedDelta == 0 then db.ledger
                      else db.ledger + [Entry(bet.account, reason, now.available - was.available, now.debt - was.debt,
                                              was.available, now.available, was.debt, now.debt, input.operation)])
               && next == db.(accounts := next.accounts, bets := next.bets, settlements := next.settlements,
                              ledger := next.ledger, operations := db.operations[input.operation := Accepted])
  {
    SettleIsLegal(db, input);
  }

  /** A settlement that is written reports its payout and what it moved. */
  lemma SettlementReports(db: Db, input: SettleInput)
    requires Grounded(db) && Settle(db, input).effect.PostSettlement?
    ensures var effect, next := Settle(db, input).effect, Step(db, DoSettle(input));
            && effect.index < |db.bets| && db.bets[effect.index].account in db.accounts
            && db.bets[effect.index].account in next.accounts
            && var account, row := db.bets[effect.index].account, effect.row;
               var was, now := db.accounts[account], next.accounts[account];
               Settle(db, input).outcome
               == Settled(row.id, row.payout, row.appliedDelta,
                          Split(now.available - was.available, now.debt - was.debt), input.revision)
  {
    SettleIsLegal(db, input);
  }

  ghost predicate Settles(db: Db, input: SettleInput, index: nat) {
    && index < |db.bets| && db.bets[index].id == input.bet
    && db.bets[index].guild == input.guild && db.bets[index].game == input.game
  }

  /** The current settlement of the bet is of that revision, or of a later one. */
  ghost predicate SettledAt(db: Db, bet: Bet, revision: int) {
    bet.current.Some? && exists row | row in db.settlements :: row.id == bet.current.value && row.revision == revision
  }

  ghost predicate SettledAfter(db: Db, bet: Bet, revision: int) {
    bet.current.Some? && exists row | row in db.settlements :: row.id == bet.current.value && row.revision > revision
  }

  lemma CurrentRevision(db: Db, bet: Bet, revision: int)
    requires Grounded(db)
    ensures var current := CurrentSettlement(db.settlements, bet);
            && (SettledAt(db, bet, revision) <==> current.Some? && current.value.revision == revision)
            && (SettledAfter(db, bet, revision) <==> current.Some? && current.value.revision > revision)
  {
    forall row | row in db.settlements && bet.current == Some(row.id)
      ensures CurrentSettlement(db.settlements, bet) == Some(row)
    {
      CurrentIs(db, bet, row);
    }
  }

  lemma BetIs(db: Db, input: SettleInput)
    requires Grounded(db)
    ensures BetOwner(db.bets, input).None? <==> forall i: nat :: !Settles(db, input, i)
    ensures forall i: nat :: Settles(db, input, i) ==> FindBet(db.bets, input.bet) == Some(i)
  {
    var found := FindBet(db.bets, input.bet);
    if found.Some? && BetOwner(db.bets, input).Some? {
      assert Settles(db, input, found.value);
    }
  }

  /** The status and the scores of the game decide every bet on it. */
  predicate Decided(game: Game) {
    || game.status in {Cancelled, NoGame, Postponed}
    || (game.status.Final? && game.homeScore.Some? && game.awayScore.Some?)
  }

  /** The first thing wrong with a settlement under a new id decides the denial; with nothing wrong it is
      written or fails. */
  lemma SettleAnswers(db: Db, input: SettleInput, index: nat)
    requires Grounded(db) && input.operation !in db.operations
    ensures var outcome := Settle(db, input).outcome;
            && (input.revision <= 0 ==> outcome.Failed?)
            && (input.revision > 0 ==>
                  if !input.authorized then outcome == Denied(RightsUnauthorized)
                  else if forall i: nat :: !Settles(db, input, i) then outcome == Denied(BetNotFound)
                  else if input.game !in db.games then outcome == Denied(GameDataUnavailable)
                  else if db.games[input.game].revision != input.revision then outcome == Denied(RevisionNotCurrent)
                  else Settles(db, input, index) ==>
                    if SettledAt(db, db.bets[index], input.revision) then outcome == Denied(AlreadySettled)
                    else if SettledAfter(db, db.bets[index], input.revision) then outcome == Denied(RevisionNotNewer)
                    else if !Decided(db.games[input.game]) then outcome == Denied(GameNotTerminal)
                    else outcome.Failed? || Settle(db, input).effect.PostSettlement?)
  {
    BetIs(db, input);
    if Settles(db, input, index) {
      CurrentRevision(db, db.bets[index], input.revision);
    }
  }

  /** The scores and the predicted scores are ones a return is computed for. */
  predicate Computable(bet: Bet, game: Game) {
    game.status in {Cancelled, NoGame, Postponed} ||
    (&& game.homeScore.Some? && game.awayScore.Some?
     && 0 <= game.homeScore.value <= 0x1F_FFFF_FFFF_FFFF && 0 <= game.awayScore.value <= 0x1F_FFFF_FFFF_FFFF
     && (bet.predictedHome.Some? <==> bet.predictedAway.Some?)
     && (bet.predictedHome.Some? ==>
           && 0 <= bet.predictedHome.value <= 0x1F_FFFF_FFFF_FFFF
           && 0 <= bet.predictedAway.value <= 0x1F_FFFF_FFFF_FFFF))
  }

  /** Neither the settlement's id nor its bet and revision is taken. */
  ghost predicate KeysAreFree(db: Db, input: SettleInput) {
    forall row | row in db.settlements ::
      row.id != input.settlement && !(row.bet == input.bet && row.revision == input.revision)
  }

  lemma CalculatesAs(bet: Bet, game: Game, payout: Payout)
    requires 1_000 <= bet.stake <= 50_000 && Pays(bet, game, payout)
    ensures CalculateSettlement(bet.stake, bet.prediction, bet.predictedHome, bet.predictedAway,
                                game.status, game.homeScore, game.awayScore)
         == if Computable(bet, game) then Terminal(payout) else Crashed
  {
  }

  lemma AllocatesAs(was: Account, delta: int, refund: bool, now: Account)
    requires was.available >= 0 && was.debt >= 0 && (refund ==> delta > 0) && Moves(was, delta, refund, now)
    ensures AllocateSettlementDelta(was.available, was.debt, delta, refund)
         == Some(Split(now.available - was.available, now.debt - was.debt))
  {
  }

  lemma PostsAs(db: Db, input: SettleInput, index: nat, payout: Payout, returned: int, now: Account)
    requires Grounded(db) && Settles(db, input, index) && CurrentReturn(db.settlements, db.bets[index]) == returned
    requires (payout.result.VoidResult? <==> payout == Payout(VoidResult, 1, db.bets[index].stake))
    requires Moves(db.accounts[db.bets[index].account], payout.returnAmount - returned,
                   db.bets[index].current.None? && payout.result.VoidResult?, now)
    ensures var account := db.bets[index].account;
            var goal := SettlePayout(db, input, account, db.accounts[account], index, payout);
            && goal.Write? && goal.outcome.Settled?
            && (Admissible(db, goal.effect) <==>
                  && KeysAreFree(db, input)
                  && (payout.returnAmount == returned || (now.available <= MAX_BIGINT && now.debt <= MAX_BIGINT)))
  {
    var bet := db.bets[index];
    AllocatesAs(db.accounts[bet.account], payout.returnAmount - returned,
                bet.current.None? && payout.result.VoidResult?, now);
  }

  /** A settlement that is not denied fails exactly if its return cannot be computed, a key is taken, or
      a column cannot hold what it would write. */
  lemma SettleFailsExactly(db: Db, input: SettleInput, index: nat, payout: Payout, returned: int, now: Account)
    requires Grounded(db) && input.operation !in db.operations && Settles(db, input, index)
    requires input.revision > 0 && input.authorized
    requires input.game in db.games && db.games[input.game].revision == input.revision
    requires !SettledAt(db, db.bets[index], input.revision) && !SettledAfter(db, db.bets[index], input.revision)
    requires Pays(db.bets[index], db.games[input.game], payout) && Returned(db, db.bets[index], returned)
    requires Moves(db.accounts[db.bets[index].account], payout.returnAmount - returned,
                   Refunds(db.bets[index], db.games[input.game]), now)
    ensures Settle(db, input).outcome.Settled? || Settle(db, input).outcome.Failed?
    ensures Settle(db, input).outcome.Settled? <==>
              && Computable(db.bets[index], db.games[input.game]) && KeysAreFree(db, input)
              && (payout.returnAmount == returned || (now.available <= MAX_BIGINT && now.debt <= MAX_BIGINT))
  {
    BetIs(db, input);
    CurrentRevision(db, db.bets[index], input.revision);
    ReturnedIs(db, db.bets[index], returned);
    CalculatesAs(db.bets[index], db.games[input.game], payout);
    PostsAs(db, input, index, payout, returned, now);
  }

  // ---- Placement ----

  /** The slip is one the schema takes: a stake in whole thousands, and both predicted scores or none. */
  predicate WellFormedSlip(input: PlaceInput) {
    && 1_000 <= input.stake <= 50_000 && input.stake % 1_000 == 0
    && (input.predictedHome.Some? <==> input.predictedAway.Some?)
    && (input.predictedHome.Some? ==>
          0 <= input.predictedHome.value <= 32_767 && 0 <= input.predictedAway.value <= 32_767)
  }

  /** The day is the one the instant falls on nine hours east of Greenwich. */
  predicate FallsOn(instant: int, day: int) {
    day * 86_400_000 <= instant + 32_400_000 < (day + 1) * 86_400_000
  }

  /** The stored bet is the slip, field by field, on the game's market and the day of placement; exactly
      the stake leaves the balance, and nothing else changes. */
  lemma PlacedBetIsTheSlip(db: Db, account: Id, input: PlaceInput)
    requires PlaceAs(db, Some(account), input).effect.PlaceBet?
    ensures var next := Step(db, DoPlace(Some(account), input));
            && input.game in db.games && account in db.accounts
            && var was := db.accounts[account];
               var day := PlaceAs(db, Some(account), input).effect.bet.day;
               && FallsOn(input.placedAt, day)
               && next == db.(
                    accounts := db.accounts[account := Account(was.available - input.stake, was.debt, was.version + 1)],
                    ledger := db.ledger + [Entry(account, BetStake, -input.stake, 0, was.available,
                                                 was.available - input.stake, was.debt, was.debt, input.operation)],
                    bets := db.bets + [Bet(input.bet, input.guild, account, input.game, db.games[input.game].market,
                                           input.prediction, input.predictedHome, input.predictedAway, input.stake,
                                           day, input.operation, |db.ledger|, Pending, None)],
                    operations := db.operations[input.operation := Accepted])
               && PlaceAs(db, Some(account), input).outcome
                  == Placed(input.bet, input.game, db.games[input.game].market, day)
  {
  }

  function Total(amounts: seq<int>): int {
    if amounts == [] then 0 else Total(amounts[..|amounts| - 1]) + amounts[|amounts| - 1]
  }

  /** What the account has staked on the day, bet by bet, void ones aside. */
  function StakesOn(bets: seq<Bet>, account: Id, day: int): seq<int> {
    seq(|bets|, i requires 0 <= i < |bets| =>
      if bets[i].account == account && bets[i].day == day && bets[i].status != Voided then bets[i].stake else 0)
  }

  lemma {:induction false} DailyStakeMeans(bets: seq<Bet>, account: Id, day: int)
    ensures DailyStake(bets, account, day) == Total(StakesOn(bets, account, day))
    decreases |bets|
  {
    if bets != [] {
      var front, stakes := bets[..|bets| - 1], StakesOn(bets, account, day);
      DailyStakeMeans(front, account, day);
      assert stakes[..|stakes| - 1] == StakesOn(front, account, day);
    }
  }

  lemma {:induction false} StakesAreNotNegative(bets: seq<Bet>, account: Id, day: int)
    requires forall i | 0 <= i < |bets| :: bets[i].stake >= 0
    ensures DailyStake(bets, account, day) >= 0
    decreases |bets|
  {
    if bets != [] {
      StakesAreNotNegative(bets[..|bets| - 1], account, day);
    }
  }

  /** The account the member is enrolled with. */
  predicate EnrolledAs(db: Db, guild: Id, user: Id, account: Id) {
    Member(guild, user) in db.active && db.active[Member(guild, user)] == account && account in db.accounts
  }

  predicate Awaits(bet: Bet, input: PlaceInput, account: Id) {
    bet.guild == input.guild && bet.account == account && bet.game == input.game && bet.status.Pending?
  }

  /** The denial of a well-formed slip of an enrolled member: the first rule it breaks. */
  function Objection(db: Db, input: PlaceInput, account: Id, day: int): Option<DenialReason>
    requires account in db.accounts && input.game in db.games
  {
    var row, game := db.accounts[account], db.games[input.game];
    if !(&& input.authorized && game.sourceUpdated <= game.collected <= input.placedAt
         && input.placedAt - game.sourceUpdated <= 300_000) then Some(GameDataUnavailable)
    else if game.status != Scheduled || game.scheduledStart <= input.placedAt then Some(BettingClosed)
    else if row.debt > 0 then Some(CorrectionDebt)
    else if row.available < input.stake then Some(InsufficientBalance)
    else if Total(StakesOn(db.bets, account, day)) + input.stake > 50_000 then Some(DailyLimitExceeded)
    else if exists bet | bet in db.bets :: Awaits(bet, input, account) then Some(AlreadyBet)
    else None
  }

  /** Neither the bet's id nor a bet of the account on the game's market is there. */
  ghost predicate BetKeysAreFree(db: Db, input: PlaceInput, account: Id)
    requires input.game in db.games
  {
    forall bet | bet in db.bets ::
      && bet.id != input.bet
      && !(&& bet.guild == input.guild && bet.account == account && bet.game == input.game
           && bet.market == db.games[input.game].market)
  }

  lemma BetFits(db: Db, input: PlaceInput, account: Id, bet: Bet, entry: Entry)
    requires input.game in db.games && bet.id == input.bet
    requires (bet.guild, bet.account, bet.game, bet.market)
          == (input.guild, account, input.game, db.games[input.game].market)
    ensures Admissible(db, PlaceBet(bet, entry)) <==> BetKeysAreFree(db, input, account) && EntryFits(entry)
  {
    if Admissible(db, PlaceBet(bet, entry)) {
      forall other | other in db.bets
        ensures other.id != input.bet
        ensures !(&& other.guild == input.guild && other.account == account && other.game == input.game
                  && other.market == db.games[input.game].market)
      {
        var i :| 0 <= i < |db.bets| && db.bets[i] == other;
      }
    }
  }

  lemma AwaitingMeans(db: Db, input: PlaceInput, account: Id)
    ensures PendingBetOn(db.bets, input.guild, account, input.game)
       <==> exists bet | bet in db.bets :: Awaits(bet, input, account)
  {
    if PendingBetOn(db.bets, input.guild, account, input.game) {
      var i :| 0 <= i < |db.bets| && Awaits(db.bets[i], input, account);
      assert db.bets[i] in db.bets;
    }
  }

  lemma StakeOfDayMeans(db: Db, account: Id, instant: int, day: int)
    requires Grounded(db) && FallsOn(instant, day)
    ensures KstDay(instant) == day
    ensures DailyStake(db.bets, account, day) == Total(StakesOn(db.bets, account, day)) >= 0
  {
    DailyStakeMeans(db.bets, account, day);
    StakesAreNotNegative(db.bets, account, day);
  }

  /** The policy and the pending bet object to exactly what the rules say. */
  lemma PolicyObjects(db: Db, input: PlaceInput, account: Id, day: int)
    requires WellFormedSlip(input) && FallsOn(input.placedAt, day) && KstDay(input.placedAt) == day
    requires account in db.accounts && input.game in db.games
    requires db.accounts[account].available >= 0 && db.accounts[account].debt >= 0
    requires DailyStake(db.bets, account, day) == Total(StakesOn(db.bets, account, day)) >= 0
    ensures var goal, objection := PlaceGoal(db, input, account), Objection(db, input, account, day);
            && (objection.Some? ==> goal == Deny(objection.value))
            && (objection.None? ==> goal.Write? && goal.effect.PlaceBet? && db.accounts[account].debt == 0)
  {
    AwaitingMeans(db, input, account);
  }

  lemma ObjectionIs(db: Db, input: PlaceInput, account: Id, day: int)
    requires Grounded(db) && WellFormedSlip(input) && FallsOn(input.placedAt, day)
    requires account in db.accounts && input.game in db.games
    ensures var goal, objection := PlaceGoal(db, input, account), Objection(db, input, account, day);
            && (objection.Some? ==> goal == Deny(objection.value))
            && (objection.None? ==>
                  && goal.Write? && goal.effect.PlaceBet?
                  && (Admissible(db, goal.effect) <==> && BetKeysAreFree(db, input, account)
                                                       && db.accounts[account].available - input.stake <= MAX_BIGINT))
  {
    StakeOfDayMeans(db, account, input.placedAt, day);
    PolicyObjects(db, input, account, day);
    var goal := PlaceGoal(db, input, account);
    if goal.Write? {
      BetFits(db, input, account, goal.effect.bet, goal.effect.entry);
    }
  }

  /** A placement under a new id is denied for the first rule it breaks; breaking none, it is written
      unless a key is taken or a column cannot hold the balance. */
  lemma PlaceAnswers(db: Db, input: PlaceInput, account: Id, day: int)
    requires Grounded(db) && input.operation !in db.operations && FallsOn(input.placedAt, day)
    ensures var decision := Place(db, input);
            && (!WellFormedSlip(input) ==> decision == Decision(Keep, Failed))
            && (WellFormedSlip(input) && (forall a :: !EnrolledAs(db, input.guild, input.user, a)) ==>
                  decision.outcome == Denied(NotEnrolled))
            && (WellFormedSlip(input) && EnrolledAs(db, input.guild, input.user, account) ==>
                  if input.game !in db.games then decision.outcome == Denied(GameDataUnavailable)
                  else if Objection(db, input, account, day).Some?
                  then decision.outcome == Denied(Objection(db, input, account, day).value)
                  else if && BetKeysAreFree(db, input, account)
                          && db.accounts[account].available - input.stake <= MAX_BIGINT
                  then decision.effect.PlaceBet? && decision == PlaceAs(db, Some(account), input)
                  else decision == Decision(Keep, Failed))
            && (decision.outcome.Denied? ==> decision.effect == Refuse(input.operation, Refused))
  {
    if EnrolledAs(db, input.guild, input.user, account) {
      if WellFormedSlip(input) && input.game in db.games {
        ObjectionIs(db, input, account, day);
      }
    } else if forall a :: !EnrolledAs(db, input.guild, input.user, a) {
      assert Member(input.guild, input.user) in db.active ==>
          !EnrolledAs(db, input.guild, input.user, db.active[Member(input.guild, input.user)]);
    }
  }

  // ---- Daily claim ----

  /** A claim credits 50,000, which pays debt first, and records itself for the day. */
  lemma ClaimPaysCredit(db: Db, account: Id, input: ClaimInput)
    requires ClaimAs(db, Some(account), input).effect.PayClaim?
    ensures var next := Step(db, DoClaim(Some(account), input));
            && account in db.accounts && account in next.accounts
            && var was, now := db.accounts[account], next.accounts[account];
               var day := ClaimAs(db, Some(account), input).effect.claim.day;
               && FallsOn(input.claimedAt, day)
               && now.debt == (if was.debt > 50_000 then was.debt - 50_000 else 0)
               && now.available - now.debt == was.available - was.debt + 50_000 && now.version == was.version + 1
               && next == db.(
                    accounts := db.accounts[account := now],
                    ledger := db.ledger + [Entry(account, DailyClaim, now.available - was.available,
                                                 now.debt - was.debt, was.available, now.available, was.debt, now.debt,
                                                 input.operation)],
                    claims := db.claims + [Claim(input.claim, account, day, input.operation, |db.ledger|)],
                    operations := db.operations[input.operation := Accepted])
               && ClaimAs(db, Some(account), input).outcome
                  == Claimed(day, now.available - was.available, was.debt - now.debt)
  {
  }

  /** A claim under a new id is refused exactly if the member is not enrolled or has claimed on the day;
      else it is written unless its key is taken or a column cannot hold the balance. */
  lemma ClaimAnswers(db: Db, input: ClaimInput, account: Id, day: int)
    requires Grounded(db) && input.operation !in db.operations && FallsOn(input.claimedAt, day)
    ensures var decision := ClaimDaily(db, input);
            && ((forall a :: !EnrolledAs(db, input.guild, input.user, a)) ==> decision.outcome == Denied(NotEnrolled))
            && (EnrolledAs(db, input.guild, input.user, account) ==>
                  var row := db.accounts[account];
                  if exists claim | claim in db.claims :: claim.account == account && claim.day == day
                  then decision.outcome == Denied(AlreadyClaimed)
                  else if && (forall claim | claim in db.claims :: claim.id != input.claim)
                          && (if row.debt < 50_000 then row.available + 50_000 - row.debt else row.available)
                             <= MAX_BIGINT
                          && row.debt - 50_000 <= MAX_BIGINT
                  then decision.effect.PayClaim? && decision == ClaimAs(db, Some(account), input)
                  else decision == Decision(Keep, Failed))
            && (decision.outcome.Denied? ==> decision.effect == Refuse(input.operation, Refused))
  {
    if EnrolledAs(db, input.guild, input.user, account) {
      assert KstDay(input.claimedAt) == day;
    } else if forall a :: !EnrolledAs(db, input.guild, input.user, a) {
      assert Member(input.guild, input.user) in db.active ==>
          !EnrolledAs(db, input.guild, input.user, db.active[Member(input.guild, input.user)]);
    }
  }

  // ---- Administrator adjustment ----

  /** An adjustment under a new id is refused for the first of these reasons, keeping its id as accepted;
      else it moves the balance by the amount asked for, unless the column cannot hold it. */
  lemma AdjustAnswers(db: Db, input: AdjustInput)
    requires input.operation !in db.operations
    ensures var decision, next := Adjust(db, input), Step(db, DoAdjust(input));
            if input.account !in db.accounts then decision.outcome == Denied(AccountNotFound)
            else
              var was := db.accounts[input.account];
              if exists guild :: Member(guild, input.administrator) in db.active
                                 && db.active[Member(guild, input.administrator)] == input.account
              then decision.outcome == Denied(SelfAdjustment)
              else if was.version != input.expectedVersion || was.version > 0x1F_FFFF_FFFF_FFFF
              then decision.outcome == Denied(StaleVersion)
              else if was.available + input.delta < 0 then decision.outcome == Denied(InsufficientBalance)
              else if was.available + input.delta > MAX_BIGINT || was.debt > MAX_BIGINT
              then decision == Decision(Keep, Failed)
              else
                && decision.outcome == Adjusted(was.available + input.delta, was.version + 1)
                && next == db.(
                     accounts := db.accounts[input.account :=
                                   Account(was.available + input.delta, was.debt, was.version + 1)],
                     ledger := db.ledger + [Entry(input.account, AdminAdjustment, input.delta, 0, was.available,
                                                  was.available + input.delta, was.debt, was.debt, input.operation)],
                     operations := db.operations[input.operation := Accepted])
    ensures Adjust(db, input).outcome.Denied? ==>
              Step(db, DoAdjust(input)) == db.(operations := db.operations[input.operation := Accepted])
  {
    if input.account in db.accounts && Owns(db.active, input.account, input.administrator) {
      var member :| member in db.active && member.user == input.administrator && db.active[member] == input.account;
      assert member == Member(member.guild, input.administrator);
    }
  }

  // ---- Enrolment ----

  /** An enrolment under a new id opens an empty account for a registered member without one. */
  lemma EnrollAnswers(db: Db, input: EnrollInput)
    requires input.operation !in db.operations
    ensures var decision, member := Enroll(db, input), Member(input.guild, input.user);
            if member !in db.registered
            then decision == Decision(Refuse(input.operation, Refused), Denied(NotRegistered))
            else if member in db.active
            then decision == Decision(Refuse(input.operation, Refused), Denied(AlreadyEnrolled))
            else if input.account in db.accounts then decision == Decision(Keep, Failed)
            else
              && decision.outcome == Created
              && Step(db, DoEnroll(input))
                 == db.(accounts := db.accounts[input.account := Account(0, 0, 0)],
                        active := db.active[member := input.account],
                        operations := db.operations[input.operation := Accepted])
  {
  }

  /** A departure is refused for a member without an account and fails under an id that is taken; else it
      ends the enrolment and leaves the account. */
  lemma LeaveAnswers(db: Db, operation: Id, member: Member)
    ensures var decision := Leave(db, operation, member);
            if member !in db.active then decision == Decision(Keep, Denied(NotEnrolled))
            else if operation in db.operations then decision == Decision(Keep, Failed)
            else
              && decision.outcome == Created
              && Step(db, DoLeave(operation, member))
                 == db.(active := map m | m in db.active && m != member :: db.active[m],
                        operations := db.operations[operation := Accepted])
  {
  }
}
