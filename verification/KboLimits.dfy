/** Placement limits: one pending bet per game, and when the daily stake cap can be exceeded. */
module KboLimits {
  import opened Options
  import opened KboMoney
  import opened KboTables
  import opened KboDecisions
  import opened KboRuns

  predicate SameGame(one: Bet, other: Bet) {
    one.guild == other.guild && one.account == other.account && one.game == other.game
  }

  ghost predicate OnePendingPerGame(bets: seq<Bet>) {
    forall i, j | 0 <= i < j < |bets| ::
      SameGame(bets[i], bets[j]) ==> !(bets[i].status.Pending? && bets[j].status.Pending?)
  }

  lemma ApplyKeepsOnePending(db: Db, effect: Effect)
    requires Legal(db, effect) && OnePendingPerGame(db.bets)
    ensures OnePendingPerGame(Apply(db, effect).bets)
  {
  }

  /** At no time do two bets of an account on a game await settlement. */
  lemma {:induction false} AtMostOnePendingBet(actions: seq<Action>)
    ensures OnePendingPerGame(Run(EMPTY_DB, actions).bets)
    decreases |actions|
  {
    if |actions| > 0 {
      var before, effect := LastStep(actions);
      AtMostOnePendingBet(actions[..|actions| - 1]);
      ApplyKeepsOnePending(before, effect);
    }
  }

  // ---- The daily cap ----

  ghost predicate Capped(bets: seq<Bet>) {
    forall account, day :: DailyStake(bets, account, day) <= DAILY_STAKE_LIMIT
  }

  lemma DailyStakeGrows(bets: seq<Bet>, bet: Bet, account: Id, day: int)
    ensures DailyStake(bets + [bet], account, day) == DailyStake(bets, account, day) + Counted(bet, account, day)
  {
    assert (bets + [bet])[..|bets|] == bets;
  }

  lemma {:induction false} DailyStakeUpdates(bets: seq<Bet>, index: nat, bet: Bet, account: Id, day: int)
    requires index < |bets|
    ensures DailyStake(bets[index := bet], account, day)
         == DailyStake(bets, account, day) - Counted(bets[index], account, day) + Counted(bet, account, day)
    decreases |bets|
  {
    var last := |bets| - 1;
    if index == last {
      assert bets[index := bet][..last] == bets[..last];
    } else {
      assert bets[index := bet][..last] == bets[..last][index := bet];
      DailyStakeUpdates(bets[..last], index, bet, account, day);
    }
  }

  /** The write turns a void bet into one that counts, on a day with no room left for its stake. */
  predicate RevivesPastCap(db: Db, effect: Effect) {
    match effect
    case PostSettlement(index, row, status, _) =>
      && index < |db.bets| && db.bets[index].status.Voided? && !status.Voided?
      && DailyStake(db.bets, db.bets[index].account, db.bets[index].day) + db.bets[index].stake > DAILY_STAKE_LIMIT
    case _ => false
  }

  lemma PostSettlementCap(db: Db, index: nat, row: Settlement, status: BetStatus, posting: Option<Entry>)
    requires Grounded(db) && Legal(db, PostSettlement(index, row, status, posting)) && Capped(db.bets)
    ensures Capped(Apply(db, PostSettlement(index, row, status, posting)).bets)
       <==> !RevivesPastCap(db, PostSettlement(index, row, status, posting))
  {
    var bet := db.bets[index];
    var after := bet.(status := status, current := Some(row.id));
    var next := db.bets[index := after];
    DailyStakeUpdates(db.bets, index, after, bet.account, bet.day);
    assert DailyStake(db.bets, bet.account, bet.day) <= DAILY_STAKE_LIMIT;
    if !RevivesPastCap(db, PostSettlement(index, row, status, posting)) {
      forall account, day ensures DailyStake(next, account, day) <= DAILY_STAKE_LIMIT {
        DailyStakeUpdates(db.bets, index, after, account, day);
        assert DailyStake(db.bets, account, day) <= DAILY_STAKE_LIMIT;
      }
    } else {
      assert DailyStake(next, bet.account, bet.day) > DAILY_STAKE_LIMIT;
    }
  }

  lemma PlaceBetCap(db: Db, bet: Bet, entry: Entry)
    requires Legal(db, PlaceBet(bet, entry)) && Capped(db.bets)
    ensures Capped(Apply(db, PlaceBet(bet, entry)).bets)
  {
    var stored := bet.(entry := |db.ledger|);
    forall account, day ensures DailyStake(db.bets + [stored], account, day) <= DAILY_STAKE_LIMIT {
      DailyStakeGrows(db.bets, stored, account, day);
      assert DailyStake(db.bets, account, day) <= DAILY_STAKE_LIMIT;
    }
  }

  /** A write keeps every account's non-void stakes of every day within 50,000 exactly when it does
      not revive a void bet past the cap. */
  lemma CapLostExactlyByRevival(db: Db, effect: Effect)
    requires Grounded(db) && Legal(db, effect) && Capped(db.bets)
    ensures Capped(Apply(db, effect).bets) <==> !RevivesPastCap(db, effect)
  {
    match effect
    case PlaceBet(bet, entry) => PlaceBetCap(db, bet, entry);
    case PostSettlement(index, row, status, posting) => PostSettlementCap(db, index, row, status, posting);
    case _ =>
      assert Apply(db, effect).bets == db.bets;
  }

  predicate NeverRevivesPastCap(actions: seq<Action>) {
    forall n | 0 <= n < |actions| ::
      !RevivesPastCap(Run(EMPTY_DB, actions[..n]), Decide(Run(EMPTY_DB, actions[..n]), actions[n]).effect)
  }

  lemma {:induction false} DailyCap(actions: seq<Action>)
    requires NeverRevivesPastCap(actions)
    ensures Capped(Run(EMPTY_DB, actions).bets)
    decreases |actions|
  {
    if |actions| > 0 {
      var front := actions[..|actions| - 1];
      forall n | 0 <= n < |front|
        ensures !RevivesPastCap(Run(EMPTY_DB, front[..n]), Decide(Run(EMPTY_DB, front[..n]), front[n]).effect)
      {
        assert front[..n] == actions[..n];
      }
      DailyCap(front);
      var before, effect := LastStep(actions);
      CapLostExactlyByRevival(before, effect);
    }
  }

  lemma AcceptedStakeFits(db: Db, account: Id, input: PlaceInput)
    requires PlaceAs(db, Some(account), input).effect.PlaceBet?
    ensures var bet := PlaceAs(db, Some(account), input).effect.bet;
            && bet.account == account && bet.day == KstDay(input.placedAt)
            && DailyStake(db.bets, account, bet.day) + bet.stake <= DAILY_STAKE_LIMIT
  {
  }

  /** Even after a revival, an accepted placement leaves the day's stakes within the cap. */
  lemma PlacementWithinCap(actions: seq<Action>, account: Id, input: PlaceInput)
    requires PlaceAs(Run(EMPTY_DB, actions), Some(account), input).effect.PlaceBet?
    ensures var db := Run(EMPTY_DB, actions);
            DailyStake(Step(db, DoPlace(Some(account), input)).bets, account, KstDay(input.placedAt))
            <= DAILY_STAKE_LIMIT
  {
    var db := Run(EMPTY_DB, actions);
    AcceptedStakeFits(db, account, input);
    var effect := PlaceAs(db, Some(account), input).effect;
    DailyStakeGrows(db.bets, effect.bet.(entry := |db.ledger|), account, KstDay(input.placedAt));
  }
}
