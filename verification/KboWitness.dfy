/** One concrete run in which the unconditional forms of two rules fail: a corrected void bet takes a
    day's stakes past the cap, and a void refund then leaves a balance beside a debt. */
module KboWitness {
  import opened Members
  import opened Options
  import opened KboMoney
  import opened KboTables
  import opened KboDecisions
  import opened KboRuns
  import opened KboConservation
  import opened KboLimits

  const NOON := 1_000_000_000

  function Row(revision: int, status: GameStatus, score: Option<int>): Game {
    Game(revision, 1, status, score, score, NOON + 1, NOON, NOON)
  }

  function Slip(operation: Id, bet: Id, game: Id): PlaceInput {
    PlaceInput(operation, bet, "g", "u", game, true, 50_000, HomeWin, None, None, NOON)
  }

  function Sheet(operation: Id, settlement: Id, bet: Id, game: Id, revision: int): SettleInput {
    SettleInput(operation, settlement, "g", bet, game, revision, true)
  }

  function BetRow(bet: Id, game: Id, operation: Id, entry: nat, status: BetStatus, current: Option<Id>): Bet {
    Bet(bet, "g", "a", game, 1, HomeWin, None, None, 50_000, KstDay(NOON), operation, entry, status, current)
  }

  function EntryRow(reason: Reason, available: int, debt: int, before: int, debtBefore: int, operation: Id): Entry {
    Entry("a", reason, available, debt, before, before + available, debtBefore, debtBefore + debt, operation)
  }

  /** One member with the day's claim, and two games open for betting. */
  const OPEN := Db(
    map["a" := Account(50_000, 0, 1)], map[Member("g", "u") := "a"], {Member("g", "u")},
    [EntryRow(DailyClaim, 50_000, 0, 0, 0, "claim")],
    [Claim("c", "a", KstDay(NOON), "claim", 0)], [], [],
    map["enroll" := Accepted, "claim" := Accepted],
    map["one" := Row(1, Scheduled, None), "two" := Row(1, Scheduled, None)])

  /** The first bet is placed, voided by a cancellation, and its refund staked on the other game. */
  const BET_ONE := Apply(OPEN, PlaceBet(BetRow("b1", "one", "place1", 0, Pending, None),
                                        EntryRow(BetStake, -50_000, 0, 50_000, 0, "place1")))
  const CANCELLED := BET_ONE.(games := BET_ONE.games["one" := Row(2, Cancelled, None)])
  const VOIDING := PostSettlement(
    0, Settlement("s1", "b1", "one", 2, Payout(VoidResult, 1, 50_000), 50_000, "settle1", None, None), Voided,
    Some(EntryRow(BetVoidRefund, 50_000, 0, 0, 0, "settle1")))
  const VOID_ONE := Apply(CANCELLED, VOIDING)
  const BET_TWO := Apply(VOID_ONE, PlaceBet(BetRow("b22", "two", "place22", 0, Pending, None),
                                            EntryRow(BetStake, -50_000, 0, 50_000, 0, "place22")))

  /** Then the first game is played after all, and its bet lost. */
  const PLAYED := BET_TWO.(games := BET_TWO.games["one" := Row(3, Final, Some(4))])
  const LOSING := PostSettlement(
    0, Settlement("s11", "b1", "one", 3, Payout(Lost, 0, 0), -50_000, "settle11", None, Some("s1")), Resolved,
    Some(EntryRow(SettlementCorrection, 0, 50_000, 0, 0, "settle11")))
  const LOST_ONE := Apply(PLAYED, LOSING)

  /** And the second game is postponed. */
  const POSTPONED := LOST_ONE.(games := LOST_ONE.games["two" := Row(4, Postponed, None)])
  const REFUNDING := PostSettlement(
    1, Settlement("s22", "b22", "two", 4, Payout(VoidResult, 1, 50_000), 50_000, "settle22", None, None), Voided,
    Some(EntryRow(BetVoidRefund, 50_000, 0, 0, 50_000, "settle22")))

  lemma Extend(actions: seq<Action>, action: Action) returns (longer: seq<Action>)
    ensures longer == actions + [action]
    ensures Run(EMPTY_DB, longer) == Step(Run(EMPTY_DB, actions), action)
  {
    longer := actions + [action];
    assert longer[..|actions|] == actions;
  }

  lemma ReachOpen() returns (actions: seq<Action>)
    ensures Run(EMPTY_DB, actions) == OPEN
  {
    var member := Member("g", "u");
    actions := Extend([], DoRegister(member));
    actions := Extend(actions, DoChangeGame("one", Row(1, Scheduled, None)));
    actions := Extend(actions, DoChangeGame("two", Row(1, Scheduled, None)));
    actions := Extend(actions, DoEnroll(EnrollInput("enroll", "a", "g", "u")));
    var enrolled := Db(map["a" := Account(0, 0, 0)], map[member := "a"], {member}, [], [], [], [],
                       map["enroll" := Accepted], OPEN.games);
    assert Run(EMPTY_DB, actions) == enrolled;
    var claim := DoClaim(Some("a"), ClaimInput("claim", "c", "g", "u", NOON));
    actions := Extend(actions, claim);
    ClaimFirst(enrolled);
  }

  lemma ClaimFirst(db: Db)
    requires db.accounts == map["a" := Account(0, 0, 0)] && db.claims == [] && db.ledger == []
    requires "claim" !in db.operations
    ensures Step(db, DoClaim(Some("a"), ClaimInput("claim", "c", "g", "u", NOON)))
         == db.(accounts := map["a" := Account(50_000, 0, 1)],
                ledger := [EntryRow(DailyClaim, 50_000, 0, 0, 0, "claim")],
                claims := [Claim("c", "a", KstDay(NOON), "claim", 0)], operations := db.operations["claim" := Accepted])
  {
    var input, entry := ClaimInput("claim", "c", "g", "u", NOON), EntryRow(DailyClaim, 50_000, 0, 0, 0, "claim");
    var claim := Claim("c", "a", KstDay(NOON), "claim", 0);
    assert FindClaimByOperation(db.claims, "a", "claim") == None;
    assert AllocateDailyCredit(0) == Some(Split(50_000, 0));
    assert ClaimGoal(db, input, "a", db.accounts["a"])
        == Write(PayClaim(claim, entry), Claimed(KstDay(NOON), 50_000, 0));
    assert Decide(db, DoClaim(Some("a"), input)).effect == PayClaim(claim, entry);
    assert db.ledger + [entry] == [entry] && db.claims + [claim] == [claim];
    assert WriteBalances(db.accounts, entry) == map["a" := Account(50_000, 0, 1)];
  }

  lemma PlaceOne()
    ensures Step(OPEN, DoPlace(Some("a"), Slip("place1", "b1", "one"))) == BET_ONE
  {
    var slip := Slip("place1", "b1", "one");
    assert DailyStake(OPEN.bets, "a", KstDay(NOON)) == 0;
    assert FindBetByOperation(OPEN.bets, "a", "place1") == None;
    assert PlaceGoal(OPEN, slip, "a")
        == Write(PlaceBet(BetRow("b1", "one", "place1", 0, Pending, None),
                          EntryRow(BetStake, -50_000, 0, 50_000, 0, "place1")),
                 PlacedOutcome(BetRow("b1", "one", "place1", 0, Pending, None)));
  }

  /** The settlement of an unsettled operation, from what its queries find. */
  lemma SettlesAs(db: Db, input: SettleInput, index: nat, current: Option<Settlement>, payout: Payout, split: Split)
    requires input.revision > 0 && input.authorized && input.operation !in db.operations
    requires FindSettlementByOperation(db.settlements, input.operation) == None
    requires FindBet(db.bets, input.bet) == Some(index)
    requires var bet := db.bets[index];
             && (bet.guild, bet.game) == (input.guild, input.game)
             && bet.account in db.accounts && input.game in db.games && db.games[input.game].revision == input.revision
             && CurrentSettlement(db.settlements, bet) == current
             && (current.Some? ==> current.value.revision < input.revision)
             && (bet.current.None? <==> current.None?)
    requires var bet, game := db.bets[index], db.games[input.game];
             CalculateSettlement(bet.stake, bet.prediction, bet.predictedHome, bet.predictedAway,
                                 game.status, game.homeScore, game.awayScore) == Terminal(payout)
    requires var bet := db.bets[index];
             var row := db.accounts[bet.account];
             && AllocateSettlementDelta(row.available, row.debt,
                                        payout.returnAmount - CurrentReturn(db.settlements, bet),
                                        current.None? && payout.result.VoidResult?) == Some(split)
             && row.available + split.availableDelta <= MAX_BIGINT && row.debt + split.debtDelta <= MAX_BIGINT
    requires forall i | 0 <= i < |db.settlements| ::
               db.settlements[i].id != input.settlement && db.settlements[i].revision != input.revision
    ensures var bet := db.bets[index];
            var reason := if current.Some? then SettlementCorrection
                          else if payout.result.VoidResult? then BetVoidRefund else BetPayout;
            Settle(db, input).effect
            == PostSettlement(
                 index,
                 Settlement(input.settlement, input.bet, input.game, input.revision, payout,
                            payout.returnAmount - CurrentReturn(db.settlements, bet), input.operation, None,
                            bet.current),
                 if payout.result.VoidResult? then Voided else Resolved,
                 SettlementEntry(bet.account, db.accounts[bet.account], split, reason, input.operation))
  {
    var bet := db.bets[index];
    assert SettleGoal(db, input) == SettleLocked(db, input, bet.account, db.accounts[bet.account],
                                                 db.games[input.game]);
  }

  lemma VoidOne()
    ensures Settle(CANCELLED, Sheet("settle1", "s1", "b1", "one", 2)).effect == VOIDING
  {
    assert CANCELLED.bets == [BetRow("b1", "one", "place1", 1, Pending, None)];
    assert CANCELLED.accounts["a"] == Account(0, 0, 2);
    assert FindBet(CANCELLED.bets, "b1") == Some(0);
    assert CANCELLED.settlements == [];
    SettlesAs(CANCELLED, Sheet("settle1", "s1", "b1", "one", 2), 0, None, Payout(VoidResult, 1, 50_000),
              Split(50_000, 0));
  }

  lemma BetTwoRows()
    ensures VOID_ONE.accounts["a"] == Account(50_000, 0, 3)
    ensures VOID_ONE.bets == [BetRow("b1", "one", "place1", 1, Voided, Some("s1"))]
    ensures BET_TWO.bets == VOID_ONE.bets + [BetRow("b22", "two", "place22", 3, Pending, None)]
    ensures BET_TWO.settlements == [VOIDING.row.(entry := Some(2))]
  {
    assert OPEN.bets + [BetRow("b1", "one", "place1", 1, Pending, None)]
        == [BetRow("b1", "one", "place1", 1, Pending, None)];
  }

  lemma PlaceTwo()
    ensures Step(VOID_ONE, DoPlace(Some("a"), Slip("place22", "b22", "two"))) == BET_TWO
  {
    BetTwoRows();
    assert DailyStake(VOID_ONE.bets, "a", KstDay(NOON)) == 0;
    assert FindBetByOperation(VOID_ONE.bets, "a", "place22") == None;
    assert PlaceGoal(VOID_ONE, Slip("place22", "b22", "two"), "a").Write?;
  }

  lemma LoseOne()
    ensures Settle(PLAYED, Sheet("settle11", "s11", "b1", "one", 3)).effect == LOSING
  {
    BetTwoRows();
    assert BET_TWO.bets[..1] == VOID_ONE.bets;
    SettlesAs(PLAYED, Sheet("settle11", "s11", "b1", "one", 3), 0, Some(BET_TWO.settlements[0]), Payout(Lost, 0, 0),
              Split(0, 50_000));
  }

  lemma LostOneRows()
    ensures LOST_ONE.accounts["a"] == Account(0, 50_000, 5)
    ensures LOST_ONE.bets == [BetRow("b1", "one", "place1", 1, Resolved, Some("s11")),
                              BetRow("b22", "two", "place22", 3, Pending, None)]
    ensures LOST_ONE.settlements == BET_TWO.settlements + [LOSING.row.(entry := Some(4))]
    ensures DailyStake(LOST_ONE.bets, "a", KstDay(NOON)) == 100_000
  {
    BetTwoRows();
    assert LOST_ONE.bets[..1] == [BetRow("b1", "one", "place1", 1, Resolved, Some("s11"))];
    assert DailyStake(LOST_ONE.bets[..1], "a", KstDay(NOON)) == 50_000;
  }

  /** The rows the refund of the second bet reads. */
  ghost predicate SecondBetIsOpen(db: Db) {
    && "a" in db.accounts && db.accounts["a"] == Account(0, 50_000, 5) && "settle22" !in db.operations
    && FindBet(db.bets, "b22") == Some(1) && |db.bets| == 2
    && db.bets[1] == BetRow("b22", "two", "place22", 3, Pending, None)
    && "two" in db.games && db.games["two"] == Row(4, Postponed, None)
    && FindSettlementByOperation(db.settlements, "settle22") == None
    && forall i | 0 <= i < |db.settlements| :: db.settlements[i].id != "s22" && db.settlements[i].revision != 4
  }

  lemma SettlementsSoFar(settlements: seq<Settlement>)
    requires settlements == [VOIDING.row.(entry := Some(2)), LOSING.row.(entry := Some(4))]
    ensures FindSettlementByOperation(settlements, "settle22") == None
    ensures forall i | 0 <= i < |settlements| :: settlements[i].id != "s22" && settlements[i].revision != 4
  {
    assert settlements[..1] == [VOIDING.row.(entry := Some(2))];
  }

  lemma PostponedRows()
    ensures SecondBetIsOpen(POSTPONED)
  {
    BetTwoRows();
    LostOneRows();
    SettlementsSoFar(LOST_ONE.settlements);
  }

  lemma SecondBetIsRefunded(db: Db)
    requires SecondBetIsOpen(db)
    ensures Settle(db, Sheet("settle22", "s22", "b22", "two", 4)).effect == REFUNDING
  {
    var bet := db.bets[1];
    assert CalculateSettlement(50_000, bet.prediction, bet.predictedHome, bet.predictedAway, Postponed, None, None)
        == Terminal(Payout(VoidResult, 1, 50_000));
    assert AllocateSettlementDelta(0, 50_000, 50_000, true) == Some(Split(50_000, 0));
    SettlesAs(db, Sheet("settle22", "s22", "b22", "two", 4), 1, None, Payout(VoidResult, 1, 50_000),
              Split(50_000, 0));
  }

  lemma VoidTwo()
    ensures Settle(POSTPONED, Sheet("settle22", "s22", "b22", "two", 4)).effect == REFUNDING
  {
    PostponedRows();
    SecondBetIsRefunded(POSTPONED);
  }

  lemma Changed(actions: seq<Action>, db: Db, id: Id, game: Game) returns (longer: seq<Action>)
    requires Run(EMPTY_DB, actions) == db
    ensures Run(EMPTY_DB, longer) == db.(games := db.games[id := game])
  {
    longer := Extend(actions, DoChangeGame(id, game));
  }

  lemma Settled(actions: seq<Action>, db: Db, input: SettleInput, effect: Effect) returns (longer: seq<Action>)
    requires Run(EMPTY_DB, actions) == db && Settle(db, input).effect == effect
    ensures Run(EMPTY_DB, longer) == Apply(db, effect)
  {
    longer := Extend(actions, DoSettle(input));
  }

  lemma ReachVoidOne() returns (actions: seq<Action>)
    ensures Run(EMPTY_DB, actions) == VOID_ONE
  {
    actions := ReachOpen();
    actions := Extend(actions, DoPlace(Some("a"), Slip("place1", "b1", "one")));
    PlaceOne();
    actions := Changed(actions, BET_ONE, "one", Row(2, Cancelled, None));
    VoidOne();
    actions := Settled(actions, CANCELLED, Sheet("settle1", "s1", "b1", "one", 2), VOIDING);
  }

  lemma ReachBetTwo() returns (actions: seq<Action>)
    ensures Run(EMPTY_DB, actions) == BET_TWO
  {
    actions := ReachVoidOne();
    actions := Extend(actions, DoPlace(Some("a"), Slip("place22", "b22", "two")));
    PlaceTwo();
  }

  lemma ReachLostOne() returns (actions: seq<Action>)
    ensures Run(EMPTY_DB, actions) == LOST_ONE
  {
    actions := ReachBetTwo();
    actions := Changed(actions, BET_TWO, "one", Row(3, Final, Some(4)));
    LoseOne();
    actions := Settled(actions, PLAYED, Sheet("settle11", "s11", "b1", "one", 3), LOSING);
  }

  lemma ReachRefunded(lost: seq<Action>) returns (actions: seq<Action>)
    requires Run(EMPTY_DB, lost) == LOST_ONE
    ensures Run(EMPTY_DB, actions) == Apply(POSTPONED, REFUNDING)
  {
    actions := Changed(lost, LOST_ONE, "two", Row(4, Postponed, None));
    VoidTwo();
    actions := Settled(actions, POSTPONED, Sheet("settle22", "s22", "b22", "two", 4), REFUNDING);
  }

  lemma RefundMixes()
    ensures "a" in Apply(POSTPONED, REFUNDING).accounts
    ensures Apply(POSTPONED, REFUNDING).accounts["a"] == Account(50_000, 50_000, 6)
  {
    LostOneRows();
    assert POSTPONED.accounts["a"] == Account(0, 50_000, 5);
  }

  /** A reachable database whose only account staked 100,000 on one day, and one that holds a balance
      beside a debt. */
  lemma UnconditionalRulesFail() returns (overCap: seq<Action>, mixed: seq<Action>)
    ensures DailyStake(Run(EMPTY_DB, overCap).bets, "a", KstDay(NOON)) == 100_000
    ensures !Capped(Run(EMPTY_DB, overCap).bets)
    ensures "a" in Run(EMPTY_DB, mixed).accounts && Run(EMPTY_DB, mixed).accounts["a"] == Account(50_000, 50_000, 6)
    ensures !Unmixed(Run(EMPTY_DB, mixed))
  {
    overCap := ReachLostOne();
    LostOneRows();
    mixed := ReachRefunded(overCap);
    RefundMixes();
  }
}
