/** Exactly once: one operation id, one effect, and what a repeated call reports. */
module KboOnce {
  import opened Options
  import opened KboMoney
  import opened KboTables
  import opened KboDecisions
  import opened KboRuns
  import opened KboHistory

  function EntriesFor(ledger: seq<Entry>, operation: Id): nat {
    var last := |ledger| - 1;
    if last < 0 then 0 else EntriesFor(ledger[..last], operation) + if ledger[last].operation == operation then 1 else 0
  }

  function AdjustmentsFor(ledger: seq<Entry>, operation: Id): nat {
    var last := |ledger| - 1;
    if last < 0 then 0
    else
      AdjustmentsFor(ledger[..last], operation)
      + if ledger[last].operation == operation && ledger[last].reason.AdminAdjustment? then 1 else 0
  }

  function ClaimsFor(claims: seq<Claim>, operation: Id): nat {
    var last := |claims| - 1;
    if last < 0 then 0 else ClaimsFor(claims[..last], operation) + if claims[last].operation == operation then 1 else 0
  }

  function BetsFor(bets: seq<Bet>, operation: Id): nat {
    var last := |bets| - 1;
    if last < 0 then 0 else BetsFor(bets[..last], operation) + if bets[last].operation == operation then 1 else 0
  }

  function SettlementsFor(settlements: seq<Settlement>, operation: Id): nat {
    var last := |settlements| - 1;
    if last < 0 then 0
    else SettlementsFor(settlements[..last], operation) + if settlements[last].operation == operation then 1 else 0
  }

  /** Claims, bets, settlements and adjustments an operation id stands for, over all stores. */
  function RowsFor(db: Db, operation: Id): nat {
    ClaimsFor(db.claims, operation) + BetsFor(db.bets, operation)
    + SettlementsFor(db.settlements, operation) + AdjustmentsFor(db.ledger, operation)
  }

  ghost predicate Once(db: Db) {
    forall operation ::
      && RowsFor(db, operation) <= 1 && EntriesFor(db.ledger, operation) <= 1
      && (operation !in db.operations ==> RowsFor(db, operation) == 0 && EntriesFor(db.ledger, operation) == 0)
  }

  lemma CountsGrow(ledger: seq<Entry>, entry: Entry, operation: Id)
    ensures EntriesFor(ledger + [entry], operation)
         == EntriesFor(ledger, operation) + if entry.operation == operation then 1 else 0
    ensures AdjustmentsFor(ledger + [entry], operation)
         == AdjustmentsFor(ledger, operation)
            + if entry.operation == operation && entry.reason.AdminAdjustment? then 1 else 0
  {
    assert (ledger + [entry])[..|ledger|] == ledger;
  }

  lemma {:induction false} BetsForStays(bets: seq<Bet>, index: nat, bet: Bet, operation: Id)
    requires index < |bets| && bet.operation == bets[index].operation
    ensures BetsFor(bets[index := bet], operation) == BetsFor(bets, operation)
    decreases |bets|
  {
    var last := |bets| - 1;
    if index == last {
      assert bets[index := bet][..last] == bets[..last];
    } else {
      assert bets[index := bet][..last] == bets[..last][index := bet];
      BetsForStays(bets[..last], index, bet, operation);
    }
  }

  /** The id a write consumes, and whether it stands for a row of its own. */
  function OperationOf(effect: Effect): Option<Id> {
    match effect
    case Refuse(operation, _) => Some(operation)
    case OpenAccount(operation, _, _) => Some(operation)
    case PayClaim(claim, _) => Some(claim.operation)
    case PlaceBet(bet, _) => Some(bet.operation)
    case PostSettlement(_, row, _, _) => Some(row.operation)
    case PostAdjustment(entry, _) => Some(entry.operation)
    case Depart(operation, _) => Some(operation)
    case _ => None
  }

  lemma ApplyCountsEntries(db: Db, effect: Effect, operation: Id)
    requires Legal(db, effect)
    ensures EntriesFor(Apply(db, effect).ledger, operation)
         == EntriesFor(db.ledger, operation)
            + if EntryOf(effect).Some? && OperationOf(effect) == Some(operation) then 1 else 0
    ensures AdjustmentsFor(Apply(db, effect).ledger, operation)
         == AdjustmentsFor(db.ledger, operation)
            + if effect.PostAdjustment? && OperationOf(effect) == Some(operation) then 1 else 0
  {
    ApplyAppendsEntry(db, effect);
    if EntryOf(effect).Some? {
      CountsGrow(db.ledger, EntryOf(effect).value, operation);
    }
  }

  lemma ApplyCountsRows(db: Db, effect: Effect, operation: Id)
    requires Legal(db, effect)
    ensures ClaimsFor(Apply(db, effect).claims, operation)
         == ClaimsFor(db.claims, operation)
            + if effect.PayClaim? && OperationOf(effect) == Some(operation) then 1 else 0
    ensures BetsFor(Apply(db, effect).bets, operation)
         == BetsFor(db.bets, operation) + if effect.PlaceBet? && OperationOf(effect) == Some(operation) then 1 else 0
    ensures SettlementsFor(Apply(db, effect).settlements, operation)
         == SettlementsFor(db.settlements, operation)
            + if effect.PostSettlement? && OperationOf(effect) == Some(operation) then 1 else 0
  {
    var next := Apply(db, effect);
    match effect
    case PayClaim(claim, _) => assert next.claims[..|db.claims|] == db.claims;
    case PlaceBet(bet, _) => assert next.bets[..|db.bets|] == db.bets;
    case PostSettlement(index, row, _, _) =>
      assert next.settlements[..|db.settlements|] == db.settlements;
      BetsForStays(db.bets, index, next.bets[index], operation);
    case _ =>
  }

  lemma ApplyClaimsId(db: Db, effect: Effect)
    requires Legal(db, effect)
    ensures OperationOf(effect).Some? ==> OperationOf(effect).value !in db.operations
    ensures Apply(db, effect).operations.Keys
         == db.operations.Keys + if OperationOf(effect).Some? then {OperationOf(effect).value} else {}
  {
  }

  lemma ApplyKeepsOnce(db: Db, effect: Effect)
    requires Once(db) && Legal(db, effect)
    ensures Once(Apply(db, effect))
  {
    var next := Apply(db, effect);
    ApplyClaimsId(db, effect);
    forall operation
      ensures RowsFor(next, operation) <= 1 && EntriesFor(next.ledger, operation) <= 1
      ensures operation !in next.operations ==> RowsFor(next, operation) == 0 && EntriesFor(next.ledger, operation) == 0
    {
      ApplyCountsEntries(db, effect, operation);
      ApplyCountsRows(db, effect, operation);
      assert RowsFor(db, operation) <= 1;
    }
  }

  lemma {:induction false} RunKeepsOnce(actions: seq<Action>)
    ensures Grounded(Run(EMPTY_DB, actions)) && Once(Run(EMPTY_DB, actions))
    decreases |actions|
  {
    RunKeepsGrounded(EMPTY_DB, actions);
    if |actions| > 0 {
      var before, effect := LastStep(actions);
      RunKeepsOnce(actions[..|actions| - 1]);
      ApplyKeepsOnce(before, effect);
    }
  }

  /** Over any run with any repeats, an operation id stands for at most one claim, bet, settlement or
      adjustment in all the stores together, and for at most one ledger entry. */
  lemma ExactlyOnce(actions: seq<Action>, operation: Id)
    ensures RowsFor(Run(EMPTY_DB, actions), operation) <= 1
    ensures EntriesFor(Run(EMPTY_DB, actions).ledger, operation) <= 1
  {
    RunKeepsOnce(actions);
    assert RowsFor(Run(EMPTY_DB, actions), operation) <= 1;
  }

  function CallOperation(action: Action): Option<Id> {
    match action
    case DoSettle(input) => Some(input.operation)
    case DoPlace(_, input) => Some(input.operation)
    case DoClaim(_, input) => Some(input.operation)
    case DoAdjust(input) => Some(input.operation)
    case DoEnroll(input) => Some(input.operation)
    case DoLeave(operation, _) => Some(operation)
    case DoReject(operation, _, _) => Some(operation)
    case _ => None
  }

  /** A call whose id was already used, by any store and with any result, writes nothing. */
  lemma UsedIdWritesNothing(db: Db, action: Action)
    requires CallOperation(action).Some? && CallOperation(action).value in db.operations
    ensures Step(db, action) == db
  {
  }

  // ---- Replays ----

  ghost predicate RemembersSettlement(db: Db, operation: Id, outcome: Outcome) {
    var found := FindSettlementByOperation(db.settlements, operation);
    && operation in db.operations
    && found.Some? && SettledOutcome(db.ledger, found.value) == outcome
    && (found.value.entry.Some? ==> found.value.entry.value < |db.ledger|)
  }

  ghost predicate RemembersBet(db: Db, account: Id, operation: Id, outcome: Outcome) {
    var found := FindBetByOperation(db.bets, account, operation);
    operation in db.operations && found.Some? && PlacedOutcome(found.value) == outcome
  }

  ghost predicate RemembersClaim(db: Db, account: Id, operation: Id, outcome: Outcome) {
    var found := FindClaimByOperation(db.claims, account, operation);
    && operation in db.operations && found.Some? && found.value.entry < |db.ledger|
    && ClaimedOutcome(db.ledger, found.value) == outcome
  }

  lemma {:induction false} FindBetByOperationStays(bets: seq<Bet>, index: nat, bet: Bet, account: Id, operation: Id)
    requires index < |bets|
    requires bet.account == bets[index].account && bet.operation == bets[index].operation
    requires PlacedOutcome(bet) == PlacedOutcome(bets[index])
    ensures var found := FindBetByOperation(bets, account, operation);
            var now := FindBetByOperation(bets[index := bet], account, operation);
            found.Some? == now.Some? && (found.Some? ==> PlacedOutcome(found.value) == PlacedOutcome(now.value))
    decreases |bets|
  {
    var last := |bets| - 1;
    if index == last {
      assert bets[index := bet][..last] == bets[..last];
    } else {
      assert bets[index := bet][..last] == bets[..last][index := bet];
      FindBetByOperationStays(bets[..last], index, bet, account, operation);
    }
  }

  lemma ApplyRemembersSettlement(db: Db, effect: Effect, operation: Id, outcome: Outcome)
    requires Legal(db, effect) && RemembersSettlement(db, operation, outcome)
    ensures RemembersSettlement(Apply(db, effect), operation, outcome)
  {
    var next := Apply(db, effect);
    ApplyClaimsId(db, effect);
    ApplyAppendsEntry(db, effect);
    if effect.PostSettlement? {
      assert next.settlements[..|db.settlements|] == db.settlements;
    }
    assert FindSettlementByOperation(next.settlements, operation)
        == FindSettlementByOperation(db.settlements, operation);
  }

  lemma ApplyRemembersBet(db: Db, effect: Effect, account: Id, operation: Id, outcome: Outcome)
    requires Legal(db, effect) && RemembersBet(db, account, operation, outcome)
    ensures RemembersBet(Apply(db, effect), account, operation, outcome)
  {
    var next := Apply(db, effect);
    ApplyClaimsId(db, effect);
    match effect
    case PlaceBet(bet, entry) => assert next.bets[..|db.bets|] == db.bets;
    case PostSettlement(index, _, _, _) =>
      FindBetByOperationStays(db.bets, index, next.bets[index], account, operation);
    case _ => assert next.bets == db.bets;
  }

  lemma ApplyRemembersClaim(db: Db, effect: Effect, account: Id, operation: Id, outcome: Outcome)
    requires Legal(db, effect) && RemembersClaim(db, account, operation, outcome)
    ensures RemembersClaim(Apply(db, effect), account, operation, outcome)
  {
    var next := Apply(db, effect);
    ApplyClaimsId(db, effect);
    ApplyAppendsEntry(db, effect);
    if effect.PayClaim? {
      assert next.claims[..|db.claims|] == db.claims;
    }
    assert FindClaimByOperation(next.claims, account, operation) == FindClaimByOperation(db.claims, account, operation);
  }

  lemma {:induction false} RunRemembers(db: Db, later: seq<Action>, account: Id, operation: Id, outcome: Outcome)
    requires Grounded(db)
    ensures RemembersSettlement(db, operation, outcome) ==> RemembersSettlement(Run(db, later), operation, outcome)
    ensures RemembersBet(db, account, operation, outcome) ==> RemembersBet(Run(db, later), account, operation, outcome)
    ensures RemembersClaim(db, account, operation, outcome)
        ==> RemembersClaim(Run(db, later), account, operation, outcome)
    decreases |later|
  {
    if |later| > 0 {
      var last := |later| - 1;
      var before := Run(db, later[..last]);
      RunRemembers(db, later[..last], account, operation, outcome);
      RunKeepsGrounded(db, later[..last]);
      DecisionIsLegal(before, later[last]);
      var effect := Decide(before, later[last]).effect;
      if RemembersSettlement(before, operation, outcome) {
        ApplyRemembersSettlement(before, effect, operation, outcome);
      }
      if RemembersBet(before, account, operation, outcome) {
        ApplyRemembersBet(before, effect, account, operation, outcome);
      }
      if RemembersClaim(before, account, operation, outcome) {
        ApplyRemembersClaim(before, effect, account, operation, outcome);
      }
    }
  }

  lemma StepKeepsGrounded(actions: seq<Action>, action: Action)
    ensures Grounded(Run(EMPTY_DB, actions)) && Grounded(Step(Run(EMPTY_DB, actions), action))
  {
    RunKeepsGrounded(EMPTY_DB, actions);
    DecisionIsLegal(Run(EMPTY_DB, actions), action);
    ApplyKeepsGrounded(Run(EMPTY_DB, actions), Decide(Run(EMPTY_DB, actions), action).effect);
  }

  lemma PostedIsRemembered(db: Db, effect: Effect, outcome: Outcome)
    requires effect.PostSettlement? && Legal(db, effect)
    requires outcome == Settled(effect.row.id, effect.row.payout, effect.row.appliedDelta,
                                if effect.posting.Some?
                                then Split(effect.posting.value.availableDelta, effect.posting.value.debtDelta)
                                else Split(0, 0),
                                effect.row.revision)
    ensures RemembersSettlement(Apply(db, effect), effect.row.operation, outcome)
  {
    var next := Apply(db, effect);
    assert next.settlements[|db.settlements|].operation == effect.row.operation;
    ApplyAppendsEntry(db, effect);
  }

  lemma SettledIsRemembered(db: Db, input: SettleInput)
    requires Grounded(db) && Settle(db, input).outcome.Settled?
    ensures RemembersSettlement(Step(db, DoSettle(input)), input.operation, Settle(db, input).outcome)
  {
    var decision := Settle(db, input);
    match FindSettlementByOperation(db.settlements, input.operation)
    case None =>
      SettleIsLegal(db, input);
      PostedIsRemembered(db, decision.effect, decision.outcome);
    case Some(row) =>
      var i :| 0 <= i < |db.settlements| && db.settlements[i] == row;
  }

  /** Repeating a settlement that settled, at any later time and with any other fields, returns the
      identical result and changes nothing. */
  lemma SettlementReplay(actions: seq<Action>, input: SettleInput, later: seq<Action>, again: SettleInput)
    requires Settle(Run(EMPTY_DB, actions), input).outcome.Settled?
    requires again.operation == input.operation && again.revision > 0
    ensures var db := Run(EMPTY_DB, actions);
            Settle(Run(Step(db, DoSettle(input)), later), again) == Decision(Keep, Settle(db, input).outcome)
  {
    var db := Run(EMPTY_DB, actions);
    StepKeepsGrounded(actions, DoSettle(input));
    SettledIsRemembered(db, input);
    RunRemembers(Step(db, DoSettle(input)), later, input.operation, input.operation, Settle(db, input).outcome);
  }

  lemma PlacedIsRemembered(db: Db, account: Id, input: PlaceInput)
    requires Grounded(db) && PlaceAs(db, Some(account), input).outcome.Placed?
    ensures RemembersBet(Step(db, DoPlace(Some(account), input)), account, input.operation,
                         PlaceAs(db, Some(account), input).outcome)
  {
    match FindBetByOperation(db.bets, account, input.operation)
    case None =>
      assert Step(db, DoPlace(Some(account), input)).bets[|db.bets|].operation == input.operation;
    case Some(bet) =>
      var i :| 0 <= i < |db.bets| && db.bets[i] == bet;
  }

  lemma RememberedBetReplays(db: Db, account: Id, outcome: Outcome, again: PlaceInput)
    requires RemembersBet(db, account, again.operation, outcome)
    requires ValidSlip(again.stake, again.predictedHome, again.predictedAway)
    requires ActiveAccount(db, again.guild, again.user) == Some(account)
    ensures Place(db, again) == Decision(Keep, outcome)
  {
  }

  /** Repeating a placement while the caller's enrollment still leads to the same account. */
  lemma PlacementReplay(actions: seq<Action>, account: Id, input: PlaceInput, later: seq<Action>, again: PlaceInput)
    requires PlaceAs(Run(EMPTY_DB, actions), Some(account), input).outcome.Placed?
    requires again.operation == input.operation && ValidSlip(again.stake, again.predictedHome, again.predictedAway)
    requires var now := Run(Step(Run(EMPTY_DB, actions), DoPlace(Some(account), input)), later);
             ActiveAccount(now, again.guild, again.user) == Some(account)
    ensures var db := Run(EMPTY_DB, actions);
            Place(Run(Step(db, DoPlace(Some(account), input)), later), again)
            == Decision(Keep, PlaceAs(db, Some(account), input).outcome)
  {
    var db, placing := Run(EMPTY_DB, actions), DoPlace(Some(account), input);
    var outcome := PlaceAs(db, Some(account), input).outcome;
    StepKeepsGrounded(actions, placing);
    PlacedIsRemembered(db, account, input);
    RunRemembers(Step(db, placing), later, account, input.operation, outcome);
    RememberedBetReplays(Run(Step(db, placing), later), account, outcome, again);
  }

  lemma ClaimedIsRemembered(db: Db, account: Id, input: ClaimInput)
    requires Grounded(db) && ClaimAs(db, Some(account), input).outcome.Claimed?
    ensures RemembersClaim(Step(db, DoClaim(Some(account), input)), account, input.operation,
                           ClaimAs(db, Some(account), input).outcome)
  {
    match FindClaimByOperation(db.claims, account, input.operation)
    case None =>
      assert Step(db, DoClaim(Some(account), input)).claims[|db.claims|].operation == input.operation;
    case Some(claim) =>
      var i :| 0 <= i < |db.claims| && db.claims[i] == claim;
  }

  lemma RememberedClaimReplays(db: Db, account: Id, outcome: Outcome, again: ClaimInput)
    requires RemembersClaim(db, account, again.operation, outcome)
    requires ActiveAccount(db, again.guild, again.user) == Some(account)
    ensures ClaimDaily(db, again) == Decision(Keep, outcome)
  {
  }

  lemma ClaimReplay(actions: seq<Action>, account: Id, input: ClaimInput, later: seq<Action>, again: ClaimInput)
    requires ClaimAs(Run(EMPTY_DB, actions), Some(account), input).outcome.Claimed?
    requires again.operation == input.operation
    requires var now := Run(Step(Run(EMPTY_DB, actions), DoClaim(Some(account), input)), later);
             ActiveAccount(now, again.guild, again.user) == Some(account)
    ensures var db := Run(EMPTY_DB, actions);
            ClaimDaily(Run(Step(db, DoClaim(Some(account), input)), later), again)
            == Decision(Keep, ClaimAs(db, Some(account), input).outcome)
  {
    var db, claiming := Run(EMPTY_DB, actions), DoClaim(Some(account), input);
    var outcome := ClaimAs(db, Some(account), input).outcome;
    StepKeepsGrounded(actions, claiming);
    ClaimedIsRemembered(db, account, input);
    RunRemembers(Step(db, claiming), later, account, input.operation, outcome);
    RememberedClaimReplays(Run(Step(db, claiming), later), account, outcome, again);
  }
}
