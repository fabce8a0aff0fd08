/** Conservation in closed form, path independence, and exactly when a balance and a debt coexist. */
module KboConservation {
  import opened Options
  import opened KboMoney
  import opened KboTables
  import opened KboDecisions
  import opened KboRuns

  // ---- The tables an account's net worth is computed from ----

  function ClaimCount(claims: seq<Claim>, account: Id): nat {
    var last := |claims| - 1;
    if last < 0 then 0
    else ClaimCount(claims[..last], account) + if claims[last].account == account then 1 else 0
  }

  function StakeSum(bets: seq<Bet>, account: Id): int {
    var last := |bets| - 1;
    if last < 0 then 0
    else StakeSum(bets[..last], account) + if bets[last].account == account then bets[last].stake else 0
  }

  function ReturnSum(bets: seq<Bet>, settlements: seq<Settlement>, account: Id): int {
    var last := |bets| - 1;
    if last < 0 then 0
    else
      ReturnSum(bets[..last], settlements, account)
      + if bets[last].account == account then CurrentReturn(settlements, bets[last]) else 0
  }

  function AdjustmentSum(ledger: seq<Entry>, account: Id): int {
    var last := |ledger| - 1;
    if last < 0 then 0
    else
      AdjustmentSum(ledger[..last], account)
      + if ledger[last].account == account && ledger[last].reason.AdminAdjustment?
        then ledger[last].availableDelta else 0
  }

  /** What an account is worth by its claims, stakes, current settlements and adjustments; the
      superseded settlements and the order of events do not appear in it. */
  function Net(db: Db, account: Id): int {
    DAILY_CREDIT * ClaimCount(db.claims, account)
    - StakeSum(db.bets, account)
    + ReturnSum(db.bets, db.settlements, account)
    + AdjustmentSum(db.ledger, account)
  }

  ghost predicate Balanced(db: Db) {
    forall a | a in db.accounts :: db.accounts[a].available - db.accounts[a].debt == Net(db, a)
  }

  // ---- How each write moves the sums ----

  lemma ClaimCountGrows(claims: seq<Claim>, claim: Claim, account: Id)
    ensures ClaimCount(claims + [claim], account)
         == ClaimCount(claims, account) + if claim.account == account then 1 else 0
  {
    assert (claims + [claim])[..|claims|] == claims;
  }

  lemma AdjustmentSumGrows(ledger: seq<Entry>, entry: Entry, account: Id)
    ensures AdjustmentSum(ledger + [entry], account)
         == AdjustmentSum(ledger, account)
            + if entry.account == account && entry.reason.AdminAdjustment? then entry.availableDelta else 0
  {
    assert (ledger + [entry])[..|ledger|] == ledger;
  }

  lemma BetSumsGrow(bets: seq<Bet>, settlements: seq<Settlement>, bet: Bet, account: Id)
    requires bet.current.None?
    ensures StakeSum(bets + [bet], account) == StakeSum(bets, account) + if bet.account == account then bet.stake else 0
    ensures ReturnSum(bets + [bet], settlements, account) == ReturnSum(bets, settlements, account)
  {
    assert (bets + [bet])[..|bets|] == bets;
  }

  lemma {:induction false} ReturnSumIgnoresUnused(bets: seq<Bet>, settlements: seq<Settlement>, row: Settlement,
                                                  account: Id)
    requires forall i | 0 <= i < |bets| :: bets[i].current != Some(row.id)
    ensures ReturnSum(bets, settlements + [row], account) == ReturnSum(bets, settlements, account)
    decreases |bets|
  {
    if |bets| > 0 {
      ReturnSumIgnoresUnused(bets[..|bets| - 1], settlements, row, account);
      FindSettlementGrows(settlements, row, bets[|bets| - 1]);
    }
  }

  lemma FindSettlementGrows(settlements: seq<Settlement>, row: Settlement, bet: Bet)
    ensures bet.current != Some(row.id)
            ==> CurrentSettlement(settlements + [row], bet) == CurrentSettlement(settlements, bet)
    ensures bet.current == Some(row.id) ==> CurrentSettlement(settlements + [row], bet) == Some(row)
  {
    assert (settlements + [row])[..|settlements|] == settlements;
  }

  lemma {:induction false} BetSumsUpdate(bets: seq<Bet>, settlements: seq<Settlement>, index: nat, bet: Bet,
                                         account: Id)
    requires index < |bets| && bet.account == bets[index].account && bet.stake == bets[index].stake
    ensures StakeSum(bets[index := bet], account) == StakeSum(bets, account)
    ensures ReturnSum(bets[index := bet], settlements, account)
         == ReturnSum(bets, settlements, account)
            + if bet.account == account
              then CurrentReturn(settlements, bet) - CurrentReturn(settlements, bets[index]) else 0
    decreases |bets|
  {
    var last := |bets| - 1;
    if index == last {
      assert bets[index := bet][..last] == bets[..last];
    } else {
      assert bets[index := bet][..last] == bets[..last][index := bet];
      BetSumsUpdate(bets[..last], settlements, index, bet, account);
    }
  }

  lemma {:induction false} NoRowsNoNet(db: Db, account: Id)
    requires Grounded(db) && account !in db.accounts
    ensures Net(db, account) == 0
  {
    NoClaims(db.claims, account);
    NoBets(db.bets, db.settlements, account);
    NoAdjustments(db.ledger, account);
  }

  lemma NoClaims(claims: seq<Claim>, account: Id)
    requires forall i | 0 <= i < |claims| :: claims[i].account != account
    ensures ClaimCount(claims, account) == 0
  {
  }

  lemma NoBets(bets: seq<Bet>, settlements: seq<Settlement>, account: Id)
    requires forall i | 0 <= i < |bets| :: bets[i].account != account
    ensures StakeSum(bets, account) == 0 && ReturnSum(bets, settlements, account) == 0
  {
  }

  lemma NoAdjustments(ledger: seq<Entry>, account: Id)
    requires forall i | 0 <= i < |ledger| :: ledger[i].account != account
    ensures AdjustmentSum(ledger, account) == 0
  {
  }

  /** Every current settlement is in the table. */
  ghost predicate Pointed(db: Db) {
    forall i | 0 <= i < |db.bets| :: db.bets[i].current.Some? ==> CurrentSettlement(db.settlements, db.bets[i]).Some?
  }

  lemma ApplyKeepsPointed(db: Db, effect: Effect)
    requires Pointed(db) && Legal(db, effect)
    ensures Pointed(Apply(db, effect))
  {
    match effect
    case PostSettlement(index, row, status, posting) =>
      var next := Apply(db, effect);
      var stored := next.settlements[|db.settlements|];
      forall i | 0 <= i < |next.bets| && next.bets[i].current.Some?
        ensures CurrentSettlement(next.settlements, next.bets[i]).Some?
      {
        FindSettlementGrows(db.settlements, stored, next.bets[i]);
      }
    case _ =>
  }

  // ---- Conservation ----

  lemma PostSettlementNet(db: Db, index: nat, row: Settlement, status: BetStatus, posting: Option<Entry>, account: Id)
    requires Grounded(db) && Pointed(db) && Legal(db, PostSettlement(index, row, status, posting))
    ensures Net(Apply(db, PostSettlement(index, row, status, posting)), account)
         == Net(db, account) + if db.bets[index].account == account then row.appliedDelta else 0
  {
    var next := Apply(db, PostSettlement(index, row, status, posting));
    var bet := db.bets[index].(status := status, current := Some(row.id));
    var stored := next.settlements[|db.settlements|];
    forall i | 0 <= i < |db.bets| ensures db.bets[i].current != Some(row.id) {
      assert db.bets[i].current.Some? ==> CurrentSettlement(db.settlements, db.bets[i]).Some?;
    }
    ReturnSumIgnoresUnused(db.bets, db.settlements, stored, account);
    BetSumsUpdate(db.bets, next.settlements, index, bet, account);
    FindSettlementGrows(db.settlements, stored, bet);
    FindSettlementGrows(db.settlements, stored, db.bets[index]);
    if posting.Some? {
      AdjustmentSumGrows(db.ledger, posting.value, account);
    }
  }

  lemma PayClaimNet(db: Db, claim: Claim, entry: Entry, account: Id)
    requires Legal(db, PayClaim(claim, entry))
    ensures Net(Apply(db, PayClaim(claim, entry)), account)
         == Net(db, account) + if claim.account == account then DAILY_CREDIT else 0
  {
    ClaimCountGrows(db.claims, claim.(entry := |db.ledger|), account);
    AdjustmentSumGrows(db.ledger, entry, account);
  }

  lemma PlaceBetNet(db: Db, bet: Bet, entry: Entry, account: Id)
    requires Legal(db, PlaceBet(bet, entry))
    ensures Net(Apply(db, PlaceBet(bet, entry)), account)
         == Net(db, account) - if bet.account == account then bet.stake else 0
  {
    BetSumsGrow(db.bets, db.settlements, bet.(entry := |db.ledger|), account);
    AdjustmentSumGrows(db.ledger, entry, account);
  }

  /** The amount a write adds to an account's balance less its debt. */
  function Moves(db: Db, effect: Effect, account: Id): int {
    match effect
    case PayClaim(claim, _) => if claim.account == account then DAILY_CREDIT else 0
    case PlaceBet(bet, _) => if bet.account == account then -bet.stake else 0
    case PostSettlement(index, row, _, _) =>
      if index < |db.bets| && db.bets[index].account == account then row.appliedDelta else 0
    case PostAdjustment(entry, _) => if entry.account == account then entry.availableDelta else 0
    case _ => 0
  }

  lemma ApplyMovesNet(db: Db, effect: Effect, account: Id)
    requires Grounded(db) && Pointed(db) && Legal(db, effect)
    ensures Net(Apply(db, effect), account) == Net(db, account) + Moves(db, effect, account)
  {
    match effect
    case PayClaim(claim, entry) => PayClaimNet(db, claim, entry, account);
    case PlaceBet(bet, entry) => PlaceBetNet(db, bet, entry, account);
    case PostSettlement(index, row, status, posting) => PostSettlementNet(db, index, row, status, posting, account);
    case PostAdjustment(entry, _) => AdjustmentSumGrows(db.ledger, entry, account);
    case _ =>
  }

  lemma ApplyMovesBalances(db: Db, effect: Effect, account: Id)
    requires Legal(db, effect) && account in db.accounts
    ensures account in Apply(db, effect).accounts
    ensures var row := Apply(db, effect).accounts[account];
            row.available - row.debt
            == db.accounts[account].available - db.accounts[account].debt + Moves(db, effect, account)
  {
  }

  lemma ApplyKeepsBalanced(db: Db, effect: Effect)
    requires Grounded(db) && Pointed(db) && Balanced(db) && Legal(db, effect)
    ensures Balanced(Apply(db, effect))
  {
    var next := Apply(db, effect);
    forall a | a in next.accounts ensures next.accounts[a].available - next.accounts[a].debt == Net(next, a) {
      ApplyMovesNet(db, effect, a);
      if a in db.accounts {
        ApplyMovesBalances(db, effect, a);
      } else {
        NoRowsNoNet(db, a);
      }
    }
  }

  lemma {:induction false} RunKeepsBalanced(actions: seq<Action>)
    ensures Grounded(Run(EMPTY_DB, actions)) && Pointed(Run(EMPTY_DB, actions)) && Balanced(Run(EMPTY_DB, actions))
    decreases |actions|
  {
    if |actions| > 0 {
      var before, effect := LastStep(actions);
      RunKeepsBalanced(actions[..|actions| - 1]);
      ApplyKeepsGrounded(before, effect);
      ApplyKeepsPointed(before, effect);
      ApplyKeepsBalanced(before, effect);
    }
  }

  /** Whatever happened, every account's balance less its debt is 50,000 per daily claim, less all its
      stakes, plus what its bets' current settlements return, plus its adjustments. */
  lemma Conservation(actions: seq<Action>, account: Id)
    ensures var db := Run(EMPTY_DB, actions);
            account in db.accounts ==>
              db.accounts[account].available - db.accounts[account].debt
              == DAILY_CREDIT * ClaimCount(db.claims, account) - StakeSum(db.bets, account)
                 + ReturnSum(db.bets, db.settlements, account) + AdjustmentSum(db.ledger, account)
  {
    RunKeepsBalanced(actions);
  }

  // ---- Path independence ----

  /** No account holds a balance and a debt at once. */
  ghost predicate Unmixed(db: Db) {
    forall a | a in db.accounts :: db.accounts[a].available == 0 || db.accounts[a].debt == 0
  }

  /** The write moves credit past a debt: a first void refund or a positive adjustment. */
  predicate BypassesDebt(effect: Effect) {
    match effect
    case PostSettlement(_, row, _, posting) =>
      posting.Some? && posting.value.debtBefore > 0 && row.supersedes.None? && row.payout.result.VoidResult?
    case PostAdjustment(entry, _) => entry.debtBefore > 0 && entry.availableDelta > 0
    case _ => false
  }

  /** A balance and a debt come to coexist exactly when a first void refund or a positive adjustment
      reaches an indebted account. */
  lemma MixedExactlyByBypass(db: Db, effect: Effect)
    requires Grounded(db) && Legal(db, effect) && Unmixed(db)
    ensures Unmixed(Apply(db, effect)) <==> !BypassesDebt(effect)
  {
    var next := Apply(db, effect);
    match effect
    case PostSettlement(index, row, _, posting) =>
      if BypassesDebt(effect) {
        assert row.payout.returnAmount > 0;
        assert next.accounts[posting.value.account].available > 0 && next.accounts[posting.value.account].debt > 0;
      }
    case PostAdjustment(entry, _) =>
      if BypassesDebt(effect) {
        assert next.accounts[entry.account].available > 0 && next.accounts[entry.account].debt > 0;
      }
    case _ =>
  }

  /** The call would move credit past a debt, by what the tables say before it: the first settlement of a
      bet on a game that was called off, or a positive adjustment, on an account in debt. */
  predicate AimsPastDebt(db: Db, action: Action) {
    match action
    case DoSettle(input) =>
      (match FindBet(db.bets, input.bet)
       case None => false
       case Some(i) =>
         var bet := db.bets[i];
         && bet.current.None? && input.game in db.games && CalledOff(db.games[input.game].status)
         && bet.account in db.accounts && db.accounts[bet.account].debt > 0)
    case DoAdjust(input) => input.delta > 0 && input.account in db.accounts && db.accounts[input.account].debt > 0
    case _ => false
  }

  /** The call was accepted and wrote something new. */
  predicate Posts(effect: Effect) {
    effect.PostSettlement? || effect.PostAdjustment?
  }

  lemma SettleBypassesExactly(db: Db, input: SettleInput)
    requires Grounded(db)
    ensures var effect := Decide(db, DoSettle(input)).effect;
            BypassesDebt(effect) <==> effect.PostSettlement? && AimsPastDebt(db, DoSettle(input))
  {
    var effect := Decide(db, DoSettle(input)).effect;
    SettleIsLegal(db, input);
    if effect.PostSettlement? {
      var bet := db.bets[FindBet(db.bets, input.bet).value];
      assert bet.stake > 0;
    }
  }

  /** A call moves credit past a debt if and only if it aims at it and is accepted. */
  lemma BypassesExactly(db: Db, action: Action)
    requires Grounded(db)
    ensures var effect := Decide(db, action).effect;
            BypassesDebt(effect) <==> Posts(effect) && AimsPastDebt(db, action)
  {
    if action.DoSettle? {
      SettleBypassesExactly(db, action.settle);
    }
  }

  /** No step of the run moved credit past a debt. */
  predicate NeverBypasses(actions: seq<Action>) {
    forall n | 0 <= n < |actions| ::
      !BypassesDebt(Decide(Run(EMPTY_DB, actions[..n]), actions[n]).effect)
  }

  lemma {:induction false} RunStaysUnmixed(actions: seq<Action>)
    requires NeverBypasses(actions)
    ensures Unmixed(Run(EMPTY_DB, actions))
    decreases |actions|
  {
    if |actions| > 0 {
      var front := actions[..|actions| - 1];
      forall n | 0 <= n < |front| ensures !BypassesDebt(Decide(Run(EMPTY_DB, front[..n]), front[n]).effect) {
        assert front[..n] == actions[..n];
      }
      RunStaysUnmixed(front);
      var before, effect := LastStep(actions);
      MixedExactlyByBypass(before, effect);
    }
  }

  /** Then both columns are a function of the net worth alone. */
  lemma BalancesFromNet(actions: seq<Action>, account: Id)
    requires NeverBypasses(actions)
    ensures var db := Run(EMPTY_DB, actions);
            account in db.accounts ==>
              var net := Net(db, account);
              && db.accounts[account].available == (if net > 0 then net else 0)
              && db.accounts[account].debt == (if net < 0 then -net else 0)
  {
    RunStaysUnmixed(actions);
    RunKeepsBalanced(actions);
  }

  /** Neither an adjustment nor the first settlement of a bet on a game that was called off. */
  predicate Ordinary(db: Db, action: Action) {
    match action
    case DoAdjust(_) => false
    case DoSettle(input) =>
      (match FindBet(db.bets, input.bet)
       case None => true
       case Some(i) => db.bets[i].current.Some? || input.game !in db.games || !CalledOff(db.games[input.game].status))
    case _ => true
  }

  predicate OrdinaryRun(actions: seq<Action>) {
    forall n | 0 <= n < |actions| :: Ordinary(Run(EMPTY_DB, actions[..n]), actions[n])
  }

  /** In a run of ordinary calls only, balance and debt are the two parts of the net worth. */
  lemma OrdinaryBalancesFromNet(actions: seq<Action>, account: Id)
    requires OrdinaryRun(actions)
    ensures var db := Run(EMPTY_DB, actions);
            account in db.accounts ==>
              var net := Net(db, account);
              && db.accounts[account].available == (if net > 0 then net else 0)
              && db.accounts[account].debt == (if net < 0 then -net else 0)
  {
    forall n | 0 <= n < |actions|
      ensures !BypassesDebt(Decide(Run(EMPTY_DB, actions[..n]), actions[n]).effect)
    {
      RunKeepsGrounded(EMPTY_DB, actions[..n]);
      BypassesExactly(Run(EMPTY_DB, actions[..n]), actions[n]);
      assert Ordinary(Run(EMPTY_DB, actions[..n]), actions[n]);
    }
    BalancesFromNet(actions, account);
  }

  /** The two databases record the same claims, bets and adjustments of the account, and each bet
      currently returns the same, however it came to. */
  ghost predicate SamePosition(one: Db, other: Db, account: Id) {
    && ClaimCount(one.claims, account) == ClaimCount(other.claims, account)
    && AdjustmentSum(one.ledger, account) == AdjustmentSum(other.ledger, account)
    && |one.bets| == |other.bets|
    && forall i | 0 <= i < |one.bets| ::
         && one.bets[i].account == other.bets[i].account && one.bets[i].stake == other.bets[i].stake
         && CurrentReturn(one.settlements, one.bets[i]) == CurrentReturn(other.settlements, other.bets[i])
  }

  lemma {:induction false} SamePositionSameSums(bets: seq<Bet>, settlements: seq<Settlement>, bets': seq<Bet>,
                                                settlements': seq<Settlement>, account: Id)
    requires |bets| == |bets'|
    requires forall i | 0 <= i < |bets| ::
               && bets[i].account == bets'[i].account && bets[i].stake == bets'[i].stake
               && CurrentReturn(settlements, bets[i]) == CurrentReturn(settlements', bets'[i])
    ensures StakeSum(bets, account) == StakeSum(bets', account)
    ensures ReturnSum(bets, settlements, account) == ReturnSum(bets', settlements', account)
    decreases |bets|
  {
    if |bets| > 0 {
      var last := |bets| - 1;
      SamePositionSameSums(bets[..last], settlements, bets'[..last], settlements', account);
    }
  }

  /** Two histories that end in the same claims, bets, current returns and adjustments leave the same
      balance and debt: how often and in what order settlements were corrected does not matter. */
  lemma PathIndependence(one: seq<Action>, other: seq<Action>, account: Id)
    requires NeverBypasses(one) && NeverBypasses(other)
    requires account in Run(EMPTY_DB, one).accounts && account in Run(EMPTY_DB, other).accounts
    requires SamePosition(Run(EMPTY_DB, one), Run(EMPTY_DB, other), account)
    ensures Run(EMPTY_DB, one).accounts[account].available == Run(EMPTY_DB, other).accounts[account].available
    ensures Run(EMPTY_DB, one).accounts[account].debt == Run(EMPTY_DB, other).accounts[account].debt
  {
    var db, db' := Run(EMPTY_DB, one), Run(EMPTY_DB, other);
    SamePositionSameSums(db.bets, db.settlements, db'.bets, db'.settlements, account);
    BalancesFromNet(one, account);
    BalancesFromNet(other, account);
  }
}
