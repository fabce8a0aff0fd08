/** The credit stores as one object over the shared tables. Each method runs one transaction to its
    commit or rollback, statement by statement, and is proved to write and report exactly what its
    decision says. */
module KboStore {
  import opened Members
  import opened Options
  import opened KboMoney
  import opened KboTables
  import D = KboDecisions
  import opened KboDecisions

  /** The settlement's id, or its bet and revision, are in the table already. */
  predicate SettlementKeyTaken(settlements: seq<Settlement>, row: Settlement) {
    || (exists i | 0 <= i < |settlements| :: settlements[i].id == row.id)
    || (exists i | 0 <= i < |settlements| ::
          (settlements[i].bet, settlements[i].revision) == (row.bet, row.revision))
  }

  class CreditStore {
    var accounts: map<Id, Account>
    var active: map<Member, Id>
    var registered: set<Member>
    var ledger: seq<Entry>
    var claims: seq<Claim>
    var bets: seq<Bet>
    var settlements: seq<Settlement>
    var operations: map<Id, Verdict>
    var games: map<Id, Game>

    function View(): Db
      reads this
    {
      Db(accounts, active, registered, ledger, claims, bets, settlements, operations, games)
    }

    constructor ()
      ensures View() == EMPTY_DB
    {
      accounts, active, registered := map[], map[], {};
      ledger, claims, bets, settlements := [], [], [], [];
      operations, games := map[], map[];
    }

    method Rollback(saved: Db)
      modifies this
      ensures View() == saved
    {
      accounts, active, registered := saved.accounts, saved.active, saved.registered;
      ledger, claims, bets, settlements := saved.ledger, saved.claims, saved.bets, saved.settlements;
      operations, games := saved.operations, saved.games;
    }

    /** Insert into the operation ledger, doing nothing on conflict. */
    method ClaimOperation(operation: Id, verdict: Verdict) returns (claimed: bool)
      modifies this`operations
      ensures claimed <==> operation !in old(operations)
      ensures operations == if claimed then old(operations)[operation := verdict] else old(operations)
    {
      if operation in operations {
        return false;
      }
      operations := operations[operation := verdict];
      claimed := true;
    }

    method CommitDenied(operation: Id, reason: DenialReason) returns (outcome: Outcome)
      modifies this`operations
      ensures var d := Conclude(old(View()), operation, Deny(reason));
              View() == Apply(old(View()), d.effect) && outcome == d.outcome
    {
      var claimed := ClaimOperation(operation, Refused);
      outcome := if claimed then Denied(reason) else DuplicateOperation;
    }

    /** Set both balances and append the ledger row that explains the change. */
    method PostEntry(entry: Entry) returns (entryId: nat)
      modifies this`accounts, this`ledger
      ensures accounts == WriteBalances(old(accounts), entry)
      ensures ledger == old(ledger) + [entry] && entryId == |old(ledger)|
    {
      if entry.account in accounts {
        accounts := accounts[entry.account := Account(entry.availableAfter, entry.debtAfter,
                                                      accounts[entry.account].version + 1)];
      }
      entryId := |ledger|;
      ledger := ledger + [entry];
    }

    /** Claim the operation, post the ledger entry if money moves, append the settlement and point the
        bet at it; a unique key that is already taken undoes all of it. */
    method CommitSettlement(index: nat, row: Settlement, status: BetStatus, posting: Option<Entry>, split: Split)
      returns (outcome: Outcome)
      requires index < |bets|
      modifies this
      ensures var d := Conclude(old(View()), row.operation,
                                Write(PostSettlement(index, row, status, posting),
                                      Settled(row.id, row.payout, row.appliedDelta, split, row.revision)));
              View() == Apply(old(View()), d.effect) && outcome == d.outcome
    {
      var saved := View();
      var claimed := ClaimOperation(row.operation, Accepted);
      if !claimed { return DuplicateOperation; }
      var entryId: Option<nat> := None;
      if posting.Some? {
        var id := PostEntry(posting.value);
        entryId := Some(id);
      }
      if (posting.Some? && !EntryFits(posting.value)) || SettlementKeyTaken(settlements, row) {
        Rollback(saved);
        return Failed;
      }
      assert Admissible(saved, PostSettlement(index, row, status, posting));
      settlements := settlements + [row.(entry := entryId)];
      bets := bets[index := bets[index].(status := status, current := Some(row.id))];
      return Settled(row.id, row.payout, row.appliedDelta, split, row.revision);
    }

    /** Allocate what a payout changes and write it. */
    method CommitPayout(input: SettleInput, account: Id, index: nat, payout: Payout) returns (outcome: Outcome)
      requires account in accounts && index < |bets|
      modifies this
      ensures var was := old(View());
              var d := Conclude(was, input.operation,
                                SettlePayout(was, input, account, was.accounts[account], index, payout));
              View() == Apply(was, d.effect) && outcome == d.outcome
    {
      var row, bet := accounts[account], bets[index];
      var appliedDelta := payout.returnAmount - CurrentReturn(settlements, bet);
      var voided := payout.result.VoidResult?;
      var split := AllocateSettlementDelta(row.available, row.debt, appliedDelta, bet.current.None? && voided);
      if split.None? { return Failed; }
      var reason := if bet.current.Some? then SettlementCorrection else if voided then BetVoidRefund else BetPayout;
      var posting := SettlementEntry(account, row, split.value, reason, input.operation);
      var settlement := Settlement(input.settlement, input.bet, input.game, input.revision, payout, appliedDelta,
                                   input.operation, None, bet.current);
      outcome := CommitSettlement(index, settlement, if voided then Voided else Resolved, posting, split.value);
    }

    /** The settlement once the account and the game are locked. */
    method SettleLocked(input: SettleInput, account: Id) returns (outcome: Outcome)
      requires BetOwner(bets, input) == Some(account) && account in accounts && input.game in games
      modifies this
      ensures var was := old(View());
              var d := Conclude(was, input.operation,
                                D.SettleLocked(was, input, account, was.accounts[account], was.games[input.game]));
              View() == Apply(was, d.effect) && outcome == d.outcome
    {
      var row, game := accounts[account], games[input.game];
      if game.revision != input.revision {
        outcome := CommitDenied(input.operation, RevisionNotCurrent);
        return;
      }
      var index := FindBet(bets, input.bet).value;
      var bet := bets[index];
      var current := CurrentSettlement(settlements, bet);
      if current.Some? {
        if current.value.revision == input.revision {
          outcome := CommitDenied(input.operation, AlreadySettled);
          return;
        }
        if current.value.revision > input.revision {
          outcome := CommitDenied(input.operation, RevisionNotNewer);
          return;
        }
      }
      var calculated := CalculateSettlement(bet.stake, bet.prediction, bet.predictedHome, bet.predictedAway,
                                            game.status, game.homeScore, game.awayScore);
      if calculated.Crashed? { return Failed; }
      if calculated.NotTerminal? {
        outcome := CommitDenied(input.operation, GameNotTerminal);
        return;
      }
      outcome := CommitPayout(input, account, index, calculated.payout);
    }

    method Settle(input: SettleInput) returns (outcome: Outcome)
      modifies this
      ensures var d := D.Settle(old(View()), input);
              View() == Apply(old(View()), d.effect) && outcome == d.outcome
    {
      if input.revision <= 0 { return Failed; }
      var duplicate := FindSettlementByOperation(settlements, input.operation);
      if duplicate.Some? { return SettledOutcome(ledger, duplicate.value); }
      if !input.authorized {
        outcome := CommitDenied(input.operation, RightsUnauthorized);
        return;
      }
      var owner := BetOwner(bets, input);
      if owner.None? || owner.value !in accounts {
        outcome := CommitDenied(input.operation, BetNotFound);
        return;
      }
      if input.game !in games {
        outcome := CommitDenied(input.operation, GameDataUnavailable);
        return;
      }
      outcome := SettleLocked(input, owner.value);
    }

    /** Claim the operation, take the stake, append the ledger row and the bet. */
    method CommitBet(bet: Bet, entry: Entry) returns (outcome: Outcome)
      requires entry.account in accounts
      modifies this
      ensures var d := Conclude(old(View()), bet.operation, Write(PlaceBet(bet, entry), PlacedOutcome(bet)));
              View() == Apply(old(View()), d.effect) && outcome == d.outcome
    {
      var saved := View();
      var claimed := ClaimOperation(bet.operation, Accepted);
      if !claimed { return DuplicateOperation; }
      var row := accounts[entry.account];
      accounts := accounts[entry.account := row.(available := entry.availableAfter, version := row.version + 1)];
      var entryId := |ledger|;
      ledger := ledger + [entry];
      if !EntryFits(entry)
         || (exists i | 0 <= i < |bets| :: bets[i].id == bet.id)
         || (exists i | 0 <= i < |bets| ::
               (bets[i].guild, bets[i].account, bets[i].game, bets[i].market)
               == (bet.guild, bet.account, bet.game, bet.market))
      {
        Rollback(saved);
        return Failed;
      }
      bets := bets + [bet.(entry := entryId)];
      return PlacedOutcome(bet);
    }

    method Place(input: PlaceInput) returns (outcome: Outcome)
      modifies this
      ensures var d := D.Place(old(View()), input);
              View() == Apply(old(View()), d.effect) && outcome == d.outcome
    {
      if !ValidSlip(input.stake, input.predictedHome, input.predictedAway) { return Failed; }
      var account := ActiveAccount(View(), input.guild, input.user);
      if account.None? {
        outcome := CommitDenied(input.operation, NotEnrolled);
        return;
      }
      var existing := FindBetByOperation(bets, account.value, input.operation);
      if existing.Some? { return PlacedOutcome(existing.value); }
      if input.game !in games {
        outcome := CommitDenied(input.operation, GameDataUnavailable);
        return;
      }
      var row, game := accounts[account.value], games[input.game];
      var dailyStake := DailyStake(bets, account.value, KstDay(input.placedAt));
      var policy := EvaluatePlacement(input.placedAt, game.scheduledStart, input.authorized,
                                      EvidenceFresh(input.placedAt, game.sourceUpdated, game.collected), game.status,
                                      row.available, row.debt, dailyStake,
                                      input.stake, input.predictedHome, input.predictedAway);
      if policy.InvalidPlacement? { return Failed; }
      if policy.PlacementDenied? {
        outcome := CommitDenied(input.operation, policy.reason);
        return;
      }
      if PendingBetOn(bets, input.guild, account.value, input.game) {
        outcome := CommitDenied(input.operation, AlreadyBet);
        return;
      }
      var entry := Entry(account.value, BetStake, -input.stake, 0, row.available, row.available - input.stake,
                         row.debt, row.debt, input.operation);
      var bet := Bet(input.bet, input.guild, account.value, input.game, game.market, input.prediction,
                     input.predictedHome, input.predictedAway, input.stake, policy.day, input.operation,
                     0, Pending, None);
      outcome := CommitBet(bet, entry);
    }

    /** Claim the operation, credit the account, append the ledger row and the claim. */
    method CommitClaim(claim: Claim, entry: Entry, split: Split) returns (outcome: Outcome)
      modifies this
      ensures var d := Conclude(old(View()), claim.operation,
                                Write(PayClaim(claim, entry),
                                      Claimed(claim.day, split.availableDelta, -split.debtDelta)));
              View() == Apply(old(View()), d.effect) && outcome == d.outcome
    {
      var saved := View();
      var claimed := ClaimOperation(claim.operation, Accepted);
      if !claimed { return DuplicateOperation; }
      var entryId := PostEntry(entry);
      if !EntryFits(entry) || exists i | 0 <= i < |claims| :: claims[i].id == claim.id {
        Rollback(saved);
        return Failed;
      }
      claims := claims + [claim.(entry := entryId)];
      return Claimed(claim.day, split.availableDelta, -split.debtDelta);
    }

    method ClaimDaily(input: ClaimInput) returns (outcome: Outcome)
      modifies this
      ensures var d := D.ClaimDaily(old(View()), input);
              View() == Apply(old(View()), d.effect) && outcome == d.outcome
    {
      var day := KstDay(input.claimedAt);
      var account := ActiveAccount(View(), input.guild, input.user);
      if account.None? {
        outcome := CommitDenied(input.operation, NotEnrolled);
        return;
      }
      var previous := FindClaimByOperation(claims, account.value, input.operation);
      if previous.Some? { return ClaimedOutcome(ledger, previous.value); }
      if ClaimedOn(claims, account.value, day) {
        outcome := CommitDenied(input.operation, AlreadyClaimed);
        return;
      }
      var row := accounts[account.value];
      var split := AllocateDailyCredit(row.debt);
      if split.None? { return Failed; }
      var entry := Entry(account.value, DailyClaim, split.value.availableDelta, split.value.debtDelta,
                         row.available, row.available + split.value.availableDelta,
                         row.debt, row.debt + split.value.debtDelta, input.operation);
      outcome := CommitClaim(Claim(input.claim, account.value, day, input.operation, 0), entry, split.value);
    }

    /** Set the balance and the version and append the ledger row; false if a column cannot hold it. */
    method PostAdjustmentRow(entry: Entry, version: int) returns (posted: bool)
      requires entry.account in accounts
      modifies this`accounts, this`ledger
      ensures posted <==> EntryFits(entry)
      ensures var row := old(accounts)[entry.account].(available := entry.availableAfter, version := version);
              accounts == old(accounts)[entry.account := row]
      ensures ledger == old(ledger) + [entry]
    {
      var row := accounts[entry.account].(available := entry.availableAfter, version := version);
      accounts := accounts[entry.account := row];
      ledger := ledger + [entry];
      posted := EntryFits(entry);
    }

    method Adjust(input: AdjustInput) returns (outcome: Outcome)
      modifies this
      ensures var d := D.Adjust(old(View()), input);
              View() == Apply(old(View()), d.effect) && outcome == d.outcome
    {
      var saved := View();
      var claimed := ClaimOperation(input.operation, Accepted);
      if !claimed { return DuplicateOperation; }
      if input.account !in accounts { return Denied(AccountNotFound); }
      var row := accounts[input.account];
      if Owns(active, input.account, input.administrator) { return Denied(SelfAdjustment); }
      if row.version > MAX_SAFE_INTEGER || row.version != input.expectedVersion { return Denied(StaleVersion); }
      var after := row.available + input.delta;
      if after < 0 { return Denied(InsufficientBalance); }
      var entry := Entry(input.account, AdminAdjustment, input.delta, 0, row.available, after,
                         row.debt, row.debt, input.operation);
      var posted := PostAdjustmentRow(entry, row.version + 1);
      if !posted {
        Rollback(saved);
        return Failed;
      }
      return Adjusted(after, row.version + 1);
    }

    method Enroll(input: EnrollInput) returns (outcome: Outcome)
      modifies this
      ensures var d := D.Enroll(old(View()), input);
              View() == Apply(old(View()), d.effect) && outcome == d.outcome
    {
      var member := Member(input.guild, input.user);
      if member !in registered {
        outcome := CommitDenied(input.operation, NotRegistered);
        return;
      }
      if member in active {
        outcome := CommitDenied(input.operation, AlreadyEnrolled);
        return;
      }
      var saved := View();
      var claimed := ClaimOperation(input.operation, Accepted);
      if !claimed { return DuplicateOperation; }
      if input.account in accounts {
        Rollback(saved);
        return Failed;
      }
      accounts := accounts[input.account := Account(0, 0, 0)];
      active := active[member := input.account];
      return Created;
    }
  }
}
