/** What the settlement and ledger tables record: each bet's chain of settlements and each account's
    chain of entries. */
module KboHistory {
  import opened Options
  import opened KboTables
  import opened KboDecisions
  import opened KboRuns

  // ---- Settlement chains ----

  /** All settlements of a bet, oldest first. */
  function History(settlements: seq<Settlement>, bet: Id): (h: seq<Settlement>)
    ensures |h| <= |settlements|
  {
    var last := |settlements| - 1;
    if last < 0 then []
    else if settlements[last].bet == bet then History(settlements[..last], bet) + [settlements[last]]
    else History(settlements[..last], bet)
  }

  /** Follow `supersedes` from a settlement id, for at most `fuel` rows. */
  function Walk(settlements: seq<Settlement>, id: Option<Id>, fuel: nat): seq<Settlement>
    decreases fuel
  {
    if id.None? || fuel == 0 then []
    else
      match FindSettlement(settlements, id.value)
      case None => []
      case Some(row) => [row] + Walk(settlements, row.supersedes, fuel - 1)
  }

  function LastId(h: seq<Settlement>): Option<Id> {
    if h == [] then None else Some(h[|h| - 1].id)
  }

  function LastReturn(h: seq<Settlement>): int {
    if h == [] then 0 else h[|h| - 1].payout.returnAmount
  }

  function StatusAfter(h: seq<Settlement>): BetStatus {
    if h == [] then Pending else if h[|h| - 1].payout.result.VoidResult? then Voided else Resolved
  }

  /** The row may follow the rows before it: it supersedes the last, is newer, and moves the
      difference of their returns. */
  predicate Follows(h: seq<Settlement>, row: Settlement) {
    && row.supersedes == LastId(h)
    && row.appliedDelta == row.payout.returnAmount - LastReturn(h)
    && (h != [] ==> row.revision > h[|h| - 1].revision)
  }

  predicate WellChained(h: seq<Settlement>) {
    h == [] || (WellChained(h[..|h| - 1]) && Follows(h[..|h| - 1], h[|h| - 1]))
  }

  predicate BetLinked(settlements: seq<Settlement>, bet: Bet) {
    var h := History(settlements, bet.id);
    WellChained(h) && bet.current == LastId(h) && bet.status == StatusAfter(h)
  }

  ghost predicate Linked(db: Db) {
    forall i | 0 <= i < |db.bets| :: BetLinked(db.settlements, db.bets[i])
  }

  lemma HistoryGrows(settlements: seq<Settlement>, row: Settlement, bet: Id)
    ensures History(settlements + [row], bet)
         == if row.bet == bet then History(settlements, bet) + [row] else History(settlements, bet)
  {
    assert (settlements + [row])[..|settlements|] == settlements;
  }

  lemma {:induction false} HistoryHolds(settlements: seq<Settlement>, bet: Id, row: Settlement)
    ensures row in History(settlements, bet) <==> row in settlements && row.bet == bet
    decreases |settlements|
  {
    if |settlements| > 0 {
      var last := |settlements| - 1;
      HistoryHolds(settlements[..last], bet, row);
      assert settlements == settlements[..last] + [settlements[last]];
    }
  }

  lemma {:induction false} NoRowsNoHistory(settlements: seq<Settlement>, bet: Id)
    requires forall i | 0 <= i < |settlements| :: settlements[i].bet != bet
    ensures History(settlements, bet) == []
    decreases |settlements|
  {
    if |settlements| > 0 {
      NoRowsNoHistory(settlements[..|settlements| - 1], bet);
    }
  }

  /** Ids find their own row. */
  lemma RowFindsItself(settlements: seq<Settlement>, row: Settlement)
    requires UniqueSettlements(settlements) && row in settlements
    ensures FindSettlement(settlements, row.id) == Some(row)
  {
    var k :| 0 <= k < |settlements| && settlements[k] == row;
    var found := FindSettlement(settlements, row.id).value;
    var j :| 0 <= j < |settlements| && settlements[j] == found;
    assert j == k;
  }

  lemma LinkedCurrent(settlements: seq<Settlement>, bet: Bet)
    requires UniqueSettlements(settlements) && BetLinked(settlements, bet)
    ensures var h := History(settlements, bet.id);
            && (CurrentSettlement(settlements, bet).Some? <==> h != [])
            && (h != [] ==> CurrentSettlement(settlements, bet) == Some(h[|h| - 1]))
            && CurrentReturn(settlements, bet) == LastReturn(h)
  {
    var h := History(settlements, bet.id);
    if h != [] {
      HistoryHolds(settlements, bet.id, h[|h| - 1]);
      RowFindsItself(settlements, h[|h| - 1]);
    }
  }

  lemma PlaceBetKeepsLinked(db: Db, bet: Bet, entry: Entry)
    requires Grounded(db) && Linked(db) && Legal(db, PlaceBet(bet, entry))
    ensures Linked(Apply(db, PlaceBet(bet, entry)))
  {
    forall i | 0 <= i < |db.settlements| ensures db.settlements[i].bet != bet.id {
      var k := FindBet(db.bets, db.settlements[i].bet).value;
      assert db.bets[k].id != bet.id;
    }
    NoRowsNoHistory(db.settlements, bet.id);
  }

  lemma PostedBetLinked(settlements: seq<Settlement>, bet: Bet, row: Settlement)
    requires UniqueSettlements(settlements) && BetLinked(settlements, bet)
    requires row.bet == bet.id && row.supersedes == bet.current
    requires row.appliedDelta == row.payout.returnAmount - CurrentReturn(settlements, bet)
    requires CurrentSettlement(settlements, bet).Some?
        ==> row.revision > CurrentSettlement(settlements, bet).value.revision
    ensures BetLinked(settlements + [row],
                      bet.(status := if row.payout.result.VoidResult? then Voided else Resolved,
                           current := Some(row.id)))
  {
    var h := History(settlements, bet.id);
    LinkedCurrent(settlements, bet);
    HistoryGrows(settlements, row, bet.id);
    assert (h + [row])[..|h|] == h;
  }

  lemma PostedLinked(settlements: seq<Settlement>, bets: seq<Bet>, index: nat, row: Settlement)
    requires UniqueSettlements(settlements) && UniqueBets(bets)
    requires forall i | 0 <= i < |bets| :: BetLinked(settlements, bets[i])
    requires index < |bets| && row.bet == bets[index].id && row.supersedes == bets[index].current
    requires row.appliedDelta == row.payout.returnAmount - CurrentReturn(settlements, bets[index])
    requires CurrentSettlement(settlements, bets[index]).Some?
             ==> row.revision > CurrentSettlement(settlements, bets[index]).value.revision
    ensures BetLinked(settlements + [row],
                      bets[index].(status := if row.payout.result.VoidResult? then Voided else Resolved,
                                   current := Some(row.id)))
    ensures forall i | 0 <= i < |bets| && i != index :: BetLinked(settlements + [row], bets[i])
  {
    PostedBetLinked(settlements, bets[index], row);
    forall i | 0 <= i < |bets| && i != index ensures BetLinked(settlements + [row], bets[i]) {
      assert BetLinked(settlements, bets[i]);
      assert bets[i].id != bets[index].id;
      HistoryGrows(settlements, row, bets[i].id);
    }
  }

  lemma PostSettlementKeepsLinked(db: Db, index: nat, row: Settlement, status: BetStatus, posting: Option<Entry>)
    requires Grounded(db) && Linked(db) && Legal(db, PostSettlement(index, row, status, posting))
    ensures Linked(Apply(db, PostSettlement(index, row, status, posting)))
  {
    PostedLinked(db.settlements, db.bets, index, row.(entry := if posting.Some? then Some(|db.ledger|) else None));
  }

  lemma ApplyKeepsLinked(db: Db, effect: Effect)
    requires Grounded(db) && Linked(db) && Legal(db, effect)
    ensures Linked(Apply(db, effect))
  {
    match effect
    case PlaceBet(bet, entry) => PlaceBetKeepsLinked(db, bet, entry);
    case PostSettlement(index, row, status, posting) => PostSettlementKeepsLinked(db, index, row, status, posting);
    case _ =>
  }

  lemma {:induction false} RunKeepsLinked(actions: seq<Action>)
    ensures Grounded(Run(EMPTY_DB, actions)) && Linked(Run(EMPTY_DB, actions))
    decreases |actions|
  {
    RunKeepsGrounded(EMPTY_DB, actions);
    if |actions| > 0 {
      var before, effect := LastStep(actions);
      RunKeepsLinked(actions[..|actions| - 1]);
      ApplyKeepsLinked(before, effect);
    }
  }

  function AppliedSum(chain: seq<Settlement>): int {
    if chain == [] then 0 else chain[0].appliedDelta + AppliedSum(chain[1..])
  }

  function Reversed(h: seq<Settlement>): (r: seq<Settlement>)
    ensures |r| == |h| && forall k | 0 <= k < |h| :: r[k] == h[|h| - 1 - k]
  {
    if h == [] then [] else [h[|h| - 1]] + Reversed(h[..|h| - 1])
  }

  /** Walking back from the last row passes every older row once, newest first, and then ends. */
  lemma {:induction false} WalkBack(settlements: seq<Settlement>, h: seq<Settlement>, fuel: nat)
    requires UniqueSettlements(settlements) && WellChained(h) && forall r | r in h :: r in settlements
    requires |h| <= fuel
    ensures Walk(settlements, LastId(h), fuel) == Reversed(h)
    ensures AppliedSum(Reversed(h)) == LastReturn(h)
    decreases |h|
  {
    if h != [] {
      var front, row := h[..|h| - 1], h[|h| - 1];
      RowFindsItself(settlements, row);
      WalkBack(settlements, front, fuel - 1);
      assert Walk(settlements, Some(row.id), fuel) == [row] + Walk(settlements, row.supersedes, fuel - 1);
      assert Reversed(h)[1..] == Reversed(front);
    }
  }

  lemma {:induction false} RevisionsIncrease(h: seq<Settlement>)
    requires WellChained(h)
    ensures forall j, k | 0 <= j < k < |h| :: h[j].revision < h[k].revision
    decreases |h|
  {
    if h != [] {
      var front := h[..|h| - 1];
      RevisionsIncrease(front);
      forall j, k | 0 <= j < k < |h| ensures h[j].revision < h[k].revision {
        if k < |front| {
          assert front[j].revision < front[k].revision;
        } else if j < |front| - 1 {
          assert front[j].revision < front[|front| - 1].revision;
        }
      }
    }
  }

  lemma {:induction false} ChainEnds(h: seq<Settlement>)
    requires WellChained(h) && h != []
    ensures h[0].supersedes.None?
    decreases |h|
  {
    if |h| > 1 {
      ChainEnds(h[..|h| - 1]);
    }
  }

  /** From the current settlement of any bet, the superseded settlements are visited in strictly
      decreasing game revision, every settlement of the bet once, and the walk ends; what they moved
      sums to what the bet now returns; the bet is pending or void exactly when the chain says so. */
  lemma SettlementChain(actions: seq<Action>, i: nat)
    requires i < |Run(EMPTY_DB, actions).bets|
    ensures var db := Run(EMPTY_DB, actions);
            var bet := db.bets[i];
            var chain := Walk(db.settlements, bet.current, |db.settlements|);
            && (forall row :: row in chain <==> row in db.settlements && row.bet == bet.id)
            && (forall j, k | 0 <= j < k < |chain| :: chain[j].revision > chain[k].revision)
            && (chain != [] ==> chain[|chain| - 1].supersedes.None?)
            && AppliedSum(chain) == CurrentReturn(db.settlements, bet)
            && (bet.status.Pending? <==> chain == [])
            && (bet.status.Voided? <==> chain != [] && chain[0].payout.result.VoidResult?)
  {
    RunKeepsLinked(actions);
    var db := Run(EMPTY_DB, actions);
    ChainOfLinkedBet(db.settlements, db.bets[i]);
  }

  lemma ChainOfLinkedBet(settlements: seq<Settlement>, bet: Bet)
    requires UniqueSettlements(settlements) && BetLinked(settlements, bet)
    ensures var chain := Walk(settlements, bet.current, |settlements|);
            && (forall row :: row in chain <==> row in settlements && row.bet == bet.id)
            && (forall j, k | 0 <= j < k < |chain| :: chain[j].revision > chain[k].revision)
            && (chain != [] ==> chain[|chain| - 1].supersedes.None?)
            && AppliedSum(chain) == CurrentReturn(settlements, bet)
            && (bet.status.Pending? <==> chain == [])
            && (bet.status.Voided? <==> chain != [] && chain[0].payout.result.VoidResult?)
  {
    var h := History(settlements, bet.id);
    forall r ensures r in h <==> r in settlements && r.bet == bet.id {
      HistoryHolds(settlements, bet.id, r);
    }
    WalkBack(settlements, h, |settlements|);
    LinkedCurrent(settlements, bet);
    RevisionsIncrease(h);
    if h != [] {
      ChainEnds(h);
    }
    ReversedHolds(h);
  }

  lemma ReversedHolds(h: seq<Settlement>)
    ensures forall row :: row in Reversed(h) <==> row in h
  {
    forall row | row in h ensures row in Reversed(h) {
      var k :| 0 <= k < |h| && h[k] == row;
      assert Reversed(h)[|h| - 1 - k] == row;
    }
  }

  // ---- Ledger chains ----

  /** An account's ledger entries, oldest first. */
  function Entries(ledger: seq<Entry>, account: Id): seq<Entry> {
    var last := |ledger| - 1;
    if last < 0 then []
    else if ledger[last].account == account then Entries(ledger[..last], account) + [ledger[last]]
    else Entries(ledger[..last], account)
  }

  function BalanceAfter(entries: seq<Entry>): (int, int) {
    if entries == [] then (0, 0)
    else (entries[|entries| - 1].availableAfter, entries[|entries| - 1].debtAfter)
  }

  /** Starting from (0, 0), each entry starts where the one before ended, moves by its deltas, and
      leaves both columns non-negative. */
  predicate Replays(entries: seq<Entry>) {
    entries == []
    || var front, entry := entries[..|entries| - 1], entries[|entries| - 1];
       && Replays(front)
       && (entry.availableBefore, entry.debtBefore) == BalanceAfter(front)
       && entry.availableAfter == entry.availableBefore + entry.availableDelta >= 0
       && entry.debtAfter == entry.debtBefore + entry.debtDelta >= 0
  }

  predicate AccountLedgered(ledger: seq<Entry>, account: Id, row: Account) {
    var entries := Entries(ledger, account);
    Replays(entries) && BalanceAfter(entries) == (row.available, row.debt) && row.version == |entries|
  }

  ghost predicate Ledgered(db: Db) {
    forall a | a in db.accounts :: AccountLedgered(db.ledger, a, db.accounts[a])
  }

  lemma EntriesGrow(ledger: seq<Entry>, entry: Entry, account: Id)
    ensures Entries(ledger + [entry], account)
         == if entry.account == account then Entries(ledger, account) + [entry] else Entries(ledger, account)
  {
    assert (ledger + [entry])[..|ledger|] == ledger;
  }

  lemma {:induction false} NoEntries(ledger: seq<Entry>, account: Id)
    requires forall i | 0 <= i < |ledger| :: ledger[i].account != account
    ensures Entries(ledger, account) == []
    decreases |ledger|
  {
    if |ledger| > 0 {
      NoEntries(ledger[..|ledger| - 1], account);
    }
  }

  /** The entry a write appends, if it appends one. */
  function EntryOf(effect: Effect): Option<Entry> {
    match effect
    case PayClaim(_, entry) => Some(entry)
    case PlaceBet(_, entry) => Some(entry)
    case PostSettlement(_, _, _, posting) => posting
    case PostAdjustment(entry, _) => Some(entry)
    case _ => None
  }

  lemma ApplyAppendsEntry(db: Db, effect: Effect)
    ensures Apply(db, effect).ledger
         == if EntryOf(effect).Some? then db.ledger + [EntryOf(effect).value] else db.ledger
  {
  }

  /** A write changes exactly the account its entry is about, to what the entry says. */
  lemma ApplyWritesAccount(db: Db, effect: Effect, account: Id)
    requires Legal(db, effect) && account in db.accounts
    ensures account in Apply(db, effect).accounts
    ensures var entry := EntryOf(effect);
            Apply(db, effect).accounts[account]
            == if entry.Some? && entry.value.account == account
               then Account(entry.value.availableAfter, entry.value.debtAfter, db.accounts[account].version + 1)
               else db.accounts[account]
    ensures EntryOf(effect).Some? ==> Explains(db, EntryOf(effect).value)
  {
  }

  lemma PostedAccountLedgered(ledger: seq<Entry>, account: Id, row: Account, entry: Entry)
    requires AccountLedgered(ledger, account, row) && entry.account == account
    requires entry.availableBefore == row.available && entry.debtBefore == row.debt
    requires entry.availableAfter == entry.availableBefore + entry.availableDelta >= 0
    requires entry.debtAfter == entry.debtBefore + entry.debtDelta >= 0
    ensures AccountLedgered(ledger + [entry], account, Account(entry.availableAfter, entry.debtAfter, row.version + 1))
  {
    EntriesGrow(ledger, entry, account);
    var entries := Entries(ledger, account);
    assert (entries + [entry])[..|entries|] == entries;
  }

  lemma AppendKeepsLedgered(db: Db, next: Db, written: Option<Entry>)
    requires Ledgered(db)
    requires next.ledger == if written.Some? then db.ledger + [written.value] else db.ledger
    requires forall i | 0 <= i < |db.ledger| :: db.ledger[i].account in db.accounts
    requires written.Some? ==> Explains(db, written.value)
    requires forall a | a in next.accounts && a in db.accounts ::
               next.accounts[a]
               == if written.Some? && written.value.account == a
                  then Account(written.value.availableAfter, written.value.debtAfter, db.accounts[a].version + 1)
                  else db.accounts[a]
    requires forall a | a in next.accounts && a !in db.accounts :: next.accounts[a] == Account(0, 0, 0) && written.None?
    ensures Ledgered(next)
  {
    forall a | a in next.accounts ensures AccountLedgered(next.ledger, a, next.accounts[a]) {
      if a !in db.accounts {
        NoEntries(db.ledger, a);
      } else {
        assert AccountLedgered(db.ledger, a, db.accounts[a]);
        if written.Some? {
          EntriesGrow(db.ledger, written.value, a);
          if written.value.account == a {
            PostedAccountLedgered(db.ledger, a, db.accounts[a], written.value);
          }
        }
      }
    }
  }

  lemma ApplyKeepsLedgered(db: Db, effect: Effect)
    requires Grounded(db) && Ledgered(db) && Legal(db, effect)
    ensures Ledgered(Apply(db, effect))
  {
    ApplyAppendsEntry(db, effect);
    forall a | a in db.accounts
      ensures var entry := EntryOf(effect);
              Apply(db, effect).accounts[a]
              == if entry.Some? && entry.value.account == a
                 then Account(entry.value.availableAfter, entry.value.debtAfter, db.accounts[a].version + 1)
                 else db.accounts[a]
      ensures EntryOf(effect).Some? ==> Explains(db, EntryOf(effect).value)
    {
      ApplyWritesAccount(db, effect, a);
    }
    AppendKeepsLedgered(db, Apply(db, effect), EntryOf(effect));
  }

  lemma {:induction false} RunKeepsLedgered(actions: seq<Action>)
    ensures Ledgered(Run(EMPTY_DB, actions))
    decreases |actions|
  {
    if |actions| > 0 {
      var before, effect := LastStep(actions);
      RunKeepsLedgered(actions[..|actions| - 1]);
      ApplyKeepsLedgered(before, effect);
    }
  }

  /** The entries of an account lead from (0, 0) to its present row without a gap and without going
      negative, and its version counts them. */
  lemma LedgerReplay(actions: seq<Action>, account: Id)
    ensures var db := Run(EMPTY_DB, actions);
            account in db.accounts ==>
              var entries := Entries(db.ledger, account);
              && Replays(entries)
              && BalanceAfter(entries) == (db.accounts[account].available, db.accounts[account].debt)
              && db.accounts[account].version == |entries|
  {
    RunKeepsLedgered(actions);
    var db := Run(EMPTY_DB, actions);
    assert account in db.accounts ==> AccountLedgered(db.ledger, account, db.accounts[account]);
  }

  lemma {:induction false} LedgerOnlyGrows(db: Db, later: seq<Action>)
    ensures db.ledger <= Run(db, later).ledger
    decreases |later|
  {
    if |later| > 0 {
      var last := |later| - 1;
      LedgerOnlyGrows(db, later[..last]);
      var before := Run(db, later[..last]);
      ApplyAppendsEntry(before, Decide(before, later[last]).effect);
    }
  }

  lemma {:induction false} RunConcat(db: Db, actions: seq<Action>, later: seq<Action>)
    ensures Run(db, actions + later) == Run(Run(db, actions), later)
    decreases |later|
  {
    if later == [] {
      assert actions + later == actions;
    } else {
      assert (actions + later)[..|actions + later| - 1] == actions + later[..|later| - 1];
      RunConcat(db, actions, later[..|later| - 1]);
    }
  }

  lemma {:induction false} EntriesOfPrefix(ledger: seq<Entry>, longer: seq<Entry>, account: Id)
    requires ledger <= longer
    ensures Entries(ledger, account) <= Entries(longer, account)
    decreases |longer|
  {
    if |longer| > |ledger| {
      EntriesOfPrefix(ledger, longer[..|longer| - 1], account);
    } else {
      assert ledger == longer;
    }
  }

  /** Two moments at which an account has the same version see the same account and entries. */
  lemma SameVersionSameAccount(read: Db, now: Db, account: Id)
    requires Ledgered(read) && Ledgered(now) && read.ledger <= now.ledger
    requires account in read.accounts && account in now.accounts
    requires read.accounts[account].version == now.accounts[account].version
    ensures Entries(now.ledger, account) == Entries(read.ledger, account)
    ensures now.accounts[account] == read.accounts[account]
  {
    assert AccountLedgered(read.ledger, account, read.accounts[account]);
    assert AccountLedgered(now.ledger, account, now.accounts[account]);
    EntriesOfPrefix(read.ledger, now.ledger, account);
  }

  lemma AcceptedAdjustment(db: Db, input: AdjustInput)
    requires Adjust(db, input).outcome.Adjusted?
    ensures input.account in db.accounts && db.accounts[input.account].version == input.expectedVersion
    ensures Adjust(db, input).outcome.available == db.accounts[input.account].available + input.delta
  {
  }

  /** An adjustment accepted at the version its author read finds the account exactly as it was read:
      nothing was posted to it in between, whatever else ran. */
  lemma AdjustmentSeesReadAccount(actions: seq<Action>, later: seq<Action>, input: AdjustInput)
    requires var read := Run(EMPTY_DB, actions);
             input.account in read.accounts && input.expectedVersion == read.accounts[input.account].version
    requires Adjust(Run(Run(EMPTY_DB, actions), later), input).outcome.Adjusted?
    ensures var read, now := Run(EMPTY_DB, actions), Run(Run(EMPTY_DB, actions), later);
            && input.account in now.accounts
            && now.accounts[input.account] == read.accounts[input.account]
            && Entries(now.ledger, input.account) == Entries(read.ledger, input.account)
            && Adjust(now, input).outcome.available == read.accounts[input.account].available + input.delta
  {
    var read, now := Run(EMPTY_DB, actions), Run(Run(EMPTY_DB, actions), later);
    RunConcat(EMPTY_DB, actions, later);
    RunKeepsLedgered(actions);
    RunKeepsLedgered(actions + later);
    LedgerOnlyGrows(read, later);
    AcceptedAdjustment(now, input);
    SameVersionSameAccount(read, now, input.account);
  }
}
