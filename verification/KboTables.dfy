/** The database tables the credit stores share, and the lookups their queries perform. Append-only
    tables are sequences in insertion order; an entry id is a position in the ledger. */
module KboTables {
  import opened Members
  import opened Options
  import opened KboMoney

  type Id = string

  const MAX_BIGINT := 0x7FFF_FFFF_FFFF_FFFF

  datatype Account = Account(available: int, debt: int, version: int)

  datatype Reason = DailyClaim | BetStake | BetPayout | BetVoidRefund | SettlementCorrection | AdminAdjustment

  datatype Entry = Entry(account: Id, reason: Reason, availableDelta: int, debtDelta: int,
                         availableBefore: int, availableAfter: int, debtBefore: int, debtAfter: int,
                         operation: Id)

  datatype Claim = Claim(id: Id, account: Id, day: int, operation: Id, entry: nat)

  datatype BetStatus = Pending | Resolved | Voided

  datatype Bet = Bet(id: Id, guild: Id, account: Id, game: Id, market: int, prediction: GameOutcome,
                     predictedHome: Option<int>, predictedAway: Option<int>, stake: int, day: int,
                     operation: Id, entry: nat, status: BetStatus, current: Option<Id>)

  datatype Settlement = Settlement(id: Id, bet: Id, game: Id, revision: int, payout: Payout, appliedDelta: int,
                                   operation: Id, entry: Option<nat>, supersedes: Option<Id>)

  datatype Game = Game(revision: int, market: int, status: GameStatus, homeScore: Option<int>, awayScore: Option<int>,
                       scheduledStart: int, sourceUpdated: int, collected: int)

  datatype Verdict = Accepted | Refused

  datatype Db = Db(accounts: map<Id, Account>, active: map<Member, Id>, registered: set<Member>,
                   ledger: seq<Entry>, claims: seq<Claim>, bets: seq<Bet>, settlements: seq<Settlement>,
                   operations: map<Id, Verdict>, games: map<Id, Game>)

  const EMPTY_DB := Db(map[], map[], {}, [], [], [], [], map[], map[])

  // ---- Lookups by key ----

  function FindSettlement(settlements: seq<Settlement>, id: Id): (r: Option<Settlement>)
    ensures r.Some? ==> r.value in settlements && r.value.id == id
    ensures r.None? ==> forall i | 0 <= i < |settlements| :: settlements[i].id != id
  {
    var last := |settlements| - 1;
    if last < 0 then None
    else if settlements[last].id == id then Some(settlements[last])
    else FindSettlement(settlements[..last], id)
  }

  function FindSettlementByOperation(settlements: seq<Settlement>, operation: Id): (r: Option<Settlement>)
    ensures r.Some? ==> r.value in settlements && r.value.operation == operation
    ensures r.None? ==> forall i | 0 <= i < |settlements| :: settlements[i].operation != operation
  {
    var last := |settlements| - 1;
    if last < 0 then None
    else if settlements[last].operation == operation then Some(settlements[last])
    else FindSettlementByOperation(settlements[..last], operation)
  }

  function FindBet(bets: seq<Bet>, id: Id): (r: Option<nat>)
    ensures r.Some? ==> r.value < |bets| && bets[r.value].id == id
    ensures r.None? ==> forall i | 0 <= i < |bets| :: bets[i].id != id
  {
    var last := |bets| - 1;
    if last < 0 then None
    else if bets[last].id == id then Some(last)
    else FindBet(bets[..last], id)
  }

  function FindBetByOperation(bets: seq<Bet>, account: Id, operation: Id): (r: Option<Bet>)
    ensures r.Some? ==> r.value in bets && r.value.account == account && r.value.operation == operation
    ensures r.None? ==> forall i | 0 <= i < |bets| :: !(bets[i].account == account && bets[i].operation == operation)
  {
    var last := |bets| - 1;
    if last < 0 then None
    else if bets[last].account == account && bets[last].operation == operation then Some(bets[last])
    else FindBetByOperation(bets[..last], account, operation)
  }

  function FindClaimByOperation(claims: seq<Claim>, account: Id, operation: Id): (r: Option<Claim>)
    ensures r.Some? ==> r.value in claims && r.value.account == account && r.value.operation == operation
    ensures r.None? ==> forall i | 0 <= i < |claims| ::
      !(claims[i].account == account && claims[i].operation == operation)
  {
    var last := |claims| - 1;
    if last < 0 then None
    else if claims[last].account == account && claims[last].operation == operation then Some(claims[last])
    else FindClaimByOperation(claims[..last], account, operation)
  }

  predicate ClaimedOn(claims: seq<Claim>, account: Id, day: int) {
    exists i | 0 <= i < |claims| :: claims[i].account == account && claims[i].day == day
  }

  predicate PendingBetOn(bets: seq<Bet>, guild: Id, account: Id, game: Id) {
    exists i | 0 <= i < |bets| ::
      bets[i].guild == guild && bets[i].account == account && bets[i].game == game && bets[i].status.Pending?
  }

  function Counted(bet: Bet, account: Id, day: int): int {
    if bet.account == account && bet.day == day && !bet.status.Voided? then bet.stake else 0
  }

  /** The stakes of one account and KST day that are not void. */
  function DailyStake(bets: seq<Bet>, account: Id, day: int): int {
    var last := |bets| - 1;
    if last < 0 then 0 else DailyStake(bets[..last], account, day) + Counted(bets[last], account, day)
  }

  /** The settlement row a bet row points to, as the left join of the bet lock reads it. */
  function CurrentSettlement(settlements: seq<Settlement>, bet: Bet): (r: Option<Settlement>)
    ensures r.Some? ==> bet.current == Some(r.value.id) && r.value in settlements
  {
    if bet.current.Some? then FindSettlement(settlements, bet.current.value) else None
  }

  function CurrentReturn(settlements: seq<Settlement>, bet: Bet): int {
    match CurrentSettlement(settlements, bet)
    case None => 0
    case Some(row) => row.payout.returnAmount
  }

  predicate Owns(active: map<Member, Id>, account: Id, user: Id) {
    exists member | member in active :: member.user == user && active[member] == account
  }

  // ---- Writes ----

  /** Everything one transaction writes. Balances after the write are absolute values computed from
      the row the transaction read; the account version goes up by one in the row, except that an
      adjustment writes it as an absolute value too; entry ids are assigned when the ledger row is
      appended. */
  datatype Effect =
    | Keep
    | Refuse(operation: Id, verdict: Verdict)
    | OpenAccount(operation: Id, member: Member, account: Id)
    | PayClaim(claim: Claim, entry: Entry)
    | PlaceBet(bet: Bet, entry: Entry)
    | PostSettlement(index: nat, row: Settlement, status: BetStatus, posting: Option<Entry>)
    | PostAdjustment(entry: Entry, version: int)
    | ChangeGame(id: Id, game: Game)
    | Register(member: Member)
    | Depart(operation: Id, member: Member)

  function WriteBalances(accounts: map<Id, Account>, entry: Entry): map<Id, Account> {
    if entry.account in accounts then
      accounts[entry.account := Account(entry.availableAfter, entry.debtAfter, accounts[entry.account].version + 1)]
    else accounts
  }

  function WriteAvailable(accounts: map<Id, Account>, entry: Entry): map<Id, Account> {
    if entry.account in accounts then
      accounts[entry.account := accounts[entry.account].(available := entry.availableAfter,
                                                         version := accounts[entry.account].version + 1)]
    else accounts
  }

  function Apply(db: Db, effect: Effect): Db {
    match effect
    case Keep => db
    case Refuse(operation, verdict) => db.(operations := db.operations[operation := verdict])
    case OpenAccount(operation, member, account) =>
      db.(accounts := db.accounts[account := Account(0, 0, 0)],
          active := db.active[member := account],
          operations := db.operations[operation := Accepted])
    case PayClaim(claim, entry) =>
      db.(accounts := WriteBalances(db.accounts, entry),
          ledger := db.ledger + [entry],
          claims := db.claims + [claim.(entry := |db.ledger|)],
          operations := db.operations[claim.operation := Accepted])
    case PlaceBet(bet, entry) =>
      db.(accounts := WriteAvailable(db.accounts, entry),
          ledger := db.ledger + [entry],
          bets := db.bets + [bet.(entry := |db.ledger|)],
          operations := db.operations[bet.operation := Accepted])
    case PostSettlement(index, row, status, posting) =>
      db.(accounts := if posting.Some? then WriteBalances(db.accounts, posting.value) else db.accounts,
          ledger := if posting.Some? then db.ledger + [posting.value] else db.ledger,
          settlements := db.settlements + [row.(entry := if posting.Some? then Some(|db.ledger|) else None)],
          bets := if index < |db.bets|
                  then db.bets[index := db.bets[index].(status := status, current := Some(row.id))]
                  else db.bets,
          operations := db.operations[row.operation := Accepted])
    case PostAdjustment(entry, version) =>
      db.(accounts := if entry.account in db.accounts
                      then db.accounts[entry.account :=
                             db.accounts[entry.account].(available := entry.availableAfter, version := version)]
                      else db.accounts,
          ledger := db.ledger + [entry],
          operations := db.operations[entry.operation := Accepted])
    case ChangeGame(id, game) => db.(games := db.games[id := game])
    case Register(member) => db.(registered := db.registered + {member})
    case Depart(operation, member) =>
      db.(active := db.active - {member}, operations := db.operations[operation := Accepted])
  }

  predicate EntryFits(entry: Entry) {
    entry.availableAfter <= MAX_BIGINT && entry.debtAfter <= MAX_BIGINT
  }

  /** The unique keys and column widths that can still reject a write after every check of the code;
      a rejected write rolls the transaction back. */
  predicate Admissible(db: Db, effect: Effect) {
    match effect
    case OpenAccount(_, _, account) => account !in db.accounts
    case PayClaim(claim, entry) =>
      EntryFits(entry) && forall i | 0 <= i < |db.claims| :: db.claims[i].id != claim.id
    case PlaceBet(bet, entry) =>
      && EntryFits(entry)
      && (forall i | 0 <= i < |db.bets| :: db.bets[i].id != bet.id)
      && (forall i | 0 <= i < |db.bets| ::
            (db.bets[i].guild, db.bets[i].account, db.bets[i].game, db.bets[i].market)
            != (bet.guild, bet.account, bet.game, bet.market))
    case PostSettlement(_, row, _, posting) =>
      && (posting.Some? ==> EntryFits(posting.value))
      && (forall i | 0 <= i < |db.settlements| :: db.settlements[i].id != row.id)
      && (forall i | 0 <= i < |db.settlements| ::
            (db.settlements[i].bet, db.settlements[i].revision) != (row.bet, row.revision))
    case PostAdjustment(entry, _) => EntryFits(entry)
    case _ => true
  }
}
