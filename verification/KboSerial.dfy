/** Every interleaving of the transactions is equivalent to running the committed ones one at a time
    in commit order, so everything proved of atomic runs holds of interleaved ones. */
module KboSerial {
  import opened Options
  import opened KboMoney
  import opened KboTables
  import opened KboDecisions
  import opened KboRuns
  import opened KboConservation
  import opened KboHistory
  import opened KboOnce
  import opened KboLimits
  import opened KboInterleaving
  import opened KboUpToDate

  // ---- A commit is the atomic operation at that moment ----

  /** The atomic operation a committing transaction amounts to; a denial only spends its id. */
  function CommitAction(tx: Tx): Action
    requires tx.pc.Commit?
  {
    match tx.pc.commit
    case Deny(reason) => DoReject(IdOf(tx.call), if tx.call.AdjustCall? then Accepted else Refused, reason)
    case _ =>
      match tx.call
      case SettleCall(input) => DoSettle(input)
      case PlaceCall(input) => DoPlace(tx.account, input)
      case ClaimCall(input) => DoClaim(tx.account, input)
      case AdjustCall(input) => DoAdjust(input)
      case EnrollCall(input) => DoEnroll(input)
  }

  lemma UnusedIdFindsNothing(db: Db, account: Id, operation: Id)
    requires Grounded(db) && operation !in db.operations
    ensures FindSettlementByOperation(db.settlements, operation) == None
    ensures FindBetByOperation(db.bets, account, operation) == None
    ensures FindClaimByOperation(db.claims, account, operation) == None
  {
    assert forall i | 0 <= i < |db.settlements| :: db.settlements[i].operation != operation;
  }

  /** No update is lost: when a transaction commits, the atomic operation run at that very moment
      would write the same rows and report the same outcome. */
  lemma CommitIsAtomic(db: Db, tx: Tx)
    requires Grounded(db) && UpToDate(db, tx) && tx.pc.Commit?
    ensures Decide(db, CommitAction(tx)) == CommitDecision(db, tx.call, tx.pc.commit)
  {
    if tx.pc.commit.Write? {
      match tx.call
      case SettleCall(input) => UnusedIdFindsNothing(db, "", input.operation);
      case PlaceCall(input) => UnusedIdFindsNothing(db, tx.account.value, input.operation);
      case ClaimCall(input) => UnusedIdFindsNothing(db, tx.account.value, input.operation);
      case AdjustCall(input) =>
      case EnrollCall(input) =>
    }
  }

  // ---- Every interleaving is serial ----

  lemma CommitTouchesOwn(db: Db, tx: Tx)
    requires Grounded(db) && UpToDate(db, tx) && tx.pc.Commit?
    ensures var effect := CommitDecision(db, tx.call, tx.pc.commit).effect;
            && Legal(db, effect)
            && (OperationOf(effect).Some? ==> OperationOf(effect) == tx.operation)
            && (TouchedAccount(db, effect).Some? ==>
                  TouchedAccount(db, effect) == tx.account || TouchedAccount(db, effect).value !in db.accounts)
            && !effect.ChangeGame?
            && (effect.OpenAccount? ==> tx.member == Some(effect.member))
  {
    CommitIsAtomic(db, tx);
    DecisionIsLegal(db, CommitAction(tx));
    if tx.pc.commit.Write? {
      match tx.call
      case SettleCall(input) => assert BetOwner(db.bets, input) == tx.account;
      case _ =>
    }
  }

  /** A commit leaves every other transaction's reads standing. */
  lemma CommitSparesOthers(sys: System, i: nat, j: nat)
    requires Consistent(sys) && i < |sys.txs| && j < |sys.txs| && i != j && sys.txs[i].pc.Commit?
    ensures Spares(sys.db, CommitDecision(sys.db, sys.txs[i].call, sys.txs[i].pc.commit).effect, sys.txs[j])
  {
    CommitTouchesOwn(sys.db, sys.txs[i]);
    assert UpToDate(sys.db, sys.txs[j]);
  }

  lemma LockKeepsExclusive(txs: seq<Tx>, i: nat, after: Tx, wait: Wait)
    requires Exclusive(txs) && i < |txs| && !HeldByOther(txs, i, wait) && TakesOnly(txs[i], after, wait)
    ensures Exclusive(txs[i := after])
  {
    forall j | 0 <= j < |txs| && j != i ensures !Holds(txs[j], wait) {
    }
  }

  lemma FinishedTakesNothing(txs: seq<Tx>, i: nat, outcome: Outcome)
    requires Exclusive(txs) && i < |txs|
    ensures Exclusive(txs[i := Finish(txs[i], outcome)])
  {
    assert !HeldByOther(txs, i, NoWait);
    LockKeepsExclusive(txs, i, Finish(txs[i], outcome), NoWait);
  }

  lemma CommitKeepsUpToDate(sys: System, i: nat, j: nat)
    requires Consistent(sys) && i < |sys.txs| && j < |sys.txs| && i != j && sys.txs[i].pc.Commit?
    ensures var effect := CommitDecision(sys.db, sys.txs[i].call, sys.txs[i].pc.commit).effect;
            UpToDate(Apply(sys.db, effect), sys.txs[j])
  {
    var effect := CommitDecision(sys.db, sys.txs[i].call, sys.txs[i].pc.commit).effect;
    CommitSparesOthers(sys, i, j);
    SparedStaysUpToDate(sys.db, effect, sys.txs[j]);
  }

  lemma CommitKeepsTables(db: Db, tx: Tx)
    requires Grounded(db) && Pointed(db) && UpToDate(db, tx) && tx.pc.Commit?
    ensures var next := Apply(db, CommitDecision(db, tx.call, tx.pc.commit).effect); Grounded(next) && Pointed(next)
  {
    var effect := CommitDecision(db, tx.call, tx.pc.commit).effect;
    CommitTouchesOwn(db, tx);
    ApplyKeepsGrounded(db, effect);
    ApplyKeepsPointed(db, effect);
  }

  lemma FinishedIsUpToDate(db: Db, tx: Tx, outcome: Outcome)
    ensures UpToDate(db, Finish(tx, outcome))
  {
  }

  lemma ReplaceOne(next: Db, txs: seq<Tx>, i: nat, after: Tx)
    requires Grounded(next) && Pointed(next) && i < |txs| && Exclusive(txs[i := after]) && UpToDate(next, after)
    requires forall j | 0 <= j < |txs| && j != i :: UpToDate(next, txs[j])
    ensures Consistent(System(next, txs[i := after]))
  {
  }

  lemma CommitKeepsConsistent(sys: System, i: nat)
    requires Consistent(sys) && i < |sys.txs| && sys.txs[i].pc.Commit?
    ensures var decision := CommitDecision(sys.db, sys.txs[i].call, sys.txs[i].pc.commit);
            Consistent(System(Apply(sys.db, decision.effect), sys.txs[i := Finish(sys.txs[i], decision.outcome)]))
  {
    var decision := CommitDecision(sys.db, sys.txs[i].call, sys.txs[i].pc.commit);
    var next := Apply(sys.db, decision.effect);
    CommitKeepsTables(sys.db, sys.txs[i]);
    FinishedTakesNothing(sys.txs, i, decision.outcome);
    FinishedIsUpToDate(next, sys.txs[i], decision.outcome);
    forall j | 0 <= j < |sys.txs| && j != i ensures UpToDate(next, sys.txs[j]) {
      CommitKeepsUpToDate(sys, i, j);
    }
    ReplaceOne(next, sys.txs, i, Finish(sys.txs[i], decision.outcome));
  }

  lemma StatementKeepsConsistent(sys: System, i: nat)
    requires Consistent(sys) && i < |sys.txs| && !sys.txs[i].pc.Commit?
    requires !HeldByOther(sys.txs, i, NextWait(sys.txs[i]))
    ensures Consistent(sys.(txs := sys.txs[i := Statement(sys.db, sys.txs[i])]))
  {
    var tx, after := sys.txs[i], Statement(sys.db, sys.txs[i]);
    StatementKeepsUpToDate(sys.db, tx);
    StatementTakesItsLock(sys.db, tx);
    LockKeepsExclusive(sys.txs, i, after, NextWait(tx));
    assert UpToDate(sys.db, after);
  }

  lemma WorldSpares(db: Db, txs: seq<Tx>, action: Action, j: nat)
    requires Grounded(db) && j < |txs|
    requires action.DoChangeGame? ==> !HeldByAny(txs, ForGame(action.id))
    requires action.DoLeave? ==> !HeldByAny(txs, ForOperation(action.leaveOperation))
    requires action.DoChangeGame? || action.DoLeave? || action.DoRegister?
    ensures Spares(db, Decide(db, action).effect, txs[j])
  {
    DecisionIsLegal(db, action);
    assert action.DoChangeGame? ==> !Holds(txs[j], ForGame(action.id));
    assert action.DoLeave? ==> !Holds(txs[j], ForOperation(action.leaveOperation));
  }

  lemma WorldKeepsConsistent(sys: System, action: Action)
    requires Consistent(sys)
    requires action.DoChangeGame? ==> !HeldByAny(sys.txs, ForGame(action.id))
    requires action.DoLeave? ==> !HeldByAny(sys.txs, ForOperation(action.leaveOperation))
    requires action.DoChangeGame? || action.DoLeave? || action.DoRegister?
    ensures Consistent(sys.(db := Step(sys.db, action)))
  {
    var effect := Decide(sys.db, action).effect;
    DecisionIsLegal(sys.db, action);
    ApplyKeepsGrounded(sys.db, effect);
    ApplyKeepsPointed(sys.db, effect);
    forall j | 0 <= j < |sys.txs| ensures UpToDate(Apply(sys.db, effect), sys.txs[j]) {
      WorldSpares(sys.db, sys.txs, action, j);
      SparedStaysUpToDate(sys.db, effect, sys.txs[j]);
    }
  }

  /** The atomic operation a step performs: a commit's, or a change of the world that takes effect. */
  function Performed(sys: System, event: Event): seq<Action> {
    match event
    case Advance(i) => if i < |sys.txs| && sys.txs[i].pc.Commit? then [CommitAction(sys.txs[i])] else []
    case ChangeGameRow(id, game) => if HeldByAny(sys.txs, ForGame(id)) then [] else [DoChangeGame(id, game)]
    case RegisterMember(member) => [DoRegister(member)]
    case MemberLeaves(operation, member) =>
      if HeldByAny(sys.txs, ForOperation(operation)) then [] else [DoLeave(operation, member)]
    case _ => []
  }

  lemma CommitStepIsAtomic(sys: System, i: nat)
    requires Consistent(sys) && i < |sys.txs| && sys.txs[i].pc.Commit?
    ensures var next, action := Next(sys, Advance(i)), CommitAction(sys.txs[i]);
            && Consistent(next) && next.db == Step(sys.db, action)
            && next.txs[i].pc == Done(Decide(sys.db, action).outcome)
  {
    assert !HeldByOther(sys.txs, i, NextWait(sys.txs[i]));
    CommitIsAtomic(sys.db, sys.txs[i]);
    CommitKeepsConsistent(sys, i);
  }

  lemma StatementStepIsAtomic(sys: System, i: nat)
    requires Consistent(sys) && (i < |sys.txs| ==> !sys.txs[i].pc.Commit?)
    ensures Consistent(Next(sys, Advance(i))) && Next(sys, Advance(i)).db == sys.db
  {
    if i < |sys.txs| && !HeldByOther(sys.txs, i, NextWait(sys.txs[i])) {
      StatementKeepsConsistent(sys, i);
    }
  }

  lemma StartKeepsConsistent(sys: System, call: Call)
    requires Consistent(sys)
    ensures Consistent(Next(sys, Start(call)))
  {
  }

  lemma AbortKeepsConsistent(sys: System, i: nat)
    requires Consistent(sys)
    ensures Consistent(Next(sys, Abort(i)))
  {
    if i < |sys.txs| && !sys.txs[i].pc.Done? {
      FinishedTakesNothing(sys.txs, i, Failed);
    }
  }

  lemma WorldStepIsAtomic(sys: System, event: Event)
    requires Consistent(sys) && (event.ChangeGameRow? || event.RegisterMember? || event.MemberLeaves?)
    ensures Consistent(Next(sys, event))
    ensures Next(sys, event).db
         == if Performed(sys, event) == [] then sys.db else Step(sys.db, Performed(sys, event)[0])
  {
    if Performed(sys, event) != [] {
      WorldKeepsConsistent(sys, Performed(sys, event)[0]);
    }
  }

  /** Each step of the interleaving leaves the tables alone or performs one atomic operation, and the
      commit of a call is that call, with its outcome. */
  lemma NextIsAtomic(sys: System, event: Event)
    requires Consistent(sys)
    ensures Consistent(Next(sys, event)) && |Performed(sys, event)| <= 1
    ensures Next(sys, event).db
         == if Performed(sys, event) == [] then sys.db else Step(sys.db, Performed(sys, event)[0])
    ensures event.Advance? && event.tx < |sys.txs| && sys.txs[event.tx].pc.Commit? ==>
              && Performed(sys, event) == [CommitAction(sys.txs[event.tx])]
              && Next(sys, event).txs[event.tx].pc == Done(Decide(sys.db, Performed(sys, event)[0]).outcome)
  {
    match event
    case Start(call) => StartKeepsConsistent(sys, call);
    case Advance(i) =>
      if i < |sys.txs| && sys.txs[i].pc.Commit? {
        CommitStepIsAtomic(sys, i);
      } else {
        StatementStepIsAtomic(sys, i);
      }
    case Abort(i) => AbortKeepsConsistent(sys, i);
    case _ => WorldStepIsAtomic(sys, event);
  }

  /** What was committed and what changed outside, in commit order. */
  function CommittedActions(events: seq<Event>): seq<Action> {
    var last := |events| - 1;
    if last < 0 then [] else CommittedActions(events[..last]) + Performed(Exec(events[..last]), events[last])
  }

  /** Any interleaving of any number of calls, crashes and game updates leaves the tables as the committed
      calls and the outside changes do, one at a time in commit order. */
  lemma {:induction false} Serializable(events: seq<Event>)
    ensures Consistent(Exec(events))
    ensures Exec(events).db == Run(EMPTY_DB, CommittedActions(events))
    decreases |events|
  {
    if |events| > 0 {
      var last := |events| - 1;
      Serializable(events[..last]);
      NextIsAtomic(Exec(events[..last]), events[last]);
      RunMore(CommittedActions(events[..last]), Performed(Exec(events[..last]), events[last]));
    }
  }

  lemma RunMore(actions: seq<Action>, performed: seq<Action>)
    requires |performed| <= 1
    ensures Run(EMPTY_DB, actions + performed)
         == if performed == [] then Run(EMPTY_DB, actions) else Step(Run(EMPTY_DB, actions), performed[0])
  {
    if performed == [] {
      assert actions + performed == actions;
    } else {
      assert (actions + performed)[..|actions|] == actions;
    }
  }

  // ---- Outcomes ----

  /** The atomic operation that a transaction's end stands for: the call for the account it resolved, or
      the denial it decided. */
  function EndAction(tx: Tx): Action {
    if tx.pc.Commit? then CommitAction(tx)
    else if tx.pc.InsertOperation? && tx.pc.goal.Deny? then DoReject(IdOf(tx.call), Refused, tx.pc.goal.reason)
    else
      match tx.call
      case SettleCall(input) => DoSettle(input)
      case PlaceCall(input) => DoPlace(tx.account, input)
      case ClaimCall(input) => DoClaim(tx.account, input)
      case AdjustCall(input) => DoAdjust(input)
      case EnrollCall(input) => DoEnroll(input)
  }

  lemma LateDuplicateIsAtomic(db: Db, tx: Tx)
    requires UpToDate(db, tx) && tx.pc.InsertOperation? && IdOf(tx.call) in db.operations
    ensures Decide(db, EndAction(tx)) == Decision(Keep, LateDuplicate(db, tx, tx.pc.goal))
  {
  }

  lemma SettleReplayIsAtomic(db: Db, tx: Tx)
    requires UpToDate(db, tx) && tx.call.SettleCall? && !tx.pc.Commit? && !tx.pc.InsertOperation? && !tx.pc.Done?
    ensures var after := SettleStatement(db, tx, tx.call.settle);
            after.pc.Done? && after.pc.outcome != Failed
            ==> Decide(db, EndAction(tx)) == Decision(Keep, after.pc.outcome)
  {
  }

  lemma OtherReplayIsAtomic(db: Db, tx: Tx)
    requires UpToDate(db, tx) && !tx.call.SettleCall? && !tx.pc.Commit? && !tx.pc.InsertOperation? && !tx.pc.Done?
    ensures var after := Statement(db, tx);
            after.pc.Done? && after.pc.outcome != Failed
            ==> Decide(db, EndAction(tx)) == Decision(Keep, after.pc.outcome)
  {
  }

  /** Whenever a step ends a transaction with anything but a failure, replays of stored results and late
      duplicates included, the atomic operation at that instant reports the same and writes the same. */
  lemma EndIsAtomic(sys: System, i: nat)
    requires Consistent(sys) && i < |sys.txs| && !sys.txs[i].pc.Done?
    requires var pc := Next(sys, Advance(i)).txs[i].pc; pc.Done? && pc.outcome != Failed
    ensures var action := EndAction(sys.txs[i]);
            && Decide(sys.db, action).outcome == Next(sys, Advance(i)).txs[i].pc.outcome
            && Next(sys, Advance(i)).db == Step(sys.db, action)
  {
    var tx := sys.txs[i];
    if tx.pc.Commit? {
      CommitStepIsAtomic(sys, i);
    } else {
      StatementStepIsAtomic(sys, i);
      if tx.pc.InsertOperation? {
        LateDuplicateIsAtomic(sys.db, tx);
      } else if tx.call.SettleCall? {
        SettleReplayIsAtomic(sys.db, tx);
      } else {
        OtherReplayIsAtomic(sys.db, tx);
      }
    }
  }

  /** The call ended with its outcome at the n-th event. */
  predicate EndedAt(events: seq<Event>, n: nat, i: nat, outcome: Outcome) {
    && n < |events| && events[n] == Advance(i)
    && var before := Exec(events[..n]);
       i < |before.txs| && Decide(before.db, EndAction(before.txs[i])).outcome == outcome
  }

  lemma EndsNow(events: seq<Event>, i: nat)
    requires i < |Exec(events).txs| && Exec(events).txs[i].pc.Done? && Exec(events).txs[i].pc.outcome != Failed
    requires !EndedBefore(events, i)
    ensures events != [] && EndedAt(events, |events| - 1, i, Exec(events).txs[i].pc.outcome)
  {
    var last := |events| - 1;
    var sys := Exec(events[..last]);
    assert Exec(events) == Next(sys, events[last]);
    Serializable(events[..last]);
    OnlyAdvanceEnds(sys, events[last], i);
    EndIsAtomic(sys, i);
  }

  /** The event at which the call ended. */
  lemma {:induction false} EndEvent(events: seq<Event>, i: nat) returns (n: nat)
    requires i < |Exec(events).txs| && Exec(events).txs[i].pc.Done?
    ensures n < |events| && !EndedBefore(events[..n + 1], i)
    ensures i < |Exec(events[..n + 1]).txs| && Exec(events[..n + 1]).txs[i].pc == Exec(events).txs[i].pc
    decreases |events|
  {
    if EndedBefore(events, i) {
      StillEnded(events, i);
      n := EndEvent(events[..|events| - 1], i);
      assert events[..|events| - 1][..n + 1] == events[..n + 1];
    } else {
      n := |events| - 1;
      assert events[..n + 1] == events;
    }
  }

  lemma EndedInPrefix(events: seq<Event>, n: nat, i: nat, outcome: Outcome)
    requires n < |events| && EndedAt(events[..n + 1], n, i, outcome)
    ensures EndedAt(events, n, i, outcome)
  {
    assert events[..n + 1][..n] == events[..n];
  }

  /** Every call that is over and did not fail reported what the atomic operation would have reported at
      one instant of the run. */
  lemma OutcomesAreAtomic(events: seq<Event>, i: nat) returns (n: nat)
    requires i < |Exec(events).txs| && Exec(events).txs[i].pc.Done? && Exec(events).txs[i].pc.outcome != Failed
    ensures EndedAt(events, n, i, Exec(events).txs[i].pc.outcome)
  {
    n := EndEvent(events, i);
    EndsNow(events[..n + 1], i);
    EndedInPrefix(events, n, i, Exec(events).txs[i].pc.outcome);
  }

  predicate EndedBefore(events: seq<Event>, i: nat) {
    events != [] && var txs := Exec(events[..|events| - 1]).txs; i < |txs| && txs[i].pc.Done?
  }

  lemma StillEnded(events: seq<Event>, i: nat)
    requires EndedBefore(events, i)
    ensures i < |Exec(events).txs| && Exec(events).txs[i].pc == Exec(events[..|events| - 1]).txs[i].pc
  {
    DoneStays(Exec(events[..|events| - 1]), events[|events| - 1], i);
  }

  lemma DoneStays(sys: System, event: Event, i: nat)
    requires i < |sys.txs| && sys.txs[i].pc.Done?
    ensures i < |Next(sys, event).txs| && Next(sys, event).txs[i].pc == sys.txs[i].pc
  {
  }

  lemma OnlyAdvanceEnds(sys: System, event: Event, i: nat)
    requires i < |Next(sys, event).txs| && Next(sys, event).txs[i].pc.Done?
        && Next(sys, event).txs[i].pc.outcome != Failed
    requires !(i < |sys.txs| && sys.txs[i].pc.Done?)
    ensures event == Advance(i) && i < |sys.txs|
  {
  }

  /** No two settlements share a bet and a game revision, or an operation. */
  ghost predicate SettledOnce(settlements: seq<Settlement>) {
    forall i, j | 0 <= i < j < |settlements| ::
      && (settlements[i].bet, settlements[i].revision) != (settlements[j].bet, settlements[j].revision)
      && settlements[i].operation != settlements[j].operation
  }

  lemma {:induction false} HistoryOrder(settlements: seq<Settlement>, bet: Id, i: nat, j: nat)
    requires i < j < |settlements| && settlements[i].bet == bet == settlements[j].bet
    requires WellChained(History(settlements, bet))
    ensures settlements[i].revision < settlements[j].revision
    decreases |settlements|
  {
    var last := |settlements| - 1;
    var h := History(settlements, bet);
    if j < last {
      if settlements[last].bet == bet {
        assert h[..|h| - 1] == History(settlements[..last], bet);
      }
      HistoryOrder(settlements[..last], bet, i, j);
    } else {
      var front := History(settlements[..last], bet);
      assert h == front + [settlements[last]];
      assert settlements[..last][i] == settlements[i];
      HistoryHolds(settlements[..last], bet, settlements[i]);
      RevisionsIncrease(h);
      var k :| 0 <= k < |front| && front[k] == settlements[i];
      assert h[k].revision < h[|front|].revision;
    }
  }

  lemma {:induction false} SettlementsForBoth(settlements: seq<Settlement>, i: nat, j: nat)
    requires i < j < |settlements| && settlements[i].operation == settlements[j].operation
    ensures SettlementsFor(settlements, settlements[j].operation) >= 2
    decreases |settlements|
  {
    var last := |settlements| - 1;
    if j < last {
      SettlementsForBoth(settlements[..last], i, j);
    } else {
      SettlementsForOne(settlements[..last], i);
    }
  }

  lemma {:induction false} SettlementsForOne(settlements: seq<Settlement>, i: nat)
    requires i < |settlements|
    ensures SettlementsFor(settlements, settlements[i].operation) >= 1
    decreases |settlements|
  {
    if i < |settlements| - 1 {
      SettlementsForOne(settlements[..|settlements| - 1], i);
    }
  }

  lemma SettledOnceInRuns(actions: seq<Action>)
    ensures SettledOnce(Run(EMPTY_DB, actions).settlements)
  {
    var db := Run(EMPTY_DB, actions);
    RunKeepsLinked(actions);
    RunKeepsOnce(actions);
    forall i, j | 0 <= i < j < |db.settlements|
      ensures (db.settlements[i].bet, db.settlements[i].revision) != (db.settlements[j].bet, db.settlements[j].revision)
      ensures db.settlements[i].operation != db.settlements[j].operation
    {
      if db.settlements[i].bet == db.settlements[j].bet {
        var k := FindBet(db.bets, db.settlements[i].bet).value;
        assert BetLinked(db.settlements, db.bets[k]);
        HistoryOrder(db.settlements, db.settlements[i].bet, i, j);
      }
      assert RowsFor(db, db.settlements[j].operation) <= 1;
      if db.settlements[i].operation == db.settlements[j].operation {
        SettlementsForBoth(db.settlements, i, j);
      }
    }
  }

  /** In every interleaving: the accounting equation holds, every account replays from its ledger,
      each bet and game revision and each operation is settled at most once, each operation stands
      for one row, bets and settlements stay linked, and no game has two pending bets of an account. */
  lemma InterleavedSafety(events: seq<Event>)
    ensures var db := Exec(events).db;
            && Balanced(db) && Ledgered(db) && SettledOnce(db.settlements) && Once(db) && Linked(db)
            && OnePendingPerGame(db.bets)
  {
    var actions := CommittedActions(events);
    Serializable(events);
    RunKeepsBalanced(actions);
    RunKeepsLedgered(actions);
    SettledOnceInRuns(actions);
    RunKeepsOnce(actions);
    RunKeepsLinked(actions);
    AtMostOnePendingBet(actions);
  }

  // ---- Denials ----

  /** The account locked, or the one the member's enrollment leads to. */
  function AccountNow(db: Db, tx: Tx, guild: Id, user: Id): Option<Id> {
    if tx.account.Some? then tx.account else ActiveAccount(db, guild, user)
  }

  /** What the atomic operation would decide now, before its operation id is looked at. */
  function GoalNow(db: Db, tx: Tx): Goal {
    match tx.call
    case SettleCall(input) => SettleGoal(db, input)
    case PlaceCall(input) =>
      (match AccountNow(db, tx, input.guild, input.user)
       case None => Deny(NotEnrolled)
       case Some(id) => PlaceGoal(db, input, id))
    case ClaimCall(input) =>
      (match AccountNow(db, tx, input.guild, input.user)
       case None => Deny(NotEnrolled)
       case Some(id) => if id in db.accounts then ClaimGoal(db, input, id, db.accounts[id]) else Deny(NotEnrolled))
    case AdjustCall(input) => AdjustGoal(db, input)
    case EnrollCall(input) => EnrollGoal(db, input)
  }

  function DeniedIn(pc: Pc): Option<DenialReason> {
    match pc
    case InsertOperation(Deny(reason)) => Some(reason)
    case Commit(Deny(reason)) => Some(reason)
    case _ => None
  }

  lemma SettleDenialWasTrue(db: Db, tx: Tx)
    requires Grounded(db) && UpToDate(db, tx) && tx.call.SettleCall?
    requires DeniedIn(tx.pc).None? && DeniedIn(SettleStatement(db, tx, tx.call.settle).pc).Some?
    requires !tx.pc.Commit? && !tx.pc.InsertOperation?
    ensures GoalNow(db, tx) == Deny(DeniedIn(SettleStatement(db, tx, tx.call.settle).pc).value)
  {
  }

  /** A transaction that ends in a denial read, at the instant it decided, tables on which the
      operation is denied for that very reason. */
  lemma DenialWasTrue(db: Db, tx: Tx)
    requires Grounded(db) && UpToDate(db, tx) && !tx.pc.Commit?
    requires DeniedIn(tx.pc).None? && DeniedIn(Statement(db, tx).pc).Some?
    ensures GoalNow(db, Statement(db, tx)) == Deny(DeniedIn(Statement(db, tx).pc).value)
  {
    if tx.call.SettleCall? && !tx.pc.InsertOperation? {
      SettleDenialWasTrue(db, tx);
    }
  }
}
