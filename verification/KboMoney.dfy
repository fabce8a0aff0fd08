/** The pure credit rules: how a signed amount is split between balance and debt, what a bet
    returns, and when a bet may be placed. Times are milliseconds, amounts are unbounded integers
    (the source uses bigint), and a thrown error is None or Invalid. */
module KboMoney {
  import opened Options

  const DAILY_CREDIT := 50_000
  const DAILY_STAKE_LIMIT := 50_000
  const EVIDENCE_MAX_AGE_MS := 300_000
  const MAX_SAFE_INTEGER := 0x1F_FFFF_FFFF_FFFF
  const DAY_MS := 86_400_000
  const KST_OFFSET_MS := 32_400_000

  /** A change of the two account columns. */
  datatype Split = Split(availableDelta: int, debtDelta: int)

  /** A negative delta takes what the balance can give and turns the rest into debt; a positive one
      pays debt first, except that a void refund goes to the balance whole. */
  function AllocateSettlementDelta(available: int, debt: int, delta: int, voidRefund: bool): (r: Option<Split>)
    ensures r.None? <==> available < 0 || debt < 0 || (voidRefund && delta <= 0)
    ensures r.Some? ==> r.value.availableDelta - r.value.debtDelta == delta
    ensures r.Some? ==> available + r.value.availableDelta >= 0 && debt + r.value.debtDelta >= 0
  {
    if available < 0 || debt < 0 then None
    else if voidRefund then
      if delta <= 0 then None else Some(Split(delta, 0))
    else if delta > 0 then
      var debtPaid := if delta < debt then delta else debt;
      Some(Split(delta - debtPaid, -debtPaid))
    else if delta < 0 then
      var recovery := if -delta < available then -delta else available;
      Some(Split(-recovery, -delta - recovery))
    else Some(Split(0, 0))
  }

  /** Debt is served before the balance grows, and the balance is emptied before debt grows. */
  predicate ServesDebtFirst(available: int, debt: int, delta: int, split: Split) {
    && split.availableDelta - split.debtDelta == delta
    && available + split.availableDelta >= 0
    && debt + split.debtDelta >= 0
    && (delta >= 0 ==> split.availableDelta >= 0 && split.debtDelta <= 0
                       && (split.availableDelta == 0 || debt + split.debtDelta == 0))
    && (delta <= 0 ==> split.availableDelta <= 0 && split.debtDelta >= 0
                       && (split.debtDelta == 0 || available + split.availableDelta == 0))
  }

  /** The rule leaves no freedom: the split of an ordinary payout or correction is the only one
      that serves debt first. */
  lemma SettlementSplitIsForced(available: int, debt: int, delta: int, split: Split)
    requires available >= 0 && debt >= 0
    ensures ServesDebtFirst(available, debt, delta, split)
       <==> AllocateSettlementDelta(available, debt, delta, false) == Some(split)
  {
    var chosen := AllocateSettlementDelta(available, debt, delta, false).value;
    assert ServesDebtFirst(available, debt, delta, chosen);
    if ServesDebtFirst(available, debt, delta, split) {
      if delta > 0 {
        assert split.availableDelta == chosen.availableDelta;
      } else {
        assert split.debtDelta == chosen.debtDelta;
      }
    }
  }

  function AllocateDailyCredit(debt: int): (r: Option<Split>)
    ensures r.None? <==> debt < 0
    ensures r.Some? ==> ServesDebtFirst(0, debt, DAILY_CREDIT, r.value)
  {
    if debt < 0 then None
    else
      var debtPaid := if debt < DAILY_CREDIT then debt else DAILY_CREDIT;
      Some(Split(DAILY_CREDIT - debtPaid, -debtPaid))
  }

  /** The KST calendar day that contains an instant, as a day number. */
  function KstDay(instant: int): int {
    (instant + KST_OFFSET_MS) / DAY_MS
  }

  datatype GameOutcome = HomeWin | Draw | AwayWin

  datatype GameStatus =
    | Scheduled | Postponed | Cancelled | NoGame | Suspended | InProgress | FinalPending | Final | Unknown

  datatype BetResult = Lost | OutcomeHit | ScoreHit | VoidResult

  datatype Payout = Payout(result: BetResult, multiplier: int, returnAmount: int)

  function OutcomeOf(home: int, away: int): GameOutcome {
    if home > away then HomeWin else if home < away then AwayWin else Draw
  }

  predicate ValidScore(score: int) {
    0 <= score <= MAX_SAFE_INTEGER
  }

  /** The return of a bet on a final score; None is a thrown error. */
  function FinalBetReturn(stake: int, prediction: GameOutcome, predictedHome: Option<int>, predictedAway: Option<int>,
                          home: int, away: int): Option<Payout>
  {
    if !(0 < stake <= MAX_SAFE_INTEGER) || !ValidScore(home) || !ValidScore(away) then None
    else if predictedHome.Some? != predictedAway.Some? then None
    else if predictedHome.Some? && !(ValidScore(predictedHome.value) && ValidScore(predictedAway.value)) then None
    else if prediction != OutcomeOf(home, away) then Some(Payout(Lost, 0, 0))
    else
      var exact := predictedHome == Some(home) && predictedAway == Some(away);
      var multiplier := if exact then 3 else 2;
      if stake * multiplier > MAX_SAFE_INTEGER then None
      else Some(Payout(if exact then ScoreHit else OutcomeHit, multiplier, stake * multiplier))
  }

  datatype Settling = Crashed | NotTerminal | Terminal(payout: Payout)

  /** The game will not be played. */
  predicate CalledOff(status: GameStatus) {
    status.Cancelled? || status.NoGame? || status.Postponed?
  }

  /** What the current game row says about a bet: void if the game is called off, open until it is final
      with a score, and otherwise what the score makes of it. */
  function CalculateSettlement(stake: int, prediction: GameOutcome,
                               predictedHome: Option<int>, predictedAway: Option<int>,
                               status: GameStatus, homeScore: Option<int>, awayScore: Option<int>): (r: Settling)
    ensures (r.Terminal? && r.payout.result.VoidResult?) <==> CalledOff(status)
    ensures r.NotTerminal? <==> !CalledOff(status) && (!status.Final? || homeScore.None? || awayScore.None?)
    ensures r.Terminal? && stake > 0 ==>
              && r.payout.returnAmount == stake * r.payout.multiplier
              && (r.payout.result == Lost <==> r.payout.multiplier == 0)
              && (r.payout.result == VoidResult <==> r.payout.multiplier == 1)
              && (r.payout.result == OutcomeHit <==> r.payout.multiplier == 2)
              && (r.payout.result == ScoreHit <==> r.payout.multiplier == 3)
  {
    if CalledOff(status) then Terminal(Payout(VoidResult, 1, stake))
    else if !status.Final? || homeScore.None? || awayScore.None? then NotTerminal
    else
      match FinalBetReturn(stake, prediction, predictedHome, predictedAway, homeScore.value, awayScore.value)
      case None => Crashed
      case Some(payout) => Terminal(payout)
  }

  /** The bet calls exactly the outcome of the final score, or its score as well. */
  lemma PayoutMeansPrediction(stake: int, prediction: GameOutcome, ph: Option<int>, pa: Option<int>, home: int,
                              away: int)
    requires 0 < stake <= 50_000 && ValidScore(home) && ValidScore(away)
    requires (ph.None? && pa.None?) || (ph.Some? && pa.Some? && ValidScore(ph.value) && ValidScore(pa.value))
    ensures FinalBetReturn(stake, prediction, ph, pa, home, away).Some?
    ensures var p := FinalBetReturn(stake, prediction, ph, pa, home, away).value;
            && (p.result == Lost <==> prediction != OutcomeOf(home, away))
            && (p.result == ScoreHit <==> prediction == OutcomeOf(home, away) && (ph, pa) == (Some(home), Some(away)))
            && p.result != VoidResult
            && p.returnAmount == stake * (if p.result == Lost then 0 else if p.result == ScoreHit then 3 else 2)
  {
    assert stake * 3 <= MAX_SAFE_INTEGER;
  }

  datatype DenialReason =
    | NotEnrolled | GameDataUnavailable | BettingClosed | CorrectionDebt | InsufficientBalance
    | DailyLimitExceeded | AlreadyBet
    | AlreadyClaimed
    | RightsUnauthorized | BetNotFound | RevisionNotCurrent | RevisionNotNewer | GameNotTerminal | AlreadySettled
    | AccountNotFound | SelfAdjustment | StaleVersion
    | AlreadyEnrolled | NotRegistered

  datatype PlacementVerdict = InvalidPlacement | PlacementDenied(reason: DenialReason) | PlacementAccepted(day: int)

  predicate EvidenceFresh(now: int, sourceUpdated: int, collected: int) {
    sourceUpdated <= collected && collected <= now && now - sourceUpdated <= EVIDENCE_MAX_AGE_MS
  }

  predicate ValidSlip(stake: int, predictedHome: Option<int>, predictedAway: Option<int>) {
    && 1_000 <= stake <= 50_000
    && stake % 1_000 == 0
    && predictedHome.Some? == predictedAway.Some?
    && (predictedHome.Some? ==> 0 <= predictedHome.value <= 32_767 && 0 <= predictedAway.value <= 32_767)
  }

  /** The placement policy for an active enrollment, in the source's order of tests. */
  function EvaluatePlacement(now: int, scheduledStart: int, authorized: bool, recent: bool, status: GameStatus,
                             available: int, debt: int, dailyStake: int,
                             stake: int, predictedHome: Option<int>, predictedAway: Option<int>): (r: PlacementVerdict)
    ensures r.PlacementAccepted? <==>
              && ValidSlip(stake, predictedHome, predictedAway) && available >= 0 && debt >= 0 && dailyStake >= 0
              && authorized && recent && status.Scheduled? && now < scheduledStart
              && debt == 0 && stake <= available && dailyStake + stake <= DAILY_STAKE_LIMIT
    ensures r.PlacementAccepted? ==> r.day == KstDay(now)
  {
    if !ValidSlip(stake, predictedHome, predictedAway) || available < 0 || debt < 0 || dailyStake < 0
    then InvalidPlacement
    else if !authorized || !recent then PlacementDenied(GameDataUnavailable)
    else if !status.Scheduled? || now >= scheduledStart then PlacementDenied(BettingClosed)
    else if debt > 0 then PlacementDenied(CorrectionDebt)
    else if available < stake then PlacementDenied(InsufficientBalance)
    else if dailyStake + stake > DAILY_STAKE_LIMIT then PlacementDenied(DailyLimitExceeded)
    else PlacementAccepted(KstDay(now))
  }
}
