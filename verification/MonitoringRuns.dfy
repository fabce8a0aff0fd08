/** Alerts over any run of snapshots from the empty state. */
module MonitoringRuns {
  import opened Options
  import opened Monitoring

  /** One observation of one key. */
  datatype Seen = Seen(item: Observation, observedAt: int, now: int)

  /** A notification and when it was sent. */
  datatype Sent = Sent(at: int, notice: Notification)

  // ---- One key ----

  function KeyState(h: seq<Seen>): AlertState {
    if h == [] then InitialState(0)
    else
      var last := h[|h| - 1];
      Advance(KeyState(h[..|h| - 1]), last.item, last.observedAt, last.now).0
  }

  function KeyLog(h: seq<Seen>): seq<Sent> {
    if h == [] then []
    else
      var front, last := h[..|h| - 1], h[|h| - 1];
      var notice := Advance(KeyState(front), last.item, last.observedAt, last.now).1;
      if notice.Some? then KeyLog(front) + [Sent(last.now, notice.value)] else KeyLog(front)
  }

  /** How many observations in a row, up to the last, agree with it. */
  function Trailing(h: seq<Seen>): (n: nat)
    ensures n <= |h| && (h != [] ==> n > 0)
  {
    if h == [] then 0
    else
      var front := h[..|h| - 1];
      if front != [] && front[|front| - 1].item.severity == h[|h| - 1].item.severity then Trailing(front) + 1 else 1
  }

  /** The severity of the latest run of equal observations that was long enough: as many as the last of
      them asks for to recover if they are ok, and to activate if they are not. */
  function Reached(h: seq<Seen>): Severity {
    if h == [] then Ok
    else
      var last := h[|h| - 1].item;
      if Trailing(h) >= (if last.severity == Ok then last.recoverAfter else last.activateAfter) then last.severity
      else Reached(h[..|h| - 1])
  }

  /** When the current run of agreeing observations began. */
  function RunStart(h: seq<Seen>): int
    requires h != []
  {
    h[|h| - Trailing(h)].observedAt
  }

  /** Since when the alert has not been ok: when the run that left ok began. */
  function Onset(h: seq<Seen>): Option<int> {
    if Reached(h).Ok? || h == [] then None
    else if Reached(h[..|h| - 1]).Ok? then Some(RunStart(h))
    else Onset(h[..|h| - 1])
  }

  /** The candidate fields count the current run while the alert does not agree with it. */
  ghost predicate CountsRun(state: AlertState, h: seq<Seen>) {
    && state.severity == Reached(h) && state.firstObservedAt == Onset(h)
    && (h == [] ==> state.candidate.Ok?)
    && (h != [] ==> state.candidate == h[|h| - 1].item.severity)
    && (state.severity == state.candidate ==> state.candidateCount == 0 && state.candidateFirstObservedAt.None?)
    && (state.severity != state.candidate && h != [] ==>
          state.candidateCount == Trailing(h) && state.candidateFirstObservedAt == Some(RunStart(h)))
  }

  lemma {:induction false} StateCountsRun(h: seq<Seen>)
    ensures CountsRun(KeyState(h), h)
    decreases |h|
  {
    if h != [] {
      var front := h[..|h| - 1];
      StateCountsRun(front);
      if |h| > 1 && front[|front| - 1].item.severity == h[|h| - 1].item.severity {
        assert h[|h| - Trailing(h)] == front[|front| - Trailing(front)];
      }
      OnsetIsSet(front);
    }
  }

  lemma {:induction false} OnsetIsSet(h: seq<Seen>)
    ensures Onset(h).None? <==> Reached(h).Ok?
    decreases |h|
  {
    if h != [] {
      OnsetIsSet(h[..|h| - 1]);
    }
  }

  /** The debouncer refines the history: the severity held is that of the latest long enough run, and
      the alert is dated from the run that left ok, which is exactly while it is not ok. */
  lemma SeverityIsReached(h: seq<Seen>)
    ensures KeyState(h).severity == Reached(h) && KeyState(h).firstObservedAt == Onset(h)
    ensures KeyState(h).firstObservedAt.None? <==> KeyState(h).severity.Ok?
  {
    StateCountsRun(h);
    OnsetIsSet(h);
  }

  /** The reason of the last observation of the severity. */
  function LastReason(h: seq<Seen>, severity: Severity): Option<string> {
    if h == [] then None
    else if h[|h| - 1].item.severity == severity then Some(h[|h| - 1].item.reason)
    else LastReason(h[..|h| - 1], severity)
  }

  /** The state names the instant last observed and the latest reason for the severity it holds. */
  lemma {:induction false} StateNamesLatest(h: seq<Seen>)
    ensures h != [] ==> KeyState(h).lastObservedAt == h[|h| - 1].observedAt
    ensures KeyState(h).reason
         == match LastReason(h, Reached(h)) case None => "not_observed" case Some(reason) => reason
    decreases |h|
  {
    if h != [] {
      var front := h[..|h| - 1];
      StateNamesLatest(front);
      StateCountsRun(front);
      StateCountsRun(h);
    }
  }

  predicate LastAre(h: seq<Seen>, n: nat, severity: Severity) {
    n <= |h| && forall i | |h| - n <= i < |h| :: h[i].item.severity == severity
  }

  lemma {:induction false} TrailingMeans(h: seq<Seen>, n: nat)
    requires h != []
    ensures Trailing(h) >= n <==> LastAre(h, n, h[|h| - 1].item.severity)
    decreases |h|
  {
    var front := h[..|h| - 1];
    if n > 1 {
      if front != [] {
        TrailingMeans(front, n - 1);
        assert front[|front| - 1] == h[|h| - 2];
        assert forall i | 0 <= i < |front| :: front[i] == h[i];
        if LastAre(h, n, h[|h| - 1].item.severity) {
          assert LastAre(front, n - 1, front[|front| - 1].item.severity);
        }
        if front[|front| - 1].item.severity == h[|h| - 1].item.severity
            && LastAre(front, n - 1, h[|h| - 1].item.severity) {
          assert LastAre(h, n, h[|h| - 1].item.severity);
        }
      }
    }
  }

  /** An observation moves the alert to a severity it does not hold exactly when it is of that severity
      and, with the ones before it, makes the number in a row it asks for: `recoverAfter` of them to be ok
      again, `activateAfter` of them to warn or to be critical. */
  lemma MovesExactlyWhen(h: seq<Seen>, seen: Seen, severity: Severity)
    requires KeyState(h).severity != severity
    ensures KeyState(h + [seen]).severity == severity <==>
              && seen.item.severity == severity
              && (severity.Ok? ==> LastAre(h + [seen], seen.item.recoverAfter, Ok))
              && (severity.Warning? ==> LastAre(h + [seen], seen.item.activateAfter, Warning))
              && (severity.Critical? ==> LastAre(h + [seen], seen.item.activateAfter, Critical))
  {
    var all := h + [seen];
    assert all[..|h|] == h;
    StateCountsRun(h);
    StateCountsRun(all);
    TrailingMeans(all, Threshold(seen.item));
  }

  // ---- Notifications of one key ----

  /** The last notification fits the one before it: a resolution closes a firing of the same onset, a
      firing within an episode keeps its onset, and one that repeats the severity is a critical
      reminder at least six hours after the one before. */
  predicate Follows(log: seq<Sent>) {
    log == [] ||
    var last := log[|log| - 1].notice;
    if |log| == 1 then !last.severity.Ok?
    else
      var prior := log[|log| - 2];
      && (last.severity.Ok? ==> !prior.notice.severity.Ok?)
      && (!prior.notice.severity.Ok? ==> last.firstObservedAt == prior.notice.firstObservedAt)
      && (last.severity == prior.notice.severity ==>
            last.severity.Critical? && log[|log| - 1].at - prior.at >= 21_600_000)
  }

  predicate WellFormed(log: seq<Sent>) {
    log == [] || (Follows(log) && WellFormed(log[..|log| - 1]))
  }

  ghost predicate LogTells(state: AlertState, log: seq<Sent>) {
    if log == [] then state.severity.Ok? && state.lastNotifiedAt.None? && state.firstObservedAt.None?
    else
      var last := log[|log| - 1];
      && state.severity == last.notice.severity && state.lastNotifiedAt == Some(last.at)
      && state.firstObservedAt == if state.severity.Ok? then None else Some(last.notice.firstObservedAt)
  }

  /** In every history the notifications of a key are well formed, and the state held is the one last
      notified: each severity is announced when it is taken, none is announced otherwise. */
  lemma {:induction false} NotificationsAreWellFormed(h: seq<Seen>)
    ensures WellFormed(KeyLog(h)) && LogTells(KeyState(h), KeyLog(h))
    decreases |h|
  {
    if h != [] {
      var front, last := h[..|h| - 1], h[|h| - 1];
      NotificationsAreWellFormed(front);
      var prior, log := KeyState(front), KeyLog(front);
      var (state, notice) := Advance(prior, last.item, last.observedAt, last.now);
      if notice.Some? {
        var all := log + [Sent(last.now, notice.value)];
        assert KeyLog(h) == all;
        assert all[..|all| - 1] == log;
        assert Follows(all);
      }
    }
  }

  lemma HistoryGrows(h: seq<Seen>, seen: Seen)
    ensures var (state, notice) := Advance(KeyState(h), seen.item, seen.observedAt, seen.now);
            && KeyState(h + [seen]) == state
            && KeyLog(h + [seen]) == if notice.Some? then KeyLog(h) + [Sent(seen.now, notice.value)] else KeyLog(h)
  {
    assert (h + [seen])[..|h|] == h;
  }

  /** An observation sends a notification exactly when it moves the alert, or repeats critical six hours
      or more after the last notification; it names what was observed, when, and since when the alert
      stands or, for a resolution, stood. */
  lemma NotifiesExactlyWhen(h: seq<Seen>, seen: Seen)
    ensures var all, log := h + [seen], KeyLog(h);
            var was, now, item := KeyState(h).severity, KeyState(all).severity, seen.item;
            if now != was || (&& was.Critical? && item.severity.Critical?
                              && (log == [] || seen.now - log[|log| - 1].at >= 21_600_000))
            then
              var since := Onset(if now.Ok? then h else all);
              && since.Some?
              && KeyLog(all) == log + [Sent(seen.now, Notification(item.severity, item.key, since.value,
                                                                   seen.observedAt, item.reason))]
            else KeyLog(all) == log
  {
    HistoryGrows(h, seen);
    StateCountsRun(h);
    StateCountsRun(h + [seen]);
    OnsetIsSet(h);
    OnsetIsSet(h + [seen]);
    NotificationsAreWellFormed(h);
  }

  /** No reminder is overdue: after an observation that agrees with a critical alert, less than six
      hours have passed since the key was last notified. */
  lemma ReminderNeverOverdue(h: seq<Seen>)
    requires h != [] && KeyState(h).severity.Critical? && h[|h| - 1].item.severity.Critical?
    ensures KeyLog(h) != [] && h[|h| - 1].now - KeyLog(h)[|KeyLog(h)| - 1].at < 21_600_000
  {
    NotificationsAreWellFormed(h);
    NotificationsAreWellFormed(h[..|h| - 1]);
  }

  // ---- Keys do not affect each other ----

  ghost predicate DistinctKeys(items: seq<Observation>) {
    forall i, j | 0 <= i < j < |items| :: items[i].key != items[j].key
  }

  function Find(items: seq<Observation>, key: string): Option<Observation> {
    if items == [] then None
    else if items[|items| - 1].key == key then Some(items[|items| - 1])
    else Find(items[..|items| - 1], key)
  }

  function NoticesOf(notices: seq<Notification>, key: string): seq<Notification> {
    if notices == [] then []
    else
      var front, last := notices[..|notices| - 1], notices[|notices| - 1];
      if last.key == key then NoticesOf(front, key) + [last] else NoticesOf(front, key)
  }

  lemma {:induction false} FindNothing(items: seq<Observation>, key: string)
    requires forall i | 0 <= i < |items| :: items[i].key != key
    ensures Find(items, key).None?
    decreases |items|
  {
    if items != [] {
      FindNothing(items[..|items| - 1], key);
    }
  }

  lemma NoticesGrow(notices: seq<Notification>, notice: Notification, key: string)
    ensures NoticesOf(notices + [notice], key)
         == if notice.key == key then NoticesOf(notices, key) + [notice] else NoticesOf(notices, key)
  {
    assert (notices + [notice])[..|notices|] == notices;
  }

  /** A notification is about the key observed. */
  lemma NoticeNamesKey(prior: AlertState, item: Observation, observedAt: int, now: int)
    ensures var notice := Advance(prior, item, observedAt, now).1; notice.Some? ==> notice.value.key == item.key
  {
  }

  lemma LastOfKey(items: seq<Observation>, key: string)
    requires DistinctKeys(items) && items != [] && items[|items| - 1].key == key
    ensures Find(items[..|items| - 1], key).None?
  {
    var front := items[..|items| - 1];
    forall i | 0 <= i < |front| ensures front[i].key != key {
      assert front[i] == items[i];
    }
    FindNothing(front, key);
  }

  /** A batch moves each key by its own observation only. */
  lemma {:induction false} BatchOnKey(previous: States, batch: Batch, key: string)
    requires DistinctKeys(batch.items)
    ensures var found := Find(batch.items, key);
            var after, notices := Apply(previous, batch), NoticesOf(Notices(previous, batch), key);
            if found.None?
            then (key in after <==> key in previous) && (key in after ==> after[key] == previous[key]) && notices == []
            else
              var (state, notice) := Advance(PriorOf(previous, key, batch.now), found.value, batch.observedAt,
                                             batch.now);
              key in after && after[key] == state && notices == if notice.Some? then [notice.value] else []
    decreases |batch.items|
  {
    if batch.items != [] {
      var front, last := batch.items[..|batch.items| - 1], batch.items[|batch.items| - 1];
      BatchOnKey(previous, batch.(items := front), key);
      if last.key == key {
        LastOfKey(batch.items, key);
      }
      var prior := PriorOf(previous, last.key, batch.now);
      var notice := Advance(prior, last, batch.observedAt, batch.now).1;
      NoticeNamesKey(prior, last, batch.observedAt, batch.now);
      if notice.Some? {
        NoticesGrow(Notices(previous, batch.(items := front)), notice.value, key);
      }
    }
  }

  function Run(batches: seq<Batch>): States {
    if batches == [] then map[] else Apply(Run(batches[..|batches| - 1]), batches[|batches| - 1])
  }

  function Stamped(notices: seq<Notification>, at: int): seq<Sent> {
    seq(|notices|, i requires 0 <= i < |notices| => Sent(at, notices[i]))
  }

  /** What was sent about the key, over the whole run. */
  function RunLog(batches: seq<Batch>, key: string): seq<Sent> {
    if batches == [] then []
    else
      var front, last := batches[..|batches| - 1], batches[|batches| - 1];
      RunLog(front, key) + Stamped(NoticesOf(Notices(Run(front), last), key), last.now)
  }

  function HistoryOf(batches: seq<Batch>, key: string): seq<Seen> {
    if batches == [] then []
    else
      var front, last := batches[..|batches| - 1], batches[|batches| - 1];
      var found := Find(last.items, key);
      if found.Some? then HistoryOf(front, key) + [Seen(found.value, last.observedAt, last.now)]
      else HistoryOf(front, key)
  }

  lemma InitialInstantIsUnused(item: Observation, observedAt: int, now: int, other: int)
    ensures Advance(InitialState(now), item, observedAt, now) == Advance(InitialState(other), item, observedAt, now)
  {
  }

  lemma BatchOnHistory(previous: States, h: seq<Seen>, batch: Batch, key: string)
    requires DistinctKeys(batch.items)
    requires (key in previous <==> h != []) && (key in previous ==> previous[key] == KeyState(h))
    ensures var found := Find(batch.items, key);
            var after, sent := Apply(previous, batch), Stamped(NoticesOf(Notices(previous, batch), key), batch.now);
            var all := if found.Some? then h + [Seen(found.value, batch.observedAt, batch.now)] else h;
            && (key in after <==> all != []) && (key in after ==> after[key] == KeyState(all))
            && KeyLog(h) + sent == KeyLog(all)
  {
    BatchOnKey(previous, batch, key);
    var found := Find(batch.items, key);
    if found.Some? {
      HistoryGrows(h, Seen(found.value, batch.observedAt, batch.now));
      InitialInstantIsUnused(found.value, batch.observedAt, batch.now, 0);
      assert Advance(PriorOf(previous, key, batch.now), found.value, batch.observedAt, batch.now)
          == Advance(KeyState(h), found.value, batch.observedAt, batch.now);
    }
  }

  /** Over any run from the empty state, the state and the notifications of a key are those of its own
      observations alone. */
  lemma {:induction false} RunIsPerKey(batches: seq<Batch>, key: string)
    requires forall i | 0 <= i < |batches| :: DistinctKeys(batches[i].items)
    ensures var h := HistoryOf(batches, key);
            && (key in Run(batches) <==> h != [])
            && (key in Run(batches) ==> Run(batches)[key] == KeyState(h))
            && RunLog(batches, key) == KeyLog(h)
    decreases |batches|
  {
    if batches != [] {
      var front, last := batches[..|batches| - 1], batches[|batches| - 1];
      RunIsPerKey(front, key);
      BatchOnHistory(Run(front), HistoryOf(front, key), last, key);
    }
  }

  // ---- Snapshots ----

  ghost predicate DistinctUnits(units: seq<Service>) {
    forall i, j | 0 <= i < j < |units| :: units[i].name != units[j].name
  }

  lemma {:induction false} UnitKeys(units: seq<Service>)
    ensures var items := UnitObservations(units);
            |items| == |units| && forall i | 0 <= i < |units| :: items[i] == UnitObservation(units[i])
    decreases |units|
  {
    if units != [] {
      UnitKeys(units[..|units| - 1]);
    }
  }

  lemma ServiceKeysDiffer(a: string, b: string)
    ensures "service." + a == "service." + b <==> a == b
  {
    assert ("service." + a)[8..] == a && ("service." + b)[8..] == b;
  }

  /** Where a key comes in the order of observations. */
  function Rank(key: string): nat {
    if |key| <= 8 then 0
    else match key[0]
      case 'm' => 1
      case 's' => 2
      case 'r' => 3
      case 'b' => 4
      case 'c' => 5
      case 'j' => if key[8] == 'c' then 6 else 7
      case _ => 0
  }

  lemma SystemRanks(s: Snapshot)
    ensures Rank(BackupObservation(s.backup, s.now).key) == 4
    ensures Rank(CertificateObservation(s.certificate, s.now).key) == 5
    ensures Rank(CapacityObservation(s).key) == 6 && Rank(SuppressionObservation(s.suppression).key) == 7
  {
    assert BackupObservation(s.backup, s.now).key == "backup.age";
    assert CertificateObservation(s.certificate, s.now).key == "certificate.expiry";
    assert CapacityObservation(s).key == "journal.capacity";
    assert SuppressionObservation(s.suppression).key == "journal.dropped";
  }

  ghost predicate RankedBelow(items: seq<Observation>, rank: nat) {
    DistinctKeys(items) && forall i | 0 <= i < |items| :: Rank(items[i].key) < rank
  }

  lemma AppendRanked(items: seq<Observation>, item: Observation)
    requires RankedBelow(items, Rank(item.key))
    ensures RankedBelow(items + [item], Rank(item.key) + 1)
  {
  }

  lemma ServiceRanks(s: Snapshot)
    requires DistinctUnits(s.units)
    ensures RankedBelow(ServiceObservations(s), 3)
  {
    UnitKeys(s.units);
    var units := UnitObservations(s.units);
    forall i | 0 <= i < |units| ensures Rank(units[i].key) == 2 || s.units[i].name == [] {
      assert units[i].key == "service." + s.units[i].name;
    }
    forall i, j | 0 <= i < j < |units| ensures units[i].key != units[j].key {
      ServiceKeysDiffer(s.units[i].name, s.units[j].name);
    }
  }

  /** A snapshot never observes a key twice. */
  lemma SnapshotKeysAreDistinct(s: Snapshot)
    requires DistinctUnits(s.units)
    ensures DistinctKeys(Evaluate(s).items)
  {
    ServiceRanks(s);
    SystemRanks(s);
    var items := ServiceObservations(s);
    if s.health.Some? {
      assert HealthObservation(s.health.value).key == "runtime.health";
      AppendRanked(items, HealthObservation(s.health.value));
    }
    items := RuntimeObservations(s);
    AppendRanked(items, BackupObservation(s.backup, s.now));
    items := items + [BackupObservation(s.backup, s.now)];
    AppendRanked(items, CertificateObservation(s.certificate, s.now));
    items := items + [CertificateObservation(s.certificate, s.now)];
    AppendRanked(items, CapacityObservation(s));
    AppendRanked(items + [CapacityObservation(s)], SuppressionObservation(s.suppression));
  }

  function Evaluations(snapshots: seq<Snapshot>): seq<Batch> {
    seq(|snapshots|, i requires 0 <= i < |snapshots| => Evaluate(snapshots[i]))
  }

  /** Over any run of snapshots from the empty state: a key is held exactly if it was ever observed, with
      the severity and onset of its own history, and what was sent about it is well formed and ends in
      the state held. */
  lemma AlertsOverSnapshots(snapshots: seq<Snapshot>, key: string)
    requires forall i | 0 <= i < |snapshots| :: DistinctUnits(snapshots[i].units)
    ensures var batches := Evaluations(snapshots);
            var h, states, log := HistoryOf(batches, key), Run(batches), RunLog(batches, key);
            && WellFormed(log) && (key in states <==> h != [])
            && (key in states ==>
                  && states[key].severity == Reached(h) && states[key].firstObservedAt == Onset(h)
                  && LogTells(states[key], log))
  {
    var batches := Evaluations(snapshots);
    forall i | 0 <= i < |batches| ensures DistinctKeys(batches[i].items) {
      SnapshotKeysAreDistinct(snapshots[i]);
    }
    RunIsPerKey(batches, key);
    SeverityIsReached(HistoryOf(batches, key));
    NotificationsAreWellFormed(HistoryOf(batches, key));
  }

  /** Stale or unreadable input is observed as such, and nothing else is: no other alert moves. */
  lemma StaleInputFreezesOthers(previous: States, s: Snapshot, key: string)
    requires StaleInput(s) && key != "monitor.input"
    ensures var after := Apply(previous, Evaluate(s));
            && (key in after <==> key in previous) && (key in after ==> after[key] == previous[key])
            && NoticesOf(Notices(previous, Evaluate(s)), key) == []
  {
    BatchOnKey(previous, Evaluate(s), key);
  }
}
