/** Operational monitoring: what one snapshot observes, and the alert state that debounces it. */
module Monitoring {
  import opened Options

  const GIB: int := 1024 * 1024 * 1024
  const MINUTE: int := 60_000
  const HOUR: int := 60 * MINUTE
  const DAY: int := 24 * HOUR
  const REMINDER: int := 6 * HOUR

  datatype Severity = Ok | Warning | Critical

  /** `activateAfter` and `recoverAfter` are how many observations in a row it takes to move the alert. */
  datatype Observation = Observation(key: string, severity: Severity, reason: string, activateAfter: nat,
                                     recoverAfter: nat)

  datatype AlertState = AlertState(severity: Severity, candidate: Severity, candidateCount: nat,
                                   candidateFirstObservedAt: Option<int>, firstObservedAt: Option<int>,
                                   lastObservedAt: int, lastNotifiedAt: Option<int>, reason: string)

  datatype Notification = Notification(severity: Severity, key: string, firstObservedAt: int, lastObservedAt: int,
                                       reason: string)

  // ---- What a snapshot observes ----

  datatype Health = Healthy | Degraded | Unavailable

  datatype Instant = Missing | Unreadable | At(time: int)

  datatype Service = Service(name: string, running: bool)

  /** `units` are the expected units in name order. */
  datatype Snapshot = Snapshot(now: int, observedAt: Option<int>, units: seq<Service>, health: Option<Health>,
                               backup: Instant, certificate: Instant, journalUsed: int, journalMax: int,
                               filesystemFree: int, suppression: int)

  predicate TokenChar(c: char) {
    'A' <= c <= 'Z' || 'a' <= c <= 'z' || '0' <= c <= '9' || c in "._:@/+-"
  }

  predicate SafeToken(s: string) {
    1 <= |s| <= 128 && forall i | 0 <= i < |s| :: TokenChar(s[i])
  }

  predicate SafeCount(n: int) {
    0 <= n <= 0x1F_FFFF_FFFF_FFFF
  }

  function Plain(key: string, severity: Severity, reason: string): Observation {
    Observation(key, severity, reason, 1, 1)
  }

  function InputObservation(valid: bool): Observation {
    if valid then Plain("monitor.input", Ok, "monitor_input_valid")
    else Plain("monitor.input", Critical, "monitor_units_invalid")
  }

  function UnitObservation(unit: Service): Observation {
    Plain("service." + unit.name, if unit.running then Ok else Critical,
          if unit.running then "service_active" else "service_inactive")
  }

  function HealthObservation(status: Health): Observation {
    match status
    case Unavailable => Observation("runtime.health", Critical, "runtime_unavailable", 1, 2)
    case Degraded => Observation("runtime.health", Warning, "runtime_degraded", 5, 2)
    case Healthy => Observation("runtime.health", Ok, "runtime_healthy", 1, 2)
  }

  function BackupObservation(published: Instant, now: int): Observation {
    if !published.At? || published.time > now then Plain("backup.age", Critical, "backup_marker_invalid")
    else if now - published.time >= 24 * HOUR then Plain("backup.age", Critical, "backup_age_critical")
    else if now - published.time >= 20 * HOUR then Plain("backup.age", Warning, "backup_age_warning")
    else Plain("backup.age", Ok, "backup_age_ok")
  }

  function CertificateObservation(expires: Instant, now: int): Observation {
    match expires
    case Missing => Plain("certificate.expiry", Ok, "certificate_monitoring_disabled")
    case Unreadable => Plain("certificate.expiry", Critical, "certificate_expiry_invalid")
    case At(time) =>
      if time - now < 14 * DAY then Plain("certificate.expiry", Critical, "certificate_expiry_critical")
      else if time - now < 21 * DAY then Plain("certificate.expiry", Warning, "certificate_expiry_warning")
      else Plain("certificate.expiry", Ok, "certificate_expiry_ok")
  }

  function CapacityObservation(s: Snapshot): Observation {
    if !SafeCount(s.journalUsed) || !SafeCount(s.journalMax) || !SafeCount(s.filesystemFree) || s.journalMax == 0
    then Plain("journal.capacity", Critical, "journal_capacity_invalid")
    else if s.filesystemFree <= 4 * GIB then Plain("journal.capacity", Critical, "filesystem_free_critical")
    else if s.journalUsed * 10 >= s.journalMax * 8 || s.filesystemFree <= 5 * GIB
    then Plain("journal.capacity", Warning, "journal_capacity_warning")
    else Plain("journal.capacity", Ok, "journal_capacity_ok")
  }

  function SuppressionObservation(consecutive: int): Observation {
    if !SafeCount(consecutive) then Observation("journal.dropped", Critical, "journal_suppression_invalid", 1, 10)
    else if consecutive >= 2 then Observation("journal.dropped", Critical, "journal_suppression_repeated", 1, 10)
    else if consecutive == 1 then Observation("journal.dropped", Warning, "journal_suppression_detected", 1, 10)
    else Observation("journal.dropped", Ok, "journal_suppression_clear", 1, 10)
  }

  predicate StaleInput(s: Snapshot) {
    s.observedAt.None? || s.now - s.observedAt.value > 2 * MINUTE || s.observedAt.value - s.now > 2 * MINUTE
  }

  predicate ValidUnits(units: seq<Service>) {
    units != [] && forall i | 0 <= i < |units| :: SafeToken(units[i].name)
  }

  function UnitObservations(units: seq<Service>): seq<Observation> {
    if units == [] then [] else UnitObservations(units[..|units| - 1]) + [UnitObservation(units[|units| - 1])]
  }

  /** One evaluation: an instant, the instant observed at, and what was observed. */
  datatype Batch = Batch(now: int, observedAt: int, items: seq<Observation>)

  function Evaluate(s: Snapshot): Batch {
    if StaleInput(s) then Batch(s.now, s.now, [Plain("monitor.input", Critical, "monitor_input_stale")])
    else Batch(s.now, s.observedAt.value, AllObservations(s))
  }

  function ServiceObservations(s: Snapshot): seq<Observation> {
    var valid := ValidUnits(s.units);
    [InputObservation(valid)] + if valid then UnitObservations(s.units) else []
  }

  function RuntimeObservations(s: Snapshot): seq<Observation> {
    if s.health.Some? then ServiceObservations(s) + [HealthObservation(s.health.value)] else ServiceObservations(s)
  }

  function AllObservations(s: Snapshot): seq<Observation> {
    RuntimeObservations(s) + [BackupObservation(s.backup, s.now)] + [CertificateObservation(s.certificate, s.now)]
    + [CapacityObservation(s)] + [SuppressionObservation(s.suppression)]
  }

  method Observe(s: Snapshot) returns (batch: Batch)
    ensures batch == Evaluate(s)
  {
    if StaleInput(s) {
      return Batch(s.now, s.now, [Plain("monitor.input", Critical, "monitor_input_stale")]);
    }
    var valid := ValidUnits(s.units);
    var items := [InputObservation(valid)];
    if valid {
      for i := 0 to |s.units|
        invariant items == [InputObservation(valid)] + UnitObservations(s.units[..i])
      {
        assert s.units[..i + 1][..i] == s.units[..i];
        items := items + [UnitObservation(s.units[i])];
      }
      assert s.units[..|s.units|] == s.units;
    }
    assert items == ServiceObservations(s);
    if s.health.Some? {
      items := items + [HealthObservation(s.health.value)];
    }
    items := items + [BackupObservation(s.backup, s.now)];
    items := items + [CertificateObservation(s.certificate, s.now)];
    items := items + [CapacityObservation(s)];
    items := items + [SuppressionObservation(s.suppression)];
    batch := Batch(s.now, s.observedAt.value, items);
  }

  // ---- Applying observations ----

  function InitialState(now: int): AlertState {
    AlertState(Ok, Ok, 0, None, None, now, None, "not_observed")
  }

  function OrElse(first: Option<int>, second: int): int {
    if first.Some? then first.value else second
  }

  function Threshold(item: Observation): nat {
    if item.severity.Ok? then item.recoverAfter else item.activateAfter
  }

  function CandidateCount(prior: AlertState, item: Observation): nat {
    if prior.severity == item.severity then 0
    else if prior.candidate == item.severity then prior.candidateCount + 1
    else 1
  }

  function CandidateFirst(prior: AlertState, item: Observation, observedAt: int): Option<int> {
    if prior.severity == item.severity then None
    else if prior.candidate == item.severity then prior.candidateFirstObservedAt
    else Some(observedAt)
  }

  predicate Moves(prior: AlertState, item: Observation) {
    prior.severity != item.severity && CandidateCount(prior, item) >= Threshold(item)
  }

  predicate Reminds(prior: AlertState, item: Observation, now: int) {
    && !Moves(prior, item) && prior.severity.Critical? && item.severity.Critical?
    && (prior.lastNotifiedAt.Some? ==> now - prior.lastNotifiedAt.value >= REMINDER)
  }

  /** The next state of one alert, and the notification it causes. */
  function Advance(prior: AlertState, item: Observation, observedAt: int, now: int)
    : (AlertState, Option<Notification>)
  {
    if Moves(prior, item) then
      var first := if item.severity.Ok? then None
                   else Some(OrElse(prior.firstObservedAt,
                                    OrElse(CandidateFirst(prior, item, observedAt), observedAt)));
      (AlertState(item.severity, item.severity, 0, None, first, observedAt, Some(now), item.reason),
       Some(Notification(item.severity, item.key,
                         OrElse(if item.severity.Ok? then prior.firstObservedAt else first, observedAt),
                         observedAt, item.reason)))
    else
      var reminds := Reminds(prior, item, now);
      (AlertState(prior.severity, item.severity, CandidateCount(prior, item), CandidateFirst(prior, item, observedAt),
                  prior.firstObservedAt, observedAt, if reminds then Some(now) else prior.lastNotifiedAt,
                  if prior.severity == item.severity then item.reason else prior.reason),
       if reminds
       then Some(Notification(item.severity, item.key, OrElse(prior.firstObservedAt, observedAt), observedAt,
                              item.reason))
       else None)
  }

  type States = map<string, AlertState>

  function PriorOf(previous: States, key: string, now: int): AlertState {
    if key in previous then previous[key] else InitialState(now)
  }

  function Apply(previous: States, batch: Batch): States
    decreases |batch.items|
  {
    if batch.items == [] then previous
    else
      var front, last := batch.items[..|batch.items| - 1], batch.items[|batch.items| - 1];
      Apply(previous, batch.(items := front))
        [last.key := Advance(PriorOf(previous, last.key, batch.now), last, batch.observedAt, batch.now).0]
  }

  function Notices(previous: States, batch: Batch): seq<Notification>
    decreases |batch.items|
  {
    if batch.items == [] then []
    else
      var front, last := batch.items[..|batch.items| - 1], batch.items[|batch.items| - 1];
      var earlier := Notices(previous, batch.(items := front));
      var notice := Advance(PriorOf(previous, last.key, batch.now), last, batch.observedAt, batch.now).1;
      if notice.Some? then earlier + [notice.value] else earlier
  }

  method ApplyObservations(previous: States, batch: Batch) returns (states: States, notices: seq<Notification>)
    ensures states == Apply(previous, batch) && notices == Notices(previous, batch)
  {
    states, notices := previous, [];
    for i := 0 to |batch.items|
      invariant states == Apply(previous, batch.(items := batch.items[..i]))
      invariant notices == Notices(previous, batch.(items := batch.items[..i]))
    {
      assert batch.items[..i + 1][..i] == batch.items[..i];
      var item := batch.items[i];
      var prior := PriorOf(previous, item.key, batch.now);
      var candidateCount := CandidateCount(prior, item);
      var candidateFirst := CandidateFirst(prior, item, batch.observedAt);
      if prior.severity != item.severity && candidateCount >= Threshold(item) {
        var first := if item.severity.Ok? then None
                     else Some(OrElse(prior.firstObservedAt, OrElse(candidateFirst, batch.observedAt)));
        var noticeFirst := if item.severity.Ok? then OrElse(prior.firstObservedAt, batch.observedAt)
                           else OrElse(first, batch.observedAt);
        states := states[item.key := AlertState(item.severity, item.severity, 0, None, first, batch.observedAt,
                                                Some(batch.now), item.reason)];
        notices := notices + [Notification(item.severity, item.key, noticeFirst, batch.observedAt, item.reason)];
        continue;
      }
      var following := AlertState(prior.severity, item.severity, candidateCount, candidateFirst, prior.firstObservedAt,
                                  batch.observedAt, prior.lastNotifiedAt,
                                  if prior.severity == item.severity then item.reason else prior.reason);
      if prior.severity.Critical? && item.severity.Critical?
         && (prior.lastNotifiedAt.None? || batch.now - prior.lastNotifiedAt.value >= REMINDER)
      {
        following := following.(lastNotifiedAt := Some(batch.now));
        notices := notices + [Notification(item.severity, item.key, OrElse(prior.firstObservedAt, batch.observedAt),
                                           batch.observedAt, item.reason)];
      }
      states := states[item.key := following];
    }
    assert batch.items[..|batch.items|] == batch.items;
  }
}
