/** What each check of a snapshot observes, told by the snapshot alone, with the limits written out. */
module MonitoringChecks {
  import opened Options
  import opened Monitoring
  import opened MonitoringRuns

  /** The snapshot observes the key with that severity and reason, and how often in a row it takes to move
      the alert and to clear it. */
  ghost predicate Says(s: Snapshot, key: string, severity: Severity, reason: string, activate: nat, recover: nat) {
    Find(Evaluate(s).items, key) == Some(Observation(key, severity, reason, activate, recover))
  }

  lemma {:induction false} FindsIt(items: seq<Observation>, item: Observation)
    requires DistinctKeys(items) && item in items
    ensures Find(items, item.key) == Some(item)
    decreases |items|
  {
    var front, last := items[..|items| - 1], items[|items| - 1];
    if last.key == item.key {
      var i :| 0 <= i < |items| && items[i] == item;
    } else {
      FindsIt(front, item);
    }
  }

  /** The instant observed at is missing or more than two minutes from now. */
  predicate TooOld(s: Snapshot) {
    s.observedAt.None? || s.now - s.observedAt.value > 120_000 || s.observedAt.value - s.now > 120_000
  }

  lemma SaysIt(s: Snapshot, item: Observation)
    requires DistinctUnits(s.units) && item in Evaluate(s).items
    ensures Says(s, item.key, item.severity, item.reason, item.activateAfter, item.recoverAfter)
  {
    SnapshotKeysAreDistinct(s);
    FindsIt(Evaluate(s).items, item);
  }

  /** Stale input is critical at once and nothing else is observed; otherwise everything is dated from the
      instant observed at. */
  lemma StaleInputIsCritical(s: Snapshot)
    ensures TooOld(s) ==>
              Evaluate(s) == Batch(s.now, s.now, [Observation("monitor.input", Critical, "monitor_input_stale", 1, 1)])
    ensures !TooOld(s) ==> Evaluate(s).now == s.now && Evaluate(s).observedAt == s.observedAt.value
  {
  }

  /** A unit's name is 1 to 128 letters, digits and `._:@/+-`. */
  predicate NameFits(name: string) {
    && 1 <= |name| <= 128
    && forall i | 0 <= i < |name| ::
         || 'a' <= name[i] <= 'z' || 'A' <= name[i] <= 'Z' || '0' <= name[i] <= '9' || name[i] == '.' || name[i] == '_'
         || name[i] == ':' || name[i] == '@' || name[i] == '/' || name[i] == '+' || name[i] == '-'
  }

  lemma TokensAreNames(name: string)
    ensures SafeToken(name) <==> NameFits(name)
  {
    var marks := "._:@/+-";
    assert marks[0] == '.' && marks[1] == '_' && marks[2] == ':' && marks[3] == '@' && marks[4] == '/'
        && marks[5] == '+' && marks[6] == '-';
  }

  ghost predicate UnitsFit(s: Snapshot) {
    s.units != [] && forall i | 0 <= i < |s.units| :: NameFits(s.units[i].name)
  }

  lemma UnitsFitting(s: Snapshot)
    ensures ValidUnits(s.units) <==> UnitsFit(s)
  {
    forall k | 0 <= k < |s.units| ensures SafeToken(s.units[k].name) <==> NameFits(s.units[k].name) {
      TokensAreNames(s.units[k].name);
    }
  }

  /** With fitting units each is observed, critical exactly if it does not run; else the input is. */
  lemma UnitsAreObserved(s: Snapshot, i: nat)
    requires DistinctUnits(s.units) && !TooOld(s)
    ensures UnitsFit(s) ==> Says(s, "monitor.input", Ok, "monitor_input_valid", 1, 1)
    ensures !UnitsFit(s) ==> Says(s, "monitor.input", Critical, "monitor_units_invalid", 1, 1)
    ensures UnitsFit(s) && i < |s.units| ==>
              var unit := s.units[i];
              if unit.running then Says(s, "service." + unit.name, Ok, "service_active", 1, 1)
              else Says(s, "service." + unit.name, Critical, "service_inactive", 1, 1)
  {
    UnitsFitting(s);
    SaysIt(s, InputObservation(ValidUnits(s.units)));
    if UnitsFit(s) && i < |s.units| {
      UnitKeys(s.units);
      SaysIt(s, UnitObservation(s.units[i]));
    }
  }

  /** An unavailable runtime is critical at once, a degraded one warns the fifth time in a row, and either
      is over after two healthy ones; without a status nothing is said about it. */
  lemma HealthIsObserved(s: Snapshot)
    requires DistinctUnits(s.units) && !TooOld(s)
    ensures s.health == Some(Unavailable) ==> Says(s, "runtime.health", Critical, "runtime_unavailable", 1, 2)
    ensures s.health == Some(Degraded) ==> Says(s, "runtime.health", Warning, "runtime_degraded", 5, 2)
    ensures s.health == Some(Healthy) ==> Says(s, "runtime.health", Ok, "runtime_healthy", 1, 2)
  {
    if s.health.Some? {
      SaysIt(s, HealthObservation(s.health.value));
    }
  }

  /** A backup marker is critical when it is missing, from the future, or a day old, and warns at twenty
      hours. */
  lemma BackupIsObserved(s: Snapshot)
    requires DistinctUnits(s.units) && !TooOld(s)
    ensures match s.backup
            case At(time) =>
              if time > s.now then Says(s, "backup.age", Critical, "backup_marker_invalid", 1, 1)
              else if time <= s.now - 86_400_000 then Says(s, "backup.age", Critical, "backup_age_critical", 1, 1)
              else if time <= s.now - 72_000_000 then Says(s, "backup.age", Warning, "backup_age_warning", 1, 1)
              else Says(s, "backup.age", Ok, "backup_age_ok", 1, 1)
            case _ => Says(s, "backup.age", Critical, "backup_marker_invalid", 1, 1)
  {
    SaysIt(s, BackupObservation(s.backup, s.now));
  }

  /** A certificate is critical when it cannot be read or expires within fourteen days, and warns within
      twenty-one; without one nothing is wrong. */
  lemma CertificateIsObserved(s: Snapshot)
    requires DistinctUnits(s.units) && !TooOld(s)
    ensures match s.certificate
            case Missing => Says(s, "certificate.expiry", Ok, "certificate_monitoring_disabled", 1, 1)
            case Unreadable => Says(s, "certificate.expiry", Critical, "certificate_expiry_invalid", 1, 1)
            case At(time) =>
              if time < s.now + 1_209_600_000
              then Says(s, "certificate.expiry", Critical, "certificate_expiry_critical", 1, 1)
              else if time < s.now + 1_814_400_000
              then Says(s, "certificate.expiry", Warning, "certificate_expiry_warning", 1, 1)
              else Says(s, "certificate.expiry", Ok, "certificate_expiry_ok", 1, 1)
  {
    SaysIt(s, CertificateObservation(s.certificate, s.now));
  }

  predicate Countable(n: int) {
    0 <= n <= 0x1F_FFFF_FFFF_FFFF
  }

  /** The journal's capacity is critical when its numbers make no sense or 4 GiB or less are free, and
      warns when four fifths are used or 5 GiB or less are free. */
  lemma CapacityIsObserved(s: Snapshot)
    requires DistinctUnits(s.units) && !TooOld(s)
    ensures if !(Countable(s.journalUsed) && Countable(s.journalMax) && Countable(s.filesystemFree) && s.journalMax > 0)
            then Says(s, "journal.capacity", Critical, "journal_capacity_invalid", 1, 1)
            else if s.filesystemFree <= 4_294_967_296
            then Says(s, "journal.capacity", Critical, "filesystem_free_critical", 1, 1)
            else if 5 * s.journalUsed >= 4 * s.journalMax || s.filesystemFree <= 5_368_709_120
            then Says(s, "journal.capacity", Warning, "journal_capacity_warning", 1, 1)
            else Says(s, "journal.capacity", Ok, "journal_capacity_ok", 1, 1)
  {
    SaysIt(s, CapacityObservation(s));
  }

  /** One suppressed interval warns and two or more in a row are critical, at once; it is over after ten
      clear ones. */
  lemma SuppressionIsObserved(s: Snapshot)
    requires DistinctUnits(s.units) && !TooOld(s)
    ensures if !Countable(s.suppression)
            then Says(s, "journal.dropped", Critical, "journal_suppression_invalid", 1, 10)
            else if s.suppression == 0 then Says(s, "journal.dropped", Ok, "journal_suppression_clear", 1, 10)
            else if s.suppression == 1 then Says(s, "journal.dropped", Warning, "journal_suppression_detected", 1, 10)
            else Says(s, "journal.dropped", Critical, "journal_suppression_repeated", 1, 10)
  {
    SaysIt(s, SuppressionObservation(s.suppression));
  }

  /** Nothing else is observed. */
  lemma NothingElseIsObserved(s: Snapshot)
    requires !TooOld(s)
    ensures |Evaluate(s).items|
         == 5 + (if s.health.Some? then 1 else 0) + (if UnitsFit(s) then |s.units| else 0)
  {
    UnitKeys(s.units);
    UnitsFitting(s);
  }
}
