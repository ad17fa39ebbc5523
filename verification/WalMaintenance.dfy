/**
  WAL maintenance: the due flag, the starvation detector, the escalation policy, one maintenance run,
  and the driver that moves the policy state into a blocking task and back. Checkpoint results, the
  clock and the fate of each background job are parameters.
 */
module WalMaintenance {
  import opened Common

  const WAL_RESTART_LOG_FRAMES: nat := 16_384
  const WAL_TRUNCATE_LOG_FRAMES: nat := 65_536
  const WAL_ESCALATION_MIN_INTERVAL: nat := 60 // seconds
  const WAL_STARVATION_MIN_LOG_FRAMES: nat := 4_096
  const WAL_STARVATION_ZERO_PROGRESS_REPORTS: nat := 3

  datatype Reason = OpenCommit | CatalogPublished

  datatype Mode = Restart | Truncate

  datatype Report = Report(logFrames: nat, checkpointedFrames: nat)

  // ----- The due flag -----

  class WalMaintenanceSignal {
    var due: bv8

    predicate OpenPending()
      reads this
    {
      due & 1 != 0
    }

    predicate CatalogPending()
      reads this
    {
      due & 2 != 0
    }

    constructor ()
      ensures !OpenPending() && !CatalogPending()
    {
      due := 0;
    }

    method MarkOpenCommit()
      modifies this
      ensures OpenPending() && CatalogPending() == old(CatalogPending())
    {
      due := due | 1;
    }

    method MarkCatalogPublished()
      modifies this
      ensures CatalogPending() && OpenPending() == old(OpenPending())
    {
      due := due | 2;
    }

    /** Consumes everything that is due, and reports the strongest reason. */
    method Take() returns (reason: Option<Reason>)
      modifies this
      ensures !OpenPending() && !CatalogPending()
      ensures reason == Some(CatalogPublished) <==> old(CatalogPending())
      ensures reason == Some(OpenCommit) <==> old(OpenPending()) && !old(CatalogPending())
      ensures reason.None? <==> !old(OpenPending()) && !old(CatalogPending())
    {
      var pending := due;
      due := 0;
      if pending & 2 != 0 {
        reason := Some(CatalogPublished);
      } else if pending & 1 != 0 {
        reason := Some(OpenCommit);
      } else {
        reason := None;
      }
    }
  }

  // ----- The starvation detector -----

  datatype Detector = Detector(consecutiveZeroProgress: nat, starved: bool)

  predicate ZeroProgress(r: Report) {
    r.checkpointedFrames == 0 && r.logFrames >= WAL_STARVATION_MIN_LOG_FRAMES
  }

  /** Feeds one PASSIVE report; true when this report is the one that crosses into starvation. */
  function Observe(d: Detector, r: Report): (Detector, bool) {
    if !ZeroProgress(r) then (Detector(0, false), false)
    else
      var count := if d.consecutiveZeroProgress < U32_MAX then d.consecutiveZeroProgress + 1 else U32_MAX;
      if d.starved then (Detector(count, true), false)
      else if count >= WAL_STARVATION_ZERO_PROGRESS_REPORTS then (Detector(count, true), true)
      else (Detector(count, false), false)
  }

  /** The length of the zero-progress run at the end of a report history. */
  function TrailingZeroProgress(reports: seq<Report>): nat {
    if reports == [] || !ZeroProgress(reports[|reports| - 1]) then 0
    else TrailingZeroProgress(reports[..|reports| - 1]) + 1
  }

  lemma TrailingAppend(reports: seq<Report>, r: Report)
    ensures TrailingZeroProgress(reports + [r]) == if ZeroProgress(r) then TrailingZeroProgress(reports) + 1 else 0
  {
    assert (reports + [r])[..|reports|] == reports;
  }

  function Watch(reports: seq<Report>): Detector {
    if reports == [] then Detector(0, false)
    else Observe(Watch(reports[..|reports| - 1]), reports[|reports| - 1]).0
  }

  /** Over any history: starved exactly on a trailing run of three, and the crossing reported exactly there. */
  lemma {:induction false} DetectorTracksHistory(reports: seq<Report>)
    ensures Watch(reports).starved <==> TrailingZeroProgress(reports) >= WAL_STARVATION_ZERO_PROGRESS_REPORTS
    ensures var n := TrailingZeroProgress(reports);
            Watch(reports).consecutiveZeroProgress == if n < U32_MAX then n else U32_MAX
    ensures forall r :: Observe(Watch(reports), r).1 <==>
                        TrailingZeroProgress(reports + [r]) == WAL_STARVATION_ZERO_PROGRESS_REPORTS
  {
    if reports != [] {
      DetectorTracksHistory(reports[..|reports| - 1]);
    }
    forall r ensures TrailingZeroProgress(reports + [r])
      == if ZeroProgress(r) then TrailingZeroProgress(reports) + 1 else 0 {
      TrailingAppend(reports, r);
    }
  }

  lemma WatchAppend(reports: seq<Report>, r: Report)
    ensures Watch(reports + [r]) == Observe(Watch(reports), r).0
    ensures Watch(reports + [r]).starved <==>
              TrailingZeroProgress(reports + [r]) >= WAL_STARVATION_ZERO_PROGRESS_REPORTS
  {
    assert (reports + [r])[..|reports|] == reports;
    DetectorTracksHistory(reports + [r]);
  }

  // ----- The escalation policy -----

  /** Time passed, as a saturating clock tells it. */
  function Since(earlier: nat, now: nat): nat {
    if earlier <= now then now - earlier else 0
  }

  function Decide(reason: Reason, report: Report, lastEscalation: Option<nat>, now: nat,
                  starved: bool): (mode: Option<Mode>)
    ensures mode == Some(Restart) <==>
              && !starved && reason.OpenCommit? && 16_384 < report.logFrames <= 65_536
              && (lastEscalation.Some? ==> lastEscalation.value + 60 <= now)
    ensures mode == Some(Truncate) <==>
              && !starved
              && (reason.CatalogPublished?
                  || (report.logFrames > 65_536 && (lastEscalation.Some? ==> lastEscalation.value + 60 <= now)))
  {
    if starved then None
    else if reason == CatalogPublished then Some(Truncate)
    else if lastEscalation.Some? && Since(lastEscalation.value, now) < WAL_ESCALATION_MIN_INTERVAL then None
    else if report.logFrames > WAL_TRUNCATE_LOG_FRAMES then Some(Truncate)
    else if report.logFrames > WAL_RESTART_LOG_FRAMES then Some(Restart)
    else None
  }

  // ----- Histories of maintenance runs -----

  /** A checkpoint call: an error, no answer from an in-memory store, or a report. */
  datatype Checkpoint = CheckpointFailed | NotPersistent | Checkpointed(report: Report)

  /** One run: whether the storage lock was had, what its checkpoints would answer, and why and when it ran. */
  datatype Maintenance = Maintenance(locked: bool, passive: Checkpoint, escalation: Checkpoint, reason: Reason,
      now: nat)

  /** What one run leaves to the next. */
  datatype Memory = Memory(detector: Detector, lastEscalation: Option<nat>)

  /** An escalating checkpoint that was called, and whether it answered. */
  datatype Escalation = Escalation(at: nat, reason: Reason, mode: Mode, completed: bool)

  datatype Outcome = Outcome(passive: Report, escalated: Option<Mode>, starved: bool)

  /** The PASSIVE report the run took, if it got that far. */
  function Taken(r: Maintenance): seq<Report> {
    if r.locked && r.passive.Checkpointed? then [r.passive.report] else []
  }

  /** The escalation the run calls after its PASSIVE checkpoint. */
  function Decided(m: Memory, r: Maintenance): Option<Mode> {
    if Taken(r) == [] then None
    else Decide(r.reason, r.passive.report, m.lastEscalation, r.now, Observe(m.detector, r.passive.report).0.starved)
  }

  /** A failed escalation leaves the run before anything of it is remembered. */
  predicate Drops(m: Memory, r: Maintenance) {
    Decided(m, r).Some? && r.escalation.CheckpointFailed?
  }

  function Remember(m: Memory, r: Maintenance): Memory {
    if Taken(r) == [] || Drops(m, r) then m
    else Memory(Observe(m.detector, r.passive.report).0,
                if Decided(m, r).Some? && r.escalation.Checkpointed? then Some(r.now) else m.lastEscalation)
  }

  function Called(m: Memory, r: Maintenance): seq<Escalation> {
    if Decided(m, r).None? then []
    else [Escalation(r.now, r.reason, Decided(m, r).value, r.escalation.Checkpointed?)]
  }

  /** The runs of one maintenance state, the latest outermost. */
  datatype History = NoRuns | Then(before: History, run: Maintenance)

  function MemoryAfter(h: History): Memory {
    if h.NoRuns? then Memory(Detector(0, false), None) else Remember(MemoryAfter(h.before), h.run)
  }

  /** Every escalation a history called, failed ones included. */
  function Attempts(h: History): seq<Escalation> {
    if h.NoRuns? then [] else Attempts(h.before) + Called(MemoryAfter(h.before), h.run)
  }

  /** Every PASSIVE report a history took, and those of them that were fed to the detector for good. */
  function AllReports(h: History): seq<Report> {
    if h.NoRuns? then [] else AllReports(h.before) + Taken(h.run)
  }

  function KeptReports(h: History): seq<Report> {
    if h.NoRuns? then []
    else KeptReports(h.before) + if Drops(MemoryAfter(h.before), h.run) then [] else Taken(h.run)
  }

  function Latest(h: History): nat {
    if h.NoRuns? then 0 else h.run.now
  }

  /** Runs happen in the order of their times. */
  predicate Timed(h: History) {
    h.Then? ==> Timed(h.before) && Latest(h.before) <= h.run.now
  }

  /** `p` is how the history stood after one of its runs, or before the first. */
  predicate Within(p: History, h: History) {
    p == h || (h.Then? && Within(p, h.before))
  }

  // ----- Escalations keep their distance, except from failed ones -----

  predicate FarFrom(e: Escalation, later: Escalation) {
    later.reason == OpenCommit ==> Since(e.at, later.at) >= WAL_ESCALATION_MIN_INTERVAL
  }

  /** Every Open-commit escalation keeps its distance from every escalation before it. */
  predicate Spaced(es: seq<Escalation>) {
    forall i, j | 0 <= i < j < |es| :: FarFrom(es[i], es[j])
  }

  /** The attempts are in order, and the time remembered is that of the last one that completed. */
  ghost predicate Ordered(es: seq<Escalation>, last: Option<nat>, now: nat) {
    && (forall i | 0 <= i < |es| :: es[i].at <= now)
    && (forall i, j | 0 <= i < j < |es| :: es[i].at <= es[j].at)
    && (forall i | 0 <= i < |es| && es[i].completed :: last.Some? && es[i].at <= last.value)
    && (last.Some? ==> last.value <= now)
  }

  lemma {:induction false} AttemptsOrdered(h: History, now: nat)
    requires Timed(h) && Latest(h) <= now
    ensures Ordered(Attempts(h), MemoryAfter(h).lastEscalation, now)
  {
    if h.Then? {
      AttemptsOrdered(h.before, h.run.now);
    }
  }

  // ----- When a run escalates -----

  /** The last three reports each left a log of some size where it was. */
  ghost predicate Stuck(reports: seq<Report>) {
    && |reports| >= 3
    && forall i | |reports| - 3 <= i < |reports| :: reports[i].checkpointedFrames == 0 && reports[i].logFrames >= 4_096
  }

  lemma StuckMeans(reports: seq<Report>)
    ensures TrailingZeroProgress(reports) >= WAL_STARVATION_ZERO_PROGRESS_REPORTS <==> Stuck(reports)
  {
    var n := |reports|;
    if n >= 3 {
      var two, one := reports[..n - 1], reports[..n - 2];
      assert two[..n - 2] == one && two[n - 2] == reports[n - 2] && one[n - 3] == reports[n - 3];
      assert TrailingZeroProgress(one) >= 1 <==> ZeroProgress(reports[n - 3]);
    } else {
      TrailingBounded(reports);
    }
  }

  lemma {:induction false} TrailingBounded(reports: seq<Report>)
    ensures TrailingZeroProgress(reports) <= |reports|
  {
    if reports != [] {
      TrailingBounded(reports[..|reports| - 1]);
    }
  }

  /** The time remembered is that of some completed escalation. */
  lemma {:induction false} RememberedCompleted(h: History)
    requires MemoryAfter(h).lastEscalation.Some?
    ensures exists e | e in Attempts(h) :: e.completed && e.at == MemoryAfter(h).lastEscalation.value
  {
    var m, es := MemoryAfter(h.before), Attempts(h.before);
    var called := Called(m, h.run);
    if MemoryAfter(h).lastEscalation == m.lastEscalation && called == [] {
      RememberedCompleted(h.before);
      assert es + called == es;
    } else if Decided(m, h.run).Some? && h.run.escalation.Checkpointed? {
      assert called[0] in es + called;
    } else {
      RememberedCompleted(h.before);
      var e :| e in es && e.completed && e.at == m.lastEscalation.value;
      assert e in es + called;
    }
  }

  /** The distance from the time remembered is the distance from every completed escalation. */
  lemma RememberedMeans(h: History, now: nat)
    requires Timed(h) && Latest(h) <= now
    ensures var last := MemoryAfter(h).lastEscalation;
            (last.Some? ==> last.value + 60 <= now) <==>
              forall e | e in Attempts(h) && e.completed :: e.at + 60 <= now
  {
    AttemptsOrdered(h, now);
    if MemoryAfter(h).lastEscalation.Some? {
      RememberedCompleted(h);
    }
  }

  /**
    A run is to escalate when it got its PASSIVE report, the log is not stuck, and either a Catalog was
    published or the log is large and every completed escalation is a minute old.
   */
  ghost predicate Escalates(h: History, r: Maintenance) {
    && r.locked && r.passive.Checkpointed? && !Stuck(KeptReports(h) + [r.passive.report])
    && (r.reason.OpenCommit? ==>
          r.passive.report.logFrames > 16_384 && forall e | e in Attempts(h) && e.completed :: e.at + 60 <= r.now)
  }

  lemma StarvedMeans(h: History, report: Report)
    ensures Observe(MemoryAfter(h).detector, report).0.starved <==> Stuck(KeptReports(h) + [report])
  {
    DetectorSeesKept(h);
    WatchAppend(KeptReports(h), report);
    StuckMeans(KeptReports(h) + [report]);
  }

  lemma DecidedMeans(h: History, r: Maintenance)
    requires Timed(Then(h, r))
    ensures Decided(MemoryAfter(h), r).Some? <==> Escalates(h, r)
    ensures Decided(MemoryAfter(h), r) == Some(Truncate) <==>
              Escalates(h, r) && (r.reason.CatalogPublished? || r.passive.report.logFrames > 65_536)
  {
    if Taken(r) != [] {
      RememberedMeans(h, r.now);
      StarvedMeans(h, r.passive.report);
    }
  }

  /** Every run adds its escalation to the history exactly when it is to escalate, truncating what is largest. */
  lemma EscalatesExactly(h: History, r: Maintenance)
    requires Timed(Then(h, r))
    ensures !Escalates(h, r) ==> Attempts(Then(h, r)) == Attempts(h)
    ensures Escalates(h, r) ==>
              var mode :=
                if r.reason.CatalogPublished? || r.passive.report.logFrames > 65_536 then Truncate else Restart;
              Attempts(Then(h, r)) == Attempts(h) + [Escalation(r.now, r.reason, mode, r.escalation.Checkpointed?)]
  {
    DecidedMeans(h, r);
  }

  /** No Open-commit escalation, completed or not, comes too soon after a completed one. */
  predicate FarFromCompleted(es: seq<Escalation>) {
    forall i, j | 0 <= i < j < |es| && es[i].completed :: FarFrom(es[i], es[j])
  }

  lemma {:induction false} CompletedAreSpaced(h: History)
    requires Timed(h)
    ensures FarFromCompleted(Attempts(h))
  {
    if h.Then? {
      CompletedAreSpaced(h.before);
      AttemptsOrdered(h.before, h.run.now);
      NextIsFar(Attempts(h.before), MemoryAfter(h.before), h.run);
    }
  }

  lemma NextIsFar(es: seq<Escalation>, m: Memory, r: Maintenance)
    requires FarFromCompleted(es) && Ordered(es, m.lastEscalation, r.now)
    ensures FarFromCompleted(es + Called(m, r))
  {
    var all := es + Called(m, r);
    forall i, j | 0 <= i < j < |all| && all[i].completed ensures FarFrom(all[i], all[j]) {
      assert all[i] == es[i];
      if j < |es| {
        assert FarFrom(es[i], es[j]);
      }
    }
  }

  /** The run is about to escalate for an Open commit, sooner than the interval after a last escalation that
      failed or had no answer. */
  predicate NearForgotten(es: seq<Escalation>, m: Memory, r: Maintenance) {
    && r.reason == OpenCommit && Decided(m, r).Some? && es != []
    && var last := es[|es| - 1]; !last.completed && Since(last.at, r.now) < WAL_ESCALATION_MIN_INTERVAL
  }

  predicate TooSoon(h: History, r: Maintenance) {
    NearForgotten(Attempts(h), MemoryAfter(h), r)
  }

  /** Among escalations in order, one that is far from the last is far from all. */
  lemma FarFromLast(es: seq<Escalation>, e: Escalation)
    requires Spaced(es) && es != [] && forall i | 0 <= i < |es| :: es[i].at <= es[|es| - 1].at
    ensures Spaced(es + [e]) <==> FarFrom(es[|es| - 1], e)
  {
    var all, n := es + [e], |es|;
    assert all[n - 1] == es[n - 1] && all[n] == e;
    if FarFrom(es[n - 1], e) {
      forall i, j | 0 <= i < j < |all| ensures FarFrom(all[i], all[j]) {
        assert all[i] == es[i];
        if j < n {
          assert FarFrom(es[i], es[j]);
        }
      }
    }
  }

  /** The policy itself keeps the distance from an escalation that is remembered; only a forgotten one can be near. */
  lemma CalledSpaced(es: seq<Escalation>, m: Memory, r: Maintenance)
    requires Spaced(es) && Ordered(es, m.lastEscalation, r.now)
    ensures Spaced(es + Called(m, r)) <==> !NearForgotten(es, m, r)
  {
    if Decided(m, r).None? {
      assert es + Called(m, r) == es;
    } else if es != [] {
      FarFromLast(es, Called(m, r)[0]);
    }
  }

  lemma UnspacedStays(es: seq<Escalation>, called: seq<Escalation>)
    requires !Spaced(es)
    ensures !Spaced(es + called)
  {
    var i, j :| 0 <= i < j < |es| && !FarFrom(es[i], es[j]);
    assert (es + called)[i] == es[i] && (es + called)[j] == es[j];
  }

  /** One run keeps a spaced history spaced if and only if it does not escalate too soon after a forgotten one. */
  lemma OneRunSpaced(h: History, r: Maintenance)
    requires Timed(Then(h, r)) && Spaced(Attempts(h))
    ensures Spaced(Attempts(Then(h, r))) <==> !TooSoon(h, r)
  {
    AttemptsOrdered(h, r.now);
    CalledSpaced(Attempts(h), MemoryAfter(h), r);
  }

  /**
    Over any history: the escalations called are spaced if and only if no run, at its turn, escalates for
    an Open commit too soon after a last escalation that failed or had no answer.
   */
  lemma {:induction false} SpacedExactly(h: History)
    requires Timed(h)
    ensures Spaced(Attempts(h)) <==> forall p | Within(p, h) && p.Then? :: !TooSoon(p.before, p.run)
  {
    if h.Then? {
      SpacedExactly(h.before);
      assert Within(h, h) && forall p :: Within(p, h) <==> p == h || Within(p, h.before);
      if Spaced(Attempts(h.before)) {
        OneRunSpaced(h.before, h.run);
      } else {
        UnspacedStays(Attempts(h.before), Called(MemoryAfter(h.before), h.run));
      }
    }
  }

  /** So a history in which every escalation that is called completes is spaced. */
  lemma CompletedHistoryIsSpaced(h: History)
    requires Timed(h) && forall p | Within(p, h) && p.Then? :: p.run.escalation.Checkpointed?
    ensures Spaced(Attempts(h))
  {
    forall p | Within(p, h) && p.Then? ensures !TooSoon(p.before, p.run) {
      WithinBefore(p, h);
      AllCompleted(p.before, h);
    }
    SpacedExactly(h);
  }

  lemma {:induction false} WithinBefore(p: History, h: History)
    requires Within(p, h) && p.Then?
    ensures Within(p.before, h)
  {
    if p == h {
      assert Within(p.before, h.before);
    } else {
      WithinBefore(p, h.before);
    }
  }

  lemma {:induction false} AllCompleted(p: History, h: History)
    requires Within(p, h) && forall q | Within(q, h) && q.Then? :: q.run.escalation.Checkpointed?
    ensures forall i | 0 <= i < |Attempts(p)| :: Attempts(p)[i].completed
    decreases p
  {
    if p.Then? {
      WithinBefore(p, h);
      AllCompleted(p.before, h);
    }
  }

  /** A failed escalation is forgotten: the next run escalates a second later, and the two are not spaced. */
  lemma FailedEscalationIsForgotten(report: Report, at: nat) returns (h: History)
    requires report.logFrames > WAL_RESTART_LOG_FRAMES
    ensures Timed(h) && !Spaced(Attempts(h))
    ensures |Attempts(h)| == 2 && Attempts(h)[0].at == at && Attempts(h)[1].at == at + 1
    ensures !Attempts(h)[0].completed && Attempts(h)[1].completed
  {
    var first := Then(NoRuns, Maintenance(true, Checkpointed(report), CheckpointFailed, OpenCommit, at));
    var second := Maintenance(true, Checkpointed(report), Checkpointed(report), OpenCommit, at + 1);
    assert MemoryAfter(first) == MemoryAfter(NoRuns) && |Attempts(first)| == 1;
    h := Then(first, second);
    assert !FarFrom(Attempts(h)[0], Attempts(h)[1]);
  }

  // ----- The detector sees the reports that were kept -----

  lemma {:induction false} DetectorSeesKept(h: History)
    ensures MemoryAfter(h).detector == Watch(KeptReports(h))
    ensures MemoryAfter(h).detector.starved <==>
            TrailingZeroProgress(KeptReports(h)) >= WAL_STARVATION_ZERO_PROGRESS_REPORTS
  {
    if h.Then? {
      DetectorSeesKept(h.before);
      if Taken(h.run) != [] && !Drops(MemoryAfter(h.before), h.run) {
        WatchAppend(KeptReports(h.before), h.run.passive.report);
      } else {
        assert KeptReports(h) == KeptReports(h.before);
      }
    }
    DetectorTracksHistory(KeptReports(h));
  }

  /** The detector is where all PASSIVE reports taken would have put it. */
  predicate SeesAll(h: History) {
    MemoryAfter(h).detector == Watch(AllReports(h))
  }

  /** The last run drops a report that would have moved the detector. */
  predicate LosesReport(h: History)
    requires h.Then?
  {
    && Drops(MemoryAfter(h.before), h.run)
    && Observe(MemoryAfter(h.before).detector, h.run.passive.report).0 != MemoryAfter(h.before).detector
  }

  /** One run keeps the detector true to all reports if and only if it keeps its report, or the report says nothing
      new. */
  lemma OneRunSeesAll(h: History)
    requires h.Then? && SeesAll(h.before)
    ensures SeesAll(h) <==> !LosesReport(h)
  {
    if Taken(h.run) == [] {
      assert AllReports(h) == AllReports(h.before);
    } else {
      WatchAppend(AllReports(h.before), h.run.passive.report);
    }
  }

  /**
    Over any history: the detector is always where all PASSIVE reports taken put it, if and only if no
    run whose escalation failed had taken a report that would have moved it.
   */
  lemma {:induction false} DetectorExactly(h: History)
    ensures (forall p | Within(p, h) :: SeesAll(p)) <==> (forall p | Within(p, h) && p.Then? :: !LosesReport(p))
  {
    if h.Then? {
      DetectorExactly(h.before);
      assert forall p :: Within(p, h) <==> p == h || Within(p, h.before);
      assert Within(h.before, h.before);
      if SeesAll(h.before) {
        OneRunSeesAll(h);
      }
    }
  }

  /** A run at time `now` on a log that makes no progress, and whose restart fails. */
  function FailingRestart(report: Report, now: nat): Maintenance {
    Maintenance(true, Checkpointed(report), CheckpointFailed, OpenCommit, now)
  }

  function FailingRestarts(report: Report, n: nat): (h: History)
    ensures n > 0 ==> Latest(h) == n - 1
  {
    if n == 0 then NoRuns else Then(FailingRestarts(report, n - 1), FailingRestart(report, n - 1))
  }

  lemma RestartIsDropped(report: Report, now: nat)
    requires report.logFrames > WAL_RESTART_LOG_FRAMES
    ensures Drops(Memory(Detector(0, false), None), FailingRestart(report, now))
  {
  }

  /** Failing restarts of a log nobody can shorten: however many there are, starvation is never noticed. */
  lemma {:induction false} FailingRestartsHideStarvation(report: Report, n: nat)
    requires report.checkpointedFrames == 0 && report.logFrames > WAL_RESTART_LOG_FRAMES
    ensures Timed(FailingRestarts(report, n)) && TrailingZeroProgress(AllReports(FailingRestarts(report, n))) == n
    ensures MemoryAfter(FailingRestarts(report, n)) == Memory(Detector(0, false), None)
  {
    if n > 0 {
      FailingRestartsHideStarvation(report, n - 1);
      RestartIsDropped(report, n - 1);
      TrailingAppend(AllReports(FailingRestarts(report, n - 1)), report);
    }
  }

  // ----- One maintenance run -----

  class WalMaintenanceState {
    var detector: Detector
    var lastEscalation: Option<nat>

    /** The runs so far, those without an outcome included. */
    ghost var history: History

    ghost predicate Valid()
      reads this
    {
      Memory(detector, lastEscalation) == MemoryAfter(history)
    }

    constructor ()
      ensures Valid() && history == NoRuns
    {
      detector, lastEscalation, history := Detector(0, false), None, NoRuns;
    }

    /**
      One run, whatever came of it, joins the history, and the history alone decides what is remembered.
      There is an outcome exactly when a PASSIVE report was taken and no escalation called for failed; the
      outcome says whether the kept reports end in starvation, and names a completed escalation.
     */
    method Run(r: Maintenance) returns (outcome: Option<Outcome>)
      requires Valid()
      modifies this
      ensures Valid() && history == Then(old(history), r)
      ensures outcome.Some? <==> Taken(r) != [] && !Drops(MemoryAfter(old(history)), r)
      ensures outcome.None? ==> detector == old(detector) && lastEscalation == old(lastEscalation)
      ensures outcome.Some? ==>
                && Taken(r) == [outcome.value.passive]
                && KeptReports(history) == KeptReports(old(history)) + [outcome.value.passive]
                && (outcome.value.starved <==> Stuck(KeptReports(history)))
                && (outcome.value.starved ==> Attempts(history) == Attempts(old(history)))
                && (outcome.value.escalated.Some? ==>
                      Attempts(history) ==
                      Attempts(old(history)) + [Escalation(r.now, r.reason, outcome.value.escalated.value, true)])
      ensures Timed(history) ==>
                && (outcome.None? <==> Taken(r) == [] || (Escalates(old(history), r) && r.escalation.CheckpointFailed?))
                && (outcome.Some? ==>
                      (outcome.value.escalated.Some? <==> Escalates(old(history), r) && r.escalation.Checkpointed?))
      ensures outcome.Some? && r.reason == CatalogPublished && !outcome.value.starved && r.escalation.Checkpointed? ==>
                outcome.value.escalated == Some(Truncate)
    {
      ghost var before := history;
      history := Then(history, r);
      DetectorSeesKept(history);
      StuckMeans(KeptReports(history));
      if Timed(history) {
        DecidedMeans(before, r);
      }
      if !r.locked || !r.passive.Checkpointed? {
        return None;
      }
      var (next, _) := Observe(detector, r.passive.report);
      var mode := Decide(r.reason, r.passive.report, lastEscalation, r.now, next.starved);
      if mode.Some? && r.escalation.CheckpointFailed? {
        return None;
      }
      detector := next;
      var escalated := if mode.Some? && r.escalation.Checkpointed? then mode else None;
      if escalated.Some? {
        lastEscalation := Some(r.now);
      }
      outcome := Some(Outcome(r.passive.report, escalated, detector.starved));
    }
  }

  // ----- The driver -----

  /** A blocking run under way, holding the policy state it was given. */
  datatype Task = Task(state: WalMaintenanceState, reason: Reason)

  class MaintenanceDriver {
    const signal: WalMaintenanceSignal
    var state: Option<WalMaintenanceState>
    var running: Option<Task>

    /** Reasons taken from the signal, and reasons a run was started for. */
    ghost var consumed: seq<Reason>
    ghost var started: seq<Reason>

    /** The state is either here or with the running task, so no consumed signal is lost. */
    ghost predicate Valid()
      reads this
    {
      (state.Some? <==> running.None?) && started == consumed
    }

    constructor (signal: WalMaintenanceSignal)
      ensures Valid() && this.signal == signal && running == None && consumed == []
    {
      var blank := new WalMaintenanceState();
      this.signal := signal;
      state, running := Some(blank), None;
      consumed, started := [], [];
    }

    /** Joins the background job; a lost job leaves a fresh state behind. */
    method Reclaim(lost: bool)
      requires Valid()
      modifies this`state, this`running
      ensures Valid() && running == None
      ensures old(running).None? ==> state == old(state)
      ensures old(running).Some? && !lost ==> state == Some(old(running).value.state)
      ensures old(running).Some? && lost ==> fresh(state.value) && state.value.Valid() && state.value.history == NoRuns
    {
      if running.Some? {
        if lost {
          var blank := new WalMaintenanceState();
          state := Some(blank);
        } else {
          state := Some(running.value.state);
        }
        running := None;
      }
    }

    /** One tick: an unfinished run is left alone with the signal untouched; otherwise a due signal starts a run. */
    method Tick(finished: bool, lost: bool) returns (reason: Option<Reason>)
      requires Valid()
      modifies this, signal
      ensures Valid()
      ensures old(running).Some? && !finished ==>
                reason == None && running == old(running) && signal.due == old(signal.due) && consumed == old(consumed)
      ensures !(old(running).Some? && !finished) ==>
                && (reason == Some(CatalogPublished) <==> old(signal.CatalogPending()))
                && (reason == Some(OpenCommit) <==> old(signal.OpenPending()) && !old(signal.CatalogPending()))
                && !signal.OpenPending() && !signal.CatalogPending()
                && (reason.Some? ==>
                    running.Some? && running.value.reason == reason.value && started == old(started) + [reason.value])
                && (reason.None? ==> running == None && started == old(started))
                && var handed := if reason.Some? then running.value.state else state.value;
                   && (old(running).None? ==> handed == old(state).value)
                   && (old(running).Some? && !lost ==> handed == old(running).value.state)
                   && (old(running).Some? && lost ==> fresh(handed) && handed.Valid() && handed.history == NoRuns)
    {
      if running.Some? {
        if !finished {
          return None;
        }
        Reclaim(lost);
      }
      reason := signal.Take();
      if reason.None? {
        return;
      }
      consumed := consumed + [reason.value];
      if state.None? {
        return;
      }
      running, state := Some(Task(state.value, reason.value)), None;
      started := started + [reason.value];
    }
  }
}
