/**
  The reads of a rebuild as a trace of its own: which protocol read was made at which moment of a
  sequence of stores, and what the rebuild holds after them.
 */
module BuildTraces {
  import opened Common
  import opened Publication

  /** A rebuild that started as `start` while `current` was served, and the stores others left it to read. */
  datatype Setting = Setting(stores: seq<Versions>, current: Option<Snapshot>, start: Build)

  datatype Trace = NoReads | Then(before: Trace, at: nat, step: BuildStep)

  function End(trace: Trace): nat {
    if trace.NoReads? then 0 else trace.at
  }

  /** The trace reads at moments before `n`, each no earlier than the one before. */
  predicate Timed(n: nat, trace: Trace) {
    trace.Then? ==> Timed(n, trace.before) && End(trace.before) <= trace.at < n && IsRead(trace.step)
  }

  /** What the rebuild holds after the trace. */
  function Built(p: Setting, trace: Trace): Build
    requires Timed(|p.stores|, trace)
  {
    if trace.NoReads? then p.start else AfterRead(Built(p, trace.before), p.stores[trace.at], trace.step)
  }

  /** Every read of the trace was open to the rebuild when it was made. */
  ghost predicate Performs(p: Setting, trace: Trace) {
    && Timed(|p.stores|, trace)
    && (trace.Then? ==>
          && Performs(p, trace.before)
          && ReadEnabled(Built(p, trace.before), p.current, p.stores[trace.at], trace.step))
  }

  /** A look at `t` at `r` and a read of its Open state at `m`, after what has been read so far. */
  lemma ExtendByOverlay(p: Setting, trace: Trace, t: TermCampusKey, r: nat, m: nat) returns (longer: Trace)
    requires Performs(p, trace) && End(trace) <= r <= m < |p.stores|
    requires ReadEnabled(Built(p, trace), p.current, p.stores[r], CheckOverlay(t))
    ensures Performs(p, longer) && End(longer) == m
    ensures var b := Built(p, trace);
            Built(p, longer) == b.(checked := b.checked + {t}, open := b.open[t := V(p.stores[m], OpenState(t))])
  {
    var looked := Then(trace, r, CheckOverlay(t));
    assert Performs(p, looked);
    longer := Then(looked, m, ReadOverlay(t));
  }
}
