/**
  Every result of the optimistic builder is a result of the publication protocol: its reads, made at
  moments of their own while other participants went on, can be put back into their run.
 */
module BuildRuns {
  import opened Common
  import opened Publication
  import opened BuildTraces
  import opened PublicationFreshness
  import opened PublicationTheorems
  import OptimisticBuild

  /** The state with other reads in its rebuild. */
  function With(s: State, b: Build): State
    requires s.build.Some?
  {
    s.(build := Some(b.(owner := s.build.value.owner)))
  }

  lemma WriterBesideBuild(s: State, step: WriterStep, b: Build)
    requires s.build.Some? && WriterEnabled(s, step)
    ensures AfterWriter(s, step).build == s.build && AfterWriter(s, step).current == s.current
    ensures WriterEnabled(With(s, b), step) && AfterWriter(With(s, b), step) == With(AfterWriter(s, step), b)
  {
  }

  lemma WorkerBesideBuild(s: State, step: WorkerStep, b: Build)
    requires s.build.Some? && WorkerEnabled(s, step)
    ensures AfterWorker(s, step).build.Some? && AfterWorker(s, step).current == s.current
    ensures WorkerEnabled(With(s, b), step) && AfterWorker(With(s, b), step) == With(AfterWorker(s, step), b)
  {
  }

  /** No other participant looks at what a rebuild has read, or replaces the generation under it. */
  lemma BesideBuild(s: State, step: Step, b: Build)
    requires s.build.Some? && Enabled(s, step) && !step.Rebuild?
    ensures After(s, step).build.Some? && After(s, step).current == s.current
    ensures Enabled(With(s, b), step) && After(With(s, b), step) == With(After(s, step), b)
  {
    match step
    case Write(w) => WriterBesideBuild(s, w, b);
    case Work(w) => WorkerBesideBuild(s, w, b);
  }

  lemma ReadStep(s: State, b: Build, step: BuildStep)
    requires s.build.Some? && IsRead(step) && ReadEnabled(b, s.current, s.store, step) && Reachable(With(s, b))
    ensures Reachable(With(s, AfterRead(b, s.store, step)))
  {
    assert BuildEnabled(With(s, b), step) && AfterBuild(With(s, b), step) == With(s, AfterRead(b, s.store, step));
    ReachableStep(With(s, b), Rebuild(step));
  }

  lemma OtherStep(states: seq<State>, steps: seq<Step>, i: nat, b: Build)
    requires Run(states, steps) && i < |steps| && !steps[i].Rebuild? && states[i].build.Some?
             && Reachable(With(states[i], b))
    ensures states[i + 1].build.Some? && states[i + 1].current == states[i].current && Reachable(With(states[i + 1], b))
  {
    BesideBuild(states[i], steps[i], b);
    ReachableStep(With(states[i], b), steps[i]);
  }

  /** `p` is the rebuild that holds the guard from `first` on, with the stores it can read from then. */
  ghost predicate Alongside(states: seq<State>, steps: seq<Step>, first: nat, p: Setting) {
    && Run(states, steps) && first < |states| && states[first].build == Some(p.start)
       && states[first].current == p.current
    && (forall i | first <= i < |steps| :: !steps[i].Rebuild?)
    && |p.stores| == |states| - first && (forall i | 0 <= i < |p.stores| :: p.stores[i] == states[first + i].store)
  }

  lemma PrefixReachable(states: seq<State>, steps: seq<Step>, i: nat)
    requires Run(states, steps) && i < |states|
    ensures Reachable(states[i])
  {
    assert Run(states[..i + 1], steps[..i]) && states[..i + 1][|steps[..i]|] == states[i];
  }

  /** The reads of a trace can be put between the steps of the others. */
  lemma {:induction false} Interleave(states: seq<State>, steps: seq<Step>, first: nat, n: nat, p: Setting,
                                      trace: Trace)
    requires Alongside(states, steps, first, p) && first <= n < |states|
    requires Performs(p, trace) && End(trace) <= n - first
    ensures states[n].build.Some? && states[n].current == p.current && Reachable(With(states[n], Built(p, trace)))
    decreases n, trace
  {
    if trace.Then? && trace.at == n - first {
      Interleave(states, steps, first, n, p, trace.before);
      ReadStep(states[n], Built(p, trace.before), trace.step);
    } else if n == first {
      PrefixReachable(states, steps, n);
    } else {
      Interleave(states, steps, first, n - 1, p, trace);
      OtherStep(states, steps, n - 1, Built(p, trace));
    }
  }

  lemma ReachableInv(s: State)
    requires Reachable(s)
    ensures Inv(s)
  {
    var states, steps :| Run(states, steps) && states[|steps|] == s;
    RunKeepsInv(states, steps, |steps|);
  }

  /** Once its reads are made, a complete rebuild can be published. */
  lemma MayPublish(states: seq<State>, steps: seq<Step>, first: nat, p: Setting, trace: Trace) returns (s: State)
    requires Alongside(states, steps, first, p) && Performs(p, trace) && Complete(Built(p, trace))
    ensures states[|steps|].build.Some? && s == With(states[|steps|], Built(p, trace)) && s.current == p.current
    ensures Reachable(s) && BuildEnabled(s, Publish) && Reachable(AfterBuild(s, Publish))
  {
    var n := |steps|;
    TimedEnds(|p.stores|, trace);
    Interleave(states, steps, first, n, p, trace);
    s := With(states[n], Built(p, trace));
    ReachableInv(s);
    ReachableStep(s, Rebuild(Publish));
  }

  lemma TimedEnds(n: nat, trace: Trace)
    requires Timed(n, trace) && n > 0
    ensures End(trace) < n
  {
  }

  /**
    A whole generation the optimistic builder has validated, while the others took `steps[first..]`, is
    one the protocol publishes: stamped with the store of one moment, and with the Open versions its
    overlays' sequence numbers were read at.
   */
  lemma WholeBuildIsRun(states: seq<State>, steps: seq<Step>, first: nat, p: Setting, trace: Trace,
                        h: seq<OptimisticBuild.View>, moment: nat, g: OptimisticBuild.Snapshot) returns (s: State)
    requires Alongside(states, steps, first, p) && |p.stores| == |h|
    requires OptimisticBuild.BuildMatches(h, p, trace, moment, g.overlays)
    ensures Reachable(s) && s.current.Some? && s.current.value.foundation == states[first + moment].store
    ensures s.current.value.open.Keys == g.overlays.Keys
    ensures OptimisticBuild.AllStamped(h, p.stores, g.overlays.Keys, g.overlays, s.current.value.open)
    ensures s.store == states[|steps|].store
  {
    s := MayPublish(states, steps, first, p, trace);
    s := AfterBuild(s, Publish);
  }

  /** So is a rebuild of overlays: the served foundation stays, and the rebuilt overlays get their stamps. */
  lemma OverlayRebuildIsRun(states: seq<State>, steps: seq<Step>, first: nat, p: Setting, trace: Trace,
                            h: seq<OptimisticBuild.View>, targets: set<TermCampusKey>, g: OptimisticBuild.Snapshot)
    returns (s: State)
    requires Alongside(states, steps, first, p) && p.start.scope.Overlays? && p.start.open == map[] && p.current.Some?
    requires OptimisticBuild.Traced(h, p, p.start, trace, targets, g.overlays) && Complete(Built(p, trace))
    ensures Reachable(s) && s.current.Some? && s.current.value.foundation == p.current.value.foundation
    ensures s.current.value.open.Keys == p.current.value.open.Keys + targets
    ensures OptimisticBuild.AllStamped(h, p.stores, targets, g.overlays, s.current.value.open)
    ensures forall t | t in p.current.value.open && t !in targets :: s.current.value.open[t] == p.current.value.open[t]
  {
    var held := MayPublish(states, steps, first, p, trace);
    s := AfterBuild(held, Publish);
    assert s.current.value.open == p.current.value.open + Built(p, trace).open;
  }
}
