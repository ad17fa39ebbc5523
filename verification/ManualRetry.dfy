/**
  Manual target retries: generations issued on request, offered to the runtime by a scan that may work
  from an outdated snapshot, and acknowledged once the runtime has accepted them.
 */
module ManualRetry {
  import opened Common
  import Supervisor
  import opened RefreshHandle

  datatype Retry = Retry(target: TermCampusKey, generation: nat)

  // ----- The demand object -----

  class TargetRefreshDemand {
    var nextGeneration: nat
    var pending: map<TermCampusKey, nat>

    /** Every generation ever issued, in order. */
    ghost var issued: seq<Retry>

    /** Generations count up from one, and what is pending is the last thing issued for its target. */
    ghost predicate Valid()
      reads this
    {
      && nextGeneration == |issued| <= U64_MAX
      && (forall i | 0 <= i < |issued| :: issued[i].generation == i + 1)
      && (forall t | t in pending :: LastIssued(issued, Retry(t, pending[t])))
    }

    constructor ()
      ensures Valid() && pending == map[] && issued == []
    {
      nextGeneration, pending, issued := 0, map[], [];
    }

    /** Issues one generation for each distinct target that has none pending, or refuses as a whole. */
    method RequestManualTargetRetries(targets: seq<TermCampusKey>) returns (r: Result<nat, ()>)
      requires Valid()
      modifies this
      ensures Valid() && old(issued) <= issued
      ensures r.Err? <==> |old(issued)| + |set t | t in targets && t !in old(pending)| > U64_MAX
      ensures r.Err? ==> pending == old(pending) && issued == old(issued)
      ensures r.Ok? ==> r.value == |set t | t in targets && t !in old(pending)| == |issued| - |old(issued)|
      ensures r.Ok? ==> forall t :: t in pending <==> t in old(pending) || t in targets
      ensures forall t | t in old(pending) :: t in pending && pending[t] == old(pending)[t]
      ensures forall t | t in pending && t !in old(pending) :: Retry(t, pending[t]) in issued[|old(issued)|..]
    {
      var wanted := set t | t in targets && t !in pending;
      if nextGeneration + |wanted| > U64_MAX {
        return Err(());
      }
      var rest, count := wanted, |wanted|;
      while rest != {}
        invariant Valid() && old(issued) <= issued && nextGeneration + |rest| <= U64_MAX
        invariant |issued| + |rest| == |old(issued)| + count
        invariant forall t | t in rest :: t in wanted && t !in pending
        invariant forall t :: t in pending <==> t in old(pending) || (t in wanted && t !in rest)
        invariant forall t | t in old(pending) :: pending[t] == old(pending)[t]
        invariant forall t | t in pending && t !in old(pending) :: Retry(t, pending[t]) in issued[|old(issued)|..]
        decreases |rest|
      {
        var t :| t in rest;
        Issue(t);
        rest := rest - {t};
      }
      r := Ok(count);
    }

    method Issue(target: TermCampusKey)
      requires Valid() && target !in pending && nextGeneration < U64_MAX
      modifies this
      ensures Valid() && pending == old(pending)[target := nextGeneration]
      ensures nextGeneration == old(nextGeneration) + 1 && issued == old(issued) + [Retry(target, nextGeneration)]
    {
      nextGeneration := nextGeneration + 1;
      pending := pending[target := nextGeneration];
      issued := issued + [Retry(target, nextGeneration)];
    }

    /** Removes exactly the generation observed; a newer one is left alone. */
    method Acknowledge(retry: Retry) returns (removed: bool)
      requires Valid()
      modifies this`pending
      ensures Valid() && (removed <==> retry.target in old(pending) && old(pending)[retry.target] == retry.generation)
      ensures pending == if removed then old(pending) - {retry.target} else old(pending)
    {
      removed := retry.target in pending && pending[retry.target] == retry.generation;
      if removed {
        pending := pending - {retry.target};
      }
    }
  }

  ghost predicate LastIssued(issued: seq<Retry>, r: Retry) {
    && 1 <= r.generation <= |issued| && issued[r.generation - 1] == r
    && forall i | r.generation <= i < |issued| :: issued[i].target != r.target
  }

  /** The runtime has not seen this generation of the target, nor a later one. */
  predicate IsNews(retries: map<TermCampusKey, nat>, t: TermCampusKey, generation: nat) {
    t !in retries || retries[t] < generation
  }

  /** Offers one pending retry to the runtime, and acknowledges it if the runtime took it. */
  method OfferOne(runtime: RefreshRuntime, demand: TargetRefreshDemand, t: TermCampusKey) returns (taken: bool)
    requires runtime.Valid() && demand.Valid() && t in demand.pending
    modifies runtime`retries, runtime`commands, demand`pending
    ensures runtime.Valid() && demand.Valid()
    ensures demand.pending == if taken then old(demand.pending) - {t} else old(demand.pending)
    ensures taken <==>
              && t in runtime.registered
              && (runtime.channelOpen || !IsNews(old(runtime.retries), t, old(demand.pending)[t]))
    ensures taken && IsNews(old(runtime.retries), t, old(demand.pending)[t]) ==>
              && runtime.retries == old(runtime.retries)[t := old(demand.pending)[t]]
              && runtime.commands
                 == old(runtime.commands) + [Supervisor.Command.ManualRetry(t, old(demand.pending)[t])]
    ensures !(taken && IsNews(old(runtime.retries), t, old(demand.pending)[t])) ==>
              runtime.retries == old(runtime.retries) && runtime.commands == old(runtime.commands)
  {
    var retry := Retry(t, demand.pending[t]);
    var offered := runtime.RequestManualRetry(retry.target, retry.generation);
    match offered
    case Ok(sent) =>
      assert offered == if sent then Ok(true) else Ok(false);
      taken := demand.Acknowledge(retry);
    case Err(error) =>
      assert offered == if error == UnknownTarget then Err(UnknownTarget) else Err(Stopped);
      taken := false;
  }

  /** The pending retries a scan sends: of registered targets, and news to the runtime. */
  ghost predicate Sends(pending: map<TermCampusKey, nat>, registered: set<TermCampusKey>,
                        retries: map<TermCampusKey, nat>, c: Supervisor.Command)
  {
    && c.ManualRetry? && c.target in pending && c.generation == pending[c.target]
    && c.target in registered && IsNews(retries, c.target, c.generation)
  }

  /**
    One scan. With the channel open it sends each retry that is news exactly once, and acknowledges every
    retry of a registered target; with the channel closed it sends nothing, and acknowledges those alone
    that are no news.
   */
  method DispatchManualTargetRetries(runtime: RefreshRuntime, demand: TargetRefreshDemand)
    requires runtime.Valid() && demand.Valid()
    modifies runtime`retries, runtime`commands, demand`pending
    ensures runtime.Valid() && demand.Valid() && old(runtime.commands) <= runtime.commands
    ensures forall t | t in demand.pending :: t in old(demand.pending) && demand.pending[t] == old(demand.pending)[t]
    ensures forall t | t in old(demand.pending) ::
              t !in demand.pending <==>
                && t in runtime.registered
                && (runtime.channelOpen || !IsNews(old(runtime.retries), t, old(demand.pending)[t]))
    ensures var sent := runtime.commands[|old(runtime.commands)|..];
            && (forall c :: c in sent <==>
                  && runtime.channelOpen
                  && Sends(old(demand.pending), runtime.registered, old(runtime.retries), c))
            && forall i, j | 0 <= i < j < |sent| :: sent[i] != sent[j]
  {
    var rest := demand.pending.Keys;
    ghost var retries, registered, open := runtime.retries, runtime.registered, runtime.channelOpen;
    ghost var sent: seq<Supervisor.Command> := [];
    while rest != {}
      invariant runtime.Valid() && demand.Valid() && runtime.commands == old(runtime.commands) + sent
      invariant Scanned(old(demand.pending), retries, registered, open, rest, demand.pending, runtime.retries, sent)
      decreases |rest|
    {
      var t :| t in rest;
      ghost var more := ScanOne(runtime, demand, t, old(demand.pending), retries, rest, sent);
      Regroup(old(runtime.commands), sent, more);
      rest, sent := rest - {t}, sent + more;
    }
    assert runtime.commands[|old(runtime.commands)|..] == sent;
  }

  /** One turn of the scan. */
  method ScanOne(runtime: RefreshRuntime, demand: TargetRefreshDemand, t: TermCampusKey,
                 ghost pending: map<TermCampusKey, nat>, ghost retries: map<TermCampusKey, nat>,
                 ghost rest: set<TermCampusKey>, ghost sent: seq<Supervisor.Command>)
    returns (ghost more: seq<Supervisor.Command>)
    requires runtime.Valid() && demand.Valid() && t in rest
    requires Scanned(pending, retries, runtime.registered, runtime.channelOpen, rest, demand.pending, runtime.retries,
                     sent)
    modifies runtime`retries, runtime`commands, demand`pending
    ensures runtime.Valid() && demand.Valid() && runtime.commands == old(runtime.commands) + more
    ensures Scanned(pending, retries, runtime.registered, runtime.channelOpen, rest - {t}, demand.pending,
                    runtime.retries, sent + more)
  {
    ghost var left, seen := demand.pending, runtime.retries;
    ScanStep(pending, retries, runtime.registered, runtime.channelOpen, rest, left, seen, sent, t);
    var taken := OfferOne(runtime, demand, t);
    more := if taken && IsNews(seen, t, left[t]) then [Supervisor.Command.ManualRetry(t, left[t])] else [];
    assert more == [] ==> sent + more == sent && old(runtime.commands) + more == old(runtime.commands);
  }

  lemma Regroup<T>(a: seq<T>, b: seq<T>, c: seq<T>)
    ensures a + b + c == a + (b + c)
  {
  }

  /** How a scan stands that has still to look at `rest`. */
  ghost predicate Scanned(pending: map<TermCampusKey, nat>, retries: map<TermCampusKey, nat>,
                          registered: set<TermCampusKey>, open: bool, rest: set<TermCampusKey>,
                          left: map<TermCampusKey, nat>, seen: map<TermCampusKey, nat>, sent: seq<Supervisor.Command>)
  {
    && rest <= left.Keys && (forall t | t in left :: t in pending && left[t] == pending[t])
    && (forall t, g | t in rest :: IsNews(seen, t, g) <==> IsNews(retries, t, g))
    && (forall t | t in pending && t !in rest ::
          t !in left <==> t in registered && (open || !IsNews(retries, t, pending[t])))
    && (forall c :: c in sent <==> open && Sends(pending, registered, retries, c) && c.target !in rest)
    && forall i, j | 0 <= i < j < |sent| :: sent[i] != sent[j]
  }

  lemma ScanStep(pending: map<TermCampusKey, nat>, retries: map<TermCampusKey, nat>, registered: set<TermCampusKey>,
                 open: bool, rest: set<TermCampusKey>, left: map<TermCampusKey, nat>, seen: map<TermCampusKey, nat>,
                 sent: seq<Supervisor.Command>, t: TermCampusKey)
    requires Scanned(pending, retries, registered, open, rest, left, seen, sent) && t in rest
    ensures var news := IsNews(seen, t, left[t]);
            var taken := t in registered && (open || !news);
            Scanned(pending, retries, registered, open, rest - {t}, if taken then left - {t} else left,
                    if taken && news then seen[t := left[t]] else seen,
                    if taken && news then sent + [Supervisor.Command.ManualRetry(t, left[t])] else sent)
  {
  }

  // ----- Every interleaving of requests, scans and acknowledgements -----

  /**
    `retries` is the runtime's own record of generations seen; `sent` the ManualRetry commands it sent;
    `accepted` the retries it has answered with success, which is what entitles a scan to acknowledge.
   */
  datatype State = State(issued: seq<Retry>, pending: map<TermCampusKey, nat>, retries: map<TermCampusKey, nat>,
                         sent: seq<Retry>, accepted: set<Retry>)

  datatype Step =
    | Request(target: TermCampusKey)
    | Offer(retry: Retry, registered: bool, channelOpen: bool) // from any snapshot, however old
    | Acknowledge(retry: Retry) // any number of times, however late

  ghost predicate Init(s: State) {
    s == State([], map[], map[], [], {})
  }

  predicate Enabled(s: State, step: Step) {
    match step
    case Request(_) => |s.issued| < U64_MAX
    case Offer(r, _, _) => r in s.issued
    case Acknowledge(r) => r in s.accepted
  }

  predicate Fresh(s: State, r: Retry) {
    r.target in s.retries ==> s.retries[r.target] < r.generation
  }

  function After(s: State, step: Step): State {
    match step
    case Request(t) =>
      if t in s.pending then s
      else s.(issued := s.issued + [Retry(t, |s.issued| + 1)], pending := s.pending[t := |s.issued| + 1])
    case Offer(r, registered, channelOpen) =>
      if !registered || (Fresh(s, r) && !channelOpen) then s
      else if Fresh(s, r) then
        s.(retries := s.retries[r.target := r.generation], sent := s.sent + [r], accepted := s.accepted + {r})
      else s.(accepted := s.accepted + {r})
    case Acknowledge(r) =>
      if r.target in s.pending && s.pending[r.target] == r.generation then s.(pending := s.pending - {r.target}) else s
  }

  predicate IsPending(s: State, r: Retry) {
    r.target in s.pending && s.pending[r.target] == r.generation
  }

  /** Generations are numbered in order, and what is pending is the last thing issued for its target. */
  ghost predicate Numbered(s: State) {
    && (forall i | 0 <= i < |s.issued| :: s.issued[i].generation == i + 1)
    && (forall t | t in s.pending :: LastIssued(s.issued, Retry(t, s.pending[t])))
    && (forall t | t in s.retries :: s.retries[t] <= |s.issued|)
  }

  /** The runtime has sent exactly the generations up to its record, and every one no longer pending. */
  ghost predicate Delivered(s: State) {
    && (forall r | r in s.issued && !IsPending(s, r) :: r in s.sent)
    && (forall r | r in s.sent :: r in s.issued && r.target in s.retries && r.generation <= s.retries[r.target])
    && (forall r | r in s.issued && r.target in s.retries && r.generation <= s.retries[r.target] :: r in s.sent)
    && (forall r | r in s.accepted :: r in s.sent)
    && (forall i, j | 0 <= i < j < |s.sent| :: s.sent[i] != s.sent[j])
  }

  ghost predicate Inv(s: State) {
    Numbered(s) && Delivered(s)
  }

  /** An offer sends what is news over an open channel, and entitles to acknowledge what was sent or is no news. */
  lemma OfferExactly(s: State, r: Retry, registered: bool, channelOpen: bool)
    ensures var s', news := After(s, Offer(r, registered, channelOpen)), IsNews(s.retries, r.target, r.generation);
            && (registered && channelOpen && news ==>
                  s'.sent == s.sent + [r] && s'.retries == s.retries[r.target := r.generation])
            && (!(registered && channelOpen && news) ==> s'.sent == s.sent && s'.retries == s.retries)
            && (registered && (channelOpen || !news) ==> s'.accepted == s.accepted + {r})
            && (!(registered && (channelOpen || !news)) ==> s'.accepted == s.accepted)
            && s'.pending == s.pending && s'.issued == s.issued
  {
  }

  lemma RequestKeepsNumbered(s: State, t: TermCampusKey)
    requires Numbered(s)
    ensures Numbered(After(s, Request(t)))
  {
  }

  lemma RequestKeepsDelivered(s: State, t: TermCampusKey)
    requires Numbered(s) && Delivered(s)
    ensures Delivered(After(s, Request(t)))
  {
    var s' := After(s, Request(t));
    forall r | r in s'.issued ensures r in s.issued || (t !in s.pending && r == Retry(t, |s.issued| + 1)) {
    }
    forall r | r in s.issued && r.target == t && t !in s.pending ensures r.generation <= |s.issued| {
    }
  }

  lemma RequestKeepsInv(s: State, t: TermCampusKey)
    requires Inv(s)
    ensures Inv(After(s, Request(t)))
  {
    RequestKeepsNumbered(s, t);
    RequestKeepsDelivered(s, t);
  }

  lemma OfferKeepsInv(s: State, step: Step)
    requires Inv(s) && step.Offer? && Enabled(s, step)
    ensures Inv(After(s, step))
  {
  }

  lemma AcknowledgeKeepsInv(s: State, step: Step)
    requires Inv(s) && step.Acknowledge? && Enabled(s, step)
    ensures Inv(After(s, step))
  {
  }

  ghost predicate Run(states: seq<State>, steps: seq<Step>) {
    && |states| == |steps| + 1
    && Init(states[0])
    && forall i | 0 <= i < |steps| :: Enabled(states[i], steps[i]) && states[i + 1] == After(states[i], steps[i])
  }

  lemma {:induction false} RunKeepsInv(states: seq<State>, steps: seq<Step>, i: nat)
    requires Run(states, steps) && i < |states|
    ensures Inv(states[i])
  {
    if i > 0 {
      RunKeepsInv(states, steps, i - 1);
      match steps[i - 1]
      case Request(t) => RequestKeepsInv(states[i - 1], t);
      case Offer(_, _, _) => OfferKeepsInv(states[i - 1], steps[i - 1]);
      case Acknowledge(_) => AcknowledgeKeepsInv(states[i - 1], steps[i - 1]);
    }
  }

  /** No generation is ever sent twice, only issued ones are sent, and one that is no longer pending was sent once. */
  lemma SentExactlyOnce(states: seq<State>, steps: seq<Step>, i: nat, r: Retry)
    requires Run(states, steps) && i < |states|
    ensures multiset(states[i].sent)[r] <= if r in states[i].issued then 1 else 0
    ensures r in states[i].issued && !IsPending(states[i], r) ==> multiset(states[i].sent)[r] == 1
  {
    RunKeepsInv(states, steps, i);
    DistinctCounts(states[i].sent, r);
  }

  /** Generations increase strictly in the order they are issued, over all targets. */
  lemma GenerationsIncrease(states: seq<State>, steps: seq<Step>, i: nat, a: nat, b: nat)
    requires Run(states, steps) && i < |states| && a < b < |states[i].issued|
    ensures states[i].issued[a].generation < states[i].issued[b].generation
  {
    RunKeepsInv(states, steps, i);
  }

  lemma PendingStays(s: State, step: Step, t: TermCampusKey)
    requires Enabled(s, step) && t in s.pending && step != Acknowledge(Retry(t, s.pending[t]))
    ensures t in After(s, step).pending && After(s, step).pending[t] == s.pending[t]
  {
  }

  /** A pending generation stays until that very generation is acknowledged: an older one never erases it. */
  lemma {:induction false} OnlyItsOwnAcknowledgement(states: seq<State>, steps: seq<Step>, i: nat, j: nat,
                                                     t: TermCampusKey, g: nat)
    requires Run(states, steps) && i <= j < |states| && IsPending(states[i], Retry(t, g))
    requires forall k | i <= k < j :: steps[k] != Acknowledge(Retry(t, g))
    ensures IsPending(states[j], Retry(t, g))
  {
    if i < j {
      OnlyItsOwnAcknowledgement(states, steps, i, j - 1, t, g);
      PendingStays(states[j - 1], steps[j - 1], t);
    }
  }
}
