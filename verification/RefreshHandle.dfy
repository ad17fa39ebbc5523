/**
  The runtime handle: the shared sets its callers update and the commands it sends. Each method is
  proved to send exactly the commands that, replayed on the old view of every target, give the new one;
  with the supervisor's channel closed it leaves the shared sets as they were wherever the runtime does.
 */
module RefreshHandle {
  import opened Common
  import opened Supervisor
  import opened SupervisorTheorems

  datatype HandleError = UnknownTarget | Stopped

  /** Replaying `sent` on each target's old view gives its new view, and every command is in order. */
  ghost predicate Reflects(before: HandleState, after: HandleState, sent: seq<Command>) {
    forall t :: Replay(sent, t, HandleView(before, t)) == HandleView(after, t)
      && AllSane(sent, t, HandleView(before, t))
  }

  lemma {:induction false} ReplayConcat(a: seq<Command>, b: seq<Command>, t: TermCampusKey, v: TargetView)
    ensures Replay(a + b, t, v) == Replay(b, t, Replay(a, t, v))
    ensures AllSane(a + b, t, v) <==> AllSane(a, t, v) && AllSane(b, t, Replay(a, t, v))
    decreases |a|
  {
    if a == [] {
      assert a + b == b;
    } else {
      assert (a + b)[1..] == a[1..] + b;
      ReplayConcat(a[1..], b, t, if a[0].target == t then Apply(v, a[0]) else v);
    }
  }

  lemma ReflectsCompose(a: HandleState, b: HandleState, c: HandleState, sent: seq<Command>, sent': seq<Command>)
    requires Reflects(a, b, sent) && Reflects(b, c, sent')
    ensures Reflects(a, c, sent + sent')
  {
    forall t ensures Replay(sent + sent', t, HandleView(a, t)) == HandleView(c, t)
      && AllSane(sent + sent', t, HandleView(a, t)) {
      ReplayConcat(sent, sent', t, HandleView(a, t));
    }
  }

  /** One command reflects a change of its own target's view. */
  lemma ReflectsOne(a: HandleState, b: HandleState, cmd: Command)
    requires Sane(HandleView(a, cmd.target), cmd) && HandleView(b, cmd.target) == Apply(HandleView(a, cmd.target), cmd)
    requires forall t | t != cmd.target :: HandleView(b, t) == HandleView(a, t)
    ensures Reflects(a, b, [cmd])
  {
    forall t ensures Replay([cmd], t, HandleView(a, t)) == HandleView(b, t) && AllSane([cmd], t, HandleView(a, t)) {
      assert [cmd][1..] == [];
    }
  }

  /** A handle call keeps the supervisor in agreement with the handle, however many commands it sends. */
  lemma CallKeepsAgreement(s: State, after: HandleState, sent: seq<Command>)
    requires Agrees(s) && Reflects(s.handle, after, sent)
    ensures Agrees(s.(handle := after, queue := s.queue + sent))
  {
    var s' := s.(handle := after, queue := s.queue + sent);
    forall t ensures AgreesOn(s', t) {
      assert AgreesOn(s, t);
      ReplayConcat(s.queue, sent, t, DeskView(s.desk, s.floor.away, t));
    }
  }

  function WithoutTarget(h: HandleState, t: TermCampusKey): HandleState {
    HandleState(h.modes - {t}, h.active - {t})
  }

  lemma RemovalReflected(h: HandleState, t: TermCampusKey)
    requires t in h.modes
    ensures forall u :: HandleView(WithoutTarget(h, t), u) ==
                        if u == t then TargetView(None, false) else HandleView(h, u)
    ensures Reflects(h, WithoutTarget(h, t), [RemoveTarget(t)])
  {
    ReflectsOne(h, WithoutTarget(h, t), RemoveTarget(t));
  }

  class RefreshRuntime {
    var registered: set<TermCampusKey>
    var modes: map<TermCampusKey, bool>
    var active: set<TermCampusKey>
    var retries: map<TermCampusKey, nat>
    var commands: seq<Command>
    var channelOpen: bool

    ghost predicate Valid()
      reads this
    {
      && (forall t :: t in registered <==> t in modes)
      && (forall t | t in active :: t in registered)
    }

    function View(): HandleState
      reads this
    {
      HandleState(modes, active)
    }

    constructor (targets: map<TermCampusKey, bool>)
      ensures Valid() && View() == HandleState(targets, {}) && retries == map[] && commands == [] && channelOpen
    {
      registered, modes, active, retries, commands, channelOpen := targets.Keys, targets, {}, map[], [], true;
    }

    method Send(command: Command) returns (ok: bool)
      modifies this`commands
      ensures ok == channelOpen && commands == old(commands) + if ok then [command] else []
    {
      ok := channelOpen;
      if ok {
        commands := commands + [command];
      }
    }

    method RegisterTarget(target: TermCampusKey, manual: bool) returns (r: Result<bool, HandleError>)
      requires Valid()
      modifies this`registered, this`modes, this`commands
      ensures Valid() && active == old(active) && old(commands) <= commands
      ensures r.Ok? ==> modes == old(modes)[target := manual] && (r.value <==> target !in old(registered))
      ensures r.Ok? ==> Reflects(old(View()), View(), commands[|old(commands)|..])
      ensures r.Err? ==> r.error == Stopped && !channelOpen && View() == old(View()) && commands == old(commands)
      ensures r.Err? <==> !channelOpen && (target !in old(modes) || old(modes)[target] != manual)
    {
      if target in registered {
        var previous := modes[target];
        modes := modes[target := manual];
        if previous == manual {
          assert modes == old(modes) && commands[|commands|..] == [];
          return Ok(false);
        }
        var sent := Send(Reclassify(target, manual));
        if !sent {
          modes := modes[target := previous];
          assert modes == old(modes);
          return Err(Stopped);
        }
        ReflectsOne(old(View()), View(), Reclassify(target, manual));
        assert commands[|old(commands)|..] == [Reclassify(target, manual)];
        return Ok(false);
      }
      registered := registered + {target};
      modes := modes[target := manual];
      var sent := Send(Register(target, manual));
      if !sent {
        registered, modes := registered - {target}, modes - {target};
        assert modes == old(modes);
        return Err(Stopped);
      }
      ReflectsOne(old(View()), View(), Register(target, manual));
      assert commands[|old(commands)|..] == [Register(target, manual)];
      r := Ok(true);
    }

    method ActivateOpen(target: TermCampusKey) returns (r: Result<bool, HandleError>)
      requires Valid()
      modifies this`active, this`commands
      ensures Valid() && old(commands) <= commands
      ensures r == Err(UnknownTarget) <==> target !in registered
      ensures r == Err(Stopped) <==> target in registered && target !in old(active) && !channelOpen
      ensures r.Ok? ==> active == old(active) + {target} && (r.value <==> target !in old(active))
      ensures r.Ok? ==> commands == old(commands) + if r.value then [Command.ActivateOpen(target)] else []
      ensures r.Ok? ==> Reflects(old(View()), View(), commands[|old(commands)|..])
      ensures r.Err? ==> active == old(active) && commands == old(commands) && (target in registered ==> !channelOpen)
    {
      if target !in registered {
        return Err(UnknownTarget);
      }
      if target in active {
        assert commands[|commands|..] == [] && active == active + {target};
        return Ok(false);
      }
      active := active + {target};
      var sent := Send(Command.ActivateOpen(target));
      if !sent {
        active := active - {target};
        return Err(Stopped);
      }
      ReflectsOne(old(View()), View(), Command.ActivateOpen(target));
      assert commands[|old(commands)|..] == [Command.ActivateOpen(target)];
      r := Ok(true);
    }

    /** Sends a manual retry once per generation: a generation already seen is not sent again. */
    method RequestManualRetry(target: TermCampusKey, generation: nat) returns (r: Result<bool, HandleError>)
      requires Valid()
      modifies this`retries, this`commands
      ensures Valid()
      ensures r == Err(UnknownTarget) <==> target !in registered
      ensures r.Err? ==> retries == old(retries) && commands == old(commands)
      ensures r == Ok(false) <==> target in registered && target in old(retries) && generation <= old(retries)[target]
      ensures r == Ok(false) ==> retries == old(retries) && commands == old(commands)
      ensures r == Ok(true) ==>
                retries == old(retries)[target := generation]
                  && commands == old(commands) + [ManualRetry(target, generation)]
      ensures r == Err(Stopped) <==>
                !channelOpen && target in registered && !(target in old(retries) && generation <= old(retries)[target])
    {
      if target !in registered {
        return Err(UnknownTarget);
      }
      if target in retries && retries[target] >= generation {
        return Ok(false);
      }
      var previous := if target in retries then Some(retries[target]) else None;
      retries := retries[target := generation];
      var sent := Send(ManualRetry(target, generation));
      if !sent {
        match previous {
          case Some(g) => retries := retries[target := g];
          case None => retries := retries - {target};
        }
        assert retries == old(retries);
        return Err(Stopped);
      }
      r := Ok(true);
    }

    /** Releases every demand that is no longer wanted. */
    method ReleaseUnwanted(demanded: set<TermCampusKey>) returns (ok: bool)
      requires Valid()
      modifies this`active, this`commands
      ensures Valid() && old(commands) <= commands
      ensures ok ==> active == old(active) * demanded
      ensures ok ==> Reflects(old(View()), View(), commands[|old(commands)|..])
      ensures ok ==> forall c | c in commands[|old(commands)|..] ::
                       c.ReleaseProductDemand? && c.target in old(active) && c.target !in demanded
      ensures !channelOpen ==> active == old(active) && commands == old(commands)
      ensures channelOpen ==> ok
    {
      var rest := active - demanded;
      assert commands[|commands|..] == [];
      while rest != {}
        invariant Valid() && old(commands) <= commands
                  && (!channelOpen ==> commands == old(commands) && active == old(active))
        invariant forall t :: t in rest ==> t in old(active) && t !in demanded
        invariant forall t :: t in active <==> t in old(active) && (t in demanded || t in rest)
        invariant Reflects(old(View()), View(), commands[|old(commands)|..])
        invariant forall c | c in commands[|old(commands)|..] ::
                    c.ReleaseProductDemand? && c.target in old(active) && c.target !in demanded
        decreases |rest|
      {
        var t :| t in rest;
        ghost var view, sent := View(), commands[|old(commands)|..];
        var open := Send(ReleaseProductDemand(t));
        if !open {
          return false;
        }
        active := active - {t};
        rest := rest - {t};
        ReflectsOne(view, View(), ReleaseProductDemand(t));
        ReflectsCompose(old(View()), view, View(), sent, [ReleaseProductDemand(t)]);
        assert commands[|old(commands)|..] == sent + [ReleaseProductDemand(t)];
      }
      ok := true;
    }

    /** Activates each registered target that is wanted. */
    method ActivateWanted(demanded: set<TermCampusKey>) returns (ok: bool)
      requires Valid()
      modifies this`active, this`commands
      ensures Valid() && old(commands) <= commands
      ensures ok ==> active == old(active) + demanded * registered
      ensures ok ==> Reflects(old(View()), View(), commands[|old(commands)|..])
      ensures ok ==> forall c | c in commands[|old(commands)|..] ::
                       c.ActivateOpen? && c.target in demanded && c.target !in old(active)
      ensures !channelOpen ==> active == old(active) && commands == old(commands)
      ensures channelOpen ==> ok
    {
      var rest := demanded * registered;
      assert commands[|commands|..] == [];
      while rest != {}
        invariant Valid() && old(commands) <= commands
                  && (!channelOpen ==> commands == old(commands) && active == old(active))
        invariant forall t :: t in rest ==> t in demanded && t in registered
        invariant forall t :: t in active <==> t in old(active) || (t in demanded && t in registered && t !in rest)
        invariant Reflects(old(View()), View(), commands[|old(commands)|..])
        invariant forall c | c in commands[|old(commands)|..] ::
                    c.ActivateOpen? && c.target in demanded && c.target !in old(active)
        decreases |rest|
      {
        var t :| t in rest;
        ghost var view, before, sent := View(), commands, commands[|old(commands)|..];
        var activated := ActivateOpen(t);
        if activated.Err? {
          return false;
        }
        rest := rest - {t};
        ReflectsCompose(old(View()), view, View(), sent, commands[|before|..]);
        assert commands[|old(commands)|..] == sent + commands[|before|..];
      }
      ok := true;
    }

    /**
      Makes the Open demand exactly the registered part of `demanded`, with no redundant command. With
      the supervisor gone it changes nothing.
     */
    method SyncProductDemand(demanded: set<TermCampusKey>) returns (r: Result<(), HandleError>)
      requires Valid()
      modifies this`active, this`commands
      ensures Valid() && old(commands) <= commands
      ensures r.Ok? ==> active == demanded * registered
      ensures r.Ok? ==> Reflects(old(View()), View(), commands[|old(commands)|..])
      ensures r.Ok? ==> forall c | c in commands[|old(commands)|..] ::
                          || (c.ReleaseProductDemand? && c.target in old(active) && c.target !in demanded)
                          || (c.ActivateOpen? && c.target in demanded && c.target !in old(active))
      ensures r.Err? ==> r.error == Stopped && !channelOpen && View() == old(View()) && commands == old(commands)
      ensures channelOpen ==> r.Ok?
    {
      var released := ReleaseUnwanted(demanded);
      if !released {
        return Err(Stopped);
      }
      ghost var view, sent, before := View(), commands[|old(commands)|..], commands;
      var activated := ActivateWanted(demanded);
      if !activated {
        return Err(Stopped);
      }
      ReflectsCompose(old(View()), view, View(), sent, commands[|before|..]);
      assert commands[|old(commands)|..] == sent + commands[|before|..];
      r := Ok(());
    }

    /** Drops targets from all three shared sets. */
    method ForgetTargets(removals: set<TermCampusKey>)
      requires Valid()
      modifies this`registered, this`modes, this`active
      ensures Valid()
      ensures forall t :: t in registered <==> t in old(registered) && t !in removals
      ensures forall t :: t in active <==> t in old(active) && t !in removals
      ensures forall t | t in registered :: modes[t] == old(modes)[t]
    {
      registered, modes, active := registered - removals, modes - removals, active - removals;
    }

    /** Tells the supervisor to remove each target; `mid` is what the handle's callers have been told so far. */
    method SendRemovals(removals: set<TermCampusKey>, ghost before: HandleState, ghost after: HandleState)
      returns (r: Result<(), HandleError>)
      requires forall t | t in removals :: t in before.modes
      requires forall t :: t in after.modes <==> t in before.modes && t !in removals
      requires forall t :: t in after.active <==> t in before.active && t !in removals
      requires forall t | t in after.modes :: after.modes[t] == before.modes[t]
      modifies this`commands
      ensures old(commands) <= commands
      ensures channelOpen ==> r.Ok? && Reflects(before, after, commands[|old(commands)|..])
      ensures !channelOpen ==> commands == old(commands) && (r.Ok? <==> removals == {})
      ensures r.Err? ==> r.error == Stopped
    {
      var rest := removals;
      ghost var mid := before;
      assert commands[|commands|..] == [];
      while rest != {}
        invariant old(commands) <= commands && (!channelOpen ==> commands == old(commands) && rest == removals)
        invariant forall t | t in rest :: t in removals && HandleView(mid, t).mode.Some?
        invariant forall t | t !in removals || t in rest :: HandleView(mid, t) == HandleView(before, t)
        invariant forall t | t in removals && t !in rest :: HandleView(mid, t) == TargetView(None, false)
        invariant Reflects(before, mid, commands[|old(commands)|..])
        decreases |rest|
      {
        var t :| t in rest;
        ghost var view, sent := mid, commands[|old(commands)|..];
        var open := Send(RemoveTarget(t));
        if !open {
          return Err(Stopped);
        }
        rest := rest - {t};
        mid := WithoutTarget(mid, t);
        RemovalReflected(view, t);
        ReflectsCompose(before, view, mid, sent, [RemoveTarget(t)]);
        assert commands[|old(commands)|..] == sent + [RemoveTarget(t)];
      }
      assert forall t :: HandleView(mid, t) == HandleView(after, t);
      r := Ok(());
    }

    /** Forgets every target outside `retained` and tells the supervisor to remove it. */
    method RetainRegisteredTargets(retained: set<TermCampusKey>) returns (r: Result<(), HandleError>)
      requires Valid()
      modifies this`registered, this`modes, this`active, this`commands
      ensures Valid() && old(commands) <= commands
      ensures registered == old(registered) * retained && active == old(active) * retained
      ensures forall t | t in registered :: modes[t] == old(modes)[t]
      ensures channelOpen ==> r.Ok? && Reflects(old(View()), View(), commands[|old(commands)|..])
      ensures !channelOpen ==> commands == old(commands) && (r.Ok? <==> old(registered) <= retained)
      ensures r.Err? ==> r.error == Stopped
    {
      var removals := registered - retained;
      ForgetTargets(removals);
      r := SendRemovals(removals, old(View()), View());
    }
  }
}
