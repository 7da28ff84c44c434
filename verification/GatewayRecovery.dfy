/** Recorded intent, container recovery and crashes (`container_recovery.go`,
    `container_runner.go`, `status.go`). */
module GatewayRecovery {
  import opened Text
  import opened GatewayWorld
  import opened GatewayLifecycle

  /** What the recorded intent asks of the world. */
  predicate MatchesIntent(w: World) {
    && w.desired.Some?
    && (w.desired.value ==> w.file.Some? && w.file.value.session == w.session)
    && (!w.desired.value ==> w.file.None? && KernelClean(w))
  }

  /** The intent a recovery acts on: the recorded one, or the one a left-over record implies. */
  function Intent(w: World): bool {
    if w.desired.Some? then w.desired.value else w.file.Some?
  }

  /** The runtime is what the recorded intent asks for. */
  predicate Settled(cfg: Config, w: World) {
    w.desired.Some? && if w.desired.value then Healthy(cfg, w) else w.file.None?
  }

  class Runner {
    const manager: Manager

    constructor (manager: Manager)
      ensures this.manager == manager
    {
      this.manager := manager;
    }

    /** The identity checks of the processes that a record names answer. */
    predicate ChecksAnswer(w: World) {
      w.file.Some? ==>
        CheckAnswers(w.file.value.mihomo, w) && CheckAnswers(w.file.value.dnsmasq, w)
        && CheckAnswers(w.file.value.smartDNS, w)
    }

    predicate CheckAnswers(process: Tracked, w: World) {
      TracksLive(process, w) ==> w.alive[process.pid].role in manager.host.answering
    }

    /** `Status`: one check for each recorded process, and a probe for the routing. `answered` says
        whether everything else it asks (files, boot session, TUN, kernel) answers without a complaint. */
    method Status(answered: bool) returns (healthy: bool)
      ensures healthy ==> answered && Healthy(manager.cfg, manager.host.world)
      ensures ChecksAnswer(manager.host.world) ==>
                (healthy <==> answered && Healthy(manager.cfg, manager.host.world))
    {
      hide TracksLive;
      if !answered || manager.host.world.file.None? {
        return false;
      }
      var state := manager.host.world.file.value;
      if !BelongsTo(state, manager.host.world.session) {
        return false;
      }
      var engine := manager.TrackedRunning(state.mihomo);
      var resolver := manager.TrackedRunning(state.dnsmasq);
      var frontDoor := manager.TrackedRunning(state.smartDNS);
      var dhcpReady := !manager.cfg.dhcpEnabled || resolver;
      var localDNSReady := !NeedsDNSMasq(manager.cfg) || resolver;
      var dnsReady := frontDoor || (!state.smartFrontend && resolver);
      healthy := state.lifecycle in {Legacy, Running} && dhcpReady && localDNSReady && dnsReady && engine;
      if state.snapshot.Some? && state.snapshot.value.routing.Some? {
        if !state.routingApplied || !state.snapshot.value.applied.routing {
          return false;
        }
        var present := manager.host.PolicyRoutingPresent(state.snapshot.value.routing.value);
        healthy := healthy && present;
      }
    }

    /** `RecoverAfterContainerRestart`; `answered` says whether the probes of a status answer. */
    method Recover(answered: bool) returns (ok: bool, recovered: bool)
      requires manager.host.Safe()
      modifies manager.host
      ensures manager.host.Safe() && old(manager.host.history) <= manager.host.history
      ensures manager.host.world.session == old(manager.host.world).session
      ensures OnlySignals(old(manager.host.signals), manager.host.signals, manager.host.world.session)
      ensures ok ==>
                MatchesIntent(manager.host.world) && manager.host.world.desired == Some(Intent(old(manager.host.world)))
      ensures ok ==> Settled(manager.cfg, manager.host.world)
      ensures recovered ==> ok && Started(manager.cfg, manager.host.world)
      ensures answered && ChecksAnswer(old(manager.host.world)) && Settled(manager.cfg, old(manager.host.world)) ==>
                !recovered && manager.host.world == old(manager.host.world)
    {
      hide Healthy, Started, Consistent, BelongsTo, ChecksAnswer;
      HealthyBelongs(manager.cfg, manager.host.world);
      recovered := false;
      ok := manager.host.Attempt();
      var loaded, existing := manager.host.LoadState();
      var readable, desired := manager.host.LoadDesired();
      if !ok || !loaded || !readable {
        return false, false;
      }
      var running := existing.Some?;
      if desired.Some? {
        running := desired.value;
      } else {
        ok := manager.host.SaveDesired(running);
        IntentIsFree(old(manager.host.world), manager.host.world);
        if !ok { return; }
      }
      if existing.Some? {
        ok, recovered := Reconcile(existing.value, running, answered);
        if !ok || recovered {
          recovered := false;
          return;
        }
      } else {
        NoRecordIsClean(manager.host.world);
      }
      if running {
        ok := manager.Start();
        recovered := ok;
        StartedMatches(manager.cfg, manager.host.world);
      }
    }

    /** Deals with a left-over record. `kept` when it is that of a healthy gateway; otherwise success clears it. */
    method Reconcile(state: State, running: bool, answered: bool) returns (ok: bool, kept: bool)
      requires manager.host.Safe() && manager.host.world.file == Some(state)
      modifies manager.host`world, manager.host`history, manager.host`signals
      ensures manager.host.Safe() && old(manager.host.history) <= manager.host.history
      ensures SameSetting(old(manager.host.world), manager.host.world)
      ensures OnlySignals(old(manager.host.signals), manager.host.signals, manager.host.world.session)
      ensures ok && !kept ==> manager.host.world.file.None? && KernelClean(manager.host.world)
      ensures kept ==> ok && running && manager.host.world == old(manager.host.world)
      ensures kept ==> Healthy(manager.cfg, manager.host.world) && state.session == manager.host.world.session
      ensures answered && running && ChecksAnswer(old(manager.host.world))
              && Healthy(manager.cfg, old(manager.host.world)) ==>
                manager.host.world == old(manager.host.world) && (ok ==> kept)
    {
      hide Healthy, Consistent, ChecksAnswer;
      kept := false;
      HealthyBelongs(manager.cfg, manager.host.world);
      ok := manager.host.Attempt();
      if !ok { return; }
      if !BelongsTo(state, manager.host.world.session) {
        ok := manager.CleanupInterrupted(state);
      } else if !running {
        ok := manager.Stop();
      } else {
        var healthy := Status(answered);
        if healthy {
          return true, true;
        }
        ok := manager.Stop();
      }
    }

    /** A recovery that reports success leaves nothing for a second one to do, whose checks answer. */
    method RecoverTwice(answered: bool) returns (ok: bool, again: bool, ghost between: World)
      requires manager.host.Safe()
      modifies manager.host
      ensures ok ==> Settled(manager.cfg, between)
      ensures ok && ChecksAnswer(between) ==> !again && manager.host.world == between
    {
      hide Healthy, Started, Consistent, Settled, ChecksAnswer;
      var recovered;
      ok, recovered := Recover(answered);
      again, between := false, manager.host.world;
      if ok {
        var second;
        second, again := Recover(true);
      }
    }

    /** `Run("start")` and `StartPolicyWorkspace`: the intent is durable before anything starts. */
    method RunStart() returns (ok: bool)
      requires manager.host.Safe()
      modifies manager.host
      ensures manager.host.Safe() && old(manager.host.history) <= manager.host.history
      ensures manager.host.world.session == old(manager.host.world).session
      ensures OnlySignals(old(manager.host.signals), manager.host.signals, manager.host.world.session)
      ensures ok ==> manager.host.world.desired == Some(true) && Started(manager.cfg, manager.host.world)
      ensures forall i :: |old(manager.host.history)| <= i < |manager.host.history| ==>
                            manager.host.history[i] == old(manager.host.world)
                            || manager.host.history[i].desired == Some(true)
    {
      hide Started, Consistent;
      ok := manager.host.Attempt();
      if !ok { return; }
      ok := manager.host.SaveDesired(true);
      IntentIsFree(old(manager.host.world), manager.host.world);
      if !ok { return; }
      // Reconciling the persisted profile.
      ok := manager.host.Attempt();
      if !ok { return; }
      ok := manager.Start();
    }

    /** `Run("stop")` */
    method RunStop() returns (ok: bool)
      requires manager.host.Safe()
      modifies manager.host
      ensures manager.host.Safe() && old(manager.host.history) <= manager.host.history
      ensures manager.host.world.session == old(manager.host.world).session
      ensures OnlySignals(old(manager.host.signals), manager.host.signals, manager.host.world.session)
      ensures ok ==> manager.host.world.desired == Some(false) && MatchesIntent(manager.host.world)
      ensures forall i :: |old(manager.host.history)| <= i < |manager.host.history| ==>
                            manager.host.history[i] == old(manager.host.world)
                            || manager.host.history[i].desired == Some(false)
    {
      hide Consistent;
      ok := manager.host.SaveDesired(false);
      IntentIsFree(old(manager.host.world), manager.host.world);
      if !ok { return; }
      ok := manager.Stop();
    }

    /** The control process dies at some point of its past; the container may restart with it. */
    method Crash(point: nat, restart: bool, strangers: map<nat, Process>)
      requires manager.host.Safe() && point < |manager.host.history|
      requires forall pid :: pid in strangers ==> strangers[pid].role == Unrelated
      modifies manager.host
      ensures manager.host.Safe() && manager.host.signals == old(manager.host.signals)
      ensures var before := old(manager.host.history)[point];
              if restart then Restarted(before, manager.host.world)
              && manager.host.world.alive == strangers else manager.host.world == before
    {
      hide Consistent;
      var before := manager.host.history[point];
      manager.host.world, manager.host.history, manager.host.mark := before, manager.host.history[..point + 1], point;
      if restart {
        var session := 1 + before.session + if before.file.Some? then before.file.value.session else 0;
        var after := World(session, before.file, before.desired, {}, {}, strangers, None);
        RestartKeepsConsistency(before, after);
        manager.host.Become(after);
      }
    }

    /** A request that is cut off anywhere, followed by a recovery that reports success: the
        runtime then matches the intent that was durable when the request was cut off. */
    method InterruptedRequest(start: bool, point: nat, restart: bool, strangers: map<nat, Process>, answered: bool)
      returns (ok: bool, ghost interrupted: World)
      requires manager.host.Safe()
      requires forall pid :: pid in strangers ==> strangers[pid].role == Unrelated
      modifies manager.host
      ensures manager.host.Safe()
      ensures ok ==> MatchesIntent(manager.host.world) && manager.host.world.desired == Some(Intent(interrupted))
      ensures ok ==> Settled(manager.cfg, manager.host.world)
      ensures interrupted == old(manager.host.world) || interrupted.desired == Some(start)
              || interrupted in old(manager.host.history)
      ensures restart ==> manager.host.world.session != interrupted.session
    {
      hide Consistent, Started, Healthy;
      var requested;
      if start {
        requested := RunStart();
      } else {
        requested := RunStop();
      }
      var cut := if point < |manager.host.history| then point else |manager.host.history| - 1;
      interrupted := manager.host.history[cut];
      Crash(cut, restart, strangers);
      var recovered;
      ok, recovered := Recover(answered);
    }
  }

  lemma IntentIsFree(before: World, after: World)
    requires Consistent(before) && after == before.(desired := after.desired)
    ensures Consistent(after)
  {
  }

  lemma HealthyBelongs(cfg: Config, w: World)
    ensures Healthy(cfg, w) ==> w.file.Some? && BelongsTo(w.file.value, w.session)
  {
  }

  lemma StartedMatches(cfg: Config, w: World)
    ensures Started(cfg, w) ==> Healthy(cfg, w)
    ensures Started(cfg, w) && w.desired == Some(true) ==> MatchesIntent(w)
  {
  }
}
