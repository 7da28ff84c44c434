/** Start, rollback, stop, reload and restarts of the gateway (`internal/gateway/manager.go`,
    `dnsmasq_restart.go`). Every method leaves the environment's whole past `Safe`: at no
    crash point does the kernel hold an object the durable journal does not name. */
module GatewayLifecycle {
  import opened Text
  import opened GatewayWorld

  datatype Config = Config(
    sameLAN: bool, dhcpEnabled: bool, table: nat, priority: nat, fwMark: nat, nftTable: string, tun: string)

  predicate NeedsDNSMasq(cfg: Config) {
    cfg.dhcpEnabled || cfg.sameLAN
  }

  function Recipe(cfg: Config, tun: string): RoutingRecipe {
    RoutingRecipe(cfg.table, cfg.priority, if cfg.sameLAN then IngressInterface else FWMark,
      if cfg.sameLAN then 0 else cfg.fwMark, tun, false)
  }

  /** The record in memory and the durable one name the same kernel objects, all there are. */
  predicate Working(cfg: Config, state: State, w: World) {
    && Covers(state, w) && Journaled(state) == state
    && w.file.Some? && !w.file.value.lifecycle.Running? && Covers(w.file.value, w)
    && state.snapshot.value.routing.Some?
       && Key(state.snapshot.value.routing.value) == RouteKey(cfg.table, cfg.priority)
    && CoveredRoutes(state.snapshot.value) == CoveredRoutes(w.file.value.snapshot.value)
    && CoveredTables(state.snapshot.value) == CoveredTables(w.file.value.snapshot.value)
    && (Installable(Recipe(cfg, "")) ==> state.snapshot.value.applied.routing)
    && (!cfg.sameLAN ==> cfg.nftTable != "" && CoveredTables(state.snapshot.value) == {cfg.nftTable})
  }

  /** The signals added since `before` all go to pids recorded in this session. */
  predicate OnlySignals(before: seq<Signal>, after: seq<Signal>, session: nat) {
    before <= after && forall i :: |before| <= i < |after| ==> after[i].recordedIn == session
  }

  lemma OneSignal(before: seq<Signal>, after: seq<Signal>, pid: nat, session: nat)
    requires after == before || after == before + [Signal(pid, session)]
    ensures OnlySignals(before, after, session)
  {
  }

  class Manager {
    const cfg: Config
    const host: Machine

    constructor (cfg: Config, host: Machine)
      ensures this.cfg == cfg && this.host == host
    {
      this.cfg, this.host := cfg, host;
    }

    /** `stopTrackedProcess`: refuses to signal a pid whose identity changed. */
    method StopTracked(process: Tracked, recordedIn: nat) returns (ok: bool)
      requires host.Safe()
      modifies host`world, host`history, host`signals
      ensures host.world == old(host.world) || Stopped(process, old(host.world), host.world)
      ensures host.history == old(host.history) + [host.world]
              || (host.history == old(host.history) && host.world == old(host.world))
      ensures ok && process.pid > 0 ==> process.pid !in host.world.alive
      ensures TracksReliably(process, old(host.world)) ==> ok
      ensures host.signals == old(host.signals) || host.signals == old(host.signals) + [Signal(process.pid, recordedIn)]
      ensures host.signals != old(host.signals) ==> process.pid > 0
      ensures host.signals != old(host.signals) && process.fingerprint.Some? ==> TracksLive(process, old(host.world))
    {
      if process.pid == 0 {
        return true;
      }
      if process.fingerprint.Some? {
        var checked, matches := host.Matches(process.pid, process.fingerprint.value);
        if !checked {
          return false;
        }
        if !matches {
          return process.pid !in host.world.alive;
        }
      }
      ok := host.Kill(process.pid, recordedIn);
    }

    /** A live recorded process whose identity checks answer and which obeys signals. */
    predicate TracksReliably(process: Tracked, w: World) {
      TracksLive(process, w) && host.Stoppable(w.alive[process.pid].role)
    }

    /** `trackedProcessRunning` */
    method TrackedRunning(process: Tracked) returns (running: bool)
      ensures running ==> TracksLive(process, host.world)
      ensures TracksLive(process, host.world) && host.world.alive[process.pid].role in host.answering ==> running
    {
      if process.pid == 0 {
        return false;
      }
      if process.fingerprint.None? {
        return process.pid in host.world.alive;
      }
      var checked, matches := host.Matches(process.pid, process.fingerprint.value);
      running := checked && matches;
    }

    /** Checks without effect on the modelled world: configuration, preflight, rendering, validation. */
    method Prepare() returns (ok: bool)
      ensures ok && !cfg.sameLAN ==> cfg.nftTable != ""
    {
      ok := host.Attempt();
      ok := ok && (cfg.sameLAN || cfg.nftTable != "");
    }

    /** The start sequence up to the first durable record. */
    method Begin() returns (ok: bool, state: State)
      requires host.Safe()
      modifies host`world, host`history, host`signals
      ensures host.Safe() && old(host.history) <= host.history && host.signals == old(host.signals)
      ensures !ok ==> host.world == old(host.world)
      ensures ok ==>
                old(host.world).file.None? && host.world == old(host.world).(file := Some(state))
                && Working(cfg, state, host.world)
      ensures ok ==> state.mihomo == state.dnsmasq == state.smartDNS == UNTRACKED && state.smartFrontend
      ensures ok ==> state.lifecycle == Starting && !state.natApplied && !state.routingApplied
      ensures forall i :: |old(host.history)| <= i < |host.history| ==>
        host.history[i].alive == old(host.world).alive && host.history[i].routes == old(host.world).routes
    {
      state := State(Starting, host.world.session, UNTRACKED, UNTRACKED, UNTRACKED, true, false, false, false, "",
        None);
      var loaded, existing := host.LoadState();
      if !loaded || existing.Some? {
        return false, state;
      }
      var prepared := Prepare();
      if !prepared {
        return false, state;
      }
      var forwarding: string := *;
      var snapshot := Snapshot(host.world.session, forwarding, "", None, None, Applied(false, false, false));
      if !cfg.sameLAN {
        snapshot := snapshot.(nftTable := cfg.nftTable, nat_ := Some(cfg.nftTable));
      }
      snapshot := snapshot.(routing := Some(Recipe(cfg, cfg.tun)));
      state := state.(snapshot := Some(snapshot));
      ok, state := host.SaveState(state);
    }

    /** Writes a record that names the same kernel objects as before. */
    method Record(state: State) returns (ok: bool)
      requires host.Safe() && Working(cfg, state, host.world) && !state.lifecycle.Running?
      modifies host`world, host`history, host`signals
      ensures host.Safe() && Working(cfg, state, host.world)
      ensures host.world == if ok then old(host.world).(file := Some(state)) else old(host.world)
      ensures host.history == old(host.history) + [host.world] && host.signals == old(host.signals)
    {
      hide Consistent, Working;
      WorkingJournaled(cfg, state, host.world);
      var kept;
      ok, kept := host.SaveState(state);
      WorkingRecorded(cfg, state, old(host.world));
      WorkingIsConsistent(cfg, state, host.world);
    }

    /** Starts a service and identifies it; `process` names it as soon as it exists. */
    method Launch(role: Role, state: State) returns (ok: bool, process: Tracked)
      requires host.Safe() && Working(cfg, state, host.world) && !role.Unrelated?
      modifies host`world, host`history, host`signals
      ensures host.Safe() && Working(cfg, state, host.world)
      ensures host.history == old(host.history) + [host.world] && host.signals == old(host.signals)
      ensures host.world == old(host.world)
              || (Joined(old(host.world), host.world, process.pid, role) && TracksAs(process, role, host.world))
      ensures host.world == old(host.world) ==> !ok && process == UNTRACKED
    {
      hide Consistent, Working;
      process := UNTRACKED;
      var pid;
      ok, pid := host.Spawn(role);
      WorkingIgnoresProcesses(cfg, state, old(host.world), host.world);
      WorkingIsConsistent(cfg, state, host.world);
      if !ok { return; }
      process := Tracked(pid, None);
      var identified, fingerprint := host.Fingerprint(pid);
      ok := identified && fingerprint.Some?;
      if ok {
        process := Tracked(pid, fingerprint);
      }
    }

    /** IPv4 forwarding, flagged once it is applied. */
    method EnableForwarding(started: State) returns (ok: bool, state: State)
      requires host.Safe() && Working(cfg, started, host.world) && started.lifecycle == Starting
      modifies host`world, host`history, host`signals
      ensures host.Safe() && old(host.history) <= host.history && host.signals == old(host.signals)
      ensures Working(cfg, state, host.world) && SameSetting(old(host.world), host.world)
      ensures state == started.(forwardingApplied := state.forwardingApplied, snapshot := state.snapshot)
      ensures ok ==> state.forwardingApplied
      ensures LaterSince(old(host.history), host.history, old(host.world)) && Later(old(host.world), host.world)
    {
      hide Machine.Safe, Consistent, Working;
      state := started;
      WorkingJournaled(cfg, started, host.world);
      ok := host.Attempt();
      if !ok { return; }
      state := state.(forwardingApplied := true,
        snapshot := Some(state.snapshot.value.(applied := state.snapshot.value.applied.(forwarding := true))));
      WorkingIgnoresProgress(cfg, started, state, host.world);
      ok := Record(state);
    }

    method StartEngine(started: State) returns (ok: bool, state: State)
      requires host.Safe() && Working(cfg, started, host.world) && started.lifecycle == Starting
      modifies host`world, host`history, host`signals
      ensures host.Safe() && old(host.history) <= host.history && host.signals == old(host.signals)
      ensures Working(cfg, state, host.world) && SameSetting(old(host.world), host.world)
      ensures state == started.(mihomo := state.mihomo)
      ensures ok ==> TracksAs(state.mihomo, Mihomo, host.world)
      ensures LaterSince(old(host.history), host.history, old(host.world)) && Later(old(host.world), host.world)
    {
      hide Machine.Safe, Consistent, Working;
      WorkingJournaled(cfg, started, host.world);
      var process;
      ok, process := Launch(Mihomo, started);
      JoinedIsLater(old(host.world), host.world, process.pid, Mihomo);
      state := started.(mihomo := process);
      WorkingIgnoresProgress(cfg, started, state, host.world);
      if !ok { return; }
      ok := Record(state);
    }

    /** dnsmasq, where the topology needs it. */
    method StartResolver(started: State) returns (ok: bool, state: State)
      requires host.Safe() && Working(cfg, started, host.world) && started.lifecycle == Starting
      modifies host`world, host`history, host`signals
      ensures host.Safe() && old(host.history) <= host.history && host.signals == old(host.signals)
      ensures Working(cfg, state, host.world) && SameSetting(old(host.world), host.world)
      ensures state == started.(dnsmasq := state.dnsmasq)
      ensures ok && NeedsDNSMasq(cfg) ==> TracksAs(state.dnsmasq, DNSMasq, host.world)
      ensures LaterSince(old(host.history), host.history, old(host.world)) && Later(old(host.world), host.world)
    {
      hide Machine.Safe, Consistent, Working, Journaled, RoleAlive, Later, Joined, TracksAs;
      state := started;
      WorkingJournaled(cfg, started, host.world);
      var process := started.dnsmasq;
      if NeedsDNSMasq(cfg) {
        ok, process := Launch(DNSMasq, state);
      } else {
        ok := host.Attempt();
      }
      JoinedIsLater(old(host.world), host.world, process.pid, DNSMasq);
      state := started.(dnsmasq := process);
      WorkingIgnoresProgress(cfg, started, state, host.world);
      if !ok { return; }
      label launched:
      ok := Record(state);
      RecordedIsLater(process, DNSMasq, old(host.world), old@launched(host.world), host.world);
    }

    /** The recipe with the TUN that came up, durable before it reaches the kernel. */
    method RecordRecipe(started: State) returns (ok: bool, state: State)
      requires host.Safe() && Working(cfg, started, host.world) && started.lifecycle == Starting
      modifies host`world, host`history, host`signals
      ensures host.Safe() && old(host.history) <= host.history && host.signals == old(host.signals)
      ensures Working(cfg, state, host.world) && SameSetting(old(host.world), host.world)
      ensures host.world.alive == old(host.world).alive && host.world.attached == old(host.world).attached
      ensures state == started.(tun := state.tun, snapshot := state.snapshot)
      ensures ok ==>
                host.world.file == Some(state) && state.snapshot.Some?
                && state.snapshot.value.routing == Some(Recipe(cfg, state.tun))
      ensures LaterSince(old(host.history), host.history, old(host.world)) && Later(old(host.world), host.world)
    {
      hide Machine.Safe, Consistent, Working;
      state := started;
      WorkingJournaled(cfg, started, host.world);
      var tun;
      ok, tun := host.WaitForTUN(cfg.tun);
      if !ok { return; }
      WorkingNewRecipe(cfg, state, tun, host.world);
      state := state.(tun := tun, snapshot := Some(state.snapshot.value.(routing := Some(Recipe(cfg, tun)))));
      ok := Record(state);
    }

    method ApplyNAT(started: State) returns (ok: bool, state: State)
      requires host.Safe() && Working(cfg, started, host.world) && started.lifecycle == Starting && !cfg.sameLAN
      modifies host`world, host`history, host`signals
      ensures host.Safe() && old(host.history) <= host.history && host.signals == old(host.signals)
      ensures Working(cfg, state, host.world) && SameSetting(old(host.world), host.world)
      ensures host.world.alive == old(host.world).alive && host.world.routes == old(host.world).routes
      ensures state == started.(natApplied := state.natApplied, snapshot := state.snapshot)
      ensures ok ==> state.natApplied && cfg.nftTable in host.world.tables
      ensures LaterSince(old(host.history), host.history, old(host.world)) && Later(old(host.world), host.world)
    {
      hide Consistent, Working;
      state := started;
      WorkingJournaled(cfg, started, host.world);
      ok := host.SetupNAT(cfg.nftTable);
      WorkingTakesNAT(cfg, state, old(host.world), host.world);
      WorkingIsConsistent(cfg, state, host.world);
      if !ok { return; }
      WorkingMarkedNAT(cfg, state, host.world);
      state := state.(natApplied := true,
        snapshot := Some(state.snapshot.value.(applied := state.snapshot.value.applied.(nat_ := true))));
      ok := Record(state);
    }

    /** Policy routing, flagged once it is verified. */
    method ApplyRouting(started: State) returns (ok: bool, state: State)
      requires host.Safe() && Working(cfg, started, host.world) && started.lifecycle == Starting
      modifies host`world, host`history, host`signals
      ensures host.Safe() && old(host.history) <= host.history && host.signals == old(host.signals)
      ensures Working(cfg, state, host.world) && SameSetting(old(host.world), host.world)
      ensures host.world.alive == old(host.world).alive
      ensures host.world.tables == old(host.world).tables
      ensures state == started.(routingApplied := state.routingApplied, snapshot := state.snapshot)
      ensures ok ==> state.routingApplied && Attached(cfg, host.world) && MarkedRouting(state)
      ensures LaterSince(old(host.history), host.history, old(host.world)) && Later(old(host.world), host.world)
    {
      hide Machine.Safe, Consistent, Working;
      state := started;
      var recipe := Recipe(cfg, state.tun);
      ok := SetupAndVerify(state, recipe);
      if !ok { return; }
      WorkingMarked(cfg, state, host.world);
      state := state.(routingApplied := true,
        snapshot := Some(state.snapshot.value.(applied := state.snapshot.value.applied.(routing := true))));
      ok := Record(state);
    }

    method SetupAndVerify(state: State, recipe: RoutingRecipe) returns (ok: bool)
      requires host.Safe() && Working(cfg, state, host.world)
      requires recipe == Recipe(cfg, recipe.tun)
      modifies host`world, host`history, host`signals
      ensures host.Safe() && old(host.history) <= host.history && host.signals == old(host.signals)
      ensures Working(cfg, state, host.world) && SameSetting(old(host.world), host.world)
      ensures host.world.alive == old(host.world).alive && host.world.tables == old(host.world).tables
      ensures ok ==> Installable(recipe) && Attached(cfg, host.world)
      ensures LaterSince(old(host.history), host.history, old(host.world)) && Later(old(host.world), host.world)
    {
      hide Consistent, Working;
      ok := host.SetupPolicyRouting(recipe);
      WorkingTakesRoutes(cfg, state, recipe, old(host.world), host.world);
      WorkingIsConsistent(cfg, state, host.world);
      if !ok { return; }
      label verify:
      ok := host.VerifyPolicyRouting(recipe);
      WorkingIgnoresProcesses(cfg, state, old@verify(host.world), host.world);
      WorkingIsConsistent(cfg, state, host.world);
    }

    /** SmartDNS last; only then is the gateway durably running. */
    method ExposeDNS(started: State) returns (ok: bool, state: State)
      requires host.Safe() && Working(cfg, started, host.world) && started.lifecycle == Starting
      requires Ready(cfg, started, host.world)
      modifies host`world, host`history, host`signals
      ensures host.Safe() && old(host.history) <= host.history && host.signals == old(host.signals)
      ensures SameSetting(old(host.world), host.world)
      ensures state == started.(lifecycle := state.lifecycle, smartDNS := state.smartDNS)
      ensures ok ==> Started(cfg, host.world)
      ensures !ok ==> Working(cfg, state, host.world)
      ensures !RoleAlive(old(host.world), SmartDNS) ==> FrontDoorIs(state.smartDNS, host.world)
      ensures host.world.routes == old(host.world).routes
      ensures forall pid :: pid in old(host.world).alive ==>
                            pid in host.world.alive && host.world.alive[pid] == old(host.world).alive[pid]
      ensures forall i :: |old(host.history)| <= i < |host.history| ==>
                            host.history[i].alive == host.world.alive && host.history[i].routes == host.world.routes
    {
      hide Machine.Safe, Consistent, Working, Attached, FrontDoorIs, Started, RoleAlive;
      WorkingJournaled(cfg, started, host.world);
      var process;
      ok, process := Launch(SmartDNS, started);
      AttachedKept(cfg, old(host.world), host.world);
      OnlyFrontDoor(process, old(host.world), host.world);
      label launched:
      state := started.(smartDNS := process);
      WorkingIgnoresProgress(cfg, started, state, host.world);
      if ok {
        ok := RecordRunning(state);
        SameFrontDoorIs(process, old@launched(host.world), host.world);
        state := state.(lifecycle := Running);
        if ok {
          ReadyIsStarted(cfg, started, process, old(host.world), old@launched(host.world), host.world);
        }
      }
    }

    method RecordRunning(state: State) returns (ok: bool)
      requires host.Safe() && Working(cfg, state, host.world) && Attached(cfg, host.world)
      modifies host`world, host`history, host`signals
      ensures host.Safe() && host.history == old(host.history) + [host.world] && host.signals == old(host.signals)
      ensures host.world == if ok then old(host.world).(file := Some(state.(lifecycle := Running))) else old(host.world)
      ensures Attached(cfg, host.world)
      ensures !ok ==> Working(cfg, state.(lifecycle := Running), host.world)
    {
      hide Consistent, Working;
      WorkingJournaled(cfg, state, host.world);
      var running := state.(lifecycle := Running);
      WorkingIgnoresProgress(cfg, state, running, host.world);
      WorkingJournaled(cfg, running, host.world);
      WorkingIsConsistent(cfg, running, host.world);
      RunningRecorded(cfg, running, host.world);
      var kept;
      ok, kept := host.SaveState(running);
    }

    /** One service of a gateway that is being taken down. */
    method TakeDown(process: Tracked, state: State) returns (ok: bool)
      requires host.Safe() && Torn(state, host.world)
      modifies host`world, host`history, host`signals
      ensures host.Safe() && host.world == old(host.world).(alive := host.world.alive, attached := host.world.attached)
      ensures Torn(state, host.world) && Fewer(old(host.world), host.world)
      ensures host.world == old(host.world) || Stopped(process, old(host.world), host.world)
      ensures ok && process.pid > 0 ==> process.pid !in host.world.alive
      ensures TracksReliably(process, old(host.world)) ==> ok
      ensures host.history == old(host.history) + [host.world]
              || (host.history == old(host.history) && host.world == old(host.world))
      ensures OnlySignals(old(host.signals), host.signals, state.session)
    {
      hide Consistent, Torn;
      ok := StopTracked(process, state.session);
      TornSurvives(state, old(host.world), host.world);
    }

    /** Removes the kernel objects the state names. */
    method RestoreNetwork(state: State) returns (ok: bool)
      requires host.Safe() && Torn(state, host.world)
      modifies host`world, host`history, host`signals
      ensures host.Safe() && SameSetting(old(host.world), host.world) && host.world.file == old(host.world).file
      ensures host.world.alive == old(host.world).alive && Fewer(old(host.world), host.world)
      ensures Torn(state, host.world) && (ok ==> KernelClean(host.world))
      ensures host.history == old(host.history) + [host.world]
              || (host.history == old(host.history) && host.world == old(host.world))
      ensures state.snapshot.Some? ==> host.history == old(host.history) + [host.world]
      ensures host.signals == old(host.signals)
    {
      hide Consistent, Torn;
      if state.snapshot.None? {
        TornWithoutSnapshot(state, host.world);
        return true;
      }
      ok := host.Restore(state.snapshot.value);
      TornSurvives(state, old(host.world), host.world);
      if ok {
        RestoredIsClean(state, old(host.world), host.world);
      }
    }

    /** Takes services and kernel objects down, front door first. SmartDNS is gone from the first
        step on if it can be stopped and is the recorded one; a stray one outlives the network. */
    method Dismantle(state: State) returns (clean: bool)
      requires host.Safe() && Torn(state, host.world)
      modifies host`world, host`history, host`signals
      ensures host.Safe() && old(host.history) <= host.history
      ensures SameSetting(old(host.world), host.world) && host.world.file == old(host.world).file
      ensures OnlySignals(old(host.signals), host.signals, state.session)
      ensures Torn(state, host.world) && (clean ==> KernelClean(host.world) && ServicesGone(state, host.world))
      ensures Fewer(old(host.world), host.world)
      ensures (clean || host.Stoppable(SmartDNS)) && FrontDoorIs(state.smartDNS, old(host.world)) ==>
                NoFrontDoorSince(|old(host.history)|, host.history)
      ensures clean && !FrontDoorIs(state.smartDNS, old(host.world)) && old(host.world).routes != {} ==>
                ExposedSince(|old(host.history)|, host.history)
    {
      hide Machine.Safe, Consistent, Torn, Fewer, RoleAlive, KernelClean, FrontDoorIs, TracksLive, NoFrontDoorSince,
        ExposedSince;
      clean := TakeDown(state.smartDNS, state);
      FrontDoorStep(state.smartDNS, clean, old(host.world), host.world);
      StoppableFrontDoor(host.Stoppable(SmartDNS), state.smartDNS, old(host.world));
      label front:
      var rest := DismantleRest(state);
      SinceStep(old(host.history), old@front(host.history), host.history, old@front(host.world));
      FewerTwice(state.smartDNS, old(host.world), old@front(host.world), host.world);
      clean := clean && rest;
    }

    /** The network, then dnsmasq and mihomo. */
    method DismantleRest(state: State) returns (clean: bool)
      requires host.Safe() && Torn(state, host.world)
      modifies host`world, host`history, host`signals
      ensures host.Safe() && old(host.history) <= host.history
      ensures SameSetting(old(host.world), host.world) && host.world.file == old(host.world).file
      ensures OnlySignals(old(host.signals), host.signals, state.session)
      ensures Torn(state, host.world)
      ensures clean ==> KernelClean(host.world) && Gone(state.dnsmasq, host.world) && Gone(state.mihomo, host.world)
      ensures Fewer(old(host.world), host.world)
      ensures !RoleAlive(old(host.world), SmartDNS) ==> NoFrontDoorSince(|old(host.history)|, host.history)
      ensures clean && RoleAlive(old(host.world), SmartDNS) && old(host.world).routes != {} ==>
                ExposedSince(|old(host.history)|, host.history)
    {
      hide Machine.Safe, Consistent, Torn, Fewer, RoleAlive, KernelClean, TracksLive;
      TornHasSnapshot(state, host.world);
      var restored := RestoreNetwork(state);
      FewerFrontDoors(old(host.world), host.world);
      SameFrontDoor(old(host.world), host.world);
      label network:
      var stopped := TakeDown(state.dnsmasq, state);
      FewerFrontDoors(old@network(host.world), host.world);
      FewerTwice(state.dnsmasq, old(host.world), old@network(host.world), host.world);
      label resolver:
      clean := restored && stopped;
      stopped := TakeDown(state.mihomo, state);
      FewerFrontDoors(old@resolver(host.world), host.world);
      clean := clean && stopped;
      CleanStaysClean(old@network(host.world), host.world);
      FewerTwice(state.dnsmasq, old(host.world), old@resolver(host.world), host.world);
      if clean && RoleAlive(old(host.world), SmartDNS) && old(host.world).routes != {} {
        assert host.history[|old(host.history)|] == old@network(host.world);
      }
    }

    /** The durable record goes last, once nothing needs it. */
    method ClearState() returns (ok: bool)
      requires host.Safe() && KernelClean(host.world)
      modifies host`world, host`history, host`signals
      ensures host.Safe() && host.history == old(host.history) + [host.world] && host.signals == old(host.signals)
      ensures host.world == old(host.world) || host.world == old(host.world).(file := None)
      ensures ok ==> host.world.file.None?
    {
      var removed := host.RemoveState();
      // The policy snapshot file is removed as well; it is not part of this world.
      var other := host.Attempt();
      ok := removed && other;
    }

    /** `rollback`: always ends a failed start. A clean rollback leaves nothing of it. */
    method Rollback(cause: State) returns (clean: bool)
      requires host.Safe() && Working(cfg, cause, host.world)
      modifies host`world, host`history, host`signals
      ensures host.Safe() && old(host.history) <= host.history && SameSetting(old(host.world), host.world)
      ensures OnlySignals(old(host.signals), host.signals, host.world.session)
      ensures clean ==> host.world.file.None? && KernelClean(host.world) && ServicesGone(cause, host.world)
      ensures (clean || host.Stoppable(SmartDNS)) && FrontDoorIs(cause.smartDNS, old(host.world))
              && FrontDoorBacked(old(host.world), NeedsDNSMasq(cfg)) ==>
                FrontDoorKeptSince(|old(host.history)|, host.history, NeedsDNSMasq(cfg))
    {
      hide Machine.Safe, Consistent, Working, FrontDoorBacked, NoFrontDoorSince, FrontDoorKeptSince, FrontDoorIs,
        ExposedSince;
      SafeNow(host);
      var state := cause.(lifecycle := Cleanup);
      WorkingJournaled(cfg, cause, host.world);
      WorkingIgnoresProgress(cfg, cause, state, host.world);
      var recorded := Record(state);
      RecordingKeepsFront(old(host.world), host.world, old(host.history), host.history, NeedsDNSMasq(cfg));
      WorkingIsTorn(cfg, state, host.world);
      SameFrontDoorIs(state.smartDNS, old(host.world), host.world);
      label record:
      var dismantled := Dismantle(state);
      SafeNow(host);
      NoFrontIsKept(old@record(host.history), host.history, NeedsDNSMasq(cfg));
      KeptTwice(old(host.history), old@record(host.history), host.history, NeedsDNSMasq(cfg));
      clean := recorded && dismantled;
      if clean {
        label dismantle:
        clean := ClearState();
        RecordingKeepsFront(old@dismantle(host.world), host.world, old@dismantle(host.history), host.history,
          NeedsDNSMasq(cfg));
        LastIsBacked(old@dismantle(host.history), |old(host.history)|, NeedsDNSMasq(cfg));
        KeptTwice(old(host.history), old@dismantle(host.history), host.history, NeedsDNSMasq(cfg));
      }
    }

    /** From the first durable record to verified routing; stops at the first failure. */
    method BringUp(begun: State) returns (ok: bool, state: State)
      requires host.Safe() && Working(cfg, begun, host.world) && begun.lifecycle == Starting
      modifies host`world, host`history, host`signals
      ensures host.Safe() && Advanced(old(host.history), host.history, old(host.world), host.world)
      ensures host.signals == old(host.signals) && SameSetting(old(host.world), host.world)
      ensures Working(cfg, state, host.world) && state.lifecycle == Starting
      ensures begun.smartFrontend && ok ==> Ready(cfg, state, host.world)
    {
      hide Machine.Safe, Consistent, Working, Attached, LaterSince, Later, RoleAlive, TracksAs, MarkedRouting;
      ok, state := EnableForwarding(begun);
      label forwarding:
      if ok {
        ok, state := StartEngine(state);
      }
      Further(old(host.history), old@forwarding(host.history), host.history, old(host.world),
        old@forwarding(host.world), host.world);
      label engine:
      if ok {
        ok, state := StartResolver(state);
      }
      Further(old(host.history), old@engine(host.history), host.history, old(host.world), old@engine(host.world),
        host.world);
      label resolver:
      if ok {
        ok, state := RecordRecipe(state);
      }
      Further(old(host.history), old@resolver(host.history), host.history, old(host.world), old@resolver(host.world),
        host.world);
      label recipe:
      if ok && !cfg.sameLAN {
        ok, state := ApplyNAT(state);
      }
      Further(old(host.history), old@recipe(host.history), host.history, old(host.world), old@recipe(host.world),
        host.world);
      label nat_:
      if ok {
        ok, state := ApplyRouting(state);
      }
      Further(old(host.history), old@nat_(host.history), host.history, old(host.world), old@nat_(host.world),
        host.world);
      LaterKeepsTracked(state.mihomo, state.dnsmasq, old@engine(host.world), old@resolver(host.world));
      LaterKeepsTracked(state.mihomo, state.dnsmasq, old@resolver(host.world), old@recipe(host.world));
      LaterKeepsTracked(state.mihomo, state.dnsmasq, old@recipe(host.world), old@nat_(host.world));
      LaterKeepsTracked(state.mihomo, state.dnsmasq, old@nat_(host.world), host.world);
    }

    /** `startWithCommit`. */
    method Start() returns (ok: bool)
      requires host.Safe()
      modifies host`world, host`history, host`signals
      ensures host.Safe() && old(host.history) <= host.history && SameSetting(old(host.world), host.world)
      ensures OnlySignals(old(host.signals), host.signals, host.world.session)
      ensures ok ==> old(host.world).file.None? && Started(cfg, host.world)
      ensures old(host.world).file.Some? ==> !ok && host.world == old(host.world)
      ensures (ok || host.Stoppable(SmartDNS)) && FrontDoorBacked(old(host.world), NeedsDNSMasq(cfg)) ==>
                FrontDoorKeptSince(|old(host.history)|, host.history, NeedsDNSMasq(cfg))
    {
      hide Consistent, Working, LaterSince, Later, FrontDoorBacked, FrontDoorKeptSince, RoleAlive, Ready, Started,
        FrontDoorIs, TracksLive;
      NoRecordNoFrontDoor(host.world, NeedsDNSMasq(cfg));
      var state;
      ok, state := Begin();
      BegunKeepsFront(old(host.history), host.history, old(host.world), NeedsDNSMasq(cfg));
      if !ok { return; }
      label begun:
      ok, state := BringUp(state);
      AdvanceKeepsFront(old@begun(host.history), host.history, old@begun(host.world), host.world, NeedsDNSMasq(cfg));
      AdvanceOpensNoFront(old(host.world), old@begun(host.world), host.world);
      KeptTwice(old(host.history), old@begun(host.history), host.history, NeedsDNSMasq(cfg));
      label up:
      WorkingJournaled(cfg, state, host.world);
      if ok {
        ReadyRoles(cfg, state, host.world);
        ok, state := ExposeDNS(state);
        ExposureKeepsFront(old@up(host.history), host.history, old@up(host.world), host.world, NeedsDNSMasq(cfg));
        KeptTwice(old(host.history), old@up(host.history), host.history, NeedsDNSMasq(cfg));
      } else {
        NoFrontDoorIsAny(state.smartDNS, host.world);
      }
      if !ok {
        label failed:
        var _ := Rollback(state);
        KeptTwice(old(host.history), old@failed(host.history), host.history, NeedsDNSMasq(cfg));
      }
    }

    /** `cleanupInterruptedRuntime`: a record of another session. No pid of it is ever signalled. */
    method CleanupInterrupted(state: State) returns (ok: bool)
      requires host.Safe() && host.world.file == Some(state) && !BelongsTo(state, host.world.session)
      modifies host`world, host`history, host`signals
      ensures host.Safe() && old(host.history) <= host.history && SameSetting(old(host.world), host.world)
      ensures host.signals == old(host.signals)
      ensures ok ==> host.world.file.None?
      ensures KernelClean(host.world) && host.world.alive == old(host.world).alive
      ensures forall i :: |old(host.history)| <= i < |host.history| ==> host.history[i].alive == old(host.world).alive
    {
      StrangerIsClean(state, host.world);
      hide Machine.Safe, Consistent;
      if state.snapshot.Some? {
        ok := host.Attempt();
        if !ok { return; }
        ok := host.Restore(state.snapshot.value);
        CleanRestoreIsConsistent(old(host.world), host.world);
        if !ok { return; }
      }
      ok := ClearState();
    }

    /** `stop`. Success leaves neither record nor kernel objects. SmartDNS never outlives its data
        plane where it can be stopped and the record names it; where a stop succeeds, exactly then. */
    method Stop() returns (ok: bool)
      requires host.Safe()
      modifies host`world, host`history, host`signals
      ensures host.Safe() && old(host.history) <= host.history && SameSetting(old(host.world), host.world)
      ensures OnlySignals(old(host.signals), host.signals, host.world.session)
      ensures ok ==> host.world.file.None? && KernelClean(host.world)
      ensures ok && old(host.world).file.Some? && BelongsTo(old(host.world).file.value, host.world.session) ==>
                ServicesGone(old(host.world).file.value, host.world)
      ensures old(host.world).file.Some? && !BelongsTo(old(host.world).file.value, host.world.session) ==>
                host.signals == old(host.signals)
      ensures (ok || host.Stoppable(SmartDNS)) && FrontDoorBacked(old(host.world), NeedsDNSMasq(cfg))
              && !StrayFrontDoor(old(host.world)) ==>
                FrontDoorKeptSince(|old(host.history)|, host.history, NeedsDNSMasq(cfg))
      ensures ok && FrontDoorBacked(old(host.world), NeedsDNSMasq(cfg)) ==>
                (FrontDoorKeptSince(|old(host.history)|, host.history, NeedsDNSMasq(cfg))
                 <==> !StrayFrontDoor(old(host.world)))
    {
      hide Consistent, FrontDoorBacked, FrontDoorKeptSince, NoFrontDoorSince, Torn, FrontDoorIs, RoleAlive, BelongsTo,
        StrayFrontDoor, ExposedSince;
      BegunKeepsFront(host.history, host.history, host.world, NeedsDNSMasq(cfg));
      NoRecordNoFrontDoor(host.world, NeedsDNSMasq(cfg));
      NoFrontDoorNoStray(host.world);
      var prepared := host.Attempt();
      var loaded, existing := host.LoadState();
      var booted := host.Attempt();
      if !prepared || !loaded || (existing.Some? && !booted) {
        return false;
      }
      if existing.Some? && !BelongsTo(existing.value, host.world.session) {
        ok := CleanupInterrupted(existing.value);
        StillClosed(old(host.history), host.history, old(host.world), NeedsDNSMasq(cfg));
        return;
      }
      ok := host.Attempt();
      if !ok { return; }
      if existing.Some? {
        ok := TearDown(existing.value);
      } else {
        NoRecordIsClean(host.world);
      }
      if ok {
        label down:
        ok := ClearState();
        RecordingKeepsFront(old@down(host.world), host.world, old@down(host.history), host.history, NeedsDNSMasq(cfg));
        LastIsBacked(old@down(host.history), |old(host.history)|, NeedsDNSMasq(cfg));
        KeptTwice(old(host.history), old@down(host.history), host.history, NeedsDNSMasq(cfg));
        StillExposed(old@down(host.history), host.history, |old(host.history)|, NeedsDNSMasq(cfg));
      }
    }

    /** The teardown proper: first the durable mark, then the services and the network. */
    method TearDown(loaded: State) returns (clean: bool)
      requires host.Safe() && host.world.file == Some(loaded) && BelongsTo(loaded, host.world.session)
      modifies host`world, host`history, host`signals
      ensures host.Safe() && old(host.history) <= host.history && SameSetting(old(host.world), host.world)
      ensures OnlySignals(old(host.signals), host.signals, host.world.session)
      ensures clean ==>
                KernelClean(host.world) && ServicesGone(loaded, host.world) && |host.history| > |old(host.history)|
      ensures (clean || host.Stoppable(SmartDNS)) && FrontDoorBacked(old(host.world), NeedsDNSMasq(cfg))
              && FrontDoorIs(loaded.smartDNS, old(host.world)) ==>
                FrontDoorKeptSince(|old(host.history)|, host.history, NeedsDNSMasq(cfg))
      ensures clean && FrontDoorBacked(old(host.world), NeedsDNSMasq(cfg))
              && !FrontDoorIs(loaded.smartDNS, old(host.world)) ==>
                ExposedSince(|old(host.history)|, host.history)
    {
      hide Machine.Safe, Consistent, FrontDoorBacked, FrontDoorKeptSince, NoFrontDoorSince, Torn, FrontDoorIs,
        RoleAlive, ExposedSince;
      SafeNow(host);
      BegunKeepsFront(host.history, host.history, host.world, NeedsDNSMasq(cfg));
      if loaded.snapshot.None? && (loaded.forwardingApplied || loaded.natApplied || loaded.routingApplied) {
        return false;
      }
      var state := loaded.(lifecycle := Stopping);
      var recorded;
      recorded, state := host.SaveState(state);
      StoppingIsTorn(loaded, old(host.world));
      StaysSafe(host);
      RecordingKeepsFront(old(host.world), host.world, old(host.history), host.history, NeedsDNSMasq(cfg));
      SameFrontDoorIs(loaded.smartDNS, old(host.world), host.world);
      StrayHasRoutes(loaded.smartDNS, old(host.world), NeedsDNSMasq(cfg));
      if !recorded {
        return false;
      }
      label stopping:
      clean := Dismantle(state);
      NoFrontIsKept(old@stopping(host.history), host.history, NeedsDNSMasq(cfg));
      KeptTwice(old(host.history), old@stopping(host.history), host.history, NeedsDNSMasq(cfg));
      EarlierExposed(|old(host.history)|, |old@stopping(host.history)|, host.history);
    }

    /** `reload`: only a healthy gateway of this session is stopped and started again; a degraded
        one is left alone. */
    method Reload() returns (ok: bool)
      requires host.Safe()
      modifies host`world, host`history, host`signals
      ensures host.Safe() && old(host.history) <= host.history && SameSetting(old(host.world), host.world)
      ensures OnlySignals(old(host.signals), host.signals, host.world.session)
      ensures ok ==> Started(cfg, host.world)
      ensures !Reloadable(cfg, old(host.world)) ==>
                !ok && host.world == old(host.world) && host.history == old(host.history)
      ensures (ok || host.Stoppable(SmartDNS)) && FrontDoorBacked(old(host.world), NeedsDNSMasq(cfg))
              && !StrayFrontDoor(old(host.world)) ==>
                FrontDoorKeptSince(|old(host.history)|, host.history, NeedsDNSMasq(cfg))
    {
      hide Consistent, FrontDoorBacked, FrontDoorKeptSince, Attached, RoleAlive, Started, StrayFrontDoor;
      BegunKeepsFront(host.history, host.history, host.world, NeedsDNSMasq(cfg));
      var loaded, existing := host.LoadState();
      var booted := host.Attempt();
      if !loaded || existing.None? || !booted || !BelongsTo(existing.value, host.world.session) {
        return false;
      }
      var resolver := TrackedRunning(existing.value.dnsmasq);
      var frontDoor := TrackedRunning(existing.value.smartDNS);
      var engine := TrackedRunning(existing.value.mihomo);
      var candidate := host.Attempt();
      if (cfg.dhcpEnabled && !resolver) || !frontDoor || !engine || !candidate {
        return false;
      }
      ok := Stop();
      if ok {
        label stopped:
        ok := Start();
        LastIsKept(old(host.world), old(host.history), old@stopped(host.history), NeedsDNSMasq(cfg));
        KeptTwice(old(host.history), old@stopped(host.history), host.history, NeedsDNSMasq(cfg));
      }
    }

    /** `restartMihomo`. The running record is withdrawn before the process is touched, and
        written again only over routing that was reinstalled and verified. */
    method RestartMihomo() returns (ok: bool)
      requires host.Safe()
      modifies host`world, host`history, host`signals
      ensures host.Safe() && old(host.history) <= host.history && SameSetting(old(host.world), host.world)
      ensures OnlySignals(old(host.signals), host.signals, host.world.session)
      ensures ok ==> old(host.world).file.Some? && Repaired(old(host.world).file.value, host.world)
    {
      hide Machine.Safe, Consistent;
      var loaded, existing := host.LoadState();
      var booted := host.Attempt();
      if !loaded || existing.None? || !booted || !BelongsTo(existing.value, host.world.session) {
        return false;
      }
      var state := existing.value;
      if state.lifecycle !in {Legacy, Running} || (state.smartFrontend && state.smartDNS.pid == 0) {
        return false;
      }
      if state.smartFrontend {
        var frontDoor := TrackedRunning(state.smartDNS);
        var resolver := TrackedRunning(state.dnsmasq);
        if !frontDoor || (NeedsDNSMasq(cfg) && !resolver) {
          return false;
        }
      }
      // The profile digest comparison and the validation of the rendered configuration.
      ok := host.Attempt();
      if !ok { return; }
      var withdrawn;
      ok, withdrawn := StopEngine(state);
      if !ok { return; }
      // Archiving the old log.
      ok := host.Attempt();
      if !ok { return; }
      ok, withdrawn := ReplaceEngine(withdrawn);
      if !ok { return; }
      ok := ReattachEngine(withdrawn);
    }

    /** Writes a record that is true of the world. */
    method Rewrite(next: State) returns (ok: bool, kept: State)
      requires host.Safe() && Consistent(host.world.(file := Some(Journaled(next))))
      modifies host`world, host`history, host`signals
      ensures host.Safe() && kept == Journaled(next) && (host.durable ==> ok)
      ensures host.world == if ok then old(host.world).(file := Some(kept)) else old(host.world)
      ensures host.history == old(host.history) + [host.world] && host.signals == old(host.signals)
    {
      hide Consistent, Journaled;
      ok, kept := host.SaveState(next);
    }

    /** Signals a process under a withdrawn record. */
    method KillWithdrawn(pid: nat, state: State) returns (ok: bool)
      requires host.Safe() && host.world.file == Some(state) && Withdrawn(state, host.world)
      modifies host`world, host`history, host`signals
      ensures host.Safe() && Withdrawn(state, host.world) && (ok ==> pid !in host.world.alive)
      ensures pid in old(host.world).alive && old(host.world).alive[pid].role in host.obedient ==> ok
      ensures host.world == old(host.world)
              || (pid in old(host.world).alive && host.world == Without(old(host.world), pid))
      ensures host.history == old(host.history) + [host.world]
      ensures OnlySignals(old(host.signals), host.signals, host.world.session)
    {
      hide Consistent, Withdrawn;
      WithdrawnSession(state, host.world);
      ok := host.Kill(pid, state.session);
      WithdrawnSurvives(state, old(host.world), host.world);
    }

    /** Withdraws the record, then stops the old process; puts the record back if it survived. */
    method StopEngine(state: State) returns (ok: bool, withdrawn: State)
      requires host.Safe() && host.world.file == Some(state) && BelongsTo(state, host.world.session)
      modifies host`world, host`history, host`signals
      ensures host.Safe() && old(host.history) <= host.history && SameSetting(old(host.world), host.world)
      ensures OnlySignals(old(host.signals), host.signals, host.world.session)
      ensures ok ==>
                host.world.file == Some(withdrawn) && Withdrawn(withdrawn, host.world) && SameRecipe(state, withdrawn)
      ensures ok && state.mihomo.pid > 0 ==> state.mihomo.pid !in host.world.alive
      ensures host.durable && Mihomo in host.answering && !ok && TracksAs(state.mihomo, Mihomo, host.world) ==>
                RecordedAgain(state, host.world)
    {
      hide Consistent, Withdrawn;
      withdrawn := state.(mihomo := UNTRACKED, routingApplied := false);
      WithdrawingIsConsistent(state, withdrawn, host.world);
      ok, withdrawn := Rewrite(withdrawn);
      if !ok { return; }
      label saved:
      ok := StopTracked(state.mihomo, state.session);
      WithdrawnSurvives(withdrawn, old@saved(host.world), host.world);
      if !ok {
        RecordSurvivor(state, withdrawn, old(host.world), old@saved(host.world));
      }
    }

    /** Puts the record back for a mihomo that survived its stop. */
    method RecordSurvivor(state: State, withdrawn: State, ghost first: World, ghost saved: World)
      requires host.Safe() && Consistent(first) && first.file == Some(state) && BelongsTo(state, first.session)
      requires withdrawn == Journaled(state.(mihomo := UNTRACKED, routingApplied := false))
      requires saved == first.(file := Some(withdrawn))
      requires host.world == saved || (state.mihomo.pid in saved.alive
                                       && host.world == Without(saved, state.mihomo.pid))
      modifies host`world, host`history, host`signals
      ensures host.Safe() && old(host.history) <= host.history && SameSetting(old(host.world), host.world)
      ensures host.signals == old(host.signals) && host.world.alive == old(host.world).alive
      ensures host.durable && Mihomo in host.answering && TracksAs(state.mihomo, Mihomo, host.world) ==>
                RecordedAgain(state, host.world)
    {
      hide Machine.Safe, Consistent, JournalCovers, BelongsTo;
      var survived := TrackedRunning(state.mihomo);
      var restored := if survived then withdrawn.(mihomo := state.mihomo, routingApplied := state.routingApplied)
      else withdrawn;
      SurvivorIsConsistent(state, withdrawn, survived, first, saved, host.world);
      WithdrawnIsConsistent(state, withdrawn, first, saved, host.world);
      var _, _ := Rewrite(restored);
    }

    /** Starts the replacement; a process that cannot be recorded is stopped again. */
    method ReplaceEngine(state: State) returns (ok: bool, replaced: State)
      requires host.Safe() && host.world.file == Some(state) && Withdrawn(state, host.world)
      modifies host`world, host`history, host`signals
      ensures host.Safe() && old(host.history) <= host.history && SameSetting(old(host.world), host.world)
      ensures OnlySignals(old(host.signals), host.signals, host.world.session)
      ensures ok ==> host.world.file == Some(replaced) && Withdrawn(replaced, host.world) && SameRecipe(state, replaced)
      ensures ok ==> TracksAs(replaced.mihomo, Mihomo, host.world)
      ensures !ok && Mihomo in host.obedient ==> host.world.alive == old(host.world).alive
    {
      hide Machine.Safe, Consistent, Withdrawn, OnlySignals, Journaled;
      replaced := state;
      var pid;
      ok, pid := host.Spawn(Mihomo);
      OneSignal(old(host.signals), host.signals, pid, host.world.session);
      WithdrawnSurvives(state, old(host.world), host.world);
      StaysSafe(host);
      if !ok { return; }
      var identified, fingerprint := host.Fingerprint(pid);
      if !identified || fingerprint.None? {
        var _ := KillWithdrawn(pid, state);
        return false, replaced;
      }
      replaced := state.(mihomo := Tracked(pid, fingerprint));
      WithdrawnRecorded(state, replaced, host.world);
      ok, replaced := Rewrite(replaced);
      if !ok {
        var _ := KillWithdrawn(pid, state);
      }
    }

    /** `reapplyPolicyRouting` and the final record; on failure the replacement is stopped. */
    method ReattachEngine(state: State) returns (ok: bool)
      requires host.Safe() && host.world.file == Some(state) && Withdrawn(state, host.world)
      requires TracksAs(state.mihomo, Mihomo, host.world)
      modifies host`world, host`history, host`signals
      ensures host.Safe() && old(host.history) <= host.history && SameSetting(old(host.world), host.world)
      ensures OnlySignals(old(host.signals), host.signals, host.world.session)
      ensures ok ==> Repaired(state, host.world)
    {
      hide Machine.Safe, Consistent, Withdrawn, OnlySignals;
      var recipe;
      ok, recipe := ReapplyRouting(state);
      OneSignal(old(host.signals), host.signals, 0, host.world.session);
      if !ok {
        var stopped := KillWithdrawn(state.mihomo.pid, state);
        var degraded := if stopped then state.(mihomo := UNTRACKED) else state;
        WithdrawnRecorded(state, degraded, host.world);
        var _, _ := Rewrite(degraded);
        return false;
      }
      RepairIsConsistent(state, recipe, host.world);
      var repaired;
      ok, repaired := Rewrite(RepairedState(state, recipe));
    }

    /** `reapplyPolicyRouting`: the persisted recipe, with the TUN the new process created. */
    method ReapplyRouting(state: State) returns (ok: bool, recipe: RoutingRecipe)
      requires host.Safe() && host.world.file == Some(state) && Withdrawn(state, host.world)
      modifies host`world, host`history, host`signals
      ensures host.Safe() && old(host.history) <= host.history && SameSetting(old(host.world), host.world)
      ensures host.signals == old(host.signals)
      ensures host.world.file == Some(state) && Withdrawn(state, host.world)
              && host.world.alive == old(host.world).alive
      ensures ok ==>
                state.snapshot.Some? && state.snapshot.value.routing.Some?
                && SameButTUN(state.snapshot.value.routing.value, recipe)
      ensures ok ==> Installable(recipe) && host.world.attached == Some(Key(recipe)) && Key(recipe) in host.world.routes
    {
      hide Consistent, Withdrawn;
      // The network backend.
      ok := host.Attempt();
      recipe := RoutingRecipe(0, 0, FWMark, 0, "", false);
      if !ok || state.snapshot.None? || state.snapshot.value.routing.None? {
        return false, recipe;
      }
      recipe := state.snapshot.value.routing.value;
      if !recipe.directFallback {
        var requested := if Trim(recipe.tun) != "" then Trim(recipe.tun) else Trim(cfg.tun);
        if requested == "" {
          return false, recipe;
        }
        var tun;
        ok, tun := host.WaitForTUN(requested);
        if !ok { return; }
        recipe := recipe.(tun := tun);
      }
      ok := host.SetupPolicyRouting(recipe);
      WithdrawnTakesRoutes(state, recipe, old(host.world), host.world);
      if !ok { return; }
      label verify:
      ok := host.VerifyPolicyRouting(recipe);
      WithdrawnSurvives(state, old@verify(host.world), host.world);
    }

    /** `restartDNSMasq`: touches neither routing nor mihomo. A recorded pid that mihomo has taken
        over is told apart by its fingerprint. */
    method RestartDNSMasq() returns (ok: bool)
      requires host.Safe()
      requires host.world.file.Some? ==> NotMihomo(host.world.file.value.dnsmasq, host.world)
      modifies host`world, host`history, host`signals
      ensures host.Safe() && old(host.history) <= host.history && SameSetting(old(host.world), host.world)
      ensures OnlySignals(old(host.signals), host.signals, host.world.session)
      ensures ok ==> host.world.file.Some? && TracksAs(host.world.file.value.dnsmasq, DNSMasq, host.world)
      ensures host.world.routes == old(host.world).routes && host.world.attached == old(host.world).attached
    {
      hide Machine.Safe, Consistent;
      SafeNow(host);
      var loaded, existing := host.LoadState();
      var ready := host.Attempt();
      if !loaded || existing.None? || !ready || !BelongsTo(existing.value, host.world.session) {
        return false;
      }
      var previous := existing.value.dnsmasq;
      var wasRunning := TrackedRunning(previous);
      var state := existing.value.(dnsmasq := UNTRACKED);
      ResolverFieldIsFree(existing.value, state, host.world);
      ok, state := Rewrite(state);
      if !ok { return; }
      if wasRunning {
        ok := StopResolver(state, previous);
        if !ok { return; }
      }
      ok := ReplaceResolver(state);
    }

    /** Stops the old resolver; records it again if it survived. */
    method StopResolver(state: State, previous: Tracked) returns (ok: bool)
      requires host.Safe() && host.world.file == Some(state) && state.session == host.world.session
      requires NotMihomo(previous, host.world)
      modifies host`world, host`history, host`signals
      ensures host.Safe() && old(host.history) <= host.history && SameSetting(old(host.world), host.world)
      ensures OnlySignals(old(host.signals), host.signals, host.world.session)
      ensures ok ==> host.world.file == Some(state)
      ensures host.world.routes == old(host.world).routes && host.world.attached == old(host.world).attached
    {
      hide Machine.Safe, Consistent, NotMihomo, Stopped, TracksLive, Journaled, OnlySignals;
      SafeNow(host);
      ok := StopTracked(previous, state.session);
      OneSignal(old(host.signals), host.signals, previous.pid, state.session);
      OtherIsStopped(previous, old(host.world), host.world);
      StaysSafe(host);
      if !ok {
        var survived := TrackedRunning(previous);
        var restored := if survived then state.(dnsmasq := previous) else state;
        ResolverFieldIsFree(state, restored, host.world);
        var _, _ := Rewrite(restored);
      }
    }

    method ReplaceResolver(state: State) returns (ok: bool)
      requires host.Safe() && host.world.file == Some(state) && state.session == host.world.session
      modifies host`world, host`history, host`signals
      ensures host.Safe() && old(host.history) <= host.history && SameSetting(old(host.world), host.world)
      ensures OnlySignals(old(host.signals), host.signals, host.world.session)
      ensures ok ==> host.world.file.Some? && TracksAs(host.world.file.value.dnsmasq, DNSMasq, host.world)
      ensures !ok && DNSMasq in host.obedient ==> host.world.alive == old(host.world).alive
      ensures host.world.routes == old(host.world).routes && host.world.attached == old(host.world).attached
    {
      hide Consistent, Journaled;
      // Archiving the old log; a topology without dnsmasq yields no replacement.
      ok := host.Attempt();
      if !ok || !NeedsDNSMasq(cfg) {
        return false;
      }
      var pid;
      ok, pid := host.Spawn(DNSMasq);
      OtherProcessesAreFree(old(host.world), host.world);
      if ok {
        ok := RecordResolver(state, pid);
      }
    }

    /** Identifies and records the new resolver; one that cannot be is stopped again. */
    method RecordResolver(state: State, pid: nat) returns (ok: bool)
      requires host.Safe() && host.world.file == Some(state) && state.session == host.world.session
      requires pid > 0 && pid in host.world.alive && host.world.alive[pid].role == DNSMasq
      modifies host`world, host`history, host`signals
      ensures host.Safe() && old(host.history) <= host.history && SameSetting(old(host.world), host.world)
      ensures OnlySignals(old(host.signals), host.signals, host.world.session)
      ensures ok ==> host.world.file.Some? && TracksAs(host.world.file.value.dnsmasq, DNSMasq, host.world)
      ensures !ok && DNSMasq in host.obedient ==> host.world.alive == old(host.world).alive - {pid}
      ensures host.world.routes == old(host.world).routes && host.world.attached == old(host.world).attached
    {
      hide Consistent;
      var identified, fingerprint := host.Fingerprint(pid);
      ok := identified && fingerprint.Some?;
      if ok {
        var replaced := state.(dnsmasq := Tracked(pid, fingerprint));
        ResolverFieldIsFree(state, replaced, host.world);
        ok, replaced := Rewrite(replaced);
      }
      if !ok {
        label unsaved:
        var _ := host.Kill(pid, state.session);
        OtherProcessesAreFree(old@unsaved(host.world), host.world);
      }
    }
  }

  /** The record does not mistake mihomo for another service: whoever holds the pid is somebody
      else, or the fingerprint tells. */
  predicate NotMihomo(process: Tracked, w: World) {
    TracksLive(process, w) ==> !w.alive[process.pid].role.Mihomo?
  }

  /** A record of this session that covers the kernel and claims no working routing. */
  predicate Withdrawn(state: State, w: World) {
    && BelongsTo(state, w.session) && !state.routingApplied && Journaled(state) == state
    && (KernelClean(w) || Covers(state, w))
  }

  /** The record names the mihomo that survived, with the routing claim it had. */
  predicate RecordedAgain(state: State, w: World) {
    w.file.Some? && w.file.value.mihomo == state.mihomo && w.file.value.routingApplied == state.routingApplied
  }

  predicate SameRecipe(a: State, b: State) {
    && (a.snapshot.Some? <==> b.snapshot.Some?)
    && (a.snapshot.Some? ==> a.snapshot.value.routing == b.snapshot.value.routing)
    && a.lifecycle == b.lifecycle
  }

  predicate SameButTUN(a: RoutingRecipe, b: RoutingRecipe) {
    b == a.(tun := b.tun)
  }

  function RepairedState(state: State, recipe: RoutingRecipe): State
    requires state.snapshot.Some?
  {
    state.(tun := recipe.tun, routingApplied := true,
      snapshot := Some(state.snapshot.value.(routing := Some(recipe),
                                             applied := state.snapshot.value.applied.(routing := true))))
  }

  /** The durable record says routing is applied, and the routing of its recipe was verified since. */
  predicate Repaired(before: State, w: World) {
    && w.file.Some? && w.file.value.routingApplied && w.file.value.lifecycle == before.lifecycle
    && TracksAs(w.file.value.mihomo, Mihomo, w)
    && before.snapshot.Some? && before.snapshot.value.routing.Some?
    && w.attached == Some(Key(before.snapshot.value.routing.value))
       && Key(before.snapshot.value.routing.value) in w.routes
  }

  lemma WithdrawingIsConsistent(state: State, withdrawn: State, w: World)
    requires Consistent(w) && w.file == Some(state) && BelongsTo(state, w.session)
    requires withdrawn == state.(mihomo := UNTRACKED, routingApplied := false)
    ensures var saved := w.(file := Some(Journaled(withdrawn)));
            Consistent(saved) && Withdrawn(Journaled(withdrawn), saved)
  {
  }

  lemma WithdrawnSurvives(state: State, before: World, after: World)
    requires Withdrawn(state, before) && before.file == Some(state)
    requires after == before.(alive := after.alive, attached := after.attached)
    ensures Withdrawn(state, after) && Consistent(after)
  {
  }

  lemma WithdrawnSession(state: State, w: World)
    requires Withdrawn(state, w)
    ensures state.session == w.session
  {
  }

  lemma WithdrawnRecorded(state: State, next: State, w: World)
    requires Withdrawn(state, w) && next == state.(mihomo := next.mihomo)
    ensures Journaled(next) == next && Withdrawn(next, w.(file := Some(next))) && Consistent(w.(file := Some(next)))
  {
  }

  lemma WithdrawnTakesRoutes(state: State, recipe: RoutingRecipe, before: World, after: World)
    requires Withdrawn(state, before) && before.file == Some(state)
    requires state.snapshot.Some? && state.snapshot.value.routing.Some?
             && SameButTUN(state.snapshot.value.routing.value, recipe)
    requires after == before || (Installable(recipe)
                                 && after == before.(routes := before.routes + {Key(recipe)}, attached := None))
    ensures Withdrawn(state, after) && Consistent(after)
  {
  }

  /** A mihomo that survived the failed stop was never detached, so its old record is still true. */
  lemma SurvivorIsConsistent(state: State, withdrawn: State, survived: bool, first: World, saved: World, now: World)
    requires Consistent(first) && first.file == Some(state) && BelongsTo(state, first.session)
    requires withdrawn == Journaled(state.(mihomo := UNTRACKED, routingApplied := false))
    requires saved == first.(file := Some(withdrawn))
    requires now == saved || (state.mihomo.pid in saved.alive && now == Without(saved, state.mihomo.pid))
    requires survived ==> state.mihomo.pid in now.alive
    ensures var restored := if survived then withdrawn.(mihomo := state.mihomo,
                routingApplied := state.routingApplied) else withdrawn;
            Consistent(now.(file := Some(Journaled(restored))))
  {
    hide Consistent;
    if survived {
      ResolverFieldIsFree(state, state, first);
      var recorded := first.(file := Some(Journaled(state)));
      assert Journaled(withdrawn.(mihomo := state.mihomo, routingApplied := state.routingApplied)) == Journaled(state);
      OtherProcessesAreFree(recorded, recorded.(alive := now.alive));
    } else {
      assert Journaled(withdrawn) == withdrawn;
      WithdrawnIsConsistent(state, withdrawn, first, saved, now);
    }
  }

  lemma WithdrawnIsConsistent(state: State, withdrawn: State, first: World, saved: World, now: World)
    requires Consistent(first) && first.file == Some(state) && BelongsTo(state, first.session)
    requires withdrawn == Journaled(state.(mihomo := UNTRACKED, routingApplied := false))
    requires saved == first.(file := Some(withdrawn))
    requires now == saved || (state.mihomo.pid in saved.alive && now == Without(saved, state.mihomo.pid))
    ensures Consistent(now)
  {
  }

  lemma RepairIsConsistent(state: State, recipe: RoutingRecipe, w: World)
    requires Withdrawn(state, w) && state.snapshot.Some? && state.snapshot.value.routing.Some?
    requires SameButTUN(state.snapshot.value.routing.value, recipe)
    requires Installable(recipe) && w.attached == Some(Key(recipe)) && Key(recipe) in w.routes
    ensures Consistent(w.(file := Some(Journaled(RepairedState(state, recipe)))))
  {
  }

  /** Which resolver is recorded has no bearing on journal or routing. */
  lemma ResolverFieldIsFree(state: State, next: State, w: World)
    requires Consistent(w) && w.file == Some(state) && next == state.(dnsmasq := next.dnsmasq)
    ensures Consistent(w.(file := Some(Journaled(next))))
  {
  }

  lemma OtherProcessesAreFree(before: World, after: World)
    requires Consistent(before) && after == before.(alive := after.alive)
    ensures Consistent(after)
  {
  }

  lemma OtherIsStopped(process: Tracked, before: World, after: World)
    requires Consistent(before) && NotMihomo(process, before)
    requires after == before || Stopped(process, before, after)
    ensures Consistent(after) && after == before.(alive := after.alive)
  {
    hide Consistent;
    OtherProcessesAreFree(before, after);
  }

  /** What a restart of dnsmasq needs of a running record: stopping the recorded resolver keeps the
      journal true if and only if the pid is not mihomo's. */
  lemma MistakenResolver(state: State, w: World)
    requires Consistent(w) && w.file == Some(state) && state.session == w.session
    requires state.lifecycle.Running? && state.routingApplied && TracksLive(state.dnsmasq, w)
    ensures var saved := w.(file := Some(Journaled(state.(dnsmasq := UNTRACKED))));
            Consistent(Without(saved, state.dnsmasq.pid)) <==> NotMihomo(state.dnsmasq, w)
  {
    var next := state.(dnsmasq := UNTRACKED);
    ResolverFieldIsFree(state, next, w);
    if NotMihomo(state.dnsmasq, w) {
      var saved := w.(file := Some(Journaled(next)));
      OtherProcessesAreFree(saved, Without(saved, state.dnsmasq.pid));
    }
  }

  /** `BelongsToBoot`: the record's boot and network namespace are the current ones. */
  predicate BelongsTo(state: State, session: nat) {
    state.session == session && (state.snapshot.Some? ==> state.snapshot.value.session == session)
  }

  predicate FrontDoorKeptSince(from: nat, history: seq<World>, needsDNSMasq: bool) {
    forall i :: from <= i < |history| ==> FrontDoorBacked(history[i], needsDNSMasq)
  }

  /** What `Status` calls a running gateway with an active runtime. */
  predicate Healthy(cfg: Config, w: World) {
    && w.file.Some? && BelongsTo(w.file.value, w.session)
    && w.file.value.lifecycle in {Legacy, Running}
    && TracksLive(w.file.value.mihomo, w)
    && (NeedsDNSMasq(cfg) ==> TracksLive(w.file.value.dnsmasq, w))
    && (TracksLive(w.file.value.smartDNS, w) || (!w.file.value.smartFrontend && TracksLive(w.file.value.dnsmasq, w)))
    && (w.file.value.snapshot.Some? && w.file.value.snapshot.value.routing.Some? ==>
          w.file.value.routingApplied && w.file.value.snapshot.value.applied.routing
          && Key(w.file.value.snapshot.value.routing.value) in w.routes)
  }

  /** What a successful start leaves: a healthy gateway with a durable running record of this
      session that names its services, and attached routing. */
  predicate Started(cfg: Config, w: World) {
    && Healthy(cfg, w) && w.file.value.lifecycle.Running? && w.file.value.forwardingApplied
       && w.file.value.routingApplied
    && (cfg.sameLAN || (w.file.value.natApplied && cfg.nftTable in w.tables))
    && Attached(cfg, w)
    && TracksAs(w.file.value.mihomo, Mihomo, w)
    && TracksAs(w.file.value.smartDNS, SmartDNS, w)
    && (NeedsDNSMasq(cfg) ==> TracksAs(w.file.value.dnsmasq, DNSMasq, w))
  }

  predicate MarkedRouting(state: State) {
    state.snapshot.Some? && state.snapshot.value.routing.Some? && state.snapshot.value.applied.routing
  }

  /** Everything is up but SmartDNS, and the state names it. */
  predicate Ready(cfg: Config, state: State, w: World) {
    && state.forwardingApplied && state.routingApplied && state.smartFrontend && Attached(cfg, w)
       && MarkedRouting(state)
    && (cfg.sameLAN || (state.natApplied && cfg.nftTable in w.tables))
    && TracksAs(state.mihomo, Mihomo, w)
    && (NeedsDNSMasq(cfg) ==> TracksAs(state.dnsmasq, DNSMasq, w))
  }

  lemma ReadyRoles(cfg: Config, state: State, w: World)
    requires Ready(cfg, state, w)
    ensures RoleAlive(w, Mihomo) && (NeedsDNSMasq(cfg) ==> RoleAlive(w, DNSMasq)) && w.routes != {}
  {
  }

  lemma ReadyIsStarted(cfg: Config, ready: State, process: Tracked, before: World, launched: World, after: World)
    requires Ready(cfg, ready, before) && Working(cfg, ready, before)
    requires Joined(before, launched, process.pid, SmartDNS) && TracksAs(process, SmartDNS, launched)
    requires after == launched.(file := Some(ready.(smartDNS := process, lifecycle := Running)))
    ensures Started(cfg, after)
  {
  }

  /** A SmartDNS that joined a world without one is the only one. */
  lemma OnlyFrontDoor(process: Tracked, before: World, after: World)
    requires after == before || (Joined(before, after, process.pid, SmartDNS) && TracksAs(process, SmartDNS, after))
    ensures !RoleAlive(before, SmartDNS) ==> FrontDoorIs(process, after)
  {
  }

  /** Only later worlds were added to the past. */
  predicate Advanced(h0: seq<World>, h1: seq<World>, w0: World, w1: World) {
    h0 <= h1 && LaterSince(h0, h1, w0) && Later(w0, w1)
  }

  lemma Further(h0: seq<World>, h1: seq<World>, h2: seq<World>, w0: World, w1: World, w2: World)
    requires Advanced(h0, h1, w0, w1) && ((h1 == h2 && w1 == w2) || Advanced(h1, h2, w1, w2))
    ensures Advanced(h0, h2, w0, w2)
  {
    forall i | |h0| <= i < |h2| ensures Later(w0, h2[i]) {
      if i < |h1| {
        assert h2[i] == h1[i];
      } else {
        LaterIsTransitive(w0, w1, h2[i]);
      }
    }
    if Advanced(h1, h2, w1, w2) {
      LaterIsTransitive(w0, w1, w2);
    }
  }

  lemma LaterKeepsRoles(before: World, after: World, role: Role)
    ensures Later(before, after) && RoleAlive(before, role) ==> RoleAlive(after, role)
  {
    if Later(before, after) && RoleAlive(before, role) {
      var pid :| pid in before.alive && before.alive[pid].role == role;
      assert pid in after.alive;
    }
  }

  lemma LaterKeepsTracked(engine: Tracked, resolver: Tracked, before: World, after: World)
    ensures Later(before, after) && TracksAs(engine, Mihomo, before) ==> TracksAs(engine, Mihomo, after)
    ensures Later(before, after) && TracksAs(resolver, DNSMasq, before) ==> TracksAs(resolver, DNSMasq, after)
  {
  }

  lemma LaterIsBacked(before: World, after: World, needsDNSMasq: bool)
    requires Later(before, after) && FrontDoorBacked(before, needsDNSMasq)
    ensures FrontDoorBacked(after, needsDNSMasq)
  {
    LaterKeepsRoles(before, after, Mihomo);
    LaterKeepsRoles(before, after, DNSMasq);
  }

  lemma AdvanceKeepsFront(h0: seq<World>, h1: seq<World>, w0: World, w1: World, needsDNSMasq: bool)
    requires Advanced(h0, h1, w0, w1)
    ensures FrontDoorBacked(w0, needsDNSMasq) ==>
              FrontDoorKeptSince(|h0|, h1, needsDNSMasq) && FrontDoorBacked(w1, needsDNSMasq)
  {
    hide FrontDoorBacked, Later;
    if FrontDoorBacked(w0, needsDNSMasq) {
      LaterIsBacked(w0, w1, needsDNSMasq);
      forall i | |h0| <= i < |h1| ensures FrontDoorBacked(h1[i], needsDNSMasq) {
        LaterIsBacked(w0, h1[i], needsDNSMasq);
      }
    }
  }

  lemma KeptTwice(h0: seq<World>, h1: seq<World>, h2: seq<World>, needsDNSMasq: bool)
    requires h0 <= h1 <= h2
    ensures FrontDoorKeptSince(|h0|, h1, needsDNSMasq) && FrontDoorKeptSince(|h1|, h2, needsDNSMasq)
      ==> FrontDoorKeptSince(|h0|, h2, needsDNSMasq)
  {
    hide FrontDoorBacked;
  }

  lemma NoFrontIsKept(h0: seq<World>, h1: seq<World>, needsDNSMasq: bool)
    ensures NoFrontDoorSince(|h0|, h1) ==> FrontDoorKeptSince(|h0|, h1, needsDNSMasq)
  {
    hide RoleAlive;
  }

  /** Writing or removing a file exposes nothing. */
  lemma RecordingKeepsFront(before: World, after: World, h0: seq<World>, h1: seq<World>, needsDNSMasq: bool)
    requires h1 == h0 + [after] && after.alive == before.alive && after.routes == before.routes
    ensures FrontDoorBacked(before, needsDNSMasq) ==>
              FrontDoorKeptSince(|h0|, h1, needsDNSMasq) && FrontDoorBacked(after, needsDNSMasq)
  {
  }

  lemma LastIsBacked(history: seq<World>, from: nat, needsDNSMasq: bool)
    ensures from < |history| && FrontDoorKeptSince(from, history, needsDNSMasq) ==>
      FrontDoorBacked(history[|history| - 1], needsDNSMasq)
  {
  }

  lemma BegunKeepsFront(h0: seq<World>, h1: seq<World>, w: World, needsDNSMasq: bool)
    requires forall i :: |h0| <= i < |h1| ==> h1[i].alive == w.alive && h1[i].routes == w.routes
    ensures FrontDoorBacked(w, needsDNSMasq) ==> FrontDoorKeptSince(|h0|, h1, needsDNSMasq)
    ensures forall after: World :: after.alive == w.alive && after.routes == w.routes ==>
      (FrontDoorBacked(w, needsDNSMasq) <==> FrontDoorBacked(after, needsDNSMasq))
  {
    forall i | |h0| <= i < |h1| ensures FrontDoorBacked(w, needsDNSMasq) <==> FrontDoorBacked(h1[i], needsDNSMasq) {
    }
  }

  /** SmartDNS joins a world whose data plane is complete. */
  lemma ExposureKeepsFront(h0: seq<World>, h1: seq<World>, w0: World, w1: World, needsDNSMasq: bool)
    requires RoleAlive(w0, Mihomo) && (needsDNSMasq ==> RoleAlive(w0, DNSMasq)) && w1.routes == w0.routes
             && w0.routes != {}
    requires forall pid :: pid in w0.alive ==> pid in w1.alive && w1.alive[pid] == w0.alive[pid]
    requires forall i :: |h0| <= i < |h1| ==> h1[i].alive == w1.alive && h1[i].routes == w1.routes
    ensures FrontDoorKeptSince(|h0|, h1, needsDNSMasq) && FrontDoorBacked(w1, needsDNSMasq)
    ensures RoleAlive(w1, Mihomo) && (needsDNSMasq ==> RoleAlive(w1, DNSMasq))
  {
    var pid :| pid in w0.alive && w0.alive[pid].role == Mihomo;
    assert pid in w1.alive && w1.alive[pid].role == Mihomo;
    if needsDNSMasq {
      var resolver :| resolver in w0.alive && w0.alive[resolver].role == DNSMasq;
      assert resolver in w1.alive && w1.alive[resolver].role == DNSMasq;
    }
  }

  lemma StrangerIsClean(state: State, w: World)
    requires Consistent(w) && w.file == Some(state) && !BelongsTo(state, w.session)
    ensures KernelClean(w)
  {
  }

  lemma NoRecordIsClean(w: World)
    requires Consistent(w) && w.file.None?
    ensures KernelClean(w)
  {
  }

  lemma CleanRestoreIsConsistent(before: World, after: World)
    requires Consistent(before) && KernelClean(before)
    requires after == before.(routes := after.routes, tables := after.tables, attached := after.attached)
    requires after.routes <= before.routes && after.tables <= before.tables
    ensures Consistent(after) && KernelClean(after)
  {
  }

  lemma StoppingIsTorn(loaded: State, w: World)
    requires Consistent(w) && w.file == Some(loaded) && BelongsTo(loaded, w.session)
    ensures var state := Journaled(loaded.(lifecycle := Stopping));
            Torn(state, w.(file := Some(state))) && Consistent(w.(file := Some(state))) && state.session == w.session
  {
  }

  lemma WorkingIsTorn(cfg: Config, state: State, w: World)
    requires Working(cfg, state, w)
    ensures Torn(state, w)
  {
  }

  /** Nothing joined: a teardown step only removes. */
  predicate Fewer(before: World, after: World) {
    && after.routes <= before.routes && after.tables <= before.tables
    && forall pid :: pid in after.alive ==> pid in before.alive && after.alive[pid] == before.alive[pid]
  }

  /** `state` names all kernel objects, the durable record does too, and it does not claim to be running. */
  predicate Torn(state: State, w: World) {
    && (KernelClean(w) || (Covers(state, w) && w.file.Some? && Covers(w.file.value, w)))
    && (w.file.Some? && w.file.value.session == w.session ==> !w.file.value.lifecycle.Running?)
    && state.session == w.session && (state.snapshot.Some? ==> state.snapshot.value.session == w.session)
  }

  predicate Gone(process: Tracked, w: World) {
    process.pid > 0 ==> process.pid !in w.alive
  }

  /** None of the services that the record names is alive. */
  predicate ServicesGone(state: State, w: World) {
    Gone(state.smartDNS, w) && Gone(state.dnsmasq, w) && Gone(state.mihomo, w)
  }

  /** The recorded process was alive, and it is gone. */
  predicate Stopped(process: Tracked, before: World, after: World) {
    TracksLive(process, before) && after == Without(before, process.pid)
  }

  /** Since this point SmartDNS was seen alive without any routing behind it. */
  predicate ExposedSince(from: nat, history: seq<World>) {
    exists i :: from <= i < |history| && RoleAlive(history[i], SmartDNS) && history[i].routes == {}
  }

  /** What stopping the recorded SmartDNS does: no other one is touched. */
  lemma FrontDoorStep(process: Tracked, ok: bool, before: World, after: World)
    requires after == before || Stopped(process, before, after)
    requires ok && process.pid > 0 ==> process.pid !in after.alive
    ensures ok && FrontDoorIs(process, before) ==> !RoleAlive(after, SmartDNS)
    ensures !RoleAlive(before, SmartDNS) ==> !RoleAlive(after, SmartDNS)
    ensures !FrontDoorIs(process, before) ==> RoleAlive(after, SmartDNS) && after.routes == before.routes
  {
    if !FrontDoorIs(process, before) {
      var pid :| pid in before.alive && before.alive[pid].role == SmartDNS
      && !(pid == process.pid && TracksLive(process, before));
      assert pid in after.alive && after.alive[pid].role == SmartDNS;
    }
  }

  lemma StoppableFrontDoor(stoppable: bool, process: Tracked, w: World)
    ensures stoppable && FrontDoorIs(process, w) && RoleAlive(w, SmartDNS) ==> TracksAs(process, SmartDNS, w)
  {
  }

  lemma SinceStep(h0: seq<World>, h1: seq<World>, h2: seq<World>, w: World)
    requires h0 <= h1 <= h2 && (h1 == h0 || h1 == h0 + [w])
    ensures !RoleAlive(w, SmartDNS) && NoFrontDoorSince(|h1|, h2) ==> NoFrontDoorSince(|h0|, h2)
    ensures ExposedSince(|h1|, h2) ==> ExposedSince(|h0|, h2)
  {
    hide RoleAlive;
  }

  /** Without a record the kernel is clean, so a backed front door is closed. */
  lemma NoRecordNoFrontDoor(w: World, needsDNSMasq: bool)
    requires Consistent(w)
    ensures (w.file.None? || !BelongsTo(w.file.value, w.session)) && FrontDoorBacked(w, needsDNSMasq) ==>
              !RoleAlive(w, SmartDNS)
  {
  }

  lemma AdvanceOpensNoFront(before: World, begun: World, after: World)
    requires begun.alive == before.alive && Later(begun, after)
    ensures !RoleAlive(before, SmartDNS) ==> !RoleAlive(after, SmartDNS)
  {
  }

  lemma NoFrontDoorIsAny(process: Tracked, w: World)
    ensures !RoleAlive(w, SmartDNS) ==> FrontDoorIs(process, w)
  {
  }

  /** SmartDNS is spawned before it is recorded: a crash in between leaves one that no record names. */
  lemma UnrecordedFrontDoorIsStray(state: State, before: World, after: World, pid: nat)
    requires before.file == Some(state) && state.smartDNS == UNTRACKED && Joined(before, after, pid, SmartDNS)
    ensures StrayFrontDoor(after)
  {
    assert after.alive[pid].role == SmartDNS;
  }

  /** A record of this session, whose processes that a reload relies on are alive. */
  predicate Reloadable(cfg: Config, w: World) {
    && w.file.Some? && BelongsTo(w.file.value, w.session)
    && TracksLive(w.file.value.mihomo, w) && TracksLive(w.file.value.smartDNS, w)
    && (cfg.dhcpEnabled ==> TracksLive(w.file.value.dnsmasq, w))
  }

  lemma NoFrontDoorNoStray(w: World)
    ensures !RoleAlive(w, SmartDNS) ==> !StrayFrontDoor(w)
    ensures w.file.Some? ==> (StrayFrontDoor(w) <==> !FrontDoorIs(w.file.value.smartDNS, w))
    ensures w.file.None? ==> !StrayFrontDoor(w)
  {
  }

  /** No SmartDNS, and no process joined since. */
  lemma StillClosed(h0: seq<World>, h1: seq<World>, w: World, needsDNSMasq: bool)
    requires h0 <= h1 && forall i :: |h0| <= i < |h1| ==> h1[i].alive == w.alive
    ensures !RoleAlive(w, SmartDNS) ==> FrontDoorKeptSince(|h0|, h1, needsDNSMasq)
  {
  }

  lemma StrayHasRoutes(process: Tracked, w: World, needsDNSMasq: bool)
    ensures FrontDoorBacked(w, needsDNSMasq) && !FrontDoorIs(process, w) ==> w.routes != {}
  {
  }

  lemma EarlierExposed(from: nat, later: nat, history: seq<World>)
    requires from <= later
    ensures ExposedSince(later, history) ==> ExposedSince(from, history)
  {
  }

  lemma StillExposed(h1: seq<World>, h2: seq<World>, from: nat, needsDNSMasq: bool)
    requires h1 <= h2
    ensures ExposedSince(from, h1) ==> !FrontDoorKeptSince(from, h2, needsDNSMasq)
  {
    if ExposedSince(from, h1) {
      var i :| from <= i < |h1| && RoleAlive(h1[i], SmartDNS) && h1[i].routes == {};
      assert !FrontDoorBacked(h2[i], needsDNSMasq);
    }
  }

  lemma LastIsKept(w: World, h0: seq<World>, h1: seq<World>, needsDNSMasq: bool)
    requires h0 <= h1 && h0 != [] && h0[|h0| - 1] == w
    ensures FrontDoorBacked(w, needsDNSMasq) && FrontDoorKeptSince(|h0|, h1, needsDNSMasq) ==>
              FrontDoorBacked(h1[|h1| - 1], needsDNSMasq)
  {
    hide FrontDoorBacked;
  }

  lemma SameFrontDoorIs(process: Tracked, before: World, after: World)
    requires after.alive == before.alive
    ensures FrontDoorIs(process, after) <==> FrontDoorIs(process, before)
  {
  }

  lemma SameFrontDoor(before: World, after: World)
    requires after.alive == before.alive
    ensures RoleAlive(after, SmartDNS) <==> RoleAlive(before, SmartDNS)
  {
  }

  lemma TornHasSnapshot(state: State, w: World)
    requires Torn(state, w)
    ensures w.routes != {} ==> state.snapshot.Some?
  {
  }

  predicate NoFrontDoorSince(from: nat, history: seq<World>) {
    forall i :: from <= i < |history| ==> !RoleAlive(history[i], SmartDNS)
  }

  lemma FewerTwice(process: Tracked, first: World, second: World, third: World)
    requires Fewer(first, second) && Fewer(second, third)
    ensures Fewer(first, third)
    ensures Gone(process, second) ==> Gone(process, third)
  {
  }

  lemma FewerFrontDoors(before: World, after: World)
    requires Fewer(before, after)
    ensures RoleAlive(after, SmartDNS) ==> RoleAlive(before, SmartDNS)
  {
  }

  lemma CleanStaysClean(before: World, after: World)
    requires after.routes == before.routes && after.tables == before.tables
    ensures KernelClean(before) ==> KernelClean(after)
  {
  }

  lemma TornSurvives(state: State, before: World, after: World)
    requires Torn(state, before)
    requires after == before.(alive := after.alive, routes := after.routes, tables := after.tables,
                              attached := after.attached)
    requires after.routes <= before.routes && after.tables <= before.tables
    ensures Torn(state, after) && Consistent(after)
  {
  }

  lemma RestoredIsClean(state: State, before: World, after: World)
    requires Torn(state, before) && state.snapshot.Some?
    requires after.routes == before.routes - CoveredRoutes(state.snapshot.value)
             || state.snapshot.value.session != before.session
    requires after.tables == before.tables - CoveredTables(state.snapshot.value)
             || state.snapshot.value.session != before.session
    ensures KernelClean(after)
  {
  }

  lemma TornWithoutSnapshot(state: State, w: World)
    requires Torn(state, w) && state.snapshot.None?
    ensures KernelClean(w)
  {
  }

  /** A process of this role joined; nothing else changed, except that a new mihomo detaches the data plane. */
  predicate Joined(before: World, after: World, pid: nat, role: Role) {
    && pid > 0 && pid !in before.alive && pid in after.alive && after.alive[pid].role == role
    && after == before.(alive := before.alive[pid := after.alive[pid]], attached := if role.Mihomo? then None
                        else before.attached)
  }

  /** Processes only joined, routing objects only appeared, and no SmartDNS joined. */
  predicate Later(before: World, after: World) {
    && before.routes <= after.routes
    && (forall pid :: pid in before.alive ==> pid in after.alive && after.alive[pid] == before.alive[pid])
    && forall pid :: pid in after.alive && after.alive[pid].role.SmartDNS? ==> pid in before.alive
  }

  predicate LaterSince(before: seq<World>, after: seq<World>, w: World) {
    forall i :: |before| <= i < |after| ==> Later(w, after[i])
  }

  lemma JoinedIsLater(before: World, after: World, pid: nat, role: Role)
    requires before == after || Joined(before, after, pid, role)
    ensures SameSetting(before, after) && (!role.SmartDNS? ==> Later(before, after))
    ensures Joined(before, after, pid, role) ==> RoleAlive(after, role)
  {
  }

  /** Records have no bearing on what joined. */
  lemma RecordedIsLater(process: Tracked, role: Role, before: World, launched: World, after: World)
    requires Later(before, launched) && after == launched.(file := after.file)
    ensures Later(before, after) && (TracksAs(process, role, launched) ==> TracksAs(process, role, after))
  {
  }

  lemma LaterIsTransitive(a: World, b: World, c: World)
    requires Later(a, b) && Later(b, c)
    ensures Later(a, c)
  {
  }

  lemma WorkingJournaled(cfg: Config, state: State, w: World)
    requires Working(cfg, state, w)
    ensures Journaled(state) == state && state.snapshot.Some? && state.session == w.session
  {
  }

  lemma WorkingRecorded(cfg: Config, state: State, w: World)
    requires Working(cfg, state, w) && !state.lifecycle.Running?
    ensures Working(cfg, state, w.(file := Some(state)))
  {
  }

  lemma WorkingIgnoresProcesses(cfg: Config, state: State, before: World, after: World)
    requires Working(cfg, state, before)
    requires after == before.(alive := after.alive, attached := after.attached)
    ensures Working(cfg, state, after)
  {
  }

  /** Fields that name no kernel object do not matter. */
  lemma WorkingIgnoresProgress(cfg: Config, before: State, after: State, w: World)
    requires Working(cfg, before, w)
    requires after.session == before.session && after.snapshot.Some? && before.snapshot.Some?
    requires after.snapshot.value == before.snapshot.value.(applied := after.snapshot.value.applied)
    requires after.snapshot.value.applied.nat_ == before.snapshot.value.applied.nat_
    requires after.snapshot.value.applied.routing == before.snapshot.value.applied.routing
    requires before.snapshot.value.applied.forwarding ==> after.snapshot.value.applied.forwarding
    ensures Working(cfg, after, w)
  {
  }

  predicate SameSetting(before: World, after: World) {
    after.session == before.session && after.desired == before.desired
  }

  /** Another TUN name in the recipe names the same kernel objects. */
  lemma WorkingNewRecipe(cfg: Config, before: State, tun: string, w: World)
    requires Working(cfg, before, w)
    ensures before.snapshot.Some?
    ensures Working(cfg, before.(tun := tun,
                                 snapshot := Some(before.snapshot.value.(routing := Some(Recipe(cfg, tun))))), w)
  {
  }

  lemma WorkingMarked(cfg: Config, before: State, w: World)
    requires Working(cfg, before, w) && Installable(Recipe(cfg, ""))
    ensures before.snapshot.Some?
    ensures Working(cfg, before.(routingApplied := true,
      snapshot := Some(before.snapshot.value.(applied := before.snapshot.value.applied.(routing := true)))), w)
  {
  }

  lemma WorkingMarkedNAT(cfg: Config, before: State, w: World)
    requires Working(cfg, before, w) && !cfg.sameLAN
    ensures before.snapshot.Some?
    ensures Working(cfg, before.(natApplied := true,
      snapshot := Some(before.snapshot.value.(applied := before.snapshot.value.applied.(nat_ := true)))), w)
  {
  }

  lemma WorkingTakesNAT(cfg: Config, state: State, before: World, after: World)
    requires Working(cfg, state, before) && !cfg.sameLAN
    requires after == before || after == before.(tables := before.tables + {cfg.nftTable})
    ensures Working(cfg, state, after)
  {
  }

  lemma WorkingTakesRoutes(cfg: Config, state: State, recipe: RoutingRecipe, before: World, after: World)
    requires Working(cfg, state, before) && recipe == Recipe(cfg, recipe.tun)
    requires after == before || (Installable(recipe)
                                 && after == before.(routes := before.routes + {Key(recipe)}, attached := None))
    ensures Working(cfg, state, after)
  {
  }

  /** Policy routing of this configuration is installed, verified, and undisturbed since. */
  predicate Attached(cfg: Config, w: World) {
    var key := RouteKey(cfg.table, cfg.priority);
    w.attached == Some(key) && key in w.routes
  }

  lemma AttachedKept(cfg: Config, before: World, after: World)
    requires after.attached == before.attached && after.routes == before.routes
    ensures Attached(cfg, before) ==> Attached(cfg, after)
  {
  }

  lemma RunningRecorded(cfg: Config, state: State, w: World)
    requires Working(cfg, state, w) && Attached(cfg, w)
    ensures Consistent(w.(file := Some(state)))
  {
  }

  lemma WorkingIsConsistent(cfg: Config, state: State, w: World)
    ensures Working(cfg, state, w) ==> Consistent(w)
  {
  }
}
