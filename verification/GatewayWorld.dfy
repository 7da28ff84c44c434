/** The gateway's environment: durable files, kernel objects and processes, and the
    calls that change them. Any call may fail, and some fail halfway. */
module GatewayWorld {
  import opened Text

  /** Identity of OpenSurge policy routing in the kernel. */
  datatype RouteKey = RouteKey(table: nat, priority: nat)

  datatype RuleMode = FWMark | IngressInterface

  datatype RoutingRecipe = RoutingRecipe(
    table: nat, priority: nat, mode: RuleMode, fwMark: nat, tun: string, directFallback: bool)

  datatype Applied = Applied(nat_: bool, routing: bool, forwarding: bool)

  /** The persisted cleanup recipe (`platform.NetworkSnapshot`); `session` is its network namespace. */
  datatype Snapshot = Snapshot(
    session: nat, forwarding: string, nftTable: string, nat_: Option<string>,
    routing: Option<RoutingRecipe>, applied: Applied)

  datatype Lifecycle = Legacy | Starting | Running | Stopping | Cleanup

  /** A recorded process: pid 0 when none; the fingerprint tells a reused pid apart. */
  datatype Tracked = Tracked(pid: nat, fingerprint: Option<nat>)

  const UNTRACKED := Tracked(0, None)

  datatype State = State(
    lifecycle: Lifecycle, session: nat, dnsmasq: Tracked, smartDNS: Tracked, mihomo: Tracked, smartFrontend: bool,
    forwardingApplied: bool, natApplied: bool, routingApplied: bool, tun: string, snapshot: Option<Snapshot>)

  datatype Role = Mihomo | DNSMasq | SmartDNS | Unrelated

  datatype Process = Process(role: Role, fingerprint: nat)

  /** What survives a crash of the control process at this instant. `attached` remembers the
      route last verified since mihomo was started or stopped and routing was changed. */
  datatype World = World(
    session: nat, file: Option<State>, desired: Option<bool>,
    routes: set<RouteKey>, tables: set<string>, alive: map<nat, Process>, attached: Option<RouteKey>)

  /** A signal sent to a pid that some state record named. */
  datatype Signal = Signal(pid: nat, recordedIn: nat)

  // ---- The write-ahead journal ----

  function Key(recipe: RoutingRecipe): RouteKey {
    RouteKey(recipe.table, recipe.priority)
  }

  /** The recipes for which the kernel backend installs anything at all. */
  predicate Installable(recipe: RoutingRecipe) {
    recipe.table != 0 && recipe.priority != 0 && (recipe.mode.IngressInterface? || recipe.fwMark != 0)
  }

  /** `prepareWriteAheadJournal`: cleanup intents are marked before the state is written. */
  function Journaled(state: State): State {
    if state.snapshot.None? then state
    else
      var s := state.snapshot.value;
      state.(snapshot := Some(s.(applied := Applied(
        s.applied.nat_ || (s.nat_.Some? && s.nftTable != ""),
        s.applied.routing || (s.routing.Some? && Installable(s.routing.value)),
        s.applied.forwarding || s.forwarding != ""))))
  }

  /** Routing objects that restoring this snapshot removes. */
  function CoveredRoutes(s: Snapshot): set<RouteKey> {
    if s.applied.routing && s.routing.Some? then {Key(s.routing.value)} else {}
  }

  function NATTable(s: Snapshot): string {
    if s.nftTable != "" then s.nftTable else if s.nat_.Some? then s.nat_.value else ""
  }

  function CoveredTables(s: Snapshot): set<string> {
    if s.applied.nat_ && NATTable(s) != "" then {NATTable(s)} else {}
  }

  // ---- What holds at every crash point ----

  predicate KernelClean(w: World) {
    w.routes == {} && w.tables == {}
  }

  predicate Covers(state: State, w: World) {
    && state.session == w.session
    && state.snapshot.Some? && state.snapshot.value.session == w.session
    && w.routes <= CoveredRoutes(state.snapshot.value)
    && w.tables <= CoveredTables(state.snapshot.value)
  }

  /** Every OpenSurge object in the kernel is named by the durable snapshot of this session. */
  predicate JournalCovers(w: World) {
    KernelClean(w) || (w.file.Some? && Covers(w.file.value, w))
  }

  /** A durable record of a running gateway with routing applied is true. */
  predicate RunningIsAttached(w: World) {
    w.file.Some? && w.file.value.session == w.session && w.file.value.lifecycle.Running?
    && w.file.value.routingApplied ==>
      var s := w.file.value.snapshot;
      s.Some? && s.value.routing.Some? && w.attached == Some(Key(s.value.routing.value))
      && Key(s.value.routing.value) in w.routes
  }

  predicate Consistent(w: World) {
    JournalCovers(w) && RunningIsAttached(w)
  }

  predicate RoleAlive(w: World, role: Role) {
    exists pid :: pid in w.alive && w.alive[pid].role == role
  }

  /** The process is alive, and it is the one that was recorded. */
  predicate TracksLive(process: Tracked, w: World) {
    && process.pid > 0 && process.pid in w.alive
    && (process.fingerprint.Some? ==> w.alive[process.pid].fingerprint == process.fingerprint.value)
  }

  predicate TracksAs(process: Tracked, role: Role, w: World) {
    TracksLive(process, w) && w.alive[process.pid].role == role
  }

  /** Every live SmartDNS is the given process. */
  predicate FrontDoorIs(process: Tracked, w: World) {
    forall pid :: pid in w.alive && w.alive[pid].role == SmartDNS ==> pid == process.pid && TracksLive(process, w)
  }

  /** A SmartDNS is alive that the durable record does not name. */
  predicate StrayFrontDoor(w: World) {
    w.file.Some? && !FrontDoorIs(w.file.value.smartDNS, w)
  }

  /** SmartDNS answers the LAN only in front of a complete data plane. */
  predicate FrontDoorBacked(w: World, needsDNSMasq: bool) {
    RoleAlive(w, SmartDNS) ==> RoleAlive(w, Mihomo) && (needsDNSMasq ==> RoleAlive(w, DNSMasq)) && w.routes != {}
  }

  /** The container restarted: a fresh namespace without OpenSurge objects or processes. */
  predicate Restarted(before: World, after: World) {
    && after.session != before.session
    && (before.file.Some? ==> after.session != before.file.value.session)
    && after.file == before.file && after.desired == before.desired
    && KernelClean(after) && after.attached == None
    && forall pid :: pid in after.alive ==> after.alive[pid].role == Unrelated
  }

  /** The environment with its whole past: `history` lists the world after every call. Identity
      checks on `answering` roles always answer, processes of `obedient` roles always obey a signal,
      and records can always be written where the storage is `durable`. Everything else may fail. */
  class Machine {
    const answering: set<Role>
    const obedient: set<Role>
    const durable: bool
    var world: World
    var history: seq<World>
    var signals: seq<Signal>
    /** The point of the past from which on the recorded intent has not changed. */
    ghost var mark: nat

    constructor (initial: World, answering: set<Role>, obedient: set<Role>, durable: bool)
      ensures world == initial && history == [initial] && signals == [] && mark == 0
      ensures this.answering == answering && this.obedient == obedient && this.durable == durable
    {
      this.answering, this.obedient, this.durable := answering, obedient, durable;
      world, history, signals, mark := initial, [initial], [], 0;
    }

    /** The past is complete, nowhere in it is the journal or a running record wrong, and the
        intent has been the same since the mark. */
    ghost predicate Safe()
      reads this
    {
      && history != [] && history[|history| - 1] == world
      && (forall i :: 0 <= i < |history| ==> Consistent(history[i]))
      && mark < |history| && forall i :: mark <= i < |history| ==> history[i].desired == world.desired
    }

    /** Processes of the role can always be stopped. */
    predicate Stoppable(role: Role) {
      role in answering && role in obedient
    }

    method Become(next: World)
      modifies this`world, this`history, this`signals
      ensures world == next && history == old(history) + [next] && signals == old(signals)
    {
      world, history := next, history + [next];
    }

    /** A call that may fail and touches nothing modelled here. */
    method Attempt() returns (ok: bool)
    {
      ok := *;
    }

    method LoadState() returns (ok: bool, state: Option<State>)
      ensures ok ==> state == world.file
    {
      ok, state := *, world.file;
    }

    /** All or nothing; `kept` is the record in memory, which shares the marked snapshot. */
    method SaveState(state: State) returns (ok: bool, kept: State)
      modifies this`world, this`history, this`signals
      ensures kept == Journaled(state) && (durable ==> ok)
      ensures world == if ok then old(world).(file := Some(kept)) else old(world)
      ensures history == old(history) + [world] && signals == old(signals)
    {
      ok, kept := *, Journaled(state);
      ok := ok || durable;
      Become(if ok then world.(file := Some(kept)) else world);
    }

    /** The file may be gone even when the call reports a failure. */
    method RemoveState() returns (ok: bool)
      modifies this`world, this`history, this`signals
      ensures (world == old(world) && !ok) || world == old(world).(file := None)
      ensures history == old(history) + [world] && signals == old(signals)
    {
      ok := *;
      var removed: bool := *;
      Become(if ok || removed then world.(file := None) else world);
    }

    method LoadDesired() returns (ok: bool, desired: Option<bool>)
      ensures ok ==> desired == world.desired
    {
      ok, desired := *, world.desired;
    }

    /** A written intent is a point that later worlds are compared with. */
    method SaveDesired(running: bool) returns (ok: bool)
      modifies this
      ensures world == if ok then old(world).(desired := Some(running)) else old(world)
      ensures history == old(history) + [world] && signals == old(signals)
      ensures mark == if ok then |old(history)| else old(mark)
    {
      ok := *;
      Become(if ok then world.(desired := Some(running)) else world);
      if ok {
        mark := |history| - 1;
      }
    }

    /** `backend.SetupNAT`: a failure may leave the table behind. */
    method SetupNAT(table: string) returns (ok: bool)
      modifies this`world, this`history, this`signals
      ensures ok ==> world == old(world).(tables := old(world).tables + {table})
      ensures world == old(world) || world == old(world).(tables := old(world).tables + {table})
      ensures history == old(history) + [world] && signals == old(signals)
    {
      ok := *;
      var left: bool := *;
      Become(if ok || left then world.(tables := world.tables + {table}) else world);
    }

    /** `backend.SetupPolicyRouting`: refuses recipes it cannot install; a later failure may leave objects behind. */
    method SetupPolicyRouting(recipe: RoutingRecipe) returns (ok: bool)
      modifies this`world, this`history, this`signals
      ensures !Installable(recipe) ==> !ok && world == old(world)
      ensures ok ==> Key(recipe) in world.routes
      ensures world == old(world) || world == old(world).(routes := old(world).routes + {Key(recipe)}, attached := None)
      ensures history == old(history) + [world] && signals == old(signals)
    {
      ok := *;
      var left: bool := *;
      ok := ok && Installable(recipe);
      Become(if ok || (left && Installable(recipe)) then world.(routes := world.routes + {Key(recipe)},
        attached := None) else world);
    }

    /** `verifyPolicyRouting`: success proves the objects are there. */
    method VerifyPolicyRouting(recipe: RoutingRecipe) returns (ok: bool)
      modifies this`world, this`history, this`signals
      ensures ok ==> Key(recipe) in world.routes && world == old(world).(attached := Some(Key(recipe)))
      ensures !ok ==> world == old(world)
      ensures history == old(history) + [world] && signals == old(signals)
    {
      ok := *;
      ok := ok && Key(recipe) in world.routes;
      Become(if ok then world.(attached := Some(Key(recipe))) else world);
    }

    /** `backend.PolicyRoutingPresent`, where it answers. */
    method PolicyRoutingPresent(recipe: RoutingRecipe) returns (present: bool)
      ensures present <==> Key(recipe) in world.routes
    {
      present := Key(recipe) in world.routes;
    }

    method WaitForTUN(requested: string) returns (ok: bool, tun: string)
    {
      ok, tun := *, *;
    }

    /** `backend.Restore`: does nothing in another namespace; a failure may have removed some objects. */
    method Restore(s: Snapshot) returns (ok: bool)
      modifies this`world, this`history, this`signals
      ensures s.session != old(world).session && ok ==> world == old(world)
      ensures s.session == old(world).session && ok ==>
        world.routes == old(world).routes - CoveredRoutes(s) && world.tables == old(world).tables - CoveredTables(s)
      ensures world.routes <= old(world).routes && world.tables <= old(world).tables
      ensures world == old(world).(routes := world.routes, tables := world.tables, attached := world.attached)
      ensures (world.attached == old(world).attached && world.routes == old(world).routes) || world.attached == None
      ensures history == old(history) + [world] && signals == old(signals)
    {
      ok := *;
      if s.session != world.session || (s.applied.routing && s.routing.None?) {
        ok := ok && s.session != world.session;
        Become(world);
        return;
      }
      var routesGone: bool, tablesGone: bool := *, *;
      var routes := if ok || routesGone then world.routes - CoveredRoutes(s) else world.routes;
      var tables := if ok || tablesGone then world.tables - CoveredTables(s) else world.tables;
      Become(world.(routes := routes, tables := tables,
        attached := if routes == world.routes then world.attached else None));
    }

    /** Starts a process under an unused pid; a failed start leaves none. */
    method Spawn(role: Role) returns (ok: bool, pid: nat)
      modifies this`world, this`history, this`signals
      ensures ok ==> pid > 0 && pid in world.alive && world.alive[pid].role == role && pid !in old(world).alive
      ensures ok ==> world == old(world).(
        alive := old(world).alive[pid := world.alive[pid]], attached := if role.Mihomo? then None
        else old(world).attached)
      ensures !ok ==> world == old(world)
      ensures history == old(history) + [world] && signals == old(signals)
    {
      ok, pid := *, *;
      ok := ok && pid > 0 && pid !in world.alive;
      var fingerprint: nat := *;
      Become(if ok then world.(alive := world.alive[pid := Process(role, fingerprint)], attached := if role.Mihomo? then
                                 None else world.attached)
             else world);
    }

    /** `process.Fingerprint`. */
    method Fingerprint(pid: nat) returns (ok: bool, fingerprint: Option<nat>)
      ensures ok && fingerprint.Some? ==> pid in world.alive && fingerprint.value == world.alive[pid].fingerprint
      ensures pid in world.alive && world.alive[pid].role in answering ==> ok && fingerprint.Some?
    {
      ok := *;
      ok := ok || (pid in world.alive && world.alive[pid].role in answering);
      fingerprint := if pid in world.alive then Some(world.alive[pid].fingerprint) else None;
    }

    /** `process.MatchesFingerprint`. */
    method Matches(pid: nat, fingerprint: nat) returns (ok: bool, matches: bool)
      ensures ok ==> (matches <==> pid in world.alive && world.alive[pid].fingerprint == fingerprint)
      ensures pid in world.alive && world.alive[pid].role in answering ==> ok
    {
      ok, matches := *, pid in world.alive && world.alive[pid].fingerprint == fingerprint;
      ok := ok || (pid in world.alive && world.alive[pid].role in answering);
    }

    /** Signals a pid. Success means it is gone; after a failure it may be gone or not. */
    method Kill(pid: nat, recordedIn: nat) returns (ok: bool)
      modifies this`world, this`history, this`signals
      ensures ok ==> pid !in world.alive
      ensures pid in old(world).alive && old(world).alive[pid].role in obedient ==> ok
      ensures world == old(world) || (pid in old(world).alive && world == Without(old(world), pid))
      ensures history == old(history) + [world]
      ensures signals == old(signals) + [Signal(pid, recordedIn)]
    {
      ok := *;
      ok := ok || (pid in world.alive && world.alive[pid].role in obedient);
      var gone: bool := *;
      signals := signals + [Signal(pid, recordedIn)];
      Become(if (ok || gone) && pid in world.alive then Without(world, pid) else world);
    }
  }

  lemma SafeNow(m: Machine)
    requires m.Safe()
    ensures m.history != [] && m.history[|m.history| - 1] == m.world && Consistent(m.world)
  {
  }

  /** One more point without a fault, and with the same intent, keeps the past safe. */
  twostate lemma StaysSafe(m: Machine)
    requires old(m.Safe()) && Consistent(m.world)
    requires m.history == old(m.history) + [m.world] || (m.history == old(m.history) && m.world == old(m.world))
    requires m.mark == old(m.mark) && m.world.desired == old(m.world.desired)
    ensures m.Safe()
  {
  }

  /** The world without one process; losing mihomo detaches the data plane. */
  function Without(w: World, pid: nat): World
    requires pid in w.alive
  {
    w.(alive := w.alive - {pid}, attached := if w.alive[pid].role.Mihomo? then None else w.attached)
  }

  lemma RestartKeepsConsistency(before: World, after: World)
    requires Consistent(before) && Restarted(before, after)
    ensures Consistent(after)
  {
  }
}
