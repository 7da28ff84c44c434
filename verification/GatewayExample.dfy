/** A crash between spawning SmartDNS and recording it, and what the next stop makes of it. */
module GatewayExample {
  import opened Text
  import opened GatewayWorld
  import opened GatewayLifecycle

  /** The world right after that crash: a starting gateway on the isolated LAN, all in place. */
  const CRASHED := World(
    1,
    Some(State(Starting, 1, Tracked(3, Some(3)), UNTRACKED, Tracked(2, Some(2)), true, true, true, true, "tun0",
      Some(Snapshot(1, "0", "opensurge", Some("opensurge"), Some(RoutingRecipe(100, 100, FWMark, 1, "tun0", false)),
        Applied(true, true, true))))),
    Some(true), {RouteKey(100, 100)}, {"opensurge"},
    map[2 := Process(Mihomo, 2), 3 := Process(DNSMasq, 3), 4 := Process(SmartDNS, 4)], Some(RouteKey(100, 100)))

  lemma CrashedIsStray()
    ensures Consistent(CRASHED) && FrontDoorBacked(CRASHED, true) && StrayFrontDoor(CRASHED)
    ensures BelongsTo(CRASHED.file.value, CRASHED.session)
  {
    assert CRASHED.alive[2].role == Mihomo && CRASHED.alive[3].role == DNSMasq && CRASHED.alive[4].role == SmartDNS;
  }

  /** From there a stop that reports success takes the network away from under a live SmartDNS. */
  method StopAfterCrash(manager: Manager) returns (ok: bool)
    requires manager.host.Safe() && manager.host.world == CRASHED && NeedsDNSMasq(manager.cfg)
    modifies manager.host`world, manager.host`history, manager.host`signals
    ensures ok ==> !FrontDoorKeptSince(|old(manager.host.history)|, manager.host.history, true)
  {
    hide FrontDoorBacked, FrontDoorKeptSince, StrayFrontDoor, Consistent;
    CrashedIsStray();
    ok := manager.Stop();
  }
}
