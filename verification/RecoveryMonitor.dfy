/** The DNS probe and the watchdog's tick (`dns_probe.go`, `evaluateMihomoRecovery`). */
module DnsProbing {
  datatype Outcome = Answered | Unsure | Unavailable

  /** Completed probes and resets, in order. A probe still running leaves no trace. */
  datatype ProbeEvent = Completed(outcome: Outcome) | Reset

  const PROBE_INTERVAL := 30
  const FAILURES_REQUIRED := 2

  /** Unavailable probes at the end of the log, uninterrupted. */
  function UnavailableRun(log: seq<ProbeEvent>): nat {
    if log != [] && log[|log| - 1] == Completed(Unavailable) then UnavailableRun(log[..|log| - 1]) + 1 else 0
  }

  /** What the completed probes since the last reset say. */
  function Verdict(log: seq<ProbeEvent>): Outcome {
    if log != [] && log[|log| - 1] == Completed(Answered) then Answered
    else if UnavailableRun(log) >= FAILURES_REQUIRED then Unavailable
    else Unsure
  }

  /** Two strikes: unavailable means that the last two events are unavailable probes. */
  lemma UnavailableMeansTwo(log: seq<ProbeEvent>)
    ensures Verdict(log) == Unavailable <==>
              && |log| >= 2
              && log[|log| - 1] == Completed(Unavailable)
              && log[|log| - 2] == Completed(Unavailable)
  {
    if log != [] {
      var before := log[..|log| - 1];
      assert UnavailableRun(before) >= 1 <==> before != [] && before[|before| - 1] == Completed(Unavailable);
    }
  }

  lemma ProbeAppended(log: seq<ProbeEvent>, e: ProbeEvent)
    ensures UnavailableRun(log + [e]) == if e == Completed(Unavailable) then UnavailableRun(log) + 1 else 0
    ensures (log + [e])[|log|] == e
  {
    assert (log + [e])[..|log|] == log;
  }

  datatype Sampling = Decided(result: Outcome) | Probing

  class DnsProbe {
    var next: nat
    var inFlight: bool
    var failures: nat
    var result: Outcome
    ghost var log: seq<ProbeEvent>

    ghost predicate Valid()
      reads this
    {
      failures == UnavailableRun(log) && result == Verdict(log)
    }

    constructor ()
      ensures Valid() && log == [] && !inFlight
    {
      next, inFlight, failures, result, log := 0, false, 0, Unsure, [];
    }

    /** Forgets the results so far; a probe in flight stays in flight. */
    method Reset()
      requires Valid()
      modifies this
      ensures Valid() && log == old(log) + [ProbeEvent.Reset] && inFlight == old(inFlight) && next == 0
      ensures result == Unsure
    {
      ProbeAppended(log, ProbeEvent.Reset);
      log := log + [ProbeEvent.Reset];
      failures, next, result := 0, 0, Unsure;
    }

    /** The first half of a sample: a fresh answer, or a probe to run. */
    method StartSample(now: nat) returns (sampling: Sampling)
      requires Valid()
      modifies this`next, this`inFlight
      ensures Valid()
      ensures sampling == Probing <==> !old(inFlight) && old(next) <= now
      ensures sampling == Probing ==> inFlight && next == now + PROBE_INTERVAL
      ensures sampling.Decided? ==>
                unchanged(this) && (sampling.result == Unavailable ==> !inFlight && Verdict(log) == Unavailable)
      ensures sampling.Decided? && !inFlight ==> sampling.result == Verdict(log)
    {
      if inFlight {
        return Decided(Unsure);
      }
      if now < next {
        return Decided(result);
      }
      inFlight, next := true, now + PROBE_INTERVAL;
      return Probing;
    }

    /** The second half, when the probe completed. */
    method FinishSample(outcome: Outcome) returns (answer: Outcome)
      requires Valid() && inFlight
      modifies this
      ensures Valid() && !inFlight && log == old(log) + [Completed(outcome)] && answer == Verdict(log)
              && next == old(next)
    {
      ProbeAppended(log, Completed(outcome));
      log := log + [Completed(outcome)];
      inFlight := false;
      match outcome {
        case Answered =>
          failures, result := 0, Answered;
        case Unavailable =>
          failures := failures + 1;
          result := if failures >= FAILURES_REQUIRED then Unavailable else Unsure;
        case Unsure =>
          failures, result := 0, Unsure;
      }
      return result;
    }
  }
}

module RecoveryMonitor {
  import opened Text
  import opened RecoveryLog
  import opened MihomoRecovery
  import opened DnsProbing

  datatype Action = NoAction | RestartEngine | RecoverGateway

  /** The fields of a gateway status that the watchdog reads. */
  datatype Status = Status(
    desiredRunning: bool,
    runtimeState: string,
    gateway: string,
    dns: string,
    localDNS: string,
    dhcp: string,
    routing: string,
    tun: string,
    nftables: string,
    forwarding: string,
    mihomo: string,
    controllerRefused: bool)

  function MihomoFailureReason(status: Status): Reason {
    if !("running" <= status.mihomo) then ProcessMissing
    else if status.controllerRefused then ControllerRefused
    else NoReason
  }

  function AutomaticRecoveryAction(status: Status, isContainer: bool): (Action, Reason) {
    var engine := MihomoFailureReason(status);
    if !isContainer then (RestartEngine, engine)
    else if !status.desiredRunning then (NoAction, NoReason)
    else if status.runtimeState in {"none", "incomplete", "interrupted"} then (RecoverGateway, GatewayIncomplete)
    else if status.runtimeState != "active" then (NoAction, NoReason)
    else if status.dns == "stopped" || status.localDNS == "stopped"
    || status.dhcp == "stopped" then (RecoverGateway, DNSMissing)
    else if status.routing == "missing" || status.tun == "failed" || status.nftables == "missing"
    || status.forwarding == "disabled" then
      (RecoverGateway, DataPlaneMissing)
    else if status.dns != "running" && status.dns != "legacy-dnsmasq" then (NoAction, NoReason)
    else if engine == NoReason && status.gateway != "running" then (NoAction, NoReason)
    else if engine == ProcessMissing then (RecoverGateway, GatewayIncomplete)
    else if engine == ControllerRefused then (RecoverGateway, NASControllerRefused)
    else (RestartEngine, engine)
  }

  /** In the container a reason always asks for a full recovery of a gateway meant to run, and the
      engine is deemed healthy only when nothing that the watchdog can see is wrong. */
  lemma ContainerActions(status: Status)
    ensures var (action, reason) := AutomaticRecoveryAction(status, true);
            && (reason != NoReason <==> action == RecoverGateway)
            && (reason != NoReason ==> NASReason(reason) && status.desiredRunning)
            && (action == RestartEngine ==>
                  && status.desiredRunning && status.runtimeState == "active" && status.gateway == "running"
                  && MihomoFailureReason(status) == NoReason
                  && "stopped" !in {status.dns, status.localDNS, status.dhcp}
                  && status.routing != "missing" && status.tun != "failed" && status.nftables != "missing")
  {
  }

  predicate ProbeWorthwhile(status: Status, action: Action, reason: Reason) {
    && action == RestartEngine && reason == NoReason
    && status.runtimeState == "active" && status.gateway == "running" && status.dns == "running"
    && status.localDNS in {"running", "disabled"}
  }

  /** What a tick sees of the outside: `None` where reading failed. A busy lock that cannot be read counts as busy. */
  datatype Sight = Sight(
    configRead: bool,
    busy: bool,
    status: Option<Status>,
    busyAgain: bool,
    stageAllowed: bool,
    operationError: Option<OperationError>)

  /** What a tick comes to: the operation it started, if any, or a DNS probe whose answer it awaits. */
  datatype Tick = Done(launched: Option<(Action, Reason)>) | AwaitsProbe

  class Monitor {
    const isContainer: bool
    const recovery: Controller
    const probe: DnsProbe
    var lifecycleHeld: bool
    /** The running operation was asked for by a person. */
    var manual: bool

    ghost predicate Valid()
      reads this, recovery, probe
    {
      recovery.Valid() && probe.Valid() && (recovery.operationActive ==> lifecycleHeld)
    }

    constructor (container: bool)
      ensures Valid() && fresh(recovery) && fresh(probe) && !lifecycleHeld && !probe.inFlight
    {
      isContainer, lifecycleHeld, manual := container, false, false;
      recovery := new Controller();
      probe := new DnsProbe();
    }

    /** The status was read, and only the DNS dependencies remain to be asked. */
    predicate AsksProbe(sight: Sight) {
      && isContainer && sight.configRead && !sight.busy && sight.status.Some? && sight.status.value.desiredRunning
      && var (action, reason) := AutomaticRecoveryAction(sight.status.value, isContainer);
         ProbeWorthwhile(sight.status.value, action, reason)
    }

    /** One tick, up to its end or to the probe that it waits for. Ticks follow one another, so no
        probe is in flight when one begins. */
    method Evaluate(sight: Sight, now: nat) returns (tick: Tick)
      requires Valid() && !probe.inFlight
      modifies this`lifecycleHeld, this`manual, recovery, probe
      ensures Valid() && (probe.inFlight <==> tick.AwaitsProbe?)
      ensures tick.AwaitsProbe? ==>
                && AsksProbe(sight) && recovery.log == old(recovery.log) && lifecycleHeld == old(lifecycleHeld)
                && probe.log == old(probe.log)
      ensures tick.Done? && tick.launched.None? ==> lifecycleHeld == old(lifecycleHeld)
      ensures tick.Done? && tick.launched.Some? ==>
                Launched(sight, tick.launched.value, old(recovery.log), old(probe.log), old(lifecycleHeld), now)
      ensures isContainer && sight.configRead && !sight.busy && sight.status.Some?
              && !sight.status.value.desiredRunning ==>
                && tick == Done(None)
                && (old(recovery.operationActive)
                    || (recovery.phase == Idle && recovery.log == old(recovery.log) + [RecoveryLog.Stopped]))
      ensures !sight.configRead || sight.busy || sight.status.None? ==>
                && tick == Done(None)
                && recovery.attempted == old(recovery.attempted) && recovery.retryAt == old(recovery.retryAt)
    {
      hide Streak, HasSchedule, Justified, Released, RefusalRun, Due, Last, Before, Backoff;
      if !sight.configRead || sight.busy || sight.status.None? {
        recovery.ObserveUnknown();
        return Done(None);
      }
      var status := sight.status.value;
      if !isContainer && status.runtimeState != "active" {
        recovery.ObserveUnknown();
        return Done(None);
      }
      if isContainer && !status.desiredRunning {
        recovery.ObserveStopped();
        return Done(None);
      }
      var (action, reason) := AutomaticRecoveryAction(status, isContainer);
      if isContainer && ProbeWorthwhile(status, action, reason) {
        var sampling := probe.StartSample(now);
        if sampling == Probing {
          return AwaitsProbe;
        }
        var answered := Heed(sight, sampling.result, now);
        return Done(answered);
      }
      var launched := Decide(sight, action, reason, now);
      return Done(launched);
    }

    /** The rest of a tick whose probe completed. Anything may have happened in between: operations
        began and ended, and the results of the probe were forgotten. */
    method Complete(sight: Sight, outcome: Outcome, now: nat) returns (launched: Option<(Action, Reason)>)
      requires Valid() && probe.inFlight && AsksProbe(sight)
      modifies this`lifecycleHeld, this`manual, recovery, probe
      ensures Valid() && !probe.inFlight
      ensures launched.None? ==>
                lifecycleHeld == old(lifecycleHeld) && probe.log == old(probe.log) + [Completed(outcome)]
      ensures launched.Some? ==>
                && launched.value == (RecoverGateway, DNSUnresponsive)
                && Launched(sight, launched.value, old(recovery.log), old(probe.log) + [Completed(outcome)],
                            old(lifecycleHeld), now)
      ensures Verdict(old(probe.log) + [Completed(outcome)]) != Unavailable ==> launched.None?
    {
      hide Streak, HasSchedule, Justified, Released, RefusalRun, Due, Last, Before, Backoff;
      var answer := probe.FinishSample(outcome);
      launched := Heed(sight, answer, now);
    }

    /** What the answer of the DNS probe makes of an otherwise running gateway. */
    method Heed(sight: Sight, answer: Outcome, now: nat) returns (launched: Option<(Action, Reason)>)
      requires Valid() && !probe.inFlight && AsksProbe(sight)
               && (answer == Unavailable ==> Verdict(probe.log) == Unavailable)
      modifies this`lifecycleHeld, this`manual, recovery, probe
      ensures Valid() && !probe.inFlight
      ensures launched.None? ==> lifecycleHeld == old(lifecycleHeld) && probe.log == old(probe.log)
      ensures launched.Some? ==>
                && answer == Unavailable && launched.value == (RecoverGateway, DNSUnresponsive)
                && Launched(sight, launched.value, old(recovery.log), old(probe.log), old(lifecycleHeld), now)
      ensures answer == Answered && !old(recovery.operationActive) ==>
                recovery.log == old(recovery.log) + [RecoveryLog.Healthy(!recovery.attempted)]
      ensures answer == Unsure && !old(recovery.operationActive) ==> recovery.log == old(recovery.log) + [Pending]
    {
      hide Streak, HasSchedule, Justified, Released, RefusalRun, Due, Last, Before, Backoff;
      match answer {
        case Unavailable =>
          launched := Decide(sight, RecoverGateway, DNSUnresponsive, now);
        case Unsure =>
          recovery.ObservePending();
          launched := None;
        case Answered =>
          recovery.ObserveHealthy();
          launched := None;
      }
    }

    /** The end of a tick: no action is no knowledge, no reason is health, a reason is a failure. */
    method Decide(sight: Sight, action: Action, reason: Reason, now: nat) returns (launched: Option<(Action, Reason)>)
      requires Valid() && !probe.inFlight && sight.configRead && !sight.busy && sight.status.Some?
      requires Warranted(sight.status.value, action, reason, probe.log)
      modifies this`lifecycleHeld, this`manual, recovery, probe
      ensures Valid() && !probe.inFlight
      ensures launched.None? ==> lifecycleHeld == old(lifecycleHeld) && probe.log == old(probe.log)
      ensures launched.Some? ==>
                && launched.value == (action, reason)
                && Launched(sight, launched.value, old(recovery.log), old(probe.log), old(lifecycleHeld), now)
    {
      hide Streak, HasSchedule, Justified, Released, RefusalRun, Due, Last, Before, Backoff;
      launched := None;
      if action == NoAction {
        recovery.ObserveUnknown();
        return;
      }
      if reason == NoReason {
        recovery.ObserveHealthy();
        return;
      }
      if sight.busyAgain || !sight.stageAllowed {
        recovery.ObserveUnknown();
        return;
      }
      launched := React(action, reason, sight.operationError, now);
    }

    /** The reason is one that the status or the completed probes give. */
    ghost predicate Warranted(status: Status, action: Action, reason: Reason, probeLog: seq<ProbeEvent>) {
      || (action, reason) == AutomaticRecoveryAction(status, isContainer)
      || (isContainer && status.desiredRunning && action == RecoverGateway && reason == DNSUnresponsive
          && Verdict(probeLog) == Unavailable)
    }

    /** An operation was launched: the log says why, the lock is taken, and the probe's results are forgotten. */
    ghost predicate Launched(sight: Sight, operation: (Action, Reason), recoveryLog: Log, probeLog: seq<ProbeEvent>,
        held: bool, now: nat)
      reads this, recovery, probe
    {
      && sight.configRead && !sight.busy && sight.status.Some? && !sight.busyAgain && sight.stageAllowed
      && lifecycleHeld && !held && recovery.operationActive && !manual
      && recovery.log == recoveryLog + [Failed(operation.1, now), AutoStart(operation.1)]
      && operation.1 != NoReason && Warranted(sight.status.value, operation.0, operation.1, probeLog)
      && (isContainer ==> operation.0 == RecoverGateway && NASReason(operation.1) && sight.status.value.desiredRunning)
      && (operation.1 == DNSUnresponsive ==> Verdict(probeLog) == Unavailable)
      && probe.log == probeLog + [ProbeEvent.Reset]
    }

    /** A confirmed failure: counts it, and launches the operation when the guard allows it. */
    method React(action: Action, reason: Reason, operationError: Option<OperationError>, now: nat)
      returns (launched: Option<(Action, Reason)>)
      requires Valid() && reason != NoReason
      modifies this`lifecycleHeld, this`manual, recovery, probe
      ensures Valid() && probe.inFlight == old(probe.inFlight)
      ensures launched.None? ==> lifecycleHeld == old(lifecycleHeld) && probe.log == old(probe.log)
      ensures launched.Some? ==>
                && launched.value == (action, reason)
                && lifecycleHeld && !old(lifecycleHeld) && recovery.operationActive && !manual
                && recovery.log == old(recovery.log) + [Failed(reason, now), AutoStart(reason)]
                && probe.log == old(probe.log) + [ProbeEvent.Reset]
    {
      hide Streak, HasSchedule, Justified, Released, RefusalRun, Due, Last, Before, Backoff;
      var start := recovery.ObserveFailure(reason, now);
      launched := None;
      if start {
        launched := Launch(action, reason, operationError, now);
      }
    }

    /** Takes the lifecycle lock and the incident's attempt, or leaves both alone. */
    method Launch(action: Action, reason: Reason, operationError: Option<OperationError>, now: nat)
      returns (launched: Option<(Action, Reason)>)
      requires Valid()
      modifies this`lifecycleHeld, this`manual, recovery, probe
      ensures Valid() && probe.inFlight == old(probe.inFlight)
      ensures launched.Some? <==> !old(lifecycleHeld) && !old(recovery.attempted) && operationError.None?
      ensures launched.None? ==> lifecycleHeld == old(lifecycleHeld) && probe.log == old(probe.log)
      ensures launched.Some? ==>
                && launched.value == (action, reason) && lifecycleHeld && recovery.operationActive && !manual
                && recovery.log == old(recovery.log) + [AutoStart(reason)]
                && probe.log == old(probe.log) + [ProbeEvent.Reset]
    {
      hide Streak, HasSchedule, Justified, Released, RefusalRun, Due, Last, Before, Backoff;
      launched := None;
      if lifecycleHeld {
        return;
      }
      lifecycleHeld := true;
      var begun := recovery.Begin(reason);
      if !begun {
        lifecycleHeld := false;
        return;
      }
      if operationError.Some? {
        lifecycleHeld := false;
        recovery.FinishAutomatic(operationError, now);
        return;
      }
      manual := false;
      probe.Reset();
      launched := Some((action, reason));
    }

    /** The controller learns how the operation ended, while the lifecycle lock is still held. */
    method Notify(failure: Option<OperationError>, fullTransition: bool, now: nat)
      requires Valid() && recovery.operationActive
      modifies recovery, probe
      ensures Valid() && lifecycleHeld && !recovery.operationActive && probe.inFlight == old(probe.inFlight)
      ensures fullTransition ==> probe.result == Unsure
      ensures failure.None? ==> recovery.phase == Recovering && recovery.log == old(recovery.log) + [Finished]
      ensures failure.Some? ==>
                recovery.EndedWith(failure.value, old(recovery.log), old(recovery.retryAttempts), old(recovery.reason),
                                   now)
      ensures manual ==> recovery.refusedCount == 0
    {
      hide Streak, HasSchedule, Justified, Released, RefusalRun, Due, Last, Before, Backoff;
      if fullTransition {
        probe.Reset();
      }
      if manual {
        recovery.FinishManual(failure, now);
      } else {
        recovery.FinishAutomatic(failure, now);
      }
    }

    /** The lock is given back once the controller knows: until then no operation can be started. */
    method Unlock()
      requires Valid() && !recovery.operationActive
      modifies this`lifecycleHeld
      ensures Valid() && !lifecycleHeld
    {
      lifecycleHeld := false;
    }

    /** A person asks for a recovery; refused while another lifecycle operation runs. */
    method StartManual(operationError: Option<OperationError>) returns (accepted: bool)
      requires Valid()
      modifies this`lifecycleHeld, this`manual, recovery, probe
      ensures Valid() && probe.inFlight == old(probe.inFlight)
      ensures accepted <==> !old(lifecycleHeld) && operationError.None?
      ensures accepted ==> lifecycleHeld && manual && recovery.operationActive
      ensures accepted ==> recovery.log == old(recovery.log) + [ManualStart] && recovery.retryAttempts == 0
      ensures !accepted ==> lifecycleHeld == old(lifecycleHeld) && recovery.log == old(recovery.log)
    {
      hide Streak, HasSchedule, Justified, Released, RefusalRun, Due, Last, Before, Backoff;
      if lifecycleHeld || operationError.Some? {
        return false;
      }
      lifecycleHeld, manual := true, true;
      probe.Reset();
      recovery.BeginManual(if isContainer then Some(GatewayIncomplete) else None);
      return true;
    }
  }

  /** A permanent error schedules nothing, but it does not end recovery for good: one healthy
      sample followed by a failure of the full recovery schedules a retry. */
  method RetryAfterPermanentError(c: Controller, failure: OperationError, ended: nat, reason: Reason,
      now: nat) returns (start: bool)
    requires c.Valid() && c.operationActive && NASReason(reason)
    requires failure.permanent && !failure.confirmedUnhealthy
    modifies c
    ensures c.Valid() && !start && c.phase == GaveUp
    ensures c.retryAt == Some(now + Backoff(old(c.retryAttempts) + 1))
    ensures c.log == old(c.log) + [Finished, Healthy(false), Failed(reason, now),
                                   Scheduled(c.retryAttempts, now, now + Backoff(c.retryAttempts))]
  {
    hide Streak, HasSchedule, Justified, Released, RefusalRun, Due, Last, Before, Backoff;
    c.FinishAutomatic(Some(failure), ended);
    assert c.retryAt == None && c.phase == GaveUp;
    c.ObserveHealthy();
    assert c.phase == Recovering;
    start := c.ObserveFailure(reason, now);
  }
}
