/** The automatic recovery controller (`mihomo_recovery.go`). The ghost `log` is the whole
    history of effective calls; the invariant keeps every automatic start justified by it. */
module MihomoRecovery {
  import opened Text
  import opened Arithmetic
  import opened RecoveryLog

  datatype Phase = Idle | Observing | Recovering | GaveUp

  /** An operation's error, reduced to the tests made on it. */
  datatype OperationError = OperationError(text: string, permanent: bool, timedOut: bool, contended: bool,
                                           confirmedUnhealthy: bool)

  const CONFIRMED_UNHEALTHY := OperationError("confirmed gateway failure after recovery", false, false, false, true)

  const HEALTHY_CONFIRMATIONS := 2
  const UNKNOWN_LIMIT := 6

  /** `recoveryTimeout`: a permanent refusal is never a timeout. */
  predicate RetryableTimeout(failure: OperationError) {
    !failure.permanent && failure.timedOut
  }

  /** Failures that need no second observation. */
  predicate EnoughAtOnce(reason: Reason) {
    reason in {ProcessMissing, DNSMissing, GatewayIncomplete, DataPlaneMissing, DNSUnresponsive}
  }

  class Controller {
    var phase: Phase
    var reason: Reason
    var error: string
    var refusedCount: nat
    var healthyCount: nat
    var unknownCount: nat
    var attempted: bool
    var operationActive: bool
    var awaitingHealth: bool
    var retryAt: Option<nat>
    var retryAttempts: nat
    ghost var log: Log

    /** Refusals counted towards an incident's first attempt were observed without interruption. */
    ghost predicate Valid()
      reads this
    {
      Core() && (attempted || retryAttempts > 0 || refusedCount <= RefusalRun(log, reason))
    }

    ghost predicate Core()
      reads this
    {
      && (attempted <==> phase in {Recovering, GaveUp})
      && (operationActive ==> attempted && phase == Recovering && healthyCount == 0 && retryAt.None?)
      && healthyCount < HEALTHY_CONFIRMATIONS
      && (healthyCount > 0 ==> log != [] && Last(log) == Healthy(false))
      && retryAttempts == Streak(log)
      && (retryAt.Some? ==> retryAttempts > 0 && HasSchedule(log, retryAt.value))
      && (!attempted ==> Released(log))
      && Justified(log)
    }

    constructor ()
      ensures Valid() && log == [] && phase == Idle
    {
      phase, reason, error := Idle, NoReason, "";
      refusedCount, healthyCount, unknownCount, retryAttempts := 0, 0, 0, 0;
      attempted, operationActive, awaitingHealth, retryAt := false, false, false, None;
      log := [];
    }

    /** No incident. */
    method Clear()
      modifies this`phase, this`reason, this`error, this`refusedCount, this`healthyCount, this`unknownCount,
               this`attempted, this`awaitingHealth, this`retryAt, this`retryAttempts
      ensures phase == Idle && reason == NoReason && error == "" && !attempted && !awaitingHealth && retryAt == None
      ensures refusedCount == healthyCount == unknownCount == retryAttempts == 0
    {
      phase, reason, error := Idle, NoReason, "";
      attempted, awaitingHealth, retryAt := false, false, None;
      refusedCount, healthyCount, unknownCount, retryAttempts := 0, 0, 0, 0;
    }

    /** An operation begins. */
    method Enter()
      modifies this`phase, this`error, this`healthyCount, this`unknownCount, this`attempted, this`operationActive,
               this`awaitingHealth, this`retryAt
      ensures phase == Recovering && error == "" && attempted && operationActive && !awaitingHealth && retryAt == None
      ensures healthyCount == unknownCount == 0
    {
      phase, error, attempted := Recovering, "", true;
      healthyCount, unknownCount := 0, 0;
      operationActive, awaitingHealth, retryAt := true, false, None;
    }

    method ObserveHealthy()
      requires Valid()
      modifies this
      ensures Valid() && operationActive == old(operationActive)
      ensures old(operationActive) ==> log == old(log) && unchanged(this)
      ensures !old(operationActive) ==> log == old(log) + [Healthy(!attempted)]
      ensures !old(operationActive) ==> (attempted <==> old(attempted) && old(healthyCount) + 1 < HEALTHY_CONFIRMATIONS)
      ensures !old(operationActive) && !attempted ==>
                phase == Idle && reason == NoReason && retryAttempts == 0 && retryAt == None
      ensures !old(operationActive) && attempted ==>
                phase == Recovering && retryAttempts == old(retryAttempts) && retryAt == old(retryAt)
    {
      hide Streak, HasSchedule, Justified, Released, RefusalRun, Due, Before, Backoff;
      if operationActive { return; }
      NeutralEvent(log, Healthy(false));
      unknownCount := 0;
      if attempted {
        healthyCount := healthyCount + 1;
        phase := Recovering;
        error := "";
        if healthyCount < HEALTHY_CONFIRMATIONS {
          log := log + [Healthy(false)];
          return;
        }
      }
      Settle();
    }

    /** The incident is over. */
    method Settle()
      requires !operationActive && Justified(log) && (Released(log) || (log != [] && Last(log).Healthy?))
      modifies this
      ensures Valid() && !operationActive && log == old(log) + [Healthy(true)]
      ensures phase == Idle && !attempted && reason == NoReason && retryAttempts == 0 && retryAt == None
    {
      hide Streak, HasSchedule, Justified, Released, RefusalRun, Due, Before, Backoff;
      EndingEvent(log, Healthy(true));
      log := log + [Healthy(true)];
      Clear();
    }

    method ObserveUnknown()
      requires Valid()
      modifies this
      ensures Valid() && operationActive == old(operationActive) && attempted == old(attempted)
              && retryAt == old(retryAt) && retryAttempts == old(retryAttempts)
      ensures old(operationActive) ==> unchanged(this)
      ensures !old(operationActive) ==> log == old(log) + [Unknown] && healthyCount == 0 && refusedCount == 0
      ensures !old(operationActive) && old(phase) == Recovering ==>
                phase == (if old(unknownCount) + 1 >= UNKNOWN_LIMIT then GaveUp else Recovering)
      ensures old(phase) != Recovering ==> phase == old(phase)
    {
      hide Streak, HasSchedule, Justified, Released, RefusalRun, Due, Last, Before, Backoff, Core;
      if operationActive { return; }
      NotConsecutive(Unknown);
      if attempted && phase == Recovering {
        CountUnknown();
      }
    }

    /** An observation that proves nothing: confirmations have to be consecutive. */
    method NotConsecutive(observation: Event)
      requires Valid() && !operationActive && (observation == Unknown || observation == Pending)
      modifies this`healthyCount, this`refusedCount, this`log
      ensures Valid() && log == old(log) + [observation] && healthyCount == 0 && refusedCount == 0
      ensures phase == Recovering ==> attempted
    {
      hide Streak, HasSchedule, Justified, Released, RefusalRun, Due, Last, Before, Backoff;
      NeutralEvent(log, observation);
      log := log + [observation];
      healthyCount, refusedCount := 0, 0;
    }

    method CountUnknown()
      requires Valid() && attempted && phase == Recovering && !operationActive
      modifies this`unknownCount, this`phase, this`error
      ensures Valid() && unknownCount == old(unknownCount) + 1
      ensures phase == if unknownCount >= UNKNOWN_LIMIT then GaveUp else Recovering
    {
      hide Streak, HasSchedule, Justified, Released, RefusalRun, Due, Last, Before, Backoff;
      unknownCount := unknownCount + 1;
      if unknownCount >= UNKNOWN_LIMIT {
        phase := GaveUp;
        error := "gateway health remained unconfirmed after recovery";
      }
    }

    method ObservePending()
      requires Valid()
      modifies this
      ensures Valid() && operationActive == old(operationActive) && attempted == old(attempted) && phase == old(phase)
      ensures old(operationActive) ==> unchanged(this)
      ensures !old(operationActive) ==> log == old(log) + [Pending] && healthyCount == 0 && refusedCount == 0
    {
      if operationActive { return; }
      NotConsecutive(Pending);
    }

    method ObserveStopped()
      requires Valid()
      modifies this
      ensures Valid() && operationActive == old(operationActive)
      ensures old(operationActive) ==> unchanged(this)
      ensures !old(operationActive) ==> log == old(log) + [Stopped] && phase == Idle && !attempted && retryAt == None
    {
      hide Streak, HasSchedule, Justified, Released, RefusalRun, Due, Last, Before, Backoff;
      if operationActive { return; }
      EndingEvent(log, Stopped);
      log := log + [Stopped];
      Clear();
    }

    /** A confirmed failure whose earlier full recovery was never confirmed healthy. */
    predicate Unproven(observed: Reason)
      reads this
    {
      phase == GaveUp && awaitingHealth && retryAt.None? && NASReason(reason) && NASReason(observed)
    }

    predicate RetryDue(now: nat)
      reads this
    {
      phase == GaveUp && retryAt.Some? && retryAt.value <= now
    }

    /** The attempt did not help: a full recovery is retried later, anything else waits for a person. */
    ghost predicate GivenUp(before: Log, attempts: nat, retry: Option<nat>, observed: Reason, now: nat)
      reads this
    {
      && attempted && phase == GaveUp && reason == observed
      && if NASReason(observed) then RetryAppended(before, attempts, now) else log == before && retryAt == retry
    }

    /** The failure was counted for an incident without an attempt; `start` says whether it suffices. */
    ghost predicate Counted(observed: Reason, previous: Reason, count: nat, start: bool)
      reads this
    {
      && phase == Observing && !attempted && reason == observed
      && (start <==> EnoughAtOnce(observed) || (Refusal(observed) && refusedCount >= 2))
      && (Refusal(observed) ==> refusedCount == (if previous == observed then count else 0) + 1)
      && (start && Refusal(observed) ==> retryAttempts > 0 || RefusalRun(log, observed) >= 2)
    }

    /** Says whether an automatic start should be attempted now. */
    method ObserveFailure(observed: Reason, now: nat) returns (start: bool)
      requires Valid()
      modifies this
      ensures Valid() && operationActive == old(operationActive)
      ensures old(operationActive) ==> !start && unchanged(this)
      ensures !old(operationActive) && (old(phase) == Recovering || old(Unproven(observed))) ==>
                !start && GivenUp(old(log) + [Failed(observed, now)], old(retryAttempts), old(retryAt), observed, now)
      ensures old(phase) == GaveUp && !old(Unproven(observed)) && !old(RetryDue(now)) ==>
                !start && phase == GaveUp && attempted && retryAt == old(retryAt)
                && log == old(log) + [Failed(observed, now)]
      ensures old(phase) in {Idle, Observing} || old(RetryDue(now)) ==>
                && log == old(log) + [Failed(observed, now)]
                && Counted(observed, old(reason), old(refusedCount), start)
      ensures start ==> Counted(observed, old(reason), old(refusedCount), start)
    {
      hide Streak, HasSchedule, Justified, Released, RefusalRun, Due, Last, Before, Backoff;
      hide GivenUp, Counted, NASReason, Refusal;
      if operationActive { return false; }
      start := Judge(observed, now);
    }

    /** A failure seen while no operation runs. */
    method Judge(observed: Reason, now: nat) returns (start: bool)
      requires Valid() && !operationActive
      modifies this
      ensures Valid() && !operationActive
      ensures old(phase) == Recovering || old(Unproven(observed)) ==>
                !start && GivenUp(old(log) + [Failed(observed, now)], old(retryAttempts), old(retryAt), observed, now)
      ensures old(phase) == GaveUp && !old(Unproven(observed)) && !old(RetryDue(now)) ==>
                !start && phase == GaveUp && attempted && retryAt == old(retryAt)
                && log == old(log) + [Failed(observed, now)]
      ensures old(phase) in {Idle, Observing} || old(RetryDue(now)) ==>
                && log == old(log) + [Failed(observed, now)]
                && Counted(observed, old(reason), old(refusedCount), start)
    {
      hide Streak, HasSchedule, Justified, Released, RefusalRun, Due, Last, Before, Backoff, Core;
      hide GivenUp, Counted, NASReason, Refusal;
      NoteFailure(observed, now);
      if phase == GaveUp && awaitingHealth && retryAt.None? && NASReason(reason) && NASReason(observed) {
        MarkUnhealthy(observed, error, now);
        return false;
      }
      if phase == GaveUp && retryAt.Some? && retryAt.value <= now {
        LiftGuard();
      }
      if attempted && phase == Recovering {
        MarkUnhealthy(observed, "mihomo remained unhealthy after restart", now);
        return false;
      }
      if attempted || phase == GaveUp {
        return false;
      }
      start := CountFailure(observed);
    }

    /** Every effective failure is logged, and ends a run of confirmations. */
    method NoteFailure(observed: Reason, now: nat)
      requires Valid() && !operationActive
      modifies this`log, this`healthyCount, this`unknownCount
      ensures Core() && log == old(log) + [Failed(observed, now)] && healthyCount == unknownCount == 0
      ensures attempted <==> phase in {Recovering, GaveUp}
      ensures RetryDue(now) ==> Released(log)
      ensures RefusalRun(log, observed) >= 1
      ensures attempted || retryAttempts > 0 || (reason == observed ==> refusedCount + 1 <= RefusalRun(log, observed))
      ensures phase == GaveUp && retryAt.Some? ==> retryAttempts > 0
    {
      hide Streak, HasSchedule, Justified, Released, RefusalRun, Due, Last, Before, Backoff;
      NeutralEvent(log, Failed(observed, now));
      if phase == GaveUp && retryAt.Some? && retryAt.value <= now {
        ScheduleBecomesDue(log, retryAt.value, now);
      }
      log := log + [Failed(observed, now)];
      healthyCount, unknownCount := 0, 0;
    }

    /** A due retry gives the attempt back. */
    method LiftGuard()
      requires Core() && Released(log) && phase == GaveUp && !operationActive
      modifies this`attempted, this`phase
      ensures Core() && !attempted && phase == Observing
    {
      hide Streak, HasSchedule, Justified, Released, RefusalRun, Due, Last, Before, Backoff;
      attempted, phase := false, Observing;
    }

    /** The log is `before` and one more retry, whose time is the current retry time. */
    ghost predicate RetryAppended(before: Log, attempts: nat, now: nat)
      reads this
    {
      && retryAttempts == attempts + 1
      && retryAt == Some(now + Backoff(retryAttempts))
      && log == before + [Scheduled(retryAttempts, now, now + Backoff(retryAttempts))]
    }

    /** Ends the attempt that did not help. */
    method MarkUnhealthy(observed: Reason, text: string, now: nat)
      requires Core() && attempted && !operationActive && healthyCount == 0
      modifies this
      ensures Valid() && !operationActive && GivenUp(old(log), old(retryAttempts), old(retryAt), observed, now)
    {
      hide Streak, HasSchedule, Justified, Released, RefusalRun, Due, Last, Before, Backoff;
      phase, reason, error := GaveUp, observed, text;
      if NASReason(observed) {
        error := "gateway remained unhealthy after full recovery";
        ScheduleTimeoutRetry(CONFIRMED_UNHEALTHY, now);
      }
    }

    /** Counts a failure of an incident without an attempt, and judges whether it suffices. */
    method CountFailure(observed: Reason) returns (start: bool)
      requires Core() && !attempted && !operationActive && healthyCount == 0
      requires RefusalRun(log, observed) >= 1
      requires retryAttempts > 0 || (reason == observed ==> refusedCount + 1 <= RefusalRun(log, observed))
      modifies this`phase, this`reason, this`error, this`refusedCount
      ensures Valid() && Counted(observed, old(reason), old(refusedCount), start)
    {
      hide Streak, HasSchedule, Justified, Released, RefusalRun, Due, Last, Before, Backoff;
      if reason != observed {
        reason, refusedCount := observed, 0;
      }
      phase, error := Observing, "";
      if EnoughAtOnce(observed) {
        return true;
      }
      if Refusal(observed) {
        refusedCount := refusedCount + 1;
        return refusedCount >= 2;
      }
      return false;
    }

    /** Takes the incident's only attempt. */
    method Begin(starting: Reason) returns (begun: bool)
      requires Valid()
      modifies this
      ensures Valid()
      ensures begun <==> !old(attempted)
      ensures begun ==>
                !old(operationActive) && operationActive && phase == Recovering
                && log == old(log) + [AutoStart(starting)]
      ensures !begun ==> unchanged(this)
    {
      hide Streak, HasSchedule, Justified, Released, RefusalRun, Due, Last, Before, Backoff;
      if attempted || phase == Recovering || phase == GaveUp {
        return false;
      }
      StartEvent(log, AutoStart(starting));
      log := log + [AutoStart(starting)];
      reason := starting;
      Enter();
      return true;
    }

    /** A person starts a recovery; the lifecycle mutex is held, so none is running. */
    method BeginManual(starting: Option<Reason>)
      requires Valid() && !operationActive
      modifies this
      ensures Valid() && operationActive && phase == Recovering && retryAttempts == 0
      ensures log == old(log) + [ManualStart]
    {
      hide Streak, HasSchedule, Justified, Released, RefusalRun, Due, Last, Before, Backoff;
      EndingEvent(log, ManualStart);
      log := log + [ManualStart];
      retryAttempts := 0;
      Enter();
      if starting.Some? {
        reason := starting.value;
      }
    }

    /** The end of an automatic operation. */
    method FinishAutomatic(failure: Option<OperationError>, now: nat)
      requires Valid() && operationActive
      modifies this
      ensures Valid() && !operationActive
      ensures failure.None? ==> phase == Recovering && awaitingHealth && log == old(log) + [Finished]
      ensures failure.Some? ==> EndedWith(failure.value, old(log), old(retryAttempts), old(reason), now)
    {
      hide Streak, HasSchedule, Justified, Released, RefusalRun, Due, Last, Before, Backoff;
      operationActive, awaitingHealth := false, failure.None?;
      Conclude(failure, now);
    }

    /** The end of a manual operation. */
    method FinishManual(failure: Option<OperationError>, now: nat)
      requires Valid() && operationActive
      modifies this
      ensures Valid() && !operationActive
      ensures refusedCount == 0
      ensures failure.None? ==> phase == Recovering && awaitingHealth && log == old(log) + [Finished]
      ensures failure.Some? ==> EndedWith(failure.value, old(log), old(retryAttempts), old(reason), now)
    {
      hide Streak, HasSchedule, Justified, Released, RefusalRun, Due, Last, Before, Backoff;
      operationActive, awaitingHealth := false, failure.None?;
      attempted, refusedCount := true, 0;
      Conclude(failure, now);
    }

    /** What an error at the end of an operation leaves: contention gives the attempt back,
        a timeout or a confirmed failure of a full recovery is retried, anything else is final. */
    ghost predicate EndedWith(failure: OperationError, before: Log, attempts: nat, starting: Reason, now: nat)
      reads this
    {
      && reason == starting && healthyCount == 0
      && if NASReason(starting) && failure.contended && !failure.permanent then
           phase == Observing && !attempted && retryAt == None && retryAttempts == attempts
           && log == before + [Contended]
         else
           && phase == GaveUp && attempted
           && if NASReason(starting) && (RetryableTimeout(failure) || failure.confirmedUnhealthy)
              then RetryAppended(before + [Finished], attempts, now)
              else retryAt == None && retryAttempts == attempts && log == before + [Finished]
    }

    /** What both endings share: contention gives the attempt back, an error ends it, success awaits proof. */
    method Conclude(failure: Option<OperationError>, now: nat)
      requires Valid() && !operationActive && attempted && phase == Recovering && healthyCount == 0 && retryAt == None
      modifies this
      ensures Valid() && !operationActive && awaitingHealth == old(awaitingHealth)
      ensures old(refusedCount) == 0 ==> refusedCount == 0
      ensures failure.None? ==> phase == Recovering && log == old(log) + [Finished]
      ensures failure.Some? ==> EndedWith(failure.value, old(log), old(retryAttempts), old(reason), now)
    {
      hide Streak, HasSchedule, Justified, Released, RefusalRun, Due, Last, Before, Backoff, Core, RetryAppended;
      if failure.Some? && failure.value.contended && !failure.value.permanent && NASReason(reason) {
        Defer();
        return;
      }
      Finish(failure, now);
    }

    /** The lock was taken by someone else: the operation has not run, so the attempt is given back. */
    method Defer()
      requires Valid() && !operationActive && attempted && phase == Recovering && healthyCount == 0 && retryAt == None
      modifies this
      ensures Valid() && !operationActive && awaitingHealth == old(awaitingHealth) && reason == old(reason)
      ensures refusedCount == 0 && healthyCount == 0
      ensures phase == Observing && !attempted && retryAt == None && retryAttempts == old(retryAttempts)
              && log == old(log) + [Contended]
    {
      hide Streak, HasSchedule, Justified, Released, RefusalRun, Due, Last, Before, Backoff;
      ContendedEvent(log);
      log := log + [Contended];
      phase, error := Observing, "";
      attempted := false;
      refusedCount, healthyCount, unknownCount := 0, 0, 0;
      retryAt := None;
    }

    method Finish(failure: Option<OperationError>, now: nat)
      requires Valid() && !operationActive && attempted && phase == Recovering && healthyCount == 0 && retryAt == None
      modifies this
      ensures Valid() && !operationActive && awaitingHealth == old(awaitingHealth) && reason == old(reason) && attempted
      ensures phase == (if failure.Some? then GaveUp else Recovering)
      ensures refusedCount == old(refusedCount) && healthyCount == 0
      ensures if failure.Some? && NASReason(reason)
              && (RetryableTimeout(failure.value) || failure.value.confirmedUnhealthy)
              then RetryAppended(old(log) + [Finished], old(retryAttempts), now)
              else retryAt == None && retryAttempts == old(retryAttempts) && log == old(log) + [Finished]
    {
      hide Streak, HasSchedule, Justified, Released, RefusalRun, Due, Last, Before, Backoff;
      NeutralEvent(log, Finished);
      log := log + [Finished];
      if failure.Some? {
        phase, error := GaveUp, failure.value.text;
        ScheduleTimeoutRetry(failure.value, now);
        return;
      }
      phase, error := Recovering, "";
    }

    /** Schedules a retry of a full recovery, with exponential backoff. */
    method ScheduleTimeoutRetry(failure: OperationError, now: nat)
      requires Justified(log) && retryAttempts == Streak(log)
      modifies this`retryAttempts, this`retryAt, this`log
      ensures Justified(log) && retryAttempts == Streak(log)
      ensures Released(old(log)) ==> Released(log)
      ensures retryAttempts > old(retryAttempts) ==> retryAt.Some? && HasSchedule(log, retryAt.value)
      ensures if NASReason(reason) && (RetryableTimeout(failure) || failure.confirmedUnhealthy)
              then RetryAppended(old(log), old(retryAttempts), now)
              else retryAttempts == old(retryAttempts) && retryAt == old(retryAt) && log == old(log)
    {
      hide Streak, HasSchedule, Justified, Released, RefusalRun, Due, Last, Before, Backoff;
      if !NASReason(reason) { return; }
      if !RetryableTimeout(failure) && !failure.confirmedUnhealthy { return; }
      retryAttempts := retryAttempts + 1;
      var delay := RetryDelay(retryAttempts);
      retryAt := Some(now + delay);
      ScheduledEvent(log, retryAttempts, now);
      log := log + [Scheduled(retryAttempts, now, now + delay)];
    }
  }

  /** Doubles the first delay for every retry after the first, up to the longest one. */
  method RetryDelay(attempts: nat) returns (delay: nat)
    requires attempts >= 1
    ensures delay == Backoff(attempts)
  {
    var i := 1;
    delay := FIRST_DELAY;
    while i < attempts && delay < LONGEST_DELAY
      invariant 1 <= i <= attempts
      invariant delay == FIRST_DELAY * PowerOfTwo(i - 1)
    {
      delay, i := delay * 2, i + 1;
    }
    PowersGrow(i - 1, attempts - 1);
    if delay > LONGEST_DELAY {
      delay := LONGEST_DELAY;
    }
  }
}
