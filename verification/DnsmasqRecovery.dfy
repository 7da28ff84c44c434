/** The dnsmasq watchdog's controller (`dnsmasq_recovery.go`): one start per incident. */
module DnsmasqRecovery {
  datatype Phase = Idle | Observing | Recovering | GaveUp

  datatype Event = Healthy | Unknown | Missing | AutoStart | Finished

  type Log = seq<Event>

  const HEALTHY_CONFIRMATIONS := 2

  /** Since the last start, two consecutive observations were healthy. */
  predicate Released(log: Log) {
    log == [] || (
      && log[|log| - 1] != AutoStart
      && (Released(log[..|log| - 1]) || (|log| >= 2 && log[|log| - 1] == Healthy && log[|log| - 2] == Healthy)))
  }

  predicate Justified(log: Log) {
    log == [] || (Justified(log[..|log| - 1]) && (log[|log| - 1] == AutoStart ==> Released(log[..|log| - 1])))
  }

  predicate EndsHealthy(log: Log) {
    log != [] && log[|log| - 1] == Healthy
  }

  lemma EventAppended(log: Log, e: Event)
    ensures EndsHealthy(log + [e]) <==> e == Healthy
    ensures e != AutoStart && Released(log) ==> Released(log + [e])
    ensures e == Healthy && EndsHealthy(log) ==> Released(log + [e])
    ensures Justified(log) && (e == AutoStart ==> Released(log)) ==> Justified(log + [e])
  {
    assert (log + [e])[..|log|] == log;
  }

  class Controller {
    var phase: Phase
    var failedOperation: bool
    var healthyCount: nat
    var attempted: bool
    var operationActive: bool
    ghost var log: Log

    ghost predicate Valid()
      reads this
    {
      && (attempted <==> phase in {Recovering, GaveUp})
      && (operationActive ==> attempted && healthyCount == 0)
      && healthyCount < HEALTHY_CONFIRMATIONS
      && (healthyCount > 0 ==> EndsHealthy(log))
      && (!attempted ==> Released(log))
      && Justified(log)
    }

    constructor ()
      ensures Valid() && log == []
    {
      phase, failedOperation, healthyCount, attempted, operationActive, log := Idle, false, 0, false, false, [];
    }

    method ObserveHealthy()
      requires Valid()
      modifies this
      ensures Valid()
      ensures if old(operationActive) then unchanged(this) else log == old(log) + [Healthy]
      ensures !old(operationActive) ==> (attempted <==> old(attempted) && old(healthyCount) + 1 < HEALTHY_CONFIRMATIONS)
    {
      hide Released, Justified, EndsHealthy;
      if operationActive { return; }
      EventAppended(log, Healthy);
      log := log + [Healthy];
      if attempted {
        healthyCount := healthyCount + 1;
        phase, failedOperation := Recovering, false;
        if healthyCount < HEALTHY_CONFIRMATIONS {
          return;
        }
      }
      phase, failedOperation, healthyCount, attempted := Idle, false, 0, false;
    }

    method ObserveUnknown()
      requires Valid()
      modifies this
      ensures Valid() && attempted == old(attempted) && phase == old(phase)
      ensures if old(operationActive) then unchanged(this) else log == old(log) + [Unknown] && healthyCount == 0
    {
      hide Released, Justified, EndsHealthy;
      if operationActive { return; }
      EventAppended(log, Unknown);
      log := log + [Unknown];
      healthyCount := 0;
    }

    method ObserveMissing() returns (start: bool)
      requires Valid()
      modifies this
      ensures Valid()
      ensures if old(operationActive) then unchanged(this) else log == old(log) + [Missing]
      ensures start <==> !old(attempted)
      ensures old(attempted) && !old(operationActive) ==> phase == GaveUp
    {
      hide Released, Justified, EndsHealthy;
      if operationActive { return false; }
      EventAppended(log, Missing);
      log := log + [Missing];
      healthyCount := 0;
      if attempted && phase == Recovering {
        phase, failedOperation := GaveUp, true;
        return false;
      }
      if attempted || phase == GaveUp {
        return false;
      }
      phase, failedOperation := Observing, false;
      return true;
    }

    method Begin() returns (begun: bool)
      requires Valid()
      modifies this
      ensures Valid() && (begun <==> !old(attempted))
      ensures if begun then operationActive && log == old(log) + [AutoStart] else unchanged(this)
    {
      hide Released, Justified, EndsHealthy;
      if attempted || phase == Recovering || phase == GaveUp {
        return false;
      }
      EventAppended(log, AutoStart);
      log := log + [AutoStart];
      phase, failedOperation, attempted, healthyCount, operationActive := Recovering, false, true, 0, true;
      return true;
    }

    method FinishAutomatic(failed: bool)
      requires Valid() && operationActive
      modifies this
      ensures Valid() && !operationActive && attempted && log == old(log) + [Finished]
      ensures phase == if failed then GaveUp else Recovering
    {
      hide Released, Justified, EndsHealthy;
      EventAppended(log, Finished);
      log := log + [Finished];
      operationActive, failedOperation := false, failed;
      phase := if failed then GaveUp else Recovering;
    }
  }

  lemma {:induction false} JustifiedPrefix(log: Log, n: nat)
    requires Justified(log) && n <= |log|
    ensures Justified(log[..n])
    decreases |log|
  {
    if n == |log| {
      assert log[..n] == log;
    } else {
      JustifiedPrefix(log[..|log| - 1], n);
      assert log[..|log| - 1][..n] == log[..n];
    }
  }

  ghost predicate TwoHealthyBetween(log: Log, i: nat, j: nat)
    requires i < j <= |log|
  {
    exists k :: i < k < j - 1 && log[k] == Healthy && log[k + 1] == Healthy
  }

  lemma {:induction false} ReleasedAfterStart(log: Log, i: nat, n: nat)
    requires i < n <= |log| && log[i] == AutoStart && Released(log[..n])
    ensures TwoHealthyBetween(log, i, n)
    decreases n
  {
    assert log[..n][..n - 1] == log[..n - 1];
    assert log[..n][n - 1] == log[n - 1];
    if n >= 2 && log[n - 1] == Healthy && log[n - 2] == Healthy {
      assert i < n - 2 && log[n - 2 + 1] == Healthy;
    } else {
      ReleasedAfterStart(log, i, n - 1);
      var k :| i < k < n - 2 && log[k] == Healthy && log[k + 1] == Healthy;
    }
  }

  /** Two automatic starts are separated by two healthy observations in a row. */
  lemma StartsAreSpaced(log: Log, i: nat, j: nat)
    requires Justified(log) && i < j < |log| && log[i] == AutoStart && log[j] == AutoStart
    ensures TwoHealthyBetween(log, i, j)
  {
    JustifiedPrefix(log, j + 1);
    assert log[..j + 1][..j] == log[..j] && log[..j + 1][j] == log[j];
    ReleasedAfterStart(log, i, j);
  }
}
