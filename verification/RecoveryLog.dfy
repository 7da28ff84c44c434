/** Histories of the automatic recovery controller, and what they say about its starts. */
module RecoveryLog {
  import opened Arithmetic

  datatype Reason =
    | NoReason
    | ProcessMissing
    | ControllerRefused
    | GatewayIncomplete
    | DNSMissing
    | DataPlaneMissing
    | DNSUnresponsive
    | NASControllerRefused
    | OtherReason(text: string)

  /** Reasons whose cure is a full recovery of the container's gateway. */
  predicate NASReason(reason: Reason) {
    reason in {GatewayIncomplete, DNSMissing, DataPlaneMissing, DNSUnresponsive, NASControllerRefused}
  }

  predicate Refusal(reason: Reason) {
    reason in {ControllerRefused, NASControllerRefused}
  }

  /** What an effective call did, in call order. Calls ignored while an operation runs leave no trace. */
  datatype Event =
    | Healthy(settles: bool)
    | Unknown
    | Pending
    | Stopped
    | Failed(reason: Reason, now: nat)
    | AutoStart(reason: Reason)
    | ManualStart
    | Finished
    | Contended
    | Scheduled(attempt: nat, at: nat, until: nat)

  type Log = seq<Event>

  const FIRST_DELAY := 30
  const LONGEST_DELAY := 900

  /** 30 s doubled for every retry after the first, at most 15 min. */
  function Backoff(attempt: nat): nat
    requires attempt >= 1
  {
    var delay := FIRST_DELAY * PowerOfTwo(attempt - 1);
    if delay > LONGEST_DELAY then LONGEST_DELAY else delay
  }

  function Before(log: Log): Log
    requires log != []
  {
    log[..|log| - 1]
  }

  function Last(log: Log): Event
    requires log != []
  {
    log[|log| - 1]
  }

  /** Retries scheduled since the incident was settled, stopped, or taken over by hand. */
  function Streak(log: Log): nat {
    if log == [] then 0
    else match Last(log)
      case Scheduled(_, _, _) => Streak(Before(log)) + 1
      case Stopped => 0
      case ManualStart => 0
      case Healthy(settles) => if settles then 0 else Streak(Before(log))
      case _ => Streak(Before(log))
  }

  /** A retry scheduled for `until` since the last start. */
  predicate HasSchedule(log: Log, until: nat) {
    log != [] && !Last(log).AutoStart? && !Last(log).ManualStart?
    && ((Last(log).Scheduled? && Last(log).until == until) || HasSchedule(Before(log), until))
  }

  /** A retry scheduled since the last start was due at `now`. */
  predicate Due(log: Log, now: nat) {
    log != [] && !Last(log).AutoStart? && !Last(log).ManualStart?
    && ((Last(log).Scheduled? && Last(log).until <= now) || Due(Before(log), now))
  }

  /** The last event lifts the guard that the last automatic start put up. */
  predicate LastReleases(log: Log)
    requires log != []
  {
    match Last(log)
    case Stopped => true
    case Contended => true
    case Healthy(settles) => settles && Before(log) != [] && Last(Before(log)).Healthy?
    case Failed(_, now) => Due(Before(log), now)
    case _ => false
  }

  /** No automatic start since the last manual one, or its guard was lifted. */
  predicate Released(log: Log) {
    log == [] || Last(log).ManualStart?
    || (!Last(log).AutoStart? && (Released(Before(log)) || LastReleases(log)))
  }

  /** Every automatic start was released and every schedule is as far ahead as its number demands. */
  predicate Justified(log: Log) {
    log == [] || (
      && Justified(Before(log))
      && (Last(log).AutoStart? ==> Released(Before(log)))
      && (Last(log).Scheduled? ==>
            && Last(log).attempt == Streak(log)
            && Last(log).attempt >= 1
            && Last(log).until == Last(log).at + Backoff(Last(log).attempt)))
  }

  /** Failures with this reason at the end of the log, uninterrupted. */
  function RefusalRun(log: Log, reason: Reason): nat {
    if log != [] && Last(log).Failed? && Last(log).reason == reason then RefusalRun(Before(log), reason) + 1 else 0
  }

  lemma Appended(log: Log, e: Event)
    ensures Before(log + [e]) == log && Last(log + [e]) == e
  {
  }

  /** Events that neither start, schedule nor settle anything. */
  lemma NeutralEvent(log: Log, e: Event)
    requires e.Unknown? || e.Pending? || e.Finished? || e.Failed? || e == Healthy(false)
    ensures Last(log + [e]) == e && Streak(log + [e]) == Streak(log)
    ensures Justified(log) ==> Justified(log + [e])
    ensures Released(log) ==> Released(log + [e])
    ensures forall until :: HasSchedule(log, until) ==> HasSchedule(log + [e], until)
    ensures e.Failed? ==> RefusalRun(log + [e], e.reason) == RefusalRun(log, e.reason) + 1
    ensures e.Failed? && Due(log, e.now) ==> Released(log + [e])
  {
    hide Backoff;
    Appended(log, e);
  }

  /** Events that end an incident: the streak of retries is over. */
  lemma EndingEvent(log: Log, e: Event)
    requires e.Stopped? || e.ManualStart? || e == Healthy(true)
    ensures Streak(log + [e]) == 0
    ensures Justified(log) ==> Justified(log + [e])
    ensures e == Healthy(true) && log != [] && Last(log).Healthy? ==> Released(log + [e])
    ensures !e.Healthy? || Released(log) ==> Released(log + [e])
  {
    hide Backoff;
    Appended(log, e);
  }

  /** The next retry, as far ahead as its number demands. */
  lemma ScheduledEvent(log: Log, attempt: nat, at: nat)
    requires attempt == Streak(log) + 1
    ensures var until := at + Backoff(attempt);
            var e := Scheduled(attempt, at, until);
            && Streak(log + [e]) == attempt && HasSchedule(log + [e], until)
            && (Justified(log) ==> Justified(log + [e])) && (Released(log) ==> Released(log + [e]))
  {
    hide Backoff;
    Appended(log, Scheduled(attempt, at, at + Backoff(attempt)));
  }

  /** A released start is justified. */
  lemma StartEvent(log: Log, e: Event)
    requires e.AutoStart?
    ensures Streak(log + [e]) == Streak(log)
    ensures Justified(log) && Released(log) ==> Justified(log + [e])
  {
    hide Backoff;
    Appended(log, e);
  }

  /** An operation that did not run lifts the guard it put up. */
  lemma ContendedEvent(log: Log)
    ensures Streak(log + [Contended]) == Streak(log) && Released(log + [Contended])
    ensures Justified(log) ==> Justified(log + [Contended])
  {
    hide Backoff;
    Appended(log, Contended);
  }

  lemma {:induction false} ScheduleBecomesDue(log: Log, until: nat, now: nat)
    requires HasSchedule(log, until) && until <= now
    ensures Due(log, now)
  {
    if !(Last(log).Scheduled? && Last(log).until == until) {
      ScheduleBecomesDue(Before(log), until, now);
    }
  }

  // ---- The theorem, in terms of positions ----

  /** Event `k` lifts the guard put up at `i`. */
  ghost predicate Lifts(log: Log, i: nat, k: nat)
    requires i < k < |log|
  {
    match log[k]
    case Stopped => true
    case Contended => true
    case Healthy(settles) => settles && log[k - 1].Healthy?
    case Failed(_, now) => DueBetween(log, i, k, now)
    case _ => false
  }

  /** Between the start and the failure a retry was scheduled far enough ahead, and its time had come. */
  ghost predicate DueBetween(log: Log, i: nat, k: nat, now: nat)
    requires i < k < |log|
  {
    exists m :: i < m < k && ScheduledWell(log, m) && log[m].until <= now
  }

  ghost predicate ScheduledWell(log: Log, m: nat)
    requires m < |log|
  {
    log[m].Scheduled? && log[m].attempt >= 1 && log[m].attempt == Streak(log[..m + 1])
    && log[m].until == log[m].at + Backoff(log[m].attempt)
  }

  ghost predicate LiftedBetween(log: Log, i: nat, j: nat)
    requires i < j < |log|
  {
    exists k :: i < k < j && Lifts(log, i, k)
  }

  lemma {:induction false} JustifiedPrefix(log: Log, n: nat)
    requires Justified(log) && n <= |log|
    ensures Justified(log[..n])
    decreases |log|
  {
    if n == |log| {
      assert log[..n] == log;
    } else {
      JustifiedPrefix(Before(log), n);
      assert Before(log)[..n] == log[..n];
    }
  }

  lemma {:induction false} DueIsScheduled(log: Log, i: nat, k: nat, now: nat)
    requires Justified(log) && i < k < |log| && log[i].AutoStart?
    requires Due(log[..k], now)
    ensures DueBetween(log, i, k, now)
    decreases k
  {
    var prefix := log[..k];
    assert Last(prefix) == log[k - 1] && Before(prefix) == log[..k - 1];
    if Last(prefix).Scheduled? && Last(prefix).until <= now {
      JustifiedPrefix(log, k);
      assert ScheduledWell(log, k - 1);
    } else {
      DueIsScheduled(log, i, k - 1, now);
      var m :| i < m < k - 1 && ScheduledWell(log, m) && log[m].until <= now;
    }
  }

  lemma {:induction false} ReleasedIsLifted(log: Log, i: nat, n: nat)
    requires Justified(log) && i < n < |log| && log[i].AutoStart?
    requires forall k :: i < k < n ==> !log[k].ManualStart?
    requires Released(log[..n])
    ensures LiftedBetween(log, i, n)
    decreases n
  {
    var prefix := log[..n];
    assert Last(prefix) == log[n - 1] && Before(prefix) == log[..n - 1];
    if LastReleases(prefix) {
      if log[n - 1].Failed? {
        DueIsScheduled(log, i, n - 1, log[n - 1].now);
      }
      assert n - 1 > 0 && log[n - 1].Healthy? ==> Last(Before(prefix)) == log[n - 2];
      assert Lifts(log, i, n - 1);
    } else {
      ReleasedIsLifted(log, i, n - 1);
      var k :| i < k < n - 1 && Lifts(log, i, k);
    }
  }

  /** Between two automatic starts with no manual one between them, the guard was lifted by two
      consecutive healthy observations, an observed stop, a contended operation, or a failure at
      or after a retry time that lay `Backoff(n)` ahead when the n-th retry was scheduled. */
  lemma StartsAreSpaced(log: Log, i: nat, j: nat)
    requires Justified(log) && i < j < |log|
    requires log[i].AutoStart? && log[j].AutoStart?
    requires forall k :: i < k < j ==> !log[k].ManualStart?
    ensures LiftedBetween(log, i, j)
  {
    JustifiedPrefix(log, j + 1);
    assert Last(log[..j + 1]) == log[j] && Before(log[..j + 1]) == log[..j];
    ReleasedIsLifted(log, i, j);
  }
}
