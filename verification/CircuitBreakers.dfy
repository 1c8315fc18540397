/**
 The circuit breaker: closed, open after too many failures, half-open once the
 recovery time has passed. Any number of callers may be admitted and report in any
 order; each admitted call reports once.
 */
module CircuitBreakers {

  datatype State = Closed | Open | HalfOpen

  datatype Config = Config(failureThreshold: nat, recoveryTimeout: int, successThreshold: nat) {
    predicate Valid() {
      failureThreshold >= 1 && recoveryTimeout > 0 && successThreshold >= 1
    }
  }

  datatype Breaker = Breaker(state: State, failures: nat, successes: nat, openedAt: int, probeInFlight: bool)

  const NEW := Breaker(Closed, 0, 0, 0, false)

  /** Reading the state moves an open breaker on once its recovery time has passed. */
  function Recover(c: Config, b: Breaker, now: int): Breaker {
    if b.state == Open && now - b.openedAt >= c.recoveryTimeout then b.(state := HalfOpen, probeInFlight := false)
        else b
  }

  predicate Admits(b: Breaker) {
    b.state == Closed || (b.state == HalfOpen && !b.probeInFlight)
  }

  function Admit(b: Breaker): Breaker
    requires Admits(b)
  {
    if b.state == HalfOpen then b.(probeInFlight := true) else b
  }

  function RecordSuccess(c: Config, b: Breaker): Breaker {
    if b.state == HalfOpen then
      if b.successes + 1 >= c.successThreshold
          then b.(state := Closed, failures := 0, successes := 0, probeInFlight := false)
      else b.(successes := b.successes + 1, probeInFlight := false)
    else
      b.(failures := 0)
  }

  /** A failure that (re)opens the breaker and restarts its recovery time. */
  predicate FailureOpens(c: Config, b: Breaker) {
    b.state == HalfOpen || b.failures + 1 >= c.failureThreshold
  }

  function RecordFailure(c: Config, b: Breaker, now: int): Breaker {
    var counted := b.(failures := b.failures + 1, successes := 0, probeInFlight := false);
    if FailureOpens(c, b) then counted.(state := Open, openedAt := now) else counted
  }

  // ----- Runs -----

  datatype Event =
    | Admitted(call: nat, during: State, at: int)
    | Reported(call: nat, ok: bool, before: State, after: State, opens: bool, at: int)

  /** Calls are numbered as they are admitted; `inFlight` holds those that have not reported. */
  datatype World = World(breaker: Breaker, clock: int, calls: nat, inFlight: set<nat>, log: seq<Event>)

  datatype Step = Read(now: int) | Enter(now: int) | Finish(call: nat, ok: bool, now: int)

  predicate Enabled(w: World, step: Step) {
    w.clock <= step.now && (step.Finish? ==> step.call in w.inFlight)
  }

  function Next(c: Config, w: World, step: Step): World {
    if !Enabled(w, step) then w
    else
      match step
      case Read(now) => w.(breaker := Recover(c, w.breaker, now), clock := now)
      case Enter(now) =>
        var b := Recover(c, w.breaker, now);
        if Admits(b) then
          World(Admit(b), now, w.calls + 1, w.inFlight + {w.calls}, w.log + [Admitted(w.calls, b.state, now)])
        else w.(breaker := b, clock := now)
      case Finish(call, ok, now) =>
        var b := if ok then RecordSuccess(c, w.breaker) else RecordFailure(c, w.breaker, now);
        World(b, now, w.calls, w.inFlight - {call},
              w.log + [Reported(call, ok, w.breaker.state, b.state, !ok && FailureOpens(c, w.breaker), now)])
  }

  function Run(c: Config, w: World, steps: seq<Step>): World {
    if steps == [] then w else Next(c, Run(c, w, steps[..|steps| - 1]), steps[|steps| - 1])
  }

  const START := World(NEW, 0, 0, {}, [])

  // ----- What the fields mean in terms of what happened -----

  predicate IsProbe(e: Event) {
    e.Admitted? && e.during == HalfOpen
  }

  /** A half-open admission that no report has followed yet. */
  predicate ProbePending(log: seq<Event>) {
    log != [] &&
    var e := log[|log| - 1];
    e.Admitted? && (e.during == HalfOpen || ProbePending(log[..|log| - 1]))
  }

  /** Half-open successes since the last failure or closing. */
  function Streak(log: seq<Event>): nat {
    if log == [] then 0
    else
      var e, earlier := log[|log| - 1], Streak(log[..|log| - 1]);
      if e.Admitted? then earlier
      else if !e.ok then 0
      else if e.before == HalfOpen then (if e.after == HalfOpen then earlier + 1 else 0)
      else earlier
  }

  ghost predicate OpeningsBy(log: seq<Event>, latest: int) {
    forall k :: 0 <= k < |log| && log[k].Reported? && log[k].opens ==> log[k].at <= latest
  }

  ghost predicate HasOpened(log: seq<Event>) {
    exists k :: 0 <= k < |log| && log[k].Reported? && log[k].opens
  }

  /** Nothing was admitted before the recovery time had passed since every earlier opening. */
  ghost predicate AdmissionsWaited(c: Config, log: seq<Event>) {
    forall j, k :: 0 <= j < k < |log| && log[j].Reported? && log[j].opens && log[k].Admitted? ==>
      log[j].at + c.recoveryTimeout <= log[k].at
  }

  ghost predicate ReportBetween(log: seq<Event>, i: int, j: int)
    requires 0 <= i < j < |log|
  {
    exists k :: i < k < j && log[k].Reported?
  }

  /** Two half-open admissions always have a report between them. */
  ghost predicate ProbesSeparated(log: seq<Event>) {
    forall i, j :: 0 <= i < j < |log| && IsProbe(log[i]) && IsProbe(log[j]) ==> ReportBetween(log, i, j)
  }

  /** Each closing ends a streak of exactly as many half-open successes as the configuration asks for. */
  ghost predicate ClosingsEarned(c: Config, log: seq<Event>) {
    forall k :: 0 <= k < |log| && log[k].Reported? && log[k].before == HalfOpen && log[k].after == Closed ==>
      log[k].ok && Streak(log[..k]) + 1 == c.successThreshold
  }

  ghost predicate CountersOk(c: Config, b: Breaker, log: seq<Event>) {
    && (b.state == Closed ==> b.failures < c.failureThreshold)
    && b.successes == Streak(log) && (b.state != HalfOpen ==> b.successes == 0) && b.successes < c.successThreshold
    && (ProbePending(log) ==> b.state == HalfOpen && b.probeInFlight)
  }

  ghost predicate TimesOk(c: Config, b: Breaker, clock: int, log: seq<Event>) {
    HasOpened(log) ==>
      && OpeningsBy(log, b.openedAt) && b.openedAt <= clock
      && (b.state != Open ==> b.openedAt + c.recoveryTimeout <= clock)
  }

  ghost predicate LogOk(c: Config, log: seq<Event>) {
    AdmissionsWaited(c, log) && ProbesSeparated(log) && ClosingsEarned(c, log)
  }

  ghost predicate Invariant(c: Config, w: World) {
    && CountersOk(c, w.breaker, w.log) && TimesOk(c, w.breaker, w.clock, w.log) && LogOk(c, w.log)
    && (forall call :: call in w.inFlight ==> call < w.calls)
  }

  lemma Snoc(log: seq<Event>, e: Event)
    ensures (log + [e])[..|log|] == log && (log + [e])[|log|] == e && |log + [e]| == |log| + 1
    ensures forall k :: 0 <= k < |log| ==> (log + [e])[k] == log[k] && (log + [e])[..k] == log[..k]
  {
  }

  lemma {:induction false} NoPendingProbe(log: seq<Event>, i: nat)
    requires !ProbePending(log) && i < |log| && IsProbe(log[i])
    ensures exists k :: i < k < |log| && log[k].Reported?
  {
    var last := |log| - 1;
    if log[last].Admitted? {
      NoPendingProbe(log[..last], i);
      var k :| i < k < last && log[..last][k].Reported?;
      assert log[k].Reported?;
    } else {
      assert i < last && log[last].Reported?;
    }
  }

  lemma AdmissionKeepsLog(c: Config, log: seq<Event>, e: Event)
    requires e.Admitted? && LogOk(c, log)
    requires HasOpened(log) ==> OpeningsBy(log, e.at - c.recoveryTimeout)
    requires e.during == HalfOpen ==> !ProbePending(log)
    ensures LogOk(c, log + [e])
  {
    Snoc(log, e);
    var longer := log + [e];
    forall j, k | 0 <= j < k < |longer| && longer[j].Reported? && longer[j].opens && longer[k].Admitted?
      ensures longer[j].at + c.recoveryTimeout <= longer[k].at
    {
      if k == |log| {
        assert log[j].Reported? && log[j].opens;
      }
    }
    forall i, j | 0 <= i < j < |longer| && IsProbe(longer[i]) && IsProbe(longer[j])
      ensures ReportBetween(longer, i, j)
    {
      if j == |log| {
        NoPendingProbe(log, i);
        var k :| i < k < |log| && log[k].Reported?;
        assert longer[k].Reported?;
      } else {
        assert ReportBetween(log, i, j);
        var k :| i < k < j && log[k].Reported?;
        assert longer[k].Reported?;
      }
    }
  }

  lemma ReportKeepsLog(c: Config, log: seq<Event>, e: Event)
    requires e.Reported? && LogOk(c, log)
    requires e.before == HalfOpen && e.after == Closed ==> e.ok && Streak(log) + 1 == c.successThreshold
    ensures LogOk(c, log + [e])
  {
    Snoc(log, e);
    var longer := log + [e];
    forall i, j | 0 <= i < j < |longer| && IsProbe(longer[i]) && IsProbe(longer[j])
      ensures ReportBetween(longer, i, j)
    {
      assert ReportBetween(log, i, j);
      var k :| i < k < j && log[k].Reported?;
      assert longer[k].Reported?;
    }
  }

  /** Reading the state keeps what the fields mean. */
  lemma RecoverKeeps(c: Config, b: Breaker, clock: int, now: int, log: seq<Event>)
    requires CountersOk(c, b, log) && TimesOk(c, b, clock, log) && clock <= now
    ensures CountersOk(c, Recover(c, b, now), log) && TimesOk(c, Recover(c, b, now), now, log)
  {
  }

  lemma AdmissionKeepsCounters(c: Config, b: Breaker, log: seq<Event>, e: Event)
    requires CountersOk(c, b, log) && Admits(b) && e.Admitted? && e.during == b.state
    ensures CountersOk(c, Admit(b), log + [e])
  {
    Snoc(log, e);
  }

  lemma AdmissionKeepsTimes(c: Config, b: Breaker, now: int, log: seq<Event>, e: Event)
    requires TimesOk(c, b, now, log) && Admits(b) && e.Admitted?
    ensures TimesOk(c, Admit(b), now, log + [e])
  {
    Snoc(log, e);
    var longer := log + [e];
    if HasOpened(longer) {
      var k :| 0 <= k < |longer| && longer[k].Reported? && longer[k].opens;
      assert log[k] == longer[k];
    }
  }

  lemma EnterKeepsInvariant(c: Config, w: World, now: int)
    requires c.Valid() && Invariant(c, w) && w.clock <= now
    ensures Invariant(c, Next(c, w, Enter(now)))
  {
    var b := Recover(c, w.breaker, now);
    RecoverKeeps(c, w.breaker, w.clock, now, w.log);
    if Admits(b) {
      var e := Admitted(w.calls, b.state, now);
      AdmissionKeepsLog(c, w.log, e);
      AdmissionKeepsCounters(c, b, w.log, e);
      AdmissionKeepsTimes(c, b, now, w.log, e);
    }
  }

  lemma OpeningsExtend(log: seq<Event>, e: Event, latest: int, now: int)
    requires e.Reported? && e.at == now
    requires HasOpened(log) ==> OpeningsBy(log, latest) && latest <= now
    ensures HasOpened(log + [e]) <==> HasOpened(log) || e.opens
    ensures HasOpened(log) || e.opens ==> OpeningsBy(log + [e], if e.opens then now else latest)
  {
    Snoc(log, e);
    var longer := log + [e];
    assert longer[|log|] == e;
    if HasOpened(log) {
      var k :| 0 <= k < |log| && log[k].Reported? && log[k].opens;
      assert longer[k] == log[k];
    }
    forall k | 0 <= k < |longer| && longer[k].Reported? && longer[k].opens
      ensures longer[k].at <= (if e.opens then now else latest)
    {
      if k < |log| {
        assert log[k].Reported? && log[k].opens;
      }
    }
  }

  lemma SuccessKeepsCounters(c: Config, b: Breaker, log: seq<Event>, e: Event)
    requires c.Valid() && CountersOk(c, b, log)
    requires e.Reported? && e.ok && e.before == b.state && e.after == RecordSuccess(c, b).state
    ensures CountersOk(c, RecordSuccess(c, b), log + [e])
    ensures e.before == HalfOpen && e.after == Closed ==> Streak(log) + 1 == c.successThreshold
  {
    Snoc(log, e);
  }

  lemma FailureKeepsCounters(c: Config, b: Breaker, log: seq<Event>, e: Event)
    requires c.Valid() && CountersOk(c, b, log) && e.Reported? && !e.ok
    ensures CountersOk(c, RecordFailure(c, b, e.at), log + [e])
  {
    Snoc(log, e);
  }

  lemma SuccessKeepsInvariant(c: Config, w: World, call: nat, now: int)
    requires c.Valid() && Invariant(c, w) && w.clock <= now && call in w.inFlight
    ensures Invariant(c, Next(c, w, Finish(call, true, now)))
  {
    var e := Reported(call, true, w.breaker.state, RecordSuccess(c, w.breaker).state, false, now);
    SuccessKeepsCounters(c, w.breaker, w.log, e);
    ReportKeepsLog(c, w.log, e);
    OpeningsExtend(w.log, e, w.breaker.openedAt, now);
  }

  lemma FailureKeepsInvariant(c: Config, w: World, call: nat, now: int)
    requires c.Valid() && Invariant(c, w) && w.clock <= now && call in w.inFlight
    ensures Invariant(c, Next(c, w, Finish(call, false, now)))
  {
    var b := RecordFailure(c, w.breaker, now);
    var e := Reported(call, false, w.breaker.state, b.state, FailureOpens(c, w.breaker), now);
    FailureKeepsCounters(c, w.breaker, w.log, e);
    ReportKeepsLog(c, w.log, e);
    OpeningsExtend(w.log, e, w.breaker.openedAt, now);
  }

  lemma NextKeepsInvariant(c: Config, w: World, step: Step)
    requires c.Valid() && Invariant(c, w)
    ensures Invariant(c, Next(c, w, step))
  {
    if Enabled(w, step) {
      match step
      case Read(now) => RecoverKeeps(c, w.breaker, w.clock, now, w.log);
      case Enter(now) => EnterKeepsInvariant(c, w, now);
      case Finish(call, ok, now) =>
        if ok {
          SuccessKeepsInvariant(c, w, call, now);
        } else {
          FailureKeepsInvariant(c, w, call, now);
        }
    }
  }

  /** Over every interleaving of admissions, reports and state reads. */
  lemma {:induction false} BreakerSafety(c: Config, steps: seq<Step>)
    requires c.Valid()
    ensures Invariant(c, Run(c, START, steps))
  {
    if steps != [] {
      BreakerSafety(c, steps[..|steps| - 1]);
      NextKeepsInvariant(c, Run(c, START, steps[..|steps| - 1]), steps[|steps| - 1]);
    }
  }

  lemma {:induction false} StreakIsUnbroken(log: seq<Event>) returns (i: nat)
    ensures i <= |log| && HalfOpenSuccesses(log[i..]) == Streak(log)
    ensures forall k :: i <= k < |log| ==> log[k].Admitted? || log[k].ok
  {
    if log == [] {
      i := 0;
    } else {
      var e := log[|log| - 1];
      if e.Reported? && (!e.ok || (e.before == HalfOpen && e.after != HalfOpen)) {
        i := |log|;
      } else {
        i := StreakIsUnbroken(log[..|log| - 1]);
        assert log[i..][..|log[i..]| - 1] == log[..|log| - 1][i..];
      }
    }
  }

  function HalfOpenSuccesses(log: seq<Event>): nat {
    if log == [] then 0
    else
      var e := log[|log| - 1];
      HalfOpenSuccesses(log[..|log| - 1]) + if e.Reported? && e.ok && e.before == HalfOpen then 1 else 0
  }

  /**
   Whenever the breaker closes, the reports up to that one end in the required number of half-open
   successes, with no failure among them.
   */
  lemma ClosingNeedsSuccesses(c: Config, steps: seq<Step>, k: nat) returns (i: nat)
    requires c.Valid()
    requires var log := Run(c, START, steps).log;
             k < |log| && log[k].Reported? && log[k].before == HalfOpen && log[k].after == Closed
    ensures var log := Run(c, START, steps).log;
            && i <= k && HalfOpenSuccesses(log[i..k + 1]) == c.successThreshold
            && forall m :: i <= m <= k ==> log[m].Admitted? || log[m].ok
  {
    BreakerSafety(c, steps);
    i := ClosingEarned(c, Run(c, START, steps).log, k);
  }

  lemma ClosingEarned(c: Config, log: seq<Event>, k: nat) returns (i: nat)
    requires ClosingsEarned(c, log)
    requires k < |log| && log[k].Reported? && log[k].before == HalfOpen && log[k].after == Closed
    ensures i <= k && HalfOpenSuccesses(log[i..k + 1]) == c.successThreshold
    ensures forall m :: i <= m <= k ==> log[m].Admitted? || log[m].ok
  {
    var earlier := log[..k];
    i := StreakIsUnbroken(earlier);
    assert log[i..k + 1][..k - i] == earlier[i..];
    forall m | i <= m <= k
      ensures log[m].Admitted? || log[m].ok
    {
      assert m < k ==> log[m] == earlier[m];
    }
  }

  // ----- State, admissions and reports follow from what was reported -----

  /** Failures since the last success outside a half-open period, or the last closing. */
  function FailureRun(log: seq<Event>): nat {
    if log == [] then 0
    else
      var e, earlier := log[|log| - 1], FailureRun(log[..|log| - 1]);
      if e.Admitted? then earlier
      else if !e.ok then earlier + 1
      else if e.before == HalfOpen && e.after == HalfOpen then earlier
      else 0
  }

  /** The state that the last report left; a breaker nobody has reported to is closed. */
  function ReportedState(log: seq<Event>): State {
    if log == [] then Closed
    else if log[|log| - 1].Reported? then log[|log| - 1].after else ReportedState(log[..|log| - 1])
  }

  function LastOpening(log: seq<Event>): int {
    if log == [] then 0
    else
      var e := log[|log| - 1];
      if e.Reported? && e.opens then e.at else LastOpening(log[..|log| - 1])
  }

  /** The state at a time: as the last report left it, but half-open once an open breaker's time has passed. */
  predicate StandsAs(c: Config, log: seq<Event>, state: State, time: int) {
    || state == ReportedState(log)
    || (ReportedState(log) == Open && state == HalfOpen && LastOpening(log) + c.recoveryTimeout <= time)
  }

  ghost predicate Told(c: Config, b: Breaker, clock: int, log: seq<Event>) {
    && b.failures == FailureRun(log) && b.successes == Streak(log) && b.probeInFlight == ProbePending(log)
    && StandsAs(c, log, b.state, clock)
    && (b.state != HalfOpen ==> !b.probeInFlight && b.successes == 0)
    && (ReportedState(log) == Open ==> b.openedAt == LastOpening(log))
  }

  /** A call is let in by a closed breaker, and as the only probe by one whose recovery time has passed. */
  predicate MayEnter(c: Config, log: seq<Event>, now: int) {
    match ReportedState(log)
    case Closed => true
    case HalfOpen => !ProbePending(log)
    case Open => LastOpening(log) + c.recoveryTimeout <= now && !ProbePending(log)
  }

  /**
   A failure opens the breaker while it is half-open or when it is the last that is tolerated; a success
   closes it when it is the last that is asked for; any other report leaves the state.
   */
  predicate ReportRule(c: Config, before: seq<Event>, e: Event)
    requires e.Reported?
  {
    && StandsAs(c, before, e.before, e.at)
    && (e.opens <==> !e.ok && (e.before == HalfOpen || c.failureThreshold <= FailureRun(before) + 1))
    && e.after == if e.opens then Open
                  else if e.ok && e.before == HalfOpen && c.successThreshold <= Streak(before) + 1 then Closed
                  else e.before
  }

  predicate EntryRule(c: Config, before: seq<Event>, e: Event) {
    if e.Admitted? then MayEnter(c, before, e.at) && StandsAs(c, before, e.during, e.at) else ReportRule(c, before, e)
  }

  ghost predicate LogTold(c: Config, log: seq<Event>) {
    forall k :: 0 <= k < |log| ==> EntryRule(c, log[..k], log[k])
  }

  lemma LogToldLonger(c: Config, log: seq<Event>, e: Event)
    requires LogTold(c, log) && EntryRule(c, log, e)
    ensures LogTold(c, log + [e])
  {
    Snoc(log, e);
  }

  lemma RecoverKeepsTold(c: Config, b: Breaker, clock: int, now: int, log: seq<Event>)
    requires Told(c, b, clock, log) && clock <= now
    ensures Told(c, Recover(c, b, now), now, log)
    ensures Admits(Recover(c, b, now)) <==> MayEnter(c, log, now)
  {
  }

  lemma EnterKeepsTold(c: Config, b: Breaker, log: seq<Event>, call: nat, now: int)
    requires Told(c, b, now, log) && Admits(b) && MayEnter(c, log, now)
    ensures Told(c, Admit(b), now, log + [Admitted(call, b.state, now)])
    ensures EntryRule(c, log, Admitted(call, b.state, now))
  {
    Snoc(log, Admitted(call, b.state, now));
  }

  lemma SuccessKeepsTold(c: Config, b: Breaker, log: seq<Event>, call: nat, now: int)
    requires c.Valid() && Told(c, b, now, log)
    ensures var b' := RecordSuccess(c, b); var e := Reported(call, true, b.state, b'.state, false, now);
            Told(c, b', now, log + [e]) && EntryRule(c, log, e)
  {
    var b' := RecordSuccess(c, b);
    Snoc(log, Reported(call, true, b.state, b'.state, false, now));
  }

  lemma FailureKeepsTold(c: Config, b: Breaker, log: seq<Event>, call: nat, now: int)
    requires c.Valid() && Told(c, b, now, log)
    ensures var b' := RecordFailure(c, b, now);
            var e := Reported(call, false, b.state, b'.state, FailureOpens(c, b), now);
            Told(c, b', now, log + [e]) && EntryRule(c, log, e)
  {
    var b' := RecordFailure(c, b, now);
    Snoc(log, Reported(call, false, b.state, b'.state, FailureOpens(c, b), now));
  }

  lemma ClockKeepsTold(c: Config, b: Breaker, clock: int, now: int, log: seq<Event>)
    requires Told(c, b, clock, log) && clock <= now
    ensures Told(c, b, now, log)
  {
  }

  lemma NextKeepsTold(c: Config, w: World, step: Step)
    requires c.Valid() && Told(c, w.breaker, w.clock, w.log) && LogTold(c, w.log)
    ensures var w' := Next(c, w, step); Told(c, w'.breaker, w'.clock, w'.log) && LogTold(c, w'.log)
  {
    if Enabled(w, step) {
      match step
      case Read(now) => RecoverKeepsTold(c, w.breaker, w.clock, now, w.log);
      case Enter(now) =>
        var b := Recover(c, w.breaker, now);
        RecoverKeepsTold(c, w.breaker, w.clock, now, w.log);
        if Admits(b) {
          EnterKeepsTold(c, b, w.log, w.calls, now);
          LogToldLonger(c, w.log, Admitted(w.calls, b.state, now));
        }
      case Finish(call, ok, now) =>
        ClockKeepsTold(c, w.breaker, w.clock, now, w.log);
        if ok {
          SuccessKeepsTold(c, w.breaker, w.log, call, now);
        } else {
          FailureKeepsTold(c, w.breaker, w.log, call, now);
        }
        LogToldLonger(c, w.log, Next(c, w, step).log[|w.log|]);
    }
  }

  lemma {:induction false} RunKeepsTold(c: Config, steps: seq<Step>)
    requires c.Valid()
    ensures var w := Run(c, START, steps); Told(c, w.breaker, w.clock, w.log) && LogTold(c, w.log)
  {
    if steps != [] {
      RunKeepsTold(c, steps[..|steps| - 1]);
      NextKeepsTold(c, Run(c, START, steps[..|steps| - 1]), steps[|steps| - 1]);
    }
  }

  /** In every run each report changes the state as the reports before it say, and as it must. */
  lemma ReportsDecideState(c: Config, steps: seq<Step>, k: nat)
    requires c.Valid() && k < |Run(c, START, steps).log|
    ensures EntryRule(c, Run(c, START, steps).log[..k], Run(c, START, steps).log[k])
  {
    RunKeepsTold(c, steps);
  }

  /** In every run a call that comes is let in exactly if what was reported allows it. */
  lemma AdmissionIff(c: Config, steps: seq<Step>, now: int)
    requires c.Valid() && Run(c, START, steps).clock <= now
    ensures var w := Run(c, START, steps);
            Next(c, w, Enter(now)).calls == w.calls + if MayEnter(c, w.log, now) then 1 else 0
  {
    RunKeepsTold(c, steps);
    var w := Run(c, START, steps);
    RecoverKeepsTold(c, w.breaker, w.clock, now, w.log);
  }

  // ----- How many probes a half-open period can have in flight -----

  /** The breaker has just become half-open. */
  ghost predicate PeriodStarts(c: Config, w: World) {
    Invariant(c, w) && w.breaker.state == HalfOpen && !w.breaker.probeInFlight && w.breaker.successes == 0
  }

  ghost predicate StaysHalfOpen(c: Config, w: World, steps: seq<Step>) {
    forall n :: 0 <= n <= |steps| ==> Run(c, w, steps[..n]).breaker.state == HalfOpen
  }

  /** The calls admitted since the period started that have not reported. */
  function Probes(start: World, now: World): set<nat> {
    now.inFlight - start.inFlight
  }

  ghost predicate SingleProbe(c: Config, w: World) {
    forall steps :: StaysHalfOpen(c, w, steps) ==> |Probes(w, Run(c, w, steps))| <= 1
  }

  /** With nothing else in flight, the flag tells exactly whether the one probe is out. */
  ghost predicate CleanPeriod(w: World, now: World) {
    && now.breaker.state == HalfOpen && w.inFlight == {} && |now.inFlight| <= 1
    && (now.breaker.probeInFlight <==> now.inFlight != {})
  }

  lemma CleanEnter(c: Config, now: World, at: int)
    requires now.breaker.state == HalfOpen && now.clock <= at && |now.inFlight| <= 1
    requires now.breaker.probeInFlight <==> now.inFlight != {}
    ensures var after := Next(c, now, Enter(at));
            after.breaker.probeInFlight && |after.inFlight| == 1
  {
    if !now.breaker.probeInFlight {
      assert {} + {now.calls} == {now.calls};
    }
  }

  lemma CleanFinish(c: Config, now: World, step: Step)
    requires step.Finish? && Enabled(now, step) && now.breaker.state == HalfOpen && |now.inFlight| <= 1
    ensures !Next(c, now, step).breaker.probeInFlight && Next(c, now, step).inFlight == {}
  {
    assert |now.inFlight - {step.call}| == |now.inFlight| - 1;
  }

  lemma CleanStep(c: Config, w: World, now: World, step: Step)
    requires c.Valid() && CleanPeriod(w, now) && Next(c, now, step).breaker.state == HalfOpen
    ensures CleanPeriod(w, Next(c, now, step))
  {
    if Enabled(now, step) {
      match step
      case Read(_) =>
      case Enter(at) => CleanEnter(c, now, at);
      case Finish(_, _, _) => CleanFinish(c, now, step);
    }
  }

  lemma SubsetSize(a: set<nat>, b: set<nat>)
    requires a <= b
    ensures |a| <= |b|
  {
    if a != {} {
      var x :| x in a;
      SubsetSize(a - {x}, b - {x});
    }
  }

  lemma {:induction false} CleanRun(c: Config, w: World, steps: seq<Step>)
    requires c.Valid() && PeriodStarts(c, w) && w.inFlight == {} && StaysHalfOpen(c, w, steps)
    ensures CleanPeriod(w, Run(c, w, steps))
  {
    if steps != [] {
      var init := steps[..|steps| - 1];
      assert forall n :: 0 <= n <= |init| ==> init[..n] == steps[..n];
      CleanRun(c, w, init);
      assert steps[..|steps|] == steps;
      CleanStep(c, w, Run(c, w, init), steps[|steps| - 1]);
    }
  }

  /** If one success closes the breaker, any report ends the period. */
  lemma {:induction false} OneSuccessRun(c: Config, w: World, steps: seq<Step>)
    requires c.Valid() && c.successThreshold == 1 && PeriodStarts(c, w) && StaysHalfOpen(c, w, steps)
    ensures var now := Run(c, w, steps);
            && w.inFlight <= now.inFlight && |Probes(w, now)| <= 1 && now.breaker.successes == 0
            && (!now.breaker.probeInFlight ==> Probes(w, now) == {})
  {
    if steps == [] {
      assert Probes(w, w) == {};
    } else {
      var init, step := steps[..|steps| - 1], steps[|steps| - 1];
      assert forall n :: 0 <= n <= |init| ==> init[..n] == steps[..n];
      OneSuccessRun(c, w, init);
      assert steps[..|steps|] == steps;
      var before, now := Run(c, w, init), Run(c, w, steps);
      if Enabled(before, step) && step.Enter? && !before.breaker.probeInFlight {
        assert Probes(w, now) <= {before.calls};
        SubsetSize(Probes(w, now), {before.calls});
      }
    }
  }

  /** Enter, a late report, enter again. */
  lemma SecondProbeSteps(c: Config, w: World, stale: nat, w1: World, w2: World, w3: World)
    requires c.Valid() && c.successThreshold >= 2 && PeriodStarts(c, w) && stale in w.inFlight
    requires w1 == Next(c, w, Enter(w.clock)) && w2 == Next(c, w1, Finish(stale, true, w.clock))
    requires w3 == Next(c, w2, Enter(w.clock))
    ensures w1.breaker.state == w2.breaker.state == w3.breaker.state == HalfOpen
    ensures {w.calls, w.calls + 1} <= Probes(w, w3)
  {
    assert w1.inFlight == w.inFlight + {w.calls} && !w2.breaker.probeInFlight;
    assert w2.inFlight == w1.inFlight - {stale} && w3.inFlight == w2.inFlight + {w.calls + 1};
  }

  lemma SecondProbe(c: Config, w: World, stale: nat)
    requires c.Valid() && c.successThreshold >= 2 && PeriodStarts(c, w) && stale in w.inFlight
    ensures !SingleProbe(c, w)
  {
    var t := w.clock;
    var s1, s2, s3 := [Enter(t)], [Enter(t), Finish(stale, true, t)], [Enter(t), Finish(stale, true, t), Enter(t)];
    var w1 := Next(c, w, Enter(t));
    var w2 := Next(c, w1, Finish(stale, true, t));
    var w3 := Next(c, w2, Enter(t));
    SecondProbeSteps(c, w, stale, w1, w2, w3);
    assert s3[..0] == [] && s3[..1] == s1 && s3[..2] == s2 && s3[..3] == s3;
    assert s1[..0] == [] && s2[..1] == s1;
    assert Run(c, w, []) == w && Run(c, w, s1) == w1 && Run(c, w, s2) == w2 && Run(c, w, s3) == w3;
    assert StaysHalfOpen(c, w, s3);
    SubsetSize({w.calls, w.calls + 1}, Probes(w, w3));
  }

  /**
   The breaker's single-probe promise holds for a half-open period exactly when no earlier call is
   still in flight as it starts, or one success is enough to close. Otherwise a late report of an
   earlier call lets a second probe in.
   */
  lemma SingleProbeIff(c: Config, w: World)
    requires c.Valid() && PeriodStarts(c, w)
    ensures SingleProbe(c, w) <==> w.inFlight == {} || c.successThreshold == 1
  {
    if w.inFlight == {} || c.successThreshold == 1 {
      forall steps | StaysHalfOpen(c, w, steps)
        ensures |Probes(w, Run(c, w, steps))| <= 1
      {
        if w.inFlight == {} {
          CleanRun(c, w, steps);
          SubsetSize(Probes(w, Run(c, w, steps)), Run(c, w, steps).inFlight);
        } else {
          OneSuccessRun(c, w, steps);
        }
      }
    } else {
      var stale :| stale in w.inFlight;
      SecondProbe(c, w, stale);
    }
  }

  lemma RunNext(c: Config, w: World, steps: seq<Step>, step: Step)
    ensures Run(c, w, steps + [step]) == Next(c, Run(c, w, steps), step)
  {
    assert (steps + [step])[..|steps|] == steps;
  }

  /**
   A run that reaches such a period: two calls enter, one fails and opens the breaker, the other is
   still out when it recovers.
   */
  lemma LateReportBreaksSingleProbe()
    ensures var c, steps := Config(1, 10, 2), [Enter(0), Enter(0), Finish(0, false, 0), Read(10)];
            PeriodStarts(c, Run(c, START, steps)) && !SingleProbe(c, Run(c, START, steps))
  {
    var c := Config(1, 10, 2);
    var s1 := [] + [Enter(0)];
    var s2 := s1 + [Enter(0)];
    var s3 := s2 + [Finish(0, false, 0)];
    var s := s3 + [Read(10)];
    RunNext(c, START, [], Enter(0));
    RunNext(c, START, s1, Enter(0));
    RunNext(c, START, s2, Finish(0, false, 0));
    RunNext(c, START, s3, Read(10));
    assert s == [Enter(0), Enter(0), Finish(0, false, 0), Read(10)];
    BreakerSafety(c, s);
    SingleProbeIff(c, Run(c, START, s));
  }

  // ----- The breaker object -----

  class CircuitBreaker {
    const config: Config
    var state: State
    var failures: nat
    var successes: nat
    var openedAt: int
    var probeInFlight: bool

    ghost function Model(): Breaker
      reads this
    {
      Breaker(state, failures, successes, openedAt, probeInFlight)
    }

    constructor (config: Config)
      requires config.Valid()
      ensures this.config == config && Model() == NEW
    {
      this.config := config;
      state, failures, successes, openedAt, probeInFlight := Closed, 0, 0, 0, false;
    }

    method ReadState(now: int) returns (s: State)
      modifies this
      ensures Model() == Recover(config, old(Model()), now) && s == state
    {
      if state == Open && now - openedAt >= config.recoveryTimeout {
        state := HalfOpen;
        probeInFlight := false;
      }
      s := state;
    }

    method BeforeCall(now: int) returns (admitted: bool)
      modifies this
      ensures var b := Recover(config, old(Model()), now);
              admitted == Admits(b) && Model() == if admitted then Admit(b) else b
    {
      var s := ReadState(now);
      if s == Open {
        return false;
      }
      if s == HalfOpen {
        if probeInFlight {
          return false;
        }
        probeInFlight := true;
      }
      admitted := true;
    }

    method NoteSuccess()
      modifies this
      ensures Model() == RecordSuccess(config, old(Model()))
    {
      if state == HalfOpen {
        successes := successes + 1;
        probeInFlight := false;
        if successes >= config.successThreshold {
          state, failures, successes := Closed, 0, 0;
        }
      } else {
        failures := 0;
      }
    }

    method NoteFailure(now: int)
      modifies this
      ensures Model() == RecordFailure(config, old(Model()), now)
    {
      probeInFlight := false;
      successes := 0;
      failures := failures + 1;
      if state == HalfOpen || failures >= config.failureThreshold {
        state, openedAt := Open, now;
      }
    }
  }
}
