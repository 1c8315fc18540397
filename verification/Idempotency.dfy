/**
 Idempotent execution: a store that admits one starter per key until the record
 expires and replays its result, and the executor that runs the handler with
 retries and reports the outcome.
 */
module Idempotency {
  import opened Numbers
  import opened Outcomes
  import opened Text
  import opened RetryLoop

  datatype Key = Key(namespace: string, name: string)

  datatype Status = Pending | Completed(response: string) | Failed(error: string)

  datatype Row = Row(digest: string, status: Status, expiresAt: int)

  type Table = map<Key, Row>

  datatype Reply = Started | Replay(response: string) | PreviousFailure(error: string)

  datatype BeginError = MissingKey | Conflict | InProgress

  function Purge(t: Table, now: int): Table {
    map k | k in t && t[k].expiresAt >= now :: t[k]
  }

  function Expiry(now: int, ttlSeconds: int): int {
    now + if ttlSeconds < 1 then 1 else ttlSeconds
  }

  /**
   What a caller is told; `now` is what its clock read before it took the lock. A refusal rolls the
   transaction back, expired rows included.
   */
  function Answer(t: Table, k: Key, digest: string, now: int): Result<Reply, BeginError> {
    var live := Purge(t, now);
    if Strip(k.namespace) == "" || Strip(k.name) == "" then Err(MissingKey)
    else if k !in live then Ok(Started)
    else if live[k].digest != digest then Err(Conflict)
    else match live[k].status
      case Completed(response) => Ok(Replay(response))
      case Failed(error) => Ok(PreviousFailure(error))
      case Pending => Err(InProgress)
  }

  function Begin(t: Table, k: Key, digest: string, ttlSeconds: int, now: int): Table {
    match Answer(t, k, digest, now)
    case Err(_) => t
    case Ok(Started) => Purge(t, now)[k := Row(digest, Pending, Expiry(now, ttlSeconds))]
    case Ok(_) => Purge(t, now)
  }

  /** `complete` and `fail` check only that the row is pending, not who started it. */
  predicate CanReport(t: Table, k: Key) {
    k in t && t[k].status == Pending
  }

  function Report(t: Table, k: Key, status: Status): Table {
    if CanReport(t, k) then t[k := t[k].(status := status)] else t
  }

  // ----- Runs of any number of callers -----

  /** `image` is what a result becomes by being stored as JSON and read back. */
  datatype Config = Config(maxAttempts: nat, image: string -> string)

  /** `readAt` is what the clock read as the call began, `at` when its transaction took place. */
  datatype Event =
    | Admitted(key: Key, caller: nat, digest: string, ttlSeconds: int, readAt: int, at: int, expiresAt: int)
    | Ran(key: Key, caller: nat)
    | Finished(key: Key, caller: nat, result: string)
    | GaveUp(key: Key, caller: nat, error: string)
    | Replayed(key: Key, digest: string, response: string, readAt: int)
    | Refused(key: Key, digest: string, readAt: int)

  /** A caller that was told "started" and has not reported: its retry loop after `tries` attempts. */
  datatype Active = Active(key: Key, expiresAt: int, runs: nat, tries: nat, last: Option<Attempt>)

  /** An attempt after which the executor reports a failure; other exceptions pass it by. */
  predicate Fails(a: Attempt) {
    match a
    case Returned(_, awaitable) => awaitable
    case Raised(_, _, ordinary) => ordinary
    case Blocked(_, _) => true
  }

  function ErrorOf(a: Attempt): string {
    if a.Returned? then "GuardrailViolation: returned an awaitable" else a.error
  }

  /** The loop goes on: nothing was tried yet, or the last attempt is retried, and the limit is not reached. */
  predicate GoesOn(limit: nat, a: Active) {
    a.tries < limit && (a.last.None? || Retries(a.last.value))
  }

  datatype World = World(table: Table, clock: int, callers: nat, active: map<nat, Active>, log: seq<Event>)

  /** A begin reads the clock at `readAt`, possibly long before it gets the lock at `now`. */
  datatype Step =
    | Ask(key: Key, digest: string, ttlSeconds: int, readAt: int, now: int)
    | Invoke(caller: nat, attempt: Attempt, now: int)
    | Succeed(caller: nat, result: string, now: int)
    | GiveUp(caller: nat, error: string, now: int)

  predicate Enabled(c: Config, w: World, step: Step) {
    && w.clock <= step.now && (step.Ask? ==> step.readAt <= step.now)
    && (step.Ask? || step.caller in w.active)
    && (step.Invoke? ==> GoesOn(c.maxAttempts, w.active[step.caller]))
    && (step.Succeed? ==> w.active[step.caller].last == Some(Returned(step.result, false)))
    && (step.GiveUp? ==>
          && !GoesOn(c.maxAttempts, w.active[step.caller]) && w.active[step.caller].last.Some?
          && Fails(w.active[step.caller].last.value) && step.error == ErrorOf(w.active[step.caller].last.value))
  }

  function Tried(a: Active, attempt: Attempt): Active {
    a.(tries := a.tries + 1, last := Some(attempt), runs := a.runs + if attempt.Blocked? then 0 else 1)
  }

  function AfterTry(w: World, caller: nat, attempt: Attempt, now: int): World
    requires caller in w.active
  {
    var a := w.active[caller];
    w.(clock := now, active := w.active[caller := Tried(a, attempt)],
       log := if attempt.Blocked? then w.log else w.log + [Ran(a.key, caller)])
  }

  predicate IsReport(e: Event) { e.Finished? || e.GaveUp? }

  function StatusOf(c: Config, e: Event): Status
    requires IsReport(e)
  {
    if e.Finished? then Completed(c.image(e.result)) else Failed(e.error)
  }

  /** A report, which is entered when it is accepted. */
  function AfterReport(c: Config, w: World, caller: nat, e: Event, now: int): World
    requires caller in w.active && IsReport(e)
  {
    var k := w.active[caller].key;
    w.(table := Report(w.table, k, StatusOf(c, e)), clock := now, active := w.active - {caller},
       log := if CanReport(w.table, k) then w.log + [e] else w.log)
  }

  function Next(c: Config, w: World, step: Step): World {
    if !Enabled(c, w, step) then w
    else
      match step
      case Ask(k, digest, ttl, readAt, now) =>
        var t, expiry := Begin(w.table, k, digest, ttl, readAt), Expiry(readAt, ttl);
        (match Answer(w.table, k, digest, readAt)
         case Ok(Started) =>
           World(t, now, w.callers + 1, w.active[w.callers := Active(k, expiry, 0, 0, None)],
                 w.log + [Admitted(k, w.callers, digest, ttl, readAt, now, expiry)])
         case Ok(Replay(response)) =>
           w.(table := t, clock := now, log := w.log + [Replayed(k, digest, response, readAt)])
         case _ => w.(table := t, clock := now, log := w.log + [Refused(k, digest, readAt)]))
      case Invoke(caller, attempt, now) => AfterTry(w, caller, attempt, now)
      case Succeed(caller, result, now) =>
        AfterReport(c, w, caller, Finished(w.active[caller].key, caller, result), now)
      case GiveUp(caller, error, now) => AfterReport(c, w, caller, GaveUp(w.active[caller].key, caller, error), now)
  }

  /** Nobody who has started is past the expiry of what it started. */
  ghost predicate Timely(w: World, step: Step) {
    forall caller :: caller in w.active ==> step.now <= w.active[caller].expiresAt
  }

  const START := World(map[], 0, 0, map[], [])

  /** Steps from a world on. */
  function Run(c: Config, w: World, steps: seq<Step>): World {
    if steps == [] then w else Next(c, Run(c, w, steps[..|steps| - 1]), steps[|steps| - 1])
  }

  /** Every starter reports before its record expires. */
  ghost predicate TimelyRun(c: Config, steps: seq<Step>) {
    forall n :: 0 <= n < |steps| ==> Timely(Run(c, START, steps[..n]), steps[n])
  }

  // ----- What happened to a key -----

  /** The latest admission on a key. */
  function Holder(log: seq<Event>, k: Key): (r: Option<Event>)
    ensures r.Some? ==> r.value.Admitted? && r.value.key == k
  {
    if log == [] then None
    else
      var e := log[|log| - 1];
      if e.Admitted? && e.key == k then Some(e) else Holder(log[..|log| - 1], k)
  }

  function RunsOf(log: seq<Event>, caller: nat): nat {
    if log == [] then 0
    else
      var e := log[|log| - 1];
      RunsOf(log[..|log| - 1], caller) + if e.Ran? && e.caller == caller then 1 else 0
  }

  /** While a record lives only its own digest is let through, and admissions wait for it to expire. */
  predicate WindowRule(before: seq<Event>, e: Event) {
    var holder := Holder(before, e.key);
    match e
    case Admitted(_, _, _, _, _, at, _) => holder.None? || holder.value.expiresAt < at
    case Replayed(_, digest, _, readAt) =>
      holder.Some? && holder.value.digest == digest && readAt <= holder.value.expiresAt
    case _ => true
  }

  /** Only the latest starter runs and finishes, and what is replayed is its result. */
  ghost predicate OwnerRule(c: Config, before: seq<Event>, e: Event) {
    var holder := Holder(before, e.key);
    match e
    case Ran(_, caller) => holder.Some? && holder.value.caller == caller
    case Finished(_, caller, _) => holder.Some? && holder.value.caller == caller
    case GaveUp(_, caller, _) => holder.Some? && holder.value.caller == caller
    case Replayed(k, _, response, _) =>
      holder.Some? && HasResult(c, before, k, holder.value.caller, response)
    case _ => true
  }

  ghost predicate HasResult(c: Config, log: seq<Event>, k: Key, caller: nat, response: string) {
    exists m :: 0 <= m < |log| && log[m].Finished? && log[m].key == k && log[m].caller == caller
        && c.image(log[m].result) == response
  }

  ghost predicate WindowsKept(log: seq<Event>) {
    forall j :: 0 <= j < |log| ==> WindowRule(log[..j], log[j])
  }

  ghost predicate OwnersKept(c: Config, log: seq<Event>) {
    forall j :: 0 <= j < |log| ==> OwnerRule(c, log[..j], log[j])
  }

  lemma Snoc(log: seq<Event>, e: Event)
    ensures (log + [e])[..|log|] == log
    ensures forall k :: Holder(log + [e], k) == if e.Admitted? && e.key == k then Some(e) else Holder(log, k)
    ensures forall caller :: RunsOf(log + [e], caller) == RunsOf(log, caller) + if e.Ran? && e.caller == caller then 1
            else 0
  {
    assert (log + [e])[..|log + [e]| - 1] == log;
  }

  lemma SamePrefixes(log: seq<Event>, e: Event)
    ensures forall j :: 0 <= j < |log| ==> (log + [e])[j] == log[j] && (log + [e])[..j] == log[..j]
    ensures (log + [e])[..|log|] == log && (log + [e])[|log|] == e
  {
  }

  // ----- What holds in every run -----

  ghost predicate RowsMatch(t: Table, log: seq<Event>) {
    forall k :: k in t ==>
      && Holder(log, k).Some?
      && Holder(log, k).value.digest == t[k].digest && Holder(log, k).value.expiresAt == t[k].expiresAt
  }

  /** A key whose latest record is gone had it expire. */
  ghost predicate GoneMeansExpired(t: Table, log: seq<Event>, clock: int) {
    forall k :: k !in t && Holder(log, k).Some? ==> Holder(log, k).value.expiresAt < clock
  }

  ghost predicate WasAdmitted(log: seq<Event>, caller: nat, k: Key, expiresAt: int) {
    exists j :: 0 <= j < |log| && log[j].Admitted? && log[j].caller == caller && log[j].key == k
        && log[j].expiresAt == expiresAt
  }

  ghost predicate ActiveOk(w: World, caller: nat)
    requires caller in w.active
  {
    caller < w.callers && WasAdmitted(w.log, caller, w.active[caller].key, w.active[caller].expiresAt)
  }

  ghost predicate ActivesMatch(w: World) {
    forall caller :: caller in w.active ==> ActiveOk(w, caller)
  }

  predicate LoopOk(c: Config, a: Active, runs: nat) {
    a.runs == runs && runs <= a.tries <= c.maxAttempts
  }

  ghost predicate LoopsMatch(c: Config, w: World) {
    forall caller :: caller in w.active ==> LoopOk(c, w.active[caller], RunsOf(w.log, caller))
  }

  ghost predicate RunsBounded(c: Config, w: World) {
    && LoopsMatch(c, w)
    && (forall caller :: RunsOf(w.log, caller) <= c.maxAttempts)
    && (forall caller :: caller >= w.callers ==> RunsOf(w.log, caller) == 0)
    && (forall j :: 0 <= j < |w.log| && w.log[j].Admitted? ==> w.log[j].caller < w.callers)
  }

  ghost predicate Invariant(c: Config, w: World) {
    && RowsMatch(w.table, w.log) && GoneMeansExpired(w.table, w.log, w.clock) && WindowsKept(w.log)
    && ActivesMatch(w) && RunsBounded(c, w)
  }

  lemma WindowsExtend(log: seq<Event>, e: Event)
    requires WindowsKept(log) && WindowRule(log, e)
    ensures WindowsKept(log + [e])
  {
    SamePrefixes(log, e);
  }

  lemma AdmittedLonger(log: seq<Event>, longer: seq<Event>, caller: nat, k: Key, expiresAt: int)
    requires WasAdmitted(log, caller, k, expiresAt) && log <= longer
    ensures WasAdmitted(longer, caller, k, expiresAt)
  {
    var j :| 0 <= j < |log| && log[j].Admitted? && log[j].caller == caller && log[j].key == k
        && log[j].expiresAt == expiresAt;
    assert longer[j] == log[j];
  }

  predicate SameRecord(a: Active, b: Active) { a.key == b.key && a.expiresAt == b.expiresAt }

  lemma ActivesExtend(w: World, w': World)
    requires ActivesMatch(w) && w'.callers >= w.callers && w.log <= w'.log
    requires forall caller :: caller in w'.active ==>
             caller in w.active && SameRecord(w'.active[caller], w.active[caller])
    ensures ActivesMatch(w')
  {
    forall caller | caller in w'.active
      ensures ActiveOk(w', caller)
    {
      assert ActiveOk(w, caller);
      AdmittedLonger(w.log, w'.log, caller, w.active[caller].key, w.active[caller].expiresAt);
    }
  }

  ghost predicate RowsOk(w: World) {
    RowsMatch(w.table, w.log) && GoneMeansExpired(w.table, w.log, w.clock) && WindowsKept(w.log)
  }

  lemma AdmissionKeepsRows(c: Config, w: World, step: Step)
    requires RowsOk(w) && step.Ask? && Enabled(c, w, step)
    requires Answer(w.table, step.key, step.digest, step.readAt) == Ok(Started)
    ensures RowsOk(Next(c, w, step))
  {
    var e := Admitted(step.key, w.callers, step.digest, step.ttlSeconds, step.readAt, step.now,
                    Expiry(step.readAt, step.ttlSeconds));
    Snoc(w.log, e);
    WindowsExtend(w.log, e);
  }

  lemma NewCallerKeepsActives(w: World, w': World, e: Event)
    requires ActivesMatch(w) && e.Admitted? && w'.log == w.log + [e] && w'.callers == w.callers + 1 == e.caller + 1
    requires w'.active == w.active[w.callers := Active(e.key, e.expiresAt, 0, 0, None)]
    ensures ActivesMatch(w')
  {
    ActivesExtend(w, w.(log := w'.log, callers := w'.callers));
    assert w'.log[|w.log|] == e;
    forall caller | caller in w'.active
      ensures ActiveOk(w', caller)
    {
      assert caller != w.callers ==> ActiveOk(w.(log := w'.log, callers := w'.callers), caller);
    }
  }

  lemma NewCallerKeepsRuns(c: Config, w: World, w': World, e: Event)
    requires RunsBounded(c, w) && e.Admitted? && w'.log == w.log + [e] && w'.callers == w.callers + 1 == e.caller + 1
    requires w'.active == w.active[w.callers := Active(e.key, e.expiresAt, 0, 0, None)]
    ensures RunsBounded(c, w')
  {
    Snoc(w.log, e);
  }

  lemma AdmissionKeepsCallers(c: Config, w: World, step: Step)
    requires ActivesMatch(w) && RunsBounded(c, w) && step.Ask? && Enabled(c, w, step)
    requires Answer(w.table, step.key, step.digest, step.readAt) == Ok(Started)
    ensures ActivesMatch(Next(c, w, step)) && RunsBounded(c, Next(c, w, step))
  {
    var w' := Next(c, w, step);
    var e := Admitted(step.key, w.callers, step.digest, step.ttlSeconds, step.readAt, step.now,
                    Expiry(step.readAt, step.ttlSeconds));
    NewCallerKeepsActives(w, w', e);
    NewCallerKeepsRuns(c, w, w', e);
  }

  lemma AdmissionKeepsInvariant(c: Config, w: World, step: Step)
    requires Invariant(c, w) && step.Ask? && Enabled(c, w, step)
    requires Answer(w.table, step.key, step.digest, step.readAt) == Ok(Started)
    ensures Invariant(c, Next(c, w, step))
  {
    AdmissionKeepsRows(c, w, step);
    AdmissionKeepsCallers(c, w, step);
  }

  /** An answer other than "started" only adds an entry to the log and may purge expired rows. */
  ghost predicate OnlyAnswers(w: World, w': World, e: Event) {
    && w'.log == w.log + [e] && (e.Replayed? || e.Refused?) && WindowRule(w.log, e)
    && w'.callers == w.callers && w'.active == w.active && w.clock <= w'.clock
    && e.readAt <= w'.clock && (w'.table == w.table || w'.table == Purge(w.table, e.readAt))
  }

  lemma AnswerKeepsInvariant(c: Config, w: World, w': World, e: Event)
    requires Invariant(c, w) && OnlyAnswers(w, w', e)
    ensures Invariant(c, w')
  {
    Snoc(w.log, e);
    WindowsExtend(w.log, e);
    ActivesExtend(w, w');
  }

  lemma AskOnlyAnswers(c: Config, w: World, step: Step) returns (e: Event)
    requires Invariant(c, w) && step.Ask? && Enabled(c, w, step)
    requires Answer(w.table, step.key, step.digest, step.readAt) != Ok(Started)
    ensures OnlyAnswers(w, Next(c, w, step), e)
    ensures e.Replayed? ==> CompletedAs(w.table, e.key, e.response) && e.key in Purge(w.table, step.readAt)
    ensures e.readAt == step.readAt
  {
    var Ask(k, digest, _, readAt, _) := step;
    match Answer(w.table, k, digest, readAt)
    case Ok(Replay(response)) => e := Replayed(k, digest, response, readAt);
    case _ => e := Refused(k, digest, readAt);
  }

  predicate CompletedAs(t: Table, k: Key, response: string) {
    k in t && t[k].status == Completed(response)
  }

  lemma AskKeepsInvariant(c: Config, w: World, step: Step)
    requires Invariant(c, w) && step.Ask? && Enabled(c, w, step)
    ensures Invariant(c, Next(c, w, step))
  {
    if Answer(w.table, step.key, step.digest, step.readAt) == Ok(Started) {
      AdmissionKeepsInvariant(c, w, step);
    } else {
      var e := AskOnlyAnswers(c, w, step);
      AnswerKeepsInvariant(c, w, Next(c, w, step), e);
    }
  }

  /** An entry that admits nobody leaves the holders as they were. */
  lemma EntryKeepsRows(w: World, w': World, e: Event)
    requires RowsOk(w) && w'.log == w.log + [e] && !e.Admitted? && !e.Replayed? && w.clock <= w'.clock
    requires w'.table.Keys == w.table.Keys
    requires forall k :: k in w.table ==>
             w'.table[k].digest == w.table[k].digest && w'.table[k].expiresAt == w.table[k].expiresAt
    ensures RowsOk(w')
  {
    Snoc(w.log, e);
    WindowsExtend(w.log, e);
  }

  lemma EntryKeepsRuns(c: Config, w: World, w': World, e: Event)
    requires RunsBounded(c, w) && w'.log == w.log + [e] && !e.Admitted? && w'.callers == w.callers
    requires forall caller :: caller in w'.active ==>
               && caller in w.active && caller < w.callers
               && LoopOk(c, w'.active[caller], w.active[caller].runs + if e.Ran? && e.caller == caller then 1 else 0)
    requires e.Ran? ==> e.caller in w'.active
    ensures RunsBounded(c, w')
  {
    EntryKeepsLoops(c, w, w', e);
    Snoc(w.log, e);
    forall caller: nat
      ensures RunsOf(w'.log, caller) <= c.maxAttempts
    {
      assert e.Ran? && e.caller == caller ==> LoopOk(c, w'.active[caller], RunsOf(w'.log, caller));
    }
  }

  lemma EntryKeepsLoops(c: Config, w: World, w': World, e: Event)
    requires LoopsMatch(c, w) && w'.log == w.log + [e]
    requires forall caller :: caller in w'.active ==>
               && caller in w.active
               && LoopOk(c, w'.active[caller], w.active[caller].runs + if e.Ran? && e.caller == caller then 1 else 0)
    ensures LoopsMatch(c, w')
  {
    forall caller | caller in w'.active
      ensures LoopOk(c, w'.active[caller], RunsOf(w'.log, caller))
    {
      Snoc(w.log, e);
      assert LoopOk(c, w.active[caller], RunsOf(w.log, caller));
    }
  }

  lemma TryKeepsRows(w: World, caller: nat, attempt: Attempt, now: int)
    requires RowsOk(w) && caller in w.active && w.clock <= now
    ensures RowsOk(AfterTry(w, caller, attempt, now))
  {
    if !attempt.Blocked? {
      EntryKeepsRows(w, AfterTry(w, caller, attempt, now), Ran(w.active[caller].key, caller));
    }
  }

  lemma TryKeepsActives(w: World, caller: nat, attempt: Attempt, now: int)
    requires ActivesMatch(w) && caller in w.active
    ensures ActivesMatch(AfterTry(w, caller, attempt, now))
  {
    ActivesExtend(w, AfterTry(w, caller, attempt, now));
  }

  lemma TryKeepsRuns(c: Config, w: World, caller: nat, attempt: Attempt, now: int)
    requires RunsBounded(c, w) && caller in w.active && w.active[caller].tries < c.maxAttempts
    requires forall other :: other in w.active ==> other < w.callers
    ensures RunsBounded(c, AfterTry(w, caller, attempt, now))
  {
    if !attempt.Blocked? {
      EntryKeepsRuns(c, w, AfterTry(w, caller, attempt, now), Ran(w.active[caller].key, caller));
    }
  }

  lemma ActivesAreNumbered(w: World)
    requires ActivesMatch(w)
    ensures forall other :: other in w.active ==> other < w.callers
  {
    assert forall other :: other in w.active ==> ActiveOk(w, other);
  }

  lemma TryKeepsCallers(c: Config, w: World, caller: nat, attempt: Attempt, now: int)
    requires ActivesMatch(w) && RunsBounded(c, w) && caller in w.active && w.active[caller].tries < c.maxAttempts
    ensures ActivesMatch(AfterTry(w, caller, attempt, now)) && RunsBounded(c, AfterTry(w, caller, attempt, now))
  {
    ActivesAreNumbered(w);
    TryKeepsActives(w, caller, attempt, now);
    TryKeepsRuns(c, w, caller, attempt, now);
  }

  lemma ReportKeepsRows(c: Config, w: World, caller: nat, e: Event, now: int)
    requires RowsOk(w) && caller in w.active && w.clock <= now && IsReport(e)
    ensures RowsOk(AfterReport(c, w, caller, e, now))
  {
    if CanReport(w.table, w.active[caller].key) {
      EntryKeepsRows(w, AfterReport(c, w, caller, e, now), e);
    }
  }

  lemma ReportKeepsCallers(c: Config, w: World, caller: nat, e: Event, now: int)
    requires ActivesMatch(w) && RunsBounded(c, w) && caller in w.active && IsReport(e)
    ensures ActivesMatch(AfterReport(c, w, caller, e, now)) && RunsBounded(c, AfterReport(c, w, caller, e, now))
  {
    var w' := AfterReport(c, w, caller, e, now);
    ActivesAreNumbered(w);
    ActivesExtend(w, w');
    if CanReport(w.table, w.active[caller].key) {
      EntryKeepsRuns(c, w, w', e);
    }
  }

  lemma ReportKeepsInvariant(c: Config, w: World, caller: nat, e: Event, now: int)
    requires Invariant(c, w) && caller in w.active && w.clock <= now && IsReport(e)
    ensures Invariant(c, AfterReport(c, w, caller, e, now))
  {
    ReportKeepsRows(c, w, caller, e, now);
    ReportKeepsCallers(c, w, caller, e, now);
  }

  lemma NextKeepsInvariant(c: Config, w: World, step: Step)
    requires Invariant(c, w)
    ensures Invariant(c, Next(c, w, step))
  {
    if Enabled(c, w, step) {
      match step
      case Ask(_, _, _, _, _) => AskKeepsInvariant(c, w, step);
      case Invoke(caller, attempt, now) =>
        TryKeepsRows(w, caller, attempt, now);
        TryKeepsCallers(c, w, caller, attempt, now);
      case Succeed(caller, result, now) =>
        ReportKeepsInvariant(c, w, caller, Finished(w.active[caller].key, caller, result), now);
      case GiveUp(caller, error, now) => 
        ReportKeepsInvariant(c, w, caller, GaveUp(w.active[caller].key, caller, error), now);
    }
  }

  lemma {:induction false} RunKeepsInvariant(c: Config, steps: seq<Step>)
    ensures Invariant(c, Run(c, START, steps))
  {
    if steps != [] {
      RunKeepsInvariant(c, steps[..|steps| - 1]);
      NextKeepsInvariant(c, Run(c, START, steps[..|steps| - 1]), steps[|steps| - 1]);
    }
  }

  /** At most one admission per key until its record has expired, whoever reports when. */
  lemma {:induction false} AdmissionsAreSeparated(log: seq<Event>, i: nat, j: nat)
    requires WindowsKept(log) && i < j < |log|
    requires log[i].Admitted? && log[j].Admitted? && log[i].key == log[j].key
    requires forall m, n :: 0 <= m < n < |log| && log[m].Admitted? && log[n].Admitted? ==> log[m].at <= log[n].at
    ensures log[i].expiresAt < log[j].at
    decreases j
  {
    var m := HolderAt(log[..j], i);
    assert WindowRule(log[..j], log[j]);
    assert log[m].key == log[j].key;
    if m > i {
      AdmissionsAreSeparated(log, i, m);
    }
  }

  /** Where the holder of an earlier admission's key stands. */
  lemma {:induction false} HolderAt(log: seq<Event>, i: nat) returns (m: nat)
    requires i < |log| && log[i].Admitted?
    ensures i <= m < |log| && log[m].Admitted? && Holder(log, log[i].key) == Some(log[m])
    ensures forall n :: m < n < |log| && log[n].key == log[i].key ==> !log[n].Admitted?
  {
    var last := |log| - 1;
    if log[last].Admitted? && log[last].key == log[i].key {
      m := last;
    } else {
      m := HolderAt(log[..last], i);
      assert forall n :: 0 <= n < last ==> log[..last][n] == log[n];
    }
  }

  // ----- What holds when every starter reports in time -----

  ghost predicate ActivesOwn(w: World) {
    forall caller :: caller in w.active ==>
      var a := w.active[caller];
      && Holder(w.log, a.key).Some? && Holder(w.log, a.key).value.caller == caller
      && Holder(w.log, a.key).value.expiresAt == a.expiresAt
      && CanReport(w.table, a.key)
  }

  ghost predicate ResponsesOwn(c: Config, t: Table, log: seq<Event>) {
    forall k :: k in t && t[k].status.Completed? ==>
      Holder(log, k).Some? && HasResult(c, log, k, Holder(log, k).value.caller, t[k].status.response)
  }

  ghost predicate OwnerInvariant(c: Config, w: World) {
    ActivesOwn(w) && ResponsesOwn(c, w.table, w.log) && OwnersKept(c, w.log)
  }

  lemma HasResultLonger(c: Config, log: seq<Event>, e: Event, k: Key, caller: nat, response: string)
    requires HasResult(c, log, k, caller, response)
    ensures HasResult(c, log + [e], k, caller, response)
  {
    var m :| 0 <= m < |log| && log[m].Finished? && log[m].key == k && log[m].caller == caller
        && c.image(log[m].result) == response;
    assert (log + [e])[m] == log[m];
  }

  lemma OwnersExtend(c: Config, log: seq<Event>, e: Event)
    requires OwnersKept(c, log) && OwnerRule(c, log, e)
    ensures OwnersKept(c, log + [e])
  {
    SamePrefixes(log, e);
  }

  lemma ResponsesExtend(c: Config, t: Table, log: seq<Event>, e: Event)
    requires ResponsesOwn(c, t, log)
    requires e.Admitted? ==> e.key !in t || !t[e.key].status.Completed?
    ensures ResponsesOwn(c, t, log + [e])
  {
    Snoc(log, e);
    forall k | k in t && t[k].status.Completed?
      ensures Holder(log + [e], k) == Holder(log, k)
      ensures HasResult(c, log + [e], k, Holder(log, k).value.caller, t[k].status.response)
    {
      HasResultLonger(c, log, e, k, Holder(log, k).value.caller, t[k].status.response);
    }
  }

  lemma AnswerKeepsOwners(c: Config, w: World, w': World, e: Event)
    requires OwnerInvariant(c, w) && OnlyAnswers(w, w', e)
    requires forall caller :: caller in w.active ==> w.active[caller].key in w'.table
    requires e.Replayed? ==> CompletedAs(w.table, e.key, e.response)
    ensures OwnerInvariant(c, w')
  {
    Snoc(w.log, e);
    OwnersExtend(c, w.log, e);
    ResponsesExtend(c, w'.table, w.log, e);
  }

  lemma TimelyRowsSurvive(c: Config, w: World, step: Step)
    requires Invariant(c, w) && OwnerInvariant(c, w) && Timely(w, step) && step.Ask? && step.readAt <= step.now
    ensures forall caller :: caller in w.active ==> w.active[caller].key in Purge(w.table, step.readAt)
  {
    forall caller | caller in w.active
      ensures w.active[caller].key in Purge(w.table, step.readAt)
    {
      var k := w.active[caller].key;
      assert k in w.table && w.table[k].expiresAt == Holder(w.log, k).value.expiresAt == w.active[caller].expiresAt;
    }
  }

  lemma AdmissionKeepsOwners(c: Config, w: World, step: Step)
    requires OwnerInvariant(c, w) && step.Ask? && Enabled(c, w, step)
    requires forall caller :: caller in w.active ==> w.active[caller].key in Purge(w.table, step.readAt)
    requires Answer(w.table, step.key, step.digest, step.readAt) == Ok(Started)
    ensures OwnerInvariant(c, Next(c, w, step))
  {
    var e := Admitted(step.key, w.callers, step.digest, step.ttlSeconds, step.readAt, step.now,
                    Expiry(step.readAt, step.ttlSeconds));
    Snoc(w.log, e);
    OwnersExtend(c, w.log, e);
    ResponsesExtend(c, Purge(w.table, step.readAt), w.log, e);
  }

  lemma AskKeepsOwners(c: Config, w: World, step: Step)
    requires Invariant(c, w) && OwnerInvariant(c, w) && step.Ask? && Enabled(c, w, step) && Timely(w, step)
    ensures OwnerInvariant(c, Next(c, w, step))
  {
    TimelyRowsSurvive(c, w, step);
    if Answer(w.table, step.key, step.digest, step.readAt) == Ok(Started) {
      AdmissionKeepsOwners(c, w, step);
    } else {
      var e := AskOnlyAnswers(c, w, step);
      AnswerKeepsOwners(c, w, Next(c, w, step), e);
    }
  }

  lemma TryKeepsOwners(c: Config, w: World, caller: nat, attempt: Attempt, now: int)
    requires OwnerInvariant(c, w) && caller in w.active
    ensures OwnerInvariant(c, AfterTry(w, caller, attempt, now))
  {
    if !attempt.Blocked? {
      var e := Ran(w.active[caller].key, caller);
      Snoc(w.log, e);
      OwnersExtend(c, w.log, e);
      ResponsesExtend(c, w.table, w.log, e);
    }
  }

  lemma SucceedKeepsOwners(c: Config, w: World, caller: nat, result: string, now: int)
    requires OwnerInvariant(c, w) && caller in w.active
    ensures OwnerInvariant(c, AfterReport(c, w, caller, Finished(w.active[caller].key, caller, result), now))
  {
    var k := w.active[caller].key;
    var e := Finished(k, caller, result);
    Snoc(w.log, e);
    OwnersExtend(c, w.log, e);
    ResponsesExtend(c, w.table, w.log, e);
    var longer := w.log + [e];
    assert longer[|w.log|] == e;
    assert HasResult(c, longer, k, caller, c.image(result));
  }

  lemma GiveUpKeepsOwners(c: Config, w: World, caller: nat, error: string, now: int)
    requires OwnerInvariant(c, w) && caller in w.active
    ensures OwnerInvariant(c, AfterReport(c, w, caller, GaveUp(w.active[caller].key, caller, error), now))
  {
    var e := GaveUp(w.active[caller].key, caller, error);
    Snoc(w.log, e);
    OwnersExtend(c, w.log, e);
    ResponsesExtend(c, w.table, w.log, e);
  }

  lemma NextKeepsOwners(c: Config, w: World, step: Step)
    requires Invariant(c, w) && OwnerInvariant(c, w) && Timely(w, step)
    ensures OwnerInvariant(c, Next(c, w, step))
  {
    if Enabled(c, w, step) {
      match step
      case Ask(_, _, _, _, _) => AskKeepsOwners(c, w, step);
      case Invoke(caller, attempt, now) => TryKeepsOwners(c, w, caller, attempt, now);
      case Succeed(caller, result, now) => SucceedKeepsOwners(c, w, caller, result, now);
      case GiveUp(caller, error, now) => GiveUpKeepsOwners(c, w, caller, error, now);
    }
  }

  lemma {:induction false} TimelyRunKeepsOwners(c: Config, steps: seq<Step>)
    requires TimelyRun(c, steps)
    ensures OwnerInvariant(c, Run(c, START, steps))
  {
    if steps != [] {
      var init := steps[..|steps| - 1];
      assert forall n :: 0 <= n < |init| ==> init[..n] == steps[..n];
      TimelyRunKeepsOwners(c, init);
      RunKeepsInvariant(c, init);
      NextKeepsOwners(c, Run(c, START, init), steps[|steps| - 1]);
    }
  }

  /** How often the handler ran for a key in a stretch of the log. */
  function RunsFor(log: seq<Event>, k: Key, from: nat, end: nat): nat
    requires from <= end <= |log|
  {
    if from == end then 0
    else RunsFor(log, k, from, end - 1) + if log[end - 1].Ran? && log[end - 1].key == k then 1 else 0
  }

  lemma RanIsHolder(c: Config, log: seq<Event>, i: nat, n: nat)
    requires OwnersKept(c, log) && i < n < |log| && log[i].Admitted? && log[n].Ran? && log[n].key == log[i].key
    requires forall m :: i < m < n && log[m].key == log[i].key ==> !log[m].Admitted?
    ensures log[n].caller == log[i].caller
  {
    assert OwnerRule(c, log[..n], log[n]);
    var m := HolderAt(log[..n], i);
    assert m == i;
  }

  lemma RunsNext(log: seq<Event>, end: nat, caller: nat)
    requires 0 < end <= |log|
    ensures RunsOf(log[..end], caller) == RunsOf(log[..end - 1], caller) + if log[end - 1].Ran?
            && log[end - 1].caller == caller then 1 else 0
  {
    assert log[..end][..end - 1] == log[..end - 1];
  }

  lemma {:induction false} WindowRunsAreHolders(c: Config, log: seq<Event>, i: nat, end: nat)
    requires OwnersKept(c, log) && i < end <= |log| && log[i].Admitted?
    requires forall m :: i < m < end && log[m].key == log[i].key ==> !log[m].Admitted?
    ensures RunsFor(log, log[i].key, i, end) <= RunsOf(log[..end], log[i].caller)
    decreases end
  {
    if end > i + 1 {
      WindowRunsAreHolders(c, log, i, end - 1);
      RunsNext(log, end, log[i].caller);
      if log[end - 1].Ran? && log[end - 1].key == log[i].key {
        RanIsHolder(c, log, i, end - 1);
      }
    } else {
      assert RunsFor(log, log[i].key, i, i) == 0;
    }
  }

  lemma {:induction false} RunsOnlyGrow(log: seq<Event>, end: nat, caller: nat)
    requires end <= |log|
    ensures RunsOf(log[..end], caller) <= RunsOf(log, caller)
    decreases |log|
  {
    if end < |log| {
      RunsOnlyGrow(log[..|log| - 1], end, caller);
      assert log[..|log| - 1][..end] == log[..end];
    } else {
      assert log[..end] == log;
    }
  }

  /**
   If every starter reports before its record expires: a replayed response is the JSON image of the
   result of the one starter whose record is still alive, for the same request digest; and from an
   admission until the next one on its key the handler runs at most `maxAttempts` times.
   */
  lemma IdempotentExecution(c: Config, steps: seq<Step>, i: nat, end: nat)
    requires TimelyRun(c, steps)
    requires var log := Run(c, START, steps).log;
             && i < end <= |log| && log[i].Admitted?
             && forall m :: i < m < end && log[m].key == log[i].key ==> !log[m].Admitted?
    ensures var log := Run(c, START, steps).log;
            && RunsFor(log, log[i].key, i, end) <= c.maxAttempts
            && forall j :: i < j < end && log[j].Replayed? && log[j].key == log[i].key ==>
                 && log[j].digest == log[i].digest && log[j].readAt <= log[i].expiresAt
                 && HasResult(c, log[..j], log[i].key, log[i].caller, log[j].response)
  {
    var w := Run(c, START, steps);
    RunKeepsInvariant(c, steps);
    TimelyRunKeepsOwners(c, steps);
    WindowRunsAreHolders(c, w.log, i, end);
    RunsOnlyGrow(w.log, end, w.log[i].caller);
    forall j | i < j < end && w.log[j].Replayed? && w.log[j].key == w.log[i].key
      ensures Holder(w.log[..j], w.log[i].key) == Some(w.log[i])
    {
      var m := HolderAt(w.log[..j], i);
      assert m == i;
    }
    assert forall j :: 0 <= j < |w.log| ==> WindowRule(w.log[..j], w.log[j]) && OwnerRule(c, w.log[..j], w.log[j]);
  }

  // ----- What is answered after a result was stored -----

  predicate Named(k: Key) {
    Strip(k.namespace) != "" && Strip(k.name) != ""
  }

  /** A record lives for the seconds asked for, and at least for one, from the time the call read its clock. */
  predicate LastsAsAsked(e: Event)
    requires e.Admitted?
  {
    IsGreater(e.expiresAt, e.readAt + 1, e.readAt + e.ttlSeconds)
  }

  ghost predicate EntriesOk(w: World) {
    && (forall j :: 0 <= j < |w.log| && w.log[j].Admitted? ==>
          && Named(w.log[j].key) && LastsAsAsked(w.log[j]) && w.log[j].at <= w.clock
          && w.log[j].caller < w.callers)
    && (forall j :: 0 <= j < |w.log| && IsReport(w.log[j]) ==> w.log[j].caller < w.callers)
    && (forall i, j :: 0 <= i < j < |w.log| && w.log[i].Admitted? && w.log[j].Admitted? ==>
        w.log[i].caller < w.log[j].caller && w.log[i].at <= w.log[j].at)
    && (forall caller :: caller in w.active ==> caller < w.callers)
  }

  /** The outcome of the latest starter, once reported, stays in the row. */
  ghost predicate ResultsStored(c: Config, t: Table, log: seq<Event>) {
    forall j :: 0 <= j < |log| && IsReport(log[j]) ==> ResultStored(c, t, log, log[j])
  }

  ghost predicate ResultStored(c: Config, t: Table, log: seq<Event>, e: Event)
    requires IsReport(e)
  {
    var holder := Holder(log, e.key);
    holder.Some? && holder.value.caller == e.caller && e.key in t ==> t[e.key].status == StatusOf(c, e)
  }

  lemma EntriesExtend(w: World, w': World, e: Event)
    requires EntriesOk(w) && w'.log == w.log + [e] && w.callers <= w'.callers && w.clock <= w'.clock
    requires e.Admitted? ==>
               && Named(e.key) && LastsAsAsked(e) && w.clock <= e.at <= w'.clock
               && w.callers == e.caller < w'.callers
    requires IsReport(e) ==> e.caller < w'.callers
    requires forall caller :: caller in w'.active ==> caller < w'.callers
    ensures EntriesOk(w')
  {
    assert forall j :: 0 <= j < |w.log| ==> w'.log[j] == w.log[j];
  }

  lemma NextKeepsEntries(c: Config, w: World, step: Step)
    requires EntriesOk(w)
    ensures EntriesOk(Next(c, w, step))
  {
    var w' := Next(c, w, step);
    if w'.log != w.log {
      var e := w'.log[|w.log|];
      assert w'.log == w.log + [e];
      EntriesExtend(w, w', e);
    }
  }

  /** A stored result stays when its row is kept, or is another starter's by now. */
  lemma ResultStays(c: Config, t: Table, log: seq<Event>, t': Table, log': seq<Event>, e: Event)
    requires IsReport(e) && ResultStored(c, t, log, e)
    requires Holder(log', e.key).Some? && Holder(log', e.key).value.caller == e.caller && e.key in t' ==>
               && Holder(log, e.key) == Holder(log', e.key) && e.key in t
               && (t'[e.key].status == t[e.key].status || t[e.key].status == Pending)
    ensures ResultStored(c, t', log', e)
  {
  }

  lemma AskKeepsResults(c: Config, w: World, step: Step)
    requires Invariant(c, w) && EntriesOk(w) && ResultsStored(c, w.table, w.log) && step.Ask? && Enabled(c, w, step)
    ensures ResultsStored(c, Next(c, w, step).table, Next(c, w, step).log)
  {
    var w' := Next(c, w, step);
    var e: Event;
    if Answer(w.table, step.key, step.digest, step.readAt) == Ok(Started) {
      e := Admitted(step.key, w.callers, step.digest, step.ttlSeconds, step.readAt, step.now,
                    Expiry(step.readAt, step.ttlSeconds));
    } else {
      e := AskOnlyAnswers(c, w, step);
    }
    AskedKeepsResults(c, w, w', e);
  }

  /** What an answer may do to rows: purge some, and add the row of a new starter. */
  lemma AskedKeepsResults(c: Config, w: World, w': World, e: Event)
    requires EntriesOk(w) && ResultsStored(c, w.table, w.log) && w'.log == w.log + [e] && !IsReport(e)
    requires e.Admitted? ==> e.caller == w.callers
    requires forall k :: k in w'.table && !(e.Admitted? && e.key == k) ==> k in w.table && w'.table[k] == w.table[k]
    ensures ResultsStored(c, w'.table, w'.log)
  {
    Snoc(w.log, e);
    forall j | 0 <= j < |w'.log| && IsReport(w'.log[j])
      ensures ResultStored(c, w'.table, w'.log, w'.log[j])
    {
      assert w'.log[j] == w.log[j];
      ResultStays(c, w.table, w.log, w'.table, w'.log, w.log[j]);
    }
  }

  lemma TryKeepsResults(c: Config, w: World, caller: nat, attempt: Attempt, now: int)
    requires ResultsStored(c, w.table, w.log) && caller in w.active
    ensures var w' := AfterTry(w, caller, attempt, now); ResultsStored(c, w'.table, w'.log)
  {
    var w' := AfterTry(w, caller, attempt, now);
    var e := Ran(w.active[caller].key, caller);
    Snoc(w.log, e);
    assert w'.log == w.log || w'.log == w.log + [e];
    assert forall k :: Holder(w'.log, k) == Holder(w.log, k);
    forall j | 0 <= j < |w'.log| && IsReport(w'.log[j])
      ensures ResultStored(c, w'.table, w'.log, w'.log[j])
    {
      assert w'.log[j] == w.log[j];
      ResultStays(c, w.table, w.log, w'.table, w'.log, w.log[j]);
    }
  }

  lemma ReportKeepsResults(c: Config, w: World, caller: nat, e: Event, now: int)
    requires ResultsStored(c, w.table, w.log) && caller in w.active && IsReport(e) && e.key == w.active[caller].key
    ensures var w' := AfterReport(c, w, caller, e, now); ResultsStored(c, w'.table, w'.log)
  {
    var w' := AfterReport(c, w, caller, e, now);
    Snoc(w.log, e);
    assert forall k :: Holder(w'.log, k) == Holder(w.log, k);
    forall j | 0 <= j < |w'.log| && IsReport(w'.log[j])
      ensures ResultStored(c, w'.table, w'.log, w'.log[j])
    {
      if j < |w.log| {
        assert w'.log[j] == w.log[j];
        ResultStays(c, w.table, w.log, w'.table, w'.log, w.log[j]);
      }
    }
  }

  lemma NextKeepsResults(c: Config, w: World, step: Step)
    requires Invariant(c, w) && EntriesOk(w) && ResultsStored(c, w.table, w.log)
    ensures ResultsStored(c, Next(c, w, step).table, Next(c, w, step).log)
  {
    if Enabled(c, w, step) {
      match step
      case Ask(_, _, _, _, _) => AskKeepsResults(c, w, step);
      case Invoke(caller, attempt, now) => TryKeepsResults(c, w, caller, attempt, now);
      case Succeed(caller, result, now) =>
        ReportKeepsResults(c, w, caller, Finished(w.active[caller].key, caller, result), now);
      case GiveUp(caller, error, now) => 
        ReportKeepsResults(c, w, caller, GaveUp(w.active[caller].key, caller, error), now);
    }
  }

  lemma {:induction false} RunKeepsResults(c: Config, steps: seq<Step>)
    ensures EntriesOk(Run(c, START, steps)) && ResultsStored(c, Run(c, START, steps).table, Run(c, START, steps).log)
  {
    if steps != [] {
      var w := Run(c, START, steps[..|steps| - 1]);
      RunKeepsInvariant(c, steps[..|steps| - 1]);
      RunKeepsResults(c, steps[..|steps| - 1]);
      NextKeepsEntries(c, w, steps[|steps| - 1]);
      NextKeepsResults(c, w, steps[|steps| - 1]);
    }
  }

  /**
   In every run, once the starter of a key's latest record has reported its result, each call that
   comes to it before the record expires is answered by it: the JSON image for the same request, a conflict for another.
   */
  lemma CompletionIsReplayed(c: Config, steps: seq<Step>, i: nat, j: nat, digest: string, readAt: int)
    requires var w := Run(c, START, steps);
             && i < |w.log| && j < |w.log| && w.log[i].Admitted? && w.log[j].Finished?
             && Holder(w.log, w.log[j].key) == Some(w.log[i]) && w.log[i].caller == w.log[j].caller
             && w.clock <= w.log[i].expiresAt && readAt <= w.log[i].expiresAt
    ensures var w := Run(c, START, steps);
            Answer(w.table, w.log[j].key, digest, readAt)
              == if digest == w.log[i].digest then Ok(Replay(c.image(w.log[j].result))) else Err(Conflict)
  {
    var w := Run(c, START, steps);
    RunKeepsInvariant(c, steps);
    RunKeepsResults(c, steps);
    assert ResultStored(c, w.table, w.log, w.log[j]);
  }

  /**
   Likewise after the starter reported a failure: each call is told that very error, and a conflict
   for another request.
   */
  lemma FailureIsRepeated(c: Config, steps: seq<Step>, i: nat, j: nat, digest: string, readAt: int)
    requires var w := Run(c, START, steps);
             && i < |w.log| && j < |w.log| && w.log[i].Admitted? && w.log[j].GaveUp?
             && Holder(w.log, w.log[j].key) == Some(w.log[i]) && w.log[i].caller == w.log[j].caller
             && w.clock <= w.log[i].expiresAt && readAt <= w.log[i].expiresAt
    ensures var w := Run(c, START, steps);
            Answer(w.table, w.log[j].key, digest, readAt)
              == if digest == w.log[i].digest then Ok(PreviousFailure(w.log[j].error)) else Err(Conflict)
  {
    var w := Run(c, START, steps);
    RunKeepsInvariant(c, steps);
    RunKeepsResults(c, steps);
    assert ResultStored(c, w.table, w.log, w.log[j]);
  }

  // ----- Every answer is told by the log -----

  /** How the record of a key stands: by the last report since its latest admission, whoever made it. */
  function Standing(c: Config, log: seq<Event>, k: Key): Status {
    if log == [] then Pending
    else
      var e := log[|log| - 1];
      if e.Admitted? && e.key == k then Pending
      else if IsReport(e) && e.key == k then StatusOf(c, e)
      else Standing(c, log[..|log| - 1], k)
  }

  ghost predicate RowsStand(c: Config, t: Table, log: seq<Event>) {
    forall k :: k in t ==> t[k].status == Standing(c, log, k)
  }

  lemma StandingSnoc(c: Config, log: seq<Event>, e: Event)
    ensures forall k :: Standing(c, log + [e], k)
                        == if e.Admitted? && e.key == k then Pending
                           else if IsReport(e) && e.key == k then StatusOf(c, e) else Standing(c, log, k)
  {
    assert (log + [e])[..|log|] == log;
  }

  /** An entry that is no report leaves what stands, but for the key it admits. */
  lemma EntryKeepsStanding(c: Config, t: Table, log: seq<Event>, t': Table, e: Event)
    requires RowsStand(c, t, log) && !IsReport(e)
    requires forall k :: k in t' ==>
               if e.Admitted? && e.key == k then t'[k].status == Pending else k in t && t'[k].status == t[k].status
    ensures RowsStand(c, t', log + [e])
  {
    StandingSnoc(c, log, e);
  }

  lemma ReportKeepsStanding(c: Config, w: World, caller: nat, e: Event, now: int)
    requires RowsStand(c, w.table, w.log) && caller in w.active && IsReport(e) && e.key == w.active[caller].key
    ensures var w' := AfterReport(c, w, caller, e, now); RowsStand(c, w'.table, w'.log)
  {
    StandingSnoc(c, w.log, e);
  }

  lemma AskKeepsStanding(c: Config, w: World, step: Step)
    requires Invariant(c, w) && RowsStand(c, w.table, w.log) && step.Ask? && Enabled(c, w, step)
    ensures RowsStand(c, Next(c, w, step).table, Next(c, w, step).log)
  {
    var w' := Next(c, w, step);
    if Answer(w.table, step.key, step.digest, step.readAt) == Ok(Started) {
      EntryKeepsStanding(c, w.table, w.log, w'.table, w'.log[|w.log|]);
    } else {
      var e := AskOnlyAnswers(c, w, step);
      EntryKeepsStanding(c, w.table, w.log, w'.table, e);
    }
  }

  lemma NextKeepsStanding(c: Config, w: World, step: Step)
    requires Invariant(c, w) && RowsStand(c, w.table, w.log)
    ensures RowsStand(c, Next(c, w, step).table, Next(c, w, step).log)
  {
    if Enabled(c, w, step) {
      match step
      case Ask(_, _, _, _, _) => AskKeepsStanding(c, w, step);
      case Invoke(caller, _, _) => EntryKeepsStanding(c, w.table, w.log, w.table, Ran(w.active[caller].key, caller));
      case Succeed(caller, result, now) =>
        ReportKeepsStanding(c, w, caller, Finished(w.active[caller].key, caller, result), now);
      case GiveUp(caller, error, now) =>
        ReportKeepsStanding(c, w, caller, GaveUp(w.active[caller].key, caller, error), now);
    }
  }

  lemma {:induction false} RunKeepsStanding(c: Config, steps: seq<Step>)
    ensures RowsStand(c, Run(c, START, steps).table, Run(c, START, steps).log)
  {
    if steps != [] {
      RunKeepsInvariant(c, steps[..|steps| - 1]);
      RunKeepsStanding(c, steps[..|steps| - 1]);
      NextKeepsStanding(c, Run(c, START, steps[..|steps| - 1]), steps[|steps| - 1]);
    }
  }

  /**
   What a call is told follows from what happened to its key: it starts if nobody has, or the record
   expired before it came; while the record lives, another request is a conflict, and the same one is
   told the reported outcome, or that the execution is in progress.
   */
  lemma AnswerTellsHistory(c: Config, steps: seq<Step>, k: Key, digest: string, readAt: int)
    ensures var w := Run(c, START, steps);
            var answer, latest := Answer(w.table, k, digest, readAt), Holder(w.log, k);
            && (!Named(k) ==> answer == Err(MissingKey))
            && (Named(k) && (latest.None? || latest.value.expiresAt < readAt) ==> answer == Ok(Started))
            && (Named(k) && latest.Some? && w.clock <= latest.value.expiresAt && readAt <= latest.value.expiresAt ==>
                  answer == if latest.value.digest != digest then Err(Conflict)
                            else match Standing(c, w.log, k)
                              case Pending => Err(InProgress)
                              case Completed(response) => Ok(Replay(response))
                              case Failed(error) => Ok(PreviousFailure(error)))
  {
    RunKeepsInvariant(c, steps);
    RunKeepsStanding(c, steps);
  }

  /**
   In every run, timely or not, a key is started again only after the earlier record expired. The
   start may have been asked for before that: see `WaitingStartTakesOver`.
   */
  lemma OneStarterPerWindow(c: Config, steps: seq<Step>, i: nat, j: nat)
    requires var log := Run(c, START, steps).log;
             i < j < |log| && log[i].Admitted? && log[j].Admitted? && log[i].key == log[j].key
    ensures var log := Run(c, START, steps).log;
            && log[i].expiresAt < log[j].at && LastsAsAsked(log[i])
            && log[i].readAt + 1 < log[j].at && log[i].readAt + log[i].ttlSeconds < log[j].at
  {
    RunKeepsInvariant(c, steps);
    RunKeepsResults(c, steps);
    AdmissionsAreSeparated(Run(c, START, steps).log, i, j);
  }

  // ----- Reports that come too late -----

  /** The caller's report lands on the record that it started itself. */
  predicate OwnsRecord(w: World, caller: nat)
    requires caller in w.active
  {
    var k := w.active[caller].key;
    CanReport(w.table, k) && Holder(w.log, k).Some? && Holder(w.log, k).value.caller == caller
  }

  /**
   After the caller's own start its key was started again, by a call that had read its clock before
   the caller's record expired: it waited while another call purged that record.
   */
  ghost predicate TakenOver(log: seq<Event>, caller: nat, k: Key, expiresAt: int) {
    exists i, j :: 0 <= i < j < |log| && log[i].Admitted? && log[i].caller == caller
        && log[j].Admitted? && log[j].key == k && log[j].readAt < expiresAt
  }

  lemma OwnsIff(c: Config, w: World, caller: nat)
    requires Invariant(c, w) && EntriesOk(w) && caller in w.active && CanReport(w.table, w.active[caller].key)
    ensures var a := w.active[caller];
            OwnsRecord(w, caller)
            <==> w.table[a.key].expiresAt == a.expiresAt && !TakenOver(w.log, caller, a.key, a.expiresAt)
    ensures w.clock <= w.active[caller].expiresAt ==> OwnsRecord(w, caller)
  {
    var a := w.active[caller];
    assert ActiveOk(w, caller);
    HolderIff(w.log, caller, a.key, a.expiresAt);
  }

  /** Of all admissions on a key the latest is told by its expiry, unless a later one read its clock before it. */
  lemma HolderIff(log: seq<Event>, caller: nat, k: Key, expiresAt: int)
    requires WindowsKept(log) && WasAdmitted(log, caller, k, expiresAt)
    requires forall m :: 0 <= m < |log| && log[m].Admitted? ==> log[m].readAt < log[m].expiresAt
    requires forall i, m :: 0 <= i < m < |log| && log[i].Admitted? && log[m].Admitted? ==>
               log[i].caller < log[m].caller && log[i].at <= log[m].at
    ensures var holder := Holder(log, k);
            && holder.Some?
            && (holder.value.caller == caller
                <==> holder.value.expiresAt == expiresAt && !TakenOver(log, caller, k, expiresAt))
            && (holder.value.caller == caller || (holder.value in log && expiresAt < holder.value.at))
  {
    var j :| 0 <= j < |log| && log[j].Admitted? && log[j].caller == caller && log[j].key == k
        && log[j].expiresAt == expiresAt;
    var m := HolderAt(log, j);
    if j < m {
      AdmissionsAreSeparated(log, j, m);
      assert log[m].expiresAt == expiresAt ==> TakenOver(log, caller, k, expiresAt);
    }
  }

  /**
   The store does not ask who started a record. In every run an accepted report is its caller's own
   exactly when the row still has the expiry that the caller was started with and no call that had
   waited since before that expiry took the key over. A report by the expiry is always its own.
   */
  lemma ReportIsOwnIff(c: Config, steps: seq<Step>, caller: nat)
    requires var w := Run(c, START, steps);
             caller in w.active && CanReport(w.table, w.active[caller].key)
    ensures var w := Run(c, START, steps);
            var a := w.active[caller];
            && (OwnsRecord(w, caller)
                <==> w.table[a.key].expiresAt == a.expiresAt && !TakenOver(w.log, caller, a.key, a.expiresAt))
            && (w.clock <= a.expiresAt ==> OwnsRecord(w, caller))
  {
    RunKeepsInvariant(c, steps);
    RunKeepsResults(c, steps);
    OwnsIff(c, Run(c, START, steps), caller);
  }

  lemma PlainNames()
    ensures Named(Key("ns", "k")) && Named(Key("ns", "l"))
  {
    assert !IsSpace("ns"[0]) && !IsSpace("ns"[1]) && !IsSpace("k"[0]) && !IsSpace("l"[0]);
  }

  lemma FirstStart(c: Config, k: Key) returns (w: World)
    requires Named(k)
    ensures w == Next(c, START, Ask(k, "d", 1, 0, 0))
    ensures w == World(map[k := Row("d", Pending, 1)], 0, 1, map[0 := Active(k, 1, 0, 0, None)],
            [Admitted(k, 0, "d", 1, 0, 0, 1)])
  {
    w := Next(c, START, Ask(k, "d", 1, 0, 0));
    assert Answer(map[], k, "d", 0) == Ok(Started);
    assert Purge(map[], 0) == map[];
  }

  lemma SecondStart(c: Config, k: Key, w: World) returns (w': World)
    requires Named(k)
    requires w == World(map[k := Row("d", Pending, 1)], 0, 1, map[0 := Active(k, 1, 0, 0, None)],
             [Admitted(k, 0, "d", 1, 0, 0, 1)])
    ensures w' == Next(c, w, Ask(k, "d", 9, 2, 2))
    ensures w'.table == map[k := Row("d", Pending, 11)] && 0 in w'.active && w'.active[0] == Active(k, 1, 0, 0, None)
            && w'.clock == 2
    ensures w'.log == w.log + [Admitted(k, 1, "d", 9, 2, 2, 11)]
  {
    w' := Next(c, w, Ask(k, "d", 9, 2, 2));
    assert Purge(w.table, 2) == map[];
    assert Answer(w.table, k, "d", 2) == Ok(Started);
  }

  lemma RunNext(c: Config, w: World, steps: seq<Step>, step: Step)
    ensures Run(c, w, steps + [step]) == Next(c, Run(c, w, steps), step)
  {
    assert (steps + [step])[..|steps|] == steps;
  }

  lemma RunOfTwo(c: Config, w: World, a: Step, b: Step)
    ensures Run(c, w, [a, b]) == Next(c, Next(c, w, a), b)
  {
    RunOfOne(c, w, a);
    RunNext(c, w, [a], b);
    assert [a] + [b] == [a, b];
  }

  lemma RunOfThree(c: Config, a: Step, b: Step, d: Step)
    ensures Run(c, START, [a, b, d]) == Next(c, Next(c, Next(c, START, a), b), d)
  {
    RunOfTwo(c, START, a, b);
    RunNext(c, START, [a, b], d);
    assert [a, b] + [d] == [a, b, d];
  }

  lemma RunOfFour(c: Config, a: Step, b: Step, d: Step, e: Step)
    ensures Run(c, START, [a, b, d, e]) == Next(c, Next(c, Next(c, Next(c, START, a), b), d), e)
  {
    RunOfThree(c, a, b, d);
    RunNext(c, START, [a, b, d], e);
    assert [a, b, d] + [e] == [a, b, d, e];
  }

  lemma LateReport(c: Config, k: Key, w: World, result: string)
    requires c.maxAttempts >= 1 && Named(k) && w.table == map[k := Row("d", Pending, 11)] && w.clock == 2
    requires 0 in w.active && w.active[0] == Active(k, 1, 0, 0, None)
    ensures var w' := Next(c, Next(c, w, Invoke(0, Returned(result, false), 3)), Succeed(0, result, 3));
            Holder(w'.log, k) == Holder(w.log, k) && Answer(w'.table, k, "d", 4) == Ok(Replay(c.image(result)))
  {
    Snoc(w.log, Ran(k, 0));
    Snoc(w.log + [Ran(k, 0)], Finished(k, 0, result));
  }

  /**
   Caller 0 starts at 0 for one second, caller 1 starts at 2, and 0 reports into 1's record: a third
   call replays it.
   */
  lemma LateReportIsReplayed(c: Config)
    requires c.maxAttempts >= 1
    ensures var k, late := Key("ns", "k"), Returned("late", false);
            var w := Run(c, START, [Ask(k, "d", 1, 0, 0), Ask(k, "d", 9, 2, 2), Invoke(0, late, 3),
                Succeed(0, "late", 3)]);
            && Holder(w.log, k).Some? && Holder(w.log, k).value.caller == 1
            && Answer(w.table, k, "d", 4) == Ok(Replay(c.image("late")))
  {
    var k, late := Key("ns", "k"), Returned("late", false);
    PlainNames();
    var w1 := FirstStart(c, k);
    var w2 := SecondStart(c, k, w1);
    RunOfFour(c, Ask(k, "d", 1, 0, 0), Ask(k, "d", 9, 2, 2), Invoke(0, late, 3), Succeed(0, "late", 3));
    Snoc(w1.log, Admitted(k, 1, "d", 9, 2, 2, 11));
    LateReport(c, k, w2, "late");
  }

  lemma OtherKeyPurges(c: Config, k: Key, l: Key, w: World) returns (w': World)
    requires Named(l) && k != l && w.table == map[k := Row("d", Pending, 1)] && w.clock == 0 && w.callers == 1
    ensures w' == Next(c, w, Ask(l, "d", 9, 2, 2))
    ensures w'.table == map[l := Row("d", Pending, 11)] && w'.active == w.active[1 := Active(l, 11, 0, 0, None)]
    ensures w'.clock == 2 && w'.callers == 2 && w'.log == w.log + [Admitted(l, 1, "d", 9, 2, 2, 11)]
  {
    w' := Next(c, w, Ask(l, "d", 9, 2, 2));
    assert Purge(w.table, 2) == map[];
    assert Answer(w.table, l, "d", 2) == Ok(Started);
  }

  lemma WaitingStart(c: Config, k: Key, l: Key, w: World) returns (w': World)
    requires Named(k) && k != l && w.table == map[l := Row("d", Pending, 11)] && w.clock == 2 && w.callers == 2
    ensures w' == Next(c, w, Ask(k, "d", 1, 0, 3))
    ensures k in w'.table && w'.table[k] == Row("d", Pending, 1) && w'.active == w.active[2 := Active(k, 1, 0, 0, None)]
    ensures w'.log == w.log + [Admitted(k, 2, "d", 1, 0, 3, 1)]
  {
    w' := Next(c, w, Ask(k, "d", 1, 0, 3));
    assert Answer(w.table, k, "d", 0) == Ok(Started);
  }

  /**
   A call that read its clock at 0 waits for the lock until 3, after a call on another key has purged
   the record that caller 0 started at 0. It starts the key with the very row that caller 0 had, so
   that no look at the row tells whose it is.
   */
  lemma WaitingStartTakesOver(c: Config)
    ensures var k, l := Key("ns", "k"), Key("ns", "l");
            var w := Run(c, START, [Ask(k, "d", 1, 0, 0), Ask(l, "d", 9, 2, 2), Ask(k, "d", 1, 0, 3)]);
            && 0 in w.active && k in w.table && w.active[0].key == k && CanReport(w.table, k)
            && w.table[k].expiresAt == w.active[0].expiresAt && !OwnsRecord(w, 0)
            && |w.log| == 3 && w.log[0].Admitted? && w.log[2].Admitted? && w.log[2].key == w.log[0].key
            && w.log[2].readAt <= w.log[0].expiresAt
  {
    var k, l := Key("ns", "k"), Key("ns", "l");
    PlainNames();
    assert k.name[0] != l.name[0];
    var w1 := FirstStart(c, k);
    var w2 := OtherKeyPurges(c, k, l, w1);
    var w3 := WaitingStart(c, k, l, w2);
    RunOfThree(c, Ask(k, "d", 1, 0, 0), Ask(l, "d", 9, 2, 2), Ask(k, "d", 1, 0, 3));
    Snoc(w2.log, Admitted(k, 2, "d", 1, 0, 3, 1));
  }

  // ----- The executor is a run of these steps -----

  /** What one governed execution makes of the table. */
  function Executed(t: Table, k: Key, digest: string, ttlSeconds: int, readAt: int, limit: nat,
                    attempts: nat -> Attempt, image: string -> string): Table
    requires limit >= 1
  {
    var begun := Begin(t, k, digest, ttlSeconds, readAt);
    if Answer(t, k, digest, readAt) != Ok(Started) then begun
        else Reported(begun, k, attempts(Last(limit, attempts)), image)
  }

  function Last(limit: nat, attempts: nat -> Attempt): nat
    requires limit >= 1
  {
    RunsWithinLimit(limit, attempts);
    Made(limit, attempts) - 1
  }

  function Reported(t: Table, k: Key, last: Attempt, image: string -> string): Table {
    if Fails(last) then Report(t, k, Failed(ErrorOf(last)))
    else if last.Returned? then Report(t, k, Completed(image(last.result)))
    else t
  }

  function Invokes(caller: nat, attempts: nat -> Attempt, n: nat, now: int): seq<Step> {
    if n == 0 then [] else Invokes(caller, attempts, n - 1, now) + [Invoke(caller, attempts(n - 1), now)]
  }

  function ReportStep(caller: nat, last: Attempt, now: int): seq<Step> {
    if Fails(last) then [GiveUp(caller, ErrorOf(last), now)]
    else if last.Returned? then [Succeed(caller, last.result, now)]
    else []
  }

  /** The caller's side of the loop after `n` attempts. */
  function LoopState(a: Active, attempts: nat -> Attempt, n: nat): Active {
    a.(runs := RunsIn(attempts, n), tries := n, last := if n == 0 then None else Some(attempts(n - 1)))
  }

  /** Where the retry loop stands after `n` attempts. */
  ghost predicate LoopAt(w: World, begun: World, caller: nat, attempts: nat -> Attempt, n: nat) {
    && caller in begun.active && w.table == begun.table && w.clock == begun.clock && w.callers == begun.callers
    && w.active == begun.active[caller := LoopState(begun.active[caller], attempts, n)]
    && RunsOf(w.log, caller) == RunsOf(begun.log, caller) + RunsIn(attempts, n)
  }

  lemma LoopTurn(w: World, begun: World, caller: nat, attempts: nat -> Attempt, n: nat)
    requires LoopAt(w, begun, caller, attempts, n)
    ensures LoopAt(AfterTry(w, caller, attempts(n), begun.clock), begun, caller, attempts, n + 1)
  {
    Snoc(w.log, Ran(w.active[caller].key, caller));
  }

  lemma InvokeIsTry(c: Config, w: World, caller: nat, attempt: Attempt)
    requires caller in w.active && GoesOn(c.maxAttempts, w.active[caller])
    ensures Next(c, w, Invoke(caller, attempt, w.clock)) == AfterTry(w, caller, attempt, w.clock)
  {
  }

  /** The world after `n` turns of the loop. */
  function LoopWorld(begun: World, caller: nat, attempts: nat -> Attempt, n: nat): (w: World)
    requires caller in begun.active
    ensures caller in w.active
  {
    if n == 0 then begun else AfterTry(LoopWorld(begun, caller, attempts, n - 1), caller, attempts(n - 1), begun.clock)
  }

  lemma {:induction false} LoopWorldAt(begun: World, caller: nat, attempts: nat -> Attempt, n: nat)
    requires LoopAt(begun, begun, caller, attempts, 0)
    ensures LoopAt(LoopWorld(begun, caller, attempts, n), begun, caller, attempts, n)
    decreases n
  {
    if n > 0 {
      LoopWorldAt(begun, caller, attempts, n - 1);
      LoopTurn(LoopWorld(begun, caller, attempts, n - 1), begun, caller, attempts, n - 1);
    }
  }

  /** One more turn of the loop is one more step. */
  lemma TurnRuns(c: Config, begun: World, steps: seq<Step>, caller: nat, attempts: nat -> Attempt, n: nat)
    requires LoopAt(begun, begun, caller, attempts, 0) && n < c.maxAttempts && (n > 0 ==> Retries(attempts(n - 1)))
    requires Run(c, begun, steps) == LoopWorld(begun, caller, attempts, n)
    ensures Run(c, begun, steps + [Invoke(caller, attempts(n), begun.clock)])
         == LoopWorld(begun, caller, attempts, n + 1)
  {
    LoopWorldAt(begun, caller, attempts, n);
    InvokeIsTry(c, LoopWorld(begun, caller, attempts, n), caller, attempts(n));
    RunNext(c, begun, steps, Invoke(caller, attempts(n), begun.clock));
  }

  /** The turns of the loop are steps. */
  lemma {:induction false} LoopRuns(c: Config, begun: World, caller: nat, attempts: nat -> Attempt, n: nat,
                                    steps: seq<Step>)
    requires n <= c.maxAttempts && LoopAt(begun, begun, caller, attempts, 0)
    requires forall i: nat :: i < n - 1 ==> Retries(attempts(i))
    requires steps == Invokes(caller, attempts, n, begun.clock)
    ensures Run(c, begun, steps) == LoopWorld(begun, caller, attempts, n)
    decreases n
  {
    if n > 0 {
      var init := Invokes(caller, attempts, n - 1, begun.clock);
      LoopRuns(c, begun, caller, attempts, n - 1, init);
      TurnRuns(c, begun, init, caller, attempts, n - 1);
    }
  }

  lemma SucceedIsReport(c: Config, w: World, caller: nat, result: string)
    requires caller in w.active && w.active[caller].last == Some(Returned(result, false))
    ensures Next(c, w, Succeed(caller, result, w.clock))
         == AfterReport(c, w, caller, Finished(w.active[caller].key, caller, result), w.clock)
  {
  }

  lemma GiveUpIsReport(c: Config, w: World, caller: nat)
    requires caller in w.active && !GoesOn(c.maxAttempts, w.active[caller]) && w.active[caller].last.Some?
    requires Fails(w.active[caller].last.value)
    ensures var error := ErrorOf(w.active[caller].last.value);
            Next(c, w, GiveUp(caller, error, w.clock))
              == AfterReport(c, w, caller, GaveUp(w.active[caller].key, caller, error), w.clock)
  {
  }

  /** A report changes the row as the executor does, and runs nothing. */
  lemma ReportedIs(c: Config, w: World, w': World, caller: nat, e: Event)
    requires caller in w.active && IsReport(e) && w' == AfterReport(c, w, caller, e, w.clock)
    ensures w'.table == Report(w.table, w.active[caller].key, StatusOf(c, e))
    ensures RunsOf(w'.log, caller) == RunsOf(w.log, caller)
  {
    Snoc(w.log, e);
  }

  lemma RunOfOne(c: Config, w: World, step: Step)
    ensures Run(c, w, [step]) == Next(c, w, step)
  {
    assert [step][..0] == [];
  }

  lemma ReportRuns(c: Config, w: World, begun: World, caller: nat, attempts: nat -> Attempt, n: nat)
    requires StopsAt(c.maxAttempts, attempts, n) && LoopAt(w, begun, caller, attempts, n)
    ensures var last := attempts(n - 1);
            var w' := Run(c, w, ReportStep(caller, last, begun.clock));
            && w'.table == Reported(begun.table, begun.active[caller].key, last, c.image)
            && RunsOf(w'.log, caller) == RunsOf(w.log, caller)
  {
    var last := attempts(n - 1);
    var k := w.active[caller].key;
    if Fails(last) {
      var step := GiveUp(caller, ErrorOf(last), begun.clock);
      RunOfOne(c, w, step);
      GiveUpIsReport(c, w, caller);
      ReportedIs(c, w, Next(c, w, step), caller, GaveUp(k, caller, ErrorOf(last)));
    } else if last.Returned? {
      var step := Succeed(caller, last.result, begun.clock);
      RunOfOne(c, w, step);
      SucceedIsReport(c, w, caller, last.result);
      ReportedIs(c, w, Next(c, w, step), caller, Finished(k, caller, last.result));
    }
  }

  /** The steps of one execution. */
  function Program(c: Config, w: World, k: Key, digest: string, ttlSeconds: int, readAt: int, now: int,
        attempts: nat -> Attempt): seq<Step>
    requires c.maxAttempts >= 1
  {
    var ask := [Ask(k, digest, ttlSeconds, readAt, now)];
    if Answer(w.table, k, digest, readAt) != Ok(Started) then ask
    else ask + AfterStart(c, w.callers, now, attempts)
  }

  lemma AskStarts(c: Config, w: World, k: Key, digest: string, ttlSeconds: int, readAt: int, now: int,
        attempts: nat -> Attempt)
    requires w.clock <= now && readAt <= now && RunsOf(w.log, w.callers) == 0
    ensures var begun := Next(c, w, Ask(k, digest, ttlSeconds, readAt, now));
            && begun.table == Begin(w.table, k, digest, ttlSeconds, readAt) && RunsOf(begun.log, w.callers) == 0
            && (Answer(w.table, k, digest, readAt) == Ok(Started) ==>
                  && begun.clock == now && LoopAt(begun, begun, w.callers, attempts, 0)
                      && begun.active[w.callers].key == k)
  {
    var begun := Next(c, w, Ask(k, digest, ttlSeconds, readAt, now));
    AskRunsNothing(c, w, begun, Ask(k, digest, ttlSeconds, readAt, now), w.callers);
  }

  lemma AskRunsNothing(c: Config, w: World, w': World, step: Step, caller: nat)
    requires step.Ask? && w' == Next(c, w, step)
    ensures RunsOf(w'.log, caller) == RunsOf(w.log, caller)
  {
    if w'.log != w.log {
      var e := w'.log[|w.log|];
      assert w'.log == w.log + [e];
      Snoc(w.log, e);
    }
  }

  lemma {:induction false} RunGoesOn(c: Config, w: World, a: seq<Step>, b: seq<Step>)
    ensures Run(c, w, a + b) == Run(c, Run(c, w, a), b)
  {
    if b == [] {
      assert a + b == a;
    } else {
      var init, last := b[..|b| - 1], b[|b| - 1];
      RunGoesOn(c, w, a, init);
      RunNext(c, w, a + init, last);
      assert a + b == a + init + [last];
    }
  }

  /** From an admission on, the loop and its report do what the executor does. */
  lemma LoopAndReport(c: Config, begun: World, caller: nat, attempts: nat -> Attempt, n: nat, w': World)
    requires StopsAt(c.maxAttempts, attempts, n) && LoopAt(begun, begun, caller, attempts, 0)
    requires w' == Run(c, begun, Invokes(caller, attempts, n, begun.clock)
                                     + ReportStep(caller, attempts(n - 1), begun.clock))
    ensures w'.table == Reported(begun.table, begun.active[caller].key, attempts(n - 1), c.image)
    ensures RunsOf(w'.log, caller) == RunsOf(begun.log, caller) + RunsIn(attempts, n)
  {
    var steps := Invokes(caller, attempts, n, begun.clock);
    LoopRuns(c, begun, caller, attempts, n, steps);
    LoopWorldAt(begun, caller, attempts, n);
    ReportRuns(c, LoopWorld(begun, caller, attempts, n), begun, caller, attempts, n);
    RunGoesOn(c, begun, steps, ReportStep(caller, attempts(n - 1), begun.clock));
  }

  /** The steps after a call was told "started". */
  function AfterStart(c: Config, caller: nat, now: int, attempts: nat -> Attempt): seq<Step>
    requires c.maxAttempts >= 1
  {
    Invokes(caller, attempts, Made(c.maxAttempts, attempts), now)
    + ReportStep(caller, attempts(Last(c.maxAttempts, attempts)), now)
  }

  lemma StartRuns(c: Config, begun: World, caller: nat, attempts: nat -> Attempt, w': World)
    requires c.maxAttempts >= 1 && LoopAt(begun, begun, caller, attempts, 0)
    requires w' == Run(c, begun, AfterStart(c, caller, begun.clock, attempts))
    ensures w'.table == Reported(begun.table, begun.active[caller].key, attempts(Last(c.maxAttempts, attempts)),
            c.image)
    ensures RunsOf(w'.log, caller) == RunsOf(begun.log, caller) + RunsIn(attempts, Made(c.maxAttempts, attempts))
  {
    var n := Made(c.maxAttempts, attempts);
    LoopStopsOnce(c.maxAttempts, attempts, n);
    LoopAndReport(c, begun, caller, attempts, n, w');
  }

  lemma ProgramSplits(c: Config, w: World, k: Key, digest: string, ttlSeconds: int, readAt: int, now: int,
        attempts: nat -> Attempt)
    requires c.maxAttempts >= 1
    ensures var begun := Next(c, w, Ask(k, digest, ttlSeconds, readAt, now));
            Run(c, w, Program(c, w, k, digest, ttlSeconds, readAt, now, attempts))
              == if Answer(w.table, k, digest, readAt) == Ok(Started)
                  then Run(c, begun, AfterStart(c, w.callers, now, attempts))
                 else begun
  {
    var ask := Ask(k, digest, ttlSeconds, readAt, now);
    RunNext(c, w, [], ask);
    assert [] + [ask] == [ask];
    RunGoesOn(c, w, [ask], AfterStart(c, w.callers, now, attempts));
  }

  lemma ProgramRuns(c: Config, w: World, k: Key, digest: string, ttlSeconds: int, readAt: int, now: int,
        attempts: nat -> Attempt,
                    w': World)
    requires c.maxAttempts >= 1 && w.clock <= now && readAt <= now && RunsOf(w.log, w.callers) == 0
    requires w' == Run(c, w, Program(c, w, k, digest, ttlSeconds, readAt, now, attempts))
    ensures w'.table == Executed(w.table, k, digest, ttlSeconds, readAt, c.maxAttempts, attempts, c.image)
    ensures RunsOf(w'.log, w.callers)
         == if Answer(w.table, k, digest, readAt) == Ok(Started) then RunsIn(attempts, Made(c.maxAttempts, attempts))
             else 0
  {
    AskStarts(c, w, k, digest, ttlSeconds, readAt, now, attempts);
    ProgramSplits(c, w, k, digest, ttlSeconds, readAt, now, attempts);
    if Answer(w.table, k, digest, readAt) == Ok(Started) {
      StartRuns(c, Next(c, w, Ask(k, digest, ttlSeconds, readAt, now)), w.callers, attempts, w');
    }
  }

  /**
   After any run, the executor with its retry loop is a run of `Ask`, `Invoke` and report steps: it
   leaves the same table, and its handler runs are as many as the loop makes, within the limit.
   */
  lemma ExecutionIsARun(c: Config, before: seq<Step>, k: Key, digest: string, ttlSeconds: int, readAt: int, now: int,
        attempts: nat -> Attempt)
    requires c.maxAttempts >= 1 && Run(c, START, before).clock <= now && readAt <= now
    ensures var w := Run(c, START, before);
            var w' := Run(c, START, before + Program(c, w, k, digest, ttlSeconds, readAt, now, attempts));
            && w'.table == Executed(w.table, k, digest, ttlSeconds, readAt, c.maxAttempts, attempts, c.image)
            && RunsOf(w'.log, w.callers) <= c.maxAttempts
            && RunsOf(w'.log, w.callers) == if Answer(w.table, k, digest, readAt) == Ok(Started)
                                            then RunsIn(attempts, Made(c.maxAttempts, attempts)) else 0
  {
    var w := Run(c, START, before);
    var program := Program(c, w, k, digest, ttlSeconds, readAt, now, attempts);
    RunKeepsInvariant(c, before);
    RunGoesOn(c, START, before, program);
    ProgramRuns(c, w, k, digest, ttlSeconds, readAt, now, attempts, Run(c, START, before + program));
    RunsWithinLimit(c.maxAttempts, attempts);
  }

  // ----- The store object -----

  /** What a governed call gives back. */
  datatype Outcome =
    | Value(result: string)
    | Rejected(refusal: BeginError)
    | FailedBefore(error: string)
    | Threw(error: string)
    | Unreported

  /** What a starter's caller gets from its last attempt: a plain return is a value, and nothing else is. */
  predicate EndsAs(last: Attempt, r: Outcome) {
    && (r.Value? <==> last.Returned? && !last.awaitable)
    && (r.Unreported? <==> last.Raised? && !last.ordinary)
    && (r.Value? || r.Unreported? || r.Threw?)
    && (r.Value? ==> r.result == last.result)
    && (r.Threw? && !last.Returned? ==> r.error == last.error)
  }

  /** The row that an execution leaves for the key it started. */
  lemma ExecutedRow(t: Table, k: Key, digest: string, ttlSeconds: int, readAt: int, limit: nat,
                    attempts: nat -> Attempt, image: string -> string)
    requires limit >= 1 && Answer(t, k, digest, readAt) == Ok(Started)
    ensures var t' := Executed(t, k, digest, ttlSeconds, readAt, limit, attempts, image);
            var last := attempts(Last(limit, attempts));
            && k in t' && t'[k].digest == digest && t'[k].expiresAt == Expiry(readAt, ttlSeconds)
            && (t'[k].status.Completed? <==> last.Returned? && !last.awaitable)
            && (t'[k].status.Pending? <==> last.Raised? && !last.ordinary)
            && (t'[k].status.Completed? ==> t'[k].status.response == image(last.result))
            && (t'[k].status.Failed? && !last.Returned? ==> t'[k].status.error == last.error)
  {
  }

  class IdempotencyStore {
    var rows: Table

    constructor ()
      ensures rows == map[]
    {
      rows := map[];
    }

    method BeginCall(k: Key, digest: string, ttlSeconds: int, readAt: int) returns (r: Result<Reply, BeginError>)
      modifies this
      ensures r == Answer(old(rows), k, digest, readAt)
      ensures rows == Begin(old(rows), k, digest, ttlSeconds, readAt)
    {
      if Strip(k.namespace) == "" || Strip(k.name) == "" {
        return Err(MissingKey);
      }
      var live := Purge(rows, readAt);
      if k in live {
        if live[k].digest != digest {
          return Err(Conflict);
        }
        match live[k].status {
          case Completed(response) => r := Ok(Replay(response));
          case Failed(error) => r := Ok(PreviousFailure(error));
          case Pending => return Err(InProgress);
        }
        rows := live;
      } else {
        rows := live[k := Row(digest, Pending, Expiry(readAt, ttlSeconds))];
        r := Ok(Started);
      }
    }

    method Settle(k: Key, status: Status) returns (ok: bool)
      modifies this
      ensures ok == CanReport(old(rows), k) && rows == Report(old(rows), k, status)
    {
      ok := k in rows && rows[k].status == Pending;
      if ok {
        rows := rows[k := rows[k].(status := status)];
      }
    }

    /**
     One governed execution. The handler runs only for a starter, at most `limit` times; a return is
     stored as its JSON image, an ordinary exception, a blocked attempt or an awaitable as a failure,
     and any other exception leaves the record pending.
     */
    method Execute(k: Key, digest: string, ttlSeconds: int, readAt: int, limit: nat,
                   attempts: nat -> Attempt, image: string -> string)
      returns (r: Outcome, runs: nat)
      requires limit >= 1
      modifies this
      ensures rows == Executed(old(rows), k, digest, ttlSeconds, readAt, limit, attempts, image)
      ensures runs == if Answer(old(rows), k, digest, readAt) == Ok(Started)
              then RunsIn(attempts, Made(limit, attempts))
              else 0
      ensures runs <= limit
      ensures match Answer(old(rows), k, digest, readAt)
              case Err(e) => r == Rejected(e)
              case Ok(Replay(response)) => r == Value(response)
              case Ok(PreviousFailure(error)) => r == FailedBefore(error)
              case Ok(Started) => EndsAs(attempts(Last(limit, attempts)), r)
    {
      runs := 0;
      var reply := BeginCall(k, digest, ttlSeconds, readAt);
      match reply
      case Err(e) => r := Rejected(e);
      case Ok(Replay(response)) => r := Value(response);
      case Ok(PreviousFailure(error)) => r := FailedBefore(error);
      case Ok(Started) => r, runs := RunAndReport(k, limit, attempts, image);
    }

    /** What a starter does: the retry loop, then one report of how it ended. */
    method RunAndReport(k: Key, limit: nat, attempts: nat -> Attempt, image: string -> string)
      returns (r: Outcome, runs: nat)
      requires limit >= 1
      modifies this
      ensures rows == Reported(old(rows), k, attempts(Last(limit, attempts)), image)
      ensures runs == RunsIn(attempts, Made(limit, attempts)) <= limit
      ensures EndsAs(attempts(Last(limit, attempts)), r)
    {
      var outcome, made;
      outcome, made, runs := RetryCall(limit, attempts);
      RunsAtMost(attempts, made);
      r := ReportOutcome(k, outcome, image);
    }

    method ReportOutcome(k: Key, outcome: Attempt, image: string -> string) returns (r: Outcome)
      modifies this
      ensures rows == Reported(old(rows), k, outcome, image) && EndsAs(outcome, r)
    {
      match outcome
      case Returned(result, awaitable) =>
        if awaitable {
          var _ := Settle(k, Failed(ErrorOf(outcome)));
          r := Threw(ErrorOf(outcome));
        } else {
          var _ := Settle(k, Completed(image(result)));
          r := Value(result);
        }
      case Raised(error, _, ordinary) =>
        if ordinary {
          var _ := Settle(k, Failed(error));
          r := Threw(error);
        } else {
          r := Unreported;
        }
      case Blocked(error, _) =>
        var _ := Settle(k, Failed(error));
        r := Threw(error);
    }
  }
}
