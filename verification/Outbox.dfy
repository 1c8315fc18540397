/**
 The leased outbox. Workers claim due events under a lease, and report each as
 delivered, rescheduled or dead; a lease that expires can be claimed again.
 */
module Outbox {
  import opened Numbers
  import opened Outcomes
  import opened Text

  datatype Status = Pending | Leased(owner: string, expiresAt: int) | Delivered | DeadLetter

  datatype Event = Event(id: string, topic: string, destination: string, payload: string, key: string,
                         status: Status, attempts: nat, availableAt: int, lastError: string,
                         createdAt: int, deliveredAt: Option<int>)

  datatype DeadRow = DeadRow(topic: string, destination: string, payload: string, key: string,
                             attempts: nat, lastError: string, createdAt: int, deadAt: int)

  /** The outbox table and the dead-letter table. */
  datatype Tables = Tables(rows: map<string, Event>, dead: map<string, DeadRow>)

  /** A new event, as `OutboxEvent.create` makes it. */
  predicate IsNew(e: Event) {
    e.status == Pending && e.attempts == 0 && e.lastError == "" && e.deliveredAt == None
  }

  datatype OutboxError = MissingWorker | NotHolder | DuplicateId

  // ----- Enqueueing -----

  ghost predicate HasKey(rows: map<string, Event>, destination: string, key: string) {
    exists id :: id in rows && rows[id].destination == destination && rows[id].key == key
  }

  predicate SameKey(a: Event, b: Event) { a.destination == b.destination && a.key == b.key }

  /** One row per (destination, idempotency key), stored under its own id. */
  ghost predicate KeysUnique(rows: map<string, Event>) {
    && (forall id :: id in rows ==> rows[id].id == id)
    && (forall a, b :: a in rows && b in rows && SameKey(rows[a], rows[b]) ==> a == b)
  }

  ghost predicate Accepts(t: Tables, e: Event) {
    e.id !in t.rows && !HasKey(t.rows, e.destination, e.key)
  }

  ghost function Insert(t: Tables, e: Event): Tables {
    if Accepts(t, e) then t.(rows := t.rows[e.id := e]) else t
  }

  // ----- Claiming -----

  predicate IsDue(e: Event, now: int, destination: string) {
    && e.availableAt <= now
    && (e.status == Pending || (e.status.Leased? && e.status.expiresAt < now))
    && (destination == "" || e.destination == destination)
  }

  function Clamp(n: int, low: int, high: int): int {
    if n < low then low else if n > high then high else n
  }

  ghost predicate Distinct(ids: seq<string>) {
    forall i, j :: 0 <= i < j < |ids| ==> ids[i] != ids[j]
  }

  /**
   The claim's choice: at most the limit of due events, the oldest first, and no due event left out
   while there is room.
   */
  ghost predicate IsSelection(rows: map<string, Event>, ids: seq<string>, now: int, destination: string, limit: int) {
    && (forall i :: 0 <= i < |ids| ==> ids[i] in rows && IsDue(rows[ids[i]], now, destination))
    && Distinct(ids)
    && (forall i, j :: 0 <= i < j < |ids| ==> rows[ids[i]].createdAt <= rows[ids[j]].createdAt)
    && |ids| <= Clamp(limit, 1, 100)
    && (forall id :: id in rows && IsDue(rows[id], now, destination) && id !in ids ==>
          |ids| == Clamp(limit, 1, 100) && forall i :: 0 <= i < |ids| ==> rows[ids[i]].createdAt <= rows[id].createdAt)
  }

  function Lease(e: Event, worker: string, expiresAt: int): Event {
    e.(status := Leased(worker, expiresAt), attempts := e.attempts + 1)
  }

  function LeaseAll(rows: map<string, Event>, ids: seq<string>, worker: string, expiresAt: int): map<string, Event> {
    map id | id in rows :: if id in ids then Lease(rows[id], worker, expiresAt) else rows[id]
  }

  // ----- Outcomes -----

  predicate Holds(t: Tables, id: string, worker: string) {
    id in t.rows && t.rows[id].status.Leased? && t.rows[id].status.owner == worker
  }

  function Truncated(error: string): string {
    if |error| <= 4000 then error else error[..4000]
  }

  function MarkDelivered(t: Tables, id: string, worker: string, now: int): Result<Tables, OutboxError> {
    if Holds(t, id, worker) then
      Ok(t.(rows := t.rows[id := t.rows[id].(status := Delivered, deliveredAt := Some(now), lastError := "")]))
    else Err(NotHolder)
  }

  function Reschedule(t: Tables, id: string, worker: string, error: string, now: int,
        delay: int): Result<Tables, OutboxError> {
    if Holds(t, id, worker) then
      var available := now + if delay < 0 then 0 else delay;
      Ok(t.(rows := t.rows[id := t.rows[id].(status := Pending, availableAt := available,
          lastError := Truncated(error))]))
    else Err(NotHolder)
  }

  function Bury(t: Tables, id: string, worker: string, error: string, now: int): Result<Tables, OutboxError> {
    if Holds(t, id, worker) then
      var e := t.rows[id];
      var row := DeadRow(e.topic, e.destination, e.payload, e.key, e.attempts, Truncated(error), e.createdAt, now);
      Ok(Tables(t.rows[id := e.(status := DeadLetter, lastError := Truncated(error))], t.dead[id := row]))
    else Err(NotHolder)
  }

  // ----- Runs of any number of workers -----

  /** What the store did to an event. `Granted` keeps the claim's clock reading and the lease it gave. */
  datatype Fact =
    | Granted(id: string, worker: string, leaseSeconds: int, at: int, expiresAt: int)
    | Rescheduled(id: string, worker: string, delay: int, at: int)
    | MarkedDelivered(id: string, worker: string)
    | Buried(id: string, worker: string)

  datatype World = World(tables: Tables, clock: int, facts: seq<Fact>)

  /** A claim reads the clock at `readAt`, possibly before its transaction starts at `now`. */
  datatype Step =
    | Enqueue(event: Event)
    | Claim(worker: string, ids: seq<string>, readAt: int, now: int, limit: int, leaseSeconds: int, destination: string)
    | Deliver(worker: string, id: string, now: int)
    | Retry(worker: string, id: string, error: string, now: int, delay: int)
    | Kill(worker: string, id: string, error: string, now: int)

  function Time(step: Step, clock: int): int {
    match step
    case Enqueue(_) => clock
    case Claim(_, _, _, now, _, _, _) => now
    case Deliver(_, _, now) => now
    case Retry(_, _, _, now, _) => now
    case Kill(_, _, _, now) => now
  }

  function Grants(ids: seq<string>, worker: string, secs: int, at: int, expiresAt: int): seq<Fact> {
    seq(|ids|, i requires 0 <= i < |ids| => Granted(ids[i], worker, secs, at, expiresAt))
  }

  function LeaseEnd(readAt: int, leaseSeconds: int): int {
    readAt + if leaseSeconds < 1 then 1 else leaseSeconds
  }

  function Settle(w: World, now: int, r: Result<Tables, OutboxError>, fact: Fact): World {
    if r.Ok? then World(r.value, now, w.facts + [fact]) else w.(clock := now)
  }

  /**
   The steps the protocol can take: time does not run back, new events are new, and claims select as
   the query does.
   */
  ghost predicate Enabled(w: World, step: Step) {
    && w.clock <= Time(step, w.clock)
    && (step.Enqueue? ==> IsNew(step.event))
    && (step.Claim? ==>
          && step.readAt <= step.now && Strip(step.worker) != ""
          && IsSelection(w.tables.rows, step.ids, step.readAt, step.destination, step.limit))
  }

  ghost function Next(w: World, step: Step): World {
    if !Enabled(w, step) then w
    else
      match step
      case Enqueue(e) => w.(tables := Insert(w.tables, e))
      case Claim(worker, ids, readAt, now, _, leaseSeconds, _) =>
        var until := LeaseEnd(readAt, leaseSeconds);
        World(w.tables.(rows := LeaseAll(w.tables.rows, ids, worker, until)), now,
              w.facts + Grants(ids, worker, leaseSeconds, readAt, until))
      case Deliver(worker, id, now) =>
        Settle(w, now, MarkDelivered(w.tables, id, worker, now), MarkedDelivered(id, worker))
      case Retry(worker, id, error, now, delay) =>
        Settle(w, now, Reschedule(w.tables, id, worker, error, now, delay), Rescheduled(id, worker, delay, now))
      case Kill(worker, id, error, now) =>
        Settle(w, now, Bury(w.tables, id, worker, error, now), Buried(id, worker))
  }

  ghost function Run(w: World, steps: seq<Step>): World {
    if steps == [] then w else Next(Run(w, steps[..|steps| - 1]), steps[|steps| - 1])
  }

  lemma {:induction false} RunAppend(w: World, a: seq<Step>, b: seq<Step>)
    ensures Run(w, a + b) == Run(Run(w, a), b)
  {
    if b == [] {
      assert a + b == a;
    } else {
      var init := b[..|b| - 1];
      assert (a + b)[..|a + b| - 1] == a + init;
      RunAppend(w, a, init);
    }
  }

  const EMPTY := World(Tables(map[], map[]), 0, [])

  // ----- The tables are determined by what happened -----

  /** The last thing that happened to an event. */
  function Latest(facts: seq<Fact>, id: string): Option<Fact> {
    if facts == [] then None
    else if facts[|facts| - 1].id == id then Some(facts[|facts| - 1])
    else Latest(facts[..|facts| - 1], id)
  }

  function StatusAfter(latest: Option<Fact>): Status {
    match latest
    case None => Pending
    case Some(Granted(_, worker, _, _, expiresAt)) => Leased(worker, expiresAt)
    case Some(Rescheduled(_, _, _, _)) => Pending
    case Some(MarkedDelivered(_, _)) => Delivered
    case Some(Buried(_, _)) => DeadLetter
  }

  function GrantCount(facts: seq<Fact>, id: string): nat {
    if facts == [] then 0
    else
      var last := facts[|facts| - 1];
      GrantCount(facts[..|facts| - 1], id) + if last.Granted? && last.id == id then 1 else 0
  }

  /** The delay of a retry is over. */
  predicate HasWaited(retry: Fact, time: int)
    requires retry.Rescheduled?
  {
    retry.at <= time && retry.at + retry.delay <= time
  }

  /**
   Every grant was given to an event that nobody held and whose last delay was over, or whose lease had
   run out, when the claim read the clock.
   */
  predicate FollowsRules(before: seq<Fact>, fact: Fact) {
    var latest := Latest(before, fact.id);
    match fact
    case Granted(_, _, _, at, _) =>
      || latest.None? || (latest.value.Rescheduled? && HasWaited(latest.value, at))
      || (latest.value.Granted? && latest.value.expiresAt < at)
    case _ => latest.Some? && latest.value.Granted? && latest.value.worker == fact.worker
  }

  ghost predicate FactsFollowRules(facts: seq<Fact>) {
    forall k :: 0 <= k < |facts| ==> FollowsRules(facts[..k], facts[k])
  }

  ghost predicate RowsMatchFacts(rows: map<string, Event>, facts: seq<Fact>) {
    && (forall id :: id in rows ==>
          rows[id].status == StatusAfter(Latest(facts, id)) && rows[id].attempts == GrantCount(facts, id))
    && (forall id :: id in rows && Latest(facts, id).Some? && Latest(facts, id).value.Rescheduled? ==>
          WaitsOut(rows[id], Latest(facts, id).value))
    && (forall id :: id !in rows ==> Latest(facts, id) == None && GrantCount(facts, id) == 0)
  }

  predicate WaitsOut(e: Event, retry: Fact)
    requires retry.Rescheduled?
  {
    IsGreater(e.availableAt, retry.at, retry.at + retry.delay)
  }

  predicate SameLetter(e: Event, d: DeadRow) {
    && d.topic == e.topic && d.destination == e.destination && d.payload == e.payload && d.key == e.key
    && d.attempts == e.attempts && d.lastError == e.lastError && d.createdAt == e.createdAt
  }

  /** The dead-letter table holds exactly the dead events, with the same contents and attempts. */
  ghost predicate DeadMatchRows(t: Tables) {
    && (forall id :: id in t.dead <==> id in t.rows && t.rows[id].status == DeadLetter)
    && (forall id :: id in t.dead ==> SameLetter(t.rows[id], t.dead[id]))
  }

  ghost predicate Invariant(w: World) {
    && KeysUnique(w.tables.rows) && DeadMatchRows(w.tables)
    && RowsMatchFacts(w.tables.rows, w.facts) && FactsFollowRules(w.facts)
    && forall k :: 0 <= k < |w.facts| && w.facts[k].Granted? ==> w.facts[k].at <= w.clock && LastsAsAsked(w.facts[k])
  }

  /** A lease lasts for the seconds asked for, and at least for one, from the time the claim read its clock. */
  predicate LastsAsAsked(grant: Fact)
    requires grant.Granted?
  {
    IsGreater(grant.expiresAt, grant.at + 1, grant.at + grant.leaseSeconds)
  }

  lemma Snoc(facts: seq<Fact>, fact: Fact)
    ensures (facts + [fact])[..|facts + [fact]| - 1] == facts
    ensures forall id :: Latest(facts + [fact], id) == if fact.id == id then Some(fact) else Latest(facts, id)
    ensures forall id :: GrantCount(facts + [fact], id)
                         == GrantCount(facts, id) + if fact.Granted? && fact.id == id then 1 else 0
  {
  }

  lemma RulesExtend(facts: seq<Fact>, fact: Fact)
    requires FactsFollowRules(facts) && FollowsRules(facts, fact)
    ensures FactsFollowRules(facts + [fact])
  {
    var longer := facts + [fact];
    assert longer[..|facts|] == facts;
    assert forall k :: 0 <= k < |facts| ==> longer[..k] == facts[..k] && longer[k] == facts[k];
  }

  lemma GrantsSnoc(ids: seq<string>, worker: string, secs: int, at: int, expiresAt: int)
    requires ids != []
    ensures Grants(ids, worker, secs, at, expiresAt)
            == Grants(ids[..|ids| - 1], worker, secs, at, expiresAt)
                + [Granted(ids[|ids| - 1], worker, secs, at, expiresAt)]
  {
  }

  lemma {:induction false} GrantsLatest(facts: seq<Fact>, ids: seq<string>, worker: string, secs: int, at: int,
        expiresAt: int,
        id: string)
    requires Distinct(ids)
    ensures var longer := facts + Grants(ids, worker, secs, at, expiresAt);
            && Latest(longer, id) == (if id in ids then Some(Granted(id, worker, secs, at, expiresAt))
                else Latest(facts, id))
            && GrantCount(longer, id) == GrantCount(facts, id) + if id in ids then 1 else 0
  {
    if ids == [] {
      assert facts + Grants(ids, worker, secs, at, expiresAt) == facts;
    } else {
      var init, last := ids[..|ids| - 1], ids[|ids| - 1];
      GrantsLatest(facts, init, worker, secs, at, expiresAt, id);
      GrantsSnoc(ids, worker, secs, at, expiresAt);
      var longer, fact := facts + Grants(init, worker, secs, at, expiresAt), Granted(last, worker, secs, at, expiresAt);
      assert facts + Grants(ids, worker, secs, at, expiresAt) == longer + [fact];
      assert ids == init + [last];
      Snoc(longer, fact);
    }
  }

  lemma {:induction false} GrantsFollowRules(facts: seq<Fact>, ids: seq<string>, worker: string, secs: int, at: int,
        expiresAt: int)
    requires FactsFollowRules(facts) && Distinct(ids)
    requires forall i :: 0 <= i < |ids| ==> FollowsRules(facts, Granted(ids[i], worker, secs, at, expiresAt))
    ensures FactsFollowRules(facts + Grants(ids, worker, secs, at, expiresAt))
  {
    if ids == [] {
      assert facts + Grants(ids, worker, secs, at, expiresAt) == facts;
    } else {
      var init, last := ids[..|ids| - 1], ids[|ids| - 1];
      GrantsFollowRules(facts, init, worker, secs, at, expiresAt);
      GrantsSnoc(ids, worker, secs, at, expiresAt);
      var longer, fact := facts + Grants(init, worker, secs, at, expiresAt), Granted(last, worker, secs, at, expiresAt);
      assert facts + Grants(ids, worker, secs, at, expiresAt) == longer + [fact];
      GrantsLatest(facts, init, worker, secs, at, expiresAt, last);
      RulesExtend(longer, fact);
    }
  }

  lemma ClaimMatchesFacts(rows: map<string, Event>, facts: seq<Fact>, ids: seq<string>, worker: string, secs: int,
        at: int,
        expiresAt: int)
    requires RowsMatchFacts(rows, facts) && Distinct(ids) && forall i :: 0 <= i < |ids| ==> ids[i] in rows
    ensures RowsMatchFacts(LeaseAll(rows, ids, worker, expiresAt), facts + Grants(ids, worker, secs, at, expiresAt))
  {
    forall id
      ensures Latest(facts + Grants(ids, worker, secs, at, expiresAt), id)
              == (if id in ids then Some(Granted(id, worker, secs, at, expiresAt)) else Latest(facts, id))
      ensures GrantCount(facts + Grants(ids, worker, secs, at, expiresAt), id) == GrantCount(facts, id) + if id in ids
              then 1
              else 0
    {
      GrantsLatest(facts, ids, worker, secs, at, expiresAt, id);
    }
  }

  lemma ClaimMatchesDead(t: Tables, ids: seq<string>, worker: string, expiresAt: int)
    requires KeysUnique(t.rows) && DeadMatchRows(t) && Distinct(ids)
    requires forall i :: 0 <= i < |ids| ==> ids[i] in t.rows && t.rows[ids[i]].status != DeadLetter
    ensures var rows := LeaseAll(t.rows, ids, worker, expiresAt); KeysUnique(rows) && DeadMatchRows(t.(rows := rows))
  {
  }

  lemma ClaimKeepsInvariant(w: World, step: Step)
    requires Invariant(w) && step.Claim? && Enabled(w, step)
    ensures Invariant(Next(w, step))
  {
    var Claim(worker, ids, readAt, now, _, leaseSeconds, _) := step;
    var until, rows := LeaseEnd(readAt, leaseSeconds), w.tables.rows;
    forall i | 0 <= i < |ids|
      ensures FollowsRules(w.facts, Granted(ids[i], worker, leaseSeconds, readAt, until))
    {
      assert rows[ids[i]].status == StatusAfter(Latest(w.facts, ids[i]));
    }
    ClaimMatchesFacts(rows, w.facts, ids, worker, leaseSeconds, readAt, until);
    ClaimMatchesDead(w.tables, ids, worker, until);
    GrantsFollowRules(w.facts, ids, worker, leaseSeconds, readAt, until);
  }

  lemma OutcomeMatchesFacts(rows: map<string, Event>, rows': map<string, Event>, facts: seq<Fact>, fact: Fact)
    requires RowsMatchFacts(rows, facts) && !fact.Granted? && rows'.Keys == rows.Keys && fact.id in rows
    requires rows[fact.id].status.Leased? && rows[fact.id].status.owner == fact.worker
    requires forall id :: id in rows && id != fact.id ==> rows'[id] == rows[id]
    requires rows'[fact.id].status == StatusAfter(Some(fact)) && rows'[fact.id].attempts == rows[fact.id].attempts
    requires fact.Rescheduled? ==> WaitsOut(rows'[fact.id], fact)
    ensures RowsMatchFacts(rows', facts + [fact]) && FollowsRules(facts, fact)
  {
    Snoc(facts, fact);
    assert rows[fact.id].status == StatusAfter(Latest(facts, fact.id));
  }

  lemma OutcomeKeepsInvariant(w: World, now: int, r: Result<Tables, OutboxError>, fact: Fact)
    requires Invariant(w) && w.clock <= now && !fact.Granted?
    requires r.Ok? ==> Holds(w.tables, fact.id, fact.worker)
    requires r.Ok? ==> r.value.rows.Keys == w.tables.rows.Keys && DeadMatchRows(r.value)
    requires r.Ok? ==> forall id :: id in w.tables.rows && id != fact.id ==> r.value.rows[id] == w.tables.rows[id]
    requires r.Ok? ==> var e, e' := w.tables.rows[fact.id], r.value.rows[fact.id];
                       && e'.status == StatusAfter(Some(fact)) && e'.attempts == e.attempts
                       && e'.id == e.id && e'.destination == e.destination && e'.key == e.key
                       && (fact.Rescheduled? ==> WaitsOut(e', fact))
    ensures Invariant(Settle(w, now, r, fact))
  {
    if r.Ok? {
      OutcomeMatchesFacts(w.tables.rows, r.value.rows, w.facts, fact);
      RulesExtend(w.facts, fact);
    }
  }

  lemma DeliverKeepsInvariant(w: World, worker: string, id: string, now: int)
    requires Invariant(w) && w.clock <= now
    ensures Invariant(Settle(w, now, MarkDelivered(w.tables, id, worker, now), MarkedDelivered(id, worker)))
  {
    OutcomeKeepsInvariant(w, now, MarkDelivered(w.tables, id, worker, now), MarkedDelivered(id, worker));
  }

  lemma RetryKeepsInvariant(w: World, worker: string, id: string, error: string, now: int, delay: int)
    requires Invariant(w) && w.clock <= now
    ensures Invariant(Settle(w, now, Reschedule(w.tables, id, worker, error, now, delay),
            Rescheduled(id, worker, delay, now)))
  {
    OutcomeKeepsInvariant(w, now, Reschedule(w.tables, id, worker, error, now, delay),
        Rescheduled(id, worker, delay, now));
  }

  lemma KillKeepsInvariant(w: World, worker: string, id: string, error: string, now: int)
    requires Invariant(w) && w.clock <= now
    ensures Invariant(Settle(w, now, Bury(w.tables, id, worker, error, now), Buried(id, worker)))
  {
    OutcomeKeepsInvariant(w, now, Bury(w.tables, id, worker, error, now), Buried(id, worker));
  }

  lemma NextKeepsInvariant(w: World, step: Step)
    requires Invariant(w)
    ensures Invariant(Next(w, step))
  {
    if Enabled(w, step) {
      match step
      case Enqueue(e) =>
        if Accepts(w.tables, e) {
          EnqueueKeepsInvariant(w, e);
        }
      case Claim(_, _, _, _, _, _, _) => ClaimKeepsInvariant(w, step);
      case Deliver(worker, id, now) => DeliverKeepsInvariant(w, worker, id, now);
      case Retry(worker, id, error, now, delay) => RetryKeepsInvariant(w, worker, id, error, now, delay);
      case Kill(worker, id, error, now) => KillKeepsInvariant(w, worker, id, error, now);
    }
  }

  lemma EnqueueKeepsInvariant(w: World, e: Event)
    requires Invariant(w) && IsNew(e) && Accepts(w.tables, e)
    ensures Invariant(w.(tables := w.tables.(rows := w.tables.rows[e.id := e])))
  {
    NewKeyIsUnique(w.tables.rows, e);
    NewRowMatches(w.tables.rows, w.facts, e);
    NewRowIsNotDead(w.tables, e);
  }

  lemma NewKeyIsUnique(rows: map<string, Event>, e: Event)
    requires KeysUnique(rows) && e.id !in rows && !HasKey(rows, e.destination, e.key)
    ensures KeysUnique(rows[e.id := e])
  {
  }

  lemma NewRowMatches(rows: map<string, Event>, facts: seq<Fact>, e: Event)
    requires RowsMatchFacts(rows, facts) && IsNew(e) && e.id !in rows
    ensures RowsMatchFacts(rows[e.id := e], facts)
  {
  }

  lemma NewRowIsNotDead(t: Tables, e: Event)
    requires DeadMatchRows(t) && IsNew(e) && e.id !in t.rows
    ensures DeadMatchRows(t.(rows := t.rows[e.id := e]))
  {
  }

  /** Every reachable state of every interleaving of any number of workers satisfies the invariant. */
  lemma {:induction false} RunKeepsInvariant(steps: seq<Step>)
    ensures Invariant(Run(EMPTY, steps))
  {
    if steps != [] {
      RunKeepsInvariant(steps[..|steps| - 1]);
      NextKeepsInvariant(Run(EMPTY, steps[..|steps| - 1]), steps[|steps| - 1]);
    }
  }

  // ----- Lease safety -----

  /** Where the latest fact about an event stands. */
  lemma {:induction false} LatestAt(facts: seq<Fact>, id: string) returns (k: nat)
    requires Latest(facts, id).Some?
    ensures k < |facts| && facts[k].id == id && Latest(facts, id) == Some(facts[k])
    ensures forall m :: k < m < |facts| ==> facts[m].id != id
  {
    if facts[|facts| - 1].id == id {
      k := |facts| - 1;
    } else {
      k := LatestAt(facts[..|facts| - 1], id);
    }
  }

  lemma {:induction false} LatestExists(facts: seq<Fact>, k: nat)
    requires k < |facts|
    ensures Latest(facts, facts[k].id).Some?
  {
    if k < |facts| - 1 {
      LatestExists(facts[..|facts| - 1], k);
    }
  }

  /** Fact `i` is the grant that report `k` answers: nothing happened to the event in between. */
  ghost predicate Answers(facts: seq<Fact>, k: nat, i: nat)
    requires i < k < |facts|
  {
    && facts[i].Granted? && facts[i].id == facts[k].id && facts[i].worker == facts[k].worker
    && forall m :: i < m < k ==> facts[m].id != facts[k].id
  }

  /** A report that the store accepted came from the worker of the grant that directly precedes it. */
  lemma ReportIsHolders(facts: seq<Fact>, k: nat) returns (i: nat)
    requires FactsFollowRules(facts) && k < |facts| && !facts[k].Granted?
    ensures i < k && Answers(facts, k, i)
  {
    assert FollowsRules(facts[..k], facts[k]);
    i := LatestAt(facts[..k], facts[k].id);
  }

  ghost predicate SuccessiveGrants(facts: seq<Fact>, i: nat, j: nat)
    requires i < j < |facts|
  {
    && facts[i].Granted? && facts[j].Granted? && facts[i].id == facts[j].id
    && forall m :: i < m < j && facts[m].id == facts[i].id ==> !facts[m].Granted?
  }

  /** The holder put the event off, and the delay was over at the later grant. */
  ghost predicate RescheduledBetween(facts: seq<Fact>, i: nat, j: nat)
    requires i < j < |facts| && facts[i].Granted? && facts[j].Granted?
  {
    exists k :: i < k < j && facts[k].Rescheduled? && facts[k].id == facts[i].id && facts[k].worker == facts[i].worker
        && HasWaited(facts[k], facts[j].at)
  }

  /**
   Two successive grants of one event are separated by a reschedule from the first holder and its
   delay, or by the clock passing the end of the first lease.
   */
  lemma GrantsAreSeparated(facts: seq<Fact>, i: nat, j: nat)
    requires FactsFollowRules(facts) && i < j < |facts| && SuccessiveGrants(facts, i, j)
    ensures RescheduledBetween(facts, i, j) || facts[i].expiresAt < facts[j].at
  {
    assert FollowsRules(facts[..j], facts[j]);
    LatestExists(facts[..j], i);
    var k := LatestAt(facts[..j], facts[j].id);
    if k > i {
      assert facts[k].Rescheduled?;
      var g := ReportIsHolders(facts, k);
      assert g == i;
      assert facts[k].id == facts[i].id && facts[k].worker == facts[i].worker && HasWaited(facts[k], facts[j].at);
    } else {
      assert k == i;
    }
  }

  /** After all the seconds that a lease was asked for. */
  predicate LaterThanLease(grant: Fact, time: int)
    requires grant.Granted?
  {
    grant.expiresAt < time && grant.at + 1 < time && grant.at + grant.leaseSeconds < time
  }

  /**
   Lease safety over every run of any number of workers: attempts count grants, an accepted report
   answers the holder's own grant, and successive grants are separated by the holder's reschedule, or
   by all the seconds that the first lease was asked for.
   */
  lemma LeaseSafety(steps: seq<Step>)
    ensures var w := Run(EMPTY, steps);
            && (forall id :: id in w.tables.rows ==> w.tables.rows[id].attempts == GrantCount(w.facts, id))
            && (forall i: nat, j: nat :: i < j < |w.facts| && SuccessiveGrants(w.facts, i, j) ==>
                  && LastsAsAsked(w.facts[i])
                  && (RescheduledBetween(w.facts, i, j) || LaterThanLease(w.facts[i], w.facts[j].at))
                  && w.facts[j].at <= w.clock)
            && (forall k: nat :: k < |w.facts| && !w.facts[k].Granted? ==>
                  exists i: nat :: i < k && Answers(w.facts, k, i))
  {
    RunKeepsInvariant(steps);
    var facts := Run(EMPTY, steps).facts;
    forall i: nat, j: nat | i < j < |facts| && SuccessiveGrants(facts, i, j)
      ensures RescheduledBetween(facts, i, j) || facts[i].expiresAt < facts[j].at
    {
      GrantsAreSeparated(facts, i, j);
    }
    forall k: nat | k < |facts| && !facts[k].Granted?
      ensures exists i: nat :: i < k && Answers(facts, k, i)
    {
      var i := ReportIsHolders(facts, k);
    }
  }

  predicate IsFinished(e: Event) {
    e.status == Delivered || e.status == DeadLetter
  }

  lemma NextKeepsFinished(w: World, step: Step, id: string)
    requires Invariant(w) && id in w.tables.rows && IsFinished(w.tables.rows[id])
    ensures var t := Next(w, step).tables;
            && id in t.rows && t.rows[id] == w.tables.rows[id]
            && (id in w.tables.dead ==> id in t.dead && t.dead[id] == w.tables.dead[id])
  {
    if Enabled(w, step) && step.Claim? {
      ClaimSkipsFinished(w.tables.rows, step, id);
    }
  }

  lemma ClaimSkipsFinished(rows: map<string, Event>, step: Step, id: string)
    requires step.Claim? && IsSelection(rows, step.ids, step.readAt, step.destination, step.limit)
    requires id in rows && IsFinished(rows[id])
    ensures id !in step.ids
    ensures LeaseAll(rows, step.ids, step.worker, LeaseEnd(step.readAt, step.leaseSeconds))[id] == rows[id]
  {
  }

  /** Delivered and dead are final: from then on no step of anybody changes the event. */
  lemma {:induction false} FinishedIsFinal(w: World, steps: seq<Step>, id: string)
    requires Invariant(w) && id in w.tables.rows && IsFinished(w.tables.rows[id])
    ensures var t := Run(w, steps).tables;
            && Invariant(Run(w, steps)) && id in t.rows && t.rows[id] == w.tables.rows[id]
            && (id in w.tables.dead ==> id in t.dead && t.dead[id] == w.tables.dead[id])
  {
    if steps != [] {
      var before := Run(w, steps[..|steps| - 1]);
      FinishedIsFinal(w, steps[..|steps| - 1], id);
      NextKeepsInvariant(before, steps[|steps| - 1]);
      NextKeepsFinished(before, steps[|steps| - 1], id);
    }
  }
}
