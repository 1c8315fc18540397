/**
 The delivery worker over the outbox: one claim, then one report per claimed event.
 Alone on its store it drains the outbox.
 */
module OutboxWorker {
  import opened Numbers
  import opened Outcomes
  import opened Text
  import opened Outbox

  /** How the delivery of one claimed event went, after the handler's own retries. */
  datatype Delivery = Delivery(succeeded: bool, error: string, now: int, delay: int)

  datatype Counts = Counts(delivered: nat, retried: nat, deadLettered: nat)

  datatype Handled = Handled(tables: Tables, counts: Counts)

  /** The report the worker makes for one claimed event. */
  function Handle(t: Tables, e: Event, d: Delivery, worker: string, maxAttempts: nat): Result<Handled, OutboxError> {
    if d.succeeded then
      Counted(MarkDelivered(t, e.id, worker, d.now), Counts(1, 0, 0))
    else if e.attempts >= maxAttempts then
      Counted(Bury(t, e.id, worker, d.error, d.now), Counts(0, 0, 1))
    else
      Counted(Reschedule(t, e.id, worker, d.error, d.now, d.delay), Counts(0, 1, 0))
  }

  function Counted(r: Result<Tables, OutboxError>, c: Counts): Result<Handled, OutboxError> {
    match r
    case Err(e) => Err(e)
    case Ok(t) => Ok(Handled(t, c))
  }

  function AddCounts(a: Counts, b: Counts): Counts {
    Counts(a.delivered + b.delivered, a.retried + b.retried, a.deadLettered + b.deadLettered)
  }

  function Plus(a: Counts, r: Result<Handled, OutboxError>): Result<Handled, OutboxError> {
    match r
    case Err(e) => Err(e)
    case Ok(Handled(t, b)) => Ok(Handled(t, AddCounts(a, b)))
  }

  lemma PlusPlus(a: Counts, b: Counts, r: Result<Handled, OutboxError>)
    ensures Plus(a, Plus(b, r)) == Plus(AddCounts(a, b), r)
  {
  }

  function HandleAll(t: Tables, claimed: seq<Event>, ds: seq<Delivery>, worker: string,
        maxAttempts: nat): Result<Handled, OutboxError>
    requires |claimed| == |ds|
    decreases claimed
  {
    if claimed == [] then Ok(Handled(t, Counts(0, 0, 0)))
    else
      match Handle(t, claimed[0], ds[0], worker, maxAttempts)
      case Err(e) => Err(e)
      case Ok(first) => Plus(first.counts, HandleAll(first.tables, claimed[1..], ds[1..], worker, maxAttempts))
  }

  // ----- Potential: the attempts that are left -----

  function Weight(e: Event, maxAttempts: nat): nat {
    if IsFinished(e) || e.attempts >= maxAttempts then 0 else maxAttempts - e.attempts
  }

  ghost function Potential(rows: map<string, Event>, ids: set<string>, maxAttempts: nat): nat
    requires ids <= rows.Keys
  {
    if ids == {} then 0
    else
      var id :| id in ids;
      Weight(rows[id], maxAttempts) + Potential(rows, ids - {id}, maxAttempts)
  }

  /** The attempts left over all unfinished events. */
  ghost function Remaining(rows: map<string, Event>, maxAttempts: nat): nat {
    Potential(rows, rows.Keys, maxAttempts)
  }

  lemma {:induction false} PotentialWithout(rows: map<string, Event>, ids: set<string>, maxAttempts: nat, id: string)
    requires ids <= rows.Keys && id in ids
    ensures Potential(rows, ids, maxAttempts) == Weight(rows[id], maxAttempts)
            + Potential(rows, ids - {id}, maxAttempts)
    decreases |ids|
  {
    var x :| x in ids && Potential(rows, ids, maxAttempts)
                         == Weight(rows[x], maxAttempts) + Potential(rows, ids - {x}, maxAttempts);
    if x != id {
      PotentialWithout(rows, ids - {x}, maxAttempts, id);
      PotentialWithout(rows, ids - {id}, maxAttempts, x);
      assert ids - {x} - {id} == ids - {id} - {x};
    }
  }

  lemma {:induction false} PotentialElsewhere(rows: map<string, Event>, rows': map<string, Event>, ids: set<string>,
        maxAttempts: nat)
    requires ids <= rows.Keys && ids <= rows'.Keys
    requires forall id :: id in ids ==> rows[id] == rows'[id]
    ensures Potential(rows, ids, maxAttempts) == Potential(rows', ids, maxAttempts)
    decreases |ids|
  {
    if ids != {} {
      var id :| id in ids;
      PotentialWithout(rows, ids, maxAttempts, id);
      PotentialWithout(rows', ids, maxAttempts, id);
      PotentialElsewhere(rows, rows', ids - {id}, maxAttempts);
    }
  }

  lemma RemainingAfterUpdate(rows: map<string, Event>, rows': map<string, Event>, id: string, maxAttempts: nat)
    requires id in rows && rows'.Keys == rows.Keys
    requires forall other :: other in rows && other != id ==> rows'[other] == rows[other]
    ensures Remaining(rows', maxAttempts) + Weight(rows[id], maxAttempts)
            == Remaining(rows, maxAttempts) + Weight(rows'[id], maxAttempts)
  {
    PotentialWithout(rows, rows.Keys, maxAttempts, id);
    PotentialWithout(rows', rows.Keys, maxAttempts, id);
    PotentialElsewhere(rows, rows', rows.Keys - {id}, maxAttempts);
  }

  // ----- A run of a single worker -----

  /** Nothing is leased, and every unfinished event has attempts left. */
  ghost predicate Quiet(t: Tables, maxAttempts: nat) {
    forall id :: id in t.rows ==> IsSettled(t.rows[id], maxAttempts)
  }

  ghost predicate QuietExcept(t: Tables, busy: seq<Event>, maxAttempts: nat) {
    forall id :: id in t.rows && (forall i :: 0 <= i < |busy| ==> busy[i].id != id) ==>
        IsSettled(t.rows[id], maxAttempts)
  }

  /** The claimed events, as the worker holds them. */
  ghost predicate HeldBy(t: Tables, claimed: seq<Event>, worker: string) {
    && (forall i :: 0 <= i < |claimed| ==>
          && claimed[i].id in t.rows && t.rows[claimed[i].id] == claimed[i]
          && claimed[i].status.Leased? && claimed[i].status.owner == worker)
    && (forall i, j :: 0 <= i < j < |claimed| ==> claimed[i].id != claimed[j].id)
  }

  ghost predicate Held(t: Tables, claimed: seq<Event>, worker: string, maxAttempts: nat) {
    HeldBy(t, claimed, worker) && forall i :: 0 <= i < |claimed| ==> claimed[i].attempts <= maxAttempts
  }

  /** The rows are the same events, whatever happened to them. */
  ghost predicate SameEvents(rows: map<string, Event>, rows': map<string, Event>) {
    && rows'.Keys == rows.Keys
    && forall id :: id in rows ==>
         rows'[id].id == rows[id].id && rows'[id].destination == rows[id].destination && rows'[id].key == rows[id].key
  }

  lemma SameEventsKeepKeys(rows: map<string, Event>, rows': map<string, Event>)
    requires KeysUnique(rows) && SameEvents(rows, rows')
    ensures KeysUnique(rows')
  {
  }

  predicate IsSettled(e: Event, maxAttempts: nat) {
    !e.status.Leased? && (IsFinished(e) || e.attempts < maxAttempts) && e.attempts <= maxAttempts
  }

  lemma HandleEffect(t: Tables, e: Event, d: Delivery, worker: string, maxAttempts: nat)
    requires Holds(t, e.id, worker) && t.rows[e.id] == e && e.attempts <= maxAttempts
    ensures Handle(t, e, d, worker, maxAttempts).Ok?
    ensures var h := Handle(t, e, d, worker, maxAttempts).value;
            && SameEvents(t.rows, h.tables.rows)
            && (forall other :: other in t.rows && other != e.id ==> h.tables.rows[other] == t.rows[other])
            && IsSettled(h.tables.rows[e.id], maxAttempts)
            && h.counts.delivered + h.counts.retried + h.counts.deadLettered == 1
            && Remaining(h.tables.rows, maxAttempts) <= Remaining(t.rows, maxAttempts)
  {
    RemainingAfterUpdate(t.rows, Handle(t, e, d, worker, maxAttempts).value.tables.rows, e.id, maxAttempts);
  }

  lemma HandleStep(t: Tables, claimed: seq<Event>, d: Delivery, worker: string, maxAttempts: nat)
    requires claimed != [] && Held(t, claimed, worker, maxAttempts) && QuietExcept(t, claimed, maxAttempts)
    ensures Handle(t, claimed[0], d, worker, maxAttempts).Ok?
    ensures var h := Handle(t, claimed[0], d, worker, maxAttempts).value;
            Held(h.tables, claimed[1..], worker, maxAttempts) && QuietExcept(h.tables, claimed[1..], maxAttempts)
  {
    var e := claimed[0];
    HandleEffect(t, e, d, worker, maxAttempts);
    var rest := claimed[1..];
    var t' := Handle(t, e, d, worker, maxAttempts).value.tables;
    assert forall i :: 0 <= i < |rest| ==> rest[i] == claimed[i + 1];
    RestIsQuiet(t, t', claimed, rest, maxAttempts);
  }

  lemma RestIsQuiet(t: Tables, t': Tables, claimed: seq<Event>, rest: seq<Event>, maxAttempts: nat)
    requires claimed != [] && rest == claimed[1..] && QuietExcept(t, claimed, maxAttempts)
    requires claimed[0].id in t'.rows && t'.rows.Keys == t.rows.Keys && IsSettled(t'.rows[claimed[0].id], maxAttempts)
    requires forall other :: other in t.rows && other != claimed[0].id ==> t'.rows[other] == t.rows[other]
    ensures QuietExcept(t', rest, maxAttempts)
  {
    forall id | id in t'.rows && id != claimed[0].id && (forall i :: 0 <= i < |rest| ==> rest[i].id != id)
      ensures IsSettled(t'.rows[id], maxAttempts)
    {
      assert forall i :: 1 <= i < |claimed| ==> claimed[i] == rest[i - 1];
    }
  }

  /** All reports of a lone worker succeed, one per claimed event, and leave the store quiet. */
  lemma {:induction false} HandleAllSettles(t: Tables, claimed: seq<Event>, ds: seq<Delivery>, worker: string,
        maxAttempts: nat)
    requires |claimed| == |ds|
    requires Held(t, claimed, worker, maxAttempts) && QuietExcept(t, claimed, maxAttempts)
    ensures HandleAll(t, claimed, ds, worker, maxAttempts).Ok?
    ensures var h := HandleAll(t, claimed, ds, worker, maxAttempts).value;
            && Quiet(h.tables, maxAttempts) && SameEvents(t.rows, h.tables.rows)
            && h.counts.delivered + h.counts.retried + h.counts.deadLettered == |claimed|
            && Remaining(h.tables.rows, maxAttempts) <= Remaining(t.rows, maxAttempts)
    decreases claimed
  {
    if claimed != [] {
      HandleEffect(t, claimed[0], ds[0], worker, maxAttempts);
      HandleStep(t, claimed, ds[0], worker, maxAttempts);
      HandleAllSettles(Handle(t, claimed[0], ds[0], worker, maxAttempts).value.tables, claimed[1..], ds[1..], worker,
          maxAttempts);
    }
  }

  /** What becomes of a claimed event: delivered, dead once its attempts are used up, or put off. */
  predicate HasFate(after: Event, e: Event, d: Delivery, maxAttempts: nat) {
    && (after.status == Delivered <==> d.succeeded)
    && (after.status == DeadLetter <==> !d.succeeded && maxAttempts <= e.attempts)
    && (after.status == Pending <==> !d.succeeded && e.attempts < maxAttempts)
  }

  lemma HandleHasFate(t: Tables, claimed: seq<Event>, d: Delivery, worker: string, maxAttempts: nat)
    requires claimed != [] && HeldBy(t, claimed, worker)
    ensures var e, h := claimed[0], Handle(t, claimed[0], d, worker, maxAttempts);
            && h.Ok? && e.id in h.value.tables.rows && HasFate(h.value.tables.rows[e.id], e, d, maxAttempts)
            && h.value.tables.rows.Keys == t.rows.Keys
            && (forall id :: id in t.rows && id != e.id ==> h.value.tables.rows[id] == t.rows[id])
            && HeldBy(h.value.tables, claimed[1..], worker)
            && h.value.counts == Counts(if d.succeeded then 1 else 0,
                                        if !d.succeeded && e.attempts < maxAttempts then 1 else 0,
                                        if !d.succeeded && maxAttempts <= e.attempts then 1 else 0)
  {
    var rest := claimed[1..];
    assert forall i :: 0 <= i < |rest| ==> rest[i] == claimed[i + 1];
    assert Holds(t, claimed[0].id, worker);
  }

  /** The claimed events that were delivered. */
  function Successes(ds: seq<Delivery>): nat {
    if ds == [] then 0 else (if ds[0].succeeded then 1 else 0) + Successes(ds[1..])
  }

  /** Those that failed with no attempts left. */
  function Deaths(claimed: seq<Event>, ds: seq<Delivery>, maxAttempts: nat): nat
    requires |claimed| == |ds|
    decreases claimed
  {
    if claimed == [] then 0
    else (if !ds[0].succeeded && maxAttempts <= claimed[0].attempts then 1 else 0)
         + Deaths(claimed[1..], ds[1..], maxAttempts)
  }

  ghost predicate Fates(rows: map<string, Event>, rows': map<string, Event>, claimed: seq<Event>, ds: seq<Delivery>,
                        maxAttempts: nat)
    requires |claimed| == |ds|
  {
    && rows'.Keys == rows.Keys
    && (forall i :: 0 <= i < |claimed| ==>
          claimed[i].id in rows && HasFate(rows'[claimed[i].id], claimed[i], ds[i], maxAttempts))
    && (forall id :: id in rows && (forall i :: 0 <= i < |claimed| ==> claimed[i].id != id) ==> rows'[id] == rows[id])
  }

  lemma FatesAfterFirst(rows: map<string, Event>, mid: map<string, Event>, rows': map<string, Event>,
                        claimed: seq<Event>, ds: seq<Delivery>, maxAttempts: nat)
    requires claimed != [] && |claimed| == |ds| && forall i :: 0 < i < |claimed| ==> claimed[i].id != claimed[0].id
    requires claimed[0].id in rows && mid.Keys == rows.Keys
             && HasFate(mid[claimed[0].id], claimed[0], ds[0], maxAttempts)
    requires forall id :: id in rows && id != claimed[0].id ==> mid[id] == rows[id]
    requires Fates(mid, rows', claimed[1..], ds[1..], maxAttempts)
    ensures Fates(rows, rows', claimed, ds, maxAttempts)
  {
    var rest, more := claimed[1..], ds[1..];
    assert forall i :: 0 < i < |claimed| ==> claimed[i] == rest[i - 1] && ds[i] == more[i - 1];
    forall i | 0 <= i < |claimed|
      ensures claimed[i].id in rows && HasFate(rows'[claimed[i].id], claimed[i], ds[i], maxAttempts)
    {
      if i == 0 {
        assert forall j :: 0 <= j < |rest| ==> rest[j].id != claimed[0].id;
      }
    }
    forall id | id in rows && (forall i :: 0 <= i < |claimed| ==> claimed[i].id != id)
      ensures rows'[id] == rows[id]
    {
      assert forall j :: 0 <= j < |rest| ==> rest[j] == claimed[j + 1];
    }
  }

  /** Every claimed event meets its own fate, nothing else is touched, and the counts tell. */
  lemma {:induction false} HandleAllFates(t: Tables, claimed: seq<Event>, ds: seq<Delivery>, worker: string,
                                          maxAttempts: nat)
    requires |claimed| == |ds| && HeldBy(t, claimed, worker)
    ensures HandleAll(t, claimed, ds, worker, maxAttempts).Ok?
    ensures var h := HandleAll(t, claimed, ds, worker, maxAttempts).value;
            && Fates(t.rows, h.tables.rows, claimed, ds, maxAttempts)
            && h.counts.delivered == Successes(ds) && h.counts.deadLettered == Deaths(claimed, ds, maxAttempts)
            && h.counts.delivered + h.counts.retried + h.counts.deadLettered == |claimed|
    decreases claimed
  {
    if claimed != [] {
      HandleHasFate(t, claimed, ds[0], worker, maxAttempts);
      var first := Handle(t, claimed[0], ds[0], worker, maxAttempts).value.tables;
      HandleAllFates(first, claimed[1..], ds[1..], worker, maxAttempts);
      var last := HandleAll(first, claimed[1..], ds[1..], worker, maxAttempts).value.tables;
      FatesAfterFirst(t.rows, first.rows, last.rows, claimed, ds, maxAttempts);
    }
  }

  /** The rows a claim hands to its worker, in the order it chose them. */
  function Claimed(rows: map<string, Event>, ids: seq<string>): seq<Event>
    requires forall i :: 0 <= i < |ids| ==> ids[i] in rows
  {
    seq(|ids|, i requires 0 <= i < |ids| => rows[ids[i]])
  }

  lemma {:induction false} LeaseAllLowers(rows: map<string, Event>, ids: seq<string>, worker: string, until: int,
        maxAttempts: nat)
    requires Distinct(ids)
    requires forall i :: 0 <= i < |ids| ==> ids[i] in rows && Weight(rows[ids[i]], maxAttempts) >= 1
    ensures Remaining(LeaseAll(rows, ids, worker, until), maxAttempts) + |ids| == Remaining(rows, maxAttempts)
  {
    if ids == [] {
      assert LeaseAll(rows, ids, worker, until) == rows;
    } else {
      var init, id := ids[..|ids| - 1], ids[|ids| - 1];
      assert ids == init + [id] && id !in init;
      LeaseAllLowers(rows, init, worker, until, maxAttempts);
      RemainingAfterUpdate(LeaseAll(rows, init, worker, until), LeaseAll(rows, ids, worker, until), id, maxAttempts);
    }
  }

  /** One `run_once`: what it claimed, and how each delivery went. */
  datatype Round = Round(ids: seq<string>, readAt: int, limit: int, destination: string, deliveries: seq<Delivery>)

  ghost predicate IsRound(t: Tables, round: Round) {
    IsSelection(t.rows, round.ids, round.readAt, round.destination, round.limit) && |round.deliveries| == |round.ids|
  }

  function RunOnce(t: Tables, round: Round, worker: string, maxAttempts: nat,
        leaseSeconds: int): Result<Handled, OutboxError>
    requires |round.deliveries| == |round.ids|
    requires forall i :: 0 <= i < |round.ids| ==> round.ids[i] in t.rows
  {
    var rows := LeaseAll(t.rows, round.ids, worker, LeaseEnd(round.readAt, leaseSeconds));
    HandleAll(t.(rows := rows), Claimed(rows, round.ids), round.deliveries, worker, maxAttempts)
  }

  lemma ClaimIsHeld(t: Tables, ids: seq<string>, worker: string, until: int, maxAttempts: nat)
    requires KeysUnique(t.rows) && Quiet(t, maxAttempts) && Distinct(ids)
    requires forall i :: 0 <= i < |ids| ==> ids[i] in t.rows && !IsFinished(t.rows[ids[i]])
    ensures var rows := LeaseAll(t.rows, ids, worker, until);
            && Held(t.(rows := rows), Claimed(rows, ids), worker, maxAttempts)
            && QuietExcept(t.(rows := rows), Claimed(rows, ids), maxAttempts)
            && SameEvents(t.rows, rows)
  {
    var rows := LeaseAll(t.rows, ids, worker, until);
    var claimed := Claimed(rows, ids);
    assert forall i :: 0 <= i < |ids| ==> claimed[i] == Lease(t.rows[ids[i]], worker, until) && claimed[i].id == ids[i];
    forall id | id in rows && (forall i :: 0 <= i < |claimed| ==> claimed[i].id != id)
      ensures id !in ids
    {
    }
  }

  lemma DueHasAttemptsLeft(t: Tables, round: Round, maxAttempts: nat)
    requires Quiet(t, maxAttempts) && IsRound(t, round)
    ensures forall i :: 0 <= i < |round.ids| ==>
              !IsFinished(t.rows[round.ids[i]]) && Weight(t.rows[round.ids[i]], maxAttempts) >= 1
  {
    forall i | 0 <= i < |round.ids|
      ensures !IsFinished(t.rows[round.ids[i]]) && Weight(t.rows[round.ids[i]], maxAttempts) >= 1
    {
      assert IsDue(t.rows[round.ids[i]], round.readAt, round.destination);
    }
  }

  /**
   A lone worker's run reports every event it claimed exactly once, never lets attempts exceed the
   limit, and, when it claimed anything, lowers the attempts left over all unfinished events.
   */
  lemma RunOnceDrains(t: Tables, round: Round, worker: string, maxAttempts: nat, leaseSeconds: int)
    requires KeysUnique(t.rows) && Quiet(t, maxAttempts) && IsRound(t, round)
    ensures var r := RunOnce(t, round, worker, maxAttempts, leaseSeconds);
            && r.Ok? && Quiet(r.value.tables, maxAttempts) && SameEvents(t.rows, r.value.tables.rows)
            && r.value.counts.delivered + r.value.counts.retried + r.value.counts.deadLettered == |round.ids|
            && Remaining(r.value.tables.rows, maxAttempts) + |round.ids| <= Remaining(t.rows, maxAttempts)
  {
    var until := LeaseEnd(round.readAt, leaseSeconds);
    DueHasAttemptsLeft(t, round, maxAttempts);
    ClaimIsHeld(t, round.ids, worker, until, maxAttempts);
    LeaseAllLowers(t.rows, round.ids, worker, until, maxAttempts);
    var rows := LeaseAll(t.rows, round.ids, worker, until);
    HandleAllSettles(t.(rows := rows), Claimed(rows, round.ids), round.deliveries, worker, maxAttempts);
  }

  // ----- A round is a run of the store's steps -----

  function ReportStep(e: Event, d: Delivery, worker: string, maxAttempts: nat): Step {
    if d.succeeded then Deliver(worker, e.id, d.now)
    else if e.attempts >= maxAttempts then Kill(worker, e.id, d.error, d.now)
    else Retry(worker, e.id, d.error, d.now, d.delay)
  }

  function ReportSteps(claimed: seq<Event>, ds: seq<Delivery>, worker: string, maxAttempts: nat): seq<Step>
    requires |claimed| == |ds|
  {
    seq(|claimed|, i requires 0 <= i < |claimed| => ReportStep(claimed[i], ds[i], worker, maxAttempts))
  }

  /** The deliveries end one after another. */
  ghost predicate InOrder(clock: int, ds: seq<Delivery>) {
    && (forall i :: 0 <= i < |ds| ==> clock <= ds[i].now)
    && (forall i, j :: 0 <= i < j < |ds| ==> ds[i].now <= ds[j].now)
  }

  lemma HandleIsAStep(w: World, claimed: seq<Event>, d: Delivery, worker: string, maxAttempts: nat)
    requires claimed != [] && HeldBy(w.tables, claimed, worker) && w.clock <= d.now
    ensures var h, w' := Handle(w.tables, claimed[0], d, worker, maxAttempts),
                         Next(w, ReportStep(claimed[0], d, worker, maxAttempts));
            h.Ok? && w'.tables == h.value.tables && w'.clock == d.now && HeldBy(w'.tables, claimed[1..], worker)
  {
    var rest := claimed[1..];
    assert forall i :: 0 <= i < |rest| ==> rest[i] == claimed[i + 1];
    assert Holds(w.tables, claimed[0].id, worker);
  }

  /** The reports of held events all succeed, and are steps of the store. */
  lemma {:induction false} ReportsAreARun(w: World, claimed: seq<Event>, ds: seq<Delivery>, worker: string,
                                          maxAttempts: nat)
    requires |claimed| == |ds| && HeldBy(w.tables, claimed, worker) && InOrder(w.clock, ds)
    ensures var h := HandleAll(w.tables, claimed, ds, worker, maxAttempts);
            h.Ok? && Run(w, ReportSteps(claimed, ds, worker, maxAttempts)).tables == h.value.tables
    decreases claimed
  {
    if claimed == [] {
      assert ReportSteps(claimed, ds, worker, maxAttempts) == [];
    } else {
      HandleIsAStep(w, claimed, ds[0], worker, maxAttempts);
      InOrderRest(w.clock, ds);
      var first := ReportStep(claimed[0], ds[0], worker, maxAttempts);
      var rest := ReportSteps(claimed[1..], ds[1..], worker, maxAttempts);
      ReportsAreARun(Next(w, first), claimed[1..], ds[1..], worker, maxAttempts);
      ReportStepsFirst(claimed, ds, worker, maxAttempts);
      RunAfterFirst(w, first, rest);
      HandleAllFirst(w.tables, claimed, ds, worker, maxAttempts, Next(w, first).tables,
                     Run(Next(w, first), rest).tables);
    }
  }

  lemma InOrderRest(clock: int, ds: seq<Delivery>)
    requires InOrder(clock, ds) && ds != []
    ensures InOrder(ds[0].now, ds[1..])
  {
    assert forall i :: 0 <= i < |ds[1..]| ==> ds[1..][i] == ds[i + 1];
  }

  lemma HandleAllFirst(t: Tables, claimed: seq<Event>, ds: seq<Delivery>, worker: string, maxAttempts: nat,
                       t': Tables, later: Tables)
    requires |claimed| == |ds| && claimed != []
    requires var first := Handle(t, claimed[0], ds[0], worker, maxAttempts); first.Ok? && first.value.tables == t'
    requires HandleAll(t', claimed[1..], ds[1..], worker, maxAttempts).Ok?
    requires HandleAll(t', claimed[1..], ds[1..], worker, maxAttempts).value.tables == later
    ensures var all := HandleAll(t, claimed, ds, worker, maxAttempts); all.Ok? && all.value.tables == later
  {
  }

  lemma ReportStepsFirst(claimed: seq<Event>, ds: seq<Delivery>, worker: string, maxAttempts: nat)
    requires |claimed| == |ds| && claimed != []
    ensures ReportSteps(claimed, ds, worker, maxAttempts)
            == [ReportStep(claimed[0], ds[0], worker, maxAttempts)]
               + ReportSteps(claimed[1..], ds[1..], worker, maxAttempts)
  {
  }

  lemma RunAfterFirst(w: World, first: Step, rest: seq<Step>)
    ensures Run(w, [first] + rest) == Run(Next(w, first), rest)
  {
    RunAppend(w, [first], rest);
    RunOfOne(w, first);
  }

  lemma RunOfOne(w: World, step: Step)
    ensures Run(w, [step]) == Next(w, step)
  {
    assert [step][..0] == [];
  }

  lemma ClaimIsHeldBy(t: Tables, ids: seq<string>, worker: string, until: int)
    requires KeysUnique(t.rows) && Distinct(ids) && forall i :: 0 <= i < |ids| ==> ids[i] in t.rows
    ensures var rows := LeaseAll(t.rows, ids, worker, until);
            HeldBy(t.(rows := rows), Claimed(rows, ids), worker)
  {
    var rows := LeaseAll(t.rows, ids, worker, until);
    var claimed := Claimed(rows, ids);
    assert forall i :: 0 <= i < |ids| ==> claimed[i] == Lease(t.rows[ids[i]], worker, until) && claimed[i].id == ids[i];
  }

  /** The steps of one round whose claim starts its transaction at `now`. */
  function RoundSteps(rows: map<string, Event>, round: Round, now: int, worker: string, maxAttempts: nat,
                      leaseSeconds: int): seq<Step>
    requires |round.deliveries| == |round.ids|
    requires forall i :: 0 <= i < |round.ids| ==> round.ids[i] in rows
  {
    var leased := LeaseAll(rows, round.ids, worker, LeaseEnd(round.readAt, leaseSeconds));
    [Claim(worker, round.ids, round.readAt, now, round.limit, leaseSeconds, round.destination)]
    + ReportSteps(Claimed(leased, round.ids), round.deliveries, worker, maxAttempts)
  }

  lemma RoundRuns(w: World, round: Round, now: int, worker: string, maxAttempts: nat, leaseSeconds: int)
    requires KeysUnique(w.tables.rows) && IsRound(w.tables, round) && Strip(worker) != ""
    requires w.clock <= now && round.readAt <= now && InOrder(now, round.deliveries)
    ensures var h := RunOnce(w.tables, round, worker, maxAttempts, leaseSeconds);
            h.Ok?
            && Run(w, RoundSteps(w.tables.rows, round, now, worker, maxAttempts, leaseSeconds)).tables == h.value.tables
  {
    var until := LeaseEnd(round.readAt, leaseSeconds);
    var claim := Claim(worker, round.ids, round.readAt, now, round.limit, leaseSeconds, round.destination);
    var leased := LeaseAll(w.tables.rows, round.ids, worker, until);
    var claimed := Claimed(leased, round.ids);
    ClaimIsHeldBy(w.tables, round.ids, worker, until);
    ReportsAreARun(Next(w, claim), claimed, round.deliveries, worker, maxAttempts);
    RunAfterFirst(w, claim, ReportSteps(claimed, round.deliveries, worker, maxAttempts));
  }

  /**
   After any run of any workers, a round of `run_once` does what its claim and its reports do as steps
   of the store, and all of them succeed. What holds in every run thus holds of the worker's loop: attempts count
   grants, and the dead-letter table holds exactly the dead events.
   */
  lemma RunOnceIsARun(before: seq<Step>, round: Round, now: int, worker: string, maxAttempts: nat, leaseSeconds: int)
    requires var w := Run(EMPTY, before);
             && IsRound(w.tables, round) && Strip(worker) != ""
             && w.clock <= now && round.readAt <= now && InOrder(now, round.deliveries)
    ensures var w := Run(EMPTY, before);
            var h := RunOnce(w.tables, round, worker, maxAttempts, leaseSeconds);
            var w' := Run(EMPTY, before + RoundSteps(w.tables.rows, round, now, worker, maxAttempts, leaseSeconds));
            h.Ok? && w'.tables == h.value.tables && Invariant(w') && DeadMatchRows(h.value.tables)
  {
    var w := Run(EMPTY, before);
    var steps := RoundSteps(w.tables.rows, round, now, worker, maxAttempts, leaseSeconds);
    RunKeepsInvariant(before);
    RoundRuns(w, round, now, worker, maxAttempts, leaseSeconds);
    RunAppend(EMPTY, before, steps);
    RunKeepsInvariant(before + steps);
  }

  // ----- A lone worker, with events coming in -----

  datatype Turn = Work(round: Round) | Add(event: Event)

  lemma InsertAdds(t: Tables, e: Event, maxAttempts: nat)
    requires KeysUnique(t.rows) && Quiet(t, maxAttempts) && IsNew(e) && maxAttempts >= 1
    ensures KeysUnique(Insert(t, e).rows) && Quiet(Insert(t, e), maxAttempts)
    ensures Remaining(Insert(t, e).rows, maxAttempts)
         == Remaining(t.rows, maxAttempts) + if Accepts(t, e) then maxAttempts else 0
  {
    if Accepts(t, e) {
      var rows := Insert(t, e).rows;
      NewKeyIsUnique(t.rows, e);
      PotentialWithout(rows, rows.Keys, maxAttempts, e.id);
      assert rows.Keys - {e.id} == t.rows.Keys;
      PotentialElsewhere(t.rows, rows, t.rows.Keys, maxAttempts);
    }
  }

  /** A turn that can be taken from the given tables, and the tables after it. */
  ghost predicate IsTurn(t: Tables, turn: Turn) {
    match turn
    case Work(round) => IsRound(t, round)
    case Add(e) => IsNew(e)
  }

  ghost function AfterTurn(t: Tables, turn: Turn, worker: string, maxAttempts: nat, leaseSeconds: int): (t': Tables)
    requires KeysUnique(t.rows) && Quiet(t, maxAttempts) && IsTurn(t, turn) && maxAttempts >= 1
    ensures KeysUnique(t'.rows) && Quiet(t', maxAttempts)
    ensures Remaining(t'.rows, maxAttempts) + ClaimedBy(turn)
         <= Remaining(t.rows, maxAttempts) + if turn.Add? && Accepts(t, turn.event) then maxAttempts else 0
  {
    match turn
    case Work(round) =>
      RunOnceDrains(t, round, worker, maxAttempts, leaseSeconds);
      var t' := RunOnce(t, round, worker, maxAttempts, leaseSeconds).value.tables;
      SameEventsKeepKeys(t.rows, t'.rows);
      t'
    case Add(e) =>
      InsertAdds(t, e, maxAttempts);
      Insert(t, e)
  }

  function ClaimedBy(turn: Turn): nat { if turn.Work? then |turn.round.ids| else 0 }

  function TotalClaimed(turns: seq<Turn>): nat {
    if turns == [] then 0 else ClaimedBy(turns[0]) + TotalClaimed(turns[1..])
  }

  /** Turns that a lone worker and its clients can take one after another from the given tables. */
  ghost predicate AreTurns(t: Tables, turns: seq<Turn>, worker: string, maxAttempts: nat, leaseSeconds: int)
    requires KeysUnique(t.rows) && Quiet(t, maxAttempts) && maxAttempts >= 1
    decreases turns
  {
    turns == []
    || (&& IsTurn(t, turns[0])
        && AreTurns(AfterTurn(t, turns[0], worker, maxAttempts, leaseSeconds), turns[1..], worker, maxAttempts,
            leaseSeconds))
  }

  /** How many events were taken in; one whose key or id is known is not. */
  ghost function TotalAdded(t: Tables, turns: seq<Turn>, worker: string, maxAttempts: nat, leaseSeconds: int): nat
    requires KeysUnique(t.rows) && Quiet(t, maxAttempts) && maxAttempts >= 1
    requires AreTurns(t, turns, worker, maxAttempts, leaseSeconds)
    decreases turns
  {
    if turns == [] then 0
    else
      (if turns[0].Add? && Accepts(t, turns[0].event) then 1 else 0)
      + TotalAdded(AfterTurn(t, turns[0], worker, maxAttempts, leaseSeconds), turns[1..], worker, maxAttempts,
          leaseSeconds)
  }

  lemma BoundStep(m: nat, left: nat, left': nat, claimed: nat, later: nat, accepted: bool, added: nat)
    requires left' + claimed <= left + (if accepted then m else 0) && later <= left' + m * added
    ensures claimed + later <= left + m * ((if accepted then 1 else 0) + added)
  {
    assert m * (1 + added) == m + m * added;
  }

  /**
   However the deliveries go, all the rounds together claim no more events than there were attempts
   left, and `maxAttempts` more for each event that came in between them.
   */
  lemma {:induction false} DrainIsBounded(t: Tables, turns: seq<Turn>, worker: string, maxAttempts: nat,
        leaseSeconds: int)
    requires KeysUnique(t.rows) && Quiet(t, maxAttempts) && maxAttempts >= 1
    requires AreTurns(t, turns, worker, maxAttempts, leaseSeconds)
    ensures TotalClaimed(turns) <= Remaining(t.rows, maxAttempts)
                                   + maxAttempts * TotalAdded(t, turns, worker, maxAttempts, leaseSeconds)
    decreases turns
  {
    if turns != [] {
      var t' := AfterTurn(t, turns[0], worker, maxAttempts, leaseSeconds);
      DrainIsBounded(t', turns[1..], worker, maxAttempts, leaseSeconds);
      BoundStep(maxAttempts, Remaining(t.rows, maxAttempts), Remaining(t'.rows, maxAttempts), ClaimedBy(turns[0]),
                TotalClaimed(turns[1..]), turns[0].Add? && Accepts(t, turns[0].event),
                TotalAdded(t', turns[1..], worker, maxAttempts, leaseSeconds));
    }
  }

  // ----- What a claim does -----

  /** The claimed rows are the worker's for the seconds asked for, at least one, and nothing else has changed. */
  ghost predicate IsClaim(rows: map<string, Event>, rows': map<string, Event>, ids: seq<string>, worker: string,
                          now: int, leaseSeconds: int) {
    && rows'.Keys == rows.Keys
    && (forall id :: id in rows && id !in ids ==> rows'[id] == rows[id])
    && (forall id :: id in rows && id in ids ==>
          && rows'[id] == rows[id].(status := rows'[id].status, attempts := rows[id].attempts + 1)
          && rows'[id].status.Leased? && rows'[id].status.owner == worker
          && IsGreater(rows'[id].status.expiresAt, now + 1, now + leaseSeconds))
  }

  lemma ClaimLeases(rows: map<string, Event>, ids: seq<string>, worker: string, now: int, leaseSeconds: int)
    requires forall i :: 0 <= i < |ids| ==> ids[i] in rows
    ensures IsClaim(rows, LeaseAll(rows, ids, worker, LeaseEnd(now, leaseSeconds)), ids, worker, now, leaseSeconds)
  {
  }

  /** An event waits for delivery: put off until a time that has come, or leased to somebody whose time is over. */
  predicate Waits(e: Event, now: int, destination: string) {
    && e.availableAt <= now && (destination == "" || e.destination == destination)
    && (e.status == Pending || (e.status.Leased? && e.status.expiresAt < now))
  }

  /**
   What a claim selects are waiting events, no more than 100 and no more than asked for, but one at
   least if one waits; one that waits is left out only for as many older ones.
   */
  lemma SelectionServesWaiting(rows: map<string, Event>, ids: seq<string>, now: int, destination: string, limit: int)
    requires IsSelection(rows, ids, now, destination, limit)
    ensures forall i :: 0 <= i < |ids| ==> ids[i] in rows && Waits(rows[ids[i]], now, destination)
    ensures |ids| <= 100 && |ids| <= Max(1, limit)
    ensures forall id :: id in rows && Waits(rows[id], now, destination) && id !in ids ==>
              && (|ids| == 100 || |ids| == Max(1, limit))
              && forall i :: 0 <= i < |ids| ==> rows[ids[i]].createdAt <= rows[id].createdAt
  {
    assert forall id :: id in rows ==> (IsDue(rows[id], now, destination) <==> Waits(rows[id], now, destination));
  }

  // ----- What a report does -----

  predicate IsHeldBy(rows: map<string, Event>, id: string, worker: string) {
    id in rows && match rows[id].status
      case Leased(owner, _) => owner == worker
      case _ => false
  }

  /** The first 4000 characters of an error, or all of them. */
  predicate IsHead(t: string, error: string) { t <= error && IsLesser(|t|, |error|, 4000) }

  /** The event waits again, for the delay if it is positive; only its error has changed besides. */
  predicate IsPutOff(rows: map<string, Event>, rows': map<string, Event>, id: string, error: string, now: int,
                     delay: int)
    requires id in rows
  {
    && id in rows' && rows' == rows[id := rows'[id]]
    && rows'[id] == rows[id].(status := Pending, availableAt := rows'[id].availableAt, lastError := rows'[id].lastError)
    && IsGreater(rows'[id].availableAt, now, now + delay) && IsHead(rows'[id].lastError, error)
  }

  /** The event is dead, and its letter tells what it was, its attempts, the error and the time of its death. */
  predicate IsBuried(t: Tables, t': Tables, id: string, error: string, now: int)
    requires id in t.rows
  {
    && id in t'.rows && t'.rows == t.rows[id := t'.rows[id]]
    && t'.rows[id] == t.rows[id].(status := DeadLetter, lastError := t'.rows[id].lastError)
    && IsHead(t'.rows[id].lastError, error)
    && id in t'.dead && t'.dead == t.dead[id := t'.dead[id]] && SameLetter(t'.rows[id], t'.dead[id])
    && t'.dead[id].deadAt == now
  }

  // ----- The store and the worker -----

  class OutboxStore {
    var rows: map<string, Event>
    var dead: map<string, DeadRow>

    ghost function State(): Tables
      reads this
    {
      Tables(rows, dead)
    }

    constructor ()
      ensures State() == Tables(map[], map[])
    {
      rows, dead := map[], map[];
    }

    /** Inserts a new event; a known (destination, key) returns the stored one, and a clash of ids alone fails. */
    method EnqueueEvent(e: Event) returns (r: Result<Event, OutboxError>)
      requires KeysUnique(rows)
      modifies this`rows
      ensures KeysUnique(rows)
      ensures HasKey(old(rows), e.destination, e.key) ==>
                && rows == old(rows) && r.Ok? && r.value.id in rows && rows[r.value.id] == r.value
                && r.value.destination == e.destination && r.value.key == e.key
      ensures !HasKey(old(rows), e.destination, e.key) && e.id in old(rows) ==>
              rows == old(rows) && r == Err(DuplicateId)
      ensures !HasKey(old(rows), e.destination, e.key) && e.id !in old(rows) ==>
                rows == old(rows)[e.id := e] && r == Ok(e)
    {
      var same := set id | id in rows && rows[id].destination == e.destination && rows[id].key == e.key;
      if same != {} {
        var id :| id in same;
        assert HasKey(rows, e.destination, e.key);
        return Ok(rows[id]);
      }
      assert forall id :: id in rows && rows[id].destination == e.destination && rows[id].key == e.key ==> id in same;
      if e.id in rows {
        return Err(DuplicateId);
      }
      rows := rows[e.id := e];
      return Ok(e);
    }

    method Oldest(due: set<string>) returns (id: string)
      requires due != {} && due <= rows.Keys
      ensures id in due && forall other :: other in due ==> rows[id].createdAt <= rows[other].createdAt
    {
      id :| id in due;
      var left := due - {id};
      while left != {}
        invariant left <= due && id in due
        invariant forall other :: other in due && other !in left ==> rows[id].createdAt <= rows[other].createdAt
        decreases |left|
      {
        var other :| other in left;
        if rows[other].createdAt < rows[id].createdAt {
          id := other;
        }
        left := left - {other};
      }
    }

    /** The query: the oldest due events, up to the limit. */
    method SelectDue(now: int, limit: int, destination: string) returns (ids: seq<string>)
      ensures IsSelection(rows, ids, now, destination, limit)
    {
      ids := [];
      var due := set id | id in rows && IsDue(rows[id], now, destination);
      var left := due;
      while |ids| < Clamp(limit, 1, 100) && left != {}
        invariant left <= due && |ids| <= Clamp(limit, 1, 100)
        invariant forall id :: id in due <==> id in left || id in ids
        invariant forall id :: id in left ==> id !in ids
        invariant Distinct(ids)
        invariant forall i :: 0 <= i < |ids| ==> ids[i] in due
        invariant forall i, j :: 0 <= i < j < |ids| ==> rows[ids[i]].createdAt <= rows[ids[j]].createdAt
        invariant forall i, id :: 0 <= i < |ids| && id in left ==> rows[ids[i]].createdAt <= rows[id].createdAt
        decreases |left|
      {
        var id := Oldest(left);
        ids, left := ids + [id], left - {id};
      }
    }

    method ClaimDue(worker: string, now: int, limit: int, leaseSeconds: int, destination: string)
      returns (r: Result<seq<string>, OutboxError>)
      modifies this`rows
      ensures Strip(worker) == "" ==> r == Err(MissingWorker) && rows == old(rows)
      ensures Strip(worker) != "" ==>
                && r.Ok? && IsSelection(old(rows), r.value, now, destination, limit)
                && rows == LeaseAll(old(rows), r.value, worker, LeaseEnd(now, leaseSeconds))
      ensures r.Ok? ==> IsClaim(old(rows), rows, r.value, worker, now, leaseSeconds)
    {
      if Strip(worker) == "" {
        return Err(MissingWorker);
      }
      var until := LeaseEnd(now, leaseSeconds);
      var ids := SelectDue(now, limit, destination);
      for i := 0 to |ids|
        invariant rows == LeaseAll(old(rows), ids[..i], worker, until)
      {
        assert ids[..i + 1] == ids[..i] + [ids[i]];
        rows := rows[ids[i] := Lease(rows[ids[i]], worker, until)];
      }
      assert ids[..|ids|] == ids;
      ClaimLeases(old(rows), ids, worker, now, leaseSeconds);
      return Ok(ids);
    }

    /** The rows just claimed, read back in order. */
    method Rows(ids: seq<string>) returns (claimed: seq<Event>)
      requires forall i :: 0 <= i < |ids| ==> ids[i] in rows
      ensures claimed == Claimed(rows, ids)
    {
      claimed := [];
      for i := 0 to |ids|
        invariant |claimed| == i && forall k :: 0 <= k < i ==> claimed[k] == rows[ids[k]]
      {
        claimed := claimed + [rows[ids[i]]];
      }
    }

    method MarkEventDelivered(id: string, worker: string, now: int) returns (r: Result<(), OutboxError>)
      modifies this`rows
      ensures MarkDelivered(old(State()), id, worker, now) == if r.Ok? then Ok(State()) else Err(r.error)
      ensures r.Ok? <==> IsHeldBy(old(rows), id, worker)
      ensures r.Ok? ==> rows == old(rows)[id := old(rows)[id].(status := Delivered, deliveredAt := Some(now),
              lastError := "")]
      ensures r.Err? ==> State() == old(State())
    {
      if !(id in rows && rows[id].status.Leased? && rows[id].status.owner == worker) {
        return Err(NotHolder);
      }
      rows := rows[id := rows[id].(status := Delivered, deliveredAt := Some(now), lastError := "")];
      return Ok(());
    }

    method RescheduleEvent(id: string, worker: string, error: string, now: int, delay: int)
      returns (r: Result<(), OutboxError>)
      modifies this`rows
      ensures Reschedule(old(State()), id, worker, error, now, delay) == if r.Ok? then Ok(State()) else Err(r.error)
      ensures r.Ok? <==> IsHeldBy(old(rows), id, worker)
      ensures r.Ok? ==> IsPutOff(old(rows), rows, id, error, now, delay)
      ensures r.Err? ==> State() == old(State())
    {
      var available := now + if delay < 0 then 0 else delay;
      if !(id in rows && rows[id].status.Leased? && rows[id].status.owner == worker) {
        return Err(NotHolder);
      }
      rows := rows[id := rows[id].(status := Pending, availableAt := available, lastError := Truncated(error))];
      return Ok(());
    }

    method BuryEvent(id: string, worker: string, error: string, now: int) returns (r: Result<(), OutboxError>)
      modifies this
      ensures Bury(old(State()), id, worker, error, now) == if r.Ok? then Ok(State()) else Err(r.error)
      ensures r.Ok? <==> IsHeldBy(old(rows), id, worker)
      ensures r.Ok? ==> IsBuried(old(State()), State(), id, error, now)
      ensures r.Err? ==> State() == old(State())
    {
      if !(id in rows && rows[id].status.Leased? && rows[id].status.owner == worker) {
        return Err(NotHolder);
      }
      var row := rows[id];
      dead := dead[id := DeadRow(row.topic, row.destination, row.payload, row.key, row.attempts,
                                 Truncated(error), row.createdAt, now)];
      rows := rows[id := row.(status := DeadLetter, lastError := Truncated(error))];
      return Ok(());
    }
  }

  lemma HandleAllUnrolls(t: Tables, claimed: seq<Event>, ds: seq<Delivery>, i: nat, worker: string, maxAttempts: nat)
    requires |claimed| == |ds| && i < |claimed|
    ensures HandleAll(t, claimed[i..], ds[i..], worker, maxAttempts)
            == match Handle(t, claimed[i], ds[i], worker, maxAttempts)
               case Err(e) => Err(e)
               case Ok(first) =>
                 Plus(first.counts, HandleAll(first.tables, claimed[i + 1..], ds[i + 1..], worker, maxAttempts))
  {
    assert claimed[i..][1..] == claimed[i + 1..] && ds[i..][1..] == ds[i + 1..];
  }

  /** With the events from `i` on reported, the counts so far become the goal. */
  ghost predicate LeadsTo(goal: Result<Handled, OutboxError>, counts: Counts, t: Tables, claimed: seq<Event>,
                          ds: seq<Delivery>, i: nat, worker: string, maxAttempts: nat)
    requires i <= |claimed| == |ds|
  {
    goal == Plus(counts, HandleAll(t, claimed[i..], ds[i..], worker, maxAttempts))
  }

  lemma FromTheStart(t: Tables, claimed: seq<Event>, ds: seq<Delivery>, worker: string, maxAttempts: nat)
    requires |claimed| == |ds|
    ensures LeadsTo(HandleAll(t, claimed, ds, worker, maxAttempts), Counts(0, 0, 0), t, claimed, ds, 0, worker,
            maxAttempts)
  {
    assert claimed[0..] == claimed && ds[0..] == ds;
  }

  lemma ToTheEnd(goal: Result<Handled, OutboxError>, counts: Counts, t: Tables, claimed: seq<Event>,
                 ds: seq<Delivery>, worker: string, maxAttempts: nat)
    requires |claimed| == |ds| && LeadsTo(goal, counts, t, claimed, ds, |claimed|, worker, maxAttempts)
    ensures goal == Ok(Handled(t, counts))
  {
  }

  class Worker {
    const store: OutboxStore
    const id: string
    const maxAttempts: nat
    const leaseSeconds: int

    constructor (store: OutboxStore, id: string, maxAttempts: int, leaseSeconds: int)
      ensures this.store == store && this.id == id
      ensures this.maxAttempts == (if maxAttempts < 1 then 1 else maxAttempts)
      ensures this.leaseSeconds == (if leaseSeconds < 1 then 1 else leaseSeconds)
    {
      this.store, this.id := store, id;
      this.maxAttempts := if maxAttempts < 1 then 1 else maxAttempts;
      this.leaseSeconds := if leaseSeconds < 1 then 1 else leaseSeconds;
    }

    /** Claims, delivers and reports; `deliver(i)` is how the delivery of the `i`-th claimed event goes. */
    method RunWorker(now: int, limit: int, destination: string, deliver: nat -> Delivery)
      returns (round: Round, r: Result<Counts, OutboxError>)
      modifies store
      ensures Strip(id) == "" ==> r == Err(MissingWorker) && store.State() == old(store.State())
      ensures Strip(id) != "" ==>
                && IsRound(old(store.State()), round)
                && round == Round(round.ids, now, limit, destination, seq(|round.ids|, deliver))
                && match RunOnce(old(store.State()), round, id, maxAttempts, leaseSeconds)
                   case Err(e) => r == Err(e)
                   case Ok(h) => r == Ok(h.counts) && store.State() == h.tables
    {
      var claim := store.ClaimDue(id, now, limit, leaseSeconds, destination);
      if claim.Err? {
        return Round([], now, limit, destination, []), Err(claim.error);
      }
      round := Round(claim.value, now, limit, destination, seq(|claim.value|, deliver));
      var claimed := store.Rows(round.ids);
      r := ReportAll(claimed, round.deliveries);
    }

    method ReportOne(event: Event, d: Delivery) returns (r: Result<Counts, OutboxError>)
      modifies store
      ensures Handle(old(store.State()), event, d, id, maxAttempts)
              == if r.Ok? then Ok(Handled(store.State(), r.value)) else Err(r.error)
    {
      var reported: Result<(), OutboxError>;
      var counts := Counts(0, 0, 0);
      if !d.succeeded {
        if event.attempts >= maxAttempts {
          reported := store.BuryEvent(event.id, id, d.error, d.now);
          counts := counts.(deadLettered := 1);
        } else {
          reported := store.RescheduleEvent(event.id, id, d.error, d.now, d.delay);
          counts := counts.(retried := 1);
        }
      } else {
        reported := store.MarkEventDelivered(event.id, id, d.now);
        counts := counts.(delivered := 1);
      }
      r := if reported.Err? then Err(reported.error) else Ok(counts);
    }

    method ReportAll(claimed: seq<Event>, ds: seq<Delivery>) returns (r: Result<Counts, OutboxError>)
      requires |claimed| == |ds|
      modifies store
      ensures match HandleAll(old(store.State()), claimed, ds, id, maxAttempts)
              case Err(e) => r == Err(e)
              case Ok(h) => r == Ok(h.counts) && store.State() == h.tables
    {
      var counts := Counts(0, 0, 0);
      ghost var goal := HandleAll(store.State(), claimed, ds, id, maxAttempts);
      FromTheStart(store.State(), claimed, ds, id, maxAttempts);
      for i := 0 to |claimed|
        invariant LeadsTo(goal, counts, store.State(), claimed, ds, i, id, maxAttempts)
      {
        r := ReportNext(claimed, ds, i, counts, goal);
        if r.Err? {
          return r;
        }
        counts := r.value;
      }
      ToTheEnd(goal, counts, store.State(), claimed, ds, id, maxAttempts);
      r := Ok(counts);
    }

    /** One turn of the loop: event `i` is reported and counted. */
    method ReportNext(claimed: seq<Event>, ds: seq<Delivery>, i: nat, counts: Counts,
                      ghost goal: Result<Handled, OutboxError>) returns (r: Result<Counts, OutboxError>)
      requires |claimed| == |ds| && i < |claimed|
      requires LeadsTo(goal, counts, store.State(), claimed, ds, i, id, maxAttempts)
      modifies store
      ensures r.Err? ==> goal == Err(r.error)
      ensures r.Ok? ==> LeadsTo(goal, r.value, store.State(), claimed, ds, i + 1, id, maxAttempts)
    {
      HandleAllUnrolls(store.State(), claimed, ds, i, id, maxAttempts);
      r := ReportOne(claimed[i], ds[i]);
      if r.Ok? {
        PlusPlus(counts, r.value, HandleAll(store.State(), claimed[i + 1..], ds[i + 1..], id, maxAttempts));
        r := Ok(AddCounts(counts, r.value));
      }
    }
  }
}
