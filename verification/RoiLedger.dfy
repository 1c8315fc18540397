/**
 The realized-value ledger. A status change and a value entry each read the opportunity first and
 write under a condition later, so calls of many users interleave between the two halves.
 Amounts are whole cents.
 */
module RoiLedger {
  import opened Outcomes
  import opened Text

  datatype Status = Proposed | Approved | InProgress | Realizing | Validated | Rejected | Closed

  datatype Stage = PotentialValue | ForecastValue | RealizedValue | ValidatedValue

  /** The allowed transitions. */
  predicate Allowed(before: Status, after: Status) {
    match before
    case Proposed => after == Approved || after == Rejected
    case Approved => after == InProgress || after == Rejected
    case InProgress => after == Realizing || after == Closed
    case Realizing => after == Validated || after == Closed
    case Validated => after == Closed
    case Rejected => after == Closed
    case Closed => false
  }

  predicate Earning(s: Status) { s == InProgress || s == Realizing || s == Validated }

  predicate NeedsProgress(stage: Stage) { stage == RealizedValue || stage == ValidatedValue }

  datatype Opportunity = Opportunity(org: string, sourceKey: string, currency: string, status: Status, revision: int)

  datatype Change = Change(id: string, before: Status, after: Status)

  datatype Value = Value(org: string, id: string, stage: Stage, cents: int, currency: string, evidence: string)

  datatype Ledger = Ledger(opps: map<string, Opportunity>, history: seq<Change>, values: seq<Value>)

  // ----- The two halves of each call -----

  predicate CanCreate(l: Ledger, id: string, org: string, sourceKey: string) {
    && id !in l.opps
    && (forall other :: other in l.opps ==> !(l.opps[other].org == org && l.opps[other].sourceKey == sourceKey))
  }

  function Create(l: Ledger, id: string, org: string, sourceKey: string, currency: string): Ledger {
    if CanCreate(l, id, org, sourceKey)
        then l.(opps := l.opps[id := Opportunity(org, sourceKey, currency, Proposed, 1)]) else l
  }

  predicate MayMove(l: Ledger, id: string, next: Status) {
    id in l.opps && Allowed(l.opps[id].status, next)
  }

  /** The conditional update: the status has to be the one that was read, and the revision the expected one. */
  predicate MoveMatches(l: Ledger, id: string, seen: Status, expected: Option<int>) {
    id in l.opps && l.opps[id].status == seen && (expected.Some? ==> l.opps[id].revision == expected.value)
  }

  function Move(l: Ledger, id: string, seen: Status, next: Status, expected: Option<int>): Ledger {
    if MoveMatches(l, id, seen, expected) then
      var o := l.opps[id];
      l.(opps := l.opps[id := o.(status := next, revision := o.revision + 1)],
         history := l.history + [Change(id, seen, next)])
    else l
  }

  predicate MayValue(l: Ledger, id: string, stage: Stage, evidence: string, recordedBy: string) {
    && id in l.opps && (NeedsProgress(stage) ==> Earning(l.opps[id].status))
    && Strip(evidence) != "" && Strip(recordedBy) != ""
  }

  predicate EvidenceIsNew(l: Ledger, v: Value) {
    forall j :: 0 <= j < |l.values| ==> !(l.values[j].org == v.org && l.values[j].evidence == v.evidence)
  }

  function Enter(l: Ledger, v: Value): Ledger {
    if EvidenceIsNew(l, v) then l.(values := l.values + [v]) else l
  }

  // ----- Any number of calls at once -----

  /** What a call remembers between its halves. */
  datatype Pending =
    | Moving(id: string, seen: Status, revision: int, next: Status, expected: Option<int>)
    | Valuing(value: Value)

  datatype World = World(ledger: Ledger, pending: map<nat, Pending>)

  datatype Step =
    | Add(id: string, org: string, sourceKey: string, currency: string)
    | ReadToMove(call: nat, id: string, next: Status, expected: Option<int>)
    | ReadToValue(call: nat, id: string, stage: Stage, cents: int, evidence: string, recordedBy: string)
    | Write(call: nat)

  function Next(w: World, step: Step): World {
    var l := w.ledger;
    match step
    case Add(id, org, sourceKey, currency) => w.(ledger := Create(l, id, org, sourceKey, currency))
    case ReadToMove(call, id, next, expected) =>
      if call in w.pending || !MayMove(l, id, next) then w
      else w.(pending := w.pending[call := Moving(id, l.opps[id].status, l.opps[id].revision, next, expected)])
    case ReadToValue(call, id, stage, cents, evidence, user) =>
      if call in w.pending || !MayValue(l, id, stage, evidence, user) then w
      else w.(pending := w.pending[call := Valuing(Value(l.opps[id].org, id, stage, cents, l.opps[id].currency,
          Strip(evidence)))])
    case Write(call) =>
      if call !in w.pending then w
      else match w.pending[call]
        case Moving(id, seen, _, next, expected) => World(Move(l, id, seen, next, expected), w.pending - {call})
        case Valuing(v) => World(Enter(l, v), w.pending - {call})
  }

  function Run(steps: seq<Step>): World {
    if steps == [] then World(Ledger(map[], [], []), map[]) else Next(Run(steps[..|steps| - 1]), steps[|steps| - 1])
  }

  // ----- Histories -----

  function HistoryOf(history: seq<Change>, id: string): (r: seq<Change>)
    ensures forall j :: 0 <= j < |r| ==> r[j].id == id
  {
    if history == [] then []
    else
      var last := history[|history| - 1];
      HistoryOf(history[..|history| - 1], id) + if last.id == id then [last] else []
  }

  function StatusAfter(path: seq<Change>): Status {
    if path == [] then Proposed else path[|path| - 1].after
  }

  /** A walk through the allowed transitions that starts at proposed. */
  ghost predicate IsPath(path: seq<Change>) {
    && (forall j :: 0 <= j < |path| ==> Allowed(path[j].before, path[j].after))
    && (forall j :: 0 <= j < |path| ==> path[j].before == StatusAfter(path[..j]))
  }

  ghost predicate Reached(path: seq<Change>, s: Status) {
    exists j :: 0 <= j < |path| && path[j].after == s
  }

  lemma HistorySnoc(history: seq<Change>, e: Change, id: string)
    ensures HistoryOf(history + [e], id) == HistoryOf(history, id) + if e.id == id then [e] else []
  {
    assert (history + [e])[..|history|] == history;
  }

  lemma PathSnoc(path: seq<Change>, e: Change)
    requires IsPath(path) && e.before == StatusAfter(path) && Allowed(e.before, e.after)
    ensures IsPath(path + [e]) && StatusAfter(path + [e]) == e.after
  {
    var longer := path + [e];
    assert forall j :: 0 <= j < |path| ==> longer[j] == path[j] && longer[..j] == path[..j];
    assert longer[..|path|] == path;
  }

  /** How far along a status is: every allowed transition goes up. */
  function Depth(s: Status): nat {
    match s
    case Proposed => 0
    case Approved => 1
    case InProgress => 2
    case Realizing => 3
    case Validated => 4
    case Rejected => 2
    case Closed => 5
  }

  /** A path without its last change. */
  lemma PathInit(path: seq<Change>)
    requires IsPath(path) && path != []
    ensures IsPath(path[..|path| - 1])
    ensures Allowed(StatusAfter(path[..|path| - 1]), StatusAfter(path))
  {
    var init := path[..|path| - 1];
    forall j | 0 <= j < |init|
      ensures Allowed(init[j].before, init[j].after) && init[j].before == StatusAfter(init[..j])
    {
      assert init[..j] == path[..j] && init[j] == path[j];
    }
  }

  lemma ReachedInit(path: seq<Change>, s: Status)
    requires path != []
    ensures Reached(path, s) <==> Reached(path[..|path| - 1], s) || StatusAfter(path) == s
  {
    var init := path[..|path| - 1];
    if Reached(init, s) {
      var j :| 0 <= j < |init| && init[j].after == s;
      assert path[j].after == s;
    }
    if Reached(path, s) && StatusAfter(path) != s {
      var j :| 0 <= j < |path| && path[j].after == s;
      assert init[j].after == s;
    }
  }

  lemma {:induction false} PathIsShort(path: seq<Change>)
    requires IsPath(path)
    ensures |path| <= Depth(StatusAfter(path))
  {
    if path != [] {
      PathInit(path);
      PathIsShort(path[..|path| - 1]);
    }
  }

  /** A path has passed in_progress exactly when it is earning, or closed without a rejection behind it. */
  lemma {:induction false} PathKinds(path: seq<Change>)
    requires IsPath(path)
    ensures Earning(StatusAfter(path)) ==> Reached(path, InProgress)
    ensures Reached(path, InProgress) ==> Earning(StatusAfter(path)) || StatusAfter(path) == Closed
    ensures Reached(path, Rejected) ==> StatusAfter(path) == Rejected || StatusAfter(path) == Closed
    ensures !(Reached(path, InProgress) && Reached(path, Rejected))
  {
    if path != [] {
      PathInit(path);
      ReachedInit(path, InProgress);
      ReachedInit(path, Rejected);
      PathKinds(path[..|path| - 1]);
    }
  }

  // ----- What every interleaving keeps -----

  ghost predicate RowOk(l: Ledger, id: string)
    requires id in l.opps
  {
    var path := HistoryOf(l.history, id);
    IsPath(path) && l.opps[id].status == StatusAfter(path) && l.opps[id].revision == 1 + |path|
  }

  ghost predicate RowsOk(l: Ledger) {
    && (forall id :: id in l.opps ==> RowOk(l, id))
    && (forall id :: id !in l.opps ==> HistoryOf(l.history, id) == [])
  }

  /** What was read may be old, but it is a status that the opportunity had at that revision. */
  ghost predicate PendingOk(l: Ledger, p: Pending) {
    match p
    case Moving(id, seen, revision, next, _) =>
      && id in l.opps && Allowed(seen, next) && revision <= l.opps[id].revision
      && (revision == l.opps[id].revision ==> seen == l.opps[id].status)
      && (revision < l.opps[id].revision ==> Depth(seen) < Depth(l.opps[id].status))
    case Valuing(v) => ValueOk(l, v)
  }

  ghost predicate ValueOk(l: Ledger, v: Value) {
    && v.id in l.opps && v.org == l.opps[v.id].org && v.currency == l.opps[v.id].currency
    && (NeedsProgress(v.stage) ==> Reached(HistoryOf(l.history, v.id), InProgress))
  }

  ghost predicate ValuesOk(l: Ledger) {
    && (forall j :: 0 <= j < |l.values| ==> ValueOk(l, l.values[j]))
    && (forall i, j :: 0 <= i < j < |l.values| ==>
        !(l.values[i].org == l.values[j].org && l.values[i].evidence == l.values[j].evidence))
  }

  ghost predicate Invariant(w: World) {
    RowsOk(w.ledger) && ValuesOk(w.ledger) && forall call :: call in w.pending ==> PendingOk(w.ledger, w.pending[call])
  }

  lemma ReachedLonger(path: seq<Change>, more: seq<Change>, s: Status)
    requires Reached(path, s)
    ensures Reached(path + more, s)
  {
    var j :| 0 <= j < |path| && path[j].after == s;
    assert (path + more)[j] == path[j];
  }

  lemma MoveKeepsRow(l: Ledger, id: string, seen: Status, next: Status, expected: Option<int>, other: string)
    requires Allowed(seen, next) && other in l.opps && RowOk(l, other) && MoveMatches(l, id, seen, expected)
    ensures RowOk(Move(l, id, seen, next, expected), other)
  {
    var e, path := Change(id, seen, next), HistoryOf(l.history, other);
    HistorySnoc(l.history, e, other);
    if other == id {
      PathSnoc(path, e);
    } else {
      assert path + [] == path;
    }
  }

  lemma MoveKeepsRows(l: Ledger, id: string, seen: Status, next: Status, expected: Option<int>)
    requires RowsOk(l) && Allowed(seen, next)
    ensures RowsOk(Move(l, id, seen, next, expected))
  {
    var l' := Move(l, id, seen, next, expected);
    if MoveMatches(l, id, seen, expected) {
      forall other | other in l'.opps
        ensures RowOk(l', other)
      {
        MoveKeepsRow(l, id, seen, next, expected, other);
      }
      forall other | other !in l'.opps
        ensures HistoryOf(l'.history, other) == []
      {
        HistorySnoc(l.history, Change(id, seen, next), other);
      }
    }
  }

  lemma MoveKeepsValue(l: Ledger, id: string, seen: Status, next: Status, expected: Option<int>, v: Value)
    requires ValueOk(l, v)
    ensures ValueOk(Move(l, id, seen, next, expected), v)
  {
    if MoveMatches(l, id, seen, expected) && NeedsProgress(v.stage) {
      HistorySnoc(l.history, Change(id, seen, next), v.id);
      ReachedLonger(HistoryOf(l.history, v.id), if v.id == id then [Change(id, seen, next)] else [], InProgress);
    }
  }

  lemma MoveKeepsPending(l: Ledger, id: string, seen: Status, next: Status, expected: Option<int>, p: Pending)
    requires PendingOk(l, p) && Allowed(seen, next)
    ensures PendingOk(Move(l, id, seen, next, expected), p)
  {
    if p.Valuing? {
      MoveKeepsValue(l, id, seen, next, expected, p.value);
    }
  }

  lemma MoveKeepsValues(l: Ledger, id: string, seen: Status, next: Status, expected: Option<int>)
    requires ValuesOk(l)
    ensures ValuesOk(Move(l, id, seen, next, expected))
  {
    var l' := Move(l, id, seen, next, expected);
    forall j | 0 <= j < |l'.values|
      ensures ValueOk(l', l'.values[j])
    {
      MoveKeepsValue(l, id, seen, next, expected, l.values[j]);
    }
  }

  lemma MoveKeepsInvariant(w: World, call: nat)
    requires Invariant(w) && call in w.pending && w.pending[call].Moving?
    ensures Invariant(Next(w, Write(call)))
  {
    var Moving(id, seen, _, next, expected) := w.pending[call];
    assert PendingOk(w.ledger, w.pending[call]);
    var w' := Next(w, Write(call));
    MoveKeepsRows(w.ledger, id, seen, next, expected);
    MoveKeepsValues(w.ledger, id, seen, next, expected);
    forall other | other in w'.pending
      ensures PendingOk(w'.ledger, w'.pending[other])
    {
      MoveKeepsPending(w.ledger, id, seen, next, expected, w.pending[other]);
    }
  }

  /** Rows, values and reads look only at the opportunities and the history, and more opportunities do no harm. */
  lemma LargerLedger(l: Ledger, l': Ledger, p: Pending)
    requires PendingOk(l, p) && l'.history == l.history
    requires forall id :: id in l.opps ==> id in l'.opps && l'.opps[id] == l.opps[id]
    ensures PendingOk(l', p)
  {
  }

  lemma LargerLedgerKeeps(w: World, l': Ledger)
    requires Invariant(w) && l'.history == w.ledger.history
    requires forall id :: id in w.ledger.opps ==> id in l'.opps && l'.opps[id] == w.ledger.opps[id]
    ensures forall call :: call in w.pending ==> PendingOk(l', w.pending[call])
    ensures forall j :: 0 <= j < |w.ledger.values| ==> ValueOk(l', w.ledger.values[j])
  {
    forall call | call in w.pending
      ensures PendingOk(l', w.pending[call])
    {
      LargerLedger(w.ledger, l', w.pending[call]);
    }
    forall j | 0 <= j < |w.ledger.values|
      ensures ValueOk(l', w.ledger.values[j])
    {
      LargerLedger(w.ledger, l', Valuing(w.ledger.values[j]));
    }
  }

  predicate KeptOrNew(l: Ledger, l': Ledger, id: string)
    requires id in l'.opps
  {
    if id in l.opps then l'.opps[id] == l.opps[id] else l'.opps[id].status == Proposed && l'.opps[id].revision == 1
  }

  lemma SameRow(l: Ledger, l': Ledger, id: string)
    requires RowsOk(l) && l'.history == l.history && id in l'.opps
    requires KeptOrNew(l, l', id)
    ensures RowOk(l', id)
  {
    if id in l.opps {
      assert RowOk(l, id);
    } else {
      assert HistoryOf(l.history, id) == [];
    }
  }

  lemma SameRows(l: Ledger, l': Ledger)
    requires RowsOk(l) && l'.history == l.history && l.opps.Keys <= l'.opps.Keys
    requires forall id :: id in l'.opps ==>
               KeptOrNew(l, l', id)
    ensures RowsOk(l')
  {
    forall id | id in l'.opps
      ensures RowOk(l', id)
    {
      SameRow(l, l', id);
    }
  }

  lemma CreateKeepsInvariant(w: World, step: Step)
    requires Invariant(w) && step.Add?
    ensures Invariant(Next(w, step))
  {
    SameRows(w.ledger, Next(w, step).ledger);
    LargerLedgerKeeps(w, Next(w, step).ledger);
  }

  lemma NewPending(w: World, call: nat, p: Pending)
    requires Invariant(w) && PendingOk(w.ledger, p)
    ensures Invariant(w.(pending := w.pending[call := p]))
  {
  }

  lemma ReadToMoveKeepsInvariant(w: World, step: Step)
    requires Invariant(w) && step.ReadToMove?
    ensures Invariant(Next(w, step))
  {
    var ReadToMove(call, id, next, expected) := step;
    if call !in w.pending && MayMove(w.ledger, id, next) {
      var o := w.ledger.opps[id];
      NewPending(w, call, Moving(id, o.status, o.revision, next, expected));
    }
  }

  lemma MayValueIsOk(l: Ledger, v: Value)
    requires RowsOk(l) && v.id in l.opps && (NeedsProgress(v.stage) ==> Earning(l.opps[v.id].status))
    requires v.org == l.opps[v.id].org && v.currency == l.opps[v.id].currency
    ensures ValueOk(l, v)
  {
    assert RowOk(l, v.id);
    PathKinds(HistoryOf(l.history, v.id));
  }

  lemma ReadToValueKeepsInvariant(w: World, step: Step)
    requires Invariant(w) && step.ReadToValue?
    ensures Invariant(Next(w, step))
  {
    var ReadToValue(call, id, stage, cents, evidence, user) := step;
    if call !in w.pending && MayValue(w.ledger, id, stage, evidence, user) {
      var o := w.ledger.opps[id];
      var v := Value(o.org, id, stage, cents, o.currency, Strip(evidence));
      MayValueIsOk(w.ledger, v);
      NewPending(w, call, Valuing(v));
    }
  }

  lemma EnterKeepsValues(l: Ledger, v: Value)
    requires ValuesOk(l) && ValueOk(l, v)
    ensures ValuesOk(Enter(l, v))
  {
    var l' := Enter(l, v);
    forall j | 0 <= j < |l'.values|
      ensures ValueOk(l', l'.values[j])
    {
      var known := if j < |l.values| then l.values[j] else v;
      LargerLedger(l, l', Valuing(known));
    }
  }

  lemma EnterKeepsInvariant(w: World, call: nat)
    requires Invariant(w) && call in w.pending && w.pending[call].Valuing?
    ensures Invariant(Next(w, Write(call)))
  {
    assert PendingOk(w.ledger, w.pending[call]);
    EnterKeepsValues(w.ledger, w.pending[call].value);
    SameRows(w.ledger, Next(w, Write(call)).ledger);
    LargerLedgerKeeps(w, Next(w, Write(call)).ledger);
  }

  lemma NextKeepsInvariant(w: World, step: Step)
    requires Invariant(w)
    ensures Invariant(Next(w, step))
  {
    match step
    case Add(_, _, _, _) => CreateKeepsInvariant(w, step);
    case ReadToMove(_, _, _, _) => ReadToMoveKeepsInvariant(w, step);
    case ReadToValue(_, _, _, _, _, _) => ReadToValueKeepsInvariant(w, step);
    case Write(call) =>
      if call in w.pending {
        if w.pending[call].Moving? {
          MoveKeepsInvariant(w, call);
        } else {
          EnterKeepsInvariant(w, call);
        }
      }
  }

  lemma {:induction false} RunKeepsInvariant(steps: seq<Step>)
    ensures Invariant(Run(steps))
  {
    if steps != [] {
      RunKeepsInvariant(steps[..|steps| - 1]);
      NextKeepsInvariant(Run(steps[..|steps| - 1]), steps[|steps| - 1]);
    }
  }

  ghost predicate LifecycleOk(o: Opportunity, path: seq<Change>) {
    IsPath(path) && o.status == StatusAfter(path) && o.revision == 1 + |path| && |path| <= 5
  }

  /**
   In every interleaving an opportunity's history is a path from proposed to its status, the revision
   counts it, and there are at most five changes.
   */
  lemma LifecycleSafety(steps: seq<Step>, id: string)
    requires id in Run(steps).ledger.opps
    ensures LifecycleOk(Run(steps).ledger.opps[id], HistoryOf(Run(steps).ledger.history, id))
  {
    RunKeepsInvariant(steps);
    RowIsShort(Run(steps).ledger, id);
  }

  lemma RowIsShort(l: Ledger, id: string)
    requires id in l.opps && RowsOk(l)
    ensures LifecycleOk(l.opps[id], HistoryOf(l.history, id))
  {
    assert RowOk(l, id);
    PathIsShort(HistoryOf(l.history, id));
  }

  /** What may follow what. */
  const TRANSITIONS: set<(Status, Status)> :=
    {(Proposed, Approved), (Proposed, Rejected), (Approved, InProgress), (Approved, Rejected), (InProgress, Realizing),
     (InProgress, Closed), (Realizing, Validated), (Realizing, Closed), (Validated, Closed), (Rejected, Closed)}

  lemma AllowedIff(before: Status, after: Status)
    ensures Allowed(before, after) <==> (before, after) in TRANSITIONS
  {
  }

  /** Each status was earned: what a path has reached tells what it had reached before. */
  lemma {:induction false} PathIsEarned(path: seq<Change>)
    requires IsPath(path)
    ensures Reached(path, InProgress) || Reached(path, Realizing) || Reached(path, Validated) ==>
            Reached(path, Approved)
    ensures Reached(path, Realizing) || Reached(path, Validated) ==> Reached(path, InProgress)
    ensures Reached(path, Validated) ==> Reached(path, Realizing)
    ensures Reached(path, Closed) ==> Reached(path, InProgress) || Reached(path, Rejected)
    ensures StatusAfter(path) != Proposed ==> Reached(path, StatusAfter(path))
  {
    if path != [] {
      PathInit(path);
      PathIsEarned(path[..|path| - 1]);
      ReachedInit(path, Approved);
      ReachedInit(path, InProgress);
      ReachedInit(path, Realizing);
      ReachedInit(path, Validated);
      ReachedInit(path, Rejected);
      ReachedInit(path, Closed);
    }
  }

  /** In every interleaving every status of an opportunity was earned, and every change is one of the ten. */
  lemma StatusIsEarned(steps: seq<Step>, id: string)
    requires id in Run(steps).ledger.opps
    ensures var l := Run(steps).ledger;
            var path := HistoryOf(l.history, id);
            && (forall j :: 0 <= j < |path| ==> (path[j].before, path[j].after) in TRANSITIONS)
            && (Reached(path, Validated) ==> Reached(path, Realizing))
            && (Reached(path, Realizing) ==> Reached(path, InProgress))
            && (Reached(path, InProgress) ==> Reached(path, Approved) && !Reached(path, Rejected))
            && (Reached(path, Closed) ==> Reached(path, InProgress) || Reached(path, Rejected))
  {
    var l := Run(steps).ledger;
    RunKeepsInvariant(steps);
    assert RowOk(l, id);
    PathIsEarned(HistoryOf(l.history, id));
    PathKinds(HistoryOf(l.history, id));
    var path := HistoryOf(l.history, id);
    forall j | 0 <= j < |path|
      ensures (path[j].before, path[j].after) in TRANSITIONS
    {
      AllowedIff(path[j].before, path[j].after);
    }
  }

  /** An organization's source keys are taken once. */
  ghost predicate KeysUnique(l: Ledger) {
    forall a, b :: a in l.opps && b in l.opps && SameSource(l.opps[a], l.opps[b]) ==> a == b
  }

  predicate SameSource(a: Opportunity, b: Opportunity) { a.org == b.org && a.sourceKey == b.sourceKey }

  lemma NextKeepsKeys(w: World, step: Step)
    requires KeysUnique(w.ledger)
    ensures KeysUnique(Next(w, step).ledger)
  {
  }

  /** However calls interleave, no two opportunities of an organization share a source key. */
  lemma {:induction false} SourceKeysAreUnique(steps: seq<Step>)
    ensures KeysUnique(Run(steps).ledger)
  {
    if steps != [] {
      SourceKeysAreUnique(steps[..|steps| - 1]);
      NextKeepsKeys(Run(steps[..|steps| - 1]), steps[|steps| - 1]);
    }
  }

  ghost predicate SourceTaken(opps: map<string, Opportunity>, org: string, sourceKey: string) {
    exists other :: other in opps && opps[other].org == org && opps[other].sourceKey == sourceKey
  }

  /** A new opportunity is proposed at revision 1, unless its id or its source key is taken. */
  lemma CreationIff(w: World, id: string, org: string, sourceKey: string, currency: string)
    ensures var opps, opps' := w.ledger.opps, Next(w, Add(id, org, sourceKey, currency)).ledger.opps;
            var taken := id in opps || SourceTaken(opps, org, sourceKey);
            opps' == if taken then opps else opps[id := Opportunity(org, sourceKey, currency, Proposed, 1)]
  {
  }

  /** Realized and validated value belongs to opportunities that reached in_progress and were never rejected. */
  lemma ValueNeedsProgress(steps: seq<Step>, j: nat)
    requires j < |Run(steps).ledger.values|
    requires Run(steps).ledger.values[j].stage in {RealizedValue, ValidatedValue}
    ensures var l := Run(steps).ledger;
            var path := HistoryOf(l.history, l.values[j].id);
            Reached(path, InProgress) && !Reached(path, Rejected)
  {
    RunKeepsInvariant(steps);
    var l := Run(steps).ledger;
    var v := l.values[j];
    assert ValueOk(l, v) && RowOk(l, v.id);
    PathKinds(HistoryOf(l.history, v.id));
  }

  /** No evidence key of an organization is counted twice, whatever the interleaving. */
  lemma EvidenceCountsOnce(steps: seq<Step>, i: nat, j: nat)
    requires var vs := Run(steps).ledger.values;
             i < |vs| && j < |vs| && vs[i].org == vs[j].org && vs[i].evidence == vs[j].evidence
    ensures i == j
  {
    RunKeepsInvariant(steps);
  }

  /**
   The update compares statuses, not revisions, and that is enough: a write that goes through found
   the opportunity at the very revision that the call had read, so of several calls that read the
   same revision at most one goes through.
   */
  lemma WriteMeetsWhatWasRead(steps: seq<Step>, call: nat)
    requires var w := Run(steps);
             && call in w.pending && w.pending[call].Moving?
             && MoveMatches(w.ledger, w.pending[call].id, w.pending[call].seen, w.pending[call].expected)
    ensures var w := Run(steps);
            var p := w.pending[call];
            && w.ledger.opps[p.id].revision == p.revision
            && Next(w, Write(call)).ledger.opps[p.id].revision == p.revision + 1
  {
    RunKeepsInvariant(steps);
    assert PendingOk(Run(steps).ledger, Run(steps).pending[call]);
  }

  lemma SameReadOneWrite(steps: seq<Step>, first: nat, second: nat)
    requires var w := Run(steps);
             && first != second && first in w.pending && second in w.pending
             && w.pending[first].Moving? && w.pending[second].Moving?
             && w.pending[first].id == w.pending[second].id && w.pending[first].revision == w.pending[second].revision
             && MoveMatches(w.ledger, w.pending[first].id, w.pending[first].seen, w.pending[first].expected)
    ensures var w := Run(steps);
            var p, w' := w.pending[second], Next(w, Write(first));
            !MoveMatches(w'.ledger, p.id, p.seen, p.expected) && Next(w', Write(second)).ledger == w'.ledger
  {
    RunKeepsInvariant(steps);
    assert PendingOk(Run(steps).ledger, Run(steps).pending[first]);
    assert PendingOk(Run(steps).ledger, Run(steps).pending[second]);
  }

  /**
   The status check of a value is not repeated when it is written. A realized value lands on an
   opportunity that is still earning exactly when it has not been closed since.
   */
  lemma LateValueIff(steps: seq<Step>, call: nat)
    requires var w := Run(steps);
             call in w.pending && w.pending[call].Valuing? && NeedsProgress(w.pending[call].value.stage)
    ensures var w := Run(steps);
            var id := w.pending[call].value.id;
            id in w.ledger.opps && (Earning(w.ledger.opps[id].status) <==> w.ledger.opps[id].status != Closed)
  {
    RunKeepsInvariant(steps);
    var l := Run(steps).ledger;
    var v := Run(steps).pending[call].value;
    assert PendingOk(l, Run(steps).pending[call]);
    assert RowOk(l, v.id);
    PathKinds(HistoryOf(l.history, v.id));
  }

  lemma RunNext(steps: seq<Step>, step: Step)
    ensures Run(steps + [step]) == Next(Run(steps), step)
  {
    assert (steps + [step])[..|steps|] == steps;
  }

  /** A status change that nothing interrupts. */
  lemma MoveAtOnce(steps: seq<Step>, call: nat, id: string, next: Status) returns (more: seq<Step>)
    requires call !in Run(steps).pending && MayMove(Run(steps).ledger, id, next)
    ensures var w, w' := Run(steps), Run(more);
            && w'.pending == w.pending && w'.ledger.values == w.ledger.values
            && id in w'.ledger.opps && w'.ledger.opps[id]
                == w.ledger.opps[id].(status := next, revision := w.ledger.opps[id].revision + 1)
  {
    var read := steps + [ReadToMove(call, id, next, None)];
    more := read + [Write(call)];
    RunNext(steps, ReadToMove(call, id, next, None));
    RunNext(read, Write(call));
  }

  lemma FreshProgress(id: string) returns (steps: seq<Step>)
    ensures var w := Run(steps);
            w.pending == map[] && w.ledger.values == [] && id in w.ledger.opps && w.ledger.opps[id].status == InProgress
  {
    var add := Add(id, "o", "s", "USD");
    RunNext([], add);
    var added := [] + [add];
    var approved := MoveAtOnce(added, 0, id, Approved);
    steps := MoveAtOnce(approved, 0, id, InProgress);
  }

  lemma PlainText()
    ensures Strip("e") != ""
  {
  }

  /** A run in which an opportunity is closed between the check of a realized value and its entry. */
  lemma ValueLandsOnClosed(id: string) returns (steps: seq<Step>)
    ensures var l := Run(steps).ledger;
            && id in l.opps && l.opps[id].status == Closed
            && |l.values| == 1 && l.values[0].id == id && l.values[0].stage == RealizedValue
  {
    PlainText();
    var started := FreshProgress(id);
    var read := ReadToValue(1, id, RealizedValue, 100, "e", "e");
    RunNext(started, read);
    var waiting := started + [read];
    assert Run(waiting).pending.Keys == {1};
    var closed := MoveAtOnce(waiting, 0, id, Closed);
    RunNext(closed, Write(1));
    steps := closed + [Write(1)];
    assert EvidenceIsNew(Run(closed).ledger, Run(closed).pending[1].value);
  }

  // ----- The ledger object -----

  datatype LedgerError = UnknownOpportunity | InvalidTransition | RevisionConflict | NotInProgress | MissingText
        | AlreadyCounted

  class RealizedRoiLedger {
    var opps: map<string, Opportunity>
    var history: seq<Change>
    var values: seq<Value>

    ghost function Model(): Ledger
      reads this
    {
      Ledger(opps, history, values)
    }

    constructor ()
      ensures Model() == Ledger(map[], [], [])
    {
      opps, history, values := map[], [], [];
    }

    /** Both halves with nothing in between. */
    method Transition(id: string, next: Status, expected: Option<int>) returns (r: Result<Opportunity, LedgerError>)
      modifies this
      ensures Model() == if MayMove(old(Model()), id, next)
              then Move(old(Model()), id, old(opps)[id].status, next, expected) else old(Model())
      ensures r.Ok? <==>
                && id in old(opps) && (old(opps)[id].status, next) in TRANSITIONS
                && (expected.Some? ==> old(opps)[id].revision == expected.value)
      ensures r.Ok? ==>
                && r.value == old(opps)[id].(status := next, revision := old(opps)[id].revision + 1)
                && opps == old(opps)[id := r.value] && values == old(values)
                && history == old(history) + [Change(id, old(opps)[id].status, next)]
      ensures r.Err? ==> Model() == old(Model())
      ensures r.Err? ==> r.error == if id !in old(opps) then UnknownOpportunity
                                    else if (old(opps)[id].status, next) !in TRANSITIONS then InvalidTransition
                                    else RevisionConflict
    {
      if id in opps {
        AllowedIff(opps[id].status, next);
      }
      if id !in opps {
        return Err(UnknownOpportunity);
      }
      var current := opps[id];
      if !Allowed(current.status, next) {
        return Err(InvalidTransition);
      }
      if expected.Some? && opps[id].revision != expected.value {
        return Err(RevisionConflict);
      }
      opps := opps[id := current.(status := next, revision := current.revision + 1)];
      history := history + [Change(id, current.status, next)];
      r := Ok(opps[id]);
    }

    method RecordValue(id: string, stage: Stage, cents: int, evidence: string, recordedBy: string)
      returns (r: Result<Value, LedgerError>)
      modifies this
      ensures r.Ok? <==> MayValue(old(Model()), id, stage, evidence, recordedBy)
                         && EvidenceIsNew(old(Model()),
                             Value(old(opps)[id].org, id, stage, cents, old(opps)[id].currency, Strip(evidence)))
      ensures Model() == if r.Ok? then Enter(old(Model()), r.value) else old(Model())
      ensures r.Ok? <==>
                && id in old(opps) && Strip(evidence) != "" && Strip(recordedBy) != ""
                && (stage in {RealizedValue, ValidatedValue} ==>
                      old(opps)[id].status in {InProgress, Realizing, Validated})
                && forall v :: v in old(values) ==> !(v.org == old(opps)[id].org && v.evidence == Strip(evidence))
      ensures opps == old(opps) && history == old(history)
      ensures values == if r.Ok? then old(values) + [r.value] else old(values)
      ensures r.Err? ==> r.error == if id !in old(opps) then UnknownOpportunity
                                    else if stage in {RealizedValue, ValidatedValue}
                                         && old(opps)[id].status !in {InProgress, Realizing, Validated}
                                             then NotInProgress
                                    else if Strip(evidence) == "" || Strip(recordedBy) == "" then MissingText
                                    else AlreadyCounted
      ensures r.Ok? ==>
                && r.value.id == id && r.value.stage == stage && r.value.cents == cents && r.value.org == opps[id].org
                && r.value.currency == opps[id].currency && r.value.evidence == Strip(evidence)
    {
      if id !in opps {
        return Err(UnknownOpportunity);
      }
      if NeedsProgress(stage) && !Earning(opps[id].status) {
        return Err(NotInProgress);
      }
      if Strip(evidence) == "" || Strip(recordedBy) == "" {
        return Err(MissingText);
      }
      var v := Value(opps[id].org, id, stage, cents, opps[id].currency, Strip(evidence));
      var i := 0;
      while i < |values|
        invariant 0 <= i <= |values|
        invariant forall j :: 0 <= j < i ==> !(values[j].org == v.org && values[j].evidence == v.evidence)
      {
        if values[i].org == v.org && values[i].evidence == v.evidence {
          return Err(AlreadyCounted);
        }
        i := i + 1;
      }
      values := values + [v];
      r := Ok(v);
    }
  }
}
