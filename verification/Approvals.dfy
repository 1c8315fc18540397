/**
 The approval protocol: a broker that submits one request per checkpoint, lets an
 approver decide it, and replays the resulting grant to later checkpoints of the
 same action; and the context that authorizes a tool call on such a grant.
 */
module Approvals {
  import opened Numbers
  import opened Outcomes
  import opened Text

  datatype Status = Pending | Approved | Denied | Expired | Cancelled

  datatype Request = Request(checkpointId: string, actionDigest: string, expiresAt: int, requestedBy: string)

  datatype Record = Record(request: Request, status: Status, decidedBy: string, decidedAt: int)

  /** Approval bound to one action digest; an empty `checkpointId` binds no checkpoint. */
  datatype Grant = Grant(actionDigest: string, approvedBy: string, expiresAt: int, checkpointId: string) {

    predicate Validates(cp: Checkpoint, now: int) {
      && actionDigest == cp.actionDigest
      && (checkpointId == "" || checkpointId == cp.id)
      && now <= expiresAt
    }
  }

  datatype Checkpoint = Checkpoint(id: string, actionDigest: string, expiresAt: int)

  datatype Repository = Repository(records: map<string, Record>, grants: map<string, Grant>)

  datatype Broker = Broker(requestedBy: string, records: map<string, Record>, grants: map<string, Grant>,
                           approvedActions: map<string, Grant>, repository: Option<Repository>)

  predicate IsSha256Hex(d: string) {
    |d| == 64 && forall i :: 0 <= i < 64 ==> '0' <= d[i] <= '9' || 'a' <= d[i] <= 'f' || 'A' <= d[i] <= 'F'
  }

  /** `record(checkpoint_id)`: what the broker knows of a checkpoint, in memory or in the repository. */
  function Lookup(b: Broker, id: string): Option<Record> {
    if id in b.records then Some(b.records[id])
    else if b.repository.Some? && id in b.repository.value.records then Some(b.repository.value.records[id])
    else None
  }

  function ApprovedAction(b: Broker, digest: string): Option<Grant> {
    if digest in b.approvedActions then Some(b.approvedActions[digest])
    else if b.repository.Some? && digest in b.repository.value.grants then Some(b.repository.value.grants[digest])
    else None
  }

  /** `save_record`: an existing row keeps its request and takes the decision columns. */
  function SaveRecord(repository: Repository, record: Record): Repository {
    var id := record.request.checkpointId;
    var row := if id in repository.records then record.(request := repository.records[id].request) else record;
    repository.(records := repository.records[id := row])
  }

  /** Stores a record in memory and, if there is one, in the repository. */
  function PutRecord(b: Broker, id: string, record: Record): Broker {
    b.(records := b.records[id := record],
       repository := if b.repository.Some? then Some(SaveRecord(b.repository.value, record)) else None)
  }

  function PutGrant(b: Broker, id: string, grant: Grant): Broker {
    b.(grants := b.grants[id := grant],
       approvedActions := b.approvedActions[grant.actionDigest := grant],
       repository := if b.repository.None? then None else
                       var rows := b.repository.value;
                       Some(rows.(grants := rows.grants[grant.actionDigest := grant])))
  }

  function CacheRecord(b: Broker, id: string): Broker {
    if id !in b.records && Lookup(b, id).Some? then b.(records := b.records[id := Lookup(b, id).value]) else b
  }

  // ----- The approval callback -----

  datatype Response = Granted(grant: Grant) | NotApproved | SubmitFailed

  datatype CallResult = CallResult(broker: Broker, response: Response, submitted: bool)

  function DropStaleGrant(b: Broker, cp: Checkpoint, now: int): Broker {
    if cp.id in b.grants && !b.grants[cp.id].Validates(cp, now) then b.(grants := b.grants - {cp.id}) else b
  }

  function Replay(approved: Grant, cp: Checkpoint): Grant {
    Grant(cp.actionDigest, approved.approvedBy, Min(approved.expiresAt, cp.expiresAt), cp.id)
  }

  /** No grant applies: make sure the checkpoint has been submitted, and answer "not approved". */
  function EnsureSubmitted(b: Broker, cp: Checkpoint, submits: bool): CallResult {
    var b := CacheRecord(b, cp.id);
    if cp.id in b.records then
      CallResult(b, NotApproved, false)
    else if !submits then
      CallResult(b, SubmitFailed, false)
    else
      var request := Request(cp.id, cp.actionDigest, cp.expiresAt, b.requestedBy);
      CallResult(PutRecord(b, cp.id, Record(request, Pending, "", 0)), NotApproved, true)
  }

  /** The broker called with a checkpoint; its clock reads are `t1 <= t2`, and the provider accepts iff `submits`. */
  function Call(b: Broker, cp: Checkpoint, t1: int, t2: int, submits: bool): CallResult {
    if cp.id in b.grants && b.grants[cp.id].Validates(cp, t1) then
      CallResult(b, Granted(b.grants[cp.id]), false)
    else
      var b := DropStaleGrant(b, cp, t1);
      var approved := ApprovedAction(b, cp.actionDigest);
      if approved.Some? && t2 <= approved.value.expiresAt then
        var replay := Replay(approved.value, cp);
        CallResult(b.(grants := b.grants[cp.id := replay]), Granted(replay), false)
      else
        var b := if approved.Some? then b.(approvedActions := b.approvedActions - {cp.actionDigest}) else b;
        EnsureSubmitted(b, cp, submits)
  }

  // ----- Decisions -----

  datatype Decision = Decision(approved: bool, subject: string, permitted: bool, ttlSeconds: Option<int>)

  datatype DecisionError = NotFound | AlreadyDecided | RequestExpired | NotPermitted | NoApprover | SelfApproval
        | BadDigest

  function Ttl(d: Decision): int {
    if d.ttlSeconds.None? || d.ttlSeconds.value == 0 then 900 else d.ttlSeconds.value
  }

  function DecidedRecord(current: Record, d: Decision, now: int): Record {
    Record(current.request, if d.approved then Approved else Denied, Strip(d.subject), now)
  }

  function GrantFor(id: string, current: Record, d: Decision, now: int): Grant {
    Grant(current.request.actionDigest, Strip(d.subject), Min(now + Ttl(d) * 1000, current.request.expiresAt), id)
  }

  function Refusal(current: Record, d: Decision, now: int): Option<DecisionError> {
    if current.status != Pending then Some(AlreadyDecided)
    else if now > current.request.expiresAt then Some(RequestExpired)
    else if !d.permitted then Some(NotPermitted)
    else if Strip(d.subject) == "" then Some(NoApprover)
    else if current.request.requestedBy != "" && Strip(d.subject) == current.request.requestedBy then Some(SelfApproval)
    else None
  }

  function Decide(b: Broker, id: string, d: Decision, now: int): (Broker, Result<Record, DecisionError>) {
    if Lookup(b, id).None? then
      (b, Err(NotFound))
    else
      var b := CacheRecord(b, id);
      DecideOn(b, id, b.records[id], d, now)
  }

  function DecideOn(b: Broker, id: string, current: Record, d: Decision, now: int):
      (Broker, Result<Record, DecisionError>)
  {
    var refusal := Refusal(current, d, now);
    if refusal == Some(RequestExpired) then
      (PutRecord(b, id, Record(current.request, Expired, "", now)), Err(RequestExpired))
    else if refusal.Some? then
      (b, Err(refusal.value))
    else
      Accept(b, id, current, d, now)
  }

  /** A decision that is not refused: the record first, then the grant of an approval. */
  function Accept(b: Broker, id: string, current: Record, d: Decision, now: int):
      (Broker, Result<Record, DecisionError>)
  {
    var record := DecidedRecord(current, d, now);
    var b := PutRecord(b, id, record);
    if !d.approved then (b, Ok(record))
    else if !IsSha256Hex(current.request.actionDigest) then (b, Err(BadDigest))
    else (PutGrant(b, id, GrantFor(id, current, d, now)), Ok(record))
  }

  // ----- Runs of one broker and its context -----

  /** What happened: `Decided` keeps the record as it stood before the decision, and who decided with what right. */
  datatype Event =
    | Submitted(request: Request)
    | Decided(record: Record, approved: bool, permitted: bool, approver: string, at: int)
    | Authorized(checkpoint: Checkpoint, at: int)

  datatype World = World(broker: Broker, clock: int, history: seq<Event>)

  /**
   `Attempt`: the context asks for approval and validates the answer at `t3`; the broker's own clock
   reads are `t1` and `t2`. `Restart`: a new broker takes over the repository.
   */
  datatype Step =
    | Attempt(checkpoint: Checkpoint, t1: int, t2: int, t3: int, submits: bool)
    | Judge(id: string, decision: Decision, now: int)
    | Restart

  /** Time never runs back, and only a broker with a repository is replaced. */
  predicate Enabled(w: World, step: Step) {
    match step
    case Attempt(_, t1, t2, t3, _) => w.clock <= t1 <= t2 <= t3
    case Judge(_, _, now) => w.clock <= now
    case Restart => w.broker.repository.Some?
  }

  function Restarted(b: Broker): Broker { b.(records := map[], grants := map[], approvedActions := map[]) }

  /** The request that a checkpoint is to be decided on. */
  function RequestFor(cp: Checkpoint, requestedBy: string): Request {
    Request(cp.id, cp.actionDigest, cp.expiresAt, requestedBy)
  }

  function DecidedBy(record: Record, d: Decision, now: int): (e: Event)
    ensures e.Decided?
  {
    Decided(record, d.approved, d.permitted, Strip(d.subject), now)
  }

  function Next(w: World, step: Step): World {
    if !Enabled(w, step) then w
    else
      match step
      case Attempt(cp, t1, t2, t3, submits) =>
        var out := Call(w.broker, cp, t1, t2, submits);
        var authorized := out.response.Granted? && out.response.grant.Validates(cp, t3);
        World(out.broker, t3,
              w.history + (if out.submitted then [Submitted(RequestFor(cp, w.broker.requestedBy))] else [])
              + if authorized then [Authorized(cp, t3)] else [])
      case Judge(id, d, now) =>
        var (broker, r) := Decide(w.broker, id, d, now);
        World(broker, now,
              w.history + if r.Ok? then [DecidedBy(Lookup(w.broker, id).value, d, now)] else [])
      case Restart =>
        w.(broker := Restarted(w.broker))
  }

  function Run(w: World, steps: seq<Step>): World {
    if steps == [] then w else Next(Run(w, steps[..|steps| - 1]), steps[|steps| - 1])
  }

  /** A fresh broker, with an empty repository or none. */
  function Start(requestedBy: string, durable: bool): World {
    World(Broker(requestedBy, map[], map[], map[], if durable then Some(Repository(map[], map[])) else None), 0, [])
  }

  // ----- Provenance -----

  /**
   A decision that the rules allow: on a pending, unexpired record, by somebody who is permitted to
   decide and is not its requester.
   */
  predicate IsProper(e: Event) {
    && e.Decided? && e.permitted && e.record.status == Pending && e.at <= e.record.request.expiresAt
    && e.approver != "" && (e.record.request.requestedBy != "" ==> e.approver != e.record.request.requestedBy)
  }

  predicate Backs(e: Event, g: Grant) {
    && IsProper(e) && e.approved && e.approver == g.approvedBy
    && e.record.request.actionDigest == g.actionDigest && g.expiresAt <= e.record.request.expiresAt
  }

  ghost predicate Backed(history: seq<Event>, g: Grant) {
    exists j :: 0 <= j < |history| && Backs(history[j], g)
  }

  ghost predicate AllBacked(history: seq<Event>, grants: map<string, Grant>) {
    forall k :: k in grants ==> Backed(history, grants[k])
  }

  ghost predicate Keyed(grants: map<string, Grant>) {
    forall d :: d in grants ==> grants[d].actionDigest == d
  }

  ghost predicate GrantsOk(b: Broker, history: seq<Event>) {
    && AllBacked(history, b.grants)
    && AllBacked(history, b.approvedActions) && Keyed(b.approvedActions)
    && (b.repository.Some? ==> AllBacked(history, b.repository.value.grants) && Keyed(b.repository.value.grants))
  }

  /**
   An approved decision in the history on this action, made no later than `at`, whose record lives
   until `at` at least.
   */
  predicate Justifies(e: Event, cp: Checkpoint, at: int) {
    && IsProper(e) && e.approved && e.at <= at
    && e.record.request.actionDigest == cp.actionDigest && at <= e.record.request.expiresAt
  }

  ghost predicate AuthorizationsJustified(history: seq<Event>) {
    forall k :: 0 <= k < |history| && history[k].Authorized? ==>
      exists j :: 0 <= j < k && Justifies(history[j], history[k].checkpoint, history[k].at)
  }

  ghost predicate DecisionsDone(history: seq<Event>, clock: int) {
    forall k :: 0 <= k < |history| && history[k].Decided? ==> IsProper(history[k]) && history[k].at <= clock
  }

  lemma BackedLonger(history: seq<Event>, more: seq<Event>, g: Grant)
    requires Backed(history, g)
    ensures Backed(history + more, g)
  {
    var j :| 0 <= j < |history| && Backs(history[j], g);
    assert (history + more)[j] == history[j];
  }

  lemma GrantsOkLonger(b: Broker, history: seq<Event>, more: seq<Event>)
    requires GrantsOk(b, history)
    ensures GrantsOk(b, history + more)
  {
    forall g | Backed(history, g)
      ensures Backed(history + more, g)
    {
      BackedLonger(history, more, g);
    }
  }

  lemma PutRecordKeepsGrants(b: Broker, history: seq<Event>, id: string, record: Record)
    requires GrantsOk(b, history)
    ensures GrantsOk(PutRecord(b, id, record), history)
  {
  }

  lemma CacheRecordKeepsGrants(b: Broker, history: seq<Event>, id: string)
    requires GrantsOk(b, history)
    ensures GrantsOk(CacheRecord(b, id), history)
  {
  }

  lemma PutGrantKeepsGrants(b: Broker, history: seq<Event>, id: string, g: Grant)
    requires GrantsOk(b, history) && Backed(history, g)
    ensures GrantsOk(PutGrant(b, id, g), history)
  {
  }

  lemma EnsureSubmittedKeepsGrants(b: Broker, history: seq<Event>, cp: Checkpoint, submits: bool)
    requires GrantsOk(b, history)
    ensures GrantsOk(EnsureSubmitted(b, cp, submits).broker, history)
  {
    CacheRecordKeepsGrants(b, history, cp.id);
    var b' := CacheRecord(b, cp.id);
    PutRecordKeepsGrants(b', history, cp.id,
                         Record(Request(cp.id, cp.actionDigest, cp.expiresAt, b'.requestedBy), Pending, "", 0));
  }

  lemma ReplayIsBacked(b: Broker, history: seq<Event>, cp: Checkpoint)
    requires GrantsOk(b, history) && ApprovedAction(b, cp.actionDigest).Some?
    ensures Backed(history, Replay(ApprovedAction(b, cp.actionDigest).value, cp))
  {
    var approved := ApprovedAction(b, cp.actionDigest).value;
    assert Backed(history, approved) && approved.actionDigest == cp.actionDigest;
    var j :| 0 <= j < |history| && Backs(history[j], approved);
    assert Backs(history[j], Replay(approved, cp));
  }

  lemma CallKeepsGrants(b: Broker, history: seq<Event>, cp: Checkpoint, t1: int, t2: int, submits: bool)
    requires GrantsOk(b, history)
    ensures var out := Call(b, cp, t1, t2, submits);
            GrantsOk(out.broker, history) && (out.response.Granted? ==> Backed(history, out.response.grant))
  {
    if !(cp.id in b.grants && b.grants[cp.id].Validates(cp, t1)) {
      var b' := DropStaleGrant(b, cp, t1);
      assert GrantsOk(b', history);
      var approved := ApprovedAction(b', cp.actionDigest);
      if approved.Some? && t2 <= approved.value.expiresAt {
        ReplayIsBacked(b', history, cp);
      } else {
        var b'' := if approved.Some? then b'.(approvedActions := b'.approvedActions - {cp.actionDigest}) else b';
        assert GrantsOk(b'', history);
        EnsureSubmittedKeepsGrants(b'', history, cp, submits);
      }
    }
  }

  lemma DecideKeepsGrants(b: Broker, history: seq<Event>, id: string, d: Decision, now: int)
    requires GrantsOk(b, history)
    ensures var (b', r) := Decide(b, id, d, now);
            && (r.Err? ==> GrantsOk(b', history))
            && (r.Ok? ==> var e := DecidedBy(Lookup(b, id).value, d, now);
                          IsProper(e) && GrantsOk(b', history + [e]))
  {
    if Lookup(b, id).Some? {
      var current := Lookup(b, id).value;
      var b1 := CacheRecord(b, id);
      CacheRecordKeepsGrants(b, history, id);
      PutRecordKeepsGrants(b1, history, id, Record(current.request, Expired, "", now));
      if Refusal(current, d, now).None? {
        AcceptKeepsGrants(b1, history, id, current, d, now);
      }
    }
  }

  lemma AcceptKeepsGrants(b: Broker, history: seq<Event>, id: string, current: Record, d: Decision, now: int)
    requires GrantsOk(b, history) && Refusal(current, d, now).None?
    ensures var (b', r) := Accept(b, id, current, d, now);
            && (r.Err? ==> GrantsOk(b', history))
            && (r.Ok? ==> var e := DecidedBy(current, d, now);
                          IsProper(e) && GrantsOk(b', history + [e]))
  {
    var record := DecidedRecord(current, d, now);
    var e := DecidedBy(current, d, now);
    var b' := PutRecord(b, id, record);
    PutRecordKeepsGrants(b, history, id, record);
    GrantsOkLonger(b', history, [e]);
    if d.approved {
      var g := GrantFor(id, current, d, now);
      assert Backs((history + [e])[|history|], g);
      PutGrantKeepsGrants(b', history + [e], id, g);
    }
  }

  lemma AuthorizedIsJustified(history: seq<Event>, g: Grant, cp: Checkpoint, at: int)
    requires Backed(history, g) && g.Validates(cp, at) && DecisionsDone(history, at)
    ensures exists j :: 0 <= j < |history| && Justifies(history[j], cp, at)
  {
    var j :| 0 <= j < |history| && Backs(history[j], g);
    assert Justifies(history[j], cp, at);
  }

  lemma JustifiedLonger(history: seq<Event>, e: Event)
    requires AuthorizationsJustified(history)
    requires e.Authorized? ==> exists j :: 0 <= j < |history| && Justifies(history[j], e.checkpoint, e.at)
    ensures AuthorizationsJustified(history + [e])
  {
    var longer := history + [e];
    forall k | 0 <= k < |longer| && longer[k].Authorized?
      ensures exists j :: 0 <= j < k && Justifies(longer[j], longer[k].checkpoint, longer[k].at)
    {
      if k < |history| {
        var j :| 0 <= j < k && Justifies(history[j], history[k].checkpoint, history[k].at);
        assert Justifies(longer[j], longer[k].checkpoint, longer[k].at);
      } else {
        var j :| 0 <= j < |history| && Justifies(history[j], e.checkpoint, e.at);
        assert Justifies(longer[j], longer[k].checkpoint, longer[k].at);
      }
    }
  }

  ghost predicate ProvenanceInvariant(w: World) {
    GrantsOk(w.broker, w.history) && DecisionsDone(w.history, w.clock) && AuthorizationsJustified(w.history)
  }

  lemma AttemptKeepsProvenance(w: World, step: Step)
    requires ProvenanceInvariant(w) && step.Attempt? && Enabled(w, step)
    ensures ProvenanceInvariant(Next(w, step))
  {
    var Attempt(cp, t1, t2, t3, submits) := step;
    var out := Call(w.broker, cp, t1, t2, submits);
    CallKeepsGrants(w.broker, w.history, cp, t1, t2, submits);
    var h1 := w.history + if out.submitted then [Submitted(RequestFor(cp, w.broker.requestedBy))] else [];
    if out.submitted {
      JustifiedLonger(w.history, Submitted(RequestFor(cp, w.broker.requestedBy)));
      GrantsOkLonger(out.broker, w.history, [Submitted(RequestFor(cp, w.broker.requestedBy))]);
    } else {
      assert h1 == w.history;
    }
    if out.response.Granted? && out.response.grant.Validates(cp, t3) {
      AuthorizedIsJustified(h1, out.response.grant, cp, t3) by {
        BackedLonger(w.history, if out.submitted then [Submitted(RequestFor(cp, w.broker.requestedBy))]
            else [], out.response.grant);
      }
      JustifiedLonger(h1, Authorized(cp, t3));
      GrantsOkLonger(out.broker, h1, [Authorized(cp, t3)]);
    } else {
      assert h1 + [] == h1;
    }
  }

  lemma NextKeepsProvenance(w: World, step: Step)
    requires ProvenanceInvariant(w)
    ensures ProvenanceInvariant(Next(w, step))
  {
    if Enabled(w, step) {
      match step
      case Attempt(_, _, _, _, _) => AttemptKeepsProvenance(w, step);
      case Judge(id, d, now) =>
        DecideKeepsGrants(w.broker, w.history, id, d, now);
        var (b', r) := Decide(w.broker, id, d, now);
        if r.Ok? {
          JustifiedLonger(w.history, DecidedBy(Lookup(w.broker, id).value, d, now));
        } else {
          assert w.history + [] == w.history;
        }
      case Restart =>
    }
  }

  /**
   Over every run of one broker at a time: whenever a protected call is authorized, an earlier
   decision on the same action approved it, on a pending record that had not expired then and has not
   expired now, made by somebody other than the record's non-empty requester.
   */
  lemma {:induction false} ApprovalProvenance(requestedBy: string, durable: bool, steps: seq<Step>)
    ensures ProvenanceInvariant(Run(Start(requestedBy, durable), steps))
  {
    if steps != [] {
      ApprovalProvenance(requestedBy, durable, steps[..|steps| - 1]);
      NextKeepsProvenance(Run(Start(requestedBy, durable), steps[..|steps| - 1]), steps[|steps| - 1]);
    }
  }

  // ----- Records -----

  ghost predicate RecordsOk(b: Broker) {
    && (forall id :: id in b.records ==> b.records[id].request.checkpointId == id)
    && (b.repository.Some? ==>
          var rows := b.repository.value.records;
          && (forall id :: id in rows ==> rows[id].request.checkpointId == id)
          && (forall id :: id in b.records ==> id in rows && rows[id] == b.records[id]))
  }

  lemma PutRecordLooksUp(b: Broker, id: string, record: Record)
    requires RecordsOk(b) && record.request.checkpointId == id
    requires Lookup(b, id).Some? ==> Lookup(b, id).value.request == record.request
    ensures RecordsOk(PutRecord(b, id, record)) && Lookup(PutRecord(b, id, record), id) == Some(record)
    ensures forall other :: other != id ==> Lookup(PutRecord(b, id, record), other) == Lookup(b, other)
  {
  }

  lemma CacheRecordLooksUp(b: Broker, id: string)
    requires RecordsOk(b)
    ensures RecordsOk(CacheRecord(b, id))
    ensures forall other :: Lookup(CacheRecord(b, id), other) == Lookup(b, other)
  {
  }

  ghost predicate SameRecords(b: Broker, b': Broker) {
    RecordsOk(b') && b'.requestedBy == b.requestedBy && forall id :: Lookup(b', id) == Lookup(b, id)
  }

  /** What a call may do to the records: submit its own checkpoint if it is unknown. */
  ghost predicate OnlySubmits(b: Broker, cp: Checkpoint, out: CallResult) {
    && RecordsOk(out.broker)
    && (forall id :: id != cp.id || !out.submitted ==> Lookup(out.broker, id) == Lookup(b, id))
    && (out.submitted ==>
          && Lookup(b, cp.id).None?
          && Lookup(out.broker, cp.id) == Some(Record(RequestFor(cp, b.requestedBy), Pending, "", 0)))
    && out.broker.requestedBy == b.requestedBy
  }

  lemma EnsureSubmittedOnRecords(b: Broker, cp: Checkpoint, submits: bool)
    requires RecordsOk(b)
    ensures OnlySubmits(b, cp, EnsureSubmitted(b, cp, submits))
  {
    CacheRecordLooksUp(b, cp.id);
    var b' := CacheRecord(b, cp.id);
    if cp.id !in b'.records && submits {
      var request := Request(cp.id, cp.actionDigest, cp.expiresAt, b'.requestedBy);
      PutRecordLooksUp(b', cp.id, Record(request, Pending, "", 0));
    }
  }

  lemma GrantsLeaveRecords(b: Broker, grants: map<string, Grant>, approvedActions: map<string, Grant>)
    requires RecordsOk(b)
    ensures SameRecords(b, b.(grants := grants, approvedActions := approvedActions))
  {
  }

  lemma CallOnRecords(b: Broker, cp: Checkpoint, t1: int, t2: int, submits: bool)
    requires RecordsOk(b)
    ensures OnlySubmits(b, cp, Call(b, cp, t1, t2, submits))
  {
    if !(cp.id in b.grants && b.grants[cp.id].Validates(cp, t1)) {
      var b1 := DropStaleGrant(b, cp, t1);
      GrantsLeaveRecords(b, b1.grants, b.approvedActions);
      var approved := ApprovedAction(b1, cp.actionDigest);
      if approved.Some? && t2 <= approved.value.expiresAt {
        GrantsLeaveRecords(b1, b1.grants[cp.id := Replay(approved.value, cp)], b1.approvedActions);
      } else {
        var b2 := if approved.Some? then b1.(approvedActions := b1.approvedActions - {cp.actionDigest}) else b1;
        GrantsLeaveRecords(b1, b1.grants, b2.approvedActions);
        EnsureSubmittedOnRecords(b2, cp, submits);
      }
    }
  }

  /** What a decision may do to the records: end the wait of its own, and keep the request. */
  ghost predicate OnlyDecides(b: Broker, b': Broker, id: string) {
    && RecordsOk(b')
    && b'.requestedBy == b.requestedBy
    && (forall other :: other != id ==> Lookup(b', other) == Lookup(b, other))
    && (Lookup(b', id).Some? <==> Lookup(b, id).Some?)
    && (Lookup(b', id) != Lookup(b, id) ==>
          && Lookup(b, id).value.status == Pending && Lookup(b', id).value.status != Pending
          && Lookup(b', id).value.request == Lookup(b, id).value.request)
  }

  lemma PutRecordDecides(b: Broker, id: string, current: Record, record: Record)
    requires RecordsOk(b) && Lookup(b, id) == Some(current) && current.status == Pending
    requires record.request == current.request && record.status != Pending
    ensures OnlyDecides(b, PutRecord(b, id, record), id) && Lookup(PutRecord(b, id, record), id) == Some(record)
  {
    PutRecordLooksUp(b, id, record);
  }

  lemma AcceptOnRecords(b: Broker, id: string, current: Record, d: Decision, now: int)
    requires RecordsOk(b) && Lookup(b, id) == Some(current) && current.status == Pending
    ensures var (b', r) := Accept(b, id, current, d, now);
            && OnlyDecides(b, b', id) && Lookup(b', id) == Some(DecidedRecord(current, d, now))
            && (r.Ok? ==> r.value == DecidedRecord(current, d, now))
  {
    var record := DecidedRecord(current, d, now);
    PutRecordDecides(b, id, current, record);
    PutGrantLeavesRecords(PutRecord(b, id, record), id, GrantFor(id, current, d, now));
  }

  lemma DecideOnKnown(b: Broker, id: string, current: Record, d: Decision, now: int)
    requires RecordsOk(b) && Lookup(b, id) == Some(current)
    ensures var (b', r) := DecideOn(b, id, current, d, now);
            && OnlyDecides(b, b', id)
            && (r.Ok? ==> Lookup(b', id) == Some(r.value) && r.value == DecidedRecord(current, d, now))
  {
    if current.status == Pending {
      PutRecordDecides(b, id, current, Record(current.request, Expired, "", now));
      AcceptOnRecords(b, id, current, d, now);
    }
  }

  lemma OnlyDecidesFrom(b: Broker, b1: Broker, b': Broker, id: string)
    requires SameRecords(b, b1) && OnlyDecides(b1, b', id)
    ensures OnlyDecides(b, b', id)
  {
    assert Lookup(b1, id) == Lookup(b, id);
  }

  lemma DecideOnRecords(b: Broker, id: string, d: Decision, now: int)
    requires RecordsOk(b)
    ensures var (b', r) := Decide(b, id, d, now);
            && OnlyDecides(b, b', id)
            && (r.Ok? ==> Lookup(b', id) == Some(r.value) && r.value == DecidedRecord(Lookup(b, id).value, d, now))
  {
    if Lookup(b, id).Some? {
      CacheRecordLooksUp(b, id);
      var b1 := CacheRecord(b, id);
      assert Lookup(b1, id) == Some(b1.records[id]);
      DecideOnKnown(b1, id, b1.records[id], d, now);
      OnlyDecidesFrom(b, b1, DecideOn(b1, id, b1.records[id], d, now).0, id);
    }
  }

  lemma PutGrantLeavesRecords(b: Broker, id: string, g: Grant)
    requires RecordsOk(b)
    ensures RecordsOk(PutGrant(b, id, g)) && forall other :: Lookup(PutGrant(b, id, g), other) == Lookup(b, other)
  {
  }

  ghost predicate SubmittedOnce(history: seq<Event>) {
    forall i, j :: 0 <= i < j < |history| && history[i].Submitted? && history[j].Submitted? ==>
      history[i].request.checkpointId != history[j].request.checkpointId
  }

  /** The broker knows the requests it submitted, all of its own requester. */
  ghost predicate KnowsSubmitted(b: Broker, history: seq<Event>) {
    && (forall id :: Lookup(b, id).Some? ==> Submitted(Lookup(b, id).value.request) in history)
    && (forall e :: e in history && e.Submitted? ==>
          e.request.requestedBy == b.requestedBy && Lookup(b, e.request.checkpointId).Some?)
  }

  ghost predicate SubmissionInvariant(w: World) {
    RecordsOk(w.broker) && SubmittedOnce(w.history) && KnowsSubmitted(w.broker, w.history)
  }

  /** A call's submission is the first of its checkpoint. */
  lemma AttemptKeepsSubmissions(w: World, w': World, cp: Checkpoint, out: CallResult, rest: seq<Event>)
    requires SubmissionInvariant(w) && OnlySubmits(w.broker, cp, out) && w'.broker == out.broker
    requires w'.history == w.history
                           + (if out.submitted then [Submitted(RequestFor(cp, w.broker.requestedBy))] else []) + rest
    requires forall e :: e in rest ==> e.Authorized?
    ensures SubmissionInvariant(w')
  {
    var n, request := |w'.history| - |rest|, RequestFor(cp, w.broker.requestedBy);
    assert forall m :: n <= m < |w'.history| ==> w'.history[m] in rest;
    assert out.submitted ==> forall e :: e in w.history && e.Submitted? ==> e.request.checkpointId != cp.id;
    forall i, j | 0 <= i < j < |w'.history| && w'.history[i].Submitted? && w'.history[j].Submitted?
      ensures w'.history[i].request.checkpointId != w'.history[j].request.checkpointId
    {
      assert w'.history[i] == w.history[i] && w.history[i] in w.history;
      assert j < |w.history| ==> w'.history[j] == w.history[j];
    }
    assert forall e :: e in w'.history && e.Submitted? <==>
        (e in w.history && e.Submitted?) || (out.submitted && e == Submitted(request));
  }

  /** A decision keeps every request. */
  lemma DecisionKeepsSubmissions(w: World, w': World, id: string, rest: seq<Event>)
    requires SubmissionInvariant(w) && OnlyDecides(w.broker, w'.broker, id) && w'.history == w.history + rest
    requires (forall e :: e in rest ==> e.Decided?) && |rest| <= 1
    ensures SubmissionInvariant(w')
  {
    assert forall e :: e in w'.history && e.Submitted? <==> e in w.history && e.Submitted?;
    assert forall other :: Lookup(w'.broker, other).Some? ==>
        Lookup(w.broker, other).Some?
        && Lookup(w'.broker, other).value.request == Lookup(w.broker, other).value.request;
    assert rest != [] ==> rest[0] in rest;
  }

  lemma NextKeepsSubmissions(w: World, step: Step)
    requires SubmissionInvariant(w)
    ensures SubmissionInvariant(Next(w, step))
  {
    if Enabled(w, step) {
      var w' := Next(w, step);
      match step
      case Attempt(cp, t1, t2, t3, submits) =>
        CallOnRecords(w.broker, cp, t1, t2, submits);
        var out := Call(w.broker, cp, t1, t2, submits);
        var authorized := out.response.Granted? && out.response.grant.Validates(cp, t3);
        AttemptKeepsSubmissions(w, w', cp, out, if authorized then [Authorized(cp, t3)] else []);
      case Judge(id, d, now) =>
        DecideOnRecords(w.broker, id, d, now);
        var r := Decide(w.broker, id, d, now).1;
        DecisionKeepsSubmissions(w, w', id, if r.Ok? then [DecidedBy(Lookup(w.broker, id).value, d, now)] else []);
      case Restart =>
        assert forall id :: Lookup(w'.broker, id) == Lookup(w.broker, id);
    }
  }

  /**
   Over every run each checkpoint is submitted to the provider at most once, and every record the
   broker has is of a request that was submitted, in the name of its requester.
   */
  lemma {:induction false} SubmittedAtMostOnce(requestedBy: string, durable: bool, steps: seq<Step>)
    ensures SubmissionInvariant(Run(Start(requestedBy, durable), steps))
  {
    if steps != [] {
      SubmittedAtMostOnce(requestedBy, durable, steps[..|steps| - 1]);
      NextKeepsSubmissions(Run(Start(requestedBy, durable), steps[..|steps| - 1]), steps[|steps| - 1]);
    }
  }

  lemma NextKeepsDecided(w: World, step: Step, id: string)
    requires SubmissionInvariant(w) && Lookup(w.broker, id).Some? && Lookup(w.broker, id).value.status != Pending
    ensures Lookup(Next(w, step).broker, id) == Lookup(w.broker, id)
  {
    if Enabled(w, step) {
      match step
      case Attempt(cp, t1, t2, _, submits) => CallOnRecords(w.broker, cp, t1, t2, submits);
      case Judge(other, d, now) => DecideOnRecords(w.broker, other, d, now);
      case Restart =>
    }
  }

  /** A decided record never changes again, through restarts too. */
  lemma {:induction false} DecidedIsFinal(w: World, steps: seq<Step>, id: string)
    requires SubmissionInvariant(w) && Lookup(w.broker, id).Some? && Lookup(w.broker, id).value.status != Pending
    ensures SubmissionInvariant(Run(w, steps)) && Lookup(Run(w, steps).broker, id) == Lookup(w.broker, id)
  {
    if steps != [] {
      DecidedIsFinal(w, steps[..|steps| - 1], id);
      NextKeepsSubmissions(Run(w, steps[..|steps| - 1]), steps[|steps| - 1]);
      NextKeepsDecided(Run(w, steps[..|steps| - 1]), steps[|steps| - 1], id);
    }
  }

  /**
   Every decision is on a request that was submitted before, and made by somebody else than the
   broker's requester.
   */
  ghost predicate DecisionsAreOthers(history: seq<Event>, requestedBy: string) {
    forall k :: 0 <= k < |history| && history[k].Decided? ==>
      && Submitted(history[k].record.request) in history[..k]
      && history[k].record.request.requestedBy == requestedBy
      && (requestedBy != "" ==> history[k].approver != requestedBy)
  }

  lemma NextKeepsDecisions(w: World, step: Step)
    requires SubmissionInvariant(w) && ProvenanceInvariant(w) && DecisionsAreOthers(w.history, w.broker.requestedBy)
    ensures DecisionsAreOthers(Next(w, step).history, w.broker.requestedBy)
  {
    var w' := Next(w, step);
    NextKeepsProvenance(w, step);
    forall k | 0 <= k < |w'.history| && w'.history[k].Decided?
      ensures Submitted(w'.history[k].record.request) in w'.history[..k]
      ensures IsProper(w'.history[k]) && w'.history[k].record.request.requestedBy == w.broker.requestedBy
    {
      if k < |w.history| {
        assert w'.history[k] == w.history[k] && w'.history[..k] == w.history[..k];
      } else {
        assert w'.history[..k] == w.history;
        assert Submitted(Lookup(w.broker, step.id).value.request) in w.history;
      }
    }
  }

  lemma NextKeepsRequester(w: World, step: Step)
    requires RecordsOk(w.broker)
    ensures Next(w, step).broker.requestedBy == w.broker.requestedBy
  {
    if Enabled(w, step) {
      match step
      case Attempt(cp, t1, t2, _, submits) => CallOnRecords(w.broker, cp, t1, t2, submits);
      case Judge(id, d, now) => DecideOnRecords(w.broker, id, d, now);
      case Restart =>
    }
  }

  /** Over every run nobody decides on a request of his own, and only submitted requests are decided on. */
  lemma {:induction false} RequestersNeverDecide(requestedBy: string, durable: bool, steps: seq<Step>)
    ensures var w := Run(Start(requestedBy, durable), steps);
            w.broker.requestedBy == requestedBy && DecisionsAreOthers(w.history, requestedBy)
  {
    if steps != [] {
      var init := steps[..|steps| - 1];
      RequestersNeverDecide(requestedBy, durable, init);
      SubmittedAtMostOnce(requestedBy, durable, init);
      ApprovalProvenance(requestedBy, durable, init);
      NextKeepsDecisions(Run(Start(requestedBy, durable), init), steps[|steps| - 1]);
      NextKeepsRequester(Run(Start(requestedBy, durable), init), steps[|steps| - 1]);
    }
  }

  // ----- What single calls and decisions answer -----

  /** The decision may be made: the record waits, and the approver is permitted, named and not the requester. */
  predicate MayDecide(record: Record, d: Decision, now: int) {
    && record.status == Pending && now <= record.request.expiresAt
    && d.permitted && Strip(d.subject) != ""
    && (record.request.requestedBy == "" || Strip(d.subject) != record.request.requestedBy)
  }

  /**
   A decision goes through exactly when it may be made, save that approving needs a digest in
   hexadecimal. It then is the record's: approved or denied as decided, by the stripped subject. A
   waiting record whose time is over becomes expired, and nothing else changes a record.
   */
  lemma DecisionIff(b: Broker, id: string, d: Decision, now: int)
    requires RecordsOk(b)
    ensures var (b', r) := Decide(b, id, d, now);
            && (r.Ok? <==>
                  && Lookup(b, id).Some? && MayDecide(Lookup(b, id).value, d, now)
                  && (d.approved ==> IsSha256Hex(Lookup(b, id).value.request.actionDigest)))
            && Lookup(b', id) == (
               if Lookup(b, id).None? then None
               else
                 var record := Lookup(b, id).value;
                 if MayDecide(record, d, now) then
                   Some(Record(record.request, if d.approved then Approved else Denied, Strip(d.subject), now))
                 else if record.status == Pending && record.request.expiresAt < now then
                   Some(Record(record.request, Expired, "", now))
                 else Some(record))
  {
    DecideOnRecords(b, id, d, now);
    if Lookup(b, id).Some? {
      CacheRecordLooksUp(b, id);
      var b1 := CacheRecord(b, id);
      assert Lookup(b1, id) == Some(b1.records[id]);
      KnownDecisionIff(b1, id, b1.records[id], d, now);
    }
  }

  lemma KnownDecisionIff(b: Broker, id: string, current: Record, d: Decision, now: int)
    requires RecordsOk(b) && Lookup(b, id) == Some(current)
    ensures var (b', r) := DecideOn(b, id, current, d, now);
            && (r.Ok? <==>
                  MayDecide(current, d, now) && (d.approved ==> IsSha256Hex(current.request.actionDigest)))
            && Lookup(b', id) == Some(
               if MayDecide(current, d, now) then
                 Record(current.request, if d.approved then Approved else Denied, Strip(d.subject), now)
               else if current.status == Pending && current.request.expiresAt < now then
                 Record(current.request, Expired, "", now)
               else current)
  {
    if current.status == Pending {
      PutRecordDecides(b, id, current, Record(current.request, Expired, "", now));
      AcceptOnRecords(b, id, current, d, now);
    }
  }

  /** Which rule a refused decision broke: the first, in this order. */
  lemma RefusalNamesRule(b: Broker, id: string, d: Decision, now: int)
    requires RecordsOk(b) && Decide(b, id, d, now).1.Err?
    ensures var found := Lookup(b, id);
            Decide(b, id, d, now).1.error ==
            if found.None? then NotFound
            else if found.value.status != Pending then AlreadyDecided
            else if found.value.request.expiresAt < now then RequestExpired
            else if !d.permitted then NotPermitted
            else if Strip(d.subject) == "" then NoApprover
            else if !MayDecide(found.value, d, now) then SelfApproval
            else BadDigest
  {
    CacheRecordLooksUp(b, id);
  }

  /**
   What a call is answered, and with which grant: its checkpoint's own, or the action's, cut to the
   checkpoint's life.
   */
  lemma CallAnswers(b: Broker, cp: Checkpoint, t1: int, t2: int, submits: bool)
    requires RecordsOk(b)
    ensures var response, action := Call(b, cp, t1, t2, submits).response, ApprovedAction(b, cp.actionDigest);
            var own := cp.id in b.grants && b.grants[cp.id].Validates(cp, t1);
            && (own ==> response == Granted(b.grants[cp.id]))
            && (!own && action.Some? && t2 <= action.value.expiresAt ==>
                  response.Granted? && response.grant.approvedBy == action.value.approvedBy
                  && response.grant.actionDigest == cp.actionDigest && response.grant.checkpointId == cp.id
                  && IsLesser(response.grant.expiresAt, action.value.expiresAt, cp.expiresAt))
            && (!own && !(action.Some? && t2 <= action.value.expiresAt) ==>
                  response == if Lookup(b, cp.id).None? && !submits then SubmitFailed else NotApproved)
            && (Call(b, cp, t1, t2, submits).submitted <==>
                  !own && !(action.Some? && t2 <= action.value.expiresAt) && Lookup(b, cp.id).None? && submits)
  {
  }

  /** A grant is honoured: while it and the checkpoint live, another attempt at the same action is authorized. */
  lemma GrantIsHonoured(w: World, cp: Checkpoint, t1: int, t2: int, t3: int, submits: bool)
    requires ProvenanceInvariant(w) && w.clock <= t1 <= t2 <= t3
    requires ApprovedAction(w.broker, cp.actionDigest).Some?
    requires t3 <= ApprovedAction(w.broker, cp.actionDigest).value.expiresAt && t3 <= cp.expiresAt
    requires cp.id !in w.broker.grants || t3 <= w.broker.grants[cp.id].expiresAt
    ensures Next(w, Attempt(cp, t1, t2, t3, submits)).history == w.history + [Authorized(cp, t3)]
  {
    var out := Call(w.broker, cp, t1, t2, submits);
    assert out.response.Granted? && out.response.grant.Validates(cp, t3) && !out.submitted;
    assert w.history + [] == w.history;
  }

  /** How long an approval is asked to last: 900 seconds unless said otherwise. */
  function Lifetime(seconds: Option<int>): int {
    match seconds
    case None => 900_000
    case Some(n) => if n == 0 then 900_000 else 1000 * n
  }

  /** The grant that an approval leaves lasts as long as asked, or as long as its record if that is shorter. */
  predicate LeavesGrant(b': Broker, id: string, request: Request, d: Decision, now: int) {
    var found := ApprovedAction(b', request.actionDigest);
    && found.Some? && found.value.actionDigest == request.actionDigest
    && found.value.approvedBy == Strip(d.subject) && found.value.checkpointId == id
    && IsLesser(found.value.expiresAt, now + Lifetime(d.ttlSeconds), request.expiresAt)
    && (b'.repository.Some? ==> ApprovedAction(Restarted(b'), request.actionDigest) == found)
  }

  lemma PutRecordKeepsActions(b: Broker, id: string, record: Record, digest: string)
    ensures ApprovedAction(PutRecord(b, id, record), digest) == ApprovedAction(b, digest)
    ensures ApprovedAction(CacheRecord(b, id), digest) == ApprovedAction(b, digest)
  {
  }

  lemma AcceptedLeavesGrant(b: Broker, id: string, current: Record, d: Decision, now: int, digest: string)
    requires Accept(b, id, current, d, now).1.Ok?
    ensures var b' := Accept(b, id, current, d, now).0;
            && (d.approved ==> LeavesGrant(b', id, current.request, d, now))
            && (!d.approved || digest != current.request.actionDigest ==>
                  ApprovedAction(b', digest) == ApprovedAction(b, digest))
  {
    var record := DecidedRecord(current, d, now);
    PutRecordKeepsActions(b, id, record, digest);
    PutGrantStores(PutRecord(b, id, record), id, GrantFor(id, current, d, now));
  }

  /**
   An approval leaves a grant for its action, which outlives a restart where there is a repository. A
   denial leaves none, and no other action is touched.
   */
  lemma ApprovalLeavesGrant(b: Broker, id: string, d: Decision, now: int, digest: string)
    requires RecordsOk(b) && Decide(b, id, d, now).1.Ok?
    ensures var request, b' := Lookup(b, id).value.request, Decide(b, id, d, now).0;
            && (d.approved ==> LeavesGrant(b', id, request, d, now))
            && (!d.approved || digest != request.actionDigest ==>
                  ApprovedAction(b', digest) == ApprovedAction(b, digest))
  {
    var current, b1 := Lookup(b, id).value, CacheRecord(b, id);
    PutRecordKeepsActions(b, id, current, digest);
    AcceptedLeavesGrant(b1, id, current, d, now, digest);
  }

  lemma PutGrantStores(b: Broker, id: string, g: Grant)
    ensures var b' := PutGrant(b, id, g);
            && ApprovedAction(b', g.actionDigest) == Some(g)
            && (b'.repository.Some? ==> ApprovedAction(Restarted(b'), g.actionDigest) == Some(g))
            && (forall digest :: digest != g.actionDigest ==> ApprovedAction(b', digest) == ApprovedAction(b, digest))
  {
  }

  // ----- The broker object -----

  class ApprovalBroker {
    const requestedBy: string
    var records: map<string, Record>
    var grants: map<string, Grant>
    var approvedActions: map<string, Grant>
    var repository: Option<Repository>

    ghost function State(): Broker
      reads this
    {
      Broker(requestedBy, records, grants, approvedActions, repository)
    }

    constructor (requestedBy: string, repository: Option<Repository>)
      ensures State() == Broker(requestedBy, map[], map[], map[], repository)
    {
      this.requestedBy, this.repository := requestedBy, repository;
      records, grants, approvedActions := map[], map[], map[];
    }

    method SaveRecordRow(record: Record)
      requires repository.Some?
      modifies this`repository
      ensures repository == Some(SaveRecord(old(repository).value, record))
    {
      repository := Some(SaveRecord(repository.value, record));
    }

    method RequestApproval(cp: Checkpoint, t1: int, t2: int, submits: bool)
      returns (response: Response, submitted: bool)
      modifies this
      ensures CallResult(State(), response, submitted) == Call(old(State()), cp, t1, t2, submits)
    {
      submitted := false;
      if cp.id in grants {
        if grants[cp.id].Validates(cp, t1) {
          return Granted(grants[cp.id]), false;
        }
        grants := grants - {cp.id};
      }
      var approved := if cp.actionDigest in approvedActions then Some(approvedActions[cp.actionDigest]) else None;
      if approved.None? && repository.Some? && cp.actionDigest in repository.value.grants {
        approved := Some(repository.value.grants[cp.actionDigest]);
      }
      if approved.Some? {
        if t2 <= approved.value.expiresAt {
          var replay := Grant(cp.actionDigest, approved.value.approvedBy,
                              Min(approved.value.expiresAt, cp.expiresAt), cp.id);
          grants := grants[cp.id := replay];
          return Granted(replay), false;
        }
        approvedActions := approvedActions - {cp.actionDigest};
      }
      if cp.id !in records && repository.Some? && cp.id in repository.value.records {
        records := records[cp.id := repository.value.records[cp.id]];
      }
      if cp.id !in records {
        if !submits {
          return SubmitFailed, false;
        }
        submitted := true;
        var record := Record(Request(cp.id, cp.actionDigest, cp.expiresAt, requestedBy), Pending, "", 0);
        records := records[cp.id := record];
        if repository.Some? {
          SaveRecordRow(record);
        }
      }
      response := NotApproved;
    }

    method DecideRequest(id: string, d: Decision, now: int) returns (r: Result<Record, DecisionError>)
      modifies this
      ensures (State(), r) == Decide(old(State()), id, d, now)
    {
      if id !in records {
        if repository.None? || id !in repository.value.records {
          return Err(NotFound);
        }
        records := records[id := repository.value.records[id]];
      }
      var current := records[id];
      if current.status != Pending {
        return Err(AlreadyDecided);
      }
      if now > current.request.expiresAt {
        var expired := Record(current.request, Expired, "", now);
        records := records[id := expired];
        if repository.Some? {
          SaveRecordRow(expired);
        }
        return Err(RequestExpired);
      }
      if !d.permitted {
        return Err(NotPermitted);
      }
      var decidedBy := Strip(d.subject);
      if decidedBy == "" {
        return Err(NoApprover);
      }
      if current.request.requestedBy != "" && decidedBy == current.request.requestedBy {
        return Err(SelfApproval);
      }
      var record := Record(current.request, if d.approved then Approved else Denied, decidedBy, now);
      records := records[id := record];
      if repository.Some? {
        SaveRecordRow(record);
      }
      if d.approved {
        if !IsSha256Hex(current.request.actionDigest) {
          return Err(BadDigest);
        }
        var expiry := Min(now + Ttl(d) * 1000, current.request.expiresAt);
        var grant := Grant(current.request.actionDigest, decidedBy, expiry, id);
        grants := grants[id := grant];
        approvedActions := approvedActions[grant.actionDigest := grant];
        if repository.Some? {
          var rows := repository.value;
          repository := Some(rows.(grants := rows.grants[grant.actionDigest := grant]));
        }
      }
      return Ok(record);
    }
  }
}
