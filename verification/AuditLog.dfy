/**
 Hash-chained audit logs. One log interleaves many chains, one per correlation id;
 each event carries the hash of its predecessor in its own chain and the hash of
 its own body.
 */
module AuditLog {
  import opened JsonText
  import opened Outcomes

  /** What an event's hash covers. `payload` is the canonical text of the payload. */
  datatype Body = Body(eventId: string, correlationId: string, runId: string, tsEpochMs: int,
                       eventType: string, payload: string, prevHash: Option<string>)

  datatype Event = Event(body: Body, hash: Option<string>)

  /** SHA-256 of the canonical text of a body. */
  type Hasher = Body -> string

  ghost predicate CollisionFree(h: Hasher) {
    && (forall a, b :: h(a) == h(b) ==> a == b)
    && (forall b :: h(b) != "")
  }

  /** A text that tells bodies apart. */
  ghost function BodyText(b: Body): string {
    Dumps(JList([JStr(b.eventId), JStr(b.correlationId), JStr(b.runId), JInt(b.tsEpochMs), JStr(b.eventType),
        JStr(b.payload),
                 if b.prevHash.Some? then JStr(b.prevHash.value) else JNull]))
  }

  /** The assumption on the hash can be met: the text of a body has no collisions. */
  lemma CollisionFreeHasherExists()
    ensures exists h: Hasher :: CollisionFree(h)
  {
    var h: Hasher := (b: Body) => BodyText(b);
    forall a, b | h(a) == h(b)
      ensures a == b
    {
      BodyTextIsInjective(a, b);
    }
    assert CollisionFree(h);
  }

  lemma BodyTextIsInjective(a: Body, b: Body)
    requires BodyText(a) == BodyText(b)
    ensures a == b
  {
    var x := [JStr(a.eventId), JStr(a.correlationId), JStr(a.runId), JInt(a.tsEpochMs), JStr(a.eventType),
        JStr(a.payload),
              if a.prevHash.Some? then JStr(a.prevHash.value) else JNull];
    var y := [JStr(b.eventId), JStr(b.correlationId), JStr(b.runId), JInt(b.tsEpochMs), JStr(b.eventType),
        JStr(b.payload),
              if b.prevHash.Some? then JStr(b.prevHash.value) else JNull];
    DumpsIsInjective(JList(x), JList(y));
    assert x[0] == y[0] && x[1] == y[1] && x[2] == y[2] && x[3] == y[3] && x[4] == y[4] && x[5] == y[5] && x[6] == y[6];
  }

  function Create(h: Hasher, hashChain: bool, body: Body): Event {
    Event(body, if hashChain then Some(h(body)) else None)
  }

  predicate HasHash(e: Event) {
    e.hash.Some? && e.hash.value != ""
  }

  // ----- Three ways to find the tail of a chain -----

  /** The hash on the newest row of the chain, as the SQL stores read it. */
  function NewestTail(log: seq<Event>, c: string): Option<string> {
    if log == [] then None
    else
      var e := log[|log| - 1];
      if e.body.correlationId == c then e.hash else NewestTail(log[..|log| - 1], c)
  }

  /** The last non-empty hash met for the chain, as the JSONL store scans for it. */
  function ScannedTail(log: seq<Event>, c: string): Option<string> {
    if log == [] then None
    else
      var e := log[|log| - 1];
      if e.body.correlationId == c && HasHash(e) then e.hash else ScannedTail(log[..|log| - 1], c)
  }

  /** The tails the in-memory store keeps as it appends. */
  function CacheOf(log: seq<Event>): map<string, string> {
    if log == [] then map[]
    else
      var e, cache := log[|log| - 1], CacheOf(log[..|log| - 1]);
      if HasHash(e) then cache[e.body.correlationId := e.hash.value] else cache
  }

  function Get(tails: map<string, string>, c: string): Option<string> {
    if c in tails then Some(tails[c]) else None
  }

  // ----- Verification -----

  predicate Links(h: Hasher, hashChain: bool, log: seq<Event>, e: Event) {
    && e.body.prevHash == NewestTail(log, e.body.correlationId)
    && e.hash == if hashChain then Some(h(e.body)) else None
  }

  predicate Verifies(h: Hasher, hashChain: bool, log: seq<Event>) {
    log == []
    || (Verifies(h, hashChain, log[..|log| - 1]) && Links(h, hashChain, log[..|log| - 1], log[|log| - 1]))
  }

  /** The events of one correlation id, in order. */
  function Chain(log: seq<Event>, c: string): seq<Event> {
    if log == [] then []
    else
      var e, chain := log[|log| - 1], Chain(log[..|log| - 1], c);
      if e.body.correlationId == c then chain + [e] else chain
  }

  lemma Snoc(log: seq<Event>, e: Event)
    ensures (log + [e])[..|log + [e]| - 1] == log && (log + [e])[|log + [e]| - 1] == e
  {
  }

  lemma VerifiesPrefix(h: Hasher, hashChain: bool, log: seq<Event>, n: nat)
    requires n <= |log| && Verifies(h, hashChain, log)
    ensures Verifies(h, hashChain, log[..n])
  {
    if n < |log| {
      VerifiesPrefix(h, hashChain, log[..|log| - 1], n);
      assert log[..|log| - 1][..n] == log[..n];
    } else {
      assert log[..n] == log;
    }
  }

  // ----- The three tails agree -----

  lemma {:induction false} CacheIsScan(log: seq<Event>, c: string)
    ensures Get(CacheOf(log), c) == ScannedTail(log, c)
  {
    if log != [] {
      CacheIsScan(log[..|log| - 1], c);
    }
  }

  lemma {:induction false} NewestIsScan(h: Hasher, hashChain: bool, log: seq<Event>, c: string)
    requires Verifies(h, hashChain, log) && forall b :: h(b) != ""
    ensures NewestTail(log, c) == ScannedTail(log, c)
    ensures !hashChain ==> NewestTail(log, c) == None
  {
    if log != [] {
      NewestIsScan(h, hashChain, log[..|log| - 1], c);
    }
  }

  /** On a log that verifies, the cache, the scan and the newest row give the same tail. */
  lemma TailsAgree(h: Hasher, hashChain: bool, log: seq<Event>, c: string)
    requires CollisionFree(h) && Verifies(h, hashChain, log)
    ensures Get(CacheOf(log), c) == ScannedTail(log, c) == NewestTail(log, c)
  {
    CacheIsScan(log, c);
    NewestIsScan(h, hashChain, log, c);
  }

  // ----- Chains are independent -----

  lemma {:induction false} ChainIsOwn(log: seq<Event>, c: string)
    ensures forall i :: 0 <= i < |Chain(log, c)| ==> Chain(log, c)[i].body.correlationId == c
  {
    if log != [] {
      ChainIsOwn(log[..|log| - 1], c);
    }
  }

  lemma {:induction false} ChainKeepsTail(log: seq<Event>, c: string)
    ensures NewestTail(Chain(log, c), c) == NewestTail(log, c)
  {
    if log != [] {
      var init := log[..|log| - 1];
      ChainKeepsTail(init, c);
      if log[|log| - 1].body.correlationId == c {
        Snoc(Chain(init, c), log[|log| - 1]);
      }
    }
  }

  lemma ChainStep(h: Hasher, hashChain: bool, log: seq<Event>)
    requires log != []
    ensures var init, e := log[..|log| - 1], log[|log| - 1]; var c := e.body.correlationId;
            Verifies(h, hashChain, Chain(log, c)) <==>
            Verifies(h, hashChain, Chain(init, c)) && Links(h, hashChain, init, e)
  {
    var init, e := log[..|log| - 1], log[|log| - 1];
    var c := e.body.correlationId;
    Snoc(Chain(init, c), e);
    ChainKeepsTail(init, c);
  }

  lemma {:induction false} ChainVerifies(h: Hasher, hashChain: bool, log: seq<Event>, c: string)
    requires Verifies(h, hashChain, log)
    ensures Verifies(h, hashChain, Chain(log, c))
  {
    if log != [] {
      ChainVerifies(h, hashChain, log[..|log| - 1], c);
      ChainStep(h, hashChain, log);
    }
  }

  ghost predicate EveryChainVerifies(h: Hasher, hashChain: bool, log: seq<Event>) {
    forall c :: Verifies(h, hashChain, Chain(log, c))
  }

  lemma {:induction false} ChainsSuffice(h: Hasher, hashChain: bool, log: seq<Event>)
    requires EveryChainVerifies(h, hashChain, log)
    ensures Verifies(h, hashChain, log)
  {
    if log != [] {
      var init, e := log[..|log| - 1], log[|log| - 1];
      ChainStep(h, hashChain, log);
      assert Verifies(h, hashChain, Chain(log, e.body.correlationId));
      forall c
        ensures Verifies(h, hashChain, Chain(init, c))
      {
        assert Verifies(h, hashChain, Chain(log, c));
      }
      ChainsSuffice(h, hashChain, init);
    }
  }

  /** The interleaved log verifies exactly when each of its chains does. */
  lemma ChainsAreIndependent(h: Hasher, hashChain: bool, log: seq<Event>)
    ensures Verifies(h, hashChain, log) <==> EveryChainVerifies(h, hashChain, log)
  {
    if Verifies(h, hashChain, log) {
      forall c
        ensures Verifies(h, hashChain, Chain(log, c))
      {
        ChainVerifies(h, hashChain, log, c);
      }
    }
    if EveryChainVerifies(h, hashChain, log) {
      ChainsSuffice(h, hashChain, log);
    }
  }

  // ----- Tamper evidence -----

  lemma {:induction false} ChainIsItsTail(h: Hasher, x: seq<Event>, y: seq<Event>, c: string)
    requires CollisionFree(h) && Verifies(h, true, x) && Verifies(h, true, y)
    requires forall i :: 0 <= i < |x| ==> x[i].body.correlationId == c
    requires forall i :: 0 <= i < |y| ==> y[i].body.correlationId == c
    requires NewestTail(x, c) == NewestTail(y, c)
    ensures x == y
    decreases |x|
  {
    if x != [] && y != [] {
      var e, f := x[|x| - 1], y[|y| - 1];
      assert e.body == f.body;
      ChainIsItsTail(h, x[..|x| - 1], y[..|y| - 1], c);
      assert x == x[..|x| - 1] + [e] && y == y[..|y| - 1] + [f];
    }
  }

  /**
   Two logs that verify and end a chain in the same hash hold the same events of that chain: any
   edit, insertion, deletion, reorder or truncation that still verifies changes the tail.
   */
  lemma TamperEvidence(h: Hasher, a: seq<Event>, b: seq<Event>, c: string)
    requires CollisionFree(h) && Verifies(h, true, a) && Verifies(h, true, b)
    ensures NewestTail(a, c) == NewestTail(b, c) <==> Chain(a, c) == Chain(b, c)
  {
    ChainKeepsTail(a, c);
    ChainKeepsTail(b, c);
    ChainIsOwn(a, c);
    ChainIsOwn(b, c);
    ChainVerifies(h, true, a, c);
    ChainVerifies(h, true, b, c);
    if NewestTail(a, c) == NewestTail(b, c) {
      ChainIsItsTail(h, Chain(a, c), Chain(b, c), c);
    }
  }

  lemma {:induction false} ChainGrows(log: seq<Event>, n: nat, c: string)
    requires n <= |log|
    ensures |Chain(log[..n], c)| <= |Chain(log, c)|
    ensures n < |log| && log[n].body.correlationId == c ==> |Chain(log[..n], c)| < |Chain(log, c)|
    decreases |log|
  {
    if n < |log| {
      var init := log[..|log| - 1];
      assert init[..n] == log[..n];
      ChainGrows(init, n, c);
    } else {
      assert log[..n] == log;
    }
  }

  lemma {:induction false} LinkAt(h: Hasher, hashChain: bool, log: seq<Event>, i: nat)
    requires Verifies(h, hashChain, log) && i < |log|
    ensures Links(h, hashChain, log[..i], log[i])
    decreases |log|
  {
    if i < |log| - 1 {
      LinkAt(h, hashChain, log[..|log| - 1], i);
      assert log[..|log| - 1][..i] == log[..i];
    }
  }

  /** A log that verifies never forks: no two of its events follow the same predecessor, and no hash recurs. */
  lemma NoFork(h: Hasher, log: seq<Event>, i: nat, j: nat)
    requires CollisionFree(h) && Verifies(h, true, log) && i < j < |log|
    requires log[i].body.correlationId == log[j].body.correlationId
    ensures log[i].body.prevHash != log[j].body.prevHash
    ensures log[i].hash != log[j].hash
  {
    var c := log[i].body.correlationId;
    LinkAt(h, true, log, i);
    LinkAt(h, true, log, j);
    VerifiesPrefix(h, true, log, i);
    VerifiesPrefix(h, true, log, j);
    TamperEvidence(h, log[..i], log[..j], c);
    assert log[..j][..i] == log[..i];
    ChainGrows(log[..j], i, c);
  }

  // ----- Racing writers -----

  /** What a writer supplies; the store adds the predecessor's hash. */
  datatype Draft = Draft(eventId: string, correlationId: string, runId: string, tsEpochMs: int,
                         eventType: string, payload: string)

  function WithPrevious(d: Draft, prev: Option<string>): Body {
    Body(d.eventId, d.correlationId, d.runId, d.tsEpochMs, d.eventType, d.payload, prev)
  }

  /** The event says what its writer supplied, field by field. */
  predicate Carries(e: Event, d: Draft) {
    && e.body.eventId == d.eventId && e.body.correlationId == d.correlationId && e.body.runId == d.runId
    && e.body.tsEpochMs == d.tsEpochMs && e.body.eventType == d.eventType && e.body.payload == d.payload
  }

  /** The store's compare-and-append: an event is taken only if it follows the current tail. */
  predicate IsCurrent(log: seq<Event>, e: Event) {
    e.body.prevHash == ScannedTail(log, e.body.correlationId)
  }

  /** A store shared by writers; `built` holds events created on a tail read earlier and not yet appended. */
  datatype Shared = Shared(log: seq<Event>, built: map<nat, Event>)

  datatype Step =
    | RecordEvent(draft: Draft)
    | ReadAndBuild(writer: nat, draft: Draft)
    | AppendBuilt(writer: nat)

  function BuildOn(h: Hasher, log: seq<Event>, d: Draft): Event {
    Create(h, true, WithPrevious(d, ScannedTail(log, d.correlationId)))
  }

  function Next(h: Hasher, s: Shared, step: Step): Shared {
    match step
    case RecordEvent(d) => s.(log := s.log + [BuildOn(h, s.log, d)])
    case ReadAndBuild(w, d) => s.(built := s.built[w := BuildOn(h, s.log, d)])
    case AppendBuilt(w) =>
      if w !in s.built then s
      else
        Shared(if IsCurrent(s.log, s.built[w]) then s.log + [s.built[w]] else s.log, s.built - {w})
  }

  function Run(h: Hasher, s: Shared, steps: seq<Step>): Shared {
    if steps == [] then s else Next(h, Run(h, s, steps[..|steps| - 1]), steps[|steps| - 1])
  }

  const EMPTY := Shared([], map[])

  ghost predicate RaceInvariant(h: Hasher, s: Shared) {
    && Verifies(h, true, s.log)
    && forall w :: w in s.built ==> s.built[w].hash == Some(h(s.built[w].body))
  }

  lemma AppendVerifies(h: Hasher, log: seq<Event>, e: Event)
    requires CollisionFree(h) && Verifies(h, true, log)
    requires IsCurrent(log, e) && e.hash == Some(h(e.body))
    ensures Verifies(h, true, log + [e])
  {
    TailsAgree(h, true, log, e.body.correlationId);
    Snoc(log, e);
  }

  lemma NextKeepsInvariant(h: Hasher, s: Shared, step: Step)
    requires CollisionFree(h) && RaceInvariant(h, s)
    ensures RaceInvariant(h, Next(h, s, step))
  {
    match step
    case RecordEvent(d) => AppendVerifies(h, s.log, BuildOn(h, s.log, d));
    case ReadAndBuild(w, d) =>
    case AppendBuilt(w) =>
      if w in s.built && IsCurrent(s.log, s.built[w]) {
        AppendVerifies(h, s.log, s.built[w]);
      }
  }

  lemma {:induction false} RunKeepsInvariant(h: Hasher, steps: seq<Step>)
    requires CollisionFree(h)
    ensures RaceInvariant(h, Run(h, EMPTY, steps))
  {
    if steps != [] {
      RunKeepsInvariant(h, steps[..|steps| - 1]);
      NextKeepsInvariant(h, Run(h, EMPTY, steps[..|steps| - 1]), steps[|steps| - 1]);
    }
  }

  predicate SameLink(a: Event, b: Event) {
    a.body.correlationId == b.body.correlationId && a.body.prevHash == b.body.prevHash
  }

  /**
   However atomic and split writers interleave, the log verifies, and of all events built on one
   tail at most one is ever in it.
   */
  lemma RacingWritersNeverFork(h: Hasher, steps: seq<Step>)
    requires CollisionFree(h)
    ensures var log := Run(h, EMPTY, steps).log;
            && Verifies(h, true, log)
            && forall i, j :: 0 <= i < |log| && 0 <= j < |log| && SameLink(log[i], log[j]) ==> i == j
  {
    RunKeepsInvariant(h, steps);
    var log := Run(h, EMPTY, steps).log;
    forall i, j | 0 <= i < j < |log| && log[i].body.correlationId == log[j].body.correlationId
      ensures log[i].body.prevHash != log[j].body.prevHash
    {
      NoFork(h, log, i, j);
    }
  }

  /** A split writer's append succeeds exactly when nobody has extended its chain since it read the tail. */
  lemma AppendSucceedsIffChainUnchanged(h: Hasher, before: seq<Step>, since: seq<Step>, d: Draft)
    requires CollisionFree(h)
    ensures var read, now := Run(h, EMPTY, before).log, Run(h, EMPTY, before + since).log;
            IsCurrent(now, BuildOn(h, read, d)) <==> Chain(now, d.correlationId) == Chain(read, d.correlationId)
  {
    var read, now := Run(h, EMPTY, before).log, Run(h, EMPTY, before + since).log;
    RunKeepsInvariant(h, before);
    RunKeepsInvariant(h, before + since);
    TailsAgree(h, true, read, d.correlationId);
    TailsAgree(h, true, now, d.correlationId);
    TamperEvidence(h, read, now, d.correlationId);
  }

  /**
   Every write arrives once: a whole one always, a split one if its chain is as it was read; each
   follows its chain.
   */
  lemma WritesArrive(h: Hasher, steps: seq<Step>, step: Step)
    requires CollisionFree(h)
    ensures var s, s' := Run(h, EMPTY, steps), Next(h, Run(h, EMPTY, steps), step);
            && (step.RecordEvent? ==>
                  exists e :: s'.log == s.log + [e] && Carries(e, step.draft) && Links(h, true, s.log, e))
            && (step.ReadAndBuild? ==>
                  s'.log == s.log && step.writer in s'.built && Carries(s'.built[step.writer], step.draft)
                  && Links(h, true, s.log, s'.built[step.writer]))
            && (step.AppendBuilt? ==>
                  step.writer !in s'.built
                  && s'.log == if step.writer in s.built && Links(h, true, s.log, s.built[step.writer])
                               then s.log + [s.built[step.writer]] else s.log)
  {
    var s := Run(h, EMPTY, steps);
    RunKeepsInvariant(h, steps);
    match step
    case RecordEvent(d) =>
      TailsAgree(h, true, s.log, d.correlationId);
      var e := BuildOn(h, s.log, d);
      assert Next(h, s, step).log == s.log + [e] && Carries(e, d) && Links(h, true, s.log, e);
    case ReadAndBuild(_, d) => TailsAgree(h, true, s.log, d.correlationId);
    case AppendBuilt(w) =>
      if w in s.built {
        TailsAgree(h, true, s.log, s.built[w].body.correlationId);
      }
  }

  // ----- The in-memory store -----

  datatype AuditError =
    | StalePredecessor
    | InvalidPrevHash(index: nat)
    | InvalidHash(index: nat)
    | UnexpectedHash(index: nat)

  class InMemoryAuditStore {
    const hasher: Hasher
    const hashChain: bool
    var events: seq<Event>
    var lastHashCache: map<string, string>

    ghost predicate Valid()
      reads this
    {
      lastHashCache == CacheOf(events)
    }

    constructor (hasher: Hasher, hashChain: bool)
      ensures Valid() && events == [] && this.hasher == hasher && this.hashChain == hashChain
    {
      this.hasher, this.hashChain := hasher, hashChain;
      events, lastHashCache := [], map[];
    }

    method Push(event: Event)
      requires Valid()
      modifies this
      ensures Valid() && events == old(events) + [event]
    {
      Snoc(events, event);
      events := events + [event];
      if event.hash.Some? && event.hash.value != "" {
        lastHashCache := lastHashCache[event.body.correlationId := event.hash.value];
      }
    }

    method RecordDraft(draft: Draft) returns (event: Event)
      requires Valid()
      modifies this
      ensures Valid() && events == old(events) + [event]
      ensures Carries(event, draft) && event.body.prevHash == old(ScannedTail(events, draft.correlationId))
      ensures event.hash == if hashChain then Some(hasher(event.body)) else None
    {
      CacheIsScan(events, draft.correlationId);
      event := Create(hasher, hashChain, WithPrevious(draft, Get(lastHashCache, draft.correlationId)));
      Push(event);
    }

    method Append(event: Event) returns (r: Result<(), AuditError>)
      requires Valid()
      modifies this
      ensures Valid()
      ensures r == if old(IsCurrent(events, event)) then Ok(()) else Err(StalePredecessor)
      ensures events == if r.Ok? then old(events) + [event] else old(events)
    {
      CacheIsScan(events, event.body.correlationId);
      if event.body.prevHash != Get(lastHashCache, event.body.correlationId) {
        return Err(StalePredecessor);
      }
      Push(event);
      return Ok(());
    }

    method LastHash(correlationId: string) returns (tail: Option<string>)
      requires Valid()
      ensures tail == ScannedTail(events, correlationId)
    {
      CacheIsScan(events, correlationId);
      tail := Get(lastHashCache, correlationId);
    }

    method Verify() returns (r: Result<nat, AuditError>)
      ensures Verifies(hasher, hashChain, events) ==> r == Ok(|events|)
      ensures !Verifies(hasher, hashChain, events) ==>
                && r.Err? && !r.error.StalePredecessor? && 1 <= r.error.index <= |events|
                && Verifies(hasher, hashChain, events[..r.error.index - 1])
                && !Links(hasher, hashChain, events[..r.error.index - 1], events[r.error.index - 1])
                && IsFault(r.error, hashChain, events[..r.error.index - 1], events[r.error.index - 1])
    {
      r := VerifyEvents(hasher, hashChain, events);
    }
  }

  lemma FirstBadLink(h: Hasher, hashChain: bool, log: seq<Event>, i: nat)
    requires i < |log| && !Links(h, hashChain, log[..i], log[i])
    ensures !Verifies(h, hashChain, log)
  {
    if Verifies(h, hashChain, log) {
      LinkAt(h, hashChain, log, i);
    }
  }

  /** The tails that the loop keeps are those of the part it has read. */
  ghost predicate Tracks(tails: map<string, string>, log: seq<Event>) {
    forall c :: Get(tails, c) == NewestTail(log, c)
  }

  /** What is wrong with an event: first its predecessor, then the hash that is false or should not be there. */
  ghost predicate IsFault(error: AuditError, hashChain: bool, before: seq<Event>, e: Event) {
    && (error.InvalidPrevHash? <==> e.body.prevHash != NewestTail(before, e.body.correlationId))
    && (error.InvalidHash? <==> !error.InvalidPrevHash? && hashChain)
    && (error.UnexpectedHash? <==> !error.InvalidPrevHash? && !hashChain)
  }

  /** One turn of the verification loop; `before` is the part already read. */
  method VerifyOne(h: Hasher, hashChain: bool, ghost before: seq<Event>, e: Event, tails: map<string, string>,
        index: nat)
    returns (bad: Option<AuditError>, tails': map<string, string>)
    requires Tracks(tails, before) && (!hashChain ==> tails == map[])
    ensures bad.None? <==> Links(h, hashChain, before, e)
    ensures bad.Some? ==> IsFault(bad.value, hashChain, before, e) && bad.value.index == index
    ensures bad.None? ==> Tracks(tails', before + [e]) && (!hashChain ==> tails' == map[])
  {
    Snoc(before, e);
    var c := e.body.correlationId;
    bad, tails' := None, tails;
    if e.body.prevHash != Get(tails, c) {
      return Some(InvalidPrevHash(index)), tails;
    }
    if hashChain {
      if e.hash != Some(h(e.body)) {
        return Some(InvalidHash(index)), tails;
      }
      tails' := tails[c := e.hash.value];
    } else if e.hash.Some? {
      return Some(UnexpectedHash(index)), tails;
    }
  }

  /** The verification loop: one pass, one tail per correlation id. The index in an error counts from 1. */
  method VerifyEvents(h: Hasher, hashChain: bool, log: seq<Event>) returns (r: Result<nat, AuditError>)
    ensures Verifies(h, hashChain, log) ==> r == Ok(|log|)
    ensures !Verifies(h, hashChain, log) ==>
              && r.Err? && !r.error.StalePredecessor? && 1 <= r.error.index <= |log|
              && Verifies(h, hashChain, log[..r.error.index - 1])
              && !Links(h, hashChain, log[..r.error.index - 1], log[r.error.index - 1])
              && IsFault(r.error, hashChain, log[..r.error.index - 1], log[r.error.index - 1])
  {
    var tails: map<string, string> := map[];
    for i := 0 to |log|
      invariant Verifies(h, hashChain, log[..i])
      invariant Tracks(tails, log[..i]) && (!hashChain ==> tails == map[])
    {
      var bad;
      bad, tails := VerifyOne(h, hashChain, log[..i], log[i], tails, i + 1);
      if bad.Some? {
        FirstBadLink(h, hashChain, log, i);
        return Err(bad.value);
      }
      assert log[..i + 1] == log[..i] + [log[i]];
      Snoc(log[..i], log[i]);
    }
    assert log[..|log|] == log;
    return Ok(|log|);
  }

  /** The JSONL store's scan for the last hash of a chain. */
  method LastHashFromEvents(log: seq<Event>, c: string) returns (last: Option<string>)
    ensures last == ScannedTail(log, c)
  {
    last := None;
    for i := 0 to |log|
      invariant last == ScannedTail(log[..i], c)
    {
      assert log[..i + 1][..i] == log[..i];
      if log[i].body.correlationId == c && HasHash(log[i]) {
        last := log[i].hash;
      }
    }
    assert log[..|log|] == log;
  }
}
