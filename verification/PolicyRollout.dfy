/**
 The policy control plane: stored bundles, the active version of each slot and its canary rollout.
 Activating and starting a rollout read first and write later, so calls interleave between the two.
 */
module PolicyRollout {
  import opened Outcomes

  /** One policy of one organization in one environment. */
  datatype Slot = Slot(org: string, name: string, environment: string)

  datatype BundleKey = BundleKey(slot: Slot, version: string)

  datatype Bundle = Bundle(payload: string, digest: string, signature: string, keyId: string)

  datatype Active = Active(version: string, revision: int)

  datatype Rollout = Rollout(primary: string, candidate: string, percentage: int, seed: string, revision: int)

  datatype Store = Store(bundles: map<BundleKey, Bundle>, active: map<Slot, Active>, rollouts: map<Slot, Rollout>)

  const EMPTY := Store(map[], map[], map[])

  function Save(s: Store, key: BundleKey, bundle: Bundle): Store {
    if key in s.bundles then s else s.(bundles := s.bundles[key := bundle])
  }

  predicate Stored(s: Store, slot: Slot, version: string) { BundleKey(slot, version) in s.bundles }

  // ----- Write halves -----

  /** Without an expected revision the row is upserted; with one it has to match. */
  predicate MayActivate(s: Store, slot: Slot, expected: Option<int>) {
    expected.Some? ==> slot in s.active && s.active[slot].revision == expected.value
  }

  function RevisionAfter(s: Store, slot: Slot): int {
    if slot in s.active then s.active[slot].revision + 1 else 1
  }

  function Activate(s: Store, slot: Slot, version: string, expected: Option<int>): Store {
    if MayActivate(s, slot, expected) then
      s.(active := s.active[slot := Active(version, RevisionAfter(s, slot))], rollouts := s.rollouts - {slot})
    else s
  }

  /** What a rollout call has settled on before it writes. */
  datatype Plan = Plan(primary: string, candidate: string, percentage: int, seed: string)

  predicate MayStart(s: Store, slot: Slot, expected: Option<int>) {
    expected.Some? ==> slot in s.rollouts && s.rollouts[slot].revision == expected.value
  }

  function Start(s: Store, slot: Slot, p: Plan, expected: Option<int>): Store {
    if MayStart(s, slot, expected) then
      var revision := if slot in s.rollouts then s.rollouts[slot].revision + 1 else 1;
      s.(rollouts := s.rollouts[slot := Rollout(p.primary, p.candidate, p.percentage, p.seed, revision)])
    else s
  }

  function Cancel(s: Store, slot: Slot): Store { s.(rollouts := s.rollouts - {slot}) }

  // ----- Read halves -----

  /** The default seed depends on the slot and the candidate only; buckets are below 100. */
  datatype Hashing = Hashing(defaultSeed: (Slot, string) -> string, hash: (string, Slot, string) -> nat)

  function Bucket(h: Hashing, seed: string, slot: Slot, agent: string): nat { h.hash(seed, slot, agent) % 100 }

  predicate MayPlan(s: Store, slot: Slot, candidate: string, percentage: int) {
    && 1 <= percentage <= 99 && slot in s.active && Stored(s, slot, s.active[slot].version)
    && Stored(s, slot, candidate) && s.active[slot].version != candidate
  }

  function PlanOf(h: Hashing, s: Store, slot: Slot, candidate: string, percentage: int, seed: string): Plan
    requires slot in s.active
  {
    Plan(s.active[slot].version, candidate, percentage, if seed == "" then h.defaultSeed(slot, candidate) else seed)
  }

  /** The second read of a resolution: the rollout decides, and without one the primary that was read first. */
  function Pick(h: Hashing, s: Store, slot: Slot, agent: string, primary: string): string {
    if slot !in s.rollouts then primary
    else
      var r := s.rollouts[slot];
      if Bucket(h, r.seed, slot, agent) < r.percentage then r.candidate else r.primary
  }

  /** The version that an agent is given when both reads see one state. */
  function Resolve(h: Hashing, s: Store, slot: Slot, agent: string): Option<string> {
    if slot !in s.active then None else Some(Pick(h, s, slot, agent, s.active[slot].version))
  }

  // ----- Interleaved calls -----

  datatype Pending =
    | Activating(slot: Slot, version: string, expected: Option<int>)
    | Starting(slot: Slot, plan: Plan, expected: Option<int>)

  /** A successful activation: what revision it expected and what it made. */
  datatype Activation = Activation(slot: Slot, expected: Option<int>, revision: int)

  datatype World = World(store: Store, pending: map<nat, Pending>, log: seq<Activation>)

  datatype Step =
    | Publish(key: BundleKey, bundle: Bundle)
    | ReadToActivate(call: nat, slot: Slot, version: string, expected: Option<int>)
    | ReadToStart(call: nat, slot: Slot, candidate: string, percentage: int, seed: string, expected: Option<int>)
    | Commit(call: nat)
    | Drop(slot: Slot)

  function CommitOf(w: World, call: nat): World
    requires call in w.pending
  {
    var rest := w.pending - {call};
    match w.pending[call]
    case Activating(slot, version, expected) =>
      World(Activate(w.store, slot, version, expected), rest,
            if MayActivate(w.store, slot, expected)
                then w.log + [Activation(slot, expected, RevisionAfter(w.store, slot))] else w.log)
    case Starting(slot, plan, expected) => w.(store := Start(w.store, slot, plan, expected), pending := rest)
  }

  function Next(h: Hashing, w: World, step: Step): World {
    match step
    case Publish(key, bundle) => w.(store := Save(w.store, key, bundle))
    case Drop(slot) => w.(store := Cancel(w.store, slot))
    case ReadToActivate(call, slot, version, expected) =>
      if call in w.pending || !Stored(w.store, slot, version) then w
      else w.(pending := w.pending[call := Activating(slot, version, expected)])
    case ReadToStart(call, slot, candidate, percentage, seed, expected) =>
      if call in w.pending || !MayPlan(w.store, slot, candidate, percentage) then w
      else w.(pending := w.pending[call := Starting(slot, PlanOf(h, w.store, slot, candidate, percentage, seed),
          expected)])
    case Commit(call) => if call in w.pending then CommitOf(w, call) else w
  }

  function Run(h: Hashing, steps: seq<Step>): World {
    if steps == [] then World(EMPTY, map[], []) else Next(h, Run(h, steps[..|steps| - 1]), steps[|steps| - 1])
  }

  // ----- Versions always name stored bundles -----

  ghost predicate ActiveStored(s: Store) {
    forall slot :: slot in s.active ==> Stored(s, slot, s.active[slot].version)
  }

  predicate PlanOk(s: Store, slot: Slot, primary: string, candidate: string, percentage: int) {
    Stored(s, slot, primary) && Stored(s, slot, candidate) && primary != candidate && 1 <= percentage <= 99
        && slot in s.active
  }

  ghost predicate RolloutsStored(s: Store) {
    forall slot :: slot in s.rollouts ==>
      PlanOk(s, slot, s.rollouts[slot].primary, s.rollouts[slot].candidate, s.rollouts[slot].percentage)
  }

  predicate PendingOk(s: Store, p: Pending) {
    match p
    case Activating(slot, version, _) => Stored(s, slot, version)
    case Starting(slot, plan, _) => PlanOk(s, slot, plan.primary, plan.candidate, plan.percentage)
  }

  ghost predicate References(w: World) {
    ActiveStored(w.store) && RolloutsStored(w.store) && forall call :: call in w.pending ==>
        PendingOk(w.store, w.pending[call])
  }

  lemma ActivateKeepsReferences(w: World, call: nat)
    requires References(w) && call in w.pending && w.pending[call].Activating?
    ensures References(CommitOf(w, call))
  {
    var w' := CommitOf(w, call);
    assert PendingOk(w.store, w.pending[call]);
    assert w'.store.bundles == w.store.bundles && w.store.active.Keys <= w'.store.active.Keys;
    forall other | other in w'.pending
      ensures PendingOk(w'.store, w'.pending[other])
    {
      assert PendingOk(w.store, w.pending[other]);
    }
  }

  lemma StartKeepsReferences(w: World, call: nat)
    requires References(w) && call in w.pending && w.pending[call].Starting?
    ensures References(CommitOf(w, call))
  {
    var w' := CommitOf(w, call);
    assert PendingOk(w.store, w.pending[call]);
    forall other | other in w'.pending
      ensures PendingOk(w'.store, w'.pending[other])
    {
      assert PendingOk(w.store, w.pending[other]);
    }
  }

  lemma PublishKeepsReferences(w: World, key: BundleKey, bundle: Bundle)
    requires References(w)
    ensures References(w.(store := Save(w.store, key, bundle)))
  {
    var w' := w.(store := Save(w.store, key, bundle));
    forall other | other in w'.pending
      ensures PendingOk(w'.store, w'.pending[other])
    {
      assert PendingOk(w.store, w.pending[other]);
    }
  }

  lemma NextKeepsReferences(h: Hashing, w: World, step: Step)
    requires References(w)
    ensures References(Next(h, w, step))
  {
    match step
    case Publish(key, bundle) => PublishKeepsReferences(w, key, bundle);
    case Commit(call) =>
      if call in w.pending {
        if w.pending[call].Activating? {
          ActivateKeepsReferences(w, call);
        } else {
          StartKeepsReferences(w, call);
        }
      }
    case _ =>
      var w' := Next(h, w, step);
      forall other | other in w'.pending
        ensures PendingOk(w'.store, w'.pending[other])
      {
        assert other in w.pending ==> PendingOk(w.store, w.pending[other]);
      }
  }

  /** However calls interleave, every active, primary and candidate version names a stored bundle. */
  lemma {:induction false} ReferentialIntegrity(h: Hashing, steps: seq<Step>)
    ensures References(Run(h, steps))
  {
    if steps != [] {
      ReferentialIntegrity(h, steps[..|steps| - 1]);
      NextKeepsReferences(h, Run(h, steps[..|steps| - 1]), steps[|steps| - 1]);
    }
  }

  lemma NextKeepsBundle(h: Hashing, w: World, step: Step, key: BundleKey)
    requires key in w.store.bundles
    ensures key in Next(h, w, step).store.bundles && Next(h, w, step).store.bundles[key] == w.store.bundles[key]
  {
  }

  /** A stored bundle is never changed or removed. */
  lemma {:induction false} BundlesAreImmutable(h: Hashing, steps: seq<Step>, n: nat, key: BundleKey)
    requires n <= |steps| && key in Run(h, steps[..n]).store.bundles
    ensures key in Run(h, steps).store.bundles
            && Run(h, steps).store.bundles[key] == Run(h, steps[..n]).store.bundles[key]
  {
    if n < |steps| {
      var init := steps[..|steps| - 1];
      assert init[..n] == steps[..n];
      BundlesAreImmutable(h, init, n, key);
      NextKeepsBundle(h, Run(h, init), steps[|steps| - 1], key);
    } else {
      assert steps[..n] == steps;
    }
  }

  // ----- Activations are compared and set -----

  ghost predicate LogOk(s: Store, log: seq<Activation>) {
    && (forall i :: 0 <= i < |log| ==> log[i].slot in s.active && log[i].revision <= s.active[log[i].slot].revision)
    && (forall i :: 0 <= i < |log| && log[i].expected.Some? ==> log[i].revision == log[i].expected.value + 1)
    && (forall i, j :: 0 <= i < j < |log| && log[i].slot == log[j].slot ==> log[i].revision < log[j].revision)
  }

  lemma CommitKeepsLog(w: World, call: nat)
    requires LogOk(w.store, w.log) && call in w.pending
    ensures LogOk(CommitOf(w, call).store, CommitOf(w, call).log)
  {
    var w' := CommitOf(w, call);
    if w'.log != w.log {
      assert forall i :: 0 <= i < |w.log| ==> w'.log[i] == w.log[i];
    }
  }

  lemma {:induction false} RunKeepsLog(h: Hashing, steps: seq<Step>)
    ensures LogOk(Run(h, steps).store, Run(h, steps).log)
  {
    if steps != [] {
      var w, step := Run(h, steps[..|steps| - 1]), steps[|steps| - 1];
      RunKeepsLog(h, steps[..|steps| - 1]);
      if step.Commit? && step.call in w.pending {
        CommitKeepsLog(w, step.call);
      }
    }
  }

  /** Two activations that present the same expected revision of a slot cannot both succeed. */
  lemma ExpectedRevisionWinsOnce(h: Hashing, steps: seq<Step>, i: nat, j: nat)
    requires var log := Run(h, steps).log;
             && i < |log| && j < |log| && log[i].slot == log[j].slot
             && log[i].expected.Some? && log[i].expected == log[j].expected
    ensures i == j
  {
    RunKeepsLog(h, steps);
  }

  // ----- Is the primary of a rollout the active version? -----

  ghost predicate InStep(s: Store) {
    forall slot :: slot in s.rollouts ==>
      slot in s.active && s.rollouts[slot].primary == s.active[slot].version
          && s.rollouts[slot].candidate != s.active[slot].version
  }

  /** A start that writes what it read although another version has become active since. */
  predicate Stale(w: World, call: nat) {
    && call in w.pending && w.pending[call].Starting?
        && MayStart(w.store, w.pending[call].slot, w.pending[call].expected)
    && !(w.pending[call].slot in w.store.active
        && w.store.active[w.pending[call].slot].version == w.pending[call].plan.primary)
  }

  /** A step breaks the agreement exactly when it is the write of a stale start. */
  lemma InStepIff(h: Hashing, w: World, step: Step)
    requires References(w) && InStep(w.store)
    ensures InStep(Next(h, w, step).store) <==> !(step.Commit? && Stale(w, step.call))
  {
    var s' := Next(h, w, step).store;
    if step.Commit? && step.call in w.pending {
      var p := w.pending[step.call];
      assert PendingOk(w.store, p);
      if p.Starting? && MayStart(w.store, p.slot, p.expected) {
        assert p.slot in s'.rollouts && s'.rollouts[p.slot].primary == p.plan.primary;
        if !Stale(w, step.call) {
          CommitInStep(w, step.call);
        }
      }
    }
  }

  lemma CommitInStep(w: World, call: nat)
    requires InStep(w.store) && call in w.pending && w.pending[call].Starting? && PendingOk(w.store, w.pending[call])
             && !Stale(w, call)
    ensures InStep(CommitOf(w, call).store)
  {
  }

  /** No start in the run is stale when it writes; a run of whole calls, one after another, is such a run. */
  ghost predicate NeverStale(h: Hashing, steps: seq<Step>) {
    forall n :: 0 <= n < |steps| && steps[n].Commit? ==> !Stale(Run(h, steps[..n]), steps[n].call)
  }

  lemma {:induction false} FreshRunsStayInStep(h: Hashing, steps: seq<Step>)
    requires NeverStale(h, steps)
    ensures InStep(Run(h, steps).store)
  {
    if steps != [] {
      var init := steps[..|steps| - 1];
      assert forall n :: 0 <= n < |init| ==> init[..n] == steps[..n] && init[n] == steps[n];
      FreshRunsStayInStep(h, init);
      ReferentialIntegrity(h, init);
      InStepIff(h, Run(h, init), steps[|steps| - 1]);
    }
  }

  /** Calls that are not interrupted: every read is followed at once by its write. */
  predicate Serialized(steps: seq<Step>) {
    forall n :: 0 <= n < |steps| && steps[n].Commit? ==>
      n > 0 && (steps[n - 1].ReadToActivate? || steps[n - 1].ReadToStart?) && steps[n - 1].call == steps[n].call
  }

  /** No call begins while another is between its halves. */
  ghost predicate NothingLeftOpen(h: Hashing, steps: seq<Step>) {
    forall n :: 0 <= n < |steps| && (steps[n].ReadToActivate? || steps[n].ReadToStart?) ==>
        Run(h, steps[..n]).pending == map[]
  }

  /** In serialized runs a rollout's primary is the active version and differs from its candidate. */
  lemma SerializedRunsStayInStep(h: Hashing, steps: seq<Step>)
    requires Serialized(steps) && NothingLeftOpen(h, steps)
    ensures InStep(Run(h, steps).store)
  {
    forall n | 0 <= n < |steps| && steps[n].Commit?
      ensures !Stale(Run(h, steps[..n]), steps[n].call)
    {
      var before := steps[..n];
      assert before[..n - 1] == steps[..n - 1];
      assert Run(h, before) == Next(h, Run(h, steps[..n - 1]), steps[n - 1]);
    }
    FreshRunsStayInStep(h, steps);
  }

  lemma RunNext(h: Hashing, steps: seq<Step>, step: Step)
    ensures Run(h, steps + [step]) == Next(h, Run(h, steps), step)
  {
    assert (steps + [step])[..|steps|] == steps;
  }

  /** Three stored versions, the first one active. */
  function SetUp(slot: Slot, b: Bundle): seq<Step> {
    [Publish(BundleKey(slot, "1"), b)] + [Publish(BundleKey(slot, "2"), b)] + [Publish(BundleKey(slot, "3"), b)]
    + [ReadToActivate(0, slot, "1", None)] + [Commit(0)]
  }

  lemma AfterSetUp(h: Hashing, slot: Slot, b: Bundle)
    ensures var w := Run(h, SetUp(slot, b));
            && w.pending == map[] && w.store.rollouts == map[] && slot in w.store.active
                && w.store.active[slot].version == "1"
            && Stored(w.store, slot, "1") && Stored(w.store, slot, "2") && Stored(w.store, slot, "3")
  {
    var s1 := [] + [Publish(BundleKey(slot, "1"), b)];
    var s2 := s1 + [Publish(BundleKey(slot, "2"), b)];
    var s3 := s2 + [Publish(BundleKey(slot, "3"), b)];
    var s4 := s3 + [ReadToActivate(0, slot, "1", None)];
    assert SetUp(slot, b) == s4 + [Commit(0)];
    RunNext(h, [], Publish(BundleKey(slot, "1"), b));
    RunNext(h, s1, Publish(BundleKey(slot, "2"), b));
    RunNext(h, s2, Publish(BundleKey(slot, "3"), b));
    RunNext(h, s3, ReadToActivate(0, slot, "1", None));
    RunNext(h, s4, Commit(0));
  }

  lemma StaleWrite(h: Hashing, w: World, slot: Slot)
    requires w.pending == map[] && w.store.rollouts == map[] && slot in w.store.active
             && w.store.active[slot].version == "1"
    requires Stored(w.store, slot, "1") && Stored(w.store, slot, "2") && Stored(w.store, slot, "3")
    ensures var read := Next(h, w, ReadToStart(0, slot, "3", 50, "", None));
            var other := Next(h, Next(h, read, ReadToActivate(1, slot, "2", None)), Commit(1));
            !InStep(Next(h, other, Commit(0)).store)
  {
    var read := Next(h, w, ReadToStart(0, slot, "3", 50, "", None));
    var other := Next(h, Next(h, read, ReadToActivate(1, slot, "2", None)), Commit(1));
    assert 0 in other.pending && other.pending[0].Starting? && other.pending[0].plan.primary == "1";
    assert other.store.active[slot].version == "2";
    assert slot in Next(h, other, Commit(0)).store.rollouts;
  }

  /** Interleaved, it can fail: version 2 becomes active between the halves of a start that read version 1. */
  lemma InterleavingBreaksAgreement(h: Hashing, slot: Slot, b: Bundle) returns (steps: seq<Step>)
    ensures !InStep(Run(h, steps).store)
  {
    var s0 := SetUp(slot, b);
    var s1 := s0 + [ReadToStart(0, slot, "3", 50, "", None)];
    var s2 := s1 + [ReadToActivate(1, slot, "2", None)];
    var s3 := s2 + [Commit(1)];
    steps := s3 + [Commit(0)];
    AfterSetUp(h, slot, b);
    StaleWrite(h, Run(h, s0), slot);
    RunNext(h, s0, ReadToStart(0, slot, "3", 50, "", None));
    RunNext(h, s1, ReadToActivate(1, slot, "2", None));
    RunNext(h, s2, Commit(1));
    RunNext(h, s3, Commit(0));
  }

  // ----- A resolution reads twice -----

  lemma {:induction false} ActiveStaysActive(h: Hashing, steps: seq<Step>, n: nat, slot: Slot)
    requires n <= |steps| && slot in Run(h, steps[..n]).store.active
    ensures slot in Run(h, steps).store.active
  {
    if n < |steps| {
      var init := steps[..|steps| - 1];
      assert init[..n] == steps[..n];
      ActiveStaysActive(h, init, n, slot);
    } else {
      assert steps[..n] == steps;
    }
  }

  /** Whatever happens between and after its two reads, a resolution names a bundle that can be loaded. */
  lemma SplitResolveIsStored(h: Hashing, steps: seq<Step>, n: nat, m: nat, slot: Slot, agent: string)
    requires n <= m <= |steps| && slot in Run(h, steps[..n]).store.active
    ensures var primary := Run(h, steps[..n]).store.active[slot].version;
            Stored(Run(h, steps).store, slot, Pick(h, Run(h, steps[..m]).store, slot, agent, primary))
  {
    var primary := Run(h, steps[..n]).store.active[slot].version;
    ReferentialIntegrity(h, steps[..n]);
    ReferentialIntegrity(h, steps[..m]);
    var picked := BundleKey(slot, Pick(h, Run(h, steps[..m]).store, slot, agent, primary));
    if slot in Run(h, steps[..m]).store.rollouts {
      BundlesAreImmutable(h, steps, m, picked);
    } else {
      BundlesAreImmutable(h, steps, n, picked);
    }
  }

  /**
   It is up to date at its second read exactly when there is a rollout then, or the active version
   is still the one read.
   */
  lemma SplitResolveIff(h: Hashing, steps: seq<Step>, n: nat, slot: Slot, agent: string)
    requires n <= |steps| && slot in Run(h, steps[..n]).store.active
    ensures var s, primary := Run(h, steps).store, Run(h, steps[..n]).store.active[slot].version;
            && slot in s.active
            && (Some(Pick(h, s, slot, agent, primary)) == Resolve(h, s, slot, agent)
                <==> slot in s.rollouts || s.active[slot].version == primary)
  {
    ActiveStaysActive(h, steps, n, slot);
  }

  lemma PromoteCandidate(h: Hashing, w: World, slot: Slot, agent: string)
    requires w.pending == map[] && w.store.rollouts == map[] && slot in w.store.active
    requires w.store.active[slot].version == "1" && Stored(w.store, slot, "1") && Stored(w.store, slot, "2")
    requires Bucket(h, "s", slot, agent) < 99
    ensures var canary := Next(h, Next(h, w, ReadToStart(0, slot, "2", 99, "s", None)), Commit(0));
            var after := Next(h, Next(h, canary, ReadToActivate(1, slot, "2", None)), Commit(1));
            && slot in canary.store.active && canary.store.active[slot].version == "1"
            && Resolve(h, canary.store, slot, agent) == Resolve(h, after.store, slot, agent) == Some("2")
            && Pick(h, after.store, slot, agent, "1") == "1"
  {
    var started := Next(h, w, ReadToStart(0, slot, "2", 99, "s", None));
    var canary := Next(h, started, Commit(0));
    assert slot in canary.store.rollouts && canary.store.rollouts[slot] == Rollout("1", "2", 99, "s", 1);
    assert canary.pending == map[];
    var read := Next(h, canary, ReadToActivate(1, slot, "2", None));
    assert read.store == canary.store && 1 in read.pending;
  }

  /**
   A canary's candidate becomes active between the two reads: the agent had version 2 before and has
   it after, but this resolution gives it version 1.
   */
  lemma SplitResolveGoesBack(h: Hashing, slot: Slot, b: Bundle, agent: string) returns (steps: seq<Step>, n: nat)
    requires Bucket(h, "s", slot, agent) < 99
    ensures n <= |steps| && slot in Run(h, steps[..n]).store.active
    ensures var first, second := Run(h, steps[..n]).store, Run(h, steps).store;
            && Resolve(h, first, slot, agent) == Resolve(h, second, slot, agent) == Some("2")
            && Pick(h, second, slot, agent, first.active[slot].version) == "1"
  {
    var s0 := SetUp(slot, b);
    var s1 := s0 + [ReadToStart(0, slot, "2", 99, "s", None)];
    var s2 := s1 + [Commit(0)];
    var s3 := s2 + [ReadToActivate(1, slot, "2", None)];
    steps, n := s3 + [Commit(1)], |s2|;
    AfterSetUp(h, slot, b);
    RunNext(h, s0, ReadToStart(0, slot, "2", 99, "s", None));
    RunNext(h, s1, Commit(0));
    RunNext(h, s2, ReadToActivate(1, slot, "2", None));
    RunNext(h, s3, Commit(1));
    assert steps[..n] == s2;
    PromoteCandidate(h, Run(h, s0), slot, agent);
  }

  // ----- Whole calls -----

  datatype Op =
    | PublishOp(key: BundleKey, bundle: Bundle)
    | ActivateOp(slot: Slot, version: string, expected: Option<int>)
    | StartOp(slot: Slot, candidate: string, percentage: int, seed: string, expected: Option<int>)
    | CancelOp(slot: Slot)

  function Do(h: Hashing, s: Store, op: Op): Store {
    match op
    case PublishOp(key, bundle) => Save(s, key, bundle)
    case ActivateOp(slot, version, expected) =>
        if Stored(s, slot, version) then Activate(s, slot, version, expected) else s
    case StartOp(slot, candidate, percentage, seed, expected) =>
      if MayPlan(s, slot, candidate, percentage)
          then Start(s, slot, PlanOf(h, s, slot, candidate, percentage, seed), expected) else s
    case CancelOp(slot) => Cancel(s, slot)
  }

  /** A whole call is its two halves with nothing in between. */
  lemma WholeCallIsTwoHalves(h: Hashing, w: World, op: Op, call: nat)
    requires call !in w.pending && (op.ActivateOp? || op.StartOp?)
    ensures var read := if op.ActivateOp? then ReadToActivate(call, op.slot, op.version, op.expected)
                        else ReadToStart(call, op.slot, op.candidate, op.percentage, op.seed, op.expected);
            var w' := Next(h, Next(h, w, read), Commit(call));
            w'.store == Do(h, w.store, op) && w'.pending == w.pending
  {
  }

  function DoAll(h: Hashing, s: Store, ops: seq<Op>): Store {
    if ops == [] then s else Do(h, DoAll(h, s, ops[..|ops| - 1]), ops[|ops| - 1])
  }

  // ----- Ramping a candidate up -----

  /** Starts of one candidate with the default seed; anything else keeps away from the slot. */
  predicate Ramps(op: Op, slot: Slot, candidate: string) {
    match op
    case PublishOp(_, _) => true
    case StartOp(other, c, _, seed, _) => other == slot ==> c == candidate && seed == ""
    case _ => op.slot != slot
  }

  predicate StartsOn(op: Op, slot: Slot) { op.StartOp? && op.slot == slot }

  ghost predicate IsRamp(ops: seq<Op>, slot: Slot, candidate: string) {
    && (forall i :: 0 <= i < |ops| ==> Ramps(ops[i], slot, candidate))
    && (forall i, j :: 0 <= i < j < |ops| && StartsOn(ops[i], slot) && StartsOn(ops[j], slot) ==>
        ops[i].percentage <= ops[j].percentage)
  }

  /** The slot's rollout, if there is one, is of this candidate against the active version. */
  ghost predicate Ramping(h: Hashing, s: Store, slot: Slot, primary: string, candidate: string) {
    && slot in s.active && s.active[slot].version == primary
    && (slot in s.rollouts ==>
          var r := s.rollouts[slot];
          r.primary == primary && r.candidate == candidate && r.seed == h.defaultSeed(slot, candidate))
  }

  ghost predicate Below(s: Store, slot: Slot, op: Op) {
    StartsOn(op, slot) && slot in s.rollouts ==> s.rollouts[slot].percentage <= op.percentage
  }

  lemma RampStep(h: Hashing, s: Store, op: Op, slot: Slot, primary: string, candidate: string, agent: string)
    requires Ramping(h, s, slot, primary, candidate) && Ramps(op, slot, candidate) && Below(s, slot, op)
    ensures Ramping(h, Do(h, s, op), slot, primary, candidate)
    ensures Resolve(h, s, slot, agent) == Some(candidate) ==> Resolve(h, Do(h, s, op), slot, agent) == Some(candidate)
    ensures Do(h, s, op).rollouts != s.rollouts && StartsOn(op, slot) ==>
            slot in Do(h, s, op).rollouts && Do(h, s, op).rollouts[slot].percentage == op.percentage
    ensures !StartsOn(op, slot) ==> (slot in Do(h, s, op).rollouts <==> slot in s.rollouts)
    ensures !StartsOn(op, slot) && slot in s.rollouts ==> Do(h, s, op).rollouts[slot] == s.rollouts[slot]
  {
  }

  /** Up to the last operation so far the ramp is on, and below everything still to come. */
  lemma {:induction false} RampSoFar(h: Hashing, s: Store, ops: seq<Op>, n: nat, slot: Slot, primary: string,
        candidate: string)
    requires IsRamp(ops, slot, candidate) && n <= |ops|
    requires Ramping(h, s, slot, primary, candidate) && forall j :: 0 <= j < |ops| ==> Below(s, slot, ops[j])
    ensures Ramping(h, DoAll(h, s, ops[..n]), slot, primary, candidate)
    ensures forall j :: n <= j < |ops| ==> Below(DoAll(h, s, ops[..n]), slot, ops[j])
  {
    if n > 0 {
      RampSoFar(h, s, ops, n - 1, slot, primary, candidate);
      var now := DoAll(h, s, ops[..n - 1]);
      assert ops[..n][..n - 1] == ops[..n - 1];
      RampStep(h, now, ops[n - 1], slot, primary, candidate, "");
      forall j | n <= j < |ops|
        ensures Below(Do(h, now, ops[n - 1]), slot, ops[j])
      {
        assert Below(now, slot, ops[j]);
      }
    }
  }

  /**
   Ramping one candidate up by non-decreasing percentages, with no activation or cancellation in
   between, gives every agent the primary or the candidate, and moves it at most once, to the candidate.
   */
  lemma {:induction false} RampMovesOnce(h: Hashing, s: Store, ops: seq<Op>, i: nat, j: nat, slot: Slot,
        primary: string, candidate: string, agent: string)
    requires IsRamp(ops, slot, candidate) && i <= j <= |ops|
    requires Ramping(h, s, slot, primary, candidate) && forall k :: 0 <= k < |ops| ==> Below(s, slot, ops[k])
    ensures Resolve(h, DoAll(h, s, ops[..j]), slot, agent) in {Some(primary), Some(candidate)}
    ensures Resolve(h, DoAll(h, s, ops[..i]), slot, agent) == Some(candidate) ==>
            Resolve(h, DoAll(h, s, ops[..j]), slot, agent) == Some(candidate)
    decreases j
  {
    RampSoFar(h, s, ops, j, slot, primary, candidate);
    if i < j {
      RampMovesOnce(h, s, ops, i, j - 1, slot, primary, candidate, agent);
      RampSoFar(h, s, ops, j - 1, slot, primary, candidate);
      assert ops[..j][..j - 1] == ops[..j - 1];
      RampStep(h, DoAll(h, s, ops[..j - 1]), ops[j - 1], slot, primary, candidate, agent);
    }
  }

  // ----- What the store promises of its numbers -----

  predicate IsNextRevision(active: map<Slot, Active>, slot: Slot, revision: int) {
    if slot in active then revision == active[slot].revision + 1 else revision == 1
  }

  predicate IsNextStart(rollouts: map<Slot, Rollout>, slot: Slot, revision: int) {
    if slot in rollouts then revision == rollouts[slot].revision + 1 else revision == 1
  }

  /**
   Of a hundred equal parts of the hash values the candidate gets as many as the rollout's
   percentage, the first ones.
   */
  predicate IsChoice(h: Hashing, rollouts: map<Slot, Rollout>, slot: Slot, agent: string, primary: string,
                     version: string) {
    if slot !in rollouts then version == primary
    else
      var r := rollouts[slot];
      if h.hash(r.seed, slot, agent) % 100 < r.percentage then version == r.candidate else version == r.primary
  }

  /** The same of whole runs: which version an agent is given at a state. */
  lemma ResolveIsChoice(h: Hashing, s: Store, slot: Slot, agent: string)
    ensures Resolve(h, s, slot, agent).Some? <==> slot in s.active
    ensures slot in s.active ==>
              IsChoice(h, s.rollouts, slot, agent, s.active[slot].version, Resolve(h, s, slot, agent).value)
  {
  }

  /** And of steps: an activation drops the rollout of its slot, as a cancellation does, and nothing else. */
  lemma DropsRollout(h: Hashing, w: World, step: Step)
    ensures var w' := Next(h, w, step);
            && (step.Drop? ==> w'.store == w.store.(rollouts := w.store.rollouts - {step.slot}))
            && (step.Commit? && step.call in w.pending && w.pending[step.call].Activating?
                && (w.pending[step.call].expected.Some? ==>
                      w.pending[step.call].slot in w.store.active
                      && w.store.active[w.pending[step.call].slot].revision == w.pending[step.call].expected.value) ==>
                  w'.store.rollouts == w.store.rollouts - {w.pending[step.call].slot})
  {
  }

  // ----- The store object -----

  datatype ControlError = VersionExists | UnknownVersion | NoActivePolicy | BadPercentage | CandidateIsActive
        | RevisionConflict

  class ControlPlaneStore {
    const hashing: Hashing
    var bundles: map<BundleKey, Bundle>
    var active: map<Slot, Active>
    var rollouts: map<Slot, Rollout>

    ghost function Model(): Store
      reads this
    {
      Store(bundles, active, rollouts)
    }

    constructor (hashing: Hashing)
      ensures this.hashing == hashing && Model() == EMPTY
    {
      this.hashing := hashing;
      bundles, active, rollouts := map[], map[], map[];
    }

    method SaveBundle(key: BundleKey, bundle: Bundle) returns (error: Option<ControlError>)
      modifies this
      ensures Model() == Do(hashing, old(Model()), PublishOp(key, bundle))
      ensures error == if key in old(bundles) then Some(VersionExists) else None
      ensures bundles == if error.Some? then old(bundles) else old(bundles)[key := bundle]
      ensures active == old(active) && rollouts == old(rollouts)
    {
      if key in bundles {
        return Some(VersionExists);
      }
      bundles := bundles[key := bundle];
      error := None;
    }

    method ActivateVersion(slot: Slot, version: string, expected: Option<int>) returns (r: Result<Bundle, ControlError>)
      modifies this
      ensures Model() == Do(hashing, old(Model()), ActivateOp(slot, version, expected))
      ensures r.Ok? <==>
                && BundleKey(slot, version) in old(bundles)
                && (expected.Some? ==> slot in old(active) && old(active)[slot].revision == expected.value)
      ensures r.Ok? ==> BundleKey(slot, version) in bundles && r.value == bundles[BundleKey(slot, version)]
      ensures r.Ok? ==> slot in active && active == old(active)[slot := active[slot]]
                        && active[slot].version == version && IsNextRevision(old(active), slot, active[slot].revision)
      ensures r.Ok? ==> rollouts == old(rollouts) - {slot} && bundles == old(bundles)
      ensures r.Err? ==> Model() == old(Model())
      ensures r.Err? ==> r.error == if Stored(old(Model()), slot, version) then RevisionConflict else UnknownVersion
    {
      var key := BundleKey(slot, version);
      if key !in bundles {
        return Err(UnknownVersion);
      }
      if expected.None? {
        active := active[slot := if slot in active then Active(version, active[slot].revision + 1)
            else Active(version, 1)];
      } else {
        if slot !in active || active[slot].revision != expected.value {
          return Err(RevisionConflict);
        }
        active := active[slot := Active(version, active[slot].revision + 1)];
      }
      rollouts := rollouts - {slot};
      r := Ok(bundles[key]);
    }

    method StartRollout(slot: Slot, candidate: string, percentage: int, seed: string, expected: Option<int>)
      returns (r: Result<Rollout, ControlError>)
      modifies this
      ensures Model() == Do(hashing, old(Model()), StartOp(slot, candidate, percentage, seed, expected))
      ensures r.Ok? <==>
                && 1 <= percentage <= 99 && slot in old(active) && old(active)[slot].version != candidate
                && BundleKey(slot, old(active)[slot].version) in old(bundles)
                    && BundleKey(slot, candidate) in old(bundles)
                && (expected.Some? ==> slot in old(rollouts) && old(rollouts)[slot].revision == expected.value)
      ensures r.Ok? ==> slot in active && rollouts == old(rollouts)[slot := r.value]
                        && r.value.primary == active[slot].version && r.value.candidate == candidate
                        && r.value.percentage == percentage
                        && r.value.seed == (if seed != "" then seed else hashing.defaultSeed(slot, candidate))
                        && IsNextStart(old(rollouts), slot, r.value.revision)
      ensures r.Ok? ==> bundles == old(bundles) && active == old(active)
      ensures r.Err? ==> Model() == old(Model())
    {
      if !(1 <= percentage <= 99) {
        return Err(BadPercentage);
      }
      if slot !in active || BundleKey(slot, active[slot].version) !in bundles {
        return Err(NoActivePolicy);
      }
      var primary := active[slot].version;
      if BundleKey(slot, candidate) !in bundles {
        return Err(UnknownVersion);
      }
      if primary == candidate {
        return Err(CandidateIsActive);
      }
      var seedValue := if seed == "" then hashing.defaultSeed(slot, candidate) else seed;
      var revision := 1;
      if expected.None? {
        if slot in rollouts {
          revision := rollouts[slot].revision + 1;
        }
      } else {
        if slot !in rollouts || rollouts[slot].revision != expected.value {
          return Err(RevisionConflict);
        }
        revision := rollouts[slot].revision + 1;
      }
      rollouts := rollouts[slot := Rollout(primary, candidate, percentage, seedValue, revision)];
      r := Ok(rollouts[slot]);
    }

    method CancelRollout(slot: Slot)
      modifies this
      ensures Model() == Do(hashing, old(Model()), CancelOp(slot))
      ensures slot !in rollouts && rollouts == map s | s in old(rollouts) && s != slot :: old(rollouts)[s]
      ensures bundles == old(bundles) && active == old(active)
    {
      rollouts := rollouts - {slot};
    }

    method GetActive(slot: Slot) returns (version: Option<string>)
      ensures version == if slot in active then Some(active[slot].version) else None
    {
      version := if slot in active then Some(active[slot].version) else None;
    }

    /** The second read, given what the first one found. */
    method PickVersion(slot: Slot, agent: string, primary: string) returns (version: string)
      ensures version == Pick(hashing, Model(), slot, agent, primary)
      ensures IsChoice(hashing, rollouts, slot, agent, primary, version)
      ensures RolloutsStored(Model()) && Stored(Model(), slot, primary) ==> Stored(Model(), slot, version)
    {
      version := primary;
      if slot in rollouts {
        var r := rollouts[slot];
        var bucket := hashing.hash(r.seed, slot, agent) % 100;
        version := if bucket < r.percentage then r.candidate else r.primary;
      }
    }

    /** Both reads with nothing in between; they hold no lock, see `SplitResolveIff`. */
    method ResolveActive(slot: Slot, agent: string) returns (version: Option<string>)
      ensures version == Resolve(hashing, Model(), slot, agent)
      ensures version.Some? <==> slot in active
      ensures version.Some? ==> IsChoice(hashing, rollouts, slot, agent, active[slot].version, version.value)
      ensures version.Some? && ActiveStored(Model()) && RolloutsStored(Model()) ==> Stored(Model(), slot, version.value)
    {
      version := GetActive(slot);
      if version.Some? {
        var picked := PickVersion(slot, agent, version.value);
        version := Some(picked);
      }
    }
  }
}
