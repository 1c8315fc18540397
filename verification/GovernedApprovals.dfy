/**
 A tool context whose approval callback is the broker: the two protocols joined, from the decision
 of an approver to the run of a handler.
 */
module GovernedApprovals {
  import A = Approvals
  import T = ToolContext

  /** `digest` is the digest of the action that a checkpoint is for; `durable` says whether there is a repository. */
  datatype Config = Config(controls: T.Controls, digest: (string, string, real) -> string,
                           requestedBy: string, durable: bool)

  datatype World = World(broker: A.World, context: T.State)

  datatype Step =
    | Use(call: T.Call, checkpoint: A.Checkpoint, t1: int, t2: int, t3: int, submits: bool)
    | Count(op: T.Op)
    | Judge(id: string, decision: A.Decision, now: int)
    | Restart

  /** The gates before approval let the call through, and its tool needs approval. */
  predicate Asks(c: Config, call: T.Call) {
    T.Clear(c.controls, call).1.Ok? && T.ApprovalNeeded(c.controls, call.tool)
  }

  /** What the context makes of the broker's answer at `t3`. */
  function Reply(b: A.Broker, step: Step): T.ApprovalReply
    requires step.Use?
  {
    match A.Call(b, step.checkpoint, step.t1, step.t2, step.submits).response
    case Granted(grant) => T.Grant(grant.Validates(step.checkpoint, step.t3))
    case NotApproved => T.Silence
    case SubmitFailed => T.Crash
  }

  /** Time does not run back, and a checkpoint carries the digest of its own action. */
  predicate Enabled(c: Config, w: World, step: Step) {
    match step
    case Use(call, cp, t1, t2, t3, _) =>
      Asks(c, call) ==>
        w.broker.clock <= t1 <= t2 <= t3
            && cp.actionDigest == c.digest(call.tool, call.args, T.Clear(c.controls, call).1.value.1)
    case Count(op) => !op.Use?
    case _ => true
  }

  function AskedCall(c: Config, w: World, step: Step): T.Call
    requires step.Use?
  {
    if Asks(c, step.call) then step.call.(approval := Reply(w.broker.broker, step)) else step.call
  }

  function OpsOf(c: Config, w: World, step: Step): seq<T.Op> {
    if !Enabled(c, w, step) then []
    else match step
      case Use(_, _, _, _, _, _) => [T.Use(AskedCall(c, w, step))]
      case Count(op) => [op]
      case _ => []
  }

  function BrokerNext(c: Config, w: World, step: Step): A.World {
    if !Enabled(c, w, step) then w.broker
    else match step
      case Use(call, cp, t1, t2, t3, submits) =>
          if Asks(c, call) then A.Next(w.broker, A.Attempt(cp, t1, t2, t3, submits)) else w.broker
      case Judge(id, d, now) => A.Next(w.broker, A.Judge(id, d, now))
      case Restart => A.Next(w.broker, A.Restart)
      case Count(_) => w.broker
  }

  function Next(c: Config, w: World, step: Step): World {
    var ops := OpsOf(c, w, step);
    World(BrokerNext(c, w, step), if ops == [] then w.context else T.Apply(c.controls, w.context, ops[0]))
  }

  function Run(c: Config, steps: seq<Step>): World {
    if steps == [] then World(A.Start(c.requestedBy, c.durable), T.ZERO)
    else Next(c, Run(c, steps[..|steps| - 1]), steps[|steps| - 1])
  }

  // ----- Both halves are runs of their own protocol -----

  function Ops(c: Config, steps: seq<Step>): seq<T.Op> {
    if steps == [] then []
    else
      var init := steps[..|steps| - 1];
      Ops(c, init) + OpsOf(c, Run(c, init), steps[|steps| - 1])
  }

  lemma OpsAppend(c: T.Controls, ops: seq<T.Op>, more: seq<T.Op>)
    requires |more| <= 1
    ensures T.Run(c, ops + more) == if more == [] then T.Run(c, ops) else T.Apply(c, T.Run(c, ops), more[0])
  {
    if more == [] {
      assert ops + more == ops;
    } else {
      assert (ops + more)[..|ops|] == ops && (ops + more)[|ops|] == more[0];
    }
  }

  lemma {:induction false} ContextIsARun(c: Config, steps: seq<Step>)
    ensures Run(c, steps).context == T.Run(c.controls, Ops(c, steps))
  {
    if steps != [] {
      var init := steps[..|steps| - 1];
      ContextIsARun(c, init);
      OpsAppend(c.controls, Ops(c, init),
          OpsOf(c, Run(c, init), steps[|steps| - 1]));
    }
  }

  lemma {:induction false} BrokerKeepsProvenance(c: Config, steps: seq<Step>)
    ensures A.ProvenanceInvariant(Run(c, steps).broker)
  {
    if steps == [] {
      A.ApprovalProvenance(c.requestedBy, c.durable, []);
    } else {
      var w, step := Run(c, steps[..|steps| - 1]), steps[|steps| - 1];
      BrokerKeepsProvenance(c, steps[..|steps| - 1]);
      match step
      case Use(_, cp, t1, t2, t3, submits) => A.NextKeepsProvenance(w.broker, A.Attempt(cp, t1, t2, t3, submits));
      case Judge(id, d, now) => A.NextKeepsProvenance(w.broker, A.Judge(id, d, now));
      case Restart => A.NextKeepsProvenance(w.broker, A.Restart);
      case Count(_) =>
    }
  }

  // ----- Every protected start has an authorization of its own -----

  predicate ProtectedStart(c: Config, e: T.Effect) {
    e.Emitted? && e.event.ToolStarted? && T.ApprovalNeeded(c.controls, e.event.tool)
  }

  /** In step `m` the broker authorizes the very action that the context then starts, and nothing comes between. */
  ghost predicate StartsUnder(c: Config, steps: seq<Step>, m: nat, i: nat, k: nat) {
    && m < |steps| && steps[m].Use?
    && var w, w', cp := Run(c, steps[..m]), Run(c, steps[..m + 1]), steps[m].checkpoint;
       && |w.context.trace| <= i < |w'.context.trace| && |w.broker.history| <= k < |w'.broker.history|
       && ProtectedStart(c, w'.context.trace[i])
       && w'.broker.history[k] == A.Authorized(cp, steps[m].t3)
       && var started := w'.context.trace[i].event;
          && started.tool == steps[m].call.tool && started.args == steps[m].call.args
          && cp.actionDigest == c.digest(started.tool, started.args, started.cost)
  }

  lemma HistoryGrows(w: A.World, step: A.Step)
    ensures w.history <= A.Next(w, step).history
  {
  }

  lemma BrokerHistoryGrows(c: Config, w: World, step: Step)
    ensures w.broker.history <= BrokerNext(c, w, step).history
  {
    match step
    case Use(_, cp, t1, t2, t3, submits) => HistoryGrows(w.broker, A.Attempt(cp, t1, t2, t3, submits));
    case Judge(id, d, now) => HistoryGrows(w.broker, A.Judge(id, d, now));
    case Restart => HistoryGrows(w.broker, A.Restart);
    case Count(_) =>
  }

  /** Both logs are longer, or as they were. */
  predicate Extends(w: World, w': World) {
    w.broker.history <= w'.broker.history && w.context.trace <= w'.context.trace
  }

  lemma NextExtends(c: Config, w: World, step: Step)
    ensures Extends(w, Next(c, w, step))
  {
    BrokerHistoryGrows(c, w, step);
    var ops := OpsOf(c, w, step);
    if ops != [] {
      T.TraceGrows(c.controls, w.context, ops[0]);
    }
  }

  lemma RunNext(c: Config, steps: seq<Step>, n: nat)
    requires n < |steps|
    ensures Run(c, steps[..n + 1]) == Next(c, Run(c, steps[..n]), steps[n])
  {
    assert steps[..n + 1][..n] == steps[..n];
  }

  lemma StepExtends(c: Config, steps: seq<Step>, n: nat)
    requires n < |steps|
    ensures Extends(Run(c, steps[..n]), Run(c, steps[..n + 1]))
  {
    RunNext(c, steps, n);
    NextExtends(c, Run(c, steps[..n]), steps[n]);
  }

  lemma ExtendsFurther(w: World, w': World, w'': World)
    requires Extends(w, w') && Extends(w', w'')
    ensures Extends(w, w'')
  {
  }

  /** Both logs only grow. */
  lemma {:induction false} RunExtends(c: Config, steps: seq<Step>, m: nat, n: nat)
    requires m <= n <= |steps|
    ensures Extends(Run(c, steps[..m]), Run(c, steps[..n]))
    decreases n
  {
    if m < n {
      RunExtends(c, steps, m, n - 1);
      StepExtends(c, steps, n - 1);
      ExtendsFurther(Run(c, steps[..m]), Run(c, steps[..n - 1]), Run(c, steps[..n]));
    }
  }

  /** An answer that lets a protected call through is a grant that the broker's run notes as an authorization. */
  lemma GrantIsNoted(b: A.World, cp: A.Checkpoint, t1: int, t2: int, t3: int, submits: bool)
    requires b.clock <= t1 <= t2 <= t3
    requires var response := A.Call(b.broker, cp, t1, t2, submits).response;
             response.Granted? && response.grant.Validates(cp, t3)
    ensures var history := A.Next(b, A.Attempt(cp, t1, t2, t3, submits)).history;
            history != [] && history[|history| - 1] == A.Authorized(cp, t3)
  {
  }

  lemma AdmittedIsGranted(c: Config, w: World, step: Step)
    requires step.Use? && Enabled(c, w, step) && T.ApprovalNeeded(c.controls, step.call.tool)
    requires T.Prepare(c.controls, w.context, AskedCall(c, w, step)).Admitted?
    ensures Asks(c, step.call) && Reply(w.broker.broker, step) == T.Grant(true)
    ensures T.Prepare(c.controls, w.context, AskedCall(c, w, step)).cost == T.Clear(c.controls, step.call).1.value.1
  {
    var call := AskedCall(c, w, step);
    ClearIgnoresApproval(c.controls, step.call, call.approval);
  }

  lemma ClearIgnoresApproval(c: T.Controls, call: T.Call, reply: T.ApprovalReply)
    ensures T.Clear(c, call.(approval := reply)) == T.Clear(c, call)
  {
  }

  /** A protected start that a step adds, and the authorization with which the broker's part of the step ends. */
  lemma NewStartIsAuthorized(c: Config, w: World, step: Step, i: nat) returns (k: nat)
    requires |w.context.trace| <= i < |Next(c, w, step).context.trace|
    requires ProtectedStart(c, Next(c, w, step).context.trace[i])
    ensures step.Use? && |w.broker.history| <= k < |Next(c, w, step).broker.history|
    ensures Next(c, w, step).broker.history[k] == A.Authorized(step.checkpoint, step.t3)
    ensures var started := Next(c, w, step).context.trace[i].event;
            && started.tool == step.call.tool && started.args == step.call.args
            && step.checkpoint.actionDigest == c.digest(started.tool, started.args, started.cost)
  {
    T.NewStart(c.controls, w.context, OpsOf(c, w, step)[0], i);
    AdmittedIsGranted(c, w, step);
    GrantIsNoted(w.broker, step.checkpoint, step.t1, step.t2, step.t3, step.submits);
    k := |BrokerNext(c, w, step).history| - 1;
  }

  /** One step adds at most one start. */
  lemma OneStartPerStep(c: Config, w: World, step: Step, i: nat, j: nat)
    requires |w.context.trace| <= i < |Next(c, w, step).context.trace|
    requires |w.context.trace| <= j < |Next(c, w, step).context.trace|
    requires ProtectedStart(c, Next(c, w, step).context.trace[i])
    requires ProtectedStart(c, Next(c, w, step).context.trace[j])
    ensures i == j
  {
    var op := OpsOf(c, w, step)[0];
    T.NewStart(c.controls, w.context, op, i);
    T.NewStart(c.controls, w.context, op, j);
  }

  /** Every protected start of a run was authorized by the broker in the step that started it. */
  lemma {:induction false} StartHasOwnAuthorization(c: Config, steps: seq<Step>, n: nat, i: nat)
      returns (m: nat, k: nat)
    requires n <= |steps| && i < |Run(c, steps[..n]).context.trace|
    requires ProtectedStart(c, Run(c, steps[..n]).context.trace[i])
    ensures m < n && StartsUnder(c, steps, m, i, k)
  {
    var w := Run(c, steps[..n - 1]);
    RunNext(c, steps, n - 1);
    NextExtends(c, w, steps[n - 1]);
    if i < |w.context.trace| {
      m, k := StartHasOwnAuthorization(c, steps, n - 1, i);
    } else {
      m := n - 1;
      k := NewStartIsAuthorized(c, w, steps[m], i);
    }
  }

  /** No authorization backs two starts: later starts have later steps and later authorizations. */
  lemma AuthorizationsAreNotReused(c: Config, steps: seq<Step>, m: nat, i: nat, k: nat, m': nat, i': nat, k': nat)
    requires StartsUnder(c, steps, m, i, k) && StartsUnder(c, steps, m', i', k') && i < i'
    ensures m < m' && k < k'
  {
    if m' < m {
      RunExtends(c, steps, m' + 1, m);
    } else if m' == m {
      RunNext(c, steps, m);
      OneStartPerStep(c, Run(c, steps[..m]), steps[m], i, i');
    } else {
      RunExtends(c, steps, m + 1, m');
    }
  }

  // ----- From the decision to the handler -----

  /** Event `j` of the broker's history, before step `m`, is a proper approval that justifies the step. */
  ghost predicate ApprovedBefore(c: Config, steps: seq<Step>, m: nat, j: nat) {
    && m < |steps| && steps[m].Use? && j < |Run(c, steps[..m]).broker.history|
    && A.Justifies(Run(c, steps[..m]).broker.history[j], steps[m].checkpoint, steps[m].t3)
  }

  lemma AuthorizationIsApproved(c: Config, steps: seq<Step>, m: nat, i: nat, k: nat) returns (j: nat)
    requires StartsUnder(c, steps, m, i, k)
    ensures ApprovedBefore(c, steps, m, j)
  {
    var w, w' := Run(c, steps[..m]), Run(c, steps[..m + 1]);
    BrokerKeepsProvenance(c, steps[..m + 1]);
    j :| 0 <= j < k && A.Justifies(w'.broker.history[j], steps[m].checkpoint, steps[m].t3);
    RunNext(c, steps, m);
    NewsDecidesNothing(c, w, steps[m], j);
    NextExtends(c, w, steps[m]);
  }

  /** The broker's part of a call adds no decision. */
  lemma NewsDecidesNothing(c: Config, w: World, step: Step, j: nat)
    requires step.Use? && j < |BrokerNext(c, w, step).history| && BrokerNext(c, w, step).history[j].Decided?
    ensures j < |w.broker.history|
  {
  }

  /**
   End to end: whenever the handler of a tool that needs approval runs, it runs under a start `i` whose
   own call, step `m`, the broker authorized as event `k`; and before that step, as event `j`, somebody
   other than the requester had decided yes on this very action, on a pending and unexpired record
   that had not expired either when this call was authorized.
   */
  lemma HandlersRunApproved(c: Config, steps: seq<Step>, n: nat) returns (i: nat, m: nat, k: nat, j: nat)
    requires var trace := Run(c, steps).context.trace;
             n < |trace| && trace[n].Invoked?
    ensures var w := Run(c, steps);
            && T.RunsUnder(c.controls, w.context.trace, i, n)
            && (T.ApprovalNeeded(c.controls, w.context.trace[i].event.tool) ==>
                  && StartsUnder(c, steps, m, i, k) && ApprovedBefore(c, steps, m, j)
                  && Extends(Run(c, steps[..m + 1]), w))
  {
    var w := Run(c, steps);
    ContextIsARun(c, steps);
    i := T.HandlersRunGoverned(c.controls, Ops(c, steps), n);
    m, k, j := 0, 0, 0;
    if T.ApprovalNeeded(c.controls, w.context.trace[i].event.tool) {
      assert steps[..|steps|] == steps;
      m, k := StartHasOwnAuthorization(c, steps, |steps|, i);
      j := AuthorizationIsApproved(c, steps, m, i, k);
      RunExtends(c, steps, m + 1, |steps|);
    }
  }
}
