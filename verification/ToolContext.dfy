/**
 The run-time context that an agent calls tools through: the gates that a call has to pass, the
 counters that are reserved before a handler runs, and the audit trail of each call.
 Amounts are real numbers; what the authorizer, the approval callback and the handler do is part
 of the call.
 */
module ToolContext {
  import opened Numbers
  import opened Outcomes
  import opened RetryLoop
  import opened Text

  /** A number as the caller passed it. */
  datatype Amount = Finite(value: real) | NotFinite | NotNumeric

  datatype Refusal =
    | BlankName | NotAllowlisted | WrongHandler | NotRegistered | NotCallable | NoPrincipal | NotAuthorized
    | Asynchronous | HasTimeout | BadCost | BelowMinimum | GrantRejected | GrantMustBeBound | NeedsApproval
        | CallbackFailed
    | NegativeCounter | TooManySteps | TooManyCalls | TooCostly

  datatype Guardrails = Guardrails(maxSteps: int, maxToolCalls: int, maxCost: real, allowed: Option<set<string>>,
                                   requireRegistered: bool, requireBoundGrants: bool)
  {
    predicate Valid() { maxSteps >= 1 && maxToolCalls >= 0 && maxCost >= 0.0 }
  }

  datatype Handler = Handler(id: nat, coroutine: bool)

  datatype Spec = Spec(handler: Handler, requiresApproval: bool, defaultCost: real,
                       estimator: Option<string -> Amount>, hasTimeout: bool, retryLimit: nat, idempotent: bool)

  /** The runner-owned controls of one run. */
  datatype Controls = Controls(guardrails: Option<Guardrails>, registry: map<string, Spec>,
                               hasAuthorizer: bool, hasPrincipal: bool)
  {
    ghost predicate Valid() {
      && (guardrails.Some? ==> guardrails.value.Valid())
      && (forall name :: name in registry ==> registry[name].defaultCost >= 0.0)
    }
  }

  datatype FirstArgument = Missing | Plain | Callable(handler: Handler)

  /** What the approval callback does; `valid` is what checking the grant against the checkpoint yields. */
  datatype ApprovalReply = Silence | Yes | Grant(valid: bool) | Crash

  /** How `call_tool` is left: by its return, by an exception it reports, or by one it lets pass. */
  datatype Ending = Completed | Failed | Interrupted

  /** What the idempotency store answers; `Declined` stands for its exceptions. */
  datatype BeginReply = Begun | Stored | FailedEarlier | Declined

  /** `attempts` is what the handler and the breaker around it do; `settles` whether the store takes the report. */
  datatype Call = Call(tool: string, first: FirstArgument, args: string, cost: Option<Amount>,
                       permitted: bool, approval: ApprovalReply,
                       begin: BeginReply, attempts: nat -> Attempt, settles: bool)

  datatype Event =
    | AuthorizationDecision(tool: string, allowed: bool)
    | AuthorizationDenied(tool: string)
    | ToolRequested(tool: string, args: string, cost: real)
    | ApprovalGranted(tool: string)
    | ApprovalRequired(tool: string)
    | ToolAuthorized(tool: string, args: string, cost: real)
    | ToolStarted(tool: string, args: string, cost: real)
    | ToolCompleted(tool: string, args: string, cost: real)
    | ToolFailed(tool: string, args: string, cost: real)

  /** Audit events in order, together with the handler runs and direct charges that happen between them. */
  datatype Effect = Emitted(event: Event) | Invoked(handler: nat) | Abandoned | Charged(calls: nat, amount: real)

  datatype State = State(steps: int, toolCalls: int, cost: real, trace: seq<Effect>)

  const ZERO := State(0, 0, 0.0, [])

  // ----- The checks -----

  function CostAmount(a: Amount): Result<real, Refusal> {
    if a.Finite? && a.value >= 0.0 then Ok(a.value) else Err(BadCost)
  }

  function LimitsBroken(g: Option<Guardrails>, steps: int, calls: int, cost: real): Option<Refusal> {
    if g.None? then None
    else if steps < 0 || calls < 0 then Some(NegativeCounter)
    else if cost < 0.0 then Some(BadCost)
    else if steps > g.value.maxSteps then Some(TooManySteps)
    else if calls > g.value.maxToolCalls then Some(TooManyCalls)
    else if cost > g.value.maxCost then Some(TooCostly)
    else None
  }

  function NameRefused(g: Option<Guardrails>, tool: string): Option<Refusal> {
    if g.None? then None
    else if Strip(tool) == "" then Some(BlankName)
    else if g.value.allowed.Some? && tool !in g.value.allowed.value then Some(NotAllowlisted)
    else None
  }

  function SpecOf(c: Controls, call: Call): Option<Spec> {
    if call.tool in c.registry then Some(c.registry[call.tool]) else None
  }

  function Resolve(c: Controls, call: Call): Result<Handler, Refusal> {
    if call.tool in c.registry then
      var spec := c.registry[call.tool];
      if call.first.Callable? && call.first.handler != spec.handler then Err(WrongHandler) else Ok(spec.handler)
    else if c.guardrails.Some? && c.guardrails.value.requireRegistered then Err(NotRegistered)
    else if call.first.Callable? then Ok(call.first.handler)
    else Err(NotCallable)
  }

  /** What a gate emits, and whether it turns the call away. */
  datatype Gate = Gate(events: seq<Event>, refusal: Option<Refusal>)

  function AccessGate(c: Controls, call: Call): Gate {
    if !c.hasAuthorizer then Gate([], None)
    else if !c.hasPrincipal then Gate([AuthorizationDenied(call.tool)], Some(NoPrincipal))
    else if call.permitted then Gate([AuthorizationDecision(call.tool, true)], None)
    else Gate([AuthorizationDecision(call.tool, false), AuthorizationDenied(call.tool)], Some(NotAuthorized))
  }

  function RegisteredMinimum(spec: Spec, args: string): Result<real, Refusal> {
    match spec.estimator
    case None => Ok(spec.defaultCost)
    case Some(estimate) =>
      match CostAmount(estimate(args))
      case Err(e) => Err(e)
      case Ok(v) => Ok(RealMax(spec.defaultCost, v))
  }

  function EstimatedCost(spec: Option<Spec>, call: Call): Result<real, Refusal> {
    match (if spec.None? then Ok(0.0) else RegisteredMinimum(spec.value, call.args))
    case Err(e) => Err(e)
    case Ok(minimum) =>
      if call.cost.None? then Ok(minimum)
      else match CostAmount(call.cost.value)
        case Err(e) => Err(e)
        case Ok(requested) =>
          if spec.Some? && requested < minimum then Err(BelowMinimum) else Ok(RealMax(minimum, requested))
  }

  function ApprovalGate(c: Controls, call: Call): Gate {
    var spec := SpecOf(c, call);
    if spec.None? || !spec.value.requiresApproval then Gate([], None)
    else match call.approval
      case Grant(valid) => if valid then Gate([ApprovalGranted(call.tool)], None) else Gate([], Some(GrantRejected))
      case Yes =>
        if c.guardrails.Some? && c.guardrails.value.requireBoundGrants then Gate([], Some(GrantMustBeBound))
        else Gate([ApprovalGranted(call.tool)], None)
      case Silence => Gate([ApprovalRequired(call.tool)], Some(NeedsApproval))
      case Crash => Gate([], Some(CallbackFailed))
  }

  // ----- The operations -----

  datatype Admission =
    | Admitted(events: seq<Event>, handler: Handler, cost: real)
    | Refused(events: seq<Event>, why: Refusal)

  /** The gates up to the cost of the call, in order: what they emit, and the handler and cost they settle on. */
  function Clear(c: Controls, call: Call): (seq<Event>, Result<(Handler, real), Refusal>) {
    if NameRefused(c.guardrails, call.tool).Some? then ([], Err(NameRefused(c.guardrails, call.tool).value))
    else match Resolve(c, call)
      case Err(e) => ([], Err(e))
      case Ok(handler) =>
        var access := AccessGate(c, call);
        var spec := SpecOf(c, call);
        if access.refusal.Some? then (access.events, Err(access.refusal.value))
        else if handler.coroutine then (access.events, Err(Asynchronous))
        else if spec.Some? && spec.value.hasTimeout then (access.events, Err(HasTimeout))
        else match EstimatedCost(spec, call)
          case Err(e) => (access.events, Err(e))
          case Ok(cost) => (access.events, Ok((handler, cost)))
  }

  /** The remaining gates: approval, then the limits. */
  function Request(c: Controls, s: State, call: Call, cleared: seq<Event>, handler: Handler, cost: real): Admission {
    var approval := ApprovalGate(c, call);
    var events := cleared + [ToolRequested(call.tool, call.args, cost)] + approval.events;
    if approval.refusal.Some? then Refused(events, approval.refusal.value)
    else match LimitsBroken(c.guardrails, s.steps, s.toolCalls + 1, s.cost + cost)
      case Some(e) => Refused(events, e)
      case None => Admitted(events, handler, cost)
  }

  /** All gates in the order in which `_prepare_call` meets them. */
  function Prepare(c: Controls, s: State, call: Call): Admission {
    var (cleared, r) := Clear(c, call);
    match r
    case Err(e) => Refused(cleared, e)
    case Ok((handler, cost)) => Request(c, s, call, cleared, handler, cost)
  }

  function Emissions(events: seq<Event>): seq<Effect> {
    seq(|events|, i requires 0 <= i < |events| => Emitted(events[i]))
  }

  function Invocations(handler: nat, n: nat): seq<Effect> {
    if n == 0 then [] else [Invoked(handler)] + Invocations(handler, n - 1)
  }

  // ----- Execution -----

  predicate IsIdempotent(c: Controls, tool: string) { tool in c.registry && c.registry[tool].idempotent }

  /** Attempts that the tool's retry policy allows; one without a policy. */
  function LimitOf(c: Controls, tool: string): (limit: nat)
    ensures limit >= 1 && (tool in c.registry && c.registry[tool].retryLimit >= 1 ==>
            limit == c.registry[tool].retryLimit)
    ensures tool !in c.registry || c.registry[tool].retryLimit == 0 ==> limit == 1
  {
    if tool in c.registry && c.registry[tool].retryLimit > 1 then c.registry[tool].retryLimit else 1
  }

  /** The handler is reached: the call is not answered or declined by the idempotency store. */
  predicate Reaches(c: Controls, call: Call) { IsIdempotent(c, call.tool) ==> call.begin == Begun }

  function RunsOf(c: Controls, call: Call): nat {
    if Reaches(c, call) then RunsIn(call.attempts, Made(LimitOf(c, call.tool), call.attempts)) else 0
  }

  function LastOf(c: Controls, call: Call): Attempt {
    RunsWithinLimit(LimitOf(c, call.tool), call.attempts);
    call.attempts(Made(LimitOf(c, call.tool), call.attempts) - 1)
  }

  /** How `_execute_sync` is left: an awaitable and a report that the store refuses are exceptions too. */
  function EndingOf(c: Controls, call: Call): Ending {
    if !Reaches(c, call) then if call.begin == Stored then Completed else Failed
    else match LastOf(c, call)
      case Returned(_, awaitable) =>
          if awaitable || (IsIdempotent(c, call.tool) && !call.settles) then Failed else Completed
      case Raised(_, _, ordinary) => if ordinary then Failed else Interrupted
      case Blocked(_, _) => Failed
  }

  function EndingEffect(call: Call, cost: real, ending: Ending): Effect {
    match ending
    case Completed => Emitted(ToolCompleted(call.tool, call.args, cost))
    case Failed => Emitted(ToolFailed(call.tool, call.args, cost))
    case Interrupted => Abandoned
  }

  function Execution(c: Controls, call: Call, handler: Handler, cost: real): seq<Effect> {
    [Emitted(ToolAuthorized(call.tool, call.args, cost)), Emitted(ToolStarted(call.tool, call.args, cost))]
    + Invocations(handler.id, RunsOf(c, call)) + [EndingEffect(call, cost, EndingOf(c, call))]
  }

  function AfterCall(c: Controls, s: State, call: Call): State {
    match Prepare(c, s, call)
    case Refused(events, _) => s.(trace := s.trace + Emissions(events))
    case Admitted(events, handler, cost) =>
      State(s.steps, s.toolCalls + 1, s.cost + cost, s.trace + Emissions(events) + Execution(c, call, handler, cost))
  }

  datatype Op = BumpStep | BumpToolCall | AddCost(amount: Amount) | Use(call: Call)

  function AfterStep(c: Controls, s: State): State {
    if LimitsBroken(c.guardrails, s.steps + 1, s.toolCalls, s.cost).Some? then s else s.(steps := s.steps + 1)
  }

  function AfterBump(c: Controls, s: State): State {
    if LimitsBroken(c.guardrails, s.steps, s.toolCalls + 1, s.cost).Some? then s
    else s.(toolCalls := s.toolCalls + 1, trace := s.trace + [Charged(1, 0.0)])
  }

  function AfterCharge(c: Controls, s: State, amount: Amount): State {
    match CostAmount(amount)
    case Err(_) => s
    case Ok(v) =>
      if LimitsBroken(c.guardrails, s.steps, s.toolCalls, s.cost + v).Some? then s
      else s.(cost := s.cost + v, trace := s.trace + [Charged(0, v)])
  }

  function Apply(c: Controls, s: State, op: Op): State {
    match op
    case BumpStep => AfterStep(c, s)
    case BumpToolCall => AfterBump(c, s)
    case AddCost(amount) => AfterCharge(c, s, amount)
    case Use(call) => AfterCall(c, s, call)
  }

  function Run(c: Controls, ops: seq<Op>): State {
    if ops == [] then ZERO else Apply(c, Run(c, ops[..|ops| - 1]), ops[|ops| - 1])
  }

  // ----- Limits -----

  ghost predicate WithinLimits(c: Controls, s: State) {
    && 0 <= s.steps && 0 <= s.toolCalls && 0.0 <= s.cost
    && (c.guardrails.Some? ==>
          s.steps <= c.guardrails.value.maxSteps && s.toolCalls <= c.guardrails.value.maxToolCalls
              && s.cost <= c.guardrails.value.maxCost)
  }

  lemma MinimumIsNonNegative(c: Controls, call: Call)
    requires c.Valid()
    ensures var r := EstimatedCost(SpecOf(c, call), call);
            r.Ok? ==> r.value >= 0.0
  {
  }

  lemma ApplyKeepsLimits(c: Controls, s: State, op: Op)
    requires c.Valid() && WithinLimits(c, s)
    ensures WithinLimits(c, Apply(c, s, op))
  {
    if op.Use? {
      MinimumIsNonNegative(c, op.call);
    }
  }

  /** From zero counters no sequence of operations exceeds a limit. */
  lemma {:induction false} BudgetSafety(c: Controls, ops: seq<Op>)
    requires c.Valid()
    ensures WithinLimits(c, Run(c, ops))
  {
    if ops != [] {
      BudgetSafety(c, ops[..|ops| - 1]);
      ApplyKeepsLimits(c, Run(c, ops[..|ops| - 1]), ops[|ops| - 1]);
    }
  }

  // ----- When a call is admitted -----

  /** What every gate asks for, said without their order. */
  ghost predicate MayRun(c: Controls, s: State, call: Call) {
    && (c.guardrails.Some? ==>
          && Strip(call.tool) != ""
          && (c.guardrails.value.allowed.Some? ==> call.tool in c.guardrails.value.allowed.value))
    && (call.tool in c.registry ==>
          var spec := c.registry[call.tool];
          && !spec.hasTimeout && !spec.handler.coroutine
          && (call.first.Callable? ==> call.first.handler == spec.handler)
          && (spec.requiresApproval ==>
                || call.approval == Grant(true)
                || (call.approval == Yes && !(c.guardrails.Some? && c.guardrails.value.requireBoundGrants))))
    && (call.tool !in c.registry ==>
          && !(c.guardrails.Some? && c.guardrails.value.requireRegistered)
          && call.first.Callable? && !call.first.handler.coroutine)
    && (c.hasAuthorizer ==> c.hasPrincipal && call.permitted)
    && EstimatedCost(SpecOf(c, call), call).Ok?
    && (c.guardrails.Some? ==>
          && s.toolCalls + 1 <= c.guardrails.value.maxToolCalls
          && s.cost + EstimatedCost(SpecOf(c, call), call).value <= c.guardrails.value.maxCost)
  }

  /** A call reaches its handler exactly when every gate is content; otherwise only events are added. */
  lemma AdmittedIff(c: Controls, s: State, call: Call)
    requires c.Valid() && WithinLimits(c, s)
    ensures Prepare(c, s, call).Admitted? <==> MayRun(c, s, call)
  {
    MinimumIsNonNegative(c, call);
  }

  /** A refused call leaves every counter as it was and runs nothing. */
  lemma RefusedCallDoesNothing(c: Controls, s: State, call: Call)
    requires c.Valid() && WithinLimits(c, s) && !MayRun(c, s, call)
    ensures var s' := AfterCall(c, s, call);
            && s'.steps == s.steps && s'.toolCalls == s.toolCalls && s'.cost == s.cost
            && s.trace <= s'.trace
            && forall j :: |s.trace| <= j < |s'.trace| ==> s'.trace[j].Emitted? && !s'.trace[j].event.ToolStarted?
  {
    AdmittedIff(c, s, call);
  }

  /** The least a registered tool costs: its default, or what its estimator says if that is more. */
  lemma MinimumIff(spec: Spec, args: string)
    ensures var least := RegisteredMinimum(spec, args);
            && (spec.estimator.None? ==> least == Ok(spec.defaultCost))
            && (spec.estimator.Some? ==>
                  var said := spec.estimator.value(args);
                  && (least.Ok? <==> said.Finite? && 0.0 <= said.value)
                  && (least.Ok? ==> spec.defaultCost <= least.value && said.value <= least.value
                                    && (least.value == spec.defaultCost || least.value == said.value)))
  {
  }

  /** What an admitted call does to the counters: one more call, and its cost. */
  lemma AdmittedCallIsCharged(c: Controls, s: State, call: Call)
    requires c.Valid() && Prepare(c, s, call).Admitted?
    ensures var s' := AfterCall(c, s, call);
            && s'.steps == s.steps && s'.toolCalls == s.toolCalls + 1
            && (call.cost.Some? ==> call.cost.value.Finite? && s'.cost == s.cost + call.cost.value.value)
            && (call.cost.None? && call.tool !in c.registry ==> s'.cost == s.cost)
            && (call.cost.None? && call.tool in c.registry ==>
                  RegisteredMinimum(c.registry[call.tool], call.args) == Ok(s'.cost - s.cost))
  {
  }

  /** The events of the gates before the request. */
  function ClearanceEvents(c: Controls, tool: string): seq<Event> {
    if c.hasAuthorizer then [AuthorizationDecision(tool, true)] else []
  }

  /** A refusal names a rule that the call breaks, and leaves the events of the gates that it has come to. */
  ghost predicate IsRefusal(c: Controls, s: State, call: Call, why: Refusal, events: seq<Event>) {
    var clearance := ClearanceEvents(c, call.tool);
    var requests := |events| == |clearance| + 1 && clearance <= events && events[|clearance|].ToolRequested?
        && events[|clearance|].tool == call.tool && events[|clearance|].args == call.args;
    match why
    case BlankName => c.guardrails.Some? && Strip(call.tool) == "" && events == []
    case NotAllowlisted =>
      c.guardrails.Some? && c.guardrails.value.allowed.Some? && call.tool !in c.guardrails.value.allowed.value
      && events == []
    case WrongHandler =>
      call.tool in c.registry && call.first.Callable? && call.first.handler != c.registry[call.tool].handler
      && events == []
    case NotRegistered =>
      call.tool !in c.registry && c.guardrails.Some? && c.guardrails.value.requireRegistered && events == []
    case NotCallable => call.tool !in c.registry && !call.first.Callable? && events == []
    case NoPrincipal => c.hasAuthorizer && !c.hasPrincipal && events == [AuthorizationDenied(call.tool)]
    case NotAuthorized =>
      c.hasAuthorizer && !call.permitted
      && events == [AuthorizationDecision(call.tool, false), AuthorizationDenied(call.tool)]
    case Asynchronous =>
      events == clearance && if call.tool in c.registry then c.registry[call.tool].handler.coroutine
                             else call.first.Callable? && call.first.handler.coroutine
    case HasTimeout => call.tool in c.registry && c.registry[call.tool].hasTimeout && events == clearance
    case BadCost =>
      || (events == clearance
          && ((call.cost.Some? && !(call.cost.value.Finite? && 0.0 <= call.cost.value.value))
              || (call.tool in c.registry && RegisteredMinimum(c.registry[call.tool], call.args).Err?)))
    case BelowMinimum =>
      events == clearance && call.tool in c.registry && call.cost.Some? && call.cost.value.Finite?
      && RegisteredMinimum(c.registry[call.tool], call.args).Ok?
      && call.cost.value.value < RegisteredMinimum(c.registry[call.tool], call.args).value
    case GrantRejected => NeedsGrant(c, call) && call.approval == Grant(false) && requests
    case GrantMustBeBound =>
      NeedsGrant(c, call) && call.approval == Yes && c.guardrails.Some? && c.guardrails.value.requireBoundGrants
      && requests
    case CallbackFailed => NeedsGrant(c, call) && call.approval == Crash && requests
    case NeedsApproval =>
      NeedsGrant(c, call) && call.approval == Silence && |events| == |clearance| + 2 && clearance <= events
      && events[|clearance|].ToolRequested? && events[|clearance| + 1] == ApprovalRequired(call.tool)
    case TooManyCalls => c.guardrails.Some? && c.guardrails.value.maxToolCalls < s.toolCalls + 1
    case TooCostly =>
      c.guardrails.Some? && EstimatedCost(SpecOf(c, call), call).Ok?
      && c.guardrails.value.maxCost < s.cost + EstimatedCost(SpecOf(c, call), call).value
    case _ => false
  }

  predicate NeedsGrant(c: Controls, call: Call) {
    call.tool in c.registry && c.registry[call.tool].requiresApproval
  }

  lemma AccessIsTrue(c: Controls, s: State, call: Call)
    ensures var gate := AccessGate(c, call);
            if gate.refusal.Some? then IsRefusal(c, s, call, gate.refusal.value, gate.events)
            else gate.events == ClearanceEvents(c, call.tool)
  {
  }

  lemma CostIsTrue(c: Controls, s: State, call: Call)
    ensures var r := EstimatedCost(SpecOf(c, call), call);
            r.Err? ==> IsRefusal(c, s, call, r.error, ClearanceEvents(c, call.tool))
  {
  }

  lemma ClearanceIsTrue(c: Controls, s: State, call: Call)
    ensures var (events, r) := Clear(c, call);
            if r.Err? then IsRefusal(c, s, call, r.error, events) else events == ClearanceEvents(c, call.tool)
  {
    AccessIsTrue(c, s, call);
    CostIsTrue(c, s, call);
  }

  lemma RequestIsTrue(c: Controls, s: State, call: Call, handler: Handler, cost: real)
    requires WithinLimits(c, s) && cost >= 0.0 && EstimatedCost(SpecOf(c, call), call) == Ok(cost)
    ensures var a := Request(c, s, call, ClearanceEvents(c, call.tool), handler, cost);
            a.Refused? ==> IsRefusal(c, s, call, a.why, a.events)
  {
  }

  /** Every refusal names a rule that the call breaks. */
  lemma RefusalIsTrue(c: Controls, s: State, call: Call)
    requires c.Valid() && WithinLimits(c, s)
    ensures var a := Prepare(c, s, call);
            a.Refused? ==> IsRefusal(c, s, call, a.why, a.events)
  {
    MinimumIsNonNegative(c, call);
    ClearanceIsTrue(c, s, call);
    var r := Clear(c, call).1;
    if r.Ok? {
      RequestIsTrue(c, s, call, r.value.0, r.value.1);
    }
  }

  // ----- Totals of the trail -----

  function CallsIn(e: Effect): nat {
    match e
    case Emitted(ToolStarted(_, _, _)) => 1
    case Charged(calls, _) => calls
    case _ => 0
  }

  function CostIn(e: Effect): real {
    match e
    case Emitted(ToolStarted(_, _, cost)) => cost
    case Charged(_, amount) => amount
    case _ => 0.0
  }

  function Calls(trace: seq<Effect>): nat {
    if trace == [] then 0 else Calls(trace[..|trace| - 1]) + CallsIn(trace[|trace| - 1])
  }

  function Cost(trace: seq<Effect>): real {
    if trace == [] then 0.0 else Cost(trace[..|trace| - 1]) + CostIn(trace[|trace| - 1])
  }

  lemma {:induction false} TotalsAdd(a: seq<Effect>, b: seq<Effect>)
    ensures Calls(a + b) == Calls(a) + Calls(b) && Cost(a + b) == Cost(a) + Cost(b)
  {
    if b == [] {
      assert a + b == a;
    } else {
      var shorter := b[..|b| - 1];
      assert (a + b)[..|a + b| - 1] == a + shorter;
      TotalsAdd(a, shorter);
    }
  }

  /** Stretches of the trail that cost nothing. */
  lemma {:induction false} FreeStretch(trace: seq<Effect>)
    requires forall j :: 0 <= j < |trace| ==> CallsIn(trace[j]) == 0 && CostIn(trace[j]) == 0.0
    ensures Calls(trace) == 0 && Cost(trace) == 0.0
  {
    if trace != [] {
      FreeStretch(trace[..|trace| - 1]);
    }
  }

  lemma GatesAreFree(c: Controls, s: State, call: Call)
    ensures Calls(Emissions(Prepare(c, s, call).events)) == 0 && Cost(Emissions(Prepare(c, s, call).events)) == 0.0
  {
    FreeStretch(Emissions(Prepare(c, s, call).events));
  }

  lemma {:induction false} InvocationsAt(handler: nat, n: nat)
    ensures |Invocations(handler, n)| == n
    ensures forall j :: 0 <= j < n ==> Invocations(handler, n)[j] == Invoked(handler)
  {
    if n != 0 {
      InvocationsAt(handler, n - 1);
    }
  }

  lemma ExecutionTotals(c: Controls, call: Call, handler: Handler, cost: real)
    ensures Calls(Execution(c, call, handler, cost)) == 1 && Cost(Execution(c, call, handler, cost)) == cost
  {
    var authorized, started := Emitted(ToolAuthorized(call.tool, call.args, cost)),
        Emitted(ToolStarted(call.tool, call.args, cost));
    var runs, end := Invocations(handler.id, RunsOf(c, call)), [EndingEffect(call, cost, EndingOf(c, call))];
    InvocationsAt(handler.id, RunsOf(c, call));
    assert Execution(c, call, handler, cost) == ([authorized] + [started]) + (runs + end);
    FreeStretch(runs + end);
    FreeStretch([authorized]);
    TotalsAdd([authorized], [started]);
    TotalsAdd([authorized] + [started], runs + end);
    assert [started][..0] == [];
  }

  ghost predicate Agrees(s: State) {
    s.toolCalls == Calls(s.trace) && s.cost == Cost(s.trace)
  }

  lemma AfterCallAgrees(c: Controls, s: State, call: Call)
    requires Agrees(s)
    ensures Agrees(AfterCall(c, s, call))
  {
    var a := Prepare(c, s, call);
    GatesAreFree(c, s, call);
    TotalsAdd(s.trace, Emissions(a.events));
    if a.Admitted? {
      ExecutionTotals(c, call, a.handler, a.cost);
      TotalsAdd(s.trace + Emissions(a.events), Execution(c, call, a.handler, a.cost));
    }
  }

  lemma ChargeAgrees(s: State, e: Effect)
    requires Agrees(s)
    ensures Agrees(State(s.steps, s.toolCalls + CallsIn(e), s.cost + CostIn(e), s.trace + [e]))
  {
    assert (s.trace + [e])[..|s.trace|] == s.trace;
  }

  lemma BumpAgrees(c: Controls, s: State)
    requires Agrees(s)
    ensures Agrees(AfterBump(c, s))
  {
    ChargeAgrees(s, Charged(1, 0.0));
  }

  lemma AddedCostAgrees(c: Controls, s: State, amount: Amount)
    requires Agrees(s)
    ensures Agrees(AfterCharge(c, s, amount))
  {
    if amount.Finite? {
      ChargeAgrees(s, Charged(0, amount.value));
    }
  }

  lemma ApplyAgrees(c: Controls, s: State, op: Op)
    requires Agrees(s)
    ensures Agrees(Apply(c, s, op))
  {
    match op
    case BumpStep =>
    case BumpToolCall => BumpAgrees(c, s);
    case AddCost(amount) => AddedCostAgrees(c, s, amount);
    case Use(call) => AfterCallAgrees(c, s, call);
  }

  /** The counters are what the audit trail says: one call and its cost for each `tool_started`, plus direct charges. */
  lemma {:induction false} CountersMatchTrail(c: Controls, ops: seq<Op>)
    ensures Agrees(Run(c, ops))
  {
    if ops != [] {
      CountersMatchTrail(c, ops[..|ops| - 1]);
      ApplyAgrees(c, Run(c, ops[..|ops| - 1]), ops[|ops| - 1]);
    }
  }

  // ----- The grammar of the trail -----

  /** What an auditor reading the trail knows about the call being made. */
  datatype Phase =
    | Idle
    | Cleared(tool: string)
    | Denying(tool: string)
    | Requested(tool: string, args: string, cost: real)
    | Approved(tool: string, args: string, cost: real)
    | Authorized(tool: string, args: string, cost: real)
    | Running(tool: string, args: string, cost: real, runs: nat)
    | Broken

  predicate Runs(p: Phase, tool: string, args: string, cost: real) {
    p.Running? && p.tool == tool && p.args == args && p.cost == cost
  }

  /** Between calls: nothing is authorized or running. */
  predicate Quiet(p: Phase) { !p.Authorized? && !p.Running? && !p.Denying? && !p.Broken? }

  predicate ApprovalNeeded(c: Controls, tool: string) {
    tool in c.registry && c.registry[tool].requiresApproval
  }

  predicate CostCovered(c: Controls, tool: string, args: string, cost: real) {
    tool in c.registry ==>
      var least := RegisteredMinimum(c.registry[tool], args);
      least.Ok? && least.value <= cost
  }

  /**
   The trail that governance promises: a request only after a positive authorization decision, an
   authorization of a protected tool only after its approval, a start only at or above the
   registered cost, handler runs only of the registered handler, only between a start and its one
   ending, and no more of them than the retry policy allows.
   */
  function Read(c: Controls, p: Phase, e: Effect): Phase {
    if p.Broken? then Broken
    else match e
      case Emitted(AuthorizationDecision(tool, allowed)) =>
        if !Quiet(p) || !c.hasAuthorizer then Broken else if allowed then Cleared(tool) else Denying(tool)
      case Emitted(AuthorizationDenied(tool)) =>
        if p == Denying(tool) || (Quiet(p) && !c.hasPrincipal) then Idle else Broken
      case Emitted(ToolRequested(tool, args, cost)) =>
        if p == Cleared(tool) || (Quiet(p) && !c.hasAuthorizer) then Requested(tool, args, cost) else Broken
      case Emitted(ApprovalGranted(tool)) =>
        if p.Requested? && p.tool == tool && ApprovalNeeded(c, tool) then Approved(tool, p.args, p.cost) else Broken
      case Emitted(ApprovalRequired(tool)) =>
        if p.Requested? && p.tool == tool && ApprovalNeeded(c, tool) then Idle else Broken
      case Emitted(ToolAuthorized(tool, args, cost)) =>
        if p == Approved(tool, args, cost) || (p == Requested(tool, args, cost) && !ApprovalNeeded(c, tool))
            then Authorized(tool, args, cost) else Broken
      case Emitted(ToolStarted(tool, args, cost)) =>
        if p == Authorized(tool, args, cost) && CostCovered(c, tool, args, cost) then Running(tool, args, cost, 0)
            else Broken
      case Invoked(handler) =>
        if p.Running? && p.runs < LimitOf(c, p.tool)
            && (p.tool in c.registry ==> handler == c.registry[p.tool].handler.id)
        then p.(runs := p.runs + 1) else Broken
      case Emitted(ToolCompleted(tool, args, cost)) => if Runs(p, tool, args, cost) then Idle else Broken
      case Emitted(ToolFailed(tool, args, cost)) => if Runs(p, tool, args, cost) then Idle else Broken
      case Abandoned => if p.Running? then Idle else Broken
      case Charged(_, _) => if Quiet(p) then Idle else Broken
  }

  function ReadAll(c: Controls, p: Phase, trace: seq<Effect>): Phase {
    if trace == [] then p else Read(c, ReadAll(c, p, trace[..|trace| - 1]), trace[|trace| - 1])
  }

  lemma {:induction false} ReadAppend(c: Controls, p: Phase, a: seq<Effect>, b: seq<Effect>)
    ensures ReadAll(c, p, a + b) == ReadAll(c, ReadAll(c, p, a), b)
  {
    if b == [] {
      assert a + b == a;
    } else {
      var shorter := b[..|b| - 1];
      assert (a + b)[..|a + b| - 1] == a + shorter;
      ReadAppend(c, p, a, shorter);
    }
  }

  lemma ReadOne(c: Controls, p: Phase, e: Effect)
    ensures ReadAll(c, p, [e]) == Read(c, p, e)
  {
    assert [e][..0] == [];
    assert ReadAll(c, p, []) == p;
  }

  lemma ReadTwo(c: Controls, p: Phase, e: Effect, f: Effect)
    ensures ReadAll(c, p, [e, f]) == Read(c, Read(c, p, e), f)
  {
    assert [e, f] == [e] + [f];
    ReadAppend(c, p, [e], [f]);
    ReadOne(c, p, e);
    ReadOne(c, Read(c, p, e), f);
  }

  lemma EmissionsAppend(a: seq<Event>, b: seq<Event>)
    ensures Emissions(a + b) == Emissions(a) + Emissions(b)
  {
  }

  lemma ReadAccess(c: Controls, p: Phase, call: Call)
    requires Quiet(p)
    ensures var gate := AccessGate(c, call);
            var q := ReadAll(c, p, Emissions(gate.events));
            Quiet(q) && (gate.refusal.None? ==> if c.hasAuthorizer then q == Cleared(call.tool) else q == p)
  {
    var gate := AccessGate(c, call);
    if |gate.events| == 1 {
      assert Emissions(gate.events) == [Emitted(gate.events[0])];
      ReadOne(c, p, Emitted(gate.events[0]));
    } else if |gate.events| == 2 {
      assert Emissions(gate.events) == [Emitted(gate.events[0]), Emitted(gate.events[1])];
      ReadTwo(c, p, Emitted(gate.events[0]), Emitted(gate.events[1]));
    }
  }

  lemma ReadApproval(c: Controls, call: Call, cost: real)
    ensures var gate := ApprovalGate(c, call);
            var asked := Requested(call.tool, call.args, cost);
            var q := ReadAll(c, asked, Emissions(gate.events));
            Quiet(q) && (gate.refusal.None? ==>
                q == if ApprovalNeeded(c, call.tool) then Approved(call.tool, call.args, cost) else asked)
  {
    var gate, asked := ApprovalGate(c, call), Requested(call.tool, call.args, cost);
    if |gate.events| == 1 {
      assert Emissions(gate.events) == [Emitted(gate.events[0])];
      ReadOne(c, asked, Emitted(gate.events[0]));
    }
  }

  lemma ReadRun(c: Controls, p: Phase, handler: nat)
    requires p.Running? && p.runs < LimitOf(c, p.tool)
    requires p.tool in c.registry ==> handler == c.registry[p.tool].handler.id
    ensures ReadAll(c, p, [Invoked(handler)]) == p.(runs := p.runs + 1)
  {
    ReadOne(c, p, Invoked(handler));
  }

  lemma {:induction false} ReadInvocations(c: Controls, p: Phase, handler: nat, n: nat)
    requires p.Running? && p.runs + n <= LimitOf(c, p.tool)
    requires p.tool in c.registry ==> handler == c.registry[p.tool].handler.id
    ensures ReadAll(c, p, Invocations(handler, n)) == p.(runs := p.runs + n)
    decreases n
  {
    if n != 0 {
      ReadAppend(c, p, [Invoked(handler)], Invocations(handler, n - 1));
      ReadRun(c, p, handler);
      ReadInvocations(c, p.(runs := p.runs + 1), handler, n - 1);
    }
  }

  lemma RunsAreAllowed(c: Controls, call: Call)
    ensures RunsOf(c, call) <= LimitOf(c, call.tool)
  {
    RunsWithinLimit(LimitOf(c, call.tool), call.attempts);
  }

  lemma ReadExecution(c: Controls, p: Phase, call: Call, handler: Handler, cost: real)
    requires p == if ApprovalNeeded(c, call.tool) then Approved(call.tool, call.args, cost)
             else Requested(call.tool, call.args, cost)
    requires CostCovered(c, call.tool, call.args, cost)
    requires call.tool in c.registry ==> handler == c.registry[call.tool].handler
    ensures ReadAll(c, p, Execution(c, call, handler, cost)) == Idle
  {
    var started := [Emitted(ToolAuthorized(call.tool, call.args, cost)),
                    Emitted(ToolStarted(call.tool, call.args, cost))];
    var n, end := RunsOf(c, call), EndingEffect(call, cost, EndingOf(c, call));
    var rest := Invocations(handler.id, n) + [end];
    assert Execution(c, call, handler, cost) == started + rest;
    ReadAppend(c, p, started, rest);
    ReadStart(c, p, call, cost);
    RunsAreAllowed(c, call);
    var running := Running(call.tool, call.args, cost, 0);
    ReadEnd(c, running.(runs := n), call, EndingOf(c, call));
    ReadRuns(c, running, handler.id, n, end);
  }

  lemma ReadStart(c: Controls, p: Phase, call: Call, cost: real)
    requires p == if ApprovalNeeded(c, call.tool) then Approved(call.tool, call.args, cost)
             else Requested(call.tool, call.args, cost)
    requires CostCovered(c, call.tool, call.args, cost)
    ensures ReadAll(c, p, [Emitted(ToolAuthorized(call.tool, call.args, cost)),
                           Emitted(ToolStarted(call.tool, call.args, cost))]) == Running(call.tool, call.args, cost, 0)
  {
    ReadTwo(c, p, Emitted(ToolAuthorized(call.tool, call.args, cost)),
        Emitted(ToolStarted(call.tool, call.args, cost)));
  }

  lemma ReadEnd(c: Controls, p: Phase, call: Call, ending: Ending)
    requires p.Running? && p.tool == call.tool && p.args == call.args
    ensures ReadAll(c, p, [EndingEffect(call, p.cost, ending)]) == Idle
  {
    ReadOne(c, p, EndingEffect(call, p.cost, ending));
  }

  lemma ReadRuns(c: Controls, p: Phase, handler: nat, n: nat, end: Effect)
    requires p.Running? && p.runs == 0 && n <= LimitOf(c, p.tool)
    requires p.tool in c.registry ==> handler == c.registry[p.tool].handler.id
    requires ReadAll(c, p.(runs := n), [end]) == Idle
    ensures ReadAll(c, p, Invocations(handler, n) + [end]) == Idle
  {
    ReadAppend(c, p, Invocations(handler, n), [end]);
    ReadInvocations(c, p, handler, n);
  }

  /** What the caller asked for is charged, or the registered minimum; less than the minimum is refused. */
  lemma CostIsAsked(c: Controls, call: Call)
    requires c.Valid()
    ensures var r := EstimatedCost(SpecOf(c, call), call);
            var least := if call.tool in c.registry then RegisteredMinimum(c.registry[call.tool], call.args)
                else Ok(0.0);
            && (r.Ok? <==> least.Ok? && (call.cost.Some? ==>
                call.cost.value.Finite? && 0.0 <= call.cost.value.value && least.value <= call.cost.value.value))
            && (r.Ok? ==> r.value == if call.cost.Some? then call.cost.value.value else least.value)
  {
  }

  lemma CostIsCovered(c: Controls, call: Call)
    ensures var r := EstimatedCost(SpecOf(c, call), call);
            r.Ok? ==> CostCovered(c, call.tool, call.args, r.value)
  {
  }

  /** The events up to and including the approval gate. */
  lemma ReadGates(c: Controls, p: Phase, call: Call, cost: real)
    requires Quiet(p) && AccessGate(c, call).refusal.None?
    ensures var gate := ApprovalGate(c, call);
            var events := AccessGate(c, call).events + [ToolRequested(call.tool, call.args, cost)] + gate.events;
            ReadAll(c, p, Emissions(events))
                == ReadAll(c, Requested(call.tool, call.args, cost), Emissions(gate.events))
  {
    var access, gate, requested := AccessGate(c, call), ApprovalGate(c, call),
        ToolRequested(call.tool, call.args, cost);
    EmissionsAppend(access.events, [requested]);
    EmissionsAppend(access.events + [requested], gate.events);
    assert Emissions([requested]) == [Emitted(requested)];
    ReadAccess(c, p, call);
    ReadAppend(c, p, Emissions(access.events) + [Emitted(requested)], Emissions(gate.events));
    ReadAppend(c, p, Emissions(access.events), [Emitted(requested)]);
    ReadOne(c, ReadAll(c, p, Emissions(access.events)), Emitted(requested));
  }

  lemma PreparedIsResolved(c: Controls, s: State, call: Call)
    ensures var a := Prepare(c, s, call);
            a.Admitted? ==>
              && Resolve(c, call) == Ok(a.handler) && EstimatedCost(SpecOf(c, call), call) == Ok(a.cost)
              && AccessGate(c, call).refusal.None? && ApprovalGate(c, call).refusal.None?
              && a.events == AccessGate(c, call).events + [ToolRequested(call.tool, call.args, a.cost)]
                  + ApprovalGate(c, call).events
  {
  }

  lemma ReadRefused(c: Controls, s: State, p: Phase, call: Call)
    requires Quiet(p) && Prepare(c, s, call).Refused?
    ensures Quiet(ReadAll(c, p, Emissions(Prepare(c, s, call).events)))
  {
    var a, access, gate := Prepare(c, s, call), AccessGate(c, call), ApprovalGate(c, call);
    var r := EstimatedCost(SpecOf(c, call), call);
    if a.events == [] {
      assert Emissions(a.events) == [];
    } else if a.events == access.events {
      ReadAccess(c, p, call);
    } else {
      ReadGates(c, p, call, r.value);
      ReadApproval(c, call, r.value);
    }
  }

  lemma ReadCall(c: Controls, s: State, call: Call)
    requires Quiet(ReadAll(c, Idle, s.trace))
    ensures Quiet(ReadAll(c, Idle, AfterCall(c, s, call).trace))
  {
    var a, p := Prepare(c, s, call), ReadAll(c, Idle, s.trace);
    ReadAppend(c, Idle, s.trace, Emissions(a.events));
    if a.Refused? {
      ReadRefused(c, s, p, call);
    } else {
      PreparedIsResolved(c, s, call);
      CostIsCovered(c, call);
      ReadGates(c, p, call, a.cost);
      ReadApproval(c, call, a.cost);
      ReadAppend(c, Idle, s.trace + Emissions(a.events), Execution(c, call, a.handler, a.cost));
      ReadExecution(c, ReadAll(c, p, Emissions(a.events)), call, a.handler, a.cost);
    }
  }

  lemma ReadOp(c: Controls, s: State, op: Op)
    requires Quiet(ReadAll(c, Idle, s.trace))
    ensures Quiet(ReadAll(c, Idle, Apply(c, s, op).trace))
  {
    if op.Use? {
      ReadCall(c, s, op.call);
    } else if Apply(c, s, op).trace != s.trace {
      var s' := Apply(c, s, op);
      assert s'.trace[..|s'.trace| - 1] == s.trace;
    }
  }

  /** The trail of every run obeys the grammar, and at its end no call is open. */
  lemma {:induction false} TrailIsGoverned(c: Controls, ops: seq<Op>)
    ensures Quiet(ReadAll(c, Idle, Run(c, ops).trace))
  {
    if ops != [] {
      TrailIsGoverned(c, ops[..|ops| - 1]);
      ReadOp(c, Run(c, ops[..|ops| - 1]), ops[|ops| - 1]);
    }
  }

  // ----- What the grammar implies -----

  function Started(trace: seq<Effect>): nat {
    if trace == [] then 0
    else
      var last := trace[|trace| - 1];
      Started(trace[..|trace| - 1]) + if last.Emitted? && last.event.ToolStarted? then 1 else 0
  }

  predicate Ends(e: Effect) {
    e.Abandoned? || (e.Emitted? && (e.event.ToolCompleted? || e.event.ToolFailed?))
  }

  function Ended(trace: seq<Effect>): nat {
    if trace == [] then 0 else Ended(trace[..|trace| - 1]) + if Ends(trace[|trace| - 1]) then 1 else 0
  }

  lemma {:induction false} GovernedTrailBalances(c: Controls, trace: seq<Effect>)
    requires !ReadAll(c, Idle, trace).Broken?
    ensures Started(trace) == Ended(trace) + if ReadAll(c, Idle, trace).Running? then 1 else 0
  {
    if trace != [] {
      GovernedTrailBalances(c, trace[..|trace| - 1]);
    }
  }

  /** The endings that the trail shows. */
  function Reported(trace: seq<Effect>): nat {
    if trace == [] then 0
    else
      var last := trace[|trace| - 1];
      Reported(trace[..|trace| - 1]) + if Ends(last) && last.Emitted? then 1 else 0
  }

  lemma {:induction false} ReportedOrAbandoned(trace: seq<Effect>)
    ensures Reported(trace) <= Ended(trace)
    ensures Reported(trace) == Ended(trace) <==> Abandoned !in trace
  {
    if trace != [] {
      var init, last := trace[..|trace| - 1], trace[|trace| - 1];
      ReportedOrAbandoned(init);
      assert trace == init + [last];
    }
  }

  /** The retry loop ends in an exception that `except Exception` does not catch, such as an interrupt. */
  ghost predicate EndsOutside(limit: nat, attempts: nat -> Attempt) {
    exists n: nat :: StopsAt(limit, attempts, n) && attempts(n - 1).Raised? && !attempts(n - 1).ordinary
  }

  /** An admitted call that reaches its handler and whose last attempt raises such an exception. */
  ghost predicate Interrupts(c: Controls, s: State, op: Op) {
    && op.Use? && Prepare(c, s, op.call).Admitted? && Reaches(c, op.call)
    && EndsOutside(LimitOf(c, op.call.tool), op.call.attempts)
  }

  ghost predicate SomeCallInterrupted(c: Controls, ops: seq<Op>) {
    ops != [] && (SomeCallInterrupted(c, ops[..|ops| - 1]) || Interrupts(c, Run(c, ops[..|ops| - 1]), ops[|ops| - 1]))
  }

  lemma InterruptedIff(c: Controls, call: Call)
    ensures EndingOf(c, call) == Interrupted <==> Reaches(c, call) && EndsOutside(LimitOf(c, call.tool), call.attempts)
  {
    var limit := LimitOf(c, call.tool);
    var n := Made(limit, call.attempts);
    LoopStopsOnce(limit, call.attempts, n);
    if EndsOutside(limit, call.attempts) {
      var m: nat :| StopsAt(limit, call.attempts, m) && call.attempts(m - 1).Raised? && !call.attempts(m - 1).ordinary;
      LoopStopsOnce(limit, call.attempts, m);
    }
  }

  /**
   The execution ends well: the store already had its result; or the attempt at which the retry loop
   stops returned a plain value, and the store, if the tool is idempotent, took the report.
   */
  ghost predicate EndsWell(c: Controls, call: Call) {
    var idempotent := call.tool in c.registry && c.registry[call.tool].idempotent;
    if idempotent && call.begin != Begun then call.begin == Stored
    else exists n: nat :: StopsAt(LimitOf(c, call.tool), call.attempts, n) && call.attempts(n - 1).Returned?
           && !call.attempts(n - 1).awaitable && (idempotent ==> call.settles)
  }

  /**
   It ends badly: the store knows of a failure or declines, the loop stops at an exception, or the
   result is no good.
   */
  ghost predicate EndsBadly(c: Controls, call: Call) {
    var idempotent := call.tool in c.registry && c.registry[call.tool].idempotent;
    if idempotent && call.begin != Begun then call.begin != Stored
    else exists n: nat :: StopsAt(LimitOf(c, call.tool), call.attempts, n) && match call.attempts(n - 1)
           case Returned(_, awaitable) => awaitable || (idempotent && !call.settles)
           case Raised(_, _, ordinary) => ordinary
           case Blocked(_, _) => true
  }

  lemma EndingIff(c: Controls, call: Call)
    ensures EndingOf(c, call) == Completed <==> EndsWell(c, call)
    ensures EndingOf(c, call) == Failed <==> EndsBadly(c, call)
  {
    var limit := LimitOf(c, call.tool);
    var n := Made(limit, call.attempts);
    LoopStopsOnce(limit, call.attempts, n);
    forall m: nat | StopsAt(limit, call.attempts, m)
      ensures m == n
    {
      LoopStopsOnce(limit, call.attempts, m);
    }
  }

  lemma ExecutionAbandons(c: Controls, call: Call, handler: Handler, cost: real)
    ensures Abandoned in Execution(c, call, handler, cost) <==> EndingOf(c, call) == Interrupted
  {
    InvocationsAt(handler.id, RunsOf(c, call));
    assert Abandoned !in Invocations(handler.id, RunsOf(c, call));
  }

  lemma ApplyAbandons(c: Controls, s: State, op: Op)
    ensures Abandoned in Apply(c, s, op).trace <==> Abandoned in s.trace || Interrupts(c, s, op)
  {
    if op.Use? {
      var a := Prepare(c, s, op.call);
      assert Abandoned !in Emissions(a.events);
      if a.Admitted? {
        ExecutionAbandons(c, op.call, a.handler, a.cost);
        InterruptedIff(c, op.call);
      }
    }
  }

  lemma {:induction false} AbandonedIff(c: Controls, ops: seq<Op>)
    ensures Abandoned in Run(c, ops).trace <==> SomeCallInterrupted(c, ops)
  {
    if ops != [] {
      var init := ops[..|ops| - 1];
      AbandonedIff(c, init);
      ApplyAbandons(c, Run(c, init), ops[|ops| - 1]);
    }
  }

  /**
   After any run every `tool_started` has had one ending, and all of them are completed or failed
   events exactly when no admitted call's retry loop ended in an exception outside `Exception`.
   */
  lemma EveryStartEndsOnce(c: Controls, ops: seq<Op>)
    ensures var trace := Run(c, ops).trace;
            && Started(trace) == Ended(trace) && Reported(trace) <= Started(trace)
            && (Started(trace) == Reported(trace) <==> !SomeCallInterrupted(c, ops))
  {
    TrailIsGoverned(c, ops);
    GovernedTrailBalances(c, Run(c, ops).trace);
    ReportedOrAbandoned(Run(c, ops).trace);
    AbandonedIff(c, ops);
  }

  lemma CountsNext(trace: seq<Effect>, e: Effect)
    ensures Started(trace + [e]) == Started(trace) + if e.Emitted? && e.event.ToolStarted? then 1 else 0
    ensures Reported(trace + [e]) == Reported(trace) + if Ends(e) && e.Emitted? then 1 else 0
  {
    assert (trace + [e])[..|trace|] == trace;
  }

  /** The trail of one bare call that is interrupted. */
  lemma InterruptedTrail(c: Controls, call: Call)
    requires c == Controls(None, map[], false, false)
    requires call.tool == "t" && call.first == Callable(Handler(0, false)) && call.args == "" && call.cost == None
    requires call.attempts(0) == Raised("KeyboardInterrupt", false, false)
    ensures Run(c, [Use(call)]).trace
         == [Emitted(ToolRequested("t", "", 0.0))] + [Emitted(ToolAuthorized("t", "", 0.0))]
             + [Emitted(ToolStarted("t", "", 0.0))]
            + [Invoked(0)] + [Abandoned]
  {
    var ops := [Use(call)];
    assert ops[..0] == [] && Run(c, []) == ZERO;
    assert Made(1, call.attempts) == 1 && RunsIn(call.attempts, 0) == 0;
    assert RunsOf(c, call) == 1 && EndingOf(c, call) == Interrupted;
    assert Invocations(0, 1) == [Invoked(0)] + Invocations(0, 0);
    assert Prepare(c, ZERO, call) == Admitted([ToolRequested("t", "", 0.0)], Handler(0, false), 0.0);
    assert Emissions([ToolRequested("t", "", 0.0)]) == [Emitted(ToolRequested("t", "", 0.0))];
  }

  /** One admitted call that is interrupted: a start, and neither a completed nor a failed event. */
  lemma InterruptLeavesNoEnding()
    ensures var interrupt := (i: nat) => Raised("KeyboardInterrupt", false, false);
            var call := Call("t", Callable(Handler(0, false)), "", None, false, Silence, Begun, interrupt, true);
            var trace := Run(Controls(None, map[], false, false), [Use(call)]).trace;
            Started(trace) == 1 && Reported(trace) == 0
  {
    var interrupt := (i: nat) => Raised("KeyboardInterrupt", false, false);
    var call := Call("t", Callable(Handler(0, false)), "", None, false, Silence, Begun, interrupt, true);
    InterruptedTrail(Controls(None, map[], false, false), call);
    var t1 := [] + [Emitted(ToolRequested("t", "", 0.0))];
    var t2 := t1 + [Emitted(ToolAuthorized("t", "", 0.0))];
    var t3 := t2 + [Emitted(ToolStarted("t", "", 0.0))];
    CountsNext([], Emitted(ToolRequested("t", "", 0.0)));
    CountsNext(t1, Emitted(ToolAuthorized("t", "", 0.0)));
    CountsNext(t2, Emitted(ToolStarted("t", "", 0.0)));
    CountsNext(t3, Invoked(0));
    CountsNext(t3 + [Invoked(0)], Abandoned);
  }

  lemma {:induction false} GovernedPrefix(c: Controls, trace: seq<Effect>, n: nat)
    requires n <= |trace| && !ReadAll(c, Idle, trace).Broken?
    ensures !ReadAll(c, Idle, trace[..n]).Broken?
    decreases |trace|
  {
    if n < |trace| {
      GovernedPrefix(c, trace[..|trace| - 1], n);
      assert trace[..|trace| - 1][..n] == trace[..n];
    } else {
      assert trace[..n] == trace;
    }
  }

  /** The start that a running phase stands under, and the handler runs since. */
  lemma {:induction false} RunningSince(c: Controls, trace: seq<Effect>) returns (i: nat)
    requires ReadAll(c, Idle, trace).Running?
    ensures var p := ReadAll(c, Idle, trace);
            i < |trace| && trace[i] == Emitted(ToolStarted(p.tool, p.args, p.cost))
            && p.runs == |trace| - 1 - i && forall j :: i < j < |trace| ==> trace[j].Invoked?
  {
    var last := |trace| - 1;
    if trace[last].Invoked? {
      i := RunningSince(c, trace[..last]);
    } else {
      i := last;
    }
  }

  lemma PhaseBefore(c: Controls, trace: seq<Effect>, n: nat)
    requires n < |trace| && !ReadAll(c, Idle, trace).Broken?
    ensures ReadAll(c, Idle, trace[..n + 1]) == Read(c, ReadAll(c, Idle, trace[..n]), trace[n])
    ensures !ReadAll(c, Idle, trace[..n + 1]).Broken? && !ReadAll(c, Idle, trace[..n]).Broken?
    ensures n == 0 ==> ReadAll(c, Idle, trace[..n]) == Idle
  {
    GovernedPrefix(c, trace, n + 1);
    GovernedPrefix(c, trace, n);
    assert trace[..n + 1][..n] == trace[..n];
  }

  /** A handler run stands under a start that covers the registered minimum. */
  ghost predicate RunsUnder(c: Controls, trace: seq<Effect>, i: nat, n: nat) {
    && i < n < |trace| && trace[i].Emitted? && trace[i].event.ToolStarted? && trace[n].Invoked?
    && (forall j :: i < j < n ==> trace[j].Invoked?)
    && var started := trace[i].event;
       && n - i <= LimitOf(c, started.tool)
       && CostCovered(c, started.tool, started.args, started.cost)
       && (started.tool in c.registry ==> trace[n].handler == c.registry[started.tool].handler.id)
  }

  lemma InvokedUnderStart(c: Controls, trace: seq<Effect>, n: nat) returns (i: nat)
    requires !ReadAll(c, Idle, trace).Broken? && n < |trace| && trace[n].Invoked?
    ensures RunsUnder(c, trace, i, n)
  {
    PhaseBefore(c, trace, n);
    i := RunningSince(c, trace[..n]);
    assert forall j :: 0 <= j < n ==> trace[..n][j] == trace[j];
    PhaseBefore(c, trace, i);
  }

  /**
   Every handler run in every trail happens inside an open `tool_started` whose cost covers the
   registered minimum; it is the registered handler of that tool, and within its retry limit.
   */
  lemma HandlersRunGoverned(c: Controls, ops: seq<Op>, n: nat) returns (i: nat)
    requires n < |Run(c, ops).trace| && Run(c, ops).trace[n].Invoked?
    ensures RunsUnder(c, Run(c, ops).trace, i, n)
  {
    TrailIsGoverned(c, ops);
    i := InvokedUnderStart(c, Run(c, ops).trace, n);
  }

  /** A start right after its authorization, its approval and its request, and those after the clearance. */
  ghost predicate FollowsApproval(c: Controls, trace: seq<Effect>, n: nat, e: Event)
    requires e.ToolStarted?
  {
    && 3 <= n < |trace| && trace[n] == Emitted(e)
    && trace[n - 1] == Emitted(ToolAuthorized(e.tool, e.args, e.cost))
    && trace[n - 2] == Emitted(ApprovalGranted(e.tool))
    && trace[n - 3] == Emitted(ToolRequested(e.tool, e.args, e.cost))
    && (c.hasAuthorizer ==> n >= 4 && trace[n - 4] == Emitted(AuthorizationDecision(e.tool, true)))
  }

  /** What the auditor must have read, and known before, to be in a phase. */
  lemma Predecessor(c: Controls, p: Phase, e: Effect)
    ensures var q := Read(c, p, e);
            && (q.Running? && !e.Invoked? ==> p == Authorized(q.tool, q.args, q.cost))
            && (q.Authorized? ==>
                  && e == Emitted(ToolAuthorized(q.tool, q.args, q.cost))
                  && (p == Approved(q.tool, q.args, q.cost)
                      || (p == Requested(q.tool, q.args, q.cost) && !ApprovalNeeded(c, q.tool))))
            && (q.Approved? ==> e == Emitted(ApprovalGranted(q.tool)) && p == Requested(q.tool, q.args, q.cost))
            && (q.Requested? ==> e == Emitted(ToolRequested(q.tool, q.args, q.cost)))
            && (q.Requested? && c.hasAuthorizer ==> p == Cleared(q.tool))
            && (q.Cleared? ==> e == Emitted(AuthorizationDecision(q.tool, true)))
  {
  }

  /** The step into the phase at `n`, when that phase is one that has to be earned. */
  lemma PhaseEarned(c: Controls, trace: seq<Effect>, n: nat, q: Phase) returns (p: Phase)
    requires !ReadAll(c, Idle, trace).Broken? && n <= |trace| && q == ReadAll(c, Idle, trace[..n]) && !q.Idle?
    ensures n >= 1 && p == ReadAll(c, Idle, trace[..n - 1]) && q == Read(c, p, trace[n - 1])
  {
    PhaseBefore(c, trace, n - 1);
    p := ReadAll(c, Idle, trace[..n - 1]);
  }

  lemma ApprovedAt(c: Controls, trace: seq<Effect>, n: nat, e: Event)
    requires !ReadAll(c, Idle, trace).Broken? && n < |trace| && trace[n] == Emitted(e) && e.ToolStarted?
             && ApprovalNeeded(c, e.tool)
    ensures n >= 2 && trace[n - 1] == Emitted(ToolAuthorized(e.tool, e.args, e.cost))
            && trace[n - 2] == Emitted(ApprovalGranted(e.tool))
    ensures ReadAll(c, Idle, trace[..n - 2]) == Requested(e.tool, e.args, e.cost)
  {
    PhaseBefore(c, trace, n);
    var q := ReadAll(c, Idle, trace[..n]);
    assert q == Authorized(e.tool, e.args, e.cost);
    var p := PhaseEarned(c, trace, n, q);
    Predecessor(c, p, trace[n - 1]);
    var o := PhaseEarned(c, trace, n - 1, p);
    Predecessor(c, o, trace[n - 2]);
  }

  lemma ClearedAt(c: Controls, trace: seq<Effect>, n: nat, q: Phase)
    requires !ReadAll(c, Idle, trace).Broken? && n <= |trace| && q == ReadAll(c, Idle, trace[..n]) && q.Requested?
    ensures n >= 1 && trace[n - 1] == Emitted(ToolRequested(q.tool, q.args, q.cost))
    ensures c.hasAuthorizer ==> n >= 2 && trace[n - 2] == Emitted(AuthorizationDecision(q.tool, true))
  {
    var p := PhaseEarned(c, trace, n, q);
    Predecessor(c, p, trace[n - 1]);
    if c.hasAuthorizer {
      var o := PhaseEarned(c, trace, n - 1, p);
      Predecessor(c, o, trace[n - 2]);
    }
  }

  /** In every run a protected tool starts only after its approval, and under an authorizer only after its clearance. */
  lemma ProtectedStartIsApproved(c: Controls, ops: seq<Op>, n: nat, e: Event)
    requires n < |Run(c, ops).trace| && Run(c, ops).trace[n] == Emitted(e) && e.ToolStarted?
             && ApprovalNeeded(c, e.tool)
    ensures FollowsApproval(c, Run(c, ops).trace, n, e)
  {
    TrailIsGoverned(c, ops);
    ApprovedAt(c, Run(c, ops).trace, n, e);
    ClearedAt(c, Run(c, ops).trace, n - 2, Requested(e.tool, e.args, e.cost));
  }

  // ----- Starts that an operation adds -----

  lemma TraceGrows(c: Controls, s: State, op: Op)
    ensures s.trace <= Apply(c, s, op).trace
  {
  }

  predicate IsStart(e: Effect) { e.Emitted? && e.event.ToolStarted? }

  lemma ExecutionStart(c: Controls, call: Call, handler: Handler, cost: real, i: nat)
    requires i < |Execution(c, call, handler, cost)| && IsStart(Execution(c, call, handler, cost)[i])
    ensures i == 1 && Execution(c, call, handler, cost)[i].event == ToolStarted(call.tool, call.args, cost)
  {
    InvocationsAt(handler.id, RunsOf(c, call));
  }

  lemma GatesStartNothing(c: Controls, s: State, call: Call, i: nat)
    requires i < |Prepare(c, s, call).events|
    ensures !IsStart(Emissions(Prepare(c, s, call).events)[i])
  {
  }

  /** A start that an operation adds is the one start of its admitted call. */
  lemma NewStart(c: Controls, s: State, op: Op, i: nat)
    requires |s.trace| <= i < |Apply(c, s, op).trace| && IsStart(Apply(c, s, op).trace[i])
    ensures op.Use? && Prepare(c, s, op.call).Admitted? && i == |s.trace| + |Prepare(c, s, op.call).events| + 1
    ensures Apply(c, s, op).trace[i].event == ToolStarted(op.call.tool, op.call.args, Prepare(c, s, op.call).cost)
  {
    if op.Use? {
      var a := Prepare(c, s, op.call);
      var gates := |s.trace| + |a.events|;
      if i < gates {
        GatesStartNothing(c, s, op.call, i - |s.trace|);
      } else {
        ExecutionStart(c, op.call, a.handler, a.cost, i - gates);
      }
    }
  }

  // ----- Endings and runs that a call adds -----

  function ExpectedEnding(c: Controls, call: Call, cost: real): Effect { EndingEffect(call, cost, EndingOf(c, call)) }

  /** The last effect of an admitted call is its ending, and it has no other. */
  lemma CallEndsLast(c: Controls, s: State, call: Call, i: nat)
    requires |s.trace| <= i < |AfterCall(c, s, call).trace| && Ends(AfterCall(c, s, call).trace[i])
    ensures var a := Prepare(c, s, call);
            && a.Admitted? && i == |AfterCall(c, s, call).trace| - 1
            && AfterCall(c, s, call).trace[i] == ExpectedEnding(c, call, a.cost)
  {
    var a := Prepare(c, s, call);
    var gates := |s.trace| + |a.events|;
    if i < gates {
      GatesEndNothing(c, s, call, i - |s.trace|);
    } else {
      InvocationsAt(a.handler.id, RunsOf(c, call));
    }
  }

  lemma GatesEndNothing(c: Controls, s: State, call: Call, i: nat)
    requires i < |Prepare(c, s, call).events|
    ensures !Ends(Emissions(Prepare(c, s, call).events)[i])
  {
  }

  /** The event in which a call ends, said by how its execution goes. */
  ghost predicate IsEndingOf(c: Controls, call: Call, cost: real, e: Effect) {
    && (EndsWell(c, call) <==> e == Emitted(ToolCompleted(call.tool, call.args, cost)))
    && (EndsBadly(c, call) <==> e == Emitted(ToolFailed(call.tool, call.args, cost)))
    && (!EndsWell(c, call) && !EndsBadly(c, call) <==> e == Abandoned)
  }

  lemma EndingIsExpected(c: Controls, call: Call, cost: real)
    ensures IsEndingOf(c, call, cost, ExpectedEnding(c, call, cost)) && Ends(ExpectedEnding(c, call, cost))
  {
    EndingIff(c, call);
  }

  /** Every admitted call of a run ends in a completed event exactly if it ends well, and in a failed one if badly. */
  lemma CallHasItsEnding(c: Controls, ops: seq<Op>, m: nat)
    requires m < |ops| && ops[m].Use? && Prepare(c, Run(c, ops[..m]), ops[m].call).Admitted?
    ensures var trace := Run(c, ops[..m + 1]).trace;
            trace != [] && IsEndingOf(c, ops[m].call, Prepare(c, Run(c, ops[..m]), ops[m].call).cost,
                trace[|trace| - 1])
  {
    assert ops[..m + 1][..m] == ops[..m];
    EndingIsExpected(c, ops[m].call, Prepare(c, Run(c, ops[..m]), ops[m].call).cost);
  }

  /** And every completed or failed event of a run is the ending of such a call. */
  lemma {:induction false} EndingIsOfItsCall(c: Controls, ops: seq<Op>, n: nat, i: nat) returns (m: nat)
    requires n <= |ops| && i < |Run(c, ops[..n]).trace| && Ends(Run(c, ops[..n]).trace[i])
    ensures m < n && ops[m].Use? && Prepare(c, Run(c, ops[..m]), ops[m].call).Admitted?
    ensures |Run(c, ops[..m]).trace| <= i == |Run(c, ops[..m + 1]).trace| - 1
    ensures IsEndingOf(c, ops[m].call, Prepare(c, Run(c, ops[..m]), ops[m].call).cost, Run(c, ops[..n]).trace[i])
  {
    var s := Run(c, ops[..n - 1]);
    assert ops[..n][..n - 1] == ops[..n - 1];
    TraceGrows(c, s, ops[n - 1]);
    if i < |s.trace| {
      m := EndingIsOfItsCall(c, ops, n - 1, i);
    } else {
      m := n - 1;
      CallEndsLast(c, s, ops[m].call, i);
      EndingIsExpected(c, ops[m].call, Prepare(c, s, ops[m].call).cost);
    }
  }

  /** How often handlers ran. */
  function InvokedIn(trace: seq<Effect>): nat {
    if trace == [] then 0
    else InvokedIn(trace[..|trace| - 1]) + if trace[|trace| - 1].Invoked? then 1 else 0
  }

  lemma {:induction false} InvokedAdds(a: seq<Effect>, b: seq<Effect>)
    ensures InvokedIn(a + b) == InvokedIn(a) + InvokedIn(b)
  {
    if b == [] {
      assert a + b == a;
    } else {
      var init := b[..|b| - 1];
      assert (a + b)[..|a + b| - 1] == a + init;
      InvokedAdds(a, init);
    }
  }

  lemma {:induction false} InvokedInEmissions(events: seq<Event>)
    ensures InvokedIn(Emissions(events)) == 0
  {
    if events != [] {
      var init := events[..|events| - 1];
      assert Emissions(events)[..|events| - 1] == Emissions(init);
      InvokedInEmissions(init);
    }
  }

  lemma {:induction false} InvokedInInvocations(handler: nat, n: nat)
    ensures InvokedIn(Invocations(handler, n)) == n
  {
    if n > 0 {
      InvokedAdds([Invoked(handler)], Invocations(handler, n - 1));
      InvokedInInvocations(handler, n - 1);
      assert [Invoked(handler)][..0] == [];
    }
  }

  lemma InvokedInExecution(c: Controls, call: Call, handler: Handler, cost: real)
    ensures InvokedIn(Execution(c, call, handler, cost)) == RunsOf(c, call)
  {
    var start := [ToolAuthorized(call.tool, call.args, cost), ToolStarted(call.tool, call.args, cost)];
    var runs, end := Invocations(handler.id, RunsOf(c, call)), ExpectedEnding(c, call, cost);
    assert Execution(c, call, handler, cost) == (Emissions(start) + runs) + [end];
    InvokedInEmissions(start);
    InvokedInInvocations(handler.id, RunsOf(c, call));
    InvokedInParts(Emissions(start), runs, end);
  }

  lemma InvokedInParts(a: seq<Effect>, b: seq<Effect>, end: Effect)
    requires !end.Invoked?
    ensures InvokedIn(a + b + [end]) == InvokedIn(a) + InvokedIn(b)
  {
    InvokedAdds(a + b, [end]);
    InvokedAdds(a, b);
    assert [end][..0] == [];
  }

  /**
   An admitted call runs its handler once for each attempt up to the one at which the retry loop stops,
   but for those that the breaker blocks; not at all if the store answers or declines it.
   */
  lemma CallRunsItsHandler(c: Controls, s: State, call: Call, n: nat)
    requires StopsAt(LimitOf(c, call.tool), call.attempts, n)
    ensures InvokedIn(AfterCall(c, s, call).trace) - InvokedIn(s.trace)
         == if Prepare(c, s, call).Refused?
               || (call.tool in c.registry && c.registry[call.tool].idempotent && call.begin != Begun)
            then 0 else |set i: nat | i < n && !call.attempts(i).Blocked?|
  {
    var a := Prepare(c, s, call);
    InvokedAdds(s.trace, Emissions(a.events));
    InvokedInEmissions(a.events);
    if a.Admitted? {
      InvokedAdds(s.trace + Emissions(a.events), Execution(c, call, a.handler, a.cost));
      InvokedInExecution(c, call, a.handler, a.cost);
      LoopStopsOnce(LimitOf(c, call.tool), call.attempts, n);
      RunsAreUnblocked(call.attempts, n);
    }
  }

  // ----- The context object -----

  class SentinelContext {
    const controls: Controls
    var steps: int
    var toolCalls: int
    var cost: real
    ghost var trace: seq<Effect>

    ghost function Model(): State
      reads this
    {
      State(steps, toolCalls, cost, trace)
    }

    constructor (controls: Controls)
      ensures this.controls == controls && Model() == ZERO
    {
      this.controls := controls;
      steps, toolCalls, cost, trace := 0, 0, 0.0, [];
    }

    method ValidateLimits(prospectiveSteps: int, prospectiveCalls: int, prospectiveCost: real)
      returns (r: Option<Refusal>)
      ensures r == LimitsBroken(controls.guardrails, prospectiveSteps, prospectiveCalls, prospectiveCost)
      ensures controls.guardrails.None? ==> r == None
      ensures controls.guardrails.Some? ==> var g := controls.guardrails.value;
              && (r == Some(NegativeCounter) <==> prospectiveSteps < 0 || prospectiveCalls < 0)
              && (r == Some(TooManySteps) ==> g.maxSteps < prospectiveSteps)
              && (r == Some(TooManyCalls) ==> g.maxToolCalls < prospectiveCalls)
              && (r == Some(TooCostly) ==> g.maxCost < prospectiveCost)
              && (r == None <==> 0 <= prospectiveSteps <= g.maxSteps && 0 <= prospectiveCalls <= g.maxToolCalls
                                 && 0.0 <= prospectiveCost <= g.maxCost)
    {
      r := None;
      if controls.guardrails.Some? {
        var g := controls.guardrails.value;
        if prospectiveSteps < 0 || prospectiveCalls < 0 {
          return Some(NegativeCounter);
        }
        if prospectiveCost < 0.0 {
          return Some(BadCost);
        }
        if prospectiveSteps > g.maxSteps {
          return Some(TooManySteps);
        }
        if prospectiveCalls > g.maxToolCalls {
          return Some(TooManyCalls);
        }
        if prospectiveCost > g.maxCost {
          return Some(TooCostly);
        }
      }
    }

    method CountStep() returns (refusal: Option<Refusal>)
      modifies this
      ensures Model() == Apply(controls, old(Model()), BumpStep)
      ensures refusal.Some? <==> Model() == old(Model())
      ensures steps == old(steps) + (if refusal.None? then 1 else 0)
      ensures toolCalls == old(toolCalls) && cost == old(cost) && trace == old(trace)
    {
      refusal := ValidateLimits(steps + 1, toolCalls, cost);
      if refusal.None? {
        steps := steps + 1;
      }
    }

    method CountToolCall() returns (refusal: Option<Refusal>)
      modifies this
      ensures Model() == Apply(controls, old(Model()), BumpToolCall)
      ensures refusal.Some? <==> Model() == old(Model())
      ensures toolCalls == old(toolCalls) + (if refusal.None? then 1 else 0)
      ensures steps == old(steps) && cost == old(cost)
    {
      refusal := ValidateLimits(steps, toolCalls + 1, cost);
      if refusal.None? {
        toolCalls := toolCalls + 1;
        trace := trace + [Charged(1, 0.0)];
      }
    }

    method Charge(amount: Amount) returns (refusal: Option<Refusal>)
      modifies this
      ensures Model() == Apply(controls, old(Model()), AddCost(amount))
      ensures refusal.Some? <==> Model() == old(Model())
      ensures refusal.None? ==> amount.Finite? && 0.0 <= amount.value && cost == old(cost) + amount.value
      ensures refusal == Some(BadCost) <== !(amount.Finite? && 0.0 <= amount.value)
      ensures steps == old(steps) && toolCalls == old(toolCalls)
    {
      match CostAmount(amount)
      case Err(e) => refusal := Some(e);
      case Ok(v) =>
        refusal := ValidateLimits(steps, toolCalls, cost + v);
        if refusal.None? {
          cost := cost + v;
          trace := trace + [Charged(0, v)];
        }
    }

    method EmitAll(events: seq<Event>)
      modifies this`trace
      ensures trace == old(trace) + Emissions(events)
    {
      var i := 0;
      while i < |events|
        invariant 0 <= i <= |events|
        invariant trace == old(trace) + Emissions(events[..i])
      {
        assert Emissions(events[..i + 1]) == Emissions(events[..i]) + [Emitted(events[i])];
        trace := trace + [Emitted(events[i])];
        i := i + 1;
      }
      assert events[..i] == events;
    }

    method ClearCall(call: Call) returns (r: Result<(Handler, real), Refusal>)
      modifies this`trace
      ensures r == Clear(controls, call).1 && trace == old(trace) + Emissions(Clear(controls, call).0)
    {
      assert Emissions([]) == [];
      var name := NameRefused(controls.guardrails, call.tool);
      if name.Some? {
        return Err(name.value);
      }
      var handler;
      match Resolve(controls, call) {
        case Err(e) => return Err(e);
        case Ok(h) => handler := h;
      }
      var access := AccessGate(controls, call);
      EmitAll(access.events);
      if access.refusal.Some? {
        return Err(access.refusal.value);
      }
      var spec := SpecOf(controls, call);
      if handler.coroutine {
        return Err(Asynchronous);
      }
      if spec.Some? && spec.value.hasTimeout {
        return Err(HasTimeout);
      }
      match EstimatedCost(spec, call) {
        case Err(e) => r := Err(e);
        case Ok(v) => r := Ok((handler, v));
      }
    }

    /** The gates in order; counters are reserved before the handler is started. */
    method PrepareCall(call: Call) returns (r: Result<(Handler, real), Refusal>)
      modifies this
      ensures match Prepare(controls, old(Model()), call)
              case Refused(events, why) =>
                r == Err(why) && Model() == old(Model()).(trace := old(trace) + Emissions(events))
              case Admitted(events, handler, selected) =>
                && r == Ok((handler, selected))
                && Model() == State(old(steps), old(toolCalls) + 1, old(cost) + selected,
                                    old(trace) + Emissions(events)
                                    + [Emitted(ToolAuthorized(call.tool, call.args, selected)),
                                        Emitted(ToolStarted(call.tool, call.args, selected))])
    {
      var cleared := ClearCall(call);
      if cleared.Err? {
        return Err(cleared.error);
      }
      r := Reserve(call, cleared.value.0, cleared.value.1, Clear(controls, call).0, old(trace));
    }

    /** The approval gate and the limits, after which the counters are charged and the call is started. */
    method Reserve(call: Call, handler: Handler, selected: real, ghost cleared: seq<Event>, ghost start: seq<Effect>)
      returns (r: Result<(Handler, real), Refusal>)
      requires trace == start + Emissions(cleared)
      modifies this
      ensures match Request(controls, old(Model()), call, cleared, handler, selected)
              case Refused(events, why) =>
                r == Err(why) && Model() == old(Model()).(trace := start + Emissions(events))
              case Admitted(events, _, _) =>
                && r == Ok((handler, selected))
                && Model() == State(old(steps), old(toolCalls) + 1, old(cost) + selected,
                                    start + Emissions(events)
                                    + [Emitted(ToolAuthorized(call.tool, call.args, selected)),
                                        Emitted(ToolStarted(call.tool, call.args, selected))])
    {
      var requested := ToolRequested(call.tool, call.args, selected);
      EmitAll([requested]);
      var approval := ApprovalGate(controls, call);
      EmitAll(approval.events);
      EmissionsAppend(cleared, [requested]);
      EmissionsAppend(cleared + [requested], approval.events);
      if approval.refusal.Some? {
        return Err(approval.refusal.value);
      }
      var refusal := ValidateLimits(steps, toolCalls + 1, cost + selected);
      if refusal.Some? {
        return Err(refusal.value);
      }
      toolCalls, cost := toolCalls + 1, cost + selected;
      trace := trace + [Emitted(ToolAuthorized(call.tool, call.args, selected)),
          Emitted(ToolStarted(call.tool, call.args, selected))];
      r := Ok((handler, selected));
    }

    /** The retry loop around the handler; attempts that the breaker blocks do not run it. */
    method RunAttempts(handler: Handler, limit: nat, attempts: nat -> Attempt) returns (outcome: Attempt)
      requires limit >= 1
      modifies this`trace
      ensures 1 <= Made(limit, attempts) && outcome == attempts(Made(limit, attempts) - 1)
      ensures trace == old(trace) + Invocations(handler.id, RunsIn(attempts, Made(limit, attempts)))
    {
      var made, runs;
      outcome, made, runs := RetryCall(limit, attempts);
      trace := trace + Invocations(handler.id, runs);
    }

    /** The execution of a prepared call: what the caller of `_execute_sync` sees of it. */
    method ExecuteSync(call: Call, handler: Handler) returns (ending: Ending)
      modifies this`trace
      ensures ending == EndingOf(controls, call)
      ensures trace == old(trace) + Invocations(handler.id, RunsOf(controls, call))
    {
      var idempotent := IsIdempotent(controls, call.tool);
      if idempotent {
        if call.begin == Stored {
          return Completed;
        }
        if call.begin != Begun {
          return Failed;
        }
      }
      var outcome := RunAttempts(handler, LimitOf(controls, call.tool), call.attempts);
      match outcome
      case Returned(_, awaitable) =>
        if awaitable {
          return Failed;
        }
        ending := if idempotent && !call.settles then Failed else Completed;
      case Raised(_, _, ordinary) => ending := if ordinary then Failed else Interrupted;
      case Blocked(_, _) => ending := Failed;
    }

    method CallTool(call: Call) returns (r: Result<Ending, Refusal>)
      modifies this
      ensures Model() == Apply(controls, old(Model()), Use(call))
      ensures r.Ok? <==> Prepare(controls, old(Model()), call).Admitted?
      ensures r.Ok? ==> r.value == EndingOf(controls, call)
      ensures r.Err? ==> r.error == Prepare(controls, old(Model()), call).why
    {
      var prepared := PrepareCall(call);
      match prepared
      case Err(e) => r := Err(e);
      case Ok((handler, selected)) =>
        var ending := ExecuteSync(call, handler);
        match ending {
          case Completed => trace := trace + [Emitted(ToolCompleted(call.tool, call.args, selected))];
          case Failed => trace := trace + [Emitted(ToolFailed(call.tool, call.args, selected))];
          case Interrupted => trace := trace + [Abandoned];
        }
        r := Ok(ending);
    }
  }
}
