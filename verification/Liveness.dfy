/** An execution whose gate has not been deleted can always be ended: aborting and
    failing are never blocked by the gate's status, and confirming needs at most two
    manual gate moves first. */
module Liveness {
  import opened Statuses
  import opened Rows
  import opened Text
  import opened Repository
  import opened Services
  import opened Dispatch
  import opened Versions
  import opened Locking
  import opened Trails
  import opened Agreement
  import opened Coupling
  import opened Workflow

  /** Directive `d` is being executed on gate `g`, both live. */
  ghost predicate Runs(s: Store, d: nat, g: nat) {
    && AllCodesUnique(s)
    && Live(s.directives, d) && s.directives[d].status == Executing
    && Live(s.gates, g) && s.gates[g].code == Canonical(s.directives[d].body.gateCode)
    && KnownGateStatus(s.gates[g].status)
  }

  /** It has a pending receipt `r`, too. */
  ghost predicate Executes(s: Store, d: nat, g: nat, r: nat) {
    && Runs(s, d, g) && SlotsUnique(s.receipts)
    && Live(s.receipts, r) && s.receipts[r].status == Pending
    && s.directives[d].code == Canonical(s.receipts[r].body.directiveCode)
    && s.receipts[r].body.directiveCode == s.directives[d].code
  }

  // ---- Reachable states ----

  lemma {:induction false} GateTrailsAreKnown(trail: seq<Audit>)
    requires trail != [] && trail[0].after == Open && Chained(GATE_GRAPH, trail)
    ensures KnownGateStatus(trail[|trail| - 1].after)
  {
    var n := |trail| - 1;
    if n > 0 {
      GateTrailsAreKnown(trail[..n]);
      GateEdges(trail[n].before, trail[n].after);
    }
  }

  lemma ReachableRuns(schedule: seq<Event>, d: nat, g: nat)
    requires HonestSchedule(schedule)
    requires var s := Exec(schedule).store;
             && Live(s.directives, d) && s.directives[d].status == Executing
             && Live(s.gates, g) && s.gates[g].code == Canonical(s.directives[d].body.gateCode)
    ensures Runs(Exec(schedule).store, d, g)
  {
    AlwaysInv(schedule);
    CodesStayUnique(schedule);
    GateTrailsAreKnown(Trail(Exec(schedule).store.audits, GateUnit, g));
  }

  lemma ReachableExecutions(schedule: seq<Event>, d: nat, g: nat, r: nat)
    requires HonestSchedule(schedule)
    requires var s := Exec(schedule).store;
             && Live(s.directives, d) && s.directives[d].status == Executing
             && Live(s.gates, g) && s.gates[g].code == Canonical(s.directives[d].body.gateCode)
             && Live(s.receipts, r) && s.receipts[r].status == Pending
             && s.receipts[r].body.directiveCode == s.directives[d].code
    ensures Executes(Exec(schedule).store, d, g, r)
  {
    ReachableRuns(schedule, d, g);
    AlwaysInv(schedule);
    var s := Exec(schedule).store;
    assert Answers(s.receipts[r], s.directives);
    AnsweredCodeIsCanonical(s.directives, s.receipts[r]);
  }

  // ---- Ending an execution ----

  lemma RunIsFound(s: Store, d: nat, g: nat)
    requires Runs(s, d, g)
    ensures ById(s.directives, d) == Some(Seen(d, s.directives[d]))
    ensures ByCode(s.gates, s.directives[d].body.gateCode) == Some(Seen(g, s.gates[g]))
  {
    FoundAgain(s.gates, Seen(g, s.gates[g]));
  }

  lemma ReceiptIsFound(s: Store, d: nat, g: nat, r: nat)
    requires Executes(s, d, g, r)
    ensures ById(s.receipts, r) == Some(Seen(r, s.receipts[r]))
    ensures ByCode(s.directives, s.receipts[r].body.directiveCode) == Some(Seen(d, s.directives[d]))
  {
    FoundAgain(s.directives, Seen(d, s.directives[d]));
  }

  lemma StepCommits(s: Store, request: Request, caller: Caller, key: nat, plan: Plan)
    requires Decide(request, caller, ViewNow(s, request)) == Ok(plan)
    ensures AtomicStep(s, request, caller, key) == Commit(s, plan, key)
  {
  }

  lemma AbortView(s: Store, d: nat, g: nat, expected: nat)
    requires Runs(s, d, g)
    ensures ViewNow(s, MoveDirective(d, Aborted, expected))
            == View(None, Some(Seen(d, s.directives[d])), Some(Seen(g, s.gates[g])), 0)
  {
    RunIsFound(s, d, g);
  }

  lemma AbortDecision(directive: Seen<DirectiveBody>, gate: Seen<GateBody>, caller: Caller) returns (plan: Plan)
    requires directive.row.status == Executing && KnownGateStatus(gate.row.status) && caller.role != Viewer
    ensures DecideMoveDirective(caller, View(None, Some(directive), Some(gate), 0), Aborted, directive.row.version) == Ok(plan)
    ensures plan == Plan(caller.actor, None,
                         Some(Update(directive.id, directive.row.version,
                                     directive.row.(status := Aborted, version := directive.row.version + 1),
                                     Transitioned, Executing)),
                         None,
                         if gate.row.status == Locked then None else Some(SetStatus(gate, Locked, DirectiveExecution)))
  {
    DirectiveEdges(Executing, Aborted);
    GateEdges(gate.row.status, Locked);
    plan := DecideMoveDirective(caller, View(None, Some(directive), Some(gate), 0), Aborted, directive.row.version).value;
  }

  lemma AbortIsPlanned(s: Store, d: nat, g: nat, caller: Caller) returns (plan: Plan)
    requires Runs(s, d, g) && caller.role != Viewer
    ensures var request := MoveDirective(d, Aborted, s.directives[d].version);
            Decide(request, caller, ViewNow(s, request)) == Ok(plan)
    ensures plan.receipt.None? && plan.approval.None?
    ensures plan.directive.Some? && plan.directive.value.Update? && plan.directive.value.id == d
            && plan.directive.value.expected == s.directives[d].version && plan.directive.value.row.status == Aborted
    ensures if s.gates[g].status == Locked then plan.gate.None?
            else plan.gate == Some(SetStatus(Seen(g, s.gates[g]), Locked, DirectiveExecution))
  {
    var directive, gate := Seen(d, s.directives[d]), Seen(g, s.gates[g]);
    AbortView(s, d, g, directive.row.version);
    plan := AbortDecision(directive, gate, caller);
  }

  /** The directive can be aborted by anyone with a role for it; the gate locks. */
  lemma AbortIsEnabled(s: Store, d: nat, g: nat, caller: Caller, key: nat)
    requires Runs(s, d, g) && caller.role != Viewer
    ensures var outcome := AtomicStep(s, MoveDirective(d, Aborted, s.directives[d].version), caller, key);
            && outcome.Ok? && d in outcome.value.directives && outcome.value.directives[d].status == Aborted
            && g in outcome.value.gates && outcome.value.gates[g].status == Locked
  {
    var plan := AbortIsPlanned(s, d, g, caller);
    StepCommits(s, MoveDirective(d, Aborted, s.directives[d].version), caller, key, plan);
  }

  lemma OutcomeView(s: Store, d: nat, g: nat, r: nat, target: Status, expected: nat)
    requires Executes(s, d, g, r)
    ensures ViewNow(s, MoveReceipt(r, target, expected))
            == View(Some(Seen(r, s.receipts[r])), Some(Seen(d, s.directives[d])), Some(Seen(g, s.gates[g])), 0)
  {
    RunIsFound(s, d, g);
    ReceiptIsFound(s, d, g, r);
  }

  lemma OutcomeSlotIsFree(s: Store, d: nat, g: nat, r: nat, change: Change<ReceiptBody>, key: nat)
    requires Executes(s, d, g, r)
    requires change.Update? && change.id == r && change.expected == s.receipts[r].version
    requires change.row.body.directiveCode == s.receipts[r].body.directiveCode
    ensures ApplyReceipt(s.receipts, Some(change), key) == Cas(s.receipts, r, change.expected, change.row)
    ensures ApplyReceipt(s.receipts, Some(change), key).Ok?
  {
  }

  /** The plan of an outcome: receipt and directive end, the gate goes to `goal`. */
  predicate PlannedOutcome(s: Store, d: nat, g: nat, r: nat, target: Status, goal: Status, plan: Plan)
    requires d in s.directives && g in s.gates && r in s.receipts
  {
    && plan.receipt.Some? && plan.receipt.value.Update? && plan.receipt.value.id == r
    && plan.receipt.value.expected == s.receipts[r].version && plan.receipt.value.row.status == target
    && plan.receipt.value.row.body.directiveCode == s.receipts[r].body.directiveCode
    && plan.directive == Some(SetStatus(Seen(d, s.directives[d]), if target == Confirmed then Completed else Aborted,
                                        ExecutionOutcome))
    && plan.gate == (if s.gates[g].status == goal then None
                     else Some(SetStatus(Seen(g, s.gates[g]), goal, ExecutionOutcome)))
    && plan.approval.None?
  }

  lemma OutcomeDecision(receipt: Seen<ReceiptBody>, directive: Seen<DirectiveBody>, gate: Seen<GateBody>,
                        target: Status, goal: Status, caller: Caller) returns (row: Receipt)
    requires receipt.row.status == Pending && directive.row.status == Executing
    requires target == Confirmed || target == Failed
    requires goal == (if target == Confirmed then directive.row.body.target else Locked)
    requires gate.row.status == goal || CanTransition(GATE_GRAPH, gate.row.status, goal)
    ensures row.status == target && row.body.directiveCode == receipt.row.body.directiveCode
    ensures DecideMoveReceipt(caller, View(Some(receipt), Some(directive), Some(gate), 0), target, receipt.row.version)
            == Ok(Plan(caller.actor, Some(Update(receipt.id, receipt.row.version, row, Transitioned, Pending)),
                       Some(SetStatus(directive, if target == Confirmed then Completed else Aborted, ExecutionOutcome)), None,
                       if gate.row.status == goal then None else Some(SetStatus(gate, goal, ExecutionOutcome))))
  {
    ReceiptEdges(Pending, target);
    row := receipt.row.(status := target, version := receipt.row.version + 1,
                        body := if target == Confirmed then receipt.row.body.(confirmedBy := caller.actor) else receipt.row.body);
  }

  lemma OutcomeIsPlanned(s: Store, d: nat, g: nat, r: nat, target: Status, goal: Status, caller: Caller)
    returns (plan: Plan)
    requires Executes(s, d, g, r)
    requires target == Confirmed || target == Failed
    requires goal == (if target == Confirmed then s.directives[d].body.target else Locked)
    requires s.gates[g].status == goal || CanTransition(GATE_GRAPH, s.gates[g].status, goal)
    ensures var request := MoveReceipt(r, target, s.receipts[r].version);
            Decide(request, caller, ViewNow(s, request)) == Ok(plan)
    ensures PlannedOutcome(s, d, g, r, target, goal, plan)
  {
    OutcomeView(s, d, g, r, target, s.receipts[r].version);
    var receipt, directive, gate := Seen(r, s.receipts[r]), Seen(d, s.directives[d]), Seen(g, s.gates[g]);
    var row := OutcomeDecision(receipt, directive, gate, target, goal, caller);
    plan := DecideMoveReceipt(caller, View(Some(receipt), Some(directive), Some(gate), 0), target, receipt.row.version).value;
  }

  lemma OutcomePlanCommits(s: Store, d: nat, g: nat, r: nat, target: Status, goal: Status, plan: Plan, key: nat)
    requires Executes(s, d, g, r) && PlannedOutcome(s, d, g, r, target, goal, plan)
    ensures var outcome := Commit(s, plan, key);
            && outcome.Ok? && d in outcome.value.directives && g in outcome.value.gates && r in outcome.value.receipts
            && outcome.value.receipts[r].status == target
            && outcome.value.directives[d].status == (if target == Confirmed then Completed else Aborted)
            && outcome.value.gates[g].status == goal
  {
    OutcomeSlotIsFree(s, d, g, r, plan.receipt.value, key);
  }

  lemma OutcomeCommits(s: Store, d: nat, g: nat, r: nat, target: Status, caller: Caller, key: nat)
    requires Executes(s, d, g, r)
    requires target == Confirmed || target == Failed
    requires var goal: Status := if target == Confirmed then s.directives[d].body.target else Locked;
             s.gates[g].status == goal || CanTransition(GATE_GRAPH, s.gates[g].status, goal)
    ensures var outcome := AtomicStep(s, MoveReceipt(r, target, s.receipts[r].version), caller, key);
            && outcome.Ok? && d in outcome.value.directives && g in outcome.value.gates && r in outcome.value.receipts
            && outcome.value.receipts[r].status == target
            && outcome.value.directives[d].status == (if target == Confirmed then Completed else Aborted)
            && outcome.value.gates[g].status == (if target == Confirmed then s.directives[d].body.target else Locked)
  {
    var goal: Status := if target == Confirmed then s.directives[d].body.target else Locked;
    var plan := OutcomeIsPlanned(s, d, g, r, target, goal, caller);
    OutcomePlanCommits(s, d, g, r, target, goal, plan, key);
    StepCommits(s, MoveReceipt(r, target, s.receipts[r].version), caller, key, plan);
  }

  /** The receipt can always report failure; directive and gate follow. */
  lemma FailIsEnabled(s: Store, d: nat, g: nat, r: nat, caller: Caller, key: nat)
    requires Executes(s, d, g, r)
    ensures var outcome := AtomicStep(s, MoveReceipt(r, Failed, s.receipts[r].version), caller, key);
            && outcome.Ok? && d in outcome.value.directives && g in outcome.value.gates && r in outcome.value.receipts
            && outcome.value.receipts[r].status == Failed && outcome.value.directives[d].status == Aborted
            && outcome.value.gates[g].status == Locked
  {
    GateEdges(s.gates[g].status, Locked);
    OutcomeCommits(s, d, g, r, Failed, caller, key);
  }

  // ---- Manual gate moves ----

  /** The manual moves that let a gate in `from` settle at `target`. */
  function GatePath(from: Status, target: GateTarget): seq<Status> {
    if from == target || from == Moving || target == Locked then []
    else if from == Locked then (if target == Closed then [] else [Closed, Moving])
    else [Moving]
  }

  /** One uninterrupted manual move after the other. */
  ghost function Drive(s: Store, g: nat, path: seq<Status>, caller: Caller, key: nat): Outcome<Store>
    requires g in s.gates
    decreases |path|
  {
    if path == [] then Ok(s)
    else
      var next :- AtomicStep(s, MoveGate(g, path[0], s.gates[g].version), caller, key);
      if g in next.gates then Drive(next, g, path[1..], caller, key) else Err(NotFound)
  }

  lemma GateMoveIsPlanned(s: Store, g: nat, status: Status, caller: Caller) returns (plan: Plan)
    requires Live(s.gates, g) && CanTransition(GATE_GRAPH, s.gates[g].status, status)
    ensures var request := MoveGate(g, status, s.gates[g].version);
            Decide(request, caller, ViewNow(s, request)) == Ok(plan)
    ensures plan == PlanGate(caller, SetStatus(Seen(g, s.gates[g]), status, Transitioned))
  {
    plan := PlanGate(caller, SetStatus(Seen(g, s.gates[g]), status, Transitioned));
  }

  lemma GateMoveCommits(s: Store, d: nat, g: nat, r: nat, status: Status, caller: Caller, key: nat)
    requires Executes(s, d, g, r) && KnownGateStatus(status)
    ensures var outcome := Commit(s, PlanGate(caller, SetStatus(Seen(g, s.gates[g]), status, Transitioned)), key);
            && outcome.Ok? && Executes(outcome.value, d, g, r)
            && outcome.value.directives == s.directives && outcome.value.receipts == s.receipts
            && outcome.value.gates[g].status == status
  {
    var outcome := Commit(s, PlanGate(caller, SetStatus(Seen(g, s.gates[g]), status, Transitioned)), key);
    assert outcome.Ok?;
    assert outcome.value.gates == s.gates[g := s.gates[g].(status := status, version := s.gates[g].version + 1)];
  }

  lemma GateMoves(s: Store, d: nat, g: nat, r: nat, status: Status, caller: Caller, key: nat)
    requires Executes(s, d, g, r) && CanTransition(GATE_GRAPH, s.gates[g].status, status)
    ensures var outcome := AtomicStep(s, MoveGate(g, status, s.gates[g].version), caller, key);
            && outcome.Ok? && Executes(outcome.value, d, g, r)
            && outcome.value.directives == s.directives && outcome.value.receipts == s.receipts
            && outcome.value.gates[g].status == status
  {
    GateEdges(s.gates[g].status, status);
    var plan := GateMoveIsPlanned(s, g, status, caller);
    StepCommits(s, MoveGate(g, status, s.gates[g].version), caller, key, plan);
    GateMoveCommits(s, d, g, r, status, caller, key);
  }

  lemma DriveUnfolds(s: Store, g: nat, path: seq<Status>, caller: Caller, key: nat, next: Store)
    requires g in s.gates && path != []
    requires AtomicStep(s, MoveGate(g, path[0], s.gates[g].version), caller, key) == Ok(next) && g in next.gates
    ensures Drive(s, g, path, caller, key) == Drive(next, g, path[1..], caller, key)
  {
  }

  lemma DriveOne(s: Store, d: nat, g: nat, r: nat, a: Status, caller: Caller, key: nat)
    requires Executes(s, d, g, r) && CanTransition(GATE_GRAPH, s.gates[g].status, a)
    ensures var driven := Drive(s, g, [a], caller, key);
            && driven.Ok? && Executes(driven.value, d, g, r) && driven.value.gates[g].status == a
            && driven.value.directives == s.directives && driven.value.receipts == s.receipts
  {
    GateMoves(s, d, g, r, a, caller, key);
    DriveUnfolds(s, g, [a], caller, key, AtomicStep(s, MoveGate(g, a, s.gates[g].version), caller, key).value);
  }

  lemma DriveTwo(s: Store, d: nat, g: nat, r: nat, a: Status, b: Status, caller: Caller, key: nat)
    requires Executes(s, d, g, r)
    requires CanTransition(GATE_GRAPH, s.gates[g].status, a) && CanTransition(GATE_GRAPH, a, b)
    ensures var driven := Drive(s, g, [a, b], caller, key);
            && driven.Ok? && Executes(driven.value, d, g, r) && driven.value.gates[g].status == b
            && driven.value.directives == s.directives && driven.value.receipts == s.receipts
  {
    GateMoves(s, d, g, r, a, caller, key);
    var next := AtomicStep(s, MoveGate(g, a, s.gates[g].version), caller, key).value;
    DriveUnfolds(s, g, [a, b], caller, key, next);
    assert [a, b][1..] == [b];
    DriveOne(next, d, g, r, b, caller, key);
  }

  lemma PathReaches(s: Store, d: nat, g: nat, r: nat, caller: Caller, key: nat)
    requires Executes(s, d, g, r)
    ensures var target := s.directives[d].body.target;
            var driven := Drive(s, g, GatePath(s.gates[g].status, target), caller, key);
            && driven.Ok? && Executes(driven.value, d, g, r)
            && driven.value.directives == s.directives && driven.value.receipts == s.receipts
            && (driven.value.gates[g].status == target || CanTransition(GATE_GRAPH, driven.value.gates[g].status, target))
  {
    var target := s.directives[d].body.target;
    var from := s.gates[g].status;
    var path := GatePath(from, target);
    GateEdges(from, target);
    GateEdges(from, Moving);
    GateEdges(Moving, target);
    GateEdges(Closed, Moving);
    GateEdges(Locked, Closed);
    if path == [Moving] {
      DriveOne(s, d, g, r, Moving, caller, key);
    } else if path == [Closed, Moving] {
      DriveTwo(s, d, g, r, Closed, Moving, caller, key);
    }
  }

  /** Confirming the receipt now completes the directive, with the gate at its target. */
  ghost predicate Confirms(s: Store, d: nat, g: nat, r: nat, target: Status, caller: Caller, key: nat) {
    && r in s.receipts
    && var outcome := AtomicStep(s, MoveReceipt(r, Confirmed, s.receipts[r].version), caller, key);
       && outcome.Ok? && d in outcome.value.directives && g in outcome.value.gates
       && outcome.value.directives[d].status == Completed && outcome.value.gates[g].status == target
  }

  lemma ConfirmsNow(s: Store, d: nat, g: nat, r: nat, target: Status, caller: Caller, key: nat)
    requires Executes(s, d, g, r) && target == s.directives[d].body.target
    requires s.gates[g].status == target || CanTransition(GATE_GRAPH, s.gates[g].status, target)
    ensures Confirms(s, d, g, r, target, caller, key)
  {
    OutcomeCommits(s, d, g, r, Confirmed, caller, key);
  }

  /** After at most two manual gate moves the execution can be confirmed: the
      directive completes and the gate is at its target. */
  lemma ConfirmWithinTwoMoves(s: Store, d: nat, g: nat, r: nat, caller: Caller, key: nat)
    requires Executes(s, d, g, r)
    ensures var target := s.directives[d].body.target;
            var path := GatePath(s.gates[g].status, target);
            var driven := Drive(s, g, path, caller, key);
            && |path| <= 2 && driven.Ok? && driven.value.receipts == s.receipts
            && Confirms(driven.value, d, g, r, target, caller, key)
  {
    PathReaches(s, d, g, r, caller, key);
    var target := s.directives[d].body.target;
    var driven := Drive(s, g, GatePath(s.gates[g].status, target), caller, key).value;
    ConfirmsNow(driven, d, g, r, target, caller, key);
  }

  /** In every reachable state a live execution can be aborted at once, failed at
      once, and confirmed after at most two manual moves of its gate. */
  lemma ExecutionCanAlwaysEnd(schedule: seq<Event>, d: nat, g: nat, r: nat, caller: Caller, key: nat)
    requires HonestSchedule(schedule) && caller.role != Viewer
    requires var s := Exec(schedule).store;
             && Live(s.directives, d) && s.directives[d].status == Executing
             && Live(s.gates, g) && s.gates[g].code == Canonical(s.directives[d].body.gateCode)
             && Live(s.receipts, r) && s.receipts[r].status == Pending
             && s.receipts[r].body.directiveCode == s.directives[d].code
    ensures var s := Exec(schedule).store;
            var path := GatePath(s.gates[g].status, s.directives[d].body.target);
            var driven := Drive(s, g, path, caller, key);
            && AtomicStep(s, MoveDirective(d, Aborted, s.directives[d].version), caller, key).Ok?
            && AtomicStep(s, MoveReceipt(r, Failed, s.receipts[r].version), caller, key).Ok?
            && |path| <= 2 && driven.Ok? && driven.value.receipts == s.receipts
            && Confirms(driven.value, d, g, r, s.directives[d].body.target, caller, key)
  {
    var s := Exec(schedule).store;
    ReachableExecutions(schedule, d, g, r);
    AbortIsEnabled(s, d, g, caller, key);
    FailIsEnabled(s, d, g, r, caller, key);
    ConfirmWithinTwoMoves(s, d, g, r, caller, key);
  }

  /** With or without a receipt: whenever directive and gate are live, anyone but a
      viewer can abort the execution at once. */
  lemma ExecutionCanAlwaysBeAborted(schedule: seq<Event>, d: nat, g: nat, caller: Caller, key: nat)
    requires HonestSchedule(schedule) && caller.role != Viewer
    requires var s := Exec(schedule).store;
             && Live(s.directives, d) && s.directives[d].status == Executing
             && Live(s.gates, g) && s.gates[g].code == Canonical(s.directives[d].body.gateCode)
    ensures var s := Exec(schedule).store;
            var outcome := AtomicStep(s, MoveDirective(d, Aborted, s.directives[d].version), caller, key);
            && outcome.Ok? && d in outcome.value.directives && outcome.value.directives[d].status == Aborted
            && g in outcome.value.gates && outcome.value.gates[g].status == Locked
  {
    ReachableRuns(schedule, d, g);
    AbortIsEnabled(Exec(schedule).store, d, g, caller, key);
  }

  // ---- Deleted gates ----

  ghost predicate GateIsLive(s: Store, code: string) {
    exists g :: Live(s.gates, g) && s.gates[g].code == Canonical(code)
  }

  /** This uninterrupted request takes directive `d` out of execution. */
  ghost predicate EndsNow(s: Store, d: nat, request: Request, caller: Caller, key: nat) {
    var outcome := AtomicStep(s, request, caller, key);
    outcome.Ok? && d in outcome.value.directives && outcome.value.directives[d].status != Executing
  }

  ghost predicate CanEnd(s: Store, d: nat) {
    exists request, caller, key :: EndsNow(s, d, request, caller, key)
  }

  /** Whoever has read `d` has read this row, and not its gate. */
  ghost predicate HeldWithoutGate(view: View, d: nat, row: Directive) {
    view.directive.Some? && view.directive.value.id == d ==>
      && view.directive.value.row == row
      && (view.gate.Some? ==> view.gate.value.row.code != Canonical(row.body.gateCode))
  }

  lemma NoGateNoPlan(f: Flight, d: nat, row: Directive, plan: Plan)
    requires FlightFits(f) && row.status == Executing && HeldWithoutGate(f.view, d, row)
    requires Decide(f.request, f.caller, f.view) == Ok(plan)
    ensures plan.directive.Some? ==> plan.directive.value.Insert? || plan.directive.value.id != d
  {
    DirectiveEdges(Executing, if f.request.MoveDirective? then f.request.target else Aborted);
  }

  lemma NoGateNoChange(store: Store, f: Flight, d: nat, key: nat)
    requires d in store.directives && store.directives[d].status == Executing
    requires FlightFits(f) && HeldWithoutGate(f.view, d, store.directives[d])
    ensures d in StoreAfter(store, f, key).directives
    ensures StoreAfter(store, f, key).directives[d] == store.directives[d]
  {
    if Attempt(store, f, key).Ok? {
      NoGateNoPlan(f, d, store.directives[d], Decide(f.request, f.caller, f.view).value);
      AttemptApplies(store, f, key);
    }
  }

  lemma NoGateNoEnd(s: Store, d: nat, request: Request, caller: Caller, key: nat)
    requires d in s.directives && s.directives[d].status == Executing
    requires !Live(s.directives, d) || !GateIsLive(s, s.directives[d].body.gateCode)
    ensures !EndsNow(s, d, request, caller, key)
  {
    var f := Uninterrupted(s, request, caller);
    UninterruptedFits(s, request, caller);
    ViewNowIsPresent(s, request);
    assert Attempt(s, f, key) == AtomicStep(s, request, caller, key);
    NoGateNoChange(s, f, d, key);
  }

  lemma RunCanEnd(s: Store, d: nat, g: nat)
    requires Runs(s, d, g)
    ensures CanEnd(s, d)
  {
    var admin := Caller("admin", Admin);
    AbortIsEnabled(s, d, g, admin, 0);
    assert EndsNow(s, d, MoveDirective(d, Aborted, s.directives[d].version), admin, 0);
  }

  lemma GateLetsEnd(schedule: seq<Event>, d: nat)
    requires HonestSchedule(schedule)
    requires var s := Exec(schedule).store;
             Live(s.directives, d) && s.directives[d].status == Executing && GateIsLive(s, s.directives[d].body.gateCode)
    ensures CanEnd(Exec(schedule).store, d)
  {
    var s := Exec(schedule).store;
    var g: nat :| Live(s.gates, g) && s.gates[g].code == Canonical(s.directives[d].body.gateCode);
    ReachableRuns(schedule, d, g);
    RunCanEnd(s, d, g);
  }

  lemma CannotEnd(s: Store, d: nat)
    requires d in s.directives && s.directives[d].status == Executing
    requires !Live(s.directives, d) || !GateIsLive(s, s.directives[d].body.gateCode)
    ensures !CanEnd(s, d)
  {
    forall request, caller, key
      ensures !EndsNow(s, d, request, caller, key)
    {
      NoGateNoEnd(s, d, request, caller, key);
    }
  }

  /** In every reachable state an executing directive can be ended by some request,
      now, if and only if it and its gate have not been deleted. */
  lemma CanEndIffGateIsLive(schedule: seq<Event>, d: nat)
    requires HonestSchedule(schedule)
    requires d in Exec(schedule).store.directives && Exec(schedule).store.directives[d].status == Executing
    ensures var s := Exec(schedule).store;
            CanEnd(s, d) <==> Live(s.directives, d) && GateIsLive(s, s.directives[d].body.gateCode)
  {
    var s := Exec(schedule).store;
    if Live(s.directives, d) && GateIsLive(s, s.directives[d].body.gateCode) {
      GateLetsEnd(schedule, d);
    } else {
      CannotEnd(s, d);
    }
  }

  ghost predicate NobodyHolds(flights: map<nat, Flight>, d: nat, row: Directive) {
    forall id | id in flights :: FlightFits(flights[id]) && HeldWithoutGate(flights[id].view, d, row)
  }

  /** `d` executes on a deleted gate, and nobody in flight knows better. */
  ghost predicate Stranded(system: System, d: nat, row: Directive, g: nat, tombstone: Gate) {
    && d in system.store.directives && system.store.directives[d] == row && row.status == Executing
    && g in system.store.gates && system.store.gates[g] == tombstone
    && tombstone.deleted && tombstone.code == Canonical(row.body.gateCode)
    && NobodyHolds(system.flights, d, row)
  }

  lemma StrandedRead(store: Store, f: Flight, d: nat, row: Directive, g: nat)
    requires d in store.directives && store.directives[d] == row
    requires CodesUnique(store.gates) && g in store.gates
    requires store.gates[g].deleted && store.gates[g].code == Canonical(row.body.gateCode)
    requires FlightFits(f) && HeldWithoutGate(f.view, d, row)
    ensures HeldWithoutGate(NextRead(store, f).view, d, row)
  {
    var read := ReadGate(store, f.request, f.view);
    assert read.Some? ==> Live(store.gates, read.value.id) && read.value.row == store.gates[read.value.id];
  }

  lemma StrandedFlights(system: System, event: Event, d: nat, row: Directive, g: nat, tombstone: Gate)
    requires Stranded(system, d, row, g, tombstone) && CodesUnique(system.store.gates)
    ensures NobodyHolds(Step(system, event).flights, d, row)
  {
    if event.Read? && event.flight in system.flights {
      NextReadFits(system.store, system.flights[event.flight]);
      StrandedRead(system.store, system.flights[event.flight], d, row, g);
    }
  }

  lemma StrandedStep(system: System, event: Event, d: nat, row: Directive, g: nat, tombstone: Gate)
    requires Stranded(system, d, row, g, tombstone) && CodesUnique(system.store.gates)
    ensures Stranded(Step(system, event), d, row, g, tombstone)
  {
    StepEvolves(system, event);
    StrandedFlights(system, event, d, row, g, tombstone);
    if event.Finish? && Ready(system, event.flight) {
      NoGateNoChange(system.store, system.flights[event.flight], d, event.key);
    }
  }

  /** Once the gate of an executing directive is deleted and no request in flight
      has read the two, the directive executes for ever, whatever any client does. */
  lemma {:induction false} DeletedGateStrandsExecution(schedule: seq<Event>, n: nat, d: nat, row: Directive,
                                                       g: nat, tombstone: Gate)
    requires n <= |schedule| && Stranded(Exec(schedule[..n]), d, row, g, tombstone)
    ensures Stranded(Exec(schedule), d, row, g, tombstone)
  {
    var last := |schedule| - 1;
    if n == |schedule| {
      assert schedule[..n] == schedule;
    } else {
      assert schedule[..last][..n] == schedule[..n];
      DeletedGateStrandsExecution(schedule[..last], n, d, row, g, tombstone);
      CodesStayUnique(schedule[..last]);
      StrandedStep(Exec(schedule[..last]), schedule[last], d, row, g, tombstone);
    }
  }
}
