/** What a committed request leaves in the store, operation by operation: rows, evidence
    and audit entries, said in terms of the request, its caller and the rows it read. */
module Effects {
  import opened Statuses
  import opened Rows
  import opened Text
  import opened Repository
  import opened Services
  import opened Dispatch
  import opened Locking

  /** The business fields a form asks for. */
  predicate FromForm(b: Business, form: Form) {
    && b.name == Trim(form.name) && b.facility == Trim(form.facility) && b.owner == Trim(form.owner)
    && b.category == Trim(form.category) && b.risk == form.risk && b.details == form.details
  }

  // ---- Which table is written ----

  ghost predicate OnlyGate(s: Store, t: Store, id: nat) {
    && id in t.gates && t.gates == s.gates[id := t.gates[id]]
    && t.directives == s.directives && t.receipts == s.receipts && t.approvals == s.approvals
  }

  ghost predicate OnlyDirective(s: Store, t: Store, id: nat) {
    && id in t.directives && t.directives == s.directives[id := t.directives[id]]
    && t.gates == s.gates && t.receipts == s.receipts && t.approvals == s.approvals
  }

  ghost predicate OnlyReceipt(s: Store, t: Store, id: nat) {
    && id in t.receipts && t.receipts == s.receipts[id := t.receipts[id]]
    && t.gates == s.gates && t.directives == s.directives && t.approvals == s.approvals
  }

  /** A row inserted under a new key and a new code. */
  ghost predicate NewRow<T>(rows: Table<T>, key: nat, row: Row<T>, code: string, initial: Status) {
    && key !in rows && (forall id | id in rows :: rows[id].code != Canonical(code))
    && row.code == Canonical(code) && row.status == initial && row.version == 1 && !row.deleted
  }

  /** A live row at the expected version, written one version later. */
  predicate NextRow<T>(rows: Table<T>, id: nat, row: Row<T>, status: Status, expected: nat) {
    && id in rows && !rows[id].deleted && rows[id].version == expected
    && row.code == rows[id].code && row.status == status && row.version == expected + 1 && !row.deleted
  }

  /** A live row, now soft-deleted and otherwise the same. */
  ghost predicate GoneRow<T>(rows: Table<T>, id: nat, row: Row<T>) {
    id in rows && !rows[id].deleted && row == rows[id].(deleted := true)
  }

  // ---- Gates ----

  ghost predicate GateCreated(s: Store, t: Store, key: nat, caller: Caller, form: Form, reservoirCode: string) {
    && OnlyGate(s, t, key) && NewRow(s.gates, key, t.gates[key], form.code, Open)
    && FromForm(t.gates[key].body.business, form) && t.gates[key].body.reservoirCode == Canonical(reservoirCode)
    && t.audits == s.audits + [Audit(GateUnit, key, Created, Blank, Open, caller.actor)]
  }

  ghost predicate GateEdited(s: Store, t: Store, id: nat, caller: Caller, form: Form, reservoir: Reservoir,
                             expected: nat, read: Gate)
  {
    && OnlyGate(s, t, id) && NextRow(s.gates, id, t.gates[id], read.status, expected)
    && FromForm(t.gates[id].body.business, form) && t.gates[id].body.reservoirCode == reservoir.code
    && t.audits == s.audits + [Audit(GateUnit, id, Updated, read.status, read.status, caller.actor)]
  }

  ghost predicate GateMoved(s: Store, t: Store, id: nat, caller: Caller, target: Status, expected: nat, read: Gate) {
    && OnlyGate(s, t, id) && NextRow(s.gates, id, t.gates[id], target, expected) && t.gates[id].body == read.body
    && t.audits == s.audits + [Audit(GateUnit, id, Transitioned, read.status, target, caller.actor)]
  }

  ghost predicate GateDeleted(s: Store, t: Store, id: nat, caller: Caller, read: Gate) {
    && OnlyGate(s, t, id) && GoneRow(s.gates, id, t.gates[id])
    && t.audits == s.audits + [Audit(GateUnit, id, Removed, read.status, Deleted, caller.actor)]
  }

  /** The linked gate goes to `goal`, if there is one and it is not there yet. */
  predicate GateFollows(s: Store, t: Store, gate: Option<Seen<GateBody>>, goal: Option<Status>) {
    if goal.None? || (gate.Some? && gate.value.row.status == goal.value)
    then t.gates == s.gates
    else
      && gate.Some?
      && gate.value.id in t.gates && t.gates == s.gates[gate.value.id := t.gates[gate.value.id]]
      && NextRow(s.gates, gate.value.id, t.gates[gate.value.id], goal.value, gate.value.row.version)
      && t.gates[gate.value.id].body == gate.value.row.body
  }

  /** What the log then says about the gate. */
  function GateLog(gate: Option<Seen<GateBody>>, goal: Option<Status>, action: Action, caller: Caller): seq<Audit> {
    if gate.None? || goal.None? || gate.value.row.status == goal.value then []
    else [Audit(GateUnit, gate.value.id, action, gate.value.row.status, goal.value, caller.actor)]
  }

  // ---- Directives ----

  predicate SameOrderAs(b: DirectiveBody, a: DirectiveBody) {
    b.business == a.business && b.gateCode == a.gateCode && b.target == a.target
  }

  ghost predicate DirectiveCreated(s: Store, t: Store, key: nat, caller: Caller, form: Form, gateCode: string,
                                   gateState: Option<GateTarget>)
  {
    && OnlyDirective(s, t, key) && NewRow(s.directives, key, t.directives[key], form.code, Draft)
    && FromForm(t.directives[key].body.business, form) && t.directives[key].body.gateCode == Canonical(gateCode)
    && t.directives[key].body.submittedBy == "" && t.directives[key].body.approvedBy == ""
    && t.directives[key].body.target == (if gateState.Some? then gateState.value else Closed)
    && t.audits == s.audits + [Audit(OperationDirective, key, Created, Blank, Draft, caller.actor)]
  }

  ghost predicate DirectiveEdited(s: Store, t: Store, id: nat, caller: Caller, form: Form, gateCode: string,
                                  gateState: Option<GateTarget>, expected: nat, read: Directive)
  {
    && read.status == Draft && OnlyDirective(s, t, id) && NextRow(s.directives, id, t.directives[id], Draft, expected)
    && FromForm(t.directives[id].body.business, form) && t.directives[id].body.gateCode == Canonical(gateCode)
    && t.directives[id].body.submittedBy == read.body.submittedBy
    && t.directives[id].body.approvedBy == read.body.approvedBy
    && t.directives[id].body.target == (if gateState.Some? then gateState.value else read.body.target)
    && t.audits == s.audits + [Audit(OperationDirective, id, Updated, Draft, Draft, caller.actor)]
  }

  ghost predicate DirectiveDeleted(s: Store, t: Store, id: nat, caller: Caller, read: Directive) {
    && read.status == Draft && OnlyDirective(s, t, id) && GoneRow(s.directives, id, t.directives[id])
    && t.audits == s.audits + [Audit(OperationDirective, id, Removed, Draft, Deleted, caller.actor)]
  }

  /** Only a submission and an approval sign, and it is the caller who signs. */
  ghost predicate MoveSigned(s: Store, t: Store, id: nat, caller: Caller, target: Status, read: DirectiveBody) {
    && id in t.directives
    && t.directives[id].body.submittedBy == (if target == Pending then caller.actor else read.submittedBy)
    && t.directives[id].body.approvedBy == (if target == Approved then caller.actor else read.approvedBy)
    && (target == Pending ==>
          t.approvals == s.approvals + [Approval(id, Submitted, caller.actor, caller.role, Draft, Pending)])
    && (target == Approved ==>
          t.approvals == s.approvals + [Approval(id, Endorsed, caller.actor, caller.role, Pending, Approved)])
    && (target != Pending && target != Approved ==> t.approvals == s.approvals)
  }

  /** The status the linked gate has to take with a directive's move, by the request. */
  function MoveGoal(read: Directive, target: Status, gate: Option<Seen<GateBody>>): Option<Status> {
    match (read.status, target)
    case (Executing, Aborted) => Some(Locked)
    case (_, Executing) =>
      if gate.Some? && gate.value.row.status == read.body.target then None else Some(Moving)
    case _ => None
  }

  ghost predicate DirectiveMoved(s: Store, t: Store, id: nat, caller: Caller, target: Status, expected: nat,
                                 read: Directive, gate: Option<Seen<GateBody>>)
  {
    && id in t.directives && t.directives == s.directives[id := t.directives[id]] && t.receipts == s.receipts
    && NextRow(s.directives, id, t.directives[id], target, expected) && SameOrderAs(t.directives[id].body, read.body)
    && MoveSigned(s, t, id, caller, target, read.body)
    && GateFollows(s, t, gate, MoveGoal(read, target, gate))
    && t.audits == s.audits + [Audit(OperationDirective, id, Transitioned, read.status, target, caller.actor)]
                   + GateLog(gate, MoveGoal(read, target, gate), DirectiveExecution, caller)
  }

  // ---- Execution confirmations ----

  /** Name, owner and details come from the form, the rest from the directive. */
  predicate ReceiptFields(b: ReceiptBody, form: Form, directive: Directive) {
    && b.business.name == Trim(form.name) && b.business.owner == Trim(form.owner) && b.business.details == form.details
    && b.business.facility == directive.body.business.facility && b.business.category == directive.body.business.category
    && b.business.risk == directive.body.business.risk && b.directiveCode == directive.code
  }

  ghost predicate ReceiptCreated(s: Store, t: Store, key: nat, caller: Caller, form: Form, directive: Directive) {
    && OnlyReceipt(s, t, key) && NewRow(s.receipts, key, t.receipts[key], form.code, Pending)
    && (forall id | id in s.receipts :: s.receipts[id].body.directiveCode != directive.code)
    && ReceiptFields(t.receipts[key].body, form, directive) && t.receipts[key].body.confirmedBy == ""
    && t.audits == s.audits + [Audit(ExecutionConfirmation, key, Created, Blank, Pending, caller.actor)]
  }

  ghost predicate ReceiptEdited(s: Store, t: Store, id: nat, caller: Caller, form: Form, expected: nat,
                                read: Receipt, directive: Directive)
  {
    && read.status == Pending && OnlyReceipt(s, t, id) && NextRow(s.receipts, id, t.receipts[id], Pending, expected)
    && ReceiptFields(t.receipts[id].body, form, directive) && t.receipts[id].body.confirmedBy == read.body.confirmedBy
    && t.audits == s.audits + [Audit(ExecutionConfirmation, id, Updated, Pending, Pending, caller.actor)]
  }

  ghost predicate ReceiptDeleted(s: Store, t: Store, id: nat, caller: Caller, read: Receipt) {
    && read.status == Pending && OnlyReceipt(s, t, id) && GoneRow(s.receipts, id, t.receipts[id])
    && t.audits == s.audits + [Audit(ExecutionConfirmation, id, Removed, Pending, Deleted, caller.actor)]
  }

  /** The receipt's own row: whoever confirms is named, nothing else of the body changes. */
  ghost predicate ReceiptRowMoved(s: Store, t: Store, id: nat, caller: Caller, target: Status, expected: nat, read: Receipt) {
    && id in t.receipts && t.receipts == s.receipts[id := t.receipts[id]] && t.approvals == s.approvals
    && NextRow(s.receipts, id, t.receipts[id], target, expected)
    && MovedBody(t.receipts[id].body, read.body, target, caller)
  }

  /** A failed receipt is cancelled alone. */
  ghost predicate ReceiptCancelled(s: Store, t: Store, id: nat, caller: Caller, expected: nat, read: Receipt) {
    && ReceiptRowMoved(s, t, id, caller, Cancelled, expected, read)
    && t.directives == s.directives && t.gates == s.gates
    && t.audits == s.audits + [Audit(ExecutionConfirmation, id, Transitioned, Failed, Cancelled, caller.actor)]
  }

  /** A first outcome settles the executing directive and its gate as well. */
  ghost predicate ReceiptSettled(s: Store, t: Store, id: nat, caller: Caller, target: Status, expected: nat,
                                 read: Receipt, directive: Seen<DirectiveBody>, gate: Option<Seen<GateBody>>)
  {
    && ReceiptRowMoved(s, t, id, caller, target, expected, read)
    && directive.row.status == Executing
    && directive.id in t.directives && t.directives == s.directives[directive.id := t.directives[directive.id]]
    && NextRow(s.directives, directive.id, t.directives[directive.id], Result(target), directive.row.version)
    && t.directives[directive.id].body == directive.row.body
    && GateFollows(s, t, gate, Some(OutcomeGoal(target, directive.row)))
    && t.audits == s.audits + [Audit(ExecutionConfirmation, id, Transitioned, Pending, target, caller.actor),
                               Audit(OperationDirective, directive.id, ExecutionOutcome, Executing, Result(target), caller.actor)]
                   + GateLog(gate, Some(OutcomeGoal(target, directive.row)), ExecutionOutcome, caller)
  }

  function Result(target: Status): Status {
    if target == Confirmed then Completed else Aborted
  }

  function OutcomeGoal(target: Status, directive: Directive): Status {
    if target == Confirmed then directive.body.target else Locked
  }

  // ---- Any request ----

  /** The row a request addresses by its id is the one it read. */
  predicate Reads<T>(seen: Option<Seen<T>>, id: nat) {
    seen.Some? && seen.value.id == id
  }

  ghost predicate GateEffect(f: Flight, key: nat, s: Store, t: Store) {
    var caller, gate := f.caller, f.view.gate;
    match f.request
    case CreateGate(form, code, reservoir) => reservoir.Some? && GateCreated(s, t, key, caller, form, code)
    case UpdateGate(id, form, _, reservoir, expected) =>
      Reads(gate, id) && reservoir.Some? && GateEdited(s, t, id, caller, form, reservoir.value, expected, gate.value.row)
    case MoveGate(id, target, expected) => Reads(gate, id) && GateMoved(s, t, id, caller, target, expected, gate.value.row)
    case DeleteGate(id) => Reads(gate, id) && GateDeleted(s, t, id, caller, gate.value.row)
    case _ => true
  }

  ghost predicate DirectiveEffect(f: Flight, key: nat, s: Store, t: Store) {
    var caller, directive := f.caller, f.view.directive;
    match f.request
    case CreateDirective(form, code, state) => DirectiveCreated(s, t, key, caller, form, code, state)
    case UpdateDirective(id, form, code, state, expected) =>
      Reads(directive, id) && DirectiveEdited(s, t, id, caller, form, code, state, expected, directive.value.row)
    case MoveDirective(id, target, expected) =>
      Reads(directive, id) && DirectiveMoved(s, t, id, caller, target, expected, directive.value.row, f.view.gate)
    case DeleteDirective(id) => Reads(directive, id) && DirectiveDeleted(s, t, id, caller, directive.value.row)
    case _ => true
  }

  ghost predicate ReceiptEffect(f: Flight, key: nat, s: Store, t: Store) {
    var caller, receipt, directive := f.caller, f.view.receipt, f.view.directive;
    match f.request
    case CreateReceipt(form, _) =>
      directive.Some? && directive.value.row.status == Executing
      && ReceiptCreated(s, t, key, caller, form, directive.value.row)
    case UpdateReceipt(id, form, _, expected) =>
      Reads(receipt, id) && directive.Some? && directive.value.row.status == Executing
      && ReceiptEdited(s, t, id, caller, form, expected, receipt.value.row, directive.value.row)
    case MoveReceipt(id, target, expected) =>
      && Reads(receipt, id)
      && (if receipt.value.row.status == Pending
          then directive.Some? && f.view.gate.Some? && (target == Confirmed || target == Failed)
               && ReceiptSettled(s, t, id, caller, target, expected, receipt.value.row, directive.value, f.view.gate)
          else receipt.value.row.status == Failed && target == Cancelled
               && ReceiptCancelled(s, t, id, caller, expected, receipt.value.row))
    case DeleteReceipt(id) => Reads(receipt, id) && ReceiptDeleted(s, t, id, caller, receipt.value.row)
    case _ => true
  }

  // ---- Gates, proved ----

  /** What a plan that changes one gate only does. */
  lemma GateAlone(s: Store, caller: Caller, change: Change<GateBody>, key: nat, t: Store)
    requires Commit(s, PlanGate(caller, change), key) == Ok(t)
    ensures Apply(s.gates, change, key) == Ok(t.gates)
    ensures t.directives == s.directives && t.receipts == s.receipts && t.approvals == s.approvals
    ensures t.audits == s.audits + [Entry(GateUnit, change, key, caller.actor)]
  {
  }

  lemma DirectiveAlone(s: Store, caller: Caller, change: Change<DirectiveBody>, key: nat, t: Store)
    requires Commit(s, PlanDirective(caller, change), key) == Ok(t)
    ensures Apply(s.directives, change, key) == Ok(t.directives)
    ensures t.gates == s.gates && t.receipts == s.receipts && t.approvals == s.approvals
    ensures t.audits == s.audits + [Entry(OperationDirective, change, key, caller.actor)]
  {
  }

  lemma ReceiptAlone(s: Store, caller: Caller, change: Change<ReceiptBody>, key: nat, t: Store)
    requires Commit(s, PlanReceipt(caller, change), key) == Ok(t)
    ensures Apply(s.receipts, change, key) == Ok(t.receipts)
    ensures !change.Remove? ==> !SlotTaken(s.receipts, Target(change, key), change.row.body.directiveCode)
    ensures t.gates == s.gates && t.directives == s.directives && t.approvals == s.approvals
    ensures t.audits == s.audits + [Entry(ExecutionConfirmation, change, key, caller.actor)]
  {
  }

  lemma GateCommitted(s: Store, f: Flight, key: nat, t: Store)
    requires FlightFits(f) && Attempt(s, f, key) == Ok(t)
    requires f.request.CreateGate? || f.request.UpdateGate? || f.request.MoveGate? || f.request.DeleteGate?
    ensures GateEffect(f, key, s, t)
  {
    GateAlone(s, f.caller, Decide(f.request, f.caller, f.view).value.gate.value, key, t);
  }

  // ---- Directives, proved ----

  lemma DirectiveRowCommitted(s: Store, f: Flight, key: nat, t: Store)
    requires FlightFits(f) && Attempt(s, f, key) == Ok(t)
    requires f.request.CreateDirective? || f.request.UpdateDirective? || f.request.DeleteDirective?
    ensures DirectiveEffect(f, key, s, t)
  {
    DirectiveAlone(s, f.caller, Decide(f.request, f.caller, f.view).value.directive.value, key, t);
  }

  /** The parts of a plan without a receipt. */
  lemma DirectiveParts(s: Store, actor: string, change: Change<DirectiveBody>, approval: Option<Approval>,
                       gate: Option<Change<GateBody>>, key: nat, t: Store)
    requires Commit(s, Plan(actor, None, Some(change), approval, gate), key) == Ok(t)
    ensures Apply(s.directives, change, key) == Ok(t.directives) && ApplyAny(s.gates, gate, key) == Ok(t.gates)
    ensures t.receipts == s.receipts
    ensures t.approvals == if approval.Some? then s.approvals + [approval.value] else s.approvals
    ensures t.audits == s.audits + [Entry(OperationDirective, change, key, actor)]
                        + (if gate.Some? then [Entry(GateUnit, gate.value, key, actor)] else [])
  {
  }

  /** What a decided move plans. */
  lemma MovePlanned(caller: Caller, view: View, target: Status, expected: nat) returns (row: Directive)
    requires DecideMoveDirective(caller, view, target, expected).Ok?
    ensures view.directive.Some?
    ensures var Seen(id, read) := view.directive.value;
            var goal := MoveGoal(read, target, view.gate);
            && row.status == target && row.version == expected + 1 && SameOrderAs(row.body, read.body)
            && row.body.submittedBy == (if target == Pending then caller.actor else read.body.submittedBy)
            && row.body.approvedBy == (if target == Approved then caller.actor else read.body.approvedBy)
            && DecideMoveDirective(caller, view, target, expected)
               == Ok(Plan(caller.actor, None, Some(Update(id, expected, row, Transitioned, read.status)),
                          MoveEvidence(id, caller, target), FollowPlan(view.gate, goal, DirectiveExecution)))
            && (goal.Some? ==> view.gate.Some?)
  {
    var read := view.directive.value.row;
    DirectiveEdges(read.status, target);
    row := DecideMoveDirective(caller, view, target, expected).value.directive.value.row;
  }

  function MoveEvidence(id: nat, caller: Caller, target: Status): Option<Approval> {
    match target
    case Pending => Some(Approval(id, Submitted, caller.actor, caller.role, Draft, Pending))
    case Approved => Some(Approval(id, Endorsed, caller.actor, caller.role, Pending, Approved))
    case _ => None
  }

  function FollowPlan(gate: Option<Seen<GateBody>>, goal: Option<Status>, action: Action): Option<Change<GateBody>> {
    if gate.None? || goal.None? || gate.value.row.status == goal.value then None
    else Some(Update(gate.value.id, gate.value.row.version,
                     gate.value.row.(status := goal.value, version := gate.value.row.version + 1),
                     action, gate.value.row.status))
  }

  lemma FollowApplies(s: Store, t: Store, gate: Option<Seen<GateBody>>, goal: Option<Status>, action: Action,
                      caller: Caller, key: nat)
    requires ApplyAny(s.gates, FollowPlan(gate, goal, action), key) == Ok(t.gates) && (goal.Some? ==> gate.Some?)
    ensures GateFollows(s, t, gate, goal)
    ensures var change := FollowPlan(gate, goal, action);
            GateLog(gate, goal, action, caller)
            == if change.Some? then [Entry(GateUnit, change.value, key, caller.actor)] else []
  {
  }

  lemma MoveCommitted(s: Store, f: Flight, key: nat, t: Store)
    requires FlightFits(f) && Attempt(s, f, key) == Ok(t) && f.request.MoveDirective?
    ensures DirectiveEffect(f, key, s, t)
  {
    var target, expected := f.request.target, f.request.expected;
    var row := MovePlanned(f.caller, f.view, target, expected);
    var Seen(id, read) := f.view.directive.value;
    DirectiveParts(s, f.caller.actor, Update(id, expected, row, Transitioned, read.status),
                   MoveEvidence(id, f.caller, target),
                   FollowPlan(f.view.gate, MoveGoal(read, target, f.view.gate), DirectiveExecution), key, t);
    FollowApplies(s, t, f.view.gate, MoveGoal(read, target, f.view.gate), DirectiveExecution, f.caller, key);
  }

  // ---- Execution confirmations, proved ----

  lemma ReceiptCreationCommitted(s: Store, f: Flight, key: nat, t: Store)
    requires FlightFits(f) && Attempt(s, f, key) == Ok(t) && f.request.CreateReceipt?
    ensures ReceiptEffect(f, key, s, t)
  {
    ReceiptAlone(s, f.caller, DecideCreateReceipt(f.caller, f.view, f.request.form).value.receipt.value, key, t);
  }

  lemma ReceiptEditCommitted(s: Store, f: Flight, key: nat, t: Store)
    requires FlightFits(f) && Attempt(s, f, key) == Ok(t) && f.request.UpdateReceipt?
    ensures ReceiptEffect(f, key, s, t)
  {
    var request := f.request;
    var plan := DecideUpdateReceipt(f.caller, f.view, request.form, request.directiveCode, request.expected).value;
    ReceiptAlone(s, f.caller, plan.receipt.value, key, t);
  }

  lemma ReceiptDeletionCommitted(s: Store, f: Flight, key: nat, t: Store)
    requires FlightFits(f) && Attempt(s, f, key) == Ok(t) && f.request.DeleteReceipt?
    ensures ReceiptEffect(f, key, s, t)
  {
    ReceiptAlone(s, f.caller, DecideDeleteReceipt(f.caller, f.view).value.receipt.value, key, t);
  }

  /** The parts of a plan that settles a receipt with its directive. */
  lemma OutcomeParts(s: Store, actor: string, receipt: Change<ReceiptBody>, directive: Change<DirectiveBody>,
                     gate: Option<Change<GateBody>>, key: nat, t: Store)
    requires Commit(s, Plan(actor, Some(receipt), Some(directive), None, gate), key) == Ok(t)
    ensures Apply(s.receipts, receipt, key) == Ok(t.receipts) && Apply(s.directives, directive, key) == Ok(t.directives)
    ensures ApplyAny(s.gates, gate, key) == Ok(t.gates) && t.approvals == s.approvals
    ensures t.audits == s.audits + [Entry(ExecutionConfirmation, receipt, key, actor), Entry(OperationDirective, directive, key, actor)]
                        + (if gate.Some? then [Entry(GateUnit, gate.value, key, actor)] else [])
  {
  }

  predicate MovedBody(b: ReceiptBody, read: ReceiptBody, target: Status, caller: Caller) {
    && b.business == read.business && b.directiveCode == read.directiveCode
    && b.confirmedBy == (if target == Confirmed then caller.actor else read.confirmedBy)
  }

  lemma OutcomePlanned(caller: Caller, view: View, target: Status, expected: nat) returns (row: Receipt)
    requires DecideMoveReceipt(caller, view, target, expected).Ok? && view.receipt.value.row.status == Pending
    ensures view.receipt.Some? && view.directive.Some? && view.gate.Some? && (target == Confirmed || target == Failed)
    ensures var Seen(id, read) := view.receipt.value;
            var directive := view.directive.value;
            && directive.row.status == Executing
            && row.status == target && row.version == expected + 1 && MovedBody(row.body, read.body, target, caller)
            && DecideMoveReceipt(caller, view, target, expected)
               == Ok(Plan(caller.actor, Some(Update(id, expected, row, Transitioned, Pending)),
                          Some(Update(directive.id, directive.row.version,
                                      directive.row.(status := Result(target), version := directive.row.version + 1),
                                      ExecutionOutcome, Executing)),
                          None, FollowPlan(view.gate, Some(OutcomeGoal(target, directive.row)), ExecutionOutcome)))
  {
    ReceiptEdges(Pending, target);
    row := DecideMoveReceipt(caller, view, target, expected).value.receipt.value.row;
  }

  /** The transaction of an outcome leaves what `ReceiptSettled` says. */
  lemma OutcomeSettles(s: Store, caller: Caller, receipt: Seen<ReceiptBody>, directive: Seen<DirectiveBody>,
                       gate: Option<Seen<GateBody>>, target: Status, expected: nat, row: Receipt, key: nat, t: Store)
    requires gate.Some? && directive.row.status == Executing && row.status == target && row.version == expected + 1
    requires MovedBody(row.body, receipt.row.body, target, caller)
    requires Commit(s, Plan(caller.actor, Some(Update(receipt.id, expected, row, Transitioned, Pending)),
                            Some(Update(directive.id, directive.row.version,
                                        directive.row.(status := Result(target), version := directive.row.version + 1),
                                        ExecutionOutcome, Executing)),
                            None, FollowPlan(gate, Some(OutcomeGoal(target, directive.row)), ExecutionOutcome)), key) == Ok(t)
    ensures ReceiptSettled(s, t, receipt.id, caller, target, expected, receipt.row, directive, gate)
  {
    OutcomeParts(s, caller.actor, Update(receipt.id, expected, row, Transitioned, Pending),
                 Update(directive.id, directive.row.version,
                        directive.row.(status := Result(target), version := directive.row.version + 1),
                        ExecutionOutcome, Executing),
                 FollowPlan(gate, Some(OutcomeGoal(target, directive.row)), ExecutionOutcome), key, t);
    FollowApplies(s, t, gate, Some(OutcomeGoal(target, directive.row)), ExecutionOutcome, caller, key);
  }

  lemma OutcomeCommitted(s: Store, f: Flight, key: nat, t: Store)
    requires FlightFits(f) && Attempt(s, f, key) == Ok(t)
    requires f.request.MoveReceipt? && f.view.receipt.Some? && f.view.receipt.value.row.status == Pending
    ensures ReceiptEffect(f, key, s, t)
  {
    var target, expected := f.request.target, f.request.expected;
    var row := OutcomePlanned(f.caller, f.view, target, expected);
    OutcomeSettles(s, f.caller, f.view.receipt.value, f.view.directive.value, f.view.gate, target, expected, row, key, t);
  }

  lemma CancellationCommitted(s: Store, f: Flight, key: nat, t: Store)
    requires FlightFits(f) && Attempt(s, f, key) == Ok(t)
    requires f.request.MoveReceipt? && f.view.receipt.Some? && f.view.receipt.value.row.status != Pending
    ensures ReceiptEffect(f, key, s, t)
  {
    ReceiptEdges(f.view.receipt.value.row.status, f.request.target);
    ReceiptAlone(s, f.caller, Decide(f.request, f.caller, f.view).value.receipt.value, key, t);
  }

  // ---- The committed request ----

  /** Every request that commits, in any schedule and whatever its client sent, has
      exactly its effect. */
  lemma CommittedEffect(schedule: seq<Event>, k: nat, f: Flight)
    requires Commits(schedule, k, f)
    ensures var s, t, key := Exec(schedule[..k]).store, Exec(schedule[..k + 1]).store, schedule[k].key;
            GateEffect(f, key, s, t) && DirectiveEffect(f, key, s, t) && ReceiptEffect(f, key, s, t)
  {
    ViewsFit(schedule[..k]);
    ExecAfterCommit(schedule, k, f);
    AttemptHasEffect(Exec(schedule[..k]).store, f, schedule[k].key, Exec(schedule[..k + 1]).store);
  }

  lemma AttemptHasEffect(s: Store, f: Flight, key: nat, t: Store)
    requires FlightFits(f) && Attempt(s, f, key) == Ok(t)
    ensures GateEffect(f, key, s, t) && DirectiveEffect(f, key, s, t) && ReceiptEffect(f, key, s, t)
  {
    match f.request
    case CreateGate(_, _, _) => GateCommitted(s, f, key, t);
    case UpdateGate(_, _, _, _, _) => GateCommitted(s, f, key, t);
    case MoveGate(_, _, _) => GateCommitted(s, f, key, t);
    case DeleteGate(_) => GateCommitted(s, f, key, t);
    case MoveDirective(_, _, _) => MoveCommitted(s, f, key, t);
    case CreateDirective(_, _, _) => DirectiveRowCommitted(s, f, key, t);
    case UpdateDirective(_, _, _, _, _) => DirectiveRowCommitted(s, f, key, t);
    case DeleteDirective(_) => DirectiveRowCommitted(s, f, key, t);
    case MoveReceipt(_, _, _) =>
      if f.view.receipt.Some? && f.view.receipt.value.row.status != Pending {
        CancellationCommitted(s, f, key, t);
      } else {
        OutcomeCommitted(s, f, key, t);
      }
    case CreateReceipt(_, _) => ReceiptCreationCommitted(s, f, key, t);
    case UpdateReceipt(_, _, _, _) => ReceiptEditCommitted(s, f, key, t);
    case DeleteReceipt(_) => ReceiptDeletionCommitted(s, f, key, t);
  }

  // ---- Honest clients: the rows read are the rows before ----

  /** The row an honest edit or transition addresses is, at the commit, the row it read;
      so are the directive a first outcome settles and a gate that is written. */
  lemma HonestReadsAreCurrent(schedule: seq<Event>, k: nat, f: Flight)
    requires Commits(schedule, k, f) && Honest(f)
    ensures var s, t := Exec(schedule[..k]).store, Exec(schedule[..k + 1]).store;
            && (f.request.UpdateGate? || f.request.MoveGate? ==>
                  f.view.gate.Some? && f.request.id in s.gates && s.gates[f.request.id] == f.view.gate.value.row)
            && (f.request.UpdateDirective? || f.request.MoveDirective? ==>
                  f.view.directive.Some? && f.request.id in s.directives
                  && s.directives[f.request.id] == f.view.directive.value.row)
            && (f.request.UpdateReceipt? || f.request.MoveReceipt? ==>
                  f.view.receipt.Some? && f.request.id in s.receipts
                  && s.receipts[f.request.id] == f.view.receipt.value.row)
  {
    var s := Exec(schedule[..k]).store;
    ViewsFit(schedule[..k]);
    CommittedWritesAreCurrent(schedule, k, f);
    AddressedIsCurrent(s, f, Decide(f.request, f.caller, f.view).value);
  }

  lemma AddressedIsCurrent(s: Store, f: Flight, plan: Plan)
    requires FlightFits(f) && Decide(f.request, f.caller, f.view) == Ok(plan) && PlanFromPresent(plan, f.view, s)
    ensures f.request.UpdateGate? || f.request.MoveGate? ==>
              f.view.gate.Some? && f.request.id in s.gates && s.gates[f.request.id] == f.view.gate.value.row
    ensures f.request.UpdateDirective? || f.request.MoveDirective? ==>
              f.view.directive.Some? && f.request.id in s.directives
              && s.directives[f.request.id] == f.view.directive.value.row
    ensures f.request.UpdateReceipt? || f.request.MoveReceipt? ==>
              f.view.receipt.Some? && f.request.id in s.receipts && s.receipts[f.request.id] == f.view.receipt.value.row
  {
    if Versioned(f.request) {
      AddressedChange(f, plan);
    }
  }

  /** What a committed edit does to a draft, compared with the row before. */
  lemma DraftEdit(schedule: seq<Event>, k: nat, f: Flight)
    requires Commits(schedule, k, f) && Honest(f) && f.request.UpdateDirective?
    ensures var s, t, request := Exec(schedule[..k]).store, Exec(schedule[..k + 1]).store, f.request;
            && request.id in s.directives && request.id in t.directives
            && var a, b := s.directives[request.id], t.directives[request.id];
               && b.body.business.name == Trim(request.form.name)
               && b.body.business.facility == Trim(request.form.facility)
               && b.body.business.owner == Trim(request.form.owner)
               && b.body.business.category == Trim(request.form.category)
               && b.body.business.risk == request.form.risk && b.body.business.details == request.form.details
               && b.body.gateCode == Canonical(request.gateCode)
               && b.body.target == (if request.gateState.Some? then request.gateState.value else a.body.target)
               && b.body.submittedBy == a.body.submittedBy && b.body.approvedBy == a.body.approvedBy
               && a.status == Draft && b.status == Draft && b.code == a.code && !a.deleted && !b.deleted
               && b.version == a.version + 1
  {
    CommittedEffect(schedule, k, f);
    HonestReadsAreCurrent(schedule, k, f);
  }

  // ---- What was checked before ----

  /** Name, facility and owner are filled in. */
  predicate FieldsFilled(form: Form) {
    Trim(form.name) != "" && Trim(form.facility) != "" && Trim(form.owner) != ""
  }

  /** A committed form about a gate is filled in and agrees with its reservoir. */
  lemma GateFormsAreChecked(schedule: seq<Event>, k: nat, f: Flight)
    requires Commits(schedule, k, f) && (f.request.CreateGate? || f.request.UpdateGate?)
    ensures FieldsFilled(f.request.form) && f.request.reservoir.Some?
    ensures EqualFold(Trim(f.request.form.facility), f.request.reservoir.value.facility)
    ensures f.request.CreateGate? ==> Trim(f.request.form.code) != ""
    ensures f.request.UpdateGate? ==>
              f.view.gate.Some? && EqualFold(Trim(f.request.reservoirCode), f.view.gate.value.row.body.reservoirCode)
  {
  }

  /** A committed form about a directive is filled in and names a gate that, when it was
      read, was not locked and of the same facility. */
  lemma DirectiveFormsAreChecked(schedule: seq<Event>, k: nat, f: Flight)
    requires Commits(schedule, k, f) && (f.request.CreateDirective? || f.request.UpdateDirective?)
    ensures FieldsFilled(f.request.form) && (f.request.CreateDirective? ==> Trim(f.request.form.code) != "")
    ensures f.view.gate.Some? && f.view.gate.value.row.code == Canonical(f.request.gateCode)
    ensures f.view.gate.value.row.status != Locked
    ensures EqualFold(Trim(f.request.form.facility), f.view.gate.value.row.body.business.facility)
  {
    ViewsFit(schedule[..k]);
  }

  /** A committed form about a receipt is filled in and names a directive that was
      executing when it was read. */
  lemma ReceiptFormsAreChecked(schedule: seq<Event>, k: nat, f: Flight)
    requires Commits(schedule, k, f) && (f.request.CreateReceipt? || f.request.UpdateReceipt?)
    ensures FieldsFilled(f.request.form) && (f.request.CreateReceipt? ==> Trim(f.request.form.code) != "")
    ensures f.view.directive.Some? && f.view.directive.value.row.status == Executing
    ensures f.request.CreateReceipt? ==> f.view.directive.value.row.code == Canonical(f.request.directiveCode)
    ensures f.request.UpdateReceipt? ==>
              f.view.receipt.Some? && EqualFold(Trim(f.request.directiveCode), f.view.receipt.value.row.body.directiveCode)
  {
    ViewsFit(schedule[..k]);
  }
}
