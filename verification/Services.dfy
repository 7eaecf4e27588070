/** What the three services decide from the rows they read: an error, or the
    plan of one transaction. */
module Services {
  import opened Statuses
  import opened Rows
  import opened Text
  import opened Repository

  datatype Form = Form(code: string, name: string, facility: string, owner: string,
                       category: string, risk: string, details: string)

  /** What the reservoir lookup returned; reservoirs themselves are kept elsewhere. */
  datatype Reservoir = Reservoir(code: string, facility: string)

  datatype Caller = Caller(actor: Actor, role: Role)

  datatype Request =
    | CreateGate(form: Form, reservoirCode: string, reservoir: Option<Reservoir>)
    | UpdateGate(id: nat, form: Form, reservoirCode: string, reservoir: Option<Reservoir>, expected: nat)
    | MoveGate(id: nat, target: Status, expected: nat)
    | DeleteGate(id: nat)
    | CreateDirective(form: Form, gateCode: string, gateState: Option<GateTarget>)
    | UpdateDirective(id: nat, form: Form, gateCode: string, gateState: Option<GateTarget>, expected: nat)
    | MoveDirective(id: nat, target: Status, expected: nat)
    | DeleteDirective(id: nat)
    | CreateReceipt(form: Form, directiveCode: string)
    | UpdateReceipt(id: nat, form: Form, directiveCode: string, expected: nat)
    | MoveReceipt(id: nat, target: Status, expected: nat)
    | DeleteReceipt(id: nat)

  /** The rows one request has read, each at its own moment. */
  datatype View = View(receipt: Option<Seen<ReceiptBody>>, directive: Option<Seen<DirectiveBody>>,
                       gate: Option<Seen<GateBody>>, slots: nat)

  const NOTHING_READ := View(None, None, None, 0)

  function Trimmed(form: Form): Business {
    Business(Trim(form.name), Trim(form.facility), Trim(form.owner), Trim(form.category), form.risk, form.details)
  }

  predicate Complete(code: string, form: Form) {
    Trim(code) != "" && Trim(form.name) != "" && Trim(form.facility) != "" && Trim(form.owner) != ""
  }

  function PlanReceipt(caller: Caller, change: Change<ReceiptBody>): Plan {
    Plan(caller.actor, Some(change), None, None, None)
  }

  function PlanDirective(caller: Caller, change: Change<DirectiveBody>): Plan {
    Plan(caller.actor, None, Some(change), None, None)
  }

  function PlanGate(caller: Caller, change: Change<GateBody>): Plan {
    Plan(caller.actor, None, None, None, Some(change))
  }

  /** A row found by the transaction itself is written with its own version. */
  function SetStatus<T>(seen: Seen<T>, status: Status, action: Action): Change<T> {
    Update(seen.id, seen.row.version, seen.row.(status := status, version := seen.row.version + 1),
           action, seen.row.status)
  }

  // ---- Gates ----

  function DecideCreateGate(caller: Caller, form: Form, reservoirCode: string, reservoir: Option<Reservoir>)
    : Outcome<Plan>
  {
    if !Complete(form.code, form) then Err(InvalidInput)
    else if reservoir.None? then Err(NotFound)
    else if !EqualFold(Trim(form.facility), reservoir.value.facility) then Err(InvalidInput)
    else
      var body := GateBody(Trimmed(form), Canonical(reservoirCode));
      Ok(PlanGate(caller, Insert(Row(Canonical(form.code), Open, 1, false, body))))
  }

  function DecideUpdateGate(caller: Caller, view: View, form: Form, reservoirCode: string,
                            reservoir: Option<Reservoir>, expected: nat)
    : Outcome<Plan>
  {
    if view.gate.None? then Err(NotFound) else
    var Seen(id, current) := view.gate.value;
    if !Complete(current.code, form) then Err(InvalidInput)
    else if !EqualFold(Trim(reservoirCode), current.body.reservoirCode) then Err(InvalidInput)
    else if reservoir.None? then Err(NotFound)
    else if !EqualFold(Trim(form.facility), reservoir.value.facility) then Err(InvalidInput)
    else
      var item := current.(body := GateBody(Trimmed(form), reservoir.value.code), version := expected + 1);
      Ok(PlanGate(caller, Update(id, expected, item, Updated, current.status)))
  }

  function DecideMoveGate(caller: Caller, view: View, target: Status, expected: nat): Outcome<Plan> {
    if view.gate.None? then Err(NotFound) else
    var Seen(id, current) := view.gate.value;
    if !CanTransition(GATE_GRAPH, current.status, target) then Err(InvalidTransition)
    else
      var item := current.(status := target, version := expected + 1);
      Ok(PlanGate(caller, Update(id, expected, item, Transitioned, current.status)))
  }

  function DecideDeleteGate(caller: Caller, view: View): Outcome<Plan> {
    if view.gate.None? then Err(NotFound)
    else Ok(PlanGate(caller, Remove(view.gate.value.id, view.gate.value.row.status)))
  }

  // ---- Directives ----

  predicate RoleAllowed(target: Status, role: Role) {
    match target
    case Pending => role == Operator || role == Admin
    case Approved => role == Reviewer || role == Admin
    case Executing => role == Operator || role == Admin
    case Aborted => role == Operator || role == Reviewer || role == Admin
    case _ => false
  }

  predicate NeedsGate(from: Status, target: Status) {
    target == Executing || (from == Executing && target == Aborted)
  }

  predicate GateUsable(gate: Option<Seen<GateBody>>, facility: string) {
    gate.Some? && EqualFold(Trim(facility), gate.value.row.body.business.facility) && gate.value.row.status != Locked
  }

  function DecideCreateDirective(caller: Caller, view: View, form: Form, gateCode: string,
                                 gateState: Option<GateTarget>)
    : Outcome<Plan>
  {
    if !Complete(form.code, form) then Err(InvalidInput)
    else if view.gate.None? then Err(NotFound)
    else if !GateUsable(view.gate, form.facility) then Err(InvalidInput)
    else
      var target: GateTarget := if gateState.Some? then gateState.value else Closed;
      var body := DirectiveBody(Trimmed(form), Canonical(gateCode), target, "", "");
      Ok(PlanDirective(caller, Insert(Row(Canonical(form.code), Draft, 1, false, body))))
  }

  function DecideUpdateDirective(caller: Caller, view: View, form: Form, gateCode: string,
                                 gateState: Option<GateTarget>, expected: nat)
    : Outcome<Plan>
  {
    if view.directive.None? then Err(NotFound) else
    var Seen(id, current) := view.directive.value;
    if current.status != Draft then Err(ImmutableState)
    else if !Complete(current.code, form) then Err(InvalidInput)
    else if view.gate.None? then Err(NotFound)
    else if !GateUsable(view.gate, form.facility) then Err(InvalidInput)
    else
      var target := if gateState.Some? then gateState.value else current.body.target;
      var body := current.body.(business := Trimmed(form), gateCode := Canonical(gateCode), target := target);
      var item := current.(body := body, version := expected + 1);
      Ok(PlanDirective(caller, Update(id, expected, item, Updated, current.status)))
  }

  /** The status the linked gate takes with the directive, or none. */
  function GateGoal(directive: Directive, target: Status, gate: Gate): Option<Status> {
    if target == Aborted then Some(Locked)
    else if gate.status != directive.body.target then Some(Moving)
    else None
  }

  function DecideGateCoupling(directive: Directive, target: Status, gate: Option<Seen<GateBody>>)
    : Outcome<Option<Change<GateBody>>>
  {
    if !NeedsGate(directive.status, target) then Ok(None)
    else if gate.None? then Err(NotFound)
    else if target == Executing && gate.value.row.status == Locked then Err(InvalidInput)
    else
      var goal := GateGoal(directive, target, gate.value.row);
      if goal.None? || gate.value.row.status == goal.value then Ok(None)
      else if !CanTransition(GATE_GRAPH, gate.value.row.status, goal.value) then Err(InvalidTransition)
      else Ok(Some(SetStatus(gate.value, goal.value, DirectiveExecution)))
  }

  /** Who submitted and who approved, and the evidence recorded for it. */
  function Signed(id: nat, body: DirectiveBody, from: Status, target: Status, caller: Caller)
    : (DirectiveBody, Option<Approval>)
  {
    if target == Pending then
      (body.(submittedBy := caller.actor), Some(Approval(id, Submitted, caller.actor, caller.role, from, target)))
    else if target == Approved then
      (body.(approvedBy := caller.actor), Some(Approval(id, Endorsed, caller.actor, caller.role, from, target)))
    else (body, None)
  }

  function DecideMoveDirective(caller: Caller, view: View, target: Status, expected: nat): Outcome<Plan> {
    if view.directive.None? then Err(NotFound) else
    var Seen(id, current) := view.directive.value;
    if !CanTransition(DIRECTIVE_GRAPH, current.status, target) then Err(InvalidTransition)
    else if target == Completed then Err(InvalidTransition)
    else if !RoleAllowed(target, caller.role) then Err(Forbidden)
    else
      var gate :- DecideGateCoupling(current, target, view.gate);
      if target == Approved && (current.body.submittedBy == "" || EqualFold(current.body.submittedBy, caller.actor))
      then Err(TwoPersonRequired)
      else
        var (body, approval) := Signed(id, current.body, current.status, target, caller);
        var item := current.(status := target, version := expected + 1, body := body);
        Ok(Plan(caller.actor, None, Some(Update(id, expected, item, Transitioned, current.status)), approval, gate))
  }

  function DecideDeleteDirective(caller: Caller, view: View): Outcome<Plan> {
    if view.directive.None? then Err(NotFound)
    else if view.directive.value.row.status != Draft then Err(ImmutableState)
    else Ok(PlanDirective(caller, Remove(view.directive.value.id, view.directive.value.row.status)))
  }

  // ---- Execution confirmations ----

  function RequireExecuting(directive: Option<Seen<DirectiveBody>>): Outcome<Seen<DirectiveBody>> {
    if directive.None? then Err(NotFound)
    else if directive.value.row.status != Executing then Err(InvalidInput)
    else Ok(directive.value)
  }

  /** The receipt copies facility, category and risk level from its directive. */
  function Copied(business: Business, directive: Directive): Business {
    business.(facility := directive.body.business.facility, category := directive.body.business.category,
              risk := directive.body.business.risk)
  }

  function DecideCreateReceipt(caller: Caller, view: View, form: Form): Outcome<Plan> {
    if !Complete(form.code, form) then Err(InvalidInput) else
    var directive :- RequireExecuting(view.directive);
    if view.slots > 0 then Err(InvalidInput)
    else
      var body := ReceiptBody(Copied(Trimmed(form), directive.row), directive.row.code, "");
      Ok(PlanReceipt(caller, Insert(Row(Canonical(form.code), Pending, 1, false, body))))
  }

  function DecideUpdateReceipt(caller: Caller, view: View, form: Form, directiveCode: string, expected: nat)
    : Outcome<Plan>
  {
    if view.receipt.None? then Err(NotFound) else
    var Seen(id, current) := view.receipt.value;
    if !Complete(current.code, form) then Err(InvalidInput)
    else if current.status != Pending then Err(ImmutableState)
    else if !EqualFold(Trim(directiveCode), current.body.directiveCode) then Err(InvalidInput)
    else
      var directive :- RequireExecuting(view.directive);
      var body := current.body.(business := Copied(Trimmed(form), directive.row), directiveCode := directive.row.code);
      var item := current.(body := body, version := expected + 1);
      Ok(PlanReceipt(caller, Update(id, expected, item, Updated, current.status)))
  }

  /** A first outcome settles the directive and its gate together with the receipt. */
  function DecideOutcome(caller: Caller, view: View, change: Change<ReceiptBody>, confirmed: bool): Outcome<Plan> {
    var directive :- RequireExecuting(view.directive);
    if view.gate.None? then Err(NotFound) else
    var gate := view.gate.value;
    var result := if confirmed then Completed else Aborted;
    var goal: Status := if confirmed then directive.row.body.target else Locked;
    if gate.row.status != goal && !CanTransition(GATE_GRAPH, gate.row.status, goal) then Err(InvalidTransition)
    else
      var gateChange := if gate.row.status == goal then None else Some(SetStatus(gate, goal, ExecutionOutcome));
      Ok(Plan(caller.actor, Some(change), Some(SetStatus(directive, result, ExecutionOutcome)), None, gateChange))
  }

  function DecideMoveReceipt(caller: Caller, view: View, target: Status, expected: nat): Outcome<Plan> {
    if view.receipt.None? then Err(NotFound) else
    var Seen(id, current) := view.receipt.value;
    if !CanTransition(RECEIPT_GRAPH, current.status, target) then Err(InvalidTransition)
    else
      var body := if target == Confirmed then current.body.(confirmedBy := caller.actor) else current.body;
      var item := current.(status := target, version := expected + 1, body := body);
      var change := Update(id, expected, item, Transitioned, current.status);
      if current.status == Pending then DecideOutcome(caller, view, change, target == Confirmed)
      else Ok(PlanReceipt(caller, change))
  }

  function DecideDeleteReceipt(caller: Caller, view: View): Outcome<Plan> {
    if view.receipt.None? then Err(NotFound)
    else if view.receipt.value.row.status != Pending then Err(ImmutableState)
    else Ok(PlanReceipt(caller, Remove(view.receipt.value.id, view.receipt.value.row.status)))
  }

  // ---- Any request ----

  function Decide(request: Request, caller: Caller, view: View): Outcome<Plan> {
    match request
    case CreateGate(form, code, reservoir) => DecideCreateGate(caller, form, code, reservoir)
    case UpdateGate(_, form, code, reservoir, expected) => DecideUpdateGate(caller, view, form, code, reservoir, expected)
    case MoveGate(_, target, expected) => DecideMoveGate(caller, view, target, expected)
    case DeleteGate(_) => DecideDeleteGate(caller, view)
    case CreateDirective(form, code, state) => DecideCreateDirective(caller, view, form, code, state)
    case UpdateDirective(_, form, code, state, expected) => DecideUpdateDirective(caller, view, form, code, state, expected)
    case MoveDirective(_, target, expected) => DecideMoveDirective(caller, view, target, expected)
    case DeleteDirective(_) => DecideDeleteDirective(caller, view)
    case CreateReceipt(form, _) => DecideCreateReceipt(caller, view, form)
    case UpdateReceipt(_, form, code, expected) => DecideUpdateReceipt(caller, view, form, code, expected)
    case MoveReceipt(_, target, expected) => DecideMoveReceipt(caller, view, target, expected)
    case DeleteReceipt(_) => DecideDeleteReceipt(caller, view)
  }

  // ---- The lookups, in the order the services issue them ----

  ghost function ReadReceipt(store: Store, request: Request): Option<Seen<ReceiptBody>> {
    if request.UpdateReceipt? || request.MoveReceipt? || request.DeleteReceipt?
    then ById(store.receipts, request.id) else None
  }

  /** The code under which a receipt request looks for its directive. */
  function DirectiveCodeFor(request: Request, view: View): Option<string> {
    match request
    case CreateReceipt(_, code) => Some(code)
    case UpdateReceipt(_, _, _, _) =>
      if view.receipt.Some? then Some(view.receipt.value.row.body.directiveCode) else None
    case MoveReceipt(_, _, _) =>
      if view.receipt.Some? && view.receipt.value.row.status == Pending
      then Some(view.receipt.value.row.body.directiveCode) else None
    case _ => None
  }

  ghost function ReadDirective(store: Store, request: Request, view: View): Option<Seen<DirectiveBody>> {
    if request.UpdateDirective? || request.MoveDirective? || request.DeleteDirective?
    then ById(store.directives, request.id)
    else match DirectiveCodeFor(request, view)
      case None => None
      case Some(code) => ByCode(store.directives, code)
  }

  /** The code under which a directive or receipt request looks for its gate. */
  function GateCodeFor(request: Request, view: View): Option<string> {
    match request
    case CreateDirective(_, code, _) => Some(code)
    case UpdateDirective(_, _, code, _, _) => Some(code)
    case MoveDirective(_, target, _) =>
      if view.directive.Some? && NeedsGate(view.directive.value.row.status, target)
      then Some(view.directive.value.row.body.gateCode) else None
    case MoveReceipt(_, _, _) =>
      if view.directive.Some? then Some(view.directive.value.row.body.gateCode) else None
    case _ => None
  }

  ghost function ReadGate(store: Store, request: Request, view: View): Option<Seen<GateBody>> {
    if request.UpdateGate? || request.MoveGate? || request.DeleteGate?
    then ById(store.gates, request.id)
    else match GateCodeFor(request, view)
      case None => None
      case Some(code) => ByCode(store.gates, code)
  }

  function CountSlots(store: Store, request: Request, view: View): nat {
    if request.CreateReceipt? && view.directive.Some?
    then CountBySlot(store.receipts, view.directive.value.row.code) else 0
  }

  /** All lookups at one moment. */
  ghost function ViewNow(store: Store, request: Request): View {
    var v0 := NOTHING_READ.(receipt := ReadReceipt(store, request));
    var v1 := v0.(directive := ReadDirective(store, request, v0));
    v1.(gate := ReadGate(store, request, v1), slots := CountSlots(store, request, v1))
  }

  /** A request that nobody interrupts. */
  ghost function AtomicStep(store: Store, request: Request, caller: Caller, key: nat): Outcome<Store> {
    var plan :- Decide(request, caller, ViewNow(store, request));
    Commit(store, plan, key)
  }
}
