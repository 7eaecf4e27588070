/** The service operations after their lookups, step by step as they run: checks
    in order, fields of the rows read assigned one after the other, statements in
    a transaction. `view` holds what the lookups returned, possibly long ago. */
module Operations {
  import opened Statuses
  import opened Rows
  import opened Text
  import opened Repository
  import opened Services
  import opened Database
  import opened Dispatch
  import opened Success

  /** The operation reports the decision, or runs its plan, all or nothing unless
      it was called inside a transaction. */
  twostate predicate Performed(db: Connection, new e: Option<Error>, new decision: Outcome<Plan>, new key: nat)
    reads db
  {
    if decision.Err?
    then e == Some(decision.error) && db.Current() == old(db.Current()) && db.issued == old(db.issued)
         && db.savepoints == old(db.savepoints)
    else db.Enclosed(e, Commit(old(db.Current()), decision.value, key))
  }

  // ---- Gate transitions ----

  method MoveGateRow(db: Connection, caller: Caller, view: View, target: Status, expected: nat) returns (e: Option<Error>)
    modifies db
    ensures Performed(db, e, DecideMoveGate(caller, view, target, expected), 0)
  {
    if view.gate.None? { return Some(NotFound); }
    var id, current := view.gate.value.id, view.gate.value.row;
    if !CanTransition(GATE_GRAPH, current.status, target) { return Some(InvalidTransition); }
    var before := current.status;
    current := current.(status := target);
    current := current.(version := expected + 1);
    var audit := Audit(GateUnit, id, Transitioned, before, target, caller.actor);
    e := db.TransitionWithAudit(id, expected, current, audit);
  }

  // ---- Directive transitions ----

  method MoveDirectiveRow(db: Connection, caller: Caller, view: View, target: Status, expected: nat)
    returns (e: Option<Error>)
    modifies db
    ensures Performed(db, e, DecideMoveDirective(caller, view, target, expected), 0)
  {
    if view.directive.None? { return Some(NotFound); }
    var id, current := view.directive.value.id, view.directive.value.row;
    if !CanTransition(DIRECTIVE_GRAPH, current.status, target) { return Some(InvalidTransition); }
    if target == Completed { return Some(InvalidTransition); }
    if !RoleAllowed(target, caller.role) { return Some(Forbidden); }
    var linkedGate, gateTarget := None, None;
    if target == Executing || (current.status == Executing && target == Aborted) {
      linkedGate := view.gate;
      e, gateTarget := LinkGate(current, target, linkedGate);
      if e.Some? { return; }
    }
    if target == Approved {
      if current.body.submittedBy == "" || EqualFold(current.body.submittedBy, caller.actor) {
        return Some(TwoPersonRequired);
      }
    }
    e := SettleMove(db, caller, id, current, target, expected, linkedGate, gateTarget);
  }

  /** The gate change that a linked gate and its goal amount to. */
  function LinkedChange(gate: Option<Seen<GateBody>>, goal: Option<Status>, action: Action): Option<Change<GateBody>> {
    if gate.None? || goal.None? || gate.value.row.status == goal.value then None
    else Some(SetStatus(gate.value, goal.value, action))
  }

  /** The accepted move: fields first, then the transaction. */
  method SettleMove(db: Connection, caller: Caller, id: nat, directive: Directive, target: Status, expected: nat,
                    linkedGate: Option<Seen<GateBody>>, gateTarget: Option<Status>)
    returns (e: Option<Error>)
    modifies db
    ensures var (body, approval) := Signed(id, directive.body, directive.status, target, caller);
            var item := directive.(status := target, version := expected + 1, body := body);
            db.Enclosed(e, Commit(old(db.Current()),
              Plan(caller.actor, None, Some(Update(id, expected, item, Transitioned, directive.status)), approval,
                   LinkedChange(linkedGate, gateTarget, DirectiveExecution)), 0))
  {
    var current, approval := SignMove(id, directive, target, caller);
    current := current.(version := expected + 1);
    var audit := Audit(OperationDirective, id, Transitioned, directive.status, target, caller.actor);
    e := CommitDirectiveMove(db, caller, id, expected, current, approval, audit, linkedGate, gateTarget);
  }

  /** Sets the status, and signs where the move needs a signature. */
  method SignMove(id: nat, directive: Directive, target: Status, caller: Caller)
    returns (current: Directive, approval: Option<Approval>)
    ensures var (body, evidence) := Signed(id, directive.body, directive.status, target, caller);
            current == directive.(status := target, body := body) && approval == evidence
  {
    var before := directive.status;
    current := directive.(status := target);
    approval := None;
    if target == Pending {
      current := current.(body := current.body.(submittedBy := caller.actor));
      approval := Some(Approval(id, Submitted, caller.actor, caller.role, before, target));
    }
    if target == Approved {
      current := current.(body := current.body.(approvedBy := caller.actor));
      approval := Some(Approval(id, Endorsed, caller.actor, caller.role, before, target));
    }
  }

  /** Checks the linked gate before any row changes, and says where it has to go. */
  method LinkGate(current: Directive, target: Status, gate: Option<Seen<GateBody>>)
    returns (e: Option<Error>, gateTarget: Option<Status>)
    requires NeedsGate(current.status, target)
    ensures var decision := DecideGateCoupling(current, target, gate);
            e == ErrorOf(decision)
            && (decision.Ok? ==> LinkedChange(gate, gateTarget, DirectiveExecution) == decision.value)
  {
    gateTarget := None;
    if gate.None? { return Some(NotFound), None; }
    var status := gate.value.row.status;
    if target == Executing && status == Locked { return Some(InvalidInput), None; }
    if target == Aborted {
      gateTarget := Some(Locked);
    } else if status != current.body.target {
      gateTarget := Some(Moving);
    }
    if gateTarget.Some? && status != gateTarget.value && !CanTransition(GATE_GRAPH, status, gateTarget.value) {
      return Some(InvalidTransition), None;
    }
    e := None;
  }

  lemma GateAlone(store: Store, actor: string, change: Option<Change<GateBody>>, key: nat)
    ensures var result := ApplyAny(store.gates, change, key);
            Commit(store, Plan(actor, None, None, None, change), key)
            == if result.Err? then Err(result.error)
               else Ok(store.(gates := result.value, audits := Log(store.audits, GateUnit, change, key, actor)))
  {
  }

  lemma DirectiveAlone(store: Store, actor: string, change: Option<Change<DirectiveBody>>, key: nat)
    ensures var result := ApplyAny(store.directives, change, key);
            Commit(store, Plan(actor, None, change, None, None), key)
            == if result.Err? then Err(result.error)
               else Ok(store.(directives := result.value, audits := Log(store.audits, OperationDirective, change, key, actor)))
  {
  }

  lemma ReceiptAlone(store: Store, actor: string, change: Option<Change<ReceiptBody>>, key: nat)
    ensures var result := ApplyReceipt(store.receipts, change, key);
            Commit(store, Plan(actor, change, None, None, None), key)
            == if result.Err? then Err(result.error)
               else Ok(store.(receipts := result.value, audits := Log(store.audits, ExecutionConfirmation, change, key, actor)))
  {
  }

  /** A transaction on a receipt and more is the receipt's part, then the rest. */
  lemma ReceiptFirst(store: Store, caller: Caller, change: Change<ReceiptBody>,
                     directive: Option<Change<DirectiveBody>>, gate: Option<Change<GateBody>>)
    ensures var first := Commit(store, PlanReceipt(caller, change), 0);
            Commit(store, Plan(caller.actor, Some(change), directive, None, gate), 0)
            == if first.Err? then first else Commit(first.value, Plan(caller.actor, None, directive, None, gate), 0)
  {
  }

  /** And a transaction on a directive with its evidence and the gate likewise. */
  lemma DirectiveFirst(store: Store, actor: string, change: Change<DirectiveBody>, approval: Option<Approval>,
                       gate: Option<Change<GateBody>>)
    ensures var result := ApplyAny(store.directives, Some(change), 0);
            var signed := AppendApproval(store.approvals, approval);
            Commit(store, Plan(actor, None, Some(change), approval, gate), 0)
            == if result.Err? then Err(result.error) else if signed.Err? then Err(signed.error)
               else Commit(store.(directives := result.value, approvals := signed.value,
                                  audits := store.audits + [Entry(OperationDirective, change, 0, actor)]),
                           Plan(actor, None, None, None, gate), 0)
  {
  }

  /** The linked gate takes its new status inside the running transaction. */
  method FollowGate(db: Connection, caller: Caller, seenGate: Seen<GateBody>, gateTarget: Status, action: Action)
    returns (e: Option<Error>)
    modifies db
    ensures var change := LinkedChange(Some(seenGate), Some(gateTarget), action);
            db.Ran(e, Commit(old(db.Current()), Plan(caller.actor, None, None, None, change), 0))
  {
    GateAlone(db.Current(), caller.actor, LinkedChange(Some(seenGate), Some(gateTarget), action), 0);
    var gateId, gate := seenGate.id, seenGate.row;
    if gate.status == gateTarget { return None; }
    var gateBefore := gate.status;
    gate := gate.(status := gateTarget);
    gate := gate.(version := gate.version + 1);
    e := db.UpdateGate(gateId, gate.version - 1, gate);
    if e.None? {
      e := db.InsertAudit(Audit(GateUnit, gateId, action, gateBefore, gateTarget, caller.actor));
    }
  }

  method CommitDirectiveMove(db: Connection, caller: Caller, id: nat, expected: nat, current: Directive,
                             approval: Option<Approval>, audit: Audit, linkedGate: Option<Seen<GateBody>>,
                             gateTarget: Option<Status>)
    returns (e: Option<Error>)
    requires audit == Audit(OperationDirective, id, Transitioned, audit.before, current.status, caller.actor)
    modifies db
    ensures db.Enclosed(e, Commit(old(db.Current()),
              Plan(caller.actor, None, Some(Update(id, expected, current, Transitioned, audit.before)), approval,
                   LinkedChange(linkedGate, gateTarget, DirectiveExecution)), 0))
  {
    DirectiveFirst(db.Current(), caller.actor, Update(id, expected, current, Transitioned, audit.before), approval,
                   LinkedChange(linkedGate, gateTarget, DirectiveExecution));
    var joined := db.Enter();
    e := db.TransitionWithApproval(id, expected, current, approval, audit);
    if e.None? && linkedGate.Some? && gateTarget.Some? {
      e := FollowGate(db, caller, linkedGate.value, gateTarget.value, DirectiveExecution);
    }
    db.Leave(joined, e);
  }

  // ---- Receipt transitions ----

  method MoveReceiptRow(db: Connection, caller: Caller, view: View, target: Status, expected: nat)
    returns (e: Option<Error>)
    modifies db
    ensures Performed(db, e, DecideMoveReceipt(caller, view, target, expected), 0)
  {
    if view.receipt.None? { return Some(NotFound); }
    var id, current := view.receipt.value.id, view.receipt.value.row;
    if !CanTransition(RECEIPT_GRAPH, current.status, target) { return Some(InvalidTransition); }
    var before := current.status;
    current := current.(status := target);
    if target == Confirmed {
      current := current.(body := current.body.(confirmedBy := caller.actor));
    }
    current := current.(version := expected + 1);
    if before == Pending {
      e := RecordOutcome(db, caller, view, id, expected, current, before);
    } else {
      e := CommitReceipt(db, caller, Update(id, expected, current, Transitioned, before), 0);
    }
  }

  /** A first outcome: the linked directive and gate are checked, then all three settle. */
  method RecordOutcome(db: Connection, caller: Caller, view: View, id: nat, expected: nat, current: Receipt, before: Status)
    returns (e: Option<Error>)
    modifies db
    ensures Performed(db, e, DecideOutcome(caller, view, Update(id, expected, current, Transitioned, before),
                                           current.status == Confirmed), 0)
  {
    if view.directive.None? { return Some(NotFound); }
    if view.directive.value.row.status != Executing { return Some(InvalidInput); }
    if view.gate.None? { return Some(NotFound); }
    var gate := view.gate.value.row;
    var directiveTarget, gateTarget: Status := Aborted, Locked;
    if current.status == Confirmed {
      directiveTarget, gateTarget := Completed, view.directive.value.row.body.target;
    }
    if gate.status != gateTarget && !CanTransition(GATE_GRAPH, gate.status, gateTarget) { return Some(InvalidTransition); }
    e := CommitOutcome(db, caller, id, expected, current, before, view.directive.value, directiveTarget,
                       view.gate.value, gateTarget);
  }

  /** Receipt, directive and gate with their audits, in one transaction. */
  method CommitOutcome(db: Connection, caller: Caller, id: nat, expected: nat, current: Receipt, before: Status,
                       seenDirective: Seen<DirectiveBody>, directiveTarget: Status,
                       seenGate: Seen<GateBody>, gateTarget: Status)
    returns (e: Option<Error>)
    modifies db
    ensures db.Enclosed(e, Commit(old(db.Current()),
              Plan(caller.actor, Some(Update(id, expected, current, Transitioned, before)),
                   Some(SetStatus(seenDirective, directiveTarget, ExecutionOutcome)), None,
                   LinkedChange(Some(seenGate), Some(gateTarget), ExecutionOutcome)), 0))
  {
    ReceiptFirst(db.Current(), caller, Update(id, expected, current, Transitioned, before),
                 Some(SetStatus(seenDirective, directiveTarget, ExecutionOutcome)),
                 LinkedChange(Some(seenGate), Some(gateTarget), ExecutionOutcome));
    var joined := db.Enter();
    e := RecordReceipt(db, caller, Update(id, expected, current, Transitioned, before), 0);
    if e.None? {
      e := FollowOutcome(db, caller, seenDirective, directiveTarget, seenGate, gateTarget);
    }
    db.Leave(joined, e);
  }

  /** The part of the transaction that settles the directive and the gate. */
  method FollowOutcome(db: Connection, caller: Caller, seenDirective: Seen<DirectiveBody>, directiveTarget: Status,
                       seenGate: Seen<GateBody>, gateTarget: Status)
    returns (e: Option<Error>)
    modifies db
    ensures db.Ran(e, Commit(old(db.Current()),
              Plan(caller.actor, None, Some(SetStatus(seenDirective, directiveTarget, ExecutionOutcome)), None,
                   LinkedChange(Some(seenGate), Some(gateTarget), ExecutionOutcome)), 0))
  {
    DirectiveFirst(db.Current(), caller.actor, SetStatus(seenDirective, directiveTarget, ExecutionOutcome), None,
                   LinkedChange(Some(seenGate), Some(gateTarget), ExecutionOutcome));
    var directiveId, directive := seenDirective.id, seenDirective.row;
    var directiveBefore := directive.status;
    directive := directive.(status := directiveTarget);
    directive := directive.(version := directive.version + 1);
    e := db.UpdateDirective(directiveId, directive.version - 1, directive);
    if e.Some? { return; }
    e := db.InsertAudit(Audit(OperationDirective, directiveId, ExecutionOutcome, directiveBefore, directiveTarget, caller.actor));
    if e.Some? { return; }
    e := FollowGate(db, caller, seenGate, gateTarget, ExecutionOutcome);
  }

  // ---- Transactions of one row and its audit ----

  method CommitReceipt(db: Connection, caller: Caller, change: Change<ReceiptBody>, key: nat) returns (e: Option<Error>)
    modifies db
    ensures db.Enclosed(e, Commit(old(db.Current()), PlanReceipt(caller, change), key))
  {
    var joined := db.Enter();
    e := RecordReceipt(db, caller, change, key);
    db.Leave(joined, e);
  }

  /** A receipt and its audit, inside the running transaction. */
  method RecordReceipt(db: Connection, caller: Caller, change: Change<ReceiptBody>, key: nat) returns (e: Option<Error>)
    modifies db
    ensures db.Ran(e, Commit(old(db.Current()), PlanReceipt(caller, change), key))
  {
    ReceiptAlone(db.Current(), caller.actor, Some(change), key);
    e := db.WriteReceipt(change, key);
    if e.None? {
      e := db.InsertAudit(Entry(ExecutionConfirmation, change, key, caller.actor));
    }
  }

  method CommitDirective(db: Connection, caller: Caller, change: Change<DirectiveBody>, key: nat) returns (e: Option<Error>)
    modifies db
    ensures db.Enclosed(e, Commit(old(db.Current()), PlanDirective(caller, change), key))
  {
    DirectiveAlone(db.Current(), caller.actor, Some(change), key);
    var joined := db.Enter();
    e := db.WriteDirective(change, key);
    if e.None? {
      e := db.InsertAudit(Entry(OperationDirective, change, key, caller.actor));
    }
    db.Leave(joined, e);
  }

  method CommitGate(db: Connection, caller: Caller, change: Change<GateBody>, key: nat) returns (e: Option<Error>)
    modifies db
    ensures db.Enclosed(e, Commit(old(db.Current()), PlanGate(caller, change), key))
  {
    GateAlone(db.Current(), caller.actor, Some(change), key);
    var joined := db.Enter();
    e := db.WriteGate(change, key);
    if e.None? {
      e := db.InsertAudit(Entry(GateUnit, change, key, caller.actor));
    }
    db.Leave(joined, e);
  }

  // ---- Edits of business fields ----

  method UpdateGateRow(db: Connection, caller: Caller, view: View, form: Form, reservoirCode: string,
                       reservoir: Option<Reservoir>, expected: nat)
    returns (e: Option<Error>)
    modifies db
    ensures Performed(db, e, DecideUpdateGate(caller, view, form, reservoirCode, reservoir, expected), 0)
  {
    if view.gate.None? { return Some(NotFound); }
    var id, current := view.gate.value.id, view.gate.value.row;
    if !Complete(current.code, form) { return Some(InvalidInput); }
    if !EqualFold(Trim(reservoirCode), current.body.reservoirCode) { return Some(InvalidInput); }
    if reservoir.None? { return Some(NotFound); }
    if !EqualFold(Trim(form.facility), reservoir.value.facility) { return Some(InvalidInput); }
    current := current.(body := current.body.(business := Trimmed(form)));
    current := current.(body := current.body.(reservoirCode := reservoir.value.code));
    current := current.(version := expected + 1);
    e := CommitGate(db, caller, Update(id, expected, current, Updated, current.status), 0);
  }

  method UpdateDirectiveRow(db: Connection, caller: Caller, view: View, form: Form, gateCode: string,
                            gateState: Option<GateTarget>, expected: nat)
    returns (e: Option<Error>)
    modifies db
    ensures Performed(db, e, DecideUpdateDirective(caller, view, form, gateCode, gateState, expected), 0)
  {
    if view.directive.None? { return Some(NotFound); }
    var id, current := view.directive.value.id, view.directive.value.row;
    if current.status != Draft { return Some(ImmutableState); }
    if !Complete(current.code, form) { return Some(InvalidInput); }
    if view.gate.None? { return Some(NotFound); }
    var gate := view.gate.value.row;
    if !EqualFold(Trim(form.facility), gate.body.business.facility) || gate.status == Locked { return Some(InvalidInput); }
    current := current.(body := current.body.(business := Trimmed(form)));
    current := current.(body := current.body.(gateCode := Canonical(gateCode)));
    if gateState.Some? {
      current := current.(body := current.body.(target := gateState.value));
    }
    current := current.(version := expected + 1);
    e := CommitDirective(db, caller, Update(id, expected, current, Updated, current.status), 0);
  }

  method UpdateReceiptRow(db: Connection, caller: Caller, view: View, form: Form, directiveCode: string, expected: nat)
    returns (e: Option<Error>)
    modifies db
    ensures Performed(db, e, DecideUpdateReceipt(caller, view, form, directiveCode, expected), 0)
  {
    if view.receipt.None? { return Some(NotFound); }
    var id, current := view.receipt.value.id, view.receipt.value.row;
    if !Complete(current.code, form) { return Some(InvalidInput); }
    if current.status != Pending { return Some(ImmutableState); }
    if !EqualFold(Trim(directiveCode), current.body.directiveCode) { return Some(InvalidInput); }
    if view.directive.None? { return Some(NotFound); }
    var directive := view.directive.value.row;
    if directive.status != Executing { return Some(InvalidInput); }
    var business := Trimmed(form);
    business := business.(facility := directive.body.business.facility);
    business := business.(category := directive.body.business.category);
    business := business.(risk := directive.body.business.risk);
    current := current.(body := current.body.(business := business));
    current := current.(body := current.body.(directiveCode := directive.code));
    current := current.(version := expected + 1);
    e := CommitReceipt(db, caller, Update(id, expected, current, Updated, current.status), 0);
  }

  // ---- Creations ----

  method CreateGateRow(db: Connection, caller: Caller, form: Form, reservoirCode: string, reservoir: Option<Reservoir>,
                       key: nat)
    returns (e: Option<Error>)
    modifies db
    ensures Performed(db, e, DecideCreateGate(caller, form, reservoirCode, reservoir), key)
  {
    if !Complete(form.code, form) { return Some(InvalidInput); }
    if reservoir.None? { return Some(NotFound); }
    if !EqualFold(Trim(form.facility), reservoir.value.facility) { return Some(InvalidInput); }
    var item := Row(Canonical(form.code), Open, 1, false, GateBody(Trimmed(form), Canonical(reservoirCode)));
    e := CommitGate(db, caller, Insert(item), key);
  }

  method CreateDirectiveRow(db: Connection, caller: Caller, view: View, form: Form, gateCode: string,
                            gateState: Option<GateTarget>, key: nat)
    returns (e: Option<Error>)
    modifies db
    ensures Performed(db, e, DecideCreateDirective(caller, view, form, gateCode, gateState), key)
  {
    if !Complete(form.code, form) { return Some(InvalidInput); }
    if view.gate.None? { return Some(NotFound); }
    var gate := view.gate.value.row;
    if !EqualFold(Trim(form.facility), gate.body.business.facility) || gate.status == Locked { return Some(InvalidInput); }
    var target: GateTarget := Closed;
    if gateState.Some? {
      target := gateState.value;
    }
    var item := Row(Canonical(form.code), Draft, 1, false,
                    DirectiveBody(Trimmed(form), Canonical(gateCode), target, "", ""));
    e := CommitDirective(db, caller, Insert(item), key);
  }

  method CreateReceiptRow(db: Connection, caller: Caller, view: View, form: Form, key: nat) returns (e: Option<Error>)
    modifies db
    ensures Performed(db, e, DecideCreateReceipt(caller, view, form), key)
  {
    if !Complete(form.code, form) { return Some(InvalidInput); }
    if view.directive.None? { return Some(NotFound); }
    var directive := view.directive.value.row;
    if directive.status != Executing { return Some(InvalidInput); }
    if view.slots > 0 { return Some(InvalidInput); }
    var order := directive.body.business;
    var business := Business(Trim(form.name), order.facility, Trim(form.owner), order.category, order.risk, form.details);
    var item := Row(Canonical(form.code), Pending, 1, false, ReceiptBody(business, directive.code, ""));
    e := CommitReceipt(db, caller, Insert(item), key);
  }

  // ---- Deletions ----

  method DeleteGateRow(db: Connection, caller: Caller, view: View, key: nat) returns (e: Option<Error>)
    modifies db
    ensures Performed(db, e, DecideDeleteGate(caller, view), key)
  {
    if view.gate.None? { return Some(NotFound); }
    e := CommitGate(db, caller, Remove(view.gate.value.id, view.gate.value.row.status), key);
  }

  method DeleteDirectiveRow(db: Connection, caller: Caller, view: View, key: nat) returns (e: Option<Error>)
    modifies db
    ensures Performed(db, e, DecideDeleteDirective(caller, view), key)
  {
    if view.directive.None? { return Some(NotFound); }
    var id, current := view.directive.value.id, view.directive.value.row;
    if current.status != Draft { return Some(ImmutableState); }
    e := CommitDirective(db, caller, Remove(id, current.status), key);
  }

  method DeleteReceiptRow(db: Connection, caller: Caller, view: View, key: nat) returns (e: Option<Error>)
    modifies db
    ensures Performed(db, e, DecideDeleteReceipt(caller, view), key)
  {
    if view.receipt.None? { return Some(NotFound); }
    var id, current := view.receipt.value.id, view.receipt.value.row;
    if current.status != Pending { return Some(ImmutableState); }
    e := CommitReceipt(db, caller, Remove(id, current.status), key);
  }

  // ---- Any request ----

  lemma UpdatesNeedNoKey(store: Store, plan: Plan, k1: nat, k2: nat)
    requires OnlyUpdates(plan)
    ensures Commit(store, plan, k1) == Commit(store, plan, k2)
  {
  }

  lemma VersionedNeedsNoKey(store: Store, request: Request, caller: Caller, view: View, key: nat)
    ensures var decision := Decide(request, caller, view);
            Versioned(request) && decision.Ok? ==>
              Commit(store, decision.value, 0) == Commit(store, decision.value, key)
  {
    var decision := Decide(request, caller, view);
    if Versioned(request) && decision.Ok? {
      VersionedOnlyUpdates(Flight(request, caller, view, LOOKUPS), decision.value);
      UpdatesNeedNoKey(store, decision.value, 0, key);
    }
  }

  /** The request of a flight, run against the store as it is now. */
  method Execute(db: Connection, request: Request, caller: Caller, view: View, key: nat) returns (e: Option<Error>)
    modifies db
    ensures Performed(db, e, Decide(request, caller, view), key)
    ensures old(db.savepoints) == [] ==>
              db.Current() == if db.NoneBroke(old(db.issued), db.issued)
                              then StoreAfter(old(db.Current()), Flight(request, caller, view, LOOKUPS), key)
                              else old(db.Current())
  {
    VersionedNeedsNoKey(db.Current(), request, caller, view, key);
    match request
    case UpdateGate(_, form, code, reservoir, expected) => e := UpdateGateRow(db, caller, view, form, code, reservoir, expected);
    case MoveGate(_, target, expected) => e := MoveGateRow(db, caller, view, target, expected);
    case UpdateDirective(_, form, code, state, expected) => e := UpdateDirectiveRow(db, caller, view, form, code, state, expected);
    case MoveDirective(_, target, expected) => e := MoveDirectiveRow(db, caller, view, target, expected);
    case UpdateReceipt(_, form, code, expected) => e := UpdateReceiptRow(db, caller, view, form, code, expected);
    case MoveReceipt(_, target, expected) => e := MoveReceiptRow(db, caller, view, target, expected);
    case _ => e := ExecuteSingle(db, request, caller, view, key);
  }

  /** Creations and deletions, which carry no version. */
  method ExecuteSingle(db: Connection, request: Request, caller: Caller, view: View, key: nat) returns (e: Option<Error>)
    requires !Versioned(request)
    modifies db
    ensures Performed(db, e, Decide(request, caller, view), key)
  {
    match request
    case CreateGate(form, code, reservoir) => e := CreateGateRow(db, caller, form, code, reservoir, key);
    case DeleteGate(_) => e := DeleteGateRow(db, caller, view, key);
    case CreateDirective(form, code, state) => e := CreateDirectiveRow(db, caller, view, form, code, state, key);
    case DeleteDirective(_) => e := DeleteDirectiveRow(db, caller, view, key);
    case CreateReceipt(form, _) => e := CreateReceiptRow(db, caller, view, form, key);
    case DeleteReceipt(_) => e := DeleteReceiptRow(db, caller, view, key);
  }
}
