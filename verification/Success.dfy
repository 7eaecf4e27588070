/** When a transaction that only updates rows succeeds: exactly when none of
    those rows has changed since it was read. No other obstacle exists. */
module Success {
  import opened Rows
  import opened Repository
  import opened Services
  import opened Dispatch
  import opened Versions
  import opened Locking
  import opened Evidence
  import opened FrozenOrder
  import opened Agreement
  import opened Workflow

  /** The client sends back the version its request read. */
  predicate Echoes(f: Flight) {
    Versioned(f.request) && AddressedVersion(f.request, f.view).Some? ==>
      f.request.expected == AddressedVersion(f.request, f.view).value
  }

  predicate Exact<T>(change: Option<Change<T>>, seen: Option<Seen<T>>) {
    change.Some? && change.value.Update? ==> seen.Some? && change.value.id == seen.value.id
                                             && change.value.expected == seen.value.row.version
  }

  predicate OnlyUpdates(plan: Plan) {
    (plan.receipt.Some? ==> plan.receipt.value.Update?) && (plan.directive.Some? ==> plan.directive.value.Update?)
    && (plan.gate.Some? ==> plan.gate.value.Update?)
  }

  lemma VersionedOnlyUpdates(f: Flight, plan: Plan)
    requires Versioned(f.request) && Decide(f.request, f.caller, f.view) == Ok(plan)
    ensures OnlyUpdates(plan)
  {
  }

  lemma EchoesExactly(f: Flight, plan: Plan)
    requires Versioned(f.request) && Decide(f.request, f.caller, f.view) == Ok(plan) && Echoes(f)
    ensures Exact(plan.receipt, f.view.receipt) && Exact(plan.directive, f.view.directive) && Exact(plan.gate, f.view.gate)
  {
  }

  lemma CasIffUnchanged<T>(rows: Table<T>, change: Option<Change<T>>, seen: Option<Seen<T>>, key: nat)
    requires Observed(seen, rows) && Exact(change, seen)
    requires change.Some? ==> change.value.Update?
    ensures ApplyAny(rows, change, key).Ok? <==> FromPresent(change, seen, rows)
  {
  }

  lemma SlotStaysFree(receipts: Table<ReceiptBody>, change: Option<Change<ReceiptBody>>, plan: Plan, view: View, key: nat)
    requires SlotsUnique(receipts) && plan.receipt == change && ReceiptChange(plan, view)
    requires change.Some? ==> change.value.Update?
    requires FromPresent(change, view.receipt, receipts) && ApplyAny(receipts, change, key).Ok?
    ensures ApplyReceipt(receipts, change, key).Ok?
  {
  }

  /** Under honest clients evidence never meets the (directive, stage) index. */
  lemma EvidenceFindsRoom(store: Store, plan: Plan, view: View)
    requires EvidenceHolds(store.directives, store.approvals)
    requires DirectiveChange(plan.directive, view.directive, plan.approval)
    requires FromPresent(plan.directive, view.directive, store.directives)
    ensures AppendApproval(store.approvals, plan.approval).Ok?
  {
    if plan.approval.Some? {
      var id := plan.directive.value.id;
      MoveFindsStageFree(store.approvals, id, store.directives[id], plan.directive.value.row, plan.approval.value);
    }
  }

  /** In every reachable state: when the directive row of an honest request can still
      be written, its evidence can be, too. */
  lemma EvidenceIsNeverRefused(schedule: seq<Event>, id: nat, plan: Plan, key: nat)
    requires HonestSchedule(schedule) && id in Exec(schedule).flights
    requires var f := Exec(schedule).flights[id];
             Honest(f) && Decide(f.request, f.caller, f.view) == Ok(plan)
    requires ApplyAny(Exec(schedule).store.directives, plan.directive, key).Ok?
    ensures AppendApproval(Exec(schedule).store.approvals, plan.approval).Ok?
  {
    AlwaysInv(schedule);
    var f, store := Exec(schedule).flights[id], Exec(schedule).store;
    DecidedPlansAreSound(f, store);
    DecidedPlansAreGrounded(f.request, f.caller, f.view);
    HonestMeansNotAhead(f.request, f.caller, f.view, f);
    CasReadsPresent(store.directives, plan.directive, f.view.directive, key);
    EvidenceFindsRoom(store, plan, f.view);
  }

  predicate RowsApply(store: Store, plan: Plan, key: nat) {
    ApplyAny(store.receipts, plan.receipt, key).Ok? && ApplyAny(store.directives, plan.directive, key).Ok?
    && ApplyAny(store.gates, plan.gate, key).Ok?
  }

  lemma RowsApplyIffUnchanged(store: Store, plan: Plan, view: View, key: nat)
    requires ViewObserved(view, store) && OnlyUpdates(plan)
    requires Exact(plan.receipt, view.receipt) && Exact(plan.directive, view.directive) && Exact(plan.gate, view.gate)
    ensures RowsApply(store, plan, key) <==> PlanFromPresent(plan, view, store)
  {
    CasIffUnchanged(store.receipts, plan.receipt, view.receipt, key);
    CasIffUnchanged(store.directives, plan.directive, view.directive, key);
    CasIffUnchanged(store.gates, plan.gate, view.gate, key);
  }

  lemma CommittedRowsApply(store: Store, plan: Plan, key: nat)
    ensures Commit(store, plan, key).Ok? ==> RowsApply(store, plan, key)
  {
  }

  lemma NothingElseRefuses(store: Store, plan: Plan, view: View, key: nat)
    requires StoreInv(store) && SoundPlan(plan, view) && OnlyUpdates(plan) && PlanFromPresent(plan, view, store)
    requires RowsApply(store, plan, key)
    ensures Commit(store, plan, key).Ok?
  {
    SlotStaysFree(store.receipts, plan.receipt, plan, view, key);
    EvidenceFindsRoom(store, plan, view);
  }

  lemma PlanCommitsIffUnchanged(store: Store, plan: Plan, view: View, key: nat)
    requires StoreInv(store) && SoundPlan(plan, view) && ViewObserved(view, store) && OnlyUpdates(plan)
    requires Exact(plan.receipt, view.receipt) && Exact(plan.directive, view.directive) && Exact(plan.gate, view.gate)
    ensures Commit(store, plan, key).Ok? <==> PlanFromPresent(plan, view, store)
  {
    RowsApplyIffUnchanged(store, plan, view, key);
    CommittedRowsApply(store, plan, key);
    if RowsApply(store, plan, key) {
      NothingElseRefuses(store, plan, view, key);
    }
  }

  /** In every reachable state, an accepted edit or transition that echoes the
      version it read commits if and only if the rows it writes are unchanged. */
  lemma CommitsIffUnchanged(schedule: seq<Event>, id: nat, plan: Plan, key: nat)
    requires HonestSchedule(schedule) && id in Exec(schedule).flights
    requires var f := Exec(schedule).flights[id];
             Versioned(f.request) && Echoes(f) && Decide(f.request, f.caller, f.view) == Ok(plan)
    ensures var f := Exec(schedule).flights[id];
            Attempt(Exec(schedule).store, f, key).Ok? <==> PlanFromPresent(plan, f.view, Exec(schedule).store)
  {
    AlwaysInv(schedule);
    var f := Exec(schedule).flights[id];
    VersionedOnlyUpdates(f, plan);
    EchoesExactly(f, plan);
    DecidedPlansAreSound(f, Exec(schedule).store);
    PlanCommitsIffUnchanged(Exec(schedule).store, plan, f.view, key);
  }

  /** Evidence and the receipt slot never refuse an honest update: the only way
      to fail is a version conflict. */
  lemma HonestUpdatesOnlyConflict(schedule: seq<Event>, id: nat, plan: Plan, key: nat)
    requires HonestSchedule(schedule) && id in Exec(schedule).flights
    requires var f := Exec(schedule).flights[id];
             Versioned(f.request) && Honest(f) && Decide(f.request, f.caller, f.view) == Ok(plan)
    ensures var outcome := Attempt(Exec(schedule).store, Exec(schedule).flights[id], key);
            outcome.Ok? || outcome == Err(VersionConflict)
  {
    AlwaysInv(schedule);
    var f := Exec(schedule).flights[id];
    var store := Exec(schedule).store;
    VersionedOnlyUpdates(f, plan);
    DecidedPlansAreSound(f, store);
    DecidedPlansAreGrounded(f.request, f.caller, f.view);
    HonestMeansNotAhead(f.request, f.caller, f.view, f);
    OnlyConflicts(store, plan, f.view, key);
  }

  lemma ReceiptsOnlyConflict(store: Store, plan: Plan, view: View, key: nat)
    requires SlotsUnique(store.receipts) && Observed(view.receipt, store.receipts)
    requires ReceiptChange(plan, view) && (plan.receipt.Some? ==> plan.receipt.value.Update?)
    requires Grounded(plan.receipt, view.receipt) && NotAhead(plan.receipt, view.receipt)
    ensures var outcome := ApplyReceipt(store.receipts, plan.receipt, key); outcome.Ok? || outcome == Err(VersionConflict)
  {
    if ApplyAny(store.receipts, plan.receipt, key).Ok? {
      CasReadsPresent(store.receipts, plan.receipt, view.receipt, key);
      SlotStaysFree(store.receipts, plan.receipt, plan, view, key);
    }
  }

  lemma DirectivesOnlyConflict(store: Store, plan: Plan, view: View, key: nat)
    requires EvidenceHolds(store.directives, store.approvals) && Observed(view.directive, store.directives)
    requires DirectiveChange(plan.directive, view.directive, plan.approval)
    requires plan.directive.Some? ==> plan.directive.value.Update?
    requires Grounded(plan.directive, view.directive) && NotAhead(plan.directive, view.directive)
    ensures var outcome := ApplyAny(store.directives, plan.directive, key);
            (outcome.Ok? && AppendApproval(store.approvals, plan.approval).Ok?) || outcome == Err(VersionConflict)
  {
    if ApplyAny(store.directives, plan.directive, key).Ok? {
      CasReadsPresent(store.directives, plan.directive, view.directive, key);
      EvidenceFindsRoom(store, plan, view);
    }
  }

  lemma OnlyConflicts(store: Store, plan: Plan, view: View, key: nat)
    requires StoreInv(store) && SoundPlan(plan, view) && ViewObserved(view, store) && OnlyUpdates(plan)
    requires Grounded(plan.receipt, view.receipt) && Grounded(plan.directive, view.directive) && Grounded(plan.gate, view.gate)
    requires NotAhead(plan.receipt, view.receipt) && NotAhead(plan.directive, view.directive) && NotAhead(plan.gate, view.gate)
    ensures var outcome := Commit(store, plan, key); outcome.Ok? || outcome == Err(VersionConflict)
  {
    ReceiptsOnlyConflict(store, plan, view, key);
    DirectivesOnlyConflict(store, plan, view, key);
    assert ApplyAny(store.gates, plan.gate, key).Ok? || ApplyAny(store.gates, plan.gate, key) == Err(VersionConflict);
  }
}
