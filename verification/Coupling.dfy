/** A directive and its gate: what starting, finishing and aborting an execution
    leave the gate in; and the system in which requests are never interrupted. */
module Coupling {
  import opened Statuses
  import opened Rows
  import opened Text
  import opened Repository
  import opened Services
  import opened Dispatch
  import opened Versions
  import opened Locking

  /** The gate status that goes with a step of a directive with this target. */
  predicate Coupled(from: Status, to: Status, target: GateTarget, gate: Status) {
    && (to == Executing ==> gate == Moving || gate == target)
    && (to == Completed ==> gate == target)
    && (from == Executing && to == Aborted ==> gate == Locked)
  }

  predicate NeedsCoupling(from: Status, to: Status) {
    to == Executing || to == Completed || (from == Executing && to == Aborted)
  }

  /** The status the gate has, as far as the decision goes. */
  function GateAfter(plan: Plan, seen: Seen<GateBody>): Status {
    if plan.gate.Some? && !plan.gate.value.Remove? then plan.gate.value.row.status else seen.row.status
  }

  predicate PlanMovesDirective(plan: Plan) {
    plan.directive.Some? && plan.directive.value.Update?
    && NeedsCoupling(plan.directive.value.before, plan.directive.value.row.status)
  }

  /** What a step of a directive that needs its gate looks like, as decided. */
  predicate CouplingPlan(plan: Plan, view: View) {
    && view.directive.Some? && view.gate.Some? && plan.directive.Some? && plan.directive.value.Update?
    && plan.directive.value.before == view.directive.value.row.status
    && (plan.gate.Some? ==> plan.gate.value.Update? && plan.gate.value.id == view.gate.value.id)
    && Coupled(plan.directive.value.before, plan.directive.value.row.status,
               view.directive.value.row.body.target, GateAfter(plan, view.gate.value))
  }

  lemma MoveCoupling(caller: Caller, view: View, target: Status, expected: nat)
    requires DecideMoveDirective(caller, view, target, expected).Ok?
    ensures var plan := DecideMoveDirective(caller, view, target, expected).value;
            PlanMovesDirective(plan) ==> CouplingPlan(plan, view) && NeedsGate(view.directive.value.row.status, target)
  {
    DirectiveEdges(view.directive.value.row.status, target);
  }

  lemma OutcomeCoupling(caller: Caller, view: View, target: Status, expected: nat)
    requires DecideMoveReceipt(caller, view, target, expected).Ok?
    ensures var plan := DecideMoveReceipt(caller, view, target, expected).value;
            PlanMovesDirective(plan) ==> CouplingPlan(plan, view)
  {
    if view.receipt.value.row.status == Pending {
      ReceiptEdges(Pending, target);
    }
  }

  lemma MovingRequests(f: Flight, plan: Plan)
    requires Decide(f.request, f.caller, f.view) == Ok(plan) && PlanMovesDirective(plan)
    ensures f.request.MoveDirective? || f.request.MoveReceipt?
  {
  }

  lemma DecidedCoupling(f: Flight, plan: Plan)
    requires Decide(f.request, f.caller, f.view) == Ok(plan) && PlanMovesDirective(plan)
    requires FlightFits(f)
    ensures f.view.directive.Some? && f.view.gate.Some?
    ensures plan.directive.value.before == f.view.directive.value.row.status
    ensures plan.gate.Some? ==> plan.gate.value.Update? && plan.gate.value.id == f.view.gate.value.id
    ensures f.view.gate.value.row.code == Canonical(f.view.directive.value.row.body.gateCode)
    ensures Coupled(plan.directive.value.before, plan.directive.value.row.status,
                    f.view.directive.value.row.body.target, GateAfter(plan, f.view.gate.value))
  {
    MovingRequests(f, plan);
    if f.request.MoveDirective? {
      MoveCoupling(f.caller, f.view, f.request.target, f.request.expected);
    } else {
      OutcomeCoupling(f.caller, f.view, f.request.target, f.request.expected);
    }
  }

  /** The gate of a committed step: a written gate is coupled, one left alone was
      coupled when it was read. */
  predicate GateSettled(plan: Plan, seen: Seen<GateBody>, from: Status, to: Status, target: GateTarget,
                        before: Gate, after: Gate)
  {
    && (plan.gate.Some? ==> Coupled(from, to, target, after.status))
    && (plan.gate.None? ==> after == before && Coupled(from, to, target, seen.row.status))
  }

  /** Interleaved: an honest commit that starts, completes or aborts an execution
      leaves a gate it wrote coupled. A gate it did not write was coupled when it
      was read, and still is if its version has not changed since. */
  lemma GateCoupling(schedule: seq<Event>, k: nat, f: Flight, plan: Plan)
    requires Commits(schedule, k, f) && Honest(f)
    requires Decide(f.request, f.caller, f.view) == Ok(plan) && PlanMovesDirective(plan)
    ensures f.view.directive.Some? && f.view.gate.Some?
    ensures var s, t := Exec(schedule[..k]).store, Exec(schedule[..k + 1]).store;
            var d, g, seen := f.view.directive.value.id, f.view.gate.value.id, f.view.gate.value;
            && d in s.directives && d in t.directives && g in s.gates && g in t.gates
            && t.gates[g].code == Canonical(s.directives[d].body.gateCode)
            && t.directives[d].status == plan.directive.value.row.status
            && var from, to, target := s.directives[d].status, t.directives[d].status, s.directives[d].body.target;
               && GateSettled(plan, seen, from, to, target, s.gates[g], t.gates[g])
               && (Coupled(from, to, target, t.gates[g].status)
                   <==> plan.gate.Some? || Coupled(from, to, target, s.gates[g].status))
               && (plan.gate.None? && s.gates[g].version == seen.row.version ==>
                     Coupled(from, to, target, t.gates[g].status))
  {
    ViewsFit(schedule[..k]);
    ReadsAreEarlierStates(schedule[..k]);
    CommittedWritesAreCurrent(schedule, k, f);
    ExecAfterCommit(schedule, k, f);
    DecidedPlansAreGrounded(f.request, f.caller, f.view);
    DecidedCoupling(f, plan);
    AttemptApplies(Exec(schedule[..k]).store, f, schedule[k].key);
    CoupledTables(Exec(schedule[..k]).store, plan, f.view, schedule[k].key);
  }

  lemma CoupledTables(store: Store, plan: Plan, view: View, key: nat)
    requires PlanMovesDirective(plan) && view.directive.Some? && view.gate.Some?
    requires ViewObserved(view, store) && PlanFromPresent(plan, view, store)
    requires plan.directive.value.before == view.directive.value.row.status
    requires plan.gate.Some? ==> plan.gate.value.Update? && plan.gate.value.id == view.gate.value.id
    requires ApplyAny(store.directives, plan.directive, key).Ok? && ApplyAny(store.gates, plan.gate, key).Ok?
    requires Coupled(plan.directive.value.before, plan.directive.value.row.status,
                     view.directive.value.row.body.target, GateAfter(plan, view.gate.value))
    ensures var d, g := view.directive.value.id, view.gate.value.id;
            var directives, gates := ApplyAny(store.directives, plan.directive, key).value, ApplyAny(store.gates, plan.gate, key).value;
            && d in store.directives && d in directives && g in store.gates && g in gates
            && store.directives[d] == view.directive.value.row
            && directives[d].status == plan.directive.value.row.status
            && gates[g].code == view.gate.value.row.code
            && GateSettled(plan, view.gate.value, store.directives[d].status, directives[d].status,
                           store.directives[d].body.target, store.gates[g], gates[g])
  {
  }

  /** A new or edited draft names the very gate whose facility and lock were checked. */
  lemma DraftsLinkTheCheckedGate(f: Flight, plan: Plan)
    requires Decide(f.request, f.caller, f.view) == Ok(plan) && FlightFits(f)
    requires f.request.CreateDirective? || f.request.UpdateDirective?
    ensures plan.directive.Some? && !plan.directive.value.Remove? && f.view.gate.Some?
    ensures var row, gate := plan.directive.value.row, f.view.gate.value.row;
            && row.status == Draft && row.body.gateCode == gate.code
            && gate.status != Locked && EqualFold(row.body.business.facility, gate.body.business.facility)
  {
  }

  // ---- Requests that nobody interrupts ----

  ghost function Uninterrupted(store: Store, request: Request, caller: Caller): Flight {
    Flight(request, caller, ViewNow(store, request), LOOKUPS)
  }

  /** The five events of one request in a row do what `AtomicStep` says. */
  lemma UninterruptedIsAtomic(system: System, id: nat, request: Request, caller: Caller, key: nat)
    requires id !in system.flights
    ensures var s1 := Step(Step(system, Begin(id, request, caller)), Read(id));
            var s2 := Step(Step(s1, Read(id)), Read(id));
            var outcome := AtomicStep(system.store, request, caller, key);
            Step(s2, Finish(id, key)) == System(if outcome.Ok? then outcome.value else system.store, system.flights)
  {
    var s0 := Step(system, Begin(id, request, caller));
    var s1 := Step(s0, Read(id));
    var s2 := Step(s1, Read(id));
    var s3 := Step(s2, Read(id));
    assert s3.flights[id] == Uninterrupted(system.store, request, caller);
    assert s3.flights - {id} == system.flights;
  }

  lemma UninterruptedFits(store: Store, request: Request, caller: Caller)
    ensures FlightFits(Uninterrupted(store, request, caller))
    ensures ViewObserved(ViewNow(store, request), store)
  {
    var f0 := Flight(request, caller, NOTHING_READ, 0);
    NextReadFits(store, f0);
    NextReadFits(store, NextRead(store, f0));
    NextReadFits(store, NextRead(store, NextRead(store, f0)));
    NextReadObserved(store, f0);
    NextReadObserved(store, NextRead(store, f0));
    NextReadObserved(store, NextRead(store, NextRead(store, f0)));
  }

  lemma ViewNowIsPresent(store: Store, request: Request)
    ensures AllStillThere(ViewNow(store, request), store)
  {
  }

  lemma AtomicPlanIsFromPresent(store: Store, request: Request, caller: Caller, plan: Plan)
    requires Decide(request, caller, ViewNow(store, request)) == Ok(plan)
    ensures PlanFromPresent(plan, ViewNow(store, request), store)
  {
    ViewNowIsPresent(store, request);
    DecidedPlansAreGrounded(request, caller, ViewNow(store, request));
  }

  /** Uninterrupted requests always leave the gate coupled. */
  lemma AtomicCoupling(store: Store, request: Request, caller: Caller, key: nat, plan: Plan, after: Store)
    requires Decide(request, caller, ViewNow(store, request)) == Ok(plan) && PlanMovesDirective(plan)
    requires AtomicStep(store, request, caller, key) == Ok(after)
    ensures var view := ViewNow(store, request);
            view.directive.Some? && view.gate.Some?
            && var d, g := view.directive.value.id, view.gate.value.id;
               && d in store.directives && d in after.directives && g in after.gates
               && after.gates[g].code == Canonical(store.directives[d].body.gateCode)
               && after.directives[d].status == plan.directive.value.row.status
               && Coupled(store.directives[d].status, after.directives[d].status, store.directives[d].body.target,
                          after.gates[g].status)
  {
    var f := Uninterrupted(store, request, caller);
    UninterruptedFits(store, request, caller);
    DecidedCoupling(f, plan);
    AtomicPlanIsFromPresent(store, request, caller, plan);
    ViewNowIsPresent(store, request);
    assert Attempt(store, f, key) == Ok(after);
    AttemptApplies(store, f, key);
    CoupledTables(store, plan, f.view, key);
  }

  // ---- Deletions ----

  datatype Job = Job(request: Request, caller: Caller, key: nat)

  /** A run of uninterrupted requests from the empty store. */
  ghost function AtomicRun(jobs: seq<Job>): Store {
    if jobs == [] then EMPTY_STORE
    else
      var job := jobs[|jobs| - 1];
      var store := AtomicRun(jobs[..|jobs| - 1]);
      var outcome := AtomicStep(store, job.request, job.caller, job.key);
      if outcome.Ok? then outcome.value else store
  }

  ghost predicate OnlyUnusedDeleted(store: Store) {
    && (forall id | id in store.directives && store.directives[id].deleted :: store.directives[id].status == Draft)
    && (forall id | id in store.receipts && store.receipts[id].deleted :: store.receipts[id].status == Pending)
  }

  predicate RemovesOnly<T>(change: Option<Change<T>>, status: Status) {
    change.Some? ==> match change.value
                     case Insert(row) => !row.deleted
                     case Update(_, _, row, _, _) => true
                     case Remove(_, before) => before == status
  }

  lemma DecidedRemovals(request: Request, caller: Caller, view: View)
    requires Decide(request, caller, view).Ok?
    ensures var plan := Decide(request, caller, view).value;
            && RemovesOnly(plan.directive, Draft) && RemovesOnly(plan.receipt, Pending)
            && (plan.directive.Some? && plan.directive.value.Remove? ==>
                  view.directive.Some? && view.directive.value.id == plan.directive.value.id
                  && view.directive.value.row.status == plan.directive.value.before)
            && (plan.receipt.Some? && plan.receipt.value.Remove? ==>
                  view.receipt.Some? && view.receipt.value.id == plan.receipt.value.id
                  && view.receipt.value.row.status == plan.receipt.value.before)
  {
  }

  lemma ApplyDeletes<T>(rows: Table<T>, change: Option<Change<T>>, status: Status, key: nat)
    requires RemovesOnly(change, status) && ApplyAny(rows, change, key).Ok?
    requires change.Some? && change.value.Remove? && change.value.id in rows ==> rows[change.value.id].status == status
    requires forall id | id in rows && rows[id].deleted :: rows[id].status == status
    ensures var next := ApplyAny(rows, change, key).value;
            forall id | id in next && next[id].deleted :: next[id].status == status
  {
  }

  lemma AtomicStepDeletes(store: Store, request: Request, caller: Caller, key: nat)
    requires OnlyUnusedDeleted(store) && AtomicStep(store, request, caller, key).Ok?
    ensures OnlyUnusedDeleted(AtomicStep(store, request, caller, key).value)
  {
    var f := Uninterrupted(store, request, caller);
    assert Attempt(store, f, key) == AtomicStep(store, request, caller, key);
    AttemptApplies(store, f, key);
    ViewNowIsPresent(store, request);
    DecidedRemovals(request, caller, f.view);
    var plan := Decide(request, caller, f.view).value;
    ApplyDeletes(store.directives, plan.directive, Draft, key);
    ApplyDeletes(store.receipts, plan.receipt, Pending, key);
  }

  /** Without interleaving only drafts and pending receipts are ever deleted. */
  lemma {:induction false} AtomicRunsDeleteOnlyUnused(jobs: seq<Job>)
    ensures OnlyUnusedDeleted(AtomicRun(jobs))
  {
    if jobs != [] {
      var n := |jobs| - 1;
      AtomicRunsDeleteOnlyUnused(jobs[..n]);
      var store := AtomicRun(jobs[..n]);
      if AtomicStep(store, jobs[n].request, jobs[n].caller, jobs[n].key).Ok? {
        AtomicStepDeletes(store, jobs[n].request, jobs[n].caller, jobs[n].key);
      }
    }
  }
}
