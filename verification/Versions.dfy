/** Optimistic locking, for every schedule and every client: versions only grow,
    a version determines the content of its row, and rows a request has read
    are earlier states of the stored rows. */
module Versions {
  import opened Rows
  import opened Repository
  import opened Services
  import opened Dispatch

  /** `b` is a later state of the row `a`. */
  ghost predicate RowEvolves<T>(a: Row<T>, b: Row<T>) {
    && a.code == b.code
    && a.version <= b.version
    && (a.version == b.version ==> b == a.(deleted := b.deleted))
    && (a.deleted ==> b == a)
  }

  ghost predicate TableEvolves<T>(old_: Table<T>, new_: Table<T>) {
    forall id | id in old_ :: id in new_ && RowEvolves(old_[id], new_[id])
  }

  /** Rows are never lost or taken back, evidence and audit are append-only. */
  ghost predicate StoreEvolves(s: Store, t: Store) {
    && TableEvolves(s.gates, t.gates)
    && TableEvolves(s.directives, t.directives)
    && TableEvolves(s.receipts, t.receipts)
    && s.approvals <= t.approvals
    && s.audits <= t.audits
  }

  lemma StoreEvolvesTransitive(r: Store, s: Store, t: Store)
    requires StoreEvolves(r, s) && StoreEvolves(s, t)
    ensures StoreEvolves(r, t)
  {
  }

  // ---- One transaction ----

  predicate WellVersioned<T>(change: Option<Change<T>>) {
    change.Some? && change.value.Update? ==> change.value.row.version == change.value.expected + 1
  }

  predicate PlanWellVersioned(plan: Plan) {
    WellVersioned(plan.receipt) && WellVersioned(plan.directive) && WellVersioned(plan.gate)
  }

  lemma DecidedPlansAreWellVersioned(request: Request, caller: Caller, view: View)
    requires Decide(request, caller, view).Ok?
    ensures PlanWellVersioned(Decide(request, caller, view).value)
  {
  }

  lemma ApplyEvolves<T>(rows: Table<T>, change: Option<Change<T>>, key: nat)
    requires WellVersioned(change) && ApplyAny(rows, change, key).Ok?
    ensures TableEvolves(rows, ApplyAny(rows, change, key).value)
  {
  }

  lemma CommitEvolves(store: Store, plan: Plan, key: nat)
    requires PlanWellVersioned(plan) && Commit(store, plan, key).Ok?
    ensures StoreEvolves(store, Commit(store, plan, key).value)
  {
    ApplyEvolves(store.receipts, plan.receipt, key);
    ApplyEvolves(store.directives, plan.directive, key);
    ApplyEvolves(store.gates, plan.gate, key);
  }

  lemma AttemptEvolves(store: Store, f: Flight, key: nat)
    ensures StoreEvolves(store, StoreAfter(store, f, key))
  {
    if Attempt(store, f, key).Ok? {
      DecidedPlansAreWellVersioned(f.request, f.caller, f.view);
      CommitEvolves(store, Decide(f.request, f.caller, f.view).value, key);
    }
  }

  lemma StepEvolves(system: System, event: Event)
    ensures StoreEvolves(system.store, Step(system, event).store)
  {
    if event.Finish? && Ready(system, event.flight) {
      AttemptEvolves(system.store, system.flights[event.flight], event.key);
    }
  }

  /** Any two moments of any schedule. */
  lemma {:induction false} HistoryEvolves(schedule: seq<Event>, n: nat)
    requires n <= |schedule|
    ensures StoreEvolves(Exec(schedule[..n]).store, Exec(schedule).store)
  {
    var last := |schedule| - 1;
    if n == |schedule| {
      assert schedule[..n] == schedule;
    } else {
      HistoryEvolves(schedule[..last], n);
      assert schedule[..last][..n] == schedule[..n];
      StepEvolves(Exec(schedule[..last]), schedule[last]);
      StoreEvolvesTransitive(Exec(schedule[..n]).store, Exec(schedule[..last]).store, Exec(schedule).store);
    }
  }

  // ---- What is in flight ----

  ghost predicate Observed<T>(seen: Option<Seen<T>>, rows: Table<T>) {
    seen.Some? ==> !seen.value.row.deleted && seen.value.id in rows
                   && RowEvolves(seen.value.row, rows[seen.value.id])
  }

  ghost predicate ViewObserved(view: View, store: Store) {
    Observed(view.receipt, store.receipts) && Observed(view.directive, store.directives)
    && Observed(view.gate, store.gates)
  }

  ghost predicate AllObserved(system: System) {
    forall id | id in system.flights :: ViewObserved(system.flights[id].view, system.store)
  }

  lemma ObservedLater<T>(seen: Option<Seen<T>>, s: Table<T>, t: Table<T>)
    requires Observed(seen, s) && TableEvolves(s, t)
    ensures Observed(seen, t)
  {
  }

  lemma ViewObservedLater(view: View, s: Store, t: Store)
    requires ViewObserved(view, s) && StoreEvolves(s, t)
    ensures ViewObserved(view, t)
  {
    ObservedLater(view.receipt, s.receipts, t.receipts);
    ObservedLater(view.directive, s.directives, t.directives);
    ObservedLater(view.gate, s.gates, t.gates);
  }

  lemma NextReadObserved(store: Store, f: Flight)
    requires ViewObserved(f.view, store)
    ensures ViewObserved(NextRead(store, f).view, store)
  {
  }

  lemma StepKeepsObserved(system: System, event: Event)
    requires AllObserved(system)
    ensures AllObserved(Step(system, event))
  {
    var next := Step(system, event);
    StepEvolves(system, event);
    forall id | id in next.flights
      ensures ViewObserved(next.flights[id].view, next.store)
    {
      if id in system.flights {
        ViewObservedLater(system.flights[id].view, system.store, next.store);
        if event == Read(id) {
          NextReadObserved(system.store, system.flights[id]);
        }
      }
    }
  }

  lemma {:induction false} ReadsAreEarlierStates(schedule: seq<Event>)
    ensures AllObserved(Exec(schedule))
  {
    if schedule != [] {
      var n := |schedule| - 1;
      ReadsAreEarlierStates(schedule[..n]);
      StepKeepsObserved(Exec(schedule[..n]), schedule[n]);
    }
  }
}
