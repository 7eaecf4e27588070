/** Everything the workflow keeps under honest clients, in every reachable state
    of the interleaved system. */
module Workflow {
  import opened Rows
  import Text
  import opened Repository
  import opened Services
  import opened Dispatch
  import opened Versions
  import opened Locking
  import opened Trails
  import opened Evidence
  import opened FrozenOrder
  import opened Agreement

  ghost predicate StoreInv(s: Store) {
    && IndexesHold(s.directives, s.receipts)
    && AllAnswer(s.directives, s.receipts)
    && AllConfirmed(s.directives, s.receipts)
    && EvidenceHolds(s.directives, s.approvals)
    && LogReplays(s)
  }

  ghost predicate FlightInv(f: Flight, store: Store) {
    && FlightFits(f)
    && ViewObserved(f.view, store)
    && DirectiveObserved(f.view, store)
    && (f.view.receipt.Some? ==> var code := f.view.receipt.value.row.body.directiveCode; Text.Canonical(code) == code)
  }

  ghost predicate SystemInv(system: System) {
    StoreInv(system.store) && forall id | id in system.flights :: FlightInv(system.flights[id], system.store)
  }

  // ---- One honest commit ----

  /** The shapes a decision can have, together. */
  ghost predicate SoundPlan(plan: Plan, view: View) {
    && PlanWellVersioned(plan)
    && DirectiveChange(plan.directive, view.directive, plan.approval)
    && ReceiptChange(plan, view)
    && CanonicalInsert(plan.directive)
    && StepwisePlan(plan, view)
  }

  lemma DecidedPlansAreSound(f: Flight, store: Store)
    requires FlightInv(f, store) && Decide(f.request, f.caller, f.view).Ok?
    ensures SoundPlan(Decide(f.request, f.caller, f.view).value, f.view)
  {
    DecidedPlansAreWellVersioned(f.request, f.caller, f.view);
    DecidedDirectiveChanges(f.request, f.caller, f.view);
    DecidedReceiptChanges(f.request, f.caller, f.view);
    DecidedCodesAreCanonical(f.request, f.caller, f.view);
    DecidedPlansAreStepwise(f.request, f.caller, f.view);
  }

  lemma CommitKeepsStoreInv(store: Store, plan: Plan, view: View, key: nat)
    requires StoreInv(store) && SoundPlan(plan, view) && PlanFromPresent(plan, view, store)
    requires DirectiveObserved(view, store)
    requires Commit(store, plan, key).Ok?
    ensures StoreInv(Commit(store, plan, key).value)
  {
    IndexesStay(store, plan, key);
    CommitKeepsAgreement(store, plan, view, key);
    EvidenceKept(store.directives, store.approvals, plan.directive, view.directive, plan.approval, key);
    CommitKeepsLogReplays(store, plan, view, key);
  }

  lemma CommitProgresses(store: Store, plan: Plan, view: View, key: nat)
    requires EvidenceHolds(store.directives, store.approvals)
    requires SoundPlan(plan, view) && PlanFromPresent(plan, view, store)
    requires Commit(store, plan, key).Ok?
    ensures StoreProgress(store, Commit(store, plan, key).value)
  {
    CommitEvolves(store, plan, key);
    DirectivesProgress(store.directives, plan.directive, view.directive, plan.approval, key, store.approvals);
    ReceiptsProgress(store.receipts, plan, view, key);
  }

  /** A successful honest attempt is a sound plan, computed from the rows present. */
  lemma HonestPlan(store: Store, f: Flight, key: nat) returns (plan: Plan)
    requires FlightInv(f, store) && Honest(f) && Attempt(store, f, key).Ok?
    ensures SoundPlan(plan, f.view) && PlanFromPresent(plan, f.view, store)
    ensures Decide(f.request, f.caller, f.view) == Ok(plan)
    ensures Commit(store, plan, key) == Ok(StoreAfter(store, f, key))
  {
    AttemptReadsPresent(store, f, key);
    DecidedPlansAreSound(f, store);
    plan := Decide(f.request, f.caller, f.view).value;
  }

  lemma HonestAttempt(store: Store, f: Flight, key: nat)
    requires StoreInv(store) && FlightInv(f, store) && Honest(f)
    ensures StoreInv(StoreAfter(store, f, key)) && StoreProgress(store, StoreAfter(store, f, key))
  {
    if Attempt(store, f, key).Ok? {
      var plan := HonestPlan(store, f, key);
      CommitKeepsStoreInv(store, plan, f.view, key);
      CommitProgresses(store, plan, f.view, key);
    } else {
      StoreProgressReflexive(store);
    }
  }

  // ---- One event ----

  lemma FlightInvLater(f: Flight, s: Store, t: Store)
    requires FlightInv(f, s) && StoreProgress(s, t)
    ensures FlightInv(f, t)
  {
    ViewObservedLater(f.view, s, t);
    DirectiveObservedLater(f.view, s, t);
  }

  lemma NextReadSeesDirective(store: Store, f: Flight)
    requires DirectiveObserved(f.view, store)
    ensures DirectiveObserved(NextRead(store, f).view, store)
  {
    var read := ReadDirective(store, f.request, f.view);
    assert read.Some? ==> read.value.id in store.directives && read.value.row == store.directives[read.value.id];
  }

  lemma ReadReceiptIsCanonical(store: Store, request: Request)
    requires CodesCanonical(store.directives) && AllAnswer(store.directives, store.receipts)
    ensures var read := ReadReceipt(store, request);
            read.Some? ==> var code := read.value.row.body.directiveCode; Text.Canonical(code) == code
  {
    var read := ReadReceipt(store, request);
    if read.Some? {
      assert Answers(store.receipts[request.id], store.directives);
      AnsweredCodeIsCanonical(store.directives, store.receipts[request.id]);
    }
  }

  lemma NextReadKeepsFlightInv(store: Store, f: Flight)
    requires CodesCanonical(store.directives) && AllAnswer(store.directives, store.receipts) && FlightInv(f, store)
    ensures FlightInv(NextRead(store, f), store)
  {
    NextReadFits(store, f);
    NextReadObserved(store, f);
    NextReadSeesDirective(store, f);
    ReadReceiptIsCanonical(store, f.request);
  }

  lemma StoreProgressReflexive(s: Store)
    ensures StoreProgress(s, s)
  {
  }

  lemma HonestFlight(system: System, event: Event, id: nat)
    requires SystemInv(system) && StoreProgress(system.store, Step(system, event).store)
    requires id in Step(system, event).flights
    ensures FlightInv(Step(system, event).flights[id], Step(system, event).store)
  {
    if id in system.flights {
      FlightInvLater(system.flights[id], system.store, Step(system, event).store);
      if event == Read(id) {
        NextReadKeepsFlightInv(system.store, system.flights[id]);
      }
    }
  }

  lemma HonestStep(system: System, event: Event)
    requires SystemInv(system) && HonestEvent(system, event)
    ensures SystemInv(Step(system, event)) && StoreProgress(system.store, Step(system, event).store)
  {
    StoreProgressReflexive(system.store);
    if Succeeds(system, event) {
      HonestAttempt(system.store, system.flights[event.flight], event.key);
    }
    forall id | id in Step(system, event).flights
      ensures FlightInv(Step(system, event).flights[id], Step(system, event).store)
    {
      HonestFlight(system, event, id);
    }
  }

  // ---- Every honest schedule ----

  lemma {:induction false} AlwaysInv(schedule: seq<Event>)
    requires HonestSchedule(schedule)
    ensures SystemInv(Exec(schedule))
  {
    if schedule != [] {
      var n := |schedule| - 1;
      AlwaysInv(schedule[..n]);
      HonestStep(Exec(schedule[..n]), schedule[n]);
    }
  }

  /** Any two moments of an honest schedule. */
  lemma {:induction false} HistoryProgresses(schedule: seq<Event>, n: nat)
    requires HonestSchedule(schedule) && n <= |schedule|
    ensures StoreProgress(Exec(schedule[..n]).store, Exec(schedule).store)
  {
    var last := |schedule| - 1;
    if n == |schedule| {
      assert schedule[..n] == schedule;
      StoreProgressReflexive(Exec(schedule).store);
    } else {
      HistoryProgresses(schedule[..last], n);
      assert schedule[..last][..n] == schedule[..n];
      AlwaysInv(schedule[..last]);
      HonestStep(Exec(schedule[..last]), schedule[last]);
      StoreProgressTransitive(Exec(schedule[..n]).store, Exec(schedule[..last]).store, Exec(schedule).store);
    }
  }
}
