/** What optimistic locking guarantees for committed requests, whatever the
    schedule; the exact role of honest clients; and when an interleaved request
    is indistinguishable from an uninterrupted one. */
module Locking {
  import opened Rows
  import opened Text
  import opened Repository
  import opened Services
  import opened Dispatch
  import opened Versions

  // ---- How views are filled ----

  ghost predicate DirectiveFits(request: Request, view: View) {
    view.directive.Some? ==>
      if request.UpdateDirective? || request.MoveDirective? || request.DeleteDirective?
      then view.directive.value.id == request.id
      else DirectiveCodeFor(request, view).Some?
           && view.directive.value.row.code == Canonical(DirectiveCodeFor(request, view).value)
  }

  ghost predicate GateFits(request: Request, view: View) {
    view.gate.Some? ==>
      if request.UpdateGate? || request.MoveGate? || request.DeleteGate?
      then view.gate.value.id == request.id
      else GateCodeFor(request, view).Some?
           && view.gate.value.row.code == Canonical(GateCodeFor(request, view).value)
  }

  ghost predicate ReceiptFits(request: Request, view: View) {
    view.receipt.Some? ==> (request.UpdateReceipt? || request.MoveReceipt? || request.DeleteReceipt?)
                           && view.receipt.value.id == request.id
  }

  /** The view holds what the lookups made so far can have returned. */
  ghost predicate FlightFits(f: Flight) {
    && f.lookups <= LOOKUPS
    && (f.lookups < 1 ==> f.view.receipt.None?)
    && (f.lookups < 2 ==> f.view.directive.None?)
    && (f.lookups < 3 ==> f.view.gate.None?)
    && (f.lookups < 3 || !f.request.CreateReceipt? ==> f.view.slots == 0)
    && ReceiptFits(f.request, f.view)
    && DirectiveFits(f.request, f.view)
    && GateFits(f.request, f.view)
  }

  ghost predicate AllFit(system: System) {
    forall id | id in system.flights :: FlightFits(system.flights[id])
  }

  lemma NextReadFits(store: Store, f: Flight)
    requires FlightFits(f)
    ensures FlightFits(NextRead(store, f))
  {
  }

  lemma {:induction false} ViewsFit(schedule: seq<Event>)
    ensures AllFit(Exec(schedule))
  {
    if schedule != [] {
      var n := |schedule| - 1;
      ViewsFit(schedule[..n]);
      var before, event := Exec(schedule[..n]), schedule[n];
      if event.Read? && event.flight in before.flights {
        NextReadFits(before.store, before.flights[event.flight]);
      }
    }
  }

  // ---- Unique codes ----

  ghost predicate CodesUnique<T>(rows: Table<T>) {
    forall i, j | i in rows && j in rows && rows[i].code == rows[j].code :: i == j
  }

  ghost predicate AllCodesUnique(store: Store) {
    CodesUnique(store.gates) && CodesUnique(store.directives) && CodesUnique(store.receipts)
  }

  lemma ApplyKeepsCodesUnique<T>(rows: Table<T>, change: Option<Change<T>>, key: nat)
    requires CodesUnique(rows) && ApplyAny(rows, change, key).Ok?
    ensures CodesUnique(ApplyAny(rows, change, key).value)
  {
  }

  lemma AttemptKeepsCodesUnique(store: Store, f: Flight, key: nat)
    requires AllCodesUnique(store)
    ensures AllCodesUnique(StoreAfter(store, f, key))
  {
    if Attempt(store, f, key).Ok? {
      var plan := Decide(f.request, f.caller, f.view).value;
      ApplyKeepsCodesUnique(store.receipts, plan.receipt, key);
      ApplyKeepsCodesUnique(store.directives, plan.directive, key);
      ApplyKeepsCodesUnique(store.gates, plan.gate, key);
    }
  }

  /** Codes stay unique in every table, counting soft-deleted rows. */
  lemma {:induction false} CodesStayUnique(schedule: seq<Event>)
    ensures AllCodesUnique(Exec(schedule).store)
  {
    if schedule != [] {
      var n := |schedule| - 1;
      CodesStayUnique(schedule[..n]);
      var before, event := Exec(schedule[..n]), schedule[n];
      if event.Finish? && Ready(before, event.flight) {
        AttemptKeepsCodesUnique(before.store, before.flights[event.flight], event.key);
      }
    }
  }

  // ---- Writes and the rows they were computed from ----

  /** An update goes to the row that was read. */
  predicate Grounded<T>(change: Option<Change<T>>, seen: Option<Seen<T>>) {
    change.Some? && change.value.Update? ==>
      seen.Some? && seen.value.id == change.value.id && change.value.before == seen.value.row.status
  }

  lemma DecidedPlansAreGrounded(request: Request, caller: Caller, view: View)
    requires Decide(request, caller, view).Ok?
    ensures var plan := Decide(request, caller, view).value;
            Grounded(plan.receipt, view.receipt) && Grounded(plan.directive, view.directive)
            && Grounded(plan.gate, view.gate)
  {
  }

  /** The row an update overwrites is exactly the row it was computed from. */
  ghost predicate FromPresent<T>(change: Option<Change<T>>, seen: Option<Seen<T>>, rows: Table<T>) {
    change.Some? && change.value.Update? ==>
      seen.Some? && seen.value.id == change.value.id && seen.value.id in rows
      && rows[seen.value.id] == seen.value.row
  }

  ghost predicate PlanFromPresent(plan: Plan, view: View, store: Store) {
    && FromPresent(plan.receipt, view.receipt, store.receipts)
    && FromPresent(plan.directive, view.directive, store.directives)
    && FromPresent(plan.gate, view.gate, store.gates)
  }

  predicate NotAhead<T>(change: Option<Change<T>>, seen: Option<Seen<T>>) {
    change.Some? && change.value.Update? && seen.Some? ==> change.value.expected <= seen.value.row.version
  }

  lemma CasReadsPresent<T>(rows: Table<T>, change: Option<Change<T>>, seen: Option<Seen<T>>, key: nat)
    requires Observed(seen, rows) && Grounded(change, seen)
    requires ApplyAny(rows, change, key).Ok?
    ensures FromPresent(change, seen, rows) <==> NotAhead(change, seen)
  {
  }

  /** The change an accepted versioned request makes to the row it addresses. */
  lemma AddressedChange(f: Flight, plan: Plan)
    requires Decide(f.request, f.caller, f.view) == Ok(plan) && Versioned(f.request)
    ensures AddressedVersion(f.request, f.view).Some?
    ensures if f.request.UpdateReceipt? || f.request.MoveReceipt?
            then plan.receipt.Some? && plan.receipt.value.Update? && plan.receipt.value.expected == f.request.expected
                 && AddressedVersion(f.request, f.view) == VersionOf(f.view.receipt)
            else plan.receipt.None?
    ensures if f.request.UpdateDirective? || f.request.MoveDirective?
            then plan.directive.Some? && plan.directive.value.Update? && plan.directive.value.expected == f.request.expected
                 && AddressedVersion(f.request, f.view) == VersionOf(f.view.directive)
            else plan.receipt.None? ==> plan.directive.None?
    ensures if f.request.UpdateGate? || f.request.MoveGate?
            then plan.gate.Some? && plan.gate.value.Update? && plan.gate.value.expected == f.request.expected
                 && AddressedVersion(f.request, f.view) == VersionOf(f.view.gate) && plan.approval.None?
            else true
  {
  }

  lemma LinkedNotAhead(f: Flight)
    requires Decide(f.request, f.caller, f.view).Ok? && (f.request.MoveReceipt? || f.request.MoveDirective?)
    ensures var plan := Decide(f.request, f.caller, f.view).value;
            NotAhead(plan.gate, f.view.gate) && (f.request.MoveReceipt? ==> NotAhead(plan.directive, f.view.directive))
  {
  }

  lemma HonestMeansNotAhead(request: Request, caller: Caller, view: View, f: Flight)
    requires Decide(request, caller, view).Ok?
    requires f.request == request && f.view == view
    ensures var plan := Decide(request, caller, view).value;
            Honest(f) <==> NotAhead(plan.receipt, view.receipt) && NotAhead(plan.directive, view.directive)
                           && NotAhead(plan.gate, view.gate)
  {
  }

  lemma AttemptApplies(store: Store, f: Flight, key: nat)
    requires Attempt(store, f, key).Ok?
    ensures Decide(f.request, f.caller, f.view).Ok?
    ensures var plan := Decide(f.request, f.caller, f.view).value;
            && ApplyAny(store.receipts, plan.receipt, key).Ok?
            && ApplyAny(store.directives, plan.directive, key).Ok?
            && ApplyAny(store.gates, plan.gate, key).Ok?
            && var after := StoreAfter(store, f, key);
               && after.receipts == ApplyAny(store.receipts, plan.receipt, key).value
               && after.directives == ApplyAny(store.directives, plan.directive, key).value
               && after.gates == ApplyAny(store.gates, plan.gate, key).value
  {
  }

  lemma AttemptReadsPresent(store: Store, f: Flight, key: nat)
    requires ViewObserved(f.view, store) && Attempt(store, f, key).Ok?
    ensures PlanFromPresent(Decide(f.request, f.caller, f.view).value, f.view, store) <==> Honest(f)
  {
    AttemptApplies(store, f, key);
    var plan := Decide(f.request, f.caller, f.view).value;
    DecidedPlansAreGrounded(f.request, f.caller, f.view);
    HonestMeansNotAhead(f.request, f.caller, f.view, f);
    CasReadsPresent(store.receipts, plan.receipt, f.view.receipt, key);
    CasReadsPresent(store.directives, plan.directive, f.view.directive, key);
    CasReadsPresent(store.gates, plan.gate, f.view.gate, key);
  }

  /** In any schedule, a committed request overwrote exactly the rows it was
      computed from if and only if its client was honest. */
  lemma CommittedWritesAreCurrent(schedule: seq<Event>, k: nat, f: Flight)
    requires Commits(schedule, k, f)
    ensures PlanFromPresent(Decide(f.request, f.caller, f.view).value, f.view, Exec(schedule[..k]).store)
            <==> Honest(f)
  {
    ReadsAreEarlierStates(schedule[..k]);
    AttemptReadsPresent(Exec(schedule[..k]).store, f, schedule[k].key);
  }

  /** The rows a transition writes besides the one it addresses are always current,
      even for clients that are not honest. */
  lemma LinkedRowsAreCurrent(schedule: seq<Event>, k: nat, f: Flight)
    requires Commits(schedule, k, f) && (f.request.MoveReceipt? || f.request.MoveDirective?)
    ensures var plan := Decide(f.request, f.caller, f.view).value;
            var store := Exec(schedule[..k]).store;
            && FromPresent(plan.gate, f.view.gate, store.gates)
            && (f.request.MoveReceipt? ==> FromPresent(plan.directive, f.view.directive, store.directives))
  {
    var store := Exec(schedule[..k]).store;
    ReadsAreEarlierStates(schedule[..k]);
    AttemptApplies(store, f, schedule[k].key);
    LinkedNotAhead(f);
    DecidedPlansAreGrounded(f.request, f.caller, f.view);
    var plan := Decide(f.request, f.caller, f.view).value;
    assert ViewObserved(f.view, store);
    CasReadsPresent(store.directives, plan.directive, f.view.directive, schedule[k].key);
    CasReadsPresent(store.gates, plan.gate, f.view.gate, schedule[k].key);
  }

  lemma StaleCasConflicts<T>(rows: Table<T>, change: Option<Change<T>>, seen: Option<Seen<T>>, key: nat)
    requires Observed(seen, rows) && Grounded(change, seen)
    requires change.Some? && change.value.Update? && change.value.expected < seen.value.row.version
    ensures ApplyAny(rows, change, key) == Err(VersionConflict)
  {
  }

  lemma StaleAttempt(store: Store, f: Flight, key: nat)
    requires ViewObserved(f.view, store)
    requires Versioned(f.request) && AddressedVersion(f.request, f.view).Some?
             && f.request.expected < AddressedVersion(f.request, f.view).value
    ensures Attempt(store, f, key).Err?
    ensures Decide(f.request, f.caller, f.view).Ok? ==> Attempt(store, f, key) == Err(VersionConflict)
  {
    var decision := Decide(f.request, f.caller, f.view);
    if decision.Ok? {
      var plan := decision.value;
      AddressedChange(f, plan);
      DecidedPlansAreGrounded(f.request, f.caller, f.view);
      if plan.receipt.Some? {
        StaleCasConflicts(store.receipts, plan.receipt, f.view.receipt, key);
      } else if plan.directive.Some? {
        StaleCasConflicts(store.directives, plan.directive, f.view.directive, key);
      } else {
        StaleCasConflicts(store.gates, plan.gate, f.view.gate, key);
      }
    }
  }

  /** A request that expects less than it read can only fail. */
  lemma StaleRequestsConflict(schedule: seq<Event>, id: nat, key: nat)
    requires id in Exec(schedule).flights
    requires var f := Exec(schedule).flights[id];
             Versioned(f.request) && AddressedVersion(f.request, f.view).Some?
             && f.request.expected < AddressedVersion(f.request, f.view).value
    ensures var f := Exec(schedule).flights[id];
            Attempt(Exec(schedule).store, f, key).Err?
    ensures var f := Exec(schedule).flights[id];
            Decide(f.request, f.caller, f.view).Ok? ==>
              Attempt(Exec(schedule).store, f, key) == Err(VersionConflict)
  {
    ReadsAreEarlierStates(schedule);
    StaleAttempt(Exec(schedule).store, Exec(schedule).flights[id], key);
  }

  // ---- One writer per version ----

  function WrittenBy<T>(change: Option<Change<T>>): Option<(nat, nat)> {
    if change.Some? && change.value.Update? then Some((change.value.id, change.value.expected)) else None
  }

  /** The row and version an accepted request replaces in the table of `kind`. */
  function Replaces(f: Flight, kind: Kind): Option<(nat, nat)> {
    var decision := Decide(f.request, f.caller, f.view);
    if decision.Err? then None else
    match kind
    case GateUnit => WrittenBy(decision.value.gate)
    case OperationDirective => WrittenBy(decision.value.directive)
    case ExecutionConfirmation => WrittenBy(decision.value.receipt)
  }

  function VersionAt(store: Store, kind: Kind, id: nat): nat {
    match kind
    case GateUnit => if id in store.gates then store.gates[id].version else 0
    case OperationDirective => if id in store.directives then store.directives[id].version else 0
    case ExecutionConfirmation => if id in store.receipts then store.receipts[id].version else 0
  }

  lemma ReplacingBumps(store: Store, f: Flight, key: nat, kind: Kind)
    requires Attempt(store, f, key).Ok? && Replaces(f, kind).Some?
    ensures var (id, version) := Replaces(f, kind).value;
            VersionAt(store, kind, id) == version && VersionAt(StoreAfter(store, f, key), kind, id) == version + 1
  {
    AttemptApplies(store, f, key);
    DecidedPlansAreWellVersioned(f.request, f.caller, f.view);
  }

  lemma ExecAfterCommit(schedule: seq<Event>, k: nat, f: Flight)
    requires Commits(schedule, k, f)
    ensures Exec(schedule[..k + 1]).store == StoreAfter(Exec(schedule[..k]).store, f, schedule[k].key)
  {
    assert schedule[..k + 1][..k] == schedule[..k];
  }

  lemma LaterWriterSeesHigherVersion(schedule: seq<Event>, k: nat, j: nat, f: Flight, g: Flight, kind: Kind)
    requires k < j && Commits(schedule, k, f) && Commits(schedule, j, g)
    requires Replaces(f, kind).Some? && Replaces(g, kind).Some?
    requires Replaces(f, kind).value.0 == Replaces(g, kind).value.0
    ensures Replaces(f, kind).value.1 < Replaces(g, kind).value.1
  {
    ReplacingBumps(Exec(schedule[..k]).store, f, schedule[k].key, kind);
    ReplacingBumps(Exec(schedule[..j]).store, g, schedule[j].key, kind);
    ExecAfterCommit(schedule, k, f);
    HistoryEvolves(schedule[..j], k + 1);
    assert schedule[..j][..k + 1] == schedule[..k + 1];
  }

  /** Each version of each row has at most one committed writer, in any schedule. */
  lemma OneWriterPerVersion(schedule: seq<Event>, k: nat, j: nat, f: Flight, g: Flight, kind: Kind)
    requires Commits(schedule, k, f) && Commits(schedule, j, g)
    requires Replaces(f, kind).Some? && Replaces(f, kind) == Replaces(g, kind)
    ensures k == j
  {
    if k < j {
      LaterWriterSeesHigherVersion(schedule, k, j, f, g, kind);
    } else if j < k {
      LaterWriterSeesHigherVersion(schedule, j, k, g, f, kind);
    }
  }

  // ---- Interleaved commits that equal one uninterrupted request ----

  predicate ReadIsWritten<T>(seen: Option<Seen<T>>, change: Option<Change<T>>) {
    seen.Some? ==> change.Some? && change.value.Update?
  }

  /** Every row the request read is also updated by its transaction. */
  predicate AllReadsWritten(f: Flight) {
    var decision := Decide(f.request, f.caller, f.view);
    decision.Ok? && ReadIsWritten(f.view.receipt, decision.value.receipt)
    && ReadIsWritten(f.view.directive, decision.value.directive)
    && ReadIsWritten(f.view.gate, decision.value.gate)
  }

  lemma FoundAgain<T>(rows: Table<T>, seen: Seen<T>)
    requires CodesUnique(rows) && seen.id in rows && rows[seen.id] == seen.row && !seen.row.deleted
    ensures ById(rows, seen.id) == Some(seen)
    ensures forall code | Canonical(code) == seen.row.code :: ByCode(rows, code) == Some(seen)
  {
    assert Live(rows, seen.id);
    forall code | Canonical(code) == seen.row.code
      ensures ByCode(rows, code) == Some(seen)
    {
      var found := ByCode(rows, code);
      assert found.Some?;
      assert rows[found.value.id].code == rows[seen.id].code;
    }
  }

  ghost predicate StillThere<T>(seen: Option<Seen<T>>, rows: Table<T>) {
    seen.Some? ==> seen.value.id in rows && rows[seen.value.id] == seen.value.row && !seen.value.row.deleted
  }

  ghost predicate AllStillThere(view: View, store: Store) {
    StillThere(view.receipt, store.receipts) && StillThere(view.directive, store.directives)
    && StillThere(view.gate, store.gates)
  }

  lemma SameReceipt(store: Store, f: Flight)
    requires AllCodesUnique(store) && FlightFits(f) && AllStillThere(f.view, store)
    requires f.view.receipt.Some? || !(f.request.UpdateReceipt? || f.request.MoveReceipt? || f.request.DeleteReceipt?)
    ensures ReadReceipt(store, f.request) == f.view.receipt
  {
    if f.view.receipt.Some? { FoundAgain(store.receipts, f.view.receipt.value); }
  }

  lemma SameDirective(store: Store, f: Flight)
    requires AllCodesUnique(store) && FlightFits(f) && AllStillThere(f.view, store)
    requires f.view.directive.Some?
             || (!(f.request.UpdateDirective? || f.request.MoveDirective? || f.request.DeleteDirective?)
                 && DirectiveCodeFor(f.request, f.view).None?)
    ensures ReadDirective(store, f.request, f.view) == f.view.directive
  {
    if f.view.directive.Some? { FoundAgain(store.directives, f.view.directive.value); }
  }

  lemma SameGate(store: Store, f: Flight)
    requires AllCodesUnique(store) && FlightFits(f) && AllStillThere(f.view, store)
    requires f.view.gate.Some?
             || (!(f.request.UpdateGate? || f.request.MoveGate? || f.request.DeleteGate?)
                 && GateCodeFor(f.request, f.view).None?)
    ensures ReadGate(store, f.request, f.view) == f.view.gate
  {
    if f.view.gate.Some? { FoundAgain(store.gates, f.view.gate.value); }
  }

  /** The requests whose decision uses exactly the rows they found. */
  lemma ComposeView(store: Store, f: Flight)
    requires !f.request.CreateReceipt? && f.view.slots == 0
    requires ReadReceipt(store, f.request) == f.view.receipt
    requires ReadDirective(store, f.request, f.view) == f.view.directive
    requires ReadGate(store, f.request, f.view) == f.view.gate
    ensures ViewNow(store, f.request) == f.view
  {
    var v0 := NOTHING_READ.(receipt := f.view.receipt);
    assert DirectiveCodeFor(f.request, v0) == DirectiveCodeFor(f.request, f.view);
    var v1 := v0.(directive := f.view.directive);
    assert GateCodeFor(f.request, v1) == GateCodeFor(f.request, f.view);
  }

  lemma WrittenReadsWereFound(f: Flight)
    requires AllReadsWritten(f)
    ensures !f.request.CreateReceipt?
    ensures f.view.receipt.Some? || !(f.request.UpdateReceipt? || f.request.MoveReceipt? || f.request.DeleteReceipt?)
    ensures f.view.directive.Some?
            || (!(f.request.UpdateDirective? || f.request.MoveDirective? || f.request.DeleteDirective?)
                && DirectiveCodeFor(f.request, f.view).None?)
  {
  }

  lemma WrittenGatesWereFound(f: Flight)
    requires AllReadsWritten(f) && FlightFits(f)
    ensures f.view.gate.Some?
            || (!(f.request.UpdateGate? || f.request.MoveGate? || f.request.DeleteGate?)
                && GateCodeFor(f.request, f.view).None?)
  {
  }

  lemma SameView(store: Store, f: Flight)
    requires AllCodesUnique(store) && FlightFits(f) && AllStillThere(f.view, store)
    requires AllReadsWritten(f) && f.view.slots == 0
    ensures ViewNow(store, f.request) == f.view
  {
    WrittenReadsWereFound(f);
    WrittenGatesWereFound(f);
    SameReceipt(store, f);
    SameDirective(store, f);
    SameGate(store, f);
    ComposeView(store, f);
  }

  /** When an honest request commits and every row it read is also written, the
      interleaved commit is one uninterrupted request at the commit point. */
  lemma InterleavedEqualsAtomic(schedule: seq<Event>, k: nat, f: Flight)
    requires Commits(schedule, k, f) && Honest(f) && AllReadsWritten(f)
    ensures AtomicStep(Exec(schedule[..k]).store, f.request, f.caller, schedule[k].key)
            == Ok(Exec(schedule[..k + 1]).store)
  {
    var store := Exec(schedule[..k]).store;
    CommittedWritesAreCurrent(schedule, k, f);
    DecidedPlansAreGrounded(f.request, f.caller, f.view);
    ReadsAreEarlierStates(schedule[..k]);
    ViewsFit(schedule[..k]);
    CodesStayUnique(schedule[..k]);
    WrittenReadsWereFound(f);
    SameView(store, f);
    ExecAfterCommit(schedule, k, f);
  }
}
