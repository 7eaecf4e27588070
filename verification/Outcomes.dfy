/** What receipts and directives mean for each other over whole runs of honest
    clients: they agree, an execution ends once, and a receipt slot is used once. */
module Outcomes {
  import opened Statuses
  import opened Rows
  import opened Repository
  import opened Services
  import opened Dispatch
  import opened Locking
  import opened Evidence
  import opened FrozenOrder
  import opened Agreement
  import opened Workflow

  /** A receipt and the directive with its code, live or deleted, always agree. */
  lemma ReceiptAgreesWithDirective(schedule: seq<Event>, r: nat, d: nat)
    requires HonestSchedule(schedule)
    requires var s := Exec(schedule).store;
             r in s.receipts && d in s.directives && s.receipts[r].body.directiveCode == s.directives[d].code
    ensures var s := Exec(schedule).store;
            && StatusesAgree(s.receipts[r].status, s.directives[d].status)
            && CopyOf(s.receipts[r].body, s.directives[d])
            && (s.receipts[r].status == Confirmed <==> s.receipts[r].body.confirmedBy != "")
  {
    AlwaysInv(schedule);
    var s := Exec(schedule).store;
    assert Answers(s.receipts[r], s.directives);
    SameCodeAgrees(s.directives, s.receipts[r], d);
  }

  /** Every receipt has exactly one directive. */
  lemma ReceiptHasOneDirective(schedule: seq<Event>, r: nat) returns (d: nat)
    requires HonestSchedule(schedule) && r in Exec(schedule).store.receipts
    ensures var s := Exec(schedule).store;
            && d in s.directives && s.directives[d].code == s.receipts[r].body.directiveCode
            && forall e | e in s.directives && s.directives[e].code == s.receipts[r].body.directiveCode :: e == d
  {
    AlwaysInv(schedule);
    var s := Exec(schedule).store;
    assert Answers(s.receipts[r], s.directives);
    d :| d in s.directives && Agrees(s.receipts[r], s.directives[d]);
  }

  /** Completed directives are exactly those with a confirmed receipt. */
  lemma CompletedIffConfirmed(schedule: seq<Event>, d: nat)
    requires HonestSchedule(schedule) && d in Exec(schedule).store.directives
    ensures var s := Exec(schedule).store;
            s.directives[d].status == Completed <==> IsConfirmed(s.directives[d], s.receipts)
  {
    AlwaysInv(schedule);
    var s := Exec(schedule).store;
    if IsConfirmed(s.directives[d], s.receipts) {
      var r :| r in s.receipts && ConfirmationOf(s.receipts[r], s.directives[d]);
      ReceiptAgreesWithDirective(schedule, r, d);
    }
  }

  /** The receipt slot of a directive is used at most once, tombstones included. */
  lemma OneReceiptPerDirective(schedule: seq<Event>, i: nat, j: nat)
    requires HonestSchedule(schedule)
    requires var s := Exec(schedule).store;
             i in s.receipts && j in s.receipts
             && s.receipts[i].body.directiveCode == s.receipts[j].body.directiveCode
    ensures i == j
  {
    AlwaysInv(schedule);
  }

  lemma TerminalStays(a: Status, b: Status)
    requires Climbs(DirectiveRank(a), DirectiveRank(b), a == b)
    ensures a == Completed || a == Aborted ==> b == a
  {
  }

  /** Terminal directives are never left, whatever happens later. */
  lemma TerminalDirectivesStay(schedule: seq<Event>, n: nat, d: nat)
    requires HonestSchedule(schedule) && n <= |schedule|
    requires d in Exec(schedule[..n]).store.directives
    requires var status := Exec(schedule[..n]).store.directives[d].status; status == Completed || status == Aborted
    ensures d in Exec(schedule).store.directives
    ensures Exec(schedule).store.directives[d].status == Exec(schedule[..n]).store.directives[d].status
  {
    HistoryProgresses(schedule, n);
    TerminalStays(Exec(schedule[..n]).store.directives[d].status, Exec(schedule).store.directives[d].status);
  }

  lemma TerminalReceiptsStay(schedule: seq<Event>, n: nat, r: nat)
    requires HonestSchedule(schedule) && n <= |schedule|
    requires r in Exec(schedule[..n]).store.receipts
    requires var status := Exec(schedule[..n]).store.receipts[r].status; status == Confirmed || status == Cancelled
    ensures r in Exec(schedule).store.receipts
    ensures Exec(schedule).store.receipts[r].status == Exec(schedule[..n]).store.receipts[r].status
  {
    HistoryProgresses(schedule, n);
    assert ReceiptProgress(Exec(schedule[..n]).store.receipts[r], Exec(schedule).store.receipts[r]);
  }

  /** A directive whose receipt was deleted while pending is never completed. */
  lemma DeletedReceiptBlocksCompletion(schedule: seq<Event>, n: nat, r: nat, d: nat)
    requires HonestSchedule(schedule) && n <= |schedule|
    requires var s := Exec(schedule[..n]).store;
             r in s.receipts && s.receipts[r].deleted && s.receipts[r].status == Pending
    requires var t := Exec(schedule).store;
             d in t.directives && t.directives[d].code == Exec(schedule[..n]).store.receipts[r].body.directiveCode
    ensures Exec(schedule).store.directives[d].status == Executing || Exec(schedule).store.directives[d].status == Aborted
  {
    HistoryProgresses(schedule, n);
    var s, t := Exec(schedule[..n]).store, Exec(schedule).store;
    assert ReceiptProgress(s.receipts[r], t.receipts[r]);
    assert t.receipts[r] == s.receipts[r];
    ReceiptAgreesWithDirective(schedule, r, d);
  }

  // ---- One outcome ----

  /** The request confirms, fails or aborts the execution of directive `d`. */
  predicate EndsExecution(f: Flight, d: nat) {
    var decision := Decide(f.request, f.caller, f.view);
    decision.Ok? && decision.value.directive.Some? && decision.value.directive.value.Update?
    && decision.value.directive.value.id == d && decision.value.directive.value.before == Executing
  }

  lemma EndingMove(rows: Table<DirectiveBody>, change: Option<Change<DirectiveBody>>,
                   seen: Option<Seen<DirectiveBody>>, approval: Option<Approval>, key: nat, d: nat)
    requires DirectiveChange(change, seen, approval) && FromPresent(change, seen, rows) && Grounded(change, seen)
    requires change.Some? && change.value.Update? && change.value.id == d && change.value.before == Executing
    requires ApplyAny(rows, change, key).Ok?
    ensures d in rows && rows[d].status == Executing
    ensures var next := ApplyAny(rows, change, key).value;
            d in next && (next[d].status == Completed || next[d].status == Aborted)
  {
  }

  lemma EndingEnds(store: Store, f: Flight, key: nat, d: nat)
    requires StoreInv(store) && FlightInv(f, store) && Honest(f)
    requires Attempt(store, f, key).Ok? && EndsExecution(f, d)
    ensures d in store.directives && store.directives[d].status == Executing
    ensures d in StoreAfter(store, f, key).directives
    ensures var status := StoreAfter(store, f, key).directives[d].status; status == Completed || status == Aborted
  {
    var plan := HonestPlan(store, f, key);
    AttemptApplies(store, f, key);
    DecidedPlansAreGrounded(f.request, f.caller, f.view);
    EndingMove(store.directives, plan.directive, f.view.directive, plan.approval, key, d);
  }

  predicate HasStatus(store: Store, d: nat, status: Status) {
    d in store.directives && store.directives[d].status == status
  }

  lemma EndingMoment(schedule: seq<Event>, k: nat, f: Flight, d: nat)
    requires HonestSchedule(schedule) && Commits(schedule, k, f) && EndsExecution(f, d)
    ensures HasStatus(Exec(schedule[..k]).store, d, Executing)
    ensures HasStatus(Exec(schedule[..k + 1]).store, d, Completed) || HasStatus(Exec(schedule[..k + 1]).store, d, Aborted)
  {
    HonestPrefix(schedule, k);
    AlwaysInv(schedule[..k]);
    EndingEnds(Exec(schedule[..k]).store, f, schedule[k].key, d);
    ExecAfterCommit(schedule, k, f);
  }

  lemma EndedBefore(schedule: seq<Event>, k: nat, j: nat, f: Flight, g: Flight, d: nat)
    requires HonestSchedule(schedule) && Commits(schedule, k, f) && Commits(schedule, j, g)
    requires EndsExecution(f, d) && EndsExecution(g, d)
    ensures j <= k
  {
    EndingMoment(schedule, k, f, d);
    EndingMoment(schedule, j, g, d);
    if k < j {
      HonestPrefix(schedule, j);
      assert schedule[..j][..k + 1] == schedule[..k + 1];
      TerminalDirectivesStay(schedule[..j], k + 1, d);
    }
  }

  /** Among all requests that confirm, fail or abort one execution, one commits. */
  lemma OneOutcomePerExecution(schedule: seq<Event>, k: nat, j: nat, f: Flight, g: Flight, d: nat)
    requires HonestSchedule(schedule) && Commits(schedule, k, f) && Commits(schedule, j, g)
    requires EndsExecution(f, d) && EndsExecution(g, d)
    ensures k == j
  {
    EndedBefore(schedule, k, j, f, g, d);
    EndedBefore(schedule, j, k, g, f, d);
  }

  // ---- Completion ----

  /** Only a confirmed receipt completes a directive. */
  lemma CompletingRequest(f: Flight, plan: Plan)
    requires Decide(f.request, f.caller, f.view) == Ok(plan)
    requires plan.directive.Some? && plan.directive.value.Update? && plan.directive.value.row.status == Completed
    requires DirectiveChange(plan.directive, f.view.directive, plan.approval)
    ensures f.request.MoveReceipt? && f.request.target == Confirmed
    ensures plan.receipt.Some? && plan.receipt.value.Update? && plan.receipt.value.row.status == Confirmed
  {
  }

  lemma CompletingChange(rows: Table<DirectiveBody>, change: Option<Change<DirectiveBody>>, key: nat, d: nat)
    requires ApplyAny(rows, change, key).Ok? && d in rows && rows[d].status != Completed
    requires d in ApplyAny(rows, change, key).value && ApplyAny(rows, change, key).value[d].status == Completed
    ensures change.Some? && ((change.value.Update? && change.value.row.status == Completed) || change.value.Insert?)
  {
  }

  lemma InsertsKeepRows(rows: Table<DirectiveBody>, change: Option<Change<DirectiveBody>>, key: nat, d: nat)
    requires ApplyAny(rows, change, key).Ok? && d in rows && change.Some? && change.value.Insert?
    ensures ApplyAny(rows, change, key).value[d] == rows[d]
  {
  }

  lemma CompletedByReceipt(store: Store, f: Flight, key: nat, d: nat)
    requires StoreInv(store) && FlightInv(f, store) && Honest(f) && Attempt(store, f, key).Ok?
    requires d in store.directives && store.directives[d].status != Completed
    requires HasStatus(StoreAfter(store, f, key), d, Completed)
    ensures f.request.MoveReceipt? && f.request.target == Confirmed
  {
    var plan := HonestPlan(store, f, key);
    AttemptApplies(store, f, key);
    CompletingChange(store.directives, plan.directive, key, d);
    if plan.directive.value.Insert? {
      InsertsKeepRows(store.directives, plan.directive, key, d);
      assert false;
    }
    CompletingRequest(f, plan);
  }

  lemma CompletionNeedsReceipt(schedule: seq<Event>, n: nat, d: nat)
    requires HonestSchedule(schedule) && n < |schedule|
    requires var s := Exec(schedule[..n]).store; d in s.directives && s.directives[d].status != Completed
    requires HasStatus(Exec(schedule[..n + 1]).store, d, Completed)
    ensures schedule[n].Finish? && Ready(Exec(schedule[..n]), schedule[n].flight)
    ensures var f := Exec(schedule[..n]).flights[schedule[n].flight];
            && Commits(schedule, n, f) && f.request.MoveReceipt? && f.request.target == Confirmed
  {
    assert schedule[..n + 1][..n] == schedule[..n];
    var before, event := Exec(schedule[..n]), schedule[n];
    var f := before.flights[event.flight];
    assert Attempt(before.store, f, event.key).Ok?;
    HonestPrefix(schedule, n);
    AlwaysInv(schedule[..n]);
    CompletedByReceipt(before.store, f, event.key, d);
  }
}
