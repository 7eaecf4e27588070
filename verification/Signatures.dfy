/** Who signs: the callers of the requests that submit, approve and confirm are the
    people the rows and the evidence name, and two of them are different people. */
module Signatures {
  import opened Statuses
  import opened Rows
  import opened Text
  import opened Services
  import opened Dispatch
  import opened Versions
  import opened Lookups
  import opened Evidence
  import opened FrozenOrder
  import opened Workflow
  import opened History
  import opened Effects

  // ---- Submission and approval ----

  /** Flight `f` is committed by event `k` and takes directive `d` to `target`. */
  ghost predicate MovesTo(schedule: seq<Event>, k: nat, f: Flight, d: nat, target: Status) {
    Commits(schedule, k, f) && f.request.MoveDirective? && f.request.id == d && f.request.target == target
  }

  /** Whoever submits is stored as submitter, with the one evidence row that says so. */
  lemma SubmitterIsCaller(schedule: seq<Event>, k: nat, f: Flight, d: nat)
    requires MovesTo(schedule, k, f, d, Pending)
    ensures var s, t := Exec(schedule[..k]).store, Exec(schedule[..k + 1]).store;
            && d in t.directives && t.directives[d].status == Pending
            && t.directives[d].body.submittedBy == f.caller.actor
            && t.approvals == s.approvals + [Approval(d, Submitted, f.caller.actor, f.caller.role, Draft, Pending)]
            && (f.caller.role == Operator || f.caller.role == Admin)
  {
    CommittedEffect(schedule, k, f);
    CommittedMoveIsAllowed(f);
  }

  /** Whoever approves is stored as approver, with the one evidence row that says so. */
  lemma ApproverIsCaller(schedule: seq<Event>, k: nat, f: Flight, d: nat)
    requires MovesTo(schedule, k, f, d, Approved)
    ensures var s, t := Exec(schedule[..k]).store, Exec(schedule[..k + 1]).store;
            && d in t.directives && t.directives[d].status == Approved
            && t.directives[d].body.approvedBy == f.caller.actor
            && t.approvals == s.approvals + [Approval(d, Endorsed, f.caller.actor, f.caller.role, Pending, Approved)]
            && (f.caller.role == Reviewer || f.caller.role == Admin)
  {
    CommittedEffect(schedule, k, f);
    CommittedMoveIsAllowed(f);
  }

  lemma CommittedMoveIsAllowed(f: Flight)
    requires f.request.MoveDirective? && Decide(f.request, f.caller, f.view).Ok?
    ensures f.view.directive.Some? && f.request.target in MayMoveTo(f.caller.role)
    ensures CanTransition(DIRECTIVE_GRAPH, f.view.directive.value.row.status, f.request.target)
    ensures f.request.target == Approved ==>
              !EqualFold(f.view.directive.value.row.body.submittedBy, f.caller.actor)
  {
    AcceptedMovesHaveRoles(f.caller, f.view, f.request.target, f.request.expected);
  }

  /** Who may start and who may abort, and on which gate an execution starts. */
  lemma CommittedMovesAreAllowed(schedule: seq<Event>, k: nat, f: Flight, d: nat, target: Status)
    requires MovesTo(schedule, k, f, d, target)
    ensures target == Pending || target == Approved || target == Executing || target == Aborted
    ensures target == Executing ==>
              (f.caller.role == Operator || f.caller.role == Admin)
              && f.view.gate.Some? && f.view.gate.value.row.status != Locked
    ensures target == Aborted ==> f.caller.role == Operator || f.caller.role == Reviewer || f.caller.role == Admin
  {
    CommittedMoveIsAllowed(f);
    StartNeedsGate(f);
  }

  lemma StartNeedsGate(f: Flight)
    requires f.request.MoveDirective? && Decide(f.request, f.caller, f.view).Ok?
    ensures f.request.target == Executing ==> f.view.gate.Some? && f.view.gate.value.row.status != Locked
  {
  }

  /** No other request leaves evidence. */
  lemma OnlySignaturesLeaveEvidence(schedule: seq<Event>, k: nat, f: Flight)
    requires Commits(schedule, k, f)
    requires !f.request.MoveDirective? || (f.request.target != Pending && f.request.target != Approved)
    ensures Exec(schedule[..k + 1]).store.approvals == Exec(schedule[..k]).store.approvals
  {
    CommittedEffect(schedule, k, f);
  }

  lemma SubmissionMoment(schedule: seq<Event>, k: nat, f: Flight, d: nat)
    requires HonestSchedule(schedule) && MovesTo(schedule, k, f, d, Pending)
    ensures d in Exec(schedule[..k]).store.directives && Exec(schedule[..k]).store.directives[d].status == Draft
  {
    HonestCommit(schedule, k, f);
    HonestReadsAreCurrent(schedule, k, f);
    CommittedMoveIsAllowed(f);
    DirectiveEdges(f.view.directive.value.row.status, Pending);
  }

  lemma ApprovalMoment(schedule: seq<Event>, j: nat, g: Flight, d: nat)
    requires HonestSchedule(schedule) && MovesTo(schedule, j, g, d, Approved)
    ensures d in Exec(schedule[..j]).store.directives && Exec(schedule[..j]).store.directives[d].status == Pending
    ensures !EqualFold(Exec(schedule[..j]).store.directives[d].body.submittedBy, g.caller.actor)
  {
    HonestCommit(schedule, j, g);
    HonestReadsAreCurrent(schedule, j, g);
    CommittedMoveIsAllowed(g);
    DirectiveEdges(g.view.directive.value.row.status, Approved);
  }

  lemma SubmitterStays(schedule: seq<Event>, n: nat, m: nat, d: nat)
    requires HonestSchedule(schedule) && n <= m <= |schedule| && d in Exec(schedule[..n]).store.directives
    ensures d in Exec(schedule[..m]).store.directives
    ensures DirectiveProgress(Exec(schedule[..n]).store.directives[d], Exec(schedule[..m]).store.directives[d])
  {
    HonestPrefix(schedule, m);
    HistoryProgresses(schedule[..m], n);
    assert schedule[..m][..n] == schedule[..n];
  }

  lemma SubmittedFirst(schedule: seq<Event>, k: nat, j: nat, f: Flight, g: Flight, d: nat)
    requires HonestSchedule(schedule) && MovesTo(schedule, k, f, d, Pending) && MovesTo(schedule, j, g, d, Approved)
    ensures k < j
  {
    SubmissionMoment(schedule, k, f, d);
    if j < k {
      ApproverIsCaller(schedule, j, g, d);
      SubmitterStays(schedule, j + 1, k, d);
    }
  }

  /** The two requests that submit and approve a directive come from different people. */
  lemma TwoCallers(schedule: seq<Event>, k: nat, j: nat, f: Flight, g: Flight, d: nat)
    requires HonestSchedule(schedule) && MovesTo(schedule, k, f, d, Pending) && MovesTo(schedule, j, g, d, Approved)
    ensures k < j && !EqualFold(f.caller.actor, g.caller.actor)
  {
    SubmittedFirst(schedule, k, j, f, g, d);
    SubmitterIsCaller(schedule, k, f, d);
    SubmitterStays(schedule, k + 1, j, d);
    ApprovalMoment(schedule, j, g, d);
  }

  // ---- Every signature has its request ----

  /** The evidence row was left by the request that event `k` commits. */
  ghost predicate LeftBy(a: Approval, schedule: seq<Event>, k: nat, f: Flight) {
    && a.actor == f.caller.actor && a.role == f.caller.role
    && match a.stage
       case Submitted => MovesTo(schedule, k, f, a.directive, Pending)
       case Endorsed => MovesTo(schedule, k, f, a.directive, Approved)
  }

  lemma LeftByLast(schedule: seq<Event>, i: nat) returns (f: Flight)
    requires schedule != [] && i < |Exec(schedule).store.approvals|
    requires |Exec(schedule[..|schedule| - 1]).store.approvals| <= i
    ensures LeftBy(Exec(schedule).store.approvals[i], schedule, |schedule| - 1, f)
  {
    var n := |schedule| - 1;
    assert schedule[..n + 1] == schedule;
    f := Exec(schedule[..n]).flights[schedule[n].flight];
    if f.request.MoveDirective? && f.request.target == Pending {
      SubmitterIsCaller(schedule, n, f, f.request.id);
    } else if f.request.MoveDirective? && f.request.target == Approved {
      ApproverIsCaller(schedule, n, f, f.request.id);
    } else {
      OnlySignaturesLeaveEvidence(schedule, n, f);
    }
  }

  lemma ApprovalsStay(schedule: seq<Event>, i: nat)
    requires schedule != [] && i < |Exec(schedule[..|schedule| - 1]).store.approvals|
    ensures i < |Exec(schedule).store.approvals|
    ensures Exec(schedule).store.approvals[i] == Exec(schedule[..|schedule| - 1]).store.approvals[i]
  {
    StepEvolves(Exec(schedule[..|schedule| - 1]), schedule[|schedule| - 1]);
  }

  /** Every evidence row was left by a committed request of the person it names. */
  lemma {:induction false} EvidenceHasRequest(schedule: seq<Event>, i: nat) returns (k: nat, f: Flight)
    requires i < |Exec(schedule).store.approvals|
    ensures LeftBy(Exec(schedule).store.approvals[i], schedule, k, f)
  {
    k := |schedule| - 1;
    if i < |Exec(schedule[..k]).store.approvals| {
      var n := k;
      k, f := EvidenceHasRequest(schedule[..n], i);
      CommitsInPrefix(schedule, n, k, f);
      ApprovalsStay(schedule, i);
    } else {
      f := LeftByLast(schedule, i);
    }
  }

  lemma {:induction false} EvidenceIsRecorded(approvals: seq<Approval>, id: nat, e: nat) returns (i: nat)
    requires e < |EvidenceOf(approvals, id)|
    ensures i < |approvals| && approvals[i] == EvidenceOf(approvals, id)[e]
  {
    i := |approvals| - 1;
    if e < |EvidenceOf(approvals[..i], id)| {
      i := EvidenceIsRecorded(approvals[..i], id, e);
    }
  }

  /** Whatever is approved, executing or completed was submitted and then approved by
      requests of the two people its row names, and they are different people. */
  lemma ApprovedByTwoCallers(schedule: seq<Event>, d: nat) returns (k: nat, f: Flight, j: nat, g: Flight)
    requires HonestSchedule(schedule) && d in Exec(schedule).store.directives
    requires var status := Exec(schedule).store.directives[d].status;
             status == Approved || status == Executing || status == Completed
    ensures MovesTo(schedule, k, f, d, Pending) && MovesTo(schedule, j, g, d, Approved) && k < j
    ensures Exec(schedule).store.directives[d].body.submittedBy == f.caller.actor
    ensures Exec(schedule).store.directives[d].body.approvedBy == g.caller.actor
    ensures !EqualFold(f.caller.actor, g.caller.actor)
  {
    var s := Exec(schedule).store;
    assert schedule[..|schedule|] == schedule;
    TwoPersonRule(schedule, |schedule|, d);
    var a := EvidenceIsRecorded(s.approvals, d, 0);
    var b := EvidenceIsRecorded(s.approvals, d, 1);
    k, f := EvidenceHasRequest(schedule, a);
    j, g := EvidenceHasRequest(schedule, b);
    TwoCallers(schedule, k, j, f, g, d);
  }

  // ---- Confirmation ----

  /** Flight `f` is committed by event `k` and confirms receipt `r`. */
  ghost predicate ConfirmsReceipt(schedule: seq<Event>, k: nat, f: Flight, r: nat) {
    Commits(schedule, k, f) && f.request.MoveReceipt? && f.request.id == r && f.request.target == Confirmed
  }

  /** Whoever confirms is stored as confirmer. */
  lemma ConfirmerIsCaller(schedule: seq<Event>, k: nat, f: Flight, r: nat)
    requires ConfirmsReceipt(schedule, k, f, r)
    ensures var t := Exec(schedule[..k + 1]).store;
            && r in t.receipts && t.receipts[r].status == Confirmed && t.receipts[r].body.confirmedBy == f.caller.actor
  {
    CommittedEffect(schedule, k, f);
  }

  /** And stays confirmer at every later moment. */
  lemma ConfirmerStays(schedule: seq<Event>, k: nat, n: nat, f: Flight, r: nat)
    requires HonestSchedule(schedule) && ConfirmsReceipt(schedule, k, f, r) && k < n <= |schedule|
    ensures var t := Exec(schedule[..n]).store;
            && r in t.receipts && t.receipts[r].status == Confirmed && t.receipts[r].body.confirmedBy == f.caller.actor
  {
    ConfirmerIsCaller(schedule, k, f, r);
    HonestPrefix(schedule, n);
    HistoryProgresses(schedule[..n], k + 1);
    assert schedule[..n][..k + 1] == schedule[..k + 1];
  }

  ghost predicate IsConfirmedAt(store: Store, r: nat) {
    r in store.receipts && store.receipts[r].status == Confirmed
  }

  lemma ConfirmedByEffect(f: Flight, key: nat, s: Store, t: Store, r: nat)
    requires GateEffect(f, key, s, t) && DirectiveEffect(f, key, s, t) && ReceiptEffect(f, key, s, t)
    requires !IsConfirmedAt(s, r) && IsConfirmedAt(t, r)
    ensures f.request.MoveReceipt? && f.request.id == r && f.request.target == Confirmed
  {
  }

  /** Every confirmed receipt was confirmed by a request of the person it names. */
  lemma {:induction false} ConfirmedHasRequest(schedule: seq<Event>, r: nat) returns (k: nat, f: Flight)
    requires HonestSchedule(schedule) && IsConfirmedAt(Exec(schedule).store, r)
    ensures ConfirmsReceipt(schedule, k, f, r)
    ensures Exec(schedule).store.receipts[r].body.confirmedBy == f.caller.actor
  {
    assert schedule[..|schedule|] == schedule;
    k := |schedule| - 1;
    if IsConfirmedAt(Exec(schedule[..k]).store, r) {
      var n := k;
      k, f := ConfirmedHasRequest(schedule[..n], r);
      CommitsInPrefix(schedule, n, k, f);
      ConfirmerStays(schedule, k, |schedule|, f, r);
    } else {
      f := Exec(schedule[..k]).flights[schedule[k].flight];
      assert schedule[..k + 1] == schedule;
      CommittedEffect(schedule, k, f);
      ConfirmedByEffect(f, schedule[k].key, Exec(schedule[..k]).store, Exec(schedule).store, r);
      ConfirmerIsCaller(schedule, k, f, r);
    }
  }
}
