/** Once a directive has left draft its order is frozen: business fields, gate
    and target stay, signatures stay, and its status only climbs. */
module FrozenOrder {
  import opened Statuses
  import opened Rows
  import Text
  import opened Repository
  import opened Services
  import opened Versions
  import opened Locking
  import opened Evidence

  predicate Climbs(from: nat, to: nat, same: bool) {
    same || from < to
  }

  predicate SameOrder(a: DirectiveBody, b: DirectiveBody) {
    a.business == b.business && a.gateCode == b.gateCode && a.target == b.target
  }

  ghost predicate DirectiveProgress(a: Directive, b: Directive) {
    && RowEvolves(a, b)
    && Climbs(DirectiveRank(a.status), DirectiveRank(b.status), a.status == b.status)
    && (a.status != Draft ==> b.status != Draft && SameOrder(a.body, b.body))
    && (a.body.submittedBy != "" ==> b.body.submittedBy == a.body.submittedBy)
    && (a.body.approvedBy != "" ==> b.body.approvedBy == a.body.approvedBy)
  }

  ghost predicate ReceiptProgress(a: Receipt, b: Receipt) {
    && RowEvolves(a, b)
    && a.body.directiveCode == b.body.directiveCode
    && Climbs(ReceiptRank(a.status), ReceiptRank(b.status), a.status == b.status)
    && (a.status == Confirmed ==> b.status == Confirmed && b.body == a.body)
  }

  ghost predicate StoreProgress(s: Store, t: Store) {
    && StoreEvolves(s, t)
    && (forall id | id in s.directives :: id in t.directives && DirectiveProgress(s.directives[id], t.directives[id]))
    && (forall id | id in s.receipts :: id in t.receipts && ReceiptProgress(s.receipts[id], t.receipts[id]))
  }

  lemma StoreProgressTransitive(r: Store, s: Store, t: Store)
    requires StoreProgress(r, s) && StoreProgress(s, t)
    ensures StoreProgress(r, t)
  {
    StoreEvolvesTransitive(r, s, t);
  }

  /** A directive in flight is an earlier state of the stored one, also in this sense. */
  ghost predicate DirectiveObserved(view: View, store: Store) {
    view.directive.Some? ==>
      view.directive.value.id in store.directives
      && DirectiveProgress(view.directive.value.row, store.directives[view.directive.value.id])
  }

  lemma DirectiveObservedLater(view: View, s: Store, t: Store)
    requires DirectiveObserved(view, s) && StoreProgress(s, t)
    ensures DirectiveObserved(view, t)
  {
    if view.directive.Some? {
      var id := view.directive.value.id;
      assert DirectiveProgress(s.directives[id], t.directives[id]);
    }
  }

  // ---- How a receipt row moves ----

  /** The receipt answers this directive and carries copies of its fields. */
  predicate CopyOf(r: ReceiptBody, d: Directive) {
    && r.directiveCode == d.code
    && r.business.facility == d.body.business.facility
    && r.business.category == d.body.business.category
    && r.business.risk == d.body.business.risk
  }

  predicate Settles(change: Option<Change<DirectiveBody>>, directive: Seen<DirectiveBody>, result: Status) {
    change.Some? && change.value.Update? && change.value.id == directive.id
    && change.value.expected == directive.row.version && change.value.row.status == result
  }

  predicate ReceiptMove(a: Receipt, b: Receipt, directive: Option<Seen<DirectiveBody>>,
                        change: Option<Change<DirectiveBody>>) {
    match b.status
    case Pending =>
      && a.status == Pending && change.None?
      && directive.Some? && directive.value.row.status == Executing
      && CopyOf(b.body, directive.value.row) && a.body.directiveCode == b.body.directiveCode
      && b.body.confirmedBy == a.body.confirmedBy
    case Cancelled => a.status == Failed && change.None? && b.body == a.body
    case Confirmed => Outcome(a, b, directive, change, Completed)
    case Failed => Outcome(a, b, directive, change, Aborted)
    case _ => false
  }

  predicate Outcome(a: Receipt, b: Receipt, directive: Option<Seen<DirectiveBody>>,
                    change: Option<Change<DirectiveBody>>, result: Status) {
    && a.status == Pending && b.body == a.body.(confirmedBy := b.body.confirmedBy)
    && directive.Some? && directive.value.row.status == Executing
    && directive.value.row.code == a.body.directiveCode
    && (if b.status == Confirmed then b.body.confirmedBy != "" else b.body == a.body)
    && Settles(change, directive.value, result)
  }

  predicate ReceiptChange(plan: Plan, view: View) {
    match plan.receipt
    case None => plan.directive.Some? && plan.directive.value.Update? ==> plan.directive.value.row.status != Completed
    case Some(Remove(_, _)) => plan.directive.None?
    case Some(Insert(row)) =>
      plan.directive.None? && view.directive.Some? && view.directive.value.row.status == Executing
      && row.status == Pending && row.version == 1 && !row.deleted && CopyOf(row.body, view.directive.value.row)
      && row.body.confirmedBy == ""
    case Some(Update(id, _, row, _, _)) =>
      view.receipt.Some? && id == view.receipt.value.id
      && ReceiptMove(view.receipt.value.row, row, view.directive, plan.directive)
  }

  lemma DecidedReceiptMove(caller: Caller, view: View, target: Status, expected: nat)
    requires DecideMoveReceipt(caller, view, target, expected).Ok?
    requires view.receipt.Some? && view.receipt.value.row.status == Pending && view.directive.Some? ==>
               view.directive.value.row.code == view.receipt.value.row.body.directiveCode
    ensures ReceiptChange(DecideMoveReceipt(caller, view, target, expected).value, view)
  {
    ReceiptEdges(view.receipt.value.row.status, target);
  }

  lemma DecidedReceiptChanges(request: Request, caller: Caller, view: View)
    requires Decide(request, caller, view).Ok?
    requires DirectiveFits(request, view) && ReceiptFits(request, view)
    requires view.receipt.Some? ==>
               Text.Canonical(view.receipt.value.row.body.directiveCode) == view.receipt.value.row.body.directiveCode
    ensures ReceiptChange(Decide(request, caller, view).value, view)
  {
    match request
    case MoveReceipt(_, target, expected) => DecidedReceiptMove(caller, view, target, expected);
    case _ =>
  }

  // ---- One transaction ----

  /** What fills a signature is only missing before it is given. */
  lemma MoveProgresses(id: nat, a: Directive, b: Directive, approval: Option<Approval>, evidence: seq<Approval>)
    requires EvidenceFits(id, a, evidence) && DirectiveMove(id, a, b, approval)
    ensures Climbs(DirectiveRank(a.status), DirectiveRank(b.status), a.status == b.status)
    ensures a.status != Draft ==> b.status != Draft && SameOrder(a.body, b.body)
    ensures a.body.submittedBy != "" ==> b.body.submittedBy == a.body.submittedBy
    ensures a.body.approvedBy != "" ==> b.body.approvedBy == a.body.approvedBy
  {
  }

  lemma DirectivesProgress(rows: Table<DirectiveBody>, change: Option<Change<DirectiveBody>>,
                           seen: Option<Seen<DirectiveBody>>, approval: Option<Approval>, key: nat,
                           approvals: seq<Approval>)
    requires EvidenceHolds(rows, approvals)
    requires WellVersioned(change) && DirectiveChange(change, seen, approval) && FromPresent(change, seen, rows)
    requires ApplyAny(rows, change, key).Ok?
    ensures var next := ApplyAny(rows, change, key).value;
            forall id | id in rows :: id in next && DirectiveProgress(rows[id], next[id])
  {
    ApplyEvolves(rows, change, key);
    if change.Some? && change.value.Update? {
      var id := change.value.id;
      MoveProgresses(id, seen.value.row, change.value.row, approval, EvidenceOf(approvals, id));
    }
  }

  lemma ReceiptsProgress(rows: Table<ReceiptBody>, plan: Plan, view: View, key: nat)
    requires WellVersioned(plan.receipt) && ReceiptChange(plan, view)
    requires FromPresent(plan.receipt, view.receipt, rows)
    requires ApplyAny(rows, plan.receipt, key).Ok?
    ensures var next := ApplyAny(rows, plan.receipt, key).value;
            forall id | id in rows :: id in next && ReceiptProgress(rows[id], next[id])
  {
    ApplyEvolves(rows, plan.receipt, key);
  }
}
