/** Receipts and directives always agree, counting soft-deleted rows. */
module Agreement {
  import opened Statuses
  import opened Rows
  import Text
  import opened Repository
  import opened Services
  import opened Locking
  import opened Evidence
  import opened FrozenOrder

  predicate StatusesAgree(receipt: Status, directive: Status) {
    match receipt
    case Pending => directive == Executing || directive == Aborted
    case Confirmed => directive == Completed
    case Failed => directive == Aborted
    case Cancelled => directive == Aborted
    case _ => false
  }

  /** The statuses match, the copies are true and exactly confirmed receipts are signed. */
  predicate Agrees(r: Receipt, d: Directive) {
    && CopyOf(r.body, d) && StatusesAgree(r.status, d.status)
    && (r.status == Confirmed <==> r.body.confirmedBy != "")
  }

  ghost predicate Answers(r: Receipt, directives: Table<DirectiveBody>) {
    exists id | id in directives :: Agrees(r, directives[id])
  }

  predicate ConfirmationOf(r: Receipt, d: Directive) {
    r.body.directiveCode == d.code && r.status == Confirmed
  }

  ghost predicate IsConfirmed(d: Directive, receipts: Table<ReceiptBody>) {
    exists id | id in receipts :: ConfirmationOf(receipts[id], d)
  }

  ghost predicate SlotsUnique(receipts: Table<ReceiptBody>) {
    forall i, j | i in receipts && j in receipts && receipts[i].body.directiveCode == receipts[j].body.directiveCode :: i == j
  }

  ghost predicate CodesCanonical(directives: Table<DirectiveBody>) {
    forall id | id in directives :: Text.Canonical(directives[id].code) == directives[id].code
  }

  ghost predicate IndexesHold(directives: Table<DirectiveBody>, receipts: Table<ReceiptBody>) {
    CodesUnique(directives) && CodesCanonical(directives) && SlotsUnique(receipts)
  }

  /** Every receipt has its directive, in a matching status. */
  ghost predicate AllAnswer(directives: Table<DirectiveBody>, receipts: Table<ReceiptBody>) {
    forall id {:trigger Answers(receipts[id], directives)} | id in receipts :: Answers(receipts[id], directives)
  }

  /** Every completed directive has its confirmed receipt. */
  ghost predicate AllConfirmed(directives: Table<DirectiveBody>, receipts: Table<ReceiptBody>) {
    forall id {:trigger IsConfirmed(directives[id], receipts)} | id in directives && directives[id].status == Completed ::
      IsConfirmed(directives[id], receipts)
  }

  // ---- Facts the services rely on ----

  lemma AnsweredCodeIsCanonical(directives: Table<DirectiveBody>, r: Receipt)
    requires CodesCanonical(directives) && Answers(r, directives)
    ensures Text.Canonical(r.body.directiveCode) == r.body.directiveCode
  {
    var d :| d in directives && Agrees(r, directives[d]);
  }

  /** The receipt agrees with the directive that has its code, however that one is found. */
  lemma SameCodeAgrees(directives: Table<DirectiveBody>, r: Receipt, d: nat)
    requires CodesUnique(directives) && Answers(r, directives) && d in directives
    requires r.body.directiveCode == directives[d].code
    ensures Agrees(r, directives[d])
  {
    var other :| other in directives && Agrees(r, directives[other]);
    assert other == d;
  }

  lemma ConfirmedSlotIsTaken(d: Directive, receipts: Table<ReceiptBody>, key: nat)
    requires key !in receipts
    ensures IsConfirmed(d, receipts) ==> SlotTaken(receipts, key, d.code)
  {
    if IsConfirmed(d, receipts) {
      var r :| r in receipts && ConfirmationOf(receipts[r], d);
      assert r != key && receipts[r].body.directiveCode == d.code;
    }
  }

  // ---- Indexes through one transaction ----

  ghost predicate CanonicalInsert(change: Option<Change<DirectiveBody>>) {
    change.Some? && change.value.Insert? ==> Text.Canonical(change.value.row.code) == change.value.row.code
  }

  lemma DecidedCodesAreCanonical(request: Request, caller: Caller, view: View)
    requires Decide(request, caller, view).Ok?
    ensures CanonicalInsert(Decide(request, caller, view).value.directive)
  {
    match request
    case CreateDirective(form, _, _) => Text.CanonicalIsStable(form.code);
    case _ =>
  }

  lemma CodesStayCanonical(directives: Table<DirectiveBody>, change: Option<Change<DirectiveBody>>, key: nat)
    requires CodesCanonical(directives) && CanonicalInsert(change) && ApplyAny(directives, change, key).Ok?
    ensures CodesCanonical(ApplyAny(directives, change, key).value)
  {
  }

  lemma SlotsStayUnique(receipts: Table<ReceiptBody>, change: Option<Change<ReceiptBody>>, key: nat)
    requires SlotsUnique(receipts) && ApplyReceipt(receipts, change, key).Ok?
    ensures SlotsUnique(ApplyReceipt(receipts, change, key).value)
  {
    var next := ApplyReceipt(receipts, change, key).value;
    if change.Some? && !change.value.Remove? {
      var own := Target(change.value, key);
      assert forall id | id in receipts && id != own :: next[id] == receipts[id];
      assert next[own].body == change.value.row.body;
      assert forall id | id in receipts :: id == own || receipts[id].body.directiveCode != next[own].body.directiveCode;
    }
  }

  lemma IndexesStay(store: Store, plan: Plan, key: nat)
    requires IndexesHold(store.directives, store.receipts) && CanonicalInsert(plan.directive)
    requires Commit(store, plan, key).Ok?
    ensures var after := Commit(store, plan, key).value;
            IndexesHold(after.directives, after.receipts)
  {
    ApplyKeepsCodesUnique(store.directives, plan.directive, key);
    CodesStayCanonical(store.directives, plan.directive, key);
    SlotsStayUnique(store.receipts, plan.receipt, key);
  }

  // ---- A transaction without a receipt ----

  /** A directive row before and after a transaction that writes no receipt. */
  predicate Unsettled(a: Directive, b: Directive) {
    && b.code == a.code
    && (b == a.(deleted := b.deleted)
        || (&& b.status != Completed && a.status != Completed && a.status != Aborted
            && (a.status == Executing ==> b.status == Aborted && SameOrder(a.body, b.body))))
  }

  lemma MovesAreUnsettled(id: nat, a: Directive, b: Directive, approval: Option<Approval>)
    requires DirectiveMove(id, a, b, approval) && b.status != Completed && b.code == a.code
    ensures Unsettled(a, b)
  {
  }

  lemma ChangedDirectives(directives: Table<DirectiveBody>, change: Option<Change<DirectiveBody>>,
                          seen: Option<Seen<DirectiveBody>>, approval: Option<Approval>, key: nat)
    requires DirectiveChange(change, seen, approval) && FromPresent(change, seen, directives)
    requires change.Some? && change.value.Update? ==> change.value.row.status != Completed
    requires ApplyAny(directives, change, key).Ok?
    ensures var next := ApplyAny(directives, change, key).value;
            && (forall id | id in directives :: id in next && Unsettled(directives[id], next[id]))
            && (forall id | id in next && id !in directives :: next[id].status == Draft)
  {
    if change.Some? && change.value.Update? {
      var id := change.value.id;
      MovesAreUnsettled(id, directives[id], change.value.row.(code := directives[id].code, deleted := false), approval);
    }
  }

  lemma StillAnswers(r: Receipt, directives: Table<DirectiveBody>, next: Table<DirectiveBody>)
    requires Answers(r, directives)
    requires forall id | id in directives :: id in next && Unsettled(directives[id], next[id])
    ensures Answers(r, next)
  {
    var d :| d in directives && Agrees(r, directives[d]);
    assert Agrees(r, next[d]);
  }

  lemma StillConfirmed(a: Directive, b: Directive, receipts: Table<ReceiptBody>)
    requires IsConfirmed(a, receipts) && b.code == a.code
    ensures IsConfirmed(b, receipts)
  {
    var r :| r in receipts && ConfirmationOf(receipts[r], a);
    assert ConfirmationOf(receipts[r], b);
  }

  lemma DirectiveSideAnswers(directives: Table<DirectiveBody>, next: Table<DirectiveBody>, receipts: Table<ReceiptBody>)
    requires AllAnswer(directives, receipts)
    requires forall id | id in directives :: id in next && Unsettled(directives[id], next[id])
    ensures AllAnswer(next, receipts)
  {
    forall r | r in receipts
      ensures Answers(receipts[r], next)
    {
      StillAnswers(receipts[r], directives, next);
    }
  }

  lemma DirectiveSideConfirmed(directives: Table<DirectiveBody>, next: Table<DirectiveBody>, receipts: Table<ReceiptBody>)
    requires AllConfirmed(directives, receipts)
    requires forall id | id in directives :: id in next && Unsettled(directives[id], next[id])
    requires forall id | id in next && id !in directives :: next[id].status == Draft
    ensures AllConfirmed(next, receipts)
  {
    forall d | d in next && next[d].status == Completed
      ensures IsConfirmed(next[d], receipts)
    {
      assert Unsettled(directives[d], next[d]);
      StillConfirmed(directives[d], next[d], receipts);
    }
  }

  lemma WithoutReceiptKept(store: Store, plan: Plan, view: View, key: nat)
    requires AllAnswer(store.directives, store.receipts) && AllConfirmed(store.directives, store.receipts)
    requires plan.receipt.None? && ReceiptChange(plan, view)
    requires DirectiveChange(plan.directive, view.directive, plan.approval)
    requires FromPresent(plan.directive, view.directive, store.directives)
    requires ApplyAny(store.directives, plan.directive, key).Ok?
    ensures var next := ApplyAny(store.directives, plan.directive, key).value;
            AllAnswer(next, store.receipts) && AllConfirmed(next, store.receipts)
  {
    var next := ApplyAny(store.directives, plan.directive, key).value;
    ChangedDirectives(store.directives, plan.directive, view.directive, plan.approval, key);
    DirectiveSideAnswers(store.directives, next, store.receipts);
    DirectiveSideConfirmed(store.directives, next, store.receipts);
  }

  // ---- A transaction that writes a receipt but no directive ----

  lemma ConfirmedReceiptsStay(d: Directive, receipts: Table<ReceiptBody>, id: nat, stored: Receipt)
    requires IsConfirmed(d, receipts)
    requires id in receipts && receipts[id].status == Confirmed ==>
               stored.status == Confirmed && stored.body == receipts[id].body
    ensures IsConfirmed(d, receipts[id := stored])
  {
    var r :| r in receipts && ConfirmationOf(receipts[r], d);
    assert ConfirmationOf(receipts[id := stored][r], d);
  }

  lemma ReceiptSideConfirmed(directives: Table<DirectiveBody>, receipts: Table<ReceiptBody>, id: nat, stored: Receipt)
    requires AllConfirmed(directives, receipts)
    requires id in receipts && receipts[id].status == Confirmed ==>
               stored.status == Confirmed && stored.body == receipts[id].body
    ensures AllConfirmed(directives, receipts[id := stored])
  {
    forall d | d in directives && directives[d].status == Completed
      ensures IsConfirmed(directives[d], receipts[id := stored])
    {
      ConfirmedReceiptsStay(directives[d], receipts, id, stored);
    }
  }

  lemma AnswersKept(r: Receipt, s: Receipt, directives: Table<DirectiveBody>)
    requires Answers(r, directives) && s.body == r.body
    requires s.status == r.status || (r.status == Failed && s.status == Cancelled)
    ensures Answers(s, directives)
  {
    var d :| d in directives && Agrees(r, directives[d]);
    assert Agrees(s, directives[d]);
  }

  lemma EditedReceiptAnswers(directives: Table<DirectiveBody>, a: Receipt, b: Receipt, seen: Seen<DirectiveBody>)
    requires CodesUnique(directives) && Answers(a, directives)
    requires ReceiptMove(a, b, Some(seen), None) && b.status == Pending
    requires seen.id in directives && DirectiveProgress(seen.row, directives[seen.id])
    ensures Answers(b, directives)
  {
    SameCodeAgrees(directives, a, seen.id);
    assert Agrees(b, directives[seen.id]);
  }

  lemma NewReceiptAnswers(directives: Table<DirectiveBody>, receipts: Table<ReceiptBody>, key: nat, row: Receipt,
                          seen: Seen<DirectiveBody>)
    requires AllConfirmed(directives, receipts) && key !in receipts
    requires !SlotTaken(receipts, key, row.body.directiveCode)
    requires row.status == Pending && CopyOf(row.body, seen.row) && seen.row.status == Executing
    requires row.body.confirmedBy == ""
    requires seen.id in directives && DirectiveProgress(seen.row, directives[seen.id])
    ensures Answers(row, directives)
  {
    var d := directives[seen.id];
    ConfirmedSlotIsTaken(d, receipts, key);
    assert DirectiveRank(d.status) >= 3;
    assert Agrees(row, d);
  }

  /** An edit or a cancellation. */
  lemma UpdatedReceiptAnswers(directives: Table<DirectiveBody>, a: Receipt, b: Receipt, stored: Receipt,
                              directive: Option<Seen<DirectiveBody>>)
    requires CodesUnique(directives) && Answers(a, directives)
    requires ReceiptMove(a, b, directive, None)
    requires stored.body == b.body && stored.status == b.status
    requires directive.Some? ==> directive.value.id in directives
                                 && DirectiveProgress(directive.value.row, directives[directive.value.id])
    ensures Answers(stored, directives)
  {
    if b.status == Pending {
      EditedReceiptAnswers(directives, a, b, directive.value);
      AnswersKept(b, stored, directives);
    } else {
      AnswersKept(a, stored, directives);
    }
  }

  lemma ReceiptOnlyKept(store: Store, plan: Plan, view: View, key: nat)
    requires CodesUnique(store.directives) && DirectiveObserved(view, store)
    requires AllAnswer(store.directives, store.receipts) && AllConfirmed(store.directives, store.receipts)
    requires plan.receipt.Some? && plan.directive.None? && ReceiptChange(plan, view)
    requires FromPresent(plan.receipt, view.receipt, store.receipts)
    requires ApplyReceipt(store.receipts, plan.receipt, key).Ok?
    ensures var next := ApplyReceipt(store.receipts, plan.receipt, key).value;
            AllAnswer(store.directives, next) && AllConfirmed(store.directives, next)
  {
    var next := ApplyReceipt(store.receipts, plan.receipt, key).value;
    var own := Target(plan.receipt.value, key);
    assert next == store.receipts[own := next[own]];
    match plan.receipt.value {
      case Insert(row) =>
        NewReceiptAnswers(store.directives, store.receipts, key, row, view.directive.value);
      case Remove(id, _) =>
        AnswersKept(store.receipts[id], next[id], store.directives);
      case Update(id, _, row, _, _) =>
        UpdatedReceiptAnswers(store.directives, store.receipts[id], row, next[id], view.directive);
    }
    ReceiptSideConfirmed(store.directives, store.receipts, own, next[own]);
  }

  // ---- A first outcome ----

  /** A first outcome: receipt and directive, before and after. */
  predicate Settled(r0: Receipt, d0: Directive, r1: Receipt, d1: Directive) {
    && r0.status == Pending && d0.status == Executing && r0.body.directiveCode == d0.code
    && r1.body == r0.body.(confirmedBy := r1.body.confirmedBy)
    && (if r1.status == Confirmed then r1.body.confirmedBy != "" else r1.body == r0.body)
    && d1.code == d0.code && d1.body == d0.body
    && ((r1.status == Confirmed && d1.status == Completed) || (r1.status == Failed && d1.status == Aborted))
  }

  lemma OthersStillAnswer(r: Receipt, directives: Table<DirectiveBody>, d: nat, directive: Directive)
    requires Answers(r, directives) && d in directives && r.body.directiveCode != directives[d].code
    ensures Answers(r, directives[d := directive])
  {
    var other :| other in directives && Agrees(r, directives[other]);
    assert Agrees(r, directives[d := directive][other]);
  }

  lemma OutcomeAnswers(directives: Table<DirectiveBody>, receipts: Table<ReceiptBody>, r: nat, d: nat,
                       receipt: Receipt, directive: Directive)
    requires CodesUnique(directives) && SlotsUnique(receipts) && AllAnswer(directives, receipts)
    requires r in receipts && d in directives
    requires Settled(receipts[r], directives[d], receipt, directive)
    ensures AllAnswer(directives[d := directive], receipts[r := receipt])
  {
    var nextD, nextR := directives[d := directive], receipts[r := receipt];
    SameCodeAgrees(directives, receipts[r], d);
    assert Agrees(receipt, nextD[d]);
    forall id | id in nextR
      ensures Answers(nextR[id], nextD)
    {
      if id != r {
        OthersStillAnswer(receipts[id], directives, d, directive);
      }
    }
  }

  lemma OutcomeConfirmed(directives: Table<DirectiveBody>, receipts: Table<ReceiptBody>, r: nat, d: nat,
                         receipt: Receipt, directive: Directive)
    requires AllConfirmed(directives, receipts)
    requires r in receipts && d in directives
    requires Settled(receipts[r], directives[d], receipt, directive)
    ensures AllConfirmed(directives[d := directive], receipts[r := receipt])
  {
    var nextD, nextR := directives[d := directive], receipts[r := receipt];
    forall id | id in nextD && nextD[id].status == Completed
      ensures IsConfirmed(nextD[id], nextR)
    {
      if id == d {
        assert ConfirmationOf(nextR[r], nextD[d]);
      } else {
        ConfirmedReceiptsStay(directives[id], receipts, r, receipt);
      }
    }
  }

  lemma OutcomePlan(store: Store, plan: Plan, view: View, key: nat)
    requires plan.receipt.Some? && plan.directive.Some? && ReceiptChange(plan, view)
    requires DirectiveChange(plan.directive, view.directive, plan.approval)
    requires PlanFromPresent(plan, view, store)
    requires Commit(store, plan, key).Ok?
    ensures plan.receipt.value.Update? && plan.directive.value.Update?
    ensures var after := Commit(store, plan, key).value;
            var r, d := plan.receipt.value.id, plan.directive.value.id;
            && r in store.receipts && d in store.directives
            && after.receipts == store.receipts[r := after.receipts[r]]
            && after.directives == store.directives[d := after.directives[d]]
            && Settled(store.receipts[r], store.directives[d], after.receipts[r], after.directives[d])
  {
  }

  lemma CommitKeepsAgreement(store: Store, plan: Plan, view: View, key: nat)
    requires IndexesHold(store.directives, store.receipts) && DirectiveObserved(view, store)
    requires AllAnswer(store.directives, store.receipts) && AllConfirmed(store.directives, store.receipts)
    requires ReceiptChange(plan, view) && DirectiveChange(plan.directive, view.directive, plan.approval)
    requires PlanFromPresent(plan, view, store)
    requires Commit(store, plan, key).Ok?
    ensures var after := Commit(store, plan, key).value;
            AllAnswer(after.directives, after.receipts) && AllConfirmed(after.directives, after.receipts)
  {
    var after := Commit(store, plan, key).value;
    if plan.receipt.None? {
      WithoutReceiptKept(store, plan, view, key);
    } else if plan.directive.None? {
      ReceiptOnlyKept(store, plan, view, key);
    } else {
      OutcomePlan(store, plan, view, key);
      var r, d := plan.receipt.value.id, plan.directive.value.id;
      OutcomeAnswers(store.directives, store.receipts, r, d, after.receipts[r], after.directives[d]);
      OutcomeConfirmed(store.directives, store.receipts, r, d, after.receipts[r], after.directives[d]);
    }
  }
}
