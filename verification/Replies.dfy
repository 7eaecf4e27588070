/** What every request is answered: the checks of the services, in their order, and
    then the conditions and unique indexes its transaction meets. */
module Replies {
  import opened Statuses
  import opened Rows
  import opened Text
  import opened Repository
  import opened Services
  import opened Dispatch
  import opened Locking
  import opened Coupling
  import opened Evidence
  import opened Agreement
  import opened Workflow
  import opened Effects

  // ---- Conditions ----

  predicate Filled(code: string, form: Form) {
    Trim(code) != "" && Trim(form.name) != "" && Trim(form.facility) != "" && Trim(form.owner) != ""
  }

  /** The row is there, not deleted, at this version. */
  predicate Current<T>(rows: Table<T>, id: nat, version: nat) {
    id in rows && !rows[id].deleted && rows[id].version == version
  }

  predicate Present<T>(rows: Table<T>, id: nat) {
    id in rows && !rows[id].deleted
  }

  /** A new row would meet the primary key or the unique index on codes, which counts
      deleted rows. */
  predicate Taken<T>(rows: Table<T>, key: nat, code: string) {
    key in rows || exists id | id in rows :: rows[id].code == Canonical(code)
  }

  /** Another receipt, deleted or not, answers the directive with this code. */
  predicate Answered(rows: Table<ReceiptBody>, own: nat, code: string) {
    exists id | id in rows :: id != own && rows[id].body.directiveCode == code
  }

  predicate Evidenced(approvals: seq<Approval>, id: nat, stage: Stage) {
    exists a | a in approvals :: a.directive == id && a.stage == stage
  }

  predicate OtherFacility(form: Form, gate: Gate) {
    !EqualFold(Trim(form.facility), gate.body.business.facility)
  }

  // ---- Gates ----

  function GateReply(s: Store, f: Flight, key: nat): Option<Error> {
    var gate := f.view.gate;
    match f.request
    case CreateGate(form, _, reservoir) =>
      if !Filled(form.code, form) then Some(InvalidInput)
      else if reservoir.None? then Some(NotFound)
      else if !EqualFold(Trim(form.facility), reservoir.value.facility) then Some(InvalidInput)
      else if Taken(s.gates, key, form.code) then Some(Duplicate)
      else None
    case UpdateGate(_, form, code, reservoir, expected) =>
      if gate.None? then Some(NotFound)
      else if !Filled(gate.value.row.code, form) then Some(InvalidInput)
      else if !EqualFold(Trim(code), gate.value.row.body.reservoirCode) then Some(InvalidInput)
      else if reservoir.None? then Some(NotFound)
      else if !EqualFold(Trim(form.facility), reservoir.value.facility) then Some(InvalidInput)
      else if !Current(s.gates, gate.value.id, expected) then Some(VersionConflict)
      else None
    case MoveGate(_, target, expected) =>
      if gate.None? then Some(NotFound)
      else if !CanTransition(GATE_GRAPH, gate.value.row.status, target) then Some(InvalidTransition)
      else if !Current(s.gates, gate.value.id, expected) then Some(VersionConflict)
      else None
    case DeleteGate(_) =>
      if gate.None? || !Present(s.gates, gate.value.id) then Some(NotFound) else None
    case _ => None
  }

  // ---- Directives ----

  function DirectiveReply(s: Store, f: Flight, key: nat): Option<Error> {
    var directive, gate := f.view.directive, f.view.gate;
    match f.request
    case CreateDirective(form, _, _) =>
      if !Filled(form.code, form) then Some(InvalidInput)
      else if gate.None? then Some(NotFound)
      else if OtherFacility(form, gate.value.row) || gate.value.row.status == Locked then Some(InvalidInput)
      else if Taken(s.directives, key, form.code) then Some(Duplicate)
      else None
    case UpdateDirective(_, form, _, _, expected) =>
      if directive.None? then Some(NotFound)
      else if directive.value.row.status != Draft then Some(ImmutableState)
      else if !Filled(directive.value.row.code, form) then Some(InvalidInput)
      else if gate.None? then Some(NotFound)
      else if OtherFacility(form, gate.value.row) || gate.value.row.status == Locked then Some(InvalidInput)
      else if !Current(s.directives, directive.value.id, expected) then Some(VersionConflict)
      else None
    case MoveDirective(_, target, expected) =>
      if directive.None? then Some(NotFound)
      else MoveReply(s, f.caller, directive.value, gate, target, expected)
    case DeleteDirective(_) =>
      if directive.None? then Some(NotFound)
      else if directive.value.row.status != Draft then Some(ImmutableState)
      else if !Present(s.directives, directive.value.id) then Some(NotFound)
      else None
    case _ => None
  }

  /** The gate has to be written, for `goal`. */
  predicate GateWrite(gate: Option<Seen<GateBody>>, goal: Option<Status>) {
    gate.Some? && goal.Some? && gate.value.row.status != goal.value
  }

  function MoveReply(s: Store, caller: Caller, directive: Seen<DirectiveBody>, gate: Option<Seen<GateBody>>,
                     target: Status, expected: nat): Option<Error>
  {
    var Seen(id, read) := directive;
    var goal := MoveGoal(read, target, gate);
    if target == Completed || !CanTransition(DIRECTIVE_GRAPH, read.status, target) then Some(InvalidTransition)
    else if target !in MayMoveTo(caller.role) then Some(Forbidden)
    else if gate.None? && (target == Executing || read.status == Executing) then Some(NotFound)
    else if target == Executing && gate.value.row.status == Locked then Some(InvalidInput)
    else if GateWrite(gate, goal) && !CanTransition(GATE_GRAPH, gate.value.row.status, goal.value)
      then Some(InvalidTransition)
    else if target == Approved && (read.body.submittedBy == "" || EqualFold(read.body.submittedBy, caller.actor))
      then Some(TwoPersonRequired)
    else if !Current(s.directives, id, expected) then Some(VersionConflict)
    else if target == Pending && Evidenced(s.approvals, id, Submitted) then Some(Duplicate)
    else if target == Approved && Evidenced(s.approvals, id, Endorsed) then Some(Duplicate)
    else if GateWrite(gate, goal) && !Current(s.gates, gate.value.id, gate.value.row.version) then Some(VersionConflict)
    else None
  }

  // ---- Execution confirmations ----

  function ReceiptReply(s: Store, f: Flight, key: nat): Option<Error> {
    var receipt, directive := f.view.receipt, f.view.directive;
    match f.request
    case CreateReceipt(form, _) =>
      if !Filled(form.code, form) then Some(InvalidInput)
      else if directive.None? then Some(NotFound)
      else if directive.value.row.status != Executing || f.view.slots > 0 then Some(InvalidInput)
      else if Taken(s.receipts, key, form.code) || Answered(s.receipts, key, directive.value.row.code) then Some(Duplicate)
      else None
    case UpdateReceipt(_, form, code, expected) =>
      if receipt.None? then Some(NotFound)
      else if !Filled(receipt.value.row.code, form) then Some(InvalidInput)
      else if receipt.value.row.status != Pending then Some(ImmutableState)
      else if !EqualFold(Trim(code), receipt.value.row.body.directiveCode) then Some(InvalidInput)
      else if directive.None? then Some(NotFound)
      else if directive.value.row.status != Executing then Some(InvalidInput)
      else if !Current(s.receipts, receipt.value.id, expected) then Some(VersionConflict)
      else if Answered(s.receipts, receipt.value.id, directive.value.row.code) then Some(Duplicate)
      else None
    case MoveReceipt(_, target, expected) =>
      if receipt.None? then Some(NotFound)
      else if !CanTransition(RECEIPT_GRAPH, receipt.value.row.status, target) then Some(InvalidTransition)
      else if receipt.value.row.status == Pending then OutcomeReply(s, receipt.value, directive, f.view.gate, target, expected)
      else if !Current(s.receipts, receipt.value.id, expected) then Some(VersionConflict)
      else if Answered(s.receipts, receipt.value.id, receipt.value.row.body.directiveCode) then Some(Duplicate)
      else None
    case DeleteReceipt(_) =>
      if receipt.None? then Some(NotFound)
      else if receipt.value.row.status != Pending then Some(ImmutableState)
      else if !Present(s.receipts, receipt.value.id) then Some(NotFound)
      else None
    case _ => None
  }

  function OutcomeReply(s: Store, receipt: Seen<ReceiptBody>, directive: Option<Seen<DirectiveBody>>,
                        gate: Option<Seen<GateBody>>, target: Status, expected: nat): Option<Error>
  {
    if directive.None? then Some(NotFound)
    else if directive.value.row.status != Executing then Some(InvalidInput)
    else if gate.None? then Some(NotFound)
    else
      var goal: Status := if target == Confirmed then directive.value.row.body.target else Locked;
      if gate.value.row.status != goal && !CanTransition(GATE_GRAPH, gate.value.row.status, goal) then Some(InvalidTransition)
      else if !Current(s.receipts, receipt.id, expected) then Some(VersionConflict)
      else if Answered(s.receipts, receipt.id, receipt.row.body.directiveCode) then Some(Duplicate)
      else if !Current(s.directives, directive.value.id, directive.value.row.version) then Some(VersionConflict)
      else if gate.value.row.status != goal && !Current(s.gates, gate.value.id, gate.value.row.version)
        then Some(VersionConflict)
      else None
  }

  // ---- Proved ----

  predicate Replied<T>(outcome: Outcome<T>, error: Option<Error>) {
    match outcome
    case Ok(_) => error == None
    case Err(e) => error == Some(e)
  }

  lemma GateRepliesAreExact(s: Store, f: Flight, key: nat)
    requires f.request.CreateGate? || f.request.UpdateGate? || f.request.MoveGate? || f.request.DeleteGate?
    ensures Replied(Attempt(s, f, key), GateReply(s, f, key))
  {
  }

  lemma DirectiveCreationsAreExact(s: Store, f: Flight, key: nat)
    requires f.request.CreateDirective?
    ensures Replied(Attempt(s, f, key), DirectiveReply(s, f, key))
  {
  }

  lemma DirectiveRepliesAreExact(s: Store, f: Flight, key: nat)
    requires f.request.UpdateDirective? || f.request.DeleteDirective?
    ensures Replied(Attempt(s, f, key), DirectiveReply(s, f, key))
  {
  }

  lemma EvidenceTaken(approvals: seq<Approval>, id: nat, stage: Stage)
    ensures StageTaken(approvals, id, stage) <==> Evidenced(approvals, id, stage)
  {
  }

  /** What the transaction of a decided move can meet. */
  lemma MoveCommitReply(s: Store, caller: Caller, directive: Seen<DirectiveBody>, gate: Option<Seen<GateBody>>,
                        target: Status, expected: nat, row: Directive, key: nat)
    ensures var goal := MoveGoal(directive.row, target, gate);
            var plan := Plan(caller.actor, None, Some(Update(directive.id, expected, row, Transitioned, directive.row.status)),
                             MoveEvidence(directive.id, caller, target), FollowPlan(gate, goal, DirectiveExecution));
            Replied(Commit(s, plan, key),
                    if !Current(s.directives, directive.id, expected) then Some(VersionConflict)
                    else if target == Pending && Evidenced(s.approvals, directive.id, Submitted) then Some(Duplicate)
                    else if target == Approved && Evidenced(s.approvals, directive.id, Endorsed) then Some(Duplicate)
                    else if GateWrite(gate, goal) && !Current(s.gates, gate.value.id, gate.value.row.version)
                      then Some(VersionConflict)
                    else None)
  {
    EvidenceTaken(s.approvals, directive.id, Submitted);
    EvidenceTaken(s.approvals, directive.id, Endorsed);
  }

  /** Which of its checks refuses a move, or none. */
  lemma MoveDecisionReply(caller: Caller, view: View, target: Status, expected: nat)
    requires view.directive.Some?
    ensures var read, gate := view.directive.value.row, view.gate;
            var goal := MoveGoal(read, target, gate);
            Replied(DecideMoveDirective(caller, view, target, expected),
                    if target == Completed || !CanTransition(DIRECTIVE_GRAPH, read.status, target) then Some(InvalidTransition)
                    else if target !in MayMoveTo(caller.role) then Some(Forbidden)
                    else if gate.None? && (target == Executing || read.status == Executing) then Some(NotFound)
                    else if target == Executing && gate.value.row.status == Locked then Some(InvalidInput)
                    else if GateWrite(gate, goal) && !CanTransition(GATE_GRAPH, gate.value.row.status, goal.value)
                      then Some(InvalidTransition)
                    else if target == Approved && (read.body.submittedBy == "" || EqualFold(read.body.submittedBy, caller.actor))
                      then Some(TwoPersonRequired)
                    else None)
  {
    DirectiveEdges(view.directive.value.row.status, target);
  }

  lemma MoveRepliesAreExact(s: Store, f: Flight, key: nat)
    requires f.request.MoveDirective?
    ensures Replied(Attempt(s, f, key), DirectiveReply(s, f, key))
  {
    var target, expected := f.request.target, f.request.expected;
    if f.view.directive.Some? {
      MoveDecisionReply(f.caller, f.view, target, expected);
      if DecideMoveDirective(f.caller, f.view, target, expected).Ok? {
        var row := MovePlanned(f.caller, f.view, target, expected);
        MoveCommitReply(s, f.caller, f.view.directive.value, f.view.gate, target, expected, row, key);
      }
    }
  }

  lemma ReceiptCreationsAreExact(s: Store, f: Flight, key: nat)
    requires f.request.CreateReceipt?
    ensures Replied(Attempt(s, f, key), ReceiptReply(s, f, key))
  {
  }

  lemma ReceiptRepliesAreExact(s: Store, f: Flight, key: nat)
    requires f.request.UpdateReceipt? || f.request.DeleteReceipt?
    ensures Replied(Attempt(s, f, key), ReceiptReply(s, f, key))
  {
  }

  lemma OutcomeCommitReply(s: Store, caller: Caller, receipt: Seen<ReceiptBody>, directive: Seen<DirectiveBody>,
                           gate: Seen<GateBody>, target: Status, goal: Status, expected: nat, row: Receipt, key: nat)
    requires row.body.directiveCode == receipt.row.body.directiveCode
    ensures var plan := Plan(caller.actor, Some(Update(receipt.id, expected, row, Transitioned, Pending)),
                             Some(Update(directive.id, directive.row.version,
                                         directive.row.(status := Result(target), version := directive.row.version + 1),
                                         ExecutionOutcome, Executing)),
                             None, FollowPlan(Some(gate), Some(goal), ExecutionOutcome));
            Replied(Commit(s, plan, key),
                    if !Current(s.receipts, receipt.id, expected) then Some(VersionConflict)
                    else if Answered(s.receipts, receipt.id, receipt.row.body.directiveCode) then Some(Duplicate)
                    else if !Current(s.directives, directive.id, directive.row.version) then Some(VersionConflict)
                    else if gate.row.status != goal && !Current(s.gates, gate.id, gate.row.version) then Some(VersionConflict)
                    else None)
  {
  }

  lemma OutcomeDecisionReply(caller: Caller, view: View, target: Status, expected: nat)
    requires view.receipt.Some? && view.receipt.value.row.status == Pending
    requires CanTransition(RECEIPT_GRAPH, Pending, target)
    ensures var directive, gate := view.directive, view.gate;
            Replied(DecideMoveReceipt(caller, view, target, expected),
                    if directive.None? then Some(NotFound)
                    else if directive.value.row.status != Executing then Some(InvalidInput)
                    else if gate.None? then Some(NotFound)
                    else
                      var goal: Status := if target == Confirmed then directive.value.row.body.target else Locked;
                      if gate.value.row.status != goal && !CanTransition(GATE_GRAPH, gate.value.row.status, goal)
                      then Some(InvalidTransition) else None)
  {
  }

  lemma AttemptIsCommit(s: Store, f: Flight, key: nat, plan: Plan)
    requires Decide(f.request, f.caller, f.view) == Ok(plan)
    ensures Attempt(s, f, key) == Commit(s, plan, key)
  {
  }

  lemma SettlingReply(s: Store, f: Flight, key: nat)
    requires f.request.MoveReceipt? && f.view.receipt.Some? && f.view.receipt.value.row.status == Pending
    requires DecideMoveReceipt(f.caller, f.view, f.request.target, f.request.expected).Ok?
    ensures f.view.directive.Some? && f.view.gate.Some?
    ensures var receipt, directive, gate := f.view.receipt.value, f.view.directive.value, f.view.gate.value;
            var goal := OutcomeGoal(f.request.target, directive.row);
            Replied(Attempt(s, f, key),
                    if !Current(s.receipts, receipt.id, f.request.expected) then Some(VersionConflict)
                    else if Answered(s.receipts, receipt.id, receipt.row.body.directiveCode) then Some(Duplicate)
                    else if !Current(s.directives, directive.id, directive.row.version) then Some(VersionConflict)
                    else if gate.row.status != goal && !Current(s.gates, gate.id, gate.row.version) then Some(VersionConflict)
                    else None)
  {
    var target, expected := f.request.target, f.request.expected;
    var row := OutcomePlanned(f.caller, f.view, target, expected);
    AttemptIsCommit(s, f, key, DecideMoveReceipt(f.caller, f.view, target, expected).value);
    OutcomeCommitReply(s, f.caller, f.view.receipt.value, f.view.directive.value, f.view.gate.value, target,
                       OutcomeGoal(target, f.view.directive.value.row), expected, row, key);
  }

  lemma OutcomeRepliesAreExact(s: Store, f: Flight, key: nat)
    requires f.request.MoveReceipt? && f.view.receipt.Some? && f.view.receipt.value.row.status == Pending
    ensures Replied(Attempt(s, f, key), ReceiptReply(s, f, key))
  {
    var target, expected := f.request.target, f.request.expected;
    if CanTransition(RECEIPT_GRAPH, Pending, target) {
      OutcomeDecisionReply(f.caller, f.view, target, expected);
      if DecideMoveReceipt(f.caller, f.view, target, expected).Ok? {
        SettlingReply(s, f, key);
      }
    }
  }

  lemma CancellationRepliesAreExact(s: Store, f: Flight, key: nat)
    requires f.request.MoveReceipt? && (f.view.receipt.Some? ==> f.view.receipt.value.row.status != Pending)
    ensures Replied(Attempt(s, f, key), ReceiptReply(s, f, key))
  {
  }

  /** The answer to any request, from the rows it has read and the store it meets. */
  function Reply(s: Store, f: Flight, key: nat): Option<Error> {
    match f.request
    case CreateGate(_, _, _) => GateReply(s, f, key)
    case UpdateGate(_, _, _, _, _) => GateReply(s, f, key)
    case MoveGate(_, _, _) => GateReply(s, f, key)
    case DeleteGate(_) => GateReply(s, f, key)
    case CreateDirective(_, _, _) => DirectiveReply(s, f, key)
    case UpdateDirective(_, _, _, _, _) => DirectiveReply(s, f, key)
    case MoveDirective(_, _, _) => DirectiveReply(s, f, key)
    case DeleteDirective(_) => DirectiveReply(s, f, key)
    case _ => ReceiptReply(s, f, key)
  }

  /** Every transaction succeeds or fails exactly as `Reply` says, and with its error. */
  lemma RepliesAreExact(s: Store, f: Flight, key: nat)
    ensures Replied(Attempt(s, f, key), Reply(s, f, key))
  {
    match f.request
    case MoveDirective(_, _, _) => MoveRepliesAreExact(s, f, key);
    case CreateDirective(_, _, _) => DirectiveCreationsAreExact(s, f, key);
    case UpdateDirective(_, _, _, _, _) => DirectiveRepliesAreExact(s, f, key);
    case DeleteDirective(_) => DirectiveRepliesAreExact(s, f, key);
    case CreateGate(_, _, _) => GateRepliesAreExact(s, f, key);
    case UpdateGate(_, _, _, _, _) => GateRepliesAreExact(s, f, key);
    case MoveGate(_, _, _) => GateRepliesAreExact(s, f, key);
    case DeleteGate(_) => GateRepliesAreExact(s, f, key);
    case MoveReceipt(_, _, _) =>
      if f.view.receipt.Some? && f.view.receipt.value.row.status == Pending {
        OutcomeRepliesAreExact(s, f, key);
      } else {
        CancellationRepliesAreExact(s, f, key);
      }
    case CreateReceipt(_, _) => ReceiptCreationsAreExact(s, f, key);
    case _ => ReceiptRepliesAreExact(s, f, key);
  }

  /** In any schedule, a finishing request commits if and only if its reply is no error. */
  lemma CommitsIffNoError(schedule: seq<Event>, k: nat)
    requires k < |schedule|
    ensures Succeeds(Exec(schedule[..k]), schedule[k])
            <==> && schedule[k].Finish? && Ready(Exec(schedule[..k]), schedule[k].flight)
                 && Reply(Exec(schedule[..k]).store, Exec(schedule[..k]).flights[schedule[k].flight], schedule[k].key) == None
  {
    var now := Exec(schedule[..k]);
    if schedule[k].Finish? && Ready(now, schedule[k].flight) {
      RepliesAreExact(now.store, now.flights[schedule[k].flight], schedule[k].key);
    }
  }

  // ---- What the lookups find ----

  /** The live row with this code, or none if there is none. */
  ghost predicate FoundByCode<T>(rows: Table<T>, code: string, seen: Option<Seen<T>>) {
    match seen
    case Some(Seen(id, row)) => id in rows && !rows[id].deleted && rows[id] == row && row.code == Canonical(code)
    case None => forall id | id in rows :: rows[id].deleted || rows[id].code != Canonical(code)
  }

  ghost predicate FoundById<T>(rows: Table<T>, id: nat, seen: Option<Seen<T>>) {
    if id in rows && !rows[id].deleted then seen == Some(Seen(id, rows[id])) else seen == None
  }

  /** The first lookup. */
  lemma ReceiptFound(s: Store, request: Request)
    ensures match request
            case UpdateReceipt(id, _, _, _) => FoundById(s.receipts, id, ReadReceipt(s, request))
            case MoveReceipt(id, _, _) => FoundById(s.receipts, id, ReadReceipt(s, request))
            case DeleteReceipt(id) => FoundById(s.receipts, id, ReadReceipt(s, request))
            case _ => ReadReceipt(s, request).None?
  {
  }

  /** The second lookup. */
  lemma DirectiveFound(s: Store, request: Request, view: View)
    ensures var found, receipt := ReadDirective(s, request, view), view.receipt;
            match request
            case UpdateDirective(id, _, _, _, _) => FoundById(s.directives, id, found)
            case MoveDirective(id, _, _) => FoundById(s.directives, id, found)
            case DeleteDirective(id) => FoundById(s.directives, id, found)
            case CreateReceipt(_, code) => FoundByCode(s.directives, code, found)
            case UpdateReceipt(_, _, _, _) =>
              if receipt.Some? then FoundByCode(s.directives, receipt.value.row.body.directiveCode, found) else found.None?
            case MoveReceipt(_, _, _) =>
              if receipt.Some? && receipt.value.row.status == Pending
              then FoundByCode(s.directives, receipt.value.row.body.directiveCode, found) else found.None?
            case _ => found.None?
  {
  }

  /** The third lookup. */
  lemma GateFound(s: Store, request: Request, view: View)
    ensures var found, directive := ReadGate(s, request, view), view.directive;
            match request
            case UpdateGate(id, _, _, _, _) => FoundById(s.gates, id, found)
            case MoveGate(id, _, _) => FoundById(s.gates, id, found)
            case DeleteGate(id) => FoundById(s.gates, id, found)
            case CreateDirective(_, code, _) => FoundByCode(s.gates, code, found)
            case UpdateDirective(_, _, code, _, _) => FoundByCode(s.gates, code, found)
            case MoveDirective(_, target, _) =>
              if directive.Some? && (target == Executing || (directive.value.row.status == Executing && target == Aborted))
              then FoundByCode(s.gates, directive.value.row.body.gateCode, found) else found.None?
            case MoveReceipt(_, _, _) =>
              if directive.Some? then FoundByCode(s.gates, directive.value.row.body.gateCode, found) else found.None?
            case _ => found.None?
  {
  }

  /** No live receipt answers this directive. */
  predicate NoLiveReceipt(rows: Table<ReceiptBody>, code: string) {
    forall id | id in rows :: rows[id].deleted || rows[id].body.directiveCode != Canonical(code)
  }

  /** The count is zero when and only when no live receipt answers the directive. */
  lemma CountIsZeroIff(rows: Table<ReceiptBody>, code: string)
    ensures CountBySlot(rows, code) == 0 <==> NoLiveReceipt(rows, code)
  {
    var found := set id | id in rows && Live(rows, id) && rows[id].body.directiveCode == Canonical(code);
    if !NoLiveReceipt(rows, code) {
      var id :| id in rows && !rows[id].deleted && rows[id].body.directiveCode == Canonical(code);
      assert id in found;
    } else {
      assert found == {};
    }
  }

  // ---- Creating a receipt ----

  /** The code finds a live executing directive, which no receipt has ever answered. */
  ghost predicate CanBeAnswered(s: Store, code: string) {
    exists d | d in s.directives ::
      && !s.directives[d].deleted && s.directives[d].status == Executing && s.directives[d].code == Canonical(code)
      && forall r | r in s.receipts :: s.receipts[r].body.directiveCode != s.directives[d].code
  }

  lemma ReceiptView(s: Store, form: Form, code: string) returns (directive: Option<Seen<DirectiveBody>>, slots: nat)
    ensures ViewNow(s, CreateReceipt(form, code)) == View(None, directive, None, slots)
    ensures FoundByCode(s.directives, code, directive)
    ensures directive.Some? ==> (slots == 0 <==> NoLiveReceipt(s.receipts, directive.value.row.code))
  {
    var view := ViewNow(s, CreateReceipt(form, code));
    directive, slots := view.directive, view.slots;
    DirectiveFound(s, CreateReceipt(form, code), NOTHING_READ);
    if directive.Some? {
      CountIsZeroIff(s.receipts, directive.value.row.code);
    }
  }

  lemma StoredReceiptIsCreatedIff(s: Store, form: Form, code: string, caller: Caller, key: nat)
    requires AllCodesUnique(s) && CodesCanonical(s.directives) && Filled(form.code, form)
    ensures AtomicStep(s, CreateReceipt(form, code), caller, key).Ok?
            <==> CanBeAnswered(s, code) && !Taken(s.receipts, key, form.code)
  {
    var directive, slots := ReceiptView(s, form, code);
    var f := Uninterrupted(s, CreateReceipt(form, code), caller);
    ReceiptCreationsAreExact(s, f, key);
    assert AtomicStep(s, CreateReceipt(form, code), caller, key) == Attempt(s, f, key);
    if directive.Some? && CanBeAnswered(s, code) {
      OnlyOneReplied(s, code, directive.value);
    }
  }

  /** In every reachable state an uninterrupted creation with a complete form succeeds if
      and only if its code finds a live executing directive that no receipt, live or
      deleted, answers, and its own code and key are free. */
  lemma ReceiptIsCreatedIff(schedule: seq<Event>, form: Form, code: string, caller: Caller, key: nat)
    requires HonestSchedule(schedule) && Filled(form.code, form)
    ensures var s := Exec(schedule).store;
            AtomicStep(s, CreateReceipt(form, code), caller, key).Ok?
            <==> CanBeAnswered(s, code) && !Taken(s.receipts, key, form.code)
  {
    AlwaysInv(schedule);
    CodesStayUnique(schedule);
    StoredReceiptIsCreatedIff(Exec(schedule).store, form, code, caller, key);
  }

  lemma OnlyOneReplied(s: Store, code: string, directive: Seen<DirectiveBody>)
    requires AllCodesUnique(s) && FoundByCode(s.directives, code, Some(directive)) && CanBeAnswered(s, code)
    ensures directive.row.status == Executing
    ensures forall r | r in s.receipts :: s.receipts[r].body.directiveCode != directive.row.code
  {
    var d :| d in s.directives && !s.directives[d].deleted && s.directives[d].status == Executing
             && s.directives[d].code == Canonical(code)
             && forall r | r in s.receipts :: s.receipts[r].body.directiveCode != s.directives[d].code;
    assert d == directive.id;
  }
}
