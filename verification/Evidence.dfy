/** The two-person rule: the evidence rows of a directive say who submitted and
    who approved it, and they agree with the directive at every status. */
module Evidence {
  import opened Statuses
  import opened Rows
  import opened Text
  import opened Repository
  import opened Services
  import opened Locking

  /** The evidence of one directive, oldest first. */
  function EvidenceOf(approvals: seq<Approval>, id: nat): seq<Approval> {
    if approvals == [] then []
    else
      var n := |approvals| - 1;
      EvidenceOf(approvals[..n], id) + (if approvals[n].directive == id then [approvals[n]] else [])
  }

  predicate SubmissionOf(a: Approval, id: nat, actor: string) {
    a.directive == id && a.stage == Submitted && a.actor == actor && actor != ""
    && (a.role == Operator || a.role == Admin) && a.before == Draft && a.after == Pending
  }

  predicate EndorsementOf(a: Approval, id: nat, actor: string) {
    a.directive == id && a.stage == Endorsed && a.actor == actor && actor != ""
    && (a.role == Reviewer || a.role == Admin) && a.before == Pending && a.after == Approved
  }

  predicate OnlySubmitted(id: nat, body: DirectiveBody, evidence: seq<Approval>) {
    |evidence| == 1 && SubmissionOf(evidence[0], id, body.submittedBy) && body.approvedBy == ""
  }

  /** Two people, in two roles. */
  predicate TwoPersons(id: nat, body: DirectiveBody, evidence: seq<Approval>) {
    |evidence| == 2 && SubmissionOf(evidence[0], id, body.submittedBy)
    && EndorsementOf(evidence[1], id, body.approvedBy)
    && !EqualFold(body.submittedBy, body.approvedBy)
  }

  predicate EvidenceFits(id: nat, row: Directive, evidence: seq<Approval>) {
    match row.status
    case Draft => evidence == [] && row.body.submittedBy == "" && row.body.approvedBy == ""
    case Pending => OnlySubmitted(id, row.body, evidence)
    case Approved => TwoPersons(id, row.body, evidence)
    case Executing => TwoPersons(id, row.body, evidence)
    case Completed => TwoPersons(id, row.body, evidence)
    case Aborted => OnlySubmitted(id, row.body, evidence) || TwoPersons(id, row.body, evidence)
    case _ => false
  }

  ghost predicate ApprovalsKnown(approvals: seq<Approval>, directives: Table<DirectiveBody>) {
    forall a | a in approvals :: a.directive in directives
  }

  ghost predicate EvidenceHolds(directives: Table<DirectiveBody>, approvals: seq<Approval>) {
    && ApprovalsKnown(approvals, directives)
    && forall id | id in directives :: EvidenceFits(id, directives[id], EvidenceOf(approvals, id))
  }

  // ---- How a directive row moves ----

  predicate SameSignatures(a: DirectiveBody, b: DirectiveBody) {
    a.submittedBy == b.submittedBy && a.approvedBy == b.approvedBy
  }

  /** From row `a` to row `b`, leaving `approval` as evidence. */
  predicate DirectiveMove(id: nat, a: Directive, b: Directive, approval: Option<Approval>) {
    match b.status
    case Draft => a.status == Draft && approval.None? && SameSignatures(a.body, b.body)
    case Pending =>
      && a.status == Draft && approval.Some?
      && b.body == a.body.(submittedBy := b.body.submittedBy)
      && SubmissionOf(approval.value, id, b.body.submittedBy)
    case Approved =>
      && a.status == Pending && approval.Some?
      && b.body == a.body.(approvedBy := b.body.approvedBy)
      && EndorsementOf(approval.value, id, b.body.approvedBy)
      && !EqualFold(b.body.submittedBy, b.body.approvedBy)
    case Executing => a.status == Approved && approval.None? && b.body == a.body
    case Completed => a.status == Executing && approval.None? && b.body == a.body
    case Aborted =>
      (a.status == Pending || a.status == Approved || a.status == Executing) && approval.None? && b.body == a.body
    case _ => false
  }

  predicate DirectiveChange(change: Option<Change<DirectiveBody>>, seen: Option<Seen<DirectiveBody>>,
                            approval: Option<Approval>) {
    match change
    case None => approval.None?
    case Some(Insert(row)) =>
      approval.None? && row.status == Draft && row.version == 1 && !row.deleted
      && row.body.submittedBy == "" && row.body.approvedBy == ""
    case Some(Update(id, _, row, _, _)) => seen.Some? && id == seen.value.id
                                           && DirectiveMove(id, seen.value.row, row, approval)
    case Some(Remove(_, _)) => approval.None?
  }

  lemma DecidedDirectiveChanges(request: Request, caller: Caller, view: View)
    requires Decide(request, caller, view).Ok?
    ensures var plan := Decide(request, caller, view).value;
            DirectiveChange(plan.directive, view.directive, plan.approval)
  {
    match request
    case MoveDirective(_, target, _) => DirectiveEdges(view.directive.value.row.status, target);
    case _ =>
  }

  /** Where each role may take a directive. */
  function MayMoveTo(role: Role): set<Status> {
    match role
    case Viewer => {}
    case Operator => {Pending, Executing, Aborted}
    case Reviewer => {Approved, Aborted}
    case Admin => {Pending, Approved, Executing, Aborted}
  }

  /** A move along an edge is refused for the role exactly when the role may not
      make it; nobody but a receipt completes a directive. */
  lemma AcceptedMovesHaveRoles(caller: Caller, view: View, target: Status, expected: nat)
    requires view.directive.Some? && CanTransition(DIRECTIVE_GRAPH, view.directive.value.row.status, target)
    ensures var decision := DecideMoveDirective(caller, view, target, expected);
            && (decision.Ok? ==> target in MayMoveTo(caller.role))
            && (decision == Err(Forbidden) <==> target != Completed && target !in MayMoveTo(caller.role))
  {
    DirectiveEdges(view.directive.value.row.status, target);
  }

  /** Two different people sign. */
  predicate SecondPerson(body: DirectiveBody, actor: string) {
    body.submittedBy != "" && !EqualFold(body.submittedBy, actor)
  }

  /** When the linked gate is in one of its four statuses, its graph refuses nothing:
      a move needs an edge, the role, a second person to approve, a gate that is not
      locked to start executing, and a gate to abort an execution. */
  lemma MovesAreAcceptedIff(caller: Caller, view: View, target: Status, expected: nat)
    requires view.directive.Some? && (view.gate.Some? ==> KnownGateStatus(view.gate.value.row.status))
    ensures var current := view.directive.value.row;
            DecideMoveDirective(caller, view, target, expected).Ok?
            <==> && CanTransition(DIRECTIVE_GRAPH, current.status, target)
                 && target in MayMoveTo(caller.role)
                 && (target == Approved ==> SecondPerson(current.body, caller.actor))
                 && (target == Executing ==> view.gate.Some? && view.gate.value.row.status != Locked)
                 && (current.status == Executing ==> view.gate.Some?)
  {
    var current := view.directive.value.row;
    DirectiveEdges(current.status, target);
    if view.gate.Some? {
      GateEdges(view.gate.value.row.status, Moving);
      GateEdges(view.gate.value.row.status, Locked);
    }
  }

  // ---- One transaction ----

  lemma EvidenceExtended(approvals: seq<Approval>, a: Approval, id: nat)
    ensures EvidenceOf(approvals + [a], id) == EvidenceOf(approvals, id) + (if a.directive == id then [a] else [])
  {
    assert (approvals + [a])[..|approvals|] == approvals;
  }

  lemma {:induction false} UnknownHasNoEvidence(approvals: seq<Approval>, directives: Table<DirectiveBody>, id: nat)
    requires ApprovalsKnown(approvals, directives) && id !in directives
    ensures EvidenceOf(approvals, id) == []
  {
    if approvals != [] {
      var n := |approvals| - 1;
      assert approvals[n] in approvals;
      UnknownHasNoEvidence(approvals[..n], directives, id);
    }
  }

  /** The evidence list is complete: every evidence row of the directive is in it. */
  lemma {:induction false} EvidenceIsComplete(approvals: seq<Approval>, id: nat, i: nat)
    requires i < |approvals| && approvals[i].directive == id
    ensures approvals[i] in EvidenceOf(approvals, id)
  {
    var n := |approvals| - 1;
    if i < n {
      EvidenceIsComplete(approvals[..n], id, i);
    }
  }

  lemma MovedEvidenceFits(id: nat, a: Directive, b: Directive, approval: Option<Approval>, evidence: seq<Approval>)
    requires EvidenceFits(id, a, evidence) && DirectiveMove(id, a, b, approval)
    ensures EvidenceFits(id, b, if approval.Some? then evidence + [approval.value] else evidence)
  {
  }

  /** Evidence of a fresh move is never refused by the unique (directive, stage) index. */
  lemma MoveFindsStageFree(approvals: seq<Approval>, id: nat, a: Directive, b: Directive, approval: Approval)
    requires EvidenceFits(id, a, EvidenceOf(approvals, id)) && DirectiveMove(id, a, b, Some(approval))
    ensures !StageTaken(approvals, id, approval.stage)
  {
    if i :| 0 <= i < |approvals| && approvals[i].directive == id && approvals[i].stage == approval.stage {
      EvidenceIsComplete(approvals, id, i);
    }
  }

  lemma RowEvidenceKept(directives: Table<DirectiveBody>, approvals: seq<Approval>,
                        change: Option<Change<DirectiveBody>>, seen: Option<Seen<DirectiveBody>>,
                        approval: Option<Approval>, key: nat, id: nat)
    requires EvidenceHolds(directives, approvals)
    requires DirectiveChange(change, seen, approval) && FromPresent(change, seen, directives)
    requires ApplyAny(directives, change, key).Ok? && AppendApproval(approvals, approval).Ok?
    requires id in ApplyAny(directives, change, key).value
    ensures EvidenceFits(id, ApplyAny(directives, change, key).value[id],
                         EvidenceOf(AppendApproval(approvals, approval).value, id))
  {
    if approval.Some? {
      EvidenceExtended(approvals, approval.value, id);
    }
    if id !in directives {
      UnknownHasNoEvidence(approvals, directives, id);
    } else if change.Some? && change.value.Update? && change.value.id == id {
      MovedEvidenceFits(id, directives[id], change.value.row, approval, EvidenceOf(approvals, id));
    } else {
      assert EvidenceOf(AppendApproval(approvals, approval).value, id) == EvidenceOf(approvals, id);
    }
  }

  lemma EvidenceKept(directives: Table<DirectiveBody>, approvals: seq<Approval>,
                     change: Option<Change<DirectiveBody>>, seen: Option<Seen<DirectiveBody>>,
                     approval: Option<Approval>, key: nat)
    requires EvidenceHolds(directives, approvals)
    requires DirectiveChange(change, seen, approval) && FromPresent(change, seen, directives)
    requires ApplyAny(directives, change, key).Ok? && AppendApproval(approvals, approval).Ok?
    ensures EvidenceHolds(ApplyAny(directives, change, key).value, AppendApproval(approvals, approval).value)
  {
    var next := ApplyAny(directives, change, key).value;
    forall id | id in next
      ensures EvidenceFits(id, next[id], EvidenceOf(AppendApproval(approvals, approval).value, id))
    {
      RowEvidenceKept(directives, approvals, change, seen, approval, key, id);
    }
  }
}
