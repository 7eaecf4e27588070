/** The stored entities: versioned rows of three tables, approval evidence and
    the audit log, together with the outcomes an operation can have. */
module Rows {
  import opened Statuses

  datatype Option<+T> = None | Some(value: T)

  datatype Error =
    | NotFound | InvalidInput | InvalidTransition | Forbidden
    | TwoPersonRequired | ImmutableState
    | VersionConflict | Duplicate | Unavailable

  datatype Outcome<+T> = Ok(value: T) | Err(error: Error) {
    predicate IsFailure() {
      Err?
    }

    function PropagateFailure<U>(): Outcome<U>
      requires Err?
    {
      Err(error)
    }

    function Extract(): T
      requires Ok?
    {
      value
    }
  }

  datatype Role = Viewer | Operator | Reviewer | Admin

  /** Names of authenticated users are never empty. */
  type Actor = name: string | name != "" witness "operator"

  type GateTarget = s: Status | s == Open || s == Closed || s == Locked witness Closed

  datatype Business = Business(name: string, facility: string, owner: string,
                               category: string, risk: string, details: string)

  /** The header every entity shares, around its own fields. A soft-deleted row
      stays in its table with `deleted` set. */
  datatype Row<+T> = Row(code: string, status: Status, version: nat, deleted: bool, body: T)

  datatype GateBody = GateBody(business: Business, reservoirCode: string)

  datatype DirectiveBody = DirectiveBody(business: Business, gateCode: string, target: GateTarget,
                                         submittedBy: string, approvedBy: string)

  datatype ReceiptBody = ReceiptBody(business: Business, directiveCode: string, confirmedBy: string)

  type Gate = Row<GateBody>
  type Directive = Row<DirectiveBody>
  type Receipt = Row<ReceiptBody>

  type Table<T> = map<nat, Row<T>>

  datatype Stage = Submitted | Endorsed

  datatype Approval = Approval(directive: nat, stage: Stage, actor: string, role: Role,
                               before: Status, after: Status)

  datatype Kind = GateUnit | OperationDirective | ExecutionConfirmation

  datatype Action = Created | Updated | Transitioned | DirectiveExecution | ExecutionOutcome | Removed

  datatype Audit = Audit(kind: Kind, id: nat, action: Action, before: Status, after: Status, actor: string)

  datatype Store = Store(gates: Table<GateBody>, directives: Table<DirectiveBody>,
                         receipts: Table<ReceiptBody>, approvals: seq<Approval>, audits: seq<Audit>)

  const EMPTY_STORE := Store(map[], map[], map[], [], [])
}
