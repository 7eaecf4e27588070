/** What one transaction does to the store: conditional row updates, inserts
    under unique indexes that count soft-deleted rows, soft deletes, evidence
    and audit rows. Either every part is applied or none. */
module Repository {
  import opened Statuses
  import opened Rows
  import opened Text

  /** A row as a request read it. */
  datatype Seen<+T> = Seen(id: nat, row: Row<T>)

  /** One row write and the audit entry that goes with it. */
  datatype Change<+T> =
    | Insert(row: Row<T>)
    | Update(id: nat, expected: nat, row: Row<T>, action: Action, before: Status)
    | Remove(id: nat, before: Status)

  datatype Plan = Plan(actor: string, receipt: Option<Change<ReceiptBody>>,
                       directive: Option<Change<DirectiveBody>>, approval: Option<Approval>,
                       gate: Option<Change<GateBody>>)

  predicate Live<T>(rows: Table<T>, id: nat) {
    id in rows && !rows[id].deleted
  }

  predicate CodeTaken<T>(rows: Table<T>, code: string) {
    exists id | id in rows :: rows[id].code == code
  }

  predicate SlotTaken(rows: Table<ReceiptBody>, own: nat, slot: string) {
    exists id | id in rows :: id != own && rows[id].body.directiveCode == slot
  }

  predicate StageTaken(approvals: seq<Approval>, directive: nat, stage: Stage) {
    exists i | 0 <= i < |approvals| :: approvals[i].directive == directive && approvals[i].stage == stage
  }

  /** `UPDATE … WHERE id = ? AND version = ?`: code and deletion mark are not written. */
  function Cas<T>(rows: Table<T>, id: nat, expected: nat, item: Row<T>): Outcome<Table<T>> {
    if Live(rows, id) && rows[id].version == expected
    then Ok(rows[id := item.(code := rows[id].code, deleted := false)])
    else Err(VersionConflict)
  }

  function InsertRow<T>(rows: Table<T>, key: nat, row: Row<T>): Outcome<Table<T>> {
    if key in rows || CodeTaken(rows, row.code) then Err(Duplicate) else Ok(rows[key := row])
  }

  function RemoveRow<T>(rows: Table<T>, id: nat): Outcome<Table<T>> {
    if Live(rows, id) then Ok(rows[id := rows[id].(deleted := true)]) else Err(NotFound)
  }

  /** `key` is the key the database hands out for an inserted row. */
  function Apply<T>(rows: Table<T>, change: Change<T>, key: nat): Outcome<Table<T>> {
    match change
    case Insert(row) => InsertRow(rows, key, row)
    case Update(id, expected, row, _, _) => Cas(rows, id, expected, row)
    case Remove(id, _) => RemoveRow(rows, id)
  }

  function ApplyAny<T>(rows: Table<T>, change: Option<Change<T>>, key: nat): Outcome<Table<T>> {
    match change
    case None => Ok(rows)
    case Some(c) => Apply(rows, c, key)
  }

  function Target<T>(change: Change<T>, key: nat): nat {
    if change.Insert? then key else change.id
  }

  /** Receipts have a second unique index, on the directive they answer. */
  function ApplyReceipt(rows: Table<ReceiptBody>, change: Option<Change<ReceiptBody>>, key: nat)
    : Outcome<Table<ReceiptBody>>
  {
    var next :- ApplyAny(rows, change, key);
    if change.Some? && !change.value.Remove?
       && SlotTaken(rows, Target(change.value, key), change.value.row.body.directiveCode)
    then Err(Duplicate)
    else Ok(next)
  }

  function AppendApproval(approvals: seq<Approval>, entry: Option<Approval>): Outcome<seq<Approval>> {
    match entry
    case None => Ok(approvals)
    case Some(a) => if StageTaken(approvals, a.directive, a.stage) then Err(Duplicate) else Ok(approvals + [a])
  }

  function Entry<T>(kind: Kind, change: Change<T>, key: nat, actor: string): Audit {
    match change
    case Insert(row) => Audit(kind, key, Created, Blank, row.status, actor)
    case Update(id, _, row, action, before) => Audit(kind, id, action, before, row.status, actor)
    case Remove(id, before) => Audit(kind, id, Removed, before, Deleted, actor)
  }

  function Log<T>(audits: seq<Audit>, kind: Kind, change: Option<Change<T>>, key: nat, actor: string): seq<Audit> {
    match change
    case None => audits
    case Some(c) => audits + [Entry(kind, c, key, actor)]
  }

  function LogAll(audits: seq<Audit>, plan: Plan, key: nat): seq<Audit> {
    Log(Log(Log(audits, ExecutionConfirmation, plan.receipt, key, plan.actor),
            OperationDirective, plan.directive, key, plan.actor),
        GateUnit, plan.gate, key, plan.actor)
  }

  /** Check everything, then write everything. */
  function Commit(store: Store, plan: Plan, key: nat): Outcome<Store> {
    var receipts :- ApplyReceipt(store.receipts, plan.receipt, key);
    var directives :- ApplyAny(store.directives, plan.directive, key);
    var approvals :- AppendApproval(store.approvals, plan.approval);
    var gates :- ApplyAny(store.gates, plan.gate, key);
    Ok(Store(gates, directives, receipts, approvals, LogAll(store.audits, plan, key)))
  }

  // ---- Lookups: soft-deleted rows are invisible ----

  function ById<T>(rows: Table<T>, id: nat): Option<Seen<T>> {
    if Live(rows, id) then Some(Seen(id, rows[id])) else None
  }

  ghost function ByCode<T>(rows: Table<T>, code: string): (found: Option<Seen<T>>)
    ensures found.Some? ==> Live(rows, found.value.id) && found.value.row == rows[found.value.id]
                            && found.value.row.code == Canonical(code)
    ensures found.None? ==> forall id | Live(rows, id) :: rows[id].code != Canonical(code)
  {
    if id: nat :| Live(rows, id) && rows[id].code == Canonical(code) then Some(Seen(id, rows[id])) else None
  }

  function CountBySlot(rows: Table<ReceiptBody>, code: string): nat {
    |set id | id in rows && Live(rows, id) && rows[id].body.directiveCode == Canonical(code)|
  }
}
