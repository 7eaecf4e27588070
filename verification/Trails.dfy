/** The audit log replays to the store: per row, its entries chain from creation
    to the present status along the transition graph, one entry per version. */
module Trails {
  import opened Statuses
  import opened Rows
  import opened Repository
  import opened Services
  import opened Locking

  /** The entries about one row, in commit order, without deletions. */
  function Trail(audits: seq<Audit>, kind: Kind, id: nat): seq<Audit> {
    if audits == [] then []
    else
      var n := |audits| - 1;
      Trail(audits[..n], kind, id) + (if About(audits[n], kind, id) then [audits[n]] else [])
  }

  predicate About(a: Audit, kind: Kind, id: nat) {
    a.kind == kind && a.id == id && a.action != Removed
  }

  lemma TrailOfExtended(audits: seq<Audit>, a: Audit, kind: Kind, id: nat)
    ensures Trail(audits + [a], kind, id)
            == Trail(audits, kind, id) + (if About(a, kind, id) then [a] else [])
  {
    assert (audits + [a])[..|audits|] == audits;
  }

  ghost predicate Chained(graph: Graph, trail: seq<Audit>) {
    forall i | 0 < i < |trail| ::
      trail[i].before == trail[i - 1].after && StaysOrSteps(graph, trail[i].before, trail[i].after)
  }

  /** The trail starts with the creation, follows the graph and ends at `status`;
      it has one entry for every version. */
  ghost predicate Replays(graph: Graph, initial: Status, trail: seq<Audit>, status: Status, version: nat) {
    && |trail| == version && version > 0
    && trail[0].action == Created && trail[0].before == Blank && trail[0].after == initial
    && (forall i | 0 < i < version :: trail[i].action != Created)
    && Chained(graph, trail)
    && trail[version - 1].after == status
  }

  ghost predicate LogKnows<T>(audits: seq<Audit>, kind: Kind, rows: Table<T>) {
    forall a | a in audits && a.kind == kind :: a.id in rows
  }

  ghost predicate TableReplays<T>(audits: seq<Audit>, kind: Kind, graph: Graph, initial: Status, rows: Table<T>) {
    && LogKnows(audits, kind, rows)
    && forall id | id in rows :: Replays(graph, initial, Trail(audits, kind, id), rows[id].status, rows[id].version)
  }

  ghost predicate LogReplays(store: Store) {
    && TableReplays(store.audits, GateUnit, GATE_GRAPH, Open, store.gates)
    && TableReplays(store.audits, OperationDirective, DIRECTIVE_GRAPH, Draft, store.directives)
    && TableReplays(store.audits, ExecutionConfirmation, RECEIPT_GRAPH, Pending, store.receipts)
  }

  // ---- One write ----

  /** A change that starts a row at its initial status or takes the row read one
      edge further, or keeps its status. */
  ghost predicate Stepwise<T>(graph: Graph, initial: Status, change: Option<Change<T>>, seen: Option<Seen<T>>) {
    change.Some? ==>
      match change.value
      case Insert(row) => row.status == initial && row.version == 1 && !row.deleted
      case Update(id, expected, row, action, before) =>
        && row.version == expected + 1
        && action != Created && action != Removed
        && seen.Some? && id == seen.value.id && before == seen.value.row.status
        && StaysOrSteps(graph, before, row.status)
      case Remove(id, before) => true
  }

  ghost predicate StepwisePlan(plan: Plan, view: View) {
    && Stepwise(GATE_GRAPH, Open, plan.gate, view.gate)
    && Stepwise(DIRECTIVE_GRAPH, Draft, plan.directive, view.directive)
    && Stepwise(RECEIPT_GRAPH, Pending, plan.receipt, view.receipt)
  }

  lemma ReceiptMovesAreStepwise(caller: Caller, view: View, target: Status, expected: nat)
    requires DecideMoveReceipt(caller, view, target, expected).Ok?
    ensures StepwisePlan(DecideMoveReceipt(caller, view, target, expected).value, view)
  {
    DirectiveEdges(Executing, Completed);
    DirectiveEdges(Executing, Aborted);
  }

  lemma GateEditsAreStepwise(caller: Caller, view: View, form: Form, code: string, reservoir: Option<Reservoir>, expected: nat)
    requires DecideUpdateGate(caller, view, form, code, reservoir, expected).Ok?
    ensures StepwisePlan(DecideUpdateGate(caller, view, form, code, reservoir, expected).value, view)
  {
  }

  lemma DirectiveEditsAreStepwise(caller: Caller, view: View, form: Form, code: string, state: Option<GateTarget>, expected: nat)
    requires DecideUpdateDirective(caller, view, form, code, state, expected).Ok?
    ensures StepwisePlan(DecideUpdateDirective(caller, view, form, code, state, expected).value, view)
  {
  }

  lemma ReceiptEditsAreStepwise(caller: Caller, view: View, form: Form, code: string, expected: nat)
    requires DecideUpdateReceipt(caller, view, form, code, expected).Ok?
    ensures StepwisePlan(DecideUpdateReceipt(caller, view, form, code, expected).value, view)
  {
  }

  lemma DirectiveMovesAreStepwise(caller: Caller, view: View, target: Status, expected: nat)
    requires DecideMoveDirective(caller, view, target, expected).Ok?
    ensures StepwisePlan(DecideMoveDirective(caller, view, target, expected).value, view)
  {
  }

  lemma DecidedPlansAreStepwise(request: Request, caller: Caller, view: View)
    requires Decide(request, caller, view).Ok?
    ensures StepwisePlan(Decide(request, caller, view).value, view)
  {
    match request
    case UpdateGate(_, form, code, reservoir, expected) =>
      GateEditsAreStepwise(caller, view, form, code, reservoir, expected);
    case UpdateDirective(_, form, code, state, expected) =>
      DirectiveEditsAreStepwise(caller, view, form, code, state, expected);
    case UpdateReceipt(_, form, code, expected) => ReceiptEditsAreStepwise(caller, view, form, code, expected);
    case MoveReceipt(_, target, expected) => ReceiptMovesAreStepwise(caller, view, target, expected);
    case MoveDirective(_, target, expected) => DirectiveMovesAreStepwise(caller, view, target, expected);
    case _ =>
  }

  lemma {:induction false} UnknownHasNoTrail<T>(audits: seq<Audit>, kind: Kind, rows: Table<T>, id: nat)
    requires LogKnows(audits, kind, rows) && id !in rows
    ensures Trail(audits, kind, id) == []
  {
    if audits != [] {
      var n := |audits| - 1;
      assert audits[n] in audits;
      UnknownHasNoTrail(audits[..n], kind, rows, id);
    }
  }

  lemma ReplayExtended(graph: Graph, initial: Status, trail: seq<Audit>, status: Status, version: nat, a: Audit)
    requires Replays(graph, initial, trail, status, version)
    requires a.before == status && StaysOrSteps(graph, a.before, a.after) && a.action != Created
    ensures Replays(graph, initial, trail + [a], a.after, version + 1)
  {
  }

  lemma TrailOfOtherKind<U>(audits: seq<Audit>, kind: Kind, other: Kind, change: Change<U>, key: nat, actor: string, id: nat)
    requires other != kind
    ensures Trail(audits + [Entry(other, change, key, actor)], kind, id) == Trail(audits, kind, id)
  {
    TrailOfExtended(audits, Entry(other, change, key, actor), kind, id);
  }

  lemma LogOfOtherKind<T, U>(audits: seq<Audit>, kind: Kind, graph: Graph, initial: Status, rows: Table<T>,
                             other: Kind, change: Option<Change<U>>, key: nat, actor: string)
    requires other != kind && TableReplays(audits, kind, graph, initial, rows)
    ensures TableReplays(Log(audits, other, change, key, actor), kind, graph, initial, rows)
  {
    if change.Some? {
      forall id
        ensures Trail(audits + [Entry(other, change.value, key, actor)], kind, id) == Trail(audits, kind, id)
      {
        TrailOfOtherKind(audits, kind, other, change.value, key, actor, id);
      }
    }
  }

  lemma FirstEntryReplays(graph: Graph, initial: Status, trail: seq<Audit>, a: Audit)
    requires trail == [a] && a.action == Created && a.before == Blank && a.after == initial
    ensures Replays(graph, initial, trail, initial, 1)
  {
  }

  /** One row through one change of its table, in terms of the trail alone. */
  lemma RowReplaysOn<T>(graph: Graph, initial: Status, rows: Table<T>, change: Change<T>, seen: Option<Seen<T>>,
                        key: nat, actor: string, kind: Kind, id: nat, before: seq<Audit>)
    requires Stepwise(graph, initial, Some(change), seen) && FromPresent(Some(change), seen, rows)
    requires Apply(rows, change, key).Ok? && id in Apply(rows, change, key).value
    requires if id in rows then Replays(graph, initial, before, rows[id].status, rows[id].version) else before == []
    ensures var row := Apply(rows, change, key).value[id];
            var entry := Entry(kind, change, key, actor);
            Replays(graph, initial, before + (if About(entry, kind, id) then [entry] else []), row.status, row.version)
  {
    var entry := Entry(kind, change, key, actor);
    if id !in rows {
      assert before + [entry] == [entry];
      FirstEntryReplays(graph, initial, before + [entry], entry);
    } else if About(entry, kind, id) {
      assert change.Update?;
      ReplayExtended(graph, initial, before, rows[id].status, rows[id].version, entry);
    } else {
      assert before + [] == before;
    }
  }

  lemma RowOfChange<T>(audits: seq<Audit>, kind: Kind, graph: Graph, initial: Status, rows: Table<T>,
                       change: Change<T>, seen: Option<Seen<T>>, key: nat, actor: string, id: nat)
    requires TableReplays(audits, kind, graph, initial, rows)
    requires Stepwise(graph, initial, Some(change), seen) && FromPresent(Some(change), seen, rows)
    requires Apply(rows, change, key).Ok? && id in Apply(rows, change, key).value
    ensures var row := Apply(rows, change, key).value[id];
            Replays(graph, initial, Trail(audits + [Entry(kind, change, key, actor)], kind, id), row.status, row.version)
  {
    TrailOfExtended(audits, Entry(kind, change, key, actor), kind, id);
    if id !in rows {
      UnknownHasNoTrail(audits, kind, rows, id);
    }
    RowReplaysOn(graph, initial, rows, change, seen, key, actor, kind, id, Trail(audits, kind, id));
  }

  lemma LogOfChange<T>(audits: seq<Audit>, kind: Kind, graph: Graph, initial: Status, rows: Table<T>,
                       change: Option<Change<T>>, seen: Option<Seen<T>>, key: nat, actor: string)
    requires TableReplays(audits, kind, graph, initial, rows)
    requires Stepwise(graph, initial, change, seen) && FromPresent(change, seen, rows)
    requires ApplyAny(rows, change, key).Ok?
    ensures TableReplays(Log(audits, kind, change, key, actor), kind, graph, initial, ApplyAny(rows, change, key).value)
  {
    if change.Some? {
      var next := ApplyAny(rows, change, key).value;
      forall id | id in next
        ensures Replays(graph, initial, Trail(audits + [Entry(kind, change.value, key, actor)], kind, id),
                        next[id].status, next[id].version)
      {
        RowOfChange(audits, kind, graph, initial, rows, change.value, seen, key, actor, id);
      }
    }
  }

  lemma ReceiptLogReplays(store: Store, plan: Plan, view: View, key: nat)
    requires TableReplays(store.audits, ExecutionConfirmation, RECEIPT_GRAPH, Pending, store.receipts)
    requires Stepwise(RECEIPT_GRAPH, Pending, plan.receipt, view.receipt)
    requires FromPresent(plan.receipt, view.receipt, store.receipts) && ApplyAny(store.receipts, plan.receipt, key).Ok?
    ensures TableReplays(LogAll(store.audits, plan, key), ExecutionConfirmation, RECEIPT_GRAPH, Pending,
                         ApplyAny(store.receipts, plan.receipt, key).value)
  {
    var next := ApplyAny(store.receipts, plan.receipt, key).value;
    var a1 := Log(store.audits, ExecutionConfirmation, plan.receipt, key, plan.actor);
    var a2 := Log(a1, OperationDirective, plan.directive, key, plan.actor);
    LogOfChange(store.audits, ExecutionConfirmation, RECEIPT_GRAPH, Pending, store.receipts, plan.receipt, view.receipt, key, plan.actor);
    LogOfOtherKind(a1, ExecutionConfirmation, RECEIPT_GRAPH, Pending, next, OperationDirective, plan.directive, key, plan.actor);
    LogOfOtherKind(a2, ExecutionConfirmation, RECEIPT_GRAPH, Pending, next, GateUnit, plan.gate, key, plan.actor);
  }

  lemma DirectiveLogReplays(store: Store, plan: Plan, view: View, key: nat)
    requires TableReplays(store.audits, OperationDirective, DIRECTIVE_GRAPH, Draft, store.directives)
    requires Stepwise(DIRECTIVE_GRAPH, Draft, plan.directive, view.directive)
    requires FromPresent(plan.directive, view.directive, store.directives) && ApplyAny(store.directives, plan.directive, key).Ok?
    ensures TableReplays(LogAll(store.audits, plan, key), OperationDirective, DIRECTIVE_GRAPH, Draft,
                         ApplyAny(store.directives, plan.directive, key).value)
  {
    var next := ApplyAny(store.directives, plan.directive, key).value;
    var a1 := Log(store.audits, ExecutionConfirmation, plan.receipt, key, plan.actor);
    var a2 := Log(a1, OperationDirective, plan.directive, key, plan.actor);
    LogOfOtherKind(store.audits, OperationDirective, DIRECTIVE_GRAPH, Draft, store.directives,
                   ExecutionConfirmation, plan.receipt, key, plan.actor);
    LogOfChange(a1, OperationDirective, DIRECTIVE_GRAPH, Draft, store.directives, plan.directive, view.directive, key, plan.actor);
    LogOfOtherKind(a2, OperationDirective, DIRECTIVE_GRAPH, Draft, next, GateUnit, plan.gate, key, plan.actor);
  }

  lemma GateLogReplays(store: Store, plan: Plan, view: View, key: nat)
    requires TableReplays(store.audits, GateUnit, GATE_GRAPH, Open, store.gates)
    requires Stepwise(GATE_GRAPH, Open, plan.gate, view.gate)
    requires FromPresent(plan.gate, view.gate, store.gates) && ApplyAny(store.gates, plan.gate, key).Ok?
    ensures TableReplays(LogAll(store.audits, plan, key), GateUnit, GATE_GRAPH, Open,
                         ApplyAny(store.gates, plan.gate, key).value)
  {
    var a1 := Log(store.audits, ExecutionConfirmation, plan.receipt, key, plan.actor);
    var a2 := Log(a1, OperationDirective, plan.directive, key, plan.actor);
    LogOfOtherKind(store.audits, GateUnit, GATE_GRAPH, Open, store.gates, ExecutionConfirmation, plan.receipt, key, plan.actor);
    LogOfOtherKind(a1, GateUnit, GATE_GRAPH, Open, store.gates, OperationDirective, plan.directive, key, plan.actor);
    LogOfChange(a2, GateUnit, GATE_GRAPH, Open, store.gates, plan.gate, view.gate, key, plan.actor);
  }

  lemma CommitKeepsLogReplays(store: Store, plan: Plan, view: View, key: nat)
    requires LogReplays(store) && PlanFromPresent(plan, view, store)
    requires StepwisePlan(plan, view)
    requires Commit(store, plan, key).Ok?
    ensures LogReplays(Commit(store, plan, key).value)
  {
    ReceiptLogReplays(store, plan, view, key);
    DirectiveLogReplays(store, plan, view, key);
    GateLogReplays(store, plan, view, key);
  }
}
