/** What the history of a run shows under honest clients: the audit log replays
    to the rows along the graphs, orders are frozen, two people signed, and the
    amount of work is bounded. */
module History {
  import opened Statuses
  import opened Rows
  import opened Repository
  import opened Dispatch
  import opened Locking
  import opened Trails
  import opened Evidence
  import opened FrozenOrder
  import opened Workflow

  // ---- Audit log ----

  /** For every row of every table the audit log replays to it. */
  lemma AuditLogReplays(schedule: seq<Event>)
    requires HonestSchedule(schedule)
    ensures LogReplays(Exec(schedule).store)
  {
    AlwaysInv(schedule);
  }

  ghost predicate RowsStayOrStep<T>(graph: Graph, s: Table<T>, t: Table<T>) {
    forall id | id in s :: id in t && StaysOrSteps(graph, s[id].status, t[id].status)
  }

  ghost predicate StoreStaysOrSteps(s: Store, t: Store) {
    && RowsStayOrStep(GATE_GRAPH, s.gates, t.gates)
    && RowsStayOrStep(DIRECTIVE_GRAPH, s.directives, t.directives)
    && RowsStayOrStep(RECEIPT_GRAPH, s.receipts, t.receipts)
  }

  lemma ApplyStaysOrSteps<T>(graph: Graph, initial: Status, rows: Table<T>, change: Option<Change<T>>,
                             seen: Option<Seen<T>>, key: nat)
    requires Stepwise(graph, initial, change, seen) && FromPresent(change, seen, rows)
    requires ApplyAny(rows, change, key).Ok?
    ensures RowsStayOrStep(graph, rows, ApplyAny(rows, change, key).value)
  {
  }

  lemma AttemptStaysOrSteps(store: Store, f: Flight, key: nat)
    requires FlightInv(f, store) && Honest(f)
    ensures StoreStaysOrSteps(store, StoreAfter(store, f, key))
  {
    if Attempt(store, f, key).Ok? {
      var plan := HonestPlan(store, f, key);
      AttemptApplies(store, f, key);
      ApplyStaysOrSteps(GATE_GRAPH, Open, store.gates, plan.gate, f.view.gate, key);
      ApplyStaysOrSteps(DIRECTIVE_GRAPH, Draft, store.directives, plan.directive, f.view.directive, key);
      ApplyStaysOrSteps(RECEIPT_GRAPH, Pending, store.receipts, plan.receipt, f.view.receipt, key);
    }
  }

  lemma StepStaysOrSteps(system: System, event: Event)
    requires SystemInv(system) && HonestEvent(system, event)
    ensures StoreStaysOrSteps(system.store, Step(system, event).store)
  {
    if Succeeds(system, event) {
      AttemptStaysOrSteps(system.store, system.flights[event.flight], event.key);
    } else {
      assert Step(system, event).store == system.store;
    }
  }

  /** Every event leaves every row at its status or takes it along one edge of
      its graph, whichever service writes it. */
  lemma StatusHistoriesAreWalks(schedule: seq<Event>, n: nat)
    requires HonestSchedule(schedule) && n < |schedule|
    ensures StoreStaysOrSteps(Exec(schedule[..n]).store, Exec(schedule[..n + 1]).store)
  {
    HonestPrefix(schedule, n);
    AlwaysInv(schedule[..n]);
    assert schedule[..n + 1][..n] == schedule[..n];
    StepStaysOrSteps(Exec(schedule[..n]), schedule[n]);
  }

  // ---- Frozen orders ----

  /** Once out of draft, the order of a directive never changes again. */
  lemma OrdersAreFrozen(schedule: seq<Event>, n: nat, d: nat)
    requires HonestSchedule(schedule) && n <= |schedule|
    requires d in Exec(schedule[..n]).store.directives && Exec(schedule[..n]).store.directives[d].status != Draft
    ensures d in Exec(schedule).store.directives
    ensures var a, b := Exec(schedule[..n]).store.directives[d], Exec(schedule).store.directives[d];
            b.status != Draft && b.code == a.code && SameOrder(a.body, b.body)
  {
    HistoryProgresses(schedule, n);
  }

  // ---- Two persons ----

  lemma {:induction false} EvidenceGrows(s: seq<Approval>, t: seq<Approval>, id: nat)
    requires s <= t
    ensures EvidenceOf(s, id) <= EvidenceOf(t, id)
  {
    if |s| < |t| {
      var n := |t| - 1;
      EvidenceGrows(s, t[..n], id);
    } else {
      assert s == t;
    }
  }

  lemma ApprovedMeansTwoPersons(id: nat, row: Directive, evidence: seq<Approval>)
    requires EvidenceFits(id, row, evidence)
    requires row.status == Approved || row.status == Executing || row.status == Completed || row.body.approvedBy != ""
    ensures TwoPersons(id, row.body, evidence) && row.body.approvedBy != "" && row.body.submittedBy != ""
  {
  }

  /** A directive that was approved at any moment has two signatures of two
      people with the right roles, and no later event changes any of them. */
  lemma TwoPersonRule(schedule: seq<Event>, n: nat, d: nat)
    requires HonestSchedule(schedule) && n <= |schedule|
    requires d in Exec(schedule[..n]).store.directives
    requires var row := Exec(schedule[..n]).store.directives[d];
             row.status == Approved || row.status == Executing || row.status == Completed || row.body.approvedBy != ""
    ensures var s, t := Exec(schedule[..n]).store, Exec(schedule).store;
            && d in t.directives
            && TwoPersons(d, t.directives[d].body, EvidenceOf(t.approvals, d))
            && EvidenceOf(t.approvals, d) == EvidenceOf(s.approvals, d)
            && SameSignatures(s.directives[d].body, t.directives[d].body)
  {
    var s, t := Exec(schedule[..n]).store, Exec(schedule).store;
    HonestPrefix(schedule, n);
    AlwaysInv(schedule[..n]);
    AlwaysInv(schedule);
    HistoryProgresses(schedule, n);
    assert DirectiveProgress(s.directives[d], t.directives[d]);
    ApprovedMeansTwoPersons(d, s.directives[d], EvidenceOf(s.approvals, d));
    ApprovedMeansTwoPersons(d, t.directives[d], EvidenceOf(t.approvals, d));
    EvidenceGrows(s.approvals, t.approvals, d);
  }

  // ---- No skipped approval ----

  /** A walk that reached `Pending` or further left draft through submission. */
  lemma {:induction false} SubmittedOnTheWay(trail: seq<Audit>) returns (i: nat)
    requires trail != [] && trail[0].after == Draft && Chained(DIRECTIVE_GRAPH, trail)
    requires trail[|trail| - 1].after == Pending
    ensures 0 < i < |trail| && trail[i].before == Draft && trail[i].after == Pending
  {
    i := |trail| - 1;
    DirectiveEdges(trail[i].before, Pending);
    if trail[i].before == Pending {
      assert trail[..i][i - 1].after == Pending;
      i := SubmittedOnTheWay(trail[..i]);
    }
  }

  lemma {:induction false} ApprovedOnTheWay(trail: seq<Audit>) returns (i: nat, j: nat)
    requires trail != [] && trail[0].after == Draft && Chained(DIRECTIVE_GRAPH, trail)
    requires var last := trail[|trail| - 1].after; last == Approved || last == Executing || last == Completed
    ensures 0 < i < j < |trail|
    ensures trail[i].before == Draft && trail[i].after == Pending
    ensures trail[j].before == Pending && trail[j].after == Approved
  {
    j := |trail| - 1;
    assert trail[..j][..] == trail[..j] && trail[..j][j - 1] == trail[j - 1];
    DirectiveEdges(trail[j].before, trail[j].after);
    if trail[j].before == Pending {
      i := SubmittedOnTheWay(trail[..j]);
    } else {
      i, j := ApprovedOnTheWay(trail[..j]);
    }
  }

  /** Whatever is executed or completed was submitted from draft and then
      approved from pending, in this order, in its recorded history. */
  lemma ApprovalIsNeverSkipped(schedule: seq<Event>, d: nat) returns (i: nat, j: nat)
    requires HonestSchedule(schedule) && d in Exec(schedule).store.directives
    requires var status := Exec(schedule).store.directives[d].status; status == Executing || status == Completed
    ensures var trail := Trail(Exec(schedule).store.audits, OperationDirective, d);
            && 0 < i < j < |trail|
            && trail[i].before == Draft && trail[i].after == Pending
            && trail[j].before == Pending && trail[j].after == Approved
  {
    AlwaysInv(schedule);
    i, j := ApprovedOnTheWay(Trail(Exec(schedule).store.audits, OperationDirective, d));
  }

  // ---- Bounded work ----

  function RankOf(kind: Kind, s: Status): nat {
    match kind
    case GateUnit => 0
    case OperationDirective => DirectiveRank(s)
    case ExecutionConfirmation => ReceiptRank(s)
  }

  function MaxRank(kind: Kind): nat {
    match kind
    case GateUnit => 0
    case OperationDirective => 4
    case ExecutionConfirmation => 2
  }

  /** An entry that changed the status of a row in `ids`. */
  predicate ChangedStatus(a: Audit, kind: Kind, ids: set<nat>) {
    a.kind == kind && a.id in ids && a.action != Removed && a.action != Created && a.before != a.after
  }

  function StatusChanges(audits: seq<Audit>, kind: Kind, ids: set<nat>): nat {
    if audits == [] then 0
    else
      var n := |audits| - 1;
      StatusChanges(audits[..n], kind, ids) + (if ChangedStatus(audits[n], kind, ids) then 1 else 0)
  }

  lemma {:induction false} ChangesSplit(audits: seq<Audit>, kind: Kind, ids: set<nat>, id: nat)
    requires id in ids
    ensures StatusChanges(audits, kind, ids) == StatusChanges(audits, kind, ids - {id}) + StatusChanges(audits, kind, {id})
  {
    if audits != [] {
      ChangesSplit(audits[..|audits| - 1], kind, ids, id);
    }
  }

  lemma ChangesExtended(audits: seq<Audit>, a: Audit, kind: Kind, ids: set<nat>)
    ensures StatusChanges(audits + [a], kind, ids)
            == StatusChanges(audits, kind, ids) + (if ChangedStatus(a, kind, ids) then 1 else 0)
  {
    assert (audits + [a])[..|audits|] == audits;
  }

  lemma {:induction false} ChangesInTrail(audits: seq<Audit>, kind: Kind, id: nat)
    ensures StatusChanges(Trail(audits, kind, id), kind, {id}) == StatusChanges(audits, kind, {id})
  {
    if audits != [] {
      var before, a := audits[..|audits| - 1], audits[|audits| - 1];
      ChangesInTrail(before, kind, id);
      TrailOfExtended(before, a, kind, id);
      assert audits == before + [a];
      ChangesExtended(before, a, kind, {id});
      if About(a, kind, id) {
        ChangesExtended(Trail(before, kind, id), a, kind, {id});
      } else {
        assert Trail(audits, kind, id) == Trail(before, kind, id);
      }
    }
  }

  function GraphOf(kind: Kind): Graph {
    match kind
    case GateUnit => GATE_GRAPH
    case OperationDirective => DIRECTIVE_GRAPH
    case ExecutionConfirmation => RECEIPT_GRAPH
  }

  /** Every status change along a trail climbs. */
  lemma {:induction false} TrailClimbs(trail: seq<Audit>, kind: Kind, id: nat)
    requires kind != GateUnit && trail != [] && trail[0].action == Created && Chained(GraphOf(kind), trail)
    ensures StatusChanges(trail, kind, {id}) <= RankOf(kind, trail[|trail| - 1].after)
  {
    var n := |trail| - 1;
    if n > 0 {
      TrailClimbs(trail[..n], kind, id);
      EdgesClimb(trail[n].before, trail[n].after);
    }
  }

  lemma {:induction false} ChangesBounded(audits: seq<Audit>, kind: Kind, ids: set<nat>)
    requires kind != GateUnit
    requires forall id | id in ids ::
               var trail := Trail(audits, kind, id);
               trail != [] && trail[0].action == Created && Chained(GraphOf(kind), trail)
    ensures StatusChanges(audits, kind, ids) <= MaxRank(kind) * |ids|
  {
    if ids == {} {
      NoneChanged(audits, kind);
    } else {
      var id :| id in ids;
      ChangesBounded(audits, kind, ids - {id});
      ChangesSplit(audits, kind, ids, id);
      ChangesInTrail(audits, kind, id);
      TrailClimbs(Trail(audits, kind, id), kind, id);
      assert |ids| == |ids - {id}| + 1;
    }
  }

  lemma {:induction false} NoneChanged(audits: seq<Audit>, kind: Kind)
    ensures StatusChanges(audits, kind, {}) == 0
  {
    if audits != [] {
      NoneChanged(audits[..|audits| - 1], kind);
    }
  }

  /** All status changes of directives and receipts that a log records. */
  function RecordedChanges(audits: seq<Audit>): nat {
    if audits == [] then 0
    else
      var a := audits[|audits| - 1];
      RecordedChanges(audits[..|audits| - 1])
      + (if a.kind != GateUnit && a.action != Removed && a.action != Created && a.before != a.after then 1 else 0)
  }

  lemma {:induction false} RecordedAreCounted(audits: seq<Audit>, directives: set<nat>, receipts: set<nat>)
    requires forall a | a in audits && a.kind == OperationDirective :: a.id in directives
    requires forall a | a in audits && a.kind == ExecutionConfirmation :: a.id in receipts
    ensures RecordedChanges(audits)
            == StatusChanges(audits, OperationDirective, directives) + StatusChanges(audits, ExecutionConfirmation, receipts)
  {
    if audits != [] {
      assert audits[|audits| - 1] in audits;
      RecordedAreCounted(audits[..|audits| - 1], directives, receipts);
    }
  }

  lemma ReplayingLogsAreBounded(s: Store)
    requires LogReplays(s)
    ensures RecordedChanges(s.audits) <= 4 * |s.directives| + 2 * |s.receipts|
  {
    ChangesBounded(s.audits, OperationDirective, s.directives.Keys);
    ChangesBounded(s.audits, ExecutionConfirmation, s.receipts.Keys);
    RecordedAreCounted(s.audits, s.directives.Keys, s.receipts.Keys);
  }

  /** A run with D directives and C receipts changes statuses at most 4D + 2C times. */
  lemma BoundedWork(schedule: seq<Event>)
    requires HonestSchedule(schedule)
    ensures var s := Exec(schedule).store;
            RecordedChanges(s.audits) <= 4 * |s.directives| + 2 * |s.receipts|
  {
    AlwaysInv(schedule);
    ReplayingLogsAreBounded(Exec(schedule).store);
  }
}
