/** Deletions carry no version. When what they delete is still unused, seen in the
    audit log and seen in the schedule. */
module Deletions {
  import opened Statuses
  import opened Rows
  import opened Repository
  import opened Services
  import opened Dispatch
  import opened Locking
  import opened Lookups
  import opened Trails
  import opened Workflow
  import opened History

  // ---- In terms of the audit log ----

  lemma {:induction false} TrailIsAbout(audits: seq<Audit>, kind: Kind, id: nat)
    ensures forall i | 0 <= i < |Trail(audits, kind, id)| :: About(Trail(audits, kind, id)[i], kind, id)
  {
    if audits != [] {
      TrailIsAbout(audits[..|audits| - 1], kind, id);
    }
  }

  lemma {:induction false} UnchangedTrail(trail: seq<Audit>, kind: Kind, id: nat)
    requires trail != [] && Chained(GraphOf(kind), trail)
    requires forall i | 0 <= i < |trail| :: About(trail[i], kind, id)
    requires forall i | 0 < i < |trail| :: trail[i].action != Created
    requires StatusChanges(trail, kind, {id}) == 0
    ensures trail[|trail| - 1].after == trail[0].after
  {
    var n := |trail| - 1;
    if n > 0 {
      UnchangedTrail(trail[..n], kind, id);
    }
  }

  lemma InitialIffUnchanged(audits: seq<Audit>, kind: Kind, id: nat, initial: Status, status: Status, version: nat)
    requires kind != GateUnit && Replays(GraphOf(kind), initial, Trail(audits, kind, id), status, version)
    requires RankOf(kind, initial) == 0
    ensures status == initial <==> StatusChanges(audits, kind, {id}) == 0
  {
    var trail := Trail(audits, kind, id);
    TrailClimbs(trail, kind, id);
    ChangesInTrail(audits, kind, id);
    if StatusChanges(audits, kind, {id}) == 0 {
      TrailIsAbout(audits, kind, id);
      UnchangedTrail(trail, kind, id);
    }
  }

  lemma DirectiveRemoved(store: Store, f: Flight, key: nat)
    requires FlightFits(f) && f.request.DeleteDirective? && Attempt(store, f, key).Ok?
    ensures var id := f.request.id;
            && id in store.directives
            && StoreAfter(store, f, key).directives == store.directives[id := store.directives[id].(deleted := true)]
  {
  }

  lemma ReceiptRemoved(store: Store, f: Flight, key: nat)
    requires FlightFits(f) && f.request.DeleteReceipt? && Attempt(store, f, key).Ok?
    ensures var id := f.request.id;
            && id in store.receipts
            && StoreAfter(store, f, key).receipts == store.receipts[id := store.receipts[id].(deleted := true)]
  {
  }

  /** A deletion carries no version. The directive it removes is a draft exactly
      when the log shows no status change of it so far. */
  lemma DeletedDirectiveIsDraftIffUnchanged(schedule: seq<Event>, k: nat, f: Flight)
    requires HonestSchedule(schedule) && Commits(schedule, k, f) && f.request.DeleteDirective?
    ensures var s, t, d := Exec(schedule[..k]).store, Exec(schedule[..k + 1]).store, f.request.id;
            && d in t.directives && t.directives[d].deleted
            && (t.directives[d].status == Draft <==> StatusChanges(s.audits, OperationDirective, {d}) == 0)
  {
    var s, id := Exec(schedule[..k]).store, f.request.id;
    HonestPrefix(schedule, k);
    AlwaysInv(schedule[..k]);
    ExecAfterCommit(schedule, k, f);
    DirectiveRemoved(s, f, schedule[k].key);
    InitialIffUnchanged(s.audits, OperationDirective, id, Draft, s.directives[id].status, s.directives[id].version);
  }

  /** The receipt a deletion removes is pending exactly when the log shows no
      status change of it so far. */
  lemma DeletedReceiptIsPendingIffUnchanged(schedule: seq<Event>, k: nat, f: Flight)
    requires HonestSchedule(schedule) && Commits(schedule, k, f) && f.request.DeleteReceipt?
    ensures var s, t, r := Exec(schedule[..k]).store, Exec(schedule[..k + 1]).store, f.request.id;
            && r in t.receipts && t.receipts[r].deleted
            && (t.receipts[r].status == Pending <==> StatusChanges(s.audits, ExecutionConfirmation, {r}) == 0)
  {
    var s, id := Exec(schedule[..k]).store, f.request.id;
    HonestPrefix(schedule, k);
    AlwaysInv(schedule[..k]);
    ExecAfterCommit(schedule, k, f);
    ReceiptRemoved(s, f, schedule[k].key);
    InitialIffUnchanged(s.audits, ExecutionConfirmation, id, Pending, s.receipts[id].status, s.receipts[id].version);
  }

  // ---- In terms of the schedule ----

  function StatusIn(store: Store, kind: Kind, id: nat): Status {
    match kind
    case GateUnit => if id in store.gates then store.gates[id].status else Blank
    case OperationDirective => if id in store.directives then store.directives[id].status else Blank
    case ExecutionConfirmation => if id in store.receipts then store.receipts[id].status else Blank
  }

  /** Event `i` changes the status of the row. */
  ghost predicate Moves(schedule: seq<Event>, i: nat, kind: Kind, id: nat)
    requires i < |schedule|
  {
    StatusIn(Exec(schedule[..i]).store, kind, id) != StatusIn(Exec(schedule[..i + 1]).store, kind, id)
  }

  lemma {:induction false} UnmovedStays(schedule: seq<Event>, j: nat, k: nat, kind: Kind, id: nat)
    requires j <= k <= |schedule|
    requires forall i | j <= i < k :: !Moves(schedule, i, kind, id)
    ensures StatusIn(Exec(schedule[..j]).store, kind, id) == StatusIn(Exec(schedule[..k]).store, kind, id)
  {
    if j < k {
      UnmovedStays(schedule, j, k - 1, kind, id);
      assert !Moves(schedule, k - 1, kind, id);
    }
  }

  /** A row at rank zero has always been there since. */
  lemma NeverLeft(schedule: seq<Event>, i: nat, k: nat, kind: Kind, id: nat)
    requires HonestSchedule(schedule) && i <= k <= |schedule| && kind != GateUnit
    requires StatusIn(Exec(schedule[..i]).store, kind, id) != Blank
    requires RankOf(kind, StatusIn(Exec(schedule[..k]).store, kind, id)) == 0
    ensures StatusIn(Exec(schedule[..i]).store, kind, id) == StatusIn(Exec(schedule[..k]).store, kind, id)
  {
    HonestPrefix(schedule, k);
    HistoryProgresses(schedule[..k], i);
    assert schedule[..k][..i] == schedule[..i];
  }

  lemma PresentLater(schedule: seq<Event>, j: nat, i: nat, kind: Kind, id: nat)
    requires HonestSchedule(schedule) && j <= i <= |schedule| && kind != GateUnit
    requires StatusIn(Exec(schedule[..j]).store, kind, id) != Blank
    ensures StatusIn(Exec(schedule[..i]).store, kind, id) != Blank
  {
    HonestPrefix(schedule, i);
    HistoryProgresses(schedule[..i], j);
    assert schedule[..i][..j] == schedule[..j];
  }

  lemma StayedUnmoved(schedule: seq<Event>, j: nat, i: nat, k: nat, kind: Kind, id: nat)
    requires HonestSchedule(schedule) && j <= i < k <= |schedule| && kind != GateUnit
    requires StatusIn(Exec(schedule[..j]).store, kind, id) != Blank
    requires RankOf(kind, StatusIn(Exec(schedule[..k]).store, kind, id)) == 0
    ensures !Moves(schedule, i, kind, id)
  {
    PresentLater(schedule, j, i, kind, id);
    PresentLater(schedule, j, i + 1, kind, id);
    NeverLeft(schedule, i, k, kind, id);
    NeverLeft(schedule, i + 1, k, kind, id);
  }

  ghost predicate Unmoved(schedule: seq<Event>, j: nat, k: nat, kind: Kind, id: nat)
    requires k <= |schedule|
  {
    forall i | j <= i < k :: !Moves(schedule, i, kind, id)
  }

  lemma StaysIffUnmoved(schedule: seq<Event>, j: nat, k: nat, kind: Kind, id: nat, status: Status)
    requires HonestSchedule(schedule) && j <= k <= |schedule| && kind != GateUnit
    requires StatusIn(Exec(schedule[..j]).store, kind, id) == status && status != Blank && RankOf(kind, status) == 0
    ensures StatusIn(Exec(schedule[..k]).store, kind, id) == status <==> Unmoved(schedule, j, k, kind, id)
  {
    if Unmoved(schedule, j, k, kind, id) {
      UnmovedStays(schedule, j, k, kind, id);
    } else if StatusIn(Exec(schedule[..k]).store, kind, id) == status {
      forall i | j <= i < k
        ensures !Moves(schedule, i, kind, id)
      {
        StayedUnmoved(schedule, j, i, k, kind, id);
      }
    }
  }

  /** The directive a deletion removes is a draft if and only if no event between the
      deletion's own lookup, event `j`, and its commit moved it. */
  lemma DeletedDirectiveIsDraftIffUnmoved(schedule: seq<Event>, k: nat, f: Flight) returns (j: nat)
    requires HonestSchedule(schedule) && Commits(schedule, k, f) && f.request.DeleteDirective?
    ensures j < k && schedule[j] == Read(schedule[k].flight)
    ensures f.view.directive.Some? && f.view.directive == ById(Exec(schedule[..j]).store.directives, f.request.id)
    ensures StatusIn(Exec(schedule[..k + 1]).store, OperationDirective, f.request.id) == Draft
            <==> Unmoved(schedule, j, k, OperationDirective, f.request.id)
  {
    var _, directiveRead, _ := LookupMoments(schedule[..k], schedule[k].flight);
    j := directiveRead;
    assert schedule[..k][..j] == schedule[..j];
    HonestPrefix(schedule, k);
    ViewsFit(schedule[..k]);
    ExecAfterCommit(schedule, k, f);
    DirectiveRemoved(Exec(schedule[..k]).store, f, schedule[k].key);
    DeletesDraftsOnly(f);
    StaysIffUnmoved(schedule, j, k, OperationDirective, f.request.id, Draft);
  }

  /** And a receipt is pending if and only if nothing moved it since event `j`. */
  lemma DeletedReceiptIsPendingIffUnmoved(schedule: seq<Event>, k: nat, f: Flight) returns (j: nat)
    requires HonestSchedule(schedule) && Commits(schedule, k, f) && f.request.DeleteReceipt?
    ensures j < k && schedule[j] == Read(schedule[k].flight)
    ensures f.view.receipt.Some? && f.view.receipt == ById(Exec(schedule[..j]).store.receipts, f.request.id)
    ensures StatusIn(Exec(schedule[..k + 1]).store, ExecutionConfirmation, f.request.id) == Pending
            <==> Unmoved(schedule, j, k, ExecutionConfirmation, f.request.id)
  {
    var receiptRead, _, _ := LookupMoments(schedule[..k], schedule[k].flight);
    j := receiptRead;
    assert schedule[..k][..j] == schedule[..j];
    HonestPrefix(schedule, k);
    ViewsFit(schedule[..k]);
    ExecAfterCommit(schedule, k, f);
    ReceiptRemoved(Exec(schedule[..k]).store, f, schedule[k].key);
    DeletesDraftsOnly(f);
    StaysIffUnmoved(schedule, j, k, ExecutionConfirmation, f.request.id, Pending);
  }

  lemma DeletesDraftsOnly(f: Flight)
    requires Decide(f.request, f.caller, f.view).Ok?
    ensures f.request.DeleteDirective? ==> f.view.directive.Some? && f.view.directive.value.row.status == Draft
    ensures f.request.DeleteReceipt? ==> f.view.receipt.Some? && f.view.receipt.value.row.status == Pending
  {
  }
}
