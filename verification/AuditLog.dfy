/** Every committed transaction logs what it did: one entry for every row it wrote,
    true of that row, in the name of its caller. */
module AuditLog {
  import opened Statuses
  import opened Rows
  import opened Repository
  import opened Services
  import opened Dispatch
  import opened Effects

  /** The row of this kind and key is new or different. */
  ghost predicate Written(s: Store, t: Store, kind: Kind, id: nat) {
    match kind
    case GateUnit => id in t.gates && !(id in s.gates && s.gates[id] == t.gates[id])
    case OperationDirective => id in t.directives && !(id in s.directives && s.directives[id] == t.directives[id])
    case ExecutionConfirmation => id in t.receipts && !(id in s.receipts && s.receipts[id] == t.receipts[id])
  }

  /** What an entry says agrees with what happened to its row. */
  ghost predicate Truthful(e: Audit, t: Store, actor: string) {
    && e.actor == actor
    && match e.kind
       case GateUnit => e.id in t.gates && SaysStatus(e, t.gates[e.id])
       case OperationDirective => e.id in t.directives && SaysStatus(e, t.directives[e.id])
       case ExecutionConfirmation => e.id in t.receipts && SaysStatus(e, t.receipts[e.id])
  }

  predicate SaysStatus<T>(e: Audit, row: Row<T>) {
    if row.deleted then e.action == Removed && e.after == Deleted else e.action != Removed && e.after == row.status
  }

  function EntriesAbout(entries: seq<Audit>, kind: Kind, id: nat): nat {
    if entries == [] then 0
    else (if entries[0].kind == kind && entries[0].id == id then 1 else 0) + EntriesAbout(entries[1..], kind, id)
  }

  ghost predicate OneEntryEach(s: Store, t: Store, entries: seq<Audit>, actor: string) {
    && t.audits == s.audits + entries
    && (forall e | e in entries :: Truthful(e, t, actor))
    && forall kind, id :: EntriesAbout(entries, kind, id) == if Written(s, t, kind, id) then 1 else 0
  }

  lemma OneEntry(a: Audit, kind: Kind, id: nat)
    ensures EntriesAbout([a], kind, id) == if a.kind == kind && a.id == id then 1 else 0
  {
  }

  lemma MoreEntries(a: Audit, rest: seq<Audit>, kind: Kind, id: nat)
    ensures EntriesAbout([a] + rest, kind, id)
            == (if a.kind == kind && a.id == id then 1 else 0) + EntriesAbout(rest, kind, id)
  {
    assert ([a] + rest)[1..] == rest;
  }

  // ---- Transactions of one row ----

  lemma GateEntry(s: Store, t: Store, id: nat, a: Audit, actor: string)
    requires OnlyGate(s, t, id) && t.audits == s.audits + [a] && a.kind == GateUnit && a.id == id
    requires a.actor == actor && SaysStatus(a, t.gates[id]) && !(id in s.gates && s.gates[id] == t.gates[id])
    ensures OneEntryEach(s, t, [a], actor)
  {
    forall kind, i
      ensures EntriesAbout([a], kind, i) == if Written(s, t, kind, i) then 1 else 0
    {
      OneEntry(a, kind, i);
    }
  }

  lemma DirectiveEntry(s: Store, t: Store, id: nat, a: Audit, actor: string)
    requires OnlyDirective(s, t, id) && t.audits == s.audits + [a] && a.kind == OperationDirective && a.id == id
    requires a.actor == actor && SaysStatus(a, t.directives[id])
    requires !(id in s.directives && s.directives[id] == t.directives[id])
    ensures OneEntryEach(s, t, [a], actor)
  {
    forall kind, i
      ensures EntriesAbout([a], kind, i) == if Written(s, t, kind, i) then 1 else 0
    {
      OneEntry(a, kind, i);
    }
  }

  lemma ReceiptEntry(s: Store, t: Store, id: nat, a: Audit, actor: string)
    requires id in t.receipts && t.receipts == s.receipts[id := t.receipts[id]]
    requires t.gates == s.gates && t.directives == s.directives
    requires t.audits == s.audits + [a] && a.kind == ExecutionConfirmation && a.id == id
    requires a.actor == actor && SaysStatus(a, t.receipts[id])
    requires !(id in s.receipts && s.receipts[id] == t.receipts[id])
    ensures OneEntryEach(s, t, [a], actor)
  {
    forall kind, i
      ensures EntriesAbout([a], kind, i) == if Written(s, t, kind, i) then 1 else 0
    {
      OneEntry(a, kind, i);
    }
  }

  // ---- Transactions of several rows ----

  /** `entries` is right about gates and silent about the rest. */
  ghost predicate GateEntries(s: Store, t: Store, entries: seq<Audit>, actor: string) {
    && (forall e | e in entries :: e.kind == GateUnit && Truthful(e, t, actor))
    && forall id :: EntriesAbout(entries, GateUnit, id) == if Written(s, t, GateUnit, id) then 1 else 0
  }

  lemma SilentAbout(entries: seq<Audit>, kind: Kind, id: nat)
    requires forall e | e in entries :: e.kind != kind
    ensures EntriesAbout(entries, kind, id) == 0
  {
    if entries != [] {
      assert entries[0] in entries;
      SilentAbout(entries[1..], kind, id);
    }
  }

  lemma FollowingEntries(s: Store, t: Store, gate: Option<Seen<GateBody>>, goal: Option<Status>, action: Action, caller: Caller)
    requires GateFollows(s, t, gate, goal) && action != Removed && (goal.Some? ==> gate.Some?)
    ensures GateEntries(s, t, GateLog(gate, goal, action, caller), caller.actor)
  {
    var entries := GateLog(gate, goal, action, caller);
    forall id
      ensures EntriesAbout(entries, GateUnit, id) == if Written(s, t, GateUnit, id) then 1 else 0
    {
      if entries != [] {
        OneEntry(entries[0], GateUnit, id);
      }
    }
  }

  lemma MoveEntries(s: Store, t: Store, id: nat, a: Audit, rest: seq<Audit>, actor: string)
    requires id in t.directives && t.directives == s.directives[id := t.directives[id]] && t.receipts == s.receipts
    requires t.audits == s.audits + ([a] + rest) && GateEntries(s, t, rest, actor)
    requires a.kind == OperationDirective && a.id == id && a.actor == actor && SaysStatus(a, t.directives[id])
    requires !(id in s.directives && s.directives[id] == t.directives[id])
    ensures OneEntryEach(s, t, [a] + rest, actor)
  {
    forall kind, i
      ensures EntriesAbout([a] + rest, kind, i) == if Written(s, t, kind, i) then 1 else 0
    {
      MoreEntries(a, rest, kind, i);
      if kind != GateUnit {
        SilentAbout(rest, kind, i);
      }
    }
  }

  lemma OutcomeEntries(s: Store, t: Store, r: nat, d: nat, a: Audit, b: Audit, rest: seq<Audit>, actor: string)
    requires r in t.receipts && t.receipts == s.receipts[r := t.receipts[r]]
    requires d in t.directives && t.directives == s.directives[d := t.directives[d]]
    requires t.audits == s.audits + ([a] + ([b] + rest)) && GateEntries(s, t, rest, actor)
    requires a.kind == ExecutionConfirmation && a.id == r && a.actor == actor && SaysStatus(a, t.receipts[r])
    requires b.kind == OperationDirective && b.id == d && b.actor == actor && SaysStatus(b, t.directives[d])
    requires !(r in s.receipts && s.receipts[r] == t.receipts[r]) && !(d in s.directives && s.directives[d] == t.directives[d])
    ensures OneEntryEach(s, t, [a] + ([b] + rest), actor)
  {
    forall kind, i
      ensures EntriesAbout([a] + ([b] + rest), kind, i) == if Written(s, t, kind, i) then 1 else 0
    {
      MoreEntries(a, [b] + rest, kind, i);
      MoreEntries(b, rest, kind, i);
      if kind != GateUnit {
        SilentAbout(rest, kind, i);
      }
    }
  }

  // ---- Any committed request ----

  lemma GateLogged(f: Flight, key: nat, s: Store, t: Store) returns (entries: seq<Audit>)
    requires GateEffect(f, key, s, t)
    requires f.request.CreateGate? || f.request.UpdateGate? || f.request.MoveGate? || f.request.DeleteGate?
    ensures OneEntryEach(s, t, entries, f.caller.actor)
  {
    var id := if f.request.CreateGate? then key else f.request.id;
    entries := t.audits[|s.audits|..];
    GateEntry(s, t, id, entries[0], f.caller.actor);
    assert entries == [entries[0]];
  }

  lemma DirectiveRowLogged(f: Flight, key: nat, s: Store, t: Store) returns (entries: seq<Audit>)
    requires DirectiveEffect(f, key, s, t)
    requires f.request.CreateDirective? || f.request.UpdateDirective? || f.request.DeleteDirective?
    ensures OneEntryEach(s, t, entries, f.caller.actor)
  {
    var id := if f.request.CreateDirective? then key else f.request.id;
    entries := t.audits[|s.audits|..];
    DirectiveEntry(s, t, id, entries[0], f.caller.actor);
    assert entries == [entries[0]];
  }

  lemma MoveLogged(f: Flight, key: nat, s: Store, t: Store) returns (entries: seq<Audit>)
    requires DirectiveEffect(f, key, s, t) && f.request.MoveDirective?
    ensures OneEntryEach(s, t, entries, f.caller.actor)
  {
    var id, target, read := f.request.id, f.request.target, f.view.directive.value.row;
    var goal := MoveGoal(read, target, f.view.gate);
    var a := Audit(OperationDirective, id, Transitioned, read.status, target, f.caller.actor);
    var rest := GateLog(f.view.gate, goal, DirectiveExecution, f.caller);
    FollowingEntries(s, t, f.view.gate, goal, DirectiveExecution, f.caller);
    assert s.audits + [a] + rest == s.audits + ([a] + rest);
    MoveEntries(s, t, id, a, rest, f.caller.actor);
    entries := [a] + rest;
  }

  lemma ReceiptRowLogged(f: Flight, key: nat, s: Store, t: Store) returns (entries: seq<Audit>)
    requires ReceiptEffect(f, key, s, t)
    requires f.request.CreateReceipt? || f.request.UpdateReceipt? || f.request.DeleteReceipt?
             || (f.request.MoveReceipt? && f.view.receipt.Some? && f.view.receipt.value.row.status != Pending)
    ensures OneEntryEach(s, t, entries, f.caller.actor)
  {
    var id := if f.request.CreateReceipt? then key else f.request.id;
    entries := t.audits[|s.audits|..];
    ReceiptEntry(s, t, id, entries[0], f.caller.actor);
    assert entries == [entries[0]];
  }

  lemma OutcomeLogged(f: Flight, key: nat, s: Store, t: Store) returns (entries: seq<Audit>)
    requires ReceiptEffect(f, key, s, t)
    requires f.request.MoveReceipt? && f.view.receipt.Some? && f.view.receipt.value.row.status == Pending
    ensures OneEntryEach(s, t, entries, f.caller.actor)
  {
    var id, target, directive := f.request.id, f.request.target, f.view.directive.value;
    var goal := Some(OutcomeGoal(target, directive.row));
    var a := Audit(ExecutionConfirmation, id, Transitioned, Pending, target, f.caller.actor);
    var b := Audit(OperationDirective, directive.id, ExecutionOutcome, Executing, Result(target), f.caller.actor);
    var rest := GateLog(f.view.gate, goal, ExecutionOutcome, f.caller);
    FollowingEntries(s, t, f.view.gate, goal, ExecutionOutcome, f.caller);
    assert s.audits + [a, b] + rest == s.audits + ([a] + ([b] + rest));
    OutcomeEntries(s, t, id, directive.id, a, b, rest, f.caller.actor);
    entries := [a] + ([b] + rest);
  }

  lemma EffectsAreLogged(f: Flight, key: nat, s: Store, t: Store) returns (entries: seq<Audit>)
    requires GateEffect(f, key, s, t) && DirectiveEffect(f, key, s, t) && ReceiptEffect(f, key, s, t)
    ensures OneEntryEach(s, t, entries, f.caller.actor)
  {
    match f.request
    case CreateGate(_, _, _) => entries := GateLogged(f, key, s, t);
    case UpdateGate(_, _, _, _, _) => entries := GateLogged(f, key, s, t);
    case MoveGate(_, _, _) => entries := GateLogged(f, key, s, t);
    case DeleteGate(_) => entries := GateLogged(f, key, s, t);
    case MoveDirective(_, _, _) => entries := MoveLogged(f, key, s, t);
    case CreateDirective(_, _, _) => entries := DirectiveRowLogged(f, key, s, t);
    case UpdateDirective(_, _, _, _, _) => entries := DirectiveRowLogged(f, key, s, t);
    case DeleteDirective(_) => entries := DirectiveRowLogged(f, key, s, t);
    case MoveReceipt(_, _, _) =>
      if f.view.receipt.value.row.status == Pending {
        entries := OutcomeLogged(f, key, s, t);
      } else {
        entries := ReceiptRowLogged(f, key, s, t);
      }
    case _ => entries := ReceiptRowLogged(f, key, s, t);
  }

  /** A committed request adds to the log exactly one entry for every row it wrote, and
      none for any other: true of the row as it is now, and in its caller's name. */
  lemma OneEntryPerWrittenRow(schedule: seq<Event>, k: nat, f: Flight) returns (entries: seq<Audit>)
    requires Commits(schedule, k, f)
    ensures OneEntryEach(Exec(schedule[..k]).store, Exec(schedule[..k + 1]).store, entries, f.caller.actor)
  {
    CommittedEffect(schedule, k, f);
    entries := EffectsAreLogged(f, schedule[k].key, Exec(schedule[..k]).store, Exec(schedule[..k + 1]).store);
  }

  /** Event `k` adds this entry to the log and no other. */
  ghost predicate NewEntry(schedule: seq<Event>, k: nat, a: Audit)
    requires k < |schedule|
  {
    Exec(schedule[..k + 1]).store.audits == Exec(schedule[..k]).store.audits + [a]
  }

  /** A committed deletion is logged with the status read and the caller's name. */
  lemma DeletionsAreLogged(schedule: seq<Event>, k: nat, f: Flight)
    requires Commits(schedule, k, f)
    ensures f.request.DeleteGate? ==>
              f.view.gate.Some? && NewEntry(schedule, k, Audit(GateUnit, f.request.id, Removed, f.view.gate.value.row.status,
                                                               Deleted, f.caller.actor))
    ensures f.request.DeleteDirective? ==>
              NewEntry(schedule, k, Audit(OperationDirective, f.request.id, Removed, Draft, Deleted, f.caller.actor))
    ensures f.request.DeleteReceipt? ==>
              NewEntry(schedule, k, Audit(ExecutionConfirmation, f.request.id, Removed, Pending, Deleted, f.caller.actor))
  {
    CommittedEffect(schedule, k, f);
  }
}
