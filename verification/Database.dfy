/** The store as the services drive it: rows changed in place, statement by
    statement, inside nested transactions that roll back when a statement
    fails. Proved against the all-or-nothing `Repository.Commit`. */
module Database {
  import opened Rows
  import opened Repository

  function ErrorOf<T>(outcome: Outcome<T>): Option<Error> {
    if outcome.Ok? then None else Some(outcome.error)
  }

  class Connection {
    var gates: Table<GateBody>
    var directives: Table<DirectiveBody>
    var receipts: Table<ReceiptBody>
    var approvals: seq<Approval>
    var audits: seq<Audit>

    /** States to return to: one per open transaction or savepoint. */
    var savepoints: seq<Store>

    /** Statements issued so far; statement `n` breaks when `breaks(n)`. */
    var issued: nat
    const breaks: nat -> bool

    constructor (breaks: nat -> bool)
      ensures Current() == EMPTY_STORE && savepoints == [] && issued == 0 && this.breaks == breaks
    {
      gates, directives, receipts, approvals, audits := map[], map[], map[], [], [];
      savepoints, issued := [], 0;
      this.breaks := breaks;
    }

    function Current(): Store
      reads this
    {
      Store(gates, directives, receipts, approvals, audits)
    }

    ghost predicate NoneBroke(from: nat, to: nat) {
      forall n | from <= n < to :: !breaks(n)
    }

    // ---- Transactions ----

    method Begin()
      modifies this`savepoints
      ensures savepoints == old(savepoints) + [Current()]
    {
      savepoints := savepoints + [Current()];
    }

    /** Ends the innermost transaction, undoing it when `e` is an error. */
    method End(e: Option<Error>)
      requires savepoints != []
      modifies this
      ensures issued == old(issued)
      ensures savepoints == old(savepoints)[..|old(savepoints)| - 1]
      ensures Current() == if e.Some? then old(savepoints)[|old(savepoints)| - 1] else old(Current())
    {
      var last := |savepoints| - 1;
      if e.Some? {
        var s := savepoints[last];
        gates, directives, receipts, approvals, audits := s.gates, s.directives, s.receipts, s.approvals, s.audits;
      }
      savepoints := savepoints[..last];
    }

    /** Runs what follows in the transaction that is already open, or opens one. */
    method Enter() returns (joined: bool)
      modifies this`savepoints
      ensures joined <==> old(savepoints) != []
      ensures savepoints == if joined then old(savepoints) else [Current()]
    {
      joined := savepoints != [];
      if !joined {
        Begin();
      }
    }

    /** Leaves the block that `Enter` began: only its owner ends a transaction. */
    method Leave(joined: bool, e: Option<Error>)
      requires joined || savepoints != []
      modifies this
      ensures issued == old(issued)
      ensures savepoints == if joined then old(savepoints) else old(savepoints)[..|old(savepoints)| - 1]
      ensures Current() == if !joined && e.Some? then old(savepoints)[|old(savepoints)| - 1] else old(Current())
    {
      if !joined {
        End(e);
      }
    }

    // ---- Single statements ----

    /** One statement came back: `e` is what it reports, `after` what it leaves. */
    twostate predicate Stated(new e: Option<Error>, new result: Option<Error>, new after: Store)
      reads this
    {
      && issued == old(issued) + 1 && savepoints == old(savepoints)
      && e == (if breaks(old(issued)) then Some(Unavailable) else result)
      && Current() == if e.None? then after else old(Current())
    }

    method Issue() returns (broken: bool)
      modifies this`issued
      ensures issued == old(issued) + 1 && broken == breaks(old(issued))
    {
      broken := breaks(issued);
      issued := issued + 1;
    }

    method UpdateGate(id: nat, expected: nat, item: Gate) returns (e: Option<Error>)
      modifies this
      ensures var cas := Cas(old(gates), id, expected, item);
              Stated(e, ErrorOf(cas), if cas.Ok? then old(Current()).(gates := cas.value) else old(Current()))
    {
      var broken := Issue();
      if broken { return Some(Unavailable); }
      var affected := 0;
      if id in gates && !gates[id].deleted && gates[id].version == expected {
        gates := gates[id := item.(code := gates[id].code, deleted := false)];
        affected := 1;
      }
      return if affected == 0 then Some(VersionConflict) else None;
    }

    method UpdateDirective(id: nat, expected: nat, item: Directive) returns (e: Option<Error>)
      modifies this
      ensures var cas := Cas(old(directives), id, expected, item);
              Stated(e, ErrorOf(cas), if cas.Ok? then old(Current()).(directives := cas.value) else old(Current()))
    {
      var broken := Issue();
      if broken { return Some(Unavailable); }
      var affected := 0;
      if id in directives && !directives[id].deleted && directives[id].version == expected {
        directives := directives[id := item.(code := directives[id].code, deleted := false)];
        affected := 1;
      }
      return if affected == 0 then Some(VersionConflict) else None;
    }

    method WriteGate(change: Change<GateBody>, key: nat) returns (e: Option<Error>)
      modifies this
      ensures var result := Apply(old(gates), change, key);
              Stated(e, ErrorOf(result), if result.Ok? then old(Current()).(gates := result.value) else old(Current()))
    {
      match change
      case Update(id, expected, row, _, _) => e := UpdateGate(id, expected, row);
      case Insert(row) =>
        var broken := Issue();
        if broken { return Some(Unavailable); }
        if key in gates || CodeTaken(gates, row.code) { return Some(Duplicate); }
        gates := gates[key := row];
        return None;
      case Remove(id, _) =>
        var broken := Issue();
        if broken { return Some(Unavailable); }
        if !(id in gates && !gates[id].deleted) { return Some(NotFound); }
        gates := gates[id := gates[id].(deleted := true)];
        return None;
    }

    method WriteDirective(change: Change<DirectiveBody>, key: nat) returns (e: Option<Error>)
      modifies this
      ensures var result := Apply(old(directives), change, key);
              Stated(e, ErrorOf(result), if result.Ok? then old(Current()).(directives := result.value) else old(Current()))
    {
      match change
      case Update(id, expected, row, _, _) => e := UpdateDirective(id, expected, row);
      case Insert(row) =>
        var broken := Issue();
        if broken { return Some(Unavailable); }
        if key in directives || CodeTaken(directives, row.code) { return Some(Duplicate); }
        directives := directives[key := row];
        return None;
      case Remove(id, _) =>
        var broken := Issue();
        if broken { return Some(Unavailable); }
        if !(id in directives && !directives[id].deleted) { return Some(NotFound); }
        directives := directives[id := directives[id].(deleted := true)];
        return None;
    }

    method WriteReceipt(change: Change<ReceiptBody>, key: nat) returns (e: Option<Error>)
      modifies this
      ensures var result := ApplyReceipt(old(receipts), Some(change), key);
              Stated(e, ErrorOf(result), if result.Ok? then old(Current()).(receipts := result.value) else old(Current()))
    {
      var broken := Issue();
      if broken { return Some(Unavailable); }
      match change
      case Update(id, expected, row, _, _) =>
        if !(id in receipts && !receipts[id].deleted && receipts[id].version == expected) { return Some(VersionConflict); }
        if SlotTaken(receipts, id, row.body.directiveCode) { return Some(Duplicate); }
        receipts := receipts[id := row.(code := receipts[id].code, deleted := false)];
        return None;
      case Insert(row) =>
        if key in receipts || CodeTaken(receipts, row.code) || SlotTaken(receipts, key, row.body.directiveCode) {
          return Some(Duplicate);
        }
        receipts := receipts[key := row];
        return None;
      case Remove(id, _) =>
        if !(id in receipts && !receipts[id].deleted) { return Some(NotFound); }
        receipts := receipts[id := receipts[id].(deleted := true)];
        return None;
    }

    method InsertApproval(a: Approval) returns (e: Option<Error>)
      modifies this
      ensures var result := AppendApproval(old(approvals), Some(a));
              Stated(e, ErrorOf(result), if result.Ok? then old(Current()).(approvals := result.value) else old(Current()))
    {
      var broken := Issue();
      if broken { return Some(Unavailable); }
      if StageTaken(approvals, a.directive, a.stage) { return Some(Duplicate); }
      approvals := approvals + [a];
      return None;
    }

    method InsertAudit(a: Audit) returns (e: Option<Error>)
      modifies this
      ensures Stated(e, None, old(Current()).(audits := old(audits) + [a]))
    {
      var broken := Issue();
      if broken { return Some(Unavailable); }
      audits := audits + [a];
      return None;
    }

    // ---- Transactions of the repositories and services ----

    /** Statements ran up to the first failure. What a failed block leaves behind
        is undone by the enclosing transaction. */
    twostate predicate Ran(new e: Option<Error>, new result: Outcome<Store>)
      reads this
    {
      && issued >= old(issued) && savepoints == old(savepoints)
      && (e.None? ==> result == Ok(Current()))
      && e == (if NoneBroke(old(issued), issued) then ErrorOf(result) else Some(Unavailable))
    }

    /** All or nothing: also a failed transaction has a definite result. */
    twostate predicate Transacted(new e: Option<Error>, new result: Outcome<Store>)
      reads this
    {
      Ran(e, result) && (e.Some? ==> Current() == old(Current()))
    }

    /** All or nothing, unless the block joined a transaction: then the failure is
        left for the owner of that transaction to undo. */
    twostate predicate Enclosed(new e: Option<Error>, new result: Outcome<Store>)
      reads this
    {
      Ran(e, result) && (e.Some? && old(savepoints) == [] ==> Current() == old(Current()))
    }

    /** Update and audit of a gate, as one transaction. */
    method TransitionWithAudit(id: nat, expected: nat, item: Gate, audit: Audit) returns (e: Option<Error>)
      modifies this
      ensures var cas := Cas(old(gates), id, expected, item);
              Transacted(e, if cas.Err? then Err(cas.error)
                            else Ok(old(Current()).(gates := cas.value, audits := old(audits) + [audit])))
    {
      Begin();
      e := UpdateGate(id, expected, item);
      if e.None? {
        e := InsertAudit(audit);
      }
      End(e);
    }

    /** The statement that records evidence, if there is any. */
    method InsertEvidence(approval: Option<Approval>) returns (e: Option<Error>)
      modifies this
      ensures issued >= old(issued) && savepoints == old(savepoints)
      ensures var signed := AppendApproval(old(approvals), approval);
              && e == (if NoneBroke(old(issued), issued) then ErrorOf(signed) else Some(Unavailable))
              && (e.None? ==> signed.Ok? && Current() == old(Current()).(approvals := signed.value))
    {
      e := None;
      if approval.Some? {
        e := InsertApproval(approval.value);
      }
    }

    /** Row, evidence and audit of a directive, inside the running transaction. */
    method RecordMove(id: nat, expected: nat, item: Directive, approval: Option<Approval>, audit: Audit)
      returns (e: Option<Error>)
      modifies this
      ensures var cas := Cas(old(directives), id, expected, item);
              var signed := AppendApproval(old(approvals), approval);
              Ran(e, if cas.Err? then Err(cas.error) else if signed.Err? then Err(signed.error)
                     else Ok(old(Current()).(directives := cas.value, approvals := signed.value,
                                             audits := old(audits) + [audit])))
    {
      e := UpdateDirective(id, expected, item);
      if e.None? {
        e := InsertEvidence(approval);
      }
      if e.None? {
        e := InsertAudit(audit);
      }
    }

    /** The same as one nested transaction. */
    method TransitionWithApproval(id: nat, expected: nat, item: Directive, approval: Option<Approval>, audit: Audit)
      returns (e: Option<Error>)
      modifies this
      ensures var cas := Cas(old(directives), id, expected, item);
              var signed := AppendApproval(old(approvals), approval);
              Transacted(e, if cas.Err? then Err(cas.error) else if signed.Err? then Err(signed.error)
                            else Ok(old(Current()).(directives := cas.value, approvals := signed.value,
                                                    audits := old(audits) + [audit])))
    {
      Begin();
      e := RecordMove(id, expected, item, approval, audit);
      End(e);
    }
  }
}
