/** Concrete schedules that show what the hypotheses of the theorems are for. */
module Witness {
  import opened Statuses
  import opened Rows
  import opened Text
  import opened Repository
  import opened Services
  import opened Dispatch
  import opened Locking
  import opened Coupling
  import opened Serial
  import opened Outcomes
  import opened Liveness

  // ---- Building schedules ----

  function Opening(id: nat, request: Request, caller: Caller): seq<Event> {
    [Begin(id, request, caller), Read(id), Read(id), Read(id)]
  }

  lemma FourEvents(system: System, id: nat, request: Request, caller: Caller)
    requires id !in system.flights
    ensures Step(Step(Step(Step(system, Begin(id, request, caller)), Read(id)), Read(id)), Read(id))
            == system.(flights := system.flights[id := Uninterrupted(system.store, request, caller)])
  {
    var s0 := Step(system, Begin(id, request, caller));
    var s1 := Step(s0, Read(id));
    var s2 := Step(s1, Read(id));
    assert Step(s2, Read(id)).flights[id] == Uninterrupted(system.store, request, caller);
    assert Step(s2, Read(id)).flights == system.flights[id := Uninterrupted(system.store, request, caller)];
  }

  /** Events that are no commits need no honesty. */
  lemma AppendRead(schedule: seq<Event>, e: Event)
    requires !e.Finish?
    ensures Exec(schedule + [e]) == Step(Exec(schedule), e)
    ensures HonestSchedule(schedule + [e]) <==> HonestSchedule(schedule)
  {
    AppendEvent(schedule, e);
  }

  /** A request reads everything it needs at one moment and stays in flight. */
  lemma AppendOpening(schedule: seq<Event>, id: nat, request: Request, caller: Caller, now: System)
    requires Exec(schedule) == now && id !in now.flights
    ensures Exec(schedule + Opening(id, request, caller))
            == now.(flights := now.flights[id := Uninterrupted(now.store, request, caller)])
    ensures HonestSchedule(schedule + Opening(id, request, caller)) <==> HonestSchedule(schedule)
  {
    var s1 := schedule + [Begin(id, request, caller)];
    var s2 := s1 + [Read(id)];
    var s3 := s2 + [Read(id)];
    AppendRead(schedule, Begin(id, request, caller));
    AppendRead(s1, Read(id));
    AppendRead(s2, Read(id));
    AppendRead(s3, Read(id));
    assert schedule + Opening(id, request, caller) == s3 + [Read(id)];
    FourEvents(now, id, request, caller);
  }

  /** The plan `plan` of flight `f` commits. */
  lemma FinishEvent(system: System, id: nat, key: nat, f: Flight, plan: Plan, after: Store)
    requires id in system.flights && system.flights[id] == f && f.lookups == LOOKUPS
    requires Decide(f.request, f.caller, f.view) == Ok(plan) && Commit(system.store, plan, key) == Ok(after)
    ensures Step(system, Finish(id, key)) == System(after, system.flights - {id})
    ensures Succeeds(system, Finish(id, key))
    ensures HonestEvent(system, Finish(id, key)) <==> Honest(f)
  {
  }

  lemma AppendFinish(schedule: seq<Event>, id: nat, key: nat, now: System, f: Flight, plan: Plan, after: Store)
    requires Exec(schedule) == now && id in now.flights && now.flights[id] == f && f.lookups == LOOKUPS
    requires Decide(f.request, f.caller, f.view) == Ok(plan) && Commit(now.store, plan, key) == Ok(after)
    ensures Exec(schedule + [Finish(id, key)]) == System(after, now.flights - {id})
    ensures HonestSchedule(schedule + [Finish(id, key)]) <==> HonestSchedule(schedule) && Honest(f)
    ensures Commits(schedule + [Finish(id, key)], |schedule|, f)
  {
    AppendEvent(schedule, Finish(id, key));
    FinishEvent(now, id, key, f, plan, after);
    assert (schedule + [Finish(id, key)])[..|schedule|] == schedule;
  }

  /** `request` is planned as `plan` in the store `s`, and leaves `after`. */
  ghost predicate Leads(s: Store, request: Request, caller: Caller, plan: Plan, after: Store) {
    Decide(request, caller, ViewNow(s, request)) == Ok(plan) && Commit(s, plan, 0) == Ok(after)
  }

  lemma ViewLeads(s: Store, request: Request, caller: Caller, view: View, plan: Plan, after: Store)
    requires ViewNow(s, request) == view && Decide(request, caller, view) == Ok(plan) && Commit(s, plan, 0) == Ok(after)
    ensures Leads(s, request, caller, plan, after) && AtomicStep(s, request, caller, 0) == Ok(after)
  {
  }

  lemma AddedAndRemoved<T>(m: map<nat, T>, id: nat, x: T)
    requires id !in m
    ensures m[id := x] - {id} == m
  {
  }

  lemma FinishAlone(open: seq<Event>, id: nat, now: System, f: Flight, plan: Plan, after: Store)
    requires id !in now.flights && Exec(open) == now.(flights := now.flights[id := f]) && f.lookups == LOOKUPS
    requires Decide(f.request, f.caller, f.view) == Ok(plan) && Commit(now.store, plan, 0) == Ok(after)
    ensures Exec(open + [Finish(id, 0)]) == now.(store := after)
    ensures HonestSchedule(open + [Finish(id, 0)]) <==> HonestSchedule(open) && Honest(f)
    ensures Commits(open + [Finish(id, 0)], |open|, f)
  {
    AddedAndRemoved(now.flights, id, f);
    AppendFinish(open, id, 0, now.(flights := now.flights[id := f]), f, plan, after);
  }

  /** A request that nobody interrupts and that succeeds. */
  lemma AppendWhole(schedule: seq<Event>, id: nat, request: Request, caller: Caller, now: System, plan: Plan, after: Store)
    returns (longer: seq<Event>)
    requires Exec(schedule) == now && id !in now.flights
    requires Leads(now.store, request, caller, plan, after)
    ensures longer == schedule + Opening(id, request, caller) + [Finish(id, 0)]
    ensures Exec(longer) == now.(store := after)
    ensures HonestSchedule(longer) <==> HonestSchedule(schedule) && Honest(Uninterrupted(now.store, request, caller))
    ensures Commits(longer, |longer| - 1, Uninterrupted(now.store, request, caller))
  {
    var open := schedule + Opening(id, request, caller);
    AppendOpening(schedule, id, request, caller, now);
    FinishAlone(open, id, now, Uninterrupted(now.store, request, caller), plan, after);
    longer := open + [Finish(id, 0)];
  }

  /** `late` reads and stays in flight, then `other` runs as a whole. */
  lemma LateThenWhole(base: seq<Event>, s: Store, late: Request, c1: Caller, other: Request, c2: Caller, otherPlan: Plan, mid: Store)
    returns (before: seq<Event>)
    requires Exec(base) == System(s, map[])
    requires Leads(s, other, c2, otherPlan, mid)
    ensures Exec(before) == System(mid, map[1 := Uninterrupted(s, late, c1)])
    ensures HonestSchedule(before) <==> HonestSchedule(base) && Honest(Uninterrupted(s, other, c2))
  {
    AppendOpening(base, 1, late, c1, System(s, map[]));
    var open := base + Opening(1, late, c1);
    before := AppendWhole(open, 2, other, c2, System(s, map[1 := Uninterrupted(s, late, c1)]), otherPlan, mid);
  }

  /** `late` reads, `other` runs as a whole, then `late` commits. */
  lemma Overtaken(base: seq<Event>, s: Store, late: Request, c1: Caller, plan: Plan,
                  other: Request, c2: Caller, otherPlan: Plan, mid: Store, after: Store)
    returns (schedule: seq<Event>, n: nat)
    requires Exec(base) == System(s, map[])
    requires Decide(late, c1, ViewNow(s, late)) == Ok(plan)
    requires Leads(s, other, c2, otherPlan, mid)
    requires Commit(mid, plan, 0) == Ok(after)
    ensures n <= |schedule| && Exec(schedule[..n]).store == mid && Exec(schedule).store == after
    ensures HonestSchedule(schedule) <==> && HonestSchedule(base)
                                          && Honest(Uninterrupted(s, other, c2)) && Honest(Uninterrupted(s, late, c1))
  {
    var before := LateThenWhole(base, s, late, c1, other, c2, otherPlan, mid);
    var f := Uninterrupted(s, late, c1);
    AppendFinish(before, 1, 0, System(mid, map[1 := f]), f, plan, after);
    schedule, n := before + [Finish(1, 0)], |before|;
    assert schedule[..n] == before;
  }

  // ---- A small plant ----

  const OPERATOR := Caller("a", Operator)
  const REVIEWER := Caller("b", Reviewer)
  const FORM := Form("X", "N", "F", "O", "C", "low", "")
  const CODE := Canonical("X")

  const GATE := Row(CODE, Open, 1, false, GateBody(Trimmed(FORM), Canonical("R")))

  function Order(submittedBy: string, approvedBy: string): DirectiveBody {
    DirectiveBody(Trimmed(FORM), CODE, Open, submittedBy, approvedBy)
  }

  function DirectiveAt(status: Status, version: nat): Directive {
    var submittedBy := if status == Draft then "" else "a";
    var approvedBy := if status == Draft || status == Pending then "" else "b";
    Row(CODE, status, version, false, Order(submittedBy, approvedBy))
  }

  /** One gate, still open, and one directive that wants it open. */
  predicate Plant(s: Store, directive: Option<Directive>) {
    && s.gates == map[0 := GATE] && s.receipts == map[]
    && s.directives == (if directive.None? then map[] else map[0 := directive.value])
  }

  lemma FormIsComplete()
    ensures Complete(FORM.code, FORM) && Trim(FORM.facility) == "F" && EqualFold("F", Trimmed(FORM).facility)
    ensures !EqualFold("a", "b")
    ensures Canonical(CODE) == CODE
  {
    assert Bare(FORM.code) && Bare(FORM.name) && Bare(FORM.facility) && Bare(FORM.owner);
    assert Upper("a")[0] == 'A' && Upper("b")[0] == 'B';
    CanonicalIsStable("X");
  }

  lemma GateIsFound(s: Store, code: string)
    requires s.gates == map[0 := GATE] && Canonical(code) == CODE
    ensures ByCode(s.gates, code) == Some(Seen(0, GATE))
  {
    FoundAgain(s.gates, Seen(0, GATE));
  }

  lemma GatePlanned(s: Store) returns (plan: Plan)
    ensures var request := CreateGate(FORM, "R", Some(Reservoir("R", "F")));
            Decide(request, OPERATOR, ViewNow(s, request)) == Ok(plan)
    ensures plan == PlanGate(OPERATOR, Insert(GATE))
  {
    FormIsComplete();
    assert EqualFold("F", "F");
    plan := PlanGate(OPERATOR, Insert(GATE));
  }

  lemma GateCreated(s: Store) returns (plan: Plan, after: Store)
    requires s == EMPTY_STORE
    ensures Leads(s, CreateGate(FORM, "R", Some(Reservoir("R", "F"))), OPERATOR, plan, after)
    ensures Plant(after, None) && after.approvals == []
  {
    plan := GatePlanned(s);
    after := Commit(s, plan, 0).value;
  }

  lemma DirectivePlanned(s: Store) returns (plan: Plan)
    requires Plant(s, None)
    ensures var request := CreateDirective(FORM, "X", Some(Open));
            Decide(request, OPERATOR, ViewNow(s, request)) == Ok(plan)
    ensures plan == PlanDirective(OPERATOR, Insert(DirectiveAt(Draft, 1)))
  {
    FormIsComplete();
    GateIsFound(s, "X");
    plan := PlanDirective(OPERATOR, Insert(DirectiveAt(Draft, 1)));
  }

  lemma DirectiveCreated(s: Store) returns (plan: Plan, after: Store)
    requires Plant(s, None) && s.approvals == []
    ensures Leads(s, CreateDirective(FORM, "X", Some(Open)), OPERATOR, plan, after)
    ensures Plant(after, Some(DirectiveAt(Draft, 1))) && after.approvals == []
  {
    plan := DirectivePlanned(s);
    after := Commit(s, plan, 0).value;
  }

  /** A move that needs no gate sees the directive alone. */
  lemma MoveView(s: Store, directive: Directive, target: Status, expected: nat)
    requires Plant(s, Some(directive)) && !directive.deleted && !NeedsGate(directive.status, target)
    ensures ViewNow(s, MoveDirective(0, target, expected)) == View(None, Some(Seen(0, directive)), None, 0)
  {
  }

  /** The plan that moves the one directive. */
  function Moved(caller: Caller, before: Directive, after: Directive, approval: Option<Approval>): Plan {
    Plan(caller.actor, None, Some(Update(0, before.version, after, Transitioned, before.status)), approval, None)
  }

  lemma MoveCommits(s: Store, caller: Caller, before: Directive, next: Directive, approval: Option<Approval>)
    returns (after: Store)
    requires Plant(s, Some(before)) && !before.deleted && next.code == before.code && !next.deleted
    requires AppendApproval(s.approvals, approval).Ok?
    ensures Commit(s, Moved(caller, before, next, approval), 0) == Ok(after)
    ensures Plant(after, Some(next)) && after.approvals == AppendApproval(s.approvals, approval).value
  {
    after := Commit(s, Moved(caller, before, next, approval), 0).value;
  }

  const SUBMISSION := Approval(0, Submitted, "a", Operator, Draft, Pending)
  const ENDORSEMENT := Approval(0, Endorsed, "b", Reviewer, Pending, Approved)

  lemma SubmissionDecided(d: Directive, caller: Caller) returns (next: Directive)
    requires d.status == Draft && caller.role == Operator
    ensures next == d.(status := Pending, version := d.version + 1, body := d.body.(submittedBy := caller.actor))
    ensures DecideMoveDirective(caller, View(None, Some(Seen(0, d)), None, 0), Pending, d.version)
            == Ok(Moved(caller, d, next, Some(Approval(0, Submitted, caller.actor, Operator, Draft, Pending))))
  {
    DirectiveEdges(Draft, Pending);
    next := d.(status := Pending, version := d.version + 1, body := d.body.(submittedBy := caller.actor));
  }

  lemma DirectiveSubmitted(s: Store) returns (plan: Plan, after: Store)
    requires Plant(s, Some(DirectiveAt(Draft, 1))) && s.approvals == []
    ensures Leads(s, MoveDirective(0, Pending, 1), OPERATOR, plan, after)
    ensures Plant(after, Some(DirectiveAt(Pending, 2))) && after.approvals == [SUBMISSION]
  {
    MoveView(s, DirectiveAt(Draft, 1), Pending, 1);
    var next := SubmissionDecided(DirectiveAt(Draft, 1), OPERATOR);
    plan := Moved(OPERATOR, DirectiveAt(Draft, 1), next, Some(SUBMISSION));
    after := MoveCommits(s, OPERATOR, DirectiveAt(Draft, 1), DirectiveAt(Pending, 2), Some(SUBMISSION));
    ViewLeads(s, MoveDirective(0, Pending, 1), OPERATOR, View(None, Some(Seen(0, DirectiveAt(Draft, 1))), None, 0), plan, after);
  }

  lemma EndorsementDecided(d: Directive, caller: Caller) returns (next: Directive)
    requires d.status == Pending && caller.role == Reviewer && d.body.submittedBy != "" && !EqualFold(d.body.submittedBy, caller.actor)
    ensures next == d.(status := Approved, version := d.version + 1, body := d.body.(approvedBy := caller.actor))
    ensures DecideMoveDirective(caller, View(None, Some(Seen(0, d)), None, 0), Approved, d.version)
            == Ok(Moved(caller, d, next, Some(Approval(0, Endorsed, caller.actor, Reviewer, Pending, Approved))))
  {
    DirectiveEdges(Pending, Approved);
    next := d.(status := Approved, version := d.version + 1, body := d.body.(approvedBy := caller.actor));
  }

  lemma DirectiveApproved(s: Store) returns (plan: Plan, after: Store)
    requires Plant(s, Some(DirectiveAt(Pending, 2))) && s.approvals == [SUBMISSION]
    ensures Leads(s, MoveDirective(0, Approved, 2), REVIEWER, plan, after)
    ensures Plant(after, Some(DirectiveAt(Approved, 3)))
  {
    MoveView(s, DirectiveAt(Pending, 2), Approved, 2);
    FormIsComplete();
    var next := EndorsementDecided(DirectiveAt(Pending, 2), REVIEWER);
    plan := Moved(REVIEWER, DirectiveAt(Pending, 2), next, Some(ENDORSEMENT));
    after := MoveCommits(s, REVIEWER, DirectiveAt(Pending, 2), DirectiveAt(Approved, 3), Some(ENDORSEMENT));
    ViewLeads(s, MoveDirective(0, Approved, 2), REVIEWER, View(None, Some(Seen(0, DirectiveAt(Pending, 2))), None, 0), plan, after);
  }

  lemma EchoIsHonest(s: Store, directive: Directive, target: Status, caller: Caller)
    requires Plant(s, Some(directive))
    ensures Honest(Uninterrupted(s, MoveDirective(0, target, directive.version), caller))
  {
  }

  lemma GateIsReachable() returns (schedule: seq<Event>, s: Store)
    ensures HonestSchedule(schedule) && Exec(schedule) == System(s, map[])
    ensures Plant(s, None) && s.approvals == []
  {
    var request, plan := CreateGate(FORM, "R", Some(Reservoir("R", "F"))), PlanGate(OPERATOR, Insert(GATE));
    plan, s := GateCreated(EMPTY_STORE);
    schedule := AppendWhole([], 0, request, OPERATOR, INITIAL, plan, s);
  }

  lemma DraftIsReachable() returns (schedule: seq<Event>, s: Store)
    ensures HonestSchedule(schedule) && Exec(schedule) == System(s, map[])
    ensures Plant(s, Some(DirectiveAt(Draft, 1))) && s.approvals == []
  {
    var plan, before;
    schedule, before := GateIsReachable();
    plan, s := DirectiveCreated(before);
    schedule := AppendWhole(schedule, 0, CreateDirective(FORM, "X", Some(Open)), OPERATOR, System(before, map[]), plan, s);
  }

  /** An uninterrupted move that echoes the version it read, appended to a schedule. */
  lemma AppendMove(schedule: seq<Event>, s: Store, directive: Directive, target: Status, caller: Caller, plan: Plan, after: Store)
    returns (longer: seq<Event>)
    requires HonestSchedule(schedule) && Exec(schedule) == System(s, map[])
    requires Plant(s, Some(directive)) && Leads(s, MoveDirective(0, target, directive.version), caller, plan, after)
    ensures HonestSchedule(longer) && Exec(longer) == System(after, map[])
  {
    EchoIsHonest(s, directive, target, caller);
    longer := AppendWhole(schedule, 0, MoveDirective(0, target, directive.version), caller, System(s, map[]), plan, after);
  }

  lemma PendingIsReachable() returns (schedule: seq<Event>, s: Store)
    ensures HonestSchedule(schedule) && Exec(schedule) == System(s, map[])
    ensures Plant(s, Some(DirectiveAt(Pending, 2))) && s.approvals == [SUBMISSION]
  {
    var plan, before;
    schedule, before := DraftIsReachable();
    plan, s := DirectiveSubmitted(before);
    schedule := AppendMove(schedule, before, DirectiveAt(Draft, 1), Pending, OPERATOR, plan, s);
  }

  /** An honest schedule that ends with an approved directive at version 3. */
  lemma ApprovedIsReachable() returns (schedule: seq<Event>, s: Store)
    ensures HonestSchedule(schedule) && Exec(schedule) == System(s, map[])
    ensures Plant(s, Some(DirectiveAt(Approved, 3)))
  {
    var plan, before;
    schedule, before := PendingIsReachable();
    plan, s := DirectiveApproved(before);
    schedule := AppendMove(schedule, before, DirectiveAt(Pending, 2), Approved, REVIEWER, plan, s);
  }

  // ---- Dishonest clients can revive a terminal row ----

  lemma WithdrawalDecided(d: Directive, caller: Caller) returns (next: Directive)
    requires d.status == Approved && caller.role == Operator
    ensures next == d.(status := Aborted, version := d.version + 1)
    ensures DecideMoveDirective(caller, View(None, Some(Seen(0, d)), None, 0), Aborted, d.version)
            == Ok(Moved(caller, d, next, None))
  {
    DirectiveEdges(Approved, Aborted);
    next := d.(status := Aborted, version := d.version + 1);
  }

  lemma DirectiveAborted(s: Store) returns (plan: Plan, after: Store)
    requires Plant(s, Some(DirectiveAt(Approved, 3)))
    ensures Leads(s, MoveDirective(0, Aborted, 3), OPERATOR, plan, after)
    ensures Plant(after, Some(DirectiveAt(Aborted, 4)))
  {
    MoveView(s, DirectiveAt(Approved, 3), Aborted, 3);
    var next := WithdrawalDecided(DirectiveAt(Approved, 3), OPERATOR);
    plan := Moved(OPERATOR, DirectiveAt(Approved, 3), next, None);
    after := MoveCommits(s, OPERATOR, DirectiveAt(Approved, 3), DirectiveAt(Aborted, 4), None);
    ViewLeads(s, MoveDirective(0, Aborted, 3), OPERATOR, View(None, Some(Seen(0, DirectiveAt(Approved, 3))), None, 0), plan, after);
  }

  lemma StartDecided(d: Directive, gate: Gate, expected: nat, caller: Caller)
    requires d.status == Approved && gate.status == d.body.target == Open && caller.role == Operator
    ensures DecideMoveDirective(caller, View(None, Some(Seen(0, d)), Some(Seen(0, gate)), 0), Executing, expected)
            == Ok(Plan(caller.actor, None,
                       Some(Update(0, expected, d.(status := Executing, version := expected + 1), Transitioned, Approved)),
                       None, None))
  {
    DirectiveEdges(Approved, Executing);
  }

  lemma ExecutionRead(s: Store, expected: nat) returns (plan: Plan)
    requires Plant(s, Some(DirectiveAt(Approved, 3)))
    ensures var request := MoveDirective(0, Executing, expected);
            Decide(request, OPERATOR, ViewNow(s, request)) == Ok(plan)
    ensures plan == Plan("a", None, Some(Update(0, expected, DirectiveAt(Executing, expected + 1), Transitioned, Approved)),
                         None, None)
  {
    FormIsComplete();
    GateIsFound(s, CODE);
    StartDecided(DirectiveAt(Approved, 3), GATE, expected, OPERATOR);
    plan := Plan("a", None, Some(Update(0, expected, DirectiveAt(Executing, expected + 1), Transitioned, Approved)), None, None);
    assert ViewNow(s, MoveDirective(0, Executing, expected))
        == View(None, Some(Seen(0, DirectiveAt(Approved, 3))), Some(Seen(0, GATE)), 0);
  }

  lemma AheadIsDishonest(s: Store, expected: nat)
    requires Plant(s, Some(DirectiveAt(Approved, 3))) && expected > 3
    ensures !Honest(Uninterrupted(s, MoveDirective(0, Executing, expected), OPERATOR))
  {
  }

  lemma RevivedPlant(aborted: Store, plan: Plan)
    requires Plant(aborted, Some(DirectiveAt(Aborted, 4)))
    requires plan == Plan("a", None, Some(Update(0, 4, DirectiveAt(Executing, 5), Transitioned, Approved)), None, None)
    ensures var outcome := Commit(aborted, plan, 0);
            outcome.Ok? && 0 in outcome.value.directives && outcome.value.directives[0].status == Executing
  {
  }

  /** Without honesty the terminal state is left: a request reads version 3, asks
      with version 4, and commits after another request has aborted the directive. */
  lemma DishonestClientRevivesDirective() returns (schedule: seq<Event>, n: nat)
    ensures n <= |schedule| && !HonestSchedule(schedule)
    ensures var s, t := Exec(schedule[..n]).store, Exec(schedule).store;
            0 in s.directives && s.directives[0].status == Aborted && 0 in t.directives && t.directives[0].status == Executing
  {
    var base, s := ApprovedIsReachable();
    var plan := ExecutionRead(s, 4);
    var abort, aborted := DirectiveAborted(s);
    RevivedPlant(aborted, plan);
    AheadIsDishonest(s, 4);
    schedule, n := Overtaken(base, s, MoveDirective(0, Executing, 4), OPERATOR, plan,
                             MoveDirective(0, Aborted, 3), OPERATOR, abort, aborted, Commit(aborted, plan, 0).value);
  }

  // ---- Without a gate write the gate can be elsewhere ----

  lemma LockPlanned(s: Store) returns (plan: Plan)
    requires s.gates == map[0 := GATE]
    ensures Decide(MoveGate(0, Locked, 1), OPERATOR, ViewNow(s, MoveGate(0, Locked, 1))) == Ok(plan)
    ensures plan == PlanGate(OPERATOR, Update(0, 1, GATE.(status := Locked, version := 2), Transitioned, Open))
  {
    GateEdges(Open, Locked);
    plan := PlanGate(OPERATOR, Update(0, 1, GATE.(status := Locked, version := 2), Transitioned, Open));
  }

  lemma GateLocked(s: Store) returns (plan: Plan, after: Store)
    requires Plant(s, Some(DirectiveAt(Approved, 3)))
    ensures Leads(s, MoveGate(0, Locked, 1), OPERATOR, plan, after)
    ensures after.gates == map[0 := GATE.(status := Locked, version := 2)]
    ensures after.directives == s.directives && after.approvals == s.approvals && after.receipts == s.receipts
  {
    plan := LockPlanned(s);
    after := Commit(s, plan, 0).value;
  }

  lemma LockIsHonest(s: Store)
    requires s.gates == map[0 := GATE]
    ensures Honest(Uninterrupted(s, MoveGate(0, Locked, 1), OPERATOR))
  {
  }

  /** A directive that wants its gate open has started on a locked gate. */
  predicate StartedOnLockedGate(s: Store) {
    && 0 in s.directives && s.directives[0].status == Executing && !s.directives[0].deleted
    && 0 in s.gates && s.gates[0].code == Canonical(s.directives[0].body.gateCode)
    && !Coupled(Approved, s.directives[0].status, s.directives[0].body.target, s.gates[0].status)
  }

  lemma StartCommits(locked: Store, plan: Plan) returns (after: Store)
    requires locked.gates == map[0 := GATE.(status := Locked, version := 2)]
    requires locked.directives == map[0 := DirectiveAt(Approved, 3)]
    requires plan == Plan("a", None, Some(Update(0, 3, DirectiveAt(Executing, 4), Transitioned, Approved)), None, None)
    ensures Commit(locked, plan, 0) == Ok(after) && StartedOnLockedGate(after)
  {
    FormIsComplete();
    after := Commit(locked, plan, 0).value;
    assert after.directives == map[0 := DirectiveAt(Executing, 4)];
  }

  /** An honest schedule in which a directive starts executing on a locked gate:
      the gate was at its target when read, so its row was not written. */
  lemma UnwrittenGateIsUnchecked() returns (schedule: seq<Event>)
    ensures HonestSchedule(schedule) && StartedOnLockedGate(Exec(schedule).store)
  {
    var base, s := ApprovedIsReachable();
    var plan := ExecutionRead(s, 3);
    var lock, locked := GateLocked(s);
    EchoIsHonest(s, DirectiveAt(Approved, 3), Executing, OPERATOR);
    LockIsHonest(s);
    var after := StartCommits(locked, plan);
    var n;
    schedule, n := Overtaken(base, s, MoveDirective(0, Executing, 3), OPERATOR, plan,
                             MoveGate(0, Locked, 1), OPERATOR, lock, locked, after);
  }

  // ---- Deletions are not versioned ----

  lemma DraftDeletionPlanned(s: Store) returns (plan: Plan)
    requires Plant(s, Some(DirectiveAt(Draft, 1)))
    ensures Decide(DeleteDirective(0), OPERATOR, ViewNow(s, DeleteDirective(0))) == Ok(plan)
    ensures plan == PlanDirective(OPERATOR, Remove(0, Draft))
    ensures Honest(Uninterrupted(s, DeleteDirective(0), OPERATOR))
  {
    plan := PlanDirective(OPERATOR, Remove(0, Draft));
  }

  lemma DirectiveDeleted(s: Store, directive: Directive) returns (after: Store)
    requires Plant(s, Some(directive)) && !directive.deleted
    ensures Commit(s, PlanDirective(OPERATOR, Remove(0, Draft)), 0) == Ok(after)
    ensures after.directives == map[0 := directive.(deleted := true)]
  {
    after := Commit(s, PlanDirective(OPERATOR, Remove(0, Draft)), 0).value;
  }

  /** An honest schedule in which a submitted directive is deleted: it was still
      a draft when the deletion looked. */
  lemma SubmittedDirectiveCanBeDeleted() returns (schedule: seq<Event>)
    ensures HonestSchedule(schedule)
    ensures var s := Exec(schedule).store;
            0 in s.directives && s.directives[0].deleted && s.directives[0].status == Pending
  {
    var base, s := DraftIsReachable();
    var move, submitted := DirectiveSubmitted(s);
    EchoIsHonest(s, DirectiveAt(Draft, 1), Pending, OPERATOR);
    var plan := DraftDeletionPlanned(s);
    var after := DirectiveDeleted(submitted, DirectiveAt(Pending, 2));
    var n;
    schedule, n := Overtaken(base, s, DeleteDirective(0), OPERATOR, plan,
                             MoveDirective(0, Pending, 1), OPERATOR, move, submitted, after);
  }

  // ---- An execution with its receipt ----

  const RECEIPT := Row(CODE, Pending, 1, false, ReceiptBody(Trimmed(FORM), CODE, ""))

  /** The plant with an executing directive and this receipt. */
  predicate Execution(s: Store, receipt: Option<Receipt>) {
    && s.gates == map[0 := GATE] && s.directives == map[0 := DirectiveAt(Executing, 4)]
    && s.receipts == (if receipt.None? then map[] else map[0 := receipt.value])
  }

  lemma DirectiveStarted(s: Store) returns (plan: Plan, after: Store)
    requires Plant(s, Some(DirectiveAt(Approved, 3)))
    ensures Leads(s, MoveDirective(0, Executing, 3), OPERATOR, plan, after)
    ensures Execution(after, None)
  {
    plan := ExecutionRead(s, 3);
    after := MoveCommits(s, OPERATOR, DirectiveAt(Approved, 3), DirectiveAt(Executing, 4), None);
  }

  lemma DirectiveIsFound(s: Store, receipt: Option<Receipt>, code: string)
    requires Execution(s, receipt) && Canonical(code) == CODE
    ensures ByCode(s.directives, code) == Some(Seen(0, DirectiveAt(Executing, 4)))
  {
    FoundAgain(s.directives, Seen(0, DirectiveAt(Executing, 4)));
  }

  lemma ReceiptPlanned(s: Store) returns (plan: Plan)
    requires Execution(s, None)
    ensures var request := CreateReceipt(FORM, "X");
            Decide(request, OPERATOR, ViewNow(s, request)) == Ok(plan)
    ensures plan == PlanReceipt(OPERATOR, Insert(RECEIPT))
  {
    FormIsComplete();
    DirectiveIsFound(s, None, "X");
    var request := CreateReceipt(FORM, "X");
    assert ViewNow(s, request) == View(None, Some(Seen(0, DirectiveAt(Executing, 4))), None, 0);
    plan := PlanReceipt(OPERATOR, Insert(RECEIPT));
  }

  lemma ReceiptCreated(s: Store) returns (plan: Plan, after: Store)
    requires Execution(s, None)
    ensures Leads(s, CreateReceipt(FORM, "X"), OPERATOR, plan, after)
    ensures Execution(after, Some(RECEIPT))
  {
    plan := ReceiptPlanned(s);
    after := Commit(s, plan, 0).value;
  }

  /** An honest schedule that ends with an execution under way. */
  lemma ExecutionIsReachable() returns (schedule: seq<Event>, s: Store)
    ensures HonestSchedule(schedule) && Exec(schedule) == System(s, map[])
    ensures Execution(s, None)
  {
    var plan, before;
    schedule, before := ApprovedIsReachable();
    plan, s := DirectiveStarted(before);
    schedule := AppendMove(schedule, before, DirectiveAt(Approved, 3), Executing, OPERATOR, plan, s);
  }

  lemma ReceiptIsReachable() returns (schedule: seq<Event>, s: Store)
    ensures HonestSchedule(schedule) && Exec(schedule) == System(s, map[])
    ensures Execution(s, Some(RECEIPT))
  {
    var plan, before;
    schedule, before := ExecutionIsReachable();
    plan, s := ReceiptCreated(before);
    schedule := AppendWhole(schedule, 0, CreateReceipt(FORM, "X"), OPERATOR, System(before, map[]), plan, s);
  }

  const CONFIRMED := RECEIPT.(status := Confirmed, version := 2, body := RECEIPT.body.(confirmedBy := "a"))

  const CONFIRMATION := Plan("a", Some(Update(0, 1, CONFIRMED, Transitioned, Pending)),
                             Some(SetStatus(Seen(0, DirectiveAt(Executing, 4)), Completed, ExecutionOutcome)), None, None)

  lemma ConfirmationDecided()
    ensures DecideMoveReceipt(OPERATOR, View(Some(Seen(0, RECEIPT)), Some(Seen(0, DirectiveAt(Executing, 4))),
                                             Some(Seen(0, GATE)), 0), Confirmed, 1) == Ok(CONFIRMATION)
  {
    ReceiptEdges(Pending, Confirmed);
  }

  lemma ConfirmationView(s: Store)
    requires Execution(s, Some(RECEIPT))
    ensures ViewNow(s, MoveReceipt(0, Confirmed, 1))
            == View(Some(Seen(0, RECEIPT)), Some(Seen(0, DirectiveAt(Executing, 4))), Some(Seen(0, GATE)), 0)
  {
    FormIsComplete();
    DirectiveIsFound(s, Some(RECEIPT), CODE);
    GateIsFound(s, CODE);
  }

  lemma ConfirmationApplies(s: Store)
    requires Execution(s, Some(RECEIPT))
    ensures ApplyReceipt(s.receipts, CONFIRMATION.receipt, 0) == Ok(map[0 := CONFIRMED])
  {
    var next := ApplyReceipt(s.receipts, CONFIRMATION.receipt, 0);
    assert next.Ok?;
    assert next.value == map[0 := CONFIRMED];
  }

  lemma ConfirmationCommits(s: Store) returns (after: Store)
    requires Execution(s, Some(RECEIPT))
    ensures Commit(s, CONFIRMATION, 0) == Ok(after) && after.receipts == map[0 := CONFIRMED]
  {
    ConfirmationApplies(s);
    after := Commit(s, CONFIRMATION, 0).value;
  }

  lemma ReceiptConfirmed(s: Store) returns (after: Store)
    requires Execution(s, Some(RECEIPT))
    ensures Leads(s, MoveReceipt(0, Confirmed, 1), OPERATOR, CONFIRMATION, after)
    ensures AtomicStep(s, MoveReceipt(0, Confirmed, 1), OPERATOR, 0) == Ok(after)
    ensures after.receipts == map[0 := CONFIRMED]
  {
    ConfirmationView(s);
    ConfirmationDecided();
    after := ConfirmationCommits(s);
    ViewLeads(s, MoveReceipt(0, Confirmed, 1), OPERATOR, ViewNow(s, MoveReceipt(0, Confirmed, 1)), CONFIRMATION, after);
  }

  lemma ConfirmationIsHonest(s: Store)
    requires Execution(s, Some(RECEIPT))
    ensures Honest(Uninterrupted(s, MoveReceipt(0, Confirmed, 1), OPERATOR))
  {
  }

  lemma ReceiptDeletionPlanned(s: Store) returns (plan: Plan)
    requires Execution(s, Some(RECEIPT))
    ensures Decide(DeleteReceipt(0), OPERATOR, ViewNow(s, DeleteReceipt(0))) == Ok(plan)
    ensures plan == PlanReceipt(OPERATOR, Remove(0, Pending))
    ensures Honest(Uninterrupted(s, DeleteReceipt(0), OPERATOR))
  {
    plan := PlanReceipt(OPERATOR, Remove(0, Pending));
  }

  lemma ReceiptDeleted(s: Store) returns (after: Store)
    requires s.receipts == map[0 := CONFIRMED]
    ensures Commit(s, PlanReceipt(OPERATOR, Remove(0, Pending)), 0) == Ok(after)
    ensures after.receipts == map[0 := CONFIRMED.(deleted := true)]
  {
    after := Commit(s, PlanReceipt(OPERATOR, Remove(0, Pending)), 0).value;
  }

  /** An honest schedule in which a confirmed receipt is deleted: it was still pending
      when the deletion looked. */
  lemma ConfirmedReceiptCanBeDeleted() returns (schedule: seq<Event>)
    ensures HonestSchedule(schedule)
    ensures var s := Exec(schedule).store;
            0 in s.receipts && s.receipts[0].deleted && s.receipts[0].status == Confirmed
  {
    var base, s := ReceiptIsReachable();
    var confirmed := ReceiptConfirmed(s);
    ConfirmationIsHonest(s);
    var plan := ReceiptDeletionPlanned(s);
    var after := ReceiptDeleted(confirmed);
    var n;
    schedule, n := Overtaken(base, s, DeleteReceipt(0), OPERATOR, plan,
                             MoveReceipt(0, Confirmed, 1), OPERATOR, CONFIRMATION, confirmed, after);
  }

  // ---- The hypotheses of the outcome theorems can be met ----

  lemma ConfirmationEnds(f: Flight)
    requires Decide(f.request, f.caller, f.view) == Ok(CONFIRMATION)
    ensures PlanMovesDirective(CONFIRMATION) && EndsExecution(f, 0) && Replaces(f, OperationDirective) == Some((0, 4))
  {
  }

  lemma ConfirmationIsReachable() returns (schedule: seq<Event>, s: Store, f: Flight)
    ensures HonestSchedule(schedule) && schedule != [] && Commits(schedule, |schedule| - 1, f) && Honest(f)
    ensures f == Uninterrupted(s, MoveReceipt(0, Confirmed, 1), OPERATOR) && Execution(s, Some(RECEIPT))
  {
    var base;
    base, s := ReceiptIsReachable();
    var confirmed := ReceiptConfirmed(s);
    ConfirmationIsHonest(s);
    schedule := AppendWhole(base, 0, MoveReceipt(0, Confirmed, 1), OPERATOR, System(s, map[]), CONFIRMATION, confirmed);
    f := Uninterrupted(s, MoveReceipt(0, Confirmed, 1), OPERATOR);
  }

  /** An honest schedule with a commit that completes an execution. It is an instance
      of `OneOutcomePerExecution`, `OneWriterPerVersion` and `GateCoupling`, and, with
      the store before it, of `AtomicCoupling`. */
  lemma ExecutionIsConfirmed() returns (schedule: seq<Event>, k: nat, f: Flight, s: Store)
    ensures HonestSchedule(schedule) && Commits(schedule, k, f) && Honest(f)
    ensures Decide(f.request, f.caller, f.view) == Ok(CONFIRMATION) && PlanMovesDirective(CONFIRMATION)
    ensures EndsExecution(f, 0) && Replaces(f, OperationDirective) == Some((0, 4))
    ensures f == Uninterrupted(s, f.request, f.caller) && AtomicStep(s, f.request, f.caller, 0).Ok?
  {
    schedule, s, f := ConfirmationIsReachable();
    k := |schedule| - 1;
    var confirmed := ReceiptConfirmed(s);
    ConfirmationEnds(f);
  }

  // ---- The gate of an execution can be deleted ----

  lemma GateDeletionPlanned(s: Store) returns (plan: Plan)
    requires s.gates == map[0 := GATE]
    ensures Decide(DeleteGate(0), OPERATOR, ViewNow(s, DeleteGate(0))) == Ok(plan)
    ensures plan == PlanGate(OPERATOR, Remove(0, Open))
    ensures Honest(Uninterrupted(s, DeleteGate(0), OPERATOR))
  {
    plan := PlanGate(OPERATOR, Remove(0, Open));
  }

  lemma GateDeleted(s: Store) returns (after: Store)
    requires Execution(s, None)
    ensures Commit(s, PlanGate(OPERATOR, Remove(0, Open)), 0) == Ok(after)
    ensures after.gates == map[0 := GATE.(deleted := true)] && after.directives == s.directives
  {
    after := Commit(s, PlanGate(OPERATOR, Remove(0, Open)), 0).value;
  }

  lemma NobodyKnowsBetter(s: Store)
    requires s.gates == map[0 := GATE.(deleted := true)] && s.directives == map[0 := DirectiveAt(Executing, 4)]
    ensures Stranded(System(s, map[]), 0, DirectiveAt(Executing, 4), 0, GATE.(deleted := true))
  {
    FormIsComplete();
  }

  /** An honest schedule that leaves a directive executing for ever: nothing protects
      its gate from deletion. */
  lemma ExecutionCanBeStranded() returns (schedule: seq<Event>)
    ensures HonestSchedule(schedule)
    ensures Stranded(Exec(schedule), 0, DirectiveAt(Executing, 4), 0, GATE.(deleted := true))
  {
    var s;
    schedule, s := ExecutionIsReachable();
    var plan := GateDeletionPlanned(s);
    var after := GateDeleted(s);
    schedule := AppendWhole(schedule, 0, DeleteGate(0), OPERATOR, System(s, map[]), plan, after);
    NobodyKnowsBetter(after);
  }
}
