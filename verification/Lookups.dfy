/** When the rows of a request were read: each lookup saw the store of one earlier
    moment, in the order of the lookups. And which clients are honest. */
module Lookups {
  import opened Rows
  import opened Services
  import opened Dispatch
  import opened Versions
  import opened Locking

  /** The event that made the last lookup of a flight. */
  lemma {:induction false} LastLookup(schedule: seq<Event>, id: nat) returns (k: nat)
    requires id in Exec(schedule).flights && Exec(schedule).flights[id].lookups > 0
    ensures k < |schedule| && schedule[k] == Read(id)
    ensures var past, f := Exec(schedule[..k]), Exec(schedule).flights[id];
            id in past.flights && past.flights[id].lookups + 1 == f.lookups
            && NextRead(past.store, past.flights[id]) == f
  {
    var n := |schedule| - 1;
    var before := Exec(schedule[..n]);
    if id in before.flights && before.flights[id] == Exec(schedule).flights[id] {
      k := LastLookup(schedule[..n], id);
      assert schedule[..n][..k] == schedule[..k];
    } else {
      k := n;
    }
  }

  /** A request in flight holds the receipt as it was at moment `i`, the directive as
      it was at `j` and the gate as it was at `k`, in this order. */
  lemma LookupMoments(schedule: seq<Event>, id: nat) returns (i: nat, j: nat, k: nat)
    requires id in Exec(schedule).flights && Exec(schedule).flights[id].lookups == LOOKUPS
    ensures i < j < k < |schedule| && schedule[i] == schedule[j] == schedule[k] == Read(id)
    ensures var f := Exec(schedule).flights[id];
            && f.view.receipt == ReadReceipt(Exec(schedule[..i]).store, f.request)
            && f.view.directive == ReadDirective(Exec(schedule[..j]).store, f.request, f.view)
            && f.view.gate == ReadGate(Exec(schedule[..k]).store, f.request, f.view)
            && f.view.slots == CountSlots(Exec(schedule[..k]).store, f.request, f.view)
  {
    k := LastLookup(schedule, id);
    j := LastLookup(schedule[..k], id);
    assert schedule[..k][..j] == schedule[..j];
    i := LastLookup(schedule[..j], id);
    assert schedule[..j][..i] == schedule[..i];
    var f0, f1, f2 := Exec(schedule[..i]).flights[id], Exec(schedule[..j]).flights[id], Exec(schedule[..k]).flights[id];
    SameCodes(f1, f2, Exec(schedule).flights[id]);
  }

  /** Later lookups do not change what an earlier one looked for. */
  lemma SameCodes(f1: Flight, f2: Flight, f3: Flight)
    requires f1.request == f2.request == f3.request
    requires f1.view.receipt == f2.view.receipt == f3.view.receipt && f2.view.directive == f3.view.directive
    ensures DirectiveCodeFor(f1.request, f1.view) == DirectiveCodeFor(f3.request, f3.view)
    ensures GateCodeFor(f2.request, f2.view) == GateCodeFor(f3.request, f3.view)
  {
  }

  // ---- Honest clients ----

  function KindOf(request: Request): Kind
    requires Versioned(request)
  {
    if request.UpdateGate? || request.MoveGate? then GateUnit
    else if request.UpdateDirective? || request.MoveDirective? then OperationDirective
    else ExecutionConfirmation
  }

  lemma VersionAtGrows(s: Store, t: Store, kind: Kind, id: nat)
    requires StoreEvolves(s, t)
    ensures VersionAt(s, kind, id) <= VersionAt(t, kind, id)
  {
  }

  lemma ReadsVersionAt(store: Store, f: Flight)
    requires Versioned(f.request)
    ensures var after := AddressedVersion(f.request, NextRead(store, f).view);
            after == AddressedVersion(f.request, f.view) || after.None?
            || after.value == VersionAt(store, KindOf(f.request), f.request.id)
  {
  }

  /** The flight has read nothing older than `base`. */
  ghost predicate NotOlder(base: Store, f: Flight) {
    Versioned(f.request) && AddressedVersion(f.request, f.view).Some? ==>
      VersionAt(base, KindOf(f.request), f.request.id) <= AddressedVersion(f.request, f.view).value
  }

  lemma StepReadsNotOlder(base: Store, system: System, event: Event, id: nat)
    requires StoreEvolves(base, system.store) && id in Step(system, event).flights
    requires id in system.flights ==> NotOlder(base, system.flights[id])
    ensures NotOlder(base, Step(system, event).flights[id])
  {
    if id in system.flights && Versioned(system.flights[id].request) {
      var f := system.flights[id];
      VersionAtGrows(base, system.store, KindOf(f.request), f.request.id);
      ReadsVersionAt(system.store, f);
    }
  }

  /** What a request reads is not older than any moment before it began. */
  lemma {:induction false} ReadsAreNotOlder(schedule: seq<Event>, n: nat, id: nat)
    requires n < |schedule| && id !in Exec(schedule[..n]).flights && id in Exec(schedule).flights
    ensures NotOlder(Exec(schedule[..n]).store, Exec(schedule).flights[id])
  {
    var last := |schedule| - 1;
    assert schedule[..last][..n] == schedule[..n];
    if id in Exec(schedule[..last]).flights {
      if n == last {
        assert false;
      }
      ReadsAreNotOlder(schedule[..last], n, id);
    }
    HistoryEvolves(schedule[..last], n);
    StepReadsNotOlder(Exec(schedule[..n]).store, Exec(schedule[..last]), schedule[last], id);
  }

  /** A client that sends a version its row had at any moment before the request
      began is honest: honesty asks for nothing a client could not know. */
  lemma KnownVersionsAreHonest(schedule: seq<Event>, n: nat, id: nat)
    requires n < |schedule| && id !in Exec(schedule[..n]).flights && id in Exec(schedule).flights
    requires var f := Exec(schedule).flights[id];
             Versioned(f.request) && f.request.expected <= VersionAt(Exec(schedule[..n]).store, KindOf(f.request), f.request.id)
    ensures Honest(Exec(schedule).flights[id])
  {
    ReadsAreNotOlder(schedule, n, id);
  }

  lemma CommitsInPrefix(schedule: seq<Event>, n: nat, k: nat, f: Flight)
    requires k < n <= |schedule|
    ensures Commits(schedule[..n], k, f) <==> Commits(schedule, k, f)
  {
    assert schedule[..n][..k] == schedule[..k];
  }

  lemma HonestCommit(schedule: seq<Event>, k: nat, f: Flight)
    requires HonestSchedule(schedule) && Commits(schedule, k, f)
    ensures Honest(f)
  {
    HonestPrefix(schedule, k);
  }

  /** A schedule is honest when every request that commits in it is. */
  lemma {:induction false} HonestScheduleMeans(schedule: seq<Event>)
    ensures HonestSchedule(schedule) <==> forall k: nat, f | Commits(schedule, k, f) :: Honest(f)
  {
    forall k: nat, f | HonestSchedule(schedule) && Commits(schedule, k, f)
      ensures Honest(f)
    {
      HonestCommit(schedule, k, f);
    }
    if schedule != [] && forall k: nat, f | Commits(schedule, k, f) :: Honest(f) {
      var n := |schedule| - 1;
      forall k: nat, f | Commits(schedule[..n], k, f)
        ensures Honest(f)
      {
        CommitsInPrefix(schedule, n, k, f);
      }
      HonestScheduleMeans(schedule[..n]);
      if Succeeds(Exec(schedule[..n]), schedule[n]) {
        assert Commits(schedule, n, Exec(schedule[..n]).flights[schedule[n].flight]);
      }
    }
  }
}
