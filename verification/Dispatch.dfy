/** The running system: any number of requests in flight, each reading its rows
    one lookup at a time outside any transaction and committing once, while the
    others do the same. */
module Dispatch {
  import opened Rows
  import opened Repository
  import opened Services

  const LOOKUPS := 3

  /** A request that has done its first `lookups` lookups. */
  datatype Flight = Flight(request: Request, caller: Caller, view: View, lookups: nat)

  datatype System = System(store: Store, flights: map<nat, Flight>)

  /** `Finish` runs the transaction of a request; `key` is the key the database
      hands out for an inserted row. */
  datatype Event =
    | Begin(flight: nat, request: Request, caller: Caller)
    | Read(flight: nat)
    | Finish(flight: nat, key: nat)

  const INITIAL := System(EMPTY_STORE, map[])

  ghost function NextRead(store: Store, f: Flight): Flight {
    match f.lookups
    case 0 => f.(view := f.view.(receipt := ReadReceipt(store, f.request)), lookups := 1)
    case 1 => f.(view := f.view.(directive := ReadDirective(store, f.request, f.view)), lookups := 2)
    case 2 => f.(view := f.view.(gate := ReadGate(store, f.request, f.view),
                                 slots := CountSlots(store, f.request, f.view)), lookups := 3)
    case _ => f
  }

  predicate Ready(system: System, flight: nat) {
    flight in system.flights && system.flights[flight].lookups == LOOKUPS
  }

  /** What the transaction of a ready request does to the store as it is now. */
  function Attempt(store: Store, f: Flight, key: nat): Outcome<Store> {
    var plan :- Decide(f.request, f.caller, f.view);
    Commit(store, plan, key)
  }

  /** A transaction that fails leaves the store alone. */
  function StoreAfter(store: Store, f: Flight, key: nat): Store {
    var outcome := Attempt(store, f, key);
    if outcome.Ok? then outcome.value else store
  }

  ghost function Step(system: System, event: Event): System {
    match event
    case Begin(id, request, caller) =>
      if id in system.flights then system
      else system.(flights := system.flights[id := Flight(request, caller, NOTHING_READ, 0)])
    case Read(id) =>
      if id in system.flights
      then system.(flights := system.flights[id := NextRead(system.store, system.flights[id])])
      else system
    case Finish(id, key) =>
      if Ready(system, id)
      then System(StoreAfter(system.store, system.flights[id], key), system.flights - {id})
      else system
  }

  /** The system after a schedule of events, starting from the empty store. */
  ghost function Exec(schedule: seq<Event>): System {
    if schedule == [] then INITIAL
    else Step(Exec(schedule[..|schedule| - 1]), schedule[|schedule| - 1])
  }

  /** The event is a transaction that succeeds. */
  predicate Succeeds(system: System, event: Event) {
    event.Finish? && Ready(system, event.flight) && Attempt(system.store, system.flights[event.flight], event.key).Ok?
  }

  /** Event `k` of the schedule commits the flight `f` successfully. */
  ghost predicate Commits(schedule: seq<Event>, k: nat, f: Flight) {
    && k < |schedule|
    && var before := Exec(schedule[..k]);
       Succeeds(before, schedule[k]) && f == before.flights[schedule[k].flight]
  }

  // ---- Honest clients ----

  /** The version of the row a request addresses, as its own lookup returned it. */
  function AddressedVersion(request: Request, view: View): Option<nat> {
    match request
    case UpdateGate(_, _, _, _, _) => VersionOf(view.gate)
    case MoveGate(_, _, _) => VersionOf(view.gate)
    case UpdateDirective(_, _, _, _, _) => VersionOf(view.directive)
    case MoveDirective(_, _, _) => VersionOf(view.directive)
    case UpdateReceipt(_, _, _, _) => VersionOf(view.receipt)
    case MoveReceipt(_, _, _) => VersionOf(view.receipt)
    case _ => None
  }

  function VersionOf<T>(seen: Option<Seen<T>>): Option<nat> {
    if seen.Some? then Some(seen.value.row.version) else None
  }

  predicate Versioned(request: Request) {
    request.UpdateGate? || request.MoveGate? || request.UpdateDirective? || request.MoveDirective?
    || request.UpdateReceipt? || request.MoveReceipt?
  }

  /** The expected version a client sends is one it can know: not above the
      version its own request reads. */
  predicate Honest(f: Flight) {
    (Versioned(f.request) && AddressedVersion(f.request, f.view).Some?) ==>
      f.request.expected <= AddressedVersion(f.request, f.view).value
  }

  /** Clients whose transactions fail need not be honest. */
  predicate HonestEvent(system: System, event: Event) {
    Succeeds(system, event) ==> Honest(system.flights[event.flight])
  }

  ghost predicate HonestSchedule(schedule: seq<Event>) {
    schedule == [] ||
    (var n := |schedule| - 1; HonestSchedule(schedule[..n]) && HonestEvent(Exec(schedule[..n]), schedule[n]))
  }

  lemma {:induction false} HonestPrefix(schedule: seq<Event>, n: nat)
    requires HonestSchedule(schedule) && n <= |schedule|
    ensures HonestSchedule(schedule[..n])
    ensures n < |schedule| ==> HonestEvent(Exec(schedule[..n]), schedule[n])
  {
    var last := |schedule| - 1;
    if n == |schedule| {
      assert schedule[..n] == schedule;
    } else if n < last {
      HonestPrefix(schedule[..last], n);
      assert schedule[..last][..n] == schedule[..n];
    }
  }
}
