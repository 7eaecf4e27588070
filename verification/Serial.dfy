/** Interleaved runs and uninterrupted ones: which schedules are equivalent to
    serving the successful requests one after the other. */
module Serial {
  import opened Rows
  import opened Services
  import opened Dispatch
  import opened Locking
  import opened Coupling

  /** The successful requests of a schedule, in commit order. */
  ghost function Jobs(schedule: seq<Event>): seq<Job> {
    if schedule == [] then []
    else
      var n := |schedule| - 1;
      var before, event := Exec(schedule[..n]), schedule[n];
      Jobs(schedule[..n]) + (if Succeeds(before, event) then [JobOf(before.flights[event.flight], event.key)] else [])
  }

  function JobOf(f: Flight, key: nat): Job {
    Job(f.request, f.caller, key)
  }

  /** What the request has read is still there, or its client is honest and its
      transaction checks every row it read. */
  ghost predicate Isolated(store: Store, f: Flight) {
    ViewNow(store, f.request) == f.view || (Honest(f) && AllReadsWritten(f))
  }

  ghost predicate AllIsolated(schedule: seq<Event>) {
    forall k: nat, f | Commits(schedule, k, f) :: Isolated(Exec(schedule[..k]).store, f)
  }

  lemma IsolatedIsAtomic(schedule: seq<Event>, k: nat, f: Flight)
    requires Commits(schedule, k, f) && Isolated(Exec(schedule[..k]).store, f)
    ensures AtomicStep(Exec(schedule[..k]).store, f.request, f.caller, schedule[k].key)
            == Ok(Exec(schedule[..k + 1]).store)
  {
    if ViewNow(Exec(schedule[..k]).store, f.request) == f.view {
      ExecAfterCommit(schedule, k, f);
    } else {
      InterleavedEqualsAtomic(schedule, k, f);
    }
  }

  lemma IsolatedPrefix(schedule: seq<Event>, n: nat)
    requires AllIsolated(schedule) && n <= |schedule|
    ensures AllIsolated(schedule[..n])
  {
    forall k: nat, f | Commits(schedule[..n], k, f)
      ensures Isolated(Exec(schedule[..n][..k]).store, f)
    {
      assert schedule[..n][..k] == schedule[..k];
      assert Commits(schedule, k, f);
    }
  }

  lemma AppendJob(jobs: seq<Job>, job: Job, after: Store)
    requires AtomicStep(AtomicRun(jobs), job.request, job.caller, job.key) == Ok(after)
    ensures AtomicRun(jobs + [job]) == after
  {
    assert (jobs + [job])[..|jobs|] == jobs;
  }

  /** A run in which every successful request is isolated ends in the store of its
      successful requests served one after the other, in commit order. */
  lemma {:induction false} IsolatedRunsAreSerial(schedule: seq<Event>)
    requires AllIsolated(schedule)
    ensures Exec(schedule).store == AtomicRun(Jobs(schedule))
  {
    if schedule != [] {
      var n := |schedule| - 1;
      IsolatedPrefix(schedule, n);
      IsolatedRunsAreSerial(schedule[..n]);
      var before, event := Exec(schedule[..n]), schedule[n];
      if Succeeds(before, event) {
        var f := before.flights[event.flight];
        assert Commits(schedule, n, f);
        IsolatedIsAtomic(schedule, n, f);
        assert schedule[..n + 1] == schedule;
        AppendJob(Jobs(schedule[..n]), JobOf(f, event.key), Exec(schedule).store);
      } else {
        assert Jobs(schedule) == Jobs(schedule[..n]);
      }
    }
  }

  // ---- Uninterrupted schedules ----

  lemma AppendEvent(schedule: seq<Event>, e: Event)
    ensures Exec(schedule + [e]) == Step(Exec(schedule), e)
    ensures HonestSchedule(schedule + [e]) <==> HonestSchedule(schedule) && HonestEvent(Exec(schedule), e)
  {
    assert (schedule + [e])[..|schedule|] == schedule;
  }

  function Uninterruptedly(id: nat, job: Job): seq<Event> {
    [Begin(id, job.request, job.caller), Read(id), Read(id), Read(id), Finish(id, job.key)]
  }

  lemma AppendUninterrupted(schedule: seq<Event>, id: nat, job: Job)
    requires id !in Exec(schedule).flights
    ensures var system := Exec(schedule);
            var outcome := AtomicStep(system.store, job.request, job.caller, job.key);
            Exec(schedule + Uninterruptedly(id, job))
            == system.(store := if outcome.Ok? then outcome.value else system.store)
  {
    var s1 := schedule + [Begin(id, job.request, job.caller)];
    var s2 := s1 + [Read(id)];
    var s3 := s2 + [Read(id)];
    var s4 := s3 + [Read(id)];
    AppendEvent(schedule, Begin(id, job.request, job.caller));
    AppendEvent(s1, Read(id));
    AppendEvent(s2, Read(id));
    AppendEvent(s3, Read(id));
    AppendEvent(s4, Finish(id, job.key));
    assert schedule + Uninterruptedly(id, job) == s4 + [Finish(id, job.key)];
    UninterruptedIsAtomic(Exec(schedule), id, job.request, job.caller, job.key);
  }

  /** Every run of uninterrupted requests is a schedule of the interleaved system. */
  lemma {:induction false} SerialRunsAreSchedules(jobs: seq<Job>) returns (schedule: seq<Event>)
    ensures Exec(schedule) == System(AtomicRun(jobs), map[])
  {
    schedule := [];
    if jobs != [] {
      var n := |jobs| - 1;
      schedule := SerialRunsAreSchedules(jobs[..n]);
      AppendUninterrupted(schedule, 0, jobs[n]);
      schedule := schedule + Uninterruptedly(0, jobs[n]);
    }
  }
}
