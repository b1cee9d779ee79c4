/**
 The supervisor as an object: the fields its lock protects, and the blocks that its threads run
 under that lock, statement by statement.
 */
module ConverterStore {
  import opened Wrappers
  import opened ConverterState
  import opened ConverterSystem

  /** The dictionary comprehension that forgets old entries. */
  method Forget(d: Times, now: int) returns (r: Times)
    requires TimesOk(d)
    ensures r == Prune(d, now)
  {
    r := NO_TIMES;
    for i := 0 to |d.order|
      invariant r.order == KeepRecent(d.order[..i], d, now)
      invariant forall id :: id in r.at <==> id in r.order
      invariant forall id :: id in r.at ==> id in d.at && r.at[id] == d.at[id]
    {
      var id := d.order[i];
      KeepRecentAppend(d.order[..i], id, d, now);
      assert d.order[..i + 1] == d.order[..i] + [id];
      if now - d.at[id].at < RETENTION {
        r := Times(r.order + [id], r.at[id := d.at[id]]);
      }
    }
    assert d.order[..|d.order|] == d.order;
    PrunedEntries(d, now, r.at);
  }

  lemma {:induction false} PrunedEntries(d: Times, now: int, at: map<Id, Stamp>)
    requires TimesOk(d)
    requires forall id :: id in at <==> id in KeepRecent(d.order, d, now)
    requires forall id :: id in at ==> id in d.at && at[id] == d.at[id]
    ensures at == Prune(d, now).at
  {
  }

  lemma {:induction false} KeepRecentAppend(order: seq<Id>, id: Id, d: Times, now: int)
    ensures KeepRecent(order + [id], d, now) ==
            if Recent(d, id, now) then KeepRecent(order, d, now) + [id] else KeepRecent(order, d, now)
  {
    if order == [] {
      assert [id][1..] == [];
    } else {
      assert (order + [id])[1..] == order[1..] + [id];
      KeepRecentAppend(order[1..], id, d, now);
    }
  }

  lemma {:induction false} RegisteredJob(job: Job, luck: Luck)
    requires job.pc.Registering?
    ensures WorkJob(job, true, luck) == job.(pc := Finishing(false))
    ensures WorkJob(job, false, luck) ==
            job.(registered := true,
                 pc := if luck != Fine then Finishing(false) else if job.usesOffice then OfficeGate else Gate)
  {
    assert luck.Fine? <==> luck == Fine;
  }

  lemma {:induction false} OfficeJob(job: Job, refused: bool, luck: Luck)
    requires job.pc.OfficeGate?
    ensures WorkJob(job, refused, luck) ==
            job.(officeStarted := job.officeStarted || !job.cancelled,
                 pc := if job.cancelled then Finishing(false) else OfficeWait)
  {
  }

  lemma {:induction false} SpawnedJob(job: Job, refused: bool, luck: Luck)
    requires job.pc.Spawning?
    ensures WorkJob(job, refused, luck) ==
            if job.cancelled || luck != Fine then job.(pc := Finishing(false)) else job.(group := Alive, pc := Polling)
  {
    if job.cancelled || !luck.Fine? {
      assert ChildGroup(job, luck) == job.group && WorkPc(job, refused, luck) == Finishing(false);
    } else {
      assert ChildGroup(job, luck) == Alive && WorkPc(job, refused, luck) == Polling;
    }
  }

  /** A job that still waits for something is stored as it is. */
  lemma {:induction false} SettleHeld(s: Supervisor, j: JobRef, job: Job, now: int)
    requires !Finalizable(job)
    ensures Settle(s, j, job, now) == SetJob(s, j, job).(serial := s.serial + 1)
  {
    assert Settled(job) == job;
  }

  lemma {:induction false} SettleReleased(s: Supervisor, j: JobRef, job: Job, now: int)
    requires Finalizable(job)
    ensures var s' := Settle(s, j, job, now);
            && s'.table == s.table[j := Settled(job)] && s'.free == s.free + 1
            && Settled(job) == job.(ownsSlot := false, done := true)
            && s'.jobs == (if job.id in s.jobs && s.jobs[job.id] == j then s.jobs - {job.id} else s.jobs)
            && s'.stopped == (if job.registered then StoppedWith(s.stopped, job.id, now, s.serial) else s.stopped)
            && s'.serial == s.serial + 1 && s'.tombstones == s.tombstones && s'.role == s.role
  {
  }

  lemma {:induction false} KilledJob(job: Job, ok: bool)
    requires Terminates(job, ok)
    ensures CancelledJob(job, ok) ==
            job.(cancelled := true, group := if job.group == Alive then Gone else job.group, groupReaped := true)
  {
    assert job.group.Alive? <==> job.group == Alive;
    assert Terminate(job, ok).group == if job.group == Alive then Gone else job.group;
  }

  lemma {:induction false} SurvivingJob(job: Job, ok: bool)
    requires !Terminates(job, ok)
    ensures CancelledJob(job, ok) == job.(cancelled := true)
  {
    assert Terminate(job, ok).group == job.group;
  }

  class Service {
    const role: Role
    var free: nat
    var jobs: map<Id, JobRef>
    var table: map<JobRef, Job>
    var tombstones: Times
    var stopped: Times
    var serial: nat

    ghost function Contents(): (s: Supervisor)
      reads this
    {
      Supervisor(role, free, jobs, table, tombstones, stopped, serial)
    }

    ghost predicate Valid()
      reads this
    {
      TimesOk(tombstones) && TimesOk(stopped)
    }

    constructor (role: Role)
      ensures Valid() && Contents() == Initial(role).sup
    {
      this.role := role;
      free, jobs, table := 1, map[], map[];
      tombstones, stopped, serial := NO_TIMES, NO_TIMES, 0;
    }

    method RememberStoppedLocked(id: Id, now: int)
      requires Valid()
      modifies this`stopped, this`serial
      ensures Valid() && Contents() == RememberStopped(old(Contents()), id, now)
    {
      PruneKeeps(stopped, now);
      stopped := Forget(stopped, now);
      if |stopped.order| >= CAPACITY && id !in stopped.at {
        DropKeeps(stopped);
        stopped := DropFirst(stopped);
      }
      PutInOrder(stopped, id, now, serial);
      stopped := Put(stopped, id, now, serial);
      serial := serial + 1;
    }

    method FinalizeLocked(j: JobRef, now: int)
      requires Valid() && j in table
      modifies this`free, this`jobs, this`table, this`stopped, this`serial
      ensures Valid() && Contents() == Finalize(old(Contents()), j, now)
    {
      SettleLocked(j, table[j], now);
    }

    /** _finalize_locked for a job whose flags the caller has just set. */
    method SettleLocked(j: JobRef, job: Job, now: int)
      requires Valid()
      modifies this`free, this`jobs, this`table, this`stopped, this`serial
      ensures Valid() && Contents() == Settle(old(Contents()), j, job, now)
    {
      if !(job.runFinished && job.groupReaped && job.ownsSlot && (!job.officeStarted || job.officeReaped)) {
        SettleHeld(Contents(), j, job, now);
        table, serial := table[j := job], serial + 1;
        return;
      }
      SettleReleased(Contents(), j, job, now);
      if job.id in jobs && jobs[job.id] == j {
        jobs := jobs - {job.id};
      }
      table := table[j := job.(ownsSlot := false, done := true)];
      free := free + 1;
      if job.registered {
        RememberStoppedLocked(job.id, now);
      } else {
        serial := serial + 1;
      }
    }

    /** The block of `run` that registers the job or refuses its id. */
    method RegisterLocked(j: JobRef, luck: Luck, now: int)
      requires Valid() && j in table && table[j].pc.Registering?
      modifies this`jobs, this`table
      ensures jobs == WorkStep(old(Contents()), j, luck, now).jobs
      ensures table == WorkStep(old(Contents()), j, luck, now).table
    {
      var job := table[j];
      RegisteredJob(job, luck);
      if job.id in jobs || job.id in tombstones.at {
        table := table[j := job.(pc := Finishing(false))];
        return;
      }
      jobs := jobs[job.id := j];
      var pc := Gate;
      if luck != Fine { pc := Finishing(false); } else if job.usesOffice { pc := OfficeGate; }
      table := table[j := job.(registered := true, pc := pc)];
    }

    /** The block of `run` that commits to an Office call unless the job was cancelled. */
    method StartOfficeLocked(j: JobRef, luck: Luck, now: int)
      requires Valid() && j in table && table[j].pc.OfficeGate?
      modifies this`table
      ensures table == WorkStep(old(Contents()), j, luck, now).table
    {
      var job := table[j];
      OfficeJob(job, Refuses(Contents(), job.id), luck);
      if job.cancelled {
        table := table[j := job.(pc := Finishing(false))];
      } else {
        table := table[j := job.(officeStarted := true, pc := OfficeWait)];
      }
    }

    /** The block of `run` that starts the child unless the job was cancelled. */
    method SpawnLocked(j: JobRef, luck: Luck, now: int)
      requires Valid() && j in table && table[j].pc.Spawning?
      modifies this`table
      ensures table == WorkStep(old(Contents()), j, luck, now).table
    {
      var job := table[j];
      SpawnedJob(job, Refuses(Contents(), job.id), luck);
      if job.cancelled || luck != Fine {
        table := table[j := job.(pc := Finishing(false))];
      } else {
        table := table[j := job.(group := Alive, pc := Polling)];
      }
    }

    /** The last block of `run`. */
    method FinishLocked(j: JobRef, luck: Luck, now: int)
      requires Valid() && j in table && table[j].pc.FinishLock?
      modifies this
      ensures Valid() && Contents() == WorkStep(old(Contents()), j, luck, now)
    {
      var job := table[j];
      var good, reaped := job.pc.good, job.pc.reaped;
      job := job.(pc := Ended(good && reaped), runFinished := true, groupReaped := job.groupReaped || reaped);
      SettleLocked(j, job, now);
    }

    /** The block of recovery that picks the finished job and marks it. */
    method PickLocked() returns (candidate: Option<JobRef>)
      requires Valid() && forall id :: id in jobs ==> jobs[id] in table
      modifies this`table
      ensures candidate.None? ==> Contents() == old(Contents()) && !AnyRecoverable(Contents())
      ensures candidate.Some? ==>
                && candidate.value in old(table) && Recoverable(old(table)[candidate.value])
                && (exists id :: id in jobs && jobs[id] == candidate.value)
                && Contents() == SetJob(old(Contents()), candidate.value,
                                        old(table)[candidate.value].(recovering := true))
    {
      candidate := None;
      var rest := jobs.Keys;
      while rest != {}
        invariant rest <= jobs.Keys
        invariant forall id :: id in jobs && id !in rest ==> !Recoverable(table[jobs[id]])
        invariant Contents() == old(Contents())
      {
        var id :| id in rest;
        var job := table[jobs[id]];
        if job.runFinished && job.ownsSlot && !job.recovering {
          candidate := Some(jobs[id]);
          table := table[jobs[id] := job.(recovering := true)];
          assert id in jobs && jobs[id] == candidate.value && Recoverable(job);
          return;
        }
        rest := rest - {id};
      }
    }

    method BuryLocked(id: Id, now: int)
      requires Valid()
      modifies this`tombstones, this`serial
      ensures Valid() && Contents() == Bury(old(Contents()), id, now)
    {
      PruneKeeps(tombstones, now);
      tombstones := Forget(tombstones, now);
      if |tombstones.order| >= CAPACITY {
        DropKeeps(tombstones);
        tombstones := DropFirst(tombstones);
      }
      PutInOrder(tombstones, id, now, serial);
      tombstones := Put(tombstones, id, now, serial);
      serial := serial + 1;
    }

    /** A registered job is marked, and reaped once its process group is confirmed gone. */
    method CancelKnownLocked(j: JobRef, ok: bool) returns (failed: bool)
      requires Valid() && j in table
      modifies this`table
      ensures table == old(table)[j := CancelledJob(old(table)[j], ok)]
      ensures failed <==> !Terminates(old(table)[j], ok)
    {
      var job := table[j];
      failed := !ok && job.group != NoGroup;
      if failed {
        SurvivingJob(job, ok);
        table := table[j := job.(cancelled := true)];
      } else {
        KilledJob(job, ok);
        var group := if job.group == Alive then Gone else job.group;
        table := table[j := job.(cancelled := true, group := group, groupReaped := true)];
      }
    }

    /** The first block of `cancel`; `ok` says whether the process group was confirmed gone. */
    method CancelLocked(id: Id, now: int, ok: bool)
      returns (found: Option<JobRef>, failed: bool, needsOffice: bool)
      requires Valid() && forall x :: x in jobs ==> jobs[x] in table
      modifies this`tombstones, this`table, this`serial
      ensures Valid()
      ensures found == if id in old(jobs) then Some(old(jobs)[id]) else None
      ensures found.Some? ==> Contents() == CancelJob(Bury(old(Contents()), id, now), found.value, ok)
      ensures found.None? ==> Contents() == Bury(old(Contents()), id, now)
      ensures failed <==> found.Some? && !Terminates(old(table)[found.value], ok)
      ensures needsOffice == NeedsOffice(Contents(), id, now)
    {
      BuryLocked(id, now);
      if id in jobs {
        found := Some(jobs[id]);
        failed := CancelKnownLocked(jobs[id], ok);
        needsOffice := role == Docling && table[jobs[id]].officeStarted && !table[jobs[id]].officeReaped;
      } else {
        found, failed := None, false;
        var known := id in stopped.at && now - stopped.at[id].at < RETENTION;
        needsOffice := role == Docling && !known;
      }
    }

    /** A confirmed end of the Office call. */
    method MarkOfficeReaped(j: JobRef)
      requires Valid() && j in table
      modifies this`table
      ensures Valid() && Contents() == SetJob(old(Contents()), j, old(table)[j].(officeReaped := true))
    {
      table := table[j := table[j].(officeReaped := true)];
    }
  }
}
