/**
 What every interleaving keeps: one permit, released once and only after the job's process group,
 its `run` and its Office call are over; and tombstones that really stop an id.
 */
module ConverterSafety {
  import opened Wrappers
  import opened ConverterState
  import opened ConverterSystem

  // ---- one job -------------------------------------------------------------------------------

  predicate BeforeOffice(pc: RunPc) { pc.Registering? || pc.OfficeGate? }

  predicate BeforeSpawn(pc: RunPc) {
    BeforeOffice(pc) || pc.OfficeWait? || pc.OfficeMark? || pc.OfficeCancel? || pc.OfficeCancelMark?
    || pc.Gate? || pc.Spawning?
  }

  /** Positions that a run with an Office call only reaches with that call reaped. */
  predicate PastOffice(pc: RunPc) {
    pc.Gate? || pc.Spawning? || pc.Polling? || pc.Killing?
    || (pc.Finishing? && pc.good) || (pc.FinishLock? && pc.good) || (pc.Ended? && pc.ok)
  }

  predicate Unregistered(pc: RunPc) {
    pc.Registering? || (pc.Finishing? && !pc.good) || (pc.FinishLock? && !pc.good) || (pc.Ended? && !pc.ok)
  }

  /** Registration and the Office call against the position of `run`. */
  predicate OfficeOk(job: Job) {
    && (job.registered ==> !job.pc.Registering?)
    && (!job.registered ==> !job.cancelled && !job.officeStarted && Unregistered(job.pc))
    && (job.officeStarted ==> !BeforeOffice(job.pc))
    && (job.pc.OfficeWait? || job.pc.OfficeMark? || job.pc.OfficeCancel? || job.pc.OfficeCancelMark? ==>
          job.officeStarted)
    && (job.officeReaped ==> job.officeStarted)
    && (job.officeStarted && PastOffice(job.pc) ==> job.officeReaped)
  }

  /** The process group against the position of `run`. */
  predicate GroupOk(job: Job) {
    && (BeforeSpawn(job.pc) || !job.registered ==> job.group.NoGroup?)
    && (job.runFinished <==> job.pc.Ended?)
    && (job.groupReaped ==> !job.group.Alive? && (job.cancelled || job.pc.Ended?))
    && (job.pc.FinishLock? && job.pc.reaped ==> !job.group.Alive?)
  }

  /** The permit against everything it waits for. */
  predicate SlotOk(job: Job) {
    && (job.done <==> !job.ownsSlot)
    && (!job.ownsSlot ==> job.runFinished && job.groupReaped && (job.officeStarted ==> job.officeReaped))
    && ((job.pc.Ended? && job.pc.ok) ==> !job.ownsSlot)
  }

  predicate JobOk(job: Job) {
    OfficeOk(job) && GroupOk(job) && SlotOk(job)
  }

  /** How a job may change: nothing that was settled is ever undone. */
  predicate JobLe(a: Job, b: Job) {
    && a.id == b.id && a.request == b.request && a.usesOffice == b.usesOffice
    && (a.registered ==> b.registered) && (a.cancelled ==> b.cancelled)
    && (a.runFinished ==> b.runFinished && a.pc == b.pc)
    && (a.groupReaped ==> b.groupReaped && !b.group.Alive?)
    && (a.officeStarted ==> b.officeStarted) && (a.officeReaped ==> b.officeReaped)
    && (a.runFinished && b.officeStarted ==> a.officeStarted)
    && (!a.ownsSlot ==> !b.ownsSlot)
    && (!a.group.NoGroup? ==> !b.group.NoGroup?) && (a.runFinished && !a.group.Alive? ==> !b.group.Alive?)
    && (a.runFinished && !a.registered ==> !b.registered)
  }

  // ---- the permit and the table of jobs ------------------------------------------------------

  ghost predicate JobsOk(s: Supervisor) {
    forall j :: j in s.table ==> JobOk(s.table[j])
  }

  /** A registered job that holds the permit. */
  predicate Claims(s: Supervisor, j: JobRef) {
    j in s.table && s.table[j].registered && s.table[j].ownsSlot
  }

  ghost predicate EntriesOk(s: Supervisor) {
    && (forall id :: id in s.jobs ==>
          && s.jobs[id] in s.table
          && s.table[s.jobs[id]].id == id && s.table[s.jobs[id]].registered && s.table[s.jobs[id]].ownsSlot)
    && (forall j :: Claims(s, j) ==> s.table[j].id in s.jobs && s.jobs[s.table[j].id] == j)
  }

  ghost predicate PermitOk(s: Supervisor) {
    && s.free <= 1
    && (s.free == 1 ==> forall j :: j in s.table ==> !s.table[j].ownsSlot)
    && (s.free == 0 ==> exists j :: j in s.table && s.table[j].ownsSlot)
    && (forall i, j :: i in s.table && j in s.table && s.table[i].ownsSlot && s.table[j].ownsSlot ==> i == j)
  }

  ghost predicate ReceiptsOk(s: Supervisor) {
    && TimesOk(s.tombstones) && TimesOk(s.stopped)
    && |s.tombstones.order| <= CAPACITY && |s.stopped.order| <= CAPACITY
    && (forall id :: id in s.tombstones.at ==> s.tombstones.at[id].serial < s.serial)
  }

  ghost predicate SupOk(s: Supervisor) {
    JobsOk(s) && EntriesOk(s) && PermitOk(s) && ReceiptsOk(s)
  }

  // ---- threads -------------------------------------------------------------------------------

  predicate Recovering(pc: SeekPc) {
    !pc.TryFirst? && !pc.Picking? && !pc.TrySecond? && !pc.TurnedAway?
  }

  predicate SeekerOk(s: Supervisor, k: Seeker) {
    && (Recovering(k.pc) ==> k.candidate in s.table && s.table[k.candidate].runFinished)
    && (k.pc.RecoverReap? ==> !s.table[k.candidate].group.Alive?)
    && (k.pc.RecoverOfficeCall? || k.pc.RecoverOfficeMark? ==> s.table[k.candidate].officeStarted)
  }

  /** The tombstone that this cancel saw is still the one in the dictionary. */
  predicate StillBuried(s: Supervisor, c: Canceller) {
    c.id in s.tombstones.at && s.tombstones.at[c.id].serial == c.serial
  }

  ghost predicate CancelOk(s: Supervisor, c: Canceller) {
    && (c.job.Some? ==> c.job.value in s.table && s.table[c.job.value].registered
                        && s.table[c.job.value].id == c.id && s.table[c.job.value].cancelled)
    && (c.pc.Locking? || c.pc.Remembering? ==> c.job.None?)
    && (c.pc.CancelMark? || c.pc.Finalizing? || c.pc.Waiting? ==> c.job.Some?)
    && (c.pc.CancelMark? ==> s.table[c.job.value].officeStarted)
    && (c.pc.OfficeCall? && c.job.Some? ==> s.table[c.job.value].officeStarted)
    && (c.pc == Finished(true) && c.job.Some? ==> !s.table[c.job.value].ownsSlot)
    && (!c.pc.Locking? ==> c.serial < s.serial)
    && (c.pc.Locking? ==> c.before == {})
    && BeforeOk(s, c)
    && (!c.pc.Locking? && StillBuried(s, c) ==> RegisteredAs(s, c.id) <= c.before)
  }

  /** Of the jobs registered before, only the one that the cancel found may still own the permit. */
  ghost predicate BeforeOk(s: Supervisor, c: Canceller) {
    && c.before <= RegisteredAs(s, c.id)
    && (forall k :: k in c.before && s.table[k].ownsSlot ==> c.job == Some(k))
  }

  ghost predicate SystemOk(s: System) {
    && SupOk(s.sup)
    && (forall t :: t in s.seekers ==> SeekerOk(s.sup, s.seekers[t]))
    && (forall t :: t in s.cancels ==> CancelOk(s.sup, s.cancels[t]))
  }

  ghost predicate JobsEvolve(s: Supervisor, s': Supervisor) {
    forall j :: j in s.table ==> j in s'.table && JobLe(s.table[j], s'.table[j])
  }

  /** A tombstone is never made up with an old serial number. */
  ghost predicate BurialsEvolve(s: Supervisor, s': Supervisor) {
    && s.serial <= s'.serial
    && (forall id :: id in s'.tombstones.at && s'.tombstones.at[id].serial < s.serial ==>
          id in s.tombstones.at && s'.tombstones.at[id].serial == s.tombstones.at[id].serial)
  }

  predicate Registered(s: Supervisor, j: JobRef) { j in s.table && s.table[j].registered }

  /** No job of an id with an old tombstone gets registered. */
  ghost predicate NoneRegistered(s: Supervisor, s': Supervisor) {
    forall j ::
      Registered(s', j) && s'.table[j].id in s'.tombstones.at && s'.tombstones.at[s'.table[j].id].serial < s.serial ==>
        Registered(s, j)
  }

  /** What a step may do to the shared state, as the other threads see it. */
  ghost predicate Evolves(s: Supervisor, s': Supervisor) {
    JobsEvolve(s, s') && BurialsEvolve(s, s') && NoneRegistered(s, s')
  }

  lemma {:induction false} BeforeKept(s: Supervisor, s': Supervisor, c: Canceller)
    requires BeforeOk(s, c) && JobsEvolve(s, s')
    ensures BeforeOk(s', c)
  {
    forall k | k in c.before
      ensures k in RegisteredAs(s', c.id) && (s'.table[k].ownsSlot ==> c.job == Some(k))
    {
      assert k in RegisteredAs(s, c.id) && JobLe(s.table[k], s'.table[k]);
    }
  }

  lemma {:induction false} BurialKept(s: Supervisor, s': Supervisor, c: Canceller)
    requires Evolves(s, s') && c.serial < s.serial && StillBuried(s', c)
    requires StillBuried(s, c) ==> RegisteredAs(s, c.id) <= c.before
    ensures RegisteredAs(s', c.id) <= c.before
  {
    assert StillBuried(s, c);
    forall j | j in RegisteredAs(s', c.id)
      ensures j in c.before
    {
      assert Registered(s', j);
      assert Registered(s, j) && JobLe(s.table[j], s'.table[j]);
    }
  }

  lemma {:induction false} CancelKept(s: Supervisor, s': Supervisor, c: Canceller)
    requires CancelOk(s, c) && Evolves(s, s')
    ensures CancelOk(s', c)
  {
    if c.job.Some? { assert JobLe(s.table[c.job.value], s'.table[c.job.value]); }
    BeforeKept(s, s', c);
    if !c.pc.Locking? && StillBuried(s', c) { BurialKept(s, s', c); }
  }

  // ---- shared-state steps --------------------------------------------------------------------

  predicate SameClaim(a: Job, b: Job) {
    b.id == a.id && b.ownsSlot == a.ownsSlot && b.registered == a.registered
  }

  lemma {:induction false} PermitKept(s: Supervisor, j: JobRef, job: Job)
    requires PermitOk(s) && j in s.table && job.ownsSlot == s.table[j].ownsSlot
    ensures PermitOk(SetJob(s, j, job))
  {
    if s.free == 0 {
      var o :| o in s.table && s.table[o].ownsSlot;
      assert o in SetJob(s, j, job).table && SetJob(s, j, job).table[o].ownsSlot;
    }
  }

  lemma {:induction false} TableKept(s: Supervisor, s': Supervisor, j: JobRef, job: Job)
    requires JobsOk(s) && j in s.table && s'.table == s.table[j := job]
    requires JobOk(job) && JobLe(s.table[j], job)
    ensures JobsOk(s') && JobsEvolve(s, s')
  {
    forall k | k in s.table
      ensures k in s'.table && JobLe(s.table[k], s'.table[k])
    {
      assert JobOk(s.table[k]);
    }
  }

  /** A change of one job that leaves its ownership and registration alone. */
  lemma {:induction false} OneJob(s: Supervisor, j: JobRef, job: Job)
    requires SupOk(s) && j in s.table && JobOk(job) && JobLe(s.table[j], job) && SameClaim(s.table[j], job)
    ensures SupOk(SetJob(s, j, job)) && Evolves(s, SetJob(s, j, job))
  {
    TableKept(s, SetJob(s, j, job), j, job);
    PermitKept(s, j, job);
  }

  lemma {:induction false} RememberKeeps(s: Supervisor, id: Id, now: int)
    requires ReceiptsOk(s)
    ensures ReceiptsOk(RememberStopped(s, id, now))
  {
    var pruned := Prune(s.stopped, now);
    PruneKeeps(s.stopped, now);
    PutKeeps(pruned, id, now, s.serial, |pruned.order| >= CAPACITY && id !in pruned.at);
  }

  /** The owner gives its permit back: nobody owns it then. */
  lemma {:induction false} ReleasePermit(s: Supervisor, s': Supervisor, j: JobRef, job: Job)
    requires PermitOk(s) && j in s.table && s.table[j].ownsSlot && !job.ownsSlot
    requires s'.free == s.free + 1 && s'.table == s.table[j := job]
    ensures PermitOk(s')
  {
    forall k | k in s'.table ensures !s'.table[k].ownsSlot {
      assert k == j || !s.table[k].ownsSlot;
    }
  }

  /** ... and its entry, the only one it can be, is gone with it. */
  lemma {:induction false} ReleaseEntries(s: Supervisor, s': Supervisor, j: JobRef, job: Job)
    requires EntriesOk(s) && j in s.table && job.id == s.table[j].id && !job.ownsSlot
    requires s'.jobs == (if job.id in s.jobs && s.jobs[job.id] == j then s.jobs - {job.id} else s.jobs)
    requires s'.table == s.table[j := job]
    ensures EntriesOk(s')
  {
    forall id | id in s'.jobs ensures s'.jobs[id] != j {
      assert s.table[s.jobs[id]].id == id;
    }
    forall k | Claims(s', k) ensures s'.table[k].id in s'.jobs && s'.jobs[s'.table[k].id] == k {
      assert Claims(s, k);
    }
  }

  lemma {:induction false} SettlePermit(s: Supervisor, j: JobRef, job: Job, now: int)
    requires EntriesOk(s) && PermitOk(s) && j in s.table && SameClaim(s.table[j], job)
    ensures EntriesOk(Settle(s, j, job, now)) && PermitOk(Settle(s, j, job, now))
  {
    if Finalizable(job) {
      ReleasePermit(s, Settle(s, j, job, now), j, Settled(job));
      ReleaseEntries(s, Settle(s, j, job, now), j, Settled(job));
    } else {
      PermitKept(s, j, Settled(job));
    }
  }

  lemma {:induction false} SettleKeeps(s: Supervisor, j: JobRef, job: Job, now: int)
    requires SupOk(s) && j in s.table && SameClaim(s.table[j], job)
    requires JobLe(s.table[j], job) && JobOk(Settled(job))
    ensures SupOk(Settle(s, j, job, now)) && Evolves(s, Settle(s, j, job, now))
  {
    RememberKeeps(s, job.id, now);
    TableKept(s, Settle(s, j, job, now), j, Settled(job));
    SettlePermit(s, j, job, now);
  }

  lemma {:induction false} FinalizeKeeps(s: Supervisor, j: JobRef, now: int)
    requires SupOk(s) && j in s.table
    ensures SupOk(Finalize(s, j, now)) && Evolves(s, Finalize(s, j, now))
  {
    assert JobOk(s.table[j]);
    SettleKeeps(s, j, s.table[j], now);
  }

  /**
   The last block sets run_finished and finalizes before it gives up the lock; in between, the
   job has ended and still owns its slot, so the two halves are taken together.
   */
  lemma {:induction false} FinishKeeps(s: Supervisor, j: JobRef, luck: Luck, now: int)
    requires SupOk(s) && j in s.table && s.table[j].pc.FinishLock?
    ensures SupOk(WorkStep(s, j, luck, now)) && Evolves(s, WorkStep(s, j, luck, now))
  {
    SettleKeeps(s, j, EndedJob(s.table[j]), now);
    assert WorkStep(s, j, luck, now) == Settle(s, j, EndedJob(s.table[j]), now);
  }

  lemma {:induction false} AcquireKeeps(s: Supervisor, j: JobRef, id: Id, request: nat, usesOffice: bool)
    requires SupOk(s) && j !in s.table && s.free > 0
    ensures var s' := s.(free := s.free - 1, table := s.table[j := NewJob(id, request, usesOffice)]);
            SupOk(s') && Evolves(s, s')
  {
    var s' := s.(free := s.free - 1, table := s.table[j := NewJob(id, request, usesOffice)]);
    assert s'.table[j].ownsSlot;
    assert EntriesOk(s');
    assert PermitOk(s');
  }

  lemma {:induction false} BuryReceipts(s: Supervisor, id: Id, now: int)
    requires ReceiptsOk(s)
    ensures ReceiptsOk(Bury(s, id, now)) && BurialsEvolve(s, Bury(s, id, now))
  {
    var pruned := Prune(s.tombstones, now);
    PruneKeeps(s.tombstones, now);
    PutKeeps(pruned, id, now, s.serial, |pruned.order| >= CAPACITY);
  }

  lemma {:induction false} BuryKeeps(s: Supervisor, id: Id, now: int)
    requires SupOk(s)
    ensures SupOk(Bury(s, id, now)) && Evolves(s, Bury(s, id, now))
    ensures id in Bury(s, id, now).tombstones.at
  {
    BuryReceipts(s, id, now);
  }

  lemma {:induction false} NothingChanged(s: Supervisor)
    requires SupOk(s)
    ensures Evolves(s, s)
  {
  }

  lemma {:induction false} EvolvesTrans(a: Supervisor, b: Supervisor, c: Supervisor)
    requires Evolves(a, b) && Evolves(b, c)
    ensures Evolves(a, c)
  {
    forall j | j in a.table
      ensures j in c.table && JobLe(a.table[j], c.table[j])
    {
      assert JobLe(a.table[j], b.table[j]) && JobLe(b.table[j], c.table[j]);
    }
  }

  // ---- steps of one thread -------------------------------------------------------------------

  /** The invariant after a step of one seeker (or none) whose new record is known to be right. */
  lemma {:induction false} Assemble(s: System, s': System)
    requires SystemOk(s) && SupOk(s'.sup) && Evolves(s.sup, s'.sup)
    requires forall t :: t in s'.seekers && (t !in s.seekers || s'.seekers[t] != s.seekers[t]) ==>
               SeekerOk(s'.sup, s'.seekers[t])
    requires forall t :: t in s'.cancels && (t !in s.cancels || s'.cancels[t] != s.cancels[t]) ==>
               CancelOk(s'.sup, s'.cancels[t])
    ensures SystemOk(s')
  {
    forall t | t in s'.seekers ensures SeekerOk(s'.sup, s'.seekers[t]) {
      assert t in s.seekers && s'.seekers[t] == s.seekers[t] ==> SeekerOk(s.sup, s.seekers[t]);
    }
    forall t | t in s'.cancels ensures CancelOk(s'.sup, s'.cancels[t]) {
      if t in s.cancels { CancelKept(s.sup, s'.sup, s.cancels[t]); }
    }
  }

  lemma {:induction false} WorkJobOk(job: Job, refused: bool, luck: Luck)
    requires JobOk(job) && !job.pc.FinishLock?
    ensures JobOk(WorkJob(job, refused, luck)) && JobLe(job, WorkJob(job, refused, luck))
    ensures job.id == WorkJob(job, refused, luck).id && job.ownsSlot == WorkJob(job, refused, luck).ownsSlot
    ensures !job.pc.Registering? || refused ==> SameClaim(job, WorkJob(job, refused, luck))
  {
  }

  lemma {:induction false} OwnStepKeeps(s: Supervisor, j: JobRef, luck: Luck, now: int)
    requires SupOk(s) && j in s.table && !s.table[j].pc.FinishLock?
    requires s.table[j].pc.Registering? ==> Refuses(s, s.table[j].id)
    ensures SupOk(WorkStep(s, j, luck, now)) && Evolves(s, WorkStep(s, j, luck, now))
  {
    var job := WorkJob(s.table[j], Refuses(s, s.table[j].id), luck);
    WorkJobOk(s.table[j], Refuses(s, s.table[j].id), luck);
    OneJob(s, j, job);
    assert WorkStep(s, j, luck, now) == SetJob(s, j, job);
  }

  lemma {:induction false} RegisterKeeps(s: Supervisor, j: JobRef, luck: Luck, now: int)
    requires SupOk(s) && j in s.table && s.table[j].pc.Registering? && !Refuses(s, s.table[j].id)
    ensures SupOk(WorkStep(s, j, luck, now)) && Evolves(s, WorkStep(s, j, luck, now))
  {
    var job := WorkJob(s.table[j], false, luck);
    assert JobOk(s.table[j]) && s.table[j].ownsSlot;
    WorkJobOk(s.table[j], false, luck);
    var s' := WorkStep(s, j, luck, now);
    assert s' == SetJob(s.(jobs := s.jobs[job.id := j]), j, job);
    TableKept(s, s', j, job);
  }

  lemma {:induction false} WorkKeeps(s: Supervisor, j: JobRef, luck: Luck, now: int)
    requires SupOk(s) && j in s.table
    ensures SupOk(WorkStep(s, j, luck, now)) && Evolves(s, WorkStep(s, j, luck, now))
  {
    if s.table[j].pc.Registering? && !Refuses(s, s.table[j].id) {
      RegisterKeeps(s, j, luck, now);
    } else if s.table[j].pc.FinishLock? {
      FinishKeeps(s, j, luck, now);
    } else {
      OwnStepKeeps(s, j, luck, now);
    }
  }

  // ---- recovery ------------------------------------------------------------------------------

  /** A recovery step changes the flags of a job whose run is over. */
  lemma {:induction false} CandidateKeeps(s: System, tid: Tid, job: Job, pc: SeekPc)
    requires SystemOk(s) && tid in s.seekers && s.seekers[tid].candidate in s.sup.table
    requires s.sup.table[s.seekers[tid].candidate].runFinished
    requires JobOk(job) && JobLe(s.sup.table[s.seekers[tid].candidate], job)
    requires SameClaim(s.sup.table[s.seekers[tid].candidate], job) && job.runFinished
    requires pc.RecoverReap? ==> !job.group.Alive?
    requires pc.RecoverOfficeCall? || pc.RecoverOfficeMark? ==> job.officeStarted
    ensures SystemOk(UpdateCandidate(s, tid, job, pc)) && Evolves(s.sup, UpdateCandidate(s, tid, job, pc).sup)
  {
    OneJob(s.sup, s.seekers[tid].candidate, job);
    Assemble(s, UpdateCandidate(s, tid, job, pc));
  }

  lemma {:induction false} MoveKeeps(s: System, tid: Tid, pc: SeekPc)
    requires SystemOk(s) && tid in s.seekers && SeekerOk(s.sup, s.seekers[tid].(pc := pc))
    ensures SystemOk(MoveSeeker(s, tid, pc)) && Evolves(s.sup, MoveSeeker(s, tid, pc).sup)
  {
    NothingChanged(s.sup);
    Assemble(s, MoveSeeker(s, tid, pc));
  }

  lemma {:induction false} RecoverFinalKeeps(s: System, tid: Tid)
    requires SystemOk(s) && tid in s.seekers && s.seekers[tid].pc.RecoverFinal?
    requires s.seekers[tid].candidate in s.sup.table
    ensures var s' := MoveSeeker(s, tid, RecoverExit).(sup := Finalize(s.sup, s.seekers[tid].candidate, s.now));
            SystemOk(s') && Evolves(s.sup, s'.sup)
  {
    var c := s.seekers[tid].candidate;
    FinalizeKeeps(s.sup, c, s.now);
    Assemble(s, MoveSeeker(s, tid, RecoverExit).(sup := Finalize(s.sup, c, s.now)));
  }

  lemma {:induction false} RecoverKeeps(s: System, tid: Tid, luck: Luck)
    requires SystemOk(s) && tid in s.seekers && Recovering(s.seekers[tid].pc)
    ensures s.seekers[tid].candidate in s.sup.table
    ensures SystemOk(RecoverStep(s, tid, luck)) && Evolves(s.sup, RecoverStep(s, tid, luck).sup)
  {
    assert SeekerOk(s.sup, s.seekers[tid]);
    var c, pc := s.seekers[tid].candidate, s.seekers[tid].pc;
    if pc.RecoverFinal? {
      RecoverFinalKeeps(s, tid);
    } else {
      var job := s.sup.table[c];
      assert JobOk(job);
      CandidateKeeps(s, tid, RecoverJob(job, pc, luck), RecoverPc(job, pc, luck));
    }
  }

  lemma {:induction false} AcquireStepKeeps(s: System, tid: Tid, newRef: JobRef)
    requires SystemOk(s) && tid in s.seekers && s.sup.free > 0 && newRef !in s.sup.table
    ensures SystemOk(Acquire(s, tid, newRef)) && Evolves(s.sup, Acquire(s, tid, newRef).sup)
  {
    var k := s.seekers[tid];
    AcquireKeeps(s.sup, newRef, k.id, k.request, k.usesOffice);
    Assemble(s, Acquire(s, tid, newRef));
  }

  lemma {:induction false} PickKeeps(s: System, tid: Tid, pick: Id)
    requires SystemOk(s) && tid in s.seekers && s.seekers[tid].pc.Picking?
    requires pick in s.sup.jobs && s.sup.jobs[pick] in s.sup.table && Recoverable(s.sup.table[s.sup.jobs[pick]])
    ensures SystemOk(SeekStep(s, tid, Fine, pick, 0)) && Evolves(s.sup, SeekStep(s, tid, Fine, pick, 0).sup)
  {
    var c := s.sup.jobs[pick];
    assert JobOk(s.sup.table[c]);
    OneJob(s.sup, c, s.sup.table[c].(recovering := true));
    Assemble(s, SeekStep(s, tid, Fine, pick, 0));
  }

  lemma {:induction false} TryKeeps(s: System, tid: Tid, luck: Luck, pick: Id, newRef: JobRef)
    requires SystemOk(s) && tid in s.seekers && (s.seekers[tid].pc.TryFirst? || s.seekers[tid].pc.TrySecond?)
    ensures SystemOk(SeekStep(s, tid, luck, pick, newRef)) && Evolves(s.sup, SeekStep(s, tid, luck, pick, newRef).sup)
  {
    NothingChanged(s.sup);
    var second := s.seekers[tid].pc.TrySecond?;
    if s.sup.free == 0 || (second && !luck.Fine?) {
      MoveKeeps(s, tid, if second then TurnedAway else Picking);
    } else if newRef !in s.sup.table {
      AcquireStepKeeps(s, tid, newRef);
    }
  }

  lemma {:induction false} PickingKeeps(s: System, tid: Tid, luck: Luck, pick: Id, newRef: JobRef)
    requires SystemOk(s) && tid in s.seekers && s.seekers[tid].pc.Picking?
    ensures SystemOk(SeekStep(s, tid, luck, pick, newRef)) && Evolves(s.sup, SeekStep(s, tid, luck, pick, newRef).sup)
  {
    NothingChanged(s.sup);
    if pick in s.sup.jobs && s.sup.jobs[pick] in s.sup.table && Recoverable(s.sup.table[s.sup.jobs[pick]]) {
      PickKeeps(s, tid, pick);
    } else if !AnyRecoverable(s.sup) {
      MoveKeeps(s, tid, TrySecond);
    }
  }

  lemma {:induction false} SeekKeeps(s: System, tid: Tid, luck: Luck, pick: Id, newRef: JobRef)
    requires SystemOk(s) && tid in s.seekers
    ensures SystemOk(SeekStep(s, tid, luck, pick, newRef)) && Evolves(s.sup, SeekStep(s, tid, luck, pick, newRef).sup)
  {
    match s.seekers[tid].pc
    case TryFirst => TryKeeps(s, tid, luck, pick, newRef);
    case Picking => PickingKeeps(s, tid, luck, pick, newRef);
    case TrySecond => TryKeeps(s, tid, luck, pick, newRef);
    case TurnedAway => NothingChanged(s.sup);
    case _ => RecoverKeeps(s, tid, luck);
  }

  // ---- cancel --------------------------------------------------------------------------------

  /** A cancel step that also changes the shared state. */
  lemma {:induction false} StopSupKeeps(s: System, tid: Tid, pc: CancelPc, sup: Supervisor)
    requires SystemOk(s) && tid in s.cancels && CancelOk(s.sup, s.cancels[tid].(pc := pc))
    requires SupOk(sup) && Evolves(s.sup, sup)
    ensures SystemOk(MoveCancel(s, tid, pc).(sup := sup))
  {
    CancelKept(s.sup, sup, s.cancels[tid].(pc := pc));
    Assemble(s, MoveCancel(s, tid, pc).(sup := sup));
  }

  lemma {:induction false} CancelMarkKeeps(s: System, tid: Tid, j: JobRef)
    requires SystemOk(s) && tid in s.cancels && s.cancels[tid].pc.CancelMark? && s.cancels[tid].job == Some(j)
    ensures j in s.sup.table
    ensures var s' := MoveCancel(s, tid, Finalizing).(sup := SetJob(s.sup, j, s.sup.table[j].(officeReaped := true)));
            SystemOk(s') && Evolves(s.sup, s'.sup)
  {
    assert CancelOk(s.sup, s.cancels[tid]);
    assert JobOk(s.sup.table[j]);
    OneJob(s.sup, j, s.sup.table[j].(officeReaped := true));
    StopSupKeeps(s, tid, Finalizing, SetJob(s.sup, j, s.sup.table[j].(officeReaped := true)));
  }

  lemma {:induction false} CancelFinalKeeps(s: System, tid: Tid, j: JobRef)
    requires SystemOk(s) && tid in s.cancels && s.cancels[tid].pc.Finalizing? && s.cancels[tid].job == Some(j)
    requires j in s.sup.table
    ensures var s' := MoveCancel(s, tid, Waiting).(sup := Finalize(s.sup, j, s.now));
            SystemOk(s') && Evolves(s.sup, s'.sup)
  {
    assert CancelOk(s.sup, s.cancels[tid]);
    FinalizeKeeps(s.sup, j, s.now);
    StopSupKeeps(s, tid, Waiting, Finalize(s.sup, j, s.now));
  }

  lemma {:induction false} WaitKeeps(s: System, tid: Tid, j: JobRef, luck: Luck)
    requires SystemOk(s) && tid in s.cancels && s.cancels[tid].pc.Waiting? && s.cancels[tid].job == Some(j)
    requires j in s.sup.table
    ensures SystemOk(StopJobStep(s, tid, j, luck)) && Evolves(s.sup, StopJobStep(s, tid, j, luck).sup)
  {
    NothingChanged(s.sup);
    assert CancelOk(s.sup, s.cancels[tid]) && JobOk(s.sup.table[j]);
    if s.sup.table[j].done {
      StopSupKeeps(s, tid, Finished(true), s.sup);
    } else if !luck.Fine? {
      StopSupKeeps(s, tid, Finished(false), s.sup);
    }
  }

  lemma {:induction false} StopJobKeeps(s: System, tid: Tid, j: JobRef, luck: Luck)
    requires SystemOk(s) && tid in s.cancels && s.cancels[tid].job == Some(j) && j in s.sup.table
    ensures SystemOk(StopJobStep(s, tid, j, luck)) && Evolves(s.sup, StopJobStep(s, tid, j, luck).sup)
  {
    match s.cancels[tid].pc
    case CancelMark => CancelMarkKeeps(s, tid, j);
    case Finalizing => CancelFinalKeeps(s, tid, j);
    case Waiting => WaitKeeps(s, tid, j, luck);
    case _ => NothingChanged(s.sup);
  }

  lemma {:induction false} CancelJobKeeps(s: Supervisor, j: JobRef, ok: bool)
    requires SupOk(s) && j in s.table && s.table[j].registered
    ensures SupOk(CancelJob(s, j, ok)) && Evolves(s, CancelJob(s, j, ok))
    ensures var s' := CancelJob(s, j, ok);
            && s'.jobs == s.jobs && s'.tombstones == s.tombstones && s'.serial == s.serial
            && j in s'.table && s'.table[j].cancelled
  {
    assert JobOk(s.table[j]);
    OneJob(s, j, CancelledJob(s.table[j], ok));
  }

  lemma {:induction false} LockAssemble(s: System, tid: Tid, sup: Supervisor, c: Canceller)
    requires SystemOk(s) && SupOk(sup) && Evolves(s.sup, sup) && CancelOk(sup, c)
    ensures SystemOk(s.(sup := sup, cancels := s.cancels[tid := c]))
  {
    Assemble(s, s.(sup := sup, cancels := s.cancels[tid := c]));
  }

  /** Of the jobs registered under an id that has an entry, only that entry's can own the permit. */
  lemma {:induction false} OwnersBefore(s: Supervisor, id: Id, j: JobRef)
    requires EntriesOk(s) && id in s.jobs && s.jobs[id] == j
    ensures forall k :: k in RegisteredAs(s, id) && s.table[k].ownsSlot ==> k == j
  {
    forall k | k in RegisteredAs(s, id) && s.table[k].ownsSlot ensures k == j {
      assert Claims(s, k);
    }
  }

  lemma {:induction false} LockKnownCancel(s: System, tid: Tid, buried: Supervisor, j: JobRef, luck: Luck)
    requires tid in s.cancels && SupOk(buried)
    requires var id := s.cancels[tid].id; id in buried.tombstones.at && id in buried.jobs && buried.jobs[id] == j
    ensures CancelOk(LockKnown(s, tid, buried, j, luck).sup, LockKnown(s, tid, buried, j, luck).cancels[tid])
  {
    var id := s.cancels[tid].id;
    var sup := CancelJob(buried, j, luck.Fine?);
    assert sup.table == buried.table[j := CancelledJob(buried.table[j], luck.Fine?)];
    assert RegisteredAs(sup, id) == RegisteredAs(buried, id);
    OwnersBefore(buried, id, j);
  }

  lemma {:induction false} LockKnownKeeps(s: System, tid: Tid, buried: Supervisor, j: JobRef, luck: Luck)
    requires SystemOk(s) && tid in s.cancels && SupOk(buried) && Evolves(s.sup, buried)
    requires var id := s.cancels[tid].id; id in buried.tombstones.at && id in buried.jobs && buried.jobs[id] == j
    ensures SystemOk(LockKnown(s, tid, buried, j, luck)) && Evolves(s.sup, LockKnown(s, tid, buried, j, luck).sup)
  {
    var sup := CancelJob(buried, j, luck.Fine?);
    CancelJobKeeps(buried, j, luck.Fine?);
    EvolvesTrans(s.sup, buried, sup);
    LockKnownCancel(s, tid, buried, j, luck);
    LockAssemble(s, tid, sup, LockKnown(s, tid, buried, j, luck).cancels[tid]);
  }

  lemma {:induction false} LockUnknownKeeps(s: System, tid: Tid, buried: Supervisor)
    requires SystemOk(s) && tid in s.cancels && SupOk(buried) && Evolves(s.sup, buried)
    requires s.cancels[tid].id in buried.tombstones.at && s.cancels[tid].id !in buried.jobs
    ensures SystemOk(LockUnknown(s, tid, buried)) && Evolves(s.sup, LockUnknown(s, tid, buried).sup)
  {
    var c := LockUnknown(s, tid, buried).cancels[tid];
    LockAssemble(s, tid, buried, c);
  }

  lemma {:induction false} LockKeeps(s: System, tid: Tid, luck: Luck)
    requires SystemOk(s) && tid in s.cancels && s.cancels[tid].pc.Locking?
    ensures SystemOk(LockCancel(s, tid, luck)) && Evolves(s.sup, LockCancel(s, tid, luck).sup)
  {
    var id := s.cancels[tid].id;
    var buried := Bury(s.sup, id, s.now);
    BuryKeeps(s.sup, id, s.now);
    if id in buried.jobs {
      LockKnownKeeps(s, tid, buried, buried.jobs[id], luck);
    } else {
      LockUnknownKeeps(s, tid, buried);
    }
  }

  lemma {:induction false} RememberSupKeeps(s: Supervisor, id: Id, now: int)
    requires SupOk(s)
    ensures SupOk(RememberStopped(s, id, now)) && Evolves(s, RememberStopped(s, id, now))
  {
    RememberKeeps(s, id, now);
  }

  lemma {:induction false} OfficeCallKeeps(s: System, tid: Tid, luck: Luck)
    requires SystemOk(s) && tid in s.cancels && s.cancels[tid].pc.OfficeCall?
    ensures SystemOk(StopStep(s, tid, luck)) && Evolves(s.sup, StopStep(s, tid, luck).sup)
  {
    NothingChanged(s.sup);
    var c := s.cancels[tid];
    assert CancelOk(s.sup, c);
    var pc := if !luck.Fine? then Finished(false) else if c.job.Some? then CancelMark else Remembering;
    StopSupKeeps(s, tid, pc, s.sup);
  }

  lemma {:induction false} RememberingKeeps(s: System, tid: Tid)
    requires SystemOk(s) && tid in s.cancels && s.cancels[tid].pc.Remembering?
    ensures SystemOk(StopStep(s, tid, Fine)) && Evolves(s.sup, StopStep(s, tid, Fine).sup)
  {
    var c := s.cancels[tid];
    assert CancelOk(s.sup, c);
    RememberSupKeeps(s.sup, c.id, s.now);
    StopSupKeeps(s, tid, Finished(true), RememberStopped(s.sup, c.id, s.now));
  }

  lemma {:induction false} StopKeeps(s: System, tid: Tid, luck: Luck)
    requires SystemOk(s) && tid in s.cancels
    ensures SystemOk(StopStep(s, tid, luck)) && Evolves(s.sup, StopStep(s, tid, luck).sup)
  {
    match s.cancels[tid].pc
    case Locking => LockKeeps(s, tid, luck);
    case OfficeCall => OfficeCallKeeps(s, tid, luck);
    case Remembering => RememberingKeeps(s, tid);
    case Finished(_) => NothingChanged(s.sup);
    case _ =>
      assert CancelOk(s.sup, s.cancels[tid]);
      StopJobKeeps(s, tid, s.cancels[tid].job.value, luck);
  }

  // ---- every step, every run -----------------------------------------------------------------

  lemma {:induction false} DieKeeps(s: System, j: JobRef)
    requires SystemOk(s) && j in s.sup.table && s.sup.table[j].group.Alive?
    ensures SystemOk(Next(s, Die(j))) && Evolves(s.sup, Next(s, Die(j)).sup)
  {
    assert JobOk(s.sup.table[j]);
    OneJob(s.sup, j, s.sup.table[j].(group := Gone));
    Assemble(s, Next(s, Die(j)));
  }

  lemma {:induction false} WorkActionKeeps(s: System, j: JobRef, luck: Luck)
    requires SystemOk(s) && j in s.sup.table
    ensures SystemOk(s.(sup := WorkStep(s.sup, j, luck, s.now)))
    ensures Evolves(s.sup, WorkStep(s.sup, j, luck, s.now))
  {
    WorkKeeps(s.sup, j, luck, s.now);
    Assemble(s, s.(sup := WorkStep(s.sup, j, luck, s.now)));
  }

  lemma {:induction false} NewSeeker(s: Supervisor, id: Id, request: nat, usesOffice: bool)
    ensures SeekerOk(s, Seeker(id, request, usesOffice, TryFirst, 0))
  {
  }

  lemma {:induction false} NewCancel(s: Supervisor, id: Id)
    ensures CancelOk(s, Canceller(id, Locking, None, 0, false, {}))
  {
  }

  lemma {:induction false} ArriveKeeps(s: System, a: Action)
    requires SystemOk(s) && (a.Tick? || a.ArriveRun? || a.ArriveCancel?)
    ensures SystemOk(Next(s, a)) && Evolves(s.sup, Next(s, a).sup)
  {
    NothingChanged(s.sup);
    var s' := Next(s, a);
    assert s'.sup == s.sup;
    if a.ArriveRun? && a.tid !in s.seekers {
      NewSeeker(s.sup, a.id, a.request, a.usesOffice);
    } else if a.ArriveCancel? && a.tid !in s.cancels {
      NewCancel(s.sup, a.id);
      assert s' == s.(cancels := s.cancels[a.tid := Canceller(a.id, Locking, None, 0, false, {})]);
    }
    Assemble(s, s');
  }

  /** A step of this kind is possible. */
  predicate Possible(s: System, a: Action) {
    match a
    case Die(j) => j in s.sup.table && s.sup.table[j].group.Alive?
    case Seek(tid, _, _, _) => tid in s.seekers
    case Work(j, _) => j in s.sup.table
    case Stop(tid, _) => tid in s.cancels
    case _ => true
  }

  lemma {:induction false} NextKeeps(s: System, a: Action)
    requires SystemOk(s)
    ensures SystemOk(Next(s, a)) && Evolves(s.sup, Next(s, a).sup)
  {
    if Possible(s, a) {
      match a
      case Die(j) => DieKeeps(s, j);
      case Seek(tid, luck, pick, newRef) => SeekKeeps(s, tid, luck, pick, newRef);
      case Work(j, luck) => WorkActionKeeps(s, j, luck);
      case Stop(tid, luck) => StopKeeps(s, tid, luck);
      case _ => ArriveKeeps(s, a);
    } else {
      NothingChanged(s.sup);
    }
  }

  lemma {:induction false} RunIsOk(role: Role, actions: seq<Action>)
    ensures SystemOk(RunFrom(role, actions))
  {
    if actions != [] {
      RunIsOk(role, actions[..|actions| - 1]);
      NextKeeps(RunFrom(role, actions[..|actions| - 1]), actions[|actions| - 1]);
    }
  }
}
