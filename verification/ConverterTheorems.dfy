/**
 The supervisor's promises over every interleaving, for either role.
 */
module ConverterTheorems {
  import opened Wrappers
  import opened ConverterState
  import opened ConverterSystem
  import opened ConverterSafety

  function Owners(s: Supervisor): set<JobRef> {
    set j | j in s.table && s.table[j].ownsSlot
  }

  lemma {:induction false} PermitCount(s: Supervisor)
    requires SupOk(s)
    ensures s.free + |Owners(s)| == 1
    ensures |s.jobs.Keys| <= 1 && (s.free == 1 ==> s.jobs == map[])
  {
    if s.free == 0 {
      var o :| o in s.table && s.table[o].ownsSlot;
      assert Owners(s) == {o};
      if s.jobs != map[] {
        var id :| id in s.jobs;
        assert s.jobs.Keys == {id};
      }
    } else {
      assert Owners(s) == {};
      assert s.jobs.Keys == {};
    }
  }

  /**
   The free permit and the jobs that own it always make one. A registered entry owns the
   permit, so `jobs` has at most one entry and none while the permit is free.
   */
  lemma {:induction false} OnePermit(role: Role, actions: seq<Action>)
    ensures var s := RunFrom(role, actions).sup;
            && s.free + |Owners(s)| == 1
            && |s.jobs.Keys| <= 1 && (s.free == 1 ==> s.jobs == map[])
            && forall id :: id in s.jobs ==> Claims(s, s.jobs[id]) && s.table[s.jobs[id]].id == id
  {
    RunIsOk(role, actions);
    PermitCount(RunFrom(role, actions).sup);
  }

  /** A permit is given back only after the run, its process group and its Office call are over. */
  lemma {:induction false} PermitOutlivesWork(role: Role, actions: seq<Action>, j: JobRef)
    requires j in RunFrom(role, actions).sup.table && !RunFrom(role, actions).sup.table[j].ownsSlot
    ensures var job := RunFrom(role, actions).sup.table[j];
            && job.runFinished && job.pc.Ended? && job.groupReaped && !job.group.Alive?
            && (job.officeStarted ==> job.officeReaped)
  {
    RunIsOk(role, actions);
    assert JobOk(RunFrom(role, actions).sup.table[j]);
  }

  /** A run that returned a result has already given its permit back. */
  lemma {:induction false} ResultFollowsRelease(role: Role, actions: seq<Action>, j: JobRef)
    requires j in RunFrom(role, actions).sup.table && RunFrom(role, actions).sup.table[j].pc == Ended(true)
    ensures !RunFrom(role, actions).sup.table[j].ownsSlot
  {
    RunIsOk(role, actions);
    assert JobOk(RunFrom(role, actions).sup.table[j]);
  }

  /**
   Over any continuation: a reaped group never lives again, a released permit is never released
   a second time, and a finished run never resumes.
   */
  lemma {:induction false} SettledForGood(role: Role, actions: seq<Action>, more: seq<Action>, j: JobRef)
    requires j in RunFrom(role, actions).sup.table
    ensures j in RunFrom(role, actions + more).sup.table
    ensures var job, later := RunFrom(role, actions).sup.table[j], RunFrom(role, actions + more).sup.table[j];
            && (job.groupReaped ==> later.groupReaped && !later.group.Alive?)
            && (!job.ownsSlot ==> !later.ownsSlot)
            && (job.runFinished ==> later.runFinished && later.pc == job.pc)
            && (job.cancelled ==> later.cancelled)
  {
    JobsOnlyAdvance(role, actions, more, j);
  }

  lemma {:induction false} StepAdvances(s: System, a: Action, j: JobRef)
    requires SystemOk(s) && j in s.sup.table
    ensures j in Next(s, a).sup.table && JobLe(s.sup.table[j], Next(s, a).sup.table[j])
  {
    NextKeeps(s, a);
  }

  lemma {:induction false} JobsOnlyAdvance(role: Role, actions: seq<Action>, more: seq<Action>, j: JobRef)
    requires j in RunFrom(role, actions).sup.table
    ensures j in RunFrom(role, actions + more).sup.table
    ensures JobLe(RunFrom(role, actions).sup.table[j], RunFrom(role, actions + more).sup.table[j])
  {
    if more == [] {
      assert actions + more == actions;
      RunIsOk(role, actions);
      assert JobOk(RunFrom(role, actions).sup.table[j]);
    } else {
      var front, a := more[..|more| - 1], more[|more| - 1];
      JobsOnlyAdvance(role, actions, front, j);
      assert actions + more == actions + front + [a];
      RunIsOk(role, actions + front);
      StepAdvances(RunFrom(role, actions + front), a, j);
    }
  }

  /** A run that was refused registration never touches the entry of another job. */
  lemma {:induction false} RefusedRunEvictsNobody(role: Role, actions: seq<Action>, j: JobRef, luck: Luck)
    requires j in RunFrom(role, actions).sup.table && !RunFrom(role, actions).sup.table[j].registered
    requires RunFrom(role, actions).sup.table[j].pc.Registering? ==>
               Refuses(RunFrom(role, actions).sup, RunFrom(role, actions).sup.table[j].id)
    ensures Next(RunFrom(role, actions), Work(j, luck)).sup.jobs == RunFrom(role, actions).sup.jobs
  {
    RunIsOk(role, actions);
    var s := RunFrom(role, actions);
    if s.sup.table[j].id in s.sup.jobs {
      assert s.sup.jobs[s.sup.table[j].id] != j;
    }
  }

  /** Nothing of this job runs any more, and its permit is back. */
  predicate Over(job: Job) {
    job.done && !job.ownsSlot && job.runFinished && job.groupReaped && !job.group.Alive?
  }

  /**
   What a successful cancel leaves behind: every job that was registered when it took the lock is
   over, and while its tombstone is kept no other job of the id is registered or has a process.
   */
  ghost predicate Silenced(s: System, c: Canceller) {
    && (forall k :: k in c.before ==> k in s.sup.table && Over(s.sup.table[k]))
    && (StillBuried(s.sup, c) ==>
          forall k :: k in s.sup.table && s.sup.table[k].id == c.id && k !in c.before ==>
            !s.sup.table[k].registered && s.sup.table[k].group.NoGroup?)
  }

  lemma {:induction false} SuccessSilences(s: System, tid: Tid)
    requires SystemOk(s) && tid in s.cancels && s.cancels[tid].pc == Finished(true)
    ensures Silenced(s, s.cancels[tid])
  {
    var c := s.cancels[tid];
    assert CancelOk(s.sup, c);
    forall k | k in c.before
      ensures k in s.sup.table && Over(s.sup.table[k])
    {
      assert k in RegisteredAs(s.sup, c.id) && JobOk(s.sup.table[k]);
    }
    forall k | StillBuried(s.sup, c) && k in s.sup.table && s.sup.table[k].id == c.id && k !in c.before
      ensures !s.sup.table[k].registered && s.sup.table[k].group.NoGroup?
    {
      assert k !in RegisteredAs(s.sup, c.id) && JobOk(s.sup.table[k]);
    }
  }

  /** A cancel that reported success found its job finalised and left every job of its id silent. */
  lemma {:induction false} CancelIsFinal(role: Role, actions: seq<Action>, tid: Tid)
    requires tid in RunFrom(role, actions).cancels && RunFrom(role, actions).cancels[tid].pc == Finished(true)
    ensures var s := RunFrom(role, actions);
            var c := s.cancels[tid];
            && Silenced(s, c)
            && (c.job.Some? ==> c.job.value in s.sup.table && Over(s.sup.table[c.job.value]))
  {
    RunIsOk(role, actions);
    var s := RunFrom(role, actions);
    SuccessSilences(s, tid);
    assert CancelOk(s.sup, s.cancels[tid]);
    if s.cancels[tid].job.Some? {
      assert JobOk(s.sup.table[s.cancels[tid].job.value]);
    }
  }

  /** The cancel has not taken the lock yet, if it has arrived at all. */
  predicate NotLocked(s: System, tid: Tid) {
    tid in s.cancels ==> s.cancels[tid].pc.Locking?
  }

  lemma {:induction false} StopKeepsBefore(s: System, tid: Tid, luck: Luck)
    requires tid in s.cancels && !s.cancels[tid].pc.Locking?
    ensures tid in StopStep(s, tid, luck).cancels
    ensures var c := StopStep(s, tid, luck).cancels[tid];
            !c.pc.Locking? && c == s.cancels[tid].(pc := c.pc)
  {
  }

  lemma {:induction false} OthersKeepCancel(s: System, a: Action, tid: Tid)
    requires tid in s.cancels && !(a.Stop? && a.tid == tid)
    ensures tid in Next(s, a).cancels && Next(s, a).cancels[tid] == s.cancels[tid]
  {
  }

  lemma {:induction false} BeforeStays(s: System, a: Action, tid: Tid)
    requires tid in s.cancels && !s.cancels[tid].pc.Locking?
    ensures tid in Next(s, a).cancels && !NotLocked(Next(s, a), tid)
    ensures Next(s, a).cancels[tid].before == s.cancels[tid].before && Next(s, a).cancels[tid].id == s.cancels[tid].id
  {
    if a.Stop? && a.tid == tid {
      StopKeepsBefore(s, tid, a.luck);
    } else {
      OthersKeepCancel(s, a, tid);
    }
  }

  lemma {:induction false} LockSees(s: System, a: Action, tid: Tid, j: JobRef)
    requires NotLocked(s, tid) && !NotLocked(Next(s, a), tid)
    requires Registered(s.sup, j) && s.sup.table[j].id == Next(s, a).cancels[tid].id
    ensures j in Next(s, a).cancels[tid].before
  {
    assert a.Stop? && a.tid == tid;
  }

  /**
   `before` is history: a job that is registered at some point of the run, while the cancel has
   not yet taken the lock, is in the set that the cancel has seen once it did.
   */
  lemma {:induction false} BeforeIsHistory(role: Role, actions: seq<Action>, more: seq<Action>, tid: Tid, j: JobRef)
    requires NotLocked(RunFrom(role, actions), tid) && !NotLocked(RunFrom(role, actions + more), tid)
    requires Registered(RunFrom(role, actions).sup, j)
    requires RunFrom(role, actions).sup.table[j].id == RunFrom(role, actions + more).cancels[tid].id
    ensures j in RunFrom(role, actions + more).cancels[tid].before
  {
    assert actions + [] == actions;
    if more != [] {
      var front, a := more[..|more| - 1], more[|more| - 1];
      assert actions + more == actions + front + [a];
      var s := RunFrom(role, actions + front);
      assert RunFrom(role, actions + more) == Next(s, a);
      if NotLocked(s, tid) {
        JobsOnlyAdvance(role, actions, front, j);
        LockSees(s, a, tid, j);
      } else {
        BeforeStays(s, a, tid);
        BeforeIsHistory(role, actions, front, tid, j);
      }
    }
  }

  /**
   Whatever happened to the tombstones since: every job that was registered under an id before a
   cancel of that id took the lock is over when that cancel has reported success.
   */
  lemma {:induction false} CancelEndsEarlierJobs(role: Role, actions: seq<Action>, more: seq<Action>, tid: Tid,
                                                 j: JobRef)
    requires NotLocked(RunFrom(role, actions), tid) && Registered(RunFrom(role, actions).sup, j)
    requires tid in RunFrom(role, actions + more).cancels
    requires RunFrom(role, actions + more).cancels[tid].pc == Finished(true)
    requires RunFrom(role, actions + more).cancels[tid].id == RunFrom(role, actions).sup.table[j].id
    ensures j in RunFrom(role, actions + more).sup.table && Over(RunFrom(role, actions + more).sup.table[j])
  {
    BeforeIsHistory(role, actions, more, tid, j);
    CancelIsFinal(role, actions + more, tid);
  }

  /** A new request up to its permit. */
  function Admit(s: System, tid: Tid, id: Id, request: nat, j: JobRef): System {
    Next(Next(s, ArriveRun(tid, id, request, false)), Seek(tid, Fine, id, j))
  }

  /** ... and three steps of its run: registration, the gate and the child, if it gets that far. */
  function Convert(s: System, j: JobRef): System {
    Next(Next(Next(s, Work(j, Fine)), Work(j, Fine)), Work(j, Fine))
  }

  lemma {:induction false} Admitted(s: System, tid: Tid, id: Id, request: nat, j: JobRef)
    requires SystemOk(s) && s.sup.free > 0 && tid !in s.seekers && j !in s.sup.table
    ensures var s' := Admit(s, tid, id, request, j);
            && s'.sup == s.sup.(free := 0, table := s.sup.table[j := NewJob(id, request, false)])
            && s'.sup.jobs == map[]
  {
    PermitCount(s.sup);
    var s1 := Next(s, ArriveRun(tid, id, request, false));
    assert s1.sup == s.sup && s1.seekers[tid] == Seeker(id, request, false, TryFirst, 0);
  }

  lemma {:induction false} WorkOne(s: System, j: JobRef, job: Job)
    requires j in s.sup.table && s.sup.table[j] == job && !job.pc.FinishLock?
    ensures j in Next(s, Work(j, Fine)).sup.table
    ensures Next(s, Work(j, Fine)).sup.table[j] == WorkJob(job, Refuses(s.sup, job.id), Fine)
  {
  }

  /** With the permit free and nobody in between, the tombstone of its id alone decides about a request. */
  lemma {:induction false} LuckyRequest(s: System, tid: Tid, id: Id, request: nat, j: JobRef)
    requires SystemOk(s) && s.sup.free > 0 && tid !in s.seekers && j !in s.sup.table
    ensures var s' := Convert(Admit(s, tid, id, request, j), j);
            && j in s'.sup.table && s'.sup.table[j].request == request
            && (if id in s.sup.tombstones.at then Over(s'.sup.table[j]) && !s'.sup.table[j].registered
                else s'.sup.table[j].registered && s'.sup.table[j].group.Alive?)
  {
    Admitted(s, tid, id, request, j);
    var s0, new0 := Admit(s, tid, id, request, j), NewJob(id, request, false);
    var s1 := Next(s0, Work(j, Fine));
    WorkOne(s0, j, new0);
    var s2 := Next(s1, Work(j, Fine));
    if id in s.sup.tombstones.at {
      assert s1.sup.table[j] == new0.(pc := Finishing(false));
      WorkOne(s1, j, new0.(pc := Finishing(false)));
      assert s2.sup.table[j] == new0.(pc := FinishLock(false, true));
    } else {
      assert s1.sup.table[j] == new0.(pc := Gate, registered := true);
      WorkOne(s1, j, new0.(pc := Gate, registered := true));
      assert s2.sup.table[j] == new0.(pc := Spawning, registered := true);
      WorkOne(s2, j, new0.(pc := Spawning, registered := true));
    }
  }

  /** Both dictionaries of times stay within their bound. */
  lemma {:induction false} ReceiptsBounded(role: Role, actions: seq<Action>)
    ensures |RunFrom(role, actions).sup.tombstones.at.Keys| <= CAPACITY
    ensures |RunFrom(role, actions).sup.stopped.at.Keys| <= CAPACITY
  {
    RunIsOk(role, actions);
    KeysAreOrder(RunFrom(role, actions).sup.tombstones);
    KeysAreOrder(RunFrom(role, actions).sup.stopped);
  }

  lemma {:induction false} DistinctCount(order: seq<Id>)
    requires Distinct(order)
    ensures |set id | id in order| == |order|
  {
    if order != [] {
      DistinctCount(order[1..]);
      assert (set id | id in order) == (set id | id in order[1..]) + {order[0]};
    }
  }

  lemma {:induction false} KeysAreOrder(d: Times)
    requires TimesOk(d)
    ensures |d.at.Keys| == |d.order|
  {
    DistinctCount(d.order);
    assert d.at.Keys == set id | id in d.order;
  }

  // ---- a quarantined job does not hold the permit for ever ----------------------------------

  /** What a recovery in which nothing of its own went wrong has established about the candidate. */
  predicate Progress(pc: SeekPc, job: Job) {
    && (pc.RecoverOfficeCheck? || pc.RecoverOfficeCall? || pc.RecoverOfficeMark? || pc.RecoverFinal? ==>
          job.groupReaped)
    && (pc.RecoverFinal? && job.officeStarted ==> job.officeReaped)
  }

  /** Job `c` has released its permit, or request `tid` is still on the way to making it do so. */
  predicate OnCourse(s: System, tid: Tid, c: JobRef) {
    && c in s.sup.table
    && (s.sup.table[c].ownsSlot ==>
          && tid in s.seekers && s.seekers[tid].candidate == c
          && Recovering(s.seekers[tid].pc) && !s.seekers[tid].pc.RecoverExit?
          && Progress(s.seekers[tid].pc, s.sup.table[c]))
  }

  function Rank(pc: SeekPc): nat {
    match pc
    case RecoverCheck => 7 case RecoverKill => 6 case RecoverReap => 5 case RecoverOfficeCheck => 4
    case RecoverOfficeCall => 3 case RecoverOfficeMark => 2 case RecoverFinal => 1
    case _ => 0
  }

  /** How many steps of the request `c` still needs to release its permit. */
  function StepsLeft(s: System, tid: Tid, c: JobRef): nat {
    if c in s.sup.table && s.sup.table[c].ownsSlot && tid in s.seekers then Rank(s.seekers[tid].pc) else 0
  }

  predicate OwnStep(a: Action, tid: Tid) { a.Seek? && a.tid == tid }

  lemma {:induction false} ReleasingStep(s: System, tid: Tid)
    requires SystemOk(s) && tid in s.seekers && s.seekers[tid].pc.RecoverFinal?
    requires OnCourse(s, tid, s.seekers[tid].candidate)
    ensures RecoverStep(s, tid, Fine).sup.table.Keys == s.sup.table.Keys
    ensures !RecoverStep(s, tid, Fine).sup.table[s.seekers[tid].candidate].ownsSlot
  {
    assert SeekerOk(s.sup, s.seekers[tid]);
  }

  lemma {:induction false} OwnProgress(s: System, tid: Tid)
    requires SystemOk(s) && tid in s.seekers && Recovering(s.seekers[tid].pc) && !s.seekers[tid].pc.RecoverExit?
    requires OnCourse(s, tid, s.seekers[tid].candidate)
    requires s.seekers[tid].candidate in s.sup.table && s.sup.table[s.seekers[tid].candidate].ownsSlot
    ensures OnCourse(RecoverStep(s, tid, Fine), tid, s.seekers[tid].candidate)
    ensures StepsLeft(RecoverStep(s, tid, Fine), tid, s.seekers[tid].candidate) <
            StepsLeft(s, tid, s.seekers[tid].candidate)
  {
    if s.seekers[tid].pc.RecoverFinal? {
      ReleasingStep(s, tid);
    } else {
      var c, pc := s.seekers[tid].candidate, s.seekers[tid].pc;
      var job := s.sup.table[c];
      assert Progress(RecoverPc(job, pc, Fine), RecoverJob(job, pc, Fine));
      assert Rank(RecoverPc(job, pc, Fine)) < Rank(pc);
    }
  }

  lemma {:induction false} OthersKeepSeeker(s: System, a: Action, tid: Tid)
    requires tid in s.seekers && !OwnStep(a, tid)
    ensures tid in Next(s, a).seekers && Next(s, a).seekers[tid] == s.seekers[tid]
  {
  }

  lemma {:induction false} CourseKept(s: System, a: Action, tid: Tid, c: JobRef)
    requires SystemOk(s) && OnCourse(s, tid, c) && (OwnStep(a, tid) ==> a.luck.Fine?)
    ensures OnCourse(Next(s, a), tid, c)
    ensures StepsLeft(Next(s, a), tid, c) <=
            if OwnStep(a, tid) && StepsLeft(s, tid, c) > 0 then StepsLeft(s, tid, c) - 1 else StepsLeft(s, tid, c)
  {
    NextKeeps(s, a);
    assert JobLe(s.sup.table[c], Next(s, a).sup.table[c]);
    if s.sup.table[c].ownsSlot {
      assert SeekerOk(s.sup, s.seekers[tid]);
      if OwnStep(a, tid) {
        OwnProgress(s, tid);
      } else {
        OthersKeepSeeker(s, a, tid);
      }
    }
  }

  function After(s: System, actions: seq<Action>): System
    decreases |actions|
  {
    if actions == [] then s else Next(After(s, actions[..|actions| - 1]), actions[|actions| - 1])
  }

  function OwnSteps(actions: seq<Action>, tid: Tid): nat {
    if actions == [] then 0
    else OwnSteps(actions[..|actions| - 1], tid) + if OwnStep(actions[|actions| - 1], tid) then 1 else 0
  }

  lemma {:induction false} CourseOverRuns(s: System, actions: seq<Action>, tid: Tid, c: JobRef)
    requires SystemOk(s) && OnCourse(s, tid, c)
    requires forall a :: a in actions && OwnStep(a, tid) ==> a.luck.Fine?
    ensures SystemOk(After(s, actions)) && OnCourse(After(s, actions), tid, c)
    ensures StepsLeft(After(s, actions), tid, c) <=
            if OwnSteps(actions, tid) < StepsLeft(s, tid, c) then StepsLeft(s, tid, c) - OwnSteps(actions, tid) else 0
    decreases |actions|
  {
    if actions != [] {
      var front, a := actions[..|actions| - 1], actions[|actions| - 1];
      CourseOverRuns(s, front, tid, c);
      NextKeeps(After(s, front), a);
      CourseKept(After(s, front), a, tid, c);
    }
  }

  /**
   A quarantined job can always be recovered: a request that has picked it, and whose own steps
   confirm its group and its Office call stopped, makes it release the permit with at most seven
   of those steps, whatever every other thread does in between.
   */
  lemma {:induction false} QuarantineIsRecoverable(s: System, actions: seq<Action>, tid: Tid)
    requires SystemOk(s) && tid in s.seekers && s.seekers[tid].pc.RecoverCheck?
    requires forall a :: a in actions && OwnStep(a, tid) ==> a.luck.Fine?
    requires OwnSteps(actions, tid) >= 7
    ensures var c := s.seekers[tid].candidate;
            && c in After(s, actions).sup.table && !After(s, actions).sup.table[c].ownsSlot
            && After(s, actions).sup.table[c].done
  {
    assert SeekerOk(s.sup, s.seekers[tid]);
    var c := s.seekers[tid].candidate;
    CourseOverRuns(s, actions, tid, c);
    assert JobOk(After(s, actions).sup.table[c]);
  }

  // ---- what becomes of a request, whatever the others do -------------------------------------

  predicate OwnRun(a: Action, j: JobRef) { a.Work? && a.j == j }

  /** The part of a job that its own run alone changes. */
  predicate SamePlace(a: Job, b: Job) { b.pc == a.pc && b.registered == a.registered }

  lemma {:induction false} RecoverKeepsPlace(s: System, tid: Tid, luck: Luck, j: JobRef)
    requires tid in s.seekers && s.seekers[tid].candidate in s.sup.table && j in s.sup.table
    ensures j in RecoverStep(s, tid, luck).sup.table
    ensures SamePlace(s.sup.table[j], RecoverStep(s, tid, luck).sup.table[j])
  {
  }

  lemma {:induction false} SeekKeepsPlace(s: System, a: Action, j: JobRef)
    requires a.Seek? && a.tid in s.seekers && j in s.sup.table
    ensures j in Next(s, a).sup.table && SamePlace(s.sup.table[j], Next(s, a).sup.table[j])
  {
    if Recovering(s.seekers[a.tid].pc) && s.seekers[a.tid].candidate in s.sup.table {
      RecoverKeepsPlace(s, a.tid, a.luck, j);
    }
  }

  lemma {:induction false} StopJobKeepsPlace(s: System, tid: Tid, c: JobRef, luck: Luck, j: JobRef)
    requires tid in s.cancels && c in s.sup.table && j in s.sup.table
    ensures j in StopJobStep(s, tid, c, luck).sup.table
    ensures SamePlace(s.sup.table[j], StopJobStep(s, tid, c, luck).sup.table[j])
  {
    match s.cancels[tid].pc
    case CancelMark =>
    case Finalizing =>
    case _ =>
  }

  lemma {:induction false} StopKeepsPlace(s: System, tid: Tid, luck: Luck, j: JobRef)
    requires tid in s.cancels && j in s.sup.table
    ensures j in StopStep(s, tid, luck).sup.table
    ensures SamePlace(s.sup.table[j], StopStep(s, tid, luck).sup.table[j])
  {
    match s.cancels[tid].pc
    case Locking =>
    case OfficeCall =>
    case Remembering =>
    case Finished(_) =>
    case _ =>
      if s.cancels[tid].job.Some? && s.cancels[tid].job.value in s.sup.table {
        StopJobKeepsPlace(s, tid, s.cancels[tid].job.value, luck, j);
      }
  }

  lemma {:induction false} OthersKeepPlace(s: System, a: Action, j: JobRef)
    requires j in s.sup.table && !OwnRun(a, j)
    ensures j in Next(s, a).sup.table && SamePlace(s.sup.table[j], Next(s, a).sup.table[j])
  {
    match a
    case Seek(tid, _, _, _) => if tid in s.seekers { SeekKeepsPlace(s, a, j); }
    case Stop(tid, luck) => if tid in s.cancels { StopKeepsPlace(s, tid, luck, j); }
    case _ =>
  }

  /** Refused for good: it never gets registered, and so never a process. */
  predicate Refused(job: Job) { !job.registered && !job.pc.Registering? }

  lemma {:induction false} NeverBack(job: Job, refused: bool, luck: Luck)
    requires !job.pc.Registering?
    ensures !WorkPc(job, refused, luck).Registering?
  {
    if InOffice(job.pc) {
    } else {
    }
  }

  lemma {:induction false} OwnRefused(s: Supervisor, j: JobRef, luck: Luck, now: int)
    requires j in s.table && Refused(s.table[j])
    ensures Refused(WorkStep(s, j, luck, now).table[j])
  {
    var job, refused := s.table[j], Refuses(s, s.table[j].id);
    if job.pc.FinishLock? {
      assert WorkStep(s, j, luck, now).table[j] == Settled(EndedJob(job));
    } else {
      NeverBack(job, refused, luck);
      assert WorkStep(s, j, luck, now).table[j] == WorkJob(job, refused, luck);
      assert !WorkJob(job, refused, luck).registered;
    }
  }

  lemma {:induction false} RefusedStays(s: System, a: Action, j: JobRef)
    requires j in s.sup.table && Refused(s.sup.table[j])
    ensures j in Next(s, a).sup.table && Refused(Next(s, a).sup.table[j])
  {
    if OwnRun(a, j) { OwnRefused(s.sup, j, a.luck, s.now); } else { OthersKeepPlace(s, a, j); }
  }

  /** Registered, and with a process, marked by a cancel, or just before the child is started. */
  predicate Starting(job: Job) {
    job.registered && (job.cancelled || !job.group.NoGroup? || job.pc.Gate? || job.pc.Spawning?)
  }

  /** How many steps of its own a run still needs to start its child. */
  function StartLeft(job: Job): nat {
    if job.cancelled || !job.group.NoGroup? then 0 else if job.pc.Gate? then 2 else if job.pc.Spawning? then 1 else 0
  }

  lemma {:induction false} OwnStart(job: Job, refused: bool)
    requires Starting(job) && StartLeft(job) > 0
    ensures Starting(WorkJob(job, refused, Fine)) && StartLeft(WorkJob(job, refused, Fine)) < StartLeft(job)
  {
    assert WorkPc(job, refused, Fine) == ChildPc(job, Fine);
    if job.pc.Gate? {
      assert WorkJob(job, refused, Fine).pc == Spawning;
    } else {
      assert WorkJob(job, refused, Fine).group == Alive;
    }
  }

  lemma {:induction false} StartKept(s: System, a: Action, j: JobRef)
    requires SystemOk(s) && j in s.sup.table && Starting(s.sup.table[j]) && (OwnRun(a, j) ==> a.luck.Fine?)
    ensures j in Next(s, a).sup.table && Starting(Next(s, a).sup.table[j])
    ensures var left := StartLeft(s.sup.table[j]);
            StartLeft(Next(s, a).sup.table[j]) <= if OwnRun(a, j) && left > 0 then left - 1 else left
  {
    StepAdvances(s, a, j);
    if StartLeft(s.sup.table[j]) > 0 {
      if OwnRun(a, j) {
        OwnStart(s.sup.table[j], Refuses(s.sup, s.sup.table[j].id));
      } else {
        OthersKeepPlace(s, a, j);
      }
    }
  }

  function OwnRuns(actions: seq<Action>, j: JobRef): nat {
    if actions == [] then 0
    else OwnRuns(actions[..|actions| - 1], j) + if OwnRun(actions[|actions| - 1], j) then 1 else 0
  }

  lemma {:induction false} StartOverRuns(s: System, actions: seq<Action>, j: JobRef)
    requires SystemOk(s) && j in s.sup.table && Starting(s.sup.table[j])
    requires forall a :: a in actions && OwnRun(a, j) ==> a.luck.Fine?
    ensures SystemOk(After(s, actions)) && j in After(s, actions).sup.table && Starting(After(s, actions).sup.table[j])
    ensures var left := StartLeft(s.sup.table[j]);
            StartLeft(After(s, actions).sup.table[j]) <=
            if OwnRuns(actions, j) < left then left - OwnRuns(actions, j) else 0
    decreases |actions|
  {
    if actions != [] {
      var front, a := actions[..|actions| - 1], actions[|actions| - 1];
      StartOverRuns(s, front, j);
      NextKeeps(After(s, front), a);
      StartKept(After(s, front), a, j);
    }
  }

  lemma {:induction false} RefusedOverRuns(s: System, actions: seq<Action>, j: JobRef)
    requires SystemOk(s) && j in s.sup.table && Refused(s.sup.table[j])
    ensures SystemOk(After(s, actions)) && j in After(s, actions).sup.table && Refused(After(s, actions).sup.table[j])
    decreases |actions|
  {
    if actions != [] {
      var front, a := actions[..|actions| - 1], actions[|actions| - 1];
      RefusedOverRuns(s, front, j);
      NextKeeps(After(s, front), a);
      RefusedStays(After(s, front), a, j);
    }
  }

  /** While a run registers it owns the permit, so that no entry is in its way. */
  lemma {:induction false} RegistrationDecides(s: System, j: JobRef)
    requires SystemOk(s) && j in s.sup.table && s.sup.table[j].pc.Registering? && !s.sup.table[j].usesOffice
    ensures Refuses(s.sup, s.sup.table[j].id) <==> s.sup.table[j].id in s.sup.tombstones.at
    ensures var job := Next(s, Work(j, Fine)).sup.table[j];
            if s.sup.table[j].id in s.sup.tombstones.at then Refused(job) else Starting(job)
  {
    var id := s.sup.table[j].id;
    assert JobOk(s.sup.table[j]) && s.sup.table[j].ownsSlot;
    assert Next(s, Work(j, Fine)).sup.table[j] == WorkJob(s.sup.table[j], Refuses(s.sup, id), Fine);
  }

  /**
   What becomes of a request that has the permit, in every interleaving: a tombstone of its id at
   its registration refuses it for good; and without one, after two more of its steps that go well
   it has had its process, or a cancel has marked it before.
   */
  lemma {:induction false} ServedUnlessBuried(s: System, actions: seq<Action>, j: JobRef)
    requires SystemOk(s) && j in s.sup.table && s.sup.table[j].pc.Registering? && !s.sup.table[j].usesOffice
    ensures var s' := After(Next(s, Work(j, Fine)), actions);
            && j in s'.sup.table
            && var job := s'.sup.table[j];
            if s.sup.table[j].id in s.sup.tombstones.at then !job.registered && job.group.NoGroup?
            else
              && job.registered
              && (OwnRuns(actions, j) >= 2 && (forall a :: a in actions && OwnRun(a, j) ==> a.luck.Fine?) ==>
                    job.cancelled || !job.group.NoGroup?)
  {
    var s1 := Next(s, Work(j, Fine));
    RegistrationDecides(s, j);
    NextKeeps(s, Work(j, Fine));
    if s.sup.table[j].id in s.sup.tombstones.at {
      RefusedOverRuns(s1, actions, j);
      assert JobOk(After(s1, actions).sup.table[j]);
    } else {
      AfterAdvances(s1, actions, j);
      if forall a :: a in actions && OwnRun(a, j) ==> a.luck.Fine? {
        StartOverRuns(s1, actions, j);
      }
    }
  }

  lemma {:induction false} AfterAdvances(s: System, actions: seq<Action>, j: JobRef)
    requires SystemOk(s) && j in s.sup.table
    ensures SystemOk(After(s, actions)) && j in After(s, actions).sup.table
    ensures JobLe(s.sup.table[j], After(s, actions).sup.table[j])
    decreases |actions|
  {
    if actions == [] {
      assert JobOk(s.sup.table[j]);
    } else {
      var front, a := actions[..|actions| - 1], actions[|actions| - 1];
      AfterAdvances(s, front, j);
      NextKeeps(After(s, front), a);
      StepAdvances(After(s, front), a, j);
    }
  }
}
