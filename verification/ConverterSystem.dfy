/**
 Every interleaving of `run`, `cancel` and recovery over one supervisor. A step is one block run
 under the lock, or one action outside it: ending a process group, starting an RPC, its reply.
 */
module ConverterSystem {
  import opened Wrappers
  import opened ConverterState

  /** `run` before it holds the permit, including the recovery of a finished job. */
  datatype SeekPc =
    | TryFirst | Picking | RecoverCheck | RecoverKill | RecoverReap | RecoverOfficeCheck
    | RecoverOfficeCall | RecoverOfficeMark | RecoverFinal | RecoverExit | TrySecond | TurnedAway

  datatype Seeker = Seeker(id: Id, request: nat, usesOffice: bool, pc: SeekPc, candidate: JobRef)

  datatype CancelPc =
    | Locking | OfficeCall | CancelMark | Finalizing | Waiting | Remembering | Finished(ok: bool)

  /**
   A `cancel` call; `serial` is the tombstone it found or made, `asks` its needs_office. The jobs
   that were registered under its id when it took the lock are kept in `before`, as history.
   */
  datatype Canceller = Canceller(id: Id, pc: CancelPc, job: Option<JobRef>, serial: nat, asks: bool,
                                 before: set<JobRef>)

  datatype System = System(sup: Supervisor, seekers: map<Tid, Seeker>, cancels: map<Tid, Canceller>, now: int)

  /** What the environment decides at a step: success, a handled failure, or any other failure. */
  datatype Luck = Fine | Handled | Unhandled

  datatype Action =
    | Tick
    | Die(j: JobRef)
    | ArriveRun(tid: Tid, id: Id, request: nat, usesOffice: bool)
    | ArriveCancel(tid: Tid, id: Id)
    | Seek(tid: Tid, luck: Luck, pick: Id, newRef: JobRef)
    | Work(j: JobRef, luck: Luck)
    | Stop(tid: Tid, luck: Luck)

  // ---- run, before the permit ----------------------------------------------------------------

  predicate AnyRecoverable(s: Supervisor) {
    exists id :: id in s.jobs && s.jobs[id] in s.table && Recoverable(s.table[s.jobs[id]])
  }

  /** A successful acquire; the Job object is created by the same thread right after it. */
  function Acquire(s: System, tid: Tid, newRef: JobRef): System
    requires tid in s.seekers
  {
    var k := s.seekers[tid];
    s.(sup := s.sup.(free := s.sup.free - (if s.sup.free > 0 then 1 else 0),
                     table := s.sup.table[newRef := NewJob(k.id, k.request, k.usesOffice)]),
       seekers := s.seekers - {tid})
  }

  function MoveSeeker(s: System, tid: Tid, pc: SeekPc): System
    requires tid in s.seekers
  {
    s.(seekers := s.seekers[tid := s.seekers[tid].(pc := pc)])
  }

  function UpdateCandidate(s: System, tid: Tid, job: Job, pc: SeekPc): System
    requires tid in s.seekers
  {
    MoveSeeker(s, tid, pc).(sup := SetJob(s.sup, s.seekers[tid].candidate, job))
  }

  function RecoverPc(job: Job, pc: SeekPc, luck: Luck): SeekPc {
    match pc
    case RecoverCheck => if job.groupReaped then RecoverOfficeCheck else RecoverKill
    case RecoverKill => if Terminates(job, luck.Fine?) then RecoverReap else RecoverExit
    case RecoverReap => RecoverOfficeCheck
    case RecoverOfficeCheck => if job.officeStarted && !job.officeReaped then RecoverOfficeCall else RecoverFinal
    case RecoverOfficeCall => if luck.Fine? then RecoverOfficeMark else RecoverExit
    case RecoverOfficeMark => RecoverFinal
    case RecoverFinal => RecoverExit
    case RecoverExit => TrySecond
    case _ => pc
  }

  /** What a recovery step writes into the candidate. */
  function RecoverJob(job: Job, pc: SeekPc, luck: Luck): Job {
    job.(group := if pc.RecoverKill? then Terminate(job, luck.Fine?).group else job.group,
         groupReaped := job.groupReaped || pc.RecoverReap?,
         officeReaped := job.officeReaped || pc.RecoverOfficeMark?,
         recovering := job.recovering && !pc.RecoverExit?)
  }

  function RecoverStep(s: System, tid: Tid, luck: Luck): System
    requires tid in s.seekers && s.seekers[tid].candidate in s.sup.table
  {
    var c, pc := s.seekers[tid].candidate, s.seekers[tid].pc;
    if pc.RecoverFinal? then MoveSeeker(s, tid, RecoverExit).(sup := Finalize(s.sup, c, s.now))
    else UpdateCandidate(s, tid, RecoverJob(s.sup.table[c], pc, luck), RecoverPc(s.sup.table[c], pc, luck))
  }

  function SeekStep(s: System, tid: Tid, luck: Luck, pick: Id, newRef: JobRef): System
    requires tid in s.seekers
  {
    match s.seekers[tid].pc
    case TryFirst =>
      if s.sup.free == 0 then MoveSeeker(s, tid, Picking)
      else if newRef in s.sup.table then s
      else Acquire(s, tid, newRef)
    case Picking =>
      if pick in s.sup.jobs && s.sup.jobs[pick] in s.sup.table && Recoverable(s.sup.table[s.sup.jobs[pick]]) then
        var c := s.sup.jobs[pick];
        s.(sup := SetJob(s.sup, c, s.sup.table[c].(recovering := true)),
           seekers := s.seekers[tid := s.seekers[tid].(pc := RecoverCheck, candidate := c)])
      else if AnyRecoverable(s.sup) then s
      else MoveSeeker(s, tid, TrySecond)
    case TrySecond =>
      if s.sup.free == 0 || !luck.Fine? then MoveSeeker(s, tid, TurnedAway)
      else if newRef in s.sup.table then s
      else Acquire(s, tid, newRef)
    case TurnedAway => s
    case _ => if s.seekers[tid].candidate in s.sup.table then RecoverStep(s, tid, luck) else s
  }

  // ---- run, holding the permit ---------------------------------------------------------------

  /** The Office conversion that some documents need first. */
  function OfficePc(job: Job, luck: Luck): RunPc {
    match job.pc
    case OfficeGate => if job.cancelled then Finishing(false) else OfficeWait
    case OfficeWait =>
      (match luck case Fine => OfficeMark case Handled => OfficeCancel case Unhandled => Finishing(false))
    case OfficeMark => Gate
    case OfficeCancel => if luck.Fine? then OfficeCancelMark else Finishing(false)
    case OfficeCancelMark => Gate
    case _ => job.pc
  }

  /** The conversion child, up to the termination that `run` always attempts at its end. */
  function ChildPc(job: Job, luck: Luck): RunPc {
    match job.pc
    case Gate => if job.cancelled || !luck.Fine? then Finishing(false) else Spawning
    case Spawning => if job.cancelled || !luck.Fine? then Finishing(false) else Polling
    case Polling => (match luck case Fine => Finishing(true) case Handled => Finishing(false) case Unhandled => Killing)
    case Killing => Finishing(false)
    case Finishing(good) => FinishLock(good, Terminates(job, luck.Fine?))
    case _ => job.pc
  }

  function ChildGroup(job: Job, luck: Luck): Group {
    if job.pc.Spawning? && !job.cancelled && luck.Fine? then Alive
    else if job.pc.Killing? || job.pc.Finishing? then Terminate(job, luck.Fine?).group
    else job.group
  }

  predicate InOffice(pc: RunPc) {
    pc.OfficeGate? || pc.OfficeWait? || pc.OfficeMark? || pc.OfficeCancel? || pc.OfficeCancelMark?
  }

  function WorkPc(job: Job, refused: bool, luck: Luck): RunPc {
    if job.pc.Registering? then
      if refused || !luck.Fine? then Finishing(false) else if job.usesOffice then OfficeGate else Gate
    else if InOffice(job.pc) then OfficePc(job, luck)
    else ChildPc(job, luck)
  }

  /** The job after one step of its own run; `refused` is the outcome of its registration. */
  function WorkJob(job: Job, refused: bool, luck: Luck): Job {
    job.(pc := WorkPc(job, refused, luck),
         registered := job.registered || (job.pc.Registering? && !refused),
         officeStarted := job.officeStarted || (job.pc.OfficeGate? && !job.cancelled),
         officeReaped := job.officeReaped || job.pc.OfficeMark? || job.pc.OfficeCancelMark?,
         group := ChildGroup(job, luck))
  }

  /** The record that the last block of `run` works with. */
  function EndedJob(job: Job): Job
    requires job.pc.FinishLock?
  {
    job.(pc := Ended(job.pc.good && job.pc.reaped), runFinished := true,
         groupReaped := job.groupReaped || job.pc.reaped)
  }

  function WorkStep(s: Supervisor, j: JobRef, luck: Luck, now: int): Supervisor
    requires j in s.table
  {
    var job := s.table[j];
    if job.pc.FinishLock? then Settle(s, j, EndedJob(job), now)
    else
      var refused := Refuses(s, job.id);
      s.(jobs := if job.pc.Registering? && !refused then s.jobs[job.id := j] else s.jobs,
         table := s.table[j := WorkJob(job, refused, luck)])
  }

  // ---- cancel --------------------------------------------------------------------------------

  function MoveCancel(s: System, tid: Tid, pc: CancelPc): System
    requires tid in s.cancels
  {
    s.(cancels := s.cancels[tid := s.cancels[tid].(pc := pc)])
  }

  /** The jobs that were ever registered under this id. */
  function RegisteredAs(s: Supervisor, id: Id): set<JobRef> {
    set j | j in s.table && s.table[j].registered && s.table[j].id == id
  }

  /** The first block of `cancel`, after the tombstone, for a job that is registered. */
  function LockKnown(s: System, tid: Tid, buried: Supervisor, j: JobRef, luck: Luck): System
    requires tid in s.cancels && j in buried.table && s.cancels[tid].id in buried.tombstones.at
  {
    var id := s.cancels[tid].id;
    var sup := CancelJob(buried, j, luck.Fine?);
    var asks := NeedsOffice(sup, id, s.now);
    var pc := if !Terminates(buried.table[j], luck.Fine?) then Finished(false)
              else if asks then OfficeCall else Finalizing;
    var c := Canceller(id, pc, Some(j), buried.tombstones.at[id].serial, asks, RegisteredAs(buried, id));
    s.(sup := sup, cancels := s.cancels[tid := c])
  }

  function LockUnknown(s: System, tid: Tid, buried: Supervisor): System
    requires tid in s.cancels && s.cancels[tid].id in buried.tombstones.at
  {
    var id := s.cancels[tid].id;
    var asks := NeedsOffice(buried, id, s.now);
    var c := Canceller(id, if asks then OfficeCall else Remembering, None, buried.tombstones.at[id].serial, asks,
                       RegisteredAs(buried, id));
    s.(sup := buried, cancels := s.cancels[tid := c])
  }

  function LockCancel(s: System, tid: Tid, luck: Luck): System
    requires tid in s.cancels
  {
    var id := s.cancels[tid].id;
    var buried := Bury(s.sup, id, s.now);
    if id in buried.jobs && buried.jobs[id] in buried.table then LockKnown(s, tid, buried, buried.jobs[id], luck)
    else LockUnknown(s, tid, buried)
  }

  /** The steps of `cancel` that work on a job it found. */
  function StopJobStep(s: System, tid: Tid, j: JobRef, luck: Luck): System
    requires tid in s.cancels && j in s.sup.table
  {
    var job := s.sup.table[j];
    match s.cancels[tid].pc
    case CancelMark => MoveCancel(s, tid, Finalizing).(sup := SetJob(s.sup, j, job.(officeReaped := true)))
    case Finalizing => MoveCancel(s, tid, Waiting).(sup := Finalize(s.sup, j, s.now))
    case Waiting =>
      if job.done then MoveCancel(s, tid, Finished(true))
      else if !luck.Fine? then MoveCancel(s, tid, Finished(false))
      else s
    case _ => s
  }

  function StopStep(s: System, tid: Tid, luck: Luck): System
    requires tid in s.cancels
  {
    var c := s.cancels[tid];
    match c.pc
    case Locking => LockCancel(s, tid, luck)
    case OfficeCall =>
      MoveCancel(s, tid, if !luck.Fine? then Finished(false) else if c.job.Some? then CancelMark else Remembering)
    case Remembering => MoveCancel(s, tid, Finished(true)).(sup := RememberStopped(s.sup, c.id, s.now))
    case Finished(_) => s
    case _ => if c.job.Some? && c.job.value in s.sup.table then StopJobStep(s, tid, c.job.value, luck) else s
  }

  /** One step of any thread or of the environment; a step that is not possible changes nothing. */
  function Next(s: System, a: Action): System {
    match a
    case Tick => s.(now := s.now + 1)
    case Die(j) =>
      if j in s.sup.table && s.sup.table[j].group.Alive? then
        s.(sup := SetJob(s.sup, j, s.sup.table[j].(group := Gone)))
      else s
    case ArriveRun(tid, id, request, usesOffice) =>
      if tid in s.seekers || (usesOffice && s.sup.role.Office?) then s
      else s.(seekers := s.seekers[tid := Seeker(id, request, usesOffice, TryFirst, 0)])
    case ArriveCancel(tid, id) =>
      if tid in s.cancels then s else s.(cancels := s.cancels[tid := Canceller(id, Locking, None, 0, false, {})])
    case Seek(tid, luck, pick, newRef) => if tid in s.seekers then SeekStep(s, tid, luck, pick, newRef) else s
    case Work(j, luck) => if j in s.sup.table then s.(sup := WorkStep(s.sup, j, luck, s.now)) else s
    case Stop(tid, luck) => if tid in s.cancels then StopStep(s, tid, luck) else s
  }

  function Initial(role: Role): System {
    System(Supervisor(role, 1, map[], map[], NO_TIMES, NO_TIMES, 0), map[], map[], 0)
  }

  function RunFrom(role: Role, actions: seq<Action>): System {
    if actions == [] then Initial(role)
    else Next(RunFrom(role, actions[..|actions| - 1]), actions[|actions| - 1])
  }
}
