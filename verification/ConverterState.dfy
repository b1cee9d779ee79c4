/**
 The document converter's supervisor: the state its lock protects and the blocks of code that
 run under that lock (tools/ai-document-converter/server.py).

 A `Job` also carries the position of the `run` call that created it, so that one value says
 all there is to know about one conversion.
 */
module ConverterState {
  type Id = string
  type JobRef = nat
  type Tid = nat

  datatype Role = Docling | Office

  /** The child's process group: never started, possibly running, or confirmed/observed gone. */
  datatype Group = NoGroup | Alive | Gone

  /** Where `run` stands after it acquired the permit. */
  datatype RunPc =
    | Registering
    | OfficeGate
    | OfficeWait
    | OfficeMark
    | OfficeCancel
    | OfficeCancelMark
    | Gate
    | Spawning
    | Polling
    | Killing
    | Finishing(good: bool)
    | FinishLock(good: bool, reaped: bool)
    | Ended(ok: bool)

  datatype Job = Job(id: Id, request: nat, usesOffice: bool, pc: RunPc,
                     cancelled: bool, done: bool, group: Group, runFinished: bool, groupReaped: bool,
                     ownsSlot: bool, officeStarted: bool, officeReaped: bool, recovering: bool,
                     registered: bool)

  /** The value of a dictionary entry; `serial` numbers the insertions of keys. */
  datatype Stamp = Stamp(at: int, serial: nat)

  /** A Python dictionary of times: its keys in insertion order, and their values. */
  datatype Times = Times(order: seq<Id>, at: map<Id, Stamp>)

  datatype Supervisor = Supervisor(role: Role, free: nat, jobs: map<Id, JobRef>, table: map<JobRef, Job>,
                                   tombstones: Times, stopped: Times, serial: nat)

  const RETENTION := 120
  const CAPACITY := 512

  function NewJob(id: Id, request: nat, usesOffice: bool): Job {
    Job(id, request, usesOffice, Registering, false, false, NoGroup, false, false, true, false, false, false, false)
  }

  // ---- ordered dictionaries of times ---------------------------------------------------------

  const NO_TIMES := Times([], map[])

  predicate Distinct(order: seq<Id>) {
    forall i, j :: 0 <= i < j < |order| ==> order[i] != order[j]
  }

  ghost predicate TimesOk(d: Times) {
    Distinct(d.order) && forall id :: id in d.order <==> id in d.at
  }

  predicate Recent(d: Times, id: Id, now: int) {
    id in d.at && now - d.at[id].at < RETENTION
  }

  function KeepRecent(order: seq<Id>, d: Times, now: int): (kept: seq<Id>)
    ensures |kept| <= |order|
    ensures forall id :: id in kept <==> id in order && Recent(d, id, now)
    ensures Distinct(order) ==> Distinct(kept)
  {
    if order == [] then []
    else if Recent(d, order[0], now) then [order[0]] + KeepRecent(order[1..], d, now)
    else KeepRecent(order[1..], d, now)
  }

  function Prune(d: Times, now: int): Times {
    Times(KeepRecent(d.order, d, now), map id | id in d.at && Recent(d, id, now) :: d.at[id])
  }

  function DropFirst(d: Times): Times
    requires d.order != []
  {
    Times(d.order[1..], d.at - {d.order[0]})
  }

  /** Assignment to a key: in place when present, at the end otherwise. */
  function Put(d: Times, id: Id, now: int, serial: nat): (r: Times)
    ensures id in r.at
  {
    if id in d.at then d.(at := d.at[id := d.at[id].(at := now)])
    else Times(d.order + [id], d.at[id := Stamp(now, serial)])
  }

  lemma {:induction false} PruneKeeps(d: Times, now: int)
    requires TimesOk(d)
    ensures TimesOk(Prune(d, now)) && |Prune(d, now).order| <= |d.order|
  {
  }

  /** Evicting the oldest key first, when full, keeps the dictionary within its bound. */
  function PutEvicting(d: Times, id: Id, now: int, serial: nat, full: bool): Times {
    Put(if full && d.order != [] then DropFirst(d) else d, id, now, serial)
  }

  lemma {:induction false} DropKeeps(d: Times)
    requires TimesOk(d) && d.order != []
    ensures TimesOk(DropFirst(d)) && |DropFirst(d).order| == |d.order| - 1
  {
    assert forall x :: x in d.order[1..] <==> x in d.order && x != d.order[0];
  }

  lemma {:induction false} PutInOrder(d: Times, id: Id, now: int, serial: nat)
    requires TimesOk(d)
    ensures TimesOk(Put(d, id, now, serial))
    ensures |Put(d, id, now, serial).order| == |d.order| + if id in d.at then 0 else 1
  {
  }

  lemma {:induction false} PutKeeps(d: Times, id: Id, now: int, serial: nat, full: bool)
    requires TimesOk(d) && |d.order| <= CAPACITY && (full || id in d.at || |d.order| < CAPACITY)
    ensures TimesOk(PutEvicting(d, id, now, serial, full))
    ensures |PutEvicting(d, id, now, serial, full).order| <= CAPACITY
    ensures forall x :: x in PutEvicting(d, id, now, serial, full).at ==>
              || PutEvicting(d, id, now, serial, full).at[x].serial == serial
              || (x in d.at && PutEvicting(d, id, now, serial, full).at[x].serial == d.at[x].serial)
  {
    if full && d.order != [] {
      DropKeeps(d);
      PutInOrder(DropFirst(d), id, now, serial);
    } else {
      PutInOrder(d, id, now, serial);
    }
  }

  // ---- blocks run under the lock -------------------------------------------------------------

  function StoppedWith(stopped: Times, id: Id, now: int, serial: nat): Times {
    var pruned := Prune(stopped, now);
    PutEvicting(pruned, id, now, serial, |pruned.order| >= CAPACITY && id !in pruned.at)
  }

  /** _remember_stopped_locked */
  function RememberStopped(s: Supervisor, id: Id, now: int): Supervisor {
    s.(stopped := StoppedWith(s.stopped, id, now, s.serial), serial := s.serial + 1)
  }

  /** The tombstone half of `cancel`, which evicts before it looks whether the key is there. */
  function Bury(s: Supervisor, id: Id, now: int): Supervisor {
    var pruned := Prune(s.tombstones, now);
    s.(tombstones := PutEvicting(pruned, id, now, s.serial, |pruned.order| >= CAPACITY), serial := s.serial + 1)
  }

  function SetJob(s: Supervisor, j: JobRef, job: Job): Supervisor {
    s.(table := s.table[j := job])
  }

  predicate Finalizable(job: Job) {
    job.runFinished && job.groupReaped && job.ownsSlot && (!job.officeStarted || job.officeReaped)
  }

  /** The job as it is stored: released when nothing is left that its permit waits for. */
  function Settled(job: Job): Job {
    job.(ownsSlot := job.ownsSlot && !Finalizable(job), done := job.done || Finalizable(job))
  }

  /**
   Stores a job and, when nothing is left that its permit waits for, gives the permit back and
   takes the job out of `jobs` if the entry is its own.
   */
  function Settle(s: Supervisor, j: JobRef, job: Job, now: int): Supervisor {
    var release := Finalizable(job);
    s.(free := if release then s.free + 1 else s.free,
       jobs := if release && job.id in s.jobs && s.jobs[job.id] == j then s.jobs - {job.id} else s.jobs,
       table := s.table[j := Settled(job)],
       stopped := if release && job.registered then StoppedWith(s.stopped, job.id, now, s.serial) else s.stopped,
       serial := s.serial + 1)
  }

  /** _finalize_locked */
  function Finalize(s: Supervisor, j: JobRef, now: int): Supervisor
    requires j in s.table
  {
    Settle(s, j, s.table[j], now)
  }

  predicate Recoverable(job: Job) { job.runFinished && job.ownsSlot && !job.recovering }

  /** Registration in `run` refuses an id that is in use or has a tombstone. */
  predicate Refuses(s: Supervisor, id: Id) { id in s.jobs || id in s.tombstones.at }

  /**
   `terminate`: it returns at once without a process and otherwise only when the whole group is
   gone; a failure proves nothing.
   */
  predicate Terminates(job: Job, ok: bool) { ok || job.group.NoGroup? }

  function Terminate(job: Job, ok: bool): Job {
    job.(group := if Terminates(job, ok) && job.group.Alive? then Gone else job.group)
  }

  /** What `cancel` makes of a known job: marked, and reaped if its group was confirmed gone. */
  function CancelledJob(job: Job, ok: bool): Job {
    job.(cancelled := true, group := Terminate(job, ok).group, groupReaped := job.groupReaped || Terminates(job, ok))
  }

  /** The locked block of `cancel` for a known job. */
  function CancelJob(s: Supervisor, j: JobRef, ok: bool): Supervisor
    requires j in s.table
  {
    SetJob(s, j, CancelledJob(s.table[j], ok))
  }

  /** Whether `cancel` has to reach the Office service. */
  predicate NeedsOffice(s: Supervisor, id: Id, now: int) {
    s.role.Docling? &&
    if id in s.jobs && s.jobs[id] in s.table then
      s.table[s.jobs[id]].officeStarted && !s.table[s.jobs[id]].officeReaped
    else !Recent(s.stopped, id, now)
  }
}
