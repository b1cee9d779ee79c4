/**
 Two supervisors: the docling service and the Office service it calls. A prepare request may
 arrive at any later time, or never; a DELETE is a message that makes a cancel of its own at the
 Office service, or is lost; and any reply may be lost.
 */
module ConverterLink {
  import opened Wrappers
  import opened ConverterState
  import opened ConverterSystem
  import opened ConverterSafety
  import opened ConverterTheorems

  /** A docling thread inside `_cancel_office`: a failed run, a recovery, or a cancel. */
  datatype Caller = RunCall(job: JobRef) | RecoverCall(tid: Tid) | CancelCall(tid: Tid)

  /** What a DELETE was sent for: a known docling job, or a docling cancel that found none. */
  datatype Errand = AboutJob(job: JobRef) | AboutId(tid: Tid)

  /**
   `inflight` holds the docling jobs whose prepare request has been sent and not yet delivered,
   `calls` the Office cancel that each open DELETE call waits for, and `errands` what every Office
   cancel that docling ever asked for was sent for.
   */
  datatype Link = Link(d: System, o: System, inflight: set<JobRef>, calls: map<Caller, Tid>,
                       errands: map<Tid, Errand>)

  datatype LinkAction =
    | DoclingStep(a: Action)
    | OfficeStep(a: Action)
    | Deliver(j: JobRef, tid: Tid)
    | Lose(j: JobRef)
    | SendDelete(c: Caller, tid: Tid)

  // ---- DELETE calls --------------------------------------------------------------------------

  predicate AtCall(d: System, c: Caller) {
    match c
    case RunCall(j) => j in d.sup.table && d.sup.table[j].pc.OfficeCancel?
    case RecoverCall(t) =>
      t in d.seekers && d.seekers[t].pc.RecoverOfficeCall? && d.seekers[t].candidate in d.sup.table
    case CancelCall(t) => t in d.cancels && d.cancels[t].pc.OfficeCall?
  }

  function ErrandOf(d: System, c: Caller): Errand
    requires AtCall(d, c)
  {
    match c
    case RunCall(j) => AboutJob(j)
    case RecoverCall(t) => AboutJob(d.seekers[t].candidate)
    case CancelCall(t) => if d.cancels[t].job.Some? then AboutJob(d.cancels[t].job.value) else AboutId(t)
  }

  /** The id in the path of the DELETE. */
  function CallId(d: System, c: Caller): Id
    requires AtCall(d, c)
  {
    match c
    case RunCall(j) => d.sup.table[j].id
    case RecoverCall(t) => d.sup.table[d.seekers[t].candidate].id
    case CancelCall(t) => d.cancels[t].id
  }

  function OpenCalls(d: System, calls: map<Caller, Tid>): map<Caller, Tid> {
    map c | c in calls && AtCall(d, c) :: calls[c]
  }

  predicate Succeeded(o: System, t: Tid) { t in o.cancels && o.cancels[t].pc == Finished(true) }

  predicate CallDone(l: Link, c: Caller) { c in l.calls && Succeeded(l.o, l.calls[c]) }

  /** The Office run for this request has returned a result. */
  predicate Answered(o: System, j: JobRef) {
    exists k :: k in o.sup.table && o.sup.table[k].request == j && o.sup.table[k].pc == Ended(true)
  }

  /** A successful reply to docling needs the event at the Office service that it reports. */
  predicate ReplyPossible(l: Link, a: Action) {
    match a
    case Work(j, luck) =>
      && (luck.Fine? && j in l.d.sup.table && l.d.sup.table[j].pc.OfficeWait? ==> Answered(l.o, j))
      && (luck.Fine? && AtCall(l.d, RunCall(j)) ==> CallDone(l, RunCall(j)))
    case Seek(tid, luck, _, _) => luck.Fine? && AtCall(l.d, RecoverCall(tid)) ==> CallDone(l, RecoverCall(tid))
    case Stop(tid, luck) => luck.Fine? && AtCall(l.d, CancelCall(tid)) ==> CallDone(l, CancelCall(tid))
    case _ => true
  }

  predicate Sends(d: System, a: Action) {
    a.Work? && a.j in d.sup.table && d.sup.table[a.j].pc.OfficeGate? && !d.sup.table[a.j].cancelled
  }

  /** The prepare request reaches the Office service. */
  predicate Delivers(l: Link, la: LinkAction) {
    la.Deliver? && la.j in l.inflight && la.j in l.d.sup.table && la.tid !in l.o.seekers
  }

  /** The DELETE of an open call reaches the Office service; a call sends one. */
  predicate Asks(l: Link, la: LinkAction) {
    la.SendDelete? && AtCall(l.d, la.c) && la.c !in l.calls && la.tid !in l.o.cancels
  }

  function LinkNext(l: Link, la: LinkAction): Link {
    match la
    case DoclingStep(a) =>
      if !ReplyPossible(l, a) then l
      else l.(d := Next(l.d, a), calls := OpenCalls(Next(l.d, a), l.calls),
              inflight := if Sends(l.d, a) then l.inflight + {a.j} else l.inflight)
    case OfficeStep(a) =>
      // The Office service only converts what docling sends it.
      if a.ArriveRun? then l else l.(o := Next(l.o, a))
    case Deliver(j, tid) =>
      if Delivers(l, la) then
        l.(o := Next(l.o, ArriveRun(tid, l.d.sup.table[j].id, j, false)), inflight := l.inflight - {j})
      else l
    case Lose(j) => l.(inflight := l.inflight - {j})
    case SendDelete(c, tid) =>
      if Asks(l, la) then
        l.(o := Next(l.o, ArriveCancel(tid, CallId(l.d, c))), calls := l.calls[c := tid],
           errands := l.errands[tid := ErrandOf(l.d, c)])
      else l
  }

  const LINK_INITIAL := Link(Initial(Docling), Initial(Role.Office), {}, map[], map[])

  function LinkRun(actions: seq<LinkAction>): Link {
    if actions == [] then LINK_INITIAL else LinkNext(LinkRun(actions[..|actions| - 1]), actions[|actions| - 1])
  }

  // ---- the invariant -------------------------------------------------------------------------

  /** An Office cancel that was sent for this errand has succeeded. */
  predicate Done(l: Link, e: Errand) {
    exists t :: t in l.errands && l.errands[t] == e && Succeeded(l.o, t)
  }

  predicate Evidence(l: Link, j: JobRef) { Answered(l.o, j) || Done(l, AboutJob(j)) }

  /** The job counts its Office call as over, or is about to. */
  predicate Relies(job: Job) { job.officeReaped || job.pc.OfficeMark? || job.pc.OfficeCancelMark? }

  ghost predicate JobsBacked(s: Supervisor, l: Link) {
    forall j :: j in s.table && Relies(s.table[j]) ==> Evidence(l, j)
  }

  predicate SeekerBacked(k: Seeker, l: Link) {
    k.pc.RecoverOfficeMark? ==> Evidence(l, k.candidate)
  }

  predicate CancelBacked(t: Tid, c: Canceller, l: Link) {
    && (c.pc.CancelMark? && c.job.Some? ==> Evidence(l, c.job.value))
    && (c.asks && c.job.None? && (c.pc.Remembering? || c.pc == Finished(true)) ==> Done(l, AboutId(t)))
  }

  /** What docling `d` relies on has happened in `l`. */
  ghost predicate EvidenceOk(d: System, l: Link) {
    && JobsBacked(d.sup, l)
    && (forall t :: t in d.seekers ==> SeekerBacked(d.seekers[t], l))
    && (forall t :: t in d.cancels ==> CancelBacked(t, d.cancels[t], l))
  }

  /** Request `j` belongs to a docling job of this id that has started its Office call. */
  predicate Sent(d: System, j: JobRef, id: Id) {
    j in d.sup.table && d.sup.table[j].officeStarted && d.sup.table[j].id == id
  }

  /** The errand is one of this id, and a job it is about had sent its request before. */
  predicate ErrandOk(d: System, e: Errand, id: Id) {
    match e
    case AboutJob(j) => Sent(d, j, id)
    case AboutId(t) => t in d.cancels && d.cancels[t].id == id
  }

  ghost predicate ErrandsOk(d: System, o: System, errands: map<Tid, Errand>) {
    forall t :: t in errands ==> t in o.cancels && ErrandOk(d, errands[t], o.cancels[t].id)
  }

  ghost predicate CallsOk(d: System, calls: map<Caller, Tid>, errands: map<Tid, Errand>) {
    forall c :: c in calls ==> AtCall(d, c) && calls[c] in errands && errands[calls[c]] == ErrandOf(d, c)
  }

  /** What the Office side holds of each request. */
  ghost predicate OfficeOrigin(d: System, o: System) {
    && (forall t :: t in o.seekers ==> Sent(d, o.seekers[t].request, o.seekers[t].id) && !o.seekers[t].usesOffice)
    && (forall k :: k in o.sup.table ==>
          Sent(d, o.sup.table[k].request, o.sup.table[k].id) && !o.sup.table[k].usesOffice)
  }

  ghost predicate OriginOk(d: System, o: System, inflight: set<JobRef>) {
    && (forall j :: j in inflight ==> j in d.sup.table && Sent(d, j, d.sup.table[j].id))
    && OfficeOrigin(d, o)
  }

  /** A request is in one place only: on its way, waiting for a permit, or running. */
  ghost predicate OnePlace(o: System, inflight: set<JobRef>) {
    && (forall t :: t in o.seekers ==> o.seekers[t].request !in inflight)
    && (forall k :: k in o.sup.table ==> o.sup.table[k].request !in inflight)
    && (forall t, u :: t in o.seekers && u in o.seekers && o.seekers[t].request == o.seekers[u].request ==> t == u)
    && (forall k, m :: k in o.sup.table && m in o.sup.table && o.sup.table[k].request == o.sup.table[m].request ==>
          k == m)
    && (forall t, k :: t in o.seekers && k in o.sup.table ==> o.seekers[t].request != o.sup.table[k].request)
  }

  ghost predicate LinkOk(l: Link) {
    && SystemOk(l.d) && SystemOk(l.o) && EvidenceOk(l.d, l)
    && ErrandsOk(l.d, l.o, l.errands) && CallsOk(l.d, l.calls, l.errands)
    && OriginOk(l.d, l.o, l.inflight) && OnePlace(l.o, l.inflight)
  }

  // ---- evidence ------------------------------------------------------------------------------

  lemma {:induction false} CancelsStay(o: System, a: Action, t: Tid)
    requires t in o.cancels
    ensures t in Next(o, a).cancels && Next(o, a).cancels[t].id == o.cancels[t].id
    ensures o.cancels[t].pc.Finished? ==> Next(o, a).cancels[t] == o.cancels[t]
  {
  }

  /** A step of the Office service, or a new DELETE, takes no evidence away. */
  ghost predicate EvidenceStays(l: Link, l': Link) {
    (forall j :: Evidence(l, j) ==> Evidence(l', j)) && (forall e :: Done(l, e) ==> Done(l', e))
  }

  lemma {:induction false} AnswerStays(o: System, a: Action, j: JobRef)
    requires SystemOk(o) && Answered(o, j)
    ensures Answered(Next(o, a), j)
  {
    NextKeeps(o, a);
    var k :| k in o.sup.table && o.sup.table[k].request == j && o.sup.table[k].pc == Ended(true);
    assert JobOk(o.sup.table[k]) && JobLe(o.sup.table[k], Next(o, a).sup.table[k]);
  }

  lemma {:induction false} DoneStays(l: Link, l': Link, a: Action, e: Errand)
    requires Done(l, e) && l'.o == Next(l.o, a)
    requires forall t :: t in l.errands ==> t in l'.errands && l'.errands[t] == l.errands[t]
    ensures Done(l', e)
  {
    var t :| t in l.errands && l.errands[t] == e && Succeeded(l.o, t);
    CancelsStay(l.o, a, t);
    assert t in l'.errands && Succeeded(l'.o, t);
  }

  lemma {:induction false} OfficeEvidence(l: Link, l': Link, a: Action)
    requires SystemOk(l.o) && EvidenceOk(l.d, l) && l'.o == Next(l.o, a)
    requires forall t :: t in l.errands ==> t in l'.errands && l'.errands[t] == l.errands[t]
    ensures EvidenceOk(l.d, l')
  {
    forall e | Done(l, e) ensures Done(l', e) { DoneStays(l, l', a, e); }
    forall j | Answered(l.o, j) ensures Answered(l'.o, j) { AnswerStays(l.o, a, j); }
    assert EvidenceStays(l, l');
    MoreEvidence(l.d, l, l');
  }

  lemma {:induction false} MoreEvidence(d: System, l: Link, l': Link)
    requires EvidenceOk(d, l) && EvidenceStays(l, l')
    ensures EvidenceOk(d, l')
  {
    forall t | t in d.seekers ensures SeekerBacked(d.seekers[t], l') {
      assert SeekerBacked(d.seekers[t], l);
    }
    forall t | t in d.cancels ensures CancelBacked(t, d.cancels[t], l') {
      assert CancelBacked(t, d.cancels[t], l);
    }
  }

  /** A call that got its reply has its errand done. */
  lemma {:induction false} ReplyIsEvidence(l: Link, c: Caller)
    requires CallsOk(l.d, l.calls, l.errands) && AtCall(l.d, c) && CallDone(l, c)
    ensures Done(l, ErrandOf(l.d, c))
  {
    assert l.calls[c] in l.errands && Succeeded(l.o, l.calls[c]);
  }

  lemma {:induction false} RecoverBacked(l: Link, tid: Tid, luck: Luck)
    requires tid in l.d.seekers && l.d.seekers[tid].candidate in l.d.sup.table && Recovering(l.d.seekers[tid].pc)
    requires JobsBacked(l.d.sup, l) && SeekerBacked(l.d.seekers[tid], l)
    requires luck.Fine? && l.d.seekers[tid].pc.RecoverOfficeCall? ==> Evidence(l, l.d.seekers[tid].candidate)
    ensures JobsBacked(RecoverStep(l.d, tid, luck).sup, l)
    ensures SeekerBacked(RecoverStep(l.d, tid, luck).seekers[tid], l)
  {
  }

  /** Everything but one seeker's and one cancel's own step leaves what the others rely on alone. */
  lemma {:induction false} BackingKept(d: System, d': System, l: Link)
    requires EvidenceOk(d, l) && JobsBacked(d'.sup, l)
    requires forall t :: t in d'.seekers && (t !in d.seekers || d'.seekers[t] != d.seekers[t]) ==>
               SeekerBacked(d'.seekers[t], l)
    requires forall t :: t in d'.cancels && (t !in d.cancels || d'.cancels[t] != d.cancels[t]) ==>
               CancelBacked(t, d'.cancels[t], l)
    ensures EvidenceOk(d', l)
  {
  }

  /** The two replies after which a run first relies on its Office call being over. */
  predicate AwaitsOffice(pc: RunPc) { pc.OfficeWait? || pc.OfficeCancel? }

  lemma {:induction false} MarksNext(job: Job, refused: bool, luck: Luck)
    ensures WorkPc(job, refused, luck).OfficeMark? ==> luck.Fine? && job.pc.OfficeWait?
    ensures WorkPc(job, refused, luck).OfficeCancelMark? ==> luck.Fine? && job.pc.OfficeCancel?
  {
    if job.pc.Registering? {
    } else if InOffice(job.pc) {
    } else {
    }
  }

  lemma {:induction false} ReliesNewly(job: Job, refused: bool, luck: Luck)
    requires Relies(WorkJob(job, refused, luck))
    ensures Relies(job) || (luck.Fine? && AwaitsOffice(job.pc))
  {
    MarksNext(job, refused, luck);
    var next := WorkJob(job, refused, luck);
    assert next.pc == WorkPc(job, refused, luck);
    assert next.officeReaped == (job.officeReaped || job.pc.OfficeMark? || job.pc.OfficeCancelMark?);
  }

  /** The job after its own step, which changes no other job. */
  lemma {:induction false} OwnWork(s: Supervisor, j: JobRef, luck: Luck, now: int)
    requires j in s.table
    ensures var t := WorkStep(s, j, luck, now).table;
            && t.Keys == s.table.Keys && (forall k :: k in s.table && k != j ==> t[k] == s.table[k])
            && (Relies(t[j]) ==> Relies(s.table[j]) || (luck.Fine? && AwaitsOffice(s.table[j].pc)))
  {
    if s.table[j].pc.FinishLock? {
      assert WorkStep(s, j, luck, now).table == s.table[j := Settled(EndedJob(s.table[j]))];
    } else {
      var refused := Refuses(s, s.table[j].id);
      assert WorkStep(s, j, luck, now).table == s.table[j := WorkJob(s.table[j], refused, luck)];
      if Relies(WorkJob(s.table[j], refused, luck)) { ReliesNewly(s.table[j], refused, luck); }
    }
  }

  lemma {:induction false} WorkBacked(l: Link, j: JobRef, luck: Luck)
    requires j in l.d.sup.table && JobsBacked(l.d.sup, l)
    requires luck.Fine? && AwaitsOffice(l.d.sup.table[j].pc) ==> Evidence(l, j)
    ensures JobsBacked(WorkStep(l.d.sup, j, luck, l.d.now), l)
  {
    OwnWork(l.d.sup, j, luck, l.d.now);
  }

  lemma {:induction false} WorkEvidence(l: Link, j: JobRef, luck: Luck)
    requires EvidenceOk(l.d, l) && CallsOk(l.d, l.calls, l.errands)
    requires j in l.d.sup.table && ReplyPossible(l, Work(j, luck))
    ensures EvidenceOk(l.d.(sup := WorkStep(l.d.sup, j, luck, l.d.now)), l)
  {
    if luck.Fine? && AtCall(l.d, RunCall(j)) { ReplyIsEvidence(l, RunCall(j)); }
    WorkBacked(l, j, luck);
    BackingKept(l.d, l.d.(sup := WorkStep(l.d.sup, j, luck, l.d.now)), l);
  }

  /** Before and after recovery, a seeker leaves every job but a new or a picked one alone. */
  lemma {:induction false} PlainSeekJobs(l: Link, tid: Tid, luck: Luck, pick: Id, newRef: JobRef)
    requires tid in l.d.seekers && !Recovering(l.d.seekers[tid].pc) && JobsBacked(l.d.sup, l)
    ensures JobsBacked(SeekStep(l.d, tid, luck, pick, newRef).sup, l)
  {
  }

  lemma {:induction false} PlainSeekThreads(l: Link, tid: Tid, luck: Luck, pick: Id, newRef: JobRef)
    requires tid in l.d.seekers && !Recovering(l.d.seekers[tid].pc)
    ensures var d' := SeekStep(l.d, tid, luck, pick, newRef);
            && (tid in d'.seekers ==> SeekerBacked(d'.seekers[tid], l)) && d'.cancels == l.d.cancels
            && (forall t :: t in d'.seekers && t != tid ==> t in l.d.seekers && d'.seekers[t] == l.d.seekers[t])
  {
  }

  lemma {:induction false} RecoverEvidence(l: Link, tid: Tid, luck: Luck)
    requires tid in l.d.seekers && SeekerOk(l.d.sup, l.d.seekers[tid]) && Recovering(l.d.seekers[tid].pc)
    requires EvidenceOk(l.d, l)
    requires luck.Fine? && l.d.seekers[tid].pc.RecoverOfficeCall? ==> Evidence(l, l.d.seekers[tid].candidate)
    ensures EvidenceOk(RecoverStep(l.d, tid, luck), l)
  {
    RecoverBacked(l, tid, luck);
    BackingKept(l.d, RecoverStep(l.d, tid, luck), l);
  }

  lemma {:induction false} PlainSeekEvidence(l: Link, tid: Tid, luck: Luck, pick: Id, newRef: JobRef)
    requires tid in l.d.seekers && !Recovering(l.d.seekers[tid].pc) && EvidenceOk(l.d, l)
    ensures EvidenceOk(SeekStep(l.d, tid, luck, pick, newRef), l)
  {
    PlainSeekJobs(l, tid, luck, pick, newRef);
    PlainSeekThreads(l, tid, luck, pick, newRef);
    BackingKept(l.d, SeekStep(l.d, tid, luck, pick, newRef), l);
  }

  lemma {:induction false} SeekEvidence(l: Link, tid: Tid, luck: Luck, pick: Id, newRef: JobRef)
    requires EvidenceOk(l.d, l) && CallsOk(l.d, l.calls, l.errands)
    requires tid in l.d.seekers && SeekerOk(l.d.sup, l.d.seekers[tid])
    requires ReplyPossible(l, Seek(tid, luck, pick, newRef))
    ensures EvidenceOk(SeekStep(l.d, tid, luck, pick, newRef), l)
  {
    if Recovering(l.d.seekers[tid].pc) {
      if luck.Fine? && AtCall(l.d, RecoverCall(tid)) { ReplyIsEvidence(l, RecoverCall(tid)); }
      RecoverEvidence(l, tid, luck);
    } else {
      PlainSeekEvidence(l, tid, luck, pick, newRef);
    }
  }

  /** What a step of one cancel leaves alone, and what it may newly rely on. */
  ghost predicate StopLeaves(l: Link, tid: Tid, d': System) {
    && tid in d'.cancels && d'.cancels == l.d.cancels[tid := d'.cancels[tid]] && d'.seekers == l.d.seekers
    && JobsBacked(d'.sup, l) && CancelBacked(tid, d'.cancels[tid], l)
  }

  lemma {:induction false} LockLeaves(l: Link, tid: Tid, luck: Luck)
    requires tid in l.d.cancels && l.d.cancels[tid].pc.Locking? && JobsBacked(l.d.sup, l)
    ensures StopLeaves(l, tid, StopStep(l.d, tid, luck))
  {
  }

  lemma {:induction false} StopJobLeaves(l: Link, tid: Tid, j: JobRef, luck: Luck)
    requires tid in l.d.cancels && CancelOk(l.d.sup, l.d.cancels[tid]) && l.d.cancels[tid].job == Some(j)
    requires JobsBacked(l.d.sup, l) && CancelBacked(tid, l.d.cancels[tid], l)
    ensures StopLeaves(l, tid, StopJobStep(l.d, tid, j, luck))
  {
  }

  lemma {:induction false} StopBacked(l: Link, tid: Tid, luck: Luck)
    requires tid in l.d.cancels && CancelOk(l.d.sup, l.d.cancels[tid])
    requires JobsBacked(l.d.sup, l) && CancelBacked(tid, l.d.cancels[tid], l)
    requires luck.Fine? && AtCall(l.d, CancelCall(tid)) ==> Done(l, ErrandOf(l.d, CancelCall(tid)))
    ensures StopLeaves(l, tid, StopStep(l.d, tid, luck))
  {
    match l.d.cancels[tid].pc
    case Locking => LockLeaves(l, tid, luck);
    case OfficeCall =>
    case Remembering =>
    case Finished(_) =>
    case _ => StopJobLeaves(l, tid, l.d.cancels[tid].job.value, luck);
  }

  lemma {:induction false} StopEvidence(l: Link, tid: Tid, luck: Luck)
    requires EvidenceOk(l.d, l) && CallsOk(l.d, l.calls, l.errands)
    requires tid in l.d.cancels && CancelOk(l.d.sup, l.d.cancels[tid]) && ReplyPossible(l, Stop(tid, luck))
    ensures EvidenceOk(StopStep(l.d, tid, luck), l)
  {
    if luck.Fine? && AtCall(l.d, CancelCall(tid)) { ReplyIsEvidence(l, CancelCall(tid)); }
    StopBacked(l, tid, luck);
    BackingKept(l.d, StopStep(l.d, tid, luck), l);
  }

  lemma {:induction false} DoclingEvidence(l: Link, a: Action)
    requires SystemOk(l.d) && EvidenceOk(l.d, l) && CallsOk(l.d, l.calls, l.errands) && ReplyPossible(l, a)
    ensures EvidenceOk(Next(l.d, a), l)
  {
    match a
    case Seek(tid, luck, pick, newRef) => if tid in l.d.seekers { SeekEvidence(l, tid, luck, pick, newRef); }
    case Work(j, luck) => if j in l.d.sup.table { WorkEvidence(l, j, luck); }
    case Stop(tid, luck) => if tid in l.d.cancels { StopEvidence(l, tid, luck); }
    case _ => BackingKept(l.d, Next(l.d, a), l);
  }

  // ---- requests ------------------------------------------------------------------------------

  predicate SameSeeker(a: Seeker, b: Seeker) {
    b.request == a.request && b.id == a.id && b.usesOffice == a.usesOffice
  }

  predicate SameJob(a: Job, b: Job) { b.request == a.request && b.id == a.id && b.usesOffice == a.usesOffice }

  /** No request enters, leaves or moves. */
  ghost predicate SameRequests(s: System, s': System) {
    && s'.seekers.Keys == s.seekers.Keys && s'.sup.table.Keys == s.sup.table.Keys
    && (forall t :: t in s.seekers ==> SameSeeker(s.seekers[t], s'.seekers[t]))
    && (forall k :: k in s.sup.table ==> SameJob(s.sup.table[k], s'.sup.table[k]))
  }

  predicate Acquires(s: System, a: Action) {
    a.Seek? && a.tid in s.seekers && a.newRef !in s.sup.table && s.sup.free > 0
    && (s.seekers[a.tid].pc.TryFirst? || (s.seekers[a.tid].pc.TrySecond? && a.luck.Fine?))
  }

  lemma {:induction false} RecoverRequests(s: System, tid: Tid, luck: Luck)
    requires tid in s.seekers && s.seekers[tid].candidate in s.sup.table
    ensures SameRequests(s, RecoverStep(s, tid, luck))
  {
  }

  lemma {:induction false} SeekRequests(s: System, a: Action)
    requires a.Seek? && a.tid in s.seekers && !Acquires(s, a)
    ensures SameRequests(s, SeekStep(s, a.tid, a.luck, a.pick, a.newRef))
  {
    if Recovering(s.seekers[a.tid].pc) && s.seekers[a.tid].candidate in s.sup.table {
      RecoverRequests(s, a.tid, a.luck);
    }
  }

  lemma {:induction false} StopJobRequests(s: System, tid: Tid, j: JobRef, luck: Luck)
    requires tid in s.cancels && j in s.sup.table
    ensures SameRequests(s, StopJobStep(s, tid, j, luck))
  {
    match s.cancels[tid].pc
    case CancelMark =>
    case Finalizing =>
    case _ =>
  }

  lemma {:induction false} StopRequests(s: System, tid: Tid, luck: Luck)
    requires tid in s.cancels
    ensures SameRequests(s, StopStep(s, tid, luck))
  {
    match s.cancels[tid].pc
    case Locking =>
    case OfficeCall =>
    case Remembering =>
    case Finished(_) =>
    case _ =>
      if s.cancels[tid].job.Some? && s.cancels[tid].job.value in s.sup.table {
        StopJobRequests(s, tid, s.cancels[tid].job.value, luck);
      }
  }

  lemma {:induction false} WorkRequests(s: System, j: JobRef, luck: Luck)
    requires j in s.sup.table
    ensures SameRequests(s, s.(sup := WorkStep(s.sup, j, luck, s.now)))
  {
  }

  lemma {:induction false} StepRequests(s: System, a: Action)
    requires !a.ArriveRun?
    ensures if Acquires(s, a) then Next(s, a) == Acquire(s, a.tid, a.newRef) else SameRequests(s, Next(s, a))
  {
    match a
    case Seek(tid, _, _, _) => if tid in s.seekers && !Acquires(s, a) { SeekRequests(s, a); }
    case Work(j, luck) => if j in s.sup.table { WorkRequests(s, j, luck); }
    case Stop(tid, luck) => if tid in s.cancels { StopRequests(s, tid, luck); }
    case _ =>
  }

  lemma {:induction false} OfficeRequests(d: System, o: System, inflight: set<JobRef>, a: Action)
    requires !a.ArriveRun? && OnePlace(o, inflight) && OfficeOrigin(d, o)
    ensures OnePlace(Next(o, a), inflight) && OfficeOrigin(d, Next(o, a))
  {
    StepRequests(o, a);
    if Acquires(o, a) {
    } else {
    }
  }

  lemma {:induction false} SentStays(d: System, a: Action, j: JobRef, id: Id)
    requires SystemOk(d) && Sent(d, j, id)
    ensures Sent(Next(d, a), j, id)
  {
    StepAdvances(d, a, j);
  }

  // ---- errands -------------------------------------------------------------------------------

  lemma {:induction false} CallStays(d: System, a: Action, c: Caller)
    requires AtCall(d, c) && AtCall(Next(d, a), c)
    ensures ErrandOf(Next(d, a), c) == ErrandOf(d, c)
  {
  }

  lemma {:induction false} CallIsErrand(d: System, c: Caller)
    requires SystemOk(d) && AtCall(d, c)
    ensures ErrandOk(d, ErrandOf(d, c), CallId(d, c))
  {
    match c
    case RunCall(j) => assert JobOk(d.sup.table[j]);
    case RecoverCall(t) => assert SeekerOk(d.sup, d.seekers[t]);
    case CancelCall(t) => assert CancelOk(d.sup, d.cancels[t]);
  }

  lemma {:induction false} ErrandStays(d: System, a: Action, e: Errand, id: Id)
    requires SystemOk(d) && ErrandOk(d, e, id)
    ensures ErrandOk(Next(d, a), e, id)
  {
    match e
    case AboutJob(j) => SentStays(d, a, j, id);
    case AboutId(t) => CancelsStay(d, a, t);
  }

  lemma {:induction false} DoclingErrands(l: Link, a: Action)
    requires SystemOk(l.d) && ErrandsOk(l.d, l.o, l.errands) && CallsOk(l.d, l.calls, l.errands)
    ensures ErrandsOk(Next(l.d, a), l.o, l.errands)
    ensures CallsOk(Next(l.d, a), OpenCalls(Next(l.d, a), l.calls), l.errands)
  {
    forall t | t in l.errands ensures ErrandOk(Next(l.d, a), l.errands[t], l.o.cancels[t].id) {
      ErrandStays(l.d, a, l.errands[t], l.o.cancels[t].id);
    }
    forall c | c in l.calls && AtCall(Next(l.d, a), c)
      ensures l.calls[c] in l.errands && l.errands[l.calls[c]] == ErrandOf(Next(l.d, a), c)
    {
      CallStays(l.d, a, c);
    }
  }

  lemma {:induction false} OfficeErrands(l: Link, a: Action)
    requires ErrandsOk(l.d, l.o, l.errands)
    ensures ErrandsOk(l.d, Next(l.o, a), l.errands)
  {
    forall t | t in l.errands
      ensures t in Next(l.o, a).cancels && ErrandOk(l.d, l.errands[t], Next(l.o, a).cancels[t].id)
    {
      CancelsStay(l.o, a, t);
    }
  }

  // ---- every step, every run -----------------------------------------------------------------

  /** A request that is sent now has been sent by no earlier step. */
  lemma {:induction false} SendsFirst(d: System, a: Action)
    requires Sends(d, a) && JobOk(d.sup.table[a.j])
    ensures !d.sup.table[a.j].officeStarted
    ensures a.j in Next(d, a).sup.table && Next(d, a).sup.table[a.j].officeStarted
  {
  }

  lemma {:induction false} SentKept(d: System, d': System, o: System, inflight: set<JobRef>)
    requires OriginOk(d, o, inflight)
    requires forall j, id :: Sent(d, j, id) ==> Sent(d', j, id)
    ensures OriginOk(d', o, inflight)
  {
    forall j | j in inflight ensures j in d'.sup.table && Sent(d', j, d'.sup.table[j].id) {
      assert Sent(d, j, d.sup.table[j].id);
    }
  }

  lemma {:induction false} NewRequest(d: System, o: System, inflight: set<JobRef>, j: JobRef)
    requires OriginOk(d, o, inflight) && OnePlace(o, inflight)
    requires j in d.sup.table && !d.sup.table[j].officeStarted
    ensures OnePlace(o, inflight + {j})
  {
    assert forall id :: !Sent(d, j, id);
  }

  lemma {:induction false} DoclingOrigin(l: Link, a: Action)
    requires SystemOk(l.d) && OriginOk(l.d, l.o, l.inflight) && OnePlace(l.o, l.inflight)
    ensures var inflight := if Sends(l.d, a) then l.inflight + {a.j} else l.inflight;
            OriginOk(Next(l.d, a), l.o, inflight) && OnePlace(l.o, inflight)
  {
    forall j, id | Sent(l.d, j, id) ensures Sent(Next(l.d, a), j, id) { SentStays(l.d, a, j, id); }
    SentKept(l.d, Next(l.d, a), l.o, l.inflight);
    if Sends(l.d, a) {
      SendsFirst(l.d, a);
      NewRequest(l.d, l.o, l.inflight, a.j);
    }
  }

  lemma {:induction false} DeliverOrigin(d: System, o: System, inflight: set<JobRef>, j: JobRef, tid: Tid)
    requires OriginOk(d, o, inflight) && OnePlace(o, inflight)
    requires j in inflight && j in d.sup.table && tid !in o.seekers
    ensures var o' := Next(o, ArriveRun(tid, d.sup.table[j].id, j, false));
            OriginOk(d, o', inflight - {j}) && OnePlace(o', inflight - {j})
  {
    var o' := Next(o, ArriveRun(tid, d.sup.table[j].id, j, false));
    assert o'.sup == o.sup && o'.seekers.Keys == o.seekers.Keys + {tid};
  }

  lemma {:induction false} NewErrandOk(d: System, o: System, errands: map<Tid, Errand>, c: Caller, tid: Tid)
    requires SystemOk(d) && ErrandsOk(d, o, errands) && AtCall(d, c) && tid !in o.cancels
    ensures ErrandsOk(d, Next(o, ArriveCancel(tid, CallId(d, c))), errands[tid := ErrandOf(d, c)])
  {
    CallIsErrand(d, c);
    var o' := Next(o, ArriveCancel(tid, CallId(d, c)));
    assert o'.cancels == o.cancels[tid := Canceller(CallId(d, c), Locking, None, 0, false, {})];
  }

  lemma {:induction false} NewCallOk(d: System, l: Link, c: Caller, tid: Tid)
    requires CallsOk(d, l.calls, l.errands) && AtCall(d, c)
    requires tid !in l.errands
    ensures CallsOk(d, l.calls[c := tid], l.errands[tid := ErrandOf(d, c)])
  {
  }

  lemma {:induction false} DeleteErrands(d: System, o: System, l: Link, c: Caller, tid: Tid)
    requires SystemOk(d) && ErrandsOk(d, o, l.errands) && CallsOk(d, l.calls, l.errands)
    requires AtCall(d, c) && tid !in o.cancels
    ensures ErrandsOk(d, Next(o, ArriveCancel(tid, CallId(d, c))), l.errands[tid := ErrandOf(d, c)])
    ensures CallsOk(d, l.calls[c := tid], l.errands[tid := ErrandOf(d, c)])
  {
    NewErrandOk(d, o, l.errands, c, tid);
    NewCallOk(d, l, c, tid);
  }

  /** What a step means for the Office service: one of its own steps, or none. */
  function OfficeMove(l: Link, la: LinkAction): seq<Action> {
    match la
    case OfficeStep(a) => if a.ArriveRun? then [] else [a]
    case Deliver(j, tid) => if Delivers(l, la) then [ArriveRun(tid, l.d.sup.table[j].id, j, false)] else []
    case SendDelete(c, tid) => if Asks(l, la) then [ArriveCancel(tid, CallId(l.d, c))] else []
    case _ => []
  }

  lemma {:induction false} OfficeMoves(l: Link, la: LinkAction)
    ensures |OfficeMove(l, la)| <= 1
    ensures OfficeMove(l, la) == [] ==> LinkNext(l, la).o == l.o && LinkNext(l, la).errands == l.errands
    ensures OfficeMove(l, la) != [] ==>
              && !la.DoclingStep? && LinkNext(l, la).d == l.d && LinkNext(l, la).o == Next(l.o, OfficeMove(l, la)[0])
    ensures !la.DoclingStep? ==> LinkNext(l, la).d == l.d
  {
  }

  lemma {:induction false} MoveKeepsErrands(l: Link, la: LinkAction)
    requires forall t :: t in l.errands ==> t in l.o.cancels
    ensures forall t :: t in l.errands ==> t in LinkNext(l, la).errands && LinkNext(l, la).errands[t] == l.errands[t]
  {
  }

  lemma {:induction false} SystemsKept(l: Link, la: LinkAction)
    requires SystemOk(l.d) && SystemOk(l.o)
    ensures SystemOk(LinkNext(l, la).d) && SystemOk(LinkNext(l, la).o)
  {
    OfficeMoves(l, la);
    if OfficeMove(l, la) != [] { NextKeeps(l.o, OfficeMove(l, la)[0]); }
    if la.DoclingStep? { NextKeeps(l.d, la.a); }
  }

  lemma {:induction false} DoclingEvidenceKept(l: Link, a: Action)
    requires SystemOk(l.d) && EvidenceOk(l.d, l) && CallsOk(l.d, l.calls, l.errands)
    ensures EvidenceOk(LinkNext(l, DoclingStep(a)).d, LinkNext(l, DoclingStep(a)))
  {
    if ReplyPossible(l, a) {
      DoclingEvidence(l, a);
      MoreEvidence(Next(l.d, a), l, LinkNext(l, DoclingStep(a)));
    }
  }

  lemma {:induction false} EvidenceKept(l: Link, la: LinkAction)
    requires SystemOk(l.d) && SystemOk(l.o) && EvidenceOk(l.d, l) && CallsOk(l.d, l.calls, l.errands)
    requires forall t :: t in l.errands ==> t in l.o.cancels
    ensures EvidenceOk(LinkNext(l, la).d, LinkNext(l, la))
  {
    OfficeMoves(l, la);
    MoveKeepsErrands(l, la);
    if la.DoclingStep? {
      DoclingEvidenceKept(l, la.a);
    } else if OfficeMove(l, la) == [] {
      MoreEvidence(l.d, l, LinkNext(l, la));
    } else {
      OfficeEvidence(l, LinkNext(l, la), OfficeMove(l, la)[0]);
    }
  }

  lemma {:induction false} ErrandsKept(l: Link, la: LinkAction)
    requires SystemOk(l.d) && ErrandsOk(l.d, l.o, l.errands) && CallsOk(l.d, l.calls, l.errands)
    ensures var l' := LinkNext(l, la); ErrandsOk(l'.d, l'.o, l'.errands) && CallsOk(l'.d, l'.calls, l'.errands)
  {
    if la.DoclingStep? {
      DoclingErrands(l, la.a);
    } else if Asks(l, la) {
      DeleteErrands(l.d, l.o, l, la.c, la.tid);
    } else {
      OfficeMoves(l, la);
      if OfficeMove(l, la) != [] { OfficeErrands(l, OfficeMove(l, la)[0]); }
    }
  }

  lemma {:induction false} LoseKeeps(d: System, o: System, inflight: set<JobRef>, j: JobRef)
    requires OriginOk(d, o, inflight) && OnePlace(o, inflight)
    ensures OriginOk(d, o, inflight - {j}) && OnePlace(o, inflight - {j})
  {
  }

  lemma {:induction false} RequestsKept(l: Link, la: LinkAction)
    requires SystemOk(l.d) && OriginOk(l.d, l.o, l.inflight) && OnePlace(l.o, l.inflight)
    ensures var l' := LinkNext(l, la); OriginOk(l'.d, l'.o, l'.inflight) && OnePlace(l'.o, l'.inflight)
  {
    if la.DoclingStep? {
      DoclingOrigin(l, la.a);
    } else if la.Lose? {
      LoseKeeps(l.d, l.o, l.inflight, la.j);
    } else if Delivers(l, la) {
      DeliverOrigin(l.d, l.o, l.inflight, la.j, la.tid);
    } else {
      OfficeMoves(l, la);
      if OfficeMove(l, la) != [] { OfficeRequests(l.d, l.o, l.inflight, OfficeMove(l, la)[0]); }
    }
  }

  lemma {:induction false} LinkKeeps(l: Link, la: LinkAction)
    requires LinkOk(l)
    ensures LinkOk(LinkNext(l, la))
  {
    SystemsKept(l, la);
    EvidenceKept(l, la);
    ErrandsKept(l, la);
    RequestsKept(l, la);
  }

  lemma {:induction false} LinkRunIsOk(actions: seq<LinkAction>)
    ensures LinkOk(LinkRun(actions))
  {
    if actions != [] {
      LinkRunIsOk(actions[..|actions| - 1]);
      LinkKeeps(LinkRun(actions[..|actions| - 1]), actions[|actions| - 1]);
    }
  }

  // ---- each service on its own ---------------------------------------------------------------

  /** The part of a composed run that the Office service sees. */
  function OfficeTrace(actions: seq<LinkAction>): seq<Action> {
    if actions == [] then []
    else
      var front := actions[..|actions| - 1];
      OfficeTrace(front) + OfficeMove(LinkRun(front), actions[|actions| - 1])
  }

  lemma {:induction false} OneMove(role: Role, trace: seq<Action>, a: Action)
    ensures RunFrom(role, trace + [a]) == Next(RunFrom(role, trace), a)
  {
    assert (trace + [a])[..|trace|] == trace;
  }

  lemma {:induction false} ProjectOne(l: Link, la: LinkAction, trace: seq<Action>)
    requires RunFrom(Role.Office, trace) == l.o
    ensures RunFrom(Role.Office, trace + OfficeMove(l, la)) == LinkNext(l, la).o
  {
    OfficeMoves(l, la);
    var move := OfficeMove(l, la);
    if move == [] {
      assert trace + move == trace;
    } else {
      assert move == [move[0]];
      OneMove(Role.Office, trace, move[0]);
    }
  }

  /** So everything proved of one supervisor holds of the Office service in every composed run. */
  lemma {:induction false} OfficeProjects(actions: seq<LinkAction>)
    ensures RunFrom(Role.Office, OfficeTrace(actions)) == LinkRun(actions).o
  {
    if actions != [] {
      OfficeProjects(actions[..|actions| - 1]);
      ProjectOne(LinkRun(actions[..|actions| - 1]), actions[|actions| - 1], OfficeTrace(actions[..|actions| - 1]));
    }
  }

  lemma {:induction false} TraceSplit(actions: seq<LinkAction>, more: seq<LinkAction>)
    requires more != []
    ensures var front := actions + more[..|more| - 1];
            OfficeTrace(actions + more) == OfficeTrace(front) + OfficeMove(LinkRun(front), more[|more| - 1])
  {
    assert (actions + more)[..|actions + more| - 1] == actions + more[..|more| - 1];
  }

  lemma {:induction false} Appended<T>(a: seq<T>, b: seq<T>, c: seq<T>)
    ensures (a + b) + c == a + (b + c)
  {
  }

  lemma {:induction false} TraceExtends(actions: seq<LinkAction>, more: seq<LinkAction>) returns (tail: seq<Action>)
    ensures OfficeTrace(actions + more) == OfficeTrace(actions) + tail
  {
    if more == [] {
      assert actions + more == actions;
      tail := [];
    } else {
      var rest := TraceExtends(actions, more[..|more| - 1]);
      var move := OfficeMove(LinkRun(actions + more[..|more| - 1]), more[|more| - 1]);
      TraceSplit(actions, more);
      Appended(OfficeTrace(actions), rest, move);
      tail := rest + move;
    }
  }

  // ---- what the two services promise together ------------------------------------------------

  /** The only Office run of this request is over, and the request is nowhere else. */
  ghost predicate Returned(l: Link, j: JobRef) {
    && j !in l.inflight
    && (forall t :: t in l.o.seekers ==> l.o.seekers[t].request != j)
    && (forall k :: k in l.o.sup.table && l.o.sup.table[k].request == j ==> Over(l.o.sup.table[k]))
  }

  /** An Office cancel sent on this errand has succeeded, and left its id silent. */
  ghost predicate CancelledBy(l: Link, t: Tid, e: Errand, id: Id) {
    && t in l.errands && l.errands[t] == e && Succeeded(l.o, t)
    && l.o.cancels[t].id == id && Silenced(l.o, l.o.cancels[t])
  }

  /**
   Request `j` cannot run on: its Office run returned and is over, or a cancel that was sent for
   it after it had been sent has succeeded. Then every Office run of the id that was registered
   when that cancel took the lock is over for good, and any other is refused while its tombstone
   is kept.
   */
  ghost predicate Quiet(l: Link, j: JobRef, id: Id) {
    Returned(l, j) || exists t :: CancelledBy(l, t, AboutJob(j), id)
  }

  lemma {:induction false} DoneIsEnded(l: Link, e: Errand, id: Id) returns (t: Tid)
    requires SystemOk(l.o) && ErrandsOk(l.d, l.o, l.errands) && Done(l, e)
    requires forall i :: ErrandOk(l.d, e, i) ==> i == id
    ensures CancelledBy(l, t, e, id)
  {
    t :| t in l.errands && l.errands[t] == e && Succeeded(l.o, t);
    assert ErrandOk(l.d, l.errands[t], l.o.cancels[t].id);
    SuccessSilences(l.o, t);
  }

  lemma {:induction false} AnsweredIsReturned(l: Link, j: JobRef)
    requires SystemOk(l.o) && OnePlace(l.o, l.inflight) && Answered(l.o, j)
    ensures Returned(l, j)
  {
    var k :| k in l.o.sup.table && l.o.sup.table[k].request == j && l.o.sup.table[k].pc == Ended(true);
    assert JobOk(l.o.sup.table[k]);
  }

  lemma {:induction false} EvidenceIsQuiet(l: Link, j: JobRef)
    requires LinkOk(l) && j in l.d.sup.table && Evidence(l, j)
    ensures Quiet(l, j, l.d.sup.table[j].id)
  {
    if Answered(l.o, j) {
      AnsweredIsReturned(l, j);
    } else {
      var t := DoneIsEnded(l, AboutJob(j), l.d.sup.table[j].id);
    }
  }

  lemma {:induction false} ReleasedIsQuiet(l: Link, j: JobRef)
    requires LinkOk(l) && j in l.d.sup.table && l.d.sup.table[j].officeStarted && !l.d.sup.table[j].ownsSlot
    ensures Quiet(l, j, l.d.sup.table[j].id)
  {
    assert JobOk(l.d.sup.table[j]) && Relies(l.d.sup.table[j]);
    EvidenceIsQuiet(l, j);
  }

  /** Docling gives its permit back only when the Office side of the job is quiet. */
  lemma {:induction false} ReleaseMeansOfficeQuiet(actions: seq<LinkAction>, j: JobRef)
    requires var s := LinkRun(actions).d.sup; j in s.table && s.table[j].officeStarted && !s.table[j].ownsSlot
    ensures Quiet(LinkRun(actions), j, LinkRun(actions).d.sup.table[j].id)
  {
    LinkRunIsOk(actions);
    ReleasedIsQuiet(LinkRun(actions), j);
  }

  lemma {:induction false} OverForGood(actions: seq<LinkAction>, more: seq<LinkAction>, k: JobRef)
    requires k in LinkRun(actions).o.sup.table
    ensures k in LinkRun(actions + more).o.sup.table
    ensures JobLe(LinkRun(actions).o.sup.table[k], LinkRun(actions + more).o.sup.table[k])
    ensures Over(LinkRun(actions).o.sup.table[k]) ==> Over(LinkRun(actions + more).o.sup.table[k])
  {
    OfficeProjects(actions);
    OfficeProjects(actions + more);
    var tail := TraceExtends(actions, more);
    JobsOnlyAdvance(Role.Office, OfficeTrace(actions), tail, k);
    LinkRunIsOk(actions + more);
    assert JobOk(LinkRun(actions + more).o.sup.table[k]);
  }

  lemma {:induction false} LinkSplit(actions: seq<LinkAction>, more: seq<LinkAction>)
    requires more != []
    ensures LinkRun(actions + more) == LinkNext(LinkRun(actions + more[..|more| - 1]), more[|more| - 1])
  {
    assert (actions + more)[..|actions + more| - 1] == actions + more[..|more| - 1];
  }

  /** Every errand has its Office cancel. */
  ghost predicate Answerable(l: Link) { forall t :: t in l.errands ==> t in l.o.cancels }

  lemma {:induction false} RunAnswerable(actions: seq<LinkAction>)
    ensures Answerable(LinkRun(actions))
  {
    LinkRunIsOk(actions);
  }

  lemma {:induction false} ErrandStep(l: Link, la: LinkAction, t: Tid)
    requires Answerable(l)
    ensures t in l.errands ==> t in LinkNext(l, la).errands && LinkNext(l, la).errands[t] == l.errands[t]
    ensures t in LinkNext(l, la).errands && t !in l.errands ==> t !in l.o.cancels
    ensures t in l.o.cancels ==> t in LinkNext(l, la).o.cancels
  {
    match la
    case DoclingStep(a) =>
    case OfficeStep(a) => if t in l.o.cancels { CancelsStay(l.o, a, t); }
    case Deliver(_, _) =>
    case Lose(_) =>
    case SendDelete(_, _) =>
  }

  /** Office cancels are never forgotten. */
  lemma {:induction false} CancelsGrow(actions: seq<LinkAction>, more: seq<LinkAction>, t: Tid)
    requires t in LinkRun(actions).o.cancels
    ensures t in LinkRun(actions + more).o.cancels
  {
    if more == [] {
      assert actions + more == actions;
    } else {
      CancelsGrow(actions, more[..|more| - 1], t);
      LinkSplit(actions, more);
      RunAnswerable(actions + more[..|more| - 1]);
      ErrandStep(LinkRun(actions + more[..|more| - 1]), more[|more| - 1], t);
    }
  }

  /** An errand stays as it was, and a new one has a cancel that was not there before. */
  lemma {:induction false} ErrandsGrow(actions: seq<LinkAction>, more: seq<LinkAction>, t: Tid)
    requires t in LinkRun(actions + more).errands
    ensures t in LinkRun(actions).errands ==> LinkRun(actions + more).errands[t] == LinkRun(actions).errands[t]
    ensures t !in LinkRun(actions).errands ==> t !in LinkRun(actions).o.cancels
  {
    if more == [] {
      assert actions + more == actions;
      RunAnswerable(actions);
    } else {
      var front := more[..|more| - 1];
      LinkSplit(actions, more);
      RunAnswerable(actions + front);
      ErrandStep(LinkRun(actions + front), more[|more| - 1], t);
      if t in LinkRun(actions + front).errands {
        ErrandsGrow(actions, front, t);
      } else {
        NewErrand(actions, front, t);
      }
    }
  }

  lemma {:induction false} NewErrand(actions: seq<LinkAction>, more: seq<LinkAction>, t: Tid)
    requires t !in LinkRun(actions + more).o.cancels
    ensures t !in LinkRun(actions).o.cancels && t !in LinkRun(actions).errands
  {
    RunAnswerable(actions);
    if t in LinkRun(actions).o.cancels { CancelsGrow(actions, more, t); }
  }

  /** An Office run that was registered before the cancel took the lock is over once it succeeded. */
  lemma {:induction false} DeleteEndsRun(actions: seq<LinkAction>, more: seq<LinkAction>, t: Tid, k: JobRef)
    requires NotLocked(LinkRun(actions).o, t) && Registered(LinkRun(actions).o.sup, k)
    requires Succeeded(LinkRun(actions + more).o, t)
    requires LinkRun(actions + more).o.cancels[t].id == LinkRun(actions).o.sup.table[k].id
    ensures k in LinkRun(actions + more).o.sup.table && Over(LinkRun(actions + more).o.sup.table[k])
  {
    OfficeProjects(actions);
    OfficeProjects(actions + more);
    var tail := TraceExtends(actions, more);
    CancelEndsEarlierJobs(Role.Office, OfficeTrace(actions), tail, t, k);
  }

  /**
   Whatever happened to the tombstones: an Office run of request `j` that was registered before any
   cancel sent for `j` took the Office lock is over, for good, once docling has given the permit of
   job `j` back.
   */
  lemma {:induction false} ReleaseEndsOfficeRun(actions: seq<LinkAction>, more: seq<LinkAction>, j: JobRef, k: JobRef)
    requires Registered(LinkRun(actions).o.sup, k) && LinkRun(actions).o.sup.table[k].request == j
    requires forall t :: t in LinkRun(actions).errands && LinkRun(actions).errands[t] == AboutJob(j) ==>
               NotLocked(LinkRun(actions).o, t)
    requires var s := LinkRun(actions + more).d.sup; j in s.table && s.table[j].officeStarted && !s.table[j].ownsSlot
    ensures k in LinkRun(actions + more).o.sup.table && Over(LinkRun(actions + more).o.sup.table[k])
  {
    var l' := LinkRun(actions + more);
    LinkRunIsOk(actions + more);
    OverForGood(actions, more, k);
    assert Sent(l'.d, j, l'.o.sup.table[k].id);
    ReleasedIsQuiet(l', j);
    if !Returned(l', j) {
      var t :| CancelledBy(l', t, AboutJob(j), l'.d.sup.table[j].id);
      ErrandsGrow(actions, more, t);
      DeleteEndsRun(actions, more, t, k);
    }
  }

  lemma {:induction false} RunAfter(role: Role, trace: seq<Action>, a: Action, rest: seq<Action>)
    ensures RunFrom(role, trace + [a] + rest) == After(Next(RunFrom(role, trace), a), rest)
    decreases |rest|
  {
    if rest == [] {
      assert trace + [a] + rest == trace + [a];
      OneMove(role, trace, a);
    } else {
      var front := rest[..|rest| - 1];
      RunAfter(role, trace, a, front);
      assert trace + [a] + rest == (trace + [a] + front) + [rest[|rest| - 1]];
      OneMove(role, trace + [a] + front, rest[|rest| - 1]);
    }
  }

  /**
   What the tombstone is needed for: a request that reaches the Office service late, whatever has
   become of its docling job, is refused for good if a tombstone of its id stands when it registers.
   Without one it has had its process after two more good steps of its own, or a cancel has marked
   it before. `rest` is all that the Office service sees after the registration.
   */
  lemma {:induction false} LateRequest(actions: seq<LinkAction>, more: seq<LinkAction>, k: JobRef, rest: seq<Action>)
    requires k in LinkRun(actions).o.sup.table && LinkRun(actions).o.sup.table[k].pc.Registering?
    requires OfficeTrace(actions + more) == OfficeTrace(actions) + [Work(k, Fine)] + rest
    ensures var o, o' := LinkRun(actions).o.sup, LinkRun(actions + more).o.sup;
            && k in o'.table && o'.table[k].request == o.table[k].request
            && if o.table[k].id in o.tombstones.at then !o'.table[k].registered && o'.table[k].group.NoGroup?
               else
                 && o'.table[k].registered
                 && (OwnRuns(rest, k) >= 2 && (forall a :: a in rest && OwnRun(a, k) ==> a.luck.Fine?) ==>
                       o'.table[k].cancelled || !o'.table[k].group.NoGroup?)
  {
    LinkRunIsOk(actions);
    OfficeProjects(actions);
    OfficeProjects(actions + more);
    RunAfter(Role.Office, OfficeTrace(actions), Work(k, Fine), rest);
    OverForGood(actions, more, k);
    ServedUnlessBuried(LinkRun(actions).o, rest, k);
  }

  /** Every Office run, waiting request or request on its way that has this id is quiet. */
  ghost predicate IdQuiet(l: Link, id: Id) {
    && (forall k :: k in l.o.sup.table && l.o.sup.table[k].id == id ==> Quiet(l, l.o.sup.table[k].request, id))
    && (forall t :: t in l.o.seekers && l.o.seekers[t].id == id ==> Quiet(l, l.o.seekers[t].request, id))
    && (forall j :: j in l.inflight && j in l.d.sup.table && l.d.sup.table[j].id == id ==> Quiet(l, j, id))
  }

  lemma {:induction false} SentIsQuiet(l: Link, tid: Tid, j: JobRef)
    requires LinkOk(l) && Succeeded(l.d, tid) && StillBuried(l.d.sup, l.d.cancels[tid])
    requires Sent(l.d, j, l.d.cancels[tid].id)
    ensures Quiet(l, j, l.d.cancels[tid].id)
  {
    SuccessSilences(l.d, tid);
    assert JobOk(l.d.sup.table[j]);
    ReleasedIsQuiet(l, j);
  }

  lemma {:induction false} BuriedIdIsQuiet(l: Link, tid: Tid)
    requires LinkOk(l) && Succeeded(l.d, tid) && StillBuried(l.d.sup, l.d.cancels[tid])
    ensures IdQuiet(l, l.d.cancels[tid].id)
  {
    var id := l.d.cancels[tid].id;
    forall j | Sent(l.d, j, id) ensures Quiet(l, j, id) { SentIsQuiet(l, tid, j); }
  }

  lemma {:induction false} AskedIsEnded(l: Link, tid: Tid) returns (t: Tid)
    requires LinkOk(l) && Succeeded(l.d, tid) && l.d.cancels[tid].job.None? && l.d.cancels[tid].asks
    ensures CancelledBy(l, t, AboutId(tid), l.d.cancels[tid].id)
  {
    assert CancelBacked(tid, l.d.cancels[tid], l);
    t := DoneIsEnded(l, AboutId(tid), l.d.cancels[tid].id);
  }

  /**
   A successful cancel at docling. Without any condition, every docling job of the id that was
   registered when it took the lock is over, and quiet at the Office service; a cancel that found no
   job and asked the Office service has had its own Office cancel succeed. While docling keeps the
   tombstone, nothing of the id can run on at the Office service, wherever its requests are.
   */
  lemma {:induction false} CancelQuietsBoth(actions: seq<LinkAction>, tid: Tid)
    requires Succeeded(LinkRun(actions).d, tid)
    ensures var l := LinkRun(actions);
            var c := l.d.cancels[tid];
            && (forall j :: j in c.before ==>
                  && j in l.d.sup.table && Over(l.d.sup.table[j])
                  && (l.d.sup.table[j].officeStarted ==> Quiet(l, j, c.id)))
            && (c.job.None? && c.asks ==> exists t :: CancelledBy(l, t, AboutId(tid), c.id))
            && (StillBuried(l.d.sup, c) ==> IdQuiet(l, c.id))
  {
    LinkRunIsOk(actions);
    var l := LinkRun(actions);
    var c := l.d.cancels[tid];
    SuccessSilences(l.d, tid);
    forall j | j in c.before && l.d.sup.table[j].officeStarted
      ensures Quiet(l, j, c.id)
    {
      assert CancelOk(l.d.sup, c) && j in RegisteredAs(l.d.sup, c.id);
      ReleasedIsQuiet(l, j);
    }
    if c.job.None? && c.asks { var t := AskedIsEnded(l, tid); }
    if StillBuried(l.d.sup, c) { BuriedIdIsQuiet(l, tid); }
  }
}
