/**
 The limit of what a release at docling says about the Office service, as one run of the two: the
 prepare request is so slow that the tombstone which would have refused it has gone.
 */
module ConverterLimits {
  import opened Wrappers
  import opened ConverterState
  import opened ConverterSystem
  import opened ConverterSafety
  import opened ConverterTheorems
  import opened ConverterLink

  lemma {:induction false} RunOne(actions: seq<LinkAction>, a: LinkAction)
    ensures LinkRun(actions + [a]) == LinkNext(LinkRun(actions), a)
  {
    assert (actions + [a])[..|actions|] == actions;
  }

  // ---- the docling side ----------------------------------------------------------------------

  /** The one docling job, once it has started its Office call. */
  function CallingJob(pc: RunPc, reaped: bool): Job {
    Job("x", 0, true, pc, false, false, NoGroup, false, false, true, true, reaped, false, true)
  }

  function DoclingWith(job: Job): System {
    System(Supervisor(Docling, 0, map["x" := 0], map[0 := job], NO_TIMES, NO_TIMES, 0), map[], map[], 0)
  }

  lemma {:induction false} DoclingWork(job: Job, luck: Luck)
    requires job.id == "x" && !job.pc.FinishLock? && !job.pc.Registering?
    ensures Next(DoclingWith(job), Work(0, luck)) == DoclingWith(WorkJob(job, true, luck))
  {
  }

  lemma {:induction false} DoclingAdmits()
    ensures var d := Admit0();
            d.sup == Supervisor(Docling, 0, map[], map[0 := NewJob("x", 0, true)], NO_TIMES, NO_TIMES, 0)
            && d.seekers == map[] && d.cancels == map[] && d.now == 0
  {
  }

  function Admit0(): System {
    Next(Next(Initial(Docling), ArriveRun(0, "x", 0, true)), Seek(0, Fine, "", 0))
  }

  lemma {:induction false} DoclingRegisters()
    ensures Next(Admit0(), Work(0, Fine)) ==
            DoclingWith(NewJob("x", 0, true).(registered := true, pc := OfficeGate))
  {
    DoclingAdmits();
  }

  /** A docling step that is no reply and sends nothing. */
  lemma {:induction false} QuietStep(actions: seq<LinkAction>, a: Action)
    requires LinkRun(actions).calls == map[] && ReplyPossible(LinkRun(actions), a) && !Sends(LinkRun(actions).d, a)
    ensures LinkRun(actions + [DoclingStep(a)]) == LinkRun(actions).(d := Next(LinkRun(actions).d, a))
  {
    RunOne(actions, DoclingStep(a));
  }

  lemma {:induction false} Registers() returns (actions: seq<LinkAction>)
    ensures LinkRun(actions) ==
            LINK_INITIAL.(d := DoclingWith(NewJob("x", 0, true).(registered := true, pc := OfficeGate)))
  {
    var a1, a2, a3 := ArriveRun(0, "x", 0, true), Seek(0, Fine, "", 0), Work(0, Fine);
    QuietStep([], a1);
    QuietStep([] + [DoclingStep(a1)], a2);
    DoclingAdmits();
    QuietStep([] + [DoclingStep(a1)] + [DoclingStep(a2)], a3);
    DoclingRegisters();
    actions := [] + [DoclingStep(a1)] + [DoclingStep(a2)] + [DoclingStep(a3)];
  }

  /** The prepare request is sent, the call fails, and the run is about to ask for a cancel. */
  lemma {:induction false} Asks() returns (actions: seq<LinkAction>)
    ensures LinkRun(actions) == LINK_INITIAL.(d := DoclingWith(CallingJob(OfficeCancel, false)), inflight := {0})
  {
    var front := Registers();
    var job := NewJob("x", 0, true).(registered := true, pc := OfficeGate);
    DoclingWork(job, Fine);
    assert WorkJob(job, true, Fine) == CallingJob(OfficeWait, false);
    RunOne(front, DoclingStep(Work(0, Fine)));
    var sent := front + [DoclingStep(Work(0, Fine))];
    DoclingWork(CallingJob(OfficeWait, false), Handled);
    assert WorkJob(CallingJob(OfficeWait, false), true, Handled) == CallingJob(OfficeCancel, false);
    QuietStep(sent, Work(0, Handled));
    actions := sent + [DoclingStep(Work(0, Handled))];
  }

  // ---- the cancel at the Office service ------------------------------------------------------

  const BURIED := Times(["x"], map["x" := Stamp(0, 0)])

  /** The Office service after the DELETE for "x". */
  function OfficeAfterDelete(pc: CancelPc, serial: nat, stopped: Times): System {
    System(Supervisor(Role.Office, 1, map[], map[], BURIED, stopped, serial), map[],
           map[0 := Canceller("x", pc, None, 0, false, {})], 0)
  }

  lemma {:induction false} OfficeLocks()
    ensures Next(Next(Initial(Role.Office), ArriveCancel(0, "x")), Stop(0, Fine)) ==
            OfficeAfterDelete(Remembering, 1, NO_TIMES)
  {
    var o := Next(Initial(Role.Office), ArriveCancel(0, "x"));
    assert Prune(NO_TIMES, 0) == NO_TIMES;
    assert Bury(o.sup, "x", 0) == o.sup.(tombstones := BURIED, serial := 1);
    assert RegisteredAs(Bury(o.sup, "x", 0), "x") == {};
  }

  lemma {:induction false} OfficeRemembers() returns (stopped: Times)
    ensures Next(OfficeAfterDelete(Remembering, 1, NO_TIMES), Stop(0, Fine)) ==
            OfficeAfterDelete(Finished(true), 2, stopped)
  {
    stopped := RememberStopped(OfficeAfterDelete(Remembering, 1, NO_TIMES).sup, "x", 0).stopped;
  }

  lemma {:induction false} Cancels() returns (actions: seq<LinkAction>, stopped: Times)
    ensures LinkRun(actions) == Link(DoclingWith(CallingJob(OfficeCancel, false)),
                                     OfficeAfterDelete(Finished(true), 2, stopped), {0},
                                     map[RunCall(0) := 0], map[0 := AboutJob(0)])
  {
    var front := Asks();
    var sent := front + [SendDelete(RunCall(0), 0)];
    RunOne(front, SendDelete(RunCall(0), 0));
    OfficeLocks();
    RunOne(sent, OfficeStep(Stop(0, Fine)));
    stopped := OfficeRemembers();
    RunOne(sent + [OfficeStep(Stop(0, Fine))], OfficeStep(Stop(0, Fine)));
    actions := sent + [OfficeStep(Stop(0, Fine))] + [OfficeStep(Stop(0, Fine))];
  }

  // ---- docling releases the job --------------------------------------------------------------

  lemma {:induction false} Marks() returns (actions: seq<LinkAction>, stopped: Times)
    ensures LinkRun(actions) == Link(DoclingWith(CallingJob(OfficeCancelMark, false)),
                                     OfficeAfterDelete(Finished(true), 2, stopped), {0}, map[], map[0 := AboutJob(0)])
  {
    var front;
    front, stopped := Cancels();
    DoclingWork(CallingJob(OfficeCancel, false), Fine);
    assert WorkJob(CallingJob(OfficeCancel, false), true, Fine) == CallingJob(OfficeCancelMark, false);
    RunOne(front, DoclingStep(Work(0, Fine)));
    actions := front + [DoclingStep(Work(0, Fine))];
    assert OpenCalls(DoclingWith(CallingJob(OfficeCancelMark, false)), map[RunCall(0) := 0]) == map[];
  }

  lemma {:induction false} WorkOn(front: seq<LinkAction>, job: Job, luck: Luck) returns (actions: seq<LinkAction>)
    requires LinkRun(front).d == DoclingWith(job) && LinkRun(front).calls == map[]
    requires job.id == "x" && !job.pc.FinishLock? && !job.pc.Registering? && !job.pc.OfficeGate?
    requires !job.pc.OfficeWait? && !job.pc.OfficeCancel?
    ensures LinkRun(actions) == LinkRun(front).(d := DoclingWith(WorkJob(job, true, luck)))
  {
    DoclingWork(job, luck);
    QuietStep(front, Work(0, luck));
    actions := front + [DoclingStep(Work(0, luck))];
  }

  /** The run goes wrong after its Office call and ends; nothing is left that its permit waits for. */
  lemma {:induction false} Releases() returns (actions: seq<LinkAction>, stopped: Times)
    ensures var l := LinkRun(actions);
            && l.o == OfficeAfterDelete(Finished(true), 2, stopped) && l.inflight == {0}
            && 0 in l.d.sup.table && l.d.sup.table[0].id == "x"
            && l.d.sup.table[0].officeStarted && !l.d.sup.table[0].ownsSlot
  {
    actions, stopped := Marks();
    actions := WorkOn(actions, CallingJob(OfficeCancelMark, false), Fine);
    assert WorkJob(CallingJob(OfficeCancelMark, false), true, Fine) == CallingJob(Gate, true);
    actions := WorkOn(actions, CallingJob(Gate, true), Unhandled);
    assert WorkJob(CallingJob(Gate, true), true, Unhandled) == CallingJob(Finishing(false), true);
    actions := WorkOn(actions, CallingJob(Finishing(false), true), Fine);
    assert WorkJob(CallingJob(Finishing(false), true), true, Fine) == CallingJob(FinishLock(false, true), true);
    QuietStep(actions, Work(0, Fine));
    actions := actions + [DoclingStep(Work(0, Fine))];
    assert Finalizable(EndedJob(CallingJob(FinishLock(false, true), true)));
  }

  // ---- time passes at the Office service -----------------------------------------------------

  lemma {:induction false} Ticks(front: seq<LinkAction>, n: nat) returns (actions: seq<LinkAction>)
    ensures LinkRun(actions) == LinkRun(front).(o := LinkRun(front).o.(now := LinkRun(front).o.now + n))
  {
    if n == 0 {
      actions := front;
    } else {
      actions := Ticks(front, n - 1);
      RunOne(actions, OfficeStep(Tick));
      actions := actions + [OfficeStep(Tick)];
    }
  }

  /** A cancel of another id prunes the tombstone. */
  lemma {:induction false} OfficePrunes(o: System)
    requires o.sup.tombstones == BURIED && o.now == RETENTION && o.sup.role.Office? && o.sup.table == map[]
    requires 1 !in o.cancels && o.sup.jobs == map[]
    ensures var o' := Next(Next(o, ArriveCancel(1, "y")), Stop(1, Fine));
            && "x" !in o'.sup.tombstones.at
            && o'.sup.free == o.sup.free && o'.sup.table == map[] && o'.seekers == o.seekers
  {
    assert KeepRecent(["x"], BURIED, RETENTION) == [] by { assert ["x"][1..] == []; }
    assert Prune(BURIED, RETENTION) == NO_TIMES;
    var s := Next(o, ArriveCancel(1, "y")).sup;
    assert Bury(s, "y", RETENTION) == s.(tombstones := Put(NO_TIMES, "y", RETENTION, s.serial), serial := s.serial + 1);
  }

  lemma {:induction false} Forgets() returns (actions: seq<LinkAction>)
    ensures var l := LinkRun(actions);
            && l.inflight == {0} && l.o.sup.free == 1 && l.o.sup.table == map[] && l.o.seekers == map[]
            && "x" !in l.o.sup.tombstones.at
            && 0 in l.d.sup.table && l.d.sup.table[0].id == "x"
            && l.d.sup.table[0].officeStarted && !l.d.sup.table[0].ownsSlot
  {
    var stopped;
    actions, stopped := Releases();
    actions := Ticks(actions, RETENTION);
    OfficePrunes(LinkRun(actions).o);
    RunOne(actions, OfficeStep(ArriveCancel(1, "y")));
    RunOne(actions + [OfficeStep(ArriveCancel(1, "y"))], OfficeStep(Stop(1, Fine)));
    actions := actions + [OfficeStep(ArriveCancel(1, "y"))] + [OfficeStep(Stop(1, Fine))];
  }

  /**
   Docling has released the job and its Office cancel has succeeded; yet the prepare request that
   arrives when the tombstone has gone is converted.
   */
  lemma {:induction false} LateRequestRuns() returns (actions: seq<LinkAction>)
    ensures var l := LinkRun(actions);
            && 0 in l.d.sup.table && l.d.sup.table[0].officeStarted && !l.d.sup.table[0].ownsSlot
            && 0 in l.o.sup.table && l.o.sup.table[0].request == 0
            && l.o.sup.table[0].registered && l.o.sup.table[0].group.Alive?
  {
    var front := Forgets();
    var o := LinkRun(front).o;
    LinkRunIsOk(front);
    LuckyRequest(o, 0, "x", 0, 0);
    RunOne(front, Deliver(0, 0));
    actions := front + [Deliver(0, 0)];
    RunOne(actions, OfficeStep(Seek(0, Fine, "x", 0)));
    actions := actions + [OfficeStep(Seek(0, Fine, "x", 0))];
    RunOne(actions, OfficeStep(Work(0, Fine)));
    actions := actions + [OfficeStep(Work(0, Fine))];
    RunOne(actions, OfficeStep(Work(0, Fine)));
    actions := actions + [OfficeStep(Work(0, Fine))];
    RunOne(actions, OfficeStep(Work(0, Fine)));
    actions := actions + [OfficeStep(Work(0, Fine))];
  }
}
