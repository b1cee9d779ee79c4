/**
 The sampler of the management probe (tools/ingress/management_probe.py, Sampler) as the producer
 of the rows that the verdict reads. Its steps are what happens between two awaits.
 */
module ProbeSampler {
  import opened Wrappers
  import opened Sorting
  import opened ProbeVerdict

  /** A request of one endpoint; a finished one stays until the loop reaps it. */
  datatype Pending = Pending(slot: nat, scheduled: int, begun: Option<int>, finished: bool)

  /** What a request brings: a projected snapshot, or any failure. */
  datatype Outcome = Good(snapshot: Snapshot) | Bad(status: int, timeout: bool)

  datatype Probe = Probe(start: int, now: int, slot: nat, pending: map<Endpoint, Pending>, rows: seq<Row>,
                         successes: map<Endpoint, nat>, errors: nat, lastAccepted: Option<int>,
                         ready: Option<int>, done: Option<int>)

  function Init(start: int): Probe {
    Probe(start, start, 0, map[], [StartRow], map[], 0, None, None, None)
  }

  function Scheduled(p: Probe): int {
    p.start + p.slot * NS
  }

  function Reaped(p: Probe): Probe {
    p.(pending := map e | e in p.pending && !p.pending[e].finished :: p.pending[e])
  }

  predicate Misses(p: Probe, e: Endpoint) { e in p.pending || p.now >= Scheduled(p) + NS }

  /** One endpoint of a slot: a new request, or a missed row. */
  function ScheduleOne(p: Probe, e: Endpoint): Probe {
    var missed := Misses(p, e);
    p.(rows := if missed then p.rows + [MissedRow(e, p.slot)] else p.rows,
       errors := if missed then p.errors + 1 else p.errors,
       pending := if missed then p.pending else p.pending[e := Pending(p.slot, Scheduled(p), None, false)])
  }

  /** The first n endpoints of the slot that opens. */
  function ScheduleFirst(p: Probe, n: nat): Probe
    requires n <= |ENDPOINTS|
  {
    if n == 0 then p else ScheduleOne(ScheduleFirst(p, n - 1), ENDPOINTS[n - 1])
  }

  /** One pass of the loop: reap what is done and, when its time has come, open the slot. */
  function Loop(p: Probe): Probe {
    var r := Reaped(p);
    if r.now < Scheduled(r) then r else ScheduleFirst(r, |ENDPOINTS|).(slot := r.slot + 1)
  }

  function SampleOf(p: Probe, e: Endpoint, outcome: Outcome): Sample
    requires e in p.pending && p.pending[e].begun.Some?
  {
    Sample(e, p.pending[e].slot, p.pending[e].scheduled, p.pending[e].begun.value, p.now,
           if outcome.Good? then 200 else outcome.status, outcome.Bad? && outcome.timeout, outcome.Bad?,
           if outcome.Good? then Some(outcome.snapshot) else None)
  }

  function Successes(p: Probe, e: Endpoint): nat {
    if e in p.successes then p.successes[e] else 0
  }

  predicate CanFinish(p: Probe, e: Endpoint) {
    e in p.pending && p.pending[e].begun.Some? && !p.pending[e].finished
  }

  function LastAccepted(p: Probe, e: Endpoint, outcome: Outcome): Option<int> {
    if !e.Backlog? then p.lastAccepted else if outcome.Good? then Some(outcome.snapshot.accepted) else None
  }

  predicate Settled(cfg: Config, successes: map<Endpoint, nat>) {
    forall n: Endpoint :: (if n in successes then successes[n] else 0) >= cfg.baselineSamples
  }

  /** The baseline is complete: enough successes of each endpoint, no error, nothing accepted. */
  predicate BecomesReady(p: Probe, cfg: Config, e: Endpoint, outcome: Outcome) {
    && p.ready.None? && outcome.Good? && p.errors == 0 && LastAccepted(p, e, outcome) == Some(0)
    && Settled(cfg, p.successes[e := Successes(p, e) + 1])
  }

  function FinishRows(rows: seq<Row>, s: Sample, ready: bool): seq<Row> {
    if ready then rows + [SampleRow(s)] + [ReadyRow(s.end)] else rows + [SampleRow(s)]
  }

  function Closed(pending: map<Endpoint, Pending>, e: Endpoint): map<Endpoint, Pending>
    requires e in pending
  {
    pending[e := pending[e].(finished := true)]
  }

  /** The end of `one`; a failure, cancellation at the deadline included, only counts as an error. */
  function Finish(p: Probe, cfg: Config, e: Endpoint, outcome: Outcome): Probe
    requires CanFinish(p, e)
  {
    var ready := BecomesReady(p, cfg, e, outcome);
    p.(pending := Closed(p.pending, e),
       rows := FinishRows(p.rows, SampleOf(p, e, outcome), ready),
       errors := if outcome.Bad? then p.errors + 1 else p.errors,
       successes := if outcome.Good? then p.successes[e := Successes(p, e) + 1] else p.successes,
       lastAccepted := LastAccepted(p, e, outcome),
       done := if p.done.None? && outcome.Good? && e.Backlog? && IsDone(cfg, outcome.snapshot) then Some(p.now)
               else p.done,
       ready := if ready then Some(p.now) else p.ready)
  }

  datatype Action = Wait(until: int) | Pass | Begin(e: Endpoint) | Answer(e: Endpoint, outcome: Outcome)

  function Next(p: Probe, cfg: Config, a: Action): Probe {
    match a
    case Wait(until) => if until >= p.now then p.(now := until) else p
    case Pass => Loop(p)
    case Begin(e) =>
      if e in p.pending && p.pending[e].begun.None?
      then p.(pending := p.pending[e := p.pending[e].(begun := Some(p.now))]) else p
    case Answer(e, outcome) => if CanFinish(p, e) then Finish(p, cfg, e, outcome) else p
  }

  function Run(start: int, cfg: Config, actions: seq<Action>): Probe {
    if actions == [] then Init(start) else Next(Run(start, cfg, actions[..|actions| - 1]), cfg, actions[|actions| - 1])
  }

  /** When the loop is left, every request still running has been cancelled and has left its row. */
  predicate Quiet(p: Probe) {
    forall e :: e in p.pending ==> p.pending[e].finished
  }

  function Log(p: Probe, reason: Reason, peak: nat): seq<Row> {
    p.rows + [EndRow(p.slot, reason, peak)]
  }

  // ---- coverage ------------------------------------------------------------------------------

  function CountMissed(rows: seq<Row>, e: Endpoint, slot: nat): nat {
    if rows == [] then 0
    else CountMissed(rows[..|rows| - 1], e, slot) + if rows[|rows| - 1] == MissedRow(e, slot) then 1 else 0
  }

  function Open(p: Probe, e: Endpoint, slot: nat): nat {
    if e in p.pending && !p.pending[e].finished && p.pending[e].slot == slot then 1 else 0
  }

  function Accounts(p: Probe, e: Endpoint, slot: nat): nat {
    RowCount(p.rows, e, slot) + Open(p, e, slot)
  }

  function RowCount(rows: seq<Row>, e: Endpoint, slot: nat): nat {
    CountSlot(Samples(rows), e, slot) + CountMissed(rows, e, slot)
  }

  /** Each endpoint has one sample, one missed row or one open request per slot so far. */
  ghost predicate CoverOk(p: Probe) {
    forall e: Endpoint, slot: nat :: Accounts(p, e, slot) == if slot < p.slot then 1 else 0
  }

  predicate Concerns(row: Row, e: Endpoint, slot: nat) {
    match row
    case MissedRow(f, k) => f == e && k == slot
    case SampleRow(s) => s.endpoint == e && s.slot == slot
    case _ => false
  }

  lemma {:induction false} AddRow(rows: seq<Row>, row: Row, e: Endpoint, slot: nat)
    ensures RowCount(rows + [row], e, slot) == RowCount(rows, e, slot) + if Concerns(row, e, slot) then 1 else 0
  {
    assert (rows + [row])[..|rows + [row]| - 1] == rows;
    if row.SampleRow? {
      var samples := Samples(rows);
      assert (samples + [row.sample])[..|samples + [row.sample]| - 1] == samples;
    }
  }

  lemma {:induction false} MissOne(p: Probe, e: Endpoint, f: Endpoint, slot: nat)
    requires Misses(p, e)
    ensures Open(ScheduleOne(p, e), f, slot) == Open(p, f, slot)
    ensures RowCount(ScheduleOne(p, e).rows, f, slot) ==
            RowCount(p.rows, f, slot) + if f == e && slot == p.slot then 1 else 0
  {
    assert ScheduleOne(p, e).rows == p.rows + [MissedRow(e, p.slot)];
    AddRow(p.rows, MissedRow(e, p.slot), f, slot);
  }

  lemma {:induction false} OpenOne(p: Probe, e: Endpoint, f: Endpoint, slot: nat)
    requires !Misses(p, e)
    ensures Open(ScheduleOne(p, e), f, slot) == Open(p, f, slot) + if f == e && slot == p.slot then 1 else 0
    ensures ScheduleOne(p, e).rows == p.rows
  {
    assert ScheduleOne(p, e).pending == p.pending[e := Pending(p.slot, Scheduled(p), None, false)];
  }

  /** Scheduling one endpoint accounts for it in the slot that is opening, and for no other. */
  lemma {:induction false} ScheduleOneCounts(p: Probe, e: Endpoint, f: Endpoint, slot: nat)
    ensures Accounts(ScheduleOne(p, e), f, slot) == Accounts(p, f, slot) + if f == e && slot == p.slot then 1 else 0
    ensures ScheduleOne(p, e).slot == p.slot
  {
    if Misses(p, e) { MissOne(p, e, f, slot); } else { OpenOne(p, e, f, slot); }
  }

  function Position(e: Endpoint): nat {
    match e case Adapters => 0 case Events => 1 case Backlog => 2
  }

  lemma {:induction false} ScheduleCounts(p: Probe, n: nat, e: Endpoint, slot: nat)
    requires n <= |ENDPOINTS|
    ensures ScheduleFirst(p, n).slot == p.slot
    ensures Accounts(ScheduleFirst(p, n), e, slot) ==
            Accounts(p, e, slot) + if Position(e) < n && slot == p.slot then 1 else 0
  {
    if n > 0 {
      ScheduleCounts(p, n - 1, e, slot);
      ScheduleOneCounts(ScheduleFirst(p, n - 1), ENDPOINTS[n - 1], e, slot);
      assert ENDPOINTS[n - 1] == e <==> Position(e) == n - 1;
    }
  }

  lemma {:induction false} LoopCounts(p: Probe, e: Endpoint, slot: nat)
    ensures Accounts(Loop(p), e, slot) ==
            Accounts(p, e, slot) + if slot == p.slot && Loop(p).slot > p.slot then 1 else 0
    ensures Loop(p).slot == p.slot || Loop(p).slot == p.slot + 1
  {
    ScheduleCounts(Reaped(p), |ENDPOINTS|, e, slot);
  }

  lemma {:induction false} FinishRowsCount(rows: seq<Row>, s: Sample, ready: bool, e: Endpoint, slot: nat)
    ensures RowCount(FinishRows(rows, s, ready), e, slot) ==
            RowCount(rows, e, slot) + if s.endpoint == e && s.slot == slot then 1 else 0
  {
    AddRow(rows, SampleRow(s), e, slot);
    AddRow(rows + [SampleRow(s)], ReadyRow(s.end), e, slot);
  }

  /** Closing a request takes its slot's open one away. */
  lemma {:induction false} FinishCloses(p: Probe, cfg: Config, e: Endpoint, outcome: Outcome, f: Endpoint, slot: nat)
    requires CanFinish(p, e)
    ensures var q := Finish(p, cfg, e, outcome);
            && q.pending == Closed(p.pending, e)
            && q.rows == FinishRows(p.rows, SampleOf(p, e, outcome), BecomesReady(p, cfg, e, outcome))
            && Open(p, f, slot) == Open(q, f, slot) + if f == e && slot == p.pending[e].slot then 1 else 0
  {
  }

  lemma {:induction false} FinishCounts(p: Probe, cfg: Config, e: Endpoint, outcome: Outcome, f: Endpoint, slot: nat)
    requires CanFinish(p, e)
    ensures Accounts(Finish(p, cfg, e, outcome), f, slot) == Accounts(p, f, slot)
  {
    FinishCloses(p, cfg, e, outcome, f, slot);
    FinishRowsCount(p.rows, SampleOf(p, e, outcome), BecomesReady(p, cfg, e, outcome), f, slot);
  }

  lemma {:induction false} NextCovers(p: Probe, cfg: Config, a: Action)
    requires CoverOk(p)
    ensures CoverOk(Next(p, cfg, a))
  {
    var q := Next(p, cfg, a);
    forall e: Endpoint, slot: nat ensures Accounts(q, e, slot) == if slot < q.slot then 1 else 0 {
      assert Accounts(p, e, slot) == if slot < p.slot then 1 else 0;
      if a.Pass? { LoopCounts(p, e, slot); }
      if a.Answer? && CanFinish(p, a.e) { FinishCounts(p, cfg, a.e, a.outcome, e, slot); }
    }
  }

  lemma {:induction false} RunCovers(start: int, cfg: Config, actions: seq<Action>)
    ensures CoverOk(Run(start, cfg, actions))
  {
    if actions == [] {
      forall e: Endpoint, slot: nat ensures Accounts(Init(start), e, slot) == 0 {
        AddRow([], StartRow, e, slot);
        assert [] + [StartRow] == Init(start).rows;
      }
    } else {
      RunCovers(start, cfg, actions[..|actions| - 1]);
      NextCovers(Run(start, cfg, actions[..|actions| - 1]), cfg, actions[|actions| - 1]);
    }
  }

  // ---- the log is in order, and the sampler and the verdict agree on it ----------------------

  ghost predicate InOrder(samples: seq<Sample>, now: int) {
    && (samples != [] ==> samples[|samples| - 1].end <= now)
    && (forall i :: 0 < i < |samples| ==> samples[i - 1].end <= samples[i].end)
  }

  lemma {:induction false} UsableInOrder(samples: seq<Sample>, now: int)
    requires InOrder(samples, now)
    ensures InOrder(Usable(samples), now)
  {
    if samples != [] {
      var front, last := samples[..|samples| - 1], samples[|samples| - 1];
      assert InOrder(front, last.end);
      UsableInOrder(front, last.end);
    }
  }

  /** Sorting a log that is in order changes nothing. */
  lemma {:induction false} SortedAlready(s: seq<Sample>, now: int)
    requires InOrder(s, now)
    ensures Sort(s, BY_END) == s
  {
    if s != [] {
      var front, last := s[..|s| - 1], s[|s| - 1];
      SortedAlready(front, last.end);
      assert front != [] ==> front[|front| - 1] == s[|s| - 2];
      assert Insert(front, last, BY_END) == front + [last];
    }
  }

  /** Without an end row yet, in order, and `done` is the end of the first complete backlog sample. */
  ghost predicate LogOk(p: Probe, cfg: Config) {
    && Ends(p.rows) == [] && InOrder(Samples(p.rows), p.now)
    && p.done == EndOf(First(cfg, FullyDone, Usable(Samples(p.rows)), |Usable(Samples(p.rows))|),
                       Usable(Samples(p.rows)))
  }

  function EndOf(r: Option<nat>, b: seq<Sample>): Option<int>
    requires r.Some? ==> r.value < |b|
  {
    if r.Some? then Some(b[r.value].end) else None
  }

  lemma {:induction false} FirstOfPrefix(cfg: Config, w: Wanted, b: seq<Sample>, s: Sample, n: nat)
    requires n <= |b|
    ensures First(cfg, w, b + [s], n) == First(cfg, w, b, n)
  {
    if n > 0 { FirstOfPrefix(cfg, w, b, s, n - 1); }
  }

  /** One more backlog sample: it is the first wanted one only if there was none. */
  lemma {:induction false} FirstOfMore(cfg: Config, w: Wanted, b: seq<Sample>, s: Sample)
    ensures var r := First(cfg, w, b, |b|);
            EndOf(First(cfg, w, b + [s], |b + [s]|), b + [s]) ==
            if r.None? && Meets(cfg, w, s) then Some(s.end) else EndOf(r, b)
  {
    FirstOfPrefix(cfg, w, b, s, |b|);
  }

  lemma {:induction false} FinishRowsLog(rows: seq<Row>, s: Sample, ready: bool)
    ensures Samples(FinishRows(rows, s, ready)) == Samples(rows) + [s]
    ensures Ends(FinishRows(rows, s, ready)) == Ends(rows)
  {
    var more := rows + [SampleRow(s)];
    assert more[..|more| - 1] == rows;
    if ready {
      assert (more + [ReadyRow(s.end)])[..|more|] == more;
    }
  }

  lemma {:induction false} FinishDone(p: Probe, cfg: Config, e: Endpoint, outcome: Outcome)
    requires CanFinish(p, e)
    ensures var s := SampleOf(p, e, outcome);
            Finish(p, cfg, e, outcome).done ==
            if p.done.None? && IsBacklog(s) && Meets(cfg, FullyDone, s) then Some(s.end) else p.done
    ensures Finish(p, cfg, e, outcome).now == p.now == SampleOf(p, e, outcome).end
  {
  }

  lemma {:induction false} InOrderMore(samples: seq<Sample>, s: Sample, now: int)
    requires InOrder(samples, now) && s.end == now
    ensures InOrder(samples + [s], now)
  {
  }

  lemma {:induction false} UsableMore(samples: seq<Sample>, s: Sample)
    ensures Usable(samples + [s]) == if IsBacklog(s) then Usable(samples) + [s] else Usable(samples)
  {
    assert (samples + [s])[..|samples|] == samples;
  }

  lemma {:induction false} FinishLog(p: Probe, cfg: Config, e: Endpoint, outcome: Outcome)
    requires LogOk(p, cfg) && CanFinish(p, e)
    ensures LogOk(Finish(p, cfg, e, outcome), cfg)
  {
    var s, samples := SampleOf(p, e, outcome), Samples(p.rows);
    FinishCloses(p, cfg, e, outcome, e, 0);
    FinishRowsLog(p.rows, s, BecomesReady(p, cfg, e, outcome));
    FinishDone(p, cfg, e, outcome);
    InOrderMore(samples, s, p.now);
    UsableMore(samples, s);
    FirstOfMore(cfg, FullyDone, Usable(samples), s);
  }

  lemma {:induction false} ScheduleLog(p: Probe, cfg: Config, n: nat)
    requires n <= |ENDPOINTS|
    ensures var q := ScheduleFirst(p, n);
            Samples(q.rows) == Samples(p.rows) && Ends(q.rows) == Ends(p.rows) && q.done == p.done && q.now == p.now
  {
    if n > 0 {
      ScheduleLog(p, cfg, n - 1);
    }
  }

  lemma {:induction false} RunLog(start: int, cfg: Config, actions: seq<Action>)
    ensures LogOk(Run(start, cfg, actions), cfg)
  {
    if actions == [] {
      assert Init(start).rows == [] + [StartRow];
    } else {
      var p, a := Run(start, cfg, actions[..|actions| - 1]), actions[|actions| - 1];
      RunLog(start, cfg, actions[..|actions| - 1]);
      match a
      case Pass => ScheduleLog(Reaped(p), cfg, |ENDPOINTS|);
      case Answer(e, outcome) => if CanFinish(p, e) { FinishLog(p, cfg, e, outcome); }
      case _ =>
    }
  }

  predicate HasMissed(rows: seq<Row>) {
    exists i :: 0 <= i < |rows| && rows[i].MissedRow?
  }

  /** The end row adds no sample and no missed row. */
  lemma {:induction false} LogAdds(p: Probe, reason: Reason, peak: nat)
    ensures Samples(Log(p, reason, peak)) == Samples(p.rows)
    ensures Ends(Log(p, reason, peak)) == Ends(p.rows) + [EndRow(p.slot, reason, peak)]
    ensures HasMissed(Log(p, reason, peak)) <==> HasMissed(p.rows)
  {
    var log := Log(p, reason, peak);
    assert log[..|log| - 1] == p.rows;
    if HasMissed(p.rows) {
      var i :| 0 <= i < |p.rows| && p.rows[i].MissedRow?;
      assert log[i].MissedRow?;
    }
  }

  lemma {:induction false} IncompleteMeans(cfg: Config, p: Probe, reason: Reason, peak: nat, sender: Option<int>)
    requires Ends(p.rows) == []
    ensures var log := Log(p, reason, peak);
            && (Fails(cfg, log, sender, CoverageIncomplete) <==> !Covered(Samples(p.rows), p.slot))
            && (Fails(cfg, log, sender, SlotsMissed) <==> HasMissed(p.rows))
  {
    LogAdds(p, reason, peak);
    assert HasMissed(Log(p, reason, peak)) <==> Fails(cfg, Log(p, reason, peak), sender, SlotsMissed);
  }

  /** The verdict finds the sampling incomplete exactly when the sampler wrote a missed row. */
  lemma {:induction false} CoverageMatchesSampler(start: int, cfg: Config, actions: seq<Action>, reason: Reason,
                                                  peak: nat,
                                                  sender: Option<int>)
    requires Quiet(Run(start, cfg, actions))
    ensures var log := Log(Run(start, cfg, actions), reason, peak);
            Fails(cfg, log, sender, CoverageIncomplete) <==> Fails(cfg, log, sender, SlotsMissed)
  {
    var p := Run(start, cfg, actions);
    RunLog(start, cfg, actions);
    RunCovers(start, cfg, actions);
    CoveredUnlessMissed(p);
    IncompleteMeans(cfg, p, reason, peak, sender);
  }

  /** Sorting the sampler's log changes nothing, and the verdict goes by the completion that it saw. */
  lemma {:induction false} CompletionMatchesSampler(start: int, cfg: Config, actions: seq<Action>, reason: Reason,
                                                    peak: nat)
    ensures var p := Run(start, cfg, actions);
            var b := Backlogs(Log(p, reason, peak));
            b == Usable(Samples(p.rows)) && p.done == EndOf(First(cfg, FullyDone, b, |b|), b)
  {
    var p := Run(start, cfg, actions);
    RunLog(start, cfg, actions);
    UsableInOrder(Samples(p.rows), p.now);
    SortedAlready(Usable(Samples(p.rows)), p.now);
  }

  lemma {:induction false} MissedCounts(rows: seq<Row>, e: Endpoint, slot: nat) returns (i: nat)
    requires CountMissed(rows, e, slot) > 0
    ensures i < |rows| && rows[i] == MissedRow(e, slot)
  {
    if rows[|rows| - 1] == MissedRow(e, slot) {
      i := |rows| - 1;
    } else {
      i := MissedCounts(rows[..|rows| - 1], e, slot);
    }
  }

  lemma {:induction false} MissedIsCounted(rows: seq<Row>, i: nat)
    requires i < |rows| && rows[i].MissedRow?
    ensures CountMissed(rows, rows[i].endpoint, rows[i].slot) > 0
  {
    if i < |rows| - 1 { MissedIsCounted(rows[..|rows| - 1], i); }
  }

  lemma {:induction false} CoveredUnlessMissed(p: Probe)
    requires CoverOk(p) && Quiet(p)
    ensures Covered(Samples(p.rows), p.slot) <==> !HasMissed(p.rows)
  {
    var samples := Samples(p.rows);
    forall e: Endpoint, slot: nat
      ensures CountSlot(samples, e, slot) + CountMissed(p.rows, e, slot) == if slot < p.slot then 1 else 0
    {
      assert Accounts(p, e, slot) == if slot < p.slot then 1 else 0;
    }
    forall i | 0 <= i < |samples| ensures samples[i].slot < p.slot {
      SampleCounts(samples, i);
    }
    if HasMissed(p.rows) {
      var i: nat :| i < |p.rows| && p.rows[i].MissedRow?;
      MissedIsCounted(p.rows, i);
    } else {
      forall e: Endpoint, slot: nat ensures CountMissed(p.rows, e, slot) == 0 {
        if CountMissed(p.rows, e, slot) > 0 {
          var i := MissedCounts(p.rows, e, slot);
        }
      }
    }
  }

  // ---- the object ----------------------------------------------------------------------------

  class Sampler {
    const start: int
    const cfg: Config
    var now: int
    var slot: nat
    var pending: map<Endpoint, Pending>
    var rows: seq<Row>
    var successes: map<Endpoint, nat>
    var errors: nat
    var lastAccepted: Option<int>
    var ready: Option<int>
    var done: Option<int>

    ghost function View(): Probe
      reads this
    {
      Probe(start, now, slot, pending, rows, successes, errors, lastAccepted, ready, done)
    }

    constructor (start: int, cfg: Config)
      ensures View() == Init(start) && this.cfg == cfg
    {
      this.start, this.cfg := start, cfg;
      now, slot, pending, rows, successes, errors := start, 0, map[], [StartRow], map[], 0;
      lastAccepted, ready, done := None, None, None;
    }

    /** The loop body between two awaits, the clock having been read into `now`. */
    method PassOnce()
      modifies this`pending, this`rows, this`errors, this`slot
      ensures View() == Loop(old(View()))
    {
      pending := map e | e in pending && !pending[e].finished :: pending[e];
      var scheduled := start + slot * NS;
      if now < scheduled {
        return;
      }
      ghost var reaped := View();
      for i := 0 to |ENDPOINTS|
        invariant View() == ScheduleFirst(reaped, i) && slot == reaped.slot
      {
        var name := ENDPOINTS[i];
        if name in pending || now >= scheduled + NS {
          rows, errors := rows + [MissedRow(name, slot)], errors + 1;
        } else {
          pending := pending[name := Pending(slot, scheduled, None, false)];
        }
      }
      slot := slot + 1;
    }

    /** A good answer: the success is counted, and completion and readiness are noticed. */
    method Succeed(e: Endpoint, snapshot: Snapshot)
      modifies this`successes, this`done, this`ready, this`rows
      ensures successes == old(successes)[e := Successes(old(View()), e) + 1]
      ensures done == if old(done).None? && e.Backlog? && IsDone(cfg, snapshot) then Some(now) else old(done)
      ensures var nowReady := old(ready).None? && errors == 0 && lastAccepted == Some(0) && Settled(cfg, successes);
              && ready == (if nowReady then Some(now) else old(ready))
              && rows == if nowReady then old(rows) + [ReadyRow(now)] else old(rows)
    {
      successes := successes[e := (if e in successes then successes[e] else 0) + 1];
      if e.Backlog? && IsDone(cfg, snapshot) && done.None? {
        done := Some(now);
      }
      if ready.None? && errors == 0 && lastAccepted == Some(0) && Settled(cfg, successes) {
        ready := Some(now);
        rows := rows + [ReadyRow(now)];
      }
    }

    /** The rest of `one` after its request. */
    method FinishOne(e: Endpoint, outcome: Outcome)
      requires CanFinish(View(), e)
      modifies this`pending, this`rows, this`errors, this`successes, this`lastAccepted, this`done, this`ready
      ensures View() == Finish(old(View()), cfg, e, outcome)
    {
      var request := pending[e];
      var row := Sample(e, request.slot, request.scheduled, request.begun.value, now,
                        if outcome.Good? then 200 else outcome.status, outcome.Bad? && outcome.timeout, outcome.Bad?,
                        if outcome.Good? then Some(outcome.snapshot) else None);
      rows := rows + [SampleRow(row)];
      pending := pending[e := request.(finished := true)];
      if e.Backlog? {
        lastAccepted := if outcome.Good? then Some(outcome.snapshot.accepted) else None;
      }
      if outcome.Bad? {
        errors := errors + 1;
        return;
      }
      Succeed(e, outcome.snapshot);
    }
  }
}
