/**
 The verdict of the management probe (tools/ingress/management_probe.py, evaluate): from sampled
 counters to causal bounds on when everything was accepted and when it was done. Times are
 nanoseconds of one monotonic clock.
 */
module ProbeVerdict {
  import opened Wrappers
  import opened Sorting

  const NS := 1_000_000_000

  datatype Endpoint = Adapters | Events | Backlog

  const ENDPOINTS := [Adapters, Events, Backlog]

  /** Counts of a backlog response; `others` adds up the states other than succeeded. */
  datatype Snapshot = Snapshot(accepted: int, succeeded: int, others: nat, bound: bool)

  datatype Sample = Sample(endpoint: Endpoint, slot: nat, scheduled: int, begin: int, end: int, status: int,
                           timeout: bool, error: bool, snapshot: Option<Snapshot>)

  datatype Reason = PostDrainComplete | Deadline | ExternalStop

  datatype Row =
    | StartRow
    | EndRow(slots: nat, reason: Reason, peak: nat)
    | ReadyRow(at: int)
    | MissedRow(endpoint: Endpoint, slot: nat)
    | SampleRow(sample: Sample)

  datatype Config = Config(count: nat, timeoutSeconds: nat, postDrainSeconds: nat, baselineSamples: nat)

  datatype Code =
    | LifecycleIncomplete | ProducerEvidenceMissing | SlotsMissed | RequestFailed | CoverageIncomplete
    | NotPostDrain | TimeBudgetInvalid | BindingMismatch | IntervalUnknown | CountExceeded
    | AcceptedRegressed | BusinessRegressed | SenderOrderInvalid | BoundExceeded
    | PhaseSamplesMissing | PercentileExceeded | PostDrainNotObserved

  // ---- what the rows hold --------------------------------------------------------------------

  function Samples(rows: seq<Row>): seq<Sample> {
    if rows == [] then []
    else if rows[|rows| - 1].SampleRow? then Samples(rows[..|rows| - 1]) + [rows[|rows| - 1].sample]
    else Samples(rows[..|rows| - 1])
  }

  function Ends(rows: seq<Row>): seq<Row> {
    if rows == [] then []
    else if rows[|rows| - 1].EndRow? then Ends(rows[..|rows| - 1]) + [rows[|rows| - 1]]
    else Ends(rows[..|rows| - 1])
  }

  function Readies(rows: seq<Row>): seq<int> {
    if rows == [] then []
    else if rows[|rows| - 1].ReadyRow? then Readies(rows[..|rows| - 1]) + [rows[|rows| - 1].at]
    else Readies(rows[..|rows| - 1])
  }

  function CountStarts(rows: seq<Row>): nat {
    if rows == [] then 0 else CountStarts(rows[..|rows| - 1]) + if rows[|rows| - 1].StartRow? then 1 else 0
  }

  /** A usable backlog sample. */
  predicate IsBacklog(s: Sample) {
    s.endpoint.Backlog? && s.snapshot.Some? && !s.error
  }

  function Usable(samples: seq<Sample>): seq<Sample> {
    if samples == [] then []
    else if IsBacklog(samples[|samples| - 1]) then Usable(samples[..|samples| - 1]) + [samples[|samples| - 1]]
    else Usable(samples[..|samples| - 1])
  }

  const BY_END: Sample -> int := (s: Sample) => s.end

  function Backlogs(rows: seq<Row>): seq<Sample> {
    Sort(Usable(Samples(rows)), BY_END)
  }

  // ---- choosing samples ----------------------------------------------------------------------

  datatype Wanted = FullyAccepted | FullyDone | NothingAccepted | NotFullBefore(limit: int)

  predicate IsDone(cfg: Config, c: Snapshot) {
    c.accepted == cfg.count && c.succeeded == cfg.count && c.others == 0
  }

  predicate Meets(cfg: Config, w: Wanted, s: Sample) {
    s.snapshot.Some? &&
    match w
    case FullyAccepted => s.snapshot.value.accepted == cfg.count
    case FullyDone => IsDone(cfg, s.snapshot.value)
    case NothingAccepted => s.snapshot.value.accepted == 0
    case NotFullBefore(limit) => s.end < limit && s.snapshot.value.accepted < cfg.count
  }

  /** `next(row for row in ... if ...)` over the first n rows. */
  function First(cfg: Config, w: Wanted, rows: seq<Sample>, n: nat): (r: Option<nat>)
    requires n <= |rows|
    ensures r.Some? ==> r.value < n && Meets(cfg, w, rows[r.value])
    ensures r.Some? ==> forall j :: 0 <= j < r.value ==> !Meets(cfg, w, rows[j])
    ensures r.None? ==> forall j :: 0 <= j < n ==> !Meets(cfg, w, rows[j])
  {
    if n == 0 then None
    else
      var r := First(cfg, w, rows, n - 1);
      if r.None? && Meets(cfg, w, rows[n - 1]) then Some(n - 1) else r
  }

  /** `next(row for row in reversed(...) if ...)` over the first n rows. */
  function Last(cfg: Config, w: Wanted, rows: seq<Sample>, n: nat): (r: Option<nat>)
    requires n <= |rows|
    ensures r.Some? ==> r.value < n && Meets(cfg, w, rows[r.value])
    ensures r.Some? ==> forall j :: r.value < j < n ==> !Meets(cfg, w, rows[j])
    ensures r.None? ==> forall j :: 0 <= j < n ==> !Meets(cfg, w, rows[j])
  {
    if n == 0 then None
    else if Meets(cfg, w, rows[n - 1]) then Some(n - 1)
    else Last(cfg, w, rows, n - 1)
  }

  function Pick(rows: seq<Sample>, r: Option<nat>): Option<Sample>
    requires r.Some? ==> r.value < |rows|
  {
    if r.Some? then Some(rows[r.value]) else None
  }

  function Accepted(cfg: Config, b: seq<Sample>): Option<Sample> {
    Pick(b, First(cfg, FullyAccepted, b, |b|))
  }

  function Done(cfg: Config, b: seq<Sample>): Option<Sample> {
    Pick(b, First(cfg, FullyDone, b, |b|))
  }

  function FirstZero(cfg: Config, b: seq<Sample>): Option<Sample> {
    Pick(b, First(cfg, NothingAccepted, b, |b|))
  }

  function Previous(cfg: Config, b: seq<Sample>): Option<Sample> {
    match Accepted(cfg, b)
    case None => None
    case Some(a) => Pick(b, Last(cfg, NotFullBefore(a.end), b, |b|))
  }

  // ---- latency groups ------------------------------------------------------------------------

  datatype Group = Baseline | Load | Post

  predicate InGroup(s: Sample, e: Endpoint, g: Group, ready: Option<int>, sender: Option<int>, done: Option<Sample>) {
    && s.endpoint == e && s.status == 200 && !s.error
    && match g
       case Baseline => ready.Some? && s.end <= ready.value
       case Load => sender.Some? && done.Some? && sender.value <= s.begin <= done.value.end
       case Post => done.Some? && s.begin > done.value.end
  }

  function Elapsed(samples: seq<Sample>, e: Endpoint, g: Group, ready: Option<int>, sender: Option<int>,
                   done: Option<Sample>): seq<int>
  {
    if samples == [] then []
    else
      var front, s := Elapsed(samples[..|samples| - 1], e, g, ready, sender, done), samples[|samples| - 1];
      if InGroup(s, e, g, ready, sender, done) then front + [s.end - s.begin] else front
  }

  /** `max(500.0, idle95 * 2)` milliseconds */
  function Limit(baseline: seq<int>): int
    requires baseline != []
  {
    if 2 * Percentile95(baseline) > 500 * 1_000_000 then 2 * Percentile95(baseline) else 500 * 1_000_000
  }

  predicate TooSlow(values: seq<int>, baseline: seq<int>) {
    baseline != [] && values != [] && Percentile95(values) > Limit(baseline)
  }

  // ---- each failure ---------------------------------------------------------------------------

  function CountSlot(samples: seq<Sample>, e: Endpoint, slot: nat): nat {
    if samples == [] then 0
    else CountSlot(samples[..|samples| - 1], e, slot)
         + if samples[|samples| - 1].endpoint == e && samples[|samples| - 1].slot == slot then 1 else 0
  }

  /** Every endpoint was sampled once in each slot, and nothing else was. */
  predicate Covered(samples: seq<Sample>, slots: nat) {
    && (forall e, slot: nat :: slot < slots ==> CountSlot(samples, e, slot) == 1)
    && (forall i :: 0 <= i < |samples| ==> samples[i].slot < slots)
  }

  predicate OnTime(cfg: Config, s: Sample) {
    s.scheduled <= s.begin < s.scheduled + NS && s.begin <= s.end <= s.begin + cfg.timeoutSeconds * NS
  }

  /** What the interval test needs. */
  datatype Found = Found(accepted: Option<Sample>, previous: Option<Sample>, done: Option<Sample>, zero: Option<Sample>,
                         ready: Option<int>)

  function Search(cfg: Config, rows: seq<Row>): Found {
    var b, readies := Backlogs(rows), Readies(rows);
    Found(Accepted(cfg, b), Previous(cfg, b), Done(cfg, b), FirstZero(cfg, b),
          if |readies| == 1 then Some(readies[0]) else None)
  }

  predicate Timed(f: Found, sender: Option<int>) {
    f.accepted.Some? && f.previous.Some? && f.done.Some? && f.ready.Some? && sender.Some?
  }

  predicate SenderOutOfOrder(f: Found, sender: Option<int>) {
    Timed(f, sender) &&
      (sender.value < f.ready.value || f.accepted.value.end < sender.value || f.done.value.end < sender.value)
  }

  /** Acceptance over 60 s after the first request, or completion over 600 s after acceptance. */
  predicate OverBound(f: Found, sender: Option<int>) {
    Timed(f, sender) && !SenderOutOfOrder(f, sender) &&
      (f.accepted.value.end - sender.value > 60 * NS || f.done.value.end - f.previous.value.begin > 600 * NS)
  }

  predicate Fails(cfg: Config, rows: seq<Row>, sender: Option<int>, code: Code) {
    var samples, b, f, ends := Samples(rows), Backlogs(rows), Search(cfg, rows), Ends(rows);
    match code
    case LifecycleIncomplete => CountStarts(rows) != 1 || |ends| != 1 || |Readies(rows)| != 1
    case ProducerEvidenceMissing => sender.None?
    case SlotsMissed => exists i :: 0 <= i < |rows| && rows[i].MissedRow?
    case RequestFailed =>
      exists i :: 0 <= i < |samples| && (samples[i].status != 200 || samples[i].timeout || samples[i].error)
    case CoverageIncomplete => ends != [] && ends[0].EndRow? && !Covered(samples, ends[0].slots)
    case NotPostDrain => ends != [] && ends[0].EndRow? && (!ends[0].reason.PostDrainComplete? || ends[0].peak > 3)
    case TimeBudgetInvalid => exists i :: 0 <= i < |samples| && !OnTime(cfg, samples[i])
    case BindingMismatch => exists i :: 0 <= i < |b| && b[i].snapshot.Some? && !b[i].snapshot.value.bound
    case IntervalUnknown =>
      f.accepted.None? || f.done.None? || f.previous.None? || f.zero.None? || f.ready.None?
      || f.zero.value.end > f.ready.value
    case CountExceeded => exists i :: 0 <= i < |b| && b[i].snapshot.Some? && b[i].snapshot.value.accepted > cfg.count
    case AcceptedRegressed =>
      exists i :: 0 < i < |b| && b[i].snapshot.Some? && b[i - 1].snapshot.Some?
                  && b[i].snapshot.value.accepted < b[i - 1].snapshot.value.accepted
    case BusinessRegressed =>
      f.done.Some? && exists i :: 0 <= i < |b| && b[i].end > f.done.value.end && b[i].snapshot.Some?
                                  && (b[i].snapshot.value.succeeded != cfg.count || b[i].snapshot.value.others != 0)
    case SenderOrderInvalid => SenderOutOfOrder(f, sender)
    case BoundExceeded => OverBound(f, sender)
    case PhaseSamplesMissing => exists e: Endpoint :: PhaseMissing(cfg, samples, e, f, sender)
    case PercentileExceeded => exists e: Endpoint :: Slow(samples, e, f, sender)
    case PostDrainNotObserved => exists e: Endpoint :: DrainUnseen(cfg, samples, e, f)
  }

  predicate PhaseMissing(cfg: Config, samples: seq<Sample>, e: Endpoint, f: Found, sender: Option<int>) {
    || |Elapsed(samples, e, Baseline, f.ready, sender, f.done)| < cfg.baselineSamples
    || Elapsed(samples, e, Load, f.ready, sender, f.done) == []
    || Elapsed(samples, e, Post, f.ready, sender, f.done) == []
  }

  predicate Slow(samples: seq<Sample>, e: Endpoint, f: Found, sender: Option<int>) {
    var baseline := Elapsed(samples, e, Baseline, f.ready, sender, f.done);
    || TooSlow(Elapsed(samples, e, Load, f.ready, sender, f.done), baseline)
    || TooSlow(Elapsed(samples, e, Post, f.ready, sender, f.done), baseline)
  }

  predicate DrainUnseen(cfg: Config, samples: seq<Sample>, e: Endpoint, f: Found) {
    f.done.Some? && !exists i :: 0 <= i < |samples| && samples[i].endpoint == e && samples[i].status == 200
                                 && !samples[i].error && samples[i].end >= f.done.value.end + cfg.postDrainSeconds * NS
  }

  // ---- the program ---------------------------------------------------------------------------

  datatype Timing = Timing(lower: int, upper: int, doneUpper: int, acceptanceUpper: int, drainUpper: int)

  method FindFirst(cfg: Config, w: Wanted, rows: seq<Sample>) returns (r: Option<nat>)
    ensures r == First(cfg, w, rows, |rows|)
  {
    for i := 0 to |rows|
      invariant First(cfg, w, rows, i) == None
    {
      if Meets(cfg, w, rows[i]) {
        FirstStays(cfg, w, rows, i + 1, |rows|);
        return Some(i);
      }
    }
    return None;
  }

  lemma {:induction false} FirstStays(cfg: Config, w: Wanted, rows: seq<Sample>, m: nat, n: nat)
    requires m <= n <= |rows| && First(cfg, w, rows, m).Some?
    ensures First(cfg, w, rows, n) == First(cfg, w, rows, m)
    decreases n
  {
    if m < n { FirstStays(cfg, w, rows, m, n - 1); }
  }

  method FindLast(cfg: Config, w: Wanted, rows: seq<Sample>) returns (r: Option<nat>)
    ensures r == Last(cfg, w, rows, |rows|)
  {
    var i: nat := |rows|;
    while i > 0
      invariant i <= |rows| && Last(cfg, w, rows, i) == Last(cfg, w, rows, |rows|)
    {
      if Meets(cfg, w, rows[i - 1]) {
        return Some(i - 1);
      }
      i := i - 1;
    }
    return None;
  }

  function SlotKeys(slots: nat): set<(Endpoint, nat)> {
    set e: Endpoint, slot: nat | slot < slots :: (e, slot)
  }

  /** The counter of (endpoint, slot) pairs against the slots of the end row. */
  method CheckCoverage(samples: seq<Sample>, slots: nat) returns (ok: bool)
    ensures ok <==> Covered(samples, slots)
  {
    var counter: map<(Endpoint, nat), nat> := map[];
    for i := 0 to |samples|
      invariant forall e: Endpoint, slot: nat :: (e, slot) in counter <==> CountSlot(samples[..i], e, slot) > 0
      invariant forall e: Endpoint, slot: nat :: (e, slot) in counter ==>
                  counter[(e, slot)] == CountSlot(samples[..i], e, slot)
    {
      var k := (samples[i].endpoint, samples[i].slot);
      assert samples[..i + 1][..i] == samples[..i];
      counter := counter[k := (if k in counter then counter[k] else 0) + 1];
    }
    assert samples[..|samples|] == samples;
    ok := counter.Keys == SlotKeys(slots) && forall k :: k in counter.Keys ==> counter[k] == 1;
    CoverageMeans(samples, slots, counter);
  }

  lemma {:induction false} CoverageMeans(samples: seq<Sample>, slots: nat, counter: map<(Endpoint, nat), nat>)
    requires forall e: Endpoint, slot: nat :: (e, slot) in counter <==> CountSlot(samples, e, slot) > 0
    requires forall e: Endpoint, slot: nat :: (e, slot) in counter ==> counter[(e, slot)] == CountSlot(samples, e, slot)
    ensures Covered(samples, slots) <==>
            counter.Keys == SlotKeys(slots) && forall k :: k in counter.Keys ==> counter[k] == 1
  {
    forall i | 0 <= i < |samples| ensures CountSlot(samples, samples[i].endpoint, samples[i].slot) > 0 {
      SampleCounts(samples, i);
    }
    forall e, slot: nat | CountSlot(samples, e, slot) > 0
      ensures exists i :: 0 <= i < |samples| && samples[i].slot == slot
    {
      var i := CountedSample(samples, e, slot);
    }
    if Covered(samples, slots) {
      forall k | k in counter.Keys ensures k in SlotKeys(slots) {
        assert CountSlot(samples, k.0, k.1) > 0;
      }
      forall k | k in SlotKeys(slots) ensures k in counter.Keys {
        assert CountSlot(samples, k.0, k.1) == 1;
      }
      assert counter.Keys == SlotKeys(slots);
    }
  }

  lemma {:induction false} SampleCounts(samples: seq<Sample>, i: nat)
    requires i < |samples|
    ensures CountSlot(samples, samples[i].endpoint, samples[i].slot) > 0
  {
    if i < |samples| - 1 { SampleCounts(samples[..|samples| - 1], i); }
  }

  lemma {:induction false} CountedSample(samples: seq<Sample>, e: Endpoint, slot: nat) returns (i: nat)
    requires CountSlot(samples, e, slot) > 0
    ensures i < |samples| && samples[i].endpoint == e && samples[i].slot == slot
  {
    if samples[|samples| - 1].endpoint == e && samples[|samples| - 1].slot == slot {
      i := |samples| - 1;
    } else {
      i := CountedSample(samples[..|samples| - 1], e, slot);
    }
  }

  /** The reported failures, and the bounds where they are known. */
  datatype Verdict = Verdict(passed: bool, failures: set<Code>, timing: Option<Timing>)

  function Evaluate(cfg: Config, rows: seq<Row>, sender: Option<int>): Verdict {
    var failures := set code: Code | Fails(cfg, rows, sender, code);
    var f := Search(cfg, rows);
    Verdict(failures == {}, failures,
            if Timed(f, sender) && !SenderOutOfOrder(f, sender)
            then Some(Timing(f.previous.value.begin, f.accepted.value.end, f.done.value.end,
                             f.accepted.value.end - sender.value, f.done.value.end - f.previous.value.begin))
            else None)
  }

  lemma {:induction false} PassedHasNo(cfg: Config, rows: seq<Row>, sender: Option<int>, code: Code)
    requires Evaluate(cfg, rows, sender).passed
    ensures !Fails(cfg, rows, sender, code)
  {
    assert code !in Evaluate(cfg, rows, sender).failures;
  }

  // ---- soundness -----------------------------------------------------------------------------

  /** What really happened: the accepted count and whether all was done, at each instant. */
  datatype Truth = Truth(accepted: int -> int, done: int -> bool)

  ghost predicate Monotone(truth: Truth) {
    forall t, u :: t <= u ==> truth.accepted(t) <= truth.accepted(u)
  }

  /** The response shows the state at some instant between request and response. */
  ghost predicate Reflects(truth: Truth, cfg: Config, s: Sample) {
    s.snapshot.Some? ==>
      exists q :: s.begin <= q <= s.end && truth.accepted(q) == s.snapshot.value.accepted
                  && (truth.done(q) <==> IsDone(cfg, s.snapshot.value))
  }

  ghost predicate AllReflect(truth: Truth, cfg: Config, rows: seq<Row>) {
    forall i :: 0 <= i < |Backlogs(rows)| ==> Reflects(truth, cfg, Backlogs(rows)[i])
  }

  /** The first instant at which everything was accepted. */
  ghost predicate AcceptedAt(truth: Truth, cfg: Config, t: int) {
    truth.accepted(t) >= cfg.count && truth.accepted(t - 1) < cfg.count
  }

  lemma {:induction false} FindInstant(truth: Truth, cfg: Config, low: int, high: int) returns (t: int)
    requires low <= high && truth.accepted(low) < cfg.count <= truth.accepted(high)
    ensures low < t <= high && AcceptedAt(truth, cfg, t)
    decreases high - low
  {
    if truth.accepted(high - 1) < cfg.count {
      t := high;
    } else {
      t := FindInstant(truth, cfg, low, high - 1);
    }
  }

  lemma {:induction false} InstantBetween(truth: Truth, cfg: Config, t: int, low: int, high: int)
    requires Monotone(truth) && AcceptedAt(truth, cfg, t)
    requires truth.accepted(low) < cfg.count <= truth.accepted(high)
    ensures low < t <= high
  {
    assert t <= low ==> truth.accepted(t) <= truth.accepted(low);
    assert high <= t - 1 ==> truth.accepted(high) <= truth.accepted(t - 1);
  }

  /**
   A pass is sound: acceptance really happened, at one instant, inside the reported interval and
   at most 60 s after the first request, and everything was done at most 600 s after it.
   */
  lemma {:induction false} PassIsSound(cfg: Config, rows: seq<Row>, sender: int, truth: Truth)
    returns (t: int, done: int)
    requires Evaluate(cfg, rows, Some(sender)).passed
    requires Monotone(truth) && AllReflect(truth, cfg, rows)
    ensures Evaluate(cfg, rows, Some(sender)).timing.Some?
    ensures var timing := Evaluate(cfg, rows, Some(sender)).timing.value;
            && AcceptedAt(truth, cfg, t) && (forall u :: AcceptedAt(truth, cfg, u) ==> u == t)
            && timing.lower < t <= timing.upper
            && t - sender <= timing.acceptanceUpper <= 60 * NS
            && truth.done(done) && t <= done <= timing.doneUpper
            && done - t <= timing.drainUpper <= 600 * NS
  {
    PassedHasNo(cfg, rows, Some(sender), IntervalUnknown);
    PassedHasNo(cfg, rows, Some(sender), SenderOrderInvalid);
    PassedHasNo(cfg, rows, Some(sender), BoundExceeded);
    var b, f := Backlogs(rows), Search(cfg, rows);
    var qa: int := Instant(truth, cfg, f.accepted.value, b, First(cfg, FullyAccepted, b, |b|).value);
    var p := Last(cfg, NotFullBefore(f.accepted.value.end), b, |b|);
    var qp: int := Instant(truth, cfg, f.previous.value, b, p.value);
    var qd: int := Instant(truth, cfg, f.done.value, b, First(cfg, FullyDone, b, |b|).value);
    assert qa <= qp ==> truth.accepted(qa) <= truth.accepted(qp);
    t := FindInstant(truth, cfg, qp, qa);
    InstantBetween(truth, cfg, t, qp, qa);
    InstantBetween(truth, cfg, t, qp, qd);
    forall u | AcceptedAt(truth, cfg, u) ensures u == t {
      assert u <= t - 1 ==> truth.accepted(u) <= truth.accepted(t - 1);
      assert t <= u - 1 ==> truth.accepted(t) <= truth.accepted(u - 1);
    }
    done := qd;
  }

  lemma {:induction false} Instant(truth: Truth, cfg: Config, s: Sample, b: seq<Sample>, i: nat) returns (q: int)
    requires i < |b| && b[i] == s && s.snapshot.Some?
    requires forall j :: 0 <= j < |b| ==> Reflects(truth, cfg, b[j])
    ensures s.begin <= q <= s.end && truth.accepted(q) == s.snapshot.value.accepted
    ensures truth.done(q) <==> IsDone(cfg, s.snapshot.value)
  {
    assert Reflects(truth, cfg, b[i]);
    q :| s.begin <= q <= s.end && truth.accepted(q) == s.snapshot.value.accepted
         && (truth.done(q) <==> IsDone(cfg, s.snapshot.value));
  }
}
