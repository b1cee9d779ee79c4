/**
 The HTTP sender of the ingress workload (tools/ingress/workload.py, HttpSender) as a transition
 system. A step is what one coroutine does between two awaits; the clock moves only between
 steps. Times are in microseconds.
 */
module SenderSystem {
  import opened Wrappers
  import RetryAfter

  const SECOND := 1_000_000
  const SPACING := 2_000 // 500 follow-up starts a second
  const MAX_POSTS := 20
  const HTTP_CONCURRENCY := 128

  datatype Stage = Post | Query

  datatype Verdict = Accepted | PermanentRejection | Exhausted

  /** An entry of `id_outcomes`; the receipt is reported only when accepted. */
  datatype Outcome = Outcome(attempts: nat, receiptId: Option<int>, verdict: Verdict)

  /** What a worker hands back for an item. */
  datatype Result = Done(outcome: Outcome) | Again(stage: Stage, due: int)

  /** Where a worker stands with an active item. */
  datatype Phase =
    | Queued
    | AwaitRound  // follow-ups wait for every first POST to be accounted for
    | AwaitLock   // ... and for the single pacing lock
    | Pacing      // ... which its owner holds until the next start is due
    | AwaitSlot
    | InFlight
    | Finished(result: Result)

  datatype Task = Task(stage: Stage, phase: Phase)

  datatype Item = Item(attempts: nat, receiptId: Option<int>, delay: int)

  datatype Entry = Entry(due: int, stage: Stage)

  datatype Counts = Counts(posts: nat, queries: nat, accepted: nat, rejected: nat, unknown: nat, permanent: nat,
                           badRetryAfter: nat, firstNotSent: nat, firstAccepted: nat, firstRejected: nat,
                           firstUnknown: nat, firstPermanent: nat)

  /** The receipt part of a response body; None when it is not a JSON object. */
  datatype Body = Body(receiptId: Option<int>, statusKnown: bool, urlFits: bool)

  /** What the transport returns; NoReply stands for any exception, timeouts included. */
  datatype Reply = NoReply | Reply(status: int, body: Option<Body>, retryAfter: Option<string>)

  /**
   `sent` (POSTs started per item) and `follows` (start times of retries and queries) are
   history; the other fields are the sender's own.
   */
  datatype Sender = Sender(
    now: int, firstDeadline: int, deadline: int, concurrency: nat,
    items: seq<Item>, outcomes: seq<Option<Outcome>>, cursor: nat,
    active: map<nat, Task>, deferred: map<nat, Entry>,
    accounted: set<nat>, firstRoundDone: bool, firstStarts: seq<int>,
    slots: nat, lockOwner: Option<nat>, nextStart: Option<int>,
    counts: Counts, sent: seq<nat>, follows: seq<int>)

  function Init(start: int, count: nat, concurrency: nat): Sender {
    Sender(start, start + 5 * SECOND, start + 60 * SECOND, concurrency,
           seq(count, _ => Item(0, None, 1)), seq(count, _ => None), 0,
           map[], map[], {}, false, [], concurrency, None, None,
           Counts(0, 0, 0, 0, 0, 0, 0, 0, 0, 0, 0, 0), seq(count, _ => 0), [])
  }

  // ---- reading a response --------------------------------------------------------------------

  /** _receipt */
  function ReceiptOf(reply: Reply): (Option<int>, bool)
    requires reply.Reply?
  {
    if reply.status != 200 && reply.status != 202 then (None, false)
    else if reply.body.None? || reply.body.value.receiptId.None? || reply.body.value.receiptId.value < 1 then
      (None, false)
    else (reply.body.value.receiptId, reply.body.value.statusKnown && reply.body.value.urlFits)
  }

  datatype Initial = InitAccepted | InitRejected | InitPermanent | InitUnknown

  function InitialOf(reply: Reply): Initial {
    if reply.NoReply? then InitUnknown
    else if reply.status == 200 || reply.status == 202 then
      if ReceiptOf(reply).1 then InitAccepted else InitUnknown
    else if reply.status == 429 || reply.status == 503 then
      // A header too long for `int` raises before the rejection is counted.
      if RetryAfter.Seconds(reply.retryAfter).Some? then InitRejected else InitUnknown
    else InitPermanent
  }

  /** What a throttled reply's header says, if it can be read at all. */
  function Hint(reply: Reply): Option<(int, bool)> {
    if reply.Reply? && (reply.status == 429 || reply.status == 503) then RetryAfter.Seconds(reply.retryAfter) else None
  }

  function ReceiptId(reply: Reply): Option<int> {
    if reply.NoReply? then None else ReceiptOf(reply).0
  }

  function DelayAfter(reply: Reply, otherwise: int): int {
    if Hint(reply).Some? then Hint(reply).value.0 else otherwise
  }

  function BadRetryAfter(reply: Reply): nat {
    if Hint(reply).Some? && !Hint(reply).value.1 then 1 else 0
  }

  // ---- results -------------------------------------------------------------------------------

  function Reported(item: Item, verdict: Verdict): Outcome {
    Outcome(item.attempts, if verdict.Accepted? then item.receiptId else None, verdict)
  }

  /** _retry */
  function RetryResult(s: Sender, item: Item): Result {
    var due := s.now + item.delay * SECOND;
    if item.attempts >= MAX_POSTS || due >= s.deadline then Done(Reported(item, Exhausted)) else Again(Post, due)
  }

  function AfterPost(item: Item, reply: Reply): Item {
    Item(item.attempts + 1, ReceiptId(reply), DelayAfter(reply, 1))
  }

  function PostResult(s: Sender, item: Item, reply: Reply): Result {
    match InitialOf(reply)
    case InitAccepted => Done(Reported(item, Accepted))
    case InitPermanent => Done(Reported(item, PermanentRejection))
    case InitRejected => RetryResult(s, item)
    case InitUnknown => if item.receiptId.Some? then Again(Query, s.now) else RetryResult(s, item)
  }

  function AfterQuery(item: Item, reply: Reply): Item {
    item.(delay := DelayAfter(reply, item.delay))
  }

  predicate QueryAccepts(item: Item, reply: Reply) {
    reply.Reply? && reply.status == 200 && ReceiptOf(reply).1 && ReceiptOf(reply).0 == item.receiptId
  }

  function QueryResult(s: Sender, item: Item, reply: Reply): Result {
    if QueryAccepts(item, reply) then Done(Reported(item, Accepted)) else RetryResult(s, item)
  }

  function CountPost(c: Counts, first: bool, reply: Reply): Counts {
    var initial := InitialOf(reply);
    c.(accepted := c.accepted + if initial.InitAccepted? then 1 else 0,
       rejected := c.rejected + if initial.InitRejected? then 1 else 0,
       unknown := c.unknown + if initial.InitUnknown? then 1 else 0,
       permanent := c.permanent + if initial.InitPermanent? then 1 else 0,
       badRetryAfter := c.badRetryAfter + BadRetryAfter(reply),
       firstAccepted := c.firstAccepted + if first && initial.InitAccepted? then 1 else 0,
       firstRejected := c.firstRejected + if first && initial.InitRejected? then 1 else 0,
       firstUnknown := c.firstUnknown + if first && initial.InitUnknown? then 1 else 0,
       firstPermanent := c.firstPermanent + if first && initial.InitPermanent? then 1 else 0)
  }

  function CountQuery(c: Counts, item: Item, reply: Reply): Counts {
    c.(accepted := c.accepted + if QueryAccepts(item, reply) then 1 else 0,
       badRetryAfter := c.badRetryAfter + BadRetryAfter(reply))
  }

  // ---- the run loop --------------------------------------------------------------------------

  /** _mark_first without a start, for a set of items. */
  function MarkUnsent(s: Sender, unsent: set<nat>): Sender {
    s.(accounted := s.accounted + unsent,
       counts := s.counts.(firstNotSent := s.counts.firstNotSent + |unsent - s.accounted|),
       firstRoundDone := s.firstRoundDone || (unsent - s.accounted != {} && |s.accounted + unsent| == |s.items|))
  }

  predicate CanCutFirst(s: Sender) {
    s.now >= s.firstDeadline && !s.firstRoundDone && s.cursor <= |s.items| == |s.outcomes|
  }

  function Unsent(s: Sender): set<nat> {
    set i: nat {:trigger s.items[i]} | s.cursor <= i < |s.items|
  }

  /** The first deadline has passed: what was not sent never will be. */
  function CutFirst(s: Sender): Sender
    requires CanCutFirst(s)
  {
    MarkUnsent(s, Unsent(s) + s.active.Keys).(
      outcomes := seq(|s.outcomes|, i requires 0 <= i < |s.outcomes| =>
                        if i >= s.cursor then Some(Reported(s.items[i], Exhausted)) else s.outcomes[i]),
      cursor := |s.items|)
  }

  predicate CanFlush(s: Sender) {
    s.now >= s.deadline && s.deferred != map[] && |s.outcomes| == |s.items|
  }

  /** The deadline has passed: nothing deferred is tried again. */
  function Flush(s: Sender): Sender
    requires CanFlush(s)
  {
    s.(outcomes := seq(|s.outcomes|, i requires 0 <= i < |s.outcomes| =>
                         if i in s.deferred then Some(Reported(s.items[i], Exhausted)) else s.outcomes[i]),
       deferred := map[])
  }

  predicate CanSendNext(s: Sender) {
    |s.active| < s.concurrency && s.now < s.deadline && s.cursor < |s.items|
  }

  function SendNext(s: Sender): Sender {
    s.(active := s.active[s.cursor := Task(Post, Queued)], cursor := s.cursor + 1)
  }

  /** The heap's order: due time, then index. */
  predicate IsTop(s: Sender, i: nat) {
    i in s.deferred &&
    forall j :: j in s.deferred ==>
      s.deferred[i].due < s.deferred[j].due || (s.deferred[i].due == s.deferred[j].due && i <= j)
  }

  predicate CanResend(s: Sender, i: nat) {
    |s.active| < s.concurrency && s.now < s.deadline && s.cursor >= |s.items| && s.firstRoundDone
    && IsTop(s, i) && s.deferred[i].due <= s.now
  }

  function Resend(s: Sender, i: nat): Sender
    requires i in s.deferred
  {
    s.(active := s.active[i := Task(s.deferred[i].stage, Queued)], deferred := s.deferred - {i})
  }

  predicate CanCollect(s: Sender, i: nat) {
    i in s.active && s.active[i].phase.Finished? && i < |s.outcomes|
  }

  function Collect(s: Sender, i: nat): Sender
    requires CanCollect(s, i)
  {
    var result := s.active[i].phase.result;
    s.(active := s.active - {i},
       outcomes := if result.Done? then s.outcomes[i := Some(result.outcome)] else s.outcomes,
       deferred := if result.Again? then s.deferred[i := Entry(result.due, result.stage)] else s.deferred)
  }

  // ---- the workers ---------------------------------------------------------------------------

  predicate Busy(s: Sender, i: nat) {
    i in s.active && i < |s.items| && i < |s.sent|
  }

  predicate IsFirst(s: Sender, i: nat)
    requires Busy(s, i)
  {
    s.active[i].stage.Post? && s.items[i].attempts == 0
  }

  function DeadlineOf(s: Sender, i: nat): int
    requires Busy(s, i)
  {
    if IsFirst(s, i) && s.firstDeadline < s.deadline then s.firstDeadline else s.deadline
  }

  function Move(s: Sender, i: nat, phase: Phase): Sender
    requires i in s.active
  {
    s.(active := s.active[i := s.active[i].(phase := phase)])
  }

  predicate CanBegin(s: Sender, i: nat) {
    Busy(s, i) && s.active[i].phase.Queued? && s.now < s.deadline
  }

  function Begin(s: Sender, i: nat): Sender
    requires CanBegin(s, i)
  {
    Move(s, i, if IsFirst(s, i) then AwaitSlot else AwaitRound)
  }

  predicate CanPassRound(s: Sender, i: nat) {
    Busy(s, i) && s.active[i].phase.AwaitRound? && s.firstRoundDone
  }

  predicate CanLock(s: Sender, i: nat) {
    Busy(s, i) && s.active[i].phase.AwaitLock? && s.lockOwner.None?
  }

  function Lock(s: Sender, i: nat): Sender
    requires CanLock(s, i)
  {
    Move(s, i, Pacing).(lockOwner := Some(i))
  }

  predicate CanPace(s: Sender, i: nat) {
    Busy(s, i) && s.active[i].phase.Pacing? && (s.nextStart.None? || s.nextStart.value <= s.now)
  }

  predicate CanStart(s: Sender, i: nat) {
    Busy(s, i) && s.active[i].phase.AwaitSlot? && s.slots > 0 && s.now < DeadlineOf(s, i)
  }

  function CountStart(c: Counts, stage: Stage): Counts {
    c.(posts := c.posts + if stage.Post? then 1 else 0, queries := c.queries + if stage.Query? then 1 else 0)
  }

  /** A request is admitted and sent; a first POST is accounted for here. */
  function Start(s: Sender, i: nat): Sender
    requires CanStart(s, i)
  {
    var first := IsFirst(s, i);
    Move(s, i, InFlight).(
      slots := s.slots - 1,
      lockOwner := if first then s.lockOwner else None,
      nextStart := if first then s.nextStart else Some(s.now + SPACING),
      accounted := if first then s.accounted + {i} else s.accounted,
      firstRoundDone := s.firstRoundDone || (first && i !in s.accounted && |s.accounted + {i}| == |s.items|),
      firstStarts := if first && i !in s.accounted then s.firstStarts + [s.now] else s.firstStarts,
      counts := CountStart(s.counts, s.active[i].stage),
      sent := if s.active[i].stage.Post? then s.sent[i := s.sent[i] + 1] else s.sent,
      follows := if first then s.follows else s.follows + [s.now])
  }

  predicate CanRespond(s: Sender, i: nat) {
    Busy(s, i) && s.active[i].phase.InFlight?
  }

  /** The rest of _post or _query once the transport has returned or failed. */
  function Respond(s: Sender, i: nat, reply: Reply): Sender
    requires CanRespond(s, i)
  {
    var post, item0 := s.active[i].stage.Post?, s.items[i];
    var item := if post then AfterPost(item0, reply) else AfterQuery(item0, reply);
    Move(s, i, Finished(if post then PostResult(s, item, reply) else QueryResult(s, item, reply))).(
      slots := s.slots + 1,
      items := s.items[i := item],
      counts := if post then CountPost(s.counts, item0.attempts == 0, reply) else CountQuery(s.counts, item0, reply))
  }

  predicate CanGiveUp(s: Sender, i: nat) {
    && Busy(s, i)
    && match s.active[i].phase
       case Queued | AwaitRound | AwaitLock => s.now >= s.deadline
       case AwaitSlot => s.now >= DeadlineOf(s, i)
       case Pacing => s.now >= s.deadline || (s.nextStart.Some? && s.nextStart.value >= s.deadline)
       case InFlight | Finished(_) => false
  }

  /** A request that could not start in time. A query falls back to a retry. */
  function GiveUp(s: Sender, i: nat): Sender
    requires CanGiveUp(s, i)
  {
    var result := if s.active[i].stage.Post? then Done(Reported(s.items[i], Exhausted)) else RetryResult(s, s.items[i]);
    MarkUnsent(Move(s, i, Finished(result)).(lockOwner := if s.lockOwner == Some(i) then None else s.lockOwner),
               if IsFirst(s, i) then {i} else {})
  }

  // ---- runs ----------------------------------------------------------------------------------

  datatype Action =
    | Wait(until: int)
    | CutFirstRound | FlushDeferred | Send | SendDeferred(i: nat) | Take(i: nat)
    | BeginWork(i: nat) | PassRound(i: nat) | TakeLock(i: nat) | Pace(i: nat) | StartRequest(i: nat)
    | Answer(i: nat, reply: Reply) | Abandon(i: nat)

  predicate Enabled(s: Sender, a: Action) {
    match a
    case Wait(until) => until >= s.now
    case CutFirstRound => CanCutFirst(s)
    case FlushDeferred => CanFlush(s)
    case Send => CanSendNext(s)
    case SendDeferred(i) => CanResend(s, i)
    case Take(i) => CanCollect(s, i)
    case BeginWork(i) => CanBegin(s, i)
    case PassRound(i) => CanPassRound(s, i)
    case TakeLock(i) => CanLock(s, i)
    case Pace(i) => CanPace(s, i)
    case StartRequest(i) => CanStart(s, i)
    case Answer(i, _) => CanRespond(s, i)
    case Abandon(i) => CanGiveUp(s, i)
  }

  function Next(s: Sender, a: Action): Sender
    requires Enabled(s, a)
  {
    match a
    case Wait(until) => s.(now := until)
    case CutFirstRound => CutFirst(s)
    case FlushDeferred => Flush(s)
    case Send => SendNext(s)
    case SendDeferred(i) => Resend(s, i)
    case Take(i) => Collect(s, i)
    case BeginWork(i) => Begin(s, i)
    case PassRound(i) => Move(s, i, AwaitLock)
    case TakeLock(i) => Lock(s, i)
    case Pace(i) => Move(s, i, AwaitSlot)
    case StartRequest(i) => Start(s, i)
    case Answer(i, reply) => Respond(s, i, reply)
    case Abandon(i) => GiveUp(s, i)
  }

  /** The state after some actions; one that is not enabled is skipped. */
  function RunFrom(s: Sender, actions: seq<Action>): Sender
    decreases |actions|
  {
    if actions == [] then s
    else RunFrom(if Enabled(s, actions[0]) then Next(s, actions[0]) else s, actions[1..])
  }

  /** `while cursor < len(items) or active or deferred` */
  predicate Over(s: Sender) {
    s.cursor >= |s.items| && s.active == map[] && s.deferred == map[]
  }
}
