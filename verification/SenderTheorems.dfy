/** What holds of every run of the HTTP sender, and that every run ends. */
module SenderTheorems {
  import opened Wrappers
  import opened SenderSystem
  import opened SenderSafety

  function Run(start: int, count: nat, concurrency: nat, actions: seq<Action>): Sender {
    RunFrom(Init(start, count, concurrency), actions)
  }

  lemma {:induction false} RunReached(start: int, count: nat, concurrency: nat, actions: seq<Action>)
    requires 1 <= concurrency
    ensures SenderOk(Run(start, count, concurrency, actions))
    ensures var s := Run(start, count, concurrency, actions);
            |s.items| == count && s.concurrency == concurrency && s.deadline == start + 60 * SECOND
            && s.firstDeadline == start + 5 * SECOND
  {
    RunIsOk(Init(start, count, concurrency), actions);
    SettingsKept(Init(start, count, concurrency), actions);
  }

  lemma {:induction false} SettingsKept(s: Sender, actions: seq<Action>)
    ensures var t := RunFrom(s, actions);
            |t.items| == |s.items| && t.concurrency == s.concurrency && t.deadline == s.deadline
            && t.firstDeadline == s.firstDeadline
    decreases |actions|
  {
    if actions != [] {
      SettingsKept(if Enabled(s, actions[0]) then Next(s, actions[0]) else s, actions[1..]);
    }
  }

  // ---- where an item is ----------------------------------------------------------------------

  predicate IsUnsent(s: Sender, i: nat) { s.cursor <= i }

  predicate IsDecided(s: Sender, i: nat)
    requires i < |s.outcomes|
  {
    s.outcomes[i].Some?
  }

  /** Every manifest index is in exactly one of unsent, active, deferred and decided. */
  lemma {:induction false} ExactlyOnePlace(start: int, count: nat, concurrency: nat, actions: seq<Action>, i: nat)
    requires 1 <= concurrency && i < count
    ensures var s := Run(start, count, concurrency, actions);
            i < |s.outcomes|
            && One(IsUnsent(s, i)) + One(i in s.active) + One(i in s.deferred) + One(IsDecided(s, i)) == 1
  {
    RunReached(start, count, concurrency, actions);
    assert PlaceOk(Run(start, count, concurrency, actions), i);
  }

  /** No identity is POSTed more than twenty times. */
  lemma {:induction false} AtMostTwentyPosts(start: int, count: nat, concurrency: nat, actions: seq<Action>, i: nat)
    requires 1 <= concurrency && i < count
    ensures var s := Run(start, count, concurrency, actions);
            i < |s.sent| && s.sent[i] <= MAX_POSTS
  {
    RunReached(start, count, concurrency, actions);
    assert ItemOk(Run(start, count, concurrency, actions), i);
  }

  /** Requests in flight, and items being worked on, never exceed the configured concurrency. */
  lemma {:induction false} InFlightBounded(start: int, count: nat, concurrency: nat, actions: seq<Action>)
    requires 1 <= concurrency
    ensures var s := Run(start, count, concurrency, actions);
            |Flying(s)| <= concurrency && |s.active| <= concurrency
  {
    RunReached(start, count, concurrency, actions);
  }

  /** What a worker has handed back for an item, or the heap holds for it, to be tried again. */
  function Scheduled(s: Sender, i: nat): Option<Entry> {
    if i in s.deferred then Some(s.deferred[i])
    else if i in s.active && s.active[i].phase.Finished? && s.active[i].phase.result.Again? then
      Some(Entry(s.active[i].phase.result.due, s.active[i].phase.result.stage))
    else None
  }

  /**
   An item that is to be tried again has been POSTed before; it is POSTed again only below twenty
   times and before the deadline, or asked for with the receipt it has; and never more than 30 s
   from now, whatever a Retry-After header says.
   */
  lemma {:induction false} RetriesAreTimely(start: int, count: nat, concurrency: nat, actions: seq<Action>, i: nat)
    requires 1 <= concurrency && i < count
    ensures var s := Run(start, count, concurrency, actions);
            && i < |s.items|
            && (Scheduled(s, i).Some? ==>
                  StageOk(s.items[i], Scheduled(s, i).value.stage)
                  && Timely(s, Scheduled(s, i).value.stage, Scheduled(s, i).value.due))
  {
    RunReached(start, count, concurrency, actions);
    assert ItemOk(Run(start, count, concurrency, actions), i);
  }

  // ---- first round and follow-ups ------------------------------------------------------------

  /**
   A retry or a query starts only once every first POST is accounted for, and a first POST starts
   only before the first deadline.
   */
  lemma {:induction false} FollowUpsWaitForFirsts(start: int, count: nat, concurrency: nat, actions: seq<Action>,
                                                  i: nat)
    requires 1 <= concurrency
    ensures var s := Run(start, count, concurrency, actions);
            CanStart(s, i) ==>
              if IsFirst(s, i) then s.now < start + 5 * SECOND && s.follows == []
              else forall j: nat :: j < count ==> j in s.accounted
  {
    RunReached(start, count, concurrency, actions);
    var s := Run(start, count, concurrency, actions);
    if CanStart(s, i) {
      if IsFirst(s, i) {
        FirstStartIsOpen(s, i);
      } else {
        assert ItemOk(s, i);
        FullRound(s);
      }
    }
  }

  /** In the record of a run no first POST follows a retry or query. */
  lemma {:induction false} FirstsPrecedeFollowUps(start: int, count: nat, concurrency: nat, actions: seq<Action>,
                                                  j: nat, k: nat)
    requires 1 <= concurrency
    ensures var s := Run(start, count, concurrency, actions);
            j < |s.firstStarts| && k < |s.follows| ==>
              s.firstStarts[j] <= s.follows[k] && s.firstStarts[j] < start + 5 * SECOND
  {
    RunReached(start, count, concurrency, actions);
  }

  lemma {:induction false} Spread(s: Sender, j: nat, k: nat)
    requires FollowsOk(s) && j <= k < |s.follows|
    ensures s.follows[k] - s.follows[j] >= (k - j) * SPACING
    decreases k - j
  {
    if j < k {
      Spread(s, j, k - 1);
    }
  }

  /** Any window of w seconds holds at most 500 w + 1 follow-up starts. */
  lemma {:induction false} FollowUpRate(start: int, count: nat, concurrency: nat, actions: seq<Action>,
                                        w: nat, from: int, j: nat, k: nat)
    requires 1 <= concurrency
    ensures var s := Run(start, count, concurrency, actions);
            j <= k < |s.follows| && from <= s.follows[j] && s.follows[k] <= from + w * SECOND ==>
              k - j + 1 <= 500 * w + 1
  {
    RunReached(start, count, concurrency, actions);
    var s := Run(start, count, concurrency, actions);
    if j <= k < |s.follows| {
      Spread(s, j, k);
    }
  }

  // ---- the report ----------------------------------------------------------------------------

  function Total(ns: seq<nat>): nat {
    if ns == [] then 0 else Total(ns[..|ns| - 1]) + ns[|ns| - 1]
  }

  lemma {:induction false} TotalUpdate(ns: seq<nat>, i: nat, n: nat)
    requires i < |ns|
    ensures Total(ns[i := n]) == Total(ns) + n - ns[i]
  {
    var m := ns[i := n];
    if i == |ns| - 1 {
      assert m[..|m| - 1] == ns[..|ns| - 1];
    } else {
      TotalUpdate(ns[..|ns| - 1], i, n);
      assert m[..|m| - 1] == ns[..|ns| - 1][i := n];
    }
  }

  lemma {:induction false} AnswerSendsNothing(s: Sender, i: nat, reply: Reply)
    requires CanRespond(s, i)
    ensures Respond(s, i, reply).counts.posts == s.counts.posts && Respond(s, i, reply).sent == s.sent
  {
  }

  lemma {:induction false} OthersSendNothing(s: Sender, a: Action)
    requires Enabled(s, a) && !a.StartRequest? && !a.Answer?
    ensures Next(s, a).counts.posts == s.counts.posts && Next(s, a).sent == s.sent
  {
    match a
    case Abandon(_) =>
    case CutFirstRound =>
    case _ =>
  }

  lemma {:induction false} StartCounts(s: Sender, i: nat)
    requires CanStart(s, i) && s.counts.posts == Total(s.sent)
    ensures Start(s, i).counts.posts == Total(Start(s, i).sent)
  {
    TotalUpdate(s.sent, i, s.sent[i] + 1);
  }

  lemma {:induction false} PostsCounted(s: Sender, a: Action)
    requires Enabled(s, a) && s.counts.posts == Total(s.sent)
    ensures Next(s, a).counts.posts == Total(Next(s, a).sent)
  {
    if a.StartRequest? {
      StartCounts(s, a.i);
    } else if a.Answer? {
      AnswerSendsNothing(s, a.i, a.reply);
    } else {
      OthersSendNothing(s, a);
    }
  }

  lemma {:induction false} PostsCountedRun(s: Sender, actions: seq<Action>)
    requires SenderOk(s) && s.counts.posts == Total(s.sent)
    ensures RunFrom(s, actions).counts.posts == Total(RunFrom(s, actions).sent)
    decreases |actions|
  {
    if actions != [] {
      if Enabled(s, actions[0]) {
        PostsCounted(s, actions[0]);
        NextKeeps(s, actions[0]);
        PostsCountedRun(Next(s, actions[0]), actions[1..]);
      } else {
        PostsCountedRun(s, actions[1..]);
      }
    }
  }

  lemma {:induction false} TotalBound(ns: seq<nat>, bound: nat)
    requires forall i :: 0 <= i < |ns| ==> ns[i] <= bound
    ensures Total(ns) <= bound * |ns|
  {
    if ns != [] {
      TotalBound(ns[..|ns| - 1], bound);
    }
  }

  lemma {:induction false} TotalZero(count: nat)
    ensures Total(seq(count, _ => 0)) == 0
  {
    var zeros: seq<nat> := seq(count, _ => 0);
    TotalBound(zeros, 0);
  }

  function AcceptedOutcomes(s: Sender): set<nat> {
    set i: nat | i < |s.outcomes| && s.outcomes[i].Some? && s.outcomes[i].value.verdict.Accepted?
  }

  lemma {:induction false} OverIsDecided(s: Sender, i: nat)
    requires SenderOk(s) && Over(s) && i < |s.items|
    ensures s.outcomes[i].Some? && OutcomeOk(s.items[i], s.outcomes[i].value) && i in s.accounted
    ensures s.sent[i] <= MAX_POSTS
  {
    assert PlaceOk(s, i) && ItemOk(s, i) && FirstOk(s, i);
  }

  lemma {:induction false} OverIsCounted(s: Sender)
    requires SenderOk(s) && Over(s)
    ensures s.counts.accepted == |AcceptedOutcomes(s)|
    ensures s.counts.firstAccepted + s.counts.firstRejected + s.counts.firstUnknown + s.counts.firstPermanent
            + s.counts.firstNotSent == |s.items|
  {
    assert Flying(s) == {} && FirstFlying(s) == {};
    assert AcceptedItems(s) == AcceptedOutcomes(s);
    IndicesSize(|s.items|);
    forall i: nat | i < |s.items| ensures i in s.accounted {
      OverIsDecided(s, i);
    }
    assert s.accounted == Indices(|s.items|);
  }

  /**
   When the loop ends, every input has its outcome, `accepted` numbers the accepted ones, each
   with a receipt, and the four kinds of first answer and the firsts not sent add up to the inputs.
   */
  lemma {:induction false} FinalReport(start: int, count: nat, concurrency: nat, actions: seq<Action>)
    requires 1 <= concurrency && Over(Run(start, count, concurrency, actions))
    ensures var s := Run(start, count, concurrency, actions);
            && |s.outcomes| == |s.items| == count
            && (forall i :: 0 <= i < count ==> s.outcomes[i].Some? && OutcomeOk(s.items[i], s.outcomes[i].value))
            && s.counts.accepted == |AcceptedOutcomes(s)|
            && s.counts.firstAccepted + s.counts.firstRejected + s.counts.firstUnknown + s.counts.firstPermanent
               + s.counts.firstNotSent == count
  {
    RunReached(start, count, concurrency, actions);
    var s := Run(start, count, concurrency, actions);
    forall i: nat | i < count ensures s.outcomes[i].Some? && OutcomeOk(s.items[i], s.outcomes[i].value) {
      OverIsDecided(s, i);
    }
    OverIsCounted(s);
  }

  /** POST requests are counted as sent: at most twenty an input. */
  lemma {:induction false} Amplification(start: int, count: nat, concurrency: nat, actions: seq<Action>)
    requires 1 <= concurrency
    ensures var s := Run(start, count, concurrency, actions);
            s.counts.posts == Total(s.sent) <= MAX_POSTS * count
  {
    var s := Run(start, count, concurrency, actions);
    TotalZero(count);
    PostsCountedRun(Init(start, count, concurrency), actions);
    forall i: nat | i < |s.sent| ensures s.sent[i] <= MAX_POSTS {
      RunReached(start, count, concurrency, actions);
      AtMostTwentyPosts(start, count, concurrency, actions, i);
    }
    TotalBound(s.sent, MAX_POSTS);
    RunReached(start, count, concurrency, actions);
  }

  // ---- termination ---------------------------------------------------------------------------

  /** How far an item is within one attempt; an answered POST moves it to the next attempt. */
  function PhaseRank(task: Task): nat {
    var query := if task.stage.Query? then 8 else 0;
    match task.phase
    case Queued => 12 + query
    case AwaitRound => 11 + query
    case AwaitLock => 10 + query
    case Pacing => 9 + query
    case AwaitSlot => 8 + query
    case InFlight => 7 + query
    case Finished(result) => if result.Done? then 1 else if result.stage.Post? then 14 else 22
  }

  function ItemRank(s: Sender, i: nat): nat
    requires i < |s.items| == |s.outcomes|
  {
    if s.outcomes[i].Some? || s.items[i].attempts > MAX_POSTS then 0
    else (MAX_POSTS - s.items[i].attempts) * 20
         + if i in s.active then PhaseRank(s.active[i])
           else if i in s.deferred then (if s.deferred[i].stage.Post? then 13 else 21)
           else 23
  }

  function RankSum(s: Sender, n: nat): nat
    requires n <= |s.items| == |s.outcomes|
  {
    if n == 0 then 0 else RankSum(s, n - 1) + ItemRank(s, n - 1)
  }

  function Measure(s: Sender): nat
    requires |s.items| == |s.outcomes|
  {
    RankSum(s, |s.items|) + if s.firstRoundDone then 0 else 1
  }

  lemma {:induction false} RankSumDrops(s: Sender, t: Sender, n: nat, i: nat)
    requires n <= |s.items| == |s.outcomes| == |t.items| == |t.outcomes|
    requires forall j: nat :: j < n ==> ItemRank(t, j) <= ItemRank(s, j)
    ensures RankSum(t, n) <= RankSum(s, n)
    ensures i < n && ItemRank(t, i) < ItemRank(s, i) ==> RankSum(t, n) < RankSum(s, n)
  {
    if n > 0 {
      RankSumDrops(s, t, n - 1, i);
    }
  }

  /** One item moves down and the others stay. */
  lemma {:induction false} OneItemDrops(s: Sender, t: Sender, i: nat)
    requires SenderOk(s) && SameElsewhere(s, t, i) && i < |s.items|
    requires ItemRank(t, i) < ItemRank(s, i)
    ensures Measure(t) < Measure(s)
  {
    forall j: nat | j < |s.items| ensures ItemRank(t, j) <= ItemRank(s, j) {
      assert j == i || SameItem(s, t, j);
    }
    RankSumDrops(s, t, |s.items|, i);
  }

  lemma {:induction false} MoveDrops(s: Sender, i: nat, phase: Phase, t: Sender)
    requires SenderOk(s) && Busy(s, i) && Running(s.active[i].phase) && Running(phase)
    requires t == Move(s, i, phase).(lockOwner := t.lockOwner)
    requires PhaseRank(Task(s.active[i].stage, phase)) < PhaseRank(s.active[i])
    ensures Measure(t) < Measure(s)
  {
    assert PlaceOk(s, i) && ItemOk(s, i);
    OneItemDrops(s, t, i);
  }

  lemma {:induction false} StartDrops(s: Sender, i: nat)
    requires SenderOk(s) && CanStart(s, i)
    ensures Measure(Start(s, i)) < Measure(s)
  {
    assert PlaceOk(s, i) && ItemOk(s, i);
    StartItem(s, i);
    OneItemDrops(s, Start(s, i), i);
  }

  lemma {:induction false} AnswerDrops(s: Sender, i: nat, reply: Reply)
    requires SenderOk(s) && CanRespond(s, i)
    ensures Measure(Respond(s, i, reply)) < Measure(s)
  {
    assert PlaceOk(s, i) && ItemOk(s, i);
    RespondItem(s, i, reply);
    OneItemDrops(s, Respond(s, i, reply), i);
  }

  lemma {:induction false} AbandonDrops(s: Sender, t: Sender, i: nat)
    requires SenderOk(s) && CanGiveUp(s, i) && GaveUp(s, t, i)
    ensures Measure(t) < Measure(s)
  {
    assert PlaceOk(s, i) && ItemOk(s, i);
    OneItemDrops(s, t, i);
  }

  lemma {:induction false} SendDrops(s: Sender)
    requires SenderOk(s) && CanSendNext(s)
    ensures Measure(SendNext(s)) < Measure(s)
  {
    assert PlaceOk(s, s.cursor) && ItemOk(s, s.cursor);
    OneItemDrops(s, SendNext(s), s.cursor);
  }

  lemma {:induction false} ResendDrops(s: Sender, i: nat)
    requires SenderOk(s) && CanResend(s, i)
    ensures Measure(Resend(s, i)) < Measure(s)
  {
    assert PlaceOk(s, i) && ItemOk(s, i);
    OneItemDrops(s, Resend(s, i), i);
  }

  lemma {:induction false} CollectDrops(s: Sender, i: nat)
    requires SenderOk(s) && CanCollect(s, i)
    ensures Measure(Collect(s, i)) < Measure(s)
  {
    assert PlaceOk(s, i) && ItemOk(s, i);
    OneItemDrops(s, Collect(s, i), i);
  }

  lemma {:induction false} CutDrops(s: Sender)
    requires SenderOk(s) && CanCutFirst(s) && s.items != []
    ensures Measure(CutFirst(s)) < Measure(s)
  {
    var t := CutFirst(s);
    CutFirstAccounts(s);
    forall j: nat | j < |s.items| ensures ItemRank(t, j) <= ItemRank(s, j) {
      assert PlaceOk(s, j);
    }
    RankSumDrops(s, t, |s.items|, 0);
  }

  lemma {:induction false} FlushDrops(s: Sender)
    requires SenderOk(s) && CanFlush(s)
    ensures Measure(Flush(s)) < Measure(s)
  {
    var t := Flush(s);
    var i :| i in s.deferred;
    forall j: nat | j < |s.items| ensures ItemRank(t, j) <= ItemRank(s, j) {
      assert PlaceOk(s, j);
    }
    assert PlaceOk(s, i) && ItemOk(s, i);
    RankSumDrops(s, t, |s.items|, i);
  }

  /** Every step but waiting makes progress. */
  lemma {:induction false} StepsMakeProgress(s: Sender, a: Action)
    requires SenderOk(s) && Enabled(s, a) && !a.Wait? && s.items != []
    ensures Measure(Next(s, a)) < Measure(s)
  {
    match a
    case CutFirstRound => CutDrops(s);
    case FlushDeferred => FlushDrops(s);
    case Answer(i, reply) => AnswerDrops(s, i, reply);
    case Abandon(i) => GiveUpEffect(s, i); AbandonDrops(s, GiveUp(s, i), i);
    case BeginWork(i) => MoveDrops(s, i, if IsFirst(s, i) then AwaitSlot else AwaitRound, Begin(s, i));
    case PassRound(i) => MoveDrops(s, i, AwaitLock, Move(s, i, AwaitLock));
    case TakeLock(i) => MoveDrops(s, i, Pacing, Lock(s, i));
    case Pace(i) => MoveDrops(s, i, AwaitSlot, Move(s, i, AwaitSlot));
    case StartRequest(i) => StartDrops(s, i);
    case Send => SendDrops(s);
    case SendDeferred(i) => ResendDrops(s, i);
    case Take(i) => CollectDrops(s, i);
  }

  function Progress(s: Sender, actions: seq<Action>): nat
    decreases |actions|
  {
    if actions == [] then 0
    else if !Enabled(s, actions[0]) then Progress(s, actions[1..])
    else (if actions[0].Wait? then 0 else 1) + Progress(Next(s, actions[0]), actions[1..])
  }

  lemma {:induction false} StepBounded(s: Sender, a: Action)
    requires SenderOk(s) && s.items != [] && Enabled(s, a)
    ensures Next(s, a).items != []
    ensures Measure(Next(s, a)) + (if a.Wait? then 0 else 1) <= Measure(s)
  {
    SettingsKept(s, [a]);
    assert RunFrom(s, [a]) == RunFrom(Next(s, a), []);
    if a.Wait? {
      RankSumDrops(s, Next(s, a), |s.items|, 0);
    } else {
      StepsMakeProgress(s, a);
    }
  }

  lemma {:induction false} ProgressBounded(s: Sender, actions: seq<Action>)
    requires SenderOk(s) && s.items != []
    ensures Progress(s, actions) <= Measure(s)
    decreases |actions|
  {
    if actions != [] {
      if Enabled(s, actions[0]) {
        NextKeeps(s, actions[0]);
        StepBounded(s, actions[0]);
        ProgressBounded(Next(s, actions[0]), actions[1..]);
      } else {
        ProgressBounded(s, actions[1..]);
      }
    }
  }

  lemma {:induction false} InitialMeasure(start: int, count: nat, concurrency: nat, n: nat)
    requires n <= count
    ensures RankSum(Init(start, count, concurrency), n) == 423 * n
  {
    if n > 0 { InitialMeasure(start, count, concurrency, n - 1); }
  }

  /** A run takes at most 423 steps an input, and one more, besides waiting. */
  lemma {:induction false} RunsAreBounded(start: int, count: nat, concurrency: nat, actions: seq<Action>)
    requires 1 <= concurrency && 1 <= count
    ensures Progress(Init(start, count, concurrency), actions) <= 423 * count + 1
  {
    ProgressBounded(Init(start, count, concurrency), actions);
    InitialMeasure(start, count, concurrency, count);
  }

  /** And it is never stuck: once the deadline has passed, some step is possible until it is over. */
  lemma {:induction false} NeverStuck(start: int, count: nat, concurrency: nat, actions: seq<Action>)
    returns (a: Action)
    requires 1 <= concurrency
    requires var s := Run(start, count, concurrency, actions); !Over(s) && s.now >= s.deadline
    ensures !a.Wait? && Enabled(Run(start, count, concurrency, actions), a)
  {
    RunReached(start, count, concurrency, actions);
    var s := Run(start, count, concurrency, actions);
    if s.cursor < |s.items| {
      assert FirstOk(s, s.cursor);
      if s.firstRoundDone { FullRound(s); }
      a := CutFirstRound;
    } else if s.active != map[] {
      var i :| i in s.active;
      assert PlaceOk(s, i);
      a := if s.active[i].phase.Finished? then Take(i)
           else if s.active[i].phase.InFlight? then Answer(i, NoReply) else Abandon(i);
    } else {
      a := FlushDeferred;
    }
  }
}
