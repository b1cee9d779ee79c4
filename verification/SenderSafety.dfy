/** What every step of the HTTP sender keeps. */
module SenderSafety {
  import opened Wrappers
  import opened Sets
  import opened SenderSystem

  predicate Running(phase: Phase) {
    !phase.InFlight? && !phase.Finished?
  }

  /** Sizes and times. */
  ghost predicate ShapeOk(s: Sender) {
    && |s.outcomes| == |s.items| && |s.sent| == |s.items| && s.cursor <= |s.items|
    && s.firstDeadline <= s.deadline && 1 <= s.concurrency
    && |s.active| <= s.concurrency
  }

  /** An index is in exactly one of unsent, active, deferred and decided. */
  ghost predicate PlaceOk(s: Sender, i: nat)
    requires |s.outcomes| == |s.items| == |s.sent|
  {
    && (i in s.active || i in s.deferred ==> i < s.cursor)
    && !(i in s.active && i in s.deferred)
    && (i < |s.items| ==>
          && (s.outcomes[i].Some? ==> i < s.cursor && i !in s.active && i !in s.deferred)
          && (i < s.cursor ==> i in s.active || i in s.deferred || s.outcomes[i].Some?)
          && (i >= s.cursor ==> s.items[i].attempts == 0))
  }

  /** A stage that an item can be put back at. */
  ghost predicate StageOk(item: Item, stage: Stage) {
    item.attempts >= 1 && match stage case Post => item.attempts < MAX_POSTS case Query => item.receiptId.Some?
  }

  /** When it is put back for: at most the longest hint ahead, and a POST before the deadline. */
  predicate Timely(s: Sender, stage: Stage, due: int) {
    due <= s.now + 30 * SECOND && (stage.Post? ==> due < s.deadline)
  }

  ghost predicate TaskOk(s: Sender, item: Item, task: Task) {
    && (task.stage.Query? ==>
          item.attempts >= 1 && (Running(task.phase) || task.phase.InFlight? ==> item.receiptId.Some?))
    && (task.phase.Finished? && task.phase.result.Again? ==>
          StageOk(item, task.phase.result.stage) && Timely(s, task.phase.result.stage, task.phase.result.due))
    && (!task.phase.Finished? && task.stage.Post? ==> item.attempts < MAX_POSTS)
    && (task.phase.AwaitRound? || task.phase.AwaitLock? || task.phase.Pacing? ==> item.attempts >= 1)
    && (item.attempts >= 1 && (task.phase.AwaitLock? || task.phase.Pacing? || task.phase.AwaitSlot?) ==>
          s.firstRoundDone)
    && (task.phase.Finished? && task.phase.result.Done? ==>
          OutcomeOk(item, task.phase.result.outcome))
  }

  /** A reported outcome tells the item's attempts; a receipt only goes with an acceptance. */
  ghost predicate OutcomeOk(item: Item, outcome: Outcome) {
    && outcome.attempts == item.attempts
    && (outcome.verdict.Accepted? ==> item.attempts >= 1 && outcome.receiptId.Some?)
    && (!outcome.verdict.Accepted? ==> outcome.receiptId.None?)
  }

  function OnWire(s: Sender, i: nat): nat {
    if i in s.active && s.active[i] == Task(Post, InFlight) then 1 else 0
  }

  ghost predicate ItemOk(s: Sender, i: nat)
    requires |s.outcomes| == |s.items| == |s.sent| && i < |s.items|
  {
    && s.items[i].attempts <= MAX_POSTS && 1 <= s.items[i].delay <= 30
    && s.sent[i] == s.items[i].attempts + OnWire(s, i)
    && (i in s.active ==> TaskOk(s, s.items[i], s.active[i]))
    && (i in s.deferred ==>
          StageOk(s.items[i], s.deferred[i].stage) && Timely(s, s.deferred[i].stage, s.deferred[i].due))
    && (s.outcomes[i].Some? ==> OutcomeOk(s.items[i], s.outcomes[i].value))
  }

  /** First POSTs: who is accounted for, and when one may still start. */
  ghost predicate FirstOk(s: Sender, i: nat)
    requires |s.outcomes| == |s.items| == |s.sent| && i < |s.items|
  {
    && (i !in s.accounted ==> s.items[i].attempts == 0 && s.outcomes[i].None?)
    && (i !in s.accounted && i in s.active ==> Running(s.active[i].phase))
    && (i in s.accounted && i >= s.cursor ==> false)
    && (i in s.accounted && i in s.active && s.items[i].attempts == 0 && Running(s.active[i].phase) ==>
          s.now >= s.firstDeadline)
  }

  ghost predicate RoundOk(s: Sender) {
    && (forall i :: i in s.accounted ==> i < |s.items|)
    && (s.firstRoundDone <==> s.items != [] && |s.accounted| == |s.items|)
    && s.counts.firstNotSent + |s.firstStarts| == |s.accounted|
    && (forall k :: 0 <= k < |s.firstStarts| ==> s.firstStarts[k] < s.firstDeadline && s.firstStarts[k] <= s.now)
  }

  /** The pacing lock is held exactly while its owner paces or waits for a slot. */
  ghost predicate LockOk(s: Sender, i: nat)
    requires |s.items| == |s.sent|
  {
    Busy(s, i) ==>
      (s.lockOwner == Some(i) <==>
         s.active[i].phase.Pacing? || (s.active[i].phase.AwaitSlot? && !IsFirst(s, i)))
  }

  ghost predicate PaceOk(s: Sender)
    requires |s.items| == |s.sent|
  {
    && (forall i :: LockOk(s, i))
    && (s.lockOwner.Some? ==> s.lockOwner.value in s.active)
    && (s.lockOwner.Some? && Busy(s, s.lockOwner.value) && s.active[s.lockOwner.value].phase.AwaitSlot? ==>
          s.nextStart.None? || s.nextStart.value <= s.now)
    && (s.nextStart.None? <==> s.follows == [])
    && (s.nextStart.Some? ==> s.nextStart.value == s.follows[|s.follows| - 1] + SPACING)
  }

  ghost predicate FollowsOk(s: Sender) {
    && (s.follows != [] ==> s.firstRoundDone)
    && (forall k :: 0 <= k < |s.follows| ==> s.follows[k] <= s.now)
    && (forall k :: 0 < k < |s.follows| ==> s.follows[k] - s.follows[k - 1] >= SPACING)
    && (forall j, k :: 0 <= j < |s.firstStarts| && 0 <= k < |s.follows| ==> s.firstStarts[j] <= s.follows[k])
  }

  function Flying(s: Sender): set<nat> {
    set i | i in s.active && s.active[i].phase.InFlight?
  }

  function FirstFlying(s: Sender): set<nat> {
    set i | i in s.active && s.active[i].phase.InFlight? && i < |s.items| && s.items[i].attempts == 0
  }

  /** Accepted items: decided, or with the result not yet taken by the run loop. */
  function AcceptedItems(s: Sender): set<nat> {
    set i: nat | i < |s.outcomes| && AcceptedAt(s, i)
  }

  predicate AcceptedAt(s: Sender, i: nat)
    requires i < |s.outcomes|
  {
    (s.outcomes[i].Some? && s.outcomes[i].value.verdict.Accepted?) || AcceptedPending(s, i)
  }

  predicate AcceptedResult(result: Result) { result.Done? && result.outcome.verdict.Accepted? }

  predicate AcceptedPending(s: Sender, i: nat) {
    i in s.active && s.active[i].phase.Finished? && AcceptedResult(s.active[i].phase.result)
  }

  ghost predicate TallyOk(s: Sender) {
    && s.slots + |Flying(s)| == s.concurrency
    && s.counts.firstAccepted + s.counts.firstRejected + s.counts.firstUnknown + s.counts.firstPermanent
       + |FirstFlying(s)| == |s.firstStarts|
    && s.counts.accepted == |AcceptedItems(s)|
  }

  ghost predicate PlacesOk(s: Sender)
    requires |s.outcomes| == |s.items| == |s.sent|
  {
    forall i: nat :: PlaceOk(s, i)
  }

  ghost predicate ItemsOk(s: Sender)
    requires |s.outcomes| == |s.items| == |s.sent|
  {
    forall i: nat :: i < |s.items| ==> ItemOk(s, i)
  }

  ghost predicate FirstsOk(s: Sender)
    requires |s.outcomes| == |s.items| == |s.sent|
  {
    forall i: nat :: i < |s.items| ==> FirstOk(s, i)
  }

  ghost predicate SenderOk(s: Sender) {
    ShapeOk(s) && PlacesOk(s) && ItemsOk(s) && FirstsOk(s) && RoundOk(s) && PaceOk(s) && FollowsOk(s) && TallyOk(s)
  }

  // ---- steps that touch one item -------------------------------------------------------------

  /** Everything recorded about item j alone is as before. */
  ghost predicate SameItem(s: Sender, t: Sender, j: nat) {
    && (j in t.active <==> j in s.active) && (j in s.active ==> t.active[j] == s.active[j])
    && (j in t.deferred <==> j in s.deferred) && (j in s.deferred ==> t.deferred[j] == s.deferred[j])
    && (j in t.accounted <==> j in s.accounted)
    && (j < |s.items| && |t.items| == |s.items| ==> t.items[j] == s.items[j])
    && (j < |s.outcomes| && |t.outcomes| == |s.outcomes| ==> t.outcomes[j] == s.outcomes[j])
    && (j < |s.sent| && |t.sent| == |s.sent| ==> t.sent[j] == s.sent[j])
  }

  ghost predicate SameElsewhere(s: Sender, t: Sender, i: nat) {
    && |t.items| == |s.items| && |t.outcomes| == |s.outcomes| && |t.sent| == |s.sent|
    && s.now <= t.now && t.firstDeadline == s.firstDeadline && t.deadline == s.deadline
    && (s.firstRoundDone ==> t.firstRoundDone)
    && (t.cursor == s.cursor || (i == s.cursor && t.cursor == s.cursor + 1))
    && forall j: nat :: j != i ==> SameItem(s, t, j)
  }

  lemma {:induction false} OneItem(s: Sender, t: Sender, i: nat)
    requires ShapeOk(s) && PlacesOk(s) && ItemsOk(s) && FirstsOk(s)
    requires SameElsewhere(s, t, i) && i < |s.items|
    requires PlaceOk(t, i) && ItemOk(t, i) && FirstOk(t, i)
    ensures PlacesOk(t) && ItemsOk(t) && FirstsOk(t)
  {
    forall j: nat ensures PlaceOk(t, j) {
      assert PlaceOk(s, j);
      assert j == i || SameItem(s, t, j);
    }
    forall j: nat | j < |t.items| ensures ItemOk(t, j) && FirstOk(t, j) {
      assert ItemOk(s, j) && FirstOk(s, j);
      assert j == i || SameItem(s, t, j);
    }
  }

  /** How the three counted sets change when only item i changes. */
  lemma {:induction false} OneItemSets(s: Sender, t: Sender, i: nat)
    requires SameElsewhere(s, t, i) && i < |s.items| == |s.outcomes| == |s.sent|
    ensures Flying(t) - {i} == Flying(s) - {i}
    ensures FirstFlying(t) - {i} == FirstFlying(s) - {i}
    ensures AcceptedItems(t) - {i} == AcceptedItems(s) - {i}
    ensures t.active.Keys - {i} == s.active.Keys - {i}
  {
    forall j: nat | j != i
      ensures j in t.active <==> j in s.active
      ensures j in Flying(t) <==> j in Flying(s)
      ensures j in FirstFlying(t) <==> j in FirstFlying(s)
      ensures j in AcceptedItems(t) <==> j in AcceptedItems(s)
    {
      assert SameItem(s, t, j);
    }
  }

  function One(b: bool): nat {
    if b then 1 else 0
  }

  lemma {:induction false} SizeWithout(a: set<nat>, i: nat)
    ensures |a| == |a - {i}| + One(i in a)
  {
    if i in a {
      assert a == (a - {i}) + {i};
    } else {
      assert a == a - {i};
    }
  }

  lemma {:induction false} OneItemSizes(s: Sender, t: Sender, i: nat)
    requires SameElsewhere(s, t, i) && i < |s.items| == |s.outcomes| == |s.sent|
    ensures |Flying(t)| - One(i in Flying(t)) == |Flying(s)| - One(i in Flying(s))
    ensures |FirstFlying(t)| - One(i in FirstFlying(t)) == |FirstFlying(s)| - One(i in FirstFlying(s))
    ensures |AcceptedItems(t)| - One(i in AcceptedItems(t)) == |AcceptedItems(s)| - One(i in AcceptedItems(s))
    ensures |t.active| - One(i in t.active) == |s.active| - One(i in s.active)
  {
    OneItemSets(s, t, i);
    SizeWithout(Flying(t), i); SizeWithout(Flying(s), i);
    SizeWithout(FirstFlying(t), i); SizeWithout(FirstFlying(s), i);
    SizeWithout(AcceptedItems(t), i); SizeWithout(AcceptedItems(s), i);
    SizeWithout(t.active.Keys, i); SizeWithout(s.active.Keys, i);
    assert |t.active| == |t.active.Keys| && |s.active| == |s.active.Keys|;
  }

  /** Before a request of an item, and once its result is known, no counted set changes. */
  lemma {:induction false} OneItemTally(s: Sender, t: Sender, i: nat)
    requires SameElsewhere(s, t, i) && i < |s.items| == |s.outcomes| == |s.sent| && TallyOk(s)
    requires t.slots == s.slots && t.concurrency == s.concurrency
    requires t.counts == s.counts.(firstNotSent := t.counts.firstNotSent)
    requires t.firstStarts == s.firstStarts
    requires i !in Flying(s) && i !in Flying(t)
    requires AcceptedAt(t, i) <==> AcceptedAt(s, i)
    ensures TallyOk(t)
  {
    OneItemSizes(s, t, i);
    assert i !in FirstFlying(s) && i !in FirstFlying(t);
  }

  // ---- a worker moves on without starting a request ------------------------------------------

  lemma {:induction false} MoveLocks(s: Sender, i: nat, phase: Phase, t: Sender)
    requires ShapeOk(s) && PaceOk(s) && Busy(s, i) && Running(phase)
    requires t == Move(s, i, phase).(lockOwner := t.lockOwner)
    requires t.lockOwner == if phase.Pacing? || (phase.AwaitSlot? && !IsFirst(s, i)) then Some(i) else s.lockOwner
    requires t.lockOwner != s.lockOwner ==> s.lockOwner.None?
    requires s.lockOwner == Some(i) ==> phase.Pacing? || (phase.AwaitSlot? && !IsFirst(s, i))
    requires t.lockOwner == Some(i) && phase.AwaitSlot? ==> s.nextStart.None? || s.nextStart.value <= s.now
    ensures PaceOk(t)
  {
    forall j ensures LockOk(t, j) {
      assert LockOk(s, j);
    }
  }

  lemma {:induction false} MoveKeeps(s: Sender, i: nat, phase: Phase, t: Sender)
    requires SenderOk(s) && Busy(s, i) && Running(s.active[i].phase) && Running(phase)
    requires TaskOk(s, s.items[i], Task(s.active[i].stage, phase))
    requires t == Move(s, i, phase).(lockOwner := t.lockOwner)
    requires PaceOk(t)
    ensures SenderOk(t)
  {
    assert PlaceOk(s, i) && ItemOk(s, i) && FirstOk(s, i);
    OneItem(s, t, i);
    OneItemTally(s, t, i);
    OneItemSizes(s, t, i);
  }

  lemma {:induction false} BeginKeeps(s: Sender, i: nat)
    requires SenderOk(s) && CanBegin(s, i)
    ensures SenderOk(Begin(s, i))
  {
    assert PlaceOk(s, i) && ItemOk(s, i) && LockOk(s, i);
    var phase := if IsFirst(s, i) then AwaitSlot else AwaitRound;
    MoveLocks(s, i, phase, Begin(s, i));
    MoveKeeps(s, i, phase, Begin(s, i));
  }

  lemma {:induction false} PassRoundKeeps(s: Sender, i: nat)
    requires SenderOk(s) && CanPassRound(s, i)
    ensures SenderOk(Move(s, i, AwaitLock))
  {
    assert PlaceOk(s, i) && ItemOk(s, i) && LockOk(s, i);
    MoveLocks(s, i, AwaitLock, Move(s, i, AwaitLock));
    MoveKeeps(s, i, AwaitLock, Move(s, i, AwaitLock));
  }

  lemma {:induction false} LockKeeps(s: Sender, i: nat)
    requires SenderOk(s) && CanLock(s, i)
    ensures SenderOk(Lock(s, i))
  {
    assert PlaceOk(s, i) && ItemOk(s, i) && LockOk(s, i);
    MoveLocks(s, i, Pacing, Lock(s, i));
    MoveKeeps(s, i, Pacing, Lock(s, i));
  }

  lemma {:induction false} PaceKeeps(s: Sender, i: nat)
    requires SenderOk(s) && CanPace(s, i)
    ensures SenderOk(Move(s, i, AwaitSlot))
  {
    assert PlaceOk(s, i) && ItemOk(s, i) && LockOk(s, i);
    assert !IsFirst(s, i);
    MoveLocks(s, i, AwaitSlot, Move(s, i, AwaitSlot));
    MoveKeeps(s, i, AwaitSlot, Move(s, i, AwaitSlot));
  }

  // ---- starting a request --------------------------------------------------------------------

  lemma {:induction false} FullRound(s: Sender)
    requires ShapeOk(s) && RoundOk(s) && s.firstRoundDone
    ensures forall i: nat :: i < |s.items| ==> i in s.accounted
  {
    var all := Indices(|s.items|);
    IndicesSize(|s.items|);
    assert s.accounted <= all;
    SubsetOfSameSize(s.accounted, all);
  }

  function Indices(n: nat): (all: set<nat>)
    ensures forall i: nat :: i in all <==> i < n
  {
    if n == 0 then {} else Indices(n - 1) + {n - 1}
  }

  lemma {:induction false} IndicesSize(n: nat)
    ensures |Indices(n)| == n
  {
    if n > 0 { IndicesSize(n - 1); }
  }

  /** A first POST that starts has not been accounted for: the first round is still open. */
  lemma {:induction false} FirstStartIsOpen(s: Sender, i: nat)
    requires SenderOk(s) && CanStart(s, i) && IsFirst(s, i)
    ensures i !in s.accounted && !s.firstRoundDone && s.follows == [] && s.now < s.firstDeadline
  {
    assert FirstOk(s, i);
    if s.firstRoundDone {
      FullRound(s);
    }
  }

  lemma {:induction false} StartItem(s: Sender, i: nat)
    requires SenderOk(s) && CanStart(s, i)
    ensures ShapeOk(Start(s, i)) && PlacesOk(Start(s, i)) && ItemsOk(Start(s, i)) && FirstsOk(Start(s, i))
    ensures SameElsewhere(s, Start(s, i), i)
  {
    var t := Start(s, i);
    assert PlaceOk(s, i) && ItemOk(s, i) && FirstOk(s, i);
    OneItem(s, t, i);
    OneItemSizes(s, t, i);
  }

  lemma {:induction false} StartTally(s: Sender, i: nat)
    requires SenderOk(s) && CanStart(s, i)
    ensures TallyOk(Start(s, i))
  {
    var t := Start(s, i);
    StartItem(s, i);
    OneItemSizes(s, t, i);
    if IsFirst(s, i) { FirstStartIsOpen(s, i); }
    assert ItemOk(s, i) && PlaceOk(s, i);
    assert i in Flying(t) && i !in Flying(s) && i !in FirstFlying(s);
    assert i in FirstFlying(t) <==> IsFirst(s, i);
    assert !AcceptedAt(s, i) && !AcceptedAt(t, i);
  }

  lemma {:induction false} StartLocks(s: Sender, i: nat)
    requires ShapeOk(s) && PaceOk(s) && CanStart(s, i)
    ensures PaceOk(Start(s, i))
  {
    var t := Start(s, i);
    assert LockOk(s, i);
    forall j ensures LockOk(t, j) {
      assert LockOk(s, j);
    }
  }

  lemma {:induction false} StartFollows(s: Sender, i: nat)
    requires SenderOk(s) && CanStart(s, i)
    ensures FollowsOk(Start(s, i))
  {
    assert ItemOk(s, i) && LockOk(s, i);
    if IsFirst(s, i) { FirstStartIsOpen(s, i); }
  }

  lemma {:induction false} StartRound(s: Sender, i: nat)
    requires SenderOk(s) && CanStart(s, i)
    ensures RoundOk(Start(s, i))
  {
    if IsFirst(s, i) { FirstStartIsOpen(s, i); }
  }

  lemma {:induction false} StartKeeps(s: Sender, i: nat)
    requires SenderOk(s) && CanStart(s, i)
    ensures SenderOk(Start(s, i))
  {
    StartItem(s, i);
    StartTally(s, i);
    StartLocks(s, i);
    StartFollows(s, i);
    StartRound(s, i);
  }

  // ---- the answer ----------------------------------------------------------------------------

  lemma {:induction false} HintInRange(reply: Reply)
    ensures Hint(reply).Some? ==> 1 <= Hint(reply).value.0 <= 30
  {
  }

  /** What _retry hands back can be done: a POST that is allowed and due in time, or a final report. */
  lemma {:induction false} RetryFits(s: Sender, item: Item)
    requires 1 <= item.attempts <= MAX_POSTS && 1 <= item.delay <= 30
    ensures TaskOk(s, item, Task(Post, Finished(RetryResult(s, item))))
    ensures TaskOk(s, item, Task(Query, Finished(RetryResult(s, item))))
    ensures var r := RetryResult(s, item);
            && (r.Again? ==> r.stage.Post? && r.due >= s.now + SECOND)
            && (r.Done? ==> r.outcome.verdict.Exhausted?
                            && (item.attempts == MAX_POSTS || s.deadline <= s.now + 30 * SECOND))
  {
  }

  lemma {:induction false} PostAnswer(s: Sender, item: Item, reply: Reply)
    requires item.attempts < MAX_POSTS
    ensures var after := AfterPost(item, reply);
            && 1 <= after.delay <= 30
            && TaskOk(s, after, Task(Post, Finished(PostResult(s, after, reply))))
            && (AcceptedResult(PostResult(s, after, reply)) <==> InitialOf(reply).InitAccepted?)
  {
    HintInRange(reply);
    RetryFits(s, AfterPost(item, reply));
  }

  lemma {:induction false} QueryAnswer(s: Sender, item: Item, reply: Reply)
    requires 1 <= item.attempts <= MAX_POSTS && item.receiptId.Some? && 1 <= item.delay <= 30
    ensures var after := AfterQuery(item, reply);
            && 1 <= after.delay <= 30
            && TaskOk(s, after, Task(Query, Finished(QueryResult(s, after, reply))))
            && (AcceptedResult(QueryResult(s, after, reply)) <==> QueryAccepts(item, reply))
  {
    HintInRange(reply);
    RetryFits(s, AfterQuery(item, reply));
  }

  lemma {:induction false} RespondItem(s: Sender, i: nat, reply: Reply)
    requires SenderOk(s) && CanRespond(s, i)
    ensures var t := Respond(s, i, reply);
            ShapeOk(t) && PlacesOk(t) && ItemsOk(t) && FirstsOk(t) && SameElsewhere(s, t, i)
    ensures AcceptedAt(Respond(s, i, reply), i) <==>
            if s.active[i].stage.Post? then InitialOf(reply).InitAccepted? else QueryAccepts(s.items[i], reply)
  {
    var t := Respond(s, i, reply);
    assert PlaceOk(s, i) && ItemOk(s, i) && FirstOk(s, i);
    if s.active[i].stage.Post? {
      PostAnswer(s, s.items[i], reply);
    } else {
      QueryAnswer(s, s.items[i], reply);
    }
    OneItem(s, t, i);
    OneItemSizes(s, t, i);
  }

  lemma {:induction false} RespondTally(s: Sender, i: nat, reply: Reply)
    requires SenderOk(s) && CanRespond(s, i)
    ensures TallyOk(Respond(s, i, reply))
  {
    var t := Respond(s, i, reply);
    RespondItem(s, i, reply);
    OneItemSizes(s, t, i);
    assert ItemOk(s, i) && PlaceOk(s, i);
    assert i in Flying(s) && i !in Flying(t) && i !in FirstFlying(t);
    assert !AcceptedAt(s, i);
  }

  lemma {:induction false} RespondLocks(s: Sender, i: nat, reply: Reply)
    requires ShapeOk(s) && PaceOk(s) && CanRespond(s, i)
    ensures PaceOk(Respond(s, i, reply))
  {
    var t := Respond(s, i, reply);
    assert LockOk(s, i);
    forall j: nat ensures LockOk(t, j) {
      assert LockOk(s, j);
      assert j != i && Busy(t, j) ==> Busy(s, j) && t.items[j] == s.items[j] && t.active[j] == s.active[j];
    }
  }

  lemma {:induction false} RespondKeeps(s: Sender, i: nat, reply: Reply)
    requires SenderOk(s) && CanRespond(s, i)
    ensures SenderOk(Respond(s, i, reply))
  {
    RespondItem(s, i, reply);
    RespondTally(s, i, reply);
    RespondLocks(s, i, reply);
  }

  // ---- a request that could not start --------------------------------------------------------

  lemma {:induction false} MarkKeepsRound(s: Sender, unsent: set<nat>)
    requires RoundOk(s) && forall i :: i in unsent ==> i < |s.items|
    ensures RoundOk(MarkUnsent(s, unsent))
    ensures s.firstRoundDone ==> MarkUnsent(s, unsent).firstRoundDone
  {
    assert s.accounted + unsent == s.accounted + (unsent - s.accounted);
    assert |s.accounted + unsent| == |s.accounted| + |unsent - s.accounted|;
    var all := Indices(|s.items|);
    IndicesSize(|s.items|);
    SubsetSize(s.accounted + unsent, all);
  }

  /** What giving up leaves, for the item itself. */
  ghost predicate GaveUp(s: Sender, t: Sender, i: nat)
    requires Busy(s, i) && |s.outcomes| == |s.items|
  {
    && SameElsewhere(s, t, i) && t.items == s.items && t.outcomes == s.outcomes && t.sent == s.sent
    && t.deferred == s.deferred && t.cursor == s.cursor && t.now == s.now
    && i in t.active && t.active[i].stage == s.active[i].stage && t.active[i].phase.Finished?
    && (s.active[i].stage.Post? ==> t.active[i].phase.result == Done(Reported(s.items[i], Exhausted)))
    && (s.active[i].stage.Query? ==> t.active[i].phase.result == RetryResult(s, s.items[i]))
    && (i in t.accounted <==> i in s.accounted || IsFirst(s, i))
  }

  lemma {:induction false} GiveUpEffect(s: Sender, i: nat)
    requires SenderOk(s) && CanGiveUp(s, i)
    ensures GaveUp(s, GiveUp(s, i), i)
  {
  }

  lemma {:induction false} GaveUpItem(s: Sender, t: Sender, i: nat)
    requires SenderOk(s) && CanGiveUp(s, i) && GaveUp(s, t, i)
    requires t.concurrency == s.concurrency && t.deadline == s.deadline
    ensures ShapeOk(t) && PlacesOk(t) && ItemsOk(t) && FirstsOk(t)
  {
    assert PlaceOk(s, i) && ItemOk(s, i) && FirstOk(s, i);
    OneItem(s, t, i);
    OneItemSizes(s, t, i);
  }

  lemma {:induction false} GaveUpTally(s: Sender, t: Sender, i: nat)
    requires SenderOk(s) && CanGiveUp(s, i) && GaveUp(s, t, i)
    requires t.slots == s.slots && t.concurrency == s.concurrency && t.firstStarts == s.firstStarts
    requires t.counts == s.counts.(firstNotSent := t.counts.firstNotSent)
    ensures TallyOk(t)
  {
    assert PlaceOk(s, i) && ItemOk(s, i);
    assert !AcceptedAt(s, i) && !AcceptedAt(t, i);
    OneItemTally(s, t, i);
  }

  lemma {:induction false} GaveUpLocks(s: Sender, t: Sender, i: nat)
    requires ShapeOk(s) && PaceOk(s) && CanGiveUp(s, i) && GaveUp(s, t, i)
    requires t.lockOwner == if s.lockOwner == Some(i) then None else s.lockOwner
    requires t.nextStart == s.nextStart && t.follows == s.follows
    ensures PaceOk(t)
  {
    forall j ensures LockOk(t, j) {
      assert LockOk(s, j) && LockOk(s, i);
      assert j == i || SameItem(s, t, j);
    }
    if t.lockOwner.Some? {
      assert SameItem(s, t, t.lockOwner.value);
    }
  }

  lemma {:induction false} GiveUpKeeps(s: Sender, i: nat)
    requires SenderOk(s) && CanGiveUp(s, i)
    ensures SenderOk(GiveUp(s, i))
  {
    GiveUpEffect(s, i);
    GaveUpItem(s, GiveUp(s, i), i);
    GaveUpTally(s, GiveUp(s, i), i);
    MarkKeepsRound(s, if IsFirst(s, i) then {i} else {});
    GaveUpLocks(s, GiveUp(s, i), i);
  }

  // ---- the run loop --------------------------------------------------------------------------

  /** The pacing lock stays with its owner, which is not item i. */
  lemma {:induction false} OneItemLocks(s: Sender, t: Sender, i: nat)
    requires PlaceShape(s) && PaceOk(s) && SameElsewhere(s, t, i) && i < |s.items|
    requires t.lockOwner == s.lockOwner && t.nextStart == s.nextStart && t.follows == s.follows
    requires LockOk(t, i) && s.lockOwner != Some(i)
    ensures PaceOk(t)
  {
    forall j ensures LockOk(t, j) {
      assert LockOk(s, j);
      assert j == i || SameItem(s, t, j);
    }
    if s.lockOwner.Some? {
      assert SameItem(s, t, s.lockOwner.value);
    }
  }

  ghost predicate PlaceShape(s: Sender) {
    |s.outcomes| == |s.items| && |s.sent| == |s.items|
  }

  lemma {:induction false} SendNextKeeps(s: Sender)
    requires SenderOk(s) && CanSendNext(s)
    ensures SenderOk(SendNext(s))
  {
    var i, t := s.cursor, SendNext(s);
    assert PlaceOk(s, i) && ItemOk(s, i) && FirstOk(s, i);
    OneItem(s, t, i);
    OneItemSizes(s, t, i);
    assert !AcceptedAt(s, i) && !AcceptedAt(t, i);
    OneItemTally(s, t, i);
    OneItemLocks(s, t, i);
  }

  lemma {:induction false} ResendKeeps(s: Sender, i: nat)
    requires SenderOk(s) && CanResend(s, i)
    ensures SenderOk(Resend(s, i))
  {
    var t := Resend(s, i);
    assert PlaceOk(s, i) && ItemOk(s, i) && FirstOk(s, i);
    OneItem(s, t, i);
    OneItemSizes(s, t, i);
    assert !AcceptedAt(s, i) && !AcceptedAt(t, i);
    OneItemTally(s, t, i);
    OneItemLocks(s, t, i);
  }

  lemma {:induction false} CollectKeeps(s: Sender, i: nat)
    requires SenderOk(s) && CanCollect(s, i)
    ensures SenderOk(Collect(s, i))
  {
    var t := Collect(s, i);
    assert PlaceOk(s, i) && ItemOk(s, i) && FirstOk(s, i) && LockOk(s, i);
    OneItem(s, t, i);
    OneItemSizes(s, t, i);
    assert AcceptedAt(s, i) <==> AcceptedAt(t, i);
    OneItemTally(s, t, i);
    OneItemLocks(s, t, i);
  }

  /** The counted sets depend only on the tasks, the attempts and the acceptances. */
  lemma {:induction false} SameTally(s: Sender, t: Sender)
    requires TallyOk(s) && t.active == s.active && t.items == s.items && |t.outcomes| == |s.outcomes|
    requires t.slots == s.slots && t.concurrency == s.concurrency && t.firstStarts == s.firstStarts
    requires t.counts == s.counts.(firstNotSent := t.counts.firstNotSent)
    requires forall i: nat :: i < |s.outcomes| ==> (AcceptedAt(t, i) <==> AcceptedAt(s, i))
    ensures TallyOk(t)
  {
    assert Flying(t) == Flying(s) && FirstFlying(t) == FirstFlying(s);
    assert AcceptedItems(t) == AcceptedItems(s);
  }

  lemma {:induction false} WaitItems(s: Sender, t: Sender)
    requires ShapeOk(s) && PlacesOk(s) && ItemsOk(s) && FirstsOk(s) && TallyOk(s)
    requires t == s.(now := t.now) && t.now >= s.now
    ensures PlacesOk(t) && ItemsOk(t) && FirstsOk(t) && TallyOk(t)
  {
    forall j: nat ensures PlaceOk(t, j) {
      assert PlaceOk(s, j);
    }
    forall j: nat | j < |t.items| ensures ItemOk(t, j) && FirstOk(t, j) && (AcceptedAt(t, j) <==> AcceptedAt(s, j)) {
      assert ItemOk(s, j) && FirstOk(s, j);
    }
    SameTally(s, t);
  }

  lemma {:induction false} WaitLocks(s: Sender, t: Sender)
    requires ShapeOk(s) && PaceOk(s) && t == s.(now := t.now) && t.now >= s.now
    ensures PaceOk(t)
  {
    forall j ensures LockOk(t, j) {
      assert LockOk(s, j);
    }
  }

  lemma {:induction false} WaitKeeps(s: Sender, until: int)
    requires SenderOk(s) && until >= s.now
    ensures SenderOk(s.(now := until))
  {
    WaitItems(s, s.(now := until));
    WaitLocks(s, s.(now := until));
  }

  lemma {:induction false} FlushItems(s: Sender)
    requires SenderOk(s) && CanFlush(s)
    ensures PlacesOk(Flush(s)) && ItemsOk(Flush(s)) && FirstsOk(Flush(s))
    ensures TallyOk(Flush(s))
  {
    var t := Flush(s);
    forall j: nat ensures PlaceOk(t, j) {
      assert PlaceOk(s, j);
    }
    forall j: nat | j < |t.items| ensures ItemOk(t, j) && FirstOk(t, j) && (AcceptedAt(t, j) <==> AcceptedAt(s, j)) {
      assert PlaceOk(s, j) && ItemOk(s, j) && FirstOk(s, j);
    }
    SameTally(s, t);
  }

  lemma {:induction false} FlushLocks(s: Sender)
    requires ShapeOk(s) && PaceOk(s) && CanFlush(s)
    ensures PaceOk(Flush(s))
  {
    forall j ensures LockOk(Flush(s), j) {
      assert LockOk(s, j);
    }
  }

  lemma {:induction false} FlushKeeps(s: Sender)
    requires SenderOk(s) && CanFlush(s)
    ensures SenderOk(Flush(s))
  {
    FlushItems(s);
    FlushLocks(s);
  }

  lemma {:induction false} CutFirstLocks(s: Sender)
    requires ShapeOk(s) && PaceOk(s) && CanCutFirst(s)
    ensures PaceOk(CutFirst(s))
  {
    forall j ensures LockOk(CutFirst(s), j) {
      assert LockOk(s, j);
    }
  }

  lemma {:induction false} CutFirstItem(s: Sender, j: nat)
    requires ShapeOk(s) && CanCutFirst(s) && PlaceOk(s, j)
    ensures PlaceOk(CutFirst(s), j)
    ensures j < |s.items| && ItemOk(s, j) ==>
              ItemOk(CutFirst(s), j) && (AcceptedAt(CutFirst(s), j) <==> AcceptedAt(s, j))
    ensures j < |s.items| && ItemOk(s, j) && FirstOk(s, j) ==> FirstOk(CutFirst(s), j)
  {
    var t := CutFirst(s);
    assert t.items == s.items && t.active == s.active && t.deferred == s.deferred && t.sent == s.sent;
    if j < |s.items| {
      assert t.outcomes[j] == if j >= s.cursor then Some(Reported(s.items[j], Exhausted)) else s.outcomes[j];
      assert j in t.accounted <==> j in s.accounted || j >= s.cursor || j in s.active;
    }
  }

  lemma {:induction false} CutFirstItems(s: Sender)
    requires ShapeOk(s) && PlacesOk(s) && ItemsOk(s) && FirstsOk(s) && TallyOk(s) && CanCutFirst(s)
    ensures var t := CutFirst(s);
            PlacesOk(t) && ItemsOk(t) && FirstsOk(t) && TallyOk(t)
  {
    var t := CutFirst(s);
    forall j: nat ensures PlaceOk(t, j) {
      assert PlaceOk(s, j);
      CutFirstItem(s, j);
    }
    forall j: nat | j < |t.items| ensures ItemOk(t, j) && FirstOk(t, j) && (AcceptedAt(t, j) <==> AcceptedAt(s, j)) {
      assert PlaceOk(s, j) && ItemOk(s, j) && FirstOk(s, j);
      CutFirstItem(s, j);
    }
    SameTally(s, t);
  }

  lemma {:induction false} CutFirstRounds(s: Sender)
    requires SenderOk(s) && CanCutFirst(s)
    ensures RoundOk(CutFirst(s)) && (s.firstRoundDone ==> CutFirst(s).firstRoundDone)
  {
    forall i | i in Unsent(s) + s.active.Keys ensures i < |s.items| {
      assert PlaceOk(s, i);
    }
    MarkKeepsRound(s, Unsent(s) + s.active.Keys);
  }

  lemma {:induction false} CutFirstKeeps(s: Sender)
    requires SenderOk(s) && CanCutFirst(s)
    ensures SenderOk(CutFirst(s))
  {
    CutFirstItems(s);
    CutFirstLocks(s);
    CutFirstRounds(s);
  }

  /** Afterwards every first POST is accounted for. */
  lemma {:induction false} CutFirstAccounts(s: Sender)
    requires SenderOk(s) && CanCutFirst(s) && s.items != []
    ensures CutFirst(s).firstRoundDone
  {
    var t := CutFirst(s);
    CutFirstRounds(s);
    IndicesSize(|s.items|);
    forall i: nat | i < |s.items| ensures i in t.accounted {
      assert FirstOk(s, i) && PlaceOk(s, i) && ItemOk(s, i);
    }
    assert t.accounted == Indices(|s.items|);
  }

  // ---- all steps -----------------------------------------------------------------------------

  lemma {:induction false} NextKeeps(s: Sender, a: Action)
    requires SenderOk(s) && Enabled(s, a)
    ensures SenderOk(Next(s, a))
  {
    match a
    case Wait(until) => WaitKeeps(s, until);
    case CutFirstRound => CutFirstKeeps(s);
    case FlushDeferred => FlushKeeps(s);
    case Send => SendNextKeeps(s);
    case SendDeferred(i) => ResendKeeps(s, i);
    case Take(i) => CollectKeeps(s, i);
    case BeginWork(i) => BeginKeeps(s, i);
    case PassRound(i) => PassRoundKeeps(s, i);
    case TakeLock(i) => LockKeeps(s, i);
    case Pace(i) => PaceKeeps(s, i);
    case StartRequest(i) => StartKeeps(s, i);
    case Answer(i, reply) => RespondKeeps(s, i, reply);
    case Abandon(i) => GiveUpKeeps(s, i);
  }

  lemma {:induction false} RunIsOk(s: Sender, actions: seq<Action>)
    requires SenderOk(s)
    ensures SenderOk(RunFrom(s, actions))
    decreases |actions|
  {
    if actions != [] {
      if Enabled(s, actions[0]) {
        NextKeeps(s, actions[0]);
        RunIsOk(Next(s, actions[0]), actions[1..]);
      } else {
        RunIsOk(s, actions[1..]);
      }
    }
  }
}
