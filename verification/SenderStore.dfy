/** The HTTP sender's own fields and the code that updates them between awaits. */
module SenderStore {
  import opened Wrappers
  import opened Sets
  import opened SenderSystem
  import opened SenderSafety

  /** Marking one more index of `all` on top of a set of them. */
  lemma {:induction false} MarkOneMore(accounted: set<nat>, marked: set<nat>, i: nat, all: set<nat>)
    requires accounted <= all && marked <= all && i in all
    ensures accounted + (marked + {i}) == accounted + marked + {i}
    ensures i in accounted + marked ==> (marked + {i}) - accounted == marked - accounted
    ensures i !in accounted + marked ==>
              && i in (marked + {i}) - accounted && |accounted + marked| < |all|
              && |(marked + {i}) - accounted| == |marked - accounted| + 1
  {
    if i in accounted + marked {
      assert (marked + {i}) - accounted == marked - accounted;
    } else {
      assert (marked + {i}) - accounted == (marked - accounted) + {i};
      SubsetSize(accounted + marked + {i}, all);
    }
  }

  class HttpSender {
    const firstDeadline: int
    const deadline: int
    const concurrency: nat
    var now: int
    var items: seq<Item>
    var outcomes: seq<Option<Outcome>>
    var cursor: nat
    var active: map<nat, Task>
    var deferred: map<nat, Entry>
    var accounted: set<nat>
    var firstRoundDone: bool
    var firstStarts: seq<int>
    var slots: nat
    var lockOwner: Option<nat>
    var nextStart: Option<int>
    var counts: Counts
    ghost var sent: seq<nat>
    ghost var follows: seq<int>

    ghost function State(): Sender
      reads this
    {
      Sender(now, firstDeadline, deadline, concurrency, items, outcomes, cursor, active, deferred, accounted,
             firstRoundDone, firstStarts, slots, lockOwner, nextStart, counts, sent, follows)
    }

    constructor (start: int, count: nat, concurrency: nat)
      requires 1 <= concurrency <= HTTP_CONCURRENCY
      ensures State() == Init(start, count, concurrency)
    {
      this.firstDeadline, this.deadline, this.concurrency := start + 5 * SECOND, start + 60 * SECOND, concurrency;
      now, cursor, slots := start, 0, concurrency;
      items, outcomes := seq(count, _ => Item(0, None, 1)), seq(count, _ => None);
      sent, follows := seq(count, _ => 0), [];
      active, deferred, accounted, firstRoundDone, firstStarts := map[], map[], {}, false, [];
      lockOwner, nextStart := None, None;
      counts := Counts(0, 0, 0, 0, 0, 0, 0, 0, 0, 0, 0, 0);
    }

    /** _mark_first */
    method MarkFirst(index: nat, started: Option<int>)
      modifies this`accounted, this`counts, this`firstRoundDone, this`firstStarts
      ensures accounted == old(accounted) + {index}
      ensures firstRoundDone <==> old(firstRoundDone) || (index !in old(accounted) && |accounted| == |items|)
      ensures firstStarts ==
              old(firstStarts) + if index !in old(accounted) && started.Some? then [started.value] else []
      ensures counts == old(counts).(firstNotSent := old(counts).firstNotSent
                                       + if index !in old(accounted) && started.None? then 1 else 0)
    {
      if index in accounted {
        assert accounted + {index} == accounted;
        return;
      }
      accounted := accounted + {index};
      if started.None? {
        counts := counts.(firstNotSent := counts.firstNotSent + 1);
      } else {
        firstStarts := firstStarts + [started.value];
      }
      if |accounted| == |items| {
        firstRoundDone := true;
      }
    }

    /** A loop of _mark_first without a start. */
    method MarkAllUnsent(unsent: set<nat>, ghost all: set<nat>)
      requires accounted <= all && unsent <= all && |all| == |items|
      modifies this`accounted, this`counts, this`firstRoundDone, this`firstStarts
      ensures accounted == old(accounted) + unsent && firstStarts == old(firstStarts)
      ensures counts == old(counts).(firstNotSent := old(counts).firstNotSent + |unsent - old(accounted)|)
      ensures firstRoundDone <==> old(firstRoundDone) || (unsent - old(accounted) != {} && |accounted| == |items|)
    {
      var rest := unsent;
      ghost var base, count0, done0, marked: set<nat> := accounted, counts, firstRoundDone, {};
      while rest != {}
        invariant rest <= unsent && marked <= unsent && marked + rest == unsent
        invariant accounted == base + marked && firstStarts == old(firstStarts)
        invariant counts == count0.(firstNotSent := count0.firstNotSent + |marked - base|)
        invariant firstRoundDone <==> done0 || (marked - base != {} && |accounted| == |items|)
        decreases |rest|
      {
        var i :| i in rest;
        MarkOneMore(base, marked, i, all);
        MarkFirst(i, None);
        rest, marked := rest - {i}, marked + {i};
      }
      assert marked == unsent;
    }

    /** `outcomes[item.index] = self._outcome(item)` for every unsent item. */
    method DecideUnsent()
      requires |outcomes| == |items| && cursor <= |items|
      modifies this`outcomes, this`cursor
      ensures cursor == |items| && |outcomes| == |items|
      ensures forall j :: 0 <= j < |items| ==>
        outcomes[j] == if j >= old(cursor) then Some(Reported(items[j], Exhausted)) else old(outcomes[j])
    {
      for i := cursor to |items|
        invariant |outcomes| == |items| && cursor == old(cursor)
        invariant forall j :: 0 <= j < |items| ==>
          outcomes[j] == if cursor <= j < i then Some(Reported(items[j], Exhausted)) else old(outcomes[j])
      {
        outcomes := outcomes[i := Some(Reported(items[i], Exhausted))];
      }
      cursor := |items|;
    }

    /** The part of the loop that the first deadline triggers. */
    method CutFirstRound()
      requires CanCutFirst(State()) && accounted + active.Keys <= Indices(|items|)
      modifies this`accounted, this`counts, this`firstRoundDone, this`firstStarts, this`outcomes, this`cursor
      ensures var t := CutFirst(old(State()));
              && accounted == t.accounted && counts == t.counts && firstRoundDone == t.firstRoundDone
              && firstStarts == t.firstStarts && outcomes == t.outcomes && cursor == t.cursor
    {
      var unsent := set i: nat {:trigger items[i]} | cursor <= i < |items|;
      assert unsent == Unsent(State());
      IndicesSize(|items|);
      MarkAllUnsent(unsent + active.Keys, Indices(|items|));
      DecideUnsent();
    }

    /** The part of the loop that the deadline triggers. */
    method FlushDeferred()
      requires CanFlush(State()) && deferred.Keys <= Indices(|items|)
      modifies this`outcomes, this`deferred
      ensures deferred == map[] && |outcomes| == |items|
      ensures forall j :: 0 <= j < |items| ==>
        outcomes[j] == if j in old(deferred) then Some(Reported(items[j], Exhausted)) else old(outcomes[j])
    {
      while deferred.Keys != {}
        invariant deferred.Keys <= old(deferred.Keys) && |outcomes| == |items|
        invariant forall j :: 0 <= j < |items| ==>
          outcomes[j] == if j in old(deferred) && j !in deferred then Some(Reported(items[j], Exhausted))
                         else old(outcomes[j])
        decreases |deferred.Keys|
      {
        var i :| i in deferred.Keys;
        outcomes := outcomes[i := Some(Reported(items[i], Exhausted))];
        ghost var before := deferred.Keys;
        deferred := deferred - {i};
        assert deferred.Keys == before - {i};
      }
    }

    /** The end of _acquire_start: the slot is taken and the start is recorded. */
    method Admit(i: nat)
      requires CanStart(State(), i)
      modifies this`slots, this`lockOwner, this`nextStart, this`accounted, this`firstRoundDone, this`firstStarts,
               this`counts, this`follows
      ensures var t := Start(old(State()), i);
              && slots == t.slots && lockOwner == t.lockOwner && nextStart == t.nextStart
              && accounted == t.accounted && firstRoundDone == t.firstRoundDone && firstStarts == t.firstStarts
              && follows == t.follows && counts == old(counts)
    {
      slots := slots - 1;
      if active[i].stage.Post? && items[i].attempts == 0 {
        MarkFirst(i, Some(now));
      } else {
        nextStart, lockOwner, follows := Some(now + SPACING), None, follows + [now];
      }
    }

    /** ... with what _request does before it hands over to the transport. */
    method StartRequest(i: nat)
      requires CanStart(State(), i)
      modifies this`slots, this`lockOwner, this`nextStart, this`accounted, this`firstRoundDone, this`firstStarts,
               this`counts, this`sent, this`follows, this`active
      ensures var t := Start(old(State()), i);
              && slots == t.slots && lockOwner == t.lockOwner && nextStart == t.nextStart
              && accounted == t.accounted && firstRoundDone == t.firstRoundDone && firstStarts == t.firstStarts
              && counts == t.counts && sent == t.sent && follows == t.follows
              && active == t.active
    {
      var task := active[i];
      Admit(i);
      CountRequest(task.stage);
      if task.stage.Post? {
        sent := sent[i := sent[i] + 1];
      }
      active := active[i := task.(phase := InFlight)];
    }

    method CountRequest(stage: Stage)
      modifies this`counts
      ensures counts == CountStart(old(counts), stage)
    {
      if stage.Post? {
        counts := counts.(posts := counts.posts + 1);
      } else {
        counts := counts.(queries := counts.queries + 1);
      }
    }

    /** _post and _query once the transport has answered or failed. */
    method FinishRequest(i: nat, reply: Reply)
      requires CanRespond(State(), i)
      modifies this`slots, this`items, this`counts, this`active
      ensures var t := Respond(old(State()), i, reply);
              && slots == t.slots && items == t.items && counts == t.counts
              && active == t.active
    {
      var task, item := active[i], items[i];
      slots := slots + 1;
      var result: Result;
      if task.stage.Post? {
        var first := item.attempts == 0;
        counts := CountPost(counts, first, reply);
        item := Item(item.attempts + 1, ReceiptId(reply), DelayAfter(reply, 1));
        match InitialOf(reply) {
          case InitAccepted => result := Done(Reported(item, Accepted));
          case InitPermanent => result := Done(Reported(item, PermanentRejection));
          case InitRejected => result := Retry(item);
          case InitUnknown =>
            if item.receiptId.Some? {
              result := Again(Query, now);
            } else {
              result := Retry(item);
            }
        }
      } else {
        counts := CountQuery(counts, item, reply);
        var accepts := QueryAccepts(item, reply);
        item := item.(delay := DelayAfter(reply, item.delay));
        if accepts {
          result := Done(Reported(item, Accepted));
        } else {
          result := Retry(item);
        }
      }
      items := items[i := item];
      active := active[i := task.(phase := Finished(result))];
    }

    /** _retry */
    method Retry(item: Item) returns (result: Result)
      ensures result.Again? <==> item.attempts < MAX_POSTS && now + item.delay * SECOND < deadline
      ensures result == if result.Again? then Again(Post, now + item.delay * SECOND)
                        else Done(Reported(item, Exhausted))
    {
      var due := now + item.delay * SECOND;
      if item.attempts >= MAX_POSTS || due >= deadline {
        result := Done(Reported(item, Exhausted));
      } else {
        result := Again(Post, due);
      }
    }

    /** The loop takes a finished item back. */
    method Take(i: nat)
      requires CanCollect(State(), i)
      modifies this`active, this`outcomes, this`deferred
      ensures var t := Collect(old(State()), i);
              && active == t.active && outcomes == t.outcomes && deferred == t.deferred
    {
      var result := active[i].phase.result;
      active := active - {i};
      match result {
        case Done(outcome) => outcomes := outcomes[i := Some(outcome)];
        case Again(stage, due) => deferred := deferred[i := Entry(due, stage)];
      }
    }
  }
}
