/**
 The AMQP publisher of the ingress workload (tools/ingress/workload.py, Publisher): a window of at
 most 32 unconfirmed messages, confirmed by delivery tag, one by one or up to a tag (the
 `multiple` bit of basic.ack, section 1.8.3.13 of the AMQP 0-9-1 specification).
 */
module Publishing {
  import opened Wrappers
  import opened Sets

  const WINDOW := 32

  datatype Code =
    | PublishCallFailed | ReturnUnrecognized | MandatoryReturn | InvalidConfirmation
    | ConfirmationUnrecognized | BrokerNack | ConnectionOpenFailed | ConnectionClosed | ChannelClosed
    | BurstDeadline | TotalDeadline | CallbackFailed

  datatype Kind = Ack | Nack | OtherKind

  /** The publisher's fields; a tag is the input's position, from 1. */
  datatype State = State(next: nat, pending: set<nat>, acked: set<nat>, nacked: set<nat>, returned: set<string>,
                         failure: Option<Code>, complete: bool, closing: bool, peak: nat)

  const START := State(0, {}, {}, {}, {}, None, false, false, 0)

  function Failed(s: State, code: Code): State {
    s.(failure := if s.failure.None? then Some(code) else s.failure, closing := true)
  }

  function Published(s: State): State {
    s.(next := s.next + 1, pending := s.pending + {s.next + 1},
       peak := if |s.pending + {s.next + 1}| > s.peak then |s.pending + {s.next + 1}| else s.peak)
  }

  /** pump; the driver's call for tag `broken`, if reached, raises. */
  function Pumped(s: State, count: nat, broken: nat): State
    decreases count - s.next
  {
    if s.closing || |s.pending| >= WINDOW || s.next >= count then s
    else if s.next + 1 == broken then Failed(Published(s), PublishCallFailed)
    else Pumped(Published(s), count, broken)
  }

  /** The tags that a confirmation names. */
  function Tags(s: State, tag: nat, multiple: bool): set<nat> {
    if multiple then set t | t in s.pending && (tag == 0 || t <= tag) else {tag}
  }

  predicate Recognized(s: State, tag: nat, multiple: bool) {
    Tags(s, tag, multiple) != {} && Tags(s, tag, multiple) <= s.pending
  }

  function Settled(s: State, tags: set<nat>, ack: bool): State {
    s.(pending := s.pending - tags, acked := if ack then s.acked + tags else s.acked,
       nacked := if ack then s.nacked else s.nacked + tags)
  }

  predicate AllAcked(s: State, count: nat) {
    |s.acked| == count && s.returned == {} && s.failure.None?
  }

  function AfterAck(s: State, count: nat, broken: nat): State {
    if AllAcked(s, count) then s.(complete := true, closing := true)
    else if s.closing then s
    else Pumped(s, count, broken)
  }

  function Confirmed(s: State, count: nat, tag: nat, kind: Kind, multiple: bool, broken: nat): State {
    if kind.OtherKind? then Failed(s, InvalidConfirmation)
    else if !Recognized(s, tag, multiple) then Failed(s, ConfirmationUnrecognized)
    else
      var t := Settled(s, Tags(s, tag, multiple), kind.Ack?);
      if kind.Nack? then Failed(t, BrokerNack) else AfterAck(t, count, broken)
  }

  function Returned(s: State, ids: set<string>, id: string): State {
    if id !in ids then Failed(s, ReturnUnrecognized)
    else Failed(s.(returned := s.returned + {id}), MandatoryReturn)
  }

  /** What the driver calls back, in any order and number. */
  datatype Event =
    | Ready(broken: nat)                                              // on_confirm_ready
    | Confirmation(tag: nat, kind: Kind, multiple: bool, broken: nat) // on_confirmation
    | Return(id: string)                                              // on_return
    | ChannelClosing | BurstTimer                                     // fail unless complete
    | ConnectionClosing | CallbackError                               // no close of its own
    | OpenError | TotalTimer                                          // fail

  function Handled(s: State, count: nat, ids: set<string>, e: Event): State {
    match e
    case Ready(broken) => Pumped(s, count, broken)
    case Confirmation(tag, kind, multiple, broken) => Confirmed(s, count, tag, kind, multiple, broken)
    case Return(id) => Returned(s, ids, id)
    case ChannelClosing => if s.complete then s else Failed(s, ChannelClosed)
    case BurstTimer => if s.complete then s else Failed(s, BurstDeadline)
    case ConnectionClosing =>
      s.(failure := if !s.complete && s.failure.None? then Some(ConnectionClosed) else s.failure)
    case CallbackError => s.(failure := if s.failure.None? then Some(CallbackFailed) else s.failure)
    case OpenError => Failed(s, ConnectionOpenFailed)
    case TotalTimer => Failed(s, TotalDeadline)
  }

  function Run(count: nat, ids: set<string>, events: seq<Event>): State {
    if events == [] then START else Handled(Run(count, ids, events[..|events| - 1]), count, ids, events[|events| - 1])
  }

  // ---- invariants ----------------------------------------------------------------------------

  /** Every published tag is pending, acked or nacked, and only one of them. */
  ghost predicate Partitioned(s: State) {
    && (forall t: nat :: t in s.pending || t in s.acked || t in s.nacked <==> 1 <= t <= s.next)
    && s.pending !! s.acked && s.pending !! s.nacked && s.acked !! s.nacked
  }

  ghost predicate Ok(s: State, count: nat) {
    && Partitioned(s) && s.next <= count && |s.pending| <= s.peak <= WINDOW
    && (s.complete ==> |s.acked| == count && s.closing)
    && (s.closing ==> s.complete || s.failure.Some?)
    && (s.returned != {} ==> s.failure.Some?)
  }

  lemma {:induction false} PublishedKeeps(s: State, count: nat)
    requires Ok(s, count) && |s.pending| < WINDOW && s.next < count
    ensures Ok(Published(s), count)
  {
    assert s.next + 1 !in s.pending;
    assert |s.pending + {s.next + 1}| == |s.pending| + 1;
  }

  lemma {:induction false} PumpedKeeps(s: State, count: nat, broken: nat)
    requires Ok(s, count)
    ensures var t := Pumped(s, count, broken);
            && Ok(t, count) && t.acked == s.acked && t.nacked == s.nacked && t.returned == s.returned
            && t.complete == s.complete
            && (t.next == count || |t.pending| == WINDOW || t.closing)
            && (s.closing ==> t == s)
    decreases count - s.next
  {
    if !s.closing && |s.pending| < WINDOW && s.next < count {
      PublishedKeeps(s, count);
      if s.next + 1 != broken {
        PumpedKeeps(Published(s), count, broken);
      }
    }
  }

  lemma {:induction false} SettledKeeps(s: State, count: nat, tags: set<nat>, ack: bool)
    requires Ok(s, count) && tags <= s.pending && tags != {}
    ensures Ok(Settled(s, tags, ack), count) && !s.complete
  {
    var t := Settled(s, tags, ack);
    SubsetSize(t.pending, s.pending);
    CountedOnce(s, count);
    CountedOnce(s.(complete := false), count);
  }

  function UpTo(n: nat): (r: set<nat>)
    ensures forall t: nat :: t in r <==> 1 <= t <= n
    ensures |r| == n
  {
    if n == 0 then {} else UpTo(n - 1) + {n}
  }

  /** The counts of the report add up. */
  lemma {:induction false} CountedOnce(s: State, count: nat)
    requires Partitioned(s) && s.next <= count
    ensures |s.acked| + |s.nacked| + |s.pending| == s.next
    ensures |s.acked| + |s.nacked| + |s.pending| + (count - s.next) == count
  {
    assert s.pending + s.acked + s.nacked == UpTo(s.next);
    SizeOfThree(s.pending, s.acked, s.nacked);
  }

  lemma {:induction false} SizeOfThree(a: set<nat>, b: set<nat>, c: set<nat>)
    requires a !! b && a !! c && b !! c
    ensures |a + b + c| == |a| + |b| + |c|
  {
    assert (a + b) !! c;
  }

  lemma {:induction false} ConfirmedKeeps(s: State, count: nat, tag: nat, kind: Kind, multiple: bool, broken: nat)
    requires Ok(s, count)
    ensures Ok(Confirmed(s, count, tag, kind, multiple, broken), count)
  {
    if !kind.OtherKind? && Recognized(s, tag, multiple) {
      var t := Settled(s, Tags(s, tag, multiple), kind.Ack?);
      SettledKeeps(s, count, Tags(s, tag, multiple), kind.Ack?);
      if kind.Ack? {
        PumpedKeeps(t, count, broken);
      }
    }
  }

  lemma {:induction false} HandledKeeps(s: State, count: nat, ids: set<string>, e: Event)
    requires Ok(s, count)
    ensures Ok(Handled(s, count, ids, e), count)
  {
    match e
    case Ready(broken) => PumpedKeeps(s, count, broken);
    case Confirmation(tag, kind, multiple, broken) => ConfirmedKeeps(s, count, tag, kind, multiple, broken);
    case _ =>
  }

  /** Under any order of callbacks the window holds and every published tag is accounted for once. */
  lemma {:induction false} RunIsOk(count: nat, ids: set<string>, events: seq<Event>)
    ensures Ok(Run(count, ids, events), count)
  {
    if events != [] {
      RunIsOk(count, ids, events[..|events| - 1]);
      HandledKeeps(Run(count, ids, events[..|events| - 1]), count, ids, events[|events| - 1]);
    }
  }

  /** The report: acked, nacked, unknown and not published make up the inputs. */
  lemma {:induction false} ReportAddsUp(count: nat, ids: set<string>, events: seq<Event>)
    ensures var s := Run(count, ids, events);
            && |s.acked| + |s.nacked| + |s.pending| + (count - s.next) == count
            && |s.pending| <= s.peak <= WINDOW
            && (s.complete ==> s.acked == UpTo(count) && s.nacked == {} && s.pending == {})
  {
    var s := Run(count, ids, events);
    RunIsOk(count, ids, events);
    CountedOnce(s, count);
    if s.complete {
      assert s.nacked == {} && s.pending == {};
      assert s.acked == UpTo(count);
    }
  }

  predicate Completing(s: State, count: nat, e: Event) {
    e.Confirmation? && e.kind.Ack? && Recognized(s, e.tag, e.multiple)
    && s.acked + Tags(s, e.tag, e.multiple) == UpTo(count) && s.returned == {} && s.failure.None?
  }

  lemma {:induction false} AckCompletes(s: State, count: nat, tag: nat, multiple: bool, broken: nat)
    requires Ok(s, count) && Recognized(s, tag, multiple)
    ensures Confirmed(s, count, tag, Ack, multiple, broken).complete <==>
            Completing(s, count, Confirmation(tag, Ack, multiple, broken))
  {
    var t := Settled(s, Tags(s, tag, multiple), true);
    SettledKeeps(s, count, Tags(s, tag, multiple), true);
    PumpedKeeps(t, count, broken);
    AllAckedMeans(t, count);
  }

  lemma {:induction false} CompleteStep(s: State, count: nat, ids: set<string>, e: Event)
    requires Ok(s, count)
    ensures Handled(s, count, ids, e).complete <==> s.complete || Completing(s, count, e)
  {
    match e
    case Ready(broken) => PumpedKeeps(s, count, broken);
    case Confirmation(tag, kind, multiple, broken) =>
      if kind.Ack? && Recognized(s, tag, multiple) {
        SettledKeeps(s, count, Tags(s, tag, multiple), true);
        AckCompletes(s, count, tag, multiple, broken);
      }
    case _ =>
  }

  /**
   `complete` is set by a callback exactly when it is a recognised ack after which all tags are
   acked and nothing was returned or had failed.
   */
  lemma {:induction false} CompleteExactly(count: nat, ids: set<string>, events: seq<Event>, e: Event)
    ensures var s := Run(count, ids, events);
            Handled(s, count, ids, e).complete <==> (s.complete || Completing(s, count, e))
  {
    RunIsOk(count, ids, events);
    CompleteStep(Run(count, ids, events), count, ids, e);
  }

  lemma {:induction false} AllAckedMeans(s: State, count: nat)
    requires Partitioned(s) && s.next <= count
    ensures |s.acked| == count <==> s.acked == UpTo(count)
  {
    if |s.acked| == count {
      CountedOnce(s, count);
      assert s.pending == {} && s.nacked == {};
      assert s.acked == UpTo(count);
    }
  }

  /** The callbacks that still fail a run whose inputs are all acked. */
  predicate FailsComplete(e: Event) {
    e.Confirmation? || e.Return? || e.TotalTimer? || e.OpenError? || e.CallbackError?
  }

  /** Nothing is pending in a complete run, so even a repeated ack is unrecognised. */
  lemma {:induction false} CompleteNothingPending(s: State, count: nat)
    requires Ok(s, count) && s.complete
    ensures s.pending == {} && s.closing
  {
    CountedOnce(s, count);
  }

  lemma {:induction false} CompleteFailsOn(s: State, count: nat, ids: set<string>, e: Event)
    requires Ok(s, count) && s.complete && s.failure.None?
    ensures Handled(s, count, ids, e).failure.Some? <==> FailsComplete(e)
    ensures Handled(s, count, ids, e).complete && Ok(Handled(s, count, ids, e), count)
  {
    CompleteNothingPending(s, count);
    HandledKeeps(s, count, ids, e);
    CompleteStep(s, count, ids, e);
  }

  predicate AnyFails(events: seq<Event>) { exists i :: 0 <= i < |events| && FailsComplete(events[i]) }

  lemma {:induction false} AnyFailsMore(events: seq<Event>, e: Event)
    ensures AnyFails(events + [e]) <==> AnyFails(events) || FailsComplete(e)
  {
    var more := events + [e];
    assert more[|events|] == e && forall i :: 0 <= i < |events| ==> more[i] == events[i];
    if AnyFails(events) {
      var i :| 0 <= i < |events| && FailsComplete(events[i]);
      assert FailsComplete(more[i]);
    }
    if FailsComplete(e) { assert FailsComplete(more[|events|]); }
  }

  lemma {:induction false} RunMore(count: nat, ids: set<string>, events: seq<Event>, e: Event)
    ensures Run(count, ids, events + [e]) == Handled(Run(count, ids, events), count, ids, e)
  {
    assert (events + [e])[..|events|] == events;
  }

  /**
   `complete` is no promise that nothing fails later: a run that is complete and has not failed
   fails later exactly when one of those callbacks follows. Timers other than the total one, and
   the closing of the channel and the connection, do it no harm.
   */
  lemma {:induction false} CompleteAndFailed(count: nat, ids: set<string>, events: seq<Event>, more: seq<Event>)
    requires Run(count, ids, events).complete && Run(count, ids, events).failure.None?
    ensures Run(count, ids, events + more).complete
    ensures Run(count, ids, events + more).failure.Some? <==> AnyFails(more)
    decreases |more|
  {
    if more == [] {
      assert events + more == events;
    } else {
      var front, e := more[..|more| - 1], more[|more| - 1];
      CompleteAndFailed(count, ids, events, front);
      var s := Run(count, ids, events + front);
      assert events + more == events + front + [e] && more == front + [e];
      RunMore(count, ids, events + front, e);
      RunIsOk(count, ids, events + front);
      AnyFailsMore(front, e);
      if s.failure.None? {
        CompleteFailsOn(s, count, ids, e);
      } else {
        CompleteStep(s, count, ids, e);
        ClosingIsFinal(s, count, ids, e);
      }
    }
  }

  /** The 15 second timer is unconditional, and the loop runs on for up to 2 s after the last ack. */
  lemma {:induction false} LateTimerFails()
    ensures var s := Run(1, {"m"}, [Ready(0), Confirmation(1, Ack, false, 0)] + [TotalTimer]);
            s.complete && s.failure == Some(TotalDeadline)
  {
    var events := [Ready(0), Confirmation(1, Ack, false, 0)];
    assert events[..1] == [Ready(0)] && [Ready(0)][..0] == [];
    var s := Run(1, {"m"}, [Ready(0)]);
    assert s == Pumped(START, 1, 0) == Published(START);
    assert s.pending == {1} && s.acked == {} && Tags(s, 1, false) == {1};
    var t := Settled(s, {1}, true);
    assert t.acked == {1} && |t.acked| == 1;
    assert Run(1, {"m"}, events) == t.(complete := true, closing := true);
    RunMore(1, {"m"}, events, TotalTimer);
  }

  /**
   The multiple bit: an accepted confirmation settles every outstanding tag up to its own, all of
   them for tag 0, and no tag beyond; a tag settled once is never settled again.
   */
  lemma {:induction false} MultipleSettlesUpTo(s: State, count: nat, tag: nat, kind: Kind, multiple: bool, broken: nat,
                                               t: nat)
    requires Ok(s, count) && !kind.OtherKind? && Recognized(s, tag, multiple)
    ensures var after := Confirmed(s, count, tag, kind, multiple, broken);
            && (t in after.acked <==> t in s.acked || (kind.Ack? && t in Tags(s, tag, multiple)))
            && (t in after.nacked <==> t in s.nacked || (kind.Nack? && t in Tags(s, tag, multiple)))
            && (multiple && t <= s.next && t in after.pending ==> tag != 0 && t > tag)
            && (t in s.pending && !multiple ==> (t in after.pending <==> t != tag))
  {
    var settled := Settled(s, Tags(s, tag, multiple), kind.Ack?);
    SettledKeeps(s, count, Tags(s, tag, multiple), kind.Ack?);
    if kind.Ack? {
      PumpedOnlyAdds(settled, count, broken, t);
      PumpedKeeps(settled, count, broken);
    }
  }

  lemma {:induction false} PumpedOnlyAdds(s: State, count: nat, broken: nat, t: nat)
    ensures t <= s.next ==> (t in Pumped(s, count, broken).pending <==> t in s.pending)
    decreases count - s.next
  {
    if !s.closing && |s.pending| < WINDOW && s.next < count && s.next + 1 != broken {
      PumpedOnlyAdds(Published(s), count, broken, t);
    }
  }

  lemma {:induction false} PumpKeepsFailure(s: State, count: nat, broken: nat)
    ensures s.failure.Some? ==> Pumped(s, count, broken).failure == s.failure
    ensures s.closing ==> Pumped(s, count, broken) == s
    decreases count - s.next
  {
    if !s.closing && |s.pending| < WINDOW && s.next < count && s.next + 1 != broken {
      PumpKeepsFailure(Published(s), count, broken);
    }
  }

  lemma {:induction false} ConfirmedIsFinal(s: State, count: nat, tag: nat, kind: Kind, multiple: bool, broken: nat)
    ensures s.closing ==> Confirmed(s, count, tag, kind, multiple, broken).closing
    ensures s.closing ==> Confirmed(s, count, tag, kind, multiple, broken).next == s.next
    ensures s.failure.Some? ==> Confirmed(s, count, tag, kind, multiple, broken).failure == s.failure
  {
    if kind.Ack? && Recognized(s, tag, multiple) {
      PumpKeepsFailure(Settled(s, Tags(s, tag, multiple), true), count, broken);
    }
  }

  /** Nothing is published once the publisher is closing, and the first failure is the one kept. */
  lemma {:induction false} ClosingIsFinal(s: State, count: nat, ids: set<string>, e: Event)
    ensures s.closing ==> Handled(s, count, ids, e).closing && Handled(s, count, ids, e).next == s.next
    ensures s.failure.Some? ==> Handled(s, count, ids, e).failure == s.failure
  {
    match e
    case Ready(broken) => PumpKeepsFailure(s, count, broken);
    case Confirmation(tag, kind, multiple, broken) => ConfirmedIsFinal(s, count, tag, kind, multiple, broken);
    case _ =>
  }

  // ---- the object ----------------------------------------------------------------------------

  class Publisher {
    const ids: seq<string>
    var next: nat
    var pending: set<nat>
    var acked: set<nat>
    var nacked: set<nat>
    var returned: set<string>
    var failure: Option<Code>
    var complete: bool
    var closing: bool
    var peak: nat

    ghost function View(): State
      reads this
    {
      State(next, pending, acked, nacked, returned, failure, complete, closing, peak)
    }

    constructor (ids: seq<string>)
      ensures View() == START && this.ids == ids
    {
      this.ids := ids;
      next, pending, acked, nacked, returned := 0, {}, {}, {}, {};
      failure, complete, closing, peak := None, false, false, 0;
    }

    method Close()
      modifies this`closing
      ensures closing
    {
      closing := true;
    }

    method Fail(code: Code)
      modifies this`failure, this`closing
      ensures View() == Failed(old(View()), code)
    {
      if failure.None? {
        failure := Some(code);
      }
      Close();
    }

    /** The next input enters the window. */
    method PublishNext() returns (tag: nat)
      modifies this`next, this`pending, this`peak
      ensures View() == Published(old(View())) && tag == next
    {
      tag := next + 1;
      pending := pending + {tag};
      next := next + 1;
      peak := if |pending| > peak then |pending| else peak;
    }

    method Pump(broken: nat)
      modifies this`next, this`pending, this`peak, this`failure, this`closing
      ensures View() == Pumped(old(View()), |ids|, broken)
    {
      ghost var end := Pumped(View(), |ids|, broken);
      while !closing && |pending| < WINDOW && next < |ids|
        invariant Pumped(View(), |ids|, broken) == end
        decreases |ids| - next
      {
        var tag := PublishNext();
        if tag == broken {
          Fail(PublishCallFailed);
          return;
        }
      }
    }

    method OnReturn(id: string)
      modifies this`returned, this`failure, this`closing
      ensures View() == Returned(old(View()), set i | 0 <= i < |ids| :: ids[i], id)
    {
      if id !in ids {
        Fail(ReturnUnrecognized);
        return;
      }
      returned := returned + {id};
      Fail(MandatoryReturn);
    }

    /** The loop that moves the confirmed tags out of the window. */
    method Settle(tags: set<nat>, ack: bool)
      requires tags <= pending
      modifies this`pending, this`acked, this`nacked
      ensures View() == Settled(old(View()), tags, ack)
    {
      var rest := tags;
      ghost var pending0, acked0, nacked0 := pending, acked, nacked;
      while rest != {}
        invariant rest <= tags
        invariant forall t :: t in pending <==> t in pending0 && (t in tags ==> t in rest)
        invariant forall t :: t in acked <==> t in acked0 || (ack && t in tags && t !in rest)
        invariant forall t :: t in nacked <==> t in nacked0 || (!ack && t in tags && t !in rest)
        decreases |rest|
      {
        var item :| item in rest;
        pending, rest := pending - {item}, rest - {item};
        if ack {
          acked := acked + {item};
        } else {
          nacked := nacked + {item};
        }
      }
      assert pending == pending0 - tags;
      assert acked == if ack then acked0 + tags else acked0;
      assert nacked == if ack then nacked0 else nacked0 + tags;
    }

    method OnConfirmation(tag: nat, kind: Kind, multiple: bool, broken: nat)
      modifies this
      ensures View() == Confirmed(old(View()), |ids|, tag, kind, multiple, broken)
    {
      if kind.OtherKind? {
        Fail(InvalidConfirmation);
        return;
      }
      var tags := if multiple then set t | t in pending && (tag == 0 || t <= tag) else {tag};
      assert tags == Tags(View(), tag, multiple);
      if tags == {} || !(tags <= pending) {
        Fail(ConfirmationUnrecognized);
        return;
      }
      Settle(tags, kind.Ack?);
      if kind.Nack? {
        Fail(BrokerNack);
        return;
      }
      if |acked| == |ids| && returned == {} && failure.None? {
        complete := true;
        Close();
      } else if !closing {
        Pump(broken);
      }
    }

    method OnConnectionClosed()
      modifies this`failure
      ensures View() == Handled(old(View()), |ids|, set i | 0 <= i < |ids| :: ids[i], ConnectionClosing)
    {
      if !complete && failure.None? {
        failure := Some(ConnectionClosed);
      }
    }

    method OnChannelClosed()
      modifies this`failure, this`closing
      ensures View() == Handled(old(View()), |ids|, set i | 0 <= i < |ids| :: ids[i], ChannelClosing)
    {
      if !complete {
        Fail(ChannelClosed);
      }
    }
  }
}
