/**
 One connection through the fault proxy: the relays of both directions share a table from
 correlation id to the kind of the request (tools/subscriptions/probe_kafka_ack_fault.py:60-129).
 */
module FaultProxy {
  import opened Wrappers
  import opened Framing

  // ---- both directions over one correlation table --------------------------------------------

  /** A request whose correlation id the proxy has recorded; `sent` is set once it is forwarded. */
  datatype Request = Request(id: int, api: int, armed: bool, sent: bool)

  /** A frame with what its thread met when it handled it. */
  datatype Seen = Seen(frame: Bytes, met: Met)

  /** A use of a correlation id, by either thread. */
  datatype Use = Asked(id: int) | Replied(id: int)

  /**
   One connection: the shared table, the request that the client's thread has recorded and not yet
   passed on, and what was sent to either side; the rest is history.
   */
  datatype Session = Session(correlations: map<int, (int, bool)>, waiting: Option<Seen>, clientOver: bool,
                             toBroker: seq<Bytes>, toClient: seq<Bytes>,
                             requests: seq<Request>, uses: seq<Use>, clientLog: seq<Seen>, brokerLog: seq<Seen>)

  /**
   A frame from the client is recorded; later it is forwarded, dropped or held for good. Frames
   from the broker come in between as they like.
   */
  datatype Event = FromClient(frame: Bytes, armed: bool) | Proceed(allowed: bool) | FromBroker(frame: Bytes)

  const NEW_SESSION := Session(map[], None, false, [], [], [], [], [], [])

  function Requests(p: Proxy): Proxy { p.(isResponse := false) }

  function Responses(p: Proxy): Proxy { p.(isResponse := true) }

  /** The id, the API key and whether the fault is armed for it, from the frame itself. */
  function ParseRequest(frame: Bytes, armed: bool): Request
    requires |frame| >= 8
  {
    Request(Int32(frame[4..]), Int16(frame), Int16(frame) == 8 && armed, false)
  }

  function Kind(r: Request): (int, bool) { (r.api, r.armed) }

  /** `correlations.pop(correlation, ...)` */
  function Popped(s: Session, id: int): Option<(int, bool)> {
    if id in s.correlations then Some(s.correlations[id]) else None
  }

  function Passed(h: Handled): seq<Bytes> {
    if h.Forward? then [h.frame] else []
  }

  function Record(s: Session, frame: Bytes, armed: bool): Session {
    var m := Met(armed, false, None);
    if |frame| < 8 then s.(clientOver := true, clientLog := s.clientLog + [Seen(frame, m)])
    else
      var r := ParseRequest(frame, armed);
      s.(correlations := s.correlations[r.id := Kind(r)], waiting := Some(Seen(frame, m)),
         requests := s.requests + [r], uses := s.uses + [Asked(r.id)])
  }

  function MarkSent(requests: seq<Request>, sent: bool): seq<Request> {
    if requests == [] then []
    else requests[..|requests| - 1] + [requests[|requests| - 1].(sent := sent)]
  }

  function Pass(p: Proxy, s: Session, allowed: bool): Session
    requires s.waiting.Some?
  {
    var m := s.waiting.value.met.(allowed := allowed);
    var h := HandleRequest(Requests(p), m, s.waiting.value.frame);
    s.(waiting := None, clientOver := h.Stop?, requests := MarkSent(s.requests, h.Forward?),
       toBroker := s.toBroker + Passed(h), clientLog := s.clientLog + [s.waiting.value.(met := m)])
  }

  function Answer(p: Proxy, s: Session, frame: Bytes): Session
    requires PortsOk(p) && |frame| >= 4
  {
    var id := Int32(frame);
    var m := Met(false, false, Popped(s, id));
    s.(correlations := s.correlations - {id}, uses := s.uses + [Replied(id)],
       toClient := s.toClient + Passed(HandleResponse(Responses(p), m, frame)),
       brokerLog := s.brokerLog + [Seen(frame, m)])
  }

  function Step(p: Proxy, s: Session, e: Event): Session
    requires PortsOk(p)
  {
    match e
    case FromClient(frame, armed) => if s.clientOver || s.waiting.Some? then s else Record(s, frame, armed)
    case Proceed(allowed) => if s.waiting.None? then s else Pass(p, s, allowed)
    case FromBroker(frame) => if |frame| < 4 then s else Answer(p, s, frame)
  }

  function Run(p: Proxy, es: seq<Event>): Session
    requires PortsOk(p)
  {
    if es == [] then NEW_SESSION else Step(p, Run(p, es[..|es| - 1]), es[|es| - 1])
  }

  // ---- each direction is a relay -------------------------------------------------------------

  function MetIn(log: seq<Seen>): nat -> Met {
    (k: nat) => if k < |log| then log[k].met else Met(false, false, None)
  }

  function Frames(log: seq<Seen>): seq<Bytes> {
    seq(|log|, k requires 0 <= k < |log| => log[k].frame)
  }

  ghost predicate NoneStopped(p: Proxy, log: seq<Seen>)
    requires PortsOk(p)
  {
    forall k :: 0 <= k < |log| ==> !Handle(p, log[k].met, log[k].frame).Stop?
  }

  /** The first of some frames, which does not stop the relay, and then the others. */
  lemma {:induction false} DeliverOne(p: Proxy, met: nat -> Met, k: nat, own: seq<Bytes>, frames: seq<Bytes>)
    requires PortsOk(p) && own != [] && !Handle(p, met(k), own[0]).Stop?
    ensures Deliver(p, met, k, own + frames) ==
            Passed(Handle(p, met(k), own[0])) + Deliver(p, met, k + 1, own[1..] + frames)
  {
    assert (own + frames)[0] == own[0] && (own + frames)[1..] == own[1..] + frames;
  }

  lemma {:induction false} DeliverFrom(p: Proxy, log: seq<Seen>, more: seq<Seen>, frames: seq<Bytes>, k: nat)
    requires PortsOk(p) && NoneStopped(p, log) && k <= |log| && log <= more
    ensures Deliver(p, MetIn(more), k, Frames(log)[k..] + frames) ==
            Deliver(p, MetIn(log), k, Frames(log)[k..]) + Deliver(p, MetIn(more), |log|, frames)
    decreases |log| - k
  {
    var own := Frames(log)[k..];
    if k == |log| {
      assert own == [] && own + frames == frames;
    } else {
      assert own[0] == log[k].frame && more[k] == log[k] && own[1..] == Frames(log)[k + 1..];
      DeliverFrom(p, log, more, frames, k + 1);
      DeliverOne(p, MetIn(more), k, own, frames);
      DeliverOne(p, MetIn(log), k, own, []);
      assert own + [] == own && own[1..] + [] == own[1..];
    }
  }

  /** What is sent on of one more frame. */
  lemma {:induction false} DeliverMore(p: Proxy, log: seq<Seen>, last: Seen)
    requires PortsOk(p) && NoneStopped(p, log)
    ensures Deliver(p, MetIn(log + [last]), 0, Frames(log + [last])) ==
            Deliver(p, MetIn(log), 0, Frames(log)) + Passed(Handle(p, last.met, last.frame))
  {
    var more := log + [last];
    DeliverFrom(p, log, more, [last.frame], 0);
    assert Frames(log)[0..] + [last.frame] == Frames(more) && Frames(log)[0..] == Frames(log);
    assert Deliver(p, MetIn(more), |log| + 1, [last.frame][1..]) == [];
  }

  /** Either side gets what a relay over the frames of the other side sends, and nobody has stopped early. */
  ghost predicate Relays(p: Proxy, s: Session)
    requires PortsOk(p)
  {
    && s.toBroker == Deliver(Requests(p), MetIn(s.clientLog), 0, Frames(s.clientLog))
    && s.toClient == Deliver(Responses(p), MetIn(s.brokerLog), 0, Frames(s.brokerLog))
    && (!s.clientOver ==> NoneStopped(Requests(p), s.clientLog))
    && (s.clientOver ==> s.clientLog != [] && s.waiting.None?)
    && NoneStopped(Responses(p), s.brokerLog)
    && (s.clientOver ==> StoppedLast(Requests(p), s.clientLog))
    && (s.waiting.Some? ==> |s.waiting.value.frame| >= 8)
  }

  ghost predicate StoppedLast(p: Proxy, log: seq<Seen>)
    requires PortsOk(p)
  {
    && log != [] && NoneStopped(p, log[..|log| - 1])
    && Handle(p, log[|log| - 1].met, log[|log| - 1].frame).Stop?
  }

  lemma {:induction false} OneMore(p: Proxy, log: seq<Seen>, last: Seen)
    requires PortsOk(p) && NoneStopped(p, log)
    ensures Handle(p, last.met, last.frame).Stop? ==> StoppedLast(p, log + [last])
    ensures !Handle(p, last.met, last.frame).Stop? ==> NoneStopped(p, log + [last])
  {
    assert (log + [last])[..|log|] == log;
  }

  lemma {:induction false} StepRelays(p: Proxy, s: Session, e: Event)
    requires PortsOk(p) && Relays(p, s)
    ensures Relays(p, Step(p, s, e))
  {
    match e
    case FromClient(frame, armed) =>
      if !s.clientOver && s.waiting.None? && |frame| < 8 {
        DeliverMore(Requests(p), s.clientLog, Seen(frame, Met(armed, false, None)));
        OneMore(Requests(p), s.clientLog, Seen(frame, Met(armed, false, None)));
      }
    case Proceed(allowed) =>
      if s.waiting.Some? {
        var last := s.waiting.value.(met := s.waiting.value.met.(allowed := allowed));
        DeliverMore(Requests(p), s.clientLog, last);
        OneMore(Requests(p), s.clientLog, last);
      }
    case FromBroker(frame) =>
      if |frame| >= 4 {
        var last := Seen(frame, Met(false, false, Popped(s, Int32(frame))));
        DeliverMore(Responses(p), s.brokerLog, last);
        OneMore(Responses(p), s.brokerLog, last);
      }
  }

  lemma {:induction false} RunRelays(p: Proxy, es: seq<Event>)
    requires PortsOk(p)
    ensures Relays(p, Run(p, es))
  {
    if es != [] {
      RunRelays(p, es[..|es| - 1]);
      StepRelays(p, Run(p, es[..|es| - 1]), es[|es| - 1]);
    }
  }

  /** Nothing that follows a frame which ended the relay is looked at. */
  lemma {:induction false} DeliverStops(p: Proxy, log: seq<Seen>, frames: seq<Bytes>)
    requires PortsOk(p) && StoppedLast(p, log) && Frames(log) <= frames
    ensures Deliver(p, MetIn(log), 0, frames) == Deliver(p, MetIn(log), 0, Frames(log))
  {
    var front, n := log[..|log| - 1], |log| - 1;
    DeliverFrom(p, front, log, frames[n..], 0);
    DeliverFrom(p, front, log, Frames(log)[n..], 0);
    assert Frames(front)[0..] + frames[n..] == frames;
    assert Frames(front)[0..] + Frames(log)[n..] == Frames(log);
    assert frames[n] == Frames(log)[n] == log[n].frame;
  }

  /**
   The two relays of a connection, run over their whole streams with what each frame really met,
   send exactly what the connection as a whole sends to either side.
   */
  lemma {:induction false} RelaysMakeSession(p: Proxy, es: seq<Event>, client: Bytes, broker: Bytes)
    requires PortsOk(p)
    requires Frames(Run(p, es).clientLog) <= Parse(client).frames
    requires Run(p, es).clientOver || Frames(Run(p, es).clientLog) == Parse(client).frames
    requires Frames(Run(p, es).brokerLog) == Parse(broker).frames
    ensures var s := Run(p, es);
            && s.toBroker == Deliver(Requests(p), MetIn(s.clientLog), 0, Parse(client).frames)
            && s.toClient == Deliver(Responses(p), MetIn(s.brokerLog), 0, Parse(broker).frames)
  {
    RunRelays(p, es);
    if Run(p, es).clientOver { DeliverStops(Requests(p), Run(p, es).clientLog, Parse(client).frames); }
  }

  // ---- whose response is it ------------------------------------------------------------------

  /** How many requests with this id were forwarded. */
  function Sents(requests: seq<Request>, id: int): nat {
    if requests == [] then 0
    else
      var last := requests[|requests| - 1];
      Sents(requests[..|requests| - 1], id) + if last.sent && last.id == id then 1 else 0
  }

  function Answers(uses: seq<Use>, id: int): nat {
    if uses == [] then 0
    else Answers(uses[..|uses| - 1], id) + if uses[|uses| - 1] == Replied(id) then 1 else 0
  }

  /** The last thing that happened to the id was a request. */
  predicate LastIsAsk(uses: seq<Use>, id: int) {
    uses != [] && if uses[|uses| - 1].id == id then uses[|uses| - 1].Asked? else LastIsAsk(uses[..|uses| - 1], id)
  }

  predicate Known(requests: seq<Request>, id: int) {
    exists i :: 0 <= i < |requests| && requests[i].id == id
  }

  /** The last request with this id. */
  function Last(requests: seq<Request>, id: int): (i: nat)
    requires Known(requests, id)
    ensures i < |requests| && requests[i].id == id
    ensures forall j :: i < j < |requests| ==> requests[j].id != id
  {
    if requests[|requests| - 1].id == id then |requests| - 1 else Last(requests[..|requests| - 1], id)
  }

  /**
   The broker answers the requests of one id that reached it in order: this is the request that the
   next response with the id belongs to.
   */
  ghost predicate OwnRequest(s: Session, id: int, i: nat) {
    && i < |s.requests| && s.requests[i].id == id && s.requests[i].sent
    && Sents(s.requests[..i], id) == Answers(s.uses, id)
  }

  /** The table holds the last request of every id whose last use was a request, and nothing else. */
  ghost predicate TableOk(s: Session) {
    && (forall id :: id in s.correlations <==> LastIsAsk(s.uses, id))
    && (forall id :: id in s.correlations ==>
          Known(s.requests, id) && s.correlations[id] == Kind(s.requests[Last(s.requests, id)]))
  }

  lemma {:induction false} LastAfter(requests: seq<Request>, r: Request, id: int)
    ensures Known(requests + [r], id) <==> r.id == id || Known(requests, id)
    ensures Known(requests + [r], id) ==>
              Last(requests + [r], id) == if r.id == id then |requests| else Last(requests, id)
  {
    var more := requests + [r];
    assert more[|requests|] == r;
    assert forall i :: 0 <= i < |requests| ==> more[i] == requests[i];
  }

  /** Being forwarded changes neither the ids nor the kinds of the requests. */
  ghost predicate SameKinds(a: seq<Request>, b: seq<Request>) {
    |a| == |b| && forall i :: 0 <= i < |a| ==> a[i].id == b[i].id && Kind(a[i]) == Kind(b[i])
  }

  lemma {:induction false} LastSame(a: seq<Request>, b: seq<Request>, id: int)
    requires SameKinds(a, b) && Known(a, id)
    ensures Known(b, id) && Last(a, id) == Last(b, id)
  {
    assert b[Last(a, id)].id == id;
  }

  lemma {:induction false} LastAskAfter(uses: seq<Use>, u: Use, id: int)
    ensures LastIsAsk(uses + [u], id) == if u.id == id then u.Asked? else LastIsAsk(uses, id)
  {
    assert (uses + [u])[..|uses|] == uses;
  }

  lemma {:induction false} RecordTable(s: Session, frame: Bytes, armed: bool)
    requires TableOk(s) && |frame| >= 8
    ensures TableOk(Record(s, frame, armed))
  {
    var s', r := Record(s, frame, armed), ParseRequest(frame, armed);
    forall id
      ensures id in s'.correlations <==> LastIsAsk(s'.uses, id)
      ensures id in s'.correlations ==>
                Known(s'.requests, id) && s'.correlations[id] == Kind(s'.requests[Last(s'.requests, id)])
    {
      LastAskAfter(s.uses, Asked(r.id), id);
      LastAfter(s.requests, r, id);
    }
  }

  lemma {:induction false} PassTable(p: Proxy, s: Session, allowed: bool)
    requires TableOk(s) && s.waiting.Some?
    ensures TableOk(Pass(p, s, allowed))
  {
    var s' := Pass(p, s, allowed);
    assert SameKinds(s.requests, s'.requests);
    forall id | id in s'.correlations
      ensures Known(s'.requests, id) && s'.correlations[id] == Kind(s'.requests[Last(s'.requests, id)])
    {
      LastSame(s.requests, s'.requests, id);
    }
  }

  lemma {:induction false} AnswerTable(p: Proxy, s: Session, frame: Bytes)
    requires PortsOk(p) && |frame| >= 4 && TableOk(s)
    ensures TableOk(Answer(p, s, frame))
  {
    forall id
      ensures id in Answer(p, s, frame).correlations <==> LastIsAsk(Answer(p, s, frame).uses, id)
    {
      LastAskAfter(s.uses, Replied(Int32(frame)), id);
    }
  }

  lemma {:induction false} RunTable(p: Proxy, es: seq<Event>)
    requires PortsOk(p)
    ensures TableOk(Run(p, es))
  {
    if es != [] {
      RunTable(p, es[..|es| - 1]);
      var s := Run(p, es[..|es| - 1]);
      match es[|es| - 1]
      case FromClient(frame, armed) =>
        if !s.clientOver && s.waiting.None? && |frame| >= 8 { RecordTable(s, frame, armed); }
      case Proceed(allowed) => if s.waiting.Some? { PassTable(p, s, allowed); }
      case FromBroker(frame) => if |frame| >= 4 { AnswerTable(p, s, frame); }
    }
  }

  lemma {:induction false} SentsSplit(requests: seq<Request>, id: int, i: nat)
    requires i < |requests| && requests[i].id == id && requests[i].sent
    ensures Sents(requests[..i], id) + 1 <= Sents(requests, id)
    ensures (forall j :: i < j < |requests| ==> requests[j].id != id) ==>
              Sents(requests[..i], id) + 1 == Sents(requests, id)
    ensures forall j :: i < j < |requests| && requests[j].id == id && requests[j].sent ==>
              Sents(requests[..i], id) < Sents(requests[..j], id)
    decreases |requests|
  {
    var front := requests[..|requests| - 1];
    if i < |front| {
      SentsSplit(front, id, i);
      assert front[..i] == requests[..i];
      assert forall j :: 0 <= j < |front| ==> front[..j] == requests[..j];
    }
  }

  /**
   The table names a response's own request exactly when the last use of the id was a request, that
   request was forwarded, and it is the only forwarded one still unanswered.
   */
  lemma {:induction false} LastIsOwn(s: Session, id: int, i: nat)
    requires OwnRequest(s, id, i)
    ensures Known(s.requests, id)
    ensures Last(s.requests, id) == i <==>
            s.requests[Last(s.requests, id)].sent && Sents(s.requests, id) == Answers(s.uses, id) + 1
  {
    assert s.requests[i].id == id;
    var last := Last(s.requests, id);
    SentsSplit(s.requests, id, i);
    if s.requests[last].sent { SentsSplit(s.requests, id, last); }
  }

  lemma {:induction false} AfterOne(p: Proxy, es: seq<Event>, e: Event)
    requires PortsOk(p)
    ensures Run(p, es + [e]) == Step(p, Run(p, es), e)
  {
    assert (es + [e])[..|es|] == es;
  }

  /**
   What the proxy classifies a response by, in every interleaving and all fault modes: the kind of
   its own request exactly when the id's last use was a request of that kind; and the entry is that
   of its own request exactly when the last request with the id was forwarded and is the only one
   the broker still has to answer.
   */
  lemma {:induction false} ClassifiedByOwnRequest(p: Proxy, es: seq<Event>, frame: Bytes, i: nat)
    requires PortsOk(p) && |frame| >= 4 && OwnRequest(Run(p, es), Int32(frame), i)
    ensures var s, id := Run(p, es), Int32(frame);
            var popped := Run(p, es + [FromBroker(frame)]).brokerLog[|s.brokerLog|].met.popped;
            && Known(s.requests, id)
            && (popped == Some(Kind(s.requests[i])) <==>
                  LastIsAsk(s.uses, id) && Kind(s.requests[Last(s.requests, id)]) == Kind(s.requests[i]))
            && (Last(s.requests, id) == i <==>
                  s.requests[Last(s.requests, id)].sent && Sents(s.requests, id) == Answers(s.uses, id) + 1)
  {
    RunTable(p, es);
    AfterOne(p, es, FromBroker(frame));
    LastIsOwn(Run(p, es), Int32(frame), i);
  }

  /** What the fault is to do to a response, in terms of the request it answers. */
  function OwnEffect(p: Proxy, r: Request, frame: Bytes): Handled
    requires PortsOk(p)
  {
    if r.api == 8 && r.armed && p.fault.DropResponse? then Drop
    else if r.api == 3 || r.api == 10 then Forward(Replace(frame, Pack32(p.upstreamPort), Pack32(p.port)))
    else Forward(frame)
  }

  /** A request that is not armed is recorded and passed on. */
  lemma {:induction false} PlainRequest(p: Proxy, es: seq<Event>, frame: Bytes)
    requires PortsOk(p) && |frame| >= 8 && !Run(p, es).clientOver && Run(p, es).waiting.None?
    ensures var s, s' := Run(p, es), Run(p, es + [FromClient(frame, false), Proceed(true)]);
            var r := ParseRequest(frame, false);
            && !s'.clientOver && s'.waiting.None? && s'.toClient == s.toClient && s'.brokerLog == s.brokerLog
            && s'.requests == s.requests + [r.(sent := true)] && s'.uses == s.uses + [Asked(r.id)]
            && s'.correlations == s.correlations[r.id := Kind(r)]
  {
    var es1 := es + [FromClient(frame, false)];
    AfterOne(p, es, FromClient(frame, false));
    AfterOne(p, es1, Proceed(true));
    assert es1 + [Proceed(true)] == es + [FromClient(frame, false), Proceed(true)];
    var s, r := Run(p, es), ParseRequest(frame, false);
    assert Run(p, es1).requests == s.requests + [r];
    assert MarkSent(s.requests + [r], true) == s.requests + [r.(sent := true)];
  }

  lemma {:induction false} AnswersAfter(uses: seq<Use>, u: Use, id: int)
    ensures Answers(uses + [u], id) == Answers(uses, id) + if u == Replied(id) then 1 else 0
  {
    assert (uses + [u])[..|uses|] == uses;
  }

  lemma {:induction false} TwoRequests(p: Proxy, a: Bytes, b: Bytes)
    requires PortsOk(p) && |a| >= 8 && |b| >= 8
    ensures var s := Run(p, [FromClient(a, false), Proceed(true), FromClient(b, false), Proceed(true)]);
            var q, r := ParseRequest(a, false), ParseRequest(b, false);
            && s.requests == [q.(sent := true), r.(sent := true)] && s.uses == [Asked(q.id), Asked(r.id)]
            && s.correlations == map[q.id := Kind(q)][r.id := Kind(r)] && s.toClient == [] && s.brokerLog == []
  {
    var first := [FromClient(a, false), Proceed(true)];
    assert [] + first == first;
    PlainRequest(p, [], a);
    assert first + [FromClient(b, false), Proceed(true)] ==
           [FromClient(a, false), Proceed(true), FromClient(b, false), Proceed(true)];
    PlainRequest(p, first, b);
  }

  lemma {:induction false} FirstOfTwo(s: Session, q: Request, r: Request, id: int)
    requires s.requests == [q, r] && s.uses == [Asked(id), Asked(id)] && q.id == id && q.sent
    ensures OwnRequest(s, id, 0)
  {
    AnswersAfter([], Asked(id), id);
    AnswersAfter([Asked(id)], Asked(id), id);
    assert [] + [Asked(id)] == [Asked(id)] && [Asked(id)] + [Asked(id)] == s.uses;
    assert s.requests[..0] == [];
  }

  /**
   An id that is used again while its request is outstanding misleads: the response to a Metadata
   request is taken for one to the OffsetCommit request that followed under the same id, and the
   client gets it with the broker's port in it.
   */
  lemma {:induction false} ReuseMisleads(p: Proxy, a: Bytes, b: Bytes, answer: Bytes)
    requires PortsOk(p) && |a| >= 8 && |b| >= 8 && |answer| >= 4
    requires Int16(a) == 3 && Int16(b) == 8 && Int32(a[4..]) == Int32(b[4..]) == Int32(answer)
    ensures var es := [FromClient(a, false), Proceed(true), FromClient(b, false), Proceed(true)];
            var s, s' := Run(p, es), Run(p, es + [FromBroker(answer)]);
            && OwnRequest(s, Int32(answer), 0) && Kind(s.requests[0]) == (3, false)
            && |s'.brokerLog| == 1 && s'.brokerLog[0].met.popped == Some((8, false))
            && s'.toClient == [answer]
            && OwnEffect(p, s.requests[0], answer) == Forward(Replace(answer, Pack32(p.upstreamPort), Pack32(p.port)))
  {
    var es := [FromClient(a, false), Proceed(true), FromClient(b, false), Proceed(true)];
    TwoRequests(p, a, b);
    FirstOfTwo(Run(p, es), ParseRequest(a, false).(sent := true), ParseRequest(b, false).(sent := true), Int32(answer));
    AfterOne(p, es, FromBroker(answer));
  }

  // ---- a client that never reuses an outstanding id ------------------------------------------

  /** The forwarded requests of an id that have no answer yet. */
  function Outstanding(s: Session, id: int): int { Sents(s.requests, id) - Answers(s.uses, id) }

  /** An id is recorded only when nothing is outstanding under it, and answered only when one is. */
  ghost predicate Disciplined(s: Session, e: Event) {
    match e
    case FromClient(frame, _) =>
      |frame| >= 8 && !s.clientOver && s.waiting.None? ==> Outstanding(s, Int32(frame[4..])) == 0
    case Proceed(_) => true
    case FromBroker(frame) => |frame| >= 4 ==> Outstanding(s, Int32(frame)) == 1
  }

  ghost predicate NoReuse(p: Proxy, es: seq<Event>)
    requires PortsOk(p)
  {
    es == [] || (NoReuse(p, es[..|es| - 1]) && Disciplined(Run(p, es[..|es| - 1]), es[|es| - 1]))
  }

  /** What is known of an id: the request outstanding under it is its last one and in the table. */
  ghost predicate IdOk(s: Session, id: int) {
    && 0 <= Outstanding(s, id) <= 1
    && (Outstanding(s, id) == 1 ==>
          LastIsAsk(s.uses, id) && Known(s.requests, id) && s.requests[Last(s.requests, id)].sent)
  }

  /** The request that is waiting is the last one, in the table, and not counted yet. */
  ghost predicate WaitingOk(s: Session) {
    s.waiting.Some? ==>
      && s.requests != [] && !s.requests[|s.requests| - 1].sent
      && LastIsAsk(s.uses, s.requests[|s.requests| - 1].id)
      && Outstanding(s, s.requests[|s.requests| - 1].id) == 0
  }

  ghost predicate OneOutstanding(s: Session) {
    WaitingOk(s) && forall id :: IdOk(s, id)
  }

  lemma {:induction false} SentsAfter(requests: seq<Request>, r: Request, id: int)
    ensures Sents(requests + [r], id) == Sents(requests, id) + if r.sent && r.id == id then 1 else 0
  {
    assert (requests + [r])[..|requests|] == requests;
  }

  lemma {:induction false} RecordOutstanding(s: Session, frame: Bytes, armed: bool)
    requires OneOutstanding(s) && |frame| >= 8 && Outstanding(s, Int32(frame[4..])) == 0
    ensures OneOutstanding(Record(s, frame, armed))
  {
    var s', r := Record(s, frame, armed), ParseRequest(frame, armed);
    forall id
      ensures IdOk(s', id) && Outstanding(s', id) == Outstanding(s, id)
      ensures id == r.id ==> LastIsAsk(s'.uses, id)
    {
      assert IdOk(s, id);
      SentsAfter(s.requests, r, id);
      AnswersAfter(s.uses, Asked(r.id), id);
      LastAskAfter(s.uses, Asked(r.id), id);
      LastAfter(s.requests, r, id);
    }
  }

  lemma {:induction false} PassOutstanding(p: Proxy, s: Session, allowed: bool)
    requires OneOutstanding(s) && s.waiting.Some?
    ensures OneOutstanding(Pass(p, s, allowed))
  {
    var s', front, last := Pass(p, s, allowed), s.requests[..|s.requests| - 1], s.requests[|s.requests| - 1];
    var sent := s'.requests[|s.requests| - 1].sent;
    assert s.requests == front + [last] && s'.requests == front + [last.(sent := sent)];
    forall id
      ensures IdOk(s', id)
    {
      assert IdOk(s, id);
      SentsAfter(front, last, id);
      SentsAfter(front, last.(sent := sent), id);
      LastAfter(front, last, id);
      LastAfter(front, last.(sent := sent), id);
    }
  }

  lemma {:induction false} AnswerOutstanding(p: Proxy, s: Session, frame: Bytes)
    requires PortsOk(p) && |frame| >= 4 && OneOutstanding(s) && Outstanding(s, Int32(frame)) == 1
    ensures OneOutstanding(Answer(p, s, frame))
  {
    var s' := Answer(p, s, frame);
    forall id
      ensures IdOk(s', id)
      ensures id != Int32(frame) ==> Outstanding(s', id) == Outstanding(s, id)
      ensures id != Int32(frame) ==> LastIsAsk(s'.uses, id) == LastIsAsk(s.uses, id)
    {
      assert IdOk(s, id);
      AnswersAfter(s.uses, Replied(Int32(frame)), id);
      LastAskAfter(s.uses, Replied(Int32(frame)), id);
    }
  }

  lemma {:induction false} SameHistory(s: Session, s': Session)
    requires OneOutstanding(s) && s'.requests == s.requests && s'.uses == s.uses
    requires s'.waiting.Some? ==> s.waiting.Some?
    ensures OneOutstanding(s')
  {
    forall id ensures IdOk(s', id) { assert IdOk(s, id); }
  }

  lemma {:induction false} RunOutstanding(p: Proxy, es: seq<Event>)
    requires PortsOk(p) && NoReuse(p, es)
    ensures OneOutstanding(Run(p, es))
  {
    if es != [] {
      RunOutstanding(p, es[..|es| - 1]);
      var s := Run(p, es[..|es| - 1]);
      match es[|es| - 1]
      case FromClient(frame, armed) =>
        if !s.clientOver && s.waiting.None? && |frame| >= 8 { RecordOutstanding(s, frame, armed); }
        else { SameHistory(s, Run(p, es)); }
      case Proceed(allowed) => if s.waiting.Some? { PassOutstanding(p, s, allowed); }
      case FromBroker(frame) => if |frame| >= 4 { AnswerOutstanding(p, s, frame); }
    }
  }

  /**
   With a client that never reuses an outstanding id, every response is classified by the request
   it belongs to, dropped requests or not: what the client gets of it is what that request's own
   kind asks for.
   */
  lemma {:induction false} NoReuseClassifies(p: Proxy, es: seq<Event>, frame: Bytes) returns (i: nat)
    requires PortsOk(p) && |frame| >= 4 && NoReuse(p, es + [FromBroker(frame)])
    ensures OwnRequest(Run(p, es), Int32(frame), i)
    ensures var s, s' := Run(p, es), Run(p, es + [FromBroker(frame)]);
            && s'.brokerLog[|s.brokerLog|].met.popped == Some(Kind(s.requests[i]))
            && s'.toClient == s.toClient + Passed(OwnEffect(p, s.requests[i], frame))
  {
    AfterOne(p, es, FromBroker(frame));
    assert (es + [FromBroker(frame)])[..|es|] == es;
    RunOutstanding(p, es);
    RunTable(p, es);
    var s, id := Run(p, es), Int32(frame);
    assert IdOk(s, id);
    i := Last(s.requests, id);
    SentsSplit(s.requests, id, i);
  }
}
