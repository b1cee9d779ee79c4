/**
 The promises of the reconciliation target over every run: what the object table holds,
 what a completed batch deletes and keeps, how generations and batch states move, and that
 redeliveries are invisible.
 */
module TargetTheorems {
  import opened Wrappers
  import opened Sets
  import opened TargetTables
  import opened TargetHistory

  /** One run: the tables after it, the accepted events, and every answer given. */
  datatype Trace = Trace(tables: Tables, log: Log, outcomes: seq<Outcome>)

  function Advance(r: Trace, e: Envelope): Trace {
    var (tables, outcome) := Apply(r.tables, e);
    Trace(tables,
          if Accepts(r.tables, e) then r.log + [NewEntry(r.tables, e)] else r.log,
          r.outcomes + [outcome])
  }

  function Run(es: seq<Envelope>): Trace {
    if es == [] then Trace(NO_TABLES, [], []) else Advance(Run(es[..|es| - 1]), es[|es| - 1])
  }

  lemma {:induction false} RunNext(es: seq<Envelope>, e: Envelope)
    ensures Run(es + [e]) == Advance(Run(es), e)
  {
    assert (es + [e])[..|es|] == es;
  }

  /** A valid delivery that the target cannot tell from entry `en` of its log. */
  predicate Redelivers(en: Entry, e: Envelope) {
    Validate(e) && EventKeyOf(e) == EventKeyOf(en.envelope) && DigestOf(e) == DigestOf(en.envelope)
  }

  lemma {:induction false} SameDigest(e: Envelope, f: Envelope)
    requires EventKeyOf(e) == EventKeyOf(f) && DigestOf(e) == DigestOf(f)
    ensures OwnerOf(e) == OwnerOf(f) && e.kind == f.kind && e.attrs == f.attrs && e.value == f.value
  {
  }

  lemma {:induction false} ReplayOfEntry(t: Tables, log: Log, e: Envelope, i: nat)
    requires Consistent(t, log) && i < |log| && Redelivers(log[i], e)
    ensures Apply(t, e) == (t, Answered(log[i].reply.(applied := false)))
  {
    SameDigest(e, log[i].envelope);
    assert ScopeMatches(t.scopes[OwnerOf(log[i].envelope)], log[i].envelope);
    assert OpenScope(t, e) == t;
  }

  /** An answer that was not applied comes from an entry of the log. */
  lemma {:induction false} ReplayHasEntry(t: Tables, log: Log, e: Envelope) returns (i: nat)
    requires Consistent(t, log) && Apply(t, e).1.Answered? && !Accepts(t, e)
    ensures i < |log| && Redelivers(log[i], e)
  {
    if EventKeyOf(e) !in t.events {
      MutateKeepsEvents(OpenScope(t, e), e);
      assert false;
    }
    i :| 0 <= i < |log| && EventKeyOf(log[i].envelope) == EventKeyOf(e);
  }

  /** Only an accepted event changes any table. */
  lemma {:induction false} OthersChangeNothing(t: Tables, log: Log, e: Envelope)
    requires Consistent(t, log) && !Accepts(t, e)
    ensures Apply(t, e).0 == t
  {
    if Apply(t, e).1.Answered? {
      var i := ReplayHasEntry(t, log, e);
      ReplayOfEntry(t, log, e, i);
    }
  }

  lemma {:induction false} RunIsConsistent(es: seq<Envelope>)
    ensures Consistent(Run(es).tables, Run(es).log)
  {
    if es == [] {
      EmptyIsConsistent();
    } else {
      var r, e := Run(es[..|es| - 1]), es[|es| - 1];
      RunIsConsistent(es[..|es| - 1]);
      if Accepts(r.tables, e) {
        Step(r.tables, r.log, e);
      } else {
        OthersChangeNothing(r.tables, r.log, e);
      }
    }
  }

  // ---- redelivery ----------------------------------------------------------------------------

  datatype Delivery = Fresh(e: Envelope) | Again(e: Envelope)

  function All(ds: seq<Delivery>): seq<Envelope> {
    if ds == [] then [] else All(ds[..|ds| - 1]) + [ds[|ds| - 1].e]
  }

  function Originals(ds: seq<Delivery>): seq<Envelope> {
    if ds == [] then []
    else Originals(ds[..|ds| - 1]) + if ds[|ds| - 1].Fresh? then [ds[|ds| - 1].e] else []
  }

  /** Every repeated delivery repeats some event accepted before it. */
  ghost predicate OnlyRepeats(ds: seq<Delivery>) {
    ds == [] ||
    (&& OnlyRepeats(ds[..|ds| - 1])
     && (ds[|ds| - 1].Again? ==> RepeatsEntry(Run(Originals(ds[..|ds| - 1])).log, ds[|ds| - 1].e)))
  }

  ghost predicate RepeatsEntry(log: Log, e: Envelope) {
    exists i :: 0 <= i < |log| && Redelivers(log[i], e)
  }

  /** The answers to the deliveries that are not repeats. */
  function FreshOutcomes(ds: seq<Delivery>, outcomes: seq<Outcome>): seq<Outcome>
    requires |ds| == |outcomes|
  {
    if ds == [] then []
    else FreshOutcomes(ds[..|ds| - 1], outcomes[..|ds| - 1])
         + if ds[|ds| - 1].Fresh? then [outcomes[|ds| - 1]] else []
  }

  lemma {:induction false} RunLength(es: seq<Envelope>)
    ensures |Run(es).outcomes| == |es|
  {
    if es != [] { RunLength(es[..|es| - 1]); }
  }

  lemma {:induction false} AllLength(ds: seq<Delivery>)
    ensures |All(ds)| == |ds|
  {
    if ds != [] { AllLength(ds[..|ds| - 1]); }
  }

  /**
   Any number of redeliveries of accepted events, inserted anywhere later in a run, change
   neither the final tables nor the answer to any other event.
   */
  lemma {:induction false} RedeliveriesAreInvisible(ds: seq<Delivery>)
    requires OnlyRepeats(ds)
    ensures Run(All(ds)).tables == Run(Originals(ds)).tables
    ensures Run(All(ds)).log == Run(Originals(ds)).log
    ensures |Run(All(ds)).outcomes| == |ds|
    ensures FreshOutcomes(ds, Run(All(ds)).outcomes) == Run(Originals(ds)).outcomes
  {
    RunLength(All(ds));
    AllLength(ds);
    if ds != [] {
      var front, d := ds[..|ds| - 1], ds[|ds| - 1];
      RedeliveriesAreInvisible(front);
      RunNext(All(front), d.e);
      RunNext(Originals(front), d.e);
      assert Run(All(ds)).outcomes[..|front|] == Run(All(front)).outcomes;
      if d.Again? {
        RunIsConsistent(Originals(front));
        var r := Run(Originals(front));
        var i :| 0 <= i < |r.log| && Redelivers(r.log[i], d.e);
        ReplayOfEntry(r.tables, r.log, d.e, i);
        assert Originals(ds) == Originals(front);
      }
    }
  }

  /** A redelivery is answered with the stored reply, marked as not applied. */
  lemma {:induction false} RedeliveryAnswer(es: seq<Envelope>, i: nat, e: Envelope)
    requires i < |Run(es).log| && Redelivers(Run(es).log[i], e)
    ensures Run(es + [e]).outcomes == Run(es).outcomes + [Answered(Run(es).log[i].reply.(applied := false))]
    ensures Run(es + [e]).tables == Run(es).tables
  {
    RunIsConsistent(es);
    RunNext(es, e);
    ReplayOfEntry(Run(es).tables, Run(es).log, e, i);
  }

  predicate IsWatch(e: Envelope) { !IsControl(e.kind) && !IsList(e) }

  /**
   An event that differs in `sync` alone is a redelivery exactly when it is a watch event; a listed
   or a control event with another `sync` is another event.
   */
  lemma {:induction false} SyncCounts(en: Entry, sync: Option<Sync>)
    requires Validate(en.envelope) && Validate(en.envelope.(sync := sync))
    ensures Redelivers(en, en.envelope.(sync := sync)) <==> IsWatch(en.envelope) || sync == en.envelope.sync
  {
    var e := en.envelope.(sync := sync);
    assert DigestOf(e).sync == if IsWatch(e) then None else sync;
  }

  function Envelopes(log: Log): (es: seq<Envelope>)
    ensures |es| == |log|
  {
    if log == [] then [] else Envelopes(log[..|log| - 1]) + [log[|log| - 1].envelope]
  }

  /** All five tables, scope attributes included, are those of a run of the accepted events alone. */
  lemma {:induction false} LogRebuildsTables(es: seq<Envelope>)
    ensures Run(Envelopes(Run(es).log)).tables == Run(es).tables
    ensures Run(Envelopes(Run(es).log)).log == Run(es).log
  {
    if es != [] {
      var front, e := es[..|es| - 1], es[|es| - 1];
      var r := Run(front);
      LogRebuildsTables(front);
      if Accepts(r.tables, e) {
        var log := r.log + [NewEntry(r.tables, e)];
        assert log[..|log| - 1] == r.log;
        RunNext(Envelopes(r.log), e);
      } else {
        RunIsConsistent(front);
        OthersChangeNothing(r.tables, r.log, e);
      }
    }
  }

  // ---- objects -------------------------------------------------------------------------------

  /**
   The object table is a function of the accepted events: a uid is present exactly when it has
   a last touch, that touch is a write, and no batch started after it has completed. The row is
   what that write carried.
   */
  lemma {:induction false} ObjectTableIsHistory(es: seq<Envelope>, k: ObjectKey)
    ensures k in Run(es).tables.objects <==> exists i: nat :: Live(Run(es).log, k, i)
    ensures forall i: nat :: Live(Run(es).log, k, i) ==>
              RowOf(Run(es).tables.objects[k], Run(es).log[i].envelope, Gen(Run(es).log, k.owner, i))
  {
    RunIsConsistent(es);
  }

  function WritesOf(t: Tables, k: ObjectKey): nat {
    if k in t.objects then t.objects[k].writes else 0
  }

  /** The accepted writes of an object since it was last deleted, by an event or by a completion. */
  ghost function StandingWrites(log: Log, k: ObjectKey): nat {
    if log == [] then 0
    else
      var before, last := StandingWrites(log[..|log| - 1], k), log[|log| - 1];
      if Writes(last, k) then before + 1
      else if Removes(last, k) then 0
      else if IsComplete(last, k.owner) && !(exists i: nat :: Live(log, k, i)) then 0
      else before
  }

  lemma {:induction false} EffectWrites(t: Tables, e: Envelope, t': Tables, g: nat, en: Entry, k: ObjectKey)
    requires ObjectEffect(t, e, t', g) && en.envelope == e
    ensures Writes(en, k) ==> WritesOf(t', k) == WritesOf(t, k) + 1
    ensures Removes(en, k) ==> WritesOf(t', k) == 0
    ensures !Writes(en, k) && !Removes(en, k) ==>
              if IsComplete(en, k.owner) && k !in t'.objects then WritesOf(t', k) == 0
              else WritesOf(t', k) == WritesOf(t, k)
  {
  }

  /** `writes` numbers the accepted writes of the object since it was last deleted; so a redelivery
      never adds to it. */
  lemma {:induction false} WritesAreAccepted(es: seq<Envelope>, k: ObjectKey)
    ensures WritesOf(Run(es).tables, k) == StandingWrites(Run(es).log, k)
  {
    if es != [] {
      var front, e := es[..|es| - 1], es[|es| - 1];
      var t, log := Run(front).tables, Run(front).log;
      WritesAreAccepted(front, k);
      ObjectTableIsHistory(es, k);
      if Accepts(t, e) {
        AcceptedEffect(t, e);
        var en := NewEntry(t, e);
        EffectWrites(t, e, Apply(t, e).0, ScopeOf(t, e).generation, en, k);
        assert (log + [en])[..|log|] == log && (log + [en])[|log|] == en;
      } else {
        RunIsConsistent(front);
        OthersChangeNothing(t, log, e);
      }
    }
  }

  // ---- batches and generations ---------------------------------------------------------------

  lemma {:induction false} ObjectGenerationBounded(t: Tables, log: Log, k: ObjectKey)
    requires ObjectsOk(t, log) && k in t.objects
    ensures t.objects[k].generation <= Gen(log, k.owner, |log|)
  {
    var i: nat :| Live(log, k, i);
    GenGrows(log, k.owner, i, |log|);
  }

  /** The generation of a scope counts its accepted starts and bounds every batch and object. */
  lemma {:induction false} GenerationCountsStarts(es: seq<Envelope>, o: Owner)
    requires o in Run(es).tables.scopes
    ensures var r := Run(es);
            && r.tables.scopes[o].generation == Gen(r.log, o, |r.log|)
            && (forall b :: b in r.tables.batches && b.owner == o ==>
                  r.tables.batches[b].generation <= r.tables.scopes[o].generation)
            && (forall k :: k in r.tables.objects && k.owner == o ==>
                  r.tables.objects[k].generation <= r.tables.scopes[o].generation)
  {
    RunIsConsistent(es);
    var r := Run(es);
    forall k | k in r.tables.objects && k.owner == o
      ensures r.tables.objects[k].generation <= r.tables.scopes[o].generation
    {
      ObjectGenerationBounded(r.tables, r.log, k);
    }
  }

  /** The start of a generation is unique. */
  lemma {:induction false} OpenedOnce(log: Log, b: BatchKey, c: BatchKey, g: nat, s: nat, s': nat)
    requires b.owner == c.owner && Opened(log, b, g, s) && Opened(log, c, g, s')
    ensures b == c && s == s'
  {
    if s < s' {
      GenGrows(log, b.owner, s + 1, s');
    } else if s' < s {
      GenGrows(log, b.owner, s' + 1, s);
    }
  }

  lemma {:induction false} OneLiveBatchPerGeneration(es: seq<Envelope>, b: BatchKey, c: BatchKey)
    requires var t := Run(es).tables;
             && b in t.batches && c in t.batches && b.owner == c.owner
             && t.batches[b].generation == t.batches[c].generation
             && !t.batches[b].state.Failed? && !t.batches[c].state.Failed?
    ensures b == c
  {
    RunIsConsistent(es);
    var r := Run(es);
    var g := r.tables.batches[b].generation;
    var s: nat :| Opened(r.log, b, g, s);
    var s': nat :| Opened(r.log, c, g, s');
    OpenedOnce(r.log, b, c, g, s, s');
  }

  function StateOf(t: Tables, b: BatchKey): Option<BatchState> {
    if b in t.batches then Some(t.batches[b].state) else None
  }

  /** The only moves of a batch: to active or failed when new, and from active or failed onwards. */
  predicate AllowedMove(before: Option<BatchState>, after: Option<BatchState>) {
    || before == after
    || (before.None? && (after == Some(Active) || after == Some(Failed)))
    || (before == Some(Active) && (after == Some(Failed) || after == Some(Completed)))
  }

  lemma {:induction false} EffectMoves(t: Tables, e: Envelope, t': Tables, g: nat, b: BatchKey)
    requires BatchEffect(t, e, t', g)
    ensures AllowedMove(StateOf(t, b), StateOf(t', b))
    ensures b in t.batches ==> b in t'.batches && t'.batches[b].generation == t.batches[b].generation
  {
  }

  lemma {:induction false} BatchMoves(es: seq<Envelope>, e: Envelope, b: BatchKey)
    ensures AllowedMove(StateOf(Run(es).tables, b), StateOf(Run(es + [e]).tables, b))
    ensures b in Run(es).tables.batches ==>
              && b in Run(es + [e]).tables.batches
              && Run(es + [e]).tables.batches[b].generation == Run(es).tables.batches[b].generation
  {
    RunNext(es, e);
    var t, t' := Run(es).tables, Run(es + [e]).tables;
    if Accepts(t, e) {
      AcceptedEffect(t, e);
      EffectMoves(t, e, t', ScopeOf(t, e).generation, b);
    } else {
      RunIsConsistent(es);
      OthersChangeNothing(t, Run(es).log, e);
    }
  }

  /** A batch is completed or failed exactly when such an event for it was accepted. */
  lemma {:induction false} BatchStateIsHistory(es: seq<Envelope>, b: BatchKey)
    requires b in Run(es).tables.batches
    ensures var r := Run(es);
            && (r.tables.batches[b].state.Completed? <==>
                  exists i :: 0 <= i < |r.log| && OnControl(r.log[i], b, SyncCompleted))
            && (r.tables.batches[b].state.Failed? <==>
                  exists i :: 0 <= i < |r.log| && OnControl(r.log[i], b, SyncFailed))
  {
    RunIsConsistent(es);
    StatesFromLog(Run(es).tables, Run(es).log, b);
  }

  lemma {:induction false} StatesFromLog(t: Tables, log: Log, b: BatchKey)
    requires BatchesOk(t, log) && FinalOk(t, log) && b in t.batches
    ensures t.batches[b].state.Completed? <==> exists i :: 0 <= i < |log| && OnControl(log[i], b, SyncCompleted)
    ensures t.batches[b].state.Failed? <==> exists i :: 0 <= i < |log| && OnControl(log[i], b, SyncFailed)
  {
    assert BatchOk(t.batches[b], log, b);
  }

  // ---- completion ----------------------------------------------------------------------------

  /** Entry `s` of the log started the batch that `e` completes. */
  ghost predicate StartOf(log: Log, e: Envelope, s: nat)
    requires e.sync.Some?
  {
    && s < |log| && IsStart(log[s], OwnerOf(e)) && OnBatch(log[s], BatchKeyOf(e))
    && (forall j :: s < j < |log| ==> !IsStart(log[j], OwnerOf(e)))
  }

  /**
   A batch can only be completed while it is the latest start of its scope and no failure was
   reported for it, so a superseded or failed batch never triggers a cleanup.
   */
  lemma {:induction false} CompletionIsOfLatestStart(es: seq<Envelope>, e: Envelope) returns (s: nat)
    requires e.kind.SyncCompleted? && Accepts(Run(es).tables, e)
    ensures e.sync.Some? && e.sync.value.readComplete && StartOf(Run(es).log, e, s)
    ensures forall j :: 0 <= j < |Run(es).log| ==> !OnControl(Run(es).log[j], BatchKeyOf(e), SyncFailed)
    ensures forall j :: 0 <= j < |Run(es).log| ==> !OnControl(Run(es).log[j], BatchKeyOf(e), SyncCompleted)
  {
    RunIsConsistent(es);
    var t, log := Run(es).tables, Run(es).log;
    CompletionCounts(t, e);
    s := LatestStart(t, log, e);
    StatesFromLog(t, log, BatchKeyOf(e));
  }

  lemma {:induction false} LatestStart(t: Tables, log: Log, e: Envelope) returns (s: nat)
    requires BatchesOk(t, log) && Structured(e) && e.kind.SyncCompleted? && BatchKeyOf(e) in t.batches
    requires t.batches[BatchKeyOf(e)] == BatchRow(Gen(log, OwnerOf(e), |log|), Active)
    ensures StartOf(log, e, s)
  {
    var b := BatchKeyOf(e);
    assert BatchOk(t.batches[b], log, b);
    s :| Opened(log, b, t.batches[b].generation, s);
    GenGrows(log, b.owner, s + 1, |log|);
  }

  /**
   Completing a batch deletes exactly the objects whose last write precedes the batch's start;
   survivors, and every other scope, keep their rows.
   */
  lemma {:induction false} CompletionDeletesExactlyOlder(es: seq<Envelope>, e: Envelope, s: nat, k: ObjectKey, i: nat)
    requires e.kind.SyncCompleted? && Accepts(Run(es).tables, e)
    requires e.sync.Some? && StartOf(Run(es).log, e, s) && Live(Run(es).log, k, i)
    ensures k in Run(es + [e]).tables.objects <==> (k.owner == OwnerOf(e) ==> s < i)
    ensures k in Run(es + [e]).tables.objects ==>
              k in Run(es).tables.objects && Run(es + [e]).tables.objects[k] == Run(es).tables.objects[k]
  {
    RunIsConsistent(es);
    RunNext(es, e);
    var t, log := Run(es).tables, Run(es).log;
    AcceptedEffect(t, e);
    OpenScopeCounts(t, log, e, OwnerOf(e));
    if k.owner == OwnerOf(e) {
      GenGrows(log, k.owner, i, |log|);
    }
  }

  /** The uids that the accepted events listed for a batch. */
  ghost predicate ListedIn(log: Log, m: MemberKey) {
    exists i :: 0 <= i < |log| && Lists(log[i], m)
  }

  /** The two counts that the completion query compares with `item_count`. */
  lemma {:induction false} CompletionCounts(t: Tables, e: Envelope)
    requires e.kind.SyncCompleted? && Accepts(t, e)
    ensures Structured(e) && OwnerOf(e) in t.scopes && e.sync.value.readComplete
    ensures BatchKeyOf(e) in t.batches
    ensures t.batches[BatchKeyOf(e)] == BatchRow(t.scopes[OwnerOf(e)].generation, Active)
    ensures |Listed(t, BatchKeyOf(e))| == e.sync.value.itemCount
    ensures |Arrived(t, BatchKeyOf(e), t.scopes[OwnerOf(e)].generation)| == e.sync.value.itemCount
    ensures Apply(t, e).1.reply.cleaned == |Stale(t, OwnerOf(e), t.scopes[OwnerOf(e)].generation)|
  {
  }

  /** `cleaned` is the number of rows that disappeared. */
  lemma {:induction false} CleanedCountsDeletions(t: Tables, e: Envelope)
    requires e.kind.SyncCompleted? && Accepts(t, e)
    ensures Apply(t, e).0.objects.Keys <= t.objects.Keys
    ensures |Apply(t, e).0.objects.Keys| + Apply(t, e).1.reply.cleaned == |t.objects.Keys|
  {
    AcceptedEffect(t, e);
    CompletionCounts(t, e);
    var stale := Stale(t, OwnerOf(e), t.scopes[OwnerOf(e)].generation);
    assert Apply(t, e).0.objects.Keys == t.objects.Keys - stale;
    assert stale <= t.objects.Keys;
  }

  lemma {:induction false} ListedIsHistory(t: Tables, log: Log, b: BatchKey, m: MemberKey)
    requires MembersOk(t, log)
    ensures m in Listed(t, b) <==> ListedIn(log, m) && m.batch == b
  {
    if m in Listed(t, b) {
      var i :| 0 <= i < |log| && Lists(log[i], m);
    }
  }

  /**
   When a completion is accepted, the accepted events listed exactly `item_count` uids for the
   batch, and each of those objects was at that moment of the batch's generation.
   */
  lemma {:induction false} CompletionCountsMembers(es: seq<Envelope>, e: Envelope)
    requires e.kind.SyncCompleted? && Accepts(Run(es).tables, e)
    ensures e.sync.Some? && OwnerOf(e) in Run(es).tables.scopes
    ensures |Listed(Run(es).tables, BatchKeyOf(e))| == e.sync.value.itemCount
    ensures forall m :: m in Listed(Run(es).tables, BatchKeyOf(e)) <==>
              ListedIn(Run(es).log, m) && m.batch == BatchKeyOf(e)
    ensures forall m :: m in Listed(Run(es).tables, BatchKeyOf(e)) ==>
              Carried(Run(es).tables, m, Run(es).tables.scopes[OwnerOf(e)].generation)
  {
    RunIsConsistent(es);
    var t, log := Run(es).tables, Run(es).log;
    CompletionCounts(t, e);
    var b, g := BatchKeyOf(e), t.scopes[OwnerOf(e)].generation;
    SubsetOfSameSize(Arrived(t, b, g), Listed(t, b));
    forall m ensures m in Listed(t, b) <==> ListedIn(log, m) && m.batch == b {
      ListedIsHistory(t, log, b, m);
    }
  }

  /**
   Every uid the batch listed survives the completion with exactly the listed payload and the
   current generation, and its standing write follows the batch's start.
   */
  lemma {:induction false} CompletionKeepsMembers(es: seq<Envelope>, e: Envelope, s: nat, m: MemberKey, j: nat)
    returns (i: nat)
    requires e.kind.SyncCompleted? && Accepts(Run(es).tables, e)
    requires e.sync.Some? && StartOf(Run(es).log, e, s)
    requires m.batch == BatchKeyOf(e) && j < |Run(es).log| && Lists(Run(es).log[j], m)
    ensures var k := ObjectKey(OwnerOf(e), m.uid);
            && k in Run(es + [e]).tables.objects
            && Some(Run(es + [e]).tables.objects[k].payload) == Run(es).log[j].envelope.value
            && OwnerOf(e) in Run(es).tables.scopes
            && Run(es + [e]).tables.objects[k].generation == Run(es).tables.scopes[OwnerOf(e)].generation
            && s < i && Live(Run(es).log, k, i)
  {
    var t, log := Run(es).tables, Run(es).log;
    var k := ObjectKey(OwnerOf(e), m.uid);
    RunIsConsistent(es);
    CompletionCountsMembers(es, e);
    i := WriteOfGeneration(t, log, e, s, m, j);
    CompletionDeletesExactlyOlder(es, e, s, k, i);
  }

  lemma {:induction false} WriteOfGeneration(t: Tables, log: Log, e: Envelope, s: nat, m: MemberKey, j: nat)
    returns (i: nat)
    requires MembersOk(t, log) && ObjectsOk(t, log) && e.sync.Some? && StartOf(log, e, s)
    requires m.batch == BatchKeyOf(e) && j < |log| && Lists(log[j], m)
    requires m in t.members && Carried(t, m, Gen(log, OwnerOf(e), |log|))
    ensures Live(log, ObjectKey(OwnerOf(e), m.uid), i) && s < i
    ensures Some(t.objects[ObjectKey(OwnerOf(e), m.uid)].payload) == log[j].envelope.value
  {
    var k := ObjectKey(OwnerOf(e), m.uid);
    i :| Live(log, k, i);
    GenGrows(log, k.owner, i, |log|);
  }

  /** Every survivor of the completed scope was written after the batch started. */
  lemma {:induction false} SurvivorsAreNewer(es: seq<Envelope>, e: Envelope, s: nat, k: ObjectKey)
    requires e.kind.SyncCompleted? && Accepts(Run(es).tables, e)
    requires e.sync.Some? && StartOf(Run(es).log, e, s)
    requires k in Run(es + [e]).tables.objects && k.owner == OwnerOf(e)
    ensures exists i: nat :: s < i && Live(Run(es).log, k, i)
  {
    RunIsConsistent(es);
    RunNext(es, e);
    AcceptedEffect(Run(es).tables, e);
    var i: nat :| Live(Run(es).log, k, i);
    CompletionDeletesExactlyOlder(es, e, s, k, i);
  }
}
