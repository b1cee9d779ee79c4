/**
 What the tables of the reconciliation target mean: in every reachable state they are a
 function of the log of accepted events.
 */
module TargetHistory {
  import opened Wrappers
  import opened TargetTables

  /** An event that was applied (not replayed), with the reply that was stored for it. */
  datatype Entry = Entry(envelope: Envelope, reply: Reply)

  type Log = seq<Entry>

  predicate IsStart(en: Entry, o: Owner) { en.envelope.kind.SyncStarted? && OwnerOf(en.envelope) == o }

  predicate IsComplete(en: Entry, o: Owner) { en.envelope.kind.SyncCompleted? && OwnerOf(en.envelope) == o }

  predicate OnObject(en: Entry, k: ObjectKey) {
    !IsControl(en.envelope.kind) && en.envelope.attrs.uid == Some(k.uid) && OwnerOf(en.envelope) == k.owner
  }

  predicate Writes(en: Entry, k: ObjectKey) { en.envelope.kind.ObjectPresent? && OnObject(en, k) }

  predicate Removes(en: Entry, k: ObjectKey) { en.envelope.kind.ObjectRemoved? && OnObject(en, k) }

  predicate OnBatch(en: Entry, b: BatchKey) {
    en.envelope.sync.Some? && BatchKeyOf(en.envelope) == b
  }

  predicate Lists(en: Entry, m: MemberKey) {
    !IsControl(en.envelope.kind) && IsList(en.envelope) && OnBatch(en, m.batch) && en.envelope.attrs.uid == Some(m.uid)
  }

  /** How many of the first `n` entries started a batch of this scope. */
  function Gen(log: Log, o: Owner, n: nat): (g: nat)
    requires n <= |log|
  {
    if n == 0 then 0 else Gen(log, o, n - 1) + if IsStart(log[n - 1], o) then 1 else 0
  }

  ghost predicate LastTouch(log: Log, k: ObjectKey, i: nat) {
    i < |log| && Writes(log[i], k) && forall j :: i < j < |log| ==> !OnObject(log[j], k)
  }

  /** After entry `i` the scope started a batch and later completed one. */
  ghost predicate Swept(log: Log, o: Owner, i: nat) {
    exists s, c :: i < s < c < |log| && IsStart(log[s], o) && IsComplete(log[c], o)
  }

  /** Entry `i` is the write that still stands. */
  ghost predicate Live(log: Log, k: ObjectKey, i: nat) {
    LastTouch(log, k, i) && !Swept(log, k.owner, i)
  }

  // ---- the invariant -------------------------------------------------------------------------

  ghost predicate GenerationsOk(t: Tables, log: Log) {
    forall o :: o in t.scopes ==> t.scopes[o].generation == Gen(log, o, |log|)
  }

  ghost predicate ScopesOk(t: Tables, log: Log) {
    (forall i :: 0 <= i < |log| ==>
          Structured(log[i].envelope)
          && OwnerOf(log[i].envelope) in t.scopes
          && ScopeMatches(t.scopes[OwnerOf(log[i].envelope)], log[i].envelope))
  }

  ghost predicate EventsOk(t: Tables, log: Log) {
    && (forall i :: 0 <= i < |log| ==>
          && EventKeyOf(log[i].envelope) in t.events
          && t.events[EventKeyOf(log[i].envelope)] == EventRow(DigestOf(log[i].envelope), log[i].reply)
          && log[i].reply.applied)
    && (forall k :: k in t.events ==> exists i :: 0 <= i < |log| && EventKeyOf(log[i].envelope) == k)
  }

  /** Entry `s` started batch `b` as the generation `g` of its scope. */
  ghost predicate Opened(log: Log, b: BatchKey, g: nat, s: nat) {
    s < |log| && IsStart(log[s], b.owner) && OnBatch(log[s], b) && Gen(log, b.owner, s + 1) == g
  }

  predicate OnControl(en: Entry, b: BatchKey, kind: Kind) {
    en.envelope.kind == kind && OnBatch(en, b)
  }

  ghost predicate BatchOk(row: BatchRow, log: Log, b: BatchKey) {
    && row.generation <= Gen(log, b.owner, |log|)
    && (!row.state.Failed? ==> exists s: nat :: Opened(log, b, row.generation, s))
    && (row.state.Failed? ==> exists i :: 0 <= i < |log| && OnControl(log[i], b, SyncFailed))
    && (row.state.Completed? ==> exists i :: 0 <= i < |log| && OnControl(log[i], b, SyncCompleted))
  }

  ghost predicate BatchesOk(t: Tables, log: Log) {
    forall b :: b in t.batches ==> BatchOk(t.batches[b], log, b)
  }

  /** A failure or a completion in the log is final, and a start fixes the generation. */
  ghost predicate FinalOk(t: Tables, log: Log) {
    forall i, b :: 0 <= i < |log| && OnBatch(log[i], b) && IsControl(log[i].envelope.kind) ==>
      && b in t.batches
      && match log[i].envelope.kind
         case SyncStarted => t.batches[b].generation == Gen(log, b.owner, i + 1)
         case SyncFailed => t.batches[b].state.Failed?
         case _ => t.batches[b].state.Completed?
  }

  ghost predicate MembersOk(t: Tables, log: Log) {
    && (forall i, m :: 0 <= i < |log| && Lists(log[i], m) ==>
          m in t.members && log[i].envelope.value == Some(t.members[m].preimage))
    && (forall m :: m in t.members ==> exists i :: 0 <= i < |log| && Lists(log[i], m))
  }

  predicate RowOf(row: ObjectRow, e: Envelope, generation: nat) {
    && e.value == Some(row.payload) && row.hash == Hash(row.payload)
    && e.attrs.ns == Some(row.ns) && e.attrs.name == Some(row.name)
    && row.generation == generation
  }

  ghost predicate ObjectsOk(t: Tables, log: Log) {
    && (forall k :: k in t.objects ==> exists i: nat :: Live(log, k, i))
    && (forall k, i: nat :: Live(log, k, i) ==>
          k in t.objects && RowOf(t.objects[k], log[i].envelope, Gen(log, k.owner, i)))
  }

  /** The tables are what the log says they are. */
  ghost predicate Consistent(t: Tables, log: Log) {
    GenerationsOk(t, log) && ScopesOk(t, log) && EventsOk(t, log) && BatchesOk(t, log) && FinalOk(t, log)
    && MembersOk(t, log) && ObjectsOk(t, log)
  }

  lemma {:induction false} EmptyIsConsistent()
    ensures Consistent(NO_TABLES, [])
  {
  }

  // ---- generations ---------------------------------------------------------------------------

  lemma {:induction false} GenPrefix(log: Log, more: Log, o: Owner, n: nat)
    requires n <= |log|
    ensures Gen(log + more, o, n) == Gen(log, o, n)
  {
    if n > 0 {
      GenPrefix(log, more, o, n - 1);
      assert (log + more)[n - 1] == log[n - 1];
    }
  }

  lemma {:induction false} GenGrows(log: Log, o: Owner, m: nat, n: nat)
    requires m <= n <= |log|
    ensures Gen(log, o, m) <= Gen(log, o, n)
    ensures Gen(log, o, m) < Gen(log, o, n) <==> exists s :: m <= s < n && IsStart(log[s], o)
  {
    if m < n {
      GenGrows(log, o, m, n - 1);
      if IsStart(log[n - 1], o) {
        assert m <= n - 1 < n && IsStart(log[n - 1], o);
      }
    }
  }

  lemma {:induction false} AppendGen(log: Log, en: Entry, o: Owner)
    ensures Gen(log + [en], o, |log| + 1) == Gen(log, o, |log|) + if IsStart(en, o) then 1 else 0
  {
    GenPrefix(log, [en], o, |log|);
  }

  // ---- live writes ---------------------------------------------------------------------------

  lemma {:induction false} SweptAppend(log: Log, en: Entry, o: Owner, i: nat)
    requires i < |log| && !IsStart(log[i], o)
    ensures Swept(log + [en], o, i) <==>
            Swept(log, o, i) || (IsComplete(en, o) && Gen(log, o, i) < Gen(log, o, |log|))
  {
    var log' := log + [en];
    GenGrows(log, o, i, |log|);
    if Swept(log, o, i) {
      var s, c :| i < s < c < |log| && IsStart(log[s], o) && IsComplete(log[c], o);
      assert i < s < c < |log'| && IsStart(log'[s], o) && IsComplete(log'[c], o);
    } else if IsComplete(en, o) && Gen(log, o, i) < Gen(log, o, |log|) {
      var s :| i <= s < |log| && IsStart(log[s], o);
      assert i < s < |log| < |log'| && IsStart(log'[s], o) && IsComplete(log'[|log|], o);
    }
    if Swept(log', o, i) {
      var s, c :| i < s < c < |log'| && IsStart(log'[s], o) && IsComplete(log'[c], o);
      assert IsStart(log[s], o);
      if c < |log| {
        assert i < s < c < |log| && IsStart(log[s], o) && IsComplete(log[c], o);
      }
    }
  }

  lemma {:induction false} LiveAppend(log: Log, en: Entry, k: ObjectKey, i: nat)
    requires i < |log|
    ensures Live(log + [en], k, i) <==>
            && Live(log, k, i)
            && !OnObject(en, k)
            && !(IsComplete(en, k.owner) && Gen(log, k.owner, i) < Gen(log, k.owner, |log|))
  {
    var log' := log + [en];
    assert LastTouch(log', k, i) <==> LastTouch(log, k, i) && !OnObject(en, k) by {
      assert forall j :: i < j < |log| ==> log'[j] == log[j];
      assert log'[|log|] == en;
      if LastTouch(log', k, i) {
        assert forall j :: i < j < |log| ==> !OnObject(log[j], k) by {
          assert forall j :: i < j < |log| ==> !OnObject(log'[j], k);
        }
      }
    }
    if Writes(log[i], k) {
      SweptAppend(log, en, k.owner, i);
    }
  }

  lemma {:induction false} LiveLast(log: Log, en: Entry, k: ObjectKey)
    ensures Live(log + [en], k, |log|) <==> Writes(en, k)
  {
    assert (log + [en])[|log|] == en;
  }

  // ---- one accepted event keeps the invariant ------------------------------------------------

  predicate Accepts(t: Tables, e: Envelope) {
    Apply(t, e).1.Answered? && Apply(t, e).1.reply.applied
  }

  function NewEntry(t: Tables, e: Envelope): Entry
    requires Accepts(t, e)
  {
    Entry(e, Apply(t, e).1.reply)
  }

  lemma {:induction false} UnseenScope(t: Tables, log: Log, o: Owner, n: nat)
    requires ScopesOk(t, log) && o !in t.scopes && n <= |log|
    ensures Gen(log, o, n) == 0
  {
    if n > 0 {
      UnseenScope(t, log, o, n - 1);
    }
  }

  lemma {:induction false} OpenScopeCounts(t: Tables, log: Log, e: Envelope, o: Owner)
    requires GenerationsOk(t, log) && ScopesOk(t, log) && o in OpenScope(t, e).scopes
    ensures OpenScope(t, e).scopes[o].generation == Gen(log, o, |log|)
    ensures o in t.scopes ==> OpenScope(t, e).scopes[o] == t.scopes[o]
  {
    if o !in t.scopes {
      UnseenScope(t, log, o, |log|);
    }
  }

  /** The scope row that an event works on, and its generation before the event. */
  function ScopeOf(t: Tables, e: Envelope): ScopeRow
    requires OwnerOf(e) in OpenScope(t, e).scopes
  {
    OpenScope(t, e).scopes[OwnerOf(e)]
  }

  ghost predicate ScopeEffect(t: Tables, e: Envelope, t': Tables) {
    && OwnerOf(e) in OpenScope(t, e).scopes
    && ScopeMatches(ScopeOf(t, e), e)
    && t'.scopes == OpenScope(t, e).scopes[OwnerOf(e) := ScopeOf(t, e).(generation :=
                      ScopeOf(t, e).generation + if e.kind.SyncStarted? then 1 else 0)]
  }

  /** `g` is the generation of the scope when the event arrives. */
  ghost predicate BatchEffect(t: Tables, e: Envelope, t': Tables, g: nat) {
    if !IsControl(e.kind) then t'.batches == t.batches
    else
      && e.sync.Some?
      && var b := BatchKeyOf(e);
      match e.kind
      case SyncStarted => b !in t.batches && t'.batches == t.batches[b := BatchRow(g + 1, Active)]
      case SyncCompleted => b in t.batches && t.batches[b] == BatchRow(g, Active)
                            && t'.batches == t.batches[b := BatchRow(g, Completed)]
      case _ => (b in t.batches ==> !t.batches[b].state.Completed?)
                && t'.batches == t.batches[b := BatchRow(if b in t.batches then t.batches[b].generation else g, Failed)]
  }

  ghost predicate MemberEffect(t: Tables, e: Envelope, t': Tables) {
    if IsControl(e.kind) || !IsList(e) then t'.members == t.members
    else
      && e.sync.Some? && e.attrs.uid.Some? && e.value.Some?
      && var m := MemberKey(BatchKeyOf(e), e.attrs.uid.value);
      && (m in t.members ==> t.members[m] == Hash(e.value.value))
      && t'.members == t.members[m := Hash(e.value.value)]
  }

  ghost predicate ObjectEffect(t: Tables, e: Envelope, t': Tables, g: nat) {
    match e.kind
    case ObjectPresent =>
      && e.attrs.uid.Some?
      && var k := ObjectKeyOf(e);
      && k in t'.objects && RowOf(t'.objects[k], e, g)
      && t'.objects[k].writes == (if k in t.objects then t.objects[k].writes else 0) + 1
      && t'.objects == t.objects[k := t'.objects[k]]
    case ObjectRemoved => e.attrs.uid.Some? && t'.objects == t.objects - {ObjectKeyOf(e)}
    case SyncCompleted => t'.objects == t.objects - Stale(t, OwnerOf(e), g)
    case _ => t'.objects == t.objects
  }

  ghost predicate EventEffect(t: Tables, e: Envelope, t': Tables, reply: Reply) {
    && EventKeyOf(e) !in t.events && reply.applied
    && t'.events == t.events[EventKeyOf(e) := EventRow(DigestOf(e), reply)]
  }

  ghost predicate RowEffects(t: Tables, e: Envelope, t': Tables) {
    && ScopeEffect(t, e, t')
    && BatchEffect(t, e, t', ScopeOf(t, e).generation)
    && MemberEffect(t, e, t')
    && ObjectEffect(t, e, t', ScopeOf(t, e).generation)
  }

  /** What an accepted event does to each table, as a relation. */
  ghost predicate Effect(t: Tables, e: Envelope, t': Tables, reply: Reply) {
    Structured(e) && RowEffects(t, e, t') && EventEffect(t, e, t', reply)
  }

  ghost predicate Admitted(t: Tables, e: Envelope) {
    Structured(e) && OwnerOf(e) in OpenScope(t, e).scopes && ScopeMatches(ScopeOf(t, e), e)
  }

  lemma {:induction false} StartEffect(t: Tables, e: Envelope)
    requires Admitted(t, e) && e.kind.SyncStarted? && Start(OpenScope(t, e), e).Done?
    ensures RowEffects(t, e, Start(OpenScope(t, e), e).tables)
  {
  }

  lemma {:induction false} FailEffect(t: Tables, e: Envelope)
    requires Admitted(t, e) && e.kind.SyncFailed? && Fail(OpenScope(t, e), e).Done?
    ensures RowEffects(t, e, Fail(OpenScope(t, e), e).tables)
  {
  }

  lemma {:induction false} CompleteEffect(t: Tables, e: Envelope)
    requires Admitted(t, e) && e.kind.SyncCompleted? && Complete(OpenScope(t, e), e).Done?
    ensures RowEffects(t, e, Complete(OpenScope(t, e), e).tables)
  {
  }

  lemma {:induction false} ListEffect(t: Tables, e: Envelope)
    requires Admitted(t, e) && !IsControl(e.kind) && ListMember(OpenScope(t, e), e).Done?
    ensures var t' := ListMember(OpenScope(t, e), e).tables;
            MemberEffect(t, e, t') && t'.(members := t.members) == t
  {
  }

  lemma {:induction false} WriteEffect(t: Tables, e: Envelope)
    requires Structured(e) && !IsControl(e.kind) && OwnerOf(e) in t.scopes
    ensures WriteObject(t, e).Done?
    ensures var t' := WriteObject(t, e).tables;
            ObjectEffect(t, e, t', t.scopes[OwnerOf(e)].generation) && t'.(objects := t.objects) == t
  {
  }

  /** An event on an object opens no scope, so the two parts add up. */
  lemma {:induction false} PresentEffect(t: Tables, e: Envelope)
    requires Admitted(t, e) && !IsControl(e.kind) && Present(OpenScope(t, e), e).Done?
    ensures RowEffects(t, e, Present(OpenScope(t, e), e).tables)
  {
    ListEffect(t, e);
    WriteEffect(ListMember(t, e).tables, e);
  }

  lemma {:induction false} MutateKeepsEvents(t: Tables, e: Envelope)
    requires Structured(e) && OwnerOf(e) in t.scopes && Mutate(t, e).Done?
    ensures Mutate(t, e).tables.events == t.events && Mutate(t, e).reply.applied
  {
  }

  lemma {:induction false} MutateEffect(t: Tables, e: Envelope)
    requires Admitted(t, e) && Mutate(OpenScope(t, e), e).Done?
    ensures RowEffects(t, e, Mutate(OpenScope(t, e), e).tables)
  {
    match e.kind
    case SyncStarted => StartEffect(t, e);
    case SyncFailed => FailEffect(t, e);
    case SyncCompleted => CompleteEffect(t, e);
    case _ => PresentEffect(t, e);
  }

  lemma {:induction false} AcceptedEffect(t: Tables, e: Envelope)
    requires Accepts(t, e)
    ensures Effect(t, e, Apply(t, e).0, Apply(t, e).1.reply)
  {
    MutateEffect(t, e);
    MutateKeepsEvents(OpenScope(t, e), e);
  }

  lemma {:induction false} StepGenerations(t: Tables, log: Log, e: Envelope, t': Tables, en: Entry)
    requires GenerationsOk(t, log) && ScopesOk(t, log) && en.envelope == e && ScopeEffect(t, e, t')
    ensures GenerationsOk(t', log + [en])
  {
    forall o | o in t'.scopes
      ensures t'.scopes[o].generation == Gen(log + [en], o, |log + [en]|)
    {
      OpenScopeCounts(t, log, e, o);
      AppendGen(log, en, o);
    }
  }

  lemma {:induction false} StepScopes(t: Tables, log: Log, e: Envelope, t': Tables, en: Entry)
    requires ScopesOk(t, log) && en.envelope == e && Structured(e) && ScopeEffect(t, e, t')
    ensures ScopesOk(t', log + [en])
  {
  }

  lemma {:induction false} StepEvents(t: Tables, log: Log, e: Envelope, t': Tables, en: Entry)
    requires EventsOk(t, log) && en.envelope == e && EventEffect(t, e, t', en.reply)
    ensures EventsOk(t', log + [en])
  {
    var log' := log + [en];
    forall k | k in t'.events
      ensures exists i :: 0 <= i < |log'| && EventKeyOf(log'[i].envelope) == k
    {
      if k == EventKeyOf(e) {
        assert EventKeyOf(log'[|log|].envelope) == k;
      } else {
        var i :| 0 <= i < |log| && EventKeyOf(log[i].envelope) == k;
        assert EventKeyOf(log'[i].envelope) == k;
      }
    }
  }

  lemma {:induction false} BatchKept(log: Log, en: Entry, row: BatchRow, b: BatchKey)
    requires BatchOk(row, log, b)
    ensures BatchOk(row, log + [en], b)
  {
    var log' := log + [en];
    AppendGen(log, en, b.owner);
    if row.state.Failed? {
      var i :| 0 <= i < |log| && OnControl(log[i], b, SyncFailed);
      assert OnControl(log'[i], b, SyncFailed);
    } else {
      var s: nat :| Opened(log, b, row.generation, s);
      GenPrefix(log, [en], b.owner, s + 1);
      assert Opened(log', b, row.generation, s);
    }
    if row.state.Completed? {
      var i :| 0 <= i < |log| && OnControl(log[i], b, SyncCompleted);
      assert OnControl(log'[i], b, SyncCompleted);
    }
  }

  lemma {:induction false} StepBatches(t: Tables, log: Log, e: Envelope, t': Tables, en: Entry)
    requires BatchesOk(t, log) && en.envelope == e && BatchEffect(t, e, t', Gen(log, OwnerOf(e), |log|))
    ensures BatchesOk(t', log + [en])
  {
    var log' := log + [en];
    AppendGen(log, en, OwnerOf(e));
    assert log'[|log|] == en;
    forall b | b in t'.batches
      ensures BatchOk(t'.batches[b], log', b)
    {
      if b in t.batches {
        BatchKept(log, en, t.batches[b], b);
      }
      if IsControl(e.kind) && b == BatchKeyOf(e) {
        assert OnControl(log'[|log|], b, e.kind);
        if e.kind.SyncStarted? {
          assert Opened(log', b, t'.batches[b].generation, |log|);
        }
      }
    }
  }

  lemma {:induction false} StepFinal(t: Tables, log: Log, e: Envelope, t': Tables, en: Entry)
    requires FinalOk(t, log) && en.envelope == e && BatchEffect(t, e, t', Gen(log, OwnerOf(e), |log|))
    ensures FinalOk(t', log + [en])
  {
    var log' := log + [en];
    AppendGen(log, en, OwnerOf(e));
    forall i, b | 0 <= i < |log'| && OnBatch(log'[i], b) && IsControl(log'[i].envelope.kind)
      ensures b in t'.batches
      ensures log'[i].envelope.kind.SyncStarted? ==> t'.batches[b].generation == Gen(log', b.owner, i + 1)
      ensures log'[i].envelope.kind.SyncFailed? ==> t'.batches[b].state.Failed?
      ensures log'[i].envelope.kind.SyncCompleted? ==> t'.batches[b].state.Completed?
    {
      if i < |log| {
        assert OnBatch(log[i], b);
        GenPrefix(log, [en], b.owner, i + 1);
      }
    }
  }

  lemma {:induction false} StepMembers(t: Tables, log: Log, e: Envelope, t': Tables, en: Entry)
    requires MembersOk(t, log) && en.envelope == e && MemberEffect(t, e, t')
    ensures MembersOk(t', log + [en])
  {
    var log' := log + [en];
    assert log'[|log|] == en;
    forall m | m in t'.members
      ensures exists i :: 0 <= i < |log'| && Lists(log'[i], m)
    {
      if m in t.members {
        var i :| 0 <= i < |log| && Lists(log[i], m);
        assert Lists(log'[i], m);
      } else {
        assert Lists(log'[|log|], m);
      }
    }
    forall i, m | 0 <= i < |log'| && Lists(log'[i], m)
      ensures m in t'.members && log'[i].envelope.value == Some(t'.members[m].preimage)
    {
      if i < |log| {
        assert Lists(log[i], m);
      }
    }
  }

  /** A row that an event neither touches nor sweeps is kept. */
  lemma {:induction false} RowKept(t: Tables, e: Envelope, t': Tables, g: nat, en: Entry, k: ObjectKey)
    requires ObjectEffect(t, e, t', g) && en.envelope == e && k in t.objects && !OnObject(en, k)
    requires IsComplete(en, k.owner) ==> t.objects[k].generation >= g
    ensures k in t'.objects && t'.objects[k] == t.objects[k]
  {
  }

  lemma {:induction false} RowWritten(t: Tables, e: Envelope, t': Tables, g: nat, en: Entry, k: ObjectKey)
    requires ObjectEffect(t, e, t', g) && en.envelope == e && Writes(en, k)
    ensures k in t'.objects && RowOf(t'.objects[k], e, g) && k.owner == OwnerOf(e)
  {
  }

  lemma {:induction false} ObjectsFromLog(t: Tables, log: Log, e: Envelope, t': Tables, en: Entry, k: ObjectKey, i: nat)
    requires ObjectsOk(t, log) && en.envelope == e && ObjectEffect(t, e, t', Gen(log, OwnerOf(e), |log|))
    requires Live(log + [en], k, i)
    ensures k in t'.objects && RowOf(t'.objects[k], (log + [en])[i].envelope, Gen(log + [en], k.owner, i))
  {
    GenPrefix(log, [en], k.owner, i);
    if i < |log| {
      LiveAppend(log, en, k, i);
      RowKept(t, e, t', Gen(log, OwnerOf(e), |log|), en, k);
    } else {
      LiveLast(log, en, k);
      RowWritten(t, e, t', Gen(log, OwnerOf(e), |log|), en, k);
    }
  }

  lemma {:induction false} LogFromObjects(t: Tables, log: Log, e: Envelope, t': Tables, en: Entry, k: ObjectKey)
    requires ObjectsOk(t, log) && en.envelope == e && ObjectEffect(t, e, t', Gen(log, OwnerOf(e), |log|))
    requires k in t'.objects
    ensures exists i: nat :: Live(log + [en], k, i)
  {
    if Writes(en, k) {
      LiveLast(log, en, k);
      assert Live(log + [en], k, |log|);
    } else {
      assert k in t.objects;
      var i: nat :| Live(log, k, i);
      LiveAppend(log, en, k, i);
      assert Live(log + [en], k, i);
    }
  }

  lemma {:induction false} StepObjects(t: Tables, log: Log, e: Envelope, t': Tables, en: Entry)
    requires ObjectsOk(t, log) && en.envelope == e && ObjectEffect(t, e, t', Gen(log, OwnerOf(e), |log|))
    ensures ObjectsOk(t', log + [en])
  {
    forall k, i: nat | Live(log + [en], k, i)
      ensures k in t'.objects && RowOf(t'.objects[k], (log + [en])[i].envelope, Gen(log + [en], k.owner, i))
    {
      ObjectsFromLog(t, log, e, t', en, k, i);
    }
    forall k | k in t'.objects
      ensures exists i: nat :: Live(log + [en], k, i)
    {
      LogFromObjects(t, log, e, t', en, k);
    }
  }

  lemma {:induction false} Step(t: Tables, log: Log, e: Envelope)
    requires Consistent(t, log) && Accepts(t, e)
    ensures Consistent(Apply(t, e).0, log + [NewEntry(t, e)])
  {
    var t', en := Apply(t, e).0, NewEntry(t, e);
    AcceptedEffect(t, e);
    OpenScopeCounts(t, log, e, OwnerOf(e));
    StepGenerations(t, log, e, t', en);
    StepScopes(t, log, e, t', en);
    StepEvents(t, log, e, t', en);
    StepBatches(t, log, e, t', en);
    StepFinal(t, log, e, t', en);
    StepMembers(t, log, e, t', en);
    StepObjects(t, log, e, t', en);
  }
}
