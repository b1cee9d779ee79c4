/**
 The target as an object: five tables that one event updates statement by statement, inside a
 transaction that a rejection rolls back.
 */
module TargetStore {
  import opened Wrappers
  import opened TargetTables
  import opened TargetHistory
  import TT = TargetTheorems

  lemma {:induction false} RejectedChangesNothing(t: Tables, e: Envelope)
    requires Apply(t, e).1.Rejected?
    ensures Apply(t, e).0 == t
  {
  }

  class Target {
    var scopes: map<Owner, ScopeRow>
    var batches: map<BatchKey, BatchRow>
    var members: map<MemberKey, Hash>
    var objects: map<ObjectKey, ObjectRow>
    var events: map<EventKey, EventRow>
    ghost var log: Log

    ghost function Contents(): (t: Tables)
      reads this
    {
      Tables(scopes, batches, members, objects, events)
    }

    ghost predicate Valid()
      reads this
    {
      Consistent(Contents(), log)
    }

    constructor ()
      ensures Valid() && Contents() == NO_TABLES && log == []
    {
      scopes, batches, members, objects, events := map[], map[], map[], map[], map[];
      log := [];
      new;
      EmptyIsConsistent();
    }

    method StartBatch(e: Envelope) returns (r: Option<Code>, generation: nat)
      requires Structured(e) && e.kind.SyncStarted? && OwnerOf(e) in scopes
      modifies this`scopes, this`batches
      ensures r.None? ==> Start(old(Contents()), e) == Done(Contents(), NewReply(e, generation))
      ensures r.Some? ==> Start(old(Contents()), e) == Refused(r.value)
    {
      var owner, key := OwnerOf(e), BatchKeyOf(e);
      generation := scopes[owner].generation;
      if key in batches { return Some(BatchNotNew), generation; }
      generation := generation + 1;
      scopes := scopes[owner := scopes[owner].(generation := generation)];
      batches := batches[key := BatchRow(generation, Active)];
      r := None;
    }

    method FailBatch(e: Envelope, generation: nat) returns (r: Option<Code>)
      requires Structured(e) && e.kind.SyncFailed? && OwnerOf(e) in scopes
      requires generation == scopes[OwnerOf(e)].generation
      modifies this`batches
      ensures r.None? ==> Fail(old(Contents()), e) == Done(Contents(), NewReply(e, generation))
      ensures r.Some? ==> Fail(old(Contents()), e) == Refused(r.value)
    {
      var key := BatchKeyOf(e);
      if key in batches && batches[key].state == Completed { return Some(BatchAlreadyCompleted); }
      if key !in batches {
        batches := batches[key := BatchRow(generation, Failed)];
      } else {
        batches := batches[key := batches[key].(state := Failed)];
      }
      r := None;
    }

    method CompleteBatch(e: Envelope, generation: nat) returns (r: Option<Code>, cleaned: nat)
      requires Structured(e) && e.kind.SyncCompleted? && OwnerOf(e) in scopes
      requires generation == scopes[OwnerOf(e)].generation
      modifies this`batches, this`objects
      ensures r.None? ==>
                Complete(old(Contents()), e) == Done(Contents(), NewReply(e, generation).(cleaned := cleaned))
      ensures r.Some? ==> Complete(old(Contents()), e) == Refused(r.value)
    {
      var owner, key := OwnerOf(e), BatchKeyOf(e);
      cleaned := 0;
      if key !in batches || batches[key] != BatchRow(generation, Active) || !e.sync.value.readComplete {
        return Some(BatchCleanupIneligible), 0;
      }
      var listed := set m | m in members && m.batch == key;
      var arrived := set m | m in listed && ObjectKey(owner, m.uid) in objects
                             && objects[ObjectKey(owner, m.uid)].generation == generation
                             && objects[ObjectKey(owner, m.uid)].hash == members[m];
      assert listed == Listed(Contents(), key);
      assert arrived == Arrived(Contents(), key, generation);
      if |listed| != e.sync.value.itemCount || |arrived| != e.sync.value.itemCount {
        return Some(BatchMembersIncomplete), 0;
      }
      var stale := set k | k in objects && k.owner == owner && objects[k].generation < generation;
      assert stale == Stale(Contents(), owner, generation);
      objects := objects - stale;
      cleaned := |stale|;
      batches := batches[key := batches[key].(state := Completed)];
      r := None;
    }

    method PresentObject(e: Envelope, generation: nat) returns (r: Option<Code>, removed: Option<nat>)
      requires Structured(e) && !IsControl(e.kind) && OwnerOf(e) in scopes
      requires generation == scopes[OwnerOf(e)].generation
      modifies this`members, this`objects
      ensures r.None? ==>
                Present(old(Contents()), e) == Done(Contents(), NewReply(e, generation).(removed := removed))
      ensures r.Some? ==> Present(old(Contents()), e) == Refused(r.value)
    {
      var watch, uid, document := e.attrs.watch.value, e.attrs.uid.value, e.value.value;
      removed := None;
      if watch != List && e.sync.Some?
         && (BatchKeyOf(e) !in batches || batches[BatchKeyOf(e)].generation != generation) {
        return Some(WatchGenerationStale), None;
      }
      if watch == List {
        var key := BatchKeyOf(e);
        if key !in batches || batches[key].generation != generation
           || (batches[key].state != Active && batches[key].state != Failed) {
          return Some(BatchMemberIneligible), None;
        }
        var member := MemberKey(key, uid);
        if member !in members {
          members := members[member := Hash(document)];
        }
        if members[member] != Hash(document) { return Some(BatchMemberConflict), None; }
      }
      var row := ObjectKeyOf(e);
      if e.kind == ObjectRemoved {
        removed := Some(if row in objects then 1 else 0);
        objects := objects - {row};
      } else {
        var writes := if row in objects then objects[row].writes + 1 else 1;
        objects := objects[row := ObjectRow(e.attrs.ns.value, e.attrs.name.value, document,
                                               Hash(document), generation, writes)];
      }
      r := None;
    }

    /** apply_event: on a rejection the caller has to roll back what was already written. */
    method ApplyEvent(e: Envelope) returns (r: Outcome)
      modifies this`scopes, this`batches, this`members, this`objects, this`events
      ensures r == Apply(old(Contents()), e).1
      ensures r.Answered? ==> Contents() == Apply(old(Contents()), e).0
    {
      if !Validate(e) { return Rejected(EventInvalid); }
      var owner, ident := OwnerOf(e), EventKeyOf(e);
      if (e.kind == SyncStarted || e.kind == SyncFailed) && owner !in scopes {
        scopes := scopes[owner := ScopeRow(e.identity, e.attrs.cluster, e.attrs.group, e.attrs.version,
                                           e.attrs.resource, e.attrs.ns, 0)];
      }
      assert Contents() == OpenScope(old(Contents()), e);
      if owner !in scopes { return Rejected(ScopeNotStarted); }
      if !ScopeMatches(scopes[owner], e) { return Rejected(ScopeConflict); }
      if ident in events {
        if events[ident].digest != DigestOf(e) { return Rejected(EventIdentityConflict); }
        return Answered(events[ident].reply.(applied := false));
      }
      var generation := scopes[owner].generation;
      var code: Option<Code>;
      var reply := NewReply(e, generation);
      if e.kind == SyncStarted {
        code, generation := StartBatch(e);
        reply := reply.(generation := generation);
      } else if e.kind == SyncFailed {
        code := FailBatch(e, generation);
      } else if e.kind == SyncCompleted {
        var cleaned;
        code, cleaned := CompleteBatch(e, generation);
        reply := reply.(cleaned := cleaned);
      } else {
        var removed;
        code, removed := PresentObject(e, generation);
        reply := reply.(removed := removed);
      }
      if code.Some? { return Rejected(code.value); }
      events := events[ident := EventRow(DigestOf(e), reply)];
      r := Answered(reply);
    }

    /** The tables as they were when the transaction began. */
    method RollBack(saved: Tables)
      modifies this`scopes, this`batches, this`members, this`objects, this`events
      ensures Contents() == saved
    {
      scopes, batches, members := saved.scopes, saved.batches, saved.members;
      objects, events := saved.objects, saved.events;
    }

    /** The transaction around apply_event: a rejection leaves no trace. */
    method Post(e: Envelope) returns (r: Outcome)
      requires Valid()
      modifies this
      ensures Valid()
      ensures (Contents(), r) == Apply(old(Contents()), e)
      ensures Accepts(old(Contents()), e) ==> log == old(log) + [Entry(e, r.reply)]
      ensures !Accepts(old(Contents()), e) ==> log == old(log) && Contents() == old(Contents())
    {
      var saved := Tables(scopes, batches, members, objects, events);
      r := ApplyEvent(e);
      if r.Rejected? {
        RejectedChangesNothing(saved, e);
        RollBack(saved);
      } else if r.reply.applied {
        Commit(saved, e);
        log := log + [Entry(e, r.reply)];
      } else {
        Replay(saved, e);
      }
    }

    ghost method Commit(before: Tables, e: Envelope)
      requires Consistent(before, log) && Accepts(before, e) && Contents() == Apply(before, e).0
      ensures Consistent(Contents(), log + [NewEntry(before, e)])
    {
      Step(before, log, e);
    }

    ghost method Replay(before: Tables, e: Envelope)
      requires Consistent(before, log) && Apply(before, e).1.Answered? && !Accepts(before, e)
      requires Contents() == Apply(before, e).0
      ensures Contents() == before
    {
      TT.OthersChangeNothing(before, log, e);
    }
  }
}
