/**
 The Kubernetes reconciliation target: its five tables and what one event does to them
 (tools/subscriptions/kubernetes_target_probe.py).

 A table is a map from its primary key to the rest of the row. One accepted event is one
 committed transaction, so `Apply` takes whole tables to whole tables.
 */
module TargetTables {
  import opened Wrappers

  datatype Kind = SyncStarted | SyncCompleted | SyncFailed | ObjectPresent | ObjectRemoved

  datatype WatchType = List | Added | Modified | Deleted

  datatype Phase = PhaseStarted | PhaseCompleted | PhaseFailed | PhaseList | PhaseWatch

  datatype Sync = Sync(fingerprint: string, batch: string, phase: Phase,
                       readComplete: bool, itemCount: int, failureCode: Option<string>)

  datatype Attributes = Attributes(cluster: string, group: string, version: string, resource: string,
                                   ns: Option<string>, name: Option<string>, uid: Option<string>,
                                   watch: Option<WatchType>)

  /** `source.identity`: "kubernetes-scope-v1:" followed by the scope fingerprint, or anything else. */
  datatype Identity = ScopeV1(fingerprint: string) | Foreign(text: string)

  /** A Kubernetes object as delivered: the metadata that is checked, and everything else. */
  datatype Document = Document(uid: string, name: string, ns: string, resourceVersion: string, rest: string)

  datatype Envelope = Envelope(schema: string, sourceType: string, subscription: string, ident: string,
                               kind: Kind, identity: Identity, attrs: Attributes, position: Option<string>,
                               encoding: string, value: Option<Document>, sync: Option<Sync>)

  /** SHA-256 over the canonical encoding, taken to be injective. */
  datatype Hash = Hash(preimage: Document)

  /** The digest of the stable part of an envelope; watch events leave `sync` out of it. */
  datatype Digest = Digest(ident: string, kind: Kind, sourceType: string, identity: Identity, attrs: Attributes,
                           position: Option<string>, encoding: string, value: Option<Document>,
                           sync: Option<Sync>)

  datatype Owner = Owner(subscription: string, fingerprint: string)
  datatype BatchKey = BatchKey(owner: Owner, batch: string)
  datatype MemberKey = MemberKey(batch: BatchKey, uid: string)
  datatype ObjectKey = ObjectKey(owner: Owner, uid: string)
  datatype EventKey = EventKey(subscription: string, ident: string)

  datatype ScopeRow = ScopeRow(identity: Identity, cluster: string, group: string, version: string,
                               resource: string, ns: Option<string>, generation: nat)
  datatype BatchState = Active | Failed | Completed
  datatype BatchRow = BatchRow(generation: nat, state: BatchState)
  datatype ObjectRow = ObjectRow(ns: string, name: string, payload: Document, hash: Hash,
                                 generation: nat, writes: nat)
  datatype Reply = Reply(ident: string, kind: Kind, applied: bool, generation: nat,
                         cleaned: nat, removed: Option<nat>)
  datatype EventRow = EventRow(digest: Digest, reply: Reply)

  datatype Tables = Tables(scopes: map<Owner, ScopeRow>, batches: map<BatchKey, BatchRow>,
                           members: map<MemberKey, Hash>, objects: map<ObjectKey, ObjectRow>,
                           events: map<EventKey, EventRow>)

  datatype Code =
    | EventInvalid | ScopeNotStarted | ScopeConflict | EventIdentityConflict
    | BatchNotNew | BatchAlreadyCompleted | BatchCleanupIneligible | BatchMembersIncomplete
    | WatchGenerationStale | BatchMemberIneligible | BatchMemberConflict

  datatype Outcome = Answered(reply: Reply) | Rejected(code: Code)

  const NO_TABLES := Tables(map[], map[], map[], map[], map[])

  // ---- validate ------------------------------------------------------------------------------

  predicate IsHex(s: string) {
    |s| == 64 && forall i :: 0 <= i < |s| ==> ('0' <= s[i] <= '9' || 'a' <= s[i] <= 'f')
  }

  predicate IsSubscription(s: string) {
    && 0 < |s| <= 20
    && (forall i :: 0 <= i < |s| ==> '0' <= s[i] <= '9')
    && (exists i :: 0 <= i < |s| && s[i] != '0')
  }

  predicate IsControl(kind: Kind) {
    kind.SyncStarted? || kind.SyncCompleted? || kind.SyncFailed?
  }

  function Fingerprint(e: Envelope): string {
    match e.identity
    case ScopeV1(fingerprint) => fingerprint
    case Foreign(text) => text
  }

  predicate PhaseOf(kind: Kind, phase: Phase) {
    match kind
    case SyncStarted => phase == PhaseStarted
    case SyncCompleted => phase == PhaseCompleted
    case SyncFailed => phase == PhaseFailed
    case _ => false
  }

  predicate ValidControl(e: Envelope) {
    && e.sync.Some?
    && PhaseOf(e.kind, e.sync.value.phase)
    && e.value.None?
    && 0 <= e.sync.value.itemCount <= 5000
  }

  predicate ValidObject(e: Envelope) {
    && e.value.Some? && e.attrs.uid.Some? && e.attrs.name.Some? && e.attrs.ns.Some? && e.attrs.watch.Some?
    && 0 < |e.attrs.uid.value| <= 128
    && 0 < |e.attrs.name.value| <= 253
    && 0 < |e.attrs.ns.value| <= 253
    && e.value.value.uid == e.attrs.uid.value
    && e.value.value.name == e.attrs.name.value
    && e.value.value.ns == e.attrs.ns.value
    && e.position == Some(e.value.value.resourceVersion)
    && (e.kind.ObjectRemoved? <==> e.attrs.watch.value.Deleted?)
    && (e.attrs.watch.value.List? ==> e.sync.Some? && e.sync.value.phase.PhaseList?)
    && (!e.attrs.watch.value.List? && e.sync.Some? ==> e.sync.value.phase.PhaseWatch?)
  }

  /** The part of validation that depends on the kind of event. */
  predicate Structured(e: Envelope) {
    if IsControl(e.kind) then ValidControl(e) else ValidObject(e)
  }

  predicate ValidHeader(e: Envelope) {
    && e.schema == "dlr.event.v1" && e.sourceType == "kubernetes" && e.encoding == "json"
    && IsSubscription(e.subscription) && IsHex(e.ident)
    && e.identity.ScopeV1? && IsHex(Fingerprint(e))
    && ((e.attrs.group == "" && e.attrs.version == "v1" && e.attrs.resource == "pods")
        || (e.attrs.group == "apps" && e.attrs.version == "v1" && e.attrs.resource == "deployments"))
    && 0 < |e.attrs.cluster| <= 256
    && (e.sync.Some? ==> e.sync.value.fingerprint == Fingerprint(e) && 0 < |e.sync.value.batch| <= 128)
  }

  predicate Validate(e: Envelope) { ValidHeader(e) && Structured(e) }

  // ---- keys of an envelope -------------------------------------------------------------------

  function OwnerOf(e: Envelope): Owner { Owner(e.subscription, Fingerprint(e)) }

  function EventKeyOf(e: Envelope): EventKey { EventKey(e.subscription, e.ident) }

  predicate IsList(e: Envelope) { e.attrs.watch == Some(List) }

  function DigestOf(e: Envelope): Digest {
    Digest(e.ident, e.kind, e.sourceType, e.identity, e.attrs, e.position, e.encoding, e.value,
           if IsControl(e.kind) || IsList(e) then e.sync else None)
  }

  function BatchKeyOf(e: Envelope): BatchKey
    requires e.sync.Some?
  {
    BatchKey(OwnerOf(e), e.sync.value.batch)
  }

  function ObjectKeyOf(e: Envelope): ObjectKey
    requires e.attrs.uid.Some?
  {
    ObjectKey(OwnerOf(e), e.attrs.uid.value)
  }

  // ---- apply_event ---------------------------------------------------------------------------

  /** The insert with ON CONFLICT DO NOTHING that only started and failed events perform. */
  function OpenScope(t: Tables, e: Envelope): Tables {
    if (e.kind.SyncStarted? || e.kind.SyncFailed?) && OwnerOf(e) !in t.scopes then
      t.(scopes := t.scopes[OwnerOf(e) := ScopeRow(e.identity, e.attrs.cluster, e.attrs.group,
                                                  e.attrs.version, e.attrs.resource, e.attrs.ns, 0)])
    else t
  }

  predicate ScopeMatches(row: ScopeRow, e: Envelope) {
    && (row.cluster, row.group, row.version, row.resource)
       == (e.attrs.cluster, e.attrs.group, e.attrs.version, e.attrs.resource)
    && ((IsControl(e.kind) || row.ns.Some?) ==> row.ns == e.attrs.ns)
  }

  function NewReply(e: Envelope, generation: nat): Reply {
    Reply(e.ident, e.kind, true, generation, 0, None)
  }

  datatype Mutation = Done(tables: Tables, reply: Reply) | Refused(code: Code)

  function Start(t: Tables, e: Envelope): Mutation
    requires Structured(e) && e.kind.SyncStarted? && OwnerOf(e) in t.scopes
  {
    var row := t.scopes[OwnerOf(e)];
    if BatchKeyOf(e) in t.batches then Refused(BatchNotNew)
    else
      Done(t.(scopes := t.scopes[OwnerOf(e) := row.(generation := row.generation + 1)],
              batches := t.batches[BatchKeyOf(e) := BatchRow(row.generation + 1, Active)]),
           NewReply(e, row.generation + 1))
  }

  function Fail(t: Tables, e: Envelope): Mutation
    requires Structured(e) && e.kind.SyncFailed? && OwnerOf(e) in t.scopes
  {
    var generation := t.scopes[OwnerOf(e)].generation;
    var key := BatchKeyOf(e);
    if key in t.batches && t.batches[key].state.Completed? then Refused(BatchAlreadyCompleted)
    else
      Done(t.(batches := t.batches[key := if key in t.batches then t.batches[key].(state := Failed)
                                          else BatchRow(generation, Failed)]),
           NewReply(e, generation))
  }

  /** The uids that a batch has listed. */
  function Listed(t: Tables, batch: BatchKey): set<MemberKey> {
    set m | m in t.members && m.batch == batch
  }

  predicate Carried(t: Tables, m: MemberKey, generation: nat)
    requires m in t.members
  {
    var key := ObjectKey(m.batch.owner, m.uid);
    key in t.objects && t.objects[key].generation == generation && t.objects[key].hash == t.members[m]
  }

  /** The uids whose object row is of this generation and carries the listed payload hash. */
  function Arrived(t: Tables, batch: BatchKey, generation: nat): set<MemberKey> {
    set m | m in t.members && m.batch == batch && Carried(t, m, generation)
  }

  /** The rows that the cleanup of a generation deletes. */
  function Stale(t: Tables, owner: Owner, generation: nat): set<ObjectKey> {
    set k | k in t.objects && k.owner == owner && t.objects[k].generation < generation
  }

  function Complete(t: Tables, e: Envelope): Mutation
    requires Structured(e) && e.kind.SyncCompleted? && OwnerOf(e) in t.scopes
  {
    var generation := t.scopes[OwnerOf(e)].generation;
    var key := BatchKeyOf(e);
    if key !in t.batches || t.batches[key] != BatchRow(generation, Active) || !e.sync.value.readComplete then
      Refused(BatchCleanupIneligible)
    else if !(|Listed(t, key)| == e.sync.value.itemCount == |Arrived(t, key, generation)|) then
      Refused(BatchMembersIncomplete)
    else
      var stale := Stale(t, OwnerOf(e), generation);
      Done(t.(objects := t.objects - stale,
              batches := t.batches[key := t.batches[key].(state := Completed)]),
           NewReply(e, generation).(cleaned := |stale|))
  }

  /** Membership of a listed object: an insert that keeps the first hash, then a comparison with it. */
  function ListMember(t: Tables, e: Envelope): Mutation
    requires Structured(e) && !IsControl(e.kind) && OwnerOf(e) in t.scopes
  {
    var generation := t.scopes[OwnerOf(e)].generation;
    if !IsList(e) then Done(t, NewReply(e, generation))
    else
      var key := BatchKeyOf(e);
      var member := MemberKey(key, e.attrs.uid.value);
      var hash := Hash(e.value.value);
      if key !in t.batches || t.batches[key].generation != generation || t.batches[key].state.Completed? then
        Refused(BatchMemberIneligible)
      else if member in t.members && t.members[member] != hash then Refused(BatchMemberConflict)
      else Done(t.(members := t.members[member := hash]), NewReply(e, generation))
  }

  function WriteObject(t: Tables, e: Envelope): Mutation
    requires Structured(e) && !IsControl(e.kind) && OwnerOf(e) in t.scopes
  {
    var generation := t.scopes[OwnerOf(e)].generation;
    var key := ObjectKeyOf(e);
    if e.kind.ObjectRemoved? then
      Done(t.(objects := t.objects - {key}),
           NewReply(e, generation).(removed := Some(if key in t.objects then 1 else 0)))
    else
      Done(t.(objects := t.objects[key := ObjectRow(e.attrs.ns.value, e.attrs.name.value, e.value.value,
                                                    Hash(e.value.value), generation,
                                                    if key in t.objects then t.objects[key].writes + 1 else 1)]),
           NewReply(e, generation))
  }

  function Present(t: Tables, e: Envelope): Mutation
    requires Structured(e) && !IsControl(e.kind) && OwnerOf(e) in t.scopes
  {
    if !IsList(e) && e.sync.Some?
       && (BatchKeyOf(e) !in t.batches
           || t.batches[BatchKeyOf(e)].generation != t.scopes[OwnerOf(e)].generation) then
      Refused(WatchGenerationStale)
    else
      match ListMember(t, e)
      case Refused(code) => Refused(code)
      case Done(listed, _) => WriteObject(listed, e)
  }

  function Mutate(t: Tables, e: Envelope): Mutation
    requires Structured(e) && OwnerOf(e) in t.scopes
  {
    match e.kind
    case SyncStarted => Start(t, e)
    case SyncFailed => Fail(t, e)
    case SyncCompleted => Complete(t, e)
    case _ => Present(t, e)
  }

  /** What one transaction commits and answers; a rejection commits nothing. */
  function Apply(t: Tables, e: Envelope): (Tables, Outcome) {
    if !Validate(e) then (t, Rejected(EventInvalid))
    else
      var scoped := OpenScope(t, e);
      if OwnerOf(e) !in scoped.scopes then (t, Rejected(ScopeNotStarted))
      else if !ScopeMatches(scoped.scopes[OwnerOf(e)], e) then (t, Rejected(ScopeConflict))
      else if EventKeyOf(e) in scoped.events then
        var prior := scoped.events[EventKeyOf(e)];
        if prior.digest != DigestOf(e) then (t, Rejected(EventIdentityConflict))
        else (scoped, Answered(prior.reply.(applied := false)))
      else
        match Mutate(scoped, e)
        case Refused(code) => (t, Rejected(code))
        case Done(tables, reply) =>
          (tables.(events := tables.events[EventKeyOf(e) := EventRow(DigestOf(e), reply)]), Answered(reply))
  }
}
