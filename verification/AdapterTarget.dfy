/**
 The reference adapter's transaction on the target tables (tools/ingress/reference_adapter.py,
 _transaction, with the keys and checks of tools/ingress/target.sql): what one transaction does,
 how concurrent ones interleave, and what the oracle says of the tables they leave.
 */
module AdapterTarget {
  import opened Wrappers
  import opened TargetOracle

  /** The primary key of the attempts table. */
  datatype Slot = Slot(key: Key, ordinal: int)

  datatype Tables = Tables(rows: map<Key, Row>, attempts: map<Slot, Attempt>)

  const EMPTY_TABLES := Tables(map[], map[])

  // ---- one transaction on its own ------------------------------------------------------------

  function NewRow(item: Input): Row {
    Row(item.key, item.seqNo, item.payload, item.normalized, 1, 0)
  }

  function AttemptOf(item: Input, ordinal: int, isNew: bool): Attempt {
    Attempt(item.key, ordinal, if isNew then Inserted else Duplicate, item.payload, item.normalized)
  }

  /** The row that the transaction locks and reads. */
  function Prior(tables: Tables, item: Input): Row {
    if item.key in tables.rows then tables.rows[item.key] else NewRow(item)
  }

  predicate Accepts(prior: Row, item: Input) {
    RowMatches(prior, item) && prior.attempts < MAX_ATTEMPTS
  }

  function Written(tables: Tables, item: Input): Tables {
    var ordinal := Prior(tables, item).attempts + 1;
    Tables(tables.rows[item.key := Prior(tables, item).(attempts := ordinal)],
           tables.attempts[Slot(item.key, ordinal) := AttemptOf(item, ordinal, item.key !in tables.rows)])
  }

  /** The transaction run alone; None when it rolls back. */
  function Write(tables: Tables, item: Input): Option<Tables> {
    if Accepts(Prior(tables, item), item) then Some(Written(tables, item)) else None
  }

  /** The tables after the transactions of a log, one after the other. */
  function Replay(log: seq<Input>): Option<Tables> {
    if log == [] then Some(EMPTY_TABLES)
    else match Replay(log[..|log| - 1])
      case None => None
      case Some(tables) => Write(tables, log[|log| - 1])
  }

  function Commits(log: seq<Input>, k: Key): nat {
    if log == [] then 0 else Commits(log[..|log| - 1], k) + if log[|log| - 1].key == k then 1 else 0
  }

  ghost predicate RowOk(tables: Tables, k: Key) {
    k in tables.rows ==>
      tables.rows[k].key == k && tables.rows[k].writes == 1 && 1 <= tables.rows[k].attempts <= MAX_ATTEMPTS
  }

  /** An attempt row exists for exactly the ordinals up to the count; only the first is an insert. */
  ghost predicate SlotOk(tables: Tables, slot: Slot) {
    && (slot in tables.attempts <==>
          slot.key in tables.rows && 1 <= slot.ordinal <= tables.rows[slot.key].attempts)
    && (slot in tables.attempts ==>
          tables.attempts[slot] == Attempt(slot.key, slot.ordinal, if slot.ordinal == 1 then Inserted else Duplicate,
                                           tables.rows[slot.key].payload, tables.rows[slot.key].normalized))
  }

  ghost predicate TablesOk(tables: Tables) {
    (forall k :: RowOk(tables, k)) && (forall slot :: SlotOk(tables, slot))
  }

  lemma {:induction false} WriteKeepsTables(tables: Tables, item: Input)
    requires TablesOk(tables) && Accepts(Prior(tables, item), item)
    ensures TablesOk(Written(tables, item))
  {
    var after := Written(tables, item);
    assert RowOk(tables, item.key);
    forall k ensures RowOk(after, k) {
      assert RowOk(tables, k);
    }
    forall slot ensures SlotOk(after, slot) {
      assert SlotOk(tables, slot);
    }
  }

  /**
   After any log of committed transactions, a key's attempts number its commits, there is one
   attempt row for each of 1 to that number and no other, and ordinal 1 alone is an insert.
   */
  lemma {:induction false} ReplayAccounts(log: seq<Input>, k: Key)
    requires Replay(log).Some?
    ensures var tables := Replay(log).value;
            && TablesOk(tables)
            && (k in tables.rows <==> Commits(log, k) > 0)
            && (k in tables.rows ==> tables.rows[k].attempts == Commits(log, k))
  {
    if log == [] {
      assert TablesOk(EMPTY_TABLES);
    } else {
      ReplayAccounts(log[..|log| - 1], k);
      WriteKeepsTables(Replay(log[..|log| - 1]).value, log[|log| - 1]);
    }
  }

  /** Every commit under a key carried the content of its row: that of the first one. */
  lemma {:induction false} ContentNeverChanges(log: seq<Input>, i: nat)
    requires Replay(log).Some? && i < |log|
    ensures var rows := Replay(log).value.rows;
            log[i].key in rows && RowMatches(rows[log[i].key], log[i])
  {
    if i < |log| - 1 {
      ContentNeverChanges(log[..|log| - 1], i);
    }
  }

  // ---- concurrent transactions ---------------------------------------------------------------

  /** Where a transaction stands between its statements; `row` is its own version of the row. */
  datatype Stage =
    | Begun
    | InsertedNew                       // ON CONFLICT DO NOTHING inserted the row
    | SawExisting                       // ... or found a committed one
    | Read(row: Row)                    // SELECT ... FOR UPDATE
    | Raised(row: Row)                  // UPDATE attempts = attempts + 1
    | Recorded(row: Row, made: Attempt) // INSERT of the attempt: only COMMIT is left

  datatype Session = Session(item: Input, isNew: bool, stage: Stage)

  /** Committed tables, row locks, open transactions, and the committed transactions in order. */
  datatype System = System(tables: Tables, locks: map<Key, nat>, sessions: map<nat, Session>, log: seq<Input>)

  datatype Action =
    | Begin(t: nat, item: Input)
    | Insert(t: nat)
    | Select(t: nat)
    | Raise(t: nat)
    | Record(t: nat)
    | Commit(t: nat)
    | Lose(t: nat) // connection lost, timeout or any other error before COMMIT takes effect

  const START := System(EMPTY_TABLES, map[], map[], [])

  predicate OwnsLock(s: System, t: nat, k: Key) {
    k in s.locks && s.locks[k] == t
  }

  function Rollback(s: System, t: nat): System
    requires t in s.sessions
  {
    var k := s.sessions[t].item.key;
    s.(locks := if OwnsLock(s, t, k) then s.locks - {k} else s.locks, sessions := s.sessions - {t})
  }

  /** A statement that moves the transaction on while it holds its row lock. */
  function Locked(s: System, t: nat, session: Session): System {
    s.(locks := s.locks[session.item.key := t], sessions := s.sessions[t := session])
  }

  /** A unique index makes an insert wait for the transaction that has the same key in flight. */
  function InsertStep(s: System, t: nat): System
    requires t in s.sessions && s.sessions[t].stage.Begun?
  {
    var session := s.sessions[t];
    if session.item.key in s.tables.rows then s.(sessions := s.sessions[t := session.(stage := SawExisting)])
    else if session.item.key in s.locks then s
    else Locked(s, t, session.(isNew := true, stage := InsertedNew))
  }

  function SelectStep(s: System, t: nat): System
    requires t in s.sessions && (s.sessions[t].stage.InsertedNew? || s.sessions[t].stage.SawExisting?)
  {
    var session := s.sessions[t];
    var k := session.item.key;
    if session.stage.InsertedNew? then Locked(s, t, session.(stage := Read(NewRow(session.item))))
    else if k !in s.tables.rows then Rollback(s, t)
    else if k in s.locks then s
    else if !Accepts(s.tables.rows[k], session.item) then Rollback(s, t)
    else Locked(s, t, session.(stage := Read(s.tables.rows[k])))
  }

  /** CHECK (attempts BETWEEN 0 AND 64) */
  function RaiseStep(s: System, t: nat): System
    requires t in s.sessions && s.sessions[t].stage.Read?
  {
    var session := s.sessions[t];
    var row := session.stage.row;
    if row.attempts + 1 > MAX_ATTEMPTS then Rollback(s, t)
    else Locked(s, t, session.(stage := Raised(row.(attempts := row.attempts + 1))))
  }

  /** PRIMARY KEY (run_id, message_id, ordinal) and CHECK (ordinal BETWEEN 1 AND 64) */
  predicate SlotFree(tables: Tables, row: Row) {
    1 <= row.attempts <= MAX_ATTEMPTS && Slot(row.key, row.attempts) !in tables.attempts
  }

  function RecordStep(s: System, t: nat): System
    requires t in s.sessions && s.sessions[t].stage.Raised?
  {
    var session := s.sessions[t];
    var row := session.stage.row;
    if !SlotFree(s.tables, row) then Rollback(s, t)
    else Locked(s, t, session.(stage := Recorded(row, AttemptOf(session.item, row.attempts, session.isNew))))
  }

  function CommitStep(s: System, t: nat): System
    requires t in s.sessions && s.sessions[t].stage.Recorded?
  {
    var session := s.sessions[t];
    var made := session.stage.made;
    Rollback(s, t).(tables := Tables(s.tables.rows[session.item.key := session.stage.row],
                                     s.tables.attempts[Slot(made.key, made.ordinal) := made]),
                    log := s.log + [session.item])
  }

  /** An action that does not apply, or has to wait, leaves everything as it is. */
  function Next(s: System, a: Action): System {
    if a.Begin? then
      if a.t in s.sessions then s else s.(sessions := s.sessions[a.t := Session(a.item, false, Begun)])
    else if a.t !in s.sessions then s
    else
      var stage := s.sessions[a.t].stage;
      if a.Lose? then Rollback(s, a.t)
      else if a.Insert? && stage.Begun? then InsertStep(s, a.t)
      else if a.Select? && (stage.InsertedNew? || stage.SawExisting?) then SelectStep(s, a.t)
      else if a.Raise? && stage.Read? then RaiseStep(s, a.t)
      else if a.Record? && stage.Raised? then RecordStep(s, a.t)
      else if a.Commit? && stage.Recorded? then CommitStep(s, a.t)
      else s
  }

  function Run(actions: seq<Action>): System {
    if actions == [] then START else Next(Run(actions[..|actions| - 1]), actions[|actions| - 1])
  }

  // ---- every interleaving is a sequence of whole transactions --------------------------------

  predicate Holding(stage: Stage) {
    !stage.Begun? && !stage.SawExisting?
  }

  ghost predicate StageOk(tables: Tables, session: Session) {
    var prior := Prior(tables, session.item);
    match session.stage
    case Begun => true
    case SawExisting => session.item.key in tables.rows && !session.isNew
    case InsertedNew => session.isNew
    case Read(row) => row == prior && Accepts(prior, session.item)
    case Raised(row) => row == prior.(attempts := prior.attempts + 1) && Accepts(prior, session.item)
    case Recorded(row, made) =>
      && row == prior.(attempts := prior.attempts + 1) && Accepts(prior, session.item)
      && made == AttemptOf(session.item, row.attempts, session.isNew)
  }

  ghost predicate SessionOk(s: System, t: nat) {
    t in s.sessions ==>
      && StageOk(s.tables, s.sessions[t])
      && (Holding(s.sessions[t].stage) ==>
            && OwnsLock(s, t, s.sessions[t].item.key)
            && (s.sessions[t].isNew <==> s.sessions[t].item.key !in s.tables.rows))
      && (s.sessions[t].stage.Begun? ==> !s.sessions[t].isNew)
  }

  ghost predicate LockOk(s: System, k: Key) {
    k in s.locks ==>
      s.locks[k] in s.sessions && s.sessions[s.locks[k]].item.key == k && Holding(s.sessions[s.locks[k]].stage)
  }

  ghost predicate SystemOk(s: System) {
    && (forall t :: SessionOk(s, t))
    && (forall k :: LockOk(s, k))
    && Replay(s.log) == Some(s.tables)
    && TablesOk(s.tables)
  }

  lemma {:induction false} RollbackKeeps(s: System, t: nat)
    requires SystemOk(s) && t in s.sessions
    ensures SystemOk(Rollback(s, t))
  {
    var after := Rollback(s, t);
    forall u ensures SessionOk(after, u) {
      assert SessionOk(s, u) && SessionOk(s, t);
    }
    forall k ensures LockOk(after, k) {
      assert LockOk(s, k);
      assert SessionOk(s, t);
    }
  }

  lemma {:induction false} LockedKeeps(s: System, t: nat, session: Session)
    requires SystemOk(s) && t in s.sessions && session.item == s.sessions[t].item
    requires session.item.key in s.locks ==> s.locks[session.item.key] == t
    requires StageOk(s.tables, session) && Holding(session.stage)
    requires session.isNew <==> session.item.key !in s.tables.rows
    ensures SystemOk(Locked(s, t, session))
  {
    var after := Locked(s, t, session);
    forall u ensures SessionOk(after, u) {
      assert SessionOk(s, u);
    }
    forall k ensures LockOk(after, k) {
      assert LockOk(s, k);
    }
  }

  lemma {:induction false} InsertKeeps(s: System, t: nat)
    requires SystemOk(s) && t in s.sessions && s.sessions[t].stage.Begun?
    ensures SystemOk(InsertStep(s, t))
  {
    var session := s.sessions[t];
    assert SessionOk(s, t);
    if session.item.key in s.tables.rows {
      var after := InsertStep(s, t);
      forall u ensures SessionOk(after, u) {
        assert SessionOk(s, u);
      }
      forall k ensures LockOk(after, k) {
        assert LockOk(s, k);
      }
    } else if session.item.key !in s.locks {
      LockedKeeps(s, t, session.(isNew := true, stage := InsertedNew));
    }
  }

  lemma {:induction false} SelectKeeps(s: System, t: nat)
    requires SystemOk(s) && t in s.sessions && (s.sessions[t].stage.InsertedNew? || s.sessions[t].stage.SawExisting?)
    ensures SystemOk(SelectStep(s, t))
  {
    var session := s.sessions[t];
    var k := session.item.key;
    assert SessionOk(s, t);
    if session.stage.InsertedNew? {
      LockedKeeps(s, t, session.(stage := Read(NewRow(session.item))));
    } else if k !in s.locks {
      if Accepts(s.tables.rows[k], session.item) {
        LockedKeeps(s, t, session.(stage := Read(s.tables.rows[k])));
      } else {
        RollbackKeeps(s, t);
      }
    }
  }

  /** Neither CHECK nor the primary key ever refuses a statement of the adapter. */
  lemma {:induction false} ConstraintsNeverFire(s: System, t: nat)
    requires SystemOk(s) && t in s.sessions
    ensures s.sessions[t].stage.Read? ==> s.sessions[t].stage.row.attempts + 1 <= MAX_ATTEMPTS
    ensures s.sessions[t].stage.Raised? ==> SlotFree(s.tables, s.sessions[t].stage.row)
    ensures s.sessions[t].stage.SawExisting? ==> s.sessions[t].item.key in s.tables.rows
  {
    assert SessionOk(s, t);
    if s.sessions[t].stage.Raised? {
      var row := s.sessions[t].stage.row;
      assert RowOk(s.tables, s.sessions[t].item.key);
      assert SlotOk(s.tables, Slot(row.key, row.attempts));
    }
  }

  lemma {:induction false} RaiseKeeps(s: System, t: nat)
    requires SystemOk(s) && t in s.sessions && s.sessions[t].stage.Read?
    ensures SystemOk(RaiseStep(s, t))
  {
    ConstraintsNeverFire(s, t);
    assert SessionOk(s, t);
    var row := s.sessions[t].stage.row;
    LockedKeeps(s, t, s.sessions[t].(stage := Raised(row.(attempts := row.attempts + 1))));
  }

  lemma {:induction false} RecordKeeps(s: System, t: nat)
    requires SystemOk(s) && t in s.sessions && s.sessions[t].stage.Raised?
    ensures SystemOk(RecordStep(s, t))
  {
    ConstraintsNeverFire(s, t);
    assert SessionOk(s, t);
    var session := s.sessions[t];
    var row := session.stage.row;
    LockedKeeps(s, t, session.(stage := Recorded(row, AttemptOf(session.item, row.attempts, session.isNew))));
  }

  /** What COMMIT publishes is the whole transaction applied to the tables as they are then. */
  lemma {:induction false} CommitIsWrite(s: System, t: nat)
    requires SystemOk(s) && t in s.sessions && s.sessions[t].stage.Recorded?
    ensures Write(s.tables, s.sessions[t].item) == Some(CommitStep(s, t).tables)
    ensures Replay(CommitStep(s, t).log) == Some(CommitStep(s, t).tables)
    ensures TablesOk(CommitStep(s, t).tables)
  {
    assert SessionOk(s, t);
    assert RowOk(s.tables, s.sessions[t].item.key);
    var log := CommitStep(s, t).log;
    assert log[..|log| - 1] == s.log;
    WriteKeepsTables(s.tables, s.sessions[t].item);
  }

  lemma {:induction false} CommitKeeps(s: System, t: nat)
    requires SystemOk(s) && t in s.sessions && s.sessions[t].stage.Recorded?
    ensures SystemOk(CommitStep(s, t))
  {
    CommitIsWrite(s, t);
    var after := CommitStep(s, t);
    assert SessionOk(s, t);
    forall u ensures SessionOk(after, u) {
      assert SessionOk(s, u);
    }
    forall k ensures LockOk(after, k) {
      assert LockOk(s, k);
    }
  }

  lemma {:induction false} BeginKeeps(s: System, t: nat, item: Input)
    requires SystemOk(s) && t !in s.sessions
    ensures SystemOk(s.(sessions := s.sessions[t := Session(item, false, Begun)]))
  {
    var after := s.(sessions := s.sessions[t := Session(item, false, Begun)]);
    forall u ensures SessionOk(after, u) {
      assert SessionOk(s, u);
    }
    forall k ensures LockOk(after, k) {
      assert LockOk(s, k);
    }
  }

  lemma {:induction false} NextKeeps(s: System, a: Action)
    requires SystemOk(s)
    ensures SystemOk(Next(s, a))
  {
    if a.Begin? {
      if a.t !in s.sessions { BeginKeeps(s, a.t, a.item); }
    } else if a.t in s.sessions {
      var stage := s.sessions[a.t].stage;
      if a.Lose? { RollbackKeeps(s, a.t); }
      else if a.Insert? && stage.Begun? { InsertKeeps(s, a.t); }
      else if a.Select? && (stage.InsertedNew? || stage.SawExisting?) { SelectKeeps(s, a.t); }
      else if a.Raise? && stage.Read? { RaiseKeeps(s, a.t); }
      else if a.Record? && stage.Raised? { RecordKeeps(s, a.t); }
      else if a.Commit? && stage.Recorded? { CommitKeeps(s, a.t); }
    }
  }

  /**
   Serialisability: whatever the interleaving of statements, lost connections and commits, the
   committed tables are those of running the committed transactions whole, in commit order.
   */
  lemma {:induction false} Serialisable(actions: seq<Action>)
    ensures SystemOk(Run(actions)) && Replay(Run(actions).log) == Some(Run(actions).tables)
  {
    if actions == [] {
      assert forall slot :: SlotOk(EMPTY_TABLES, slot);
    } else {
      Serialisable(actions[..|actions| - 1]);
      NextKeeps(Run(actions[..|actions| - 1]), actions[|actions| - 1]);
    }
  }

  // ---- one transaction of an interleaving ----------------------------------------------------

  /** The action at `b` opens a transaction on this item. */
  predicate OpensAt(actions: seq<Action>, b: nat, item: Input) {
    b < |actions| && actions[b].Begin? && actions[b].item == item && actions[b].t !in Run(actions[..b]).sessions
  }

  /** It stays open from `b` up to the action at `n`. */
  ghost predicate OpenUpTo(actions: seq<Action>, b: nat, n: nat)
    requires n <= |actions| && b < |actions| && actions[b].Begin?
  {
    forall m :: b < m <= n ==> actions[b].t in Run(actions[..m]).sessions
  }

  /** At `n` the COMMIT of the transaction that `b` opens finds all its statements done. */
  ghost predicate CommitsAt(actions: seq<Action>, b: nat, n: nat)
    requires b < |actions| && actions[b].Begin?
  {
    && b < n < |actions| && OpenUpTo(actions, b, n) && actions[n] == Commit(actions[b].t)
    && Run(actions[..n]).sessions[actions[b].t].stage.Recorded?
  }

  /** The transaction that `b` opens takes effect. */
  ghost predicate TakesEffect(actions: seq<Action>, b: nat, item: Input) {
    OpensAt(actions, b, item) && exists n :: CommitsAt(actions, b, n)
  }

  lemma {:induction false} RunPrefix(actions: seq<Action>, m: nat)
    requires 0 < m <= |actions|
    ensures Run(actions[..m]) == Next(Run(actions[..m - 1]), actions[m - 1])
  {
    assert actions[..m][..m - 1] == actions[..m - 1];
  }

  lemma {:induction false} OpenKeepsItem(actions: seq<Action>, b: nat, n: nat, item: Input)
    requires OpensAt(actions, b, item) && b < n <= |actions| && OpenUpTo(actions, b, n)
    ensures Run(actions[..n]).sessions[actions[b].t].item == item
  {
    RunPrefix(actions, n);
    if n > b + 1 {
      OpenKeepsItem(actions, b, n - 1, item);
    }
  }

  lemma {:induction false} LogStep(s: System, a: Action)
    ensures s.log <= Next(s, a).log
    ensures a.Commit? && a.t in s.sessions && s.sessions[a.t].stage.Recorded? ==>
              Next(s, a).log == s.log + [s.sessions[a.t].item]
  {
  }

  lemma {:induction false} LogGrows(actions: seq<Action>, n: nat)
    requires n <= |actions|
    ensures Run(actions[..n]).log <= Run(actions).log
    decreases |actions| - n
  {
    if n == |actions| {
      assert actions[..n] == actions;
    } else {
      RunPrefix(actions, n + 1);
      LogStep(Run(actions[..n]), actions[n]);
      LogGrows(actions, n + 1);
    }
  }

  lemma {:induction false} CommitsOf(log: seq<Input>, i: nat)
    requires i < |log|
    ensures Commits(log, log[i].key) > 0
  {
    if i < |log| - 1 { CommitsOf(log[..|log| - 1], i); }
  }

  /**
   A transaction that takes effect is the entry of the log at the place where its COMMIT finds the
   log: its own item, behind what had been committed before.
   */
  lemma {:induction false} EffectIsCommit(actions: seq<Action>, b: nat, item: Input) returns (n: nat)
    requires TakesEffect(actions, b, item)
    ensures CommitsAt(actions, b, n) && Run(actions[..n]).log + [item] <= Run(actions).log
    ensures Commits(Run(actions).log, item.key) > 0
  {
    n :| CommitsAt(actions, b, n);
    OpenKeepsItem(actions, b, n, item);
    RunPrefix(actions, n + 1);
    LogStep(Run(actions[..n]), actions[n]);
    LogGrows(actions, n + 1);
    assert Run(actions).log[|Run(actions[..n]).log|] == item;
    CommitsOf(Run(actions).log, |Run(actions[..n]).log|);
  }

  // ---- against the oracle --------------------------------------------------------------------

  /** The message of an item is the manifest's for its key. */
  ghost predicate FromManifest(expected: map<Key, Input>, item: Input) {
    item.key in expected && expected[item.key] == item
  }

  ghost predicate OnlyManifest(expected: map<Key, Input>, actions: seq<Action>) {
    forall i :: 0 <= i < |actions| && actions[i].Begin? ==> FromManifest(expected, actions[i].item)
  }

  ghost predicate HoldsManifest(expected: map<Key, Input>, s: System) {
    && (forall t :: t in s.sessions ==> FromManifest(expected, s.sessions[t].item))
    && (forall i :: 0 <= i < |s.log| ==> FromManifest(expected, s.log[i]))
  }

  lemma {:induction false} ManifestStep(expected: map<Key, Input>, s: System, a: Action)
    requires HoldsManifest(expected, s) && (a.Begin? ==> FromManifest(expected, a.item))
    ensures HoldsManifest(expected, Next(s, a))
  {
  }

  lemma {:induction false} ManifestRun(expected: map<Key, Input>, actions: seq<Action>)
    requires OnlyManifest(expected, actions)
    ensures HoldsManifest(expected, Run(actions))
  {
    if actions != [] {
      ManifestRun(expected, actions[..|actions| - 1]);
      ManifestStep(expected, Run(actions[..|actions| - 1]), actions[|actions| - 1]);
    }
  }

  /** A full read of the results table, in any order. */
  ghost predicate ListsRows(tables: Tables, rows: seq<Row>) {
    && (forall i :: 0 <= i < |rows| ==> rows[i].key in tables.rows && tables.rows[rows[i].key] == rows[i])
    && KeysDistinct(rows, |rows|)
    && (forall k :: k in tables.rows ==> HasRow(rows, k))
  }

  function SlotOf(a: Attempt): Slot {
    Slot(a.key, a.ordinal)
  }

  ghost predicate HasAttempt(attempts: seq<Attempt>, n: nat, slot: Slot)
    requires n <= |attempts|
  {
    exists i :: 0 <= i < n && SlotOf(attempts[i]) == slot
  }

  ghost predicate SlotsDistinct(attempts: seq<Attempt>, n: nat)
    requires n <= |attempts|
  {
    forall i, j :: 0 <= i < j < n ==> SlotOf(attempts[i]) != SlotOf(attempts[j])
  }

  /** A full read of the attempts table, in any order. */
  ghost predicate ListsAttempts(tables: Tables, attempts: seq<Attempt>) {
    && (forall i :: 0 <= i < |attempts| ==>
          SlotOf(attempts[i]) in tables.attempts && tables.attempts[SlotOf(attempts[i])] == attempts[i])
    && SlotsDistinct(attempts, |attempts|)
    && (forall slot :: slot in tables.attempts ==> HasAttempt(attempts, |attempts|, slot))
  }

  lemma {:induction false} OrdinalCount(attempts: seq<Attempt>, n: nat, k: Key, o: int)
    requires n <= |attempts| && SlotsDistinct(attempts, n)
    ensures OrdinalsOf(attempts, n, k)[o] == if HasAttempt(attempts, n, Slot(k, o)) then 1 else 0
  {
    if n > 0 {
      OrdinalCount(attempts, n - 1, k, o);
      assert SlotOf(attempts[n - 1]) == Slot(k, o) <==> attempts[n - 1].key == k && attempts[n - 1].ordinal == o;
      assert HasAttempt(attempts, n, Slot(k, o)) <==>
             HasAttempt(attempts, n - 1, Slot(k, o)) || SlotOf(attempts[n - 1]) == Slot(k, o);
      assert HasAttempt(attempts, n - 1, Slot(k, o)) ==> SlotOf(attempts[n - 1]) != Slot(k, o);
    }
  }

  lemma {:induction false} ListingNumbered(tables: Tables, attempts: seq<Attempt>, k: Key)
    requires TablesOk(tables) && ListsAttempts(tables, attempts) && k in tables.rows
    ensures Numbering(OrdinalsOf(attempts, |attempts|, k), tables.rows[k].attempts)
  {
    var ordinals := OrdinalsOf(attempts, |attempts|, k);
    forall o: int ensures ordinals[o] == if 1 <= o <= tables.rows[k].attempts then 1 else 0 {
      OrdinalCount(attempts, |attempts|, k, o);
      assert SlotOk(tables, Slot(k, o));
    }
  }

  ghost predicate RowsMatch(expected: map<Key, Input>, tables: Tables) {
    forall k :: k in tables.rows ==> k in expected && RowMatches(tables.rows[k], expected[k])
  }

  lemma {:induction false} ListingFits(expected: map<Key, Input>, tables: Tables, rows: seq<Row>,
                                       attempts: seq<Attempt>)
    requires TablesOk(tables) && RowsMatch(expected, tables)
    requires ListsRows(tables, rows) && ListsAttempts(tables, attempts)
    ensures forall i :: 0 <= i < |rows| ==> RowFits(expected, rows[i])
    ensures AttemptsFit(expected, attempts, |attempts|)
    ensures forall i :: 0 <= i < |rows| ==> RowNumbered(rows[i], attempts)
  {
    forall i | 0 <= i < |rows| ensures RowFits(expected, rows[i]) && RowNumbered(rows[i], attempts) {
      assert RowOk(tables, rows[i].key);
      ListingNumbered(tables, attempts, rows[i].key);
    }
    forall i | 0 <= i < |attempts| ensures AttemptFits(expected, attempts[i]) {
      assert SlotOk(tables, SlotOf(attempts[i]));
    }
  }

  lemma {:induction false} CommitsMatch(expected: map<Key, Input>, s: System)
    requires SystemOk(s) && HoldsManifest(expected, s)
    ensures RowsMatch(expected, s.tables)
  {
    forall k | k in s.tables.rows ensures k in expected && RowMatches(s.tables.rows[k], expected[k]) {
      ReplayAccounts(s.log, k);
      var i := CommitIndex(s.log, k);
      ContentNeverChanges(s.log, i);
      assert FromManifest(expected, s.log[i]);
    }
  }

  lemma {:induction false} CommitIndex(log: seq<Input>, k: Key) returns (i: nat)
    requires Commits(log, k) > 0
    ensures i < |log| && log[i].key == k
  {
    if log[|log| - 1].key == k {
      i := |log| - 1;
    } else {
      i := CommitIndex(log[..|log| - 1], k);
    }
  }

  /**
   For every interleaving of adapter transactions on manifest inputs, however many commits took
   effect unseen and were repeated, the oracle passes exactly when each input has committed.
   */
  lemma {:induction false} OracleAcceptsAdapter(inputs: seq<Input>, actions: seq<Action>, rows: seq<Row>,
                                                attempts: seq<Attempt>)
    requires OnlyManifest(Expected(inputs, |inputs|), actions)
    requires ListsRows(Run(actions).tables, rows) && ListsAttempts(Run(actions).tables, attempts)
    ensures Report(inputs, rows, attempts) == [] <==>
            forall i :: 0 <= i < |inputs| ==> Commits(Run(actions).log, inputs[i].key) > 0
  {
    var expected, s := Expected(inputs, |inputs|), Run(actions);
    Serialisable(actions);
    ManifestRun(expected, actions);
    CommitsMatch(expected, s);
    ListingFits(expected, s.tables, rows, attempts);
    PassMeans(inputs, rows, attempts);
    EveryInputCommitted(inputs, s);
    forall k ensures HasRow(rows, k) <==> k in s.tables.rows {
    }
  }

  lemma {:induction false} EveryInputCommitted(inputs: seq<Input>, s: System)
    requires SystemOk(s)
    ensures (forall i :: 0 <= i < |inputs| ==> Commits(s.log, inputs[i].key) > 0) <==>
            forall k :: k in Expected(inputs, |inputs|) ==> k in s.tables.rows
  {
    forall i | 0 <= i < |inputs|
      ensures inputs[i].key in Expected(inputs, |inputs|)
      ensures Commits(s.log, inputs[i].key) > 0 <==> inputs[i].key in s.tables.rows
    {
      ExpectedKeys(inputs, |inputs|, inputs[i].key);
      ReplayAccounts(s.log, inputs[i].key);
    }
    forall k | k in Expected(inputs, |inputs|) ensures exists i :: 0 <= i < |inputs| && inputs[i].key == k {
      ExpectedKeys(inputs, |inputs|, k);
    }
  }
}
