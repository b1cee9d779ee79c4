/**
 A batch invocation of the reference adapter (tools/ingress/reference_adapter.py, _run_batch):
 one transaction per member, shared retries, one deadline, and a result per member that must be
 honest about commits whose outcome the adapter did not learn.
 */
module AdapterBatch {
  import opened Wrappers
  import opened TargetOracle
  import opened AdapterTarget

  const MAX_RETRIES := 19

  datatype Phase = Connecting | Querying | Committing

  /** What the adapter looks at in an exception. `timedOut` is the phase an attempt timed out in. */
  datatype Error = Error(timedOut: Option<Phase>, state: string, operational: bool, badData: bool, reason: string)

  predicate StartsWith(s: string, prefix: string) {
    prefix <= s
  }

  /** SQLSTATE 40001 and 40P01: the server rejected the transaction as a whole. */
  predicate Rejected(error: Error) {
    error.state == "40001" || error.state == "40P01"
  }

  predicate Retryable(error: Error) {
    if error.timedOut.Some? then error.timedOut.value.Connecting? || error.timedOut.value.Committing?
    else if error.state != "" then StartsWith(error.state, "08") || Rejected(error)
    else error.operational
  }

  datatype Status = Succeeded | Failed | Unknown | NotRun

  datatype Code =
    | NoCode | CommitUnknown | PermissionDenied | InvalidData | IdentityConflict | Unavailable
    | RetryExhausted | ExecutionTimeout | PredecessorFailed

  function BatchFailure(error: Error, uncertain: bool): (Status, Code) {
    if uncertain then (Unknown, CommitUnknown)
    else if error.state == "42501" || error.state == "28000" || error.state == "28P01" then (Failed, PermissionDenied)
    else if error.badData then (Failed, InvalidData)
    else if error.reason == "target_identity_content_conflict" then (Failed, IdentityConflict)
    else if StartsWith(error.reason, "invalid_fixture_") || error.reason == "unsupported_fixture_source"
              || StartsWith(error.state, "22") || StartsWith(error.state, "23") then (Failed, InvalidData)
    else (Failed, Unavailable)
  }

  // ---- the environment of one invocation -----------------------------------------------------

  /**
   How one write attempt goes. `applied` says whether its transaction took effect at the target,
   which the adapter does not see. CutOff is the invocation deadline passing during the attempt.
   */
  datatype Outcome =
    | Wrote
    | Raised(error: Error, phase: Phase, applied: bool)
    | CutOff(phase: Phase, applied: bool)

  /** `late`: the deadline has passed before the attempt; `cut`: it passes while the connection
      is closed after an error; `spent`: it passes before the back-off ends. */
  datatype Event = Event(late: bool, outcome: Outcome, cut: bool, spent: bool)

  predicate Applied(e: Event) {
    e.outcome.Wrote? || e.outcome.applied
  }

  /** An error that leaves the commit in doubt. */
  predicate LeavesDoubt(error: Error, phase: Phase) {
    phase.Committing? && Retryable(error) && !Rejected(error)
  }

  /**
   What is assumed of the target: nothing takes effect before COMMIT is sent, and a COMMIT refused
   with a non-retryable error, or with 40001 or 40P01, did not take effect.
   */
  ghost predicate Trusted(e: Event) {
    match e.outcome
    case Wrote => true
    case Raised(error, phase, applied) => applied ==> LeavesDoubt(error, phase)
    case CutOff(phase, applied) => applied ==> phase.Committing?
  }

  /** A member whose input or options cannot be read fails before any attempt. */
  datatype Member = Member(receiptId: int, deliveryId: int, deliveryOrdinal: int, unreadable: Option<Error>,
                           item: Input)

  datatype MemberResult = MemberResult(receiptId: int, deliveryId: int, deliveryOrdinal: int, memberIndex: nat,
                                       status: Status, code: Code)

  // ---- specification -------------------------------------------------------------------------

  /** How a member ended: its status, and the attempts [first, next) made for it. */
  datatype End = End(status: Status, code: Code, first: nat, next: nat, retries: nat)

  function TimedOut(first: nat, next: nat, retries: nat, doubt: bool): End {
    End(Unknown, if doubt then CommitUnknown else ExecutionTimeout, first, next, retries)
  }

  /** The attempts for one member from attempt n on, `first` being its first. */
  function MemberRun(env: nat -> Event, first: nat, n: nat, retries: nat, doubt: bool): End
    decreases MAX_RETRIES - retries
  {
    if env(n).late then TimedOut(first, n, retries, doubt)
    else match env(n).outcome
      case Wrote => End(Succeeded, NoCode, first, n + 1, retries)
      case CutOff(phase, _) => TimedOut(first, n + 1, retries, doubt || phase.Committing?)
      case Raised(error, phase, _) => AfterError(env, first, n, retries, doubt || LeavesDoubt(error, phase), error)
  }

  function AfterError(env: nat -> Event, first: nat, n: nat, retries: nat, doubt: bool, error: Error): End
    decreases MAX_RETRIES - retries, 0
  {
    if env(n).cut then TimedOut(first, n + 1, retries, doubt)
    else if !Retryable(error) then
      End(BatchFailure(error, doubt).0, BatchFailure(error, doubt).1, first, n + 1, retries)
    else if retries >= MAX_RETRIES then
      End(if doubt then Unknown else Failed, if doubt then CommitUnknown else RetryExhausted, first, n + 1, retries)
    else if env(n).spent then TimedOut(first, n + 1, retries, doubt)
    else MemberRun(env, first, n + 1, retries + 1, doubt)
  }

  function MemberEnd(member: Member, env: nat -> Event, n: nat, retries: nat): End {
    match member.unreadable
    case Some(error) => End(BatchFailure(error, false).0, BatchFailure(error, false).1, n, n, retries)
    case None => MemberRun(env, n, n, retries, false)
  }

  /** The members from index i on. After a member that did not succeed, none is run. */
  function BatchRun(members: seq<Member>, i: nat, env: nat -> Event, n: nat, retries: nat): seq<End>
    requires i <= |members|
    decreases |members| - i
  {
    if i == |members| then []
    else
      var end := MemberEnd(members[i], env, n, retries);
      [end] + if end.status.Succeeded? then BatchRun(members, i + 1, env, end.next, end.retries)
              else Skipped(|members| - i - 1, end)
  }

  function Skipped(count: nat, last: End): seq<End> {
    seq(count, _ => End(NotRun, PredecessorFailed, last.next, last.next, last.retries))
  }

  /** The whole invocation; it may find its deadline passed before the first member. */
  function Invocation(members: seq<Member>, late: bool, env: nat -> Event): seq<End>
    requires members != []
  {
    if late then [TimedOut(0, 0, 0, false)] + Skipped(|members| - 1, TimedOut(0, 0, 0, false))
    else BatchRun(members, 0, env, 0, 0)
  }

  function Reported(member: Member, index: nat, end: End): MemberResult {
    MemberResult(member.receiptId, member.deliveryId, member.deliveryOrdinal, index, end.status, end.code)
  }

  // ---- the program ---------------------------------------------------------------------------

  method WriteMember(env: nat -> Event, first: nat, retries0: nat) returns (end: End)
    ensures end == MemberRun(env, first, first, retries0, false)
  {
    var n, retries, doubt := first, retries0, false;
    while true
      invariant MemberRun(env, first, n, retries, doubt) == MemberRun(env, first, first, retries0, false)
      decreases MAX_RETRIES - retries
    {
      var e := env(n);
      if e.late {
        return TimedOut(first, n, retries, doubt);
      }
      match e.outcome
      case Wrote =>
        return End(Succeeded, NoCode, first, n + 1, retries);
      case CutOff(phase, _) =>
        return TimedOut(first, n + 1, retries, doubt || phase.Committing?);
      case Raised(error, phase, _) =>
        doubt := doubt || LeavesDoubt(error, phase);
        if e.cut {
          return TimedOut(first, n + 1, retries, doubt);
        }
        if !Retryable(error) {
          var (status, code) := BatchFailure(error, doubt);
          return End(status, code, first, n + 1, retries);
        }
        if retries >= MAX_RETRIES {
          return End(if doubt then Unknown else Failed, if doubt then CommitUnknown else RetryExhausted,
                     first, n + 1, retries);
        }
        if e.spent {
          return TimedOut(first, n + 1, retries, doubt);
        }
        n, retries := n + 1, retries + 1;
    }
  }

  /** What remains to be run, or only to be reported as not run. */
  function Remaining(members: seq<Member>, i: nat, env: nat -> Event, stopped: bool, last: End): seq<End>
    requires i <= |members|
  {
    if stopped then Skipped(|members| - i, last) else BatchRun(members, i, env, last.next, last.retries)
  }

  lemma {:induction false} OneMemberOn(members: seq<Member>, ends: seq<End>, env: nat -> Event, last: End)
    requires |ends| < |members|
    ensures var end := MemberEnd(members[|ends|], env, last.next, last.retries);
            ends + Remaining(members, |ends|, env, false, last) ==
            (ends + [end]) + Remaining(members, |ends| + 1, env, !end.status.Succeeded?, end)
  {
  }

  ghost predicate ReportedAll(members: seq<Member>, results: seq<MemberResult>, ends: seq<End>) {
    |results| == |ends| <= |members|
    && forall i :: 0 <= i < |results| ==> results[i] == Reported(members[i], i, ends[i])
  }

  method PadNotRun(members: seq<Member>, run: seq<MemberResult>, ghost ends: seq<End>, ghost last: End)
    returns (results: seq<MemberResult>)
    requires ReportedAll(members, run, ends)
    ensures ReportedAll(members, results, ends + Skipped(|members| - |ends|, last))
  {
    results := run;
    ghost var all := ends + Skipped(|members| - |ends|, last);
    while |results| < |members|
      invariant |run| <= |results| <= |members|
      invariant forall i :: 0 <= i < |results| ==> results[i] == Reported(members[i], i, all[i])
    {
      var m := members[|results|];
      results := results + [MemberResult(m.receiptId, m.deliveryId, m.deliveryOrdinal, |results|,
                                         NotRun, PredecessorFailed)];
    }
  }

  method RunMember(member: Member, env: nat -> Event, last: End) returns (end: End)
    ensures end == MemberEnd(member, env, last.next, last.retries)
  {
    match member.unreadable
    case Some(error) =>
      var (status, code) := BatchFailure(error, false);
      end := End(status, code, last.next, last.next, last.retries);
    case None =>
      end := WriteMember(env, last.next, last.retries);
  }

  lemma {:induction false} ReportOneMore(members: seq<Member>, results: seq<MemberResult>, ends: seq<End>, end: End)
    requires ReportedAll(members, results, ends) && |ends| < |members|
    ensures ReportedAll(members, results + [Reported(members[|ends|], |ends|, end)], ends + [end])
  {
  }

  /** The loop over the members, from where `last` left off. */
  method RunMembers(members: seq<Member>, env: nat -> Event, stopped0: bool, last0: End,
                    results0: seq<MemberResult>, ghost ends0: seq<End>)
    returns (results: seq<MemberResult>, ghost ends: seq<End>, last: End)
    requires ReportedAll(members, results0, ends0)
    ensures ReportedAll(members, results, ends)
    ensures ends0 + Remaining(members, |ends0|, env, stopped0, last0) == ends + Skipped(|members| - |ends|, last)
  {
    results, ends, last := results0, ends0, last0;
    ghost var whole := ends0 + Remaining(members, |ends0|, env, stopped0, last0);
    var stopped := stopped0;
    while |results| < |members| && !stopped
      invariant ReportedAll(members, results, ends)
      invariant whole == ends + Remaining(members, |ends|, env, stopped, last)
      decreases |members| - |results|
    {
      OneMemberOn(members, ends, env, last);
      last := RunMember(members[|results|], env, last);
      ReportOneMore(members, results, ends, last);
      results := results + [Reported(members[|results|], |results|, last)];
      stopped, ends := !last.status.Succeeded?, ends + [last];
    }
  }

  /** _run_batch: one result per member, in order. */
  method RunBatch(members: seq<Member>, late: bool, env: nat -> Event) returns (results: seq<MemberResult>)
    requires members != []
    ensures ReportedAll(members, results, Invocation(members, late, env)) && |results| == |members|
  {
    results := [];
    ghost var ends: seq<End> := [];
    var last := End(Succeeded, NoCode, 0, 0, 0);
    if late {
      last := TimedOut(0, 0, 0, false);
      results, ends := [Reported(members[0], 0, last)], [last];
    }
    assert Invocation(members, late, env) == ends + Remaining(members, |ends|, env, late, last);
    results, ends, last := RunMembers(members, env, late, last, results, ends);
    results := PadNotRun(members, results, ends, last);
  }

  // ---- shape and bounds ----------------------------------------------------------------------

  /** Succeeded members, then at most one that failed or is unknown, then members not run. */
  ghost predicate Shaped(ends: seq<End>, cut: nat) {
    && cut <= |ends|
    && (forall i :: 0 <= i < cut ==> ends[i].status.Succeeded?)
    && (cut < |ends| ==> ends[cut].status.Failed? || ends[cut].status.Unknown?)
    && (forall i :: cut < i < |ends| ==> ends[i].status.NotRun?)
  }

  /** Each member's attempts follow those of the one before. */
  ghost predicate Consecutive(ends: seq<End>, n: nat) {
    && (forall i :: 0 <= i < |ends| ==> ends[i].first <= ends[i].next)
    && (|ends| > 0 ==> ends[0].first == n)
    && (forall i :: 0 < i < |ends| ==> ends[i].first == ends[i - 1].next)
  }

  lemma {:induction false} MemberBounds(env: nat -> Event, first: nat, n: nat, retries: nat, doubt: bool)
    requires first <= n && retries <= MAX_RETRIES
    ensures var end := MemberRun(env, first, n, retries, doubt);
            && end.first == first && n <= end.next <= n + 1 + end.retries - retries
            && retries <= end.retries <= MAX_RETRIES && !end.status.NotRun?
    decreases MAX_RETRIES - retries
  {
    var e := env(n);
    if !e.late && e.outcome.Raised? && retries < MAX_RETRIES {
      MemberBounds(env, first, n + 1, retries + 1, doubt || LeavesDoubt(e.outcome.error, e.outcome.phase));
    }
  }

  /** One more member that succeeded goes in front. */
  lemma {:induction false} ShapeGrows(end: End, rest: seq<End>, cut: nat, n: nat)
    requires end.status.Succeeded? && end.first == n <= end.next
    requires Shaped(rest, cut) && Consecutive(rest, end.next)
    ensures Shaped([end] + rest, cut + 1) && Consecutive([end] + rest, n)
  {
    var ends := [end] + rest;
    assert forall i :: 0 < i < |ends| ==> ends[i] == rest[i - 1];
  }

  /** The attempts up to and including member j, the budget at the front being what is left of it. */
  ghost predicate Within(ends: seq<End>, n: nat, retries: nat) {
    forall j :: 0 <= j < |ends| ==> ends[j].next + retries <= n + 1 + j + MAX_RETRIES
  }

  lemma {:induction false} WithinGrows(end: End, rest: seq<End>, n: nat, retries: nat)
    requires end.next <= n + 1 + end.retries - retries && retries <= end.retries <= MAX_RETRIES
    requires Within(rest, end.next, end.retries)
    ensures Within([end] + rest, n, retries)
  {
    var ends := [end] + rest;
    forall j | 0 <= j < |ends| ensures ends[j].next + retries <= n + 1 + j + MAX_RETRIES {
      if j > 0 { assert ends[j] == rest[j - 1]; }
    }
  }

  /** A member that did not succeed is the last one that ran. */
  lemma {:induction false} ShapeStops(end: End, count: nat, n: nat)
    requires (end.status.Failed? || end.status.Unknown?) && end.first == n <= end.next
    ensures Shaped([end] + Skipped(count, end), 0) && Consecutive([end] + Skipped(count, end), n)
    ensures forall j :: 0 <= j <= count ==> ([end] + Skipped(count, end))[j].next == end.next
  {
  }

  /** The results have the promised shape, and there are at most 19 attempts beyond one a member. */
  lemma {:induction false} BatchBounds(members: seq<Member>, i: nat, env: nat -> Event, n: nat, retries: nat)
    returns (cut: nat)
    requires i <= |members| && retries <= MAX_RETRIES
    ensures var ends := BatchRun(members, i, env, n, retries);
            |ends| == |members| - i && Shaped(ends, cut) && Consecutive(ends, n) && Within(ends, n, retries)
    decreases |members| - i
  {
    cut := 0;
    if i < |members| {
      var end := MemberEnd(members[i], env, n, retries);
      MemberBounds(env, n, n, retries, false);
      if end.status.Succeeded? {
        var rest := BatchBounds(members, i + 1, env, end.next, end.retries);
        ShapeGrows(end, BatchRun(members, i + 1, env, end.next, end.retries), rest, n);
        WithinGrows(end, BatchRun(members, i + 1, env, end.next, end.retries), n, retries);
        cut := rest + 1;
      } else {
        ShapeStops(end, |members| - i - 1, n);
      }
    }
  }

  lemma {:induction false} InvocationShape(members: seq<Member>, late: bool, env: nat -> Event) returns (cut: nat)
    requires members != []
    ensures var ends := Invocation(members, late, env);
            && |ends| == |members| && Shaped(ends, cut) && Consecutive(ends, 0)
            && (forall i :: 0 <= i < |ends| ==> ends[i].next <= |members| + MAX_RETRIES)
  {
    cut := 0;
    if !late {
      cut := BatchBounds(members, 0, env, 0, 0);
    }
  }

  // ---- honesty -------------------------------------------------------------------------------

  /** Some attempt of this invocation for the member took effect at the target. */
  ghost predicate Committed(env: nat -> Event, end: End) {
    exists j :: end.first <= j < end.next && Applied(env(j))
  }

  ghost predicate Honest(env: nat -> Event, end: End) {
    && (end.status.Succeeded? ==> Committed(env, end))
    && (end.status.Failed? || end.status.NotRun? || end.code.ExecutionTimeout? ==> !Committed(env, end))
    && (Committed(env, end) && !end.status.Succeeded? ==> end.status.Unknown? && end.code.CommitUnknown?)
  }

  lemma {:induction false} MemberHonest(env: nat -> Event, first: nat, n: nat, retries: nat, doubt: bool)
    requires first <= n && forall j :: Trusted(env(j))
    requires forall j :: first <= j < n && Applied(env(j)) ==> doubt
    ensures Honest(env, MemberRun(env, first, n, retries, doubt))
    decreases MAX_RETRIES - retries
  {
    var e, end := env(n), MemberRun(env, first, n, retries, doubt);
    assert Trusted(e);
    if !e.late && e.outcome.Wrote? {
      assert end.first <= n < end.next && Applied(env(n));
    } else if !e.late && e.outcome.Raised? {
      var error := e.outcome.error;
      var doubted := doubt || LeavesDoubt(error, e.outcome.phase);
      if !e.cut && Retryable(error) && retries < MAX_RETRIES && !e.spent {
        MemberHonest(env, first, n + 1, retries + 1, doubted);
        assert end == AfterError(env, first, n, retries, doubted, error);
      } else {
        assert end == AfterError(env, first, n, retries, doubted, error);
        assert end.first == first && end.next == n + 1;
        OneAttemptMore(env, end, n, doubted);
      }
    } else {
      OneAttemptMore(env, end, n, doubt || (!e.late && e.outcome.phase.Committing?));
    }
  }

  /** Nothing was committed but where a doubt was left. */
  lemma {:induction false} OneAttemptMore(env: nat -> Event, end: End, n: nat, doubt: bool)
    requires end.first <= n && end.next <= n + 1
    requires forall j :: end.first <= j < end.next && Applied(env(j)) ==> doubt
    requires !end.status.Succeeded? && !end.status.NotRun?
    requires doubt ==> end.status.Unknown? && end.code.CommitUnknown?
    ensures Honest(env, end)
  {
  }

  /**
   Honesty: a member reported succeeded has committed; one reported failed, not run or timed out
   without doubt has committed nothing; one that committed unnoticed is reported unknown.
   */
  lemma {:induction false} BatchHonest(members: seq<Member>, i: nat, env: nat -> Event, n: nat, retries: nat)
    requires i <= |members| && forall j :: Trusted(env(j))
    ensures forall j :: 0 <= j < |BatchRun(members, i, env, n, retries)| ==>
              Honest(env, BatchRun(members, i, env, n, retries)[j])
    decreases |members| - i
  {
    if i < |members| {
      var end := MemberEnd(members[i], env, n, retries);
      MemberHonest(env, n, n, retries, false);
      if end.status.Succeeded? {
        BatchHonest(members, i + 1, env, end.next, end.retries);
      }
    }
  }

  lemma {:induction false} InvocationHonest(members: seq<Member>, late: bool, env: nat -> Event)
    requires members != [] && forall j :: Trusted(env(j))
    ensures forall i :: 0 <= i < |Invocation(members, late, env)| ==> Honest(env, Invocation(members, late, env)[i])
  {
    if !late {
      BatchHonest(members, 0, env, 0, 0);
    }
  }

  /** Without the assumption on COMMIT errors the report can be wrong: a refused COMMIT that did
      take effect is reported as a failure. */
  lemma {:induction false} UntrustedTargetMisleads() returns (members: seq<Member>, env: nat -> Event)
    ensures |members| == 1 && Invocation(members, false, env) == [End(Failed, Unavailable, 0, 1, 0)]
    ensures Committed(env, Invocation(members, false, env)[0])
  {
    var error := Error(None, "XX000", true, false, "");
    members := [Member(1, 1, 1, None, Input(Key("", ""), 1, "", 3))];
    env := n => Event(false, Outcome.Raised(error, Committing, true), false, false);
    var end := End(Failed, Unavailable, 0, 1, 0);
    assert !Retryable(error) && BatchFailure(error, false) == (Failed, Unavailable);
    assert MemberEnd(members[0], env, 0, 0) == end;
    assert Applied(env(0));
  }

  // ---- up to the oracle ----------------------------------------------------------------------

  /** One invocation, with what it met and the action that opened each attempt's transaction. */
  datatype Batch = Batch(members: seq<Member>, late: bool, env: nat -> Event, begun: nat -> Option<nat>) {
    function Ends(): seq<End> {
      if members == [] then [] else Invocation(members, late, env)
    }
  }

  /** Attempt `j` is a transaction on this item among the actions at the target, or never got that far. */
  ghost predicate Attempted(batch: Batch, actions: seq<Action>, item: Input, j: nat) {
    && (Applied(batch.env(j)) <==> batch.begun(j).Some? && TakesEffect(actions, batch.begun(j).value, item))
    && (batch.begun(j).Some? ==> OpensAt(actions, batch.begun(j).value, item))
  }

  /** The invocation ran against the target of these actions, which keeps to what is assumed of it. */
  ghost predicate RanOn(batch: Batch, actions: seq<Action>) {
    && (forall j :: Trusted(batch.env(j)))
    && |batch.Ends()| == |batch.members|
    && (forall i, j: nat :: 0 <= i < |batch.members| && batch.Ends()[i].first <= j < batch.Ends()[i].next ==>
          Attempted(batch, actions, batch.members[i].item, j))
  }

  ghost predicate ReportedSucceeded(batch: Batch, k: Key) {
    exists i :: 0 <= i < |batch.members| && i < |batch.Ends()| && batch.members[i].item.key == k
                && batch.Ends()[i].status.Succeeded?
  }

  /** A member reported succeeded is a commit at the target; one reported failed has left none of its own. */
  lemma {:induction false} ReportsMatchTarget(batch: Batch, actions: seq<Action>, i: nat)
    requires RanOn(batch, actions) && i < |batch.members|
    ensures batch.Ends()[i].status.Succeeded? ==> Commits(Run(actions).log, batch.members[i].item.key) > 0
    ensures batch.Ends()[i].status.Failed? ==>
              forall j: nat :: batch.Ends()[i].first <= j < batch.Ends()[i].next && batch.begun(j).Some? ==>
                !TakesEffect(actions, batch.begun(j).value, batch.members[i].item)
  {
    InvocationHonest(batch.members, batch.late, batch.env);
    var end, item := batch.Ends()[i], batch.members[i].item;
    assert Honest(batch.env, end);
    if end.status.Succeeded? {
      var j: nat :| end.first <= j < end.next && Applied(batch.env(j));
      assert Attempted(batch, actions, item, j);
      var n := EffectIsCommit(actions, batch.begun(j).value, item);
    }
    forall j: nat | end.status.Failed? && end.first <= j < end.next && batch.begun(j).Some?
      ensures !TakesEffect(actions, batch.begun(j).value, item)
    {
      assert Attempted(batch, actions, item, j);
    }
  }

  /**
   End to end: when every input has been reported succeeded by some invocation on the target, the
   oracle passes on whatever tables the interleaved transactions have left.
   */
  lemma {:induction false} ReportedSuccessesPass(inputs: seq<Input>, actions: seq<Action>, batches: seq<Batch>,
                                                 rows: seq<Row>, attempts: seq<Attempt>)
    requires OnlyManifest(Expected(inputs, |inputs|), actions)
    requires ListsRows(Run(actions).tables, rows) && ListsAttempts(Run(actions).tables, attempts)
    requires forall b :: 0 <= b < |batches| ==> RanOn(batches[b], actions)
    requires forall i :: 0 <= i < |inputs| ==>
               exists b :: 0 <= b < |batches| && ReportedSucceeded(batches[b], inputs[i].key)
    ensures Report(inputs, rows, attempts) == []
  {
    forall i | 0 <= i < |inputs| ensures Commits(Run(actions).log, inputs[i].key) > 0 {
      var b :| 0 <= b < |batches| && ReportedSucceeded(batches[b], inputs[i].key);
      var m :| 0 <= m < |batches[b].members| && m < |batches[b].Ends()|
               && batches[b].members[m].item.key == inputs[i].key && batches[b].Ends()[m].status.Succeeded?;
      ReportsMatchTarget(batches[b], actions, m);
    }
    OracleAcceptsAdapter(inputs, actions, rows, attempts);
  }
}
