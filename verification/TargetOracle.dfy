/**
 The independent oracle over the ingress target: a streaming check of result and attempt rows
 (tools/ingress/workload.py, verify_rows).
 */
module TargetOracle {
  import opened Wrappers

  datatype Key = Key(runId: string, messageId: string)

  /** A manifest entry, as far as the target is concerned. */
  datatype Input = Input(key: Key, seqNo: int, payload: string, normalized: int)

  datatype Row = Row(key: Key, seqNo: int, payload: string, normalized: int, writes: int, attempts: int)

  datatype Effect = Inserted | Duplicate | OtherEffect(text: string)

  datatype Attempt = Attempt(key: Key, ordinal: int, effect: Effect, payload: string, normalized: int)

  datatype Code =
    | DuplicateResult | UnexpectedIdentity | TargetContentMismatch | DuplicateEffect
    | UnexpectedAttemptIdentity | AttemptOutcomeOrderMismatch | AttemptContentMismatch
    | MissingResult | AttemptAccountingMismatch | InsertEffectAccountingMismatch

  /** A reported failure; unexpected identities are reported without their message id. */
  datatype Failure = Failure(identity: Option<string>, code: Code)

  const MAX_ATTEMPTS := 64
  const MAX_EXAMPLES := 100

  /** What the second loop keeps per key. */
  datatype Group = Group(count: nat, ordinals: set<int>, inserted: nat)

  const NO_ATTEMPTS := Group(0, {}, 0)

  // ---- the expected inputs -------------------------------------------------------------------

  /** The dictionary of the first n inputs: a repeated key keeps the last entry. */
  function Expected(inputs: seq<Input>, n: nat): map<Key, Input>
    requires n <= |inputs|
  {
    if n == 0 then map[] else Expected(inputs, n - 1)[inputs[n - 1].key := inputs[n - 1]]
  }

  /** The keys of that dictionary in insertion order. */
  function KeyOrder(inputs: seq<Input>, n: nat): seq<Key>
    requires n <= |inputs|
  {
    if n == 0 then []
    else
      var front := KeyOrder(inputs, n - 1);
      if inputs[n - 1].key in front then front else front + [inputs[n - 1].key]
  }

  lemma {:induction false} KeyOrderIsDomain(inputs: seq<Input>, n: nat, k: Key)
    requires n <= |inputs|
    ensures k in KeyOrder(inputs, n) <==> k in Expected(inputs, n)
  {
    if n > 0 {
      KeyOrderIsDomain(inputs, n - 1, k);
    }
  }

  // ---- what each row is reported for ---------------------------------------------------------

  function Noted(fs: seq<Failure>, condition: bool, f: Failure): (r: seq<Failure>)
    ensures r == [] <==> fs == [] && !condition
  {
    if condition then fs + [f] else fs
  }

  predicate RowMatches(row: Row, wanted: Input) {
    row.seqNo == wanted.seqNo && row.payload == wanted.payload && row.normalized == wanted.normalized
  }

  function AfterRow(expected: map<Key, Input>, seen: bool, row: Row, fs: seq<Failure>): seq<Failure> {
    var id := Some(row.key.messageId);
    var fs1 := Noted(fs, seen, Failure(id, DuplicateResult));
    if row.key !in expected then Noted(fs1, true, Failure(None, UnexpectedIdentity))
    else
      var fs2 := Noted(fs1, !RowMatches(row, expected[row.key]), Failure(id, TargetContentMismatch));
      Noted(fs2, row.writes != 1, Failure(id, DuplicateEffect))
  }

  predicate AttemptMatches(a: Attempt, wanted: Input) {
    !a.effect.OtherEffect? && a.payload == wanted.payload && a.normalized == wanted.normalized
  }

  function AfterAttempt(expected: map<Key, Input>, a: Attempt, fs: seq<Failure>): seq<Failure> {
    var id := Some(a.key.messageId);
    if a.key !in expected then Noted(fs, true, Failure(None, UnexpectedAttemptIdentity))
    else
      var fs1 := Noted(fs, !a.effect.OtherEffect? && (a.ordinal == 1) != a.effect.Inserted?,
                       Failure(id, AttemptOutcomeOrderMismatch));
      Noted(fs1, !AttemptMatches(a, expected[a.key]), Failure(id, AttemptContentMismatch))
  }

  /** `set(range(1, total + 1))` */
  function OrdinalSet(total: int): (s: set<int>)
    ensures forall o :: o in s <==> 1 <= o <= total
    decreases if total <= 0 then 0 else total
  {
    if total <= 0 then {} else OrdinalSet(total - 1) + {total}
  }

  function GroupOf(groups: map<Key, Group>, k: Key): Group {
    if k in groups then groups[k] else NO_ATTEMPTS
  }

  predicate Accounted(total: int, group: Group) {
    1 <= total <= MAX_ATTEMPTS && group.count == total && group.ordinals == OrdinalSet(total)
  }

  function AfterKey(found: map<Key, Row>, groups: map<Key, Group>, k: Key, fs: seq<Failure>): seq<Failure> {
    var id := Some(k.messageId);
    if k !in found then Noted(fs, true, Failure(id, MissingResult))
    else
      var fs1 := Noted(fs, !Accounted(found[k].attempts, GroupOf(groups, k)), Failure(id, AttemptAccountingMismatch));
      Noted(fs1, GroupOf(groups, k).inserted != 1, Failure(id, InsertEffectAccountingMismatch))
  }

  // ---- the three passes, each over the first n elements --------------------------------------

  function Found(expected: map<Key, Input>, rows: seq<Row>, n: nat): map<Key, Row>
    requires n <= |rows|
  {
    if n == 0 then map[]
    else if rows[n - 1].key in expected then Found(expected, rows, n - 1)[rows[n - 1].key := rows[n - 1]]
    else Found(expected, rows, n - 1)
  }

  function WritesTotal(expected: map<Key, Input>, rows: seq<Row>, n: nat): int
    requires n <= |rows|
  {
    if n == 0 then 0
    else WritesTotal(expected, rows, n - 1) + if rows[n - 1].key in expected then rows[n - 1].writes else 0
  }

  function RowsReport(expected: map<Key, Input>, rows: seq<Row>, n: nat): seq<Failure>
    requires n <= |rows|
  {
    if n == 0 then []
    else AfterRow(expected, rows[n - 1].key in Found(expected, rows, n - 1), rows[n - 1],
                  RowsReport(expected, rows, n - 1))
  }

  function AddAttempt(group: Group, a: Attempt): Group {
    Group(group.count + 1, group.ordinals + {a.ordinal}, group.inserted + if a.effect.Inserted? then 1 else 0)
  }

  function Groups(expected: map<Key, Input>, attempts: seq<Attempt>, n: nat): map<Key, Group>
    requires n <= |attempts|
  {
    if n == 0 then map[]
    else
      var front, a := Groups(expected, attempts, n - 1), attempts[n - 1];
      if a.key in expected then front[a.key := AddAttempt(GroupOf(front, a.key), a)] else front
  }

  function AttemptsReport(expected: map<Key, Input>, attempts: seq<Attempt>, n: nat, fs: seq<Failure>): seq<Failure>
    requires n <= |attempts|
  {
    if n == 0 then fs
    else AfterAttempt(expected, attempts[n - 1], AttemptsReport(expected, attempts, n - 1, fs))
  }

  function KeysReport(found: map<Key, Row>, groups: map<Key, Group>, keys: seq<Key>, n: nat,
                      fs: seq<Failure>): seq<Failure>
    requires n <= |keys|
  {
    if n == 0 then fs else AfterKey(found, groups, keys[n - 1], KeysReport(found, groups, keys, n - 1, fs))
  }

  /** Every failure, in the order in which the oracle reports them. */
  function Report(inputs: seq<Input>, rows: seq<Row>, attempts: seq<Attempt>): seq<Failure> {
    var expected, keys := Expected(inputs, |inputs|), KeyOrder(inputs, |inputs|);
    var fs := RowsReport(expected, rows, |rows|);
    KeysReport(Found(expected, rows, |rows|), Groups(expected, attempts, |attempts|), keys, |keys|,
               AttemptsReport(expected, attempts, |attempts|, fs))
  }

  // ---- the oracle ----------------------------------------------------------------------------

  /** How often each code was reported, and the first hundred reports. */
  datatype Tally = Tally(counts: map<Code, nat>, examples: seq<Failure>)

  function CountOf(fs: seq<Failure>, code: Code): nat {
    if fs == [] then 0 else CountOf(fs[..|fs| - 1], code) + if fs[|fs| - 1].code == code then 1 else 0
  }

  ghost predicate Summarises(t: Tally, fs: seq<Failure>) {
    && (forall code :: (if code in t.counts then t.counts[code] else 0) == CountOf(fs, code))
    && (forall code :: code in t.counts ==> t.counts[code] > 0)
    && t.examples == if |fs| <= MAX_EXAMPLES then fs else fs[..MAX_EXAMPLES]
  }

  lemma {:induction false} CountsEmpty(t: Tally, fs: seq<Failure>)
    requires Summarises(t, fs)
    ensures t.counts == map[] <==> fs == []
  {
    if fs != [] {
      assert CountOf(fs, fs[|fs| - 1].code) > 0;
    } else {
      assert forall code :: CountOf(fs, code) == 0;
    }
  }

  /** The closure `fail`, called under a condition. */
  method NoteIf(t: Tally, condition: bool, f: Failure, ghost fs: seq<Failure>)
    returns (t': Tally, ghost fs': seq<Failure>)
    requires Summarises(t, fs)
    ensures fs' == Noted(fs, condition, f) && Summarises(t', fs')
  {
    t', fs' := t, fs;
    if condition {
      fs' := fs + [f];
      assert fs'[..|fs' | - 1] == fs;
      var before := if f.code in t.counts then t.counts[f.code] else 0;
      t' := Tally(t.counts[f.code := before + 1],
                  if |t.examples| < MAX_EXAMPLES then t.examples + [f] else t.examples);
      assert forall code :: CountOf(fs', code) == CountOf(fs, code) + if f.code == code then 1 else 0;
    }
  }

  /** What is reported of row `i`; `again` says whether its key was found before. */
  method JudgeRow(expected: map<Key, Input>, rows: seq<Row>, i: nat, again: bool, before: Tally, ghost fs: seq<Failure>)
    returns (t: Tally, ghost fs': seq<Failure>)
    requires i < |rows| && Summarises(before, fs)
    requires fs == RowsReport(expected, rows, i) && again == (rows[i].key in Found(expected, rows, i))
    ensures fs' == RowsReport(expected, rows, i + 1) && Summarises(t, fs')
  {
    var row := rows[i];
    var id := Some(row.key.messageId);
    t, fs' := NoteIf(before, again, Failure(id, DuplicateResult), fs);
    if row.key !in expected {
      t, fs' := NoteIf(t, true, Failure(None, UnexpectedIdentity), fs');
      return;
    }
    t, fs' := NoteIf(t, !RowMatches(row, expected[row.key]), Failure(id, TargetContentMismatch), fs');
    t, fs' := NoteIf(t, row.writes != 1, Failure(id, DuplicateEffect), fs');
  }

  method RowsPass(expected: map<Key, Input>, rows: seq<Row>)
    returns (found: map<Key, Row>, writes: int, t: Tally)
    ensures found == Found(expected, rows, |rows|) && writes == WritesTotal(expected, rows, |rows|)
    ensures Summarises(t, RowsReport(expected, rows, |rows|))
  {
    ghost var fs: seq<Failure> := [];
    found, writes, t := map[], 0, Tally(map[], []);
    for i := 0 to |rows|
      invariant found == Found(expected, rows, i) && writes == WritesTotal(expected, rows, i)
      invariant fs == RowsReport(expected, rows, i) && Summarises(t, fs)
    {
      t, fs := JudgeRow(expected, rows, i, rows[i].key in found, t, fs);
      if rows[i].key in expected {
        found, writes := found[rows[i].key := rows[i]], writes + rows[i].writes;
      }
    }
  }

  method AttemptsPass(expected: map<Key, Input>, attempts: seq<Attempt>, before: Tally, ghost fs0: seq<Failure>)
    returns (groups: map<Key, Group>, t: Tally)
    requires Summarises(before, fs0)
    ensures groups == Groups(expected, attempts, |attempts|)
    ensures Summarises(t, AttemptsReport(expected, attempts, |attempts|, fs0))
  {
    ghost var fs := fs0;
    groups, t := map[], before;
    for i := 0 to |attempts|
      invariant groups == Groups(expected, attempts, i)
      invariant fs == AttemptsReport(expected, attempts, i, fs0) && Summarises(t, fs)
    {
      var a := attempts[i];
      var id := Some(a.key.messageId);
      if a.key !in expected {
        t, fs := NoteIf(t, true, Failure(None, UnexpectedAttemptIdentity), fs);
        continue;
      }
      var group := GroupOf(groups, a.key);
      groups := groups[a.key := AddAttempt(group, a)];
      t, fs := NoteIf(t, !a.effect.OtherEffect? && (a.ordinal == 1) != a.effect.Inserted?,
                      Failure(id, AttemptOutcomeOrderMismatch), fs);
      t, fs := NoteIf(t, !AttemptMatches(a, expected[a.key]), Failure(id, AttemptContentMismatch), fs);
    }
  }

  method KeysPass(found: map<Key, Row>, groups: map<Key, Group>, keys: seq<Key>, before: Tally, ghost fs0: seq<Failure>)
    returns (t: Tally)
    requires Summarises(before, fs0)
    ensures Summarises(t, KeysReport(found, groups, keys, |keys|, fs0))
  {
    ghost var fs := fs0;
    t := before;
    for i := 0 to |keys|
      invariant fs == KeysReport(found, groups, keys, i, fs0) && Summarises(t, fs)
    {
      var k := keys[i];
      var id := Some(k.messageId);
      if k !in found {
        t, fs := NoteIf(t, true, Failure(id, MissingResult), fs);
        continue;
      }
      var total, group := found[k].attempts, GroupOf(groups, k);
      t, fs := NoteIf(t, !Accounted(total, group), Failure(id, AttemptAccountingMismatch), fs);
      t, fs := NoteIf(t, group.inserted != 1, Failure(id, InsertEffectAccountingMismatch), fs);
    }
  }

  datatype Verdict = Verdict(runId: string, expectedCount: nat, targetRows: nat, recordedAttempts: nat,
                             effectiveWrites: int, passed: bool, tally: Tally)

  /** verify_rows; without inputs there is no run id to report and the result is lost. */
  method VerifyRows(inputs: seq<Input>, rows: seq<Row>, attempts: seq<Attempt>) returns (v: Option<Verdict>)
    ensures v.None? <==> inputs == []
    ensures v.Some? ==>
      && v.value.expectedCount == |inputs| && v.value.targetRows == |rows| && v.value.recordedAttempts == |attempts|
      && v.value.runId == inputs[0].key.runId
      && v.value.effectiveWrites == WritesTotal(Expected(inputs, |inputs|), rows, |rows|)
      && Summarises(v.value.tally, Report(inputs, rows, attempts))
      && (v.value.passed <==> Report(inputs, rows, attempts) == [])
  {
    var expected := Expected(inputs, |inputs|);
    var found, writes, t := RowsPass(expected, rows);
    ghost var fs := RowsReport(expected, rows, |rows|);
    var groups;
    groups, t := AttemptsPass(expected, attempts, t, fs);
    fs := AttemptsReport(expected, attempts, |attempts|, fs);
    t := KeysPass(found, groups, KeyOrder(inputs, |inputs|), t, fs);
    CountsEmpty(t, Report(inputs, rows, attempts));
    v := if inputs == [] then None
         else Some(Verdict(inputs[0].key.runId, |inputs|, |rows|, |attempts|, writes, t.counts == map[], t));
  }

  // ---- what a pass means ---------------------------------------------------------------------

  /** The ordinals recorded for a key. */
  function OrdinalsOf(attempts: seq<Attempt>, n: nat, k: Key): multiset<int>
    requires n <= |attempts|
  {
    if n == 0 then multiset{}
    else if attempts[n - 1].key == k then OrdinalsOf(attempts, n - 1, k) + multiset{attempts[n - 1].ordinal}
    else OrdinalsOf(attempts, n - 1, k)
  }

  /** A permutation of 1 to total. */
  ghost predicate Numbering(ordinals: multiset<int>, total: int) {
    forall o: int :: ordinals[o] == if 1 <= o <= total then 1 else 0
  }

  ghost predicate RowFits(expected: map<Key, Input>, row: Row) {
    row.key in expected && RowMatches(row, expected[row.key]) && row.writes == 1
  }

  ghost predicate KeysDistinct(rows: seq<Row>, n: nat)
    requires n <= |rows|
  {
    forall i, j :: 0 <= i < j < n ==> rows[i].key != rows[j].key
  }

  ghost predicate HasRow(rows: seq<Row>, k: Key) {
    exists i :: 0 <= i < |rows| && rows[i].key == k
  }

  /** One row per expected input, with its content and a single write, and no other row. */
  ghost predicate RowsBiject(expected: map<Key, Input>, rows: seq<Row>) {
    && (forall i :: 0 <= i < |rows| ==> RowFits(expected, rows[i]))
    && KeysDistinct(rows, |rows|)
    && (forall k :: k in expected ==> HasRow(rows, k))
  }

  /** An attempt for a known input, with its content; ordinal 1, and only it, claims the insert. */
  ghost predicate AttemptFits(expected: map<Key, Input>, a: Attempt) {
    a.key in expected && AttemptMatches(a, expected[a.key]) && (a.ordinal == 1 <==> a.effect.Inserted?)
  }

  ghost predicate AttemptsFit(expected: map<Key, Input>, attempts: seq<Attempt>, n: nat)
    requires n <= |attempts|
  {
    forall i :: 0 <= i < n ==> AttemptFits(expected, attempts[i])
  }

  /** The attempts of the row's key are numbered 1 to the row's own count, each number once. */
  ghost predicate RowNumbered(row: Row, attempts: seq<Attempt>) {
    1 <= row.attempts <= MAX_ATTEMPTS && Numbering(OrdinalsOf(attempts, |attempts|, row.key), row.attempts)
  }

  lemma {:induction false} FoundIsRow(expected: map<Key, Input>, rows: seq<Row>, n: nat, k: Key)
    requires n <= |rows|
    ensures k in Found(expected, rows, n) <==> k in expected && exists i :: 0 <= i < n && rows[i].key == k
    ensures k in Found(expected, rows, n) ==>
              exists i :: 0 <= i < n && rows[i].key == k && Found(expected, rows, n)[k] == rows[i]
  {
    if n > 0 {
      FoundIsRow(expected, rows, n - 1, k);
    }
  }

  lemma {:induction false} RowsReportEmpty(expected: map<Key, Input>, rows: seq<Row>, n: nat)
    requires n <= |rows|
    ensures RowsReport(expected, rows, n) == [] <==>
            (forall i :: 0 <= i < n ==> RowFits(expected, rows[i])) && KeysDistinct(rows, n)
  {
    if n > 0 {
      RowsReportEmpty(expected, rows, n - 1);
      FoundIsRow(expected, rows, n - 1, rows[n - 1].key);
    }
  }

  lemma {:induction false} AttemptsReportEmpty(expected: map<Key, Input>, attempts: seq<Attempt>, n: nat,
                                               fs: seq<Failure>)
    requires n <= |attempts|
    ensures AttemptsReport(expected, attempts, n, fs) == [] <==> fs == [] && AttemptsFit(expected, attempts, n)
  {
    if n > 0 {
      AttemptsReportEmpty(expected, attempts, n - 1, fs);
    }
  }

  predicate KeyPasses(found: map<Key, Row>, groups: map<Key, Group>, k: Key) {
    k in found && Accounted(found[k].attempts, GroupOf(groups, k)) && GroupOf(groups, k).inserted == 1
  }

  lemma {:induction false} KeysReportEmpty(found: map<Key, Row>, groups: map<Key, Group>, keys: seq<Key>, n: nat,
                                           fs: seq<Failure>)
    requires n <= |keys|
    ensures KeysReport(found, groups, keys, n, fs) == [] <==>
            fs == [] && forall i :: 0 <= i < n ==> KeyPasses(found, groups, keys[i])
  {
    if n > 0 {
      KeysReportEmpty(found, groups, keys, n - 1, fs);
    }
  }

  function Summary(ordinals: multiset<int>): Group {
    Group(|ordinals|, Support(ordinals), ordinals[1])
  }

  /** What a group holds about its key, when every attempt fits. */
  lemma {:induction false} GroupSummarises(expected: map<Key, Input>, attempts: seq<Attempt>, n: nat, k: Key)
    requires n <= |attempts| && k in expected && AttemptsFit(expected, attempts, n)
    ensures var group, ordinals := GroupOf(Groups(expected, attempts, n), k), OrdinalsOf(attempts, n, k);
            group == Summary(ordinals)
  {
    if n > 0 {
      GroupSummarises(expected, attempts, n - 1, k);
      assert AttemptFits(expected, attempts[n - 1]);
    }
  }

  // ---- pigeonhole ----------------------------------------------------------------------------

  function Support(m: multiset<int>): set<int> {
    set o | o in m
  }

  lemma {:induction false} SupportSize(m: multiset<int>)
    ensures |Support(m)| <= |m|
    ensures |Support(m)| == |m| <==> forall o :: o in m ==> m[o] == 1
    decreases |m|
  {
    if forall o: int :: o !in m {
      assert m == multiset{};
    } else {
      var o :| o in m;
      var rest := m - multiset{o};
      SupportSize(rest);
      assert forall p :: p != o ==> rest[p] == m[p];
      if m[o] == 1 {
        assert Support(m) == Support(rest) + {o};
      } else {
        assert Support(m) == Support(rest);
      }
    }
  }

  lemma {:induction false} OrdinalSetSize(total: nat)
    ensures |OrdinalSet(total)| == total
  {
    if total > 0 {
      OrdinalSetSize(total - 1);
      assert OrdinalSet(total) == OrdinalSet(total - 1) + {total};
    } else {
      assert OrdinalSet(total) == {};
    }
  }

  /** As many ordinals as the total, drawn from exactly 1 to the total: each then occurs once. */
  lemma {:induction false} Pigeonhole(ordinals: multiset<int>, total: nat)
    ensures |ordinals| == total && Support(ordinals) == OrdinalSet(total) <==> Numbering(ordinals, total)
  {
    SupportSize(ordinals);
    OrdinalSetSize(total);
    assert forall o :: o in Support(ordinals) <==> o in ordinals;
    if Numbering(ordinals, total) {
      assert Support(ordinals) == OrdinalSet(total);
    }
  }

  lemma {:induction false} KeyAccounted(expected: map<Key, Input>, rows: seq<Row>, attempts: seq<Attempt>, i: nat)
    requires AttemptsFit(expected, attempts, |attempts|) && i < |rows| && rows[i].key in expected
    requires KeysDistinct(rows, |rows|)
    ensures KeyPasses(Found(expected, rows, |rows|), Groups(expected, attempts, |attempts|), rows[i].key) <==>
            RowNumbered(rows[i], attempts)
  {
    var k := rows[i].key;
    FoundIsRow(expected, rows, |rows|, k);
    assert Found(expected, rows, |rows|)[k] == rows[i];
    GroupSummarises(expected, attempts, |attempts|, k);
    if 1 <= rows[i].attempts {
      Pigeonhole(OrdinalsOf(attempts, |attempts|, k), rows[i].attempts);
    }
  }

  lemma {:induction false} KeysMean(expected: map<Key, Input>, rows: seq<Row>, attempts: seq<Attempt>)
    requires AttemptsFit(expected, attempts, |attempts|) && KeysDistinct(rows, |rows|)
    requires forall i :: 0 <= i < |rows| ==> RowFits(expected, rows[i])
    ensures (forall k :: k in expected ==>
               KeyPasses(Found(expected, rows, |rows|), Groups(expected, attempts, |attempts|), k)) <==>
            && (forall k :: k in expected ==> HasRow(rows, k))
            && (forall i :: 0 <= i < |rows| ==> RowNumbered(rows[i], attempts))
  {
    var found, groups := Found(expected, rows, |rows|), Groups(expected, attempts, |attempts|);
    forall i | 0 <= i < |rows|
      ensures KeyPasses(found, groups, rows[i].key) <==> RowNumbered(rows[i], attempts)
    {
      assert RowFits(expected, rows[i]);
      KeyAccounted(expected, rows, attempts, i);
    }
    forall k | k in expected && !HasRow(rows, k)
      ensures !KeyPasses(found, groups, k)
    {
      FoundIsRow(expected, rows, |rows|, k);
    }
    assert forall i :: 0 <= i < |rows| ==> RowFits(expected, rows[i]) && rows[i].key in expected;
  }

  /**
   The oracle passes exactly when the rows are in one-to-one correspondence with the inputs, with
   matching content and one write each, and the attempts of each are a permutation of 1 to its
   count, at most 64, of which ordinal 1 alone is an insert.
   */
  lemma {:induction false} PassMeans(inputs: seq<Input>, rows: seq<Row>, attempts: seq<Attempt>)
    ensures var expected := Expected(inputs, |inputs|);
            Report(inputs, rows, attempts) == [] <==>
            && RowsBiject(expected, rows)
            && AttemptsFit(expected, attempts, |attempts|)
            && (forall i :: 0 <= i < |rows| ==> RowNumbered(rows[i], attempts))
  {
    var expected, keys := Expected(inputs, |inputs|), KeyOrder(inputs, |inputs|);
    var found, groups := Found(expected, rows, |rows|), Groups(expected, attempts, |attempts|);
    var fs := RowsReport(expected, rows, |rows|);
    var gs := AttemptsReport(expected, attempts, |attempts|, fs);
    RowsReportEmpty(expected, rows, |rows|);
    AttemptsReportEmpty(expected, attempts, |attempts|, fs);
    KeysReportEmpty(found, groups, keys, |keys|, gs);
    EveryKey(inputs, found, groups);
    if fs == [] && gs == [] { KeysMean(expected, rows, attempts); }
  }

  lemma {:induction false} EveryKey(inputs: seq<Input>, found: map<Key, Row>, groups: map<Key, Group>)
    ensures var keys := KeyOrder(inputs, |inputs|);
            (forall i :: 0 <= i < |keys| ==> KeyPasses(found, groups, keys[i])) <==>
            forall k :: k in Expected(inputs, |inputs|) ==> KeyPasses(found, groups, k)
  {
    var keys := KeyOrder(inputs, |inputs|);
    forall i | 0 <= i < |keys| ensures keys[i] in Expected(inputs, |inputs|) {
      KeyOrderIsDomain(inputs, |inputs|, keys[i]);
    }
    forall k | k in Expected(inputs, |inputs|) ensures exists i :: 0 <= i < |keys| && keys[i] == k {
      KeyOrderIsDomain(inputs, |inputs|, k);
    }
  }

  // ---- effective writes ----------------------------------------------------------------------

  lemma {:induction false} WritesAreRows(expected: map<Key, Input>, rows: seq<Row>, n: nat)
    requires n <= |rows| && forall i :: 0 <= i < n ==> RowFits(expected, rows[i])
    ensures WritesTotal(expected, rows, n) == n
  {
    if n > 0 {
      WritesAreRows(expected, rows, n - 1);
      assert RowFits(expected, rows[n - 1]);
    }
  }

  function KeySet(rows: seq<Row>, n: nat): set<Key>
    requires n <= |rows|
  {
    if n == 0 then {} else KeySet(rows, n - 1) + {rows[n - 1].key}
  }

  lemma {:induction false} InKeySet(rows: seq<Row>, n: nat, k: Key)
    requires n <= |rows|
    ensures k in KeySet(rows, n) <==> exists i :: 0 <= i < n && rows[i].key == k
  {
    if n > 0 { InKeySet(rows, n - 1, k); }
  }

  lemma {:induction false} DistinctKeysCount(rows: seq<Row>, n: nat)
    requires n <= |rows| && KeysDistinct(rows, n)
    ensures |KeySet(rows, n)| == n
  {
    if n > 0 {
      DistinctKeysCount(rows, n - 1);
      InKeySet(rows, n - 1, rows[n - 1].key);
    }
  }

  lemma {:induction false} ExpectedKeys(inputs: seq<Input>, n: nat, k: Key)
    requires n <= |inputs|
    ensures k in Expected(inputs, n) <==> exists i :: 0 <= i < n && inputs[i].key == k
  {
    if n > 0 { ExpectedKeys(inputs, n - 1, k); }
  }

  ghost predicate InputsDistinct(inputs: seq<Input>) {
    forall i, j :: 0 <= i < j < |inputs| ==> inputs[i].key != inputs[j].key
  }

  lemma {:induction false} DistinctInputsCount(inputs: seq<Input>, n: nat)
    requires n <= |inputs| && InputsDistinct(inputs)
    ensures |Expected(inputs, n).Keys| == n
  {
    if n > 0 {
      DistinctInputsCount(inputs, n - 1);
      ExpectedKeys(inputs, n - 1, inputs[n - 1].key);
      assert Expected(inputs, n).Keys == Expected(inputs, n - 1).Keys + {inputs[n - 1].key};
    }
  }

  /** On a pass the effective writes number the distinct inputs: all of them in a manifest. */
  lemma {:induction false} PassCountsWrites(inputs: seq<Input>, rows: seq<Row>, attempts: seq<Attempt>)
    requires Report(inputs, rows, attempts) == []
    ensures WritesTotal(Expected(inputs, |inputs|), rows, |rows|) == |rows| == |Expected(inputs, |inputs|).Keys|
    ensures InputsDistinct(inputs) ==> WritesTotal(Expected(inputs, |inputs|), rows, |rows|) == |inputs|
  {
    var expected := Expected(inputs, |inputs|);
    PassMeans(inputs, rows, attempts);
    WritesAreRows(expected, rows, |rows|);
    DistinctKeysCount(rows, |rows|);
    BijectKeys(expected, rows);
    if InputsDistinct(inputs) {
      DistinctInputsCount(inputs, |inputs|);
    }
  }

  lemma {:induction false} BijectKeys(expected: map<Key, Input>, rows: seq<Row>)
    requires RowsBiject(expected, rows)
    ensures expected.Keys == KeySet(rows, |rows|)
  {
    forall k | k in KeySet(rows, |rows|) ensures k in expected {
      InKeySet(rows, |rows|, k);
      var i :| 0 <= i < |rows| && rows[i].key == k;
      assert RowFits(expected, rows[i]);
    }
    forall k | k in expected ensures k in KeySet(rows, |rows|) {
      InKeySet(rows, |rows|, k);
      assert HasRow(rows, k);
    }
  }
}
