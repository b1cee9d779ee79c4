/**
 The migration chain checker (tools/local-preview/migrations.py): a directory of revisions is
 accepted when it is one linear history, and a candidate when it only extends the old history.
 */
module Migrations {
  import opened Wrappers
  import opened Sets

  /** A module-level assignment as `ast.literal_eval` gives it. */
  datatype Field = Missing | NoneValue | Text(text: string) | OtherValue

  /** `special`: depends_on or branch_labels has a true value. */
  datatype File = File(name: string, revision: Field, parent: Field, special: bool)

  datatype Error =
    | ReviewNeeded | FieldMissing | InvalidRevision | Branched | NoUniqueHead | BrokenGraph | DisconnectedGraph
    | HistoryChanged | NotAnAncestor

  datatype Result<T> = Ok(value: T) | Err(error: Error)

  /** Each revision with its parent. */
  type Revisions = map<string, Option<string>>

  predicate EndsWith(s: string, suffix: string) {
    |suffix| <= |s| && s[|s| - |suffix|..] == suffix
  }

  predicate IsRevisionFile(f: File) {
    EndsWith(f.name, ".py") && !EndsWith(f.name, "__init__.py")
  }

  // ---- collecting the revisions --------------------------------------------------------------

  function Added(m: Revisions, f: File): Result<Revisions> {
    if !IsRevisionFile(f) then Ok(m)
    else if f.special then Err(ReviewNeeded)
    else if f.revision.Missing? || f.parent.Missing? then Err(FieldMissing)
    else if !f.revision.Text? || f.revision.text in m then Err(InvalidRevision)
    else if f.parent.OtherValue? then Err(Branched)
    else Ok(m[f.revision.text := if f.parent.Text? then Some(f.parent.text) else None])
  }

  /** The revisions of the first n files, or the first complaint. */
  function Collected(files: seq<File>, n: nat): Result<Revisions>
    requires n <= |files|
  {
    if n == 0 then Ok(map[])
    else match Collected(files, n - 1)
      case Err(e) => Err(e)
      case Ok(m) => Added(m, files[n - 1])
  }

  // ---- what a linear history is --------------------------------------------------------------

  ghost predicate Distinct(c: seq<string>) {
    forall i, j :: 0 <= i < j < |c| ==> c[i] != c[j]
  }

  /** What follows c[i]: the next revision, or `end` after the last. */
  function After(c: seq<string>, end: Option<string>, i: nat): Option<string> {
    if i + 1 < |c| then Some(c[i + 1]) else end
  }

  /** Each revision is followed by its parent. */
  ghost predicate Links(m: Revisions, c: seq<string>, end: Option<string>) {
    forall i: nat {:trigger After(c, end, i)} :: i < |c| ==> c[i] in m && m[c[i]] == After(c, end, i)
  }

  /** From the head down to the root: each revision once, each followed by its parent. */
  ghost predicate IsChain(m: Revisions, c: seq<string>) {
    c != [] && Distinct(c) && (forall k :: k in m <==> k in c) && Links(m, c, None)
  }

  ghost predicate Linear(m: Revisions) {
    exists c :: IsChain(m, c)
  }

  predicate IsParent(m: Revisions, k: string) {
    exists p :: p in m && m[p] == Some(k)
  }

  /** `set(revisions) - set(revisions.values())` */
  function Heads(m: Revisions): set<string> {
    set k | k in m && !IsParent(m, k)
  }

  lemma {:induction false} LinkAt(m: Revisions, c: seq<string>, end: Option<string>, i: nat)
    requires Links(m, c, end) && i < |c|
    ensures c[i] in m && m[c[i]] == After(c, end, i)
  {
  }

  lemma {:induction false} IndexIn(c: seq<string>, k: string) returns (i: nat)
    requires k in c
    ensures i < |c| && c[i] == k
  {
    i :| i < |c| && c[i] == k;
  }

  lemma {:induction false} ParentInChain(m: Revisions, c: seq<string>, i: nat)
    requires IsChain(m, c) && i < |c|
    ensures IsParent(m, c[i]) <==> i > 0
  {
    if i > 0 {
      LinkAt(m, c, None, i - 1);
    }
    if IsParent(m, c[i]) {
      var p :| p in m && m[p] == Some(c[i]);
      var j := IndexIn(c, p);
      LinkAt(m, c, None, j);
    }
  }

  lemma {:induction false} HeadIsFirst(m: Revisions, c: seq<string>)
    requires IsChain(m, c)
    ensures Heads(m) == {c[0]}
  {
    forall k | k in m ensures k in Heads(m) <==> k == c[0] {
      var i := IndexIn(c, k);
      ParentInChain(m, c, i);
      ParentInChain(m, c, 0);
    }
    assert c[0] in m;
  }

  // ---- the walk ------------------------------------------------------------------------------

  /** The walk so far: distinct revisions from the head on, each followed by its parent. */
  ghost predicate IsPath(m: Revisions, path: seq<string>, cursor: Option<string>, head: string) {
    && Distinct(path) && Links(m, path, cursor)
    && (if path == [] then cursor == Some(head) else path[0] == head)
  }

  lemma {:induction false} FollowAt(m: Revisions, path: seq<string>, cursor: Option<string>, c: seq<string>, i: nat)
    requires Links(m, path, cursor) && Links(m, c, None) && i < |path| && c != [] && c[0] == path[0]
    ensures i < |c| && path[i] == c[i]
  {
    if i > 0 {
      FollowAt(m, path, cursor, c, i - 1);
      LinkAt(m, path, cursor, i - 1);
      LinkAt(m, c, None, i - 1);
    }
  }

  /** Where there is a chain the walk follows it. */
  lemma {:induction false} PathFollowsChain(m: Revisions, path: seq<string>, cursor: Option<string>, head: string,
                                            c: seq<string>)
    requires IsPath(m, path, cursor, head) && IsChain(m, c) && c[0] == head
    ensures |path| <= |c| && path == c[..|path|]
    ensures cursor == if |path| < |c| then Some(c[|path|]) else None
  {
    if path != [] {
      forall i: nat | i < |path| ensures i < |c| && path[i] == c[i] {
        FollowAt(m, path, cursor, c, i);
      }
      FollowAt(m, path, cursor, c, |path| - 1);
      LinkAt(m, path, cursor, |path| - 1);
      LinkAt(m, c, None, |path| - 1);
    }
  }

  /** A history has one chain only. */
  lemma {:induction false} ChainIsUnique(m: Revisions, c: seq<string>, d: seq<string>)
    requires IsChain(m, c) && IsChain(m, d)
    ensures c == d
  {
    HeadIsFirst(m, c);
    HeadIsFirst(m, d);
    assert c[0] in {d[0]};
    PathFollowsChain(m, c, None, d[0], d);
  }

  lemma {:induction false} SetOfDistinct(path: seq<string>, seen: set<string>)
    requires Distinct(path) && forall k :: k in seen <==> k in path
    ensures |seen| == |path|
    decreases |path|
  {
    if path == [] {
      assert seen == {};
    } else {
      var last := path[|path| - 1];
      SetOfDistinct(path[..|path| - 1], seen - {last});
      assert seen == (seen - {last}) + {last};
    }
  }

  lemma {:induction false} PathGrows(m: Revisions, path: seq<string>, head: string, k: string)
    requires IsPath(m, path, Some(k), head) && k in m && k !in path
    ensures IsPath(m, path + [k], m[k], head)
  {
    var more := path + [k];
    forall i: nat | i < |more| ensures more[i] in m && more[i] in m && m[more[i]] == After(more, m[k], i) {
      if i < |path| {
        LinkAt(m, path, Some(k), i);
      }
    }
  }

  /** Follows the parents from the head; `seen` grows inside the finite set of revisions. */
  method Walk(m: Revisions, head: string) returns (error: Option<Error>, ghost path: seq<string>)
    requires Heads(m) == {head}
    ensures error.None? ==> IsChain(m, path) && path[0] == head
    ensures error.Some? ==> !Linear(m) && (error.value.BrokenGraph? || error.value.DisconnectedGraph?)
  {
    var seen: set<string>, cursor: Option<string> := {}, Some(head);
    path := [];
    while cursor.Some?
      invariant IsPath(m, path, cursor, head)
      invariant (forall k :: k in seen <==> k in path) && seen <= m.Keys
      decreases |m.Keys| - |seen|
    {
      if cursor.value in seen || cursor.value !in m {
        LeavesChain(m, path, cursor, head);
        return Some(BrokenGraph), path;
      }
      PathGrows(m, path, head, cursor.value);
      SubsetSize(seen + {cursor.value}, m.Keys);
      path := path + [cursor.value];
      seen := seen + {cursor.value};
      cursor := m[cursor.value];
    }
    if seen != m.Keys {
      MissesChain(m, path, head, seen);
      return Some(DisconnectedGraph), path;
    }
    error := None;
  }

  lemma {:induction false} LeavesChain(m: Revisions, path: seq<string>, cursor: Option<string>, head: string)
    requires IsPath(m, path, cursor, head) && Heads(m) == {head} && cursor.Some?
    requires cursor.value in path || cursor.value !in m
    ensures !Linear(m)
  {
    forall c ensures !IsChain(m, c) {
      if IsChain(m, c) {
        OnTheChain(m, path, cursor, head, c);
      }
    }
  }

  lemma {:induction false} OnTheChain(m: Revisions, path: seq<string>, cursor: Option<string>, head: string,
                                      c: seq<string>)
    requires IsPath(m, path, cursor, head) && Heads(m) == {head} && IsChain(m, c)
    ensures cursor.Some? ==> cursor.value in m && cursor.value !in path
    ensures cursor.None? ==> path == c
  {
    HeadIsFirst(m, c);
    assert c[0] in {head};
    PathFollowsChain(m, path, cursor, head, c);
    if cursor.Some? && cursor.value in path {
      var i := IndexIn(path, cursor.value);
    }
  }

  lemma {:induction false} MissesChain(m: Revisions, path: seq<string>, head: string, seen: set<string>)
    requires IsPath(m, path, None, head) && Heads(m) == {head}
    requires (forall k :: k in seen <==> k in path) && seen != m.Keys
    ensures !Linear(m)
  {
    forall c ensures !IsChain(m, c) {
      if IsChain(m, c) {
        OnTheChain(m, path, None, head, c);
        assert forall k :: k in seen <==> k in m.Keys;
      }
    }
  }

  /**
   graph: it accepts exactly the directories that declare one linear history, and names its head.
   */
  method Graph(files: seq<File>) returns (r: Result<(string, Revisions)>)
    ensures var collected := Collected(files, |files|);
            && (r.Ok? <==> collected.Ok? && Linear(collected.value))
            && (r.Ok? ==> r.value.1 == collected.value && exists c :: IsChain(collected.value, c) && c[0] == r.value.0)
            && (collected.Err? ==> r == Err(collected.error))
            && (r.Err? ==> !r.error.HistoryChanged?)
            && (collected.Ok? && |Heads(collected.value)| != 1 ==> r == Err(NoUniqueHead))
            && (collected.Ok? && |Heads(collected.value)| == 1 && r.Err? ==>
                  r.error.BrokenGraph? || r.error.DisconnectedGraph?)
  {
    var m: Revisions := map[];
    for i := 0 to |files|
      invariant Collected(files, i) == Ok(m)
    {
      match Added(m, files[i]) {
        case Err(e) =>
          ErrorStays(files, i + 1, |files|);
          return Err(e);
        case Ok(more) => m := more;
      }
    }
    var heads := Heads(m);
    if |heads| != 1 {
      LinearHasHead(m);
      return Err(NoUniqueHead);
    }
    var head :| head in heads;
    OnlyOne(heads, head);
    var error, path := Walk(m, head);
    if error.Some? {
      return Err(error.value);
    }
    r := Ok((head, m));
  }

  lemma {:induction false} LinearHasHead(m: Revisions)
    ensures Linear(m) ==> |Heads(m)| == 1
  {
    forall c | IsChain(m, c) ensures |Heads(m)| == 1 {
      HeadIsFirst(m, c);
    }
  }

  lemma {:induction false} OnlyOne(s: set<string>, x: string)
    requires |s| == 1 && x in s
    ensures s == {x}
  {
    assert |s - {x}| == 0;
    assert s == (s - {x}) + {x};
  }

  lemma {:induction false} ErrorStays(files: seq<File>, m: nat, n: nat)
    requires m <= n <= |files| && Collected(files, m).Err?
    ensures Collected(files, n) == Collected(files, m)
    decreases n
  {
    if m < n { ErrorStays(files, m, n - 1); }
  }

  // ---- old history is preserved --------------------------------------------------------------

  ghost predicate Preserves(older: Revisions, newer: Revisions) {
    forall k :: k in older ==> k in newer && newer[k] == older[k]
  }

  /** The old chain is the root side of the new one, k revisions below its head. */
  ghost predicate IsTail(older: seq<string>, newer: seq<string>, k: nat) {
    k <= |newer| && newer[k..] == older
  }

  /** The files declare one linear history. */
  ghost predicate OneHistory(files: seq<File>) {
    Collected(files, |files|).Ok? && Linear(Collected(files, |files|).value)
  }

  /** Two linear histories, the old preserved in the new, and the database in the new. */
  ghost predicate Acceptable(before: seq<File>, after: seq<File>, current: string) {
    && OneHistory(before) && OneHistory(after)
    && Preserves(Collected(before, |before|).value, Collected(after, |after|).value)
    && current in Collected(after, |after|).value
  }

  /** compatible */
  method Compatible(before: seq<File>, after: seq<File>, current: string) returns (r: Result<string>)
    ensures r.Ok? <==> Acceptable(before, after, current)
    ensures r.Ok? ==> exists c :: IsChain(Collected(after, |after|).value, c) && c[0] == r.value
    ensures r == Err(HistoryChanged) <==>
            && OneHistory(before) && OneHistory(after)
            && !Preserves(Collected(before, |before|).value, Collected(after, |after|).value)
  {
    var older := Graph(before);
    if older.Err? {
      return Err(older.error);
    }
    var newer := Graph(after);
    if newer.Err? {
      return Err(newer.error);
    }
    var (head, m) := newer.value;
    if exists k :: k in older.value.1 && (k !in m || m[k] != older.value.1[k]) {
      return Err(HistoryChanged);
    }
    if current !in m {
      return Err(NotAnAncestor);
    }
    r := Ok(head);
  }

  lemma {:induction false} TailAt(older: Revisions, newer: Revisions, c: seq<string>, d: seq<string>, k: nat, i: nat)
    requires Links(older, c, None) && Links(newer, d, None) && Preserves(older, newer)
    requires k < |d| && c != [] && d[k] == c[0] && i < |c|
    ensures k + i < |d| && d[k + i] == c[i]
    ensures i + 1 < |c| <==> k + i + 1 < |d|
  {
    if i > 0 {
      TailAt(older, newer, c, d, k, i - 1);
      LinkAt(older, c, None, i - 1);
      LinkAt(newer, d, None, k + i - 1);
    }
    LinkAt(older, c, None, i);
    LinkAt(newer, d, None, k + i);
  }

  lemma {:induction false} PreservedGivesTail(older: Revisions, newer: Revisions, c: seq<string>, d: seq<string>)
    returns (k: nat)
    requires IsChain(older, c) && IsChain(newer, d) && Preserves(older, newer)
    ensures IsTail(c, d, k)
  {
    assert c[0] in older;
    k := IndexIn(d, c[0]);
    forall i: nat | i < |c| ensures k + i < |d| && d[k + i] == c[i] {
      TailAt(older, newer, c, d, k, i);
    }
    TailAt(older, newer, c, d, k, |c| - 1);
    assert d[k..] == c;
  }

  lemma {:induction false} TailGivesPreserved(older: Revisions, newer: Revisions, c: seq<string>, d: seq<string>,
                                              k: nat)
    requires IsChain(older, c) && IsChain(newer, d) && IsTail(c, d, k)
    ensures Preserves(older, newer)
  {
    forall x | x in older ensures x in newer && newer[x] == older[x] {
      var i := IndexIn(c, x);
      LinkAt(older, c, None, i);
      LinkAt(newer, d, None, k + i);
      assert d[k + i] == x;
      assert i + 1 < |c| ==> d[k + i + 1] == c[i + 1];
    }
  }

  /** Preserving the parents is exactly being the root-side end of the new chain. */
  lemma {:induction false} PreservedIsTail(older: Revisions, newer: Revisions, c: seq<string>, d: seq<string>)
    requires IsChain(older, c) && IsChain(newer, d)
    ensures Preserves(older, newer) <==> exists k: nat :: IsTail(c, d, k)
  {
    if Preserves(older, newer) {
      var k := PreservedGivesTail(older, newer, c, d);
    }
    forall k: nat | IsTail(c, d, k) ensures Preserves(older, newer) {
      TailGivesPreserved(older, newer, c, d, k);
    }
  }

  /** What an acceptance means: the old chain unchanged below the new head, and the database's
      revision an ancestor of the head, or the head. */
  lemma {:induction false} AcceptedMeans(before: seq<File>, after: seq<File>, current: string)
    returns (d: seq<string>, k: nat, j: nat)
    requires Acceptable(before, after, current)
    ensures IsChain(Collected(after, |after|).value, d) && k < |d|
    ensures IsChain(Collected(before, |before|).value, d[k..])
    ensures j < |d| && d[j] == current
  {
    var older, newer := Collected(before, |before|).value, Collected(after, |after|).value;
    var c :| IsChain(older, c);
    d :| IsChain(newer, d);
    k := PreservedGivesTail(older, newer, c, d);
    j := IndexIn(d, current);
  }

  /**
   Acceptance composes: where `second` is accepted over `first` and `third` over `second`, `third` is
   accepted over `first`, for a database at a revision of either.
   */
  lemma {:induction false} AcceptanceComposes(first: seq<File>, second: seq<File>, third: seq<File>,
                                              current: string, later: string)
    requires Acceptable(first, second, current) && Acceptable(second, third, later)
    ensures Acceptable(first, third, current) && Acceptable(first, third, later)
  {
    var a, b, c := Collected(first, |first|).value, Collected(second, |second|).value, Collected(third, |third|).value;
    forall k | k in a ensures k in c && c[k] == a[k] {
      assert k in b;
    }
  }
}
