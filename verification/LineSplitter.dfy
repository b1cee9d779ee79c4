/**
 The bounded reader of newline-separated JSON (tools/subscriptions/probe_clients.py,
 bounded_raw_k8s with lines=True): what it returns must not depend on how the body arrives.
 */
module LineSplitter {
  import opened Wrappers

  type Text = seq<char>

  const LF := '\n'
  const READ_SIZE := 4096

  /** Which of the two limits stopped the reader. */
  datatype Limit = LineLimit | BodyLimit

  datatype Outcome =
    | Lines(lines: seq<Text>) // the JSON texts, to be returned
    | TooLong                 // a limit was reached
    | BadJson                 // a line is not JSON
    | BadStatus               // the whole body was read, but the response is an HTTP error

  /** The cap on a line, how many lines are wanted, which texts are JSON, and the response status. */
  datatype Request = Request(cap: nat, wanted: nat, isJson: Text -> bool, ok: bool)

  /** The position of the next newline at or after i, or the end. */
  function NextLf(s: Text, i: nat): (e: nat)
    requires i <= |s|
    ensures i <= e <= |s| && (e < |s| ==> s[e] == LF)
    ensures forall j :: i <= j < e ==> s[j] != LF
    decreases |s| - i
  {
    if i == |s| || s[i] == LF then i else NextLf(s, i + 1)
  }

  /** Reading the whole body s at once, the line from i on being next. */
  function ReadFrom(r: Request, s: Text, i: nat, lines: seq<Text>): Outcome
    requires i <= |s|
    decreases |s| - i
  {
    var e := NextLf(s, i);
    if e - i > r.cap then TooLong
    else if e == |s| then
      if !r.ok then BadStatus
      else if e == i then Lines(lines)
      else if r.isJson(s[i..e]) then Lines(lines + [s[i..e]])
      else BadJson
    else if e == i then ReadFrom(r, s, e + 1, lines)
    else if !r.isJson(s[i..e]) then BadJson
    else if |lines| + 1 >= r.wanted then Lines(lines + [s[i..e]])
    else ReadFrom(r, s, e + 1, lines + [s[i..e]])
  }

  function Read(r: Request, s: Text): Outcome {
    ReadFrom(r, s, 0, [])
  }

  /** Where the line begins at which the reader stops for its length, if it does. */
  function LongLine(r: Request, s: Text, i: nat, count: nat): Option<nat>
    requires i <= |s|
    decreases |s| - i
  {
    var e := NextLf(s, i);
    if e - i > r.cap then Some(i)
    else if e == |s| then None
    else if e == i then LongLine(r, s, e + 1, count)
    else if !r.isJson(s[i..e]) || count + 1 >= r.wanted then None
    else LongLine(r, s, e + 1, count + 1)
  }

  /** What the reader makes of the line that ends at e, when it does not stop there. */
  function LinesAfter(lines: seq<Text>, line: Text): seq<Text> {
    if line == [] then lines else lines + [line]
  }

  /** The reader goes on behind this line. */
  predicate GoesOn(r: Request, line: Text, count: nat) {
    |line| <= r.cap && (line != [] ==> r.isJson(line) && count + 1 < r.wanted)
  }

  /** A complete line either ends the reading or is the first of the rest. */
  lemma {:induction false} OneLine(r: Request, s: Text, i: nat, lines: seq<Text>)
    requires i <= |s| && NextLf(s, i) < |s|
    ensures var e := NextLf(s, i);
            var line := s[i..e];
            if GoesOn(r, line, |lines|) then
              && ReadFrom(r, s, i, lines) == ReadFrom(r, s, e + 1, LinesAfter(lines, line))
              && LongLine(r, s, i, |lines|) == LongLine(r, s, e + 1, |LinesAfter(lines, line)|)
            else
              && ReadFrom(r, s, i, lines) == (if |line| > r.cap then TooLong
                                              else if !r.isJson(line) then BadJson else Lines(lines + [line]))
              && LongLine(r, s, i, |lines|) == (if |line| > r.cap then Some(i) else None)
  {
  }

  // ---- what is returned ----------------------------------------------------------------------

  ghost predicate GoodLine(r: Request, line: Text) {
    1 <= |line| <= r.cap && r.isJson(line) && forall j :: 0 <= j < |line| ==> line[j] != LF
  }

  function Joined(lines: seq<Text>): Text {
    if lines == [] then [] else Joined(lines[..|lines| - 1]) + lines[|lines| - 1]
  }

  /** The text from i on without its newlines. */
  function Stripped(s: Text, i: nat): Text
    requires i <= |s|
    decreases |s| - i
  {
    if i == |s| then [] else if s[i] == LF then Stripped(s, i + 1) else [s[i]] + Stripped(s, i + 1)
  }

  function AfterLf(s: Text, e: nat): Text
    requires e <= |s|
  {
    if e == |s| then [] else Stripped(s, e + 1)
  }

  lemma {:induction false} Appended(a: Text, b: Text, c: Text)
    ensures (a + b) + c == a + (b + c)
  {
  }

  lemma {:induction false} StripLine(s: Text, i: nat)
    requires i <= |s|
    ensures Stripped(s, i) == s[i..NextLf(s, i)] + AfterLf(s, NextLf(s, i))
    decreases |s| - i
  {
    var e := NextLf(s, i);
    if i < |s| && s[i] != LF {
      StripLine(s, i + 1);
      assert NextLf(s, i + 1) == e && s[i..e] == [s[i]] + s[i + 1..e];
      Appended([s[i]], s[i + 1..e], AfterLf(s, e));
    } else {
      assert s[i..e] == [];
    }
  }

  lemma {:induction false} JoinMore(lines: seq<Text>, line: Text, rest: Text)
    ensures Joined(lines + [line]) + rest == Joined(lines) + (line + rest)
  {
    assert (lines + [line])[..|lines|] == lines;
    Appended(Joined(lines), line, rest);
  }

  /** Every text that is returned is a non-empty line of JSON within the cap; no more than wanted. */
  lemma {:induction false} ReturnedAreLines(r: Request, s: Text, i: nat, lines: seq<Text>)
    requires i <= |s| && ReadFrom(r, s, i, lines).Lines?
    requires forall k :: 0 <= k < |lines| ==> GoodLine(r, lines[k])
    ensures var out := ReadFrom(r, s, i, lines).lines;
            && (forall k :: 0 <= k < |out| ==> GoodLine(r, out[k]))
            && (|lines| < r.wanted ==> |out| <= r.wanted)
    decreases |s| - i
  {
    var e := NextLf(s, i);
    var line := s[i..e];
    if line != [] {
      assert GoodLine(r, line);
    }
    if e < |s| && line == [] {
      ReturnedAreLines(r, s, e + 1, lines);
    } else if e < |s| && |lines| + 1 < r.wanted {
      ReturnedAreLines(r, s, e + 1, lines + [line]);
    }
  }

  lemma {:induction false} LastLine(r: Request, s: Text, i: nat, lines: seq<Text>)
    requires i <= |s| && NextLf(s, i) == |s| && ReadFrom(r, s, i, lines).Lines?
    ensures ReadFrom(r, s, i, lines).lines == LinesAfter(lines, s[i..|s|])
  {
  }

  /** Fewer lines than wanted are the whole body but for its newlines: nothing is lost. */
  lemma {:induction false} NothingIsLost(r: Request, s: Text, i: nat, lines: seq<Text>)
    requires i <= |s| && ReadFrom(r, s, i, lines).Lines? && |ReadFrom(r, s, i, lines).lines| < r.wanted
    ensures Joined(ReadFrom(r, s, i, lines).lines) == Joined(lines) + Stripped(s, i)
    decreases |s| - i
  {
    var e := NextLf(s, i);
    var line := s[i..e];
    StripLine(s, i);
    if e < |s| {
      OneLine(r, s, i, lines);
      NothingIsLost(r, s, e + 1, LinesAfter(lines, line));
      assert [] + Stripped(s, e + 1) == Stripped(s, e + 1);
      if line != [] { JoinMore(lines, line, Stripped(s, e + 1)); }
    } else {
      LastLine(r, s, i, lines);
      assert line + [] == line;
      if line != [] { JoinMore(lines, line, []); }
    }
  }

  // ---- the stream in chunks ------------------------------------------------------------------

  function Concat(chunks: seq<Text>): Text {
    if chunks == [] then [] else Concat(chunks[..|chunks| - 1]) + chunks[|chunks| - 1]
  }

  /** Where the k-th read ended. */
  function Boundary(chunks: seq<Text>, k: nat): nat
    requires k <= |chunks|
  {
    |Concat(chunks[..k])|
  }

  lemma {:induction false} PrefixOfConcat(chunks: seq<Text>, k: nat)
    requires k <= |chunks|
    ensures Concat(chunks[..k]) <= Concat(chunks)
    decreases |chunks| - k
  {
    if k == |chunks| {
      assert chunks[..k] == chunks;
    } else {
      PrefixOfConcat(chunks, k + 1);
      assert chunks[..k + 1][..k] == chunks[..k] && chunks[..k + 1][k] == chunks[k];
    }
  }

  /** The line at i was seen to be too long before its newline, if it has one, was read. */
  ghost predicate SeenEarly(r: Request, chunks: seq<Text>, i: nat) {
    i <= |Concat(chunks)| &&
    exists k :: 0 <= k <= |chunks| && i + r.cap < Boundary(chunks, k) <= NextLf(Concat(chunks), i)
  }

  // ---- the program ---------------------------------------------------------------------------

  /** `buffer.partition(b"\n")` finds the first newline. */
  method FindLf(buffer: Text) returns (e: nat)
    ensures e == NextLf(buffer, 0)
  {
    e := 0;
    while e < |buffer| && buffer[e] != LF
      invariant e <= |buffer| && NextLf(buffer, e) == NextLf(buffer, 0)
    {
      e := e + 1;
    }
  }

  /** A newline inside a part of the stream is the stream's own. */
  lemma {:induction false} NextLfShift(s: Text, i: nat, b: nat, j: nat)
    requires i <= i + j <= b <= |s|
    ensures NextLf(s[i..b], j) < b - i ==> NextLf(s, i + j) == i + NextLf(s[i..b], j)
    ensures NextLf(s[i..b], j) == b - i ==> NextLf(s, i + j) >= b
    decreases b - i - j
  {
    if i + j < b && s[i + j] != LF {
      NextLfShift(s, i, b, j + 1);
    }
  }

  method FindInBuffer(buffer: Text, ghost body: Text, ghost i: nat, ghost b: nat) returns (e: nat)
    requires i <= b <= |body| && buffer == body[i..b]
    ensures e <= |buffer|
    ensures if e == |buffer| then NextLf(body, i) >= b else NextLf(body, i) == i + e
  {
    e := FindLf(buffer);
    NextLfShift(body, i, b, 0);
  }

  datatype Step = Going | Ended(outcome: Outcome)

  /** The inner loop over the lines that are complete in the buffer, which is body[i..b]. */
  method TakeLines(r: Request, buffer0: Text, lines0: seq<Text>, ghost body: Text, ghost i0: nat, ghost b: nat)
    returns (step: Step, buffer: Text, lines: seq<Text>, ghost i: nat)
    requires i0 <= b <= |body| && buffer0 == body[i0..b]
    ensures i0 <= i <= b && buffer == body[i..b]
    ensures ReadFrom(r, body, i0, lines0) == if step.Ended? then step.outcome else ReadFrom(r, body, i, lines)
    ensures LongLine(r, body, i0, |lines0|) ==
            if step.Going? then LongLine(r, body, i, |lines|) else if step.outcome.TooLong? then Some(i) else None
    ensures step.Going? ==> NextLf(body, i) >= b
    ensures step.Ended? && step.outcome.TooLong? ==> NextLf(body, i) < b
  {
    step, buffer, lines, i := Going, buffer0, lines0, i0;
    ghost var plan, long := ReadFrom(r, body, i0, lines0), LongLine(r, body, i0, |lines0|);
    while true
      invariant i0 <= i <= b && buffer == body[i..b] && step.Going?
      invariant plan == ReadFrom(r, body, i, lines) && long == LongLine(r, body, i, |lines|)
      decreases |buffer|
    {
      var e := FindInBuffer(buffer, body, i, b);
      if e == |buffer| {
        return;
      }
      var line := buffer[..e];
      assert line == body[i..i + e];
      OneLine(r, body, i, lines);
      if |line| > r.cap {
        step := Ended(TooLong);
        return;
      }
      if line != [] {
        if !r.isJson(line) {
          step := Ended(BadJson);
          return;
        }
        if |lines| + 1 >= r.wanted {
          step := Ended(Lines(lines + [line]));
          return;
        }
        lines := lines + [line];
      }
      buffer, i := buffer[e + 1..], i + e + 1;
    }
  }

  lemma {:induction false} BoundaryNext(chunks: seq<Text>, k: nat)
    requires k < |chunks|
    ensures Concat(chunks[..k + 1]) == Concat(chunks[..k]) + chunks[k]
    ensures Boundary(chunks, k + 1) == Boundary(chunks, k) + |chunks[k]|
  {
    assert chunks[..k + 1][..k] == chunks[..k] && chunks[..k + 1][k] == chunks[k];
  }

  lemma {:induction false} BoundariesGrow(chunks: seq<Text>, j: nat, k: nat)
    requires j <= k <= |chunks|
    ensures Boundary(chunks, j) <= Boundary(chunks, k)
    decreases k - j
  {
    if j < k {
      BoundariesGrow(chunks, j, k - 1);
      BoundaryNext(chunks, k - 1);
    }
  }

  /** The line was within the cap at the last boundary and its newline has been read since. */
  lemma {:induction false} NotSeenEarly(r: Request, chunks: seq<Text>, i: nat, k: nat)
    requires k < |chunks| && i <= |Concat(chunks)|
    requires Boundary(chunks, k) <= i + r.cap && NextLf(Concat(chunks), i) < Boundary(chunks, k + 1)
    ensures !SeenEarly(r, chunks, i)
  {
    forall j | 0 <= j <= |chunks| ensures !(i + r.cap < Boundary(chunks, j) <= NextLf(Concat(chunks), i)) {
      if j <= k {
        BoundariesGrow(chunks, j, k);
      } else {
        BoundariesGrow(chunks, k + 1, j);
      }
    }
  }

  /** Extending the buffer by the k-th chunk. */
  lemma {:induction false} Extend(chunks: seq<Text>, k: nat, i: nat, buffer: Text)
    requires k < |chunks| && i <= Boundary(chunks, k) <= |Concat(chunks)|
    requires buffer == Concat(chunks)[i..Boundary(chunks, k)]
    ensures i <= Boundary(chunks, k + 1) <= |Concat(chunks)|
    ensures buffer + chunks[k] == Concat(chunks)[i..Boundary(chunks, k + 1)]
  {
    BoundaryNext(chunks, k);
    PrefixOfConcat(chunks, k + 1);
    PrefixOfConcat(chunks, k);
    var body, a, b := Concat(chunks), Boundary(chunks, k), Boundary(chunks, k + 1);
    assert body[..b] == Concat(chunks[..k + 1]);
    assert body[a..b] == chunks[k];
    assert body[i..b] == body[i..a] + body[a..b];
  }

  /**
   The reader. Its outcome is that of reading the whole body at once, however the body is cut into
   reads; its buffer never holds more than the cap and one read. Only which limit is named depends
   on the cut: the body limit exactly when some read ended with too much of the line but not its
   newline.
   */
  method ReadChunks(r: Request, chunks: seq<Text>) returns (outcome: Outcome, limit: Option<Limit>, peak: nat)
    requires forall k :: 0 <= k < |chunks| ==> 1 <= |chunks[k]| <= READ_SIZE
    ensures outcome == Read(r, Concat(chunks))
    ensures peak <= r.cap + READ_SIZE
    ensures limit.Some? <==> outcome.TooLong?
    ensures outcome.TooLong? <==> LongLine(r, Concat(chunks), 0, 0).Some?
    ensures outcome.TooLong? ==>
              (limit.value.BodyLimit? <==> SeenEarly(r, chunks, LongLine(r, Concat(chunks), 0, 0).value))
  {
    ghost var body := Concat(chunks);
    ghost var i: nat := 0;
    var buffer: Text, lines: seq<Text> := [], [];
    limit, peak := None, 0;
    assert chunks[..0] == [];
    ghost var plan, long := Read(r, body), LongLine(r, body, 0, 0);
    for k := 0 to |chunks|
      invariant i <= Boundary(chunks, k) <= |body| && buffer == body[i..Boundary(chunks, k)]
      invariant plan == ReadFrom(r, body, i, lines) && long == LongLine(r, body, i, |lines|)
      invariant |buffer| <= r.cap && peak <= r.cap + READ_SIZE && limit.None?
      invariant NextLf(body, i) >= Boundary(chunks, k)
    {
      Extend(chunks, k, i, buffer);
      buffer := buffer + chunks[k];
      peak := if |buffer| > peak then |buffer| else peak;
      var step;
      step, buffer, lines, i := TakeLines(r, buffer, lines, body, i, Boundary(chunks, k + 1));
      if step.Ended? {
        if step.outcome.TooLong? {
          NotSeenEarly(r, chunks, i, k);
          limit := Some(LineLimit);
        }
        return step.outcome, limit, peak;
      }
      if |buffer| > r.cap {
        assert i + r.cap < Boundary(chunks, k + 1) <= NextLf(body, i);
        return TooLong, Some(BodyLimit), peak;
      }
    }
    assert chunks[..|chunks|] == chunks;
    if !r.ok {
      outcome := BadStatus;
    } else if buffer == [] {
      outcome := Lines(lines);
    } else if r.isJson(buffer) {
      outcome := Lines(lines + [buffer]);
    } else {
      outcome := BadJson;
    }
  }

  /** The same body cut in two ways: one line over the cap, its newline in the same read or not. */
  lemma {:induction false} NamedLimitDependsOnCut()
    ensures var r := Request(1, 9, _ => true, true);
            && Concat(["abc\n"]) == Concat(["abc", "\n"]) == "abc\n"
            && LongLine(r, "abc\n", 0, 0) == Some(0)
            && !SeenEarly(r, ["abc\n"], 0) && SeenEarly(r, ["abc", "\n"], 0)
  {
    var r := Request(1, 9, _ => true, true);
    var s := "abc\n";
    assert NextLf(s, 3) == 3 && NextLf(s, 2) == 3 && NextLf(s, 1) == 3 && NextLf(s, 0) == 3;
    assert ["abc\n"][..0] == [] && ["abc\n"][..1] == ["abc\n"];
    assert Concat(["abc\n"]) == Concat([]) + s == s;
    assert ["abc", "\n"][..1] == ["abc"] && ["abc"][..0] == [];
    assert Concat(["abc"]) == Concat([]) + "abc" == "abc";
    assert Concat(["abc", "\n"]) == "abc" + "\n" == s;
    assert Boundary(["abc", "\n"], 1) == 3;
    forall k | 0 <= k <= 1 ensures Boundary(["abc\n"], k) == if k == 0 then 0 else 4 {
    }
  }
}
