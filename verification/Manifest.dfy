/**
 The generated inputs (tools/ingress/workload.py, input_record) and what the adapter makes of them
 (tools/ingress/reference_adapter.py, _payload): every entry has its own identity.
 */
module Manifest {
  import opened Wrappers
  import opened Decimals
  import opened TargetOracle
  import opened AdapterTarget

  /** `f"{sequence:06d}"` */
  function SixDigits(n: nat): string {
    Zeros(if |Decimal(n)| < 6 then 6 - |Decimal(n)| else 0) + Decimal(n)
  }

  function MessageId(runId: string, sequence: nat): string {
    runId + ":" + SixDigits(sequence)
  }

  /** A message's JSON object, as far as the adapter looks at it; None is a missing or mistyped field. */
  datatype Body = Body(runId: Option<string>, messageId: Option<string>, seqNo: Option<int>, value: Option<int>,
                       padding: string)

  /** Where the adapter got the message from; RabbitMQ repeats the message id in the position. */
  datatype Source = Http | RabbitMq(messageId: Option<string>) | OtherSource

  predicate Printable(s: string) { forall i :: 0 <= i < |s| ==> ' ' <= s[i] <= '~' }

  predicate TextOk(text: Option<string>, limit: nat) {
    text.Some? && 1 <= |text.value| <= limit && Printable(text.value)
  }

  predicate NumberOk(number: Option<int>, low: int, high: int) { number.Some? && low <= number.value <= high }

  /** The business value that the adapter stores for a payload value. */
  function Normalized(value: int): int {
    2 * value + 1
  }

  const MAX_SEQUENCE := 0x7fff_ffff
  const VALUE_LIMIT := 0x4000_0000_0000_0000

  /** _payload; None when it raises. `digest` stands for the hash of the canonical JSON text. */
  function Payload(source: Source, body: Option<Body>, digest: Body -> string): Option<Input> {
    if source.OtherSource? || body.None? then None
    else
      var b := body.value;
      if !TextOk(b.runId, 80) || !TextOk(b.messageId, 128) || !NumberOk(b.seqNo, 1, MAX_SEQUENCE)
         || !NumberOk(b.value, -VALUE_LIMIT, VALUE_LIMIT - 1) then None
      else if source.RabbitMq? && source.messageId != b.messageId then None
      else Some(Input(Key(b.runId.value, b.messageId.value), b.seqNo.value, digest(b), Normalized(b.value.value)))
  }

  predicate IsWord(c: char) { '0' <= c <= '9' || 'A' <= c <= 'Z' || 'a' <= c <= 'z' }

  /** RUN_ID */
  predicate IsRunId(s: string) {
    && 1 <= |s| <= 80 && IsWord(s[0])
    && forall i :: 0 <= i < |s| ==> IsWord(s[i]) || s[i] == '_' || s[i] == '.' || s[i] == '-'
  }

  /** The body that is generated; `padding` stands for the hashes that fill it up. */
  function BodyOf(runId: string, sequence: nat, padding: nat -> string): Body {
    Body(Some(runId), Some(MessageId(runId, sequence)), Some(sequence), Some(sequence), padding(sequence))
  }

  /** input_record */
  function Record(runId: string, sequence: nat, padding: nat -> string, digest: Body -> string): Input {
    Input(Key(runId, MessageId(runId, sequence)), sequence, digest(BodyOf(runId, sequence, padding)), sequence * 2 + 1)
  }

  function Generated(runId: string, count: nat, padding: nat -> string, digest: Body -> string): seq<Input> {
    seq(count, i requires i >= 0 => Record(runId, i + 1, padding, digest))
  }

  lemma {:induction false} SixDigitsInjective(m: nat, n: nat)
    requires SixDigits(m) == SixDigits(n)
    ensures m == n
  {
    LeadingZeros(if |Decimal(m)| < 6 then 6 - |Decimal(m)| else 0, Decimal(m));
    LeadingZeros(if |Decimal(n)| < 6 then 6 - |Decimal(n)| else 0, Decimal(n));
    DecimalRoundTrip(m);
    DecimalRoundTrip(n);
  }

  /** Two entries never share a message id, in one run whatever its size. */
  lemma {:induction false} MessageIdsDistinct(runId: string, m: nat, n: nat)
    ensures MessageId(runId, m) == MessageId(runId, n) <==> m == n
  {
    var skip := |runId| + 1;
    assert MessageId(runId, m)[skip..] == SixDigits(m) && MessageId(runId, n)[skip..] == SixDigits(n);
    if MessageId(runId, m) == MessageId(runId, n) {
      SixDigitsInjective(m, n);
    }
  }

  lemma {:induction false} GeneratedDistinct(runId: string, count: nat, padding: nat -> string, digest: Body -> string)
    ensures InputsDistinct(Generated(runId, count, padding, digest))
  {
    var inputs := Generated(runId, count, padding, digest);
    forall i, j | 0 <= i < j < |inputs| ensures inputs[i].key != inputs[j].key {
      MessageIdsDistinct(runId, i + 1, j + 1);
    }
  }

  lemma {:induction false} EntryIsExpected(inputs: seq<Input>, n: nat, i: nat)
    requires n <= |inputs| && i < n && InputsDistinct(inputs)
    ensures FromManifest(Expected(inputs, n), inputs[i])
  {
    if i < n - 1 {
      EntryIsExpected(inputs, n - 1, i);
    }
  }

  lemma {:induction false} ShortDecimal(n: nat, digits: nat)
    requires 1 <= digits && n < Ten(digits)
    ensures |Decimal(n)| <= digits
  {
    if n >= 10 {
      assert digits > 1 by { assert Ten(1) == 10 * Ten(0) == 10; }
      ShortDecimal(n / 10, digits - 1);
    }
  }

  function Ten(k: nat): nat { if k == 0 then 1 else 10 * Ten(k - 1) }

  lemma {:induction false} MessageIdReadable(runId: string, sequence: nat)
    requires IsRunId(runId) && sequence < 1_000_000
    ensures TextOk(Some(runId), 80) && TextOk(Some(MessageId(runId, sequence)), 128)
  {
    assert Ten(6) == 1_000_000 by { assert Ten(3) == 1000; assert Ten(5) == 100 * Ten(3); }
    ShortDecimal(sequence, 6);
    assert |SixDigits(sequence)| == 6 && IsNumeral(Decimal(sequence));
    forall i | 0 <= i < 6 ensures ' ' <= SixDigits(sequence)[i] <= '~' {
      assert IsDigit(SixDigits(sequence)[i]);
    }
  }

  /**
   Generator, adapter and oracle agree: what the adapter reads from a generated entry, whichever
   source delivers it, is the entry that the oracle expects under its key.
   */
  lemma {:induction false} GeneratedAgrees(runId: string, count: nat, padding: nat -> string, digest: Body -> string,
                                           i: nat)
    requires IsRunId(runId) && i < count < 1_000_000
    ensures var inputs, body := Generated(runId, count, padding, digest), BodyOf(runId, i + 1, padding);
            && Payload(Http, Some(body), digest) == Some(inputs[i])
            && Payload(RabbitMq(body.messageId), Some(body), digest) == Some(inputs[i])
            && FromManifest(Expected(inputs, count), inputs[i])
  {
    MessageIdReadable(runId, i + 1);
    GeneratedDistinct(runId, count, padding, digest);
    EntryIsExpected(Generated(runId, count, padding, digest), count, i);
  }

  /** On a pass the effective writes number the generated entries. */
  lemma {:induction false} GeneratedWrites(runId: string, count: nat, padding: nat -> string, digest: Body -> string,
                                           rows: seq<Row>, attempts: seq<Attempt>)
    requires Report(Generated(runId, count, padding, digest), rows, attempts) == []
    ensures var inputs := Generated(runId, count, padding, digest);
            WritesTotal(Expected(inputs, count), rows, |rows|) == count
  {
    GeneratedDistinct(runId, count, padding, digest);
    PassCountsWrites(Generated(runId, count, padding, digest), rows, attempts);
  }
}
