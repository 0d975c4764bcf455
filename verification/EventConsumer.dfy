/**
 The Kafka consumer wrapper of consumer.ts: one message is tried up to `maxAttempts` times with
 capped exponential backoff, then parked on the group's dead-letter topic.
 */
module EventConsumer {
  import opened Options
  import opened EventSchema
  import Arithmetic

  /** A message value: none or empty, not JSON, the JSON text `null`, or an envelope. */
  datatype Value = Missing | Malformed(text: string) | JsonNull | Json(envelope: Envelope)

  datatype Message = Message(key: Option<string>, value: Value)

  datatype DlqReason = MalformedJson | HandlerFailed

  datatype DlqRecord = DlqRecord(
    reason: DlqReason,
    group: string,
    originalTopic: string,
    originalOffset: nat,
    originalKey: Option<string>,
    attempts: int,
    envelope: Option<Envelope>,
    rawValue: Option<string>
  )

  function EnvelopeOf(value: Value): Option<Envelope> {
    if value.Json? then Some(value.envelope) else None
  }

  function ParkMalformed(group: string, topic: string, offset: nat, message: Message): DlqRecord
    requires message.value.Malformed?
  {
    DlqRecord(MalformedJson, group, topic, offset, message.key, 1, None, Some(message.value.text))
  }

  function ParkFailed(group: string, topic: string, offset: nat, message: Message, attempts: int): DlqRecord {
    DlqRecord(HandlerFailed, group, topic, offset, message.key, attempts, EnvelopeOf(message.value), None)
  }

  // ---------------------------------------------------------------- backoff

  function Pow2(n: nat): (p: nat)
    ensures p >= 1
  {
    if n == 0 then 1 else 2 * Pow2(n - 1)
  }

  function Min(a: nat, b: nat): nat {
    if a <= b then a else b
  }

  /** The ceiling of the delay after attempt `attempt`. */
  function BackoffCap(attempt: nat, baseDelayMs: nat, maxDelayMs: nat): nat
    requires attempt >= 1
  {
    Min(maxDelayMs, baseDelayMs * Pow2(attempt - 1))
  }

  function BackoffDelay(cap: nat, draw: real): (delay: real)
    requires 0.0 <= draw < 1.0
    ensures 0.0 <= delay <= cap as real
  {
    Arithmetic.Fraction(draw, cap as real);
    draw * (cap as real)
  }

  lemma Pow2Grows(a: nat, b: nat)
    requires a <= b
    ensures 1 <= Pow2(a) <= Pow2(b)
    decreases b
  {
    if a < b {
      Pow2Grows(a, b - 1);
    } else if a > 0 {
      Pow2Grows(a - 1, b - 1);
    }
  }

  /** Backoff ceilings never decrease from one attempt to a later one. */
  lemma {:induction false} CapsNeverDecrease(a: nat, b: nat, baseDelayMs: nat, maxDelayMs: nat)
    requires 1 <= a <= b
    ensures BackoffCap(a, baseDelayMs, maxDelayMs) <= BackoffCap(b, baseDelayMs, maxDelayMs) <= maxDelayMs
  {
    Pow2Grows(a - 1, b - 1);
    Arithmetic.MulMono(Pow2(a - 1), Pow2(b - 1), baseDelayMs);
  }

  lemma LinearBudget(attempt: nat, maxDelayMs: nat)
    requires attempt >= 1
    ensures attempt * maxDelayMs == (attempt - 1) * maxDelayMs + maxDelayMs
  {
  }

  lemma GeometricBudget(attempt: nat, baseDelayMs: nat)
    requires attempt >= 1
    ensures baseDelayMs * (Pow2(attempt) - 1) == baseDelayMs * (Pow2(attempt - 1) - 1) + baseDelayMs * Pow2(attempt - 1)
  {
    var p := Pow2(attempt - 1);
    assert Pow2(attempt) == p + p;
    assert baseDelayMs * (p - 1 + p) == baseDelayMs * (p - 1) + baseDelayMs * p;
  }

  lemma Budgets(slept: real, delay: real, cap: nat, spent: nat, more: nat)
    requires slept <= spent as real && delay <= cap as real && cap <= more
    ensures slept + delay <= (spent + more) as real
  {
  }

  lemma LinearStep(slept: real, delay: real, cap: nat, attempt: nat, maxDelayMs: nat)
    requires attempt >= 1 && delay <= cap as real && cap <= maxDelayMs
    requires slept <= ((attempt - 1) * maxDelayMs) as real
    ensures slept + delay <= (attempt * maxDelayMs) as real
  {
    LinearBudget(attempt, maxDelayMs);
    Budgets(slept, delay, cap, (attempt - 1) * maxDelayMs, maxDelayMs);
  }

  lemma GeometricStep(slept: real, delay: real, cap: nat, attempt: nat, baseDelayMs: nat)
    requires attempt >= 1 && delay <= cap as real && cap <= baseDelayMs * Pow2(attempt - 1)
    requires slept <= (baseDelayMs * (Pow2(attempt - 1) - 1)) as real
    ensures slept + delay <= (baseDelayMs * (Pow2(attempt) - 1)) as real
  {
    GeometricBudget(attempt, baseDelayMs);
    Budgets(slept, delay, cap, baseDelayMs * (Pow2(attempt - 1) - 1), baseDelayMs * Pow2(attempt - 1));
  }

  lemma CapBounds(attempt: nat, baseDelayMs: nat, maxDelayMs: nat)
    requires attempt >= 1
    ensures BackoffCap(attempt, baseDelayMs, maxDelayMs) <= maxDelayMs
    ensures BackoffCap(attempt, baseDelayMs, maxDelayMs) <= baseDelayMs * Pow2(attempt - 1)
  {
  }

  /** The ceiling starts at the base delay and doubles with every attempt until it meets the maximum. */
  lemma CapDoubles(attempt: nat, baseDelayMs: nat, maxDelayMs: nat)
    requires attempt >= 1
    ensures BackoffCap(1, baseDelayMs, maxDelayMs) == if baseDelayMs <= maxDelayMs then baseDelayMs else maxDelayMs
    ensures var cap := BackoffCap(attempt, baseDelayMs, maxDelayMs);
            BackoffCap(attempt + 1, baseDelayMs, maxDelayMs) == if 2 * cap <= maxDelayMs then 2 * cap else maxDelayMs
  {
    var p := Pow2(attempt - 1);
    assert baseDelayMs * Pow2(attempt) == 2 * (baseDelayMs * p);
  }

  /**
   What the waits after the first `retries` failed attempts add up to: each is the fraction Math.random
   drew of a ceiling that starts at the base delay and doubles up to the maximum.
   */
  ghost function SleptAfter(retries: nat, draw: nat -> real, baseDelayMs: nat, maxDelayMs: nat): real {
    if retries == 0 then 0.0
    else SleptAfter(retries - 1, draw, baseDelayMs, maxDelayMs) + draw(retries) * CapAfter(retries, baseDelayMs, maxDelayMs) as real
  }

  ghost function CapAfter(attempt: nat, baseDelayMs: nat, maxDelayMs: nat): nat
    requires attempt >= 1
  {
    var next := if attempt == 1 then baseDelayMs else 2 * CapAfter(attempt - 1, baseDelayMs, maxDelayMs);
    if next <= maxDelayMs then next else maxDelayMs
  }

  lemma {:induction false} CapIsCapAfter(attempt: nat, baseDelayMs: nat, maxDelayMs: nat)
    requires attempt >= 1
    ensures BackoffCap(attempt, baseDelayMs, maxDelayMs) == CapAfter(attempt, baseDelayMs, maxDelayMs)
  {
    if attempt > 1 {
      CapIsCapAfter(attempt - 1, baseDelayMs, maxDelayMs);
      CapDoubles(attempt - 1, baseDelayMs, maxDelayMs);
    }
  }

  lemma SleptStep(attempt: nat, draw: nat -> real, baseDelayMs: nat, maxDelayMs: nat)
    requires attempt >= 1 && 0.0 <= draw(attempt) < 1.0
    ensures SleptAfter(attempt, draw, baseDelayMs, maxDelayMs)
            == SleptAfter(attempt - 1, draw, baseDelayMs, maxDelayMs)
               + BackoffDelay(BackoffCap(attempt, baseDelayMs, maxDelayMs), draw(attempt))
  {
    CapIsCapAfter(attempt, baseDelayMs, maxDelayMs);
    SleptUnfolds(attempt, draw, baseDelayMs, maxDelayMs);
  }

  lemma SleptUnfolds(attempt: nat, draw: nat -> real, baseDelayMs: nat, maxDelayMs: nat)
    requires attempt >= 1 && 0.0 <= draw(attempt) < 1.0
    ensures SleptAfter(attempt, draw, baseDelayMs, maxDelayMs)
            == SleptAfter(attempt - 1, draw, baseDelayMs, maxDelayMs)
               + BackoffDelay(CapAfter(attempt, baseDelayMs, maxDelayMs), draw(attempt))
  {
  }

  /** The waits never add up to more than the maximum each, nor than the doubling base delay allows. */
  lemma {:induction false} SleptBounds(retries: nat, draw: nat -> real, baseDelayMs: nat, maxDelayMs: nat)
    requires forall k :: 0.0 <= draw(k) < 1.0
    ensures 0.0 <= SleptAfter(retries, draw, baseDelayMs, maxDelayMs) <= (retries * maxDelayMs) as real
    ensures SleptAfter(retries, draw, baseDelayMs, maxDelayMs) <= (baseDelayMs * (Pow2(retries) - 1)) as real
  {
    if retries > 0 {
      SleptBounds(retries - 1, draw, baseDelayMs, maxDelayMs);
      SleptStep(retries, draw, baseDelayMs, maxDelayMs);
      var cap := BackoffCap(retries, baseDelayMs, maxDelayMs);
      var delay := BackoffDelay(cap, draw(retries));
      var slept := SleptAfter(retries - 1, draw, baseDelayMs, maxDelayMs);
      CapBounds(retries, baseDelayMs, maxDelayMs);
      LinearStep(slept, delay, cap, retries, maxDelayMs);
      GeometricStep(slept, delay, cap, retries, baseDelayMs);
    }
  }

  // ---------------------------------------------------------------- the consumer

  /** Attempt numbers start at 1; `ok(k)` says whether the handler call number k succeeds. */
  ghost predicate FirstSuccess(ok: nat -> bool, k: nat) {
    1 <= k && ok(k) && forall j :: 1 <= j < k ==> !ok(j)
  }

  class Consumer {
    const group: string
    const topic: string
    const maxAttempts: int
    const baseDelayMs: nat
    const maxDelayMs: nat
    var dlqTopicEnsured: bool
    var dlq: seq<DlqRecord>

    constructor (group: string, topic: string, maxAttempts: int, baseDelayMs: nat, maxDelayMs: nat)
      ensures this.group == group && this.topic == topic && this.maxAttempts == maxAttempts
      ensures this.baseDelayMs == baseDelayMs && this.maxDelayMs == maxDelayMs
      ensures !dlqTopicEnsured && dlq == []
    {
      this.group, this.topic, this.maxAttempts := group, topic, maxAttempts;
      this.baseDelayMs, this.maxDelayMs := baseDelayMs, maxDelayMs;
      dlqTopicEnsured, dlq := false, [];
    }

    /**
     Creating the topic, on the first use only, and sending can each fail; a lost acknowledgement leaves the
     record on the topic and still throws.
     */
    twostate predicate Parks(record: DlqRecord, topicOk: bool, reply: SendReply, threw: bool)
      reads this
    {
      var reached := old(dlqTopicEnsured) || topicOk;
      && dlqTopicEnsured == reached
      && dlq == old(dlq) + (if reached && !reply.NotSent? then [record] else [])
      && (threw <==> !(reached && reply.Acked?))
    }

    method ParkOnDlq(record: DlqRecord, topicOk: bool, reply: SendReply) returns (threw: bool)
      modifies this
      ensures Parks(record, topicOk, reply, threw)
    {
      if !dlqTopicEnsured {
        if !topicOk {
          return true;
        }
        dlqTopicEnsured := true;
      }
      match reply {
        case Acked =>
          dlq := dlq + [record];
          return false;
        case AckLost =>
          dlq := dlq + [record];
          return true;
        case NotSent =>
          return true;
      }
    }

    twostate predicate LeavesTopicAlone(threw: bool)
      reads this
    {
      dlq == old(dlq) && dlqTopicEnsured == old(dlqTopicEnsured) && !threw
    }

    /**
     eachMessage. `ok` and `draw` are what the handler and Math.random do on each attempt, `topicOk`
     and `reply` what the broker answers if the message is parked. The result is how often the
     handler was called, how long the retries slept and whether the callback threw. Exactly one of
     three things happens: the message is empty, some attempt succeeds, or parking is tried once.
     */
    method EachMessage(offset: nat, message: Message, ok: nat -> bool, draw: nat -> real, topicOk: bool, reply: SendReply)
        returns (calls: nat, slept: real, threw: bool)
      requires forall k :: 0.0 <= draw(k) < 1.0
      modifies this
      ensures message.value.Missing? ==> calls == 0 && slept == 0.0 && LeavesTopicAlone(threw)
      ensures message.value.Malformed? ==>
                && calls == 0 && slept == 0.0
                && Parks(DlqRecord(MalformedJson, group, topic, offset, message.key, 1, None, Some(message.value.text)),
                         topicOk, reply, threw)
      ensures (message.value.Json? || message.value.JsonNull?) && maxAttempts >= 1 ==>
                && 1 <= calls <= maxAttempts
                && ((exists k: nat :: k <= maxAttempts && FirstSuccess(ok, k)) ==>
                      FirstSuccess(ok, calls) && LeavesTopicAlone(threw))
                && ((forall k :: 1 <= k <= maxAttempts ==> !ok(k)) ==>
                      && calls == maxAttempts
                      && Parks(DlqRecord(HandlerFailed, group, topic, offset, message.key, calls,
                                         if message.value.Json? then Some(message.value.envelope) else None, None),
                               topicOk, reply, threw))
      ensures maxAttempts < 1 && !message.value.Malformed? ==> calls == 0 && LeavesTopicAlone(threw)
      ensures calls >= 1 ==> slept == SleptAfter(calls - 1, draw, baseDelayMs, maxDelayMs)
      ensures calls >= 1 ==> 0.0 <= slept <= ((calls - 1) * maxDelayMs) as real
      ensures calls >= 1 ==> slept <= (baseDelayMs * (Pow2(calls - 1) - 1)) as real
    {
      calls, slept, threw := 0, 0.0, false;
      match message.value {
        case Missing =>
          return;
        case Malformed(_) =>
          threw := ParkOnDlq(ParkMalformed(group, topic, offset, message), topicOk, reply);
          return;
        case _ =>
      }
      var attempt := 1;
      while attempt <= maxAttempts
        invariant 1 <= attempt
        invariant attempt <= maxAttempts + 1 || maxAttempts < 1
        invariant calls == attempt - 1
        invariant calls >= 1 ==> calls < maxAttempts
        invariant forall j :: 1 <= j < attempt ==> !ok(j)
        invariant LeavesTopicAlone(threw)
        invariant slept == SleptAfter(attempt - 1, draw, baseDelayMs, maxDelayMs)
        decreases maxAttempts - attempt
      {
        calls := calls + 1;
        SleptBounds(attempt - 1, draw, baseDelayMs, maxDelayMs);
        if ok(attempt) {
          return;
        }
        if attempt == maxAttempts {
          threw := ParkOnDlq(ParkFailed(group, topic, offset, message, attempt), topicOk, reply);
          return;
        }
        slept := slept + BackoffDelay(BackoffCap(attempt, baseDelayMs, maxDelayMs), draw(attempt));
        SleptStep(attempt, draw, baseDelayMs, maxDelayMs);
        attempt := attempt + 1;
      }
    }
  }
}
