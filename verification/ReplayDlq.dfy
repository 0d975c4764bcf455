/** The dead-letter replay loop of scripts/replay-dlq.ts. */
module ReplayDlq {
  import opened Options
  import opened EventConsumer
  import opened EventSchema

  /** A message on the dead-letter topic: no value, not JSON, or a parked record. */
  datatype Entry = Empty | Garbage | Record(record: DlqRecord)

  datatype Sent = Sent(topic: string, key: Option<string>, envelope: Envelope)

  predicate Replayable(e: Entry) {
    e.Record? && e.record.envelope.Some?
  }

  function Republish(r: DlqRecord): Sent
    requires r.envelope.Some?
  {
    Sent(r.originalTopic, r.originalKey, r.envelope.value)
  }

  /** What a replay of these entries sends, in order. */
  function Replays(entries: seq<Entry>): seq<Sent> {
    if |entries| == 0 then []
    else
      var e := entries[|entries| - 1];
      Replays(entries[..|entries| - 1]) + if Replayable(e) then [Republish(e.record)] else []
  }

  function Skips(entries: seq<Entry>): nat {
    if |entries| == 0 then 0
    else
      var e := entries[|entries| - 1];
      Skips(entries[..|entries| - 1]) + if e.Garbage? || (e.Record? && !Replayable(e)) then 1 else 0
  }

  function Empties(entries: seq<Entry>): nat {
    if |entries| == 0 then 0
    else Empties(entries[..|entries| - 1]) + if entries[|entries| - 1].Empty? then 1 else 0
  }

  lemma {:induction false} Accounting(entries: seq<Entry>)
    ensures |Replays(entries)| + Skips(entries) + Empties(entries) == |entries|
    ensures Empties(entries) == 0 <==> forall i :: 0 <= i < |entries| ==> !entries[i].Empty?
  {
    if |entries| > 0 {
      Accounting(entries[..|entries| - 1]);
    }
  }

  /** What one more entry adds: a record with an envelope is sent to its own topic under its own key, any other is not. */
  lemma {:induction false} OneEntryMore(entries: seq<Entry>, e: Entry)
    ensures Replays(entries + [e])
            == Replays(entries)
               + (match e
                  case Record(r) =>
                    if r.envelope.Some? then [Sent(r.originalTopic, r.originalKey, r.envelope.value)] else []
                  case _ => [])
    ensures Skips(entries + [e]) == Skips(entries) + (if e.Garbage? || (e.Record? && e.record.envelope.None?) then 1 else 0)
  {
    assert (entries + [e])[..|entries|] == entries;
  }

  /**
   Has some message's callback resolved the promise? Each one counts itself as seen, returns early if
   it is empty or unparseable, and resolves if the count has reached the summed high watermark.
   */
  predicate Resolved(entries: seq<Entry>, highWatermark: nat) {
    if |entries| == 0 then false
    else
      || Resolved(entries[..|entries| - 1], highWatermark)
      || (entries[|entries| - 1].Record? && |entries| >= highWatermark)
  }

  /**
   The script ends exactly when a record, not an empty or unparseable message, stands at or after
   the place the watermark counts to. So it never ends when fewer messages are delivered than the
   watermark says, as when old ones have expired, even if all are records; and on a topic delivered
   in full it ends exactly when the last message is a record.
   */
  lemma {:induction false} ReplayEndsIff(entries: seq<Entry>, highWatermark: nat)
    requires highWatermark >= 1
    ensures Resolved(entries, highWatermark) <==> exists i :: highWatermark - 1 <= i < |entries| && entries[i].Record?
    ensures |entries| < highWatermark ==> !Resolved(entries, highWatermark)
    ensures |entries| == highWatermark ==> (Resolved(entries, highWatermark) <==> entries[|entries| - 1].Record?)
  {
    if |entries| > 0 {
      var prev := entries[..|entries| - 1];
      ReplayEndsIff(prev, highWatermark);
      forall i | 0 <= i < |prev|
        ensures prev[i] == entries[i]
      {
      }
      if i: int :| highWatermark - 1 <= i < |entries| && entries[i].Record? {
        assert i < |prev| ==> prev[i].Record?;
      }
    }
  }

  /** The number of messages seen when the promise is resolved. */
  ghost predicate ResolvesAt(entries: seq<Entry>, highWatermark: nat, n: nat) {
    1 <= n <= |entries| && !Resolved(entries[..n - 1], highWatermark) && Resolved(entries[..n], highWatermark)
  }

  /**
   The callbacks on the messages Kafka delivers. `resolved` is whether the promise the script awaits
   is ever fulfilled; when it is not, the script hangs after the last message. When it is, `more`
   further callbacks run before the consumer has disconnected, as far as there are messages.
   */
  method ReplayAll(entries: seq<Entry>, highWatermark: nat, dryRun: bool, more: nat)
      returns (seen: nat, replayed: nat, skipped: nat, sent: seq<Sent>, resolved: bool)
    ensures highWatermark == 0 ==> seen == 0 && resolved
    ensures highWatermark > 0 ==> (resolved <==> Resolved(entries, highWatermark))
    ensures highWatermark > 0 && resolved ==>
              exists n: nat :: ResolvesAt(entries, highWatermark, n) && entries[n - 1].Record? && n >= highWatermark
                               && seen == if n + more <= |entries| then n + more else |entries|
    ensures seen <= |entries| && (!resolved ==> seen == |entries|)
    ensures sent == if dryRun then [] else Replays(entries[..seen])
    ensures replayed == |Replays(entries[..seen])| && skipped == Skips(entries[..seen])
    ensures replayed + skipped + Empties(entries[..seen]) == seen
  {
    seen, replayed, skipped, sent, resolved := 0, 0, 0, [], highWatermark == 0;
    var left: nat := if resolved then 0 else more;
    ghost var at: nat := 0;
    while seen < |entries| && (!resolved || left > 0)
      invariant seen <= |entries|
      invariant highWatermark == 0 ==> seen == 0 && resolved && left == 0
      invariant highWatermark > 0 && !resolved ==> !Resolved(entries[..seen], highWatermark) && left == more
      invariant highWatermark > 0 && resolved ==>
                  && ResolvesAt(entries, highWatermark, at) && entries[at - 1].Record? && at >= highWatermark
                  && seen == at + (more - left) && left <= more
      invariant sent == if dryRun then [] else Replays(entries[..seen])
      invariant replayed == |Replays(entries[..seen])| && skipped == Skips(entries[..seen])
      decreases |entries| - seen
    {
      var e := entries[seen];
      assert entries[..seen + 1][..seen] == entries[..seen];
      if resolved {
        left := left - 1;
      }
      seen := seen + 1;
      match e {
        case Empty =>
        case Garbage =>
          skipped := skipped + 1;
        case Record(record) =>
          if record.envelope.None? {
            skipped := skipped + 1;
          } else {
            if !dryRun {
              sent := sent + [Republish(record)];
            }
            replayed := replayed + 1;
          }
          if seen >= highWatermark && !resolved {
            resolved := true;
            at := seen;
          }
      }
    }
    Accounting(entries[..seen]);
    if highWatermark > 0 && resolved {
      ResolvedStays(entries, highWatermark, at);
    }
    assert entries[..|entries|] == entries;
  }

  lemma {:induction false} ResolvedStays(entries: seq<Entry>, highWatermark: nat, n: nat)
    requires n <= |entries| && Resolved(entries[..n], highWatermark)
    ensures Resolved(entries, highWatermark)
    decreases |entries|
  {
    if n < |entries| {
      assert entries[..|entries| - 1][..n] == entries[..n];
      ResolvedStays(entries[..|entries| - 1], highWatermark, n);
    } else {
      assert entries[..n] == entries;
    }
  }

  /** seen = replayed + skipped exactly when no message was empty. */
  lemma {:induction false} CountsAddUpIff(entries: seq<Entry>)
    ensures |Replays(entries)| + Skips(entries) == |entries| <==> forall i :: 0 <= i < |entries| ==> !entries[i].Empty?
  {
    Accounting(entries);
  }

  // ---------------------------------------------------------------- park, then replay

  /** The dead-letter entries the consumer parks for these messages, first offset `first`. */
  function ParkedEntries(group: string, topic: string, first: nat, messages: seq<Message>, attempts: int): seq<Entry> {
    if |messages| == 0 then []
    else
      var last := |messages| - 1;
      var m := messages[last];
      ParkedEntries(group, topic, first, messages[..last], attempts)
      + [Record(if m.value.Malformed? then ParkMalformed(group, topic, first + last, m)
                else ParkFailed(group, topic, first + last, m, attempts))]
  }

  /** The messages that carried an envelope, as they were on their own topic. */
  function Originals(topic: string, messages: seq<Message>): seq<Sent> {
    if |messages| == 0 then []
    else
      var m := messages[|messages| - 1];
      Originals(topic, messages[..|messages| - 1])
      + if m.value.Json? then [Sent(topic, m.key, m.value.envelope)] else []
  }

  /**
   Park then replay is a round trip: it republishes exactly the messages that had an envelope, in
   order, each with its own topic, key and envelope; and it always runs to its end.
   */
  lemma {:induction false} ParkReplayRoundTrip(group: string, topic: string, first: nat, messages: seq<Message>, attempts: int)
    ensures var entries := ParkedEntries(group, topic, first, messages, attempts);
            && |entries| == |messages|
            && (forall i :: 0 <= i < |entries| ==> entries[i].Record?)
            && Replays(entries) == Originals(topic, messages)
            && |Replays(entries)| + Skips(entries) == |messages|
            && (|messages| > 0 ==> Resolved(entries, |entries|))
  {
    var entries := ParkedEntries(group, topic, first, messages, attempts);
    if |messages| > 0 {
      var last := |messages| - 1;
      ParkReplayRoundTrip(group, topic, first, messages[..last], attempts);
      assert entries[..last] == ParkedEntries(group, topic, first, messages[..last], attempts);
    }
    Accounting(entries);
  }

  /** The JSON text `null` is parked with neither an envelope nor its raw text: no replay brings it back. */
  lemma NullIsUnrecoverable(group: string, topic: string, offset: nat, key: Option<string>, attempts: int)
    ensures var r := ParkFailed(group, topic, offset, Message(key, JsonNull), attempts);
            r.envelope.None? && r.rawValue.None? && !Replayable(Record(r))
  {
  }
}
