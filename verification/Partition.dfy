/**
 One partition of a Kafka topic delivered to a consumer group: fetch, attempts, parking, offset
 commits, crashes and dead-letter replays. What the handler does is left to the service that is
 joined to it. The group subscribes with fromBeginning: false, so messages produced before it first
 subscribed (`seed`) are never delivered, and until it has committed an offset every restart takes
 it to the end of the log.
 */
module Partition {
  import opened EventConsumer
  import opened EventSchema
  import opened Options

  /** `joined` says whether the broker already holds an offset of this group, the end of `seed`. */
  datatype Config = Config(group: string, topic: string, maxAttempts: int, seed: seq<Message>, joined: bool)

  /** `Busy` without a process is a handler that throws before it reaches the service. */
  datatype Worker = Idle | Busy(attempt: nat, pid: Option<nat>) | Parking(record: DlqRecord)

  /** `base` is where the group began reading: fixed once the broker holds an offset of it. */
  datatype State = State(
    log: seq<Message>,
    base: nat,
    committed: Option<nat>,
    position: nat,
    dlq: seq<DlqRecord>,
    worker: Worker
  )

  datatype Step =
    | Produce(message: Message)
    | Replay(index: nat)
    | Fetch
    | Finish
    | Park(reply: SendReply)
    | CommitOffset(offset: nat)
    | Crash

  /** How an attempt at the message opens: the handler returns at once, throws at once, or starts this process. */
  datatype Opening = Passes | Throws | Runs(pid: nat)

  /** What has become of the attempt at hand. */
  datatype Attempt = Underway | Returned | Threw

  function Init(c: Config): State {
    State(c.seed, |c.seed|, if c.joined then Some(|c.seed|) else None, |c.seed|, [], Idle)
  }

  predicate AtEnvelope(s: State) {
    s.position < |s.log| && (s.log[s.position].value.Json? || s.log[s.position].value.JsonNull?)
  }

  /** Is this step the start of an attempt at the current message? */
  predicate Starts(c: Config, s: State, step: Step, attempt: Attempt) {
    match step
    case Fetch => AtEnvelope(s) && s.worker.Idle? && c.maxAttempts >= 1
    case Finish => s.position < |s.log| && s.worker.Busy? && attempt.Threw? && s.worker.attempt < c.maxAttempts
    case _ => false
  }

  function Settle(s: State): State {
    s.(position := s.position + 1, worker := Idle)
  }

  /** The consumer comes back at its committed offset, or at the end of the log if it has none. */
  function Restart(s: State): State {
    match s.committed
    case Some(o) => s.(position := o, worker := Idle)
    case None => s.(base := |s.log|, position := |s.log|, worker := Idle)
  }

  function Begin(s: State, number: nat, opening: Opening): State {
    match opening
    case Passes => Settle(s)
    case Throws => s.(worker := Busy(number, None))
    case Runs(pid) => s.(worker := Busy(number, Some(pid)))
  }

  /** Offsets the group has yet to deal with start here, as far as the broker knows. */
  function LowestOffset(s: State): nat {
    if s.committed.Some? then s.committed.value else s.base
  }

  function Exec(c: Config, s: State, step: Step, opening: Opening, attempt: Attempt): State {
    match step
    case Produce(m) => s.(log := s.log + [m])
    case Replay(k) =>
      if k < |s.dlq| && s.dlq[k].envelope.Some? && s.dlq[k].originalTopic == c.topic then
        s.(log := s.log + [Message(s.dlq[k].originalKey, Json(s.dlq[k].envelope.value))])
      else s
    case Fetch =>
      if s.position >= |s.log| || !s.worker.Idle? then s
      else
        var m := s.log[s.position];
        (match m.value
         case Missing => Settle(s)
         case Malformed(_) => s.(worker := Parking(ParkMalformed(c.group, c.topic, s.position, m)))
         case _ => if c.maxAttempts < 1 then Settle(s) else Begin(s, 1, opening))
    case Finish =>
      if s.position >= |s.log| || !s.worker.Busy? || attempt.Underway? then s
      else if attempt.Returned? then Settle(s)
      else if s.worker.attempt < c.maxAttempts then Begin(s, s.worker.attempt + 1, opening)
      else s.(worker := Parking(ParkFailed(c.group, c.topic, s.position, s.log[s.position], s.worker.attempt)))
    case Park(reply) =>
      if !s.worker.Parking? then s
      else
        (match reply
         case Acked => Settle(s.(dlq := s.dlq + [s.worker.record]))
         case AckLost => Restart(s.(dlq := s.dlq + [s.worker.record]))
         case NotSent => Restart(s))
    case CommitOffset(o) => if LowestOffset(s) <= o <= s.position then s.(committed := Some(o)) else s
    case Crash => Restart(s)
  }

  // ---------------------------------------------------------------- settled offsets

  predicate RecordFor(c: Config, r: DlqRecord, offset: nat, m: Message) {
    match m.value
    case Missing => false
    case Malformed(_) => r == ParkMalformed(c.group, c.topic, offset, m)
    case _ => r == ParkFailed(c.group, c.topic, offset, m, c.maxAttempts)
  }

  ghost predicate Parked(c: Config, s: State, offset: nat)
    requires offset < |s.log|
  {
    exists k :: 0 <= k < |s.dlq| && RecordFor(c, s.dlq[k], offset, s.log[offset])
  }

  /**
   The record of a message, field by field: where it came from, its key, and either the raw text with
   one attempt or the envelope with every attempt the consumer makes.
   */
  predicate Describes(c: Config, r: DlqRecord, offset: nat, m: Message) {
    && r.group == c.group && r.originalTopic == c.topic && r.originalOffset == offset && r.originalKey == m.key
    && !m.value.Missing?
    && (m.value.Malformed? ==>
          r.reason == MalformedJson && r.attempts == 1 && r.envelope == None && r.rawValue == Some(m.value.text))
    && (!m.value.Malformed? ==>
          && r.reason == HandlerFailed && r.attempts == c.maxAttempts && r.rawValue == None
          && r.envelope == if m.value.Json? then Some(m.value.envelope) else None)
  }

  /** A message is parked exactly when such a record of it is on the dead-letter topic. */
  lemma ParkedIff(c: Config, s: State, offset: nat)
    requires offset < |s.log|
    ensures Parked(c, s, offset) <==> exists k :: 0 <= k < |s.dlq| && Describes(c, s.dlq[k], offset, s.log[offset])
  {
    forall k | 0 <= k < |s.dlq|
      ensures RecordFor(c, s.dlq[k], offset, s.log[offset]) <==> Describes(c, s.dlq[k], offset, s.log[offset])
    {
    }
  }

  /** The message a dead-letter record was made of: with neither an envelope nor a text it was a JSON null. */
  ghost function Recovered(r: DlqRecord): Message {
    Message(r.originalKey,
            match r.envelope
            case Some(envelope) => Json(envelope)
            case None => if r.rawValue.Some? then Malformed(r.rawValue.value) else JsonNull)
  }

  /** Parking loses nothing: the message at a parked offset, key and value, can be told from its record. */
  lemma ParkingRecovers(c: Config, s: State, offset: nat)
    requires offset < |s.log| && Parked(c, s, offset)
    ensures exists k :: 0 <= k < |s.dlq| && s.dlq[k].originalOffset == offset && Recovered(s.dlq[k]) == s.log[offset]
  {
    ParkedIff(c, s, offset);
    var k :| 0 <= k < |s.dlq| && Describes(c, s.dlq[k], offset, s.log[offset]);
    assert Recovered(s.dlq[k]) == s.log[offset];
  }

  /** Empty, on the dead-letter topic, or handled in the service's own sense. */
  ghost predicate Settled(c: Config, s: State, offset: nat, handled: Value -> bool)
    requires offset < |s.log|
  {
    s.log[offset].value.Missing? || Parked(c, s, offset) || handled(s.log[offset].value)
  }

  predicate WorkerOk(c: Config, s: State) {
    match s.worker
    case Idle => true
    case Busy(n, _) => AtEnvelope(s) && 1 <= n <= c.maxAttempts
    case Parking(r) => s.position < |s.log| && RecordFor(c, r, s.position, s.log[s.position])
  }

  /** Everything from where the group began reading up to where it is now has been settled. */
  ghost predicate AllSettled(c: Config, s: State, handled: Value -> bool) {
    && |c.seed| <= s.base <= LowestOffset(s) <= s.position <= |s.log|
    && forall o :: s.base <= o < s.position ==> Settled(c, s, o, handled)
  }

  /** The service vouches for a message it passes, and for one whose attempt has returned. */
  predicate Vouches(c: Config, s: State, step: Step, opening: Opening, attempt: Attempt, handled: Value -> bool) {
    s.position < |s.log| ==>
      && (Starts(c, s, step, attempt) && opening.Passes? ==> handled(s.log[s.position].value))
      && (s.worker.Busy? && attempt.Returned? ==> handled(s.log[s.position].value))
  }

  lemma ExecGrows(c: Config, s: State, step: Step, opening: Opening, attempt: Attempt)
    ensures s.log <= Exec(c, s, step, opening, attempt).log && s.dlq <= Exec(c, s, step, opening, attempt).dlq
  {
  }

  lemma SettledStays(c: Config, s: State, t: State, o: nat, handled: Value -> bool)
    requires o < |s.log| && Settled(c, s, o, handled) && s.log <= t.log && s.dlq <= t.dlq
    ensures Settled(c, t, o, handled)
  {
    assert t.log[o] == s.log[o];
    if Parked(c, s, o) {
      var k :| 0 <= k < |s.dlq| && RecordFor(c, s.dlq[k], o, s.log[o]);
      assert t.dlq[k] == s.dlq[k];
    }
  }

  /** Where the worker can be after a step: still here, past this message, or where a restart takes it. */
  lemma PositionAfter(c: Config, s: State, step: Step, opening: Opening, attempt: Attempt)
    requires WorkerOk(c, s) && s.base <= LowestOffset(s) <= s.position <= |s.log|
    ensures var t := Exec(c, s, step, opening, attempt);
            && s.base <= t.base <= LowestOffset(t) <= t.position <= |t.log|
            && (t.position <= s.position || t.position == s.position + 1 || t.base == t.position)
            && (t.base == s.base || t.base == t.position)
            && (s.committed.Some? ==> t.committed.Some? && t.base == s.base)
  {
  }

  lemma AdvanceSettles(c: Config, s: State, step: Step, opening: Opening, attempt: Attempt, handled: Value -> bool)
    requires c.maxAttempts >= 1 && WorkerOk(c, s) && s.base <= LowestOffset(s) <= s.position <= |s.log|
    requires Vouches(c, s, step, opening, attempt, handled)
    requires var t := Exec(c, s, step, opening, attempt); t.position == s.position + 1 && t.base <= s.position
    ensures var t := Exec(c, s, step, opening, attempt); s.position < |t.log| && Settled(c, t, s.position, handled)
  {
    var t := Exec(c, s, step, opening, attempt);
    if step.Park? {
      assert t.dlq[|s.dlq|] == s.worker.record;
    }
  }

  lemma SettledCarries(c: Config, s: State, t: State, handled: Value -> bool)
    requires AllSettled(c, s, handled) && s.log <= t.log && s.dlq <= t.dlq
    requires s.base <= t.base <= LowestOffset(t) <= t.position <= |t.log|
    requires t.position <= s.position || t.base == t.position
             || (t.position == s.position + 1 && Settled(c, t, s.position, handled))
    ensures AllSettled(c, t, handled)
  {
    forall o | t.base <= o < t.position
      ensures Settled(c, t, o, handled)
    {
      if o < s.position {
        SettledStays(c, s, t, o, handled);
      }
    }
  }

  /** Every step keeps the worker in order and everything behind it settled. */
  lemma ExecSettles(c: Config, s: State, step: Step, opening: Opening, attempt: Attempt, handled: Value -> bool)
    requires c.maxAttempts >= 1 && WorkerOk(c, s) && AllSettled(c, s, handled)
    requires Vouches(c, s, step, opening, attempt, handled)
    ensures var t := Exec(c, s, step, opening, attempt); WorkerOk(c, t) && AllSettled(c, t, handled)
  {
    var t := Exec(c, s, step, opening, attempt);
    ExecGrows(c, s, step, opening, attempt);
    PositionAfter(c, s, step, opening, attempt);
    if t.position == s.position + 1 && t.base <= s.position {
      AdvanceSettles(c, s, step, opening, attempt, handled);
    }
    SettledCarries(c, s, t, handled);
  }

  lemma SettledWeakens(c: Config, s: State, handled: Value -> bool, also: Value -> bool)
    requires AllSettled(c, s, handled) && forall v :: handled(v) ==> also(v)
    ensures AllSettled(c, s, also)
  {
    forall o | s.base <= o < s.position
      ensures Settled(c, s, o, also)
    {
      assert Settled(c, s, o, handled);
    }
  }

  /** No message since the group first subscribed has been committed past without being dealt with. */
  ghost predicate NothingLost(c: Config, s: State, handled: Value -> bool) {
    s.committed.Some? ==>
      && |c.seed| <= s.committed.value <= |s.log|
      && forall o :: |c.seed| <= o < s.committed.value ==> Settled(c, s, o, handled)
  }

  /** A group that had an offset to begin with has read from the end of `seed` ever since. */
  predicate JoinedOk(c: Config, s: State) {
    c.joined ==> s.committed.Some? && s.base == |c.seed|
  }

  lemma ExecKeepsJoined(c: Config, s: State, step: Step, opening: Opening, attempt: Attempt)
    requires JoinedOk(c, s)
    ensures JoinedOk(c, Exec(c, s, step, opening, attempt))
  {
  }

  lemma JoinedLosesNothing(c: Config, s: State, handled: Value -> bool)
    requires AllSettled(c, s, handled) && JoinedOk(c, s) && c.joined
    ensures NothingLost(c, s, handled)
  {
  }

  // ---------------------------------------------------------------- records and replays

  /** Every record on the dead-letter topic is of the message at its offset. */
  ghost predicate RecordsOk(c: Config, s: State) {
    forall k :: 0 <= k < |s.dlq| ==>
      s.dlq[k].originalOffset < |s.log| && Describes(c, s.dlq[k], s.dlq[k].originalOffset, s.log[s.dlq[k].originalOffset])
  }

  lemma ExecKeepsRecords(c: Config, s: State, step: Step, opening: Opening, attempt: Attempt)
    requires WorkerOk(c, s) && RecordsOk(c, s)
    ensures RecordsOk(c, Exec(c, s, step, opening, attempt))
  {
    var t := Exec(c, s, step, opening, attempt);
    ExecGrows(c, s, step, opening, attempt);
    forall k | 0 <= k < |t.dlq|
      ensures t.dlq[k].originalOffset < |t.log| && Describes(c, t.dlq[k], t.dlq[k].originalOffset, t.log[t.dlq[k].originalOffset])
    {
      if k < |s.dlq| {
        assert t.dlq[k] == s.dlq[k];
      }
    }
  }

  /** A replay puts the parked message itself back on the topic, key and envelope, if it had an envelope. */
  lemma ReplayBringsBack(c: Config, s: State, k: nat, opening: Opening, attempt: Attempt)
    requires RecordsOk(c, s) && k < |s.dlq|
    ensures var o := s.dlq[k].originalOffset;
            && o < |s.log|
            && Exec(c, s, Replay(k), opening, attempt) == if s.log[o].value.Json? then s.(log := s.log + [s.log[o]]) else s
  {
  }

  // ---------------------------------------------------------------- one message, left alone

  /** Attempt number `n` is underway; the consumer goes on until it is done with the message or parks it. */
  ghost function Attempts(c: Config, s: State, ok: nat -> bool, pids: nat -> nat, n: nat): State
    requires n <= c.maxAttempts
    decreases c.maxAttempts - n
  {
    var t := Exec(c, s, Finish, Runs(pids(n + 1)), if ok(n) then Returned else Threw);
    if t.worker.Busy? && n < c.maxAttempts then Attempts(c, t, ok, pids, n + 1) else t
  }

  /**
   The steps on one message do what `Consumer.EachMessage` does: attempt number 1, 2, ... until the
   first that succeeds, after which the message is passed with no record of it, or until the last, after
   which its record is parked and it is passed when the send is acknowledged.
   */
  lemma {:induction false} AttemptsFollowTheLoop(c: Config, s: State, ok: nat -> bool, pids: nat -> nat, n: nat)
    requires AtEnvelope(s) && 1 <= n <= c.maxAttempts && s.worker == Busy(n, Some(pids(n)))
    requires forall j :: 1 <= j < n ==> !ok(j)
    ensures var t := Attempts(c, s, ok, pids, n);
            && ((exists k: nat :: k <= c.maxAttempts && FirstSuccess(ok, k)) ==>
                  t == s.(position := s.position + 1, worker := Idle))
            && ((forall k :: 1 <= k <= c.maxAttempts ==> !ok(k)) ==>
                  t.worker.Parking? && Describes(c, t.worker.record, s.position, s.log[s.position])
                  && t == s.(worker := t.worker))
    decreases c.maxAttempts - n
  {
    if ok(n) {
      assert FirstSuccess(ok, n);
    } else if n < c.maxAttempts {
      AttemptsFollowTheLoop(c, s.(worker := Busy(n + 1, Some(pids(n + 1)))), ok, pids, n + 1);
    }
  }

  /** A park that fails, with or without its record, and a crash resume where the broker's offset says. */
  lemma RestartResumes(c: Config, s: State, step: Step, opening: Opening, attempt: Attempt)
    requires step.Crash? || (step.Park? && !step.reply.Acked? && s.worker.Parking?)
    ensures var t := Exec(c, s, step, opening, attempt);
            && t.log == s.log && t.committed == s.committed && t.worker.Idle?
            && t.position == (if s.committed.Some? then s.committed.value else |s.log|)
            && t.dlq == s.dlq + if step.Park? && step.reply.AckLost? then [s.worker.record] else []
  {
  }

  // ---------------------------------------------------------------- how a message is lost

  /** With no attempt to make, the loop body never runs and the offset moves past an unhandled message. */
  lemma NoAttemptSkips(c: Config, s: State, opening: Opening, attempt: Attempt)
    requires c.maxAttempts < 1 && s.worker.Idle? && AtEnvelope(s)
    ensures Exec(c, s, Fetch, opening, attempt) == s.(position := s.position + 1)
  {
  }

  lemma EmptyIsPassed(c: Config, s: State, opening: Opening, attempt: Attempt)
    requires s.worker.Idle? && s.position < |s.log| && s.log[s.position].value.Missing?
    ensures Exec(c, s, Fetch, opening, attempt) == s.(position := s.position + 1)
  {
  }

  lemma CommitMoves(c: Config, s: State, opening: Opening, attempt: Attempt)
    requires LowestOffset(s) <= s.position
    ensures Exec(c, s, CommitOffset(s.position), opening, attempt) == s.(committed := Some(s.position))
  {
  }

  /** A message is being attempted when the host dies, before the group's first commit. */
  lemma AttemptThenCrash(c: Config, s: State, opening: Opening, attempt: Attempt, next: Opening, later: Attempt)
    requires c.maxAttempts >= 1 && s.worker.Idle? && s.committed.None? && AtEnvelope(s) && !opening.Passes?
    ensures Exec(c, Exec(c, s, Fetch, opening, attempt), Crash, next, later) == s.(base := |s.log|, position := |s.log|)
  {
  }

  /** What is left of a run that lost the first message the group was to read. */
  ghost predicate HasLost(c: Config, s: State) {
    && |s.log| > |c.seed| && s.log[|c.seed|].value.JsonNull? && s.dlq == []
    && s.committed.Some? && |c.seed| < s.committed.value <= |s.log|
  }

  lemma LostIsLost(c: Config, s: State, handled: Value -> bool)
    requires HasLost(c, s) && !handled(JsonNull)
    ensures !NothingLost(c, s, handled)
  {
    assert !Settled(c, s, |c.seed|, handled);
  }
}
