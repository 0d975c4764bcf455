/**
 The redelivery guard of dispatch: ride-requested.consumer.ts checks the expiring ledger of
 idempotency-store.ts, runs the matching of `Dispatch`, and only then marks the event. Any number
 of events are delivered and redelivered; a delivery can fail at any point, the mark included.
 */
module DispatchLedger {
  import opened EventSchema
  import opened Options
  import D = Dispatch

  /** The two times to live: of a reservation key and of a ledger key. */
  datatype Config = Config(reservationTtl: nat, ledgerTtl: nat)

  /** After its matching run has returned, a delivery marks its event or fails to. */
  datatype Stage = Underway | Marked(at: int) | Unmarked

  datatype Delivery = Delivery(eventId: string, begunAt: int, stage: Stage)

  /** `ledger` gives the time each key runs out; `runs` the delivery behind each matching run. */
  datatype State = State(dispatch: D.State, ledger: map<string, int>, runs: map<nat, Delivery>)

  /** A mark whose reply is lost is a `Mark` too: the key is written, and the event redelivered. */
  datatype Step =
    | Deliver(pid: nat, eventId: string, ride: string)
    | Dispatching(step: D.Step)
    | Mark(pid: nat)
    | MarkFails(pid: nat)

  const INIT := State(D.INIT, map[], map[])

  predicate Seen(ledger: map<string, int>, eventId: string, now: int) {
    eventId in ledger && now < ledger[eventId]
  }

  /** The matching run of this delivery has returned and the mark is what comes next. */
  predicate AtMark(s: State, pid: nat) {
    && pid in s.runs && s.runs[pid].stage.Underway?
    && pid in s.dispatch.procs && s.dispatch.procs[pid].phase.Finished?
  }

  function SetStage(s: State, pid: nat, stage: Stage): State
    requires pid in s.runs
  {
    s.(runs := s.runs[pid := s.runs[pid].(stage := stage)])
  }

  /** A delivery of an event in the ledger is skipped; any other begins a matching run. */
  function Exec(c: Config, s: State, step: Step): State {
    match step
    case Deliver(pid, eventId, ride) =>
      if pid in s.dispatch.procs || Seen(s.ledger, eventId, s.dispatch.now) then s
      else
        s.(dispatch := D.Exec(c.reservationTtl, s.dispatch, D.Begin(pid, ride)),
           runs := s.runs[pid := Delivery(eventId, s.dispatch.now, Underway)])
    case Dispatching(d) => if d.Begin? then s else s.(dispatch := D.Exec(c.reservationTtl, s.dispatch, d))
    case Mark(pid) =>
      if AtMark(s, pid) then
        SetStage(s, pid, Marked(s.dispatch.now)).(
          ledger := s.ledger[s.runs[pid].eventId := s.dispatch.now + c.ledgerTtl])
      else s
    case MarkFails(pid) => if AtMark(s, pid) then SetStage(s, pid, Unmarked) else s
  }

  function Run(c: Config, steps: seq<Step>): State {
    if |steps| == 0 then INIT else Exec(c, Run(c, steps[..|steps| - 1]), steps[|steps| - 1])
  }

  lemma RunSnoc(c: Config, steps: seq<Step>, step: Step)
    ensures Run(c, steps + [step]) == Exec(c, Run(c, steps), step)
  {
    assert (steps + [step])[..|steps|] == steps;
  }

  // ---------------------------------------------------------------- the deliveries of one event

  predicate IsOpen(s: State, pid: nat) {
    pid in s.runs && s.runs[pid].stage.Underway? && !(pid in s.dispatch.procs && s.dispatch.procs[pid].phase.Failed?)
  }

  function RunsOf(s: State, eventId: string): set<nat> {
    set pid | pid in s.runs && s.runs[pid].eventId == eventId
  }

  function OpenRuns(s: State, eventId: string): set<nat> {
    set pid | pid in RunsOf(s, eventId) && IsOpen(s, pid)
  }

  function MarkedRuns(s: State, eventId: string): set<nat> {
    set pid | pid in RunsOf(s, eventId) && s.runs[pid].stage.Marked?
  }

  /** Deliveries that threw, in the matching or at the mark. */
  function FailedRuns(s: State, eventId: string): set<nat> {
    set pid | pid in RunsOf(s, eventId) && !IsOpen(s, pid) && !s.runs[pid].stage.Marked?
  }

  function CountIn(pids: seq<nat>, those: set<nat>): nat {
    if |pids| == 0 then 0 else CountIn(pids[..|pids| - 1], those) + if pids[|pids| - 1] in those then 1 else 0
  }

  function GrantPids(grants: seq<D.Grant>): (pids: seq<nat>)
    ensures |pids| == |grants|
  {
    seq(|grants|, i requires 0 <= i < |grants| => grants[i].pid)
  }

  function PublicationPids(published: seq<D.Publication>): (pids: seq<nat>)
    ensures |pids| == |published|
  {
    seq(|published|, i requires 0 <= i < |published| => published[i].pid)
  }

  /** How many drivers were reserved on behalf of this event. */
  function EventGrants(s: State, eventId: string): nat {
    CountIn(GrantPids(s.dispatch.grants), RunsOf(s, eventId))
  }

  /** How many outcomes were published on behalf of this event. */
  function EventOutcomes(s: State, eventId: string): nat {
    CountIn(PublicationPids(s.dispatch.published), RunsOf(s, eventId))
  }

  lemma {:induction false} CountSplit(pids: seq<nat>, those: set<nat>, pid: nat)
    requires pid in those
    ensures CountIn(pids, those) == CountIn(pids, those - {pid}) + CountIn(pids, {pid})
  {
    if |pids| > 0 {
      CountSplit(pids[..|pids| - 1], those, pid);
    }
  }

  lemma {:induction false} CountNone(pids: seq<nat>)
    ensures CountIn(pids, {}) == 0
  {
    if |pids| > 0 {
      CountNone(pids[..|pids| - 1]);
    }
  }

  /** If each of these processes occurs at most, or at least, once, so many entries are theirs. */
  lemma {:induction false} CountBounds(pids: seq<nat>, those: set<nat>)
    ensures (forall p :: p in those ==> CountIn(pids, {p}) <= 1) ==> CountIn(pids, those) <= |those|
    ensures (forall p :: p in those ==> CountIn(pids, {p}) >= 1) ==> CountIn(pids, those) >= |those|
    decreases |those|
  {
    if those == {} {
      CountNone(pids);
    } else {
      var p :| p in those;
      CountSplit(pids, those, p);
      CountBounds(pids, those - {p});
    }
  }

  lemma {:induction false} CountGrows(pids: seq<nat>, few: set<nat>, many: set<nat>)
    requires few <= many
    ensures CountIn(pids, few) <= CountIn(pids, many)
  {
    if |pids| > 0 {
      CountGrows(pids[..|pids| - 1], few, many);
    }
  }

  lemma {:induction false} GrantCounts(grants: seq<D.Grant>, pid: nat)
    ensures CountIn(GrantPids(grants), {pid}) == D.GrantsBy(grants, pid)
  {
    if |grants| > 0 {
      GrantCounts(grants[..|grants| - 1], pid);
      assert GrantPids(grants)[..|grants| - 1] == GrantPids(grants[..|grants| - 1]);
    }
  }

  lemma {:induction false} PublicationCounts(published: seq<D.Publication>, pid: nat)
    ensures CountIn(PublicationPids(published), {pid}) == D.PublishedBy(published, pid)
  {
    if |published| > 0 {
      PublicationCounts(published[..|published| - 1], pid);
      assert PublicationPids(published)[..|published| - 1] == PublicationPids(published[..|published| - 1]);
    }
  }

  // ---------------------------------------------------------------- accounting

  ghost predicate Inv(c: Config, s: State) {
    && D.Inv(c.reservationTtl, s.dispatch)
    && s.runs.Keys == s.dispatch.procs.Keys
    && forall pid :: pid in s.runs ==>
         s.runs[pid].begunAt <= s.dispatch.now && (!s.runs[pid].stage.Underway? ==> s.dispatch.procs[pid].phase.Finished?)
  }

  /** A matching run that can still reserve or publish. */
  predicate Acting(s: D.State, pid: nat) {
    pid in s.procs && !s.procs[pid].phase.Finished? && !s.procs[pid].phase.Failed?
  }

  /** A step of the matching runs that begins none, seen from the ledger. */
  ghost predicate MatchingStep(s: D.State, t: D.State) {
    && s.now <= t.now && t.procs.Keys == s.procs.Keys
    && s.grants <= t.grants && s.published <= t.published
    && (forall i :: |s.grants| <= i < |t.grants| ==> Acting(s, t.grants[i].pid) && t.grants[i].at == s.now)
    && (forall i :: |s.published| <= i < |t.published| ==> Acting(s, t.published[i].pid) && t.published[i].at == s.now)
    && forall pid :: pid in s.procs ==>
         && (s.procs[pid].phase.Finished? ==> t.procs[pid] == s.procs[pid])
         && (s.procs[pid].phase.Failed? ==> t.procs[pid].phase.Failed?)
  }

  lemma DispatchMatches(ttl: nat, s: D.State, step: D.Step)
    requires !step.Begin?
    ensures MatchingStep(s, D.Exec(ttl, s, step))
  {
  }

  /** A delivery that is not skipped begins a fresh matching run. */
  lemma DeliveryBegins(c: Config, s: State, step: Step)
    requires step.Deliver? && Exec(c, s, step) != s
    ensures step.pid !in s.dispatch.procs && !Seen(s.ledger, step.eventId, s.dispatch.now)
    ensures Exec(c, s, step)
            == s.(dispatch := s.dispatch.(procs := s.dispatch.procs[step.pid := D.Proc(step.ride, D.Searching, [], [])]),
                  runs := s.runs[step.pid := Delivery(step.eventId, s.dispatch.now, Underway)])
  {
  }

  lemma DispatchingKeepsRuns(c: Config, s: State, dispatch: D.State)
    requires Inv(c, s) && MatchingStep(s.dispatch, dispatch) && D.Inv(c.reservationTtl, dispatch)
    ensures Inv(c, s.(dispatch := dispatch))
  {
  }

  lemma DeliveryKeepsInv(c: Config, s: State, step: Step)
    requires Inv(c, s) && step.Deliver? && Exec(c, s, step) != s
    ensures Inv(c, Exec(c, s, step))
  {
    DeliveryBegins(c, s, step);
    D.ExecKeepsInv(c.reservationTtl, s.dispatch, D.Begin(step.pid, step.ride));
  }

  lemma MarkKeepsInv(c: Config, s: State, t: State, pid: nat, stage: Stage)
    requires Inv(c, s) && AtMark(s, pid) && t.dispatch == s.dispatch && t.runs == s.runs[pid := s.runs[pid].(stage := stage)]
    ensures Inv(c, t)
  {
  }

  lemma ExecKeepsInv(c: Config, s: State, step: Step)
    requires Inv(c, s)
    ensures Inv(c, Exec(c, s, step))
  {
    match step {
      case Deliver(_, _, _) =>
        if Exec(c, s, step) != s {
          DeliveryKeepsInv(c, s, step);
        }
      case Dispatching(d) =>
        if !d.Begin? {
          D.ExecKeepsInv(c.reservationTtl, s.dispatch, d);
          DispatchMatches(c.reservationTtl, s.dispatch, d);
          DispatchingKeepsRuns(c, s, D.Exec(c.reservationTtl, s.dispatch, d));
        }
      case Mark(pid) =>
        if AtMark(s, pid) {
          MarkKeepsInv(c, s, Exec(c, s, step), pid, Marked(s.dispatch.now));
        }
      case MarkFails(pid) =>
        if AtMark(s, pid) {
          MarkKeepsInv(c, s, Exec(c, s, step), pid, Unmarked);
        }
    }
  }

  lemma {:induction false} RunInv(c: Config, steps: seq<Step>)
    ensures Inv(c, Run(c, steps))
  {
    if |steps| > 0 {
      RunInv(c, steps[..|steps| - 1]);
      ExecKeepsInv(c, Run(c, steps[..|steps| - 1]), steps[|steps| - 1]);
    }
  }

  lemma RunsPartition(s: State, eventId: string)
    ensures |RunsOf(s, eventId)| == |FailedRuns(s, eventId)| + |MarkedRuns(s, eventId)| + |OpenRuns(s, eventId)|
  {
    var failed, marked, open := FailedRuns(s, eventId), MarkedRuns(s, eventId), OpenRuns(s, eventId);
    assert failed !! marked && (failed + marked) !! open;
    assert RunsOf(s, eventId) == failed + marked + open;
  }

  lemma CountsPerRun(c: Config, s: State, pid: nat)
    requires Inv(c, s)
    ensures CountIn(GrantPids(s.dispatch.grants), {pid}) <= 1
    ensures CountIn(PublicationPids(s.dispatch.published), {pid}) <= 1
    ensures pid in s.runs && s.runs[pid].stage.Marked? ==> CountIn(PublicationPids(s.dispatch.published), {pid}) == 1
  {
    assert D.CountsOk(s.dispatch, pid);
    GrantCounts(s.dispatch.grants, pid);
    PublicationCounts(s.dispatch.published, pid);
  }

  lemma AccountsOf(c: Config, s: State, eventId: string)
    requires Inv(c, s)
    ensures EventGrants(s, eventId) <= |RunsOf(s, eventId)| && EventOutcomes(s, eventId) <= |RunsOf(s, eventId)|
    ensures |MarkedRuns(s, eventId)| <= EventOutcomes(s, eventId)
  {
    forall pid: nat
      ensures CountIn(GrantPids(s.dispatch.grants), {pid}) <= 1
      ensures CountIn(PublicationPids(s.dispatch.published), {pid}) <= 1
      ensures pid in MarkedRuns(s, eventId) ==> CountIn(PublicationPids(s.dispatch.published), {pid}) == 1
    {
      CountsPerRun(c, s, pid);
    }
    CountBounds(GrantPids(s.dispatch.grants), RunsOf(s, eventId));
    CountBounds(PublicationPids(s.dispatch.published), RunsOf(s, eventId));
    CountBounds(PublicationPids(s.dispatch.published), MarkedRuns(s, eventId));
    CountGrows(PublicationPids(s.dispatch.published), MarkedRuns(s, eventId), RunsOf(s, eventId));
  }

  /**
   Redelivery accounting: over all runs, the drivers reserved and the outcomes published for one
   event are each at most its failed deliveries plus its marks, not counting those still underway;
   and every mark stands for a published outcome.
   */
  lemma {:induction false} RedeliveryAccounting(c: Config, steps: seq<Step>, eventId: string)
    ensures var s := Run(c, steps);
            var failed, marks, open := |FailedRuns(s, eventId)|, |MarkedRuns(s, eventId)|, |OpenRuns(s, eventId)|;
            && EventGrants(s, eventId) <= failed + marks + open
            && EventOutcomes(s, eventId) <= failed + marks + open
            && marks <= EventOutcomes(s, eventId)
  {
    RunInv(c, steps);
    RunsPartition(Run(c, steps), eventId);
    AccountsOf(c, Run(c, steps), eventId);
  }

  // ---------------------------------------------------------------- sequential deliveries

  ghost predicate OneAtATime(s: State, eventId: string) {
    forall p, q :: p in OpenRuns(s, eventId) && q in OpenRuns(s, eventId) ==> p == q
  }

  /** The deliveries of this event never overlap, as they do not on one partition. */
  ghost predicate Sequential(c: Config, steps: seq<Step>, eventId: string) {
    forall k :: 0 <= k <= |steps| ==> OneAtATime(Run(c, steps[..k]), eventId)
  }

  lemma SequentialPrefix(c: Config, steps: seq<Step>, eventId: string, n: nat)
    requires Sequential(c, steps, eventId) && n <= |steps|
    ensures Sequential(c, steps[..n], eventId)
  {
    forall k | 0 <= k <= n
      ensures OneAtATime(Run(c, steps[..n][..k]), eventId)
    {
      assert steps[..n][..k] == steps[..k];
    }
  }

  /** Sequential deliveries leave at most one of them out of the account. */
  lemma {:induction false} SequentialAccounting(c: Config, steps: seq<Step>, eventId: string)
    requires Sequential(c, steps, eventId)
    ensures var s := Run(c, steps);
            |OpenRuns(s, eventId)| <= 1
            && EventGrants(s, eventId) <= |FailedRuns(s, eventId)| + |MarkedRuns(s, eventId)| + 1
            && EventOutcomes(s, eventId) <= |FailedRuns(s, eventId)| + |MarkedRuns(s, eventId)| + 1
  {
    RedeliveryAccounting(c, steps, eventId);
    assert steps[..|steps|] == steps;
    var open := OpenRuns(Run(c, steps), eventId);
    if open != {} {
      var p :| p in open;
      assert open == {p};
    }
  }

  /** The ledger outlasts every mark by a TTL, and what is underway began after that. */
  ghost predicate MarksHold(c: Config, s: State, eventId: string) {
    forall q :: q in MarkedRuns(s, eventId) ==>
      && eventId in s.ledger && s.runs[q].stage.at + c.ledgerTtl <= s.ledger[eventId]
      && s.runs[q].stage.at <= s.dispatch.now
      && forall p :: p in OpenRuns(s, eventId) ==> s.runs[q].stage.at + c.ledgerTtl <= s.runs[p].begunAt
  }

  lemma DispatchKeepsMarks(c: Config, s: State, dispatch: D.State, eventId: string)
    requires MarksHold(c, s, eventId) && MatchingStep(s.dispatch, dispatch)
    ensures MarksHold(c, s.(dispatch := dispatch), eventId)
  {
    var t := s.(dispatch := dispatch);
    assert MarkedRuns(t, eventId) == MarkedRuns(s, eventId);
    assert OpenRuns(t, eventId) <= OpenRuns(s, eventId);
  }

  lemma DeliverKeepsMarks(c: Config, s: State, step: Step, eventId: string)
    requires Inv(c, s) && MarksHold(c, s, eventId) && step.Deliver? && Exec(c, s, step) != s
    ensures MarksHold(c, Exec(c, s, step), eventId)
  {
    DeliveryBegins(c, s, step);
    NewRunKeepsMarks(c, s, Exec(c, s, step), step.pid, step.eventId, eventId);
  }

  lemma NewRunKeepsMarks(c: Config, s: State, t: State, pid: nat, own: string, eventId: string)
    requires MarksHold(c, s, eventId) && pid !in s.runs && !Seen(s.ledger, own, s.dispatch.now)
    requires t.ledger == s.ledger && t.dispatch.now == s.dispatch.now
    requires t.runs == s.runs[pid := Delivery(own, s.dispatch.now, Underway)]
    requires forall p :: p in s.runs && IsOpen(t, p) ==> IsOpen(s, p)
    ensures MarksHold(c, t, eventId)
  {
    assert MarkedRuns(t, eventId) == MarkedRuns(s, eventId);
    assert OpenRuns(t, eventId) <= OpenRuns(s, eventId) + {pid};
  }

  lemma SetStageSets(s: State, t: State, pid: nat, stage: Stage, eventId: string)
    requires AtMark(s, pid) && t.runs == s.runs[pid := s.runs[pid].(stage := stage)] && t.dispatch == s.dispatch
    requires !stage.Underway?
    ensures OpenRuns(t, eventId) == OpenRuns(s, eventId) - {pid}
    ensures MarkedRuns(t, eventId)
            == MarkedRuns(s, eventId) + if stage.Marked? && s.runs[pid].eventId == eventId then {pid} else {}
  {
  }

  /** The mark of one run, of this event or another, keeps what the marks of the event hold. */
  lemma MarkSetKeepsMarks(c: Config, s: State, t: State, pid: nat, stage: Stage, eventId: string)
    requires MarksHold(c, s, eventId) && OneAtATime(s, eventId) && AtMark(s, pid)
    requires t.dispatch == s.dispatch && t.runs == s.runs[pid := s.runs[pid].(stage := stage)]
    requires stage.Unmarked? ==> t.ledger == s.ledger
    requires stage.Marked? ==> stage.at == s.dispatch.now && t.ledger == s.ledger[s.runs[pid].eventId := s.dispatch.now + c.ledgerTtl]
    requires !stage.Underway?
    ensures MarksHold(c, t, eventId)
  {
    SetStageSets(s, t, pid, stage, eventId);
    if s.runs[pid].eventId == eventId {
      assert pid in OpenRuns(s, eventId);
      assert OpenRuns(t, eventId) == {};
    }
  }

  lemma MarkKeepsMarks(c: Config, s: State, step: Step, eventId: string)
    requires MarksHold(c, s, eventId) && OneAtATime(s, eventId) && (step.Mark? || step.MarkFails?)
    ensures MarksHold(c, Exec(c, s, step), eventId)
  {
    if AtMark(s, step.pid) {
      MarkSetKeepsMarks(c, s, Exec(c, s, step), step.pid, if step.Mark? then Marked(s.dispatch.now) else Unmarked, eventId);
    }
  }

  lemma StepKeepsMarks(c: Config, s: State, step: Step, eventId: string)
    requires Inv(c, s) && MarksHold(c, s, eventId) && OneAtATime(s, eventId)
    ensures MarksHold(c, Exec(c, s, step), eventId)
  {
    match step {
      case Deliver(_, _, _) =>
        if Exec(c, s, step) != s {
          DeliverKeepsMarks(c, s, step, eventId);
        }
      case Dispatching(d) =>
        if !d.Begin? {
          DispatchMatches(c.reservationTtl, s.dispatch, d);
          DispatchKeepsMarks(c, s, D.Exec(c.reservationTtl, s.dispatch, d), eventId);
        }
      case _ => MarkKeepsMarks(c, s, step, eventId);
    }
  }

  lemma {:induction false} RunKeepsMarks(c: Config, steps: seq<Step>, eventId: string)
    requires Sequential(c, steps, eventId)
    ensures MarksHold(c, Run(c, steps), eventId)
  {
    if |steps| > 0 {
      var prev := steps[..|steps| - 1];
      SequentialPrefix(c, steps, eventId, |steps| - 1);
      RunKeepsMarks(c, prev, eventId);
      RunInv(c, prev);
      assert OneAtATime(Run(c, steps[..|steps| - 1]), eventId);
      StepKeepsMarks(c, Run(c, prev), steps[|steps| - 1], eventId);
    }
  }

  /** Everything done for this event from `s` to `t` happened no earlier than `time`. */
  ghost predicate NothingBefore(s: State, t: State, eventId: string, time: int) {
    && (forall i :: |s.dispatch.grants| <= i < |t.dispatch.grants| && t.dispatch.grants[i].pid in RunsOf(t, eventId)
                    ==> time <= t.dispatch.grants[i].at)
    && (forall i :: |s.dispatch.published| <= i < |t.dispatch.published| && t.dispatch.published[i].pid in RunsOf(t, eventId)
                    ==> time <= t.dispatch.published[i].at)
    && (forall p :: p in MarkedRuns(t, eventId) && p !in MarkedRuns(s, eventId) ==> time <= t.runs[p].stage.at)
  }

  /** Events of deliveries, marks and records are never revised. */
  ghost predicate Extends(s: State, t: State) {
    && s.dispatch.grants <= t.dispatch.grants && s.dispatch.published <= t.dispatch.published
    && forall pid :: pid in s.runs ==>
         && pid in t.runs && t.runs[pid].eventId == s.runs[pid].eventId
         && (s.runs[pid].stage.Marked? ==> t.runs[pid] == s.runs[pid])
  }

  /** Whatever is new in `t` was done at the time of `s`, by a delivery then underway. */
  ghost predicate NewIsByOpen(s: State, t: State) {
    && (forall i :: |s.dispatch.grants| <= i < |t.dispatch.grants| ==>
          IsOpen(s, t.dispatch.grants[i].pid) && t.dispatch.grants[i].at == s.dispatch.now)
    && (forall i :: |s.dispatch.published| <= i < |t.dispatch.published| ==>
          IsOpen(s, t.dispatch.published[i].pid) && t.dispatch.published[i].at == s.dispatch.now)
    && (forall p :: p in t.runs && t.runs[p].stage.Marked? && !(p in s.runs && s.runs[p].stage.Marked?) ==>
          IsOpen(s, p) && t.runs[p].stage.at == s.dispatch.now)
  }

  lemma DispatchIsByOpen(c: Config, s: State, dispatch: D.State)
    requires Inv(c, s) && MatchingStep(s.dispatch, dispatch)
    ensures Extends(s, s.(dispatch := dispatch)) && NewIsByOpen(s, s.(dispatch := dispatch))
  {
  }

  lemma DeliveryIsByOpen(s: State, t: State, pid: nat, delivery: Delivery)
    requires pid !in s.runs && delivery.stage.Underway? && t.runs == s.runs[pid := delivery]
    requires t.dispatch.grants == s.dispatch.grants && t.dispatch.published == s.dispatch.published
    ensures Extends(s, t) && NewIsByOpen(s, t)
  {
  }

  lemma MarkIsByOpen(s: State, t: State, pid: nat, stage: Stage)
    requires AtMark(s, pid) && (stage == Marked(s.dispatch.now) || stage.Unmarked?)
    requires t.dispatch == s.dispatch && t.runs == s.runs[pid := s.runs[pid].(stage := stage)]
    ensures Extends(s, t) && NewIsByOpen(s, t)
  {
  }

  lemma StepIsByOpen(c: Config, s: State, step: Step)
    requires Inv(c, s)
    ensures Extends(s, Exec(c, s, step)) && NewIsByOpen(s, Exec(c, s, step))
  {
    if Exec(c, s, step) != s {
      match step {
        case Deliver(pid, eventId, _) =>
          DeliveryBegins(c, s, step);
          DeliveryIsByOpen(s, Exec(c, s, step), pid, Delivery(eventId, s.dispatch.now, Underway));
        case Dispatching(d) =>
          DispatchMatches(c.reservationTtl, s.dispatch, d);
          DispatchIsByOpen(c, s, D.Exec(c.reservationTtl, s.dispatch, d));
        case Mark(pid) =>
          MarkIsByOpen(s, Exec(c, s, step), pid, Marked(s.dispatch.now));
        case MarkFails(pid) =>
          MarkIsByOpen(s, Exec(c, s, step), pid, Unmarked);
      }
    }
  }

  /** A key in the ledger was written by a mark. */
  ghost predicate KeysMarked(s: State) {
    forall e :: e in s.ledger ==> MarkedRuns(s, e) != {}
  }

  lemma MarkedStays(s: State, t: State, eventId: string)
    requires Extends(s, t) && MarkedRuns(s, eventId) != {}
    ensures MarkedRuns(t, eventId) != {}
  {
    var pid :| pid in MarkedRuns(s, eventId);
    assert pid in MarkedRuns(t, eventId);
  }

  lemma KeysAfter(c: Config, s: State, step: Step)
    ensures var t := Exec(c, s, step);
            t.ledger == s.ledger
            || (step.Mark? && step.pid in s.runs && step.pid in MarkedRuns(t, s.runs[step.pid].eventId)
                && t.ledger.Keys == s.ledger.Keys + {s.runs[step.pid].eventId})
  {
  }

  lemma {:induction false} RunKeysMarked(c: Config, steps: seq<Step>)
    ensures KeysMarked(Run(c, steps))
  {
    if |steps| > 0 {
      var prev, step := steps[..|steps| - 1], steps[|steps| - 1];
      var s, t := Run(c, prev), Run(c, steps);
      RunKeysMarked(c, prev);
      RunInv(c, prev);
      StepIsByOpen(c, s, step);
      KeysAfter(c, s, step);
      forall e | e in t.ledger
        ensures MarkedRuns(t, e) != {}
      {
        if e in s.ledger {
          MarkedStays(s, t, e);
        }
      }
    }
  }

  /** What is done after a mark is done by a delivery that began a TTL after it. */
  lemma AfterMark(c: Config, s: State, t: State, eventId: string, q: nat)
    requires Inv(c, s) && MarksHold(c, s, eventId) && q in MarkedRuns(s, eventId)
    requires Extends(s, t) && NewIsByOpen(s, t)
    ensures NothingBefore(s, t, eventId, s.runs[q].stage.at + c.ledgerTtl)
  {
    var time := s.runs[q].stage.at + c.ledgerTtl;
    forall p | p in RunsOf(t, eventId) && IsOpen(s, p)
      ensures time <= s.dispatch.now
    {
      assert p in OpenRuns(s, eventId);
    }
  }

  /** A grant or publication belongs to a run that is there. */
  ghost predicate ActorsKnown(s: State) {
    && (forall i :: 0 <= i < |s.dispatch.grants| ==> s.dispatch.grants[i].pid in s.runs)
    && (forall i :: 0 <= i < |s.dispatch.published| ==> s.dispatch.published[i].pid in s.runs)
  }

  lemma ActorsStayKnown(s: State, t: State)
    requires ActorsKnown(s) && Extends(s, t) && NewIsByOpen(s, t)
    ensures ActorsKnown(t)
  {
  }

  lemma {:induction false} RunKnowsActors(c: Config, steps: seq<Step>)
    ensures ActorsKnown(Run(c, steps))
  {
    if |steps| > 0 {
      var prev := steps[..|steps| - 1];
      RunKnowsActors(c, prev);
      RunInv(c, prev);
      StepIsByOpen(c, Run(c, prev), steps[|steps| - 1]);
      ActorsStayKnown(Run(c, prev), Run(c, steps));
    }
  }

  lemma NothingBeforeChains(r: State, s: State, t: State, eventId: string, time: int)
    requires NothingBefore(r, s, eventId, time) && NothingBefore(s, t, eventId, time)
    requires Extends(s, t) && ActorsKnown(s)
    ensures NothingBefore(r, t, eventId, time)
  {
    forall i | |r.dispatch.grants| <= i < |t.dispatch.grants| && t.dispatch.grants[i].pid in RunsOf(t, eventId)
      ensures time <= t.dispatch.grants[i].at
    {
      if i < |s.dispatch.grants| {
        assert t.dispatch.grants[i] == s.dispatch.grants[i];
      }
    }
    forall i | |r.dispatch.published| <= i < |t.dispatch.published| && t.dispatch.published[i].pid in RunsOf(t, eventId)
      ensures time <= t.dispatch.published[i].at
    {
      if i < |s.dispatch.published| {
        assert t.dispatch.published[i] == s.dispatch.published[i];
      }
    }
  }

  lemma QuietAfterMark(c: Config, r: State, s: State, step: Step, eventId: string, q: nat)
    requires Inv(c, s) && MarksHold(c, s, eventId) && ActorsKnown(s) && q in MarkedRuns(s, eventId)
    requires NothingBefore(r, s, eventId, s.runs[q].stage.at + c.ledgerTtl)
    ensures var t := Exec(c, s, step);
            && q in MarkedRuns(t, eventId) && t.runs[q] == s.runs[q]
            && NothingBefore(r, t, eventId, s.runs[q].stage.at + c.ledgerTtl)
  {
    var t := Exec(c, s, step);
    StepIsByOpen(c, s, step);
    AfterMark(c, s, t, eventId, q);
    NothingBeforeChains(r, s, t, eventId, s.runs[q].stage.at + c.ledgerTtl);
  }

  /**
   Nothing within a TTL of a mark: when deliveries of an event come one after another, whatever is
   reserved, published or marked for it after one of its marks comes at least the ledger TTL later.
   */
  lemma {:induction false} NothingWithinTtlOfMark(c: Config, steps: seq<Step>, eventId: string, k: nat, q: nat)
    requires Sequential(c, steps, eventId)
    requires k <= |steps| && q in MarkedRuns(Run(c, steps[..k]), eventId)
    ensures q in MarkedRuns(Run(c, steps), eventId) && Run(c, steps).runs[q] == Run(c, steps[..k]).runs[q]
    ensures NothingBefore(Run(c, steps[..k]), Run(c, steps), eventId, Run(c, steps).runs[q].stage.at + c.ledgerTtl)
    decreases |steps|
  {
    if k < |steps| {
      var prev := steps[..|steps| - 1];
      SequentialPrefix(c, steps, eventId, |steps| - 1);
      assert prev[..k] == steps[..k];
      NothingWithinTtlOfMark(c, prev, eventId, k, q);
      RunInv(c, prev);
      RunKeepsMarks(c, prev, eventId);
      RunKnowsActors(c, prev);
      QuietAfterMark(c, Run(c, steps[..k]), Run(c, prev), steps[|steps| - 1], eventId, q);
    } else {
      assert steps[..k] == steps;
    }
  }

  // ---------------------------------------------------------------- what the ledger remembers

  /** Every mark keeps its event in the ledger for a TTL at least, and one of them for exactly that long. */
  ghost predicate LedgerOk(c: Config, s: State, eventId: string) {
    && (forall q :: q in MarkedRuns(s, eventId) ==>
          s.runs[q].stage.at <= s.dispatch.now && eventId in s.ledger && s.runs[q].stage.at + c.ledgerTtl <= s.ledger[eventId])
    && (eventId in s.ledger ==>
          exists q :: q in MarkedRuns(s, eventId) && s.ledger[eventId] == s.runs[q].stage.at + c.ledgerTtl)
  }

  lemma QuietKeepsLedger(c: Config, s: State, t: State, eventId: string)
    requires LedgerOk(c, s, eventId) && s.dispatch.now <= t.dispatch.now && t.ledger == s.ledger
    requires MarkedRuns(t, eventId) == MarkedRuns(s, eventId)
    requires forall q :: q in MarkedRuns(s, eventId) ==> t.runs[q] == s.runs[q]
    ensures LedgerOk(c, t, eventId)
  {
    if eventId in s.ledger {
      var q :| q in MarkedRuns(s, eventId) && s.ledger[eventId] == s.runs[q].stage.at + c.ledgerTtl;
      assert q in MarkedRuns(t, eventId) && t.ledger[eventId] == t.runs[q].stage.at + c.ledgerTtl;
    }
  }

  lemma MarkSetKeepsLedger(c: Config, s: State, t: State, pid: nat, eventId: string)
    requires LedgerOk(c, s, eventId) && AtMark(s, pid) && t.dispatch == s.dispatch
    requires t.runs == s.runs[pid := s.runs[pid].(stage := Marked(s.dispatch.now))]
    requires t.ledger == s.ledger[s.runs[pid].eventId := s.dispatch.now + c.ledgerTtl]
    ensures LedgerOk(c, t, eventId)
  {
    SetStageSets(s, t, pid, Marked(s.dispatch.now), eventId);
    if s.runs[pid].eventId == eventId {
      assert pid in MarkedRuns(t, eventId) && t.ledger[eventId] == t.runs[pid].stage.at + c.ledgerTtl;
    } else if eventId in s.ledger {
      var q :| q in MarkedRuns(s, eventId) && s.ledger[eventId] == s.runs[q].stage.at + c.ledgerTtl;
      assert q in MarkedRuns(t, eventId) && t.ledger[eventId] == t.runs[q].stage.at + c.ledgerTtl;
    }
  }

  lemma DispatchKeepsLedger(c: Config, s: State, dispatch: D.State, eventId: string)
    requires LedgerOk(c, s, eventId) && MatchingStep(s.dispatch, dispatch)
    ensures LedgerOk(c, s.(dispatch := dispatch), eventId)
  {
    QuietKeepsLedger(c, s, s.(dispatch := dispatch), eventId);
  }

  lemma DeliverKeepsLedger(c: Config, s: State, step: Step, eventId: string)
    requires Inv(c, s) && LedgerOk(c, s, eventId) && step.Deliver? && Exec(c, s, step) != s
    ensures LedgerOk(c, Exec(c, s, step), eventId)
  {
    DeliveryBegins(c, s, step);
    NewRunKeepsLedger(c, s, Exec(c, s, step), step.pid, step.eventId, eventId);
  }

  lemma NewRunKeepsLedger(c: Config, s: State, t: State, pid: nat, own: string, eventId: string)
    requires LedgerOk(c, s, eventId) && pid !in s.runs && t.ledger == s.ledger && t.dispatch.now == s.dispatch.now
    requires t.runs == s.runs[pid := Delivery(own, s.dispatch.now, Underway)]
    ensures LedgerOk(c, t, eventId)
  {
    assert MarkedRuns(t, eventId) == MarkedRuns(s, eventId);
    QuietKeepsLedger(c, s, t, eventId);
  }

  lemma MarkKeepsLedger(c: Config, s: State, step: Step, eventId: string)
    requires LedgerOk(c, s, eventId) && (step.Mark? || step.MarkFails?)
    ensures LedgerOk(c, Exec(c, s, step), eventId)
  {
    var t := Exec(c, s, step);
    if AtMark(s, step.pid) {
      if step.Mark? {
        MarkSetKeepsLedger(c, s, t, step.pid, eventId);
      } else {
        SetStageSets(s, t, step.pid, Unmarked, eventId);
        QuietKeepsLedger(c, s, t, eventId);
      }
    }
  }

  lemma StepKeepsLedger(c: Config, s: State, step: Step, eventId: string)
    requires Inv(c, s) && LedgerOk(c, s, eventId)
    ensures LedgerOk(c, Exec(c, s, step), eventId)
  {
    match step {
      case Deliver(_, _, _) =>
        if Exec(c, s, step) != s {
          DeliverKeepsLedger(c, s, step, eventId);
        }
      case Dispatching(d) =>
        if !d.Begin? {
          DispatchMatches(c.reservationTtl, s.dispatch, d);
          DispatchKeepsLedger(c, s, D.Exec(c.reservationTtl, s.dispatch, d), eventId);
        }
      case _ => MarkKeepsLedger(c, s, step, eventId);
    }
  }

  lemma {:induction false} RunKeepsLedger(c: Config, steps: seq<Step>, eventId: string)
    ensures LedgerOk(c, Run(c, steps), eventId)
  {
    if |steps| > 0 {
      var prev := steps[..|steps| - 1];
      RunKeepsLedger(c, prev, eventId);
      RunInv(c, prev);
      StepKeepsLedger(c, Run(c, prev), steps[|steps| - 1], eventId);
    }
  }

  ghost predicate MarkedWithinTtl(c: Config, s: State, eventId: string) {
    exists q :: q in MarkedRuns(s, eventId) && s.dispatch.now < s.runs[q].stage.at + c.ledgerTtl
  }

  /**
   In every run, overlapping deliveries or not: a fresh delivery is skipped exactly when its event has
   been marked within the ledger TTL; any other starts a matching run for its ride on its behalf.
   */
  lemma {:induction false} SkippedIff(c: Config, steps: seq<Step>, pid: nat, eventId: string, ride: string)
    requires pid !in Run(c, steps).dispatch.procs
    ensures var s, t := Run(c, steps), Run(c, steps + [Deliver(pid, eventId, ride)]);
            && (MarkedWithinTtl(c, s, eventId) ==> t == s)
            && (!MarkedWithinTtl(c, s, eventId) ==>
                  && pid in t.dispatch.procs && t.dispatch.procs[pid] == D.Proc(ride, D.Searching, [], [])
                  && pid in RunsOf(t, eventId) && pid in OpenRuns(t, eventId))
  {
    RunSnoc(c, steps, Deliver(pid, eventId, ride));
    RunKeepsLedger(c, steps, eventId);
    var s := Run(c, steps);
    assert Seen(s.ledger, eventId, s.dispatch.now) <==> MarkedWithinTtl(c, s, eventId);
  }

  /** A delivery of an event that is not in the ledger finds no driver, and publishes the rejection. */
  lemma RejectedDelivery(c: Config, steps: seq<Step>, pid: nat, eventId: string, ride: string) returns (more: seq<Step>)
    requires var s := Run(c, steps); pid !in s.dispatch.procs && !Seen(s.ledger, eventId, s.dispatch.now)
    ensures var s, t := Run(c, steps), Run(c, more);
            && t.dispatch.now == s.dispatch.now && t.ledger == s.ledger && t.dispatch.procs.Keys == s.dispatch.procs.Keys + {pid}
            && t.dispatch.published == s.dispatch.published + [D.Publication(pid, ride, D.Rejected, s.dispatch.now)]
            && t.runs == s.runs[pid := Delivery(eventId, s.dispatch.now, Underway)] && AtMark(t, pid)
  {
    var none: seq<string> := [];
    RunSnoc(c, steps, Deliver(pid, eventId, ride));
    more := steps + [Deliver(pid, eventId, ride)];
    RunSnoc(c, more, Dispatching(D.Search(pid, none)));
    more := more + [Dispatching(D.Search(pid, none))];
    RunSnoc(c, more, Dispatching(D.Publish(pid, false)));
    more := more + [Dispatching(D.Publish(pid, false))];
  }

  /** The ledger forgets: a redelivery that comes a TTL after the mark is matched again and publishes again. */
  lemma {:induction false} LedgerTtlIsTight(c: Config, eventId: string, ride: string) returns (steps: seq<Step>)
    ensures var s := Run(c, steps);
            && 0 in MarkedRuns(s, eventId) && s.runs[0].stage.at == 0
            && s.dispatch.published == [D.Publication(0, ride, D.Rejected, 0), D.Publication(1, ride, D.Rejected, c.ledgerTtl)]
            && 1 in RunsOf(s, eventId)
  {
    assert Run(c, []) == INIT;
    steps := RejectedDelivery(c, [], 0, eventId, ride);
    RunSnoc(c, steps, Mark(0));
    steps := steps + [Mark(0)];
    RunSnoc(c, steps, Dispatching(D.Tick(c.ledgerTtl)));
    steps := steps + [Dispatching(D.Tick(c.ledgerTtl))];
    steps := RejectedDelivery(c, steps, 1, eventId, ride);
  }

  // ---------------------------------------------------------------- the consumer

  class IdempotencyStore {
    const ttl: nat
    var expiries: map<string, int>

    constructor (ttl: nat)
      ensures this.ttl == ttl && expiries == map[]
    {
      this.ttl := ttl;
      expiries := map[];
    }

    method WasProcessed(eventId: string, now: int) returns (seen: bool)
      ensures seen <==> eventId in expiries && now < expiries[eventId]
    {
      seen := eventId in expiries && now < expiries[eventId];
    }

    method MarkProcessed(eventId: string, now: int)
      modifies this
      ensures expiries == old(expiries)[eventId := now + ttl]
    {
      expiries := expiries[eventId := now + ttl];
    }
  }

  /** The world around one delivery: the check, the matching run, and the mark. */
  datatype World = World(
    checkAt: int,
    checkFails: bool,
    found: Option<seq<string>>,
    turns: seq<D.Turn>,
    told: bool,
    publishAt: int,
    publishReply: SendReply,
    markAt: int,
    markReply: D.RedisReply
  )

  datatype Result = Skipped | Handled | Threw

  class RideRequestedConsumer {
    const ledger: IdempotencyStore
    const service: D.DispatchService

    constructor (ledger: IdempotencyStore, service: D.DispatchService)
      ensures this.ledger == ledger && this.service == service
    {
      this.ledger, this.service := ledger, service;
    }

    twostate predicate DispatchUntouched()
      reads service, service.store
    {
      && service.published == old(service.published) && service.patches == old(service.patches)
      && service.store.keys == old(service.store.keys)
    }

    /**
     The run callback on one delivery. The event is marked exactly when it was not in the ledger, the
     matching run returned, and Redis executed the mark; dispatch is called only if it was not there.
     */
    method Handle(eventId: string, pid: nat, ride: string, w: World) returns (result: Result, outcome: Option<D.Outcome>)
      requires w.found.Some? ==> |w.turns| == |w.found.value|
      modifies ledger, service`published, service`patches, service.store
      ensures w.checkFails ==> result.Threw?
      ensures !w.checkFails ==>
                (result.Skipped? <==> eventId in old(ledger.expiries) && w.checkAt < old(ledger.expiries)[eventId])
      ensures w.checkFails || result.Skipped? ==> DispatchUntouched() && outcome.None?
      ensures !w.checkFails && !result.Skipped? ==>
                service.Dispatched(pid, ride, w.found, w.turns, w.told, w.publishAt, w.publishReply, outcome)
      ensures ledger.expiries == if outcome.Some? && !w.markReply.Refused?
                                 then old(ledger.expiries)[eventId := w.markAt + ledger.ttl] else old(ledger.expiries)
      ensures result.Handled? <==> outcome.Some? && w.markReply.Answered?
    {
      outcome := None;
      if w.checkFails {
        return Threw, None;
      }
      var seen := ledger.WasProcessed(eventId, w.checkAt);
      if seen {
        return Skipped, None;
      }
      outcome := service.HandleRideRequested(pid, ride, w.found, w.turns, w.told, w.publishAt, w.publishReply);
      if outcome.None? {
        return Threw, outcome;
      }
      if !w.markReply.Refused? {
        ledger.MarkProcessed(eventId, w.markAt);
      }
      result := if w.markReply.Answered? then Handled else Threw;
    }
  }
}
