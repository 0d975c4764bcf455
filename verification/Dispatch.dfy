/**
 The dispatch race of dispatch.service.ts: any number of matching runs, each trying its ranked
 candidates in turn against one shared set of expiring keys, interleaved in any way, with Redis
 and Kafka calls that may fail or lose their reply. Disabled steps leave the state alone.
 */
module Dispatch {
  import opened EventSchema
  import opened Options
  import opened Reservations
  import Arithmetic

  datatype Outcome = Matched(driver: string) | Rejected

  datatype Phase = Searching | Trying | Won | Told | Finished(outcome: Outcome) | Failed

  datatype Attempt = Attempt(driver: string, at: int)

  /** `tried` holds the candidates lost so far, so candidate number |tried| is the next one. */
  datatype Proc = Proc(ride: string, phase: Phase, candidates: seq<string>, tried: seq<Attempt>)

  datatype Grant = Grant(driver: string, ride: string, pid: nat, at: int)

  datatype Publication = Publication(pid: nat, ride: string, outcome: Outcome, at: int)

  /** The best-effort PATCH that sets a reserved driver to RESERVED. */
  datatype Patch = Patch(pid: nat, ride: string, driver: string)

  datatype State = State(
    now: int,
    keys: map<string, Key>,
    procs: map<nat, Proc>,
    grants: seq<Grant>,
    patches: seq<Patch>,
    published: seq<Publication>
  )

  /** `Tell` is the PATCH after a won reservation; an open circuit breaker keeps it from being sent. */
  datatype Step =
    | Tick(ms: nat)
    | Begin(pid: nat, ride: string)
    | Search(pid: nat, candidates: seq<string>)
    | Try(pid: nat, replyLost: bool)
    | Tell(pid: nat, sent: bool)
    | Publish(pid: nat, replyLost: bool)
    | Fail(pid: nat)
    | Purge(driver: string)

  const INIT := State(0, map[], map[], [], [], [])

  predicate Active(s: State, pid: nat, phase: Phase) {
    pid in s.procs && s.procs[pid].phase == phase
  }

  function SetPhase(s: State, pid: nat, phase: Phase): State
    requires pid in s.procs
  {
    s.(procs := s.procs[pid := s.procs[pid].(phase := phase)])
  }

  function TryNext(ttl: nat, s: State, pid: nat, replyLost: bool): State
    requires Active(s, pid, Trying) && |s.procs[pid].tried| < |s.procs[pid].candidates|
  {
    var p := s.procs[pid];
    var driver := p.candidates[|p.tried|];
    if Free(s.keys, driver, s.now) then
      SetPhase(s, pid, if replyLost then Failed else Won).(
        keys := s.keys[driver := Key(p.ride, s.now + ttl)],
        grants := s.grants + [Grant(driver, p.ride, pid, s.now)])
    else if replyLost then SetPhase(s, pid, Failed)
    else s.(procs := s.procs[pid := p.(tried := p.tried + [Attempt(driver, s.now)])])
  }

  /** What this run would publish now: a match once it has won and told the driver service, a rejection once it ran out. */
  function ToPublish(s: State, pid: nat): Option<Outcome> {
    if pid !in s.procs then None
    else
      var p := s.procs[pid];
      if p.phase.Told? && |p.tried| < |p.candidates| then Some(Matched(p.candidates[|p.tried|]))
      else if p.phase.Trying? && |p.tried| >= |p.candidates| then Some(Rejected)
      else None
  }

  function Exec(ttl: nat, s: State, step: Step): State {
    match step
    case Tick(ms) => s.(now := s.now + ms)
    case Begin(pid, ride) =>
      if pid in s.procs then s else s.(procs := s.procs[pid := Proc(ride, Searching, [], [])])
    case Search(pid, candidates) =>
      if Active(s, pid, Searching) then
        s.(procs := s.procs[pid := s.procs[pid].(phase := Trying, candidates := candidates)])
      else s
    case Try(pid, replyLost) =>
      if Active(s, pid, Trying) && |s.procs[pid].tried| < |s.procs[pid].candidates| then TryNext(ttl, s, pid, replyLost) else s
    case Tell(pid, sent) =>
      if Active(s, pid, Won) && |s.procs[pid].tried| < |s.procs[pid].candidates| then
        var p := s.procs[pid];
        SetPhase(s, pid, Told).(
          patches := s.patches + if sent then [Patch(pid, p.ride, p.candidates[|p.tried|])] else [])
      else s
    case Publish(pid, replyLost) =>
      var outcome := ToPublish(s, pid);
      if outcome.None? then s
      else
        SetPhase(s, pid, if replyLost then Failed else Finished(outcome.value)).(
          published := s.published + [Publication(pid, s.procs[pid].ride, outcome.value, s.now)])
    case Fail(pid) =>
      if pid in s.procs && !s.procs[pid].phase.Finished? then SetPhase(s, pid, Failed) else s
    case Purge(driver) =>
      if driver in s.keys && s.keys[driver].expiresAt <= s.now then s.(keys := s.keys - {driver}) else s
  }

  function Run(ttl: nat, steps: seq<Step>): State {
    if |steps| == 0 then INIT else Exec(ttl, Run(ttl, steps[..|steps| - 1]), steps[|steps| - 1])
  }

  lemma RunSnoc(ttl: nat, steps: seq<Step>, step: Step)
    ensures Run(ttl, steps + [step]) == Exec(ttl, Run(ttl, steps), step)
  {
    assert (steps + [step])[..|steps|] == steps;
  }

  // ---------------------------------------------------------------- reservations

  ghost predicate Separated(ttl: nat, grants: seq<Grant>) {
    forall i, j :: 0 <= i < j < |grants| && grants[i].driver == grants[j].driver
                   ==> grants[i].at + ttl <= grants[j].at
  }

  /** A grant of this driver was in force at this time. */
  ghost predicate HeldAt(ttl: nat, grants: seq<Grant>, driver: string, at: int) {
    exists i :: 0 <= i < |grants| && grants[i].driver == driver && grants[i].at <= at < grants[i].at + ttl
  }

  ghost predicate GrantsCovered(ttl: nat, s: State) {
    forall i :: 0 <= i < |s.grants| ==>
      && s.grants[i].at <= s.now
      && (s.now < s.grants[i].at + ttl ==>
            s.grants[i].driver in s.keys && s.grants[i].at + ttl <= s.keys[s.grants[i].driver].expiresAt)
  }

  /** Some grant of this driver wrote exactly this key. */
  ghost predicate Backed(ttl: nat, grants: seq<Grant>, driver: string, key: Key, now: int) {
    exists i :: 0 <= i < |grants| && grants[i].driver == driver && grants[i].ride == key.ride
                && grants[i].at <= now && grants[i].at + ttl == key.expiresAt
  }

  ghost predicate KeysGranted(ttl: nat, s: State) {
    forall d :: d in s.keys ==> Backed(ttl, s.grants, d, s.keys[d], s.now)
  }

  ghost predicate StoreOk(ttl: nat, s: State) {
    Separated(ttl, s.grants) && GrantsCovered(ttl, s) && KeysGranted(ttl, s)
  }

  lemma BackedStays(ttl: nat, grants: seq<Grant>, more: seq<Grant>, driver: string, key: Key, now: int, later: int)
    requires Backed(ttl, grants, driver, key, now) && grants <= more && now <= later
    ensures Backed(ttl, more, driver, key, later)
  {
    var i :| 0 <= i < |grants| && grants[i].driver == driver && grants[i].ride == key.ride
             && grants[i].at <= now && grants[i].at + ttl == key.expiresAt;
    assert more[i] == grants[i];
  }

  lemma GrantKeepsSeparation(ttl: nat, s: State, g: Grant)
    requires Separated(ttl, s.grants) && GrantsCovered(ttl, s) && Free(s.keys, g.driver, s.now) && g.at == s.now
    ensures Separated(ttl, s.grants + [g])
  {
    forall i | 0 <= i < |s.grants| && s.grants[i].driver == g.driver
      ensures s.grants[i].at + ttl <= g.at
    {
    }
  }

  lemma GrantKeepsKeys(ttl: nat, s: State, t: State, g: Grant)
    requires KeysGranted(ttl, s) && g.at == s.now
    requires t.now == s.now && t.grants == s.grants + [g] && t.keys == s.keys[g.driver := Key(g.ride, s.now + ttl)]
    ensures KeysGranted(ttl, t)
  {
    forall d | d in t.keys
      ensures Backed(ttl, t.grants, d, t.keys[d], t.now)
    {
      if d == g.driver {
        assert t.grants[|s.grants|] == g;
      } else {
        BackedStays(ttl, s.grants, t.grants, d, s.keys[d], s.now, t.now);
      }
    }
  }

  lemma GrantKeepsStore(ttl: nat, s: State, t: State, g: Grant)
    requires StoreOk(ttl, s) && Free(s.keys, g.driver, s.now) && g.at == s.now
    requires t.now == s.now && t.grants == s.grants + [g] && t.keys == s.keys[g.driver := Key(g.ride, s.now + ttl)]
    ensures StoreOk(ttl, t)
  {
    GrantKeepsSeparation(ttl, s, g);
    GrantKeepsKeys(ttl, s, t, g);
  }

  lemma QuietKeepsStore(ttl: nat, s: State, t: State)
    requires StoreOk(ttl, s) && t.grants == s.grants && s.now <= t.now
    requires forall d :: d in t.keys ==> d in s.keys && t.keys[d] == s.keys[d]
    requires forall d :: d in s.keys && t.now < s.keys[d].expiresAt ==> d in t.keys
    ensures StoreOk(ttl, t)
  {
    forall d | d in t.keys
      ensures Backed(ttl, t.grants, d, t.keys[d], t.now)
    {
      BackedStays(ttl, s.grants, t.grants, d, s.keys[d], s.now, t.now);
    }
  }

  /** Does this step win a reservation? */
  predicate Wins(s: State, step: Step) {
    && step.Try? && Active(s, step.pid, Trying)
    && var p := s.procs[step.pid];
       |p.tried| < |p.candidates| && Free(s.keys, p.candidates[|p.tried|], s.now)
  }

  function NextGrant(s: State, step: Step): Grant
    requires Wins(s, step)
  {
    var p := s.procs[step.pid];
    Grant(p.candidates[|p.tried|], p.ride, step.pid, s.now)
  }

  lemma GrantsGrow(ttl: nat, s: State, step: Step)
    ensures Exec(ttl, s, step).grants == if Wins(s, step) then s.grants + [NextGrant(s, step)] else s.grants
    ensures s.now <= Exec(ttl, s, step).now
  {
  }

  lemma ExecKeepsStore(ttl: nat, s: State, step: Step)
    requires StoreOk(ttl, s)
    ensures StoreOk(ttl, Exec(ttl, s, step))
  {
    if Wins(s, step) {
      GrantKeepsStore(ttl, s, Exec(ttl, s, step), NextGrant(s, step));
    } else {
      QuietKeepsStore(ttl, s, Exec(ttl, s, step));
    }
  }

  lemma {:induction false} RunKeepsStore(ttl: nat, steps: seq<Step>)
    ensures StoreOk(ttl, Run(ttl, steps))
  {
    if |steps| > 0 {
      RunKeepsStore(ttl, steps[..|steps| - 1]);
      ExecKeepsStore(ttl, Run(ttl, steps[..|steps| - 1]), steps[|steps| - 1]);
    }
  }

  /**
   Reservation separation: however many dispatch runs interleave, two grants of one driver are at
   least the TTL apart, so grants closer together than that go to different drivers.
   */
  lemma {:induction false} ReservationsSeparated(ttl: nat, steps: seq<Step>, i: nat, j: nat)
    requires i < j < |Run(ttl, steps).grants|
    ensures var grants := Run(ttl, steps).grants;
            && (grants[i].driver == grants[j].driver ==> grants[i].at + ttl <= grants[j].at)
            && (grants[j].at < grants[i].at + ttl ==> grants[i].driver != grants[j].driver)
  {
    RunKeepsStore(ttl, steps);
  }

  /**
   A reserved driver's key names the ride he is held for: in every run, a driver has a key in force
   exactly when the last grant of him is less than a TTL old, and the key holds that grant's ride.
   */
  lemma {:induction false} KeyInForceIff(ttl: nat, steps: seq<Step>, driver: string)
    ensures var s := Run(ttl, steps);
            (driver in s.keys && s.now < s.keys[driver].expiresAt) <==> HeldAt(ttl, s.grants, driver, s.now)
    ensures var s := Run(ttl, steps);
            forall i :: 0 <= i < |s.grants| && s.grants[i].driver == driver && s.now < s.grants[i].at + ttl
                        ==> driver in s.keys && s.keys[driver] == Key(s.grants[i].ride, s.grants[i].at + ttl)
  {
    RunKeepsStore(ttl, steps);
    var s := Run(ttl, steps);
    if driver in s.keys {
      assert Backed(ttl, s.grants, driver, s.keys[driver], s.now);
    }
  }

  // ---------------------------------------------------------------- outcomes

  function GrantsBy(grants: seq<Grant>, pid: nat): nat {
    if |grants| == 0 then 0
    else GrantsBy(grants[..|grants| - 1], pid) + if grants[|grants| - 1].pid == pid then 1 else 0
  }

  function PublishedBy(published: seq<Publication>, pid: nat): nat {
    if |published| == 0 then 0
    else PublishedBy(published[..|published| - 1], pid) + if published[|published| - 1].pid == pid then 1 else 0
  }

  ghost predicate GrantedTo(grants: seq<Grant>, driver: string, ride: string, pid: nat) {
    exists i :: 0 <= i < |grants| && grants[i].driver == driver && grants[i].ride == ride && grants[i].pid == pid
  }

  ghost predicate HasPublished(published: seq<Publication>, pid: nat, ride: string, outcome: Outcome) {
    exists i :: 0 <= i < |published| && published[i].pid == pid && published[i].ride == ride && published[i].outcome == outcome
  }

  /** How many keys and events a run has written, by where it is. */
  ghost predicate CountsOk(s: State, pid: nat) {
    var granted, sent := GrantsBy(s.grants, pid), PublishedBy(s.published, pid);
    if pid !in s.procs then granted == 0 && sent == 0
    else
      match s.procs[pid].phase
      case Searching => granted == 0 && sent == 0
      case Trying => granted == 0 && sent == 0
      case Won => granted == 1 && sent == 0
      case Told => granted == 1 && sent == 0
      case Finished(outcome) => granted == (if outcome.Matched? then 1 else 0) && sent == 1
      case Failed => granted <= 1 && sent <= 1
  }

  ghost predicate ProcOk(ttl: nat, s: State, pid: nat)
    requires pid in s.procs
  {
    var p := s.procs[pid];
    && |p.tried| <= |p.candidates|
    && (p.phase.Searching? ==> p.tried == [])
    && (forall k :: 0 <= k < |p.tried| ==>
          && p.tried[k].driver == p.candidates[k] && p.tried[k].at <= s.now
          && HeldAt(ttl, s.grants, p.candidates[k], p.tried[k].at))
    && (p.phase.Won? || p.phase.Told? ==>
          |p.tried| < |p.candidates| && GrantedTo(s.grants, p.candidates[|p.tried|], p.ride, pid))
    && (p.phase.Finished? ==> HasPublished(s.published, pid, p.ride, p.phase.outcome))
    && (p.phase.Finished? && p.phase.outcome.Matched? ==>
          && |p.tried| < |p.candidates| && p.phase.outcome.driver == p.candidates[|p.tried|]
          && GrantedTo(s.grants, p.candidates[|p.tried|], p.ride, pid))
    && (p.phase.Finished? && p.phase.outcome.Rejected? ==> |p.tried| == |p.candidates|)
  }

  ghost predicate Inv(ttl: nat, s: State) {
    && StoreOk(ttl, s)
    && (forall pid: nat :: CountsOk(s, pid))
    && (forall pid :: pid in s.procs ==> ProcOk(ttl, s, pid))
  }

  predicate Moves(step: Step, pid: nat) {
    (step.Begin? || step.Search? || step.Try? || step.Tell? || step.Publish? || step.Fail?) && step.pid == pid
  }

  /** A step grants and publishes for its own run alone, and no other run moves. */
  lemma OthersUntouched(ttl: nat, s: State, step: Step, pid: nat)
    requires !Moves(step, pid)
    ensures var t := Exec(ttl, s, step);
            && (pid in t.procs <==> pid in s.procs) && (pid in s.procs ==> t.procs[pid] == s.procs[pid])
            && GrantsBy(t.grants, pid) == GrantsBy(s.grants, pid) && PublishedBy(t.published, pid) == PublishedBy(s.published, pid)
  {
    var t := Exec(ttl, s, step);
    GrantsGrow(ttl, s, step);
    if |t.grants| > |s.grants| {
      assert t.grants[..|s.grants|] == s.grants;
    }
    if |t.published| > |s.published| {
      assert t.published[..|s.published|] == s.published;
    }
  }

  lemma OwnCounts(ttl: nat, s: State, step: Step, pid: nat)
    requires CountsOk(s, pid) && (pid in s.procs ==> ProcOk(ttl, s, pid))
    requires Moves(step, pid)
    ensures CountsOk(Exec(ttl, s, step), pid)
  {
    var t := Exec(ttl, s, step);
    GrantsGrow(ttl, s, step);
    if |t.grants| > |s.grants| {
      assert t.grants[..|s.grants|] == s.grants;
    }
    if |t.published| > |s.published| {
      assert t.published[..|s.published|] == s.published;
    }
  }

  lemma ExecKeepsCounts(ttl: nat, s: State, step: Step, pid: nat)
    requires CountsOk(s, pid) && (pid in s.procs ==> ProcOk(ttl, s, pid))
    ensures CountsOk(Exec(ttl, s, step), pid)
  {
    if Moves(step, pid) {
      OwnCounts(ttl, s, step, pid);
    } else {
      OthersUntouched(ttl, s, step, pid);
    }
  }

  lemma LogsGrow(ttl: nat, s: State, step: Step)
    ensures s.grants <= Exec(ttl, s, step).grants && s.published <= Exec(ttl, s, step).published
  {
  }

  /** What was true of a run stays true while only the shared records grow. */
  lemma BystanderOk(ttl: nat, s: State, t: State, pid: nat)
    requires pid in s.procs && ProcOk(ttl, s, pid)
    requires pid in t.procs && t.procs[pid] == s.procs[pid]
    requires s.grants <= t.grants && s.published <= t.published && s.now <= t.now
    ensures ProcOk(ttl, t, pid)
  {
    var p := s.procs[pid];
    forall k | 0 <= k < |p.tried|
      ensures HeldAt(ttl, t.grants, p.candidates[k], p.tried[k].at)
    {
      var i :| 0 <= i < |s.grants| && s.grants[i].driver == p.candidates[k]
               && s.grants[i].at <= p.tried[k].at < s.grants[i].at + ttl;
      assert t.grants[i] == s.grants[i];
    }
    if |p.tried| < |p.candidates| && GrantedTo(s.grants, p.candidates[|p.tried|], p.ride, pid) {
      var i :| 0 <= i < |s.grants| && s.grants[i].driver == p.candidates[|p.tried|] && s.grants[i].ride == p.ride
               && s.grants[i].pid == pid;
      assert t.grants[i] == s.grants[i];
    }
    if p.phase.Finished? {
      var i :| 0 <= i < |s.published| && s.published[i].pid == pid && s.published[i].ride == p.ride
               && s.published[i].outcome == p.phase.outcome;
      assert t.published[i] == s.published[i];
    }
  }

  lemma TryKeepsProc(ttl: nat, s: State, pid: nat, replyLost: bool)
    requires StoreOk(ttl, s) && pid in s.procs && ProcOk(ttl, s, pid)
    requires Active(s, pid, Trying) && |s.procs[pid].tried| < |s.procs[pid].candidates|
    ensures ProcOk(ttl, TryNext(ttl, s, pid, replyLost), pid)
  {
    var t := TryNext(ttl, s, pid, replyLost);
    var p := s.procs[pid];
    var driver := p.candidates[|p.tried|];
    BystanderOk(ttl, s, t.(procs := s.procs), pid);
    if Free(s.keys, driver, s.now) {
      assert t.grants[|s.grants|] == Grant(driver, p.ride, pid, s.now);
    } else {
      assert Backed(ttl, s.grants, driver, s.keys[driver], s.now);
      assert HeldAt(ttl, s.grants, driver, s.now);
    }
  }

  lemma PublishKeepsProc(ttl: nat, s: State, pid: nat, replyLost: bool)
    requires pid in s.procs && ProcOk(ttl, s, pid) && ToPublish(s, pid).Some?
    ensures ProcOk(ttl, Exec(ttl, s, Publish(pid, replyLost)), pid)
  {
    var t := Exec(ttl, s, Publish(pid, replyLost));
    BystanderOk(ttl, s, t.(procs := s.procs), pid);
    assert t.published[|s.published|] == Publication(pid, s.procs[pid].ride, ToPublish(s, pid).value, s.now);
  }

  lemma ExecKeepsProc(ttl: nat, s: State, step: Step, pid: nat)
    requires StoreOk(ttl, s) && (pid in s.procs ==> ProcOk(ttl, s, pid)) && pid in Exec(ttl, s, step).procs
    ensures ProcOk(ttl, Exec(ttl, s, step), pid)
  {
    var t := Exec(ttl, s, step);
    LogsGrow(ttl, s, step);
    if pid in s.procs && t.procs[pid] == s.procs[pid] {
      BystanderOk(ttl, s, t, pid);
    } else if step.Try? {
      TryKeepsProc(ttl, s, pid, step.replyLost);
    } else if step.Publish? {
      PublishKeepsProc(ttl, s, pid, step.replyLost);
    }
  }

  lemma ExecKeepsInv(ttl: nat, s: State, step: Step)
    requires Inv(ttl, s)
    ensures Inv(ttl, Exec(ttl, s, step))
  {
    ExecKeepsStore(ttl, s, step);
    forall pid: nat
      ensures CountsOk(Exec(ttl, s, step), pid)
    {
      ExecKeepsCounts(ttl, s, step, pid);
    }
    forall pid | pid in Exec(ttl, s, step).procs
      ensures ProcOk(ttl, Exec(ttl, s, step), pid)
    {
      ExecKeepsProc(ttl, s, step, pid);
    }
  }

  lemma {:induction false} RunInv(ttl: nat, steps: seq<Step>)
    ensures Inv(ttl, Run(ttl, steps))
  {
    if |steps| > 0 {
      RunInv(ttl, steps[..|steps| - 1]);
      ExecKeepsInv(ttl, Run(ttl, steps[..|steps| - 1]), steps[|steps| - 1]);
    }
  }

  /**
   Dispatch outcome: a run that returned published exactly one event. A match names the first
   ranked candidate whose key was free when tried, every earlier one being held by a grant in
   force at that moment; a rejection means every candidate was so held.
   */
  lemma {:induction false} DispatchOutcome(ttl: nat, steps: seq<Step>, pid: nat)
    requires pid in Run(ttl, steps).procs && Run(ttl, steps).procs[pid].phase.Finished?
    ensures var s := Run(ttl, steps);
            var p := s.procs[pid];
            && PublishedBy(s.published, pid) == 1 && HasPublished(s.published, pid, p.ride, p.phase.outcome)
            && |p.tried| <= |p.candidates|
            && (forall k :: 0 <= k < |p.tried| ==>
                  p.tried[k].driver == p.candidates[k] && HeldAt(ttl, s.grants, p.candidates[k], p.tried[k].at))
            && (match p.phase.outcome
                case Matched(driver) =>
                  && |p.tried| < |p.candidates| && driver == p.candidates[|p.tried|]
                  && GrantsBy(s.grants, pid) == 1 && GrantedTo(s.grants, driver, p.ride, pid)
                case Rejected => |p.tried| == |p.candidates| && GrantsBy(s.grants, pid) == 0)
  {
    RunInv(ttl, steps);
    assert CountsOk(Run(ttl, steps), pid) && ProcOk(ttl, Run(ttl, steps), pid);
  }

  /** Every PATCH is of a run that has been granted this driver for this ride, and a run sends one at most. */
  ghost predicate PatchesBacked(s: State) {
    && (forall i :: 0 <= i < |s.patches| ==>
          GrantedTo(s.grants, s.patches[i].driver, s.patches[i].ride, s.patches[i].pid) && s.patches[i].pid in s.procs)
    && (forall i, j :: 0 <= i < j < |s.patches| ==> s.patches[i].pid != s.patches[j].pid)
    && (forall i :: 0 <= i < |s.patches| && s.patches[i].pid in s.procs ==> PastTelling(s.procs[s.patches[i].pid]))
  }

  predicate PastTelling(p: Proc) {
    p.phase.Told? || p.phase.Finished? || p.phase.Failed?
  }

  lemma PatchesAfter(ttl: nat, s: State, step: Step)
    ensures var t := Exec(ttl, s, step);
            && s.grants <= t.grants && s.procs.Keys <= t.procs.Keys
            && (forall pid :: pid in s.procs && PastTelling(s.procs[pid]) ==> PastTelling(t.procs[pid]))
            && (t.patches == s.patches
                || (t.patches == s.patches + [t.patches[|s.patches|]]
                    && var patch := t.patches[|s.patches|];
                       && patch.pid in s.procs && s.procs[patch.pid].phase.Won? && PastTelling(t.procs[patch.pid])
                       && var p := s.procs[patch.pid];
                          |p.tried| < |p.candidates| && patch == Patch(patch.pid, p.ride, p.candidates[|p.tried|])))
  {
  }

  lemma GrantedToStays(grants: seq<Grant>, more: seq<Grant>, driver: string, ride: string, pid: nat)
    requires GrantedTo(grants, driver, ride, pid) && grants <= more
    ensures GrantedTo(more, driver, ride, pid)
  {
    var i :| 0 <= i < |grants| && grants[i].driver == driver && grants[i].ride == ride && grants[i].pid == pid;
    assert more[i] == grants[i];
  }

  lemma ExecKeepsPatches(ttl: nat, s: State, step: Step)
    requires Inv(ttl, s) && PatchesBacked(s)
    ensures PatchesBacked(Exec(ttl, s, step))
  {
    var t := Exec(ttl, s, step);
    PatchesAfter(ttl, s, step);
    forall i | 0 <= i < |t.patches|
      ensures GrantedTo(t.grants, t.patches[i].driver, t.patches[i].ride, t.patches[i].pid)
    {
      if i == |s.patches| {
        assert ProcOk(ttl, s, t.patches[i].pid);
      }
      GrantedToStays(s.grants, t.grants, t.patches[i].driver, t.patches[i].ride, t.patches[i].pid);
    }
  }

  /**
   However the runs interleave and fail: every RESERVED PATCH follows a grant of that driver to that
   ride by that very run, which sends no other.
   */
  lemma {:induction false} PatchesFollowGrants(ttl: nat, steps: seq<Step>)
    ensures PatchesBacked(Run(ttl, steps))
  {
    if |steps| > 0 {
      PatchesFollowGrants(ttl, steps[..|steps| - 1]);
      RunInv(ttl, steps[..|steps| - 1]);
      ExecKeepsPatches(ttl, Run(ttl, steps[..|steps| - 1]), steps[|steps| - 1]);
    }
  }

  /** Every PATCH step of this run gets its PATCH sent, or none does. */
  ghost predicate Telling(steps: seq<Step>, pid: nat, sent: bool) {
    forall k :: 0 <= k < |steps| && steps[k].Tell? && steps[k].pid == pid ==> steps[k].sent == sent
  }

  predicate NoPatchBy(s: State, pid: nat) {
    forall i :: 0 <= i < |s.patches| ==> s.patches[i].pid != pid
  }

  predicate ToldOrMatched(s: State, pid: nat) {
    pid in s.procs && (s.procs[pid].phase.Told? || (s.procs[pid].phase.Finished? && s.procs[pid].phase.outcome.Matched?))
  }

  /**
   A matched driver is told before the match is published: a run whose PATCH is sent has, once it has
   told or published, sent exactly the PATCH of its own driver and ride; one whose PATCH is not has none.
   */
  lemma {:induction false} MatchTellsDriver(ttl: nat, steps: seq<Step>, pid: nat, sent: bool)
    requires Telling(steps, pid, sent)
    ensures var s := Run(ttl, steps);
            && (!sent ==> NoPatchBy(s, pid))
            && (sent && ToldOrMatched(s, pid) ==>
                  && |s.procs[pid].tried| < |s.procs[pid].candidates|
                  && Patch(pid, s.procs[pid].ride, s.procs[pid].candidates[|s.procs[pid].tried|]) in s.patches)
  {
    if |steps| > 0 {
      var prev, step := steps[..|steps| - 1], steps[|steps| - 1];
      assert forall k :: 0 <= k < |prev| ==> prev[k] == steps[k];
      MatchTellsDriver(ttl, prev, pid, sent);
      PatchStep(ttl, Run(ttl, prev), step, pid);
      if ToldOrMatched(Run(ttl, steps), pid) {
        TellStep(ttl, Run(ttl, prev), step, pid);
      }
    }
  }

  lemma PatchStep(ttl: nat, s: State, step: Step, pid: nat)
    ensures var t := Exec(ttl, s, step);
            && s.patches <= t.patches
            && (NoPatchBy(s, pid) && !(step.Tell? && step.pid == pid && step.sent) ==> NoPatchBy(t, pid))
  {
  }

  lemma TellStep(ttl: nat, s: State, step: Step, pid: nat)
    requires ToldOrMatched(Exec(ttl, s, step), pid)
    ensures ToldOrMatched(s, pid) || (step.Tell? && step.pid == pid)
    ensures var t := Exec(ttl, s, step);
            && (ToldOrMatched(s, pid) ==>
                  t.procs[pid].candidates == s.procs[pid].candidates && t.procs[pid].tried == s.procs[pid].tried
                  && t.procs[pid].ride == s.procs[pid].ride)
            && (!ToldOrMatched(s, pid) ==>
                  |t.procs[pid].tried| < |t.procs[pid].candidates|
                  && (step.sent ==>
                        t.patches == s.patches + [Patch(pid, t.procs[pid].ride, t.procs[pid].candidates[|t.procs[pid].tried|])]))
  {
  }

  /** A command or publication whose reply is lost, or any other failure, makes the run throw. */
  lemma FailuresThrow(ttl: nat, s: State, step: Step, pid: nat)
    requires pid in s.procs && !s.procs[pid].phase.Finished?
    requires || step == Fail(pid)
             || (step == Try(pid, true) && s.procs[pid].phase.Trying? && |s.procs[pid].tried| < |s.procs[pid].candidates|)
             || (step == Publish(pid, true) && |Exec(ttl, s, step).published| > |s.published|)
    ensures pid in Exec(ttl, s, step).procs && Exec(ttl, s, step).procs[pid].phase.Failed?
  {
  }

  /** And one that has thrown does nothing more. */
  lemma ThrownIsOver(ttl: nat, s: State, step: Step, pid: nat)
    requires pid in s.procs && s.procs[pid].phase.Failed?
    ensures var t := Exec(ttl, s, step);
            && pid in t.procs && t.procs[pid] == s.procs[pid]
            && GrantsBy(t.grants, pid) == GrantsBy(s.grants, pid) && PublishedBy(t.published, pid) == PublishedBy(s.published, pid)
  {
    if !Moves(step, pid) {
      OthersUntouched(ttl, s, step, pid);
    }
  }

  /** However a run ends, it has written at most one key and published at most one event. */
  lemma {:induction false} AtMostOneKeyPerRun(ttl: nat, steps: seq<Step>, pid: nat)
    ensures GrantsBy(Run(ttl, steps).grants, pid) <= 1 && PublishedBy(Run(ttl, steps).published, pid) <= 1
  {
    RunInv(ttl, steps);
    assert CountsOk(Run(ttl, steps), pid);
  }

  lemma {:induction false} PublicationsBacked(ttl: nat, steps: seq<Step>, i: nat)
    requires i < |Run(ttl, steps).published| && Run(ttl, steps).published[i].outcome.Matched?
    ensures var s := Run(ttl, steps);
            GrantedTo(s.grants, s.published[i].outcome.driver, s.published[i].ride, s.published[i].pid)
  {
    var prev := steps[..|steps| - 1];
    var s := Run(ttl, prev);
    var step := steps[|steps| - 1];
    var t := Run(ttl, steps);
    RunInv(ttl, prev);
    LogsGrow(ttl, s, step);
    if i < |s.published| {
      PublicationsBacked(ttl, prev, i);
      assert t.published[i] == s.published[i];
      var k :| 0 <= k < |s.grants| && s.grants[k].driver == s.published[i].outcome.driver
               && s.grants[k].ride == s.published[i].ride && s.grants[k].pid == s.published[i].pid;
      assert t.grants[k] == s.grants[k];
    } else {
      assert ProcOk(ttl, s, step.pid);
    }
  }

  // ---------------------------------------------------------------- reservations of one ride

  /** How many matching runs were begun for this ride. */
  function Begins(steps: seq<Step>, ride: string): nat {
    if |steps| == 0 then 0
    else
      var step := steps[|steps| - 1];
      Begins(steps[..|steps| - 1], ride) + if step.Begin? && step.ride == ride then 1 else 0
  }

  function GrantsFor(grants: seq<Grant>, ride: string): nat {
    if |grants| == 0 then 0
    else GrantsFor(grants[..|grants| - 1], ride) + if grants[|grants| - 1].ride == ride then 1 else 0
  }

  /** The runs for this ride that may still win a reservation. */
  function Pending(s: State, ride: string): set<nat> {
    set pid | pid in s.procs && s.procs[pid].ride == ride && (s.procs[pid].phase.Searching? || s.procs[pid].phase.Trying?)
  }

  lemma PendingAfter(ttl: nat, s: State, step: Step, ride: string)
    ensures step.Begin? && step.ride == ride ==> Pending(Exec(ttl, s, step), ride) <= Pending(s, ride) + {step.pid}
    ensures !(step.Begin? && step.ride == ride) ==> Pending(Exec(ttl, s, step), ride) <= Pending(s, ride)
    ensures Wins(s, step) && NextGrant(s, step).ride == ride ==>
              step.pid in Pending(s, ride) && Pending(Exec(ttl, s, step), ride) <= Pending(s, ride) - {step.pid}
  {
  }

  /** A matching run wins at most once, so a ride is granted at most as often as it was begun. */
  lemma {:induction false} GrantsAtMostBegins(ttl: nat, steps: seq<Step>, ride: string)
    ensures GrantsFor(Run(ttl, steps).grants, ride) + |Pending(Run(ttl, steps), ride)| <= Begins(steps, ride)
  {
    if |steps| > 0 {
      var prev, step := steps[..|steps| - 1], steps[|steps| - 1];
      var s, t := Run(ttl, prev), Run(ttl, steps);
      GrantsAtMostBegins(ttl, prev, ride);
      GrantsGrow(ttl, s, step);
      PendingAfter(ttl, s, step, ride);
      if step.Begin? && step.ride == ride {
        Arithmetic.SubsetSize(Pending(t, ride), Pending(s, ride) + {step.pid});
      } else if Wins(s, step) && NextGrant(s, step).ride == ride {
        Arithmetic.SubsetSize(Pending(t, ride), Pending(s, ride) - {step.pid});
      } else {
        Arithmetic.SubsetSize(Pending(t, ride), Pending(s, ride));
      }
      if Wins(s, step) {
        assert t.grants[..|s.grants|] == s.grants;
      }
    } else {
      assert Pending(INIT, ride) == {};
    }
  }

  lemma BeginsSnoc(steps: seq<Step>, step: Step, ride: string)
    ensures Begins(steps + [step], ride) == Begins(steps, ride) + if step.Begin? && step.ride == ride then 1 else 0
  {
    assert (steps + [step])[..|steps|] == steps;
  }

  /** The first run of a ride wins its first candidate. */
  lemma FirstRun(ttl: nat, ride: string, a: string, others: seq<string>) returns (steps: seq<Step>)
    ensures var s := Run(ttl, steps);
            && s.grants == [Grant(a, ride, 0, 0)] && s.keys == map[a := Key(ride, ttl)] && s.procs.Keys == {0} && s.now == 0
            && Begins(steps, ride) == 1
  {
    RunSnoc(ttl, [], Begin(0, ride));
    BeginsSnoc([], Begin(0, ride), ride);
    steps := [] + [Begin(0, ride)];
    RunSnoc(ttl, steps, Search(0, [a] + others));
    BeginsSnoc(steps, Search(0, [a] + others), ride);
    steps := steps + [Search(0, [a] + others)];
    assert Run(ttl, steps) == INIT.(procs := map[0 := Proc(ride, Trying, [a] + others, [])]);
    RunSnoc(ttl, steps, Try(0, true));
    BeginsSnoc(steps, Try(0, true), ride);
    steps := steps + [Try(0, true)];
  }

  /** A second run for the same ride is begun and gets these candidates. */
  lemma SecondRun(ttl: nat, steps: seq<Step>, ride: string, candidates: seq<string>) returns (more: seq<Step>)
    requires 1 !in Run(ttl, steps).procs
    ensures Run(ttl, more) == Run(ttl, steps).(procs := Run(ttl, steps).procs[1 := Proc(ride, Trying, candidates, [])])
    ensures Begins(more, ride) == Begins(steps, ride) + 1
  {
    var s := Run(ttl, steps);
    RunSnoc(ttl, steps, Begin(1, ride));
    BeginsSnoc(steps, Begin(1, ride), ride);
    more := steps + [Begin(1, ride)];
    RunSnoc(ttl, more, Search(1, candidates));
    BeginsSnoc(more, Search(1, candidates), ride);
    more := more + [Search(1, candidates)];
    assert Run(ttl, more).procs == s.procs[1 := Proc(ride, Trying, candidates, [])];
  }

  /**
   Separation is per driver, not per ride: a redelivered ride request runs the matching again, and
   the second run passes over the driver the first one holds and reserves another for the same ride.
   */
  lemma {:induction false} OneRideTwoDrivers(ttl: nat, ride: string, a: string, b: string) returns (steps: seq<Step>)
    requires ttl >= 1 && a != b
    ensures var s := Run(ttl, steps);
            |s.grants| == 2 && s.grants[0] == Grant(a, ride, 0, 0) && s.grants[1] == Grant(b, ride, 1, 0)
  {
    steps := FirstRun(ttl, ride, a, [b]);
    var s0 := Run(ttl, steps);
    steps := SecondRun(ttl, steps, ride, [a, b]);
    RunSnoc(ttl, steps, Try(1, false));
    steps := steps + [Try(1, false)];
    var none: seq<Attempt> := [];
    assert none + [Attempt(a, 0)] == [Attempt(a, 0)];
    assert Run(ttl, steps) == s0.(procs := s0.procs[1 := Proc(ride, Trying, [a, b], [Attempt(a, 0)])]);
    RunSnoc(ttl, steps, Try(1, false));
    steps := steps + [Try(1, false)];
  }

  /** Separation is no longer than it need be: a driver can be reserved again as soon as the TTL is over. */
  lemma {:induction false} SeparationIsTight(ttl: nat, ride: string, next: string, driver: string) returns (steps: seq<Step>)
    ensures Run(ttl, steps).grants == [Grant(driver, ride, 0, 0), Grant(driver, next, 1, ttl)]
  {
    steps := FirstRun(ttl, ride, driver, []);
    RunSnoc(ttl, steps, Tick(ttl));
    steps := steps + [Tick(ttl)];
    steps := SecondRun(ttl, steps, next, [driver]);
    RunSnoc(ttl, steps, Try(1, false));
    steps := steps + [Try(1, false)];
  }

  lemma GrantsForSnoc(grants: seq<Grant>, g: Grant, ride: string)
    ensures GrantsFor(grants + [g], ride) == GrantsFor(grants, ride) + if g.ride == ride then 1 else 0
  {
    assert (grants + [g])[..|grants|] == grants;
  }

  /** Two runs with different candidates get two reservations, whatever the TTL. */
  lemma TwoRunsTwoGrants(ttl: nat, ride: string) returns (steps: seq<Step>)
    ensures Begins(steps, ride) == 2 && GrantsFor(Run(ttl, steps).grants, ride) == 2
  {
    steps := FirstRun(ttl, ride, "a", []);
    var s0 := Run(ttl, steps);
    steps := SecondRun(ttl, steps, ride, ["b"]);
    RunSnoc(ttl, steps, Try(1, false));
    BeginsSnoc(steps, Try(1, false), ride);
    steps := steps + [Try(1, false)];
    assert Run(ttl, steps).grants == s0.grants + [Grant("b", ride, 1, 0)];
    GrantsForSnoc([], Grant("a", ride, 0, 0), ride);
    GrantsForSnoc(s0.grants, Grant("b", ride, 1, 0), ride);
    assert s0.grants == [] + [Grant("a", ride, 0, 0)];
  }

  /**
   One ride, one driver: of all runs that begin the matching of a ride at most `n` times, each
   reserves at most one driver for it exactly when n is at most one. A redelivery is a second begin.
   */
  lemma {:induction false} OneDriverPerRideIff(ttl: nat, ride: string, n: nat)
    ensures (forall steps | Begins(steps, ride) <= n :: GrantsFor(Run(ttl, steps).grants, ride) <= 1) <==> n <= 1
  {
    if n <= 1 {
      forall steps | Begins(steps, ride) <= n
        ensures GrantsFor(Run(ttl, steps).grants, ride) <= 1
      {
        GrantsAtMostBegins(ttl, steps, ride);
      }
    } else {
      var steps := TwoRunsTwoGrants(ttl, ride);
      assert Begins(steps, ride) <= n && GrantsFor(Run(ttl, steps).grants, ride) > 1;
    }
  }

  // ---------------------------------------------------------------- the service

  /** What Redis does with a command: answers, executes it but loses the reply, or never runs it. */
  datatype RedisReply = Answered | AnswerLost | Refused

  /**
   The world around one try: the keys as other hosts and expiry have left them by then, the time,
   and the fate of the command. An open circuit breaker refuses it.
   */
  datatype Turn = Turn(keys: map<string, Key>, now: int, reply: RedisReply)

  /** The first `k` candidates were asked for and found held. */
  ghost predicate LostUpTo(candidates: seq<string>, turns: seq<Turn>, k: nat)
    requires k <= |candidates| == |turns|
  {
    forall i :: 0 <= i < k ==> turns[i].reply.Answered? && !Free(turns[i].keys, candidates[i], turns[i].now)
  }

  class DispatchService {
    const store: DriverReservationStore
    const ttl: nat
    var patches: seq<Patch>
    var published: seq<Publication>

    constructor (store: DriverReservationStore, ttl: nat)
      ensures this.store == store && this.ttl == ttl && patches == [] && published == []
    {
      this.store, this.ttl, patches, published := store, ttl, [], [];
    }

    /** syncDriverStatusBestEffort: whatever becomes of the PATCH, the caller goes on. */
    method SyncDriver(patch: Patch, sent: bool)
      modifies this`patches
      ensures patches == old(patches) + if sent then [patch] else []
    {
      if sent {
        patches := patches + [patch];
      }
    }

    /** The event is on the topic unless it was not sent, and the caller returns only on an ack. */
    twostate predicate Publishes(p: Publication, reply: SendReply, new result: Option<Outcome>)
      reads this
    {
      && published == old(published) + (if reply.NotSent? then [] else [p])
      && result == if reply.Acked? then Some(p.outcome) else None
    }

    method Publish(p: Publication, reply: SendReply) returns (result: Option<Outcome>)
      modifies this`published
      ensures Publishes(p, reply, result)
    {
      if !reply.NotSent? {
        published := published + [p];
      }
      result := if reply.Acked? then Some(p.outcome) else None;
    }

    /** How the loop ended at candidate number `k`, all earlier ones having been lost. */
    twostate predicate EndsAt(k: nat, pid: nat, ride: string, candidates: seq<string>, turns: seq<Turn>,
                              told: bool, at: int, reply: SendReply, new result: Option<Outcome>)
      requires k < |candidates| == |turns|
      reads this, store
    {
      var driver, turn := candidates[k], turns[k];
      var free := Free(turn.keys, driver, turn.now);
      && store.keys == (if free && !turn.reply.Refused? then turn.keys[driver := Key(ride, turn.now + ttl)] else turn.keys)
      && (turn.reply.Answered? ==>
            && free && Publishes(Publication(pid, ride, Matched(driver), at), reply, result)
            && patches == old(patches) + if told then [Patch(pid, ride, driver)] else [])
      && (!turn.reply.Answered? ==> result.None? && published == old(published) && patches == old(patches))
    }

    /**
     What one call does: it throws if the search fails; otherwise it loses some candidates and then
     ends at the next one, or having lost them all publishes the rejection.
     */
    twostate predicate Dispatched(pid: nat, ride: string, found: Option<seq<string>>, turns: seq<Turn>,
                                  told: bool, at: int, reply: SendReply, new result: Option<Outcome>)
      requires found.Some? ==> |turns| == |found.value|
      reads this, store
    {
      match found
      case None =>
        result.None? && published == old(published) && patches == old(patches) && store.keys == old(store.keys)
      case Some(candidates) =>
        || (LostUpTo(candidates, turns, |candidates|)
            && Publishes(Publication(pid, ride, Rejected, at), reply, result) && patches == old(patches)
            && store.keys == if |turns| == 0 then old(store.keys) else turns[|turns| - 1].keys)
        || (exists k: nat :: k < |candidates| && LostUpTo(candidates, turns, k)
                             && EndsAt(k, pid, ride, candidates, turns, told, at, reply, result))
    }

    /**
     handleRideRequested. `found` is the answer of findNearby, None if it failed; `turns` the world
     around each try; `told` says whether the RESERVED PATCH is sent, `at` and `reply` are the time and
     fate of the publication. None is a throw.
     */
    method HandleRideRequested(pid: nat, ride: string, found: Option<seq<string>>, turns: seq<Turn>,
                               told: bool, at: int, reply: SendReply)
        returns (result: Option<Outcome>)
      requires found.Some? ==> |turns| == |found.value|
      modifies this`published, this`patches, store
      ensures Dispatched(pid, ride, found, turns, told, at, reply, result)
    {
      if found.None? {
        return None;
      }
      var candidates := found.value;
      for k := 0 to |candidates|
        invariant published == old(published) && patches == old(patches)
        invariant LostUpTo(candidates, turns, k)
        invariant store.keys == if k == 0 then old(store.keys) else turns[k - 1].keys
      {
        var turn := turns[k];
        store.OthersWrite(turn.keys);
        if turn.reply.Refused? {
          assert EndsAt(k, pid, ride, candidates, turns, told, at, reply, None);
          return None;
        }
        var won := store.TryReserve(candidates[k], ride, ttl, turn.now);
        if turn.reply.AnswerLost? {
          assert EndsAt(k, pid, ride, candidates, turns, told, at, reply, None);
          return None;
        }
        if !won {
          continue;
        }
        SyncDriver(Patch(pid, ride, candidates[k]), told);
        result := Publish(Publication(pid, ride, Matched(candidates[k]), at), reply);
        assert EndsAt(k, pid, ride, candidates, turns, told, at, reply, result);
        return;
      }
      result := Publish(Publication(pid, ride, Rejected, at), reply);
    }
  }
}
