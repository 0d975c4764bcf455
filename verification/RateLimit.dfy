/**
 The gateway's fixed-window rate limiter of rate-limit.guard.ts: a policy table, a map of
 counters updated in place, and a timer that sweeps expired counters away.
 */
module RateLimit {
  import opened Options
  import Arithmetic

  // ---------------------------------------------------------------- policies

  datatype Policy = Policy(limit: nat, windowMs: nat, tier: string)

  const AUTH := Policy(10, 60_000, "auth")
  const PUBLIC_READ := Policy(20, 60_000, "public-read")
  const DEFAULT_POLICY := Policy(100, 60_000, "default")

  /** The pattern /^\/drivers\/[^\/]+\/vehicle$/. */
  predicate IsVehiclePath(path: string) {
    var head, tail := "/drivers/", "/vehicle";
    && |head| + |tail| < |path|
    && path[..|head|] == head
    && path[|path| - |tail|..] == tail
    && '/' !in path[|head|..|path| - |tail|]
  }

  function FindRateLimitPolicy(httpMethod: string, path: string): Policy {
    if httpMethod == "POST" && path in {"/riders", "/riders/login", "/drivers", "/drivers/login"} then AUTH
    else if httpMethod == "GET" && path in {"/drivers/nearby", "/drivers/any-online"} then PUBLIC_READ
    else if httpMethod == "GET" && IsVehiclePath(path) then PUBLIC_READ
    else DEFAULT_POLICY
  }

  /** Which route meets which limit: sign-up and sign-in 10, anonymous driver look-ups 20, all else 100, each per minute. */
  lemma PolicyIff(httpMethod: string, path: string)
    ensures var p := FindRateLimitPolicy(httpMethod, path);
            && p.windowMs == 60_000 && p.limit in {10, 20, 100}
            && (p.limit == 10 <==>
                  httpMethod == "POST"
                  && (path == "/riders" || path == "/riders/login" || path == "/drivers" || path == "/drivers/login"))
            && (p.limit == 20 <==>
                  httpMethod == "GET"
                  && (path == "/drivers/nearby" || path == "/drivers/any-online"
                      || exists id: string :: id != "" && '/' !in id && path == "/drivers/" + id + "/vehicle"))
  {
    var head, tail := "/drivers/", "/vehicle";
    if IsVehiclePath(path) {
      var id := path[|head|..|path| - |tail|];
      assert path == head + id + tail;
    }
    if id: string :| id != "" && '/' !in id && path == head + id + tail {
      assert path[..|head|] == head && path[|path| - |tail|..] == tail && path[|head|..|path| - |tail|] == id;
    }
  }

  function BucketKey(tier: string, ip: string): string {
    tier + ":" + ip
  }

  /** Tier labels contain no colon, so the first one in a key ends the label, even for IPv6 callers. */
  lemma KeySplits(a: string, ipA: string, b: string, ipB: string)
    requires ':' !in a && ':' !in b && BucketKey(a, ipA) == BucketKey(b, ipB)
    ensures a == b && ipA == ipB
  {
    var key := BucketKey(a, ipA);
    assert forall i :: 0 <= i < |a| ==> key[i] == a[i];
    assert forall i :: 0 <= i < |b| ==> key[i] == b[i];
    assert key[|a|] == ':' && key[|b|] == ':';
    assert a == key[..|a|] && b == key[..|b|];
    assert ipA == key[|a| + 1..] && ipB == key[|b| + 1..];
  }

  /** Two requests meet in one bucket only if the same caller meets the same limit and window. */
  lemma BucketHasOnePolicy(methodA: string, pathA: string, ipA: string, methodB: string, pathB: string, ipB: string)
    requires BucketKey(FindRateLimitPolicy(methodA, pathA).tier, ipA)
             == BucketKey(FindRateLimitPolicy(methodB, pathB).tier, ipB)
    ensures ipA == ipB
    ensures FindRateLimitPolicy(methodA, pathA) == FindRateLimitPolicy(methodB, pathB)
  {
    var p, q := FindRateLimitPolicy(methodA, pathA), FindRateLimitPolicy(methodB, pathB);
    KeySplits(p.tier, ipA, q.tier, ipB);
    assert AUTH.tier[0] != PUBLIC_READ.tier[0] && AUTH.tier[0] != DEFAULT_POLICY.tier[0];
    assert PUBLIC_READ.tier[0] != DEFAULT_POLICY.tier[0];
  }

  // ---------------------------------------------------------------- counters

  datatype Entry = Entry(count: nat, resetAt: int)

  datatype Decision = Admit | Reject(retryAfterSeconds: int)

  datatype Event =
    | Request(key: string, limit: nat, windowMs: nat, at: int)
    | Sweep(at: int)

  function Lookup(hits: map<string, Entry>, key: string): Option<Entry> {
    if key in hits then Some(hits[key]) else None
  }

  predicate Expired(entry: Option<Entry>, now: int) {
    entry.None? || entry.value.resetAt <= now
  }

  function Ceil(x: int, d: int): int
    requires d > 0
  {
    (x + d - 1) / d
  }

  function Decide(entry: Option<Entry>, limit: nat, now: int): Decision {
    if Expired(entry, now) || entry.value.count < limit then Admit
    else Reject(Ceil(entry.value.resetAt - now, 1000))
  }

  function NextEntry(entry: Option<Entry>, limit: nat, windowMs: nat, now: int): Entry {
    if Expired(entry, now) then Entry(1, now + windowMs)
    else if entry.value.count < limit then entry.value.(count := entry.value.count + 1)
    else entry.value
  }

  function Swept(hits: map<string, Entry>, now: int): map<string, Entry> {
    map key | key in hits && hits[key].resetAt > now :: hits[key]
  }

  function Step(hits: map<string, Entry>, e: Event): map<string, Entry> {
    match e
    case Request(key, limit, windowMs, now) => hits[key := NextEntry(Lookup(hits, key), limit, windowMs, now)]
    case Sweep(now) => Swept(hits, now)
  }

  function HitsAfter(events: seq<Event>): map<string, Entry> {
    if |events| == 0 then map[] else Step(HitsAfter(events[..|events| - 1]), events[|events| - 1])
  }

  /** The decision the guard takes on this request after these events. */
  function DecisionAfter(events: seq<Event>, r: Event): Decision
    requires r.Request?
  {
    Decide(Lookup(HitsAfter(events), r.key), r.limit, r.at)
  }

  ghost predicate Monotone(events: seq<Event>) {
    forall i, j :: 0 <= i < j < |events| ==> events[i].at <= events[j].at
  }

  // ---------------------------------------------------------------- one bucket by itself

  predicate IsFor(e: Event, key: string) {
    e.Request? && e.key == key
  }

  /** The requests of one bucket, in order. */
  function Own(events: seq<Event>, key: string): seq<Event> {
    if |events| == 0 then []
    else
      var rest := Own(events[..|events| - 1], key);
      if IsFor(events[|events| - 1], key) then rest + [events[|events| - 1]] else rest
  }

  /** The counter of one bucket that is never swept and never sees another caller. */
  function EntryAlone(events: seq<Event>, key: string): Option<Entry> {
    if |events| == 0 then None
    else
      var e := events[|events| - 1];
      var before := EntryAlone(events[..|events| - 1], key);
      if IsFor(e, key) then Some(NextEntry(before, e.limit, e.windowMs, e.at)) else before
  }

  lemma {:induction false} AloneDependsOnOwn(events: seq<Event>, key: string)
    ensures EntryAlone(events, key) == EntryAlone(Own(events, key), key)
    ensures forall i :: 0 <= i < |Own(events, key)| ==> IsFor(Own(events, key)[i], key)
  {
    if |events| > 0 {
      var prev := events[..|events| - 1];
      AloneDependsOnOwn(prev, key);
      if IsFor(events[|events| - 1], key) {
        assert Own(events, key)[..|Own(prev, key)|] == Own(prev, key);
      }
    }
  }

  /** A missing counter in the shared map is one that has run out. */
  lemma {:induction false} SharedMatchesAlone(events: seq<Event>, key: string)
    requires Monotone(events)
    ensures var shared := Lookup(HitsAfter(events), key);
            var alone := EntryAlone(events, key);
            shared == alone || (shared.None? && |events| > 0 && Expired(alone, events[|events| - 1].at))
  {
    if |events| > 0 {
      var prev := events[..|events| - 1];
      SharedMatchesAlone(prev, key);
      assert |prev| > 0 ==> events[|prev| - 1].at <= events[|prev|].at;
    }
  }

  /**
   Sweeps at any times, and requests of any other buckets, change no decision: it is the one the
   bucket's own requests would have led to with nothing else going on.
   */
  lemma {:induction false} DecisionIsOwn(events: seq<Event>, r: Event)
    requires r.Request? && Monotone(events) && (|events| > 0 ==> events[|events| - 1].at <= r.at)
    ensures DecisionAfter(events, r) == DecisionAfter(Own(events, r.key), r)
  {
    SharedMatchesAlone(events, r.key);
    var own := Own(events, r.key);
    AloneDependsOnOwn(events, r.key);
    OwnIsMonotone(events, r.key);
    SharedMatchesAlone(own, r.key);
  }

  lemma {:induction false} OwnIsMonotone(events: seq<Event>, key: string)
    requires Monotone(events)
    ensures Monotone(Own(events, key))
    ensures |Own(events, key)| > 0 ==> |events| > 0 && Own(events, key)[|Own(events, key)| - 1].at <= events[|events| - 1].at
  {
    if |events| > 0 {
      var prev := events[..|events| - 1];
      OwnIsMonotone(prev, key);
      assert |prev| > 0 ==> events[|prev| - 1].at <= events[|prev|].at;
    }
  }

  // ---------------------------------------------------------------- how many get through

  predicate AdmittedAt(events: seq<Event>, key: string, i: nat)
    requires i < |events|
  {
    IsFor(events[i], key) && DecisionAfter(events[..i], events[i]).Admit?
  }

  /** Admissions of a bucket with times in the closed interval from `a` to `b`. */
  function AdmittedIn(events: seq<Event>, key: string, a: int, b: int): nat {
    if |events| == 0 then 0
    else
      var last := |events| - 1;
      AdmittedIn(events[..last], key, a, b)
      + if AdmittedAt(events, key, last) && a <= events[last].at <= b then 1 else 0
  }

  /** Every request of the bucket carries this limit and window. */
  ghost predicate UnderPolicy(events: seq<Event>, key: string, limit: nat, windowMs: nat) {
    forall i :: 0 <= i < |events| && IsFor(events[i], key) ==> events[i].limit == limit && events[i].windowMs == windowMs
  }

  /** The first request of a window always passes, so a limit of zero still admits one. */
  function Quota(limit: nat): nat {
    if limit == 0 then 1 else limit
  }

  /**
   The most that can be admitted in a closed interval of this length: one quota more than it spans
   windows, rounded up, less one unless it spans a whole number of them, because the first of so
   many windows must then have been opened by a request before the interval.
   */
  function MostAdmitted(length: nat, windowMs: nat, quota: nat): (most: int)
    requires windowMs >= 1
  {
    (Ceil(length, windowMs) + 1) * quota - if length % windowMs == 0 then 0 else 1
  }

  /**
   `windows` windows have admitted something in the interval, the last of them the current one. If
   the first one was opened before the interval, its opening request does not count.
   */
  ghost predicate Spread(entry: Option<Entry>, admitted: nat, windows: nat, quota: nat, windowMs: nat, a: int, b: int) {
    && entry.Some?
    && windows >= 1
    && entry.value.count <= quota
    && entry.value.resetAt - windowMs <= b
    && (|| (a + windows * windowMs <= entry.value.resetAt && admitted <= (windows - 1) * quota + entry.value.count)
        || (a + (windows - 1) * windowMs < entry.value.resetAt && admitted < (windows - 1) * quota + entry.value.count))
  }

  ghost predicate Spreads(entry: Option<Entry>, admitted: nat, quota: nat, windowMs: nat, a: int, b: int) {
    exists windows: nat :: Spread(entry, admitted, windows, quota, windowMs, a, b)
  }

  lemma SpreadReopens(entry: Entry, admitted: nat, windows: nat, quota: nat, windowMs: nat, a: int, b: int, now: int)
    requires Spread(Some(entry), admitted, windows, quota, windowMs, a, b)
    requires entry.resetAt <= now <= b && quota >= 1 && windowMs >= 1
    ensures Spread(Some(Entry(1, now + windowMs)), admitted + 1, windows + 1, quota, windowMs, a, b)
  {
    assert windows * windowMs == (windows - 1) * windowMs + windowMs;
    assert (windows + 1) * windowMs == windows * windowMs + windowMs;
    assert windows * quota == (windows - 1) * quota + quota;
  }

  lemma SpreadBounds(entry: Option<Entry>, admitted: nat, windows: nat, quota: nat, windowMs: nat, a: int, b: int)
    requires Spread(entry, admitted, windows, quota, windowMs, a, b) && windowMs >= 1 && a <= b && quota >= 1
    ensures admitted <= MostAdmitted(b - a, windowMs, quota)
  {
    var c := Ceil(b - a, windowMs);
    assert windows * quota == (windows - 1) * quota + quota;
    assert windows * windowMs == (windows - 1) * windowMs + windowMs;
    assert (windows - 1) * windowMs == (windows - 2) * windowMs + windowMs;
    assert (c + 1) * quota == c * quota + quota;
    if a + windows * windowMs <= entry.value.resetAt && admitted <= (windows - 1) * quota + entry.value.count {
      FloorCounts(windows - 1, windowMs, b - a);
      if (b - a) % windowMs == 0 {
        Arithmetic.MulMono(windows, c + 1, quota);
      } else {
        Arithmetic.MulMono(windows, c, quota);
      }
    } else {
      CeilCounts(windows - 2, windowMs, b - a);
      Arithmetic.MulMono(windows, c + 1, quota);
    }
  }

  lemma CeilCounts(k: int, windowMs: nat, length: int)
    requires windowMs >= 1 && k * windowMs < length
    ensures k < Ceil(length, windowMs)
  {
    var c := Ceil(length, windowMs);
    assert c * windowMs >= length;
    if k >= c {
      Arithmetic.MulMono(c, k, windowMs);
    }
  }

  /** `k` whole windows fit into the length only if so many do after rounding down. */
  lemma FloorCounts(k: int, windowMs: nat, length: int)
    requires windowMs >= 1 && k * windowMs <= length
    ensures k <= if length % windowMs == 0 then Ceil(length, windowMs) else Ceil(length, windowMs) - 1
  {
    if length % windowMs == 0 {
      CeilCounts(k - 1, windowMs, length) by {
        assert (k - 1) * windowMs == k * windowMs - windowMs;
      }
    } else {
      MultipleHasNoRest(k, windowMs);
      CeilCounts(k, windowMs, length);
    }
  }

  lemma MultipleHasNoRest(k: int, windowMs: nat)
    requires windowMs >= 1
    ensures (k * windowMs) % windowMs == 0
  {
    var q, r := k * windowMs / windowMs, k * windowMs % windowMs;
    assert k * windowMs == q * windowMs + r;
    assert (k - q) * windowMs == r;
    if k - q >= 1 {
      Arithmetic.MulMono(1, k - q, windowMs);
    } else if k - q <= -1 {
      Arithmetic.MulMono(k - q, -1, windowMs);
    }
  }

  /** One more request of the bucket inside the interval that is admitted. */
  lemma AdmissionKeepsSpread(before: Option<Entry>, admitted: nat, limit: nat, windowMs: nat, a: int, b: int, now: int)
    requires windowMs >= 1 && a <= now <= b && Decide(before, limit, now).Admit?
    requires before.Some? ==> 1 <= before.value.count <= Quota(limit) && before.value.resetAt - windowMs <= now
    requires admitted > 0 ==> Spreads(before, admitted, Quota(limit), windowMs, a, b)
    ensures Spreads(Some(NextEntry(before, limit, windowMs, now)), admitted + 1, Quota(limit), windowMs, a, b)
  {
    var after := Some(NextEntry(before, limit, windowMs, now));
    if admitted > 0 {
      var windows: nat :| Spread(before, admitted, windows, Quota(limit), windowMs, a, b);
      if Expired(before, now) {
        SpreadReopens(before.value, admitted, windows, Quota(limit), windowMs, a, b, now);
      } else {
        assert Spread(after, admitted + 1, windows, Quota(limit), windowMs, a, b);
      }
    } else {
      assert Spread(after, admitted + 1, 1, Quota(limit), windowMs, a, b);
    }
  }

  /** What the counter of the bucket and the admissions up to time `now` say about each other. */
  ghost predicate Bounded(entry: Option<Entry>, admitted: nat, now: int, quota: nat, windowMs: nat, a: int, b: int)
    requires windowMs >= 1 && a <= b
  {
    && (entry.Some? ==> 1 <= entry.value.count <= quota && entry.value.resetAt - windowMs <= now)
    && admitted <= MostAdmitted(b - a, windowMs, quota)
    && (admitted > 0 ==> a <= now)
    && (admitted > 0 && now <= b ==> Spreads(entry, admitted, quota, windowMs, a, b))
  }

  lemma RequestKeepsBounded(before: Option<Entry>, admitted: nat, limit: nat, windowMs: nat, a: int, b: int, now: int)
    requires windowMs >= 1 && a <= b && Bounded(before, admitted, now, Quota(limit), windowMs, a, b)
    ensures Bounded(Some(NextEntry(before, limit, windowMs, now)),
                    admitted + (if Decide(before, limit, now).Admit? && a <= now <= b then 1 else 0),
                    now, Quota(limit), windowMs, a, b)
  {
    if Decide(before, limit, now).Admit? && a <= now <= b {
      AdmissionKeepsSpread(before, admitted, limit, windowMs, a, b, now);
      var after := Some(NextEntry(before, limit, windowMs, now));
      var windows: nat :| Spread(after, admitted + 1, windows, Quota(limit), windowMs, a, b);
      SpreadBounds(after, admitted + 1, windows, Quota(limit), windowMs, a, b);
    }
  }

  lemma AloneStep(events: seq<Event>, key: string, a: int, b: int)
    requires Monotone(events) && |events| > 0
    ensures var prev, e := events[..|events| - 1], events[|events| - 1];
            var before := EntryAlone(prev, key);
            if IsFor(e, key) then
              && EntryAlone(events, key) == Some(NextEntry(before, e.limit, e.windowMs, e.at))
              && AdmittedIn(events, key, a, b)
                 == AdmittedIn(prev, key, a, b) + (if Decide(before, e.limit, e.at).Admit? && a <= e.at <= b then 1 else 0)
            else
              EntryAlone(events, key) == before && AdmittedIn(events, key, a, b) == AdmittedIn(prev, key, a, b)
  {
    var prev := events[..|events| - 1];
    SharedMatchesAlone(prev, key);
    assert |prev| > 0 ==> events[|prev| - 1].at <= events[|prev|].at;
  }

  lemma {:induction false} BoundHolds(events: seq<Event>, key: string, limit: nat, windowMs: nat, a: int, b: int, now: int)
    requires Monotone(events) && UnderPolicy(events, key, limit, windowMs) && windowMs >= 1 && a <= b
    requires |events| > 0 ==> events[|events| - 1].at <= now
    ensures Bounded(EntryAlone(events, key), AdmittedIn(events, key, a, b), now, Quota(limit), windowMs, a, b)
  {
    if |events| > 0 {
      var prev, e := events[..|events| - 1], events[|events| - 1];
      assert |prev| > 0 ==> events[|prev| - 1].at <= e.at;
      BoundHolds(prev, key, limit, windowMs, a, b, e.at);
      AloneStep(events, key, a, b);
      if IsFor(e, key) {
        RequestKeepsBounded(EntryAlone(prev, key), AdmittedIn(prev, key, a, b), limit, windowMs, a, b, e.at);
      }
    } else {
      MostIsNat(b - a, windowMs, Quota(limit));
    }
  }

  lemma MostIsNat(length: nat, windowMs: nat, quota: nat)
    requires windowMs >= 1 && quota >= 1
    ensures MostAdmitted(length, windowMs, quota) >= 0
  {
    Arithmetic.MulMono(1, Ceil(length, windowMs) + 1, quota);
  }

  lemma OneWindow(windowMs: nat, quota: nat)
    requires windowMs >= 1
    ensures MostAdmitted(windowMs, windowMs, quota) == 2 * quota
  {
    assert windowMs + windowMs - 1 == windowMs * 1 + (windowMs - 1);
  }

  /**
   Sliding bound: in any closed interval of a given length one bucket is admitted at most
   `MostAdmitted` requests; so at most twice the quota in an interval of one window's length.
   */
  lemma {:induction false} SlidingBound(events: seq<Event>, key: string, limit: nat, windowMs: nat, a: int, length: nat)
    requires Monotone(events) && UnderPolicy(events, key, limit, windowMs) && windowMs >= 1
    ensures AdmittedIn(events, key, a, a + length) <= MostAdmitted(length, windowMs, Quota(limit))
    ensures length == windowMs ==> AdmittedIn(events, key, a, a + length) <= 2 * Quota(limit)
  {
    BoundHolds(events, key, limit, windowMs, a, a + length, if |events| > 0 then events[|events| - 1].at else a);
    if length == windowMs {
      OneWindow(windowMs, Quota(limit));
    }
  }

  /**
   Per window: from the request at index `i` that opens a window until that window ends, the
   counter is the number of requests admitted, and that is at most the quota.
   */
  lemma {:induction false} WindowQuota(events: seq<Event>, key: string, i: nat, limit: nat, windowMs: nat, end: int)
    requires Monotone(events) && UnderPolicy(events, key, limit, windowMs) && windowMs >= 1
    requires i < |events| && IsFor(events[i], key) && Expired(EntryAlone(events[..i], key), events[i].at)
    requires end == events[i].at + windowMs && events[|events| - 1].at < end
    ensures var entry := EntryAlone(events, key);
            && entry.Some? && entry.value.resetAt == end
            && 1 <= entry.value.count <= Quota(limit)
            && AdmittedIn(events, key, events[i].at, end) == AdmittedIn(events[..i], key, events[i].at, end) + entry.value.count
  {
    var last := |events| - 1;
    var prev := events[..last];
    AloneStep(events, key, events[i].at, end);
    assert IsFor(events[last], key) ==> events[last].limit == limit && events[last].windowMs == windowMs;
    if i < last {
      assert prev[..i] == events[..i];
      assert events[last - 1].at <= events[last].at && events[i].at <= events[last].at;
      WindowQuota(prev, key, i, limit, windowMs, end);
    }
  }

  // ---------------------------------------------------------------- the bound is reached

  lemma AdmittedSnoc(events: seq<Event>, r: Event, a: int, b: int)
    requires r.Request?
    ensures HitsAfter(events + [r]) == Step(HitsAfter(events), r)
    ensures AdmittedIn(events + [r], r.key, a, b)
            == AdmittedIn(events, r.key, a, b) + if DecisionAfter(events, r).Admit? && a <= r.at <= b then 1 else 0
  {
    assert (events + [r])[..|events|] == events;
  }

  /** One bucket under one policy, and the interval in which its admissions are counted. */
  datatype Scene = Scene(key: string, limit: nat, windowMs: nat, a: int, b: int)

  /** A lawful history up to this time, what it has got through, and the counter it leaves. */
  ghost predicate Leaves(x: Scene, events: seq<Event>, until: int, admitted: int, entry: Option<Entry>) {
    && Monotone(events) && UnderPolicy(events, x.key, x.limit, x.windowMs)
    && (forall i :: 0 <= i < |events| ==> events[i].at <= until)
    && AdmittedIn(events, x.key, x.a, x.b) == admitted
    && Lookup(HitsAfter(events), x.key) == entry
  }

  lemma NothingYet(x: Scene, until: int)
    ensures Leaves(x, [], until, 0, None)
  {
  }

  lemma OneMore(x: Scene, history: seq<Event>, until: int, admitted: int, entry: Option<Entry>, at: int) returns (events: seq<Event>)
    requires Leaves(x, history, until, admitted, entry) && until <= at
    requires Expired(entry, at) || entry.value.count < x.limit
    ensures Leaves(x, events, at, admitted + (if x.a <= at <= x.b then 1 else 0), Some(NextEntry(entry, x.limit, x.windowMs, at)))
  {
    var r := Request(x.key, x.limit, x.windowMs, at);
    AdmittedSnoc(history, r, x.a, x.b);
    events := history + [r];
  }

  /** More requests in a window that is open and has room for them. */
  lemma {:induction false} FillWindow(x: Scene, history: seq<Event>, until: int, admitted: int, open: Entry, at: int, n: nat)
      returns (events: seq<Event>)
    requires Leaves(x, history, until, admitted, Some(open)) && until <= at && x.a <= at <= x.b
    requires at < open.resetAt && (n == 0 || open.count + n <= x.limit)
    ensures Leaves(x, events, at, admitted + n, Some(Entry(open.count + n, open.resetAt)))
    decreases n
  {
    if n > 0 {
      events := OneMore(x, history, until, admitted, Some(open), at);
      events := FillWindow(x, events, at, admitted + 1, Entry(open.count + 1, open.resetAt), at, n - 1);
    } else {
      events := history;
    }
  }

  /** A full quota at a moment when the previous window has run out. */
  lemma FreshWindow(x: Scene, history: seq<Event>, until: int, admitted: int, before: Option<Entry>, at: int) returns (events: seq<Event>)
    requires Leaves(x, history, until, admitted, before) && until <= at && x.a <= at <= x.b
    requires x.windowMs >= 1 && Expired(before, at)
    ensures Leaves(x, events, at, admitted + Quota(x.limit), Some(Entry(Quota(x.limit), at + x.windowMs)))
  {
    events := OneMore(x, history, until, admitted, before, at);
    events := FillWindow(x, events, at, admitted + 1, Entry(1, at + x.windowMs), at, Quota(x.limit) - 1);
  }

  /** Full quotas at the start of `n` windows in a row. */
  lemma {:induction false} Train(x: Scene, history: seq<Event>, until: int, admitted: int, before: Option<Entry>, start: int, n: nat)
      returns (events: seq<Event>)
    requires Leaves(x, history, until, admitted, before) && until <= start && Expired(before, start)
    requires x.windowMs >= 1 && x.a <= start && (n > 0 ==> start + (n - 1) * x.windowMs <= x.b)
    ensures Monotone(events) && UnderPolicy(events, x.key, x.limit, x.windowMs)
    ensures AdmittedIn(events, x.key, x.a, x.b) == admitted + n * Quota(x.limit)
    decreases n
  {
    if n > 0 {
      var q := Quota(x.limit);
      TrainSteps(x.windowMs, q, n);
      events := FreshWindow(x, history, until, admitted, before, start);
      events := Train(x, events, start, admitted + q, Some(Entry(q, start + x.windowMs)), start + x.windowMs, n - 1);
    } else {
      events := history;
    }
  }

  lemma TrainSteps(windowMs: nat, quota: nat, n: nat)
    requires n > 0
    ensures 0 <= (n - 1) * windowMs
    ensures n > 1 ==> (n - 1) * windowMs == (n - 2) * windowMs + windowMs
    ensures n * quota == (n - 1) * quota + quota
  {
  }

  /** This history gets that many requests through from `a` for a stretch of the given length. */
  ghost predicate Reaches(events: seq<Event>, key: string, limit: nat, windowMs: nat, a: int, length: nat, n: int) {
    Monotone(events) && UnderPolicy(events, key, limit, windowMs) && AdmittedIn(events, key, a, a + length) == n
  }

  /** A whole number of windows: a full quota at each end and at every boundary between. */
  lemma WholeWindowsReach(key: string, limit: nat, windowMs: nat, length: nat) returns (events: seq<Event>)
    requires windowMs >= 1 && length % windowMs == 0
    ensures Reaches(events, key, limit, windowMs, 0, length, MostAdmitted(length, windowMs, Quota(limit)))
  {
    var x := Scene(key, limit, windowMs, 0, length);
    WholeCeil(length, windowMs);
    NothingYet(x, 0);
    events := Train(x, [], 0, 0, None, 0, length / windowMs + 1);
  }

  lemma WholeCeil(length: nat, windowMs: nat)
    requires windowMs >= 1 && length % windowMs == 0
    ensures Ceil(length, windowMs) == length / windowMs && (length / windowMs) * windowMs == length
  {
    var c := length / windowMs;
    assert c * windowMs == length;
    CeilCounts(c - 1, windowMs, length) by {
      assert (c - 1) * windowMs == c * windowMs - windowMs;
    }
    var d := Ceil(length, windowMs);
    assert (d - 1) * windowMs < length by {
      assert d * windowMs <= length + windowMs - 1;
      assert (d - 1) * windowMs == d * windowMs - windowMs;
    }
    if d - 1 >= c {
      Arithmetic.MulMono(c, d - 1, windowMs);
    }
  }

  /** Otherwise open a window just before, fill it just inside, then a full quota at every boundary. */
  lemma PartWindowsReach(key: string, limit: nat, windowMs: nat, length: nat) returns (events: seq<Event>)
    requires windowMs >= 1 && length % windowMs != 0
    ensures Reaches(events, key, limit, windowMs, windowMs, length, MostAdmitted(length, windowMs, Quota(limit)))
  {
    var x := Scene(key, limit, windowMs, windowMs, windowMs + length);
    var q := Quota(limit);
    PartCeil(length, windowMs, q);
    NothingYet(x, 1);
    events := OneMore(x, [], 1, 0, None, 1);
    events := FillWindow(x, events, 1, 0, Entry(1, windowMs + 1), windowMs, q - 1);
    events := Train(x, events, windowMs, q - 1, Some(Entry(q, windowMs + 1)), windowMs + 1, Ceil(length, windowMs));
  }

  lemma PartCeil(length: nat, windowMs: nat, quota: nat)
    requires windowMs >= 1 && length % windowMs != 0
    ensures windowMs >= 2 && Ceil(length, windowMs) >= 1 && (Ceil(length, windowMs) - 1) * windowMs < length
    ensures MostAdmitted(length, windowMs, quota) == quota - 1 + Ceil(length, windowMs) * quota
  {
    var d := Ceil(length, windowMs);
    assert d * windowMs <= length + windowMs - 1;
    assert (d - 1) * windowMs == d * windowMs - windowMs;
    assert (d + 1) * quota == d * quota + quota;
    CeilCounts(0, windowMs, length);
  }

  /** So many do get through for some history and interval of every length: the bound cannot be lowered. */
  lemma {:induction false} SlidingBoundIsTight(key: string, limit: nat, windowMs: nat, length: nat)
    requires windowMs >= 1
    ensures exists events, a :: Reaches(events, key, limit, windowMs, a, length, MostAdmitted(length, windowMs, Quota(limit)))
  {
    if length % windowMs == 0 {
      var events := WholeWindowsReach(key, limit, windowMs, length);
    } else {
      var events := PartWindowsReach(key, limit, windowMs, length);
    }
  }

  // ---------------------------------------------------------------- coming back later

  /** Once rejected, nothing about the bucket has changed; after Retry-After its window is over, not before. */
  lemma RetryAfterSuffices(hits: map<string, Entry>, r: Event, later: int)
    requires r.Request? && Decide(Lookup(hits, r.key), r.limit, r.at).Reject?
    ensures var seconds := Decide(Lookup(hits, r.key), r.limit, r.at).retryAfterSeconds;
            && seconds >= 1
            && Step(hits, r) == hits
            && (later >= r.at + 1000 * seconds ==>
                  Decide(Lookup(hits, r.key), r.limit, later).Admit?)
            && (r.at <= later <= r.at + 1000 * (seconds - 1) ==>
                  Decide(Lookup(hits, r.key), r.limit, later).Reject?)
  {
    var left := hits[r.key].resetAt - r.at;
    assert 1000 * ((left + 999) / 1000) >= left > 1000 * ((left + 999) / 1000 - 1);
    assert hits[r.key := hits[r.key]] == hits;
  }

  // ---------------------------------------------------------------- the guard

  predicate HealthPath(path: string) {
    "/health" <= path
  }

  class RateLimitGuard {
    var hits: map<string, Entry>

    constructor ()
      ensures hits == map[]
    {
      hits := map[];
    }

    method CanActivate(httpMethod: string, path: string, ip: Option<string>, now: int) returns (decision: Decision)
      modifies this
      ensures |path| >= 7 && path[..7] == "/health" ==> decision.Admit? && hits == old(hits)
      ensures !(|path| >= 7 && path[..7] == "/health") ==>
                var policy := FindRateLimitPolicy(httpMethod, path);
                var key := policy.tier + ":" + (if ip.Some? then ip.value else "unknown");
                && (decision.Reject? <==>
                      key in old(hits) && now < old(hits)[key].resetAt && old(hits)[key].count >= policy.limit)
                && decision == Decide(Lookup(old(hits), key), policy.limit, now)
                && hits == Step(old(hits), Request(key, policy.limit, policy.windowMs, now))
    {
      if HealthPath(path) {
        return Admit;
      }
      var policy := FindRateLimitPolicy(httpMethod, path);
      var key := BucketKey(policy.tier, if ip.Some? then ip.value else "unknown");
      if key !in hits || hits[key].resetAt <= now {
        hits := hits[key := Entry(1, now + policy.windowMs)];
        return Admit;
      }
      var existing := hits[key];
      if existing.count >= policy.limit {
        assert hits[key := existing] == hits;
        return Reject(Ceil(existing.resetAt - now, 1000));
      }
      hits := hits[key := existing.(count := existing.count + 1)];
      return Admit;
    }

    /** One tick of the interval timer: visits every counter and deletes the expired ones. */
    method SweepExpired(now: int)
      modifies this
      ensures hits == Step(old(hits), Sweep(now))
      ensures forall key :: key in hits <==> key in old(hits) && old(hits)[key].resetAt > now
      ensures forall key :: key in hits ==> hits[key] == old(hits)[key]
    {
      var pending := hits.Keys;
      while pending != {}
        invariant pending <= old(hits.Keys)
        invariant hits == map key | key in old(hits) && (key in pending || old(hits)[key].resetAt > now) :: old(hits)[key]
        decreases |pending|
      {
        var key :| key in pending;
        if hits[key].resetAt <= now {
          hits := hits - {key};
        }
        pending := pending - {key};
      }
    }
  }
}
