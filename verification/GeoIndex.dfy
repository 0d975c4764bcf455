/**
 The driver index of driver-geo-index.ts: a geo set whose members never expire by themselves,
 a heartbeat key per driver that does, and searches that evict the stale members they meet.
 Each Redis command is one step on the index; what GEOSEARCH answers is constrained only by its
 documented contract, so ties in distance may come back in any order.
 */
module GeoIndex {
  import Arithmetic

  datatype Point = Point(lat: real, lng: real)

  datatype Index = Index(geo: map<string, Point>, heartbeats: map<string, int>)

  /** What is asked: a distance for every member position, a radius and a COUNT. */
  datatype Query = Query(distance: Point -> real, radiusKm: real, limit: int)

  predicate Alive(x: Index, driver: string, now: int) {
    driver in x.heartbeats && now < x.heartbeats[driver]
  }

  predicate InRange(x: Index, q: Query, driver: string) {
    driver in x.geo && q.distance(x.geo[driver]) <= q.radiusKm
  }

  function Members(x: Index, q: Query): set<string> {
    set d | d in x.geo && InRange(x, q, d)
  }

  /** The drivers a search ought to see: in range, with a heartbeat that has not lapsed. */
  function LiveInRange(x: Index, q: Query, now: int): set<string> {
    set d | d in x.geo && InRange(x, q, d) && Alive(x, d, now)
  }

  function Stale(x: Index, now: int): set<string> {
    set d | d in x.geo && !Alive(x, d, now)
  }

  ghost predicate Distinct(s: seq<string>) {
    forall i, j :: 0 <= i < j < |s| ==> s[i] != s[j]
  }

  ghost predicate Ascending(x: Index, q: Query, s: seq<string>) {
    && (forall i :: 0 <= i < |s| ==> s[i] in x.geo)
    && forall i, j :: 0 <= i < j < |s| ==> q.distance(x.geo[s[i]]) <= q.distance(x.geo[s[j]])
  }

  /** A listing of exactly this set of members, nearest first. */
  ghost predicate Ranking(x: Index, q: Query, s: seq<string>, of: set<string>) {
    Distinct(s) && Ascending(x, q, s) && forall d :: d in s <==> d in of
  }

  /** The nearest `limit` of a set of members: the first entries of some ranking of it. */
  ghost predicate TopOf(x: Index, q: Query, s: seq<string>, of: set<string>) {
    exists ranking :: Ranking(x, q, ranking, of) && s <= ranking
                      && |s| == if q.limit <= |ranking| then q.limit else |ranking|
  }

  /** GEOSEARCH ... BYRADIUS ... ASC COUNT limit. */
  ghost predicate IsSearchReply(x: Index, q: Query, raw: seq<string>) {
    q.limit >= 1 && TopOf(x, q, raw, Members(x, q))
  }

  // ---------------------------------------------------------------- one search

  /** The EXISTS reply of this driver counts as live; one whose command failed (`errs`) does not. */
  predicate Answers(x: Index, driver: string, now: int, errs: set<string>) {
    Alive(x, driver, now) && driver !in errs
  }

  /** No EXISTS command failed for a listed driver that is live. */
  ghost predicate Heard(x: Index, raw: seq<string>, now: int, errs: set<string>) {
    forall d :: d in raw && Alive(x, d, now) ==> d !in errs
  }

  function Kept(x: Index, raw: seq<string>, now: int, errs: set<string>): seq<string> {
    if |raw| == 0 then []
    else
      var rest := Kept(x, raw[..|raw| - 1], now, errs);
      if Answers(x, raw[|raw| - 1], now, errs) then rest + [raw[|raw| - 1]] else rest
  }

  function Evicted(x: Index, raw: seq<string>, now: int, errs: set<string>): set<string> {
    set d | d in raw && !Answers(x, d, now, errs)
  }

  function AfterSearch(x: Index, raw: seq<string>, now: int, errs: set<string>): Index {
    x.(geo := x.geo - Evicted(x, raw, now, errs))
  }

  lemma {:induction false} KeptFacts(x: Index, q: Query, raw: seq<string>, now: int, errs: set<string>)
    requires Distinct(raw) && Ascending(x, q, raw)
    ensures var live := Kept(x, raw, now, errs);
            && Distinct(live) && Ascending(x, q, live)
            && (forall d :: d in live <==> d in raw && Answers(x, d, now, errs))
            && |live| <= |raw|
            && (|live| == |raw| ==> live == raw)
  {
    if |raw| > 0 {
      var prev := raw[..|raw| - 1];
      var last := raw[|raw| - 1];
      KeptFacts(x, q, prev, now, errs);
      assert raw == prev + [last];
      var live := Kept(x, raw, now, errs);
      forall i, j | 0 <= i < j < |live|
        ensures live[i] != live[j] && q.distance(x.geo[live[i]]) <= q.distance(x.geo[live[j]])
      {
        assert live[i] in prev;
        var k :| 0 <= k < |prev| && prev[k] == live[i];
        assert raw[k] == live[i];
      }
    }
  }

  lemma Insertable(x: Index, q: Query, s: seq<string>, d: string) returns (t: seq<string>)
    requires Distinct(s) && Ascending(x, q, s) && d in x.geo && d !in s
    ensures Distinct(t) && Ascending(x, q, t) && forall e :: e in t <==> e in s || e == d
    decreases |s|
  {
    if |s| == 0 {
      t := [d];
    } else {
      var last := s[|s| - 1];
      var prev := s[..|s| - 1];
      assert s == prev + [last];
      if q.distance(x.geo[last]) <= q.distance(x.geo[d]) {
        t := s + [d];
      } else {
        var u := Insertable(x, q, prev, d);
        t := u + [last];
        assert last !in u;
        forall i | 0 <= i < |u|
          ensures q.distance(x.geo[u[i]]) <= q.distance(x.geo[last])
        {
          assert u[i] in prev || u[i] == d;
          if u[i] in prev {
            var k :| 0 <= k < |prev| && prev[k] == u[i];
            assert s[k] == u[i];
          }
        }
      }
    }
  }

  /** Any finite set of members can be ranked. */
  lemma {:induction false} Rankable(x: Index, q: Query, of: set<string>) returns (s: seq<string>)
    requires of <= x.geo.Keys
    ensures Ranking(x, q, s, of)
    decreases |of|
  {
    if of == {} {
      s := [];
    } else {
      var d :| d in of;
      var rest := Rankable(x, q, of - {d});
      s := Insertable(x, q, rest, d);
    }
  }

  /** A list that is nowhere farther than the rest of its set is a prefix of a ranking of that set. */
  lemma PrefixExtends(x: Index, q: Query, s: seq<string>, of: set<string>) returns (ranking: seq<string>)
    requires of <= x.geo.Keys && Distinct(s) && Ascending(x, q, s)
    requires forall d :: d in s ==> d in of
    requires forall d, e :: d in s && e in of && e !in s ==> q.distance(x.geo[d]) <= q.distance(x.geo[e])
    ensures Ranking(x, q, ranking, of) && s <= ranking
  {
    var others := set d | d in of && d !in s;
    var rest := Rankable(x, q, others);
    ranking := s + rest;
    forall i, j | 0 <= i < j < |ranking|
      ensures ranking[i] != ranking[j] && q.distance(x.geo[ranking[i]]) <= q.distance(x.geo[ranking[j]])
    {
      if i < |s| <= j {
        assert ranking[i] in s && ranking[j] in rest;
      }
    }
  }

  /** In a reply, whatever was not listed is at least as far as everything that was. */
  lemma ReplyIsNearest(x: Index, q: Query, raw: seq<string>, d: string, e: string)
    requires IsSearchReply(x, q, raw)
    requires d in raw && e in Members(x, q) && e !in raw
    ensures q.distance(x.geo[d]) <= q.distance(x.geo[e]) && |raw| == q.limit
  {
    var ranking :| Ranking(x, q, ranking, Members(x, q)) && raw <= ranking
                   && |raw| == if q.limit <= |ranking| then q.limit else |ranking|;
    var i :| 0 <= i < |raw| && raw[i] == d;
    var j :| 0 <= j < |ranking| && ranking[j] == e;
    forall k | 0 <= k < |raw|
      ensures ranking[k] != e
    {
      assert ranking[k] == raw[k];
    }
    assert ranking[i] == d;
  }

  lemma ReplyShape(x: Index, q: Query, raw: seq<string>)
    requires IsSearchReply(x, q, raw)
    ensures Distinct(raw) && Ascending(x, q, raw) && |raw| <= q.limit
    ensures forall d :: d in raw ==> d in Members(x, q)
  {
    var ranking :| Ranking(x, q, ranking, Members(x, q)) && raw <= ranking
                   && |raw| == if q.limit <= |ranking| then q.limit else |ranking|;
    forall d | d in raw
      ensures d in Members(x, q)
    {
      assert d in ranking;
    }
    forall i, j | 0 <= i < j < |raw|
      ensures raw[i] != raw[j] && raw[i] in x.geo && q.distance(x.geo[raw[i]]) <= q.distance(x.geo[raw[j]])
    {
      assert raw[i] == ranking[i] && raw[j] == ranking[j];
    }
  }

  lemma LiveAreUntouched(x: Index, q: Query, raw: seq<string>, now: int, errs: set<string>)
    requires Heard(x, raw, now, errs)
    ensures LiveInRange(AfterSearch(x, raw, now, errs), q, now) == LiveInRange(x, q, now)
  {
  }

  /**
   Lazy eviction is sound: a search answers a prefix of the ideal list of live drivers in range,
   nearest first, and leaves every live driver in the index.
   */
  lemma {:induction false} SearchIsIdealPrefix(x: Index, q: Query, raw: seq<string>, now: int, errs: set<string>)
    requires IsSearchReply(x, q, raw) && Heard(x, raw, now, errs)
    ensures exists ideal :: Ranking(x, q, ideal, LiveInRange(x, q, now)) && Kept(x, raw, now, errs) <= ideal
    ensures |Kept(x, raw, now, errs)| <= q.limit
    ensures LiveInRange(AfterSearch(x, raw, now, errs), q, now) == LiveInRange(x, q, now)
  {
    LiveAreUntouched(x, q, raw, now, errs);
    ReplyShape(x, q, raw);
    KeptFacts(x, q, raw, now, errs);
    var live := Kept(x, raw, now, errs);
    var all := LiveInRange(x, q, now);
    forall d, e | d in live && e in all && e !in live
      ensures q.distance(x.geo[d]) <= q.distance(x.geo[e])
    {
      assert e !in raw;
      ReplyIsNearest(x, q, raw, d, e);
    }
    forall d | d in live
      ensures d in all
    {
      assert d in Members(x, q);
    }
    var ideal := PrefixExtends(x, q, live, all);
  }

  /**
   A search evicts only stale members exactly when no EXISTS command failed for a live one: a
   failed command reads as zero, and the live driver is dropped from the index.
   */
  lemma EvictsOnlyStaleIff(x: Index, q: Query, raw: seq<string>, now: int, errs: set<string>)
    requires IsSearchReply(x, q, raw)
    ensures Evicted(x, raw, now, errs) <= Stale(x, now) <==> Heard(x, raw, now, errs)
  {
    ReplyShape(x, q, raw);
    forall d | d in raw
      ensures d in x.geo
    {
      assert d in Members(x, q);
    }
    if Evicted(x, raw, now, errs) <= Stale(x, now) {
      forall d | d in raw && Alive(x, d, now)
        ensures d !in errs
      {
        assert d !in Stale(x, now);
      }
    }
  }

  /** A search that evicts nobody has answered the ideal list of the nearest `limit` live drivers. */
  lemma {:induction false} QuietSearchIsIdeal(x: Index, q: Query, raw: seq<string>, now: int, errs: set<string>)
    requires IsSearchReply(x, q, raw) && Evicted(x, raw, now, errs) == {}
    ensures TopOf(x, q, Kept(x, raw, now, errs), LiveInRange(x, q, now))
    ensures Kept(x, raw, now, errs) == raw
  {
    ReplyShape(x, q, raw);
    KeptFacts(x, q, raw, now, errs);
    var live := Kept(x, raw, now, errs);
    forall d | d in raw
      ensures Answers(x, d, now, errs)
    {
      assert d !in Evicted(x, raw, now, errs);
    }
    KeptAll(x, raw, now, errs);
    SearchIsIdealPrefix(x, q, raw, now, errs);
    var all := LiveInRange(x, q, now);
    var ideal :| Ranking(x, q, ideal, all) && live <= ideal;
    if |live| < q.limit && |live| < |ideal| {
      var e := ideal[|live|];
      assert e in all;
      forall k | 0 <= k < |live|
        ensures live[k] != e
      {
        assert live[k] == ideal[k];
      }
      assert e in Members(x, q);
      if |raw| > 0 {
        ReplyIsNearest(x, q, raw, raw[0], e);
      } else {
        EmptyReply(x, q, raw, e);
      }
      assert false;
    }
    assert |live| <= |ideal|;
  }

  lemma EmptyReply(x: Index, q: Query, raw: seq<string>, e: string)
    requires IsSearchReply(x, q, raw) && raw == []
    ensures e !in Members(x, q)
  {
  }

  lemma {:induction false} KeptAll(x: Index, raw: seq<string>, now: int, errs: set<string>)
    requires forall d :: d in raw ==> Answers(x, d, now, errs)
    ensures Kept(x, raw, now, errs) == raw
  {
    if |raw| > 0 {
      assert raw == raw[..|raw| - 1] + [raw[|raw| - 1]];
      KeptAll(x, raw[..|raw| - 1], now, errs);
    }
  }

  // ---------------------------------------------------------------- repeated searches

  /** Repeated searches at one fixed time: each entry is the reply GEOSEARCH gave to that search. */
  function AfterSearches(x: Index, replies: seq<seq<string>>, now: int): Index {
    if |replies| == 0 then x
    else AfterSearch(AfterSearches(x, replies[..|replies| - 1], now), replies[|replies| - 1], now, {})
  }

  ghost predicate IsConversation(x: Index, q: Query, replies: seq<seq<string>>, now: int) {
    |replies| > 0 ==>
      && IsConversation(x, q, replies[..|replies| - 1], now)
      && IsSearchReply(AfterSearches(x, replies[..|replies| - 1], now), q, replies[|replies| - 1])
  }

  ghost predicate IdealAt(x: Index, q: Query, replies: seq<seq<string>>, now: int, i: nat)
    requires i < |replies|
  {
    var before := AfterSearches(x, replies[..i], now);
    TopOf(before, q, Kept(before, replies[i], now, {}), LiveInRange(before, q, now))
  }

  /** How many of the searches did not answer the ideal list. */
  ghost function Shortfalls(x: Index, q: Query, replies: seq<seq<string>>, now: int): nat {
    if |replies| == 0 then 0
    else
      Shortfalls(x, q, replies[..|replies| - 1], now)
      + if IdealAt(x, q, replies, now, |replies| - 1) then 0 else 1
  }

  lemma EvictionShrinksStale(x: Index, q: Query, raw: seq<string>, now: int)
    requires IsSearchReply(x, q, raw)
    ensures |Stale(AfterSearch(x, raw, now, {}), now)| + |Evicted(x, raw, now, {})| == |Stale(x, now)|
  {
    ReplyShape(x, q, raw);
    var before, after, gone := Stale(x, now), Stale(AfterSearch(x, raw, now, {}), now), Evicted(x, raw, now, {});
    forall d | d in gone
      ensures d in before
    {
      assert d in Members(x, q);
    }
    assert after == before - gone;
    assert |before| == |before - gone| + |gone|;
  }

  /**
   Convergence: at a fixed time, every search either evicts a stale member or answers the ideal
   top-limit list, so however long it is repeated, at most as many answers fall short as there
   were stale members at the start. The live drivers themselves are never touched.
   */
  lemma {:induction false} SearchesConverge(x: Index, q: Query, replies: seq<seq<string>>, now: int)
    requires IsConversation(x, q, replies, now)
    ensures Shortfalls(x, q, replies, now) + |Stale(AfterSearches(x, replies, now), now)| <= |Stale(x, now)|
    ensures LiveInRange(AfterSearches(x, replies, now), q, now) == LiveInRange(x, q, now)
  {
    if |replies| > 0 {
      var last := |replies| - 1;
      var prev := replies[..last];
      SearchesConverge(x, q, prev, now);
      var before := AfterSearches(x, prev, now);
      EvictionShrinksStale(before, q, replies[last], now);
      SearchIsIdealPrefix(before, q, replies[last], now, {});
      if Evicted(before, replies[last], now, {}) == {} {
        QuietSearchIsIdeal(before, q, replies[last], now, {});
      }
    }
  }

  /** What one search answers and leaves behind, in the index's own columns. */
  lemma {:induction false} NearbyAnswer(x: Index, q: Query, raw: seq<string>, now: int, errs: set<string>)
    requires IsSearchReply(x, q, raw)
    ensures var live, after := Kept(x, raw, now, errs), AfterSearch(x, raw, now, errs);
            && (forall d :: d in live <==> d in raw && d !in errs && d in x.heartbeats && now < x.heartbeats[d])
            && (forall d :: d in after.geo <==> d in x.geo && (d in raw ==> d in live))
            && (Heard(x, raw, now, errs) ==> exists ideal :: Ranking(x, q, ideal, LiveInRange(x, q, now)) && live <= ideal)
            && (after == x ==> TopOf(x, q, live, LiveInRange(x, q, now)))
            && (Evicted(x, raw, now, errs) == {} ==> after == x)
  {
    ReplyShape(x, q, raw);
    KeptAnswers(x, raw, now, errs);
    if Heard(x, raw, now, errs) {
      SearchIsIdealPrefix(x, q, raw, now, errs);
    }
    if AfterSearch(x, raw, now, errs) == x {
      NoneEvicted(x, raw, now, errs);
      QuietSearchIsIdeal(x, q, raw, now, errs);
    }
  }

  lemma NoneEvicted(x: Index, raw: seq<string>, now: int, errs: set<string>)
    requires AfterSearch(x, raw, now, errs) == x && forall d :: d in raw ==> d in x.geo
    ensures Evicted(x, raw, now, errs) == {}
  {
    forall d | d in x.geo
      ensures d !in Evicted(x, raw, now, errs)
    {
      assert d in AfterSearch(x, raw, now, errs).geo;
    }
  }

  // ---------------------------------------------------------------- over whole histories

  /** One use of the index; a search is given by what Redis listed and which EXISTS or GEOPOS it lost. */
  datatype Use =
    | Upsert(driver: string, at: Point, ttl: nat, now: int)
    | Search(listed: seq<string>, now: int, errs: set<string>)
    | AnyOnline(listed: seq<string>, now: int, errs: set<string>, unplaced: set<string>)

  function Upserted(x: Index, driver: string, at: Point, ttl: nat, now: int): Index {
    Index(x.geo[driver := at], x.heartbeats[driver := now + ttl])
  }

  /** The EXISTS or GEOPOS replies that count against a driver. */
  function Unanswered(use: Use): set<string> {
    match use
    case Upsert(_, _, _, _) => {}
    case Search(_, _, errs) => errs
    case AnyOnline(_, _, errs, unplaced) => errs + unplaced
  }

  function Apply(x: Index, use: Use): Index {
    if use.Upsert? then Upserted(x, use.driver, use.at, use.ttl, use.now)
    else AfterSearch(x, use.listed, use.now, Unanswered(use))
  }

  function After(uses: seq<Use>): Index {
    if |uses| == 0 then Index(map[], map[]) else Apply(After(uses[..|uses| - 1]), uses[|uses| - 1])
  }

  function Answer(x: Index, use: Use): seq<string>
    requires !use.Upsert?
  {
    Kept(x, use.listed, use.now, Unanswered(use))
  }

  /** Use number `i` is the last location update of this driver. */
  ghost predicate LastUpdate(uses: seq<Use>, driver: string, i: nat) {
    && i < |uses| && uses[i].Upsert? && uses[i].driver == driver
    && forall j :: i < j < |uses| && uses[j].Upsert? ==> uses[j].driver != driver
  }

  ghost predicate NeverUpdated(uses: seq<Use>, driver: string) {
    forall j :: 0 <= j < |uses| && uses[j].Upsert? ==> uses[j].driver != driver
  }

  /** This search listed the driver and got no reply for him, or met him after his time. */
  ghost predicate DroppedBy(use: Use, driver: string, until: int) {
    !use.Upsert? && driver in use.listed && (driver in Unanswered(use) || use.now >= until)
  }

  ghost predicate DroppedSince(uses: seq<Use>, driver: string, i: nat, until: int) {
    exists j :: i < j < |uses| && DroppedBy(uses[j], driver, until)
  }

  lemma DroppedSnoc(uses: seq<Use>, driver: string, i: nat, until: int)
    requires i < |uses| - 1
    ensures DroppedSince(uses, driver, i, until) <==>
            DroppedSince(uses[..|uses| - 1], driver, i, until) || DroppedBy(uses[|uses| - 1], driver, until)
  {
    var prev := uses[..|uses| - 1];
    if DroppedSince(prev, driver, i, until) {
      var j :| i < j < |prev| && DroppedBy(prev[j], driver, until);
      assert DroppedBy(uses[j], driver, until);
    }
    if DroppedSince(uses, driver, i, until) && !DroppedBy(uses[|uses| - 1], driver, until) {
      var j :| i < j < |uses| && DroppedBy(uses[j], driver, until);
      assert DroppedBy(prev[j], driver, until);
    }
  }

  /** One use by another driver, or a search, as this driver sees it. */
  lemma UseStep(x: Index, use: Use, driver: string)
    requires driver in x.heartbeats && !(use.Upsert? && use.driver == driver)
    ensures var y := Apply(x, use);
            && driver in y.heartbeats && y.heartbeats[driver] == x.heartbeats[driver]
            && (driver in y.geo <==> driver in x.geo && !DroppedBy(use, driver, x.heartbeats[driver]))
            && (driver in y.geo ==> y.geo[driver] == x.geo[driver])
  {
  }

  /** A driver's heartbeat and place are those of his last update, and he is in the index until a search drops him. */
  lemma {:induction false} HeartbeatIsLastUpdate(uses: seq<Use>, driver: string, i: nat)
    requires LastUpdate(uses, driver, i)
    ensures driver in After(uses).heartbeats && After(uses).heartbeats[driver] == uses[i].now + uses[i].ttl
    ensures driver in After(uses).geo ==> After(uses).geo[driver] == uses[i].at
    ensures driver in After(uses).geo <==> !DroppedSince(uses, driver, i, uses[i].now + uses[i].ttl)
  {
    var last := |uses| - 1;
    if i < last {
      HeartbeatIsLastUpdate(uses[..last], driver, i);
      DroppedSnoc(uses, driver, i, uses[i].now + uses[i].ttl);
      UseStep(After(uses[..last]), uses[last], driver);
    }
  }

  lemma {:induction false} UnknownUntilUpdated(uses: seq<Use>, driver: string)
    requires NeverUpdated(uses, driver)
    ensures driver !in After(uses).heartbeats && driver !in After(uses).geo
  {
    if |uses| > 0 {
      UnknownUntilUpdated(uses[..|uses| - 1], driver);
    }
  }

  /**
   Heartbeats decide searches, over any history of updates and searches: a listed driver whose replies
   came is in the answer exactly when the search comes before his last update has run out; if he is
   not, he has left the index. One who never sent an update is never answered, and nobody who was
   not listed leaves.
   */
  lemma {:induction false} SearchFollowsUpdates(uses: seq<Use>, search: Use, driver: string, i: nat)
    requires !search.Upsert? && driver in search.listed && driver !in Unanswered(search)
    ensures NeverUpdated(uses, driver) ==> driver !in Answer(After(uses), search)
    ensures LastUpdate(uses, driver, i) ==>
              (driver in Answer(After(uses), search) <==> search.now < uses[i].now + uses[i].ttl)
    ensures driver !in Answer(After(uses), search) ==> driver !in After(uses + [search]).geo
    ensures driver in Answer(After(uses), search) && driver in After(uses).geo ==>
              driver in After(uses + [search]).geo && After(uses + [search]).geo[driver] == After(uses).geo[driver]
  {
    assert (uses + [search])[..|uses|] == uses;
    KeptAnswers(After(uses), search.listed, search.now, Unanswered(search));
    if LastUpdate(uses, driver, i) {
      HeartbeatIsLastUpdate(uses, driver, i);
    }
    if NeverUpdated(uses, driver) {
      UnknownUntilUpdated(uses, driver);
    }
  }

  /** A listed driver without a reply is not answered and has left the index; one not listed is untouched. */
  lemma UnansweredAndUnlisted(uses: seq<Use>, search: Use, driver: string)
    requires !search.Upsert? && (driver !in search.listed || driver in Unanswered(search))
    ensures driver !in Answer(After(uses), search)
    ensures driver in search.listed ==> driver !in After(uses + [search]).geo
    ensures driver !in search.listed ==> (driver in After(uses + [search]).geo <==> driver in After(uses).geo)
  {
    assert (uses + [search])[..|uses|] == uses;
    KeptAnswers(After(uses), search.listed, search.now, Unanswered(search));
  }

  // ---------------------------------------------------------------- the class

  class DriverGeoIndex {
    var geo: map<string, Point>
    var heartbeats: map<string, int>

    function View(): Index
      reads this
    {
      Index(geo, heartbeats)
    }

    constructor ()
      ensures View() == Index(map[], map[])
    {
      geo, heartbeats := map[], map[];
    }

    /** GEOADD, HSET and EXPIRE in one pipeline; the heartbeat lives until `now` plus its TTL. */
    method UpsertLocation(driver: string, at: Point, heartbeatTtl: nat, now: int)
      modifies this
      ensures geo == old(geo)[driver := at] && heartbeats == old(heartbeats)[driver := now + heartbeatTtl]
      ensures View() == Apply(old(View()), Upsert(driver, at, heartbeatTtl, now))
      ensures heartbeatTtl >= 1 ==> Alive(View(), driver, now) && driver !in Stale(View(), now)
    {
      geo := geo[driver := at];
      heartbeats := heartbeats[driver := now + heartbeatTtl];
    }

    /** findNearby on the reply GEOSEARCH gave: split it by heartbeat, then ZREM the stale ones. */
    method FindNearby(ghost q: Query, raw: seq<string>, now: int, errs: set<string>) returns (live: seq<string>)
      requires IsSearchReply(View(), q, raw)
      modifies this
      ensures live == Answer(old(View()), Search(raw, now, errs))
      ensures View() == Apply(old(View()), Search(raw, now, errs))
      ensures heartbeats == old(heartbeats) && forall d :: d in live <==>
                d in raw && d !in errs && d in old(heartbeats) && now < old(heartbeats)[d]
      ensures forall d :: d in geo <==> d in old(geo) && (d in raw ==> d in live)
      ensures forall d :: d in geo ==> geo[d] == old(geo)[d]
      ensures Heard(old(View()), raw, now, errs) ==>
                exists ideal :: Ranking(old(View()), q, ideal, LiveInRange(old(View()), q, now)) && live <= ideal
      ensures View() == old(View()) ==> TopOf(View(), q, live, LiveInRange(View(), q, now))
    {
      live := [];
      var staleIds: set<string> := {};
      for i := 0 to |raw|
        invariant live == Kept(View(), raw[..i], now, errs)
        invariant staleIds == Evicted(View(), raw[..i], now, errs)
      {
        assert raw[..i + 1][..i] == raw[..i];
        if Answers(View(), raw[i], now, errs) {
          live := live + [raw[i]];
        } else {
          staleIds := staleIds + {raw[i]};
        }
      }
      assert raw[..|raw|] == raw;
      NearbyAnswer(View(), q, raw, now, errs);
      if staleIds != {} {
        geo := geo - staleIds;
      }
    }

    /**
     findAnyOnline on the members ZRANGE listed: any distinct members, at least one if there are
     any. `unplaced` are those GEOPOS answered null for, which are evicted with the stale ones. It
     answers the others in that order; an empty answer has cleared the way by evicting.
     */
    method FindAnyOnline(ids: seq<string>, now: int, errs: set<string>, unplaced: set<string>) returns (live: seq<string>)
      requires Distinct(ids) && (forall d :: d in ids ==> d in geo) && (geo != map[] ==> ids != [])
      modifies this
      ensures live == Answer(old(View()), AnyOnline(ids, now, errs, unplaced))
      ensures View() == Apply(old(View()), AnyOnline(ids, now, errs, unplaced))
      ensures heartbeats == old(heartbeats) && forall d :: d in live <==>
                d in ids && d !in errs && d !in unplaced && d in old(heartbeats) && now < old(heartbeats)[d]
      ensures forall d :: d in geo <==> d in old(geo) && (d in ids ==> d in live)
      ensures forall d :: d in geo ==> geo[d] == old(geo)[d]
      ensures live == [] && old(geo) != map[] ==> |geo| < |old(geo)|
    {
      live := [];
      var staleIds: set<string> := {};
      ghost var out := errs + unplaced;
      for i := 0 to |ids|
        invariant live == Kept(View(), ids[..i], now, out)
        invariant staleIds == Evicted(View(), ids[..i], now, out)
      {
        assert ids[..i + 1][..i] == ids[..i];
        if !Answers(View(), ids[i], now, errs) || ids[i] in unplaced {
          staleIds := staleIds + {ids[i]};
        } else {
          live := live + [ids[i]];
        }
      }
      assert ids[..|ids|] == ids;
      KeptAnswers(View(), ids, now, out);
      if live == [] && geo != map[] {
        EmptyAnswerShrinks(View(), ids, now, out);
      }
      geo := geo - staleIds;
    }
  }

  lemma {:induction false} KeptAnswers(x: Index, ids: seq<string>, now: int, errs: set<string>)
    ensures forall d :: d in Kept(x, ids, now, errs) <==> d in ids && Answers(x, d, now, errs)
  {
    if |ids| > 0 {
      assert ids == ids[..|ids| - 1] + [ids[|ids| - 1]];
      KeptAnswers(x, ids[..|ids| - 1], now, errs);
    }
  }

  /** If none of the listed members is live, all of them leave the index. */
  lemma EmptyAnswerShrinks(x: Index, ids: seq<string>, now: int, errs: set<string>)
    requires ids != [] && ids[0] in x.geo && Kept(x, ids, now, errs) == []
    ensures |AfterSearch(x, ids, now, errs).geo| < |x.geo|
  {
    KeptAnswers(x, ids, now, errs);
    assert ids[0] !in Kept(x, ids, now, errs);
    SmallerMap(AfterSearch(x, ids, now, errs).geo, x.geo, ids[0]);
  }

  lemma SmallerMap(a: map<string, Point>, b: map<string, Point>, d: string)
    requires a.Keys <= b.Keys - {d} && d in b
    ensures |a| < |b|
  {
    assert |a.Keys| <= |b.Keys - {d}| by {
      Arithmetic.SubsetSize(a.Keys, b.Keys - {d});
    }
    assert |a| == |a.Keys| && |b| == |b.Keys|;
  }
}
