/** The ranking of src/app/ranking/page.tsx (lines 26-77): per-user counters
    over the settled predictions, the users with at least five of them, and
    two copies of that list sorted by recovery rate and by hit rate. */
module Ranking {
  import opened Wrappers
  import opened Schema
  import opened Stats

  /** The threshold of settled predictions for appearing in the ranking. */
  const MinimumPredictions := 5

  datatype Counters = Counters(totalInvestment: int, totalRefund: int, hits: nat, count: nat)

  const ZeroCounters := Counters(0, 0, 0, 0)

  /** A row of `prisma.user.findMany({select: {id, name}})`; `name` may be null. */
  datatype UserRow = UserRow(id: UserId, name: Option<string>)

  datatype RankUser = RankUser(id: UserId, name: string, totalPredictions: nat, recoveryRate: real, hitRate: real)

  /** `findMany({where: {resultChecked: true}})` over the prediction table. */
  function CheckedRows(rows: seq<Prediction>): (r: seq<Prediction>)
    ensures forall p :: p in r <==> p in rows && p.resultChecked
  {
    if rows == [] then []
    else
      var prefix := CheckedRows(rows[..|rows| - 1]);
      var p := rows[|rows| - 1];
      assert rows == rows[..|rows| - 1] + [p];
      if p.resultChecked then prefix + [p] else prefix
  }

  /** One turn of the aggregation loop: the author's counters, created at
      zero when missing, take one more prediction. */
  function Count(m: map<UserId, Counters>, p: Prediction): map<UserId, Counters> {
    var c := if p.authorId in m then m[p.authorId] else ZeroCounters;
    m[p.authorId := Counters(c.totalInvestment + Investment(p.payload), c.totalRefund + p.refundAmount,
                             c.hits + (if p.isHit then 1 else 0), c.count + 1)]
  }

  /** A prediction whose payload does not parse still adds to the count, the
      hits and the refund, and adds nothing to the investment. */
  lemma UnparseableStillCounts(m: map<UserId, Counters>, p: Prediction)
    requires p.payload.Unparseable?
    ensures var c := if p.authorId in m then m[p.authorId] else ZeroCounters;
            Count(m, p)[p.authorId] == Counters(c.totalInvestment, c.totalRefund + p.refundAmount,
                                                c.hits + (if p.isHit then 1 else 0), c.count + 1)
  {
  }

  /** `userStatsMap` after the loop over `ps`. */
  function Aggregate(ps: seq<Prediction>): map<UserId, Counters> {
    if ps == [] then map[] else Count(Aggregate(ps[..|ps| - 1]), ps[|ps| - 1])
  }

  method AggregateStats(predictions: seq<Prediction>) returns (userStatsMap: map<UserId, Counters>)
    ensures userStatsMap == Aggregate(predictions)
  {
    userStatsMap := map[];
    for i := 0 to |predictions|
      invariant userStatsMap == Aggregate(predictions[..i])
    {
      AggregateStep(predictions, i);
      userStatsMap := CountPrediction(userStatsMap, predictions[i]);
    }
    assert predictions[..|predictions|] == predictions;
  }

  /** The body of the aggregation loop for one prediction. */
  method CountPrediction(userStatsMap: map<UserId, Counters>, pred: Prediction) returns (m: map<UserId, Counters>)
    ensures m == Count(userStatsMap, pred)
  {
    m := userStatsMap;
    if pred.authorId !in m {
      m := m[pred.authorId := ZeroCounters];
    }
    var stats := m[pred.authorId];
    ghost var c := if pred.authorId in userStatsMap then userStatsMap[pred.authorId] else ZeroCounters;
    assert stats == c;
    stats := stats.(count := stats.count + 1);
    if pred.isHit {
      stats := stats.(hits := stats.hits + 1);
    }
    stats := stats.(totalRefund := stats.totalRefund + pred.refundAmount);
    var investment := Investment(pred.payload);
    stats := stats.(totalInvestment := stats.totalInvestment + investment);
    assert stats == Counters(c.totalInvestment + Investment(pred.payload), c.totalRefund + pred.refundAmount,
                             c.hits + (if pred.isHit then 1 else 0), c.count + 1);
    if pred.authorId !in userStatsMap {
      OverwriteTwice(userStatsMap, pred.authorId, ZeroCounters, stats);
    }
    m := m[pred.authorId := stats];
  }

  lemma OverwriteTwice(m: map<UserId, Counters>, k: UserId, a: Counters, b: Counters)
    ensures m[k := a][k := b] == m[k := b]
  {
  }

  lemma AggregateStep(ps: seq<Prediction>, i: nat)
    requires i < |ps|
    ensures Aggregate(ps[..i + 1]) == Count(Aggregate(ps[..i]), ps[i])
  {
    assert ps[..i + 1][..i] == ps[..i];
  }

  // Independent per-user definitions of the counters.

  function CountBy(ps: seq<Prediction>, u: UserId): nat {
    if ps == [] then 0 else CountBy(ps[..|ps| - 1], u) + (if ps[|ps| - 1].authorId == u then 1 else 0)
  }

  function HitsBy(ps: seq<Prediction>, u: UserId): nat {
    if ps == [] then 0
    else
      var p := ps[|ps| - 1];
      HitsBy(ps[..|ps| - 1], u) + (if p.authorId == u && p.isHit then 1 else 0)
  }

  function RefundBy(ps: seq<Prediction>, u: UserId): int {
    if ps == [] then 0
    else
      var p := ps[|ps| - 1];
      RefundBy(ps[..|ps| - 1], u) + (if p.authorId == u then p.refundAmount else 0)
  }

  function InvestmentBy(ps: seq<Prediction>, u: UserId): int {
    if ps == [] then 0
    else
      var p := ps[|ps| - 1];
      InvestmentBy(ps[..|ps| - 1], u) + (if p.authorId == u then Investment(p.payload) else 0)
  }

  /** The map holds a user iff the user authored one of the predictions, and
      then holds exactly that user's count, hits, refund and investment;
      hits never exceed the count. */
  lemma {:induction false} AggregateIsPerUser(ps: seq<Prediction>, u: UserId)
    ensures u in Aggregate(ps) <==> CountBy(ps, u) > 0
    ensures u in Aggregate(ps) ==>
              Aggregate(ps)[u] == Counters(InvestmentBy(ps, u), RefundBy(ps, u), HitsBy(ps, u), CountBy(ps, u))
    ensures HitsBy(ps, u) <= CountBy(ps, u)
    ensures CountBy(ps, u) == 0 ==> InvestmentBy(ps, u) == 0 && RefundBy(ps, u) == 0
    decreases |ps|
  {
    if ps != [] {
      AggregateIsPerUser(ps[..|ps| - 1], u);
    }
  }

  /** `user.name || "Unknown"`. */
  function DisplayName(name: Option<string>): (r: string)
    ensures name.None? || name.value == "" ==> r == "Unknown"
    ensures name.Some? && name.value != "" ==> r == name.value
  {
    if name.Some? && name.value != "" then name.value else "Unknown"
  }

  /** `(hits / count) * 100`. */
  function HitRate(hits: nat, count: nat): (r: real)
    requires count > 0
    ensures hits <= count ==> 0.0 <= r <= 100.0
    ensures r * count as real == 100.0 * hits as real
  {
    (hits as real / count as real) * 100.0
  }

  function Entry(u: UserRow, c: Counters): RankUser
    requires c.count > 0
  {
    RankUser(u.id, DisplayName(u.name), c.count, RecoveryRate(c.totalRefund, c.totalInvestment), HitRate(c.hits, c.count))
  }

  /** Users that have counters with at least `MinimumPredictions` settled
      predictions. */
  predicate Qualifies(u: UserRow, stats: map<UserId, Counters>) {
    u.id in stats && stats[u.id].count >= MinimumPredictions
  }

  /** `rankedUsers` after the loop over `users`. */
  function Ranked(users: seq<UserRow>, stats: map<UserId, Counters>): seq<RankUser> {
    if users == [] then []
    else
      var u := users[|users| - 1];
      Ranked(users[..|users| - 1], stats) + (if Qualifies(u, stats) then [Entry(u, stats[u.id])] else [])
  }

  method RankUsers(users: seq<UserRow>, userStatsMap: map<UserId, Counters>) returns (rankedUsers: seq<RankUser>)
    ensures rankedUsers == Ranked(users, userStatsMap)
  {
    rankedUsers := [];
    for i := 0 to |users|
      invariant rankedUsers == Ranked(users[..i], userStatsMap)
    {
      var user := users[i];
      assert users[..i + 1][..i] == users[..i];
      if user.id in userStatsMap && userStatsMap[user.id].count >= 5 {
        var stats := userStatsMap[user.id];
        var recoveryRate := if stats.totalInvestment > 0
          then (stats.totalRefund as real / stats.totalInvestment as real) * 100.0 else 0.0;
        var hitRate := (stats.hits as real / stats.count as real) * 100.0;
        rankedUsers := rankedUsers + [RankUser(user.id, DisplayName(user.name), stats.count, recoveryRate, hitRate)];
      }
    }
    assert users[..|users|] == users;
  }

  /** Exactly the qualifying users are ranked, each with the metrics of its
      counters. */
  lemma {:induction false} RankedMembers(users: seq<UserRow>, stats: map<UserId, Counters>, r: RankUser)
    ensures r in Ranked(users, stats) <==>
            exists i :: 0 <= i < |users| && Qualifies(users[i], stats) && r == Entry(users[i], stats[users[i].id])
    decreases |users|
  {
    if users != [] {
      var prefix := users[..|users| - 1];
      RankedMembers(prefix, stats, r);
      assert forall i :: 0 <= i < |prefix| ==> prefix[i] == users[i];
      if exists i :: 0 <= i < |users| && Qualifies(users[i], stats) && r == Entry(users[i], stats[users[i].id]) {
        var i :| 0 <= i < |users| && Qualifies(users[i], stats) && r == Entry(users[i], stats[users[i].id]);
        if i < |prefix| {
          assert prefix[i] == users[i];
        }
      }
    }
  }

  // ---------------------------------------------------------------------
  // The two sorted copies.
  // ---------------------------------------------------------------------

  datatype Metric = RecoveryRateMetric | HitRateMetric

  function Score(r: RankUser, m: Metric): real {
    match m
    case RecoveryRateMetric => r.recoveryRate
    case HitRateMetric => r.hitRate
  }

  predicate NonIncreasing(s: seq<RankUser>, m: Metric) {
    forall i, j :: 0 <= i < j < |s| ==> Score(s[i], m) >= Score(s[j], m)
  }

  function InsertByScore(x: RankUser, s: seq<RankUser>, m: Metric): (r: seq<RankUser>)
    requires NonIncreasing(s, m)
    ensures multiset(r) == multiset(s) + multiset{x}
    ensures NonIncreasing(r, m)
  {
    if s == [] || Score(x, m) >= Score(s[0], m) then
      ConsNonIncreasing(x, s, m);
      [x] + s
    else
      var t := InsertByScore(x, s[1..], m);
      assert s == [s[0]] + s[1..];
      HeadBoundsInsertByScore(x, s, t, m);
      ConsNonIncreasing(s[0], t, m);
      [s[0]] + t
  }

  /** Putting an upper bound in front of a non-increasing list keeps it
      non-increasing. */
  lemma ConsNonIncreasing(h: RankUser, t: seq<RankUser>, m: Metric)
    requires NonIncreasing(t, m)
    requires forall i :: 0 <= i < |t| ==> Score(h, m) >= Score(t[i], m)
    ensures NonIncreasing([h] + t, m)
  {
    var r := [h] + t;
    forall i, j | 0 <= i < j < |r| ensures Score(r[i], m) >= Score(r[j], m) {
      assert r[j] == t[j - 1];
      if i > 0 {
        assert r[i] == t[i - 1];
      }
    }
  }

  /** When `x` goes after the head, the head scores at least as high as the
      whole insertion into the tail. */
  lemma HeadBoundsInsertByScore(x: RankUser, s: seq<RankUser>, t: seq<RankUser>, m: Metric)
    requires NonIncreasing(s, m) && s != [] && Score(x, m) < Score(s[0], m)
    requires multiset(t) == multiset(s[1..]) + multiset{x}
    ensures forall i :: 0 <= i < |t| ==> Score(s[0], m) >= Score(t[i], m)
  {
    forall i | 0 <= i < |t| ensures Score(s[0], m) >= Score(t[i], m) {
      assert t[i] in multiset(t);
      if t[i] != x {
        assert t[i] in s[1..];
        var k :| 0 <= k < |s[1..]| && s[1..][k] == t[i];
        assert s[k + 1] == t[i];
      }
    }
  }

  /** `[...rankedUsers].sort((a, b) => b.metric - a.metric)`: a copy in
      non-increasing order of the metric. */
  function SortByScore(s: seq<RankUser>, m: Metric): (r: seq<RankUser>)
    ensures multiset(r) == multiset(s)
    ensures NonIncreasing(r, m)
  {
    if s == [] then []
    else
      assert s == [s[0]] + s[1..];
      InsertByScore(s[0], SortByScore(s[1..], m), m)
  }

  datatype Rankings = Rankings(rankedUsers: seq<RankUser>, recoveryRanking: seq<RankUser>, hitRateRanking: seq<RankUser>)

  /** Lines 26-77 of `RankingPage`, from the user and prediction tables. */
  method RankingPage(users: seq<UserRow>, rows: seq<Prediction>) returns (rankings: Rankings)
    ensures var ranked := Ranked(users, Aggregate(CheckedRows(rows)));
            && rankings.rankedUsers == ranked
            && multiset(rankings.recoveryRanking) == multiset(ranked) && NonIncreasing(rankings.recoveryRanking, RecoveryRateMetric)
            && multiset(rankings.hitRateRanking) == multiset(ranked) && NonIncreasing(rankings.hitRateRanking, HitRateMetric)
  {
    var predictions := CheckedRows(rows);
    var userStatsMap := AggregateStats(predictions);
    var rankedUsers := RankUsers(users, userStatsMap);
    var recoveryRanking := SortByScore(rankedUsers, RecoveryRateMetric);
    var hitRateRanking := SortByScore(rankedUsers, HitRateMetric);
    rankings := Rankings(rankedUsers, recoveryRanking, hitRateRanking);
  }

  /** Every ranked user has at least five settled predictions, exactly as many
      as the user authored among the settled rows, and a hit rate between 0
      and 100. */
  lemma RankedUsersBounds(users: seq<UserRow>, rows: seq<Prediction>, r: RankUser)
    requires r in Ranked(users, Aggregate(CheckedRows(rows)))
    ensures r.totalPredictions >= MinimumPredictions
    ensures r.totalPredictions == CountBy(CheckedRows(rows), r.id)
    ensures 0.0 <= r.hitRate <= 100.0
  {
    var checked := CheckedRows(rows);
    var stats := Aggregate(checked);
    RankedMembers(users, stats, r);
    var i :| 0 <= i < |users| && Qualifies(users[i], stats) && r == Entry(users[i], stats[users[i].id]);
    AggregateIsPerUser(checked, r.id);
  }
}
