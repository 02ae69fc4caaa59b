/** `getUserStats` of src/lib/stats.ts: investment over all of a user's
    predictions, refunds and hits over the settled ones, and the recovery
    rate. */
module Stats {
  import opened BetLogic
  import opened Schema

  /** `f.combinations.reduce((sub, c) => sub + c.amount, 0)`. */
  function CombinationStakes(cs: seq<Combination>): int {
    if cs == [] then 0 else CombinationStakes(cs[..|cs| - 1]) + cs[|cs| - 1].amount
  }

  /** `formations.reduce((sum, f) => sum + <stakes of f>, 0)`. */
  function FormationStakes(fs: seq<Formation>): int {
    if fs == [] then 0 else FormationStakes(fs[..|fs| - 1]) + CombinationStakes(fs[|fs| - 1].combinations)
  }

  /** The stake sum of one stored prediction; an unparseable payload parses to
      `[]` and invests nothing. */
  function Investment(p: Payload): (r: int)
    ensures p.Unparseable? ==> r == 0
  {
    FormationStakes(Formations(p))
  }

  /** `findMany({where: {authorId: userId}})` over the prediction table, in
      table order. */
  function AuthoredBy(rows: seq<Prediction>, userId: UserId): (r: seq<Prediction>)
    ensures |r| <= |rows|
    ensures forall p :: p in r <==> p in rows && p.authorId == userId
  {
    if rows == [] then []
    else
      var prefix := AuthoredBy(rows[..|rows| - 1], userId);
      var p := rows[|rows| - 1];
      assert rows == rows[..|rows| - 1] + [p];
      if p.authorId == userId then prefix + [p] else prefix
  }

  function TotalInvestment(ps: seq<Prediction>): int {
    if ps == [] then 0 else TotalInvestment(ps[..|ps| - 1]) + Investment(ps[|ps| - 1].payload)
  }

  function TotalRefund(ps: seq<Prediction>): int {
    if ps == [] then 0
    else
      var p := ps[|ps| - 1];
      TotalRefund(ps[..|ps| - 1]) + (if p.resultChecked then p.refundAmount else 0)
  }

  function HitCount(ps: seq<Prediction>): nat {
    if ps == [] then 0
    else
      var p := ps[|ps| - 1];
      HitCount(ps[..|ps| - 1]) + (if p.resultChecked && p.isHit then 1 else 0)
  }

  /** The number of settled predictions. */
  function CheckedCount(ps: seq<Prediction>): nat {
    if ps == [] then 0 else CheckedCount(ps[..|ps| - 1]) + (if ps[|ps| - 1].resultChecked then 1 else 0)
  }

  /** `totalInvestment > 0 ? (totalRefund / totalInvestment) * 100 : 0`. */
  function RecoveryRate(totalRefund: int, totalInvestment: int): (r: real)
    ensures totalInvestment <= 0 ==> r == 0.0
    ensures totalInvestment > 0 ==> r * totalInvestment as real == 100.0 * totalRefund as real
  {
    if totalInvestment > 0 then (totalRefund as real / totalInvestment as real) * 100.0 else 0.0
  }

  datatype UserStats = UserStats(totalInvestment: int, totalRefund: int, recoveryRate: real, hitCount: nat,
                                 totalPredictions: nat)

  method GetUserStats(rows: seq<Prediction>, userId: UserId) returns (stats: UserStats)
    ensures var ps := AuthoredBy(rows, userId);
            && stats.totalPredictions == |ps|
            && stats.totalInvestment == TotalInvestment(ps)
            && stats.totalRefund == TotalRefund(ps)
            && stats.hitCount == HitCount(ps)
            && stats.recoveryRate == RecoveryRate(stats.totalRefund, stats.totalInvestment)
  {
    var predictions := AuthoredBy(rows, userId);
    var totalInvestment, totalRefund, hitCount := 0, 0, 0;
    var totalPredictions := |predictions|;
    for i := 0 to |predictions|
      invariant totalInvestment == TotalInvestment(predictions[..i])
      invariant totalRefund == TotalRefund(predictions[..i])
      invariant hitCount == HitCount(predictions[..i])
    {
      var pred := predictions[i];
      assert predictions[..i + 1][..i] == predictions[..i];
      var predInvestment := Investment(pred.payload);
      totalInvestment := totalInvestment + predInvestment;
      if pred.resultChecked {
        totalRefund := totalRefund + pred.refundAmount;
        if pred.isHit {
          hitCount := hitCount + 1;
        }
      }
    }
    assert predictions[..|predictions|] == predictions;
    var recoveryRate := if totalInvestment > 0 then (totalRefund as real / totalInvestment as real) * 100.0 else 0.0;
    stats := UserStats(totalInvestment, totalRefund, recoveryRate, hitCount, totalPredictions);
  }

  // ---------------------------------------------------------------------
  // Properties.
  // ---------------------------------------------------------------------

  /** Hits are counted only among settled predictions, so there are never more
      hits than settled predictions, nor than predictions. */
  lemma {:induction false} HitsWithinChecked(ps: seq<Prediction>)
    ensures HitCount(ps) <= CheckedCount(ps) <= |ps|
    decreases |ps|
  {
    if ps != [] {
      HitsWithinChecked(ps[..|ps| - 1]);
    }
  }

  /** Settling a prediction changes neither its investment nor the totals. */
  lemma {:induction false} InvestmentIgnoresSettlement(ps: seq<Prediction>, qs: seq<Prediction>)
    requires |ps| == |qs|
    requires forall i :: 0 <= i < |ps| ==> ps[i].payload == qs[i].payload
    ensures TotalInvestment(ps) == TotalInvestment(qs)
    decreases |ps|
  {
    if ps != [] {
      InvestmentIgnoresSettlement(ps[..|ps| - 1], qs[..|qs| - 1]);
    }
  }

  /** An unsettled prediction adds its stakes to the investment and nothing to
      the refund or the hit count. */
  lemma UnsettledAddsOnlyInvestment(ps: seq<Prediction>, p: Prediction)
    requires !p.resultChecked
    ensures TotalInvestment(ps + [p]) == TotalInvestment(ps) + Investment(p.payload)
    ensures TotalRefund(ps + [p]) == TotalRefund(ps)
    ensures HitCount(ps + [p]) == HitCount(ps)
  {
    assert (ps + [p])[..|ps|] == ps;
  }

  lemma {:induction false} CombinationStakesNonNegative(cs: seq<Combination>)
    requires forall j :: 0 <= j < |cs| ==> cs[j].amount >= 0
    ensures CombinationStakes(cs) >= 0
    decreases |cs|
  {
    if cs != [] {
      CombinationStakesNonNegative(cs[..|cs| - 1]);
    }
  }

  /** Non-negative stakes give a non-negative investment. */
  lemma {:induction false} FormationStakesNonNegative(fs: seq<Formation>)
    requires forall i, j :: 0 <= i < |fs| && 0 <= j < |fs[i].combinations| ==> fs[i].combinations[j].amount >= 0
    ensures FormationStakes(fs) >= 0
    decreases |fs|
  {
    if fs != [] {
      var prefix := fs[..|fs| - 1];
      assert forall i :: 0 <= i < |prefix| ==> prefix[i] == fs[i];
      FormationStakesNonNegative(prefix);
      CombinationStakesNonNegative(fs[|fs| - 1].combinations);
    }
  }

  /** In a formation where every combination has the same stake, the stake sum
      is that stake times the number of combinations. */
  lemma {:induction false} UniformStakes(cs: seq<Combination>, amount: int)
    requires forall j :: 0 <= j < |cs| ==> cs[j].amount == amount
    ensures CombinationStakes(cs) == |cs| * amount
    decreases |cs|
  {
    if cs != [] {
      UniformStakes(cs[..|cs| - 1], amount);
      assert |cs| * amount == (|cs| - 1) * amount + amount;
    }
  }
}
