/** The settlement engine of src/lib/evaluate.ts: a prediction's formations
    are matched against the race's refund table, and `resultChecked`, `isHit`
    and `refundAmount` are written back once. */
module Evaluate {
  import opened Wrappers
  import opened BetLogic
  import opened Schema

  /** The code a bet type is stored under, in formations and refund tables. */
  function Code(t: BetType): string {
    match t
    case Trifecta => "3TR"
    case Trio => "3PL"
    case Exacta => "2TR"
    case Quinella => "2PL"
    case Win => "WIN"
  }

  lemma CodesDistinct(t: BetType, u: BetType)
    ensures Code(t) == Code(u) <==> t == u
  {
  }

  /** `refunds.find(r => r.type === code)`. */
  function FirstRefund(refunds: seq<RefundEntry>, code: string): (r: Option<RefundEntry>)
    ensures r.Some? ==> r.value in refunds && r.value.kind == code
    ensures r.None? <==> forall i :: 0 <= i < |refunds| ==> refunds[i].kind != code
  {
    if refunds == [] then None
    else if refunds[0].kind == code then Some(refunds[0])
    else
      var r := FirstRefund(refunds[1..], code);
      assert forall i :: 1 <= i < |refunds| ==> refunds[i] == refunds[1..][i - 1];
      r
  }

  /** Only the first entry of a type is consulted: `find` returns the entry
      of that type with no entry of that type before it. */
  lemma {:induction false} FirstRefundIsFirst(refunds: seq<RefundEntry>, code: string, i: nat)
    requires i < |refunds| && refunds[i].kind == code
    requires forall k :: 0 <= k < i ==> refunds[k].kind != code
    ensures FirstRefund(refunds, code) == Some(refunds[i])
    decreases i
  {
    if i > 0 {
      assert refunds[0].kind != code;
      FirstRefundIsFirst(refunds[1..], code, i - 1);
    }
  }

  /** Entries appended after the first entry of a type never change what is
      found for that type. */
  lemma {:induction false} FirstRefundIgnoresLater(refunds: seq<RefundEntry>, later: seq<RefundEntry>, code: string)
    requires FirstRefund(refunds, code).Some?
    ensures FirstRefund(refunds + later, code) == FirstRefund(refunds, code)
    decreases |refunds|
  {
    if refunds[0].kind != code {
      assert (refunds + later)[1..] == refunds[1..] + later;
      FirstRefundIgnoresLater(refunds[1..], later, code);
    }
  }

  /** `Math.floor((amount / 100) * stake)`, taken over the integers: the
      largest integer not above amount * stake / 100. */
  function Payout(amount: int, stake: int): (r: int)
    ensures 100 * r <= amount * stake < 100 * r + 100
  {
    (amount * stake) / 100
  }

  /** Some combination's id equals the refund entry's numbers. */
  predicate CombinationsHit(cs: seq<Combination>, e: RefundEntry) {
    exists j :: 0 <= j < |cs| && cs[j].id == e.numbers
  }

  /** The payouts of the combinations whose id equals the entry's numbers. */
  function CombinationsRefund(cs: seq<Combination>, e: RefundEntry): int {
    if cs == [] then 0
    else
      var c := cs[|cs| - 1];
      CombinationsRefund(cs[..|cs| - 1], e) + (if c.id == e.numbers then Payout(e.amount, c.amount) else 0)
  }

  /** A formation hits when its type has a refund entry and one of its
      combinations has that entry's numbers as id. */
  predicate FormationHit(f: Formation, refunds: seq<RefundEntry>) {
    var e := FirstRefund(refunds, Code(f.betType));
    e.Some? && CombinationsHit(f.combinations, e.value)
  }

  function FormationRefund(f: Formation, refunds: seq<RefundEntry>): int {
    match FirstRefund(refunds, Code(f.betType))
    case None => 0
    case Some(e) => CombinationsRefund(f.combinations, e)
  }

  /** The prediction is a hit iff some formation hits. */
  predicate IsHit(fs: seq<Formation>, refunds: seq<RefundEntry>) {
    exists i :: 0 <= i < |fs| && FormationHit(fs[i], refunds)
  }

  /** The prediction's refund: the sum over all formations. */
  function RefundTotal(fs: seq<Formation>, refunds: seq<RefundEntry>): int {
    if fs == [] then 0 else RefundTotal(fs[..|fs| - 1], refunds) + FormationRefund(fs[|fs| - 1], refunds)
  }

  /** The matching loop of `evaluateRaceBatch` and `evaluatePrediction`. */
  method MatchFormations(formations: seq<Formation>, refunds: seq<RefundEntry>) returns (isHit: bool, total: int)
    ensures isHit == IsHit(formations, refunds)
    ensures total == RefundTotal(formations, refunds)
  {
    isHit, total := false, 0;
    for i := 0 to |formations|
      invariant isHit == IsHit(formations[..i], refunds)
      invariant total == RefundTotal(formations[..i], refunds)
    {
      FormationsStep(formations, refunds, i);
      isHit, total := MatchFormation(formations[i], refunds, isHit, total);
    }
    assert formations[..|formations|] == formations;
  }

  lemma FormationsStep(fs: seq<Formation>, refunds: seq<RefundEntry>, i: nat)
    requires i < |fs|
    ensures IsHit(fs[..i + 1], refunds) == (IsHit(fs[..i], refunds) || FormationHit(fs[i], refunds))
    ensures RefundTotal(fs[..i + 1], refunds) == RefundTotal(fs[..i], refunds) + FormationRefund(fs[i], refunds)
  {
    assert fs[..i + 1][..i] == fs[..i];
    IsHitStep(fs, refunds, i);
  }

  lemma IsHitStep(fs: seq<Formation>, refunds: seq<RefundEntry>, i: nat)
    requires i < |fs|
    ensures IsHit(fs[..i + 1], refunds) == (IsHit(fs[..i], refunds) || FormationHit(fs[i], refunds))
  {
    assert fs[..i + 1][i] == fs[i];
    assert forall k :: 0 <= k < i ==> fs[..i + 1][k] == fs[..i][k];
  }

  /** One turn of the loop over formations: a formation whose type has no
      refund entry is skipped. */
  method MatchFormation(formation: Formation, refunds: seq<RefundEntry>, isHit: bool, total: int)
    returns (isHit': bool, total': int)
    ensures isHit' == (isHit || FormationHit(formation, refunds))
    ensures total' == total + FormationRefund(formation, refunds)
  {
    var official := FirstRefund(refunds, Code(formation.betType));
    if official.None? {
      return isHit, total;
    }
    isHit', total' := MatchCombinations(formation.combinations, official.value, isHit, total);
  }

  /** The inner loop over one formation's combinations. */
  method MatchCombinations(cs: seq<Combination>, e: RefundEntry, isHit: bool, total: int)
    returns (isHit': bool, total': int)
    ensures isHit' == (isHit || CombinationsHit(cs, e))
    ensures total' == total + CombinationsRefund(cs, e)
  {
    isHit', total' := isHit, total;
    for j := 0 to |cs|
      invariant isHit' == (isHit || CombinationsHit(cs[..j], e))
      invariant total' == total + CombinationsRefund(cs[..j], e)
    {
      var comb := cs[j];
      CombinationsStep(cs, e, j);
      if comb.id == e.numbers {
        isHit' := true;
        var payout := Payout(e.amount, comb.amount);
        total' := total' + payout;
      }
    }
    assert cs[..|cs|] == cs;
  }

  lemma CombinationsStep(cs: seq<Combination>, e: RefundEntry, j: nat)
    requires j < |cs|
    ensures CombinationsHit(cs[..j + 1], e) == (CombinationsHit(cs[..j], e) || cs[j].id == e.numbers)
    ensures CombinationsRefund(cs[..j + 1], e) ==
              CombinationsRefund(cs[..j], e) + (if cs[j].id == e.numbers then Payout(e.amount, cs[j].amount) else 0)
  {
    assert cs[..j + 1][..j] == cs[..j];
    assert cs[..j + 1][j] == cs[j];
    assert forall k :: 0 <= k < j ==> cs[..j + 1][k] == cs[..j][k];
  }

  // ---------------------------------------------------------------------
  // Properties of the matching.
  // ---------------------------------------------------------------------

  lemma {:induction false} CombinationsNoHit(cs: seq<Combination>, e: RefundEntry)
    requires !CombinationsHit(cs, e)
    ensures CombinationsRefund(cs, e) == 0
    decreases |cs|
  {
    if cs != [] {
      var prefix := cs[..|cs| - 1];
      assert !CombinationsHit(prefix, e) by {
        assert forall k :: 0 <= k < |prefix| ==> prefix[k] == cs[k];
      }
      CombinationsNoHit(prefix, e);
    }
  }

  /** A prediction that is not a hit gets no refund. */
  lemma {:induction false} NoHitNoRefund(fs: seq<Formation>, refunds: seq<RefundEntry>)
    requires !IsHit(fs, refunds)
    ensures RefundTotal(fs, refunds) == 0
    decreases |fs|
  {
    if fs != [] {
      var prefix, f := fs[..|fs| - 1], fs[|fs| - 1];
      assert !IsHit(prefix, refunds) by {
        assert forall k :: 0 <= k < |prefix| ==> prefix[k] == fs[k];
      }
      NoHitNoRefund(prefix, refunds);
      assert !FormationHit(f, refunds);
      match FirstRefund(refunds, Code(f.betType))
      case None =>
      case Some(e) => CombinationsNoHit(f.combinations, e);
    }
  }

  /** A formation hits when the first entry of its type has the numbers of
      one of its combinations. */
  lemma HitAt(f: Formation, refunds: seq<RefundEntry>, k: nat, j: nat)
    requires k < |refunds| && refunds[k].kind == Code(f.betType)
    requires forall i :: 0 <= i < k ==> refunds[i].kind != Code(f.betType)
    requires j < |f.combinations| && f.combinations[j].id == refunds[k].numbers
    ensures FormationHit(f, refunds)
  {
    FirstRefundIsFirst(refunds, Code(f.betType), k);
  }

  /** A formation whose bet type has no refund entry contributes nothing. */
  lemma NoEntryNoContribution(f: Formation, refunds: seq<RefundEntry>)
    requires forall i :: 0 <= i < |refunds| ==> refunds[i].kind != Code(f.betType)
    ensures !FormationHit(f, refunds) && FormationRefund(f, refunds) == 0
  {
  }

  /** Non-negative payouts per 100 and non-negative stakes give a
      non-negative refund. */
  predicate NonNegativeAmounts(refunds: seq<RefundEntry>) {
    forall i :: 0 <= i < |refunds| ==> refunds[i].amount >= 0
  }

  predicate NonNegativeStakes(fs: seq<Formation>) {
    forall i, j :: 0 <= i < |fs| && 0 <= j < |fs[i].combinations| ==> fs[i].combinations[j].amount >= 0
  }

  lemma {:induction false} CombinationsRefundNonNegative(cs: seq<Combination>, e: RefundEntry)
    requires e.amount >= 0
    requires forall j :: 0 <= j < |cs| ==> cs[j].amount >= 0
    ensures CombinationsRefund(cs, e) >= 0
    decreases |cs|
  {
    if cs != [] {
      CombinationsRefundNonNegative(cs[..|cs| - 1], e);
    }
  }

  lemma {:induction false} RefundNonNegative(fs: seq<Formation>, refunds: seq<RefundEntry>)
    requires NonNegativeAmounts(refunds) && NonNegativeStakes(fs)
    ensures RefundTotal(fs, refunds) >= 0
    decreases |fs|
  {
    if fs != [] {
      var prefix, f := fs[..|fs| - 1], fs[|fs| - 1];
      assert NonNegativeStakes(prefix) by {
        assert forall k :: 0 <= k < |prefix| ==> prefix[k] == fs[k];
      }
      RefundNonNegative(prefix, refunds);
      match FirstRefund(refunds, Code(f.betType))
      case None =>
      case Some(e) =>
        assert forall j :: 0 <= j < |f.combinations| ==> f.combinations[j].amount >= 0 by {
          assert f == fs[|fs| - 1];
        }
        CombinationsRefundNonNegative(f.combinations, e);
    }
  }

  /** Refunds of the formations add up: a prediction's refund is the sum of
      the refunds of any split of its formation list. */
  lemma {:induction false} RefundAdditive(a: seq<Formation>, b: seq<Formation>, refunds: seq<RefundEntry>)
    ensures RefundTotal(a + b, refunds) == RefundTotal(a, refunds) + RefundTotal(b, refunds)
    decreases |b|
  {
    if b == [] {
      assert a + b == a;
    } else {
      var prefix := b[..|b| - 1];
      assert (a + b)[..|a + b| - 1] == a + prefix;
      assert (a + b)[|a + b| - 1] == b[|b| - 1];
      RefundAdditive(a, prefix, refunds);
    }
  }

  /** The worked example: a 3TR refund of 1540 per 100 for "1-2-3" pays 1540
      on a stake of 100 and 3850 on a stake of 250. */
  lemma SettlementExample(stake: int)
    requires stake == 100 || stake == 250
    ensures var f := Formation("f", Trifecta, EmptySelection, [Combination("1-2-3", [1, 2, 3], stake)], stake, false);
            var refunds := [RefundEntry("3TR", "1-2-3", 1540)];
            IsHit([f], refunds) && RefundTotal([f], refunds) == (if stake == 100 then 1540 else 3850)
  {
    var c := Combination("1-2-3", [1, 2, 3], stake);
    var f := Formation("f", Trifecta, EmptySelection, [c], stake, false);
    var refunds := [RefundEntry("3TR", "1-2-3", 1540)];
    assert FirstRefund(refunds, Code(Trifecta)) == Some(refunds[0]);
    assert [c][..0] == [];
    assert CombinationsRefund([c], refunds[0]) == Payout(1540, stake);
    assert [f][..0] == [];
    assert FormationHit([f][0], refunds);
  }

  // ---------------------------------------------------------------------
  // evaluatePrediction.
  // ---------------------------------------------------------------------

  /** The row written back by a settlement. */
  function Settled(p: Prediction, refunds: seq<RefundEntry>): (q: Prediction)
    ensures q.resultChecked
    ensures q.isHit == IsHit(Formations(p.payload), refunds)
    ensures q.refundAmount == RefundTotal(Formations(p.payload), refunds)
    ensures q.(resultChecked := p.resultChecked, isHit := p.isHit, refundAmount := p.refundAmount) == p
  {
    var formations := Formations(p.payload);
    p.(resultChecked := true, isHit := IsHit(formations, refunds), refundAmount := RefundTotal(formations, refunds))
  }

  datatype Evaluation = Evaluation(isHit: bool, refundAmount: int)

  datatype EvaluationStep = EvaluationStep(result: Option<Evaluation>, predictions: map<PredictionId, Prediction>)

  /** What `evaluatePrediction(id)` returns and leaves in the prediction table. */
  function EvaluateSpec(predictions: map<PredictionId, Prediction>, results: map<RaceKey, RaceResult>, id: PredictionId)
    : EvaluationStep
  {
    if id !in predictions || predictions[id].resultChecked then EvaluationStep(None, predictions)
    else
      var p := predictions[id];
      if p.race !in results then EvaluationStep(None, predictions)
      else
        var q := Settled(p, results[p.race].refunds);
        EvaluationStep(Some(Evaluation(q.isHit, q.refundAmount)), predictions[id := q])
  }

  method EvaluatePrediction(db: Database, id: PredictionId) returns (result: Option<Evaluation>)
    modifies db`predictions
    ensures var step := EvaluateSpec(old(db.predictions), old(db.raceResults), id);
            result == step.result && db.predictions == step.predictions
    ensures db.users == old(db.users) && db.raceResults == old(db.raceResults)
    ensures db.raceSchedules == old(db.raceSchedules) && db.ledger == old(db.ledger)
    ensures db.notifications == old(db.notifications) && db.follows == old(db.follows)
  {
    if id !in db.predictions || db.predictions[id].resultChecked {
      return None;
    }
    var pred := db.predictions[id];
    if pred.race !in db.raceResults {
      return None;
    }
    var refunds := db.raceResults[pred.race].refunds;
    var formations := Formations(pred.payload);
    var isHit, total := MatchFormations(formations, refunds);
    db.predictions := db.predictions[id := pred.(resultChecked := true, isHit := isHit, refundAmount := total)];
    return Some(Evaluation(isHit, total));
  }

  /** A missing or already-settled prediction, or a race without a result,
      gives no evaluation and no write. */
  lemma EvaluateGuards(predictions: map<PredictionId, Prediction>, results: map<RaceKey, RaceResult>, id: PredictionId)
    ensures (id !in predictions || predictions[id].resultChecked || predictions[id].race !in results)
            <==> EvaluateSpec(predictions, results, id).result.None?
    ensures EvaluateSpec(predictions, results, id).result.None? ==>
              EvaluateSpec(predictions, results, id).predictions == predictions
  {
  }

  /** A successful evaluation writes only the evaluated row, settles it with
      the race's refund table, and reports what it wrote. */
  lemma EvaluateWritesOneRow(predictions: map<PredictionId, Prediction>, results: map<RaceKey, RaceResult>,
                             id: PredictionId)
    requires EvaluateSpec(predictions, results, id).result.Some?
    ensures var step := EvaluateSpec(predictions, results, id);
            && id in predictions && predictions[id].race in results
            && step.predictions == predictions[id := Settled(predictions[id], results[predictions[id].race].refunds)]
            && step.result.value == Evaluation(step.predictions[id].isHit, step.predictions[id].refundAmount)
  {
  }

  /** Settlement is terminal: evaluating the same prediction again returns
      nothing and writes nothing. */
  lemma EvaluateIdempotent(predictions: map<PredictionId, Prediction>, results: map<RaceKey, RaceResult>,
                           id: PredictionId)
    ensures var once := EvaluateSpec(predictions, results, id).predictions;
            var twice := EvaluateSpec(once, results, id);
            twice.result.None? && twice.predictions == once
  {
  }

  // ---------------------------------------------------------------------
  // evaluateRaceBatch.
  // ---------------------------------------------------------------------

  /** The rows `findMany({placeName, raceNumber, raceDate, resultChecked: false})`
      selects. */
  function Selected(predictions: map<PredictionId, Prediction>, key: RaceKey): set<PredictionId> {
    set id | id in predictions && predictions[id].race == key && !predictions[id].resultChecked
  }

  /** The table after the rows in `done` have been settled. */
  function SettledRows(predictions: map<PredictionId, Prediction>, done: set<PredictionId>, refunds: seq<RefundEntry>)
    : map<PredictionId, Prediction>
  {
    map id | id in predictions :: if id in done then Settled(predictions[id], refunds) else predictions[id]
  }

  datatype BatchOutcome = RaceResultNotFound | Evaluated(evaluatedCount: nat)

  method EvaluateRaceBatch(db: Database, key: RaceKey) returns (outcome: BatchOutcome)
    modifies db`predictions
    ensures key !in old(db.raceResults) ==> outcome == RaceResultNotFound && db.predictions == old(db.predictions)
    ensures key in old(db.raceResults) ==>
              && outcome == Evaluated(|Selected(old(db.predictions), key)|)
              && db.predictions == SettledRows(old(db.predictions), Selected(old(db.predictions), key),
                                               old(db.raceResults)[key].refunds)
    ensures db.users == old(db.users) && db.raceResults == old(db.raceResults)
    ensures db.raceSchedules == old(db.raceSchedules) && db.ledger == old(db.ledger)
    ensures db.notifications == old(db.notifications) && db.follows == old(db.follows)
  {
    if key !in db.raceResults {
      return RaceResultNotFound;
    }
    var refunds := db.raceResults[key].refunds;
    var todo := Selected(db.predictions, key);
    var evaluatedCount := SettleAll(db, todo, refunds);
    return Evaluated(evaluatedCount);
  }

  /** The loop of the batch over the selected rows, in any order. */
  method SettleAll(db: Database, rows: set<PredictionId>, refunds: seq<RefundEntry>) returns (evaluatedCount: nat)
    modifies db`predictions
    requires rows <= db.predictions.Keys
    ensures evaluatedCount == |rows|
    ensures db.predictions == SettledRows(old(db.predictions), rows, refunds)
  {
    ghost var original := db.predictions;
    var todo := rows;
    ghost var done: set<PredictionId> := {};
    evaluatedCount := 0;
    while todo != {}
      invariant todo !! done && todo + done == rows
      invariant db.predictions == SettledRows(original, done, refunds)
      invariant evaluatedCount == |done|
      decreases |todo|
    {
      var id :| id in todo;
      MoveOne(todo, done, rows, id);
      assert db.predictions[id] == original[id];
      SettleRow(db, id, refunds);
      SettledRowsStep(original, done, id, refunds);
      todo, done := todo - {id}, done + {id};
      evaluatedCount := evaluatedCount + 1;
    }
  }

  /** Moving one row from the rows to do to the rows done keeps the split. */
  lemma MoveOne<T>(todo: set<T>, done: set<T>, rows: set<T>, id: T)
    requires todo !! done && todo + done == rows && id in todo
    ensures (todo - {id}) !! (done + {id}) && (todo - {id}) + (done + {id}) == rows
    ensures |todo - {id}| < |todo| && |done + {id}| == |done| + 1
  {
  }

  /** The body of the batch loop: match one row's formations and write the
      settlement back. */
  method SettleRow(db: Database, id: PredictionId, refunds: seq<RefundEntry>)
    modifies db`predictions
    requires id in db.predictions
    ensures db.predictions == old(db.predictions)[id := Settled(old(db.predictions)[id], refunds)]
  {
    var pred := db.predictions[id];
    var isHit, total := MatchFormations(Formations(pred.payload), refunds);
    db.predictions := db.predictions[id := pred.(resultChecked := true, isHit := isHit, refundAmount := total)];
  }

  lemma SettledRowsStep(predictions: map<PredictionId, Prediction>, done: set<PredictionId>, id: PredictionId,
                        refunds: seq<RefundEntry>)
    requires id in predictions && id !in done
    ensures SettledRows(predictions, done + {id}, refunds)
            == SettledRows(predictions, done, refunds)[id := Settled(predictions[id], refunds)]
  {
  }

  /** The batch settles exactly the unsettled rows of the race: those now have
      `resultChecked` set, and every other row is left as it was. */
  lemma BatchTouchesOnlyTheRace(predictions: map<PredictionId, Prediction>, key: RaceKey, refunds: seq<RefundEntry>)
    ensures var after := SettledRows(predictions, Selected(predictions, key), refunds);
            && after.Keys == predictions.Keys
            && (forall id :: id in predictions ==>
                  if predictions[id].race == key && !predictions[id].resultChecked
                  then after[id] == Settled(predictions[id], refunds)
                  else after[id] == predictions[id])
  {
  }

  /** A second batch over the same race finds nothing left to settle. */
  lemma BatchIdempotent(predictions: map<PredictionId, Prediction>, key: RaceKey, refunds: seq<RefundEntry>)
    ensures var after := SettledRows(predictions, Selected(predictions, key), refunds);
            Selected(after, key) == {} && SettledRows(after, {}, refunds) == after
  {
    var after := SettledRows(predictions, Selected(predictions, key), refunds);
    forall id | id in after && after[id].race == key
      ensures after[id].resultChecked
    {
    }
  }
}
