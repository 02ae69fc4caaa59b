/** The admin entry points of src/actions/admin.ts: the refund tables built
    by `submitManualResult` and `triggerDemoEvaluation`, the role guards, and
    the wiring of each entry point to the result table and the settlement
    batch. Form fields arrive already parsed: the manual form's numbers as
    integers, the demo form's as `Option<int>` with `None` for a field that
    `parseInt` reads as NaN. */
module Admin {
  import opened Wrappers
  import opened Text
  import opened BetLogic
  import opened Schema
  import opened Evaluate
  import opened BoatraceApi
  import BetLogicProperties

  /** Every entry point first checks the caller. `submitManualResult`,
      `triggerBatchEvaluation` and `triggerDemoEvaluation` throw on
      `Unauthorized`; `triggerSyncSchedule` and `triggerApiEvaluation` return
      `{success: false, error: "Unauthorized"}`. */
  datatype Guarded<T> = Unauthorized | Ran(value: T)

  /** The manual refund table: 3TR "f-s-t", 2TR "f-s" and WIN "f". */
  function ManualRefunds(first: int, second: int, third: int, winPayout: int, p2TRPayout: int, p3TRPayout: int)
    : (r: seq<RefundEntry>)
    ensures |r| == 3
    ensures r[0].kind == "3TR" && r[1].kind == "2TR" && r[2].kind == "WIN"
    ensures r[0].amount == p3TRPayout && r[1].amount == p2TRPayout && r[2].amount == winPayout
    ensures forall e :: e in r ==> e.kind != "3PL" && e.kind != "2PL"
  {
    [RefundEntry("3TR", NumberString(first) + "-" + NumberString(second) + "-" + NumberString(third), p3TRPayout),
     RefundEntry("2TR", NumberString(first) + "-" + NumberString(second), p2TRPayout),
     RefundEntry("WIN", NumberString(first), winPayout)]
  }

  /** The manual numbers are exactly the ids the generator gives the winning
      order under 3TR, 2TR and WIN. */
  lemma ManualNumbersAreGeneratedIds(first: int, second: int, third: int, winPayout: int, p2TRPayout: int,
                                     p3TRPayout: int)
    ensures var r := ManualRefunds(first, second, third, winPayout, p2TRPayout, p3TRPayout);
            && r[0].numbers == MakeCombination([first, second, third], OrderedSeparator).id
            && r[1].numbers == MakeCombination([first, second], OrderedSeparator).id
            && r[2].numbers == Unrolled(Win, BoatSelection([first], [], []))[0].id
  {
    JoinThree(first, second, third, OrderedSeparator);
    JoinTwo(first, second, OrderedSeparator);
    BetLogicProperties.WinCombinations(BoatSelection([first], [], []));
  }

  // A formation over its generated combinations hits the manual table when
  // its selection contains the winning order.

  /** Under 3TR: the selection contains the triple (first, second, third). */
  lemma ManualTrifectaHits(f: Formation, first: int, second: int, third: int, winPayout: int, p2TRPayout: int,
                           p3TRPayout: int)
    requires f.betType == Trifecta && f.combinations == Unrolled(Trifecta, f.selections)
    requires IsTriple(f.selections, [first, second, third])
    ensures FormationHit(f, ManualRefunds(first, second, third, winPayout, p2TRPayout, p3TRPayout))
  {
    var c := MakeCombination([first, second, third], OrderedSeparator);
    ManualNumbersAreGeneratedIds(first, second, third, winPayout, p2TRPayout, p3TRPayout);
    BetLogicProperties.TrifectaCombinations(f.selections, c);
    var j :| 0 <= j < |f.combinations| && f.combinations[j] == c;
    TableHit(f, ManualRefunds(first, second, third, winPayout, p2TRPayout, p3TRPayout), 0, j);
  }

  /** Under 2TR: the selection contains the pair (first, second). */
  lemma ManualExactaHits(f: Formation, first: int, second: int, third: int, winPayout: int, p2TRPayout: int,
                         p3TRPayout: int)
    requires f.betType == Exacta && f.combinations == Unrolled(Exacta, f.selections)
    requires IsPair(f.selections, [first, second])
    ensures FormationHit(f, ManualRefunds(first, second, third, winPayout, p2TRPayout, p3TRPayout))
  {
    var c := MakeCombination([first, second], OrderedSeparator);
    ManualNumbersAreGeneratedIds(first, second, third, winPayout, p2TRPayout, p3TRPayout);
    BetLogicProperties.ExactaCombinations(f.selections, c);
    var j :| 0 <= j < |f.combinations| && f.combinations[j] == c;
    TableHit(f, ManualRefunds(first, second, third, winPayout, p2TRPayout, p3TRPayout), 1, j);
  }

  /** Under WIN: the first slot contains the winner. */
  lemma ManualWinHits(f: Formation, first: int, second: int, third: int, winPayout: int, p2TRPayout: int,
                      p3TRPayout: int)
    requires f.betType == Win && f.combinations == Unrolled(Win, f.selections)
    requires first in f.selections.first
    ensures FormationHit(f, ManualRefunds(first, second, third, winPayout, p2TRPayout, p3TRPayout))
  {
    BetLogicProperties.WinCombinations(f.selections);
    var j :| 0 <= j < |f.selections.first| && f.selections.first[j] == first;
    TableHit(f, ManualRefunds(first, second, third, winPayout, p2TRPayout, p3TRPayout), 2, j);
  }

  /** The shape of a table ordered 3TR, 2TR, WIN, as both admin tables are. */
  predicate TableKinds(refunds: seq<RefundEntry>) {
    |refunds| == 3 && refunds[0].kind == "3TR" && refunds[1].kind == "2TR" && refunds[2].kind == "WIN"
  }

  /** In such a table the k-th entry is the first of its kind, so a
      combination carrying its numbers hits. */
  lemma TableHit(f: Formation, refunds: seq<RefundEntry>, k: nat, j: nat)
    requires TableKinds(refunds) && k < 3 && refunds[k].kind == Code(f.betType)
    requires j < |f.combinations| && f.combinations[j].id == refunds[k].numbers
    ensures FormationHit(f, refunds)
  {
    assert refunds[0].kind[0] == '3' && refunds[1].kind[0] == '2' && refunds[2].kind[0] == 'W';
    HitAt(f, refunds, k, j);
  }

  /** 3PL and 2PL formations never hit the manual table and earn nothing. */
  lemma ManualPlaceBetsNeverHit(f: Formation, first: int, second: int, third: int, winPayout: int, p2TRPayout: int,
                                p3TRPayout: int)
    requires f.betType == Trio || f.betType == Quinella
    ensures var refunds := ManualRefunds(first, second, third, winPayout, p2TRPayout, p3TRPayout);
            !FormationHit(f, refunds) && FormationRefund(f, refunds) == 0
  {
    NoEntryNoContribution(f, ManualRefunds(first, second, third, winPayout, p2TRPayout, p3TRPayout));
  }

  /** `parseInt(field) || fallback`: NaN and 0 fall back. */
  function OrDefault(value: Option<int>, fallback: int): (r: int)
    ensures value.None? || value.value == 0 ==> r == fallback
    ensures value.Some? && value.value != 0 ==> r == value.value
  {
    if value.None? || value.value == 0 then fallback else value.value
  }

  /** The demo inputs after defaulting: places 1, 2, 3 and payout 1540. */
  datatype DemoInputs = DemoInputs(first: int, second: int, third: int, payout: int)

  function DemoDefaults(first: Option<int>, second: Option<int>, third: Option<int>, payout: Option<int>)
    : DemoInputs
  {
    DemoInputs(OrDefault(first, 1), OrDefault(second, 2), OrDefault(third, 3), OrDefault(payout, 1540))
  }

  /** The demo refund table: the payout for 3TR, a third of it rounded down
      for 2TR, and 300 for WIN. */
  function DemoRefunds(d: DemoInputs): (r: seq<RefundEntry>)
    ensures |r| == 3 && r[0].amount == d.payout && r[2].amount == 300
    ensures 3 * r[1].amount <= d.payout < 3 * r[1].amount + 3
  {
    ManualRefunds(d.first, d.second, d.third, 300, d.payout / 3, d.payout)
  }

  /** An empty demo form settles against 3TR "1-2-3" paying 1540, 2TR "1-2"
      paying 513 and WIN "1" paying 300. */
  lemma DemoDefaultTable()
    ensures DemoRefunds(DemoDefaults(None, None, Some(0), None))
            == [RefundEntry("3TR", "1-2-3", 1540), RefundEntry("2TR", "1-2", 513), RefundEntry("WIN", "1", 300)]
  {
    assert DigitChar(1) == '1' && DigitChar(2) == '2' && DigitChar(3) == '3';
    assert NumberString(1) == "1" && NumberString(2) == "2" && NumberString(3) == "3";
    assert DemoDefaults(None, None, Some(0), None) == DemoInputs(1, 2, 3, 1540);
    assert 1540 / 3 == 513;
    assert "1" + "-" + "2" + "-" + "3" == "1-2-3";
    assert "1" + "-" + "2" == "1-2";
  }

  /** `triggerBatchEvaluation` only checks the role. */
  function TriggerBatchEvaluation(session: Session): (r: Guarded<()>)
    ensures r.Ran? <==> IsAdmin(session)
  {
    if IsAdmin(session) then Ran(()) else Unauthorized
  }

  /** The result saved for a race and the batch run over it. */
  method SaveAndEvaluate(db: Database, key: RaceKey, result: RaceResult) returns (outcome: BatchOutcome)
    modifies db`raceResults, db`predictions
    ensures db.raceResults == old(db.raceResults)[key := result]
    ensures outcome == Evaluated(|Selected(old(db.predictions), key)|)
    ensures db.predictions == SettledRows(old(db.predictions), Selected(old(db.predictions), key), result.refunds)
  {
    db.raceResults := db.raceResults[key := result];
    outcome := EvaluateRaceBatch(db, key);
  }

  /** `submitManualResult`: an admin's result is saved under the race and the
      race is settled against the manual table; `now` is the date used when
      the form has none. The batch's own result is not returned. */
  method SubmitManualResult(db: Database, session: Session, placeName: string, raceNumber: int,
                            raceDate: Option<int>, now: int, first: int, second: int, third: int,
                            winPayout: int, p2TRPayout: int, p3TRPayout: int)
    returns (outcome: Guarded<()>)
    modifies db`raceResults, db`predictions
    ensures !IsAdmin(session) ==>
              outcome == Unauthorized && db.raceResults == old(db.raceResults) && db.predictions == old(db.predictions)
    ensures IsAdmin(session) ==>
              var key := RaceKey(placeName, raceNumber, if raceDate.Some? then raceDate.value else now);
              var refunds := ManualRefunds(first, second, third, winPayout, p2TRPayout, p3TRPayout);
              && db.raceResults == old(db.raceResults)[key := RaceResult(first, second, third, refunds)]
              && db.predictions == SettledRows(old(db.predictions), Selected(old(db.predictions), key), refunds)
              && outcome == Ran(())
  {
    if !IsAdmin(session) {
      return Unauthorized;
    }
    var date := if raceDate.Some? then raceDate.value else now;
    var refundsData := ManualRefunds(first, second, third, winPayout, p2TRPayout, p3TRPayout);
    var _ := SaveAndEvaluate(db, RaceKey(placeName, raceNumber, date), RaceResult(first, second, third, refundsData));
    return Ran(());
  }

  /** `triggerDemoEvaluation`: any signed-in user settles the race of today
      (`now`) against the demo table and gets the batch result back. */
  method TriggerDemoEvaluation(db: Database, session: Session, placeName: string, raceNumber: int, now: int,
                               first: Option<int>, second: Option<int>, third: Option<int>, payout: Option<int>)
    returns (outcome: Guarded<BatchOutcome>)
    modifies db`raceResults, db`predictions
    ensures session.Anonymous? ==>
              outcome == Unauthorized && db.raceResults == old(db.raceResults) && db.predictions == old(db.predictions)
    ensures session.SignedIn? ==>
              var key := RaceKey(placeName, raceNumber, now);
              var d := DemoDefaults(first, second, third, payout);
              var refunds := DemoRefunds(d);
              && db.raceResults == old(db.raceResults)[key := RaceResult(d.first, d.second, d.third, refunds)]
              && db.predictions == SettledRows(old(db.predictions), Selected(old(db.predictions), key), refunds)
              && outcome == Ran(Evaluated(|Selected(old(db.predictions), key)|))
  {
    if session.Anonymous? {
      return Unauthorized;
    }
    var d := DemoDefaults(first, second, third, payout);
    var refundsData := DemoRefunds(d);
    var batch := SaveAndEvaluate(db, RaceKey(placeName, raceNumber, now), RaceResult(d.first, d.second, d.third, refundsData));
    return Ran(batch);
  }

  /** `triggerSyncSchedule`. */
  method TriggerSyncSchedule(db: Database, session: Session, feed: Option<seq<Program>>)
    returns (outcome: Guarded<SyncOutcome>)
    modifies db`raceSchedules
    ensures !IsAdmin(session) ==> outcome == Unauthorized && db.raceSchedules == old(db.raceSchedules)
    ensures IsAdmin(session) && feed.Some? && feed.value != [] ==>
              outcome == Ran(Synced(KnownCount(feed.value)))
              && db.raceSchedules == Schedules(old(db.raceSchedules), feed.value)
    ensures IsAdmin(session) && (feed.None? || feed == Some([])) ==>
              outcome.Ran? && !outcome.value.Synced? && db.raceSchedules == old(db.raceSchedules)
  {
    if !IsAdmin(session) {
      return Unauthorized;
    }
    var result := SyncTodaySchedule(db, feed);
    return Ran(result);
  }

  /** The outcome of `triggerApiEvaluation` once the caller is an admin. */
  /** `ApiRaceNotFound` is the `{success: false}` the `catch` returns when the
      batch throws "Race result not found". */
  datatype ApiOutcome = ApiFailed(error: FetchError) | ApiRaceNotFound | ApiEvaluated

  /** `triggerApiEvaluation`: fetch and save the result, then settle the race
      dated `today`. A failed fetch settles nothing. The batch runs on today's
      date even when the saved result carries another date; when no result is
      stored under today's key the batch throws, the saved result stays, and
      the caller is told it failed. */
  method TriggerApiEvaluation(db: Database, session: Session, feed: Option<seq<ResultRecord>>, placeName: string,
                              raceNumber: int, today: int)
    returns (outcome: Guarded<ApiOutcome>)
    modifies db`raceResults, db`predictions
    ensures !IsAdmin(session) ==>
              outcome == Unauthorized && db.raceResults == old(db.raceResults) && db.predictions == old(db.predictions)
    ensures IsAdmin(session) ==>
              match FetchSpec(feed, placeName, raceNumber)
              case FetchFailure(e) =>
                outcome == Ran(ApiFailed(e)) && db.raceResults == old(db.raceResults)
                && db.predictions == old(db.predictions)
              case Saved(savedKey, saved) =>
                var key := RaceKey(placeName, raceNumber, today);
                var results := old(db.raceResults)[savedKey := saved];
                && outcome == Ran(if key in results then ApiEvaluated else ApiRaceNotFound)
                && db.raceResults == results
                && db.predictions == (if key in results
                                      then SettledRows(old(db.predictions), Selected(old(db.predictions), key), results[key].refunds)
                                      else old(db.predictions))
  {
    if !IsAdmin(session) {
      return Unauthorized;
    }
    var apiRes := FetchAndSaveRaceResult(db, feed, placeName, raceNumber);
    if apiRes.FetchFailure? {
      return Ran(ApiFailed(apiRes.error));
    }
    var key := RaceKey(placeName, raceNumber, today);
    var batch := EvaluateRaceBatch(db, key);
    if batch.RaceResultNotFound? {
      return Ran(ApiRaceNotFound);
    }
    return Ran(ApiEvaluated);
  }
}
