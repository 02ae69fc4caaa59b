/** `publishPrediction` of src/actions/prediction.ts: three guards, then one
    insert into the prediction table. */
module Publish {
  import opened Wrappers
  import opened BetLogic
  import opened Schema

  /** The action's argument. */
  datatype PublishInput = PublishInput(
    title: string,
    commentary: string,
    price: int,
    placeName: string,
    raceNumber: int,
    raceDate: int,
    deadlineAt: int,
    cartData: seq<Formation>,
    isPrivate: Option<bool>)

  /** Each rejection throws; a publication ends in a redirect to the new
      prediction's page. */
  datatype PublishOutcome = NotLoggedIn | EmptyCart | DeadlinePassed | Published(id: PredictionId)

  /** The row `prisma.prediction.create` inserts; the settlement columns take
      their defaults (not settled, no hit, no refund). */
  function NewPrediction(authorId: UserId, data: PublishInput): (p: Prediction)
    ensures p.authorId == authorId && p.payload == Parsed(data.cartData)
    ensures p.race == RaceKey(data.placeName, data.raceNumber, data.raceDate)
    ensures p.isPrivate == (data.isPrivate == Some(true))
    ensures !p.resultChecked && !p.isHit && p.refundAmount == 0
  {
    Prediction(authorId, RaceKey(data.placeName, data.raceNumber, data.raceDate), data.deadlineAt, data.price,
               Parsed(data.cartData), if data.isPrivate.Some? then data.isPrivate.value else false,
               data.title, data.commentary, false, false, 0)
  }

  datatype PublishStep = PublishStep(outcome: PublishOutcome, predictions: map<PredictionId, Prediction>)

  /** What `publishPrediction(data)` does at clock reading `now`, with `freshId`
      the id the database assigns. */
  function PublishSpec(session: Session, data: PublishInput, now: int, freshId: PredictionId,
                       predictions: map<PredictionId, Prediction>): PublishStep
  {
    if session.Anonymous? then PublishStep(NotLoggedIn, predictions)
    else if |data.cartData| == 0 then PublishStep(EmptyCart, predictions)
    else if data.deadlineAt < now then PublishStep(DeadlinePassed, predictions)
    else PublishStep(Published(freshId), predictions[freshId := NewPrediction(session.userId, data)])
  }

  method PublishPrediction(db: Database, session: Session, data: PublishInput, now: int, freshId: PredictionId)
    returns (outcome: PublishOutcome)
    requires freshId !in db.predictions
    modifies db`predictions
    ensures var step := PublishSpec(session, data, now, freshId, old(db.predictions));
            outcome == step.outcome && db.predictions == step.predictions
  {
    if session.Anonymous? {
      return NotLoggedIn;
    }
    if |data.cartData| == 0 {
      return EmptyCart;
    }
    if data.deadlineAt < now {
      return DeadlinePassed;
    }
    var isPrivate := if data.isPrivate.Some? then data.isPrivate.value else false;
    var prediction := Prediction(session.userId, RaceKey(data.placeName, data.raceNumber, data.raceDate),
                                 data.deadlineAt, data.price, Parsed(data.cartData), isPrivate,
                                 data.title, data.commentary, false, false, 0);
    db.predictions := db.predictions[freshId := prediction];
    return Published(freshId);
  }

  /** Each guard rejects before any insert, and a publication happens exactly
      when a signed-in user publishes a non-empty cart no later than its
      deadline. */
  lemma PublishGuards(session: Session, data: PublishInput, now: int, freshId: PredictionId,
                      predictions: map<PredictionId, Prediction>)
    ensures var step := PublishSpec(session, data, now, freshId, predictions);
            && (step.outcome.Published? <==> session.SignedIn? && |data.cartData| > 0 && now <= data.deadlineAt)
            && (!step.outcome.Published? ==> step.predictions == predictions)
            && (session.Anonymous? ==> step.outcome == NotLoggedIn)
            && (session.SignedIn? && |data.cartData| == 0 ==> step.outcome == EmptyCart)
  {
  }

  /** A publication inserts exactly one row under the fresh id, authored by the
      session's user, holding the cart and unsettled. */
  lemma PublishInsertsOneRow(session: Session, data: PublishInput, now: int, freshId: PredictionId,
                             predictions: map<PredictionId, Prediction>)
    requires freshId !in predictions
    requires PublishSpec(session, data, now, freshId, predictions).outcome.Published?
    ensures var after := PublishSpec(session, data, now, freshId, predictions).predictions;
            && after.Keys == predictions.Keys + {freshId}
            && (forall id :: id in predictions ==> after[id] == predictions[id])
            && after[freshId].authorId == session.userId
            && Formations(after[freshId].payload) == data.cartData
            && (data.isPrivate.None? ==> !after[freshId].isPrivate)
            && !after[freshId].resultChecked
  {
  }
}
