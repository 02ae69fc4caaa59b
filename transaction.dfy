/** `unlockPrediction` of src/actions/transaction.ts: a buyer pays the
    prediction's price to its author, inside one all-or-nothing database
    transaction that also writes two ledger rows and a sale notification. */
module Transaction {
  import opened Schema

  /** The errors the transaction throws and the action returns as
      `{success: false, error}`. `AuthorNotFound` is the failure of the
      author's `update` on a missing row, which rolls the transaction back. */
  datatype UnlockError = PredictionNotFound | DeadlinePassed | BuyerNotFound | InsufficientPoints | AuthorNotFound

  /** `NotLoggedIn` is the one case in which the action throws. */
  datatype UnlockOutcome = NotLoggedIn | Unlocked | Failed(error: UnlockError)

  /** The tables the transaction writes. */
  datatype Books = Books(users: map<UserId, User>, ledger: seq<LedgerRow>, notifications: seq<Notification>)

  datatype UnlockStep = UnlockStep(outcome: UnlockOutcome, books: Books)

  /** `tx.transaction.findFirst({userId, predictionId, action: 'BUY_PREDICTION'})`
      finds a row. */
  predicate AlreadyBought(ledger: seq<LedgerRow>, buyer: UserId, predictionId: PredictionId) {
    exists i :: 0 <= i < |ledger| && ledger[i].userId == buyer && ledger[i].predictionId == predictionId
                                   && ledger[i].action == BuyPrediction
  }

  /** The decrement of the buyer followed by the increment of the author. */
  function Transfer(users: map<UserId, User>, buyer: UserId, author: UserId, price: int): map<UserId, User>
    requires buyer in users && author in users
  {
    var afterBuyer := users[buyer := users[buyer].(points := users[buyer].points - price)];
    afterBuyer[author := afterBuyer[author].(points := afterBuyer[author].points + price)]
  }

  /** What `unlockPrediction(predictionId)` does, given the session and the
      clock reading `now`. */
  function UnlockSpec(session: Session, predictions: map<PredictionId, Prediction>, books: Books,
                      predictionId: PredictionId, now: int): UnlockStep
  {
    if session.Anonymous? then UnlockStep(NotLoggedIn, books)
    else
      var buyer := session.userId;
      if predictionId !in predictions then UnlockStep(Failed(PredictionNotFound), books)
      else
        var p := predictions[predictionId];
        if p.deadlineAt < now then UnlockStep(Failed(DeadlinePassed), books)
        else if p.price == 0 || p.authorId == buyer then UnlockStep(Unlocked, books)
        else if AlreadyBought(books.ledger, buyer, predictionId) then UnlockStep(Unlocked, books)
        else if buyer !in books.users then UnlockStep(Failed(BuyerNotFound), books)
        else if books.users[buyer].points < p.price then UnlockStep(Failed(InsufficientPoints), books)
        else if p.authorId !in books.users then UnlockStep(Failed(AuthorNotFound), books)
        else
          UnlockStep(Unlocked, Books(
            Transfer(books.users, buyer, p.authorId, p.price),
            books.ledger + [LedgerRow(buyer, predictionId, BuyPrediction, -p.price),
                            LedgerRow(p.authorId, predictionId, SellPrediction, p.price)],
            books.notifications + [Notification(p.authorId, "SALE", false)]))
  }

  method Unlock(db: Database, session: Session, predictionId: PredictionId, now: int) returns (outcome: UnlockOutcome)
    modifies db`users, db`ledger, db`notifications
    ensures var step := UnlockSpec(session, old(db.predictions), Books(old(db.users), old(db.ledger), old(db.notifications)),
                                   predictionId, now);
            outcome == step.outcome && Books(db.users, db.ledger, db.notifications) == step.books
  {
    if session.Anonymous? {
      return NotLoggedIn;
    }
    var userId := session.userId;
    if predictionId !in db.predictions {
      return Failed(PredictionNotFound);
    }
    var prediction := db.predictions[predictionId];
    if prediction.deadlineAt < now {
      return Failed(DeadlinePassed);
    }
    if prediction.price == 0 || prediction.authorId == userId {
      return Unlocked;
    }
    if AlreadyBought(db.ledger, userId, predictionId) {
      return Unlocked;
    }
    if userId !in db.users {
      return Failed(BuyerNotFound);
    }
    if db.users[userId].points < prediction.price {
      return Failed(InsufficientPoints);
    }
    // The author's update would throw; the transaction writes nothing.
    if prediction.authorId !in db.users {
      return Failed(AuthorNotFound);
    }
    var buyer := db.users[userId];
    db.users := db.users[userId := buyer.(points := buyer.points - prediction.price)];
    var author := db.users[prediction.authorId];
    db.users := db.users[prediction.authorId := author.(points := author.points + prediction.price)];
    db.ledger := db.ledger + [LedgerRow(userId, predictionId, BuyPrediction, -prediction.price)];
    db.ledger := db.ledger + [LedgerRow(prediction.authorId, predictionId, SellPrediction, prediction.price)];
    db.notifications := db.notifications + [Notification(prediction.authorId, "SALE", false)];
    return Unlocked;
  }

  // ---------------------------------------------------------------------
  // The sum of all balances.
  // ---------------------------------------------------------------------

  ghost function Total(users: map<UserId, User>): int
    decreases |users|
  {
    if users == map[] then 0
    else
      var k :| k in users;
      users[k].points + Total(users - {k})
  }

  lemma {:induction false} TotalRemove(users: map<UserId, User>, k: UserId)
    requires k in users
    ensures Total(users) == users[k].points + Total(users - {k})
    decreases |users|
  {
    var j :| j in users && Total(users) == users[j].points + Total(users - {j});
    if j != k {
      assert users - {j} - {k} == users - {k} - {j};
      TotalRemove(users - {j}, k);
      TotalRemove(users - {k}, j);
    }
  }

  lemma TotalUpdate(users: map<UserId, User>, k: UserId, u: User)
    requires k in users
    ensures Total(users[k := u]) == Total(users) - users[k].points + u.points
  {
    TotalRemove(users, k);
    TotalRemove(users[k := u], k);
    assert users[k := u] - {k} == users - {k};
  }

  /** Every unlock keeps the sum of all balances: the buyer loses what the
      author gains. */
  lemma UnlockZeroSum(session: Session, predictions: map<PredictionId, Prediction>, books: Books,
                      predictionId: PredictionId, now: int)
    ensures Total(UnlockSpec(session, predictions, books, predictionId, now).books.users) == Total(books.users)
  {
    var step := UnlockSpec(session, predictions, books, predictionId, now);
    if step.books != books {
      var buyer, p := session.userId, predictions[predictionId];
      var afterBuyer := books.users[buyer := books.users[buyer].(points := books.users[buyer].points - p.price)];
      TotalUpdate(books.users, buyer, afterBuyer[buyer]);
      TotalUpdate(afterBuyer, p.authorId, afterBuyer[p.authorId].(points := afterBuyer[p.authorId].points + p.price));
    }
  }

  /** With non-negative balances and a non-negative price, no balance goes
      below zero. */
  lemma UnlockKeepsBalancesNonNegative(session: Session, predictions: map<PredictionId, Prediction>, books: Books,
                                       predictionId: PredictionId, now: int)
    requires forall u :: u in books.users ==> books.users[u].points >= 0
    requires predictionId in predictions ==> predictions[predictionId].price >= 0
    ensures var after := UnlockSpec(session, predictions, books, predictionId, now).books.users;
            forall u :: u in after ==> after[u].points >= 0
  {
  }

  /** A success that changes anything appends exactly one BUY row of -price
      and one SELL row of +price (summing to zero), one SALE notification to
      the author, and moves the price from buyer to author. */
  lemma UnlockWritesTwoRows(session: Session, predictions: map<PredictionId, Prediction>, books: Books,
                            predictionId: PredictionId, now: int)
    requires UnlockSpec(session, predictions, books, predictionId, now).books != books
    ensures var step := UnlockSpec(session, predictions, books, predictionId, now);
            && step.outcome == Unlocked
            && session.SignedIn? && predictionId in predictions
            && var buyer, p := session.userId, predictions[predictionId];
               && buyer != p.authorId && p.price != 0 && buyer in books.users && p.authorId in books.users
               && books.users[buyer].points >= p.price && !AlreadyBought(books.ledger, buyer, predictionId)
               && |step.books.ledger| == |books.ledger| + 2
               && step.books.ledger[..|books.ledger|] == books.ledger
               && step.books.ledger[|books.ledger|] == LedgerRow(buyer, predictionId, BuyPrediction, -p.price)
               && step.books.ledger[|books.ledger| + 1] == LedgerRow(p.authorId, predictionId, SellPrediction, p.price)
               && step.books.ledger[|books.ledger|].points + step.books.ledger[|books.ledger| + 1].points == 0
               && step.books.notifications == books.notifications + [Notification(p.authorId, "SALE", false)]
               && step.books.users[buyer].points == books.users[buyer].points - p.price
               && step.books.users[p.authorId].points == books.users[p.authorId].points + p.price
               && (forall u :: u in books.users && u != buyer && u != p.authorId ==> step.books.users[u] == books.users[u])
               && step.books.users.Keys == books.users.Keys
  {
    var step := UnlockSpec(session, predictions, books, predictionId, now);
    var n := |books.ledger|;
    assert step.books.ledger[..n] == books.ledger;
  }

  /** Failures and the free, own and already-bought cases change nothing. */
  lemma UnlockNoChangeCases(session: Session, predictions: map<PredictionId, Prediction>, books: Books,
                            predictionId: PredictionId, now: int)
    ensures var step := UnlockSpec(session, predictions, books, predictionId, now);
            step.outcome != Unlocked ==> step.books == books
    ensures session.SignedIn? && predictionId in predictions && now <= predictions[predictionId].deadlineAt
            && (predictions[predictionId].price == 0 || predictions[predictionId].authorId == session.userId
                || AlreadyBought(books.ledger, session.userId, predictionId))
            ==> UnlockSpec(session, predictions, books, predictionId, now) == UnlockStep(Unlocked, books)
  {
  }

  /** The deadline guard is strict: a purchase strictly after the deadline
      fails, one at the deadline itself passes the guard. */
  lemma UnlockDeadline(session: Session, predictions: map<PredictionId, Prediction>, books: Books,
                       predictionId: PredictionId, now: int)
    requires session.SignedIn? && predictionId in predictions
    ensures UnlockSpec(session, predictions, books, predictionId, now).outcome == Failed(DeadlinePassed)
            <==> predictions[predictionId].deadlineAt < now
  {
  }

  /** "Insufficient points" is returned exactly when a buyer who would pay
      holds less than the price. */
  lemma UnlockInsufficient(session: Session, predictions: map<PredictionId, Prediction>, books: Books,
                           predictionId: PredictionId, now: int)
    requires session.SignedIn? && predictionId in predictions
    requires var p := predictions[predictionId];
             now <= p.deadlineAt && p.price != 0 && p.authorId != session.userId
             && !AlreadyBought(books.ledger, session.userId, predictionId) && session.userId in books.users
    ensures UnlockSpec(session, predictions, books, predictionId, now).outcome == Failed(InsufficientPoints)
            <==> books.users[session.userId].points < predictions[predictionId].price
  {
  }

  /** Unlocking again after a success is a no-op success: no second charge. */
  lemma UnlockIdempotent(session: Session, predictions: map<PredictionId, Prediction>, books: Books,
                         predictionId: PredictionId, now: int)
    requires UnlockSpec(session, predictions, books, predictionId, now).outcome == Unlocked
    ensures var once := UnlockSpec(session, predictions, books, predictionId, now).books;
            UnlockSpec(session, predictions, once, predictionId, now) == UnlockStep(Unlocked, once)
  {
    var once := UnlockSpec(session, predictions, books, predictionId, now).books;
    if once != books {
      var n := |books.ledger|;
      assert once.ledger[n].userId == session.userId && once.ledger[n].predictionId == predictionId;
      assert AlreadyBought(once.ledger, session.userId, predictionId);
    }
  }
}
