/** The rows of the application's database that the server actions and the
    settlement engine read and write, and an in-memory `Database` holding
    them. Each Prisma table is a map keyed by its primary key or a sequence of
    rows in insertion order. */
module Schema {
  import opened BetLogic

  type UserId = string
  type PredictionId = string

  /** The composite key `placeName_raceNumber_raceDate` of a race; dates are
      whole numbers (days or instants) compared as integers. */
  datatype RaceKey = RaceKey(placeName: string, raceNumber: int, raceDate: int)

  /** A stored `predictedNumbers` JSON column. `parseJsonSafely` never throws on
      a string: a string that is not JSON parses to `[]`. */
  datatype Payload = Parsed(formations: seq<Formation>) | Unparseable

  /** What `parseJsonSafely<Formation[]>(pred.predictedNumbers)` yields. */
  function Formations(p: Payload): (fs: seq<Formation>)
    ensures p.Unparseable? ==> fs == []
    ensures p.Parsed? ==> fs == p.formations
  {
    if p.Parsed? then p.formations else []
  }

  datatype Prediction = Prediction(
    authorId: UserId,
    race: RaceKey,
    deadlineAt: int,
    price: int,
    payload: Payload,
    isPrivate: bool,
    title: string,
    commentary: string,
    resultChecked: bool,
    isHit: bool,
    refundAmount: int)

  /** One row of a refund table: the bet type code ("3TR", "3PL", "2TR",
      "2PL", "WIN"), the winning numbers as a string and the payout per 100
      points of stake. */
  datatype RefundEntry = RefundEntry(kind: string, numbers: string, amount: int)

  datatype RaceResult = RaceResult(firstPlace: int, secondPlace: int, thirdPlace: int, refunds: seq<RefundEntry>)

  datatype Role = Admin | Member

  datatype User = User(name: string, email: string, passwordHash: string, points: int, role: Role)

  datatype LedgerAction = BuyPrediction | SellPrediction

  /** A row of the `transaction` table. */
  datatype LedgerRow = LedgerRow(userId: UserId, predictionId: PredictionId, action: LedgerAction, points: int)

  datatype Notification = Notification(userId: UserId, kind: string, isRead: bool)

  /** The result of `auth()`: no session, or a signed-in user and their role.
      `SignedIn` stands for a session whose user id is non-empty; the guard
      `!session?.user?.id` treats an empty id as no session. */
  datatype Session = Anonymous | SignedIn(userId: UserId, role: Role)

  predicate IsAdmin(s: Session) {
    s.SignedIn? && s.role == Admin
  }

  /** The database: one field per table the core touches. */
  class Database {
    var users: map<UserId, User>
    var predictions: map<PredictionId, Prediction>
    var raceResults: map<RaceKey, RaceResult>
    var raceSchedules: map<RaceKey, int>
    var ledger: seq<LedgerRow>
    var notifications: seq<Notification>
    var follows: set<(UserId, UserId)>

    constructor()
      ensures users == map[] && predictions == map[] && raceResults == map[] && raceSchedules == map[]
      ensures ledger == [] && notifications == [] && follows == {}
    {
      users, predictions, raceResults, raceSchedules := map[], map[], map[], map[];
      ledger, notifications, follows := [], [], {};
    }
  }
}
