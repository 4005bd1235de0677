/** The hosted database tables the route handlers read and append to, as
    sequences of rows, and the eco-points balance computed from them. */
module Store {
  import opened Json
  import opened Http
  import Seqs

  type UserId = string

  /** The `activity` text of an `eco_points` row: either the text the
      calculations route builds from these three figures, or a client-supplied value. */
  datatype Activity = Tracked(totalKg: real, biogasLiters: real, co2ReductionKg: real) | Described(text: Value)

  /** A row of `eco_points`. */
  datatype PointsRow = PointsRow(userId: UserId, points: real, activity: Activity, activityType: Value)

  /** A row of `user_eco_purchases`. */
  datatype PurchaseRow = PurchaseRow(userId: UserId, productId: string, pointsSpent: real)

  /** A row of `calculations`. */
  datatype CalculationRow = CalculationRow(
    userId: UserId,
    biogasL: real,
    electricityKwh: real,
    costSavingsInr: real,
    co2ReductionKg: real,
    fertilizerKg: real)

  /** A row of `event_food_donations`. */
  datatype EventRow = EventRow(
    userId: UserId,
    eventName: string,
    eventDate: string,
    foodQuantityKg: real,
    latitude: real,
    longitude: real)

  /** A row of `community_locations`; `kind` is the `type` column. */
  datatype LocationRow = LocationRow(
    name: string,
    kind: string,
    address: string,
    contact: Option<string>,
    latitude: real,
    longitude: real)

  datatype Db = Db(
    calculations: seq<CalculationRow>,
    ecoPoints: seq<PointsRow>,
    purchases: seq<PurchaseRow>,
    events: seq<EventRow>,
    locations: seq<LocationRow>)

  /** A handler's response together with the tables after it ran. */
  datatype Handled<+T> = Handled(response: Response<T>, db: Db)

  /** The weight of a row in `u`'s sum: rows of other users are filtered out by
      the `.eq("user_id", ...)` of the query. */
  function EarnedBy(u: UserId): PointsRow -> real {
    (row: PointsRow) => if row.userId == u then row.points else 0.0
  }

  function SpentBy(u: UserId): PurchaseRow -> real {
    (row: PurchaseRow) => if row.userId == u then row.pointsSpent else 0.0
  }

  /** `totalEarned`: the sum of `points` over `u`'s `eco_points` rows (0 when none). */
  function TotalEarned(db: Db, u: UserId): real {
    Seqs.Sum(db.ecoPoints, EarnedBy(u))
  }

  /** `totalSpent`: the sum of `points_spent` over `u`'s purchases (0 when none). */
  function TotalSpent(db: Db, u: UserId): real {
    Seqs.Sum(db.purchases, SpentBy(u))
  }

  /** `availablePoints`, with no clamping at zero. */
  function Available(db: Db, u: UserId): real {
    TotalEarned(db, u) - TotalSpent(db, u)
  }

  /** Appending one `eco_points` row changes its owner's balance by its points and
      no one else's. */
  lemma CreditRow(db: Db, row: PointsRow, u: UserId)
    ensures Available(db.(ecoPoints := db.ecoPoints + [row]), u)
         == Available(db, u) + (if row.userId == u then row.points else 0.0)
  {
    var rows := db.ecoPoints + [row];
    assert rows[..|rows| - 1] == db.ecoPoints;
  }

  /** Appending one purchase row lowers its owner's balance by the points spent
      and no one else's. */
  lemma DebitRow(db: Db, row: PurchaseRow, u: UserId)
    ensures Available(db.(purchases := db.purchases + [row]), u)
         == Available(db, u) - (if row.userId == u then row.pointsSpent else 0.0)
  {
    var rows := db.purchases + [row];
    assert rows[..|rows| - 1] == db.purchases;
  }

  /** A user with no rows at all has a balance of 0. */
  lemma {:induction false} NoRowsNoBalance(db: Db, u: UserId)
    requires forall i :: 0 <= i < |db.ecoPoints| ==> db.ecoPoints[i].userId != u
    requires forall i :: 0 <= i < |db.purchases| ==> db.purchases[i].userId != u
    ensures TotalEarned(db, u) == 0.0 && TotalSpent(db, u) == 0.0 && Available(db, u) == 0.0
  {
    Seqs.SumAtMost(db.ecoPoints, EarnedBy(u), 0.0);
    Seqs.SumAtLeast(db.ecoPoints, EarnedBy(u), 0.0);
    Seqs.SumAtMost(db.purchases, SpentBy(u), 0.0);
    Seqs.SumAtLeast(db.purchases, SpentBy(u), 0.0);
  }
}
