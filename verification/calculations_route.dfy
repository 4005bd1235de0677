/** `POST /api/calculations` (`app/api/calculations/route.ts`): validate four
    masses, compute, store the figures and award eco points. */
module CalculationsRoute {
  import opened Json
  import opened Http
  import opened JsMath
  import opened Calculations
  import opened Store

  datatype Sample = Sample(kitchenKg: real, plasticKg: real, paperKg: real, gardenKg: real)

  /** The upper bound `CalculationSchema` puts on each field; every lower bound is 0. */
  const Limits: map<string, real> := map["kitchen_kg" := 10.0, "plastic_kg" := 5.0, "paper_kg" := 3.0, "garden_kg" := 5.0]

  predicate WithinLimit(v: Option<Value>, hi: real) {
    v.Some? && v.value.Number? && 0.0 <= v.value.n <= hi
  }

  function Bounded(fields: map<string, Value>, key: string, hi: real): Option<real> {
    match ZodNumber(Get(fields, key))
    case Some(n) => if 0.0 <= n <= hi then Some(n) else None
    case None => None
  }

  /** `CalculationSchema.parse(body)`. */
  function ParseSample(fields: map<string, Value>): (r: Option<Sample>)
    ensures r.Some? <==> forall key :: key in Limits ==> WithinLimit(Get(fields, key), Limits[key])
    ensures r.Some? ==> && Get(fields, "kitchen_kg") == Some(Number(r.value.kitchenKg))
                        && Get(fields, "plastic_kg") == Some(Number(r.value.plasticKg))
                        && Get(fields, "paper_kg") == Some(Number(r.value.paperKg))
                        && Get(fields, "garden_kg") == Some(Number(r.value.gardenKg))
  {
    assert "kitchen_kg" in Limits && "plastic_kg" in Limits && "paper_kg" in Limits && "garden_kg" in Limits;
    match (Bounded(fields, "kitchen_kg", 10.0), Bounded(fields, "plastic_kg", 5.0),
           Bounded(fields, "paper_kg", 3.0), Bounded(fields, "garden_kg", 5.0))
    case (Some(k), Some(p), Some(a), Some(g)) => Some(Sample(k, p, a, g))
    case _ => None
  }

  function TotalKg(s: Sample): real {
    s.kitchenKg + s.plasticKg + s.paperKg + s.gardenKg
  }

  /** `ecoPointsEarned`: ten points per kilogram tracked, `Math.round`ed. */
  function Award(s: Sample): (points: int)
    ensures points as real - 0.5 <= 10.0 * TotalKg(s) < points as real + 0.5
  {
    Round(TotalKg(s) * 10.0)
  }

  datatype Reply = Reply(results: CalculationResult, ecoPointsEarned: int)

  function Compute(s: Sample): CalculationResult {
    PerformCalculations(s.kitchenKg, s.plasticKg, s.paperKg, s.gardenKg)
  }

  /** The `calculations` row holding the five top-level figures. */
  function RowFor(u: UserId, r: CalculationResult): CalculationRow {
    CalculationRow(u, r.biogasLiters, r.electricityKwh, r.costSavingsInr, r.co2ReductionKg, r.fertilizerKg)
  }

  /** The `eco_points` row that records the award. */
  function AwardRow(u: UserId, s: Sample): PointsRow {
    var r := Compute(s);
    PointsRow(u, Award(s) as real, Tracked(TotalKg(s), r.biogasLiters, r.co2ReductionKg), Text("waste_tracking"))
  }

  /** The POST handler. `calculationWriteOk` and `pointsWriteOk` are the outcomes
      of the two inserts; the second one's error is never looked at. */
  function Post(db: Db, user: Option<UserId>, body: Body, calculationWriteOk: bool, pointsWriteOk: bool): (h: Handled<Reply>)
    ensures user.None? ==> h == Handled(Err(UNAUTHORIZED), db)
    ensures user.Some? && body.Unparsable? ==> h == Handled(Err(SERVER_ERROR), db)
    ensures user.Some? && body.Object? && ParseSample(body.fields).None? ==> h == Handled(Err(BAD_REQUEST), db)
    ensures user.Some? && body.Object? && ParseSample(body.fields).Some? && !calculationWriteOk
            ==> h == Handled(Err(SERVER_ERROR), db)
    ensures h.response.Ok? <==> user.Some? && body.Object? && ParseSample(body.fields).Some? && calculationWriteOk
    ensures h.response.Ok? ==>
              var u := user.value;
              var s := ParseSample(body.fields).value;
              && h.response.status == CREATED
              && h.response.value == Reply(Compute(s), Award(s))
              && h.db.calculations == db.calculations + [RowFor(u, Compute(s))]
              && h.db.ecoPoints == db.ecoPoints + (if pointsWriteOk then [AwardRow(u, s)] else [])
              && h.db.purchases == db.purchases
              && h.db.events == db.events
              && h.db.locations == db.locations
  {
    if user.None? then Handled(Err(UNAUTHORIZED), db)
    else if body.Unparsable? then Handled(Err(SERVER_ERROR), db)
    else
      match ParseSample(body.fields)
      case None => Handled(Err(BAD_REQUEST), db)
      case Some(s) =>
        if !calculationWriteOk then Handled(Err(SERVER_ERROR), db)
        else
          var u := user.value;
          var results := Compute(s);
          var db1 := db.(calculations := db.calculations + [RowFor(u, results)]);
          var db2 := if pointsWriteOk then db1.(ecoPoints := db1.ecoPoints + [AwardRow(u, s)]) else db1;
          Handled(Ok(CREATED, Reply(results, Award(s))), db2)
  }

  /** A validated sample earns between 0 and 230 points. */
  lemma AwardRange(fields: map<string, Value>)
    requires ParseSample(fields).Some?
    ensures 0 <= Award(ParseSample(fields).value) <= 230
  {
    var s := ParseSample(fields).value;
    assert "kitchen_kg" in Limits && "plastic_kg" in Limits && "paper_kg" in Limits && "garden_kg" in Limits;
    assert WithinLimit(Get(fields, "kitchen_kg"), 10.0);
    assert WithinLimit(Get(fields, "plastic_kg"), 5.0);
    assert WithinLimit(Get(fields, "paper_kg"), 3.0);
    assert WithinLimit(Get(fields, "garden_kg"), 5.0);
    assert 0.0 <= TotalKg(s) <= 23.0;
  }

  /** A tracked sample credits its user exactly the award, and only when both
      inserts went through; every other balance stays as it was. */
  lemma PostCredits(db: Db, user: Option<UserId>, body: Body, calculationWriteOk: bool, pointsWriteOk: bool, v: UserId)
    ensures var h := Post(db, user, body, calculationWriteOk, pointsWriteOk);
            Available(h.db, v) == Available(db, v)
              + (if h.response.Ok? && pointsWriteOk && v == user.value then h.response.value.ecoPointsEarned as real else 0.0)
  {
    var h := Post(db, user, body, calculationWriteOk, pointsWriteOk);
    if h.response.Ok? {
      var u := user.value;
      var s := ParseSample(body.fields).value;
      var db1 := db.(calculations := db.calculations + [RowFor(u, Compute(s))]);
      assert Available(db1, v) == Available(db, v);
      if pointsWriteOk {
        CreditRow(db1, AwardRow(u, s), v);
      }
    }
  }
}
