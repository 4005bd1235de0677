/** `GET` and `POST /api/ecopoints` (`app/api/ecopoints/route.ts`): a user's
    balance, and granting points with a required-field guard. */
module EcoPointsRoute {
  import opened Json
  import opened Http
  import opened Store

  datatype Summary = Summary(totalEarned: real, totalSpent: real, availablePoints: real)

  /** The GET handler (the five most recent activities it also returns are not modelled). */
  function HandleGet(db: Db, user: Option<UserId>): (r: Response<Summary>)
    ensures user.None? <==> r == Err(UNAUTHORIZED)
    ensures user.Some? ==> r.Ok? && r.status == OK
    ensures r.Ok? ==> r.value.availablePoints == r.value.totalEarned - r.value.totalSpent
    ensures r.Ok? ==> r.value.availablePoints == Available(db, user.value)
    ensures r.Ok? ==> r.value.totalEarned == TotalEarned(db, user.value) && r.value.totalSpent == TotalSpent(db, user.value)
  {
    if user.None? then Err(UNAUTHORIZED)
    else
      var u := user.value;
      Ok(OK, Summary(TotalEarned(db, u), TotalSpent(db, u), TotalEarned(db, u) - TotalSpent(db, u)))
  }

  /** The `eco_points` row a granted request appends: `activityType` falls back to
      `"general"` when falsy. */
  function GrantRow(u: UserId, points: real, fields: map<string, Value>): (r: PointsRow)
    requires "activity" in fields
    ensures r.userId == u && r.points == points && r.activity == Described(fields["activity"])
    ensures Truthy(Get(fields, "activityType")) ==> r.activityType == fields["activityType"]
    ensures !Truthy(Get(fields, "activityType")) ==> r.activityType == Text("general")
    ensures Truthy(Some(r.activityType))
  {
    var kind := Get(fields, "activityType");
    PointsRow(u, points, Described(Get(fields, "activity").value), if Truthy(kind) then kind.value else Text("general"))
  }

  /** The POST handler. `writeOk` is the outcome of the insert. A truthy `points`
      that is not a JSON number is taken to be refused by the store. */
  function HandlePost(db: Db, user: Option<UserId>, body: Body, writeOk: bool): (h: Handled<()>)
    ensures user.None? ==> h == Handled(Err(UNAUTHORIZED), db)
    ensures user.Some? && body.Unparsable? ==> h == Handled(Err(SERVER_ERROR), db)
    ensures user.Some? && body.Object? && !(Truthy(Get(body.fields, "points")) && Truthy(Get(body.fields, "activity")))
            ==> h == Handled(Err(BAD_REQUEST), db)
    ensures h.response.Err? ==> h.db == db
    ensures h.response.Ok? <==>
              && user.Some? && body.Object? && writeOk
              && Truthy(Get(body.fields, "activity"))
              && (exists n :: n != 0.0 && Get(body.fields, "points") == Some(Number(n)))
    ensures h.response.Ok? ==>
              && h.response.status == OK
              && Get(body.fields, "points").value.Number?
              && h.db == db.(ecoPoints := db.ecoPoints + [GrantRow(user.value, Get(body.fields, "points").value.n, body.fields)])
  {
    if user.None? then Handled(Err(UNAUTHORIZED), db)
    else if body.Unparsable? then Handled(Err(SERVER_ERROR), db)
    else
      var points := Get(body.fields, "points");
      if !Truthy(points) || !Truthy(Get(body.fields, "activity")) then Handled(Err(BAD_REQUEST), db)
      else if !points.value.Number? || !writeOk then Handled(Err(SERVER_ERROR), db)
      else
        var row := GrantRow(user.value, points.value.n, body.fields);
        Handled(Ok(OK, ()), db.(ecoPoints := db.ecoPoints + [row]))
  }

  /** A granted request raises the caller's balance by exactly `points`, and no
      one else's. */
  lemma PostCredits(db: Db, user: Option<UserId>, body: Body, writeOk: bool, v: UserId)
    ensures var h := HandlePost(db, user, body, writeOk);
            Available(h.db, v) == Available(db, v)
              + (if h.response.Ok? && v == user.value then Get(body.fields, "points").value.n else 0.0)
  {
    var h := HandlePost(db, user, body, writeOk);
    if h.response.Ok? {
      CreditRow(db, GrantRow(user.value, Get(body.fields, "points").value.n, body.fields), v);
    }
  }

  /** The guard lets a negative grant through: it only rejects falsy values, so
      `points: -5` drives a fresh user's balance to -5. */
  lemma NegativeGrantAccepted()
    ensures var body := Object(map["points" := Number(-5.0), "activity" := Text("x")]);
            var h := HandlePost(Db([], [], [], [], []), Some("u"), body, true);
            h.response.Ok? && Available(h.db, "u") == -5.0
  {
    var body := Object(map["points" := Number(-5.0), "activity" := Text("x")]);
    var db := Db([], [], [], [], []);
    assert Get(body.fields, "points") == Some(Number(-5.0));
    PostCredits(db, Some("u"), body, true, "u");
  }
}
