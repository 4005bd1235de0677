/** `POST /api/events` (`app/api/events/route.ts`): validate a food-donation
    request and store it. */
module EventsRoute {
  import opened Json
  import opened Http
  import opened Store

  datatype EventData = EventData(eventName: string, eventDate: string, foodQuantityKg: real, latitude: real, longitude: real)

  /** `EventSchema.parse(body)`. */
  function ParseEvent(fields: map<string, Value>): (r: Option<EventData>)
    ensures r.Some? <==>
              && (exists name :: Get(fields, "event_name") == Some(Text(name)) && |name| >= 1)
              && Get(fields, "event_date").Some? && Get(fields, "event_date").value.Text?
              && (exists q :: Get(fields, "food_quantity_kg") == Some(Number(q)) && q >= 0.0)
              && Get(fields, "latitude").Some? && Get(fields, "latitude").value.Number?
              && Get(fields, "longitude").Some? && Get(fields, "longitude").value.Number?
    ensures r.Some? ==>
              && Get(fields, "event_name") == Some(Text(r.value.eventName))
              && Get(fields, "event_date") == Some(Text(r.value.eventDate))
              && Get(fields, "food_quantity_kg") == Some(Number(r.value.foodQuantityKg))
              && Get(fields, "latitude") == Some(Number(r.value.latitude))
              && Get(fields, "longitude") == Some(Number(r.value.longitude))
  {
    match (ZodString(Get(fields, "event_name")), ZodString(Get(fields, "event_date")),
           ZodNumber(Get(fields, "food_quantity_kg")),
           ZodNumber(Get(fields, "latitude")), ZodNumber(Get(fields, "longitude")))
    case (Some(name), Some(date), Some(q), Some(lat), Some(lng)) =>
      if |name| >= 1 && q >= 0.0 then Some(EventData(name, date, q, lat, lng)) else None
    case _ => None
  }

  /** The inserted row: the validated fields plus the caller's id. */
  function RowFor(u: UserId, e: EventData): EventRow {
    EventRow(u, e.eventName, e.eventDate, e.foodQuantityKg, e.latitude, e.longitude)
  }

  /** The POST handler; `writeOk` is the outcome of the insert. */
  function HandlePost(db: Db, user: Option<UserId>, body: Body, writeOk: bool): (h: Handled<EventRow>)
    ensures user.None? ==> h == Handled(Err(UNAUTHORIZED), db)
    ensures user.Some? && body.Unparsable? ==> h == Handled(Err(SERVER_ERROR), db)
    ensures user.Some? && body.Object? && ParseEvent(body.fields).None? ==> h == Handled(Err(BAD_REQUEST), db)
    ensures user.Some? && body.Object? && ParseEvent(body.fields).Some? && !writeOk ==> h == Handled(Err(SERVER_ERROR), db)
    ensures h.response.Err? ==> h.db == db
    ensures h.response.Ok? <==> user.Some? && body.Object? && ParseEvent(body.fields).Some? && writeOk
    ensures h.response.Ok? ==>
              && h.response.status == CREATED
              && h.response.value == RowFor(user.value, ParseEvent(body.fields).value)
              && h.db == db.(events := db.events + [h.response.value])
  {
    if user.None? then Handled(Err(UNAUTHORIZED), db)
    else if body.Unparsable? then Handled(Err(SERVER_ERROR), db)
    else
      match ParseEvent(body.fields)
      case None => Handled(Err(BAD_REQUEST), db)
      case Some(e) =>
        if !writeOk then Handled(Err(SERVER_ERROR), db)
        else
          var row := RowFor(user.value, e);
          Handled(Ok(CREATED, row), db.(events := db.events + [row]))
  }

  /** The server takes a quantity of 0, which the donation form never sends. */
  lemma ZeroQuantityAccepted(name: string, date: string)
    requires |name| >= 1
    ensures ParseEvent(map["event_name" := Text(name), "event_date" := Text(date),
                           "food_quantity_kg" := Number(0.0), "latitude" := Number(0.0),
                           "longitude" := Number(0.0)]).Some?
  {
  }
}
