/** `GET` and `POST /api/locations` (`app/api/locations/route.ts`): listing
    community locations by type and distance, and adding one. */
module LocationsRoute {
  import opened Json
  import opened Http
  import opened Store
  import Seqs

  /** The values `type` may take. */
  predicate KnownKind(kind: string) {
    kind == "digester" || kind == "compost" || kind == "pickup"
  }

  /** `LocationSchema.parse(body)`; note that this route asks for no login. */
  function ParseLocation(fields: map<string, Value>): (r: Option<LocationRow>)
    ensures r.Some? <==>
              && (exists name :: Get(fields, "name") == Some(Text(name)) && name != "")
              && (exists kind :: Get(fields, "type") == Some(Text(kind)) && KnownKind(kind))
              && (exists address :: Get(fields, "address") == Some(Text(address)) && address != "")
              && (Get(fields, "contact").None? || Get(fields, "contact").value.Text?)
              && Get(fields, "latitude").Some? && Get(fields, "latitude").value.Number?
              && Get(fields, "longitude").Some? && Get(fields, "longitude").value.Number?
    ensures r.Some? ==>
              && Get(fields, "name") == Some(Text(r.value.name))
              && Get(fields, "type") == Some(Text(r.value.kind))
              && Get(fields, "address") == Some(Text(r.value.address))
              && (if r.value.contact.Some? then Get(fields, "contact") == Some(Text(r.value.contact.value))
                  else Get(fields, "contact").None?)
              && Get(fields, "latitude") == Some(Number(r.value.latitude))
              && Get(fields, "longitude") == Some(Number(r.value.longitude))
  {
    var contact := Get(fields, "contact");
    match (ZodString(Get(fields, "name")), ZodString(Get(fields, "type")), ZodString(Get(fields, "address")),
           ZodNumber(Get(fields, "latitude")), ZodNumber(Get(fields, "longitude")))
    case (Some(name), Some(kind), Some(address), Some(lat), Some(lng)) =>
      if name != "" && KnownKind(kind) && address != "" && (contact.None? || contact.value.Text?)
      then Some(LocationRow(name, kind, address, ZodString(contact), lat, lng))
      else None
    case _ => None
  }

  /** The POST handler; `writeOk` is the outcome of the insert. The insert has no
      `.select()`, so the 201 body's `location` is undefined: the reply carries nothing. */
  function HandlePost(db: Db, body: Body, writeOk: bool): (h: Handled<()>)
    ensures body.Unparsable? ==> h == Handled(Err(SERVER_ERROR), db)
    ensures body.Object? && ParseLocation(body.fields).None? ==> h == Handled(Err(BAD_REQUEST), db)
    ensures body.Object? && ParseLocation(body.fields).Some? && !writeOk ==> h == Handled(Err(SERVER_ERROR), db)
    ensures h.response.Err? ==> h.db == db
    ensures h.response.Ok? <==> body.Object? && ParseLocation(body.fields).Some? && writeOk
    ensures h.response.Ok? ==>
              && h.response.status == CREATED
              && h.db == db.(locations := db.locations + [ParseLocation(body.fields).value])
  {
    if body.Unparsable? then Handled(Err(SERVER_ERROR), db)
    else
      match ParseLocation(body.fields)
      case None => Handled(Err(BAD_REQUEST), db)
      case Some(row) =>
        if !writeOk then Handled(Err(SERVER_ERROR), db)
        else Handled(Ok(CREATED, ()), db.(locations := db.locations + [row]))
  }

  /** A numeric query parameter: `Absent` when missing or empty (both falsy), else
      the number it parses to. */
  datatype NumParam = Absent | Given(value: real)

  /** `searchParams.get("radius") || "10"`, in km. */
  function RadiusKm(radius: NumParam): real {
    if radius.Given? then radius.value else 10.0
  }

  /** The row filter of `.eq("type", type)`, applied only for a non-empty `type`. */
  function KindFilter(kind: Option<string>): LocationRow -> bool {
    (row: LocationRow) => kind.None? || kind.value == "" || row.kind == kind.value
  }

  /** The rows the query fetches. */
  function Fetched(rows: seq<LocationRow>, kind: Option<string>): (r: seq<LocationRow>)
    ensures forall x :: x in r <==> x in rows && (kind.None? || kind.value == "" || x.kind == kind.value)
    ensures (kind.None? || kind.value == "") ==> r == rows
    ensures forall x :: multiset(r)[x] == if kind.None? || kind.value == "" || x.kind == kind.value then multiset(rows)[x] else 0
  {
    if kind.None? || kind.value == "" then
      Seqs.FilterKeepAll(rows, KindFilter(kind));
      Seqs.Filter(rows, KindFilter(kind))
    else Seqs.Filter(rows, KindFilter(kind))
  }

  /** The keep-test of the distance filter; `distance` stands for the haversine
      computation from the caller's point to a row. */
  function WithinRadius(lat: real, lng: real, radiusKm: real, distance: (real, real, LocationRow) -> real): LocationRow -> bool {
    (row: LocationRow) => distance(lat, lng, row) <= radiusKm
  }

  /** The GET handler. */
  function HandleGet(rows: seq<LocationRow>, kind: Option<string>, latitude: NumParam, longitude: NumParam,
                     radius: NumParam, distance: (real, real, LocationRow) -> real): (r: seq<LocationRow>)
    ensures kind.Some? && kind.value != "" ==> forall x :: x in r ==> x.kind == kind.value
    ensures latitude.Given? && longitude.Given? ==>
              forall x :: x in r <==> x in Fetched(rows, kind) && distance(latitude.value, longitude.value, x) <= RadiusKm(radius)
    ensures latitude.Given? && longitude.Given? ==>
              forall x :: multiset(r)[x] ==
                if distance(latitude.value, longitude.value, x) <= RadiusKm(radius) then multiset(Fetched(rows, kind))[x] else 0
    ensures !(latitude.Given? && longitude.Given?) ==> r == Fetched(rows, kind)
  {
    var fetched := Fetched(rows, kind);
    if latitude.Given? && longitude.Given? then
      Seqs.Filter(fetched, WithinRadius(latitude.value, longitude.value, RadiusKm(radius), distance))
    else fetched
  }

  /** What the handler returns keeps the order of the table. */
  lemma GetIsSubsequence(rows: seq<LocationRow>, kind: Option<string>, latitude: NumParam, longitude: NumParam,
                         radius: NumParam, distance: (real, real, LocationRow) -> real)
    ensures Seqs.SubsequenceOf(HandleGet(rows, kind, latitude, longitude, radius, distance), rows)
  {
    var fetched := Fetched(rows, kind);
    Seqs.FilterIsSubsequence(rows, KindFilter(kind));
    if latitude.Given? && longitude.Given? {
      var near := WithinRadius(latitude.value, longitude.value, RadiusKm(radius), distance);
      var both := (row: LocationRow) => KindFilter(kind)(row) && near(row);
      Seqs.FilterNarrow(rows, KindFilter(kind), both);
      Seqs.FilterCongruent(fetched, both, near);
      Seqs.FilterIsSubsequence(rows, both);
    }
  }

  /** A missing radius means 10 km. */
  lemma DefaultRadius(rows: seq<LocationRow>, kind: Option<string>, latitude: NumParam, longitude: NumParam,
                      distance: (real, real, LocationRow) -> real)
    ensures HandleGet(rows, kind, latitude, longitude, Absent, distance)
         == HandleGet(rows, kind, latitude, longitude, Given(10.0), distance)
  {
  }
}
