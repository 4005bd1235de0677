/** The eco-points ledger as a state machine: the three handlers that write
    `eco_points` or `user_eco_purchases`, run one request after another. */
module Ledger {
  import opened Json
  import opened Store
  import CalculationsRoute
  import EcoPointsRoute
  import EcoStoreRoute

  datatype Request =
    | Track(user: Option<UserId>, body: Body, calculationWriteOk: bool, pointsWriteOk: bool)
    | Grant(user: Option<UserId>, body: Body, writeOk: bool)
    | Purchase(user: Option<UserId>, request: Option<EcoStoreRoute.PurchaseRequest>, writeOk: bool)

  function Step(db: Db, req: Request): Db {
    match req
    case Track(user, body, c, p) => CalculationsRoute.Post(db, user, body, c, p).db
    case Grant(user, body, ok) => EcoPointsRoute.HandlePost(db, user, body, ok).db
    case Purchase(user, request, ok) => EcoStoreRoute.HandlePost(db, user, request, ok).db
  }

  function Run(db: Db, reqs: seq<Request>): Db
    decreases |reqs|
  {
    if |reqs| == 0 then db else Run(Step(db, reqs[0]), reqs[1..])
  }

  /** No user's available points are negative. */
  ghost predicate Solvent(db: Db) {
    forall u :: Available(db, u) >= 0.0
  }

  /** A grant whose `points` is not a negative number (the route itself lets those through). */
  predicate NonNegativeGrant(req: Request) {
    req.Grant? && req.body.Object? ==>
      match Get(req.body.fields, "points")
      case Some(Number(n)) => n >= 0.0
      case _ => true
  }

  /** One request keeps every balance non-negative: awards are never negative,
      grants are non-negative by assumption, and a purchase is refused unless
      the balance covers it. */
  lemma StepKeepsSolvent(db: Db, req: Request)
    requires Solvent(db) && NonNegativeGrant(req)
    ensures Solvent(Step(db, req))
  {
    forall v
      ensures Available(Step(db, req), v) >= 0.0
    {
      match req
      case Track(user, body, c, p) =>
        CalculationsRoute.PostCredits(db, user, body, c, p, v);
        var h := CalculationsRoute.Post(db, user, body, c, p);
        if h.response.Ok? {
          CalculationsRoute.AwardRange(body.fields);
        }
      case Grant(user, body, ok) =>
        EcoPointsRoute.PostCredits(db, user, body, ok, v);
      case Purchase(user, request, ok) =>
        EcoStoreRoute.PostDebits(db, user, request, ok, v);
    }
  }

  /** Starting solvent, any run of these requests stays solvent. */
  lemma {:induction false} RunKeepsSolvent(db: Db, reqs: seq<Request>)
    requires Solvent(db)
    requires forall i :: 0 <= i < |reqs| ==> NonNegativeGrant(reqs[i])
    ensures Solvent(Run(db, reqs))
    decreases |reqs|
  {
    if |reqs| > 0 {
      StepKeepsSolvent(db, reqs[0]);
      RunKeepsSolvent(Step(db, reqs[0]), reqs[1..]);
    }
  }

  /** The empty ledger is solvent, so every user's balance stays non-negative
      from the start. */
  lemma {:induction false} EmptyLedgerStaysSolvent(reqs: seq<Request>, u: UserId)
    requires forall i :: 0 <= i < |reqs| ==> NonNegativeGrant(reqs[i])
    ensures Available(Run(Db([], [], [], [], []), reqs), u) >= 0.0
  {
    var db := Db([], [], [], [], []);
    forall v ensures Available(db, v) >= 0.0 {
      NoRowsNoBalance(db, v);
    }
    RunKeepsSolvent(db, reqs);
  }
}
