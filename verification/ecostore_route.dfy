/** `GET` and `POST /api/ecostore` (`app/api/ecostore/route.ts`): the product
    listing, and spending points on a product. */
module EcoStoreRoute {
  import opened Json
  import opened Http
  import opened Store
  import Seqs

  /** A row of the `eco_store` table. */
  datatype Product = Product(id: string, name: string, description: string, pointsCost: real, category: string, stock: int)

  function Cost(p: Product): real {
    p.pointsCost
  }

  predicate InStock(p: Product) {
    p.stock > 0
  }

  /** The GET handler: products with stock left, cheapest first. */
  function HandleGet(catalog: seq<Product>): (r: seq<Product>)
    ensures forall p :: p in r <==> p in catalog && p.stock > 0
    ensures multiset(r) == multiset(Seqs.Filter(catalog, InStock))
    ensures Seqs.SortedBy(r, Cost)
  {
    var inStock := Seqs.Filter(catalog, InStock);
    var r := Seqs.SortBy(inStock, Cost);
    assert forall p :: p in r <==> p in multiset(r);
    assert forall p :: p in inStock <==> p in multiset(inStock);
    r
  }

  /** The parsed POST body. */
  datatype PurchaseRequest = PurchaseRequest(productId: string, pointsToSpend: real)

  /** The POST handler; `request` is `None` when the body is not JSON, and
      `writeOk` is the outcome of the insert. */
  function HandlePost(db: Db, user: Option<UserId>, request: Option<PurchaseRequest>, writeOk: bool): (h: Handled<()>)
    ensures user.None? ==> h == Handled(Err(UNAUTHORIZED), db)
    ensures user.Some? && request.Some? && Available(db, user.value) < request.value.pointsToSpend
            ==> h == Handled(Err(BAD_REQUEST), db)
    ensures h.response.Err? ==> h.db == db
    ensures h.response.Ok? <==>
              user.Some? && request.Some? && writeOk && Available(db, user.value) >= request.value.pointsToSpend
    ensures h.response.Ok? ==>
              && h.response.status == OK
              && h.db == db.(purchases := db.purchases + [PurchaseRow(user.value, request.value.productId, request.value.pointsToSpend)])
  {
    if user.None? then Handled(Err(UNAUTHORIZED), db)
    else if request.None? then Handled(Err(SERVER_ERROR), db)
    else
      var u := user.value;
      var req := request.value;
      if Available(db, u) < req.pointsToSpend then Handled(Err(BAD_REQUEST), db)
      else if !writeOk then Handled(Err(SERVER_ERROR), db)
      else Handled(Ok(OK, ()), db.(purchases := db.purchases + [PurchaseRow(u, req.productId, req.pointsToSpend)]))
  }

  /** A purchase debits exactly its price from the buyer, touches no one else's
      balance, and never leaves the buyer below zero. */
  lemma PostDebits(db: Db, user: Option<UserId>, request: Option<PurchaseRequest>, writeOk: bool, v: UserId)
    ensures var h := HandlePost(db, user, request, writeOk);
            && Available(h.db, v) == Available(db, v)
                 - (if h.response.Ok? && v == user.value then request.value.pointsToSpend else 0.0)
            && (h.response.Ok? ==> Available(h.db, user.value) >= 0.0)
  {
    var h := HandlePost(db, user, request, writeOk);
    if h.response.Ok? {
      var row := PurchaseRow(user.value, request.value.productId, request.value.pointsToSpend);
      DebitRow(db, row, v);
      DebitRow(db, row, user.value);
    }
  }

  /** The store admits a purchase exactly when the balance `GET /api/ecopoints`
      reports covers the price: both compute earned minus spent. */
  lemma SameBalanceAsPointsEndpoint(db: Db, u: UserId, request: PurchaseRequest)
    ensures HandlePost(db, Some(u), Some(request), true).response.Ok?
        <==> Available(db, u) >= request.pointsToSpend
  {
  }

  /** Nothing stops a negative price: it is admitted and raises the balance. */
  lemma NegativePriceRaisesBalance(db: Db, u: UserId)
    requires Available(db, u) >= 0.0
    ensures var h := HandlePost(db, Some(u), Some(PurchaseRequest("p", -10.0)), true);
            h.response.Ok? && Available(h.db, u) == Available(db, u) + 10.0
  {
    DebitRow(db, PurchaseRow(u, "p", -10.0), u);
  }
}
