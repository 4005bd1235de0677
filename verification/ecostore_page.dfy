/** The eco-store page (`app/ecostore/page.tsx`): category list, category
    filter and the redeem button. */
module EcoStorePage {
  import opened Json
  import opened Store
  import opened Http
  import Seqs
  import EcoStoreRoute
  import EcoPointsRoute

  type Product = EcoStoreRoute.Product

  /** `products.map((p) => p.category)`. */
  function CategoryColumn(products: seq<Product>): (r: seq<string>)
    ensures |r| == |products| && forall i :: 0 <= i < |products| ==> r[i] == products[i].category
  {
    seq(|products|, i requires 0 <= i < |products| => products[i].category)
  }

  /** `categories`: each product category once, in order of first appearance. */
  function Categories(products: seq<Product>): (r: seq<string>)
    ensures Seqs.NoDuplicates(r)
    ensures forall c :: c in r <==> exists i :: 0 <= i < |products| && products[i].category == c
    ensures forall c :: c in r ==> c in CategoryColumn(products)
    ensures forall i, j :: 0 <= i < j < |r| ==>
              Seqs.FirstIndex(CategoryColumn(products), r[i]) < Seqs.FirstIndex(CategoryColumn(products), r[j])
  {
    var column := CategoryColumn(products);
    assert forall c :: c in column <==> exists i :: 0 <= i < |products| && products[i].category == c by {
      forall c | c in column ensures exists i :: 0 <= i < |products| && products[i].category == c {
        var i :| 0 <= i < |column| && column[i] == c;
      }
    }
    Seqs.Distinct(column)
  }

  function InCategory(c: string): Product -> bool {
    (p: Product) => p.category == c
  }

  /** `filteredProducts`; an empty selected category is falsy and filters nothing. */
  function FilteredProducts(products: seq<Product>, selected: Option<string>): (r: seq<Product>)
    ensures selected.None? || selected.value == "" ==> r == products
    ensures selected.Some? && selected.value != "" ==>
              forall p :: p in r <==> p in products && p.category == selected.value
    ensures selected.Some? && selected.value != "" ==>
              forall p :: multiset(r)[p] == if p.category == selected.value then multiset(products)[p] else 0
  {
    if selected.Some? && selected.value != "" then Seqs.Filter(products, InCategory(selected.value))
    else products
  }

  lemma FilteredProductsIsSubsequence(products: seq<Product>, selected: Option<string>)
    ensures Seqs.SubsequenceOf(FilteredProducts(products, selected), products)
  {
    if selected.Some? && selected.value != "" {
      Seqs.FilterIsSubsequence(products, InCategory(selected.value));
    } else {
      Seqs.FilterKeepAll(products, (p: Product) => true);
      Seqs.FilterIsSubsequence(products, (p: Product) => true);
    }
  }

  /** The page's `ecoPoints`: `null` until the fetch lands (and for good if it
      throws), then whatever JSON `/api/ecopoints` answered. An error body such as
      `{error: "Unauthorized"}` has no `availablePoints`. */
  datatype PointsState = NotLoaded | NoBalance | Balance(available: real)

  /** `setEcoPoints(pointsData)` after `GET /api/ecopoints`, whatever its status. */
  function Loaded(response: Response<EcoPointsRoute.Summary>): (r: PointsState)
    ensures r.Balance? <==> response.Ok?
    ensures response.Ok? ==> r.available == response.value.availablePoints
    ensures r != NotLoaded
  {
    match response
    case Ok(_, summary) => Balance(summary.availablePoints)
    case Err(_) => NoBalance
  }

  /** The header's `ecoPoints?.availablePoints || 0`. */
  function HeaderPoints(points: PointsState): real {
    if points.Balance? then points.available else 0.0
  }

  /** `!ecoPoints || ecoPoints.availablePoints < product.points_cost`; with no
      `availablePoints` the comparison is `undefined < cost`, which is false. */
  predicate Short(points: PointsState, p: Product) {
    points.NotLoaded? || (points.Balance? && points.available < p.pointsCost)
  }

  /** The button's `disabled`. */
  predicate RedeemDisabled(points: PointsState, p: Product) {
    Short(points, p) || p.stock == 0
  }

  /** The button's text: a short balance wins over an empty stock. */
  function RedeemLabel(points: PointsState, p: Product): string {
    if Short(points, p) then "Not Enough Points"
    else if p.stock == 0 then "Out of Stock"
    else "Redeem"
  }

  /** The button reads "Redeem" exactly when it can be pressed, and "Not Enough
      Points" whenever the balance falls short, whatever the stock. */
  lemma LabelMatchesButton(points: PointsState, p: Product)
    ensures RedeemLabel(points, p) == "Redeem" <==> !RedeemDisabled(points, p)
    ensures (points.NotLoaded? || (points.Balance? && points.available < p.pointsCost))
            ==> RedeemLabel(points, p) == "Not Enough Points"
    ensures RedeemDisabled(points, p) && !points.NotLoaded? && !(points.Balance? && points.available < p.pointsCost)
            ==> RedeemLabel(points, p) == "Out of Stock"
  {
  }

  /** A product the store lists never shows "Out of Stock". */
  lemma ListedProductsAreInStock(catalog: seq<Product>, points: PointsState, p: Product)
    requires p in EcoStoreRoute.HandleGet(catalog)
    ensures RedeemLabel(points, p) != "Out of Stock"
  {
  }

  /** Pressing an enabled button, with the balance the page fetched still current,
      is a purchase the store accepts (when its insert goes through). */
  lemma EnabledRedeemIsAccepted(db: Db, u: UserId, p: Product)
    requires !RedeemDisabled(Loaded(EcoPointsRoute.HandleGet(db, Some(u))), p)
    ensures EcoStoreRoute.HandlePost(db, Some(u), Some(EcoStoreRoute.PurchaseRequest(p.id, p.pointsCost)), true).response.Ok?
  {
  }

  /** Signed out, the page shows 0 points yet offers "Redeem" on every product in
      stock, whatever it costs; pressing it is refused with 401. */
  lemma SignedOutRedeemOffered(db: Db, p: Product)
    requires p.stock != 0
    ensures var points := Loaded(EcoPointsRoute.HandleGet(db, None));
            && HeaderPoints(points) == 0.0
            && RedeemLabel(points, p) == "Redeem"
            && EcoStoreRoute.HandlePost(db, None, Some(EcoStoreRoute.PurchaseRequest(p.id, p.pointsCost)), true).response
               == Err(UNAUTHORIZED)
  {
  }
}
