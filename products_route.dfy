/**
 * The product API (app/api/products/route.js): the paginated listing and the
 * create, update and delete handlers. The database is a list of rows plus a
 * flag saying whether it can be reached; every failure of a query becomes a
 * 500 response.
 */
module ProductsRoute {
  import opened Wrappers
  import opened JsNumbers
  import Listing
  import opened CartContext

  /** The JSON body of a response. */
  datatype Body =
    | Page(products: seq<Product>, totalProducts: int, totalPages: Option<int>, currentPage: int)
    | Record(product: Product)
    | Error(error: string)
    | Message(message: string)

  datatype Response = Response(status: int, body: Body)

  /** The product table and whether the database answers at all. */
  datatype Db = Db(rows: seq<Product>, up: bool)

  function ProductId(p: Product): int {
    p.id
  }

  /** `url.searchParams.get(name) || fallback`: a missing or empty parameter takes the fallback. */
  function ParamOr(query: map<string, string>, name: string, fallback: string): (r: string)
    ensures name in query && query[name] != "" ==> r == query[name]
    ensures !(name in query && query[name] != "") ==> r == fallback
  {
    if name in query && query[name] != "" then query[name] else fallback
  }

  /** `parseInt(url.searchParams.get('page') || '1')` */
  function PageParam(query: map<string, string>): (r: Option<int>)
    ensures "page" in query && query["page"] != "" ==> r == ParseInt(query["page"])
  {
    ParseInt(ParamOr(query, "page", "1"))
  }

  /** `parseInt(url.searchParams.get('limit') || '10')` */
  function LimitParam(query: map<string, string>): (r: Option<int>)
    ensures "limit" in query && query["limit"] != "" ==> r == ParseInt(query["limit"])
  {
    ParseInt(ParamOr(query, "limit", "10"))
  }

  /** Without query parameters the listing asks for page 1 with 10 products per page. */
  lemma Defaults(query: map<string, string>)
    requires "page" !in query && "limit" !in query
    ensures PageParam(query) == Some(1) && LimitParam(query) == Some(10)
  {
    ParseIntOfIntToString(1);
    ParseIntOfIntToString(10);
    assert IntToString(10) == "10";
  }

  /** `Math.ceil(total / limit)` for a positive `limit`, in integers. */
  function CeilDiv(total: nat, limit: int): (r: nat)
    requires limit > 0
    ensures r * limit >= total
  {
    (total + limit - 1) / limit
  }

  /** The page count covers the products exactly: the last page is non-empty, and there is no page for an empty table. */
  lemma CeilDivBounds(total: nat, limit: int)
    requires limit > 0
    ensures total == 0 ==> CeilDiv(total, limit) == 0
    ensures total > 0 ==> (CeilDiv(total, limit) - 1) * limit < total <= CeilDiv(total, limit) * limit
  {
    var r := CeilDiv(total, limit);
    var m := (total + limit - 1) % limit;
    assert total + limit - 1 == r * limit + m;
    assert (r - 1) * limit == r * limit - limit;
    if total == 0 {
      assert r * limit <= limit - 1;
    }
  }

  /**
   * The `totalPages` field, `Math.ceil(totalProducts / limit)`: for a zero
   * limit the quotient is not finite and serialises as `null`; for a
   * negative limit the quotient is negative and its ceiling is minus the
   * floor of `total / -limit`.
   */
  function TotalPages(total: nat, limit: int): (r: Option<int>)
    ensures r.None? <==> limit == 0
    ensures limit > 0 ==>
      r.value >= 0 && r.value * limit >= total && (total > 0 ==> (r.value - 1) * limit < total)
    ensures limit < 0 ==>
      r.value <= 0 && r.value * limit <= total < (r.value - 1) * limit
  {
    if limit == 0 then None
    else if limit > 0 then
      var n := CeilDiv(total, limit);
      CeilDivBounds(total, limit);
      Some(n)
    else
      var n := -(total / -limit);
      FloorDivBounds(total, -limit);
      assert n * limit <= total < (n - 1) * limit;
      Some(n)
  }

  /** The floor quotient of a count by a positive width: `q * m <= total < (q + 1) * m`. */
  lemma FloorDivBounds(total: nat, m: int)
    requires m > 0
    ensures (total / m) * m <= total < (total / m + 1) * m
    ensures -(total / m) * -m <= total < (-(total / m) - 1) * -m
  {
    var q := total / m;
    assert total == q * m + total % m;
    assert (q + 1) * m == q * m + m;
    assert -q * -m == q * m;
    assert (-q - 1) * -m == (q + 1) * m;
  }

  /**
   * How many rows a page of `width` rows starting `skip` rows in returns
   * from a table of `total` rows: the whole width, what is left, or none.
   */
  function Remaining(total: nat, skip: nat, width: nat): (n: nat)
    ensures n <= width && n <= total
    ensures skip + n <= total || n == 0
    ensures skip + width <= total ==> n == width
    ensures skip <= total < skip + width ==> n == total - skip
    ensures total < skip ==> n == 0
  {
    if skip + width <= total then width else if skip <= total then total - skip else 0
  }

  /**
   * `prisma.product.findMany({ skip, take })`. A negative skip is rejected.
   * A non-negative take reads forward from index `skip`; a negative take
   * reads backwards from the end of the table: it skips `skip` rows from
   * the end and returns up to `-take` rows before them, in table order.
   */
  function FindMany(rows: seq<Product>, skip: int, take: int): (r: Option<seq<Product>>)
    ensures r.Some? <==> skip >= 0
    ensures r.Some? && take >= 0 ==>
      && |r.value| <= take
      && (forall i :: 0 <= i < |r.value| ==> skip + i < |rows| && r.value[i] == rows[skip + i])
      && |r.value| == Remaining(|rows|, skip, take)
    ensures r.Some? && take < 0 ==>
      && |r.value| <= -take
      && (forall i :: 0 <= i < |r.value| ==>
            0 <= |rows| - skip - |r.value| + i < |rows| && r.value[i] == rows[|rows| - skip - |r.value| + i])
      && |r.value| == Remaining(|rows|, skip, -take)
  {
    if skip < 0 then None
    else if take >= 0 then
      var from := if skip <= |rows| then skip else |rows|;
      var to := if skip + take <= |rows| then skip + take else |rows|;
      Some(rows[from..to])
    else
      var to := if skip <= |rows| then |rows| - skip else 0;
      var from := if skip - take <= |rows| then |rows| - skip + take else 0;
      Some(rows[from..to])
  }

  /** `GET /api/products?page=&limit=` */
  function Get(query: map<string, string>, db: Db): (r: Response)
    ensures r.status == 200 || r == Response(500, Error("Failed to fetch products"))
    ensures r.status == 200 ==> r.body.Page? && r.body.totalProducts == |db.rows| && PageParam(query) == Some(r.body.currentPage)
  {
    var page := PageParam(query);
    var limit := LimitParam(query);
    if page.None? || limit.None? then Response(500, Error("Failed to fetch products"))
    else ListPage(page.value, limit.value, db)
  }

  /** The body of GET once `page` and `limit` are numbers: query the page and the count. */
  function ListPage(page: int, limit: int, db: Db): (r: Response)
    ensures r.status == 200 ==>
      && r.body.Page?
      && r.body.currentPage == page
      && r.body.totalProducts == |db.rows|
      && r.body.totalPages == TotalPages(|db.rows|, limit)
      && (forall p :: p in r.body.products ==> p in db.rows)
  {
    var skip := (page - 1) * limit;
    if !db.up then Response(500, Error("Failed to fetch products"))
    else
      match FindMany(db.rows, skip, limit)
      case None => Response(500, Error("Failed to fetch products"))
      case Some(products) =>
        Response(200, Page(products, |db.rows|, TotalPages(|db.rows|, limit), page))
  }

  /**
   * The listing succeeds exactly when the database answers and the skip
   * `(page - 1) * limit` is not negative; otherwise it is the 500 error.
   */
  lemma ListPageStatus(page: int, limit: int, db: Db)
    ensures var r := ListPage(page, limit, db);
      r.status == 200 || r == Response(500, Error("Failed to fetch products"))
    ensures ListPage(page, limit, db).status == 200 <==> db.up && (page - 1) * limit >= 0
  {
  }

  /**
   * A successful listing echoes the requested page, returns `limit`
   * products from index `(page - 1) * limit` on, or every remaining one
   * when fewer are left (none past the end), counts the
   * whole table, and for a positive limit reports the ceiling of total over
   * limit as the page count.
   */
  lemma ListPageContents(page: int, limit: int, db: Db)
    requires db.up && page >= 1 && limit >= 0
    ensures var r := ListPage(page, limit, db);
      && r.status == 200
      && r.body.Page?
      && r.body.currentPage == page
      && r.body.totalProducts == |db.rows|
      && |r.body.products| == Remaining(|db.rows|, (page - 1) * limit, limit)
      && (forall i :: 0 <= i < |r.body.products| ==> r.body.products[i] == db.rows[(page - 1) * limit + i])
      && (limit > 0 ==> r.body.totalPages == Some(CeilDiv(|db.rows|, limit)))
  {
    var skip := (page - 1) * limit;
    MulNonNegative(page - 1, limit);
    assert FindMany(db.rows, skip, limit).Some?;
  }

  /**
   * A negative limit on the first page reads the table from its end: the
   * last `-limit` products, or all of them when there are fewer, in table
   * order, and a page count
   * that is minus the floor of total over `-limit`.
   */
  lemma ListPageBackwards(limit: int, db: Db)
    requires db.up && limit < 0
    ensures var r := ListPage(1, limit, db);
      && r.status == 200
      && r.body.Page?
      && r.body.currentPage == 1
      && r.body.totalProducts == |db.rows|
      && |r.body.products| == Remaining(|db.rows|, 0, -limit)
      && (forall i :: 0 <= i < |r.body.products| ==>
            r.body.products[i] == db.rows[|db.rows| - |r.body.products| + i])
      && r.body.totalPages == Some(-(|db.rows| / -limit))
  {
    assert (1 - 1) * limit == 0;
    assert FindMany(db.rows, 0, limit).Some?;
  }

  lemma MulNonNegative(a: int, b: int)
    requires a >= 0 && b >= 0
    ensures a * b >= 0
  {
  }

  /** With an unreachable database, or a page or limit that is not a number, the listing fails with 500. */
  lemma GetFailure(query: map<string, string>, db: Db)
    requires !db.up || PageParam(query).None? || LimitParam(query).None?
    ensures Get(query, db) == Response(500, Error("Failed to fetch products"))
  {
  }

  /** `POST /api/products`: `created` is what the database returned, `None` if it threw. */
  function Post(created: Option<Product>): (r: Response)
    ensures created.Some? ==> r == Response(201, Record(created.value))
    ensures created.None? ==> r == Response(500, Error("Failed to create product"))
  {
    match created
    case Some(p) => Response(201, Record(p))
    case None => Response(500, Error("Failed to create product"))
  }

  /** `PUT /api/products`: `updated` is what the database returned, `None` if it threw. */
  function Put(updated: Option<Product>): (r: Response)
    ensures updated.Some? ==> r == Response(200, Record(updated.value))
    ensures updated.None? ==> r == Response(500, Error("Failed to update product"))
  {
    match updated
    case Some(p) => Response(200, Record(p))
    case None => Response(500, Error("Failed to update product"))
  }

  /**
   * `DELETE /api/products?id=`: a missing id is a 400; an id that is not a
   * number, not in the table, or an unreachable database is a 500 (the
   * database rejects the delete); otherwise the row goes.
   */
  function Delete(query: map<string, string>, db: Db): (r: (Response, Db))
    ensures r.0.status == 200 || r.0.status == 400 || r.0.status == 500
    ensures r.1.up == db.up && |r.1.rows| <= |db.rows|
  {
    if !("id" in query && query["id"] != "") then
      (Response(400, Error("Product ID is required")), db)
    else
      var id := ParseInt(query["id"]);
      if !db.up || id.None? || (forall i :: 0 <= i < |db.rows| ==> db.rows[i].id != id.value) then
        (Response(500, Error("Failed to delete product")), db)
      else
        (Response(200, Message("Product deleted successfully")),
         db.(rows := Listing.Without(db.rows, ProductId, id.value)))
  }

  /** A numeric id of a row in a reachable table. */
  predicate Deletable(query: map<string, string>, db: Db) {
    && db.up
    && "id" in query && query["id"] != ""
    && ParseInt(query["id"]).Some?
    && (exists i :: 0 <= i < |db.rows| && db.rows[i].id == ParseInt(query["id"]).value)
  }

  /**
   * Delete answers 400 'Product ID is required' exactly when the id is
   * missing, 200 'Product deleted successfully' exactly when the id is a
   * number present in a reachable table, and 500 'Failed to delete product'
   * otherwise. The table changes only on 200, which removes exactly that
   * id's rows.
   */
  lemma DeleteOutcome(query: map<string, string>, db: Db)
    ensures var (r, db') := Delete(query, db);
      && (r.status == 400 <==> !("id" in query && query["id"] != ""))
      && (r.status == 400 ==> r.body == Error("Product ID is required"))
      && (r.status == 200 <==> Deletable(query, db))
      && (r.status == 200 ==> r.body == Message("Product deleted successfully"))
      && (r.status != 200 && r.status != 400 ==> r == Response(500, Error("Failed to delete product")))
      && (r.status != 200 ==> db' == db)
      && (r.status == 200 ==>
            var id := ParseInt(query["id"]).value;
            && (forall i :: 0 <= i < |db'.rows| ==> db'.rows[i].id != id)
            && (forall p :: p in db.rows && p.id != id <==> p in db'.rows)
            && |db'.rows| < |db.rows|)
  {
    var (r, db') := Delete(query, db);
    if r.status == 200 {
      var id := ParseInt(query["id"]).value;
      var k :| 0 <= k < |db.rows| && db.rows[k].id == id;
      WithoutShrinks(db.rows, id, k);
    }
  }

  lemma {:induction false} WithoutShrinks(rows: seq<Product>, id: int, k: nat)
    requires k < |rows| && rows[k].id == id
    ensures |Listing.Without(rows, ProductId, id)| < |rows|
  {
    if k > 0 {
      WithoutShrinks(rows[1..], id, k - 1);
    }
  }
}
