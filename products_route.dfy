/**
 * /api/products. GET lists the catalogue, optionally restricted to one category and to a number of
 * rows, newest first. POST validates a new product and inserts it.
 */
module ProductsRoute {
  import opened Optional
  import opened Seqs
  import opened Catalog
  import opened Store

  /** The JSON envelope: `{success: true, data}` or `{success: false, error}`, with its HTTP status. */
  datatype Response<T> = Success(status: int, data: T) | Failure(status: int, error: string)

  /** The select the handler builds: an equality filter on category, a row limit, an order. */
  datatype Query = Query(category: Option<string>, limit: Option<nat>, newestFirst: bool)

  predicate NewestFirst(s: seq<Product>)
  {
    forall i, j :: 0 <= i < j < |s| ==> s[i].createdAt >= s[j].createdAt
  }

  /** Places `p` into a list ordered newest first. */
  function InsertNewestFirst(p: Product, sorted: seq<Product>): (r: seq<Product>)
    requires NewestFirst(sorted)
    ensures NewestFirst(r)
    ensures multiset(r) == multiset(sorted) + multiset{p}
    ensures |r| == |sorted| + 1
    ensures r[0] == if sorted == [] || p.createdAt >= sorted[0].createdAt then p else sorted[0]
  {
    if sorted == [] || p.createdAt >= sorted[0].createdAt then [p] + sorted
    else
      var rest := InsertNewestFirst(p, sorted[1..]);
      assert sorted == [sorted[0]] + sorted[1..];
      assert rest[0].createdAt <= sorted[0].createdAt;
      [sorted[0]] + rest
  }

  /** `order('created_at', {ascending: false})`: the rows, newest first. Rows created together may come in any order. */
  function SortNewestFirst(s: seq<Product>): (r: seq<Product>)
    ensures NewestFirst(r)
    ensures multiset(r) == multiset(s)
  {
    if s == [] then []
    else
      assert s == [s[0]] + s[1..];
      InsertNewestFirst(s[0], SortNewestFirst(s[1..]))
  }

  /** `limit(n)`: the first `n` rows. */
  function Take(s: seq<Product>, n: Option<nat>): (r: seq<Product>)
    ensures n.None? ==> r == s
    ensures n.Some? ==> |r| == if n.value < |s| then n.value else |s|
    ensures r <= s
  {
    if n.Some? && n.value < |s| then s[..n.value] else s
  }

  /** What the database answers for a query over the `products` table: filter, then order, then limit. */
  function RunQuery(q: Query, table: seq<Product>): (r: seq<Product>)
    ensures q.limit.Some? ==> |r| <= q.limit.value
    ensures |r| <= |table|
  {
    var matching := if q.category.Some? then Filter(table, CategoryTest(q.category.value)) else table;
    var ordered := if q.newestFirst then SortNewestFirst(matching) else matching;
    assert |ordered| == |multiset(ordered)| == |multiset(matching)|;
    Take(ordered, q.limit)
  }

  /** The products of `table` the category parameter selects: all of them when absent, empty or 'all'. */
  function Matching(table: seq<Product>, category: Option<string>): (r: seq<Product>)
    ensures |r| <= |table| && forall i :: 0 <= i < |r| ==> r[i] in table
    ensures TruthyString(category) && category.value != "all" ==>
      forall i :: 0 <= i < |r| ==> r[i].category == category.value
    ensures TruthyString(category) && category.value != "all" ==>
      forall i :: 0 <= i < |table| && table[i].category == category.value ==> table[i] in r
    ensures !(TruthyString(category) && category.value != "all") ==> r == table
  {
    if TruthyString(category) && category.value != "all" then Filter(table, CategoryTest(category.value)) else table
  }

  lemma {:induction false} PrefixMultiset(s: seq<Product>, r: seq<Product>)
    requires r <= s
    ensures multiset(r) <= multiset(s)
  {
    assert s == r + s[|r|..];
  }

  /**
   * The rows of a listing: newest first, drawn from the matching products, all of them without a
   * limit and as many as the limit allows with one; each is a product of the table and, when a
   * category is selected, of that category.
   */
  lemma {:induction false} ListingSpec(table: seq<Product>, category: Option<string>, limit: Option<nat>)
    ensures var matching := Matching(table, category);
      var rows := Take(SortNewestFirst(matching), limit);
      && NewestFirst(rows)
      && multiset(rows) <= multiset(matching)
      && (limit.None? ==> multiset(rows) == multiset(matching))
      && (limit.Some? ==> |rows| == if limit.value < |matching| then limit.value else |matching|)
      && (forall i :: 0 <= i < |rows| ==> rows[i] in table)
      && (TruthyString(category) && category.value != "all" ==>
            forall i :: 0 <= i < |rows| ==> rows[i].category == category.value)
  {
    var matching := Matching(table, category);
    var sorted := SortNewestFirst(matching);
    var rows := Take(sorted, limit);
    PrefixMultiset(sorted, rows);
    forall i | 0 <= i < |rows|
      ensures rows[i] in table
      ensures TruthyString(category) && category.value != "all" ==> rows[i].category == category.value
    {
      assert rows[i] in multiset(rows);
      assert rows[i] in multiset(matching);
      assert rows[i] in matching;
    }
  }

  /**
   * GET. `category` is the `category` search parameter; `limit` is the `limit` parameter when one is
   * given, as a number; `error` is the database's error message, if the select fails.
   */
  method GetProducts(db: Database, category: Option<string>, limit: Option<nat>, error: Option<string>)
    returns (resp: Response<seq<Product>>)
    ensures error.Some? ==> resp == Failure(500, error.value)
    ensures error.None? ==> resp == Success(200, Take(SortNewestFirst(Matching(db.products, category)), limit))
  {
    var query := Query(None, None, false);
    if category.Some? && category.value != "" && category.value != "all" {
      query := query.(category := category);
    }
    if limit.Some? {
      query := query.(limit := limit);
    }
    query := query.(newestFirst := true);
    if error.Some? {
      return Failure(500, error.value);
    }
    resp := Success(200, RunQuery(query, db.products));
  }

  /** The POST body after JSON parsing; each field may be absent. */
  datatype ProductBody = ProductBody(
    name: Option<string>,
    description: Option<string>,
    price: Option<int>,
    imageUrl: Option<string>,
    category: Option<string>,
    stock: Option<int>)

  /** `!name || !description || !price || !image_url || !category`: a price of 0 counts as missing. */
  predicate MissingRequired(body: ProductBody)
  {
    !TruthyString(body.name) || !TruthyString(body.description) || !TruthyNumber(body.price)
    || !TruthyString(body.imageUrl) || !TruthyString(body.category)
  }

  /** `stock || 0`. */
  function StockOf(stock: Option<int>): (r: int)
    ensures r == 0 <==> stock.None? || stock.value == 0
    ensures stock.Some? && stock.value != 0 ==> r == stock.value
  {
    if TruthyNumber(stock) then stock.value else 0
  }

  /** The row the insert stores: the six body fields, plus the id and creation time the database assigns. */
  function RowOf(body: ProductBody, id: string, createdAt: int): (r: Product)
    requires !MissingRequired(body)
  {
    Product(id, body.name.value, body.description.value, body.price.value, body.imageUrl.value,
            body.category.value, StockOf(body.stock), createdAt)
  }

  /**
   * POST. `error` is the database's error message if the insert fails; `newId` and `createdAt` are
   * the values the database assigns to a stored row.
   */
  method CreateProduct(db: Database, body: ProductBody, error: Option<string>, newId: string, createdAt: int)
    returns (resp: Response<Product>)
    requires db.Valid()
    modifies db
    ensures db.Valid()
    ensures MissingRequired(body) ==> resp == Failure(400, "Missing required fields") && db.products == old(db.products)
    ensures !MissingRequired(body) && error.Some? ==>
      resp == Failure(500, error.value) && db.products == old(db.products)
    ensures !MissingRequired(body) && error.None? ==>
      && resp == Success(201, RowOf(body, newId, createdAt))
      && db.products == old(db.products) + [resp.data]
      && resp.data.name == body.name.value && resp.data.description == body.description.value
      && resp.data.price == body.price.value && resp.data.imageUrl == body.imageUrl.value
      && resp.data.category == body.category.value && resp.data.stock == StockOf(body.stock)
    ensures db.users == old(db.users) && db.orders == old(db.orders) && db.orderItems == old(db.orderItems)
  {
    if MissingRequired(body) {
      return Failure(400, "Missing required fields");
    }
    var row := RowOf(body, newId, createdAt);
    var stored := db.InsertProduct(row, error);
    if stored.None? {
      return Failure(500, error.value);
    }
    resp := Success(201, stored.value);
  }
}
