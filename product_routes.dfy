/**
 * The product request handlers (routes/product.go): turning the query string of a listing
 * request into a `ProductFilter`, the guards in front of the model calls (a search term is
 * required, an id must be a 64-bit decimal integer), and the responses. A response is the HTTP
 * status with the body's success flag, data and message.
 */
module ProductRoutes {
  import opened Wrappers
  import opened Strconv
  import opened Sql
  import opened Pagination
  import opened Storage
  import ProductModel

  /** The query string; a key that is absent reads as "" (so does a key given with no value). */
  type Query = map<string, string>

  function Param(q: Query, key: string): string {
    if key in q then q[key] else ""
  }

  const StatusOK: int := 200
  const StatusBadRequest: int := 400
  const StatusNotFound: int := 404
  const StatusInternalServerError: int := 500

  datatype Payload =
    | NoData
    | ProductList(products: seq<Product>, count: int, page: int, limit: int, total: nat, totalPages: int)
    | OneProduct(product: Product)
    | UpdatedProduct(id: int, patch: ProductModel.ProductPatch, updatedAt: int)
    | DeletedProduct(productId: int)
    | SearchResult(found: seq<Product>, found_count: int, term: string)

  datatype Response = Response(status: int, success: bool, data: Payload, message: string)

  function ErrorResponse(status: int, message: string): Response {
    Response(status, false, NoData, message)
  }

  function SuccessResponse(status: int, data: Payload, message: string): Response {
    Response(status, true, data, message)
  }

  // ---------------------------------------------------------------------------------------------
  // Listing request normalisation

  /** A decimal integer that is positive, or None. */
  function Positive(s: string): (r: Option<int>)
    ensures r.Some? <==> Atoi(s).Some? && Atoi(s).value > 0
    ensures r.Some? ==> r.value == Atoi(s).value
  {
    if Atoi(s).Some? && Atoi(s).value > 0 then Atoi(s) else None
  }

  /** A range bound: the parsed number when the parameter is given and parses, otherwise 0. */
  function Bound(s: string, parse: string -> Option<int>): int {
    if s != "" && parse(s).Some? then parse(s).value else 0
  }

  /**
   * The filter a listing request describes. Text parameters are copied; a range bound that does
   * not parse stays 0; `sort_order` is kept only when it is "asc" or "desc"; `limit` and `page`
   * default to 10 and 1 when absent, and are left at 0 when given but not a positive integer.
   */
  function QueryFilter(q: Query, parseFloat: string -> Option<int>): ProductModel.ProductFilter {
    var sort := Param(q, "sort_order");
    var limit := Param(q, "limit");
    var page := Param(q, "page");
    ProductModel.ProductFilter(
      Param(q, "name"),
      Param(q, "category"),
      Bound(Param(q, "min_price"), parseFloat),
      Bound(Param(q, "max_price"), parseFloat),
      Bound(Param(q, "min_stock"), Atoi),
      Bound(Param(q, "max_stock"), Atoi),
      if sort == "asc" || sort == "desc" then sort else "",
      if limit == "" then DefaultLimit else Positive(limit).GetOr(0),
      if page == "" then FirstPage else Positive(page).GetOr(0))
  }

  /**
   * `GetProducts` filling the filter field by field from its zero value, each field only under
   * its own condition.
   */
  method FilterFromQuery(q: Query, parseFloat: string -> Option<int>) returns (filter: ProductModel.ProductFilter)
    ensures filter == QueryFilter(q, parseFloat)
  {
    filter := ProductModel.ProductFilter("", "", 0, 0, 0, 0, "", 0, 0);
    var name := Param(q, "name");
    if name != "" {
      filter := filter.(name := name);
    }
    var category := Param(q, "category");
    if category != "" {
      filter := filter.(category := category);
    }
    var minPrice := ReadBound(Param(q, "min_price"), parseFloat);
    var maxPrice := ReadBound(Param(q, "max_price"), parseFloat);
    var minStock := ReadBound(Param(q, "min_stock"), Atoi);
    var maxStock := ReadBound(Param(q, "max_stock"), Atoi);
    filter := filter.(minPrice := minPrice, maxPrice := maxPrice, minStock := minStock, maxStock := maxStock);
    var sortOrder := Param(q, "sort_order");
    if sortOrder != "" {
      if sortOrder == "asc" || sortOrder == "desc" {
        filter := filter.(sortOrder := sortOrder);
      }
    }
    var limit := ReadPositive(Param(q, "limit"), DefaultLimit);
    var page := ReadPositive(Param(q, "page"), FirstPage);
    filter := filter.(limit := limit, offset := page);
  }

  /** A range parameter: parsed when given, left at 0 when absent or when it does not parse. */
  method ReadBound(s: string, parse: string -> Option<int>) returns (v: int)
    ensures v == Bound(s, parse)
  {
    v := 0;
    if s != "" {
      var parsed := parse(s);
      if parsed.Some? {
        v := parsed.value;
      }
    }
  }

  /** `limit` and `page`: `absent` when not given, the number when a positive integer, otherwise 0. */
  method ReadPositive(s: string, absent: int) returns (v: int)
    ensures v == if s == "" then absent else Positive(s).GetOr(0)
  {
    v := 0;
    if s != "" {
      var parsed := Atoi(s);
      if parsed.Some? && parsed.value > 0 {
        v := parsed.value;
      }
    } else {
      v := absent;
    }
  }

  /**
   * The page size a listing request gets: the `limit` parameter when it is a positive integer,
   * otherwise 10. The filter itself holds 10 for an absent parameter and 0 for an invalid one,
   * which the model layer turns into 10.
   */
  lemma QueryLimit(q: Query, parseFloat: string -> Option<int>)
    ensures EffectiveLimit(QueryFilter(q, parseFloat).limit) == Positive(Param(q, "limit")).GetOr(DefaultLimit)
    ensures Param(q, "limit") == "" ==> QueryFilter(q, parseFloat).limit == DefaultLimit
    ensures Param(q, "limit") != "" && Positive(Param(q, "limit")).None? ==> QueryFilter(q, parseFloat).limit == 0
  {
  }

  /**
   * The page a listing request gets: the `page` parameter when it is a positive integer,
   * otherwise the first. The filter's `offset` holds the page number: 1 for an absent parameter
   * and 0 for an invalid one, which the model layer turns into 1.
   */
  lemma QueryPage(q: Query, parseFloat: string -> Option<int>)
    ensures EffectivePage(QueryFilter(q, parseFloat).offset) == Positive(Param(q, "page")).GetOr(FirstPage)
    ensures Param(q, "page") == "" ==> QueryFilter(q, parseFloat).offset == FirstPage
    ensures Param(q, "page") != "" && Positive(Param(q, "page")).None? ==> QueryFilter(q, parseFloat).offset == 0
  {
  }

  /**
   * Only "asc" and "desc" reach the filter, anything else leaves it empty; either way the
   * listing sorts ascending exactly when the parameter is "asc".
   */
  lemma QuerySort(q: Query, parseFloat: string -> Option<int>)
    ensures var s := QueryFilter(q, parseFloat).sortOrder; s == "" || s == "asc" || s == "desc"
    ensures Param(q, "sort_order") in {"asc", "desc"} ==> QueryFilter(q, parseFloat).sortOrder == Param(q, "sort_order")
    ensures ProductModel.DirectionOf(QueryFilter(q, parseFloat).sortOrder) == Asc <==> Param(q, "sort_order") == "asc"
  {
  }

  /**
   * A range parameter restricts the listing exactly when it is given, parses and is positive: a
   * value that does not parse is ignored as if absent. The text parameters restrict it exactly
   * when they are not empty.
   */
  lemma QueryPredicates(q: Query, parseFloat: string -> Option<int>)
    ensures var f := QueryFilter(q, parseFloat); var s := Param(q, "min_price");
      Pred(Price, AtLeast, Int(f.minPrice)) in ProductModel.FilterPredicates(f) <==> s != "" && parseFloat(s).Some? && parseFloat(s).value > 0
    ensures var f := QueryFilter(q, parseFloat); var s := Param(q, "max_price");
      Pred(Price, AtMost, Int(f.maxPrice)) in ProductModel.FilterPredicates(f) <==> s != "" && parseFloat(s).Some? && parseFloat(s).value > 0
    ensures var f := QueryFilter(q, parseFloat); var s := Param(q, "min_stock");
      Pred(Stock, AtLeast, Int(f.minStock)) in ProductModel.FilterPredicates(f) <==> Atoi(s).Some? && Atoi(s).value > 0
    ensures var f := QueryFilter(q, parseFloat); var s := Param(q, "max_stock");
      Pred(Stock, AtMost, Int(f.maxStock)) in ProductModel.FilterPredicates(f) <==> Atoi(s).Some? && Atoi(s).value > 0
    ensures var f := QueryFilter(q, parseFloat);
      Pred(Name, ILike, Text(ProductModel.Pattern(f.name))) in ProductModel.FilterPredicates(f) <==> Param(q, "name") != ""
    ensures var f := QueryFilter(q, parseFloat);
      Pred(Category, ILike, Text(ProductModel.Pattern(f.category))) in ProductModel.FilterPredicates(f) <==> Param(q, "category") != ""
  {
    ProductModel.FilterPredicatesPresence(QueryFilter(q, parseFloat));
  }

  /**
   * A request whose parameters are all invalid lists everything, ten rows per page, first page,
   * newest first.
   */
  lemma InvalidParametersAreIgnored(parseFloat: string -> Option<int>)
    requires parseFloat("cheap") == None
    ensures var f := QueryFilter(map["limit" := "ten", "page" := "-2", "sort_order" := "ASC",
                                     "min_price" := "cheap", "min_stock" := "1.5"], parseFloat);
      EffectiveLimit(f.limit) == 10 && EffectivePage(f.offset) == 1 &&
      ProductModel.DirectionOf(f.sortOrder) == Desc && ProductModel.FilterPredicates(f) == []
  {
    var q := map["limit" := "ten", "page" := "-2", "sort_order" := "ASC", "min_price" := "cheap", "min_stock" := "1.5"];
    var f := QueryFilter(q, parseFloat);
    assert f.limit == 0 && f.offset == 0 by {
      AtoiExamples();
      assert Param(q, "limit") == "ten" && Param(q, "page") == "-2";
    }
    assert f.sortOrder == "" by {
      assert Param(q, "sort_order") == "ASC";
    }
    assert f.minPrice == 0 && f.minStock == 0 by {
      AtoiExamples();
      assert Param(q, "min_price") == "cheap" && Param(q, "min_stock") == "1.5";
    }
    assert f.name == "" && f.category == "" && f.maxPrice == 0 && f.maxStock == 0 by {
      assert Param(q, "name") == "" && Param(q, "category") == "";
      assert Param(q, "max_price") == "" && Param(q, "max_stock") == "";
    }
  }

  lemma AtoiExamples()
    ensures Atoi("ten") == None && Atoi("1.5") == None && Atoi("-2") == Some(-2)
  {
    assert !AllDigits("ten") by { assert !IsDigit("ten"[0]); }
    assert !AllDigits("1.5") by { assert !IsDigit("1.5"[1]); }
    assert "-2"[1..] == "2" && "2"[..0] == [];
  }

  // ---------------------------------------------------------------------------------------------
  // Handlers

  /** Rows read successfully are exactly the rows of a result set in which every row scans. */
  predicate AllScan(rows: seq<ProductModel.ScannedRow>) {
    forall j :: 0 <= j < |rows| ==> rows[j].Success?
  }

  /**
   * `GET /products`: the page of products the query string asks for, with its count and the
   * page arithmetic copied from the listing; any failure of the listing is a 500.
   */
  method GetProducts(
    q: Query,
    parseFloat: string -> Option<int>,
    count: Statement -> Result<nat, Error>,
    fetch: Statement -> Result<seq<ProductModel.ScannedRow>, Error>)
    returns (resp: Response)
    ensures var f := QueryFilter(q, parseFloat);
      resp.status == StatusOK <==>
        count(ProductModel.CountQuery(f)).Success? && fetch(ProductModel.DataQuery(f)).Success? &&
        AllScan(fetch(ProductModel.DataQuery(f)).value)
    ensures resp.status != StatusOK ==> resp == ErrorResponse(StatusInternalServerError, "Failed to fetch products")
    ensures resp.status == StatusOK ==>
      var f := QueryFilter(q, parseFloat);
      var limit := EffectiveLimit(f.limit);
      var total := count(ProductModel.CountQuery(f)).value;
      resp.success && resp.message == "Products fetched successfully" && resp.data.ProductList? &&
      ProductModel.ScanOutcome(fetch(ProductModel.DataQuery(f)).value, Success(resp.data.products)) &&
      resp.data.count == |resp.data.products| && resp.data.page == EffectivePage(f.offset) &&
      resp.data.limit == limit && resp.data.total == total && resp.data.totalPages == TotalPages(total, limit)
  {
    var filter := FilterFromQuery(q, parseFloat);
    var result := ProductModel.GetProductsWithPagination(filter, count, fetch);
    if result.Failure? {
      return ErrorResponse(StatusInternalServerError, "Failed to fetch products");
    }
    var r := result.value;
    resp := SuccessResponse(StatusOK, ProductList(r.products, |r.products|, r.page, r.limit, r.total, r.totalPages),
                            "Products fetched successfully");
  }

  /** `strconv.ParseInt(id, 10, 64)`, which accepts exactly what `Atoi` accepts on a 64-bit platform. */
  function ParseProductId(idParam: string): Option<int> {
    Atoi(idParam)
  }

  /** `GET /products/:id`: 400 for an id that does not parse, 404 when there is no such product. */
  method GetProduct(idParam: string, db: Database) returns (resp: Response)
    ensures ParseProductId(idParam).None? ==> resp == ErrorResponse(StatusBadRequest, "Invalid product ID")
    ensures ParseProductId(idParam).Some? && ParseProductId(idParam).value !in db.products ==>
      resp == ErrorResponse(StatusNotFound, "Product not found")
    ensures ParseProductId(idParam).Some? && ParseProductId(idParam).value in db.products ==>
      resp == SuccessResponse(StatusOK, OneProduct(db.products[ParseProductId(idParam).value]), "Product fetched successfully")
  {
    var id := ParseProductId(idParam);
    if id.None? {
      return ErrorResponse(StatusBadRequest, "Invalid product ID");
    }
    var product := db.QueryProduct(id.value);
    if product.Failure? {
      return ErrorResponse(StatusNotFound, "Product not found");
    }
    resp := SuccessResponse(StatusOK, OneProduct(product.value), "Product fetched successfully");
  }

  /**
   * `PUT /products/:id`: 400 for an id that does not parse or a body that does not bind (`None`),
   * before the table is touched; otherwise the partial update at time `now`, a 500 when the
   * engine refuses it, and the update record echoed back on success (also for an id with no row).
   */
  method UpdateProduct(idParam: string, body: Option<ProductModel.ProductPatch>, db: Database, now: int)
    returns (resp: Response)
    requires db.Valid()
    modifies db
    ensures db.Valid() && db.users == old(db.users)
    ensures ParseProductId(idParam).None? ==>
      resp == ErrorResponse(StatusBadRequest, "Invalid product ID") && db.products == old(db.products)
    ensures ParseProductId(idParam).Some? && body.None? ==>
      resp == ErrorResponse(StatusBadRequest, "Invalid request format") && db.products == old(db.products)
    ensures ParseProductId(idParam).Some? && body.Some? ==>
      var id := ParseProductId(idParam).value;
      var outcome := UpdateProducts(old(db.products), ProductModel.ProductUpdateStatement(id, body.value, now));
      db.products == outcome.1 &&
      resp == if outcome.0.Failure? then ErrorResponse(StatusInternalServerError, "Failed to update product")
              else SuccessResponse(StatusOK, UpdatedProduct(id, body.value, now), "Product updated successfully")
  {
    var id := ParseProductId(idParam);
    if id.None? {
      return ErrorResponse(StatusBadRequest, "Invalid product ID");
    }
    if body.None? {
      return ErrorResponse(StatusBadRequest, "Invalid request format");
    }
    var patch := body.value;
    var product := new ProductModel.ProductUpdate(id.value, patch.name, patch.price, patch.stock, patch.category);
    assert product.Patch() == patch;
    var err := product.Update(db, now);
    if err.Some? {
      return ErrorResponse(StatusInternalServerError, "Failed to update product");
    }
    resp := SuccessResponse(StatusOK, UpdatedProduct(product.id, product.Patch(), product.updatedAt), "Product updated successfully");
  }

  /**
   * `DELETE /products/:id`: 400 for an id that does not parse, before the table is touched;
   * otherwise the row is removed. There is no existence check, so an id with no row is also
   * reported as deleted.
   */
  method DeleteProduct(idParam: string, db: Database) returns (resp: Response)
    requires db.Valid()
    modifies db
    ensures db.Valid() && db.users == old(db.users)
    ensures ParseProductId(idParam).None? ==>
      resp == ErrorResponse(StatusBadRequest, "Invalid product ID") && db.products == old(db.products)
    ensures ParseProductId(idParam).Some? ==>
      db.products == old(db.products) - {ParseProductId(idParam).value} &&
      resp == SuccessResponse(StatusOK, DeletedProduct(ParseProductId(idParam).value), "Product deleted successfully")
  {
    var id := ParseProductId(idParam);
    if id.None? {
      return ErrorResponse(StatusBadRequest, "Invalid product ID");
    }
    db.DeleteProduct(id.value);
    resp := SuccessResponse(StatusOK, DeletedProduct(id.value), "Product deleted successfully");
  }

  /** The search's sort order: "asc" and "desc" are kept, anything else becomes "desc". */
  function SearchSort(sortOrder: string): string {
    if sortOrder != "asc" && sortOrder != "desc" then "desc" else sortOrder
  }

  /**
   * The handler's normalisation always yields "asc" or "desc", and it never changes the
   * direction the model layer would have chosen from the raw parameter.
   */
  lemma SearchSortKeepsDirection(sortOrder: string)
    ensures SearchSort(sortOrder) == "asc" || SearchSort(sortOrder) == "desc"
    ensures SearchSort(sortOrder) == "asc" <==> sortOrder == "asc"
    ensures ProductModel.DirectionOf(SearchSort(sortOrder)) == ProductModel.DirectionOf(sortOrder)
  {
  }

  /**
   * `GET /products/search`: 400 when `q` is empty, before any query; otherwise the `%q%` search
   * in the normalised order, a 500 when it fails, and the products with their count and the term.
   */
  method SearchProducts(q: Query, fetch: Statement -> Result<seq<ProductModel.ScannedRow>, Error>)
    returns (resp: Response)
    ensures Param(q, "q") == "" ==> resp == ErrorResponse(StatusBadRequest, "Search term is required")
    ensures Param(q, "q") != "" ==>
      var st := ProductModel.SearchQuery(Param(q, "q"), SearchSort(Param(q, "sort_order")));
      (resp.status == StatusOK <==> fetch(st).Success? && AllScan(fetch(st).value)) &&
      (resp.status != StatusOK ==> resp == ErrorResponse(StatusInternalServerError, "Failed to search products")) &&
      (resp.status == StatusOK ==>
        resp.success && resp.message == "Search completed successfully" && resp.data.SearchResult? &&
        ProductModel.ScanOutcome(fetch(st).value, Success(resp.data.found)) &&
        resp.data.found_count == |resp.data.found| && resp.data.term == Param(q, "q"))
  {
    var searchTerm := Param(q, "q");
    if searchTerm == "" {
      return ErrorResponse(StatusBadRequest, "Search term is required");
    }
    var sortOrder := Param(q, "sort_order");
    if sortOrder != "asc" && sortOrder != "desc" {
      sortOrder := "desc";
    }
    var products := ProductModel.SearchProducts(searchTerm, sortOrder, fetch);
    if products.Failure? {
      return ErrorResponse(StatusInternalServerError, "Failed to search products");
    }
    resp := SuccessResponse(StatusOK, SearchResult(products.value, |products.value|, searchTerm), "Search completed successfully");
  }
}
