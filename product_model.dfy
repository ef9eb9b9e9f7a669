/**
 * The product side of the model layer (models/product.go): the partial update, the filtered and
 * paginated listing, and the search. Each statement is built step by step the way the source
 * builds its query text and argument slice, and is proved equal to a declarative description
 * whose binding, shape and effect are stated by lemmas.
 */
module ProductModel {
  import opened Wrappers
  import opened Strconv
  import opened Sql
  import opened Pagination
  import opened Storage

  // ---------------------------------------------------------------------------------------------
  // Partial update

  /** The optional fields of a partial update; `None` leaves the column as it is. */
  datatype ProductPatch = ProductPatch(
    name: Option<string>, price: Option<int>, stock: Option<int>, category: Option<string>)

  function PresentCount(p: ProductPatch): nat {
    (if p.name.Some? then 1 else 0) + (if p.price.Some? then 1 else 0) +
    (if p.stock.Some? then 1 else 0) + (if p.category.Some? then 1 else 0)
  }

  /**
   * The assignments the update writes: each present field, in the order name, price, stock,
   * category, then the time. (`GetOr` only supplies a value for a field that is absent anyway.)
   */
  function UpdateFields(p: ProductPatch, now: int): seq<Field<Value>> {
    Optional(p.name.Some?, Field(Name, Text(p.name.GetOr("")))) +
    Optional(p.price.Some?, Field(Price, Int(p.price.GetOr(0)))) +
    Optional(p.stock.Some?, Field(Stock, Int(p.stock.GetOr(0)))) +
    Optional(p.category.Some?, Field(Category, Text(p.category.GetOr("")))) +
    [Field(UpdatedAt, Time(now))]
  }

  /** `UPDATE products SET <assignments separated by ","> WHERE id = $(k+2)`. */
  function ProductUpdateStatement(id: int, p: ProductPatch, now: int): Statement {
    UpdateStatement(ProductsUpdateHead, UpdateFields(p, now), ",", Int(id))
  }

  /** The row a partial update should leave: present fields replaced, the rest kept, the time stamped. */
  function Patched(row: Product, p: ProductPatch, now: int): Product {
    row.(name := p.name.GetOr(row.name), price := p.price.GetOr(row.price),
         stock := p.stock.GetOr(row.stock), category := p.category.GetOr(row.category),
         updatedAt := now)
  }

  function FieldRank(f: Field<Value>): nat {
    match f.col
    case Name => 0
    case Price => 1
    case Stock => 2
    case Category => 3
    case _ => 4
  }

  /** Strictly increasing ranks: the elements come in a fixed order, each kind at most once. */
  predicate Ascending<T>(rank: T -> nat, s: seq<T>) {
    forall i, j :: 0 <= i < j < |s| ==> rank(s[i]) < rank(s[j])
  }

  predicate RanksBelow<T>(rank: T -> nat, s: seq<T>, bound: nat) {
    forall i :: 0 <= i < |s| ==> rank(s[i]) < bound
  }

  lemma AscendingExtend<T>(rank: T -> nat, s: seq<T>, opt: seq<T>, lo: nat, hi: nat)
    requires Ascending(rank, s) && RanksBelow(rank, s, lo) && lo <= hi
    requires |opt| <= 1 && forall y :: y in opt ==> lo <= rank(y) < hi
    ensures Ascending(rank, s + opt) && RanksBelow(rank, s + opt, hi)
  {
    if opt != [] {
      assert opt[0] in opt;
      var t := s + opt;
      forall i, j | 0 <= i < j < |t| ensures rank(t[i]) < rank(t[j]) {
        if j == |s| {
          assert t[j] == opt[0];
        }
      }
    }
  }

  /** The state of the update text while it is being built: `written` holds the fields so far. */
  ghost predicate UpdateInProgress(query: seq<Frag<nat>>, args: seq<Value>, argCount: nat, written: seq<Field<Value>>) {
    query == [Keyword(ProductsUpdateHead)] + Terminated(NumberFields(written, 1), ",") &&
    args == FieldValues(written) && argCount == |written| + 1
  }

  lemma WriteField(query: seq<Frag<nat>>, args: seq<Value>, argCount: nat, written: seq<Field<Value>>, f: Field<Value>)
    requires UpdateInProgress(query, args, argCount, written)
    ensures UpdateInProgress(query + [Assign(f.col, argCount), Sep(",")], args + [f.v], argCount + 1, written + [f])
  {
    AppendOneField(written, f, ",");
  }

  lemma WriteStamp(query: seq<Frag<nat>>, args: seq<Value>, argCount: nat, written: seq<Field<Value>>, id: int, now: int)
    requires UpdateInProgress(query, args, argCount, written)
    ensures var fs := written + [Field(UpdatedAt, Time(now))];
      UpdateStatement(ProductsUpdateHead, fs, ",", Int(id)) ==
      Statement(query + [Assign(UpdatedAt, argCount)] + [Keyword(" WHERE "), Cond(Id, Eq, argCount + 1)],
                args + [Time(now)] + [Int(id)])
  {
    var stamp := Field(UpdatedAt, Time(now));
    AppendOneField(written, stamp, ",");
    TerminatedThenAssign(NumberFields(written, 1), Field(UpdatedAt, argCount), ",");
  }

  /** One optional field: when present, append `col = $n,` and its argument and bump the counter. */
  method WriteOptional(query: seq<Frag<nat>>, args: seq<Value>, argCount: nat, ghost written: seq<Field<Value>>,
                       present: bool, f: Field<Value>)
    returns (query': seq<Frag<nat>>, args': seq<Value>, argCount': nat)
    requires UpdateInProgress(query, args, argCount, written)
    ensures UpdateInProgress(query', args', argCount', written + Optional(present, f))
  {
    query', args', argCount' := query, args, argCount;
    if present {
      WriteField(query, args, argCount, written, f);
      query' := query + [Assign(f.col, argCount), Sep(",")];
      args' := args + [f.v];
      argCount' := argCount + 1;
    } else {
      assert written + [] == written;
    }
  }

  /** Two optional fields in a row. */
  method WriteOptionals(query: seq<Frag<nat>>, args: seq<Value>, argCount: nat, ghost written: seq<Field<Value>>,
                        present1: bool, f1: Field<Value>, present2: bool, f2: Field<Value>)
    returns (query': seq<Frag<nat>>, args': seq<Value>, argCount': nat)
    requires UpdateInProgress(query, args, argCount, written)
    ensures UpdateInProgress(query', args', argCount', written + Optional(present1, f1) + Optional(present2, f2))
  {
    query', args', argCount' := WriteOptional(query, args, argCount, written, present1, f1);
    query', args', argCount' := WriteOptional(query', args', argCount', written + Optional(present1, f1), present2, f2);
  }

  /**
   * Builds the UPDATE of a partial product update as the source does: one `col = $n,` per
   * present field with a running placeholder counter, then `updated_at = $n` without a comma,
   * then the WHERE clause on the id.
   */
  method BuildProductUpdate(id: int, patch: ProductPatch, now: int) returns (st: Statement)
    ensures st == ProductUpdateStatement(id, patch, now)
  {
    var query: seq<Frag<nat>> := [Keyword(ProductsUpdateHead)];
    var args: seq<Value> := [];
    var argCount: nat := 1;
    ghost var none: seq<Field<Value>> := [];
    ghost var a := Optional(patch.name.Some?, Field(Name, Text(patch.name.GetOr(""))));
    assert UpdateInProgress(query, args, argCount, none);
    query, args, argCount := WriteOptionals(query, args, argCount, none,
      patch.name.Some?, Field(Name, Text(patch.name.GetOr(""))),
      patch.price.Some?, Field(Price, Int(patch.price.GetOr(0))));
    assert none + a == a;
    ghost var written := a + Optional(patch.price.Some?, Field(Price, Int(patch.price.GetOr(0))));
    query, args, argCount := WriteOptionals(query, args, argCount, written,
      patch.stock.Some?, Field(Stock, Int(patch.stock.GetOr(0))),
      patch.category.Some?, Field(Category, Text(patch.category.GetOr(""))));
    written := written + Optional(patch.stock.Some?, Field(Stock, Int(patch.stock.GetOr(0)))) +
      Optional(patch.category.Some?, Field(Category, Text(patch.category.GetOr(""))));
    assert written + [Field(UpdatedAt, Time(now))] == UpdateFields(patch, now);
    WriteStamp(query, args, argCount, written, id, now);

    query := query + [Assign(UpdatedAt, argCount)];
    args := args + [Time(now)];
    argCount := argCount + 1;

    query := query + [Keyword(" WHERE "), Cond(Id, Eq, argCount)];
    args := args + [Int(id)];
    st := Statement(query, args);
  }

  /**
   * A partial update with `k` present fields writes k+1 assignments: the present fields in the
   * order name, price, stock, category, each at most once, then the time last.
   */
  lemma ProductUpdateFields(p: ProductPatch, now: int)
    ensures var fs := UpdateFields(p, now);
      |fs| == PresentCount(p) + 1 && fs[|fs| - 1] == Field(UpdatedAt, Time(now)) && Ascending(FieldRank, fs)
  {
    var a := Optional(p.name.Some?, Field(Name, Text(p.name.GetOr(""))));
    var b := Optional(p.price.Some?, Field(Price, Int(p.price.GetOr(0))));
    var c := Optional(p.stock.Some?, Field(Stock, Int(p.stock.GetOr(0))));
    var d := Optional(p.category.Some?, Field(Category, Text(p.category.GetOr(""))));
    var e: seq<Field<Value>> := [Field(UpdatedAt, Time(now))];
    assert UpdateFields(p, now) == a + b + c + d + e;
    FiveAscending(FieldRank, a, b, c, d, e);
  }

  /** Five pieces of at most one element each, piece `i` holding rank `i`, concatenate in ascending order. */
  lemma FiveAscending<T>(rank: T -> nat, a: seq<T>, b: seq<T>, c: seq<T>, d: seq<T>, e: seq<T>)
    requires |a| <= 1 && |b| <= 1 && |c| <= 1 && |d| <= 1 && |e| <= 1
    requires forall y :: y in a ==> rank(y) == 0
    requires forall y :: y in b ==> rank(y) == 1
    requires forall y :: y in c ==> rank(y) == 2
    requires forall y :: y in d ==> rank(y) == 3
    requires forall y :: y in e ==> rank(y) == 4
    ensures Ascending(rank, a + b + c + d + e) && RanksBelow(rank, a + b + c + d + e, 5)
  {
    AscendingExtend(rank, [], a, 0, 1);
    assert [] + a == a;
    AscendingExtend(rank, a, b, 1, 2);
    AscendingExtend(rank, a + b, c, 2, 3);
    AscendingExtend(rank, a + b + c, d, 3, 4);
    AscendingExtend(rank, a + b + c + d, e, 4, 5);
  }

  /**
   * The update binds placeholders 1 to k+2 in order, the time as argument k+1 and the id as
   * argument k+2, and the engine reads it as exactly those assignments for the row with that id:
   * no separator before the first assignment or before WHERE.
   */
  lemma ProductUpdateBinds(id: int, p: ProductPatch, now: int)
    ensures var st := ProductUpdateStatement(id, p, now); var k := PresentCount(p);
      Params(st.frags) == Iota(1, k + 2) && WellBound(st) &&
      |st.args| == k + 2 && st.args[k] == Time(now) && st.args[k + 1] == Int(id)
    ensures var st := ProductUpdateStatement(id, p, now);
      ParseUpdate(Bind(st.frags, st.args).value, ProductsUpdateHead)
        == Some((Joined(UpdateFields(p, now), ","), Int(id)))
  {
    var fs := UpdateFields(p, now);
    ProductUpdateFields(p, now);
    UpdateStatementBinds(ProductsUpdateHead, fs, ",", Int(id));
  }

  /**
   * What the partial update does to the table: a missing id changes nothing and is not an
   * error; otherwise exactly the present fields are written (a stock of 0 included) and the
   * time is stamped, unless the new row breaks a CHECK constraint, which leaves the table as it was.
   */
  lemma ProductUpdateEffect(products: map<int, Product>, id: int, p: ProductPatch, now: int)
    ensures UpdateProducts(products, ProductUpdateStatement(id, p, now)) ==
      if id !in products then (Success(0), products)
      else if SatisfiesChecks(Patched(products[id], p, now))
      then (Success(1), products[id := Patched(products[id], p, now)])
      else (Failure(Engine("check constraint")), products)
  {
    var fs := UpdateFields(p, now);
    ProductUpdateFields(p, now);
    UpdateStatementBinds(ProductsUpdateHead, fs, ",", Int(id));
    if id in products {
      var row := products[id];
      ApplyJoined(AssignProduct, row, fs, ",");
      PatchedByFields(row, p, now);
    }
  }

  lemma ApplyOptional(row: Product, fs: seq<Field<Value>>)
    requires |fs| <= 1
    ensures ApplyFields(AssignProduct, row, fs) == if fs == [] then row else AssignProduct(row, Assign(fs[0].col, fs[0].v))
  {
    if fs != [] {
      ApplyOneField(AssignProduct, row, fs[0]);
      assert fs == [fs[0]];
    }
  }

  lemma ApplyFive<R>(assign: (R, Frag<Value>) -> R, row: R, a: seq<Field<Value>>, b: seq<Field<Value>>,
                     c: seq<Field<Value>>, d: seq<Field<Value>>, e: seq<Field<Value>>)
    ensures ApplyFields(assign, row, a + b + c + d + e) ==
      ApplyFields(assign, ApplyFields(assign, ApplyFields(assign, ApplyFields(assign,
        ApplyFields(assign, row, a), b), c), d), e)
  {
    ApplyFieldsAppend(assign, row, a + b + c + d, e);
    ApplyFieldsAppend(assign, row, a + b + c, d);
    ApplyFieldsAppend(assign, row, a + b, c);
    ApplyFieldsAppend(assign, row, a, b);
  }

  lemma PatchedByFields(row: Product, p: ProductPatch, now: int)
    ensures ApplyFields(AssignProduct, row, UpdateFields(p, now)) == Patched(row, p, now)
  {
    var a := Optional(p.name.Some?, Field(Name, Text(p.name.GetOr(""))));
    var b := Optional(p.price.Some?, Field(Price, Int(p.price.GetOr(0))));
    var c := Optional(p.stock.Some?, Field(Stock, Int(p.stock.GetOr(0))));
    var d := Optional(p.category.Some?, Field(Category, Text(p.category.GetOr(""))));
    var e: seq<Field<Value>> := [Field(UpdatedAt, Time(now))];
    ApplyFive(AssignProduct, row, a, b, c, d, e);
    var r1 := ApplyFields(AssignProduct, row, a);
    var r2 := ApplyFields(AssignProduct, r1, b);
    var r3 := ApplyFields(AssignProduct, r2, c);
    var r4 := ApplyFields(AssignProduct, r3, d);
    assert r1 == row.(name := p.name.GetOr(row.name)) by { ApplyOptional(row, a); }
    assert r2 == r1.(price := p.price.GetOr(row.price)) by { ApplyOptional(r1, b); }
    assert r3 == r2.(stock := p.stock.GetOr(row.stock)) by { ApplyOptional(r2, c); }
    assert r4 == r3.(category := p.category.GetOr(row.category)) by { ApplyOptional(r3, d); }
    assert ApplyFields(AssignProduct, r4, e) == r4.(updatedAt := now) by { ApplyOptional(r4, e); }
  }

  /** `ProductUpdate`: the id and the optional fields of a partial update, and the time it was applied. */
  class ProductUpdate {
    var id: int
    var name: Option<string>
    var price: Option<int>
    var stock: Option<int>
    var category: Option<string>
    var updatedAt: int

    constructor (id: int, name: Option<string>, price: Option<int>, stock: Option<int>, category: Option<string>)
      ensures this.id == id && this.name == name && this.price == price
      ensures this.stock == stock && this.category == category && this.updatedAt == 0
    {
      this.id := id;
      this.name := name;
      this.price := price;
      this.stock := stock;
      this.category := category;
      this.updatedAt := 0;
    }

    function Patch(): ProductPatch
      reads this
    {
      ProductPatch(name, price, stock, category)
    }

    /**
     * Stamps the update time, then runs the UPDATE. There is no existence check: an id with no
     * row changes nothing and is reported as success. The error is whatever the engine reports.
     */
    method Update(db: Database, now: int) returns (err: Option<Error>)
      requires db.Valid()
      modifies this`updatedAt, db
      ensures db.Valid() && updatedAt == now && db.users == old(db.users)
      ensures var outcome := UpdateProducts(old(db.products), ProductUpdateStatement(id, Patch(), now));
        db.products == outcome.1 &&
        err == (if outcome.0.Failure? then Some(outcome.0.error) else None)
    {
      updatedAt := now;
      var st := BuildProductUpdate(id, Patch(), updatedAt);
      var r := db.ExecProductUpdate(st);
      err := if r.Failure? then Some(r.error) else None;
    }
  }

  // ---------------------------------------------------------------------------------------------
  // Scanning result rows

  /** A result row, or the error its scan ran into. */
  type ScannedRow = Result<Product, Error>

  /**
   * What reading a result set produces: every row when all of them scan, otherwise the error of
   * the first row that does not.
   */
  predicate ScanOutcome(rows: seq<ScannedRow>, r: Result<seq<Product>, Error>) {
    (r.Success? ==>
      |r.value| == |rows| && forall j :: 0 <= j < |rows| ==> rows[j].Success? && r.value[j] == rows[j].value) &&
    (r.Failure? ==>
      exists j :: 0 <= j < |rows| && rows[j].Failure? && r.error == rows[j].error &&
        forall k :: 0 <= k < j ==> rows[k].Success?)
  }

  /** The `for rows.Next()` loop: append each scanned row, stop at the first scan error. */
  method ScanRows(rows: seq<ScannedRow>) returns (r: Result<seq<Product>, Error>)
    ensures ScanOutcome(rows, r)
    ensures r.Success? <==> forall j :: 0 <= j < |rows| ==> rows[j].Success?
  {
    var products: seq<Product> := [];
    var i := 0;
    while i < |rows|
      invariant 0 <= i <= |rows| && |products| == i
      invariant forall j :: 0 <= j < i ==> rows[j].Success? && products[j] == rows[j].value
    {
      if rows[i].Failure? {
        return Failure(rows[i].error);
      }
      products := products + [rows[i].value];
      i := i + 1;
    }
    r := Success(products);
  }

  // ---------------------------------------------------------------------------------------------
  // Filtered, paginated listing

  /** `ProductFilter`; `offset` carries the page number, not a row offset. */
  datatype ProductFilter = ProductFilter(
    name: string, category: string, minPrice: int, maxPrice: int, minStock: int, maxStock: int,
    sortOrder: string, limit: int, offset: int)

  datatype ProductListResult = ProductListResult(
    products: seq<Product>, total: nat, page: int, limit: int, totalPages: int)

  /** The ILIKE pattern that matches any text containing `s`. */
  function Pattern(s: string): string {
    "%" + s + "%"
  }

  /** ASC only for exactly "asc"; anything else sorts newest first. */
  function DirectionOf(sortOrder: string): (d: Direction)
    ensures d == Asc <==> sortOrder == "asc"
  {
    if sortOrder == "asc" then Asc else Desc
  }

  /**
   * The WHERE predicates of a filter in their fixed order: a text field takes part when it is
   * not empty, a number when it is positive.
   */
  function FilterPredicates(f: ProductFilter): seq<Pred<Value>> {
    Optional(f.name != "", Pred(Name, ILike, Text(Pattern(f.name)))) +
    Optional(f.category != "", Pred(Category, ILike, Text(Pattern(f.category)))) +
    Optional(f.minPrice > 0, Pred(Price, AtLeast, Int(f.minPrice))) +
    Optional(f.maxPrice > 0, Pred(Price, AtMost, Int(f.maxPrice))) +
    Optional(f.minStock > 0, Pred(Stock, AtLeast, Int(f.minStock))) +
    Optional(f.maxStock > 0, Pred(Stock, AtMost, Int(f.maxStock)))
  }

  const CountHead: string := "SELECT COUNT(*) FROM products WHERE 1=1"
  const DataHead: string := "SELECT id, name, price, stock, category, created_at, updated_at FROM products WHERE 1=1"

  /** The filter clause, numbered from $1, shared by both queries. */
  function FilterClause(f: ProductFilter): seq<Frag<nat>> {
    Conjuncts(NumberPreds(FilterPredicates(f), 1))
  }

  function CountQuery(f: ProductFilter): Statement {
    Statement([Keyword(CountHead)] + FilterClause(f), PredValues(FilterPredicates(f)))
  }

  /** The sort, then LIMIT and OFFSET on the two placeholders after the `m` predicates. */
  function PageTail(m: nat, sortOrder: string): seq<Frag<nat>> {
    [OrderBy(DirectionOf(sortOrder)), Limit(m + 1), Offset(m + 2)]
  }

  function DataQuery(f: ProductFilter): Statement {
    var limit := EffectiveLimit(f.limit);
    Statement(
      [Keyword(DataHead)] + FilterClause(f) + PageTail(|FilterPredicates(f)|, f.sortOrder),
      PredValues(FilterPredicates(f)) + [Int(limit), Int(RowOffset(EffectivePage(f.offset), limit))])
  }

  /** The state of the filter clause while it is being built: `preds` holds the predicates so far. */
  ghost predicate ClauseInProgress(clause: seq<Frag<nat>>, args: seq<Value>, argCount: nat, preds: seq<Pred<Value>>) {
    clause == Conjuncts(NumberPreds(preds, 1)) && args == PredValues(preds) && argCount == |preds|
  }

  lemma AddPredicate(clause: seq<Frag<nat>>, args: seq<Value>, argCount: nat, preds: seq<Pred<Value>>, p: Pred<Value>)
    requires ClauseInProgress(clause, args, argCount, preds)
    ensures ClauseInProgress(clause + [Keyword(" AND "), Cond(p.col, p.op, argCount + 1)], args + [p.v], argCount + 1, preds + [p])
  {
    var np := NumberPreds(preds + [p], 1);
    assert np[..|np| - 1] == NumberPreds(preds, 1);
    assert PredValues(preds + [p]) == PredValues(preds) + [p.v];
  }

  /** One optional predicate: appended, with its placeholder and argument, only when present. */
  lemma StepOptional(clause: seq<Frag<nat>>, args: seq<Value>, argCount: nat, preds: seq<Pred<Value>>, present: bool, p: Pred<Value>)
    requires ClauseInProgress(clause, args, argCount, preds)
    ensures present ==>
      ClauseInProgress(clause + [Keyword(" AND "), Cond(p.col, p.op, argCount + 1)], args + [p.v], argCount + 1,
                       preds + Optional(present, p))
    ensures !present ==> ClauseInProgress(clause, args, argCount, preds + Optional(present, p))
  {
    if present {
      AddPredicate(clause, args, argCount, preds, p);
    } else {
      assert preds + [] == preds;
    }
  }

  /**
   * One filter field: when present, bump the counter, append ` AND col op $n` and the argument.
   */
  method AppendCondition(clause: seq<Frag<nat>>, args: seq<Value>, argCount: nat, ghost preds: seq<Pred<Value>>,
                         present: bool, p: Pred<Value>)
    returns (clause': seq<Frag<nat>>, args': seq<Value>, argCount': nat)
    requires ClauseInProgress(clause, args, argCount, preds)
    ensures ClauseInProgress(clause', args', argCount', preds + Optional(present, p))
  {
    clause', args', argCount' := clause, args, argCount;
    StepOptional(clause, args, argCount, preds, present, p);
    if present {
      argCount' := argCount' + 1;
      clause' := clause' + [Keyword(" AND "), Cond(p.col, p.op, argCount')];
      args' := args' + [p.v];
    }
  }

  /** Two filter fields in a row, each appended only when present. */
  method AppendConditions(clause: seq<Frag<nat>>, args: seq<Value>, argCount: nat, ghost preds: seq<Pred<Value>>,
                          present1: bool, p1: Pred<Value>, present2: bool, p2: Pred<Value>)
    returns (clause': seq<Frag<nat>>, args': seq<Value>, argCount': nat)
    requires ClauseInProgress(clause, args, argCount, preds)
    ensures ClauseInProgress(clause', args', argCount', preds + Optional(present1, p1) + Optional(present2, p2))
  {
    clause', args', argCount' := AppendCondition(clause, args, argCount, preds, present1, p1);
    clause', args', argCount' := AppendCondition(clause', args', argCount', preds + Optional(present1, p1), present2, p2);
  }

  /** The six optional predicates, grouped as the text, price and stock pairs. */
  lemma FilterPredicatesByPairs(f: ProductFilter)
    ensures FilterPredicates(f) ==
      (Optional(f.name != "", Pred(Name, ILike, Text(Pattern(f.name)))) +
       Optional(f.category != "", Pred(Category, ILike, Text(Pattern(f.category))))) +
      (Optional(f.minPrice > 0, Pred(Price, AtLeast, Int(f.minPrice))) +
       Optional(f.maxPrice > 0, Pred(Price, AtMost, Int(f.maxPrice)))) +
      (Optional(f.minStock > 0, Pred(Stock, AtLeast, Int(f.minStock))) +
       Optional(f.maxStock > 0, Pred(Stock, AtMost, Int(f.maxStock))))
  {
    SixInPairs(
      Optional(f.name != "", Pred(Name, ILike, Text(Pattern(f.name)))),
      Optional(f.category != "", Pred(Category, ILike, Text(Pattern(f.category)))),
      Optional(f.minPrice > 0, Pred(Price, AtLeast, Int(f.minPrice))),
      Optional(f.maxPrice > 0, Pred(Price, AtMost, Int(f.maxPrice))),
      Optional(f.minStock > 0, Pred(Stock, AtLeast, Int(f.minStock))),
      Optional(f.maxStock > 0, Pred(Stock, AtMost, Int(f.maxStock))));
  }

  lemma SixInPairs<T>(a: seq<T>, b: seq<T>, c: seq<T>, d: seq<T>, e: seq<T>, g: seq<T>)
    ensures a + b + c + d + e + g == (a + b) + (c + d) + (e + g)
  {
  }

  /** The filter clause as the source grows it, one field at a time in the fixed order. */
  method BuildFilterClause(f: ProductFilter) returns (clause: seq<Frag<nat>>, args: seq<Value>)
    ensures clause == FilterClause(f)
    ensures args == PredValues(FilterPredicates(f))
  {
    var name, category := Pred(Name, ILike, Text(Pattern(f.name))), Pred(Category, ILike, Text(Pattern(f.category)));
    var minPrice, maxPrice := Pred(Price, AtLeast, Int(f.minPrice)), Pred(Price, AtMost, Int(f.maxPrice));
    var minStock, maxStock := Pred(Stock, AtLeast, Int(f.minStock)), Pred(Stock, AtMost, Int(f.maxStock));
    ghost var texts := Optional(f.name != "", name) + Optional(f.category != "", category);
    ghost var prices := Optional(f.minPrice > 0, minPrice) + Optional(f.maxPrice > 0, maxPrice);
    ghost var stocks := Optional(f.minStock > 0, minStock) + Optional(f.maxStock > 0, maxStock);
    FilterPredicatesByPairs(f);

    clause, args := [], [];
    var argCount: nat := 0;
    ghost var none: seq<Pred<Value>> := [];
    assert ClauseInProgress(clause, args, argCount, none);
    clause, args, argCount := AppendConditions(clause, args, argCount, none, f.name != "", name, f.category != "", category);
    assert none + Optional(f.name != "", name) + Optional(f.category != "", category) == texts;
    clause, args, argCount := AppendConditions(clause, args, argCount, texts, f.minPrice > 0, minPrice, f.maxPrice > 0, maxPrice);
    assert texts + Optional(f.minPrice > 0, minPrice) + Optional(f.maxPrice > 0, maxPrice) == texts + prices;
    clause, args, argCount := AppendConditions(clause, args, argCount, texts + prices, f.minStock > 0, minStock, f.maxStock > 0, maxStock);
    assert texts + prices + Optional(f.minStock > 0, minStock) + Optional(f.maxStock > 0, maxStock) == texts + prices + stocks;
  }

  /**
   * `GetProductsWithPagination`: normalise limit and page, count the matching rows, then fetch
   * the requested page. A failing count or fetch, or a row that does not scan, is returned as
   * the error; otherwise the result reports the normalised page and limit, the count, and the
   * page count. The two queries are run by the storage engine, given here as `count` and `fetch`.
   */
  method GetProductsWithPagination(
    filter: ProductFilter,
    count: Statement -> Result<nat, Error>,
    fetch: Statement -> Result<seq<ScannedRow>, Error>)
    returns (r: Result<ProductListResult, Error>)
    ensures count(CountQuery(filter)).Failure? ==> r == Failure(count(CountQuery(filter)).error)
    ensures count(CountQuery(filter)).Success? && fetch(DataQuery(filter)).Failure? ==>
      r == Failure(fetch(DataQuery(filter)).error)
    ensures count(CountQuery(filter)).Success? && fetch(DataQuery(filter)).Success? ==>
      ScanOutcome(fetch(DataQuery(filter)).value, if r.Success? then Success(r.value.products) else Failure(r.error))
    ensures r.Success? ==>
      var limit := EffectiveLimit(filter.limit);
      var total := count(CountQuery(filter)).value;
      count(CountQuery(filter)).Success? && fetch(DataQuery(filter)).Success? &&
      r.value.total == total && r.value.page == EffectivePage(filter.offset) &&
      r.value.limit == limit && r.value.totalPages == TotalPages(total, limit)
  {
    var f := filter;
    if f.limit <= 0 {
      f := f.(limit := DefaultLimit);
    }
    var page := f.offset;
    if page <= 0 {
      page := FirstPage;
    }
    assert f.limit == EffectiveLimit(filter.limit) && page == EffectivePage(filter.offset);
    LimitIsNotAFilter(filter, f.limit);

    var filterClause, args := BuildFilterClause(f);
    var countQuery := [Keyword(CountHead)] + filterClause;
    var dataQuery := [Keyword(DataHead)] + filterClause;

    var counted := count(Statement(countQuery, args));
    if counted.Failure? {
      return Failure(counted.error);
    }
    var total := counted.value;

    dataQuery, args := AppendPage(dataQuery, args, f.sortOrder, f.limit, page);
    assert Statement(dataQuery, args) == DataQuery(filter);

    var fetched := fetch(Statement(dataQuery, args));
    if fetched.Failure? {
      return Failure(fetched.error);
    }
    var products := ScanRows(fetched.value);
    if products.Failure? {
      return Failure(products.error);
    }

    var totalPages := (total + f.limit - 1) / f.limit;
    if totalPages == 0 {
      totalPages := 1;
    }
    r := Success(ProductListResult(products.value, total, page, f.limit, totalPages));
  }

  /** The sort, then LIMIT and OFFSET on the next two placeholders, with their arguments. */
  method AppendPage(query: seq<Frag<nat>>, args: seq<Value>, sortOrderParam: string, limit: int, page: int)
    returns (query': seq<Frag<nat>>, args': seq<Value>)
    ensures query' == query + PageTail(|args|, sortOrderParam)
    ensures args' == args + [Int(limit), Int(RowOffset(page, limit))]
  {
    var argCount := |args|;
    var sortOrder := Desc;
    if sortOrderParam == "asc" {
      sortOrder := Asc;
    }
    query' := query + [OrderBy(sortOrder)];

    argCount := argCount + 1;
    query' := query' + [Limit(argCount)];
    args' := args + [Int(limit)];

    var offset := (page - 1) * limit;
    argCount := argCount + 1;
    query' := query' + [Offset(argCount)];
    args' := args' + [Int(offset)];
  }

  /** The limit and the page take no part in the predicates. */
  lemma LimitIsNotAFilter(f: ProductFilter, limit: int)
    ensures FilterPredicates(f.(limit := limit)) == FilterPredicates(f)
    ensures CountQuery(f.(limit := limit)) == CountQuery(f)
  {
  }

  function PredRank(p: Pred<Value>): nat {
    match (p.col, p.op)
    case (Name, _) => 0
    case (Category, _) => 1
    case (Price, AtLeast) => 2
    case (Price, _) => 3
    case (Stock, AtLeast) => 4
    case (_, _) => 5
  }

  /**
   * The predicates come in the fixed order name, category, minimum price, maximum price,
   * minimum stock, maximum stock, each at most once.
   */
  lemma FilterPredicatesOrdered(f: ProductFilter)
    ensures Ascending(PredRank, FilterPredicates(f))
  {
    var a := Optional(f.name != "", Pred(Name, ILike, Text(Pattern(f.name))));
    var b := Optional(f.category != "", Pred(Category, ILike, Text(Pattern(f.category))));
    var c := Optional(f.minPrice > 0, Pred(Price, AtLeast, Int(f.minPrice)));
    var d := Optional(f.maxPrice > 0, Pred(Price, AtMost, Int(f.maxPrice)));
    var e := Optional(f.minStock > 0, Pred(Stock, AtLeast, Int(f.minStock)));
    var g := Optional(f.maxStock > 0, Pred(Stock, AtMost, Int(f.maxStock)));
    FiveAscending(PredRank, a, b, c, d, e);
    AscendingExtend(PredRank, a + b + c + d + e, g, 5, 6);
  }

  /**
   * Each filter field yields its predicate exactly when it is present (text non-empty, number
   * positive), with text values wrapped in `%`; nothing else is in the list.
   */
  lemma FilterPredicatesPresence(f: ProductFilter)
    ensures Pred(Name, ILike, Text(Pattern(f.name))) in FilterPredicates(f) <==> f.name != ""
    ensures Pred(Category, ILike, Text(Pattern(f.category))) in FilterPredicates(f) <==> f.category != ""
    ensures Pred(Price, AtLeast, Int(f.minPrice)) in FilterPredicates(f) <==> f.minPrice > 0
    ensures Pred(Price, AtMost, Int(f.maxPrice)) in FilterPredicates(f) <==> f.maxPrice > 0
    ensures Pred(Stock, AtLeast, Int(f.minStock)) in FilterPredicates(f) <==> f.minStock > 0
    ensures Pred(Stock, AtMost, Int(f.maxStock)) in FilterPredicates(f) <==> f.maxStock > 0
    ensures |FilterPredicates(f)| ==
      (if f.name != "" then 1 else 0) + (if f.category != "" then 1 else 0) +
      (if f.minPrice > 0 then 1 else 0) + (if f.maxPrice > 0 then 1 else 0) +
      (if f.minStock > 0 then 1 else 0) + (if f.maxStock > 0 then 1 else 0)
  {
    var a := Optional(f.name != "", Pred(Name, ILike, Text(Pattern(f.name))));
    var b := Optional(f.category != "", Pred(Category, ILike, Text(Pattern(f.category))));
    var c := Optional(f.minPrice > 0, Pred(Price, AtLeast, Int(f.minPrice)));
    var d := Optional(f.maxPrice > 0, Pred(Price, AtMost, Int(f.maxPrice)));
    var e := Optional(f.minStock > 0, Pred(Stock, AtLeast, Int(f.minStock)));
    var g := Optional(f.maxStock > 0, Pred(Stock, AtMost, Int(f.maxStock)));
    assert FilterPredicates(f) == a + b + c + d + e + g;
    forall x ensures x in FilterPredicates(f) <==> x in a || x in b || x in c || x in d || x in e || x in g {
      InSix(a, b, c, d, e, g, x);
    }
  }

  lemma InSix<T>(a: seq<T>, b: seq<T>, c: seq<T>, d: seq<T>, e: seq<T>, g: seq<T>, x: T)
    ensures x in a + b + c + d + e + g <==> x in a || x in b || x in c || x in d || x in e || x in g
  {
  }

  lemma ConjunctsParams(head: string, ps: seq<Pred<Value>>)
    ensures Params([Keyword(head)] + Conjuncts(NumberPreds(ps, 1))) == Iota(1, |ps|)
  {
    ParamsAppend([Keyword(head)], Conjuncts(NumberPreds(ps, 1)));
    ParamsSingle(Keyword(head));
    ParamsConjuncts(ps, 1);
  }

  lemma ConjunctsBind(head: string, ps: seq<Pred<Value>>, args: seq<Value>)
    requires |ps| <= |args| && forall i :: 0 <= i < |ps| ==> args[i] == ps[i].v
    ensures Bind([Keyword(head)] + Conjuncts(NumberPreds(ps, 1)), args) == Some([Keyword(head)] + Conjuncts(ps))
  {
    BindAppend([Keyword(head)], Conjuncts(NumberPreds(ps, 1)), args);
    BindSingle(Keyword(head), args);
    BindConjuncts(ps, 1, args);
  }

  /** The predicates bind the same when further arguments follow theirs. */
  lemma ConjunctsBindPrefix(head: string, ps: seq<Pred<Value>>, extra: seq<Value>)
    ensures Bind([Keyword(head)] + Conjuncts(NumberPreds(ps, 1)), PredValues(ps) + extra) == Some([Keyword(head)] + Conjuncts(ps))
  {
    var args := PredValues(ps) + extra;
    forall i | 0 <= i < |ps| ensures args[i] == ps[i].v {
      assert args[i] == PredValues(ps)[i];
    }
    ConjunctsBind(head, ps, args);
  }

  /**
   * The count query binds exactly the predicates: placeholders 1 to m, one argument each, and
   * bound it is the count head followed by ` AND col op value` per predicate.
   */
  lemma CountQueryBinds(f: ProductFilter)
    ensures Params(CountQuery(f).frags) == Iota(1, |FilterPredicates(f)|)
    ensures WellBound(CountQuery(f))
    ensures Bind(CountQuery(f).frags, CountQuery(f).args) == Some([Keyword(CountHead)] + Conjuncts(FilterPredicates(f)))
  {
    var ps := FilterPredicates(f);
    ConjunctsParams(CountHead, ps);
    ConsecutiveIsWellBound(CountQuery(f));
    ConjunctsBind(CountHead, ps, PredValues(ps));
  }

  lemma TailParams(m: nat, d: Direction)
    ensures Params([OrderBy(d), Limit(m + 1), Offset(m + 2)]) == [m + 1, m + 2]
  {
    var x, y, z := OrderBy(d), Limit(m + 1), Offset(m + 2);
    assert [x, y, z] == [x] + [y, z];
    ParamsAppend([x], [y, z]);
    Pair(y, z, []);
    ParamsSingle(x);
    ParamsSingle(y);
    ParamsSingle(z);
  }

  lemma TailBind(m: nat, d: Direction, args: seq<Value>)
    requires m + 2 == |args|
    ensures Bind([OrderBy(d), Limit(m + 1), Offset(m + 2)], args) == Some([OrderBy(d), Limit(args[m]), Offset(args[m + 1])])
  {
    var x, y, z := OrderBy(d), Limit(m + 1), Offset(m + 2);
    assert [x, y, z] == [x] + [y, z];
    BindAppend([x], [y, z], args);
    Pair(y, z, args);
    BindSingle(x, args);
    BindSingle(y, args);
    BindSingle(z, args);
    assert BindOne(x, args) == Some(OrderBy(d));
    assert BindOne(y, args) == Some(Limit(args[m]));
    assert BindOne(z, args) == Some(Offset(args[m + 1]));
    assert [Limit(args[m])] + [Offset(args[m + 1])] == [Limit(args[m]), Offset(args[m + 1])];
    assert Bind([y, z], args) == Some([Limit(args[m]), Offset(args[m + 1])]);
    assert [OrderBy(d)] + [Limit(args[m]), Offset(args[m + 1])] == [OrderBy(d), Limit(args[m]), Offset(args[m + 1])];
  }

  /** The data query's placeholders, for any predicate list. */
  lemma PagedQueryParams(ps: seq<Pred<Value>>, d: Direction)
    ensures Params([Keyword(DataHead)] + Conjuncts(NumberPreds(ps, 1)) + [OrderBy(d), Limit(|ps| + 1), Offset(|ps| + 2)])
      == Iota(1, |ps| + 2)
  {
    var m := |ps|;
    var head := [Keyword(DataHead)] + Conjuncts(NumberPreds(ps, 1));
    var tail: seq<Frag<nat>> := [OrderBy(d), Limit(m + 1), Offset(m + 2)];
    ParamsAppend(head, tail);
    ConjunctsParams(DataHead, ps);
    TailParams(m, d);
    assert Iota(1, m) + [m + 1, m + 2] == Iota(1, m + 2);
  }

  /** The sort and the page placeholders bind after any head that binds. */
  lemma PagedQueryBind(head: seq<Frag<nat>>, bound: seq<Frag<Value>>, m: nat, d: Direction, args: seq<Value>)
    requires Bind(head, args) == Some(bound) && |args| == m + 2
    ensures Bind(head + [OrderBy(d), Limit(m + 1), Offset(m + 2)], args)
      == Some(bound + [OrderBy(d), Limit(args[m]), Offset(args[m + 1])])
  {
    TailBind(m, d, args);
    BindAppend(head, [OrderBy(d), Limit(m + 1), Offset(m + 2)], args);
  }

  /**
   * The data query carries the same predicates on $1..$m, then the sort, then LIMIT $(m+1)
   * bound to the normalised limit and OFFSET $(m+2) bound to `(page-1)*limit`.
   */
  lemma DataQueryBinds(f: ProductFilter)
    ensures Params(DataQuery(f).frags) == Iota(1, |FilterPredicates(f)| + 2)
    ensures WellBound(DataQuery(f))
    ensures var limit := EffectiveLimit(f.limit);
      Bind(DataQuery(f).frags, DataQuery(f).args) == Some(
        [Keyword(DataHead)] + Conjuncts(FilterPredicates(f)) +
        [OrderBy(DirectionOf(f.sortOrder)), Limit(Int(limit)), Offset(Int(RowOffset(EffectivePage(f.offset), limit)))])
  {
    var limit := EffectiveLimit(f.limit);
    PagedQueryParams(FilterPredicates(f), DirectionOf(f.sortOrder));
    var ps := FilterPredicates(f);
    var args := DataQuery(f).args;
    ConjunctsBindPrefix(DataHead, ps, [Int(limit), Int(RowOffset(EffectivePage(f.offset), limit))]);
    PagedQueryBind([Keyword(DataHead)] + Conjuncts(NumberPreds(ps, 1)), [Keyword(DataHead)] + Conjuncts(ps),
                   |ps|, DirectionOf(f.sortOrder), args);
    ConsecutiveIsWellBound(DataQuery(f));
  }

  /**
   * Both queries get the identical filter clause and the identical first m arguments; the count
   * query has exactly those m arguments, the data query two more.
   */
  lemma QueriesShareFilter(f: ProductFilter)
    ensures var m := |FilterPredicates(f)|;
      |CountQuery(f).args| == m && |DataQuery(f).args| == m + 2 &&
      CountQuery(f).args == DataQuery(f).args[..m] &&
      CountQuery(f).frags[1..] == FilterClause(f) && DataQuery(f).frags[1..2 * m + 1] == FilterClause(f)
  {
    var d := DataQuery(f).frags;
    assert d == [Keyword(DataHead)] + FilterClause(f) + PageTail(|FilterPredicates(f)|, f.sortOrder);
  }

  /** With no filter field set both queries are just their heads and take no predicate arguments. */
  lemma EmptyFilterSelectsAll(f: ProductFilter)
    requires f.name == "" && f.category == ""
    requires f.minPrice <= 0 && f.maxPrice <= 0 && f.minStock <= 0 && f.maxStock <= 0
    ensures CountQuery(f) == Statement([Keyword(CountHead)], [])
    ensures DataQuery(f).frags == [Keyword(DataHead), OrderBy(DirectionOf(f.sortOrder)), Limit(1), Offset(2)]
  {
    assert FilterPredicates(f) == [];
  }

  // ---------------------------------------------------------------------------------------------
  // Search

  const SearchHead: string := "SELECT id, name, price, stock, category, created_at, updated_at FROM products WHERE "

  /** `name ILIKE $1 OR category ILIKE $1`, sorted by creation time, with `%term%` as $1. */
  function SearchQuery(term: string, sortOrder: string): Statement {
    Statement(
      [Keyword(SearchHead), Cond(Name, ILike, 1), Keyword(" OR "), Cond(Category, ILike, 1), OrderBy(DirectionOf(sortOrder))],
      [Text(Pattern(term))])
  }

  /** The search binds its single pattern to both the name and the category test. */
  lemma SearchQueryBinds(term: string, sortOrder: string)
    ensures Params(SearchQuery(term, sortOrder).frags) == [1, 1]
    ensures WellBound(SearchQuery(term, sortOrder))
    ensures Bind(SearchQuery(term, sortOrder).frags, SearchQuery(term, sortOrder).args) == Some(
      [Keyword(SearchHead), Cond(Name, ILike, Text(Pattern(term))), Keyword(" OR "),
       Cond(Category, ILike, Text(Pattern(term))), OrderBy(DirectionOf(sortOrder))])
  {
    SearchParams(DirectionOf(sortOrder));
    SearchBind(Text(Pattern(term)), DirectionOf(sortOrder));
    assert 1 in Params(SearchQuery(term, sortOrder).frags);
  }

  lemma SearchParams(d: Direction)
    ensures Params([Keyword(SearchHead), Cond(Name, ILike, 1), Keyword(" OR "), Cond(Category, ILike, 1), OrderBy(d)]) == [1, 1]
  {
    var k1: Frag<nat>, c1: Frag<nat>, k2: Frag<nat>, c2: Frag<nat>, o: Frag<nat> :=
      Keyword(SearchHead), Cond(Name, ILike, 1), Keyword(" OR "), Cond(Category, ILike, 1), OrderBy(d);
    assert [k1, c1, k2, c2, o] == [k1, c1] + [k2, c2] + [o];
    ParamsAppend([k1, c1] + [k2, c2], [o]);
    ParamsAppend([k1, c1], [k2, c2]);
    Pair(k1, c1, []);
    Pair(k2, c2, []);
    ParamsSingle(k1);
    ParamsSingle(c1);
    ParamsSingle(k2);
    ParamsSingle(c2);
    ParamsSingle(o);
  }

  lemma SearchBind(pat: Value, d: Direction)
    ensures Bind([Keyword(SearchHead), Cond(Name, ILike, 1), Keyword(" OR "), Cond(Category, ILike, 1), OrderBy(d)], [pat])
      == Some([Keyword(SearchHead), Cond(Name, ILike, pat), Keyword(" OR "), Cond(Category, ILike, pat), OrderBy(d)])
  {
    var args := [pat];
    var k1: Frag<nat>, c1: Frag<nat>, k2: Frag<nat>, c2: Frag<nat>, o: Frag<nat> :=
      Keyword(SearchHead), Cond(Name, ILike, 1), Keyword(" OR "), Cond(Category, ILike, 1), OrderBy(d);
    var head: seq<Frag<nat>> := [k1];
    BindSingle(k1, args);
    BindStep(head, c1, k2, args, Cond(Name, ILike, pat), Keyword(" OR "));
    BindStep(head + [c1, k2], c2, o, args, Cond(Category, ILike, pat), OrderBy(d));
    assert head + [c1, k2] + [c2, o] == [k1, c1, k2, c2, o];
    var bound: seq<Frag<Value>> := [Keyword(SearchHead)];
    assert bound + [Cond(Name, ILike, pat), Keyword(" OR ")] + [Cond(Category, ILike, pat), OrderBy(d)]
      == [Keyword(SearchHead), Cond(Name, ILike, pat), Keyword(" OR "), Cond(Category, ILike, pat), OrderBy(d)];
  }

  /**
   * `SearchProducts`: one query matching the term anywhere in the name or the category, newest
   * first unless the order is "asc"; the rows as scanned, or the first error.
   */
  method SearchProducts(term: string, sortOrder: string, fetch: Statement -> Result<seq<ScannedRow>, Error>)
    returns (r: Result<seq<Product>, Error>)
    ensures fetch(SearchQuery(term, sortOrder)).Failure? ==> r == Failure(fetch(SearchQuery(term, sortOrder)).error)
    ensures fetch(SearchQuery(term, sortOrder)).Success? ==> ScanOutcome(fetch(SearchQuery(term, sortOrder)).value, r)
  {
    var order := Desc;
    if sortOrder == "asc" {
      order := Asc;
    }
    var query := [Keyword(SearchHead), Cond(Name, ILike, 1), Keyword(" OR "), Cond(Category, ILike, 1), OrderBy(order)];
    var fetched := fetch(Statement(query, [Text(Pattern(term))]));
    if fetched.Failure? {
      return Failure(fetched.error);
    }
    r := ScanRows(fetched.value);
  }
}
