# Stock dashboard back end: model layer and product routes in Dafny

This project models the core of a small inventory back end written in Go. The back end uses
PostgreSQL through `database/sql` and serves HTTP through gin. It models three parts:

- **Product model** (`models/product.go`):
  - the partial product update, which builds `UPDATE products SET … WHERE id = $n` one present
    field at a time;
  - the filtered, paginated listing, which shares one filter clause between a `COUNT(*)` query
    and a data query with `ORDER BY`, `LIMIT` and `OFFSET`;
  - the search by name or category.
- **User model** (`models/user.go`):
  - registration, with the email lower-cased, the password hashed and the role defaulted to
    "staff";
  - the credential check;
  - deletion by id, reporting "user not found" when no row was affected;
  - the partial user update.
- **Product routes** (`routes/product.go`):
  - the normalisation of listing query parameters;
  - the guard on the search term and the normalisation of the search sort order;
  - the 400 / 404 / 500 responses of the per-id handlers.

How the model is built:

- **Statements.** A statement is a sequence of SQL fragments plus a positional argument list
  (`Sql`). Placeholder `$n` binds argument `n`. `Render` gives the SQL text.
- **Storage engine.** The engine is a class over two tables held as maps (`Storage.Database`).
  - It executes an UPDATE by binding and parsing the statement, so a builder is proved correct by
    what its statement does to the table.
  - It enforces the `CHECK (price > 0)` and `CHECK (stock >= 0)` constraints and the UNIQUE email.
- **Imperative code.** Step-by-step code becomes methods in the same shape as the source:
  - the query builders, each with its running placeholder counter;
  - the row-scanning loop;
  - the request handlers.
  Each method is proved equal to a declarative description, and lemmas state the properties of
  that description.
- **Go arithmetic.** Go's wrapping 64-bit `int` arithmetic is written out with `Strconv.Wrap64`
  and `Strconv.TruncDiv`. It is used for the page count and the row offset of the listing only in
  the `Pagination.*Int64` members, which show where it departs from the intended result (see
  "## Findings"). The listing itself computes both without wrap-around (see "## Left out").

Behaviour of the code that the model keeps:

- `ProductUpdate.Update` does not check that the product exists. An id with no row changes
  nothing and is reported as a success. `UserUpdate.Update` does check existence first.
- `Product.Delete` does not check the rows affected, so deleting an absent product reports
  success. `User.Delete` does check them.
- A listing `limit` or `page` parameter that is given but is not a positive integer leaves the
  filter field at 0. The model layer then turns it into 10 or 1.
- `UserUpdate.Update` stores the email as given, without lower-casing it, while registration and
  login lower-case it.

## Model

| member | source | states |
|---|---|---|
| Strconv.AtoiItoa | routes/product.go:81 | every 64-bit integer printed in decimal parses back to itself |
| Strconv.AtoiRejects | routes/product.go:30-39 | examples: text with a letter or a decimal point, and the empty text, do not parse as an integer; a leading `+` is accepted |
| Pagination.EffectiveLimit | models/product.go:170-172 | the page size is at least 1: a positive limit is kept and any other becomes 10 |
| Pagination.EffectivePage | models/product.go:176-179 | the page is at least 1: a positive page is kept and any other becomes 1 |
| Pagination.RowOffsetBounds | models/product.go:245 | the offset of a page ≥ 1 is a non-negative multiple of the limit, equal to (page-1)·limit, and the next page starts one limit later |
| Pagination.TotalPagesIsCeiling | models/product.go:271-274 | the page count is max(1, ceil(total/limit)): the pages hold every row, and the last page is non-empty unless there are no rows |
| Pagination.TotalPagesExamples | models/product.go:271-274 | example: 25 rows at 10 per page make 3 pages, 0 rows make 1 page, 10 make 1, 11 make 2 and 12 at 5 per page make 3 |
| Pagination.FirstPagesArePrefix | models/product.go:241-248 | reading pages 1 to n one after another gives the first n·limit rows, or all rows when there are fewer |
| Pagination.PagesCoverAllRows | models/product.go:241-274 | pages 1 to `totalPages` together return every matching row exactly once and in order, and the page after the last is empty |
| Pagination.SecondPageOfTwelve | models/product.go:241-274 | example: with 12 matching rows at 5 per page, page 2 holds rows 6 to 10 (5 rows) and there are 3 pages |
| Pagination.TotalPagesInt64Overflows | models/product.go:271 | in 64-bit arithmetic, 2 rows with limit 9223372036854775807 give -1 pages where the page count is 1 |
| Pagination.RowOffsetInt64Agrees | models/product.go:245 | when (page-1)·limit fits in 64 bits, the 64-bit offset equals the row offset |
| Pagination.RowOffsetInt64Overflows | models/product.go:245 | page 4611686018427387905 with limit 2 gives the negative 64-bit offset -2^63 where the row offset is 2^63 |
| Storage.UpdateStatementBinds | models/product.go:84-114 | an update statement with k ≥ 1 fields numbers its placeholders 1 to k+1 in order and is well bound; bound, the engine reads back exactly those assignments and that key |
| Storage.UpdatePreservesConstraints | db/db.go:46-71 | no UPDATE the model's engine runs, well-formed or not, can leave a product breaking `price > 0` or `stock >= 0`, a product under another id, or two users with one email (the engine leaves `id` and `created_at` alone, see "## Left out") |
| Storage.Database.ExecProductUpdate | models/product.go:116 | running an UPDATE on products gives the engine's outcome and new table, keeps the table constraints and leaves users unchanged |
| Storage.Database.ExecUserUpdate | models/user.go:150 | running an UPDATE on users gives the engine's outcome and new table, keeps the email unique and leaves products unchanged |
| Storage.Database.InsertUser | models/user.go:57-59 | an email already present is refused with nothing changed; otherwise the row is stored under a fresh id, which is returned |
| Storage.Database.DeleteUser | models/user.go:155-164 | the row with that id is gone afterwards, and the rows affected are 1 exactly when it existed, otherwise 0 |
| Storage.Database.DeleteProduct | models/product.go:120-129 | the product with that id is gone afterwards and nothing else changes, whether or not it existed |
| Storage.Database.UserExists | models/user.go:111-118 | the existence query answers true exactly when a user has that id |
| Storage.Database.QueryProduct | models/product.go:48-60 | looking a product up by id returns its row when there is one, and "no rows" exactly when there is none |
| Storage.Database.QueryUserByEmail | models/user.go:26-33 | the lookup by email finds the (unique) user with exactly that email, and finds nothing exactly when no user has it |
| ProductModel.BuildProductUpdate | models/product.go:84-114 | building the update with a running counter gives the statement that sets each present field in the order name, price, stock, category, then `updated_at`, then `WHERE id = $(k+2)` |
| ProductModel.ProductUpdateFields | models/product.go:88-111 | a patch with k present fields writes k+1 assignments: each field at most once, in the fixed order, with the timestamp last |
| ProductModel.ProductUpdateBinds | models/product.go:84-114 | the update's placeholders are 1 to k+2 in order, the time is argument k+1 and the id is argument k+2; the engine reads no separator before the first assignment or before WHERE |
| ProductModel.PatchedByFields | models/product.go:88-111 | applying the update's assignments to a row replaces exactly the present fields and stamps the time |
| ProductModel.ProductUpdateEffect | models/product.go:81-117 | the update changes nothing for an absent id (without error); otherwise it writes exactly the patched row, or fails with nothing changed when the row would break a CHECK constraint |
| ProductModel.ProductUpdate.Update | models/product.go:81-118 | stamps `UpdatedAt` with the current time; the table afterwards and the error are those the engine gives for the built statement |
| ProductModel.ScanRows | models/product.go:256-269 | the `rows.Next` loop returns every row in order when all of them scan, otherwise the error of the first row that does not |
| ProductModel.DirectionOf | models/product.go:235-238 | the listing sorts ascending exactly when the sort order is "asc" |
| ProductModel.BuildFilterClause | models/product.go:188-224 | the clause grown field by field is ` AND col op $i` for each filter predicate in order, numbered from 1, with the predicate values as arguments |
| ProductModel.FilterPredicatesOrdered | models/product.go:190-224 | the predicates come in the order name, category, minimum price, maximum price, minimum stock, maximum stock, each at most once |
| ProductModel.FilterPredicatesPresence | models/product.go:190-224 | each predicate is present exactly when its field is set (text non-empty, number positive), text values are wrapped in `%`, and the count of predicates is the count of set fields |
| ProductModel.CountQueryBinds | models/product.go:184-233 | the count query numbers its placeholders 1 to m, one argument per predicate, and binds each predicate to its own value |
| ProductModel.DataQueryBinds | models/product.go:186-250 | the data query binds the same predicates to $1..$m, then the sort, then `LIMIT $(m+1)` bound to the normalised limit and `OFFSET $(m+2)` bound to (page-1)·limit, computed without 64-bit wrap-around |
| ProductModel.QueriesShareFilter | models/product.go:226-227 | both queries carry the identical filter clause and the identical first m arguments; the data query has two more |
| ProductModel.EmptyFilterSelectsAll | models/product.go:184-227 | with no filter field set, both queries are their bare heads and the data query takes only the limit and offset |
| ProductModel.GetProductsWithPagination | models/product.go:169-283 | a failing count, a failing fetch or a failing row scan returns that error; otherwise the result holds the scanned rows, the count, the normalised page and limit, and `TotalPages` (computed without 64-bit wrap-around) |
| ProductModel.SearchQueryBinds | models/product.go:134-146 | the search binds its one pattern `%term%` to both the name test and the category test |
| ProductModel.SearchProducts | models/product.go:131-167 | the search returns the fetch's error, or the scan outcome of its rows |
| UserModel.Lower | models/user.go:30 | lower-casing keeps the length, maps each character separately and leaves no upper-case ASCII letter |
| UserModel.LowerIdempotent | models/user.go:30 | lower-casing twice is lower-casing once, and lower-case text is left unchanged |
| UserModel.LowerIgnoresCase | models/user.go:59 | example: "Alice@Example.COM" and "alice@example.com" are stored as the same email |
| UserModel.SavedUserCanLogIn | models/user.go:25-66 | a user stored by registration can log in with the same password and the email in any letter case |
| UserModel.UserFields | models/user.go:124-144 | a user update sets at most three fields, and none exactly when email, password and role are all empty |
| UserModel.BuildUserUpdate | models/user.go:120-148 | building the user update gives the hasher's error, or `NoFieldsToUpdate` for an empty update, or the statement that sets the non-empty fields joined by ", " with `WHERE id = $(k+1)` |
| UserModel.EditedByFields | models/user.go:124-144 | applying the update's assignments to a row replaces exactly the non-empty fields, the password by its hash |
| UserModel.UserUpdateEffect | models/user.go:120-151 | an update with fields changes nothing for an absent id; otherwise it writes exactly the edited row, or fails with nothing changed when the new email belongs to another user |
| UserModel.UserUpdateText | models/user.go:120-148 | the text as the code builds it: with fields, it is the rendering of the statement `BuildUserUpdate` issues; with none, it is "UPDATE users SE WHERE id = $1" |
| UserModel.EmptyUpdateTextIsMalformed | models/user.go:146-147 | every update statement renders starting with "UPDATE users SET ", and the text sent for an empty update does not |
| UserModel.User.Save | models/user.go:46-66 | an empty role becomes "staff"; a hashing error or a taken email changes no user; otherwise a fresh id is stored and its row holds the lower-cased email, the hash and the role |
| UserModel.User.ValidateCredentials | models/user.go:25-44 | an unknown email gives "no rows"; otherwise the id and role are copied from the row, and the check succeeds exactly when the password matches the stored hash |
| UserModel.User.Delete | models/user.go:154-171 | the user is gone afterwards; the error is "user not found" exactly when no row existed |
| UserModel.UserUpdate.Update | models/user.go:110-152 | an absent id gives "user not found"; a hashing error or an empty update gives `NoFieldsToUpdate` (the corrected behaviour, see "## Findings"); either way nothing changes; otherwise the non-empty fields are written unless the email is taken |
| ProductRoutes.Positive | routes/product.go:45-58 | a `limit` or `page` parameter counts exactly when it parses as an integer and is positive |
| ProductRoutes.FilterFromQuery | routes/product.go:12-58 | filling the filter field by field from the query string gives `QueryFilter` |
| ProductRoutes.QueryLimit | routes/product.go:45-51 | the page size used is the `limit` parameter when it is a positive integer, otherwise 10; an absent parameter stores 10 and an invalid one stores 0 |
| ProductRoutes.QueryPage | routes/product.go:52-58 | the page used is the `page` parameter when it is a positive integer, otherwise 1; an absent parameter stores 1 and an invalid one stores 0 |
| ProductRoutes.QuerySort | routes/product.go:40-44 | only "asc" and "desc" reach the filter, and the listing sorts ascending exactly when the parameter is "asc" |
| ProductRoutes.QueryPredicates | routes/product.go:14-39 | a range parameter filters exactly when it parses and is positive, so one that does not parse is ignored; a text parameter filters exactly when it is non-empty |
| ProductRoutes.InvalidParametersAreIgnored | routes/product.go:20-58 | example: a request whose parameters are all invalid lists everything, 10 per page, first page, newest first |
| ProductRoutes.GetProducts | routes/product.go:11-77 | 200 exactly when the count, the fetch and every row scan succeed, with count = number of products and the listing's page, limit, total and totalPages; any failure gives 500 "Failed to fetch products" |
| ProductRoutes.GetProduct | routes/product.go:79-102 | an id that does not parse gives 400 "Invalid product ID", an absent product 404 "Product not found", otherwise 200 with the row |
| ProductRoutes.UpdateProduct | routes/product.go:128-158 | a bad id or a body that does not bind gives 400 with no change; otherwise the table is what the update leaves, with 500 on an engine error and 200 with the update record otherwise |
| ProductRoutes.DeleteProduct | routes/product.go:160-183 | a bad id gives 400 with no change; otherwise the product is removed and the response is 200 with the id |
| ProductRoutes.SearchSortKeepsDirection | routes/product.go:193-196 | the search sort is always "asc" or "desc", and it selects the same direction the model layer would choose from the raw parameter |
| ProductRoutes.SearchProducts | routes/product.go:185-212 | an empty `q` gives 400 "Search term is required" before any query; otherwise 200 exactly when the search and every row scan succeed, with the products, their count and the term; otherwise 500 "Failed to search products" |

## Left out

- Prices are whole numbers, not `float64`. `strconv.ParseFloat` is a parameter `parseFloat`, and decimal rounding of `DECIMAL(10, 2)` is not modelled.
- The clock (`time.Now`) is a parameter `now`. Timestamps are numbers.
- The listing and search SELECTs, and the `ILIKE` matching they do, are not executed. Their results are parameters (`count`, `fetch`), and the model proves which statements are handed to them. Whether the count and the fetched page come from one consistent snapshot is not modelled.
- bcrypt hashing and checking (`utils.HashPassword`, `utils.CheckPasswordHash`) are parameters. The hasher is a function, so it is deterministic, and it either fails or returns a hash.
- Engine errors other than constraint violations are not modelled. This covers connection failures, and failures of DELETE, of the existence query and of `RowsAffected`. The handler branch that answers 500 "Failed to delete product" therefore does not occur in the model.
- ProductRoutes.GetProduct: 404 is given for a missing row. The code gives 404 for any error of `Product.Get`, and other errors are not modelled.
- Gin's JSON binding and its `binding:"…"` tags are not modelled. A request body either binds, as `Some(patch)`, or does not, as `None`.
- `Product.Save`, `CreateProduct`, `User.Get`, `GetAllStaff`, `routes/user.go`, `routes/routes.go`, JWT handling in `middleware/auth.go`, `config/config.go`, `main.go` and the table creation are not part of this model. The table constraints from `db/db.go` are kept as invariants of the engine.
- The `fmt.Println` debug line in the listing is left out.
- Go's distinction between a nil slice and an empty slice in the JSON output is not modelled.
- UserModel.Lower: lower-cases ASCII letters only, whereas `strings.ToLower` also folds other Unicode letters.
- User ids are abstract strings, whereas the database uses a `SERIAL` integer. The engine picks any id not in use.
- Strconv.Atoi: accepts exactly the 64-bit range, as `strconv.Atoi` and `strconv.ParseInt(s, 10, 64)` do on a 64-bit platform. Underscores and base prefixes are rejected by both.
- Storage.UpdatePreservesConstraints: the model's engine ignores an assignment whose value has the wrong kind for its column, where PostgreSQL would report a type error. It also ignores assignments to `id` and `created_at` (and to columns of the other table), which PostgreSQL would carry out. So the lemma's "no product under another id" depends on that narrower engine. The builders never produce such assignments.
- ProductModel.DataQueryBinds: binds OFFSET to (page-1)·limit in unbounded arithmetic, which is the corrected offset from "## Findings". Go computes it in wrapping 64-bit `int` (models/product.go:245), and the two differ only when the product exceeds 2^63-1 (`Pagination.RowOffsetInt64Agrees`, `Pagination.RowOffsetInt64Overflows`).
- ProductModel.GetProductsWithPagination: hands the fetch the unbounded offset, as in ProductModel.DataQueryBinds, and reports the unbounded page count `Pagination.TotalPages`. Go wraps both in 64 bits (models/product.go:245, :271), which differs for a limit or a page near 2^63 (`Pagination.TotalPagesInt64Overflows`, `Pagination.RowOffsetInt64Overflows`).
- ProductRoutes.GetProducts: answers with the listing of ProductModel.GetProductsWithPagination, so its `totalPages` and the offset it asks for are the unbounded ones. The route's `strconv.Atoi` guards let such a limit or page through.
- UserModel.UserUpdate.Update: for an existing id with email, password and role all empty, it returns `NoFieldsToUpdate` and sends nothing, which is the corrected behaviour from "## Findings". The code sends "UPDATE users SE WHERE id = $1" (models/user.go:146-150) and returns the database's syntax error. The table is unchanged in both cases.

## Findings

| source | as written | input that shows it | evidently intended | confidence | as-written member | corrected member |
|---|---|---|---|---|---|---|
| models/user.go:146 | `query[:len(query)-2]` always cuts two characters, so when no field is set it cuts "T " from "SET " and sends "UPDATE users SE WHERE id = $1" | a `UserUpdate` for an existing id with email, password and role all empty | an update with nothing to set is refused before any statement is sent | high (not executed) | UserModel.UserUpdateText | UserModel.BuildUserUpdate |
| models/product.go:271 | `(total + filter.Limit - 1) / filter.Limit` in 64-bit `int` wraps for a very large limit | `limit=9223372036854775807` with 2 matching rows gives totalPages = -1 | ceil(total/limit) floored to 1, here 1 | high (not executed) | Pagination.TotalPagesInt64Overflows | Pagination.TotalPagesIsCeiling |
| models/product.go:245 | `(page - 1) * filter.Limit` in 64-bit `int` wraps for a very large page | `page=4611686018427387905&limit=2` gives offset -9223372036854775808, which the engine refuses | the offset (page-1)·limit, a non-negative number | high (not executed) | Pagination.RowOffsetInt64Overflows | Pagination.RowOffsetBounds |
