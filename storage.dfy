/**
 * The relational store the model layer talks to: the two tables of db/db.go with their
 * constraints, and how the storage engine executes the UPDATE, INSERT and DELETE statements the
 * core issues. UPDATE statements are interpreted from their bound fragments, so what a statement
 * does to a row follows from its text and its arguments, not from the builder that made it.
 */
module Storage {
  import opened Wrappers
  import opened Sql

  /** A row of `products`; also the `Product` record of the model layer. */
  datatype Product = Product(
    id: int, name: string, price: int, stock: int, category: string, createdAt: int, updatedAt: int)

  /** A row of `users`; `password` holds the password hash. */
  datatype UserRow = UserRow(email: string, password: string, role: string)

  datatype Error =
    | NoRows                    // a single-row query found nothing
    | UserNotFound              // "user not found"
    | InvalidCredentials        // "invalid email or password"
    | NoFieldsToUpdate          // a user update with nothing to set
    | Hashing(reason: string)   // the password hasher failed
    | Engine(reason: string)    // any failure the storage engine reports

  function Message(e: Error): string {
    match e
    case NoRows => "sql: no rows in result set"
    case UserNotFound => "user not found"
    case InvalidCredentials => "invalid email or password"
    case NoFieldsToUpdate => "no fields to update"
    case Hashing(r) => r
    case Engine(r) => r
  }

  const ProductsUpdateHead: string := "UPDATE products SET "
  const UsersUpdateHead: string := "UPDATE users SET "

  /** The CHECK constraints of `products`: a positive price and a non-negative stock. */
  predicate SatisfiesChecks(p: Product) {
    p.price > 0 && p.stock >= 0
  }

  /** The UNIQUE constraint on `users.email`. */
  predicate UniqueEmails(users: map<string, UserRow>) {
    forall a, b :: a in users && b in users && users[a].email == users[b].email ==> a == b
  }

  predicate EmailTaken(users: map<string, UserRow>, email: string) {
    exists id :: id in users && users[id].email == email
  }

  // ---------------------------------------------------------------------------------------------
  // UPDATE statements

  /** A SET list as the engine accepts it: assignments with one separator between each two. */
  predicate SetList(ms: seq<Frag<Value>>) {
    |ms| % 2 == 1 &&
    (forall i :: 0 <= i < |ms| && i % 2 == 0 ==> ms[i].Assign?) &&
    (forall i :: 0 <= i < |ms| && i % 2 == 1 ==> ms[i].Sep?)
  }

  /** The SET list and the key of `<head> <set list> WHERE id = <key>`, or None for any other shape. */
  function ParseUpdate(bound: seq<Frag<Value>>, head: string): Option<(seq<Frag<Value>>, Value)> {
    if |bound| >= 3 && bound[0] == Keyword(head) && bound[|bound| - 2] == Keyword(" WHERE ")
       && bound[|bound| - 1].Cond? && bound[|bound| - 1].col == Id && bound[|bound| - 1].op == Eq
       && SetList(bound[1..|bound| - 2])
    then Some((bound[1..|bound| - 2], bound[|bound| - 1].p))
    else None
  }

  function AssignProduct(row: Product, f: Frag<Value>): Product {
    match f
    case Assign(Name, Text(s)) => row.(name := s)
    case Assign(Price, Int(i)) => row.(price := i)
    case Assign(Stock, Int(i)) => row.(stock := i)
    case Assign(Category, Text(s)) => row.(category := s)
    case Assign(UpdatedAt, Time(t)) => row.(updatedAt := t)
    case _ => row
  }

  function AssignUser(row: UserRow, f: Frag<Value>): UserRow {
    match f
    case Assign(Email, Text(s)) => row.(email := s)
    case Assign(Password, Text(s)) => row.(password := s)
    case Assign(Role, Text(s)) => row.(role := s)
    case _ => row
  }

  /** The row after the fragments of a SET list, left to right. */
  function ApplySet<R>(assign: (R, Frag<Value>) -> R, row: R, ms: seq<Frag<Value>>): R {
    if ms == [] then row else assign(ApplySet(assign, row, ms[..|ms| - 1]), ms[|ms| - 1])
  }

  /** The row after assigning the fields one by one, left to right. */
  function ApplyFields<R>(assign: (R, Frag<Value>) -> R, row: R, fs: seq<Field<Value>>): R {
    if fs == [] then row
    else assign(ApplyFields(assign, row, fs[..|fs| - 1]), Assign(fs[|fs| - 1].col, fs[|fs| - 1].v))
  }

  /** Separators do not change a row, so a joined SET list assigns exactly its fields, in order. */
  lemma {:induction false} ApplyJoined<R>(assign: (R, Frag<Value>) -> R, row: R, fs: seq<Field<Value>>, sep: string)
    requires forall r: R, t: string :: assign(r, Sep(t)) == r
    ensures ApplySet(assign, row, Joined(fs, sep)) == ApplyFields(assign, row, fs)
  {
    if |fs| == 1 {
      var one := Joined(fs, sep);
      assert one[..0] == [];
      assert fs[..0] == [];
    } else if |fs| > 1 {
      var init := fs[..|fs| - 1];
      var last := fs[|fs| - 1];
      var j := Joined(init, sep);
      var full := Joined(fs, sep);
      assert full == j + [Sep(sep), Assign(last.col, last.v)];
      assert full[..|full| - 1] == j + [Sep(sep)];
      assert (j + [Sep(sep)])[..|j|] == j;
      ApplyJoined(assign, row, init, sep);
    }
  }

  lemma {:induction false} ApplyFieldsAppend<R>(assign: (R, Frag<Value>) -> R, row: R, a: seq<Field<Value>>, b: seq<Field<Value>>)
    ensures ApplyFields(assign, row, a + b) == ApplyFields(assign, ApplyFields(assign, row, a), b)
  {
    if b == [] {
      assert a + b == a;
    } else {
      assert (a + b)[..|a + b| - 1] == a + b[..|b| - 1];
      ApplyFieldsAppend(assign, row, a, b[..|b| - 1]);
    }
  }

  lemma ApplyOneField<R>(assign: (R, Frag<Value>) -> R, row: R, f: Field<Value>)
    ensures ApplyFields(assign, row, [f]) == assign(row, Assign(f.col, f.v))
  {
    assert [f][..0] == [];
  }

  /** `<head><fields joined by sep> WHERE id = $(k+1)`, bound to the field values and then the key. */
  function UpdateStatement(head: string, fs: seq<Field<Value>>, sep: string, key: Value): Statement {
    Statement([Keyword(head)] + Joined(NumberFields(fs, 1), sep) + [Keyword(" WHERE "), Cond(Id, Eq, |fs| + 1)],
              FieldValues(fs) + [key])
  }

  /** Appending one more numbered field to a SET list under construction. */
  lemma AppendOneField(written: seq<Field<Value>>, f: Field<Value>, sep: string)
    ensures NumberFields(written + [f], 1) == NumberFields(written, 1) + [Field(f.col, |written| + 1)]
    ensures Terminated(NumberFields(written + [f], 1), sep)
      == Terminated(NumberFields(written, 1), sep) + [Assign(f.col, |written| + 1), Sep(sep)]
    ensures FieldValues(written + [f]) == FieldValues(written) + [f.v]
  {
    assert NumberFields(written + [f], 1) == NumberFields(written, 1) + [Field(f.col, |written| + 1)];
    TerminatedAppend(NumberFields(written, 1), Field(f.col, |written| + 1), sep);
  }

  /**
   * An update statement with at least one field numbers its placeholders 1 to k+1 in order, so
   * it is well bound; bound, it is the fields with their own values and the key in the WHERE
   * clause, and the engine reads it back as exactly that SET list and that key.
   */
  lemma UpdateStatementBinds(head: string, fs: seq<Field<Value>>, sep: string, key: Value)
    requires fs != []
    ensures Params(UpdateStatement(head, fs, sep, key).frags) == Iota(1, |fs| + 1)
    ensures WellBound(UpdateStatement(head, fs, sep, key))
    ensures Bind(UpdateStatement(head, fs, sep, key).frags, UpdateStatement(head, fs, sep, key).args)
      == Some(BoundUpdate(head, fs, sep, key))
    ensures ParseUpdate(BoundUpdate(head, fs, sep, key), head) == Some((Joined(fs, sep), key))
  {
    UpdateParams(head, fs, sep, key);
    ConsecutiveIsWellBound(UpdateStatement(head, fs, sep, key));
    UpdateBind(head, fs, sep, key);
    UpdateParse(head, fs, sep, key);
  }

  /** What an update statement reads once bound. */
  function BoundUpdate(head: string, fs: seq<Field<Value>>, sep: string, key: Value): seq<Frag<Value>> {
    [Keyword(head)] + Joined(fs, sep) + [Keyword(" WHERE "), Cond(Id, Eq, key)]
  }

  lemma UpdateParams(head: string, fs: seq<Field<Value>>, sep: string, key: Value)
    ensures Params(UpdateStatement(head, fs, sep, key).frags) == Iota(1, |fs| + 1)
  {
    var a: seq<Frag<nat>> := [Keyword(head)];
    var b := Joined(NumberFields(fs, 1), sep);
    var c: seq<Frag<nat>> := [Keyword(" WHERE "), Cond(Id, Eq, |fs| + 1)];
    assert UpdateStatement(head, fs, sep, key).frags == a + b + c;
    assert Params(a + b) == Iota(1, |fs|) by {
      ParamsAppend(a, b);
      ParamsSingle(Keyword(head));
      ParamsJoined(fs, 1, sep);
    }
    assert Params(a + b + c) == Params(a + b) + [|fs| + 1] by {
      ParamsAppend(a + b, c);
      WhereParams(|fs| + 1);
    }
    IotaSnoc(1, |fs|);
  }

  lemma IotaSnoc(start: nat, count: nat)
    ensures Iota(start, count) + [start + count] == Iota(start, count + 1)
  {
  }

  lemma WhereParams(n: nat)
    ensures Params([Keyword(" WHERE "), Cond(Id, Eq, n)]) == [n]
  {
    Pair(Keyword(" WHERE "), Cond(Id, Eq, n), []);
    ParamsSingle(Keyword(" WHERE "));
    ParamsSingle(Cond(Id, Eq, n));
  }

  lemma WhereBind(n: nat, args: seq<Value>)
    requires 1 <= n <= |args|
    ensures Bind([Keyword(" WHERE "), Cond(Id, Eq, n)], args) == Some([Keyword(" WHERE "), Cond(Id, Eq, args[n - 1])])
  {
    var x, y := Keyword(" WHERE "), Cond(Id, Eq, n);
    Pair(x, y, args);
    BindSingle(x, args);
    BindSingle(y, args);
    assert [Keyword(" WHERE ")] + [Cond(Id, Eq, args[n - 1])] == [Keyword(" WHERE "), Cond(Id, Eq, args[n - 1])];
  }

  lemma UpdateBind(head: string, fs: seq<Field<Value>>, sep: string, key: Value)
    ensures Bind(UpdateStatement(head, fs, sep, key).frags, UpdateStatement(head, fs, sep, key).args)
      == Some(BoundUpdate(head, fs, sep, key))
  {
    var st := UpdateStatement(head, fs, sep, key);
    var args := st.args;
    var a: seq<Frag<nat>> := [Keyword(head)];
    var b := Joined(NumberFields(fs, 1), sep);
    var c: seq<Frag<nat>> := [Keyword(" WHERE "), Cond(Id, Eq, |fs| + 1)];
    assert st.frags == a + b + c;
    BindAppend(a + b, c, args);
    BindAppend(a, b, args);
    BindSingle(Keyword(head), args);
    BindJoined(fs, 1, sep, args);
    assert args[|fs|] == key;
    WhereBind(|fs| + 1, args);
  }

  lemma UpdateParse(head: string, fs: seq<Field<Value>>, sep: string, key: Value)
    requires fs != []
    ensures ParseUpdate(BoundUpdate(head, fs, sep, key), head) == Some((Joined(fs, sep), key))
  {
    var j := Joined(fs, sep);
    var bound := BoundUpdate(head, fs, sep, key);
    JoinedIsSetList(fs, sep);
    assert bound[1..|bound| - 2] == j;
  }

  /** A non-empty joined SET clause is a SET list the engine accepts. */
  lemma JoinedIsSetList(fs: seq<Field<Value>>, sep: string)
    requires fs != []
    ensures SetList(Joined(fs, sep))
  {
    var j := Joined(fs, sep);
    JoinedShape(fs, sep);
    forall i | 0 <= i < |j| && i % 2 == 0 ensures j[i].Assign? {
      assert j[2 * (i / 2)] == Assign(fs[i / 2].col, fs[i / 2].v);
    }
    forall i | 0 <= i < |j| && i % 2 == 1 ensures j[i].Sep? {
      assert j[2 * (i / 2) + 1] == Sep(sep);
    }
  }

  /**
   * What the engine does with an UPDATE on `products`: the outcome (rows affected or error) and
   * the table afterwards. A statement the engine cannot bind or parse, or a row that would break
   * a CHECK constraint, is an error that leaves the table as it was; an id with no row affects
   * nothing and is not an error.
   */
  function UpdateProducts(products: map<int, Product>, st: Statement): (Result<nat, Error>, map<int, Product>) {
    if !WellBound(st) then (Failure(Engine("bind")), products)
    else
      match ParseUpdate(Bind(st.frags, st.args).value, ProductsUpdateHead)
      case None => (Failure(Engine("syntax error")), products)
      case Some((sets, key)) =>
        if key.Int? && key.i in products then
          var row := ApplySet(AssignProduct, products[key.i], sets);
          if SatisfiesChecks(row) then (Success(1), products[key.i := row])
          else (Failure(Engine("check constraint")), products)
        else (Success(0), products)
  }

  /** The same for `users`, where the UNIQUE constraint on the email applies. */
  function UpdateUsers(users: map<string, UserRow>, st: Statement): (Result<nat, Error>, map<string, UserRow>) {
    if !WellBound(st) then (Failure(Engine("bind")), users)
    else
      match ParseUpdate(Bind(st.frags, st.args).value, UsersUpdateHead)
      case None => (Failure(Engine("syntax error")), users)
      case Some((sets, key)) =>
        if key.Text? && key.s in users then
          var row := ApplySet(AssignUser, users[key.s], sets);
          if UniqueEmails(users[key.s := row]) then (Success(1), users[key.s := row])
          else (Failure(Engine("duplicate key")), users)
        else (Success(0), users)
  }

  lemma UpdatePreservesConstraints(products: map<int, Product>, users: map<string, UserRow>, st: Statement)
    requires forall id :: id in products ==> products[id].id == id && SatisfiesChecks(products[id])
    requires UniqueEmails(users)
    ensures var ps := UpdateProducts(products, st).1;
      forall id :: id in ps ==> ps[id].id == id && SatisfiesChecks(ps[id])
    ensures UniqueEmails(UpdateUsers(users, st).1)
  {
    if WellBound(st) {
      match ParseUpdate(Bind(st.frags, st.args).value, ProductsUpdateHead)
      case None =>
      case Some((sets, key)) =>
        if key.Int? && key.i in products {
          ApplyKeepsId(products[key.i], sets);
        }
    }
  }

  lemma {:induction false} ApplyKeepsId(row: Product, ms: seq<Frag<Value>>)
    ensures ApplySet(AssignProduct, row, ms).id == row.id && ApplySet(AssignProduct, row, ms).createdAt == row.createdAt
  {
    if ms != [] {
      ApplyKeepsId(row, ms[..|ms| - 1]);
    }
  }

  // ---------------------------------------------------------------------------------------------
  // The database

  lemma {:induction false} LengthBound(keys: set<string>) returns (bound: nat)
    ensures forall k :: k in keys ==> |k| < bound
  {
    if keys == {} {
      bound := 0;
    } else {
      var k :| k in keys;
      bound := LengthBound(keys - {k});
      if bound <= |k| {
        bound := |k| + 1;
      }
    }
  }

  class Database {
    var products: map<int, Product>
    var users: map<string, UserRow>

    /** The table constraints; `products` is keyed by the row id. */
    ghost predicate Valid()
      reads this
    {
      (forall id :: id in products ==> products[id].id == id && SatisfiesChecks(products[id])) &&
      UniqueEmails(users)
    }

    constructor ()
      ensures Valid() && products == map[] && users == map[]
    {
      products := map[];
      users := map[];
    }

    method ExecProductUpdate(st: Statement) returns (r: Result<nat, Error>)
      requires Valid()
      modifies this
      ensures Valid()
      ensures (r, products) == UpdateProducts(old(products), st)
      ensures users == old(users)
    {
      UpdatePreservesConstraints(products, users, st);
      var outcome := UpdateProducts(products, st);
      r, products := outcome.0, outcome.1;
    }

    method ExecUserUpdate(st: Statement) returns (r: Result<nat, Error>)
      requires Valid()
      modifies this
      ensures Valid()
      ensures (r, users) == UpdateUsers(old(users), st)
      ensures products == old(products)
    {
      UpdatePreservesConstraints(products, users, st);
      var outcome := UpdateUsers(users, st);
      r, users := outcome.0, outcome.1;
    }

    /**
     * `INSERT INTO users(email,password,role) ... RETURNING id`: the engine assigns an id not yet
     * in use; an email already present breaks the UNIQUE constraint.
     */
    method InsertUser(row: UserRow) returns (r: Result<string, Error>)
      requires Valid()
      modifies this
      ensures Valid() && products == old(products)
      ensures EmailTaken(old(users), row.email) ==> r.Failure? && users == old(users)
      ensures !EmailTaken(old(users), row.email) ==>
        r.Success? && r.value !in old(users) && users == old(users)[r.value := row]
    {
      if EmailTaken(users, row.email) {
        r := Failure(Engine("duplicate key"));
      } else {
        var bound := LengthBound(users.Keys);
        var id :| id !in users by {
          var candidate := seq(bound, _ => '0');
          assert candidate !in users;
        }
        users := users[id := row];
        r := Success(id);
      }
    }

    /** `DELETE FROM users WHERE id = $1`; the result is the number of rows affected. */
    method DeleteUser(id: string) returns (rowsAffected: nat)
      requires Valid()
      modifies this
      ensures Valid() && products == old(products)
      ensures rowsAffected == (if id in old(users) then 1 else 0)
      ensures users == old(users) - {id}
    {
      rowsAffected := if id in users then 1 else 0;
      users := users - {id};
    }

    /** `DELETE FROM products WHERE id = $1`. */
    method DeleteProduct(id: int)
      requires Valid()
      modifies this
      ensures Valid() && users == old(users)
      ensures products == old(products) - {id}
    {
      products := products - {id};
    }

    /** `SELECT EXISTS(SELECT 1 FROM users WHERE id = $1)`. */
    method UserExists(id: string) returns (exists_: bool)
      ensures exists_ <==> id in users
    {
      exists_ := id in users;
    }

    /** `SELECT ... FROM products WHERE id = $1`: the row, or `NoRows` when there is none. */
    method QueryProduct(id: int) returns (r: Result<Product, Error>)
      ensures r.Success? <==> id in products
      ensures r.Success? ==> r.value == products[id]
      ensures r.Failure? ==> r.error == NoRows
    {
      r := if id in products then Success(products[id]) else Failure(NoRows);
    }

    /** `SELECT ... FROM users WHERE email = $1`: the id and row of the user with that email. */
    method QueryUserByEmail(email: string) returns (r: Option<(string, UserRow)>)
      requires Valid()
      ensures r.None? <==> !EmailTaken(users, email)
      ensures r.Some? ==> r.value.0 in users && users[r.value.0] == r.value.1 && r.value.1.email == email
    {
      if EmailTaken(users, email) {
        var id :| id in users && users[id].email == email;
        r := Some((id, users[id]));
      } else {
        r := None;
      }
    }
  }
}
