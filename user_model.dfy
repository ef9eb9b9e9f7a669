/**
 * The user side of the model layer (models/user.go): registration, the credential check at
 * login, deletion and the partial update. Password hashing and hash checking are parameters:
 * `hash` is one run of the hasher (a hash or the hasher's error), `matches(password, hashed)`
 * is the hash check.
 */
module UserModel {
  import opened Wrappers
  import opened Strconv
  import opened Sql
  import opened Storage

  /** The role a new user gets when none is given. */
  const DefaultRole: string := "staff"

  // ---------------------------------------------------------------------------------------------
  // Email case

  function LowerChar(c: char): char {
    if 'A' <= c <= 'Z' then (c as int + 32) as char else c
  }

  predicate NoUpper(s: string) {
    forall i :: 0 <= i < |s| ==> !('A' <= s[i] <= 'Z')
  }

  /** Emails are stored and looked up lower-cased (ASCII letters only; other characters are kept). */
  function Lower(s: string): (r: string)
    ensures |r| == |s| && NoUpper(r)
    ensures forall i :: 0 <= i < |s| ==> r[i] == LowerChar(s[i])
  {
    seq(|s|, i requires 0 <= i < |s| => LowerChar(s[i]))
  }

  /** Lower-casing is idempotent and leaves lower-case text alone. */
  lemma LowerIdempotent(s: string)
    ensures Lower(Lower(s)) == Lower(s)
    ensures NoUpper(s) ==> Lower(s) == s
  {
    assert forall i :: 0 <= i < |s| ==> LowerChar(LowerChar(s[i])) == LowerChar(s[i]);
  }

  /** Two emails differing only in the case of their letters name the same stored email. */
  lemma LowerIgnoresCase()
    ensures Lower("Alice@Example.COM") == Lower("alice@example.com") == "alice@example.com"
  {
    assert Lower("alice@example.com") == "alice@example.com" by {
      LowerIdempotent("alice@example.com");
    }
  }

  // ---------------------------------------------------------------------------------------------
  // Login

  /** Logging in with `email` and `password` succeeds: some user has that email, lower-cased, and the password checks against its hash. */
  ghost predicate LoginSucceeds(users: map<string, UserRow>, email: string, password: string, matches: (string, string) -> bool) {
    exists id :: id in users && users[id].email == Lower(email) && matches(password, users[id].password)
  }

  /**
   * A user saved with some email and password can log in with the same password and the email
   * in any letter case, provided the hash check accepts what the hasher produced.
   */
  lemma SavedUserCanLogIn(users: map<string, UserRow>, id: string, email: string, typed: string,
                          password: string, hashed: string, role: string, matches: (string, string) -> bool)
    requires matches(password, hashed)
    requires Lower(typed) == Lower(email)
    ensures LoginSucceeds(users[id := UserRow(Lower(email), hashed, role)], typed, password, matches)
  {
    var users' := users[id := UserRow(Lower(email), hashed, role)];
    assert id in users' && users'[id].email == Lower(typed);
  }

  // ---------------------------------------------------------------------------------------------
  // Partial update

  /**
   * The assignments of a user update: each non-empty field in the order email, password, role;
   * the password is written as its hash `hashed`.
   */
  function UserFields(email: string, password: string, hashed: string, role: string): (fs: seq<Field<Value>>)
    ensures |fs| <= 3
    ensures fs == [] <==> email == "" && password == "" && role == ""
  {
    Optional(email != "", Field(Email, Text(email))) +
    Optional(password != "", Field(Password, Text(hashed))) +
    Optional(role != "", Field(Role, Text(role)))
  }

  /** The row a user update should leave: each non-empty field replaced, the password by its hash. */
  function Edited(row: UserRow, email: string, password: string, hashed: string, role: string): UserRow {
    row.(email := if email != "" then email else row.email,
         password := if password != "" then hashed else row.password,
         role := if role != "" then role else row.role)
  }

  /**
   * The statement a user update issues: the hasher's error when the password cannot be hashed,
   * `NoFieldsToUpdate` when nothing is to be set, otherwise
   * `UPDATE users SET <assignments separated by ", "> WHERE id = $(k+1)`.
   */
  function UserUpdateStatement(id: string, email: string, password: string, role: string,
                               hash: string -> Result<string, Error>): Result<Statement, Error> {
    if password != "" && hash(password).Failure? then Failure(hash(password).error)
    else
      var hashed := if password != "" then hash(password).value else "";
      var fs := UserFields(email, password, hashed, role);
      if fs == [] then Failure(NoFieldsToUpdate)
      else Success(UpdateStatement(UsersUpdateHead, fs, ", ", Text(id)))
  }

  /** The state of the statement while it is being built: `written` holds the fields so far. */
  ghost predicate UpdateInProgress(query: seq<Frag<nat>>, args: seq<Value>, argIndex: nat, written: seq<Field<Value>>) {
    query == [Keyword(UsersUpdateHead)] + Terminated(NumberFields(written, 1), ", ") &&
    args == FieldValues(written) && argIndex == |written| + 1
  }

  lemma WriteField(query: seq<Frag<nat>>, args: seq<Value>, argIndex: nat, written: seq<Field<Value>>, f: Field<Value>)
    requires UpdateInProgress(query, args, argIndex, written)
    ensures UpdateInProgress(query + [Assign(f.col, argIndex), Sep(", ")], args + [f.v], argIndex + 1, written + [f])
  {
    AppendOneField(written, f, ", ");
  }

  /** Dropping the separator after the last assignment and adding the WHERE clause completes the statement. */
  lemma Finish(query: seq<Frag<nat>>, args: seq<Value>, argIndex: nat, written: seq<Field<Value>>, id: string)
    requires UpdateInProgress(query, args, argIndex, written) && written != []
    ensures UpdateStatement(UsersUpdateHead, written, ", ", Text(id)) ==
      Statement(query[..|query| - 1] + [Keyword(" WHERE "), Cond(Id, Eq, argIndex)], args + [Text(id)])
  {
    var nf := NumberFields(written, 1);
    var init := nf[..|nf| - 1];
    var last := nf[|nf| - 1];
    assert init + [last] == nf;
    TerminatedThenAssign(init, last, ", ");
    TerminatedAppend(init, last, ", ");
    assert query[..|query| - 1] == [Keyword(UsersUpdateHead)] + Joined(nf, ", ");
  }

  /**
   * Builds the UPDATE of a user update the way the source does, with one correction: an update
   * with no field to set is refused with `NoFieldsToUpdate` instead of sending a malformed
   * statement. Each non-empty field appends `col = $n` and a separator with a running counter,
   * the password is hashed first (a hashing error ends the build), and the separator after the
   * last assignment is dropped before the WHERE clause on the id.
   */
  method BuildUserUpdate(id: string, email: string, password: string, role: string,
                         hash: string -> Result<string, Error>) returns (r: Result<Statement, Error>)
    ensures r == UserUpdateStatement(id, email, password, role, hash)
  {
    var query: seq<Frag<nat>> := [Keyword(UsersUpdateHead)];
    var args: seq<Value> := [];
    var argIndex: nat := 1;
    ghost var written: seq<Field<Value>> := [];
    ghost var hashed := "";
    assert UpdateInProgress(query, args, argIndex, written);
    if email != "" {
      WriteField(query, args, argIndex, written, Field(Email, Text(email)));
      query := query + [Assign(Email, argIndex), Sep(", ")];
      args := args + [Text(email)];
      argIndex := argIndex + 1;
      written := written + [Field(Email, Text(email))];
    }
    if password != "" {
      var h := hash(password);
      if h.Failure? {
        return Failure(h.error);
      }
      hashed := h.value;
      WriteField(query, args, argIndex, written, Field(Password, Text(h.value)));
      query := query + [Assign(Password, argIndex), Sep(", ")];
      args := args + [Text(h.value)];
      argIndex := argIndex + 1;
      written := written + [Field(Password, Text(h.value))];
    }
    if role != "" {
      WriteField(query, args, argIndex, written, Field(Role, Text(role)));
      query := query + [Assign(Role, argIndex), Sep(", ")];
      args := args + [Text(role)];
      argIndex := argIndex + 1;
      written := written + [Field(Role, Text(role))];
    }
    assert written == UserFields(email, password, hashed, role);
    if argIndex == 1 {
      return Failure(NoFieldsToUpdate);
    }
    Finish(query, args, argIndex, written, id);
    query := query[..|query| - 1];
    query := query + [Keyword(" WHERE "), Cond(Id, Eq, argIndex)];
    args := args + [Text(id)];
    r := Success(Statement(query, args));
  }

  lemma ApplyOptional(row: UserRow, fs: seq<Field<Value>>)
    requires |fs| <= 1
    ensures ApplyFields(AssignUser, row, fs) == if fs == [] then row else AssignUser(row, Assign(fs[0].col, fs[0].v))
  {
    if fs != [] {
      ApplyOneField(AssignUser, row, fs[0]);
      assert fs == [fs[0]];
    }
  }

  lemma EditedByFields(row: UserRow, email: string, password: string, hashed: string, role: string)
    ensures ApplyFields(AssignUser, row, UserFields(email, password, hashed, role)) == Edited(row, email, password, hashed, role)
  {
    var a := Optional(email != "", Field(Email, Text(email)));
    var b := Optional(password != "", Field(Password, Text(hashed)));
    var c := Optional(role != "", Field(Role, Text(role)));
    ApplyFieldsAppend(AssignUser, row, a + b, c);
    ApplyFieldsAppend(AssignUser, row, a, b);
    var r1 := ApplyFields(AssignUser, row, a);
    var r2 := ApplyFields(AssignUser, r1, b);
    assert r1 == row.(email := if email != "" then email else row.email) by { ApplyOptional(row, a); }
    assert r2 == r1.(password := if password != "" then hashed else row.password) by { ApplyOptional(r1, b); }
    assert ApplyFields(AssignUser, r2, c) == r2.(role := if role != "" then role else row.role) by { ApplyOptional(r2, c); }
  }

  /**
   * What a user update with at least one field does to the table: an unknown id changes
   * nothing; otherwise exactly the non-empty fields are written, unless the new email belongs
   * to another user, which the UNIQUE constraint refuses, leaving the table as it was.
   */
  lemma UserUpdateEffect(users: map<string, UserRow>, id: string, email: string, password: string, hashed: string, role: string)
    requires UserFields(email, password, hashed, role) != []
    ensures var edited := if id in users then Edited(users[id], email, password, hashed, role) else UserRow("", "", "");
      UpdateUsers(users, UpdateStatement(UsersUpdateHead, UserFields(email, password, hashed, role), ", ", Text(id))) ==
        if id !in users then (Success(0), users)
        else if UniqueEmails(users[id := edited]) then (Success(1), users[id := edited])
        else (Failure(Engine("duplicate key")), users)
  {
    var fs := UserFields(email, password, hashed, role);
    UpdateStatementBinds(UsersUpdateHead, fs, ", ", Text(id));
    if id in users {
      ApplyJoined(AssignUser, users[id], fs, ", ");
      EditedByFields(users[id], email, password, hashed, role);
    }
  }

  // ---------------------------------------------------------------------------------------------
  // The update text as the source writes it

  /** The text of the statement while it is being built, before the trailing separator is cut. */
  ghost predicate TextInProgress(query: string, args: seq<Value>, argIndex: nat, written: seq<Field<Value>>) {
    query == Render([Keyword(UsersUpdateHead)] + Terminated(NumberFields(written, 1), ", ")) &&
    args == FieldValues(written) && argIndex == |written| + 1
  }

  lemma RenderTwo(x: Frag<nat>, y: Frag<nat>)
    ensures Render([x, y]) == RenderOne(x) + RenderOne(y)
  {
    assert [x, y][..1] == [x];
    assert [x][..0] == [];
    assert Render([x]) == "" + RenderOne(x) == RenderOne(x);
  }

  lemma RenderFirst(x: Frag<nat>, rest: seq<Frag<nat>>)
    ensures Render([x] + rest) == RenderOne(x) + Render(rest)
  {
    assert Render([x]) == RenderOne(x) by {
      assert [x][..0] == [];
      assert Render([x]) == "" + RenderOne(x);
    }
    RenderAppend([x], rest);
  }

  lemma RenderStep(c: Column, n: nat)
    ensures Render([Assign(c, n), Sep(", ")]) == ColumnName(c) + " = $" + NatToString(n) + ", "
  {
    RenderTwo(Assign(c, n), Sep(", "));
  }

  lemma RenderWhere(n: nat)
    ensures Render([Keyword(" WHERE "), Cond(Id, Eq, n)]) == " WHERE id = $" + NatToString(n)
  {
    RenderTwo(Keyword(" WHERE "), Cond(Id, Eq, n));
    var digits := NatToString(n);
    assert RenderOne(Cond(Id, Eq, n)) == "id" + " " + "=" + " " + ("$" + digits);
    assert " WHERE " + ("id" + " " + "=" + " " + ("$" + digits)) == " WHERE id = $" + digits;
  }

  lemma WriteText(query: string, args: seq<Value>, argIndex: nat, written: seq<Field<Value>>, f: Field<Value>)
    requires TextInProgress(query, args, argIndex, written)
    ensures TextInProgress(query + Render([Assign(f.col, argIndex), Sep(", ")]), args + [f.v], argIndex + 1, written + [f])
  {
    var pre := [Keyword(UsersUpdateHead)] + Terminated(NumberFields(written, 1), ", ");
    var step := [Assign(f.col, argIndex), Sep(", ")];
    var next := [Keyword(UsersUpdateHead)] + Terminated(NumberFields(written + [f], 1), ", ");
    assert next == pre + step && FieldValues(written + [f]) == args + [f.v] by {
      AppendOneField(written, f, ", ");
    }
    RenderAppend(pre, step);
  }

  /** The text so far, for at least one field: the head, the joined SET list and one trailing separator. */
  lemma RenderInProgress(nf: seq<Field<nat>>)
    requires nf != []
    ensures Render([Keyword(UsersUpdateHead)] + Terminated(nf, ", ")) == UsersUpdateHead + Render(Joined(nf, ", ")) + ", "
  {
    RenderFirst(Keyword(UsersUpdateHead), Terminated(nf, ", "));
    RenderTerminated(nf, ", ");
  }

  /** The text of a complete user update statement. */
  lemma RenderUserUpdate(written: seq<Field<Value>>, id: string)
    ensures Render(UpdateStatement(UsersUpdateHead, written, ", ", Text(id)).frags) ==
      UsersUpdateHead + Render(Joined(NumberFields(written, 1), ", ")) + " WHERE id = $" + NatToString(|written| + 1)
  {
    RenderWrapped(Joined(NumberFields(written, 1), ", "), |written| + 1);
  }

  lemma RenderWrapped(joined: seq<Frag<nat>>, n: nat)
    ensures Render([Keyword(UsersUpdateHead)] + joined + [Keyword(" WHERE "), Cond(Id, Eq, n)]) ==
      UsersUpdateHead + Render(joined) + " WHERE id = $" + NatToString(n)
  {
    var tail := [Keyword(" WHERE "), Cond(Id, Eq, n)];
    assert Render([Keyword(UsersUpdateHead)] + joined + tail) == Render([Keyword(UsersUpdateHead)] + joined) + Render(tail) by {
      RenderAppend([Keyword(UsersUpdateHead)] + joined, tail);
    }
    assert Render([Keyword(UsersUpdateHead)] + joined) == UsersUpdateHead + Render(joined) by {
      RenderFirst(Keyword(UsersUpdateHead), joined);
    }
    RenderWhere(n);
  }

  /** With at least one field, cutting the last two characters leaves exactly the joined SET list. */
  lemma FinishText(query: string, args: seq<Value>, argIndex: nat, written: seq<Field<Value>>, id: string)
    requires TextInProgress(query, args, argIndex, written) && written != []
    ensures |query| >= 2
    ensures query[..|query| - 2] + " WHERE id = $" + NatToString(argIndex) ==
      Render(UpdateStatement(UsersUpdateHead, written, ", ", Text(id)).frags)
    ensures args + [Text(id)] == UpdateStatement(UsersUpdateHead, written, ", ", Text(id)).args
  {
    var prefix := UsersUpdateHead + Render(Joined(NumberFields(written, 1), ", "));
    assert query == prefix + ", " by {
      RenderInProgress(NumberFields(written, 1));
    }
    assert query[..|query| - 2] == prefix;
    RenderUserUpdate(written, id);
  }

  /** The malformed text the source sends for an update with no field to set. */
  const EmptyUpdateText: string := "UPDATE users SE WHERE id = $1"

  /**
   * The query text and arguments exactly as the source builds them, cut included. With at least
   * one field the text is the rendering of the statement `BuildUserUpdate` issues; with none, the
   * cut eats the "T " of "SET " and the text is `EmptyUpdateText`.
   */
  method UserUpdateText(id: string, email: string, password: string, hashed: string, role: string)
    returns (query: string, args: seq<Value>)
    ensures var fs := UserFields(email, password, hashed, role);
      fs != [] ==> query == Render(UpdateStatement(UsersUpdateHead, fs, ", ", Text(id)).frags) &&
                   args == UpdateStatement(UsersUpdateHead, fs, ", ", Text(id)).args
    ensures UserFields(email, password, hashed, role) == [] ==> query == EmptyUpdateText && args == [Text(id)]
  {
    var argIndex: nat;
    ghost var written: seq<Field<Value>>;
    query, args, argIndex, written := SetListText(email, password, hashed, role);
    if written != [] {
      FinishText(query, args, argIndex, written, id);
    } else {
      EmptyText(query, args, argIndex);
    }
    query := query[..|query| - 2];
    query := query + " WHERE id = $" + NatToString(argIndex);
    args := args + [Text(id)];
  }

  /** The head and one `col = $n, ` per non-empty field, before the cut. */
  method SetListText(email: string, password: string, hashed: string, role: string)
    returns (query: string, args: seq<Value>, argIndex: nat, ghost written: seq<Field<Value>>)
    ensures TextInProgress(query, args, argIndex, written) && written == UserFields(email, password, hashed, role)
  {
    query := UsersUpdateHead;
    args := [];
    argIndex := 1;
    written := [];
    StartText();
    if email != "" {
      query, args, argIndex, written := AppendAssignment(query, args, argIndex, written, Field(Email, Text(email)));
    }
    assert written == Optional(email != "", Field(Email, Text(email)));
    if password != "" {
      query, args, argIndex, written := AppendAssignment(query, args, argIndex, written, Field(Password, Text(hashed)));
    }
    assert written == Optional(email != "", Field(Email, Text(email))) + Optional(password != "", Field(Password, Text(hashed)));
    if role != "" {
      query, args, argIndex, written := AppendAssignment(query, args, argIndex, written, Field(Role, Text(role)));
    }
  }

  lemma StartText()
    ensures TextInProgress(UsersUpdateHead, [], 1, [])
  {
    var none: seq<Field<Value>> := [];
    assert [Keyword(UsersUpdateHead)] + Terminated(NumberFields(none, 1), ", ") == [Keyword(UsersUpdateHead)];
    RenderFirst(Keyword(UsersUpdateHead), []);
  }

  /** With no field, the cut takes the "T " off "SET ". */
  lemma EmptyText(query: string, args: seq<Value>, argIndex: nat)
    requires TextInProgress(query, args, argIndex, [])
    ensures |query| >= 2
    ensures query[..|query| - 2] + " WHERE id = $" + NatToString(argIndex) == EmptyUpdateText
  {
    EmptyProgress(query, args, argIndex);
    CutHead();
  }

  lemma EmptyProgress(query: string, args: seq<Value>, argIndex: nat)
    requires TextInProgress(query, args, argIndex, [])
    ensures query == UsersUpdateHead && argIndex == 1
  {
    var none: seq<Field<Value>> := [];
    assert [Keyword(UsersUpdateHead)] + Terminated(NumberFields(none, 1), ", ") == [Keyword(UsersUpdateHead)];
    RenderFirst(Keyword(UsersUpdateHead), []);
  }

  lemma CutHead()
    ensures UsersUpdateHead[..|UsersUpdateHead| - 2] + " WHERE id = $" + NatToString(1) == EmptyUpdateText
  {
    assert NatToString(1) == "1";
    assert UsersUpdateHead[..|UsersUpdateHead| - 2] == "UPDATE users SE";
  }

  /** One `col = $n, ` with its argument: the step the source repeats for each non-empty field. */
  method AppendAssignment(query: string, args: seq<Value>, argIndex: nat, ghost written: seq<Field<Value>>, f: Field<Value>)
    returns (query': string, args': seq<Value>, argIndex': nat, ghost written': seq<Field<Value>>)
    requires TextInProgress(query, args, argIndex, written)
    ensures TextInProgress(query', args', argIndex', written') && written' == written + [f]
  {
    var piece := ColumnName(f.col) + " = $" + NatToString(argIndex) + ", ";
    RenderStep(f.col, argIndex);
    WriteText(query, args, argIndex, written, f);
    query' := query + piece;
    args' := args + [f.v];
    argIndex' := argIndex + 1;
    written' := written + [f];
  }

  /**
   * The text sent for an empty update is no UPDATE the model layer can issue: every user update
   * statement renders starting with "UPDATE users SET ", and this one does not.
   */
  lemma EmptyUpdateTextIsMalformed(fs: seq<Field<Value>>, key: Value)
    ensures UsersUpdateHead <= Render(UpdateStatement(UsersUpdateHead, fs, ", ", key).frags)
    ensures !(UsersUpdateHead <= EmptyUpdateText)
    ensures Render(UpdateStatement(UsersUpdateHead, fs, ", ", key).frags) != EmptyUpdateText
  {
    StartsWithHead(UpdateStatement(UsersUpdateHead, fs, ", ", key).frags);
    assert UsersUpdateHead[15] != EmptyUpdateText[15];
  }

  lemma StartsWithHead(frags: seq<Frag<nat>>)
    requires frags != [] && frags[0] == Keyword(UsersUpdateHead)
    ensures UsersUpdateHead <= Render(frags)
  {
    assert frags == [Keyword(UsersUpdateHead)] + frags[1..];
    RenderFirst(Keyword(UsersUpdateHead), frags[1..]);
  }

  // ---------------------------------------------------------------------------------------------
  // Users

  /** `User`: the account a request registers, logs in or deletes. */
  class User {
    var id: string
    var email: string
    var password: string
    var role: string

    constructor (id: string, email: string, password: string, role: string)
      ensures this.id == id && this.email == email && this.password == password && this.role == role
    {
      this.id := id;
      this.email := email;
      this.password := password;
      this.role := role;
    }

    /**
     * Registers the user: an empty role becomes "staff" (before anything else, so also when a
     * later step fails), the password is hashed, and the row is inserted with the email
     * lower-cased; the id the engine assigns is stored. An email already registered, in any
     * letter case, is refused by the UNIQUE constraint.
     */
    method Save(db: Database, hash: string -> Result<string, Error>) returns (err: Option<Error>)
      requires db.Valid()
      modifies this`id, this`role, db
      ensures db.Valid() && db.products == old(db.products)
      ensures role == (if old(role) == "" then DefaultRole else old(role))
      ensures hash(password).Failure? ==> err == Some(hash(password).error) && db.users == old(db.users) && id == old(id)
      ensures hash(password).Success? && EmailTaken(old(db.users), Lower(email)) ==>
        err.Some? && db.users == old(db.users) && id == old(id)
      ensures hash(password).Success? && !EmailTaken(old(db.users), Lower(email)) ==>
        err == None && id !in old(db.users) &&
        db.users == old(db.users)[id := UserRow(Lower(email), hash(password).value, role)]
    {
      if role == "" {
        role := DefaultRole;
      }
      var hashed := hash(password);
      if hashed.Failure? {
        return Some(hashed.error);
      }
      var r := db.InsertUser(UserRow(Lower(email), hashed.value, role));
      if r.Failure? {
        return Some(r.error);
      }
      id := r.value;
      err := None;
    }

    /**
     * The login check: looks the user up by the lower-cased email (none: `NoRows`), stores the
     * stored id and role in this user before checking the password (so they are set even when
     * the check then fails with `InvalidCredentials`). Succeeds exactly when `LoginSucceeds`.
     */
    method ValidateCredentials(db: Database, matches: (string, string) -> bool) returns (err: Option<Error>)
      requires db.Valid()
      modifies this`id, this`role
      ensures !EmailTaken(db.users, Lower(email)) ==> err == Some(NoRows) && id == old(id) && role == old(role)
      ensures EmailTaken(db.users, Lower(email)) ==>
        id in db.users && db.users[id].email == Lower(email) && role == db.users[id].role &&
        err == (if matches(password, db.users[id].password) then None else Some(InvalidCredentials))
      ensures err == None <==> LoginSucceeds(db.users, email, password, matches)
    {
      var found := db.QueryUserByEmail(Lower(email));
      if found.None? {
        return Some(NoRows);
      }
      var (foundId, row) := found.value;
      id := foundId;
      role := row.role;
      if !matches(password, row.password) {
        err := Some(InvalidCredentials);
        assert !LoginSucceeds(db.users, email, password, matches) by {
          assert forall other :: other in db.users && db.users[other].email == Lower(email) ==> other == foundId;
        }
        return;
      }
      err := None;
    }

    /** Deletes the user by id; when no row was affected the error is `UserNotFound`. */
    method Delete(db: Database) returns (err: Option<Error>)
      requires db.Valid()
      modifies db
      ensures db.Valid() && db.products == old(db.products)
      ensures db.users == old(db.users) - {id}
      ensures err == (if id in old(db.users) then None else Some(UserNotFound))
    {
      var rowsAffected := db.DeleteUser(id);
      if rowsAffected == 0 {
        return Some(UserNotFound);
      }
      err := None;
    }
  }

  /** `UserUpdate`: the id of the user and the fields to change; an empty string leaves a field as it is. */
  class UserUpdate {
    var id: string
    var email: string
    var password: string
    var role: string

    constructor (id: string, email: string, password: string, role: string)
      ensures this.id == id && this.email == email && this.password == password && this.role == role
    {
      this.id := id;
      this.email := email;
      this.password := password;
      this.role := role;
    }

    /**
     * Checks that the user exists (`UserNotFound` otherwise), builds the statement (a hashing
     * error, or `NoFieldsToUpdate` for an empty update, ends it there) and runs it. The result:
     * the non-empty fields are written, the password as its hash, unless the new email is taken.
     * The email is stored as given, not lower-cased.
     */
    method Update(db: Database, hash: string -> Result<string, Error>) returns (err: Option<Error>)
      requires db.Valid()
      modifies db
      ensures db.Valid() && db.products == old(db.products)
      ensures id !in old(db.users) ==> err == Some(UserNotFound) && db.users == old(db.users)
      ensures id in old(db.users) && UserUpdateStatement(id, email, password, role, hash).Failure? ==>
        err == Some(UserUpdateStatement(id, email, password, role, hash).error) && db.users == old(db.users)
      ensures id in old(db.users) && UserUpdateStatement(id, email, password, role, hash).Success? ==>
        var hashed := if password != "" then hash(password).value else "";
        var edited := Edited(old(db.users)[id], email, password, hashed, role);
        if UniqueEmails(old(db.users)[id := edited]) then err == None && db.users == old(db.users)[id := edited]
        else err == Some(Engine("duplicate key")) && db.users == old(db.users)
    {
      var exists_ := db.UserExists(id);
      if !exists_ {
        return Some(UserNotFound);
      }
      var st := BuildUserUpdate(id, email, password, role, hash);
      if st.Failure? {
        return Some(st.error);
      }
      ghost var hashed := if password != "" then hash(password).value else "";
      UserUpdateEffect(db.users, id, email, password, hashed, role);
      var r := db.ExecUserUpdate(st.value);
      err := if r.Failure? then Some(r.error) else None;
    }
  }
}
