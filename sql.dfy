/**
 * Parameterised SQL as the model layer writes it: a statement is a sequence of fragments plus a
 * positional argument list. A fragment that carries a placeholder `$n` is parameterised by `P`:
 * in a statement `P` is the placeholder number; after binding it is the argument value itself,
 * which is what the storage engine sees when it executes the statement.
 */
module Sql {
  import opened Wrappers
  import opened Strconv

  datatype Column = Id | Name | Price | Stock | Category | CreatedAt | UpdatedAt | Email | Password | Role

  function ColumnName(c: Column): string {
    match c
    case Id => "id"
    case Name => "name"
    case Price => "price"
    case Stock => "stock"
    case Category => "category"
    case CreatedAt => "created_at"
    case UpdatedAt => "updated_at"
    case Email => "email"
    case Password => "password"
    case Role => "role"
  }

  /** Comparison operators of the WHERE clauses: `=`, case-insensitive `ILIKE`, `>=`, `<=`. */
  datatype Op = Eq | ILike | AtLeast | AtMost

  function OpText(op: Op): string {
    match op
    case Eq => "="
    case ILike => "ILIKE"
    case AtLeast => ">="
    case AtMost => "<="
  }

  datatype Direction = Asc | Desc

  function DirectionText(d: Direction): string {
    if d == Asc then "ASC" else "DESC"
  }

  /** A bound argument. Prices are whole numbers in this model; timestamps are instants as numbers. */
  datatype Value = Text(s: string) | Int(i: int) | Time(t: int)

  datatype Frag<P> =
    | Keyword(text: string)               // SQL text without a placeholder
    | Assign(col: Column, p: P)           // col = $p
    | Sep(text: string)                   // separator between two assignments
    | Cond(col: Column, op: Op, p: P)     // col op $p
    | OrderBy(dir: Direction)             // " ORDER BY created_at ASC|DESC"
    | Limit(p: P)                         // " LIMIT $p"
    | Offset(p: P)                        // " OFFSET $p"
  {
    predicate HasPlaceholder() {
      Assign? || Cond? || Limit? || Offset?
    }
  }

  /** One `col = value` of a SET clause, and one `col op value` of a WHERE clause. */
  datatype Field<P> = Field(col: Column, v: P)
  datatype Pred<P> = Pred(col: Column, op: Op, v: P)

  datatype Statement = Statement(frags: seq<Frag<nat>>, args: seq<Value>)

  // ---------------------------------------------------------------------------------------------
  // Placeholders and binding

  /** The placeholder numbers of a statement in textual order. */
  function Params(fs: seq<Frag<nat>>): seq<nat> {
    if fs == [] then []
    else Params(fs[..|fs| - 1]) + (if fs[|fs| - 1].HasPlaceholder() then [fs[|fs| - 1].p] else [])
  }

  /** `start, start + 1, ..., start + count - 1`. */
  function Iota(start: nat, count: nat): (r: seq<nat>)
    ensures |r| == count && forall i :: 0 <= i < count ==> r[i] == start + i
  {
    seq(count, i requires 0 <= i < count => start + i)
  }

  function BindOne(f: Frag<nat>, args: seq<Value>): Option<Frag<Value>> {
    match f
    case Keyword(t) => Some(Keyword(t))
    case Sep(t) => Some(Sep(t))
    case OrderBy(d) => Some(OrderBy(d))
    case Assign(c, n) => if 1 <= n <= |args| then Some(Assign(c, args[n - 1])) else None
    case Cond(c, op, n) => if 1 <= n <= |args| then Some(Cond(c, op, args[n - 1])) else None
    case Limit(n) => if 1 <= n <= |args| then Some(Limit(args[n - 1])) else None
    case Offset(n) => if 1 <= n <= |args| then Some(Offset(args[n - 1])) else None
  }

  /**
   * Positional binding: placeholder `$n` takes `args[n-1]`. Binding fails exactly when some
   * placeholder has no argument.
   */
  function Bind(fs: seq<Frag<nat>>, args: seq<Value>): (r: Option<seq<Frag<Value>>>)
    ensures r.Some? <==> forall n :: n in Params(fs) ==> 1 <= n <= |args|
    ensures r.Some? ==> |r.value| == |fs|
  {
    if fs == [] then Some([])
    else
      var init := Bind(fs[..|fs| - 1], args);
      var last := BindOne(fs[|fs| - 1], args);
      assert Params(fs) == Params(fs[..|fs| - 1]) + (if fs[|fs| - 1].HasPlaceholder() then [fs[|fs| - 1].p] else []);
      if init.Some? && last.Some? then Some(init.value + [last.value])
      else if init.None? then
        assert exists n :: n in Params(fs) && !(1 <= n <= |args|) by {
          var n :| n in Params(fs[..|fs| - 1]) && !(1 <= n <= |args|);
          assert n in Params(fs);
        }
        None
      else
        assert fs[|fs| - 1].HasPlaceholder() && !(1 <= fs[|fs| - 1].p <= |args|);
        assert fs[|fs| - 1].p in Params(fs);
        None
  }

  lemma ParamsSingle(f: Frag<nat>)
    ensures Params([f]) == if f.HasPlaceholder() then [f.p] else []
  {
    assert [f][..0] == [];
  }

  lemma BindSingle(f: Frag<nat>, args: seq<Value>)
    ensures Bind([f], args) == if BindOne(f, args).Some? then Some([BindOne(f, args).value]) else None
  {
    assert [f][..0] == [];
    if BindOne(f, args).Some? {
      assert [] + [BindOne(f, args).value] == [BindOne(f, args).value];
    }
  }

  /** Params and Bind of a two-fragment piece, the unit the builders append. */
  lemma Pair(x: Frag<nat>, y: Frag<nat>, args: seq<Value>)
    ensures Params([x, y]) == Params([x]) + Params([y])
    ensures Bind([x, y], args) ==
      if Bind([x], args).Some? && Bind([y], args).Some? then Some(Bind([x], args).value + Bind([y], args).value) else None
  {
    assert [x, y] == [x] + [y];
    ParamsAppend([x], [y]);
    BindAppend([x], [y], args);
  }

  /**
   * What the storage engine demands of a statement before running it: every placeholder has an
   * argument and every argument is used by some placeholder.
   */
  predicate WellBound(st: Statement) {
    Bind(st.frags, st.args).Some? &&
    forall k :: 1 <= k <= |st.args| ==> k in Params(st.frags)
  }

  lemma ConsecutiveIsWellBound(st: Statement)
    requires Params(st.frags) == Iota(1, |st.args|)
    ensures WellBound(st)
  {
    forall k | 1 <= k <= |st.args| ensures k in Params(st.frags) {
      assert Params(st.frags)[k - 1] == k;
    }
  }

  lemma {:induction false} ParamsAppend(a: seq<Frag<nat>>, b: seq<Frag<nat>>)
    ensures Params(a + b) == Params(a) + Params(b)
  {
    if b != [] {
      assert (a + b)[..|a + b| - 1] == a + b[..|b| - 1];
      ParamsAppend(a, b[..|b| - 1]);
    } else {
      assert a + b == a;
    }
  }

  lemma {:induction false} BindAppend(a: seq<Frag<nat>>, b: seq<Frag<nat>>, args: seq<Value>)
    ensures Bind(a + b, args) ==
      if Bind(a, args).Some? && Bind(b, args).Some?
      then Some(Bind(a, args).value + Bind(b, args).value) else None
  {
    if b == [] {
      assert a + b == a;
      if Bind(a, args).Some? {
        assert Bind(a, args).value + [] == Bind(a, args).value;
      }
    } else {
      var b' := b[..|b| - 1];
      assert (a + b)[..|a + b| - 1] == a + b';
      assert (a + b)[|a + b| - 1] == b[|b| - 1];
      BindAppend(a, b', args);
      var x, y, z := Bind(a, args), Bind(b', args), BindOne(b[|b| - 1], args);
      if x.Some? && y.Some? && z.Some? {
        assert x.value + y.value + [z.value] == x.value + (y.value + [z.value]);
      }
    }
  }

  // ---------------------------------------------------------------------------------------------
  // Text

  function Placeholder(n: nat): string {
    "$" + NatToString(n)
  }

  function RenderOne(f: Frag<nat>): string {
    match f
    case Keyword(t) => t
    case Assign(c, n) => ColumnName(c) + " = " + Placeholder(n)
    case Sep(t) => t
    case Cond(c, op, n) => ColumnName(c) + " " + OpText(op) + " " + Placeholder(n)
    case OrderBy(d) => " ORDER BY created_at " + DirectionText(d)
    case Limit(n) => " LIMIT " + Placeholder(n)
    case Offset(n) => " OFFSET " + Placeholder(n)
  }

  /** The SQL text of a statement. */
  function Render(fs: seq<Frag<nat>>): string {
    if fs == [] then "" else Render(fs[..|fs| - 1]) + RenderOne(fs[|fs| - 1])
  }

  lemma {:induction false} RenderAppend(a: seq<Frag<nat>>, b: seq<Frag<nat>>)
    ensures Render(a + b) == Render(a) + Render(b)
  {
    if b == [] {
      assert a + b == a;
    } else {
      assert (a + b)[..|a + b| - 1] == a + b[..|b| - 1];
      RenderAppend(a, b[..|b| - 1]);
    }
  }

  // ---------------------------------------------------------------------------------------------
  // SET clauses

  /** Assignments joined with `sep` placed only between two of them. */
  function Joined<P>(fs: seq<Field<P>>, sep: string): seq<Frag<P>> {
    if |fs| == 0 then []
    else if |fs| == 1 then [Assign(fs[0].col, fs[0].v)]
    else Joined(fs[..|fs| - 1], sep) + [Sep(sep), Assign(fs[|fs| - 1].col, fs[|fs| - 1].v)]
  }

  /** Every assignment followed by `sep`: what appending `col = $n` plus a separator per field builds. */
  function Terminated<P>(fs: seq<Field<P>>, sep: string): seq<Frag<P>> {
    if fs == [] then []
    else Terminated(fs[..|fs| - 1], sep) + [Assign(fs[|fs| - 1].col, fs[|fs| - 1].v), Sep(sep)]
  }

  /** Field `i` carries placeholder `start + i`. */
  function NumberFields<T>(fs: seq<Field<T>>, start: nat): (r: seq<Field<nat>>)
    ensures |r| == |fs| && forall i :: 0 <= i < |fs| ==> r[i] == Field(fs[i].col, start + i)
  {
    seq(|fs|, i requires 0 <= i < |fs| => Field(fs[i].col, start + i))
  }

  function FieldValues<T>(fs: seq<Field<T>>): (r: seq<T>)
    ensures |r| == |fs| && forall i :: 0 <= i < |fs| ==> r[i] == fs[i].v
  {
    seq(|fs|, i requires 0 <= i < |fs| => fs[i].v)
  }

  /**
   * A joined SET clause has `2k - 1` fragments for `k` fields: field `i` at position `2i`, a
   * separator at every odd position, so no separator comes first or last.
   */
  lemma {:induction false} JoinedShape<P>(fs: seq<Field<P>>, sep: string)
    ensures |Joined(fs, sep)| == if fs == [] then 0 else 2 * |fs| - 1
    ensures forall i :: 0 <= i < |fs| ==> Joined(fs, sep)[2 * i] == Assign(fs[i].col, fs[i].v)
    ensures forall i :: 0 <= i < |fs| - 1 ==> Joined(fs, sep)[2 * i + 1] == Sep(sep)
  {
    if |fs| > 1 {
      JoinedShape(fs[..|fs| - 1], sep);
    }
  }

  lemma {:induction false} TerminatedThenAssign<P>(fs: seq<Field<P>>, f: Field<P>, sep: string)
    ensures Terminated(fs, sep) + [Assign(f.col, f.v)] == Joined(fs + [f], sep)
  {
    if fs != [] {
      var init := fs[..|fs| - 1];
      var last := fs[|fs| - 1];
      assert (fs + [f])[..|fs|] == fs;
      assert init + [last] == fs;
      TerminatedThenAssign(init, last, sep);
    }
  }

  lemma TerminatedAppend<P>(fs: seq<Field<P>>, f: Field<P>, sep: string)
    ensures Terminated(fs + [f], sep) == Terminated(fs, sep) + [Assign(f.col, f.v), Sep(sep)]
  {
    assert (fs + [f])[..|fs|] == fs;
  }

  lemma RenderTerminated(fs: seq<Field<nat>>, sep: string)
    requires fs != []
    ensures Render(Terminated(fs, sep)) == Render(Joined(fs, sep)) + sep
  {
    var init := fs[..|fs| - 1];
    var last := fs[|fs| - 1];
    assert init + [last] == fs;
    var body := Terminated(init, sep) + [Assign(last.col, last.v)];
    TerminatedThenAssign(init, last, sep);
    assert body == Joined(fs, sep);
    assert Terminated(fs, sep) == body + [Sep(sep)];
    RenderAppend(body, [Sep(sep)]);
    var tail: seq<Frag<nat>> := [Sep(sep)];
    assert tail[..0] == [];
    assert Render(tail) == "" + sep;
  }

  /** Appending a separator-and-placeholder pair adds exactly that placeholder. */
  lemma ParamsStep(s: seq<Frag<nat>>, x: Frag<nat>, y: Frag<nat>)
    requires !x.HasPlaceholder() && y.HasPlaceholder()
    ensures Params(s + [x, y]) == Params(s) + [y.p]
  {
    ParamsAppend(s, [x, y]);
    Pair(x, y, []);
    ParamsSingle(x);
    ParamsSingle(y);
  }

  /** Binding a prefix followed by a pair whose fragments both bind. */
  lemma BindStep(s: seq<Frag<nat>>, x: Frag<nat>, y: Frag<nat>, args: seq<Value>, bx: Frag<Value>, bz: Frag<Value>)
    requires Bind(s, args).Some?
    requires BindOne(x, args) == Some(bx) && BindOne(y, args) == Some(bz)
    ensures Bind(s + [x, y], args) == Some(Bind(s, args).value + [bx, bz])
  {
    BindAppend(s, [x, y], args);
    Pair(x, y, args);
    BindSingle(x, args);
    BindSingle(y, args);
    assert [bx] + [bz] == [bx, bz];
  }

  lemma {:induction false} ParamsJoined<T>(fs: seq<Field<T>>, start: nat, sep: string)
    ensures Params(Joined(NumberFields(fs, start), sep)) == Iota(start, |fs|)
  {
    var nf := NumberFields(fs, start);
    if |fs| == 1 {
      ParamsSingle(Assign(nf[0].col, nf[0].v));
    } else if |fs| > 1 {
      var init := fs[..|fs| - 1];
      assert nf[..|nf| - 1] == NumberFields(init, start);
      ParamsJoined(init, start, sep);
      var y := Assign(nf[|nf| - 1].col, nf[|nf| - 1].v);
      assert Joined(nf, sep) == Joined(nf[..|nf| - 1], sep) + [Sep(sep), y];
      ParamsStep(Joined(nf[..|nf| - 1], sep), Sep(sep), y);
      assert Iota(start, |fs|) == Iota(start, |fs| - 1) + [start + |fs| - 1];
    }
  }

  /** Binding a numbered SET clause against arguments that hold the field values in order. */
  lemma {:induction false} BindJoined(fs: seq<Field<Value>>, start: nat, sep: string, args: seq<Value>)
    requires 1 <= start && start - 1 + |fs| <= |args|
    requires forall i :: 0 <= i < |fs| ==> args[start - 1 + i] == fs[i].v
    ensures Bind(Joined(NumberFields(fs, start), sep), args) == Some(Joined(fs, sep))
  {
    var nf := NumberFields(fs, start);
    if |fs| == 1 {
      BindSingle(Assign(nf[0].col, nf[0].v), args);
    } else if |fs| > 1 {
      var init := fs[..|fs| - 1];
      var last := fs[|fs| - 1];
      assert nf[..|nf| - 1] == NumberFields(init, start);
      BindJoined(init, start, sep, args);
      var y := Assign(nf[|nf| - 1].col, nf[|nf| - 1].v);
      assert args[start + |fs| - 2] == last.v;
      assert Joined(nf, sep) == Joined(nf[..|nf| - 1], sep) + [Sep(sep), y];
      BindStep(Joined(nf[..|nf| - 1], sep), Sep(sep), y, args, Sep(sep), Assign(last.col, last.v));
    }
  }

  // ---------------------------------------------------------------------------------------------
  // WHERE clauses

  /** ` AND col op $n` for every predicate, in order, after the anchor `WHERE 1=1`. */
  function Conjuncts<P>(ps: seq<Pred<P>>): (r: seq<Frag<P>>)
    ensures |r| == 2 * |ps|
  {
    if ps == [] then []
    else Conjuncts(ps[..|ps| - 1]) + [Keyword(" AND "), Cond(ps[|ps| - 1].col, ps[|ps| - 1].op, ps[|ps| - 1].v)]
  }

  function NumberPreds<T>(ps: seq<Pred<T>>, start: nat): (r: seq<Pred<nat>>)
    ensures |r| == |ps| && forall i :: 0 <= i < |ps| ==> r[i] == Pred(ps[i].col, ps[i].op, start + i)
  {
    seq(|ps|, i requires 0 <= i < |ps| => Pred(ps[i].col, ps[i].op, start + i))
  }

  function PredValues<T>(ps: seq<Pred<T>>): (r: seq<T>)
    ensures |r| == |ps| && forall i :: 0 <= i < |ps| ==> r[i] == ps[i].v
  {
    seq(|ps|, i requires 0 <= i < |ps| => ps[i].v)
  }

  /** Predicate `i` sits at positions `2i` (the ` AND `) and `2i + 1` (the condition). */
  lemma {:induction false} ConjunctsShape<P>(ps: seq<Pred<P>>)
    ensures |Conjuncts(ps)| == 2 * |ps|
    ensures forall i :: 0 <= i < |ps| ==>
      Conjuncts(ps)[2 * i] == Keyword(" AND ") && Conjuncts(ps)[2 * i + 1] == Cond(ps[i].col, ps[i].op, ps[i].v)
  {
    if ps != [] {
      ConjunctsShape(ps[..|ps| - 1]);
    }
  }

  lemma {:induction false} ParamsConjuncts<T>(ps: seq<Pred<T>>, start: nat)
    ensures Params(Conjuncts(NumberPreds(ps, start))) == Iota(start, |ps|)
  {
    var np := NumberPreds(ps, start);
    if ps != [] {
      var init := ps[..|ps| - 1];
      assert np[..|np| - 1] == NumberPreds(init, start);
      ParamsConjuncts(init, start);
      var y := Cond(np[|np| - 1].col, np[|np| - 1].op, np[|np| - 1].v);
      assert Conjuncts(np) == Conjuncts(np[..|np| - 1]) + [Keyword(" AND "), y];
      ParamsStep(Conjuncts(np[..|np| - 1]), Keyword(" AND "), y);
      assert Iota(start, |ps|) == Iota(start, |ps| - 1) + [start + |ps| - 1];
    }
  }

  lemma {:induction false} BindConjuncts(ps: seq<Pred<Value>>, start: nat, args: seq<Value>)
    requires 1 <= start && start - 1 + |ps| <= |args|
    requires forall i :: 0 <= i < |ps| ==> args[start - 1 + i] == ps[i].v
    ensures Bind(Conjuncts(NumberPreds(ps, start)), args) == Some(Conjuncts(ps))
  {
    var np := NumberPreds(ps, start);
    if ps != [] {
      var init := ps[..|ps| - 1];
      var last := ps[|ps| - 1];
      assert np[..|np| - 1] == NumberPreds(init, start);
      BindConjuncts(init, start, args);
      var y := Cond(np[|np| - 1].col, np[|np| - 1].op, np[|np| - 1].v);
      assert args[start + |ps| - 2] == last.v;
      assert Conjuncts(np) == Conjuncts(np[..|np| - 1]) + [Keyword(" AND "), y];
      BindStep(Conjuncts(np[..|np| - 1]), Keyword(" AND "), y, args, Keyword(" AND "), Cond(last.col, last.op, last.v));
    }
  }
}
