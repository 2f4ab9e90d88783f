/** The shape of the parameterised SQL statements the models build: the text
    of a statement, its `?` placeholders and the parameter array bound to
    them. A statement is kept as a list of literal text pieces and
    placeholders; `Render` gives the string sent to the driver. What the
    database engine does with a statement is not modelled. */
module Sql {
  import opened Text
  import opened Js

  datatype Piece = Lit(t: string) | Hole

  type Stmt = seq<Piece>

  /** Number of `?` placeholders of a statement. */
  function Holes(p: Stmt): nat
  {
    if p == [] then 0 else (if p[0].Hole? then 1 else 0) + Holes(p[1..])
  }

  function Render(p: Stmt): string
  {
    if p == [] then "" else (if p[0].Hole? then "?" else p[0].t) + Render(p[1..])
  }

  lemma {:induction false} HolesAppend(a: Stmt, b: Stmt)
    ensures Holes(a + b) == Holes(a) + Holes(b)
  {
    if a == [] {
      assert a + b == b;
    } else {
      assert (a + b)[1..] == a[1..] + b;
      HolesAppend(a[1..], b);
    }
  }

  lemma {:induction false} RenderAppend(a: Stmt, b: Stmt)
    ensures Render(a + b) == Render(a) + Render(b)
  {
    if a == [] {
      assert a + b == b;
    } else {
      assert (a + b)[1..] == a[1..] + b;
      RenderAppend(a[1..], b);
    }
  }

  /** Number of `?` characters in a string. */
  function CountQ(s: string): nat
  {
    if s == [] then 0 else (if s[0] == '?' then 1 else 0) + CountQ(s[1..])
  }

  lemma {:induction false} CountQAppend(a: string, b: string)
    ensures CountQ(a + b) == CountQ(a) + CountQ(b)
  {
    if a == [] {
      assert a + b == b;
    } else {
      assert (a + b)[1..] == a[1..] + b;
      CountQAppend(a[1..], b);
    }
  }

  lemma {:induction false} CountQNone(s: string)
    requires '?' !in s
    ensures CountQ(s) == 0
  {
    if s != [] {
      CountQNone(s[1..]);
    }
  }

  predicate PlainText(p: Stmt)
  {
    forall i :: 0 <= i < |p| ==> p[i].Lit? ==> '?' !in p[i].t
  }

  /** When no literal piece contains a question mark, the rendered statement
      has exactly as many `?` characters as the statement has placeholders.
      Column names taken from a request body are literal pieces, so this is
      where a key containing `?` would break the correspondence. */
  lemma {:induction false} RenderCount(p: Stmt)
    requires PlainText(p)
    ensures CountQ(Render(p)) == Holes(p)
  {
    if p != [] {
      RenderCount(p[1..]);
      if p[0].Lit? {
        CountQNone(p[0].t);
      }
      CountQAppend(if p[0].Hole? then "?" else p[0].t, Render(p[1..]));
    }
  }

  /** A piece of a statement together with the parameters it binds, e.g.
      `" AND userId = ?"` with `[userId]`. */
  datatype Clause = Clause(sql: Stmt, params: seq<Value>)

  predicate Balanced(c: Clause)
  {
    Holes(c.sql) == |c.params|
  }

  function SqlOf(cs: seq<Clause>): Stmt
  {
    if cs == [] then [] else cs[0].sql + SqlOf(cs[1..])
  }

  function ParamsOf(cs: seq<Clause>): seq<Value>
  {
    if cs == [] then [] else cs[0].params + ParamsOf(cs[1..])
  }

  /** Clauses that each bind as many parameters as they have placeholders
      make a statement that does too. */
  lemma {:induction false} ConcatBalanced(cs: seq<Clause>)
    requires forall i :: 0 <= i < |cs| ==> Balanced(cs[i])
    ensures Holes(SqlOf(cs)) == |ParamsOf(cs)|
  {
    if cs != [] {
      assert Balanced(cs[0]);
      ConcatBalanced(cs[1..]);
      HolesAppend(cs[0].sql, SqlOf(cs[1..]));
    }
  }

  /** One optional filter: its clause when the condition holds, nothing otherwise. */
  function When(cond: bool, c: Clause): seq<Clause>
  {
    if cond then [c] else []
  }

  lemma {:induction false} SqlOfSnoc(cs: seq<Clause>, c: Clause)
    ensures SqlOf(cs + [c]) == SqlOf(cs) + c.sql
    ensures ParamsOf(cs + [c]) == ParamsOf(cs) + c.params
  {
    if cs == [] {
      assert [c][1..] == [];
      assert cs + [c] == [c];
    } else {
      assert (cs + [c])[1..] == cs[1..] + [c];
      SqlOfSnoc(cs[1..], c);
    }
  }

  lemma {:induction false} ClausesAppend(a: seq<Clause>, b: seq<Clause>)
    ensures SqlOf(a + b) == SqlOf(a) + SqlOf(b)
    ensures ParamsOf(a + b) == ParamsOf(a) + ParamsOf(b)
  {
    if a == [] {
      assert a + b == b;
    } else {
      assert (a + b)[1..] == a[1..] + b;
      ClausesAppend(a[1..], b);
    }
  }

  lemma WhenShape(cond: bool, c: Clause)
    ensures SqlOf(When(cond, c)) == if cond then c.sql else []
    ensures ParamsOf(When(cond, c)) == if cond then c.params else []
  {
    if cond {
      assert [c][1..] == [];
    }
  }

  /** Appending one clause to a statement under construction keeps the text
      and the parameters in step with the list of clauses appended so far. */
  lemma Extend(head: Stmt, cs: seq<Clause>, c: Clause, query: Stmt, params: seq<Value>)
    requires query == head + SqlOf(cs) && params == ParamsOf(cs)
    ensures query + c.sql == head + SqlOf(cs + [c]) && params + c.params == ParamsOf(cs + [c])
  {
    SqlOfSnoc(cs, c);
  }

  /** `if (cond) { query += ...; params.push(...); }` on a statement under
      construction: the clause is appended exactly when the condition holds. */
  method AppendWhen(head: Stmt, ghost cs: seq<Clause>, query: Stmt, params: seq<Value>, cond: bool, c: Clause)
    returns (query': Stmt, params': seq<Value>)
    requires query == head + SqlOf(cs) && params == ParamsOf(cs)
    ensures query' == head + SqlOf(cs + When(cond, c)) && params' == ParamsOf(cs + When(cond, c))
  {
    if cond {
      Extend(head, cs, c, query, params);
      query', params' := query + c.sql, params + c.params;
    } else {
      assert cs + [] == cs;
      query', params' := query, params;
    }
  }

  /** `Object.keys(updates).join(" = ?, ") + " = ?"`, the SET list of the
      reservation, review and user models. */
  function SetList(keys: seq<string>): Stmt
  {
    JoinedKeys(keys) + [Lit(" = "), Hole]
  }

  function JoinedKeys(keys: seq<string>): Stmt
  {
    if |keys| == 0 then []
    else if |keys| == 1 then [Lit(keys[0])]
    else [Lit(keys[0]), Lit(" = "), Hole, Lit(", ")] + JoinedKeys(keys[1..])
  }

  /** One `key = ?, ` entry of a SET list. */
  lemma HeadShape(k: string)
    ensures Render([Lit(k), Lit(" = "), Hole, Lit(", ")]) == k + " = ?, "
    ensures Holes([Lit(k), Lit(" = "), Hole, Lit(", ")]) == 1
  {
    var head: Stmt := [Lit(k), Lit(" = "), Hole, Lit(", ")];
    assert head[3..][1..] == [];
    assert Render(head[3..]) == ", ";
    assert head[2..][1..] == head[3..];
    assert Render(head[2..]) == "?, ";
    assert head[1..][1..] == head[2..];
    assert Render(head[1..]) == " = ?, ";
    assert head[1..] == head[1..];
    assert Holes(head[3..]) == 0;
    assert Holes(head[2..]) == 1;
  }

  lemma {:induction false} JoinedKeysRender(keys: seq<string>)
    ensures Render(JoinedKeys(keys)) == Join(keys, " = ?, ")
    ensures Holes(JoinedKeys(keys)) == if keys == [] then 0 else |keys| - 1
  {
    if |keys| == 1 {
      assert Render([Lit(keys[0])]) == keys[0] + Render([]);
    } else if |keys| > 1 {
      var head: Stmt := [Lit(keys[0]), Lit(" = "), Hole, Lit(", ")];
      JoinedKeysRender(keys[1..]);
      RenderAppend(head, JoinedKeys(keys[1..]));
      HolesAppend(head, JoinedKeys(keys[1..]));
      HeadShape(keys[0]);
    }
  }

  /** The SET list renders as the source's join expression and has one
      placeholder per key, and one even when there is no key at all (the
      list then reads `" = ?"`). */
  lemma SetListShape(keys: seq<string>)
    ensures Render(SetList(keys)) == Join(keys, " = ?, ") + " = ?"
    ensures Holes(SetList(keys)) == if keys == [] then 1 else |keys|
  {
    var tail: Stmt := [Lit(" = "), Hole];
    JoinedKeysRender(keys);
    RenderAppend(JoinedKeys(keys), tail);
    HolesAppend(JoinedKeys(keys), tail);
    assert Render(tail) == " = ?" by {
      assert tail[1..][1..] == [];
    }
    assert Holes(tail) == 1 by {
      assert tail[1..][1..] == [];
    }
  }

  /** `Object.keys(updateData).map(key => `${key} = ?`).join(', ')`, the SET
      list of the place model. */
  function SetListMapped(keys: seq<string>): (s: Stmt)
    ensures s == [] <==> keys == []
  {
    if |keys| == 0 then []
    else if |keys| == 1 then [Lit(keys[0]), Lit(" = "), Hole]
    else [Lit(keys[0]), Lit(" = "), Hole, Lit(", ")] + SetListMapped(keys[1..])
  }

  /** The mapped SET list has exactly one placeholder per key, none for no key. */
  lemma {:induction false} SetListMappedHoles(keys: seq<string>)
    ensures Holes(SetListMapped(keys)) == |keys|
  {
    if |keys| == 1 {
      var one: Stmt := [Lit(keys[0]), Lit(" = "), Hole];
      assert one[2..][1..] == [];
      assert Holes(one[2..]) == 1;
      assert one[1..][1..] == one[2..];
      assert Holes(one[1..]) == 1;
    } else if |keys| > 1 {
      var head: Stmt := [Lit(keys[0]), Lit(" = "), Hole, Lit(", ")];
      HeadShape(keys[0]);
      SetListMappedHoles(keys[1..]);
      HolesAppend(head, SetListMapped(keys[1..]));
    }
  }

  /** For a non-empty key list the two ways the models write a SET list agree. */
  lemma {:induction false} SetListsAgree(keys: seq<string>)
    requires keys != []
    ensures SetList(keys) == SetListMapped(keys)
  {
    if |keys| > 1 {
      SetListsAgree(keys[1..]);
      var head: Stmt := [Lit(keys[0]), Lit(" = "), Hole, Lit(", ")];
      assert SetList(keys) == head + (JoinedKeys(keys[1..]) + [Lit(" = "), Hole]);
    }
  }

  /** `?, ?, ..., ?`: the VALUES list of an INSERT with `n` columns. */
  function HoleList(n: nat): Stmt
  {
    if n == 0 then [] else if n == 1 then [Hole] else [Hole, Lit(", ")] + HoleList(n - 1)
  }

  lemma {:induction false} HoleListCount(n: nat)
    ensures Holes(HoleList(n)) == n
  {
    if n == 1 {
      assert [Hole][1..] == [];
    } else if n > 1 {
      var two: Stmt := [Hole, Lit(", ")];
      assert two[1..][1..] == [];
      assert Holes(two) == 1;
      HoleListCount(n - 1);
      HolesAppend(two, HoleList(n - 1));
    }
  }

  lemma LitHole(t: string)
    ensures Holes([Lit(t), Hole]) == 1
  {
    var p: Stmt := [Lit(t), Hole];
    assert p[1..][1..] == [];
    assert Holes(p[1..]) == 1;
  }

  /** `INSERT INTO ... VALUES (?, ..., ?)` with `n` columns, bound to `params`. */
  function Insert(head: string, n: nat, tail: string, params: seq<Value>): Clause
  {
    Clause([Lit(head)] + HoleList(n) + [Lit(tail)], params)
  }

  /** An INSERT is well formed exactly when it binds one parameter per column. */
  lemma InsertBalanced(head: string, n: nat, tail: string, params: seq<Value>)
    ensures Balanced(Insert(head, n, tail, params)) <==> |params| == n
  {
    HoleListCount(n);
    HolesAppend([Lit(head)], HoleList(n));
    HolesAppend([Lit(head)] + HoleList(n), [Lit(tail)]);
    assert [Lit(head)][1..] == [] && [Lit(tail)][1..] == [];
  }

  /** `UPDATE ... SET ${Object.keys(o).join(" = ?, ") + " = ?"} WHERE <key> = ?`
      bound to `[...Object.values(o), id]`. */
  function UpdateStmt(head: string, fields: seq<Field>, tail: string, id: Value): Clause
  {
    Clause([Lit(head)] + SetList(Keys(fields)) + [Lit(tail), Hole], Values(fields) + [id])
  }

  /** The joined SET list binds one value per key in key order with the row id
      last; it has as many placeholders as parameters exactly when the object
      has at least one key (an empty object leaves a stray ` = ?`). */
  lemma UpdateStmtShape(head: string, fields: seq<Field>, tail: string, id: Value)
    ensures var c := UpdateStmt(head, fields, tail, id);
      && (Balanced(c) <==> fields != [])
      && |c.params| == |fields| + 1
      && c.params[..|fields|] == Values(fields) && c.params[|fields|] == id
  {
    var keys := Keys(fields);
    SetListShape(keys);
    var tailPieces: Stmt := [Lit(tail), Hole];
    LitHole(tail);
    assert [Lit(head)][1..] == [];
    HolesAppend([Lit(head)], SetList(keys));
    HolesAppend([Lit(head)] + SetList(keys), tailPieces);
    assert Values(fields) + [id] == UpdateStmt(head, fields, tail, id).params;
    assert (Values(fields) + [id])[..|fields|] == Values(fields);
  }

  /** An object stamped with one more key (`updatedAt`) is never empty, so
      its UPDATE has a `key = ?` per key in key order, the id bound last, and
      one placeholder per parameter. */
  lemma StampedUpdate(head: string, fields: seq<Field>, key: string, now: Value, tail: string, id: Value)
    ensures var f := Put(fields, key, now);
      var c := UpdateStmt(head, f, tail, id);
      && key in Keys(f)
      && Balanced(c)
      && |c.params| == |f| + 1
      && c.params[..|f|] == Values(f) && c.params[|f|] == id
  {
    var f := Put(fields, key, now);
    assert key in Keys(f);
    UpdateStmtShape(head, f, tail, id);
  }

  /** The place model's `map(key => `${key} = ?`).join(', ')` form of the same
      statement. */
  function UpdateStmtMapped(head: string, fields: seq<Field>, tail: string, id: Value): Clause
  {
    Clause([Lit(head)] + SetListMapped(Keys(fields)) + [Lit(tail), Hole], Values(fields) + [id])
  }

  /** The mapped form always has one placeholder per parameter, even for an
      object with no key, and coincides with the joined form otherwise. */
  lemma UpdateStmtMappedShape(head: string, fields: seq<Field>, tail: string, id: Value)
    ensures Balanced(UpdateStmtMapped(head, fields, tail, id))
    ensures fields != [] ==> UpdateStmtMapped(head, fields, tail, id) == UpdateStmt(head, fields, tail, id)
  {
    var keys := Keys(fields);
    SetListMappedHoles(keys);
    var tailPieces: Stmt := [Lit(tail), Hole];
    LitHole(tail);
    assert [Lit(head)][1..] == [];
    HolesAppend([Lit(head)], SetListMapped(keys));
    HolesAppend([Lit(head)] + SetListMapped(keys), tailPieces);
    if fields != [] {
      SetListsAgree(keys);
    }
  }
}
