/** The place model (models/placeModel.js): the search statement with its
    optional filters, the distance query for `near` and the `LIMIT`; the
    INSERT parameters with their JSON defaults; the UPDATE statement built
    from a serialised copy of the payload; deletion. `JSON.stringify` is a
    parameter, and the distance formula is kept only as the placeholders it
    has. */
module PlaceModel {
  import opened Text
  import opened Js
  import opened Sql
  import opened Store

  // ---------------------------------------------------------------------
  // Search

  function TypeClause(f: seq<Field>): seq<Clause>
  {
    When(Truthy(Get(f, "type")), Clause([Lit(" AND type = "), Hole], [Get(f, "type")]))
  }

  /** `name LIKE ?` bound to `%${filters.name}%`. */
  function NameClause(f: seq<Field>): seq<Clause>
  {
    When(Truthy(Get(f, "name")), Clause([Lit(" AND name LIKE "), Hole], [Str("%" + ToStr(Get(f, "name")) + "%")]))
  }

  function RegionClause(f: seq<Field>): seq<Clause>
  {
    When(Truthy(Get(f, "region")),
      Clause([Lit(" AND JSON_EXTRACT(location, '$.region') = "), Hole], [Get(f, "region")]))
  }

  /** The filter clauses `search` appends before it looks at `near`. */
  function FilterClauses(f: seq<Field>): seq<Clause>
  {
    TypeClause(f) + NameClause(f) + RegionClause(f)
  }

  /** `LIMIT ?` bound to `parseInt(filters.limit)`, when a limit is given. */
  function LimitClause(f: seq<Field>): seq<Clause>
  {
    When(Truthy(Get(f, "limit")), Clause([Lit(" LIMIT "), Hole], [ParseInt(Get(f, "limit"))]))
  }

  const SearchHead: Stmt := [Lit("SELECT * FROM places WHERE 1=1")]
  const SearchOrder: Piece := Lit(" ORDER BY createdAt DESC")

  /** The distance query up to `FROM places`: latitude, longitude and
      latitude again are its three placeholders. */
  const NearSelect: Stmt := [
    Lit("SELECT *, (6371 * acos(cos(radians("), Hole,
    Lit(")) * cos(radians(JSON_EXTRACT(location, '$.latitude'))) * cos(radians(JSON_EXTRACT(location, '$.longitude')) - radians("), Hole,
    Lit(")) + sin(radians("), Hole,
    Lit(")) * sin(radians(JSON_EXTRACT(location, '$.latitude'))))) AS distance FROM places")]

  /** The rest of the distance query: the radius placeholder and the ordering. */
  const NearHaving: Stmt := [Lit(" HAVING distance < "), Hole, Lit(" ORDER BY distance")]

  /** `filters.near.split` on a value that is not a string. */
  const NearNotString := "filters.near.split is not a function"

  /** `const [lat, lng] = near.split(',').map(Number)` and
      `filters.radius || 10`, in the order the distance query binds them. */
  function NearParams(near: string, radius: Value): (ps: seq<Value>)
    ensures |ps| == 4 && ps[0] == ps[2] && ps[3] == radius
  {
    var parts := Split(near, ',');
    var lat := StrToNumber(parts[0]);
    var lng := if |parts| > 1 then StrToNumber(parts[1]) else Undefined;
    [lat, lng, lat, radius]
  }

  /** What `Place.search(filters)` sends to the driver. With `near` the
      statement is replaced by the distance query, which drops the filter
      clauses but not the parameters already pushed for them. */
  function SearchStmt(f: seq<Field>): Result<Clause>
  {
    var cs, lim, near := FilterClauses(f), LimitClause(f), Get(f, "near");
    if Truthy(near) && !near.Str? then Err(NearNotString)
    else if Truthy(near) then
      Ok(Clause(NearSelect + NearHaving + SqlOf(lim),
                ParamsOf(cs) + NearParams(near.s, Or(Get(f, "radius"), IntNum(10))) + ParamsOf(lim)))
    else
      Ok(Clause(SearchHead + SqlOf(cs) + [SearchOrder] + SqlOf(lim), ParamsOf(cs) + ParamsOf(lim)))
  }

  /** The first half of `Place.search`: the filter clauses appended to
      `query` and their values pushed onto `params`. */
  method AppendFilters(filters: seq<Field>) returns (query: Stmt, params: seq<Value>)
    ensures query == SearchHead + SqlOf(FilterClauses(filters)) && params == ParamsOf(FilterClauses(filters))
  {
    ghost var cs: seq<Clause> := [];
    query := SearchHead;
    params := [];
    var t := Get(filters, "type");
    if Truthy(t) {
      var c := Clause([Lit(" AND type = "), Hole], [t]);
      Extend(SearchHead, cs, c, query, params);
      query, params, cs := query + c.sql, params + c.params, cs + [c];
    }
    assert cs == TypeClause(filters) && query == SearchHead + SqlOf(cs) && params == ParamsOf(cs);
    var name := Get(filters, "name");
    if Truthy(name) {
      var c := Clause([Lit(" AND name LIKE "), Hole], [Str("%" + ToStr(name) + "%")]);
      Extend(SearchHead, cs, c, query, params);
      query, params, cs := query + c.sql, params + c.params, cs + [c];
    }
    assert cs == TypeClause(filters) + NameClause(filters) && query == SearchHead + SqlOf(cs) && params == ParamsOf(cs);
    var region := Get(filters, "region");
    if Truthy(region) {
      var c := Clause([Lit(" AND JSON_EXTRACT(location, '$.region') = "), Hole], [region]);
      Extend(SearchHead, cs, c, query, params);
      query, params, cs := query + c.sql, params + c.params, cs + [c];
    }
    assert cs == FilterClauses(filters);
  }

  /** `Place.search(filters)`: the filters, then either the distance query
      or the ordering, then the limit. */
  method Search(filters: seq<Field>) returns (res: Result<Clause>)
    ensures res == SearchStmt(filters)
  {
    var query, params := AppendFilters(filters);
    ghost var cs := FilterClauses(filters);
    var near := Get(filters, "near");
    if Truthy(near) {
      if !near.Str? {
        return Err(NearNotString);
      }
      var radius := Or(Get(filters, "radius"), IntNum(10));
      query := NearSelect + NearHaving;
      params := params + NearParams(near.s, radius);
    } else {
      query := query + [SearchOrder];
    }
    ghost var base := if Truthy(near) then Clause(NearSelect + NearHaving, ParamsOf(cs) + NearParams(near.s, Or(Get(filters, "radius"), IntNum(10))))
      else Clause(SearchHead + SqlOf(cs) + [SearchOrder], ParamsOf(cs));
    assert query == base.sql && params == base.params;
    var limit := Get(filters, "limit");
    LimitShape(filters);
    if Truthy(limit) {
      query := query + [Lit(" LIMIT "), Hole];
      params := params + [ParseInt(limit)];
    }
    assert query == base.sql + SqlOf(LimitClause(filters)) && params == base.params + ParamsOf(LimitClause(filters));
    return Ok(Clause(query, params));
  }

  lemma LimitShape(f: seq<Field>)
    ensures SqlOf(LimitClause(f)) == if Truthy(Get(f, "limit")) then [Lit(" LIMIT "), Hole] else []
    ensures ParamsOf(LimitClause(f)) == if Truthy(Get(f, "limit")) then [ParseInt(Get(f, "limit"))] else []
  {
    var lim := LimitClause(f);
    if lim != [] {
      assert lim[1..] == [];
    }
  }

  lemma NearHoles()
    ensures Holes(NearSelect) == 3 && Holes(NearHaving) == 1
  {
    var s := NearSelect;
    assert s[6..][1..] == [];
    assert Holes(s[6..]) == 0;
    assert s[5..][1..] == s[6..];
    assert Holes(s[5..]) == 1;
    assert s[4..][1..] == s[5..];
    assert Holes(s[4..]) == 1;
    assert s[3..][1..] == s[4..];
    assert Holes(s[3..]) == 2;
    assert s[2..][1..] == s[3..];
    assert Holes(s[2..]) == 2;
    assert s[1..][1..] == s[2..];
    assert Holes(s[1..]) == 3;
    var h := NearHaving;
    assert h[2..][1..] == [];
    assert h[1..][1..] == h[2..];
    assert Holes(h[1..]) == 1;
  }

  lemma FilterClausesBalanced(f: seq<Field>)
    ensures forall i :: 0 <= i < |FilterClauses(f)| ==> Balanced(FilterClauses(f)[i])
    ensures Holes(SqlOf(FilterClauses(f))) == |ParamsOf(FilterClauses(f))|
    ensures |ParamsOf(FilterClauses(f))| == |FilterClauses(f)|
  {
    LitHole(" AND type = ");
    LitHole(" AND name LIKE ");
    LitHole(" AND JSON_EXTRACT(location, '$.region') = ");
    var cs := FilterClauses(f);
    ConcatBalanced(cs);
    OneParamEach(cs);
  }

  lemma {:induction false} OneParamEach(cs: seq<Clause>)
    requires forall i :: 0 <= i < |cs| ==> |cs[i].params| == 1
    ensures |ParamsOf(cs)| == |cs|
  {
    if cs != [] {
      OneParamEach(cs[1..]);
    }
  }

  lemma LimitBalanced(f: seq<Field>)
    ensures Holes(SqlOf(LimitClause(f))) == |ParamsOf(LimitClause(f))| == if Truthy(Get(f, "limit")) then 1 else 0
  {
    LitHole(" LIMIT ");
    var lim := LimitClause(f);
    if lim != [] {
      assert lim[1..] == [];
      assert SqlOf(lim) == lim[0].sql + [];
      assert ParamsOf(lim) == lim[0].params + [];
    }
  }

  /** Without `near` the search binds one parameter per placeholder: one per
      truthy filter among type, name and region, in that order, then the
      integer limit last. */
  lemma SearchPlain(f: seq<Field>)
    requires !Truthy(Get(f, "near"))
    ensures SearchStmt(f).Ok?
    ensures var c := SearchStmt(f).value;
      && Balanced(c)
      && |c.params| == |FilterClauses(f)| + (if Truthy(Get(f, "limit")) then 1 else 0)
      && (Truthy(Get(f, "limit")) ==> c.params[|c.params| - 1] == ParseInt(Get(f, "limit")))
  {
    var cs, lim := FilterClauses(f), LimitClause(f);
    FilterClausesBalanced(f);
    LimitBalanced(f);
    assert SearchHead[1..] == [] && [SearchOrder][1..] == [];
    HolesAppend(SearchHead, SqlOf(cs));
    HolesAppend(SearchHead + SqlOf(cs), [SearchOrder]);
    HolesAppend(SearchHead + SqlOf(cs) + [SearchOrder], SqlOf(lim));
    if Truthy(Get(f, "limit")) {
      assert lim[1..] == [];
      assert ParamsOf(lim) == [ParseInt(Get(f, "limit"))];
    }
  }

  /** With a string `near`, the statement is the distance query: four
      placeholders for latitude, longitude, latitude and the radius
      (10 when none is given), plus the limit's. */
  lemma SearchNear(f: seq<Field>)
    requires Truthy(Get(f, "near")) && Get(f, "near").Str?
    ensures SearchStmt(f).Ok?
    ensures var c := SearchStmt(f).value;
      var lim := if Truthy(Get(f, "limit")) then 1 else 0;
      && Holes(c.sql) == 4 + lim
      && |c.params| == |FilterClauses(f)| + 4 + lim
      && c.params[|FilterClauses(f)| + 3] == (if Truthy(Get(f, "radius")) then Get(f, "radius") else IntNum(10))
  {
    var cs, lim := FilterClauses(f), LimitClause(f);
    FilterClausesBalanced(f);
    LimitBalanced(f);
    NearHoles();
    HolesAppend(NearSelect, NearHaving);
    HolesAppend(NearSelect + NearHaving, SqlOf(lim));
    var c := SearchStmt(f).value;
    var np := NearParams(Get(f, "near").s, Or(Get(f, "radius"), IntNum(10)));
    assert c.params == ParamsOf(cs) + np + ParamsOf(lim);
    assert c.params[|cs| + 3] == np[3];
  }

  /** A `near` that is not a string (a repeated query parameter) makes
      `split` throw. */
  lemma SearchNearNotString(f: seq<Field>)
    requires Truthy(Get(f, "near")) && !Get(f, "near").Str?
    ensures SearchStmt(f) == Err(NearNotString)
  {
  }

  /** As written, a `near` search is well formed exactly when no other
      filter was given: the type, name and region parameters stay in the
      array while their clauses are gone. */
  lemma NearDropsClauses(f: seq<Field>)
    requires Truthy(Get(f, "near")) && Get(f, "near").Str?
    ensures Balanced(SearchStmt(f).value) <==> FilterClauses(f) == []
    ensures FilterClauses(f) != [] ==> |SearchStmt(f).value.params| > Holes(SearchStmt(f).value.sql)
  {
    SearchNear(f);
  }

  /** A concrete request that shows it: a type filter with a position. */
  lemma NearWithTypeUnbalanced()
    ensures var f := [Field("type", Str("museum")), Field("near", Str("36.8,10.1"))];
      SearchStmt(f).Ok? && !Balanced(SearchStmt(f).value)
  {
    var f := [Field("type", Str("museum")), Field("near", Str("36.8,10.1"))];
    assert Get(f, "type") == Str("museum");
    assert Get(f, "near") == Str("36.8,10.1");
    assert TypeClause(f) != [];
    NearDropsClauses(f);
  }

  /** The search as evidently intended: the distance query keeps the filter
      clauses in a WHERE, and binds latitude, longitude and latitude before
      the filters' parameters and the radius after them. */
  function SearchFixed(f: seq<Field>): Result<Clause>
  {
    var cs, lim, near := FilterClauses(f), LimitClause(f), Get(f, "near");
    if Truthy(near) && !near.Str? then Err(NearNotString)
    else if Truthy(near) then Ok(NearFixed(cs, lim, NearParams(near.s, Or(Get(f, "radius"), IntNum(10)))))
    else Ok(Clause(SearchHead + SqlOf(cs) + [SearchOrder] + SqlOf(lim), ParamsOf(cs) + ParamsOf(lim)))
  }

  /** The distance query with the filter clauses kept in a WHERE. */
  function NearFixed(cs: seq<Clause>, lim: seq<Clause>, np: seq<Value>): Clause
    requires |np| == 4
  {
    Clause(NearSelect + [Lit(" WHERE 1=1")] + SqlOf(cs) + NearHaving + SqlOf(lim),
           np[..3] + ParamsOf(cs) + [np[3]] + ParamsOf(lim))
  }

  /** The corrected search always binds one parameter per placeholder, and
      each group of parameters sits where its placeholders are: the three
      of the distance formula first, the filters' next, the radius after. */
  lemma SearchFixedBalanced(f: seq<Field>)
    ensures SearchFixed(f).Ok? <==> SearchStmt(f).Ok?
    ensures SearchFixed(f).Ok? ==> Balanced(SearchFixed(f).value)
    ensures !Truthy(Get(f, "near")) ==> SearchFixed(f) == SearchStmt(f)
    ensures Truthy(Get(f, "near")) && Get(f, "near").Str? ==>
      var c := SearchFixed(f).value;
      var n := |ParamsOf(FilterClauses(f))|;
      && Holes(NearSelect + [Lit(" WHERE 1=1")] + SqlOf(FilterClauses(f))) == 3 + n
      && c.params[3..3 + n] == ParamsOf(FilterClauses(f))
  {
    if !Truthy(Get(f, "near")) {
      SearchPlain(f);
    } else if Get(f, "near").Str? {
      FixedNear(f);
    }
  }

  lemma FixedNear(f: seq<Field>)
    requires Truthy(Get(f, "near")) && Get(f, "near").Str?
    ensures var c := SearchFixed(f).value;
      var n := |ParamsOf(FilterClauses(f))|;
      && Balanced(c)
      && Holes(NearSelect + [Lit(" WHERE 1=1")] + SqlOf(FilterClauses(f))) == 3 + n
      && c.params[3..3 + n] == ParamsOf(FilterClauses(f))
  {
    FilterClausesBalanced(f);
    LimitBalanced(f);
    NearFixedShape(FilterClauses(f), LimitClause(f), NearParams(Get(f, "near").s, Or(Get(f, "radius"), IntNum(10))));
  }

  lemma NearFixedShape(cs: seq<Clause>, lim: seq<Clause>, np: seq<Value>)
    requires |np| == 4
    requires Holes(SqlOf(cs)) == |ParamsOf(cs)| && Holes(SqlOf(lim)) == |ParamsOf(lim)|
    ensures var c := NearFixed(cs, lim, np);
      && Balanced(c)
      && Holes(NearSelect + [Lit(" WHERE 1=1")] + SqlOf(cs)) == 3 + |ParamsOf(cs)|
      && c.params[3..3 + |ParamsOf(cs)|] == ParamsOf(cs)
  {
    NearHoles();
    var w: Stmt := [Lit(" WHERE 1=1")];
    assert w[1..] == [];
    HolesAppend(NearSelect, w);
    HolesAppend(NearSelect + w, SqlOf(cs));
    HolesAppend(NearSelect + w + SqlOf(cs), NearHaving);
    HolesAppend(NearSelect + w + SqlOf(cs) + NearHaving, SqlOf(lim));
    var c := NearFixed(cs, lim, np);
    assert c.params == np[..3] + ParamsOf(cs) + ([np[3]] + ParamsOf(lim));
    Middle(np[..3], ParamsOf(cs), [np[3]] + ParamsOf(lim));
  }

  lemma Middle<T>(a: seq<T>, b: seq<T>, c: seq<T>)
    ensures (a + b + c)[|a|..|a| + |b|] == b
  {
  }

  // ---------------------------------------------------------------------
  // Create

  const PlaceColumns: seq<string> := ["name", "type", "description", "location", "images",
    "openingHours", "entranceFee", "provider_id"]

  /** The parameters of `Place.create(placeData)`: name, type and description
      as given; location, opening hours and fees serialised with `{}` for a
      missing value, images with `[]`; the provider or NULL. */
  function CreateParams(data: seq<Field>, stringify: Value -> string): (ps: seq<Value>)
    ensures |ps| == |PlaceColumns|
    ensures forall i :: 0 <= i < 3 ==> ps[i] == Get(data, PlaceColumns[i])
    ensures forall i :: 3 <= i < 7 && Truthy(Get(data, PlaceColumns[i])) ==> ps[i] == Str(stringify(Get(data, PlaceColumns[i])))
    ensures forall i :: 3 <= i < 7 && i != 4 && !Truthy(Get(data, PlaceColumns[i])) ==> ps[i] == Str(stringify(Obj([])))
    ensures !Truthy(Get(data, "images")) ==> ps[4] == Str(stringify(Arr([])))
    ensures ps[7] == if Truthy(Get(data, "provider_id")) then Get(data, "provider_id") else Null
  {
    [ Get(data, "name"),
      Get(data, "type"),
      Get(data, "description"),
      Str(stringify(Or(Get(data, "location"), Obj([])))),
      Str(stringify(Or(Get(data, "images"), Arr([])))),
      Str(stringify(Or(Get(data, "openingHours"), Obj([])))),
      Str(stringify(Or(Get(data, "entranceFee"), Obj([])))),
      Or(Get(data, "provider_id"), Null) ]
  }

  function CreateStmt(data: seq<Field>, stringify: Value -> string): Clause
  {
    Insert("INSERT INTO places (name, type, description, location, images, openingHours, entranceFee, provider_id) VALUES (",
      8, ")", CreateParams(data, stringify))
  }

  /** The INSERT has eight placeholders for its eight parameters. */
  lemma CreateBalanced(data: seq<Field>, stringify: Value -> string)
    ensures Balanced(CreateStmt(data, stringify))
  {
    InsertBalanced("INSERT INTO places (name, type, description, location, images, openingHours, entranceFee, provider_id) VALUES (",
      8, ")", CreateParams(data, stringify));
  }

  // ---------------------------------------------------------------------
  // Update

  /** The columns `update` serialises when the payload gives them a truthy value. */
  const JsonColumns: set<string> := {"location", "images", "openingHours", "entranceFee"}

  /** `if (updates[k]) updateData[k] = JSON.stringify(updates[k])` */
  function SerialiseKey(o: seq<Field>, updates: seq<Field>, k: string, stringify: Value -> string): seq<Field>
  {
    if Truthy(Get(updates, k)) then Put(o, k, Str(stringify(Get(updates, k)))) else o
  }

  /** `updateData` after the four serialisation steps. */
  function Serialised(updates: seq<Field>, stringify: Value -> string): seq<Field>
  {
    var a := SerialiseKey(updates, updates, "location", stringify);
    var b := SerialiseKey(a, updates, "images", stringify);
    var c := SerialiseKey(b, updates, "openingHours", stringify);
    SerialiseKey(c, updates, "entranceFee", stringify)
  }

  /** A key with a truthy value is a key of the object. */
  lemma TruthyHasKey(o: seq<Field>, k: string)
    requires Truthy(Get(o, k))
    ensures HasKey(o, k)
  {
    if !HasKey(o, k) {
      GetAbsent(o, k);
    }
  }

  lemma SerialiseKeyFacts(o: seq<Field>, updates: seq<Field>, k: string, stringify: Value -> string)
    requires Keys(o) == Keys(updates)
    ensures Keys(SerialiseKey(o, updates, k, stringify)) == Keys(updates)
  {
    if Truthy(Get(updates, k)) {
      TruthyHasKey(updates, k);
    }
  }

  /** The serialised copy has the payload's keys in the payload's order. */
  lemma SerialisedFacts(updates: seq<Field>, stringify: Value -> string)
    ensures Keys(Serialised(updates, stringify)) == Keys(updates)
    ensures |Serialised(updates, stringify)| == |updates|
  {
    var a := SerialiseKey(updates, updates, "location", stringify);
    var b := SerialiseKey(a, updates, "images", stringify);
    var c := SerialiseKey(b, updates, "openingHours", stringify);
    SerialiseKeyFacts(updates, updates, "location", stringify);
    SerialiseKeyFacts(a, updates, "images", stringify);
    SerialiseKeyFacts(b, updates, "openingHours", stringify);
    SerialiseKeyFacts(c, updates, "entranceFee", stringify);
  }

  /** A truthy JSON column holds its serialisation and every other key its
      value unchanged. */
  lemma SerialisedValue(updates: seq<Field>, stringify: Value -> string, k: string)
    ensures Get(Serialised(updates, stringify), k) ==
      if k in JsonColumns && Truthy(Get(updates, k)) then Str(stringify(Get(updates, k))) else Get(updates, k)
  {
    var a := SerialiseKey(updates, updates, "location", stringify);
    var b := SerialiseKey(a, updates, "images", stringify);
    var c := SerialiseKey(b, updates, "openingHours", stringify);
    var d := SerialiseKey(c, updates, "entranceFee", stringify);
    assert d == Serialised(updates, stringify);
    if k == "location" {
      SerialiseKeySame(updates, updates, k, stringify);
      SerialiseKeyOther(b, updates, "openingHours", stringify, k);
      SerialiseKeyOther(c, updates, "entranceFee", stringify, k);
      SerialiseKeyOther(a, updates, "images", stringify, k);
    } else if k == "images" {
      SerialiseKeySame(a, updates, k, stringify);
      SerialiseKeyOther(updates, updates, "location", stringify, k);
      SerialiseKeyOther(b, updates, "openingHours", stringify, k);
      SerialiseKeyOther(c, updates, "entranceFee", stringify, k);
    } else if k == "openingHours" {
      SerialiseKeySame(b, updates, k, stringify);
      SerialiseKeyOther(updates, updates, "location", stringify, k);
      SerialiseKeyOther(a, updates, "images", stringify, k);
      SerialiseKeyOther(c, updates, "entranceFee", stringify, k);
    } else if k == "entranceFee" {
      SerialiseKeySame(c, updates, k, stringify);
      SerialiseKeyOther(updates, updates, "location", stringify, k);
      SerialiseKeyOther(a, updates, "images", stringify, k);
      SerialiseKeyOther(b, updates, "openingHours", stringify, k);
    } else {
      assert k !in JsonColumns;
      SerialiseKeyOther(updates, updates, "location", stringify, k);
      SerialiseKeyOther(a, updates, "images", stringify, k);
      SerialiseKeyOther(b, updates, "openingHours", stringify, k);
      SerialiseKeyOther(c, updates, "entranceFee", stringify, k);
    }
  }

  /** One serialisation step sets its own key when the payload's value is truthy. */
  lemma SerialiseKeySame(o: seq<Field>, updates: seq<Field>, key: string, stringify: Value -> string)
    ensures Get(SerialiseKey(o, updates, key, stringify), key) ==
      if Truthy(Get(updates, key)) then Str(stringify(Get(updates, key))) else Get(o, key)
  {
  }

  /** One serialisation step leaves the other keys alone. */
  lemma SerialiseKeyOther(o: seq<Field>, updates: seq<Field>, key: string, stringify: Value -> string, k: string)
    requires k != key
    ensures Get(SerialiseKey(o, updates, key, stringify), k) == Get(o, k)
  {
    if Truthy(Get(updates, key)) {
      PutOther(o, key, Str(stringify(Get(updates, key))), k);
    }
  }

  const UpdateHead := "UPDATE places SET "
  const UpdateTail := " WHERE id = "

  /** What MySQL answers to `UPDATE places SET  WHERE id = ?`. */
  const EmptySetError := "You have an error in your SQL syntax"

  /** `Place.update(id, updates)`: serialises the JSON columns on a copy of
      the payload, builds the statement from the copy, and reports whether a
      place has that id. An empty payload leaves the SET list empty, which
      the database refuses, so the call throws. The caller's object is not
      touched. */
  method Update(db: Db, id: Value, updates: seq<Field>, stringify: Value -> string) returns (stmt: Clause, changed: Result<bool>)
    ensures stmt == UpdateStmtMapped(UpdateHead, Serialised(updates, stringify), UpdateTail, id)
    ensures changed.Err? <==> updates == []
    ensures changed.Err? ==> changed.msg == EmptySetError
    ensures changed.Ok? ==> (changed.value <==> exists p :: p in db.places && SqlEq(IntNum(p.id), id))
  {
    var updateData := new JsObject(updates);
    SerialiseColumns(updateData, updates, stringify);
    SerialisedFacts(updates, stringify);
    var fields := SetListMapped(Keys(updateData.fields));
    assert fields == [] <==> updates == [];
    stmt := UpdateStmtMapped(UpdateHead, updateData.fields, UpdateTail, id);
    if fields == [] {
      return stmt, Err(EmptySetError);
    }
    var found := PlaceById(db, id);
    changed := Ok(found.Some?);
    FoundIff(db.places, id);
  }

  /** The JSON columns of the copy are replaced by their serialised text,
      one after the other. */
  method SerialiseColumns(updateData: JsObject, updates: seq<Field>, stringify: Value -> string)
    requires updateData.fields == updates
    modifies updateData
    ensures updateData.fields == Serialised(updates, stringify)
  {
    if Truthy(Get(updates, "location")) {
      updateData.Assign("location", Str(stringify(Get(updates, "location"))));
    }
    if Truthy(Get(updates, "images")) {
      updateData.Assign("images", Str(stringify(Get(updates, "images"))));
    }
    if Truthy(Get(updates, "openingHours")) {
      updateData.Assign("openingHours", Str(stringify(Get(updates, "openingHours"))));
    }
    if Truthy(Get(updates, "entranceFee")) {
      updateData.Assign("entranceFee", Str(stringify(Get(updates, "entranceFee"))));
    }
  }

  lemma {:induction false} FoundIff(places: seq<Place>, id: Value)
    ensures FirstMatch(places, (p: Place) => IntNum(p.id), id).Some? <==> exists p :: p in places && SqlEq(IntNum(p.id), id)
  {
    if places != [] {
      FoundIff(places[1..], id);
      assert forall p :: p in places <==> p == places[0] || p in places[1..];
    }
  }

  /** The place UPDATE names every key of the payload once, in order, binds
      the serialised values in that order and the id last, and has one
      placeholder per parameter; its SET list is empty exactly when the
      payload is. */
  lemma UpdateWellFormed(updates: seq<Field>, stringify: Value -> string, id: Value)
    ensures var f := Serialised(updates, stringify);
      var c := UpdateStmtMapped(UpdateHead, f, UpdateTail, id);
      && Keys(f) == Keys(updates)
      && (updates == [] <==> c.sql == [Lit(UpdateHead), Lit(UpdateTail), Hole])
      && Balanced(c)
      && |c.params| == |updates| + 1
      && c.params[..|updates|] == Values(f) && c.params[|updates|] == id
  {
    var f := Serialised(updates, stringify);
    SerialisedFacts(updates, stringify);
    UpdateStmtMappedShape(UpdateHead, f, UpdateTail, id);
    assert UpdateStmtMapped(UpdateHead, f, UpdateTail, id).params == Values(f) + [id];
    assert (Values(f) + [id])[..|f|] == Values(f);
  }

  // ---------------------------------------------------------------------
  // Delete

  /** `Place.delete(id)`: the places without that id remain, and the result
      says whether one was removed. */
  function Delete(db: Db, id: Value): (r: (Db, bool))
    ensures forall p :: p in r.0.places <==> p in db.places && !SqlEq(IntNum(p.id), id)
    ensures r.1 <==> exists p :: p in db.places && SqlEq(IntNum(p.id), id)
    ensures r.0.reservations == db.reservations && r.0.events == db.events
    ensures r.0.reviews == db.reviews && r.0.users == db.users
  {
    var (rest, removed) := DeleteWhere(db.places, (p: Place) => IntNum(p.id), id);
    (db.(places := rest), removed)
  }
}
