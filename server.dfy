/**
 * The HTTP layer's logic: turning the query string of `GET /api/weapon-skins`
 * into list options (`parseArrayParam`, the tri-state collectible flag, the
 * price pass-through and page defaults), the id check of the `:id` routes and
 * the status each route answers with. `parseInt` and `JSON.parse` are taken as
 * parameters: their parsing rules are not modelled.
 */
module Server {
  import opened Wrappers
  import opened Js
  import opened Text
  import SkinQuery
  import SkinStore

  /** A query-string value as Express hands it over. */
  datatype QueryValue = Absent | Text(s: string) | Many(items: seq<string>) | Nested

  /** What `JSON.parse` can return. */
  datatype Json = JNull | JBool(b: bool) | JNum(x: real) | JStr(s: string) | JArray(items: seq<Json>) | JObject

  /** A parsed JSON value as the list options see it; arrays and objects are opaque there. */
  function FromJson(j: Json): JsValue {
    match j
    case JNull => Null
    case JBool(b) => Bool(b)
    case JNum(x) => Num(x)
    case JStr(s) => Str(s)
    case JArray(_) => Object
    case JObject => Object
  }

  function FromJsonAll(js: seq<Json>): (vs: seq<JsValue>)
    ensures |vs| == |js|
    ensures forall i :: 0 <= i < |js| ==> vs[i] == FromJson(js[i])
  {
    if |js| == 0 then [] else [FromJson(js[0])] + FromJsonAll(js[1..])
  }

  function Strs(xs: seq<string>): (vs: seq<JsValue>)
    ensures |vs| == |xs|
    ensures forall i :: 0 <= i < |xs| ==> vs[i] == Str(xs[i])
  {
    if |xs| == 0 then [] else [Str(xs[0])] + Strs(xs[1..])
  }

  /** The value the handler sees for one query key. */
  function ToJs(v: QueryValue): JsValue {
    match v
    case Absent => Undefined
    case Text(s) => Str(s)
    case Many(_) => Object
    case Nested => Object
  }

  /**
   * `parseArrayParam`: nothing for a falsy value, an array as it is, a JSON
   * text as its array (or a one-element list), any other text split on
   * commas with the empty pieces dropped. `parse` is `JSON.parse`, `None`
   * where it throws.
   */
  function ParseArrayParam(param: QueryValue, parse: string -> Option<Json>): (values: seq<JsValue>)
    ensures !Truthy(ToJs(param)) ==> values == []
    ensures param.Many? ==> values == Strs(param.items)
    ensures param.Nested? ==> values == []
  {
    match param
    case Absent => []
    case Nested => []
    case Many(items) => Strs(items)
    case Text(s) =>
      if s == "" then []
      else match parse(s)
        case Some(JArray(items)) => FromJsonAll(items)
        case Some(j) => [FromJson(j)]
        case None => Strs(DropEmpty(Split(s, ',')))
  }

  /** A text that is not JSON is read as comma-separated values, empty ones dropped. */
  lemma CsvFallback(s: string, parse: string -> Option<Json>)
    requires s != "" && parse(s).None?
    ensures var values := ParseArrayParam(Text(s), parse);
      (forall i :: 0 <= i < |values| ==> values[i].Str? && values[i].s != "" && ',' !in values[i].s) &&
      (forall i :: 0 <= i < |values| ==> values[i].s in Split(s, ',')) &&
      (forall p :: p in Split(s, ',') && p != "" ==> Str(p) in values)
  {
    var pieces := DropEmpty(Split(s, ','));
    forall i | 0 <= i < |pieces| ensures ',' !in pieces[i] {
      var j :| 0 <= j < |Split(s, ',')| && Split(s, ',')[j] == pieces[i];
    }
    DropEmptyComplete(Split(s, ','));
    var values := Strs(pieces);
    forall p | p in Split(s, ',') && p != "" ensures Str(p) in values {
      var i :| 0 <= i < |pieces| && pieces[i] == p;
      assert values[i] == Str(p);
    }
  }

  /** An empty piece between two commas is dropped: `a,,b` reads as `a` and `b`. */
  lemma EmptyPieceDropped(parse: string -> Option<Json>)
    requires parse("a,,b").None?
    ensures ParseArrayParam(Text("a,,b"), parse) == [Str("a"), Str("b")]
  {
    SplitGap();
    assert ParseArrayParam(Text("a,,b"), parse) == Strs(["a", "b"]);
  }

  /** JSON input: an array is taken element by element, any other value becomes a one-element list. */
  lemma JsonInput(s: string, parse: string -> Option<Json>)
    requires s != "" && parse(s).Some?
    ensures parse(s).value.JArray? ==> ParseArrayParam(Text(s), parse) == FromJsonAll(parse(s).value.items)
    ensures !parse(s).value.JArray? ==> ParseArrayParam(Text(s), parse) == [FromJson(parse(s).value)]
  {
  }

  /**
   * Values written as `a,b,c` come back as they were, provided none is empty or
   * holds a comma and the text is not itself JSON.
   */
  lemma CsvRoundTrip(xs: seq<string>, parse: string -> Option<Json>)
    requires |xs| >= 1
    requires forall i :: 0 <= i < |xs| ==> xs[i] != "" && ',' !in xs[i]
    requires parse(Join(xs, ",")).None?
    ensures ParseArrayParam(Text(Join(xs, ",")), parse) == Strs(xs)
  {
    SplitJoin(xs, ',');
    DropEmptyKeeps(xs);
  }

  /** The query keys `GET /api/weapon-skins` reads. */
  datatype ListQuery = ListQuery(
    page: QueryValue, pageSize: QueryValue, minPrice: QueryValue, maxPrice: QueryValue,
    appearance: QueryValue, category: QueryValue, quality: QueryValue,
    isCollectible: QueryValue, baseWeapon: QueryValue)

  /** `parseInt(v)` after the destructuring default: an array is read through its string form. */
  function ParseIntOf(v: QueryValue, default: int, parseInt: string -> ParsedInt): ParsedInt {
    match v
    case Absent => Whole(default)
    case Text(s) => parseInt(s)
    case Many(items) => parseInt(Join(items, ","))
    case Nested => parseInt("[object Object]")
  }

  /** `isCollectible !== undefined ? isCollectible === "true" || isCollectible === "1" : null`. */
  function CollectibleFlag(v: QueryValue): (flag: JsValue)
    ensures flag == Null <==> v.Absent?
    ensures flag == Bool(true) <==> v == Text("true") || v == Text("1")
    ensures flag == Null || flag.Bool?
  {
    if v.Absent? then Null else Bool(v == Text("true") || v == Text("1"))
  }

  /** The options object the handler passes to the list query. */
  function Options(q: ListQuery, parseInt: string -> ParsedInt, parse: string -> Option<Json>): (o: SkinQuery.ListOptions)
    ensures o.page.Some? && o.pageSize.Some?
    ensures q.page.Absent? ==> o.page == Some(Whole(1))
    ensures q.pageSize.Absent? ==> o.pageSize == Some(Whole(12))
    ensures q.page.Text? ==> o.page == Some(parseInt(q.page.s))
    ensures q.pageSize.Text? ==> o.pageSize == Some(parseInt(q.pageSize.s))
    ensures !Truthy(ToJs(q.minPrice)) ==> o.minPrice == Null
    ensures Truthy(ToJs(q.minPrice)) ==> o.minPrice == ToJs(q.minPrice)
    ensures !Truthy(ToJs(q.maxPrice)) ==> o.maxPrice == Null
    ensures Truthy(ToJs(q.maxPrice)) ==> o.maxPrice == ToJs(q.maxPrice)
    ensures o.isCollectible == CollectibleFlag(q.isCollectible)
    ensures o.appearance == ParseArrayParam(q.appearance, parse) && o.category == ParseArrayParam(q.category, parse)
    ensures o.quality == ParseArrayParam(q.quality, parse) && o.baseWeapon == ParseArrayParam(q.baseWeapon, parse)
  {
    SkinQuery.ListOptions(
      Some(ParseIntOf(q.page, 1, parseInt)),
      Some(ParseIntOf(q.pageSize, 12, parseInt)),
      Or(ToJs(q.minPrice), Null),
      Or(ToJs(q.maxPrice), Null),
      ParseArrayParam(q.appearance, parse),
      ParseArrayParam(q.category, parse),
      ParseArrayParam(q.quality, parse),
      CollectibleFlag(q.isCollectible),
      ParseArrayParam(q.baseWeapon, parse))
  }

  /** Without page and pageSize in the query, the first twelve rows are asked for. */
  lemma DefaultPaging(q: ListQuery, parseInt: string -> ParsedInt, parse: string -> Option<Json>)
    requires q.page.Absent? && q.pageSize.Absent?
    ensures var o := Options(q, parseInt, parse);
      SkinQuery.PageOf(o) == Whole(1) && SkinQuery.PageSizeOf(o) == Whole(12) &&
      SkinQuery.Offset(SkinQuery.PageOf(o), SkinQuery.PageSizeOf(o)) == Whole(0)
  {
  }

  /**
   * From the query string to the SQL: the collectible filter is applied exactly
   * when the key is present, and binds 1 exactly for "true" or "1".
   */
  lemma CollectibleEndToEnd(q: ListQuery, parseInt: string -> ParsedInt, parse: string -> Option<Json>)
    ensures var o := Options(q, parseInt, parse);
      SkinQuery.CollectibleFilter(Default(o.isCollectible, Null)).conditions != [] <==> !q.isCollectible.Absent?
    ensures var o := Options(q, parseInt, parse);
      !q.isCollectible.Absent? ==>
        SkinQuery.CollectibleFilter(Default(o.isCollectible, Null)).params ==
          [SkinQuery.Value(Num(if q.isCollectible == Text("true") || q.isCollectible == Text("1") then 1.0 else 0.0))]
  {
  }

  /** The routes with a modelled status. */
  datatype Route = ListSkins | GetSkin | CreateSkin | UpdateSkin | DeleteSkin

  predicate HasId(route: Route) {
    route == GetSkin || route == UpdateSkin || route == DeleteSkin
  }

  /**
   * The status a route answers with: 400 for an id that parses to NaN (before
   * any model call), the route's error status when the model call throws, 201
   * for a creation and 200 otherwise.
   */
  function Status(route: Route, id: ParsedInt, threw: bool): (status: int)
    ensures status in {200, 201, 400, 404, 500}
    ensures HasId(route) && id.NotANumber? ==> status == 400
    ensures status == 201 <==> route == CreateSkin && !threw
    ensures status == 500 <==> route == ListSkins && threw
    ensures status == 404 <==> (route == GetSkin || route == DeleteSkin) && id.Whole? && threw
    ensures (route == CreateSkin || route == UpdateSkin) && threw && !(HasId(route) && id.NotANumber?) ==> status == 400
    ensures !threw && route != CreateSkin && !(HasId(route) && id.NotANumber?) ==> status == 200
  {
    if HasId(route) && id.NotANumber? then 400
    else if threw then
      match route
      case ListSkins => 500
      case GetSkin => 404
      case CreateSkin => 400
      case UpdateSkin => 400
      case DeleteSkin => 404
    else if route == CreateSkin then 201
    else 200
  }

  /**
   * The model file defines neither `getWeaponSkinById` nor `updateWeaponSkin`, so
   * calling either throws: a numeric id then always answers 404 on `GET` and 400 on `PUT`.
   */
  lemma MissingModelCalls(id: ParsedInt)
    requires id.Whole?
    ensures Status(GetSkin, id, true) == 404
    ensures Status(UpdateSkin, id, true) == 400
  {
  }

  /**
   * `DELETE /api/weapon-skins/:id`: an id that is not a number is answered with
   * 400 and touches nothing; otherwise the model's delete runs and a failure is
   * answered with 404.
   */
  method DeleteRoute(table: SkinStore.SkinTable, rawId: string, parseInt: string -> ParsedInt) returns (status: int)
    requires table.Valid()
    modifies table
    ensures table.Valid()
    ensures parseInt(rawId).NotANumber? ==> status == 400 && table.rows == old(table.rows)
    ensures parseInt(rawId).Whole? ==>
      var id := Num(parseInt(rawId).v as real);
      (status == 200 <==> Truthy(id) && SkinStore.Matches(old(table.rows), id) != {}) &&
      (status != 200 ==> status == 404 && table.rows == old(table.rows)) &&
      (status == 200 ==> table.rows == old(table.rows) - {parseInt(rawId).v})
  {
    var id := parseInt(rawId);
    if id.NotANumber? {
      return 400;
    }
    var outcome := table.Delete(Num(id.v as real));
    status := Status(DeleteSkin, id, outcome != SkinStore.Success);
  }

  /** `POST /api/weapon-skins`: the row is added and 201 answered with its id. */
  method CreateRoute(table: SkinStore.SkinTable, body: SkinStore.NewSkin) returns (status: int, insertId: int)
    requires table.Valid()
    modifies table
    ensures table.Valid()
    ensures status == 201
    ensures insertId !in old(table.rows) && table.rows == old(table.rows)[insertId := SkinStore.AddedRow(body)]
  {
    insertId := table.Add(body);
    status := Status(CreateSkin, Whole(0), false);
  }
}
