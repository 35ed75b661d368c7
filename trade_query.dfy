/**
 * The trade-item listing (`TradeItem.getAll`): a `1=1`-based WHERE clause
 * grown by `+=` for the category, quality and keyword filters, a sort column
 * taken from an allow-list and an ASC/DESC direction; and the distinct
 * category and quality lists.
 */
module TradeQuery {
  import opened Wrappers
  import opened Text

  /** The query parameters; an absent one is `None` and takes its destructuring default. */
  datatype TradeParams = TradeParams(
    category: Option<string>, quality: Option<string>, keyword: Option<string>,
    sort: Option<string>, order: Option<string>)

  /** A filter that made it into the clause, with the value it binds. */
  datatype TradeFilter = CategoryIs(category: string) | QualityIs(quality: string) | NameLike(keyword: string)

  /** `{ x = d } = params` for a string field. */
  function OrDefault(v: Option<string>, d: string): string {
    match v case None => d case Some(s) => s
  }

  /** The filters a request asks for, in the order they are appended: category, quality, keyword. */
  function Requested(category: string, quality: string, keyword: string): (fs: seq<TradeFilter>)
    ensures CategoryIs(category) in fs <==> category != ""
    ensures QualityIs(quality) in fs <==> quality != ""
    ensures NameLike(keyword) in fs <==> keyword != ""
    ensures |fs| <= 3
  {
    (if category != "" then [CategoryIs(category)] else []) +
    (if quality != "" then [QualityIs(quality)] else []) +
    (if keyword != "" then [NameLike(keyword)] else [])
  }

  /** The text one filter appends. */
  function Fragment(f: TradeFilter): string {
    match f
    case CategoryIs(_) => Bind(" AND category = ")
    case QualityIs(_) => Bind(" AND quality = ")
    case NameLike(_) => Bind(" AND name LIKE ")
  }

  /** The value one filter binds: the keyword is wrapped for a substring match. */
  function Bound(f: TradeFilter): string {
    match f
    case CategoryIs(c) => c
    case QualityIs(q) => q
    case NameLike(k) => "%" + k + "%"
  }

  /** The clause text after every filter's fragment is appended to `1=1`. */
  function Clause(fs: seq<TradeFilter>): string {
    if |fs| == 0 then "1=1" else Clause(fs[..|fs| - 1]) + Fragment(fs[|fs| - 1])
  }

  /** The parameters, one per filter, in the same order. */
  function Params(fs: seq<TradeFilter>): (ps: seq<string>)
    ensures |ps| == |fs|
    ensures forall i :: 0 <= i < |fs| ==> ps[i] == Bound(fs[i])
  {
    if |fs| == 0 then [] else Params(fs[..|fs| - 1]) + [Bound(fs[|fs| - 1])]
  }

  /** Each fragment carries exactly one placeholder. */
  lemma FragmentMarks(f: TradeFilter)
    ensures Marks(Fragment(f)) == 1
  {
    match f
    case CategoryIs(_) => BindMarks(" AND category = ");
    case QualityIs(_) => BindMarks(" AND quality = ");
    case NameLike(_) => BindMarks(" AND name LIKE ");
  }

  /** The clause has exactly one placeholder per bound parameter. */
  lemma {:induction false} ClauseMarks(fs: seq<TradeFilter>)
    ensures Marks(Clause(fs)) == |Params(fs)|
  {
    if |fs| == 0 {
      NoMarks("1=1");
    } else {
      ClauseMarks(fs[..|fs| - 1]);
      FragmentMarks(fs[|fs| - 1]);
      MarksAppend(Clause(fs[..|fs| - 1]), Fragment(fs[|fs| - 1]));
    }
  }

  /**
   * The clause and its parameters, built as the source builds them: start from
   * `1=1` and append a fragment and push a value for each non-empty filter.
   */
  method BuildWhere(category: string, quality: string, keyword: string)
    returns (whereClause: string, queryParams: seq<string>)
    ensures whereClause == Clause(Requested(category, quality, keyword))
    ensures queryParams == Params(Requested(category, quality, keyword))
    ensures Marks(whereClause) == |queryParams|
  {
    ghost var fs: seq<TradeFilter> := [];
    whereClause := "1=1";
    queryParams := [];
    if category != "" {
      whereClause, queryParams := Append(whereClause, queryParams, fs, CategoryIs(category));
      fs := fs + [CategoryIs(category)];
    }
    if quality != "" {
      whereClause, queryParams := Append(whereClause, queryParams, fs, QualityIs(quality));
      fs := fs + [QualityIs(quality)];
    }
    if keyword != "" {
      whereClause, queryParams := Append(whereClause, queryParams, fs, NameLike(keyword));
      fs := fs + [NameLike(keyword)];
    }
    assert fs == Requested(category, quality, keyword);
    ClauseMarks(fs);
  }

  /** `whereClause += fragment; queryParams.push(value)` for one filter. */
  method Append(whereClause: string, queryParams: seq<string>, ghost fs: seq<TradeFilter>, f: TradeFilter)
    returns (whereClause': string, queryParams': seq<string>)
    requires whereClause == Clause(fs) && queryParams == Params(fs)
    ensures whereClause' == Clause(fs + [f]) && queryParams' == Params(fs + [f])
  {
    assert (fs + [f])[..|fs|] == fs;
    whereClause' := whereClause + Fragment(f);
    queryParams' := queryParams + [Bound(f)];
  }

  /** With every filter empty the clause is just `1=1` and nothing is bound. */
  lemma NoFilters()
    ensures Clause(Requested("", "", "")) == "1=1" && Params(Requested("", "", "")) == []
  {
    assert Requested("", "", "") == [];
  }

  /** A keyword is always bound last, wrapped in `%`. */
  lemma KeywordLast(category: string, quality: string, keyword: string)
    requires keyword != ""
    ensures var ps := Params(Requested(category, quality, keyword));
      |ps| > 0 && ps[|ps| - 1] == "%" + keyword + "%"
  {
    var fs := Requested(category, quality, keyword);
    assert fs[|fs| - 1] == NameLike(keyword);
  }

  const ValidSorts: seq<string> := ["price", "sell_count", "created_at"]

  /** `validSorts.includes(sort) ? sort : 'price'`. */
  function SortField(sort: string): (field: string)
    ensures field in ValidSorts
    ensures field == sort <==> sort in ValidSorts
  {
    if sort in ValidSorts then sort else "price"
  }

  /** `order.toUpperCase() === 'DESC' ? 'DESC' : 'ASC'`. */
  function OrderType(order: string): (direction: string)
    ensures direction == "DESC" || direction == "ASC"
  {
    if Upper(order) == "DESC" then "DESC" else "ASC"
  }

  /** Upper-casing gives a capital letter exactly from that letter or its lower-case form. */
  lemma UpperCharIs(ch: char, lower: char, upper: char)
    requires 'a' <= lower <= 'z' && upper == (lower as int - 'a' as int + 'A' as int) as char
    ensures UpperChar(ch) == upper <==> ch == lower || ch == upper
  {
  }

  /** The order is descending exactly for "desc" spelt in any mix of cases. */
  lemma OrderTypeDescIff(order: string)
    ensures OrderType(order) == "DESC" <==>
      |order| == 4 && order[0] in "dD" && order[1] in "eE" && order[2] in "sS" && order[3] in "cC"
  {
    if |order| == 4 {
      UpperCharIs(order[0], 'd', 'D');
      UpperCharIs(order[1], 'e', 'E');
      UpperCharIs(order[2], 's', 'S');
      UpperCharIs(order[3], 'c', 'C');
      if Upper(order) == "DESC" {
        assert Upper(order)[0] == 'D' && Upper(order)[1] == 'E' && Upper(order)[2] == 'S' && Upper(order)[3] == 'C';
      }
    }
  }

  /** The statement's text, whitespace and all. */
  function Query(whereClause: string, sortField: string, orderType: string): string {
    "\n      SELECT * FROM trade_items \n      WHERE " + whereClause +
    "\n      ORDER BY " + sortField + " " + orderType + "\n    "
  }

  /** `TradeItem.getAll(params)`: the statement it executes and the values it binds. */
  method GetAll(params: TradeParams) returns (query: string, queryParams: seq<string>)
    ensures var fs := Requested(OrDefault(params.category, ""), OrDefault(params.quality, ""),
                                OrDefault(params.keyword, ""));
      query == Query(Clause(fs), SortField(OrDefault(params.sort, "price")), OrderType(OrDefault(params.order, "ASC")))
      && queryParams == Params(fs)
  {
    var category, quality, keyword := OrDefault(params.category, ""), OrDefault(params.quality, ""),
                                      OrDefault(params.keyword, "");
    var sort, order := OrDefault(params.sort, "price"), OrDefault(params.order, "ASC");
    var whereClause;
    whereClause, queryParams := BuildWhere(category, quality, keyword);
    var sortField := SortField(sort);
    var orderType := OrderType(order);
    query := Query(whereClause, sortField, orderType);
  }

  /** With no parameters at all, rows come ordered by price ascending and unfiltered. */
  lemma DefaultsOrderByPrice()
    ensures SortField(OrDefault(None, "price")) == "price" && OrderType(OrDefault(None, "ASC")) == "ASC"
  {
    OrderTypeDescIff("ASC");
  }

  /** A row of `trade_items`, as far as the listings read it. */
  datatype TradeRow = TradeRow(category: string, quality: string)

  /** `SELECT DISTINCT`: each value once, at its first occurrence. */
  function Distinct(xs: seq<string>): (ds: seq<string>)
    ensures forall x :: x in ds <==> x in xs
    ensures forall i, j :: 0 <= i < j < |ds| ==> ds[i] != ds[j]
  {
    if |xs| == 0 then []
    else
      var init := Distinct(xs[..|xs| - 1]);
      assert forall x :: x in xs <==> x in xs[..|xs| - 1] || x == xs[|xs| - 1] by {
        assert xs == xs[..|xs| - 1] + [xs[|xs| - 1]];
      }
      if xs[|xs| - 1] in init then init else init + [xs[|xs| - 1]]
  }

  /** Distinct values keep the order of their first occurrence. */
  lemma {:induction false} DistinctKeepsOrder(xs: seq<string>, i: nat, j: nat)
    requires i < j < |xs| && xs[i] != xs[j]
    requires xs[i] !in xs[..i] && xs[j] !in xs[..j]
    ensures exists a, b :: 0 <= a < b < |Distinct(xs)| && Distinct(xs)[a] == xs[i] && Distinct(xs)[b] == xs[j]
    decreases |xs|
  {
    var init := xs[..|xs| - 1];
    assert init[..i] == xs[..i];
    if j < |xs| - 1 {
      assert init[..j] == xs[..j];
      DistinctKeepsOrder(init, i, j);
      var a, b :| 0 <= a < b < |Distinct(init)| && Distinct(init)[a] == xs[i] && Distinct(init)[b] == xs[j];
      assert Distinct(xs)[a] == xs[i] && Distinct(xs)[b] == xs[j];
    } else {
      assert xs[j] !in init;
      assert xs[i] in init;
      var d := Distinct(init);
      var a :| 0 <= a < |d| && d[a] == xs[i];
      assert Distinct(xs) == d + [xs[j]];
      assert Distinct(xs)[a] == xs[i] && Distinct(xs)[|d|] == xs[j];
    }
  }

  function Categories(rows: seq<TradeRow>): (cs: seq<string>)
    ensures |cs| == |rows|
    ensures forall i :: 0 <= i < |rows| ==> cs[i] == rows[i].category
  {
    if |rows| == 0 then [] else [rows[0].category] + Categories(rows[1..])
  }

  function Qualities(rows: seq<TradeRow>): (qs: seq<string>)
    ensures |qs| == |rows|
    ensures forall i :: 0 <= i < |rows| ==> qs[i] == rows[i].quality
  {
    if |rows| == 0 then [] else [rows[0].quality] + Qualities(rows[1..])
  }

  /** `getCategories`: the distinct categories, each once. */
  function DistinctCategories(rows: seq<TradeRow>): (cs: seq<string>)
    ensures forall c :: c in cs <==> exists i :: 0 <= i < |rows| && rows[i].category == c
    ensures forall i, j :: 0 <= i < j < |cs| ==> cs[i] != cs[j]
  {
    var all := Categories(rows);
    assert forall c :: c in all <==> exists i :: 0 <= i < |rows| && rows[i].category == c by {
      forall c ensures c in all <==> exists i :: 0 <= i < |rows| && rows[i].category == c {
        if c in all {
          var i :| 0 <= i < |all| && all[i] == c;
          assert rows[i].category == c;
        }
      }
    }
    Distinct(all)
  }

  /** `getQualities`: the distinct qualities, each once. */
  function DistinctQualities(rows: seq<TradeRow>): (qs: seq<string>)
    ensures forall q :: q in qs <==> exists i :: 0 <= i < |rows| && rows[i].quality == q
    ensures forall i, j :: 0 <= i < j < |qs| ==> qs[i] != qs[j]
  {
    var all := Qualities(rows);
    assert forall q :: q in all <==> exists i :: 0 <= i < |rows| && rows[i].quality == q by {
      forall q ensures q in all <==> exists i :: 0 <= i < |rows| && rows[i].quality == q {
        if q in all {
          var i :| 0 <= i < |all| && all[i] == q;
          assert rows[i].quality == q;
        }
      }
    }
    Distinct(all)
  }
}
