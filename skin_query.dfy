/**
 * The list query of the weapon-skin catalog (`getWeaponSkinsWithPagination`):
 * filter codes are normalised to stored labels, a parameterised
 * `WHERE … AND …` clause is assembled from the filters that are present,
 * and page/pageSize are turned into LIMIT/OFFSET and pagination flags.
 * SQL execution is not modelled: a statement is its text and its parameters,
 * and the row count is an input.
 */
module SkinQuery {
  import opened Wrappers
  import opened Js
  import opened Text

  /** The code → label tables hard-coded in the builder. */
  const AppearanceMap: map<string, string> := map[
    "factory_new" := "崭新出厂",
    "minimal_wear" := "略有磨损",
    "field_tested" := "久经沙场",
    "well_worn" := "破损不堪",
    "battle_scarred" := "战痕累累"]

  const CategoryMap: map<string, string> := map[
    "weapon_skin" := "武器皮肤",
    "sticker" := "印花",
    "glove" := "手套",
    "knife" := "刀具",
    "music_kit" := "音乐盒"]

  const QualityMap: map<string, string> := map[
    "consumer" := "消费级",
    "industrial" := "工业级",
    "milspec" := "军规级",
    "restricted" := "受限",
    "classified" := "保密",
    "covert" := "隐秘",
    "exceedingly_rare" := "非凡"]

  /** A column filtered with `IN (…)`. */
  datatype InColumn = AppearanceColumn | CategoryColumn | QualityColumn | BaseWeaponColumn

  function ColumnName(column: InColumn): (name: string)
    ensures '?' !in name
  {
    match column
    case AppearanceColumn => "appearance"
    case CategoryColumn => "category"
    case QualityColumn => "quality"
    case BaseWeaponColumn => "baseWeapon"
  }

  /**
   * A condition the builder pushes, named by what it tests; `Sql` gives the
   * exact text pushed. `In(column, n)` is `column IN (?,…,?)` with n marks.
   */
  datatype Condition = MinPrice | MaxPrice | Collectible | In(column: InColumn, n: nat)

  /** `column IN (?,…,?)` over n values. */
  function InCondition(column: InColumn, n: nat): string {
    ColumnName(column) + " IN (" + Placeholders(n) + ")"
  }

  /** The text of a condition. */
  function Sql(c: Condition): string {
    match c
    case MinPrice => Bind("price >= ")
    case MaxPrice => Bind("price <= ")
    case Collectible => Bind("isCollectible = ")
    case In(column, n) => InCondition(column, n)
  }

  /** How many values a condition binds. */
  function Arity(c: Condition): nat {
    if c.In? then c.n else 1
  }

  /** The text of every condition carries exactly as many `?` as the values it binds. */
  lemma SqlArity(c: Condition)
    ensures Marks(Sql(c)) == Arity(c)
  {
    match c
    case MinPrice => BindMarks("price >= ");
    case MaxPrice => BindMarks("price <= ");
    case Collectible => BindMarks("isCollectible = ");
    case In(column, n) => InConditionMarks(column, n);
  }

  lemma InConditionMarks(column: InColumn, n: nat)
    ensures Marks(InCondition(column, n)) == n
  {
    var name := ColumnName(column);
    NoMarks(name);
    NoMarks(" IN (");
    NoMarks(")");
    MarksAppend(name, " IN (");
    MarksAppend(name + " IN (", Placeholders(n));
    MarksAppend(name + " IN (" + Placeholders(n), ")");
  }

  const DefaultPage := 1
  const DefaultPageSize := 12

  /** The options object; an absent array is `[]`, an absent scalar `Undefined`, an absent page `None`. */
  datatype ListOptions = ListOptions(
    page: Option<ParsedInt>,
    pageSize: Option<ParsedInt>,
    minPrice: JsValue,
    maxPrice: JsValue,
    appearance: seq<JsValue>,
    category: seq<JsValue>,
    quality: seq<JsValue>,
    isCollectible: JsValue,
    baseWeapon: seq<JsValue>)

  /**
   * A bound parameter: a value passed as is, `parseFloat(raw)` (left
   * uninterpreted), or one of the numbers bound to LIMIT and OFFSET.
   */
  datatype Param = Value(v: JsValue) | FloatOf(raw: JsValue) | Number(n: ParsedInt)

  /** The builder's two parallel lists. */
  datatype Clause = Clause(conditions: seq<Condition>, params: seq<Param>)

  /** A statement handed to the database: its SQL text and its bound parameters. */
  datatype Statement = Statement(sql: string, params: seq<Param>)

  /** `map[val] || val` for one entry. */
  function Label(table: map<string, string>, v: JsValue): (r: JsValue)
    ensures v.Str? && v.s in table && table[v.s] != "" ==> r == Str(table[v.s])
    ensures !(v.Str? && v.s in table) ==> r == v
  {
    Or(if v.Str? && v.s in table then Str(table[v.s]) else Undefined, v)
  }

  /** `codes.map(val => table[val] || val).filter(Boolean)`. */
  function Normalise(table: map<string, string>, codes: seq<JsValue>): (labels: seq<JsValue>)
    ensures |labels| <= |codes|
    ensures forall i :: 0 <= i < |labels| ==> Truthy(labels[i])
  {
    if |codes| == 0 then []
    else
      var l := Label(table, codes[0]);
      (if Truthy(l) then [l] else []) + Normalise(table, codes[1..])
  }

  /** Every truthy label of an input code survives normalisation. */
  lemma {:induction false} NormaliseKeeps(table: map<string, string>, codes: seq<JsValue>, i: nat)
    requires i < |codes| && Truthy(Label(table, codes[i]))
    ensures Label(table, codes[i]) in Normalise(table, codes)
  {
    if i > 0 {
      NormaliseKeeps(table, codes[1..], i - 1);
    }
  }

  /** Every normalised value is the label of some input code. */
  lemma {:induction false} NormaliseFrom(table: map<string, string>, codes: seq<JsValue>, j: nat)
    requires j < |Normalise(table, codes)|
    ensures exists i :: 0 <= i < |codes| && Normalise(table, codes)[j] == Label(table, codes[i])
  {
    var l := Label(table, codes[0]);
    var head := if Truthy(l) then [l] else [];
    if j >= |head| {
      NormaliseFrom(table, codes[1..], j - |head|);
      var i :| 0 <= i < |codes[1..]| && Normalise(table, codes[1..])[j - |head|] == Label(table, codes[1..][i]);
      assert Normalise(table, codes)[j] == Label(table, codes[i + 1]);
    } else {
      assert Normalise(table, codes)[j] == Label(table, codes[0]);
    }
  }

  /** When every code is a known one with a non-empty label, normalisation maps each code to its label, one for one. */
  lemma {:induction false} NormaliseKnown(table: map<string, string>, codes: seq<JsValue>)
    requires forall i :: 0 <= i < |codes| ==> codes[i].Str? && codes[i].s in table && table[codes[i].s] != ""
    ensures |Normalise(table, codes)| == |codes|
    ensures forall i :: 0 <= i < |codes| ==> Normalise(table, codes)[i] == Str(table[codes[i].s])
  {
    if |codes| > 0 {
      NormaliseKnown(table, codes[1..]);
    }
  }

  /** A falsy-only input (every code falsy and unknown) normalises to nothing. */
  lemma {:induction false} NormaliseFalsy(table: map<string, string>, codes: seq<JsValue>)
    requires "" !in table
    requires forall i :: 0 <= i < |codes| ==> !Truthy(codes[i])
    ensures Normalise(table, codes) == []
  {
    if |codes| > 0 {
      NormaliseFalsy(table, codes[1..]);
    }
  }

  /** `p !== null && p !== ""` after the `= null` default. */
  predicate Supplied(v: JsValue) {
    !v.Undefined? && !v.Null? && v != Str("")
  }

  /** The bound for the collectible flag: 1 for true, "true" or 1, else 0. */
  function CollectibleBit(v: JsValue): real {
    if v == Bool(true) || v == Str("true") || v == Num(1.0) then 1.0 else 0.0
  }

  /** The values bound as they are, in order. */
  function Values(vs: seq<JsValue>): (ps: seq<Param>)
    ensures |ps| == |vs|
    ensures forall i :: 0 <= i < |vs| ==> ps[i] == Value(vs[i])
  {
    if |vs| == 0 then [] else [Value(vs[0])] + Values(vs[1..])
  }

  function PriceFilter(condition: Condition, bound: JsValue): Clause {
    if Supplied(bound) then Clause([condition], [FloatOf(bound)]) else Clause([], [])
  }

  function InFilter(column: InColumn, values: seq<JsValue>): Clause {
    if |values| > 0 then Clause([In(column, |values|)], Values(values)) else Clause([], [])
  }

  function CollectibleFilter(v: JsValue): Clause {
    if Supplied(v) then Clause([Collectible], [Value(Num(CollectibleBit(v)))]) else Clause([], [])
  }

  function Then(a: Clause, b: Clause): Clause {
    Clause(a.conditions + b.conditions, a.params + b.params)
  }

  /**
   * The clause the options describe: the filters in the fixed order
   * minPrice, maxPrice, appearance, category, quality, isCollectible, baseWeapon,
   * with the categorical codes normalised to labels.
   */
  function Filters(o: ListOptions): Clause {
    Chain(o, Normalise(AppearanceMap, o.appearance), Normalise(CategoryMap, o.category),
          Normalise(QualityMap, o.quality))
  }

  /** The filter chain, given the normalised appearance, category and quality labels. */
  function Chain(o: ListOptions, appearance: seq<JsValue>, category: seq<JsValue>, quality: seq<JsValue>): Clause {
    Then(Then(Then(Then(Then(Then(Then(
      Clause([], []),
      PriceFilter(MinPrice, Default(o.minPrice, Null))),
      PriceFilter(MaxPrice, Default(o.maxPrice, Null))),
      InFilter(AppearanceColumn, appearance)),
      InFilter(CategoryColumn, category)),
      InFilter(QualityColumn, quality)),
      CollectibleFilter(Default(o.isCollectible, Null))),
      InFilter(BaseWeaponColumn, o.baseWeapon))
  }

  /** The values the conditions bind, in total. */
  function Arities(cs: seq<Condition>): nat {
    if |cs| == 0 then 0 else Arities(cs[..|cs| - 1]) + Arity(cs[|cs| - 1])
  }

  lemma {:induction false} AritiesAppend(xs: seq<Condition>, ys: seq<Condition>)
    ensures Arities(xs + ys) == Arities(xs) + Arities(ys)
    decreases |ys|
  {
    if |ys| > 0 {
      assert (xs + ys)[..|xs + ys| - 1] == xs + ys[..|ys| - 1];
      AritiesAppend(xs, ys[..|ys| - 1]);
    } else {
      assert xs + ys == xs;
    }
  }

  /** Conditions and parameters agree in number, and no condition binds nothing (no `IN ()`). */
  predicate Balanced(c: Clause) {
    Arities(c.conditions) == |c.params| && forall i :: 0 <= i < |c.conditions| ==> Arity(c.conditions[i]) >= 1
  }

  lemma ThenBalanced(a: Clause, b: Clause)
    requires Balanced(a) && Balanced(b)
    ensures Balanced(Then(a, b))
  {
    AritiesAppend(a.conditions, b.conditions);
    var cs := Then(a, b).conditions;
    forall i | 0 <= i < |cs| ensures Arity(cs[i]) >= 1 {
      if i >= |a.conditions| {
        assert cs[i] == b.conditions[i - |a.conditions|];
      }
    }
  }

  /** Every filter on its own is balanced. */
  lemma PriceFilterBalanced(condition: Condition, bound: JsValue)
    requires !condition.In?
    ensures Balanced(PriceFilter(condition, bound))
  {
    assert [condition][..0] == [];
  }

  lemma InFilterBalanced(column: InColumn, values: seq<JsValue>)
    ensures Balanced(InFilter(column, values))
  {
    assert [In(column, |values|)][..0] == [];
  }

  lemma CollectibleFilterBalanced(v: JsValue)
    ensures Balanced(CollectibleFilter(v))
  {
    assert [Collectible][..0] == [];
  }

  lemma ChainBalanced(o: ListOptions, appearance: seq<JsValue>, category: seq<JsValue>, quality: seq<JsValue>)
    ensures Balanced(Chain(o, appearance, category, quality))
  {
    var c1 := PriceFilter(MinPrice, Default(o.minPrice, Null));
    var c2 := PriceFilter(MaxPrice, Default(o.maxPrice, Null));
    var c3 := InFilter(AppearanceColumn, appearance);
    var c4 := InFilter(CategoryColumn, category);
    var c5 := InFilter(QualityColumn, quality);
    var c6 := CollectibleFilter(Default(o.isCollectible, Null));
    var c7 := InFilter(BaseWeaponColumn, o.baseWeapon);
    PriceFilterBalanced(MinPrice, Default(o.minPrice, Null));
    PriceFilterBalanced(MaxPrice, Default(o.maxPrice, Null));
    InFilterBalanced(AppearanceColumn, appearance);
    InFilterBalanced(CategoryColumn, category);
    InFilterBalanced(QualityColumn, quality);
    CollectibleFilterBalanced(Default(o.isCollectible, Null));
    InFilterBalanced(BaseWeaponColumn, o.baseWeapon);
    assert Then(Clause([], []), c1) == c1;
    ThenBalanced(c1, c2);
    ThenBalanced(Then(c1, c2), c3);
    ThenBalanced(Then(Then(c1, c2), c3), c4);
    ThenBalanced(Then(Then(Then(c1, c2), c3), c4), c5);
    ThenBalanced(Then(Then(Then(Then(c1, c2), c3), c4), c5), c6);
    ThenBalanced(Then(Then(Then(Then(Then(c1, c2), c3), c4), c5), c6), c7);
  }

  /**
   * The conditions bind exactly as many values as there are parameters,
   * and no condition binds none, so no `IN ()` is ever emitted.
   */
  lemma FiltersBalanced(o: ListOptions)
    ensures Arities(Filters(o).conditions) == |Filters(o).params|
    ensures forall i :: 0 <= i < |Filters(o).conditions| ==> Arity(Filters(o).conditions[i]) >= 1
  {
    ChainBalanced(o, Normalise(AppearanceMap, o.appearance), Normalise(CategoryMap, o.category),
                  Normalise(QualityMap, o.quality));
  }

  /** With no filter supplied, there is no condition and no parameter. */
  lemma NoFiltersNoClause(o: ListOptions)
    requires !Supplied(Default(o.minPrice, Null)) && !Supplied(Default(o.maxPrice, Null))
    requires !Supplied(Default(o.isCollectible, Null))
    requires o.appearance == [] && o.category == [] && o.quality == [] && o.baseWeapon == []
    ensures Filters(o) == Clause([], [])
  {
  }

  /** The labels that are matched against a column. */
  function ColumnValues(o: ListOptions, column: InColumn): seq<JsValue> {
    match column
    case AppearanceColumn => Normalise(AppearanceMap, o.appearance)
    case CategoryColumn => Normalise(CategoryMap, o.category)
    case QualityColumn => Normalise(QualityMap, o.quality)
    case BaseWeaponColumn => o.baseWeapon
  }

  /**
   * A column is filtered on exactly when its (normalised) list is non-empty, and
   * then by one condition binding one `?` per value.
   */
  lemma ColumnConditionIff(o: ListOptions, column: InColumn)
    ensures In(column, |ColumnValues(o, column)|) in Filters(o).conditions <==> |ColumnValues(o, column)| > 0
    ensures forall c :: c in Filters(o).conditions && c.In? && c.column == column ==>
      c == In(column, |ColumnValues(o, column)|)
  {
    var appearance, category, quality :=
      Normalise(AppearanceMap, o.appearance), Normalise(CategoryMap, o.category), Normalise(QualityMap, o.quality);
    ChainColumnPresent(o, appearance, category, quality, column);
    ChainColumnOnly(o, appearance, category, quality, column);
  }

  /** The values a column is matched against, among the chain's inputs. */
  function Pick(o: ListOptions, appearance: seq<JsValue>, category: seq<JsValue>, quality: seq<JsValue>,
                column: InColumn): seq<JsValue>
  {
    match column
    case AppearanceColumn => appearance
    case CategoryColumn => category
    case QualityColumn => quality
    case BaseWeaponColumn => o.baseWeapon
  }

  lemma ChainColumnPresent(o: ListOptions, appearance: seq<JsValue>, category: seq<JsValue>, quality: seq<JsValue>,
                           column: InColumn)
    ensures var n := |Pick(o, appearance, category, quality, column)|;
      In(column, n) in Chain(o, appearance, category, quality).conditions <==> n > 0
  {
    var n := |Pick(o, appearance, category, quality, column)|;
    var t := In(column, n);
    var lo, hi := PriceFilter(MinPrice, Default(o.minPrice, Null)), PriceFilter(MaxPrice, Default(o.maxPrice, Null));
    var a, c, q := InFilter(AppearanceColumn, appearance), InFilter(CategoryColumn, category), InFilter(QualityColumn, quality);
    var k, b := CollectibleFilter(Default(o.isCollectible, Null)), InFilter(BaseWeaponColumn, o.baseWeapon);
    InFilterHas(AppearanceColumn, appearance, column, n);
    InFilterHas(CategoryColumn, category, column, n);
    InFilterHas(QualityColumn, quality, column, n);
    InFilterHas(BaseWeaponColumn, o.baseWeapon, column, n);
    var acc := Then(Then(Clause([], []), lo), hi);
    assert t !in acc.conditions;
    var withA := Then(acc, a);
    assert t in withA.conditions <==> t in a.conditions;
    var withC := Then(withA, c);
    assert t in withC.conditions <==> t in a.conditions || t in c.conditions;
    var withQ := Then(withC, q);
    assert t in withQ.conditions <==> t in a.conditions || t in c.conditions || t in q.conditions;
    var withK := Then(withQ, k);
    assert t in withK.conditions <==> t in withQ.conditions;
    var chain := Then(withK, b);
    assert chain == Chain(o, appearance, category, quality);
    assert t in chain.conditions <==> t in a.conditions || t in c.conditions || t in q.conditions || t in b.conditions;
  }

  /** An `IN` filter holds a given condition exactly when it is that filter's own, over a non-empty list. */
  lemma InFilterHas(own: InColumn, values: seq<JsValue>, column: InColumn, n: nat)
    ensures In(column, n) in InFilter(own, values).conditions <==> |values| > 0 && own == column && |values| == n
  {
  }

  lemma ChainColumnOnly(o: ListOptions, appearance: seq<JsValue>, category: seq<JsValue>, quality: seq<JsValue>,
                        column: InColumn)
    ensures forall c :: c in Chain(o, appearance, category, quality).conditions && c.In? && c.column == column ==>
      c == In(column, |Pick(o, appearance, category, quality, column)|)
  {
    var n := |Pick(o, appearance, category, quality, column)|;
    var lo, hi := PriceFilter(MinPrice, Default(o.minPrice, Null)), PriceFilter(MaxPrice, Default(o.maxPrice, Null));
    var a, c, q := InFilter(AppearanceColumn, appearance), InFilter(CategoryColumn, category), InFilter(QualityColumn, quality);
    var k, b := CollectibleFilter(Default(o.isCollectible, Null)), InFilter(BaseWeaponColumn, o.baseWeapon);
    assert OnlyIn(a.conditions, column, n) && OnlyIn(c.conditions, column, n);
    assert OnlyIn(q.conditions, column, n) && OnlyIn(b.conditions, column, n);
    var acc := Then(Clause([], []), lo);
    OnlyInAppend([], lo.conditions, column, n);
    OnlyInAppend(acc.conditions, hi.conditions, column, n);
    acc := Then(acc, hi);
    OnlyInAppend(acc.conditions, a.conditions, column, n);
    acc := Then(acc, a);
    OnlyInAppend(acc.conditions, c.conditions, column, n);
    acc := Then(acc, c);
    OnlyInAppend(acc.conditions, q.conditions, column, n);
    acc := Then(acc, q);
    OnlyInAppend(acc.conditions, k.conditions, column, n);
    acc := Then(acc, k);
    OnlyInAppend(acc.conditions, b.conditions, column, n);
    acc := Then(acc, b);
    assert acc == Chain(o, appearance, category, quality);
  }

  /** Every `IN` condition on `column` among `cs` binds n values. */
  predicate OnlyIn(cs: seq<Condition>, column: InColumn, n: nat) {
    forall x :: x in cs && x.In? && x.column == column ==> x == In(column, n)
  }

  lemma OnlyInAppend(xs: seq<Condition>, ys: seq<Condition>, column: InColumn, n: nat)
    requires OnlyIn(xs, column, n) && OnlyIn(ys, column, n)
    ensures OnlyIn(xs + ys, column, n)
  {
  }

  /** The rendered conditions, in order. */
  function Rendered(cs: seq<Condition>): (texts: seq<string>)
    ensures |texts| == |cs|
    ensures MarksIn(texts) == Arities(cs)
  {
    if |cs| == 0 then [] else
      var init := Rendered(cs[..|cs| - 1]);
      SqlArity(cs[|cs| - 1]);
      assert (init + [Sql(cs[|cs| - 1])])[..|cs| - 1] == init;
      init + [Sql(cs[|cs| - 1])]
  }

  /** `WHERE c1 AND c2 …`, or nothing at all when there is no condition. */
  function WhereClause(cs: seq<Condition>): (r: string)
    ensures r == "" <==> cs == []
    ensures Marks(r) == Arities(cs)
  {
    NoMarks(" AND ");
    NoMarks("WHERE ");
    MarksOfJoin(Rendered(cs), " AND ");
    MarksAppend("WHERE ", Join(Rendered(cs), " AND "));
    if |cs| > 0 then "WHERE " + Join(Rendered(cs), " AND ") else ""
  }

  /** One price bound: `if (bound !== null && bound !== "") { conditions.push(…); params.push(parseFloat(bound)); }`. */
  method PushPrice(conditions: seq<Condition>, params: seq<Param>, condition: Condition, bound: JsValue)
    returns (conditions': seq<Condition>, params': seq<Param>)
    ensures Clause(conditions', params') == Then(Clause(conditions, params), PriceFilter(condition, bound))
  {
    conditions', params' := conditions, params;
    if bound != Null && bound != Str("") && bound != Undefined {
      conditions' := conditions' + [condition];
      params' := params' + [FloatOf(bound)];
    }
  }

  /** One `IN` filter over values already normalised: nothing when there are none. */
  method PushIn(conditions: seq<Condition>, params: seq<Param>, column: InColumn, values: seq<JsValue>)
    returns (conditions': seq<Condition>, params': seq<Param>)
    ensures Clause(conditions', params') == Then(Clause(conditions, params), InFilter(column, values))
  {
    conditions', params' := conditions, params;
    if |values| > 0 {
      conditions' := conditions' + [In(column, |values|)];
      params' := params' + Values(values);
    }
  }

  /** The collectible flag: `if (isCollectible !== null && isCollectible !== "")`, bound as 1 or 0. */
  method PushCollectible(conditions: seq<Condition>, params: seq<Param>, flag: JsValue)
    returns (conditions': seq<Condition>, params': seq<Param>)
    ensures Clause(conditions', params') == Then(Clause(conditions, params), CollectibleFilter(flag))
  {
    conditions', params' := conditions, params;
    if flag != Null && flag != Str("") && flag != Undefined {
      conditions' := conditions' + [Collectible];
      params' := params' + [Value(Num(CollectibleBit(flag)))];
    }
  }

  /** `codes && codes.length > 0 ? codes.map(…).filter(Boolean) : []`. */
  method Labels(table: map<string, string>, codes: seq<JsValue>) returns (labels: seq<JsValue>)
    ensures labels == Normalise(table, codes)
  {
    labels := [];
    if |codes| > 0 {
      labels := Normalise(table, codes);
    }
  }

  /** The condition/parameter lists built by successive pushes, in source order. */
  method BuildFilters(o: ListOptions) returns (conditions: seq<Condition>, params: seq<Param>)
    ensures Clause(conditions, params) == Filters(o)
  {
    conditions, params := [], [];
    conditions, params := PushPrice(conditions, params, MinPrice, Default(o.minPrice, Null));
    conditions, params := PushPrice(conditions, params, MaxPrice, Default(o.maxPrice, Null));
    var appearance := Labels(AppearanceMap, o.appearance);
    conditions, params := PushIn(conditions, params, AppearanceColumn, appearance);
    var category := Labels(CategoryMap, o.category);
    conditions, params := PushIn(conditions, params, CategoryColumn, category);
    var quality := Labels(QualityMap, o.quality);
    conditions, params := PushIn(conditions, params, QualityColumn, quality);
    conditions, params := PushCollectible(conditions, params, Default(o.isCollectible, Null));
    conditions, params := PushIn(conditions, params, BaseWeaponColumn, o.baseWeapon);
  }

  // ---- pagination ----

  /** `Math.ceil(total / pageSize)`: a page count, Infinity (x/0 with x > 0) or NaN (0/0, NaN). */
  datatype PageCount = Pages(n: int) | Infinite | Indeterminate

  function PageOf(o: ListOptions): ParsedInt {
    match o.page case None => Whole(DefaultPage) case Some(p) => p
  }

  function PageSizeOf(o: ListOptions): ParsedInt {
    match o.pageSize case None => Whole(DefaultPageSize) case Some(s) => s
  }

  /** `(page - 1) * pageSize`, NaN when either is NaN. */
  function Offset(page: ParsedInt, pageSize: ParsedInt): ParsedInt {
    if page.Whole? && pageSize.Whole? then Whole((page.v - 1) * pageSize.v) else NotANumber
  }

  function TotalPages(total: nat, pageSize: ParsedInt): PageCount {
    match pageSize
    case NotANumber => Indeterminate
    case Whole(d) =>
      if d > 0 then Pages((total + d - 1) / d)
      else if d < 0 then Pages(-(total / -d))
      else if total == 0 then Indeterminate
      else Infinite
  }

  /** For a positive page size the page count is the least n with n * pageSize >= total. */
  lemma TotalPagesPositive(total: nat, d: int)
    requires d > 0
    ensures TotalPages(total, Whole(d)).Pages?
    ensures var n := TotalPages(total, Whole(d)).n;
      n >= 0 && (n - 1) * d < total <= n * d
  {
    var n := (total + d - 1) / d;
    var r := (total + d - 1) % d;
    assert total + d - 1 == n * d + r;
    assert n * d - d == (n - 1) * d;
  }

  /** For a negative page size the result is still the ceiling of the quotient. */
  lemma TotalPagesNegative(total: nat, d: int)
    requires d < 0
    ensures TotalPages(total, Whole(d)).Pages?
    ensures var n := TotalPages(total, Whole(d)).n;
      n <= 0 && n * d <= total < (n - 1) * d
  {
    var q := total / -d;
    var r := total % -d;
    assert total == q * -d + r;
    assert (-q - 1) * d == q * -d + -d;
  }

  /** `page < totalPages`. */
  predicate HasNext(page: ParsedInt, totalPages: PageCount) {
    page.Whole? && match totalPages
      case Pages(n) => page.v < n
      case Infinite => true
      case Indeterminate => false
  }

  /** `page > 1`. */
  predicate HasPrev(page: ParsedInt) {
    page.Whole? && page.v > 1
  }

  /** With a positive page size, there is a next page exactly when rows lie beyond the current one. */
  lemma HasNextIffRowsRemain(total: nat, page: int, d: int)
    requires d > 0
    ensures HasNext(Whole(page), TotalPages(total, Whole(d))) <==> page * d < total
  {
    TotalPagesPositive(total, d);
    var n := TotalPages(total, Whole(d)).n;
    if page < n {
      MulMonotone(page, n - 1, d);
    } else {
      MulMonotone(n, page, d);
    }
  }

  lemma MulMonotone(a: int, b: int, d: int)
    requires a <= b && d > 0
    ensures a * d <= b * d
  {
    assert b * d == a * d + (b - a) * d;
  }

  datatype Pagination = Pagination(
    page: ParsedInt, pageSize: ParsedInt, total: nat,
    totalPages: PageCount, hasNext: bool, hasPrev: bool)

  /** The `pagination` object of the response, for the total the count query returned. */
  function Paginate(o: ListOptions, total: nat): (p: Pagination)
    ensures p.total == total && p.page == PageOf(o) && p.pageSize == PageSizeOf(o)
    ensures p.totalPages == TotalPages(total, PageSizeOf(o))
    ensures p.hasPrev <==> PageOf(o).Whole? && PageOf(o).v > 1
    ensures PageOf(o).Whole? && PageSizeOf(o).Whole? && PageSizeOf(o).v > 0 ==>
      (p.hasNext <==> PageOf(o).v * PageSizeOf(o).v < total)
    ensures PageOf(o).NotANumber? ==> !p.hasNext && !p.hasPrev
  {
    var page, size := PageOf(o), PageSizeOf(o);
    var totalPages := TotalPages(total, size);
    assert page.Whole? && size.Whole? && size.v > 0 ==> (HasNext(page, totalPages) <==> page.v * size.v < total) by {
      if page.Whole? && size.Whole? && size.v > 0 {
        HasNextIffRowsRemain(total, page.v, size.v);
      }
    }
    Pagination(page, size, total, totalPages, HasNext(page, totalPages), HasPrev(page))
  }

  /** Without page and pageSize the first twelve rows are asked for. */
  lemma DefaultWindow(o: ListOptions, total: nat)
    requires o.page == None && o.pageSize == None
    ensures Offset(PageOf(o), PageSizeOf(o)) == Whole(0)
    ensures PageSizeOf(o) == Whole(12)
    ensures !Paginate(o, total).hasPrev
    ensures Paginate(o, total).hasNext <==> total > 12
  {
  }

  const CountPrefix := "SELECT COUNT(*) as total FROM weapon_skins "
  const PagePrefix := "SELECT * FROM weapon_skins "

  /** The count statement's text over a WHERE clause. */
  function CountSql(whereClause: string): string {
    CountPrefix + whereClause
  }

  /** The page statement's text: newest first, then `LIMIT ? OFFSET ?`. */
  function PageSql(whereClause: string): string {
    PagePrefix + whereClause + Bind(" ORDER BY id DESC LIMIT ") + Bind(" OFFSET ")
  }

  /** The count text adds no placeholder. */
  lemma CountSqlMarks(whereClause: string)
    ensures Marks(CountSql(whereClause)) == Marks(whereClause)
  {
    NoMarks(CountPrefix);
    MarksAppend(CountPrefix, whereClause);
  }

  /** The page text adds exactly two placeholders, LIMIT's and OFFSET's. */
  lemma PageSqlMarks(whereClause: string)
    ensures Marks(PageSql(whereClause)) == Marks(whereClause) + 2
  {
    var limit, offset := Bind(" ORDER BY id DESC LIMIT "), Bind(" OFFSET ");
    NoMarks(PagePrefix);
    BindMarks(" ORDER BY id DESC LIMIT ");
    BindMarks(" OFFSET ");
    MarksAppend(PagePrefix, whereClause);
    MarksAppend(PagePrefix + whereClause, limit);
    MarksAppend(PagePrefix + whereClause + limit, offset);
  }

  /**
   * The two statements `getWeaponSkinsWithPagination` executes: the count
   * over the filtered rows, and the page of rows newest first, with LIMIT
   * bound to pageSize and OFFSET to `(page - 1) * pageSize`. Each text
   * carries exactly one `?` per bound parameter.
   */
  method PlanList(o: ListOptions) returns (count: Statement, data: Statement)
    ensures count.params == Filters(o).params
    ensures data.params == count.params + [Number(PageSizeOf(o)), Number(Offset(PageOf(o), PageSizeOf(o)))]
    ensures count.sql == CountSql(WhereClause(Filters(o).conditions))
    ensures data.sql == PageSql(WhereClause(Filters(o).conditions))
    ensures Marks(count.sql) == |count.params| && Marks(data.sql) == |data.params|
  {
    var conditions, params := BuildFilters(o);
    var whereClause := WhereClause(conditions);
    var page, pageSize := PageOf(o), PageSizeOf(o);
    var offset := Offset(page, pageSize);
    count := Statement(CountSql(whereClause), params);
    data := Statement(PageSql(whereClause), params + [Number(pageSize), Number(offset)]);
    FiltersBalanced(o);
    CountSqlMarks(whereClause);
    PageSqlMarks(whereClause);
  }
}
