/**
 * The browser page of the weapon-skin catalogue: the current page and filter
 * state, the query string `loadItems` sends to `GET /api/weapon-skins`, the
 * row of page-number buttons `renderPagination` draws and the index rotation
 * of the advertisement carousel. DOM nodes, `fetch`, scrolling and timers are
 * not modelled; what they would show is returned as values.
 */
module Client {
  import opened Js
  import opened Wrappers
  import Server
  import Text

  /** The page size the client always asks for. */
  const PageSize := 12

  // ---------------------------------------------------------------------------
  // Filter state
  // ---------------------------------------------------------------------------

  /** The keys of `currentFilters`: the price box and the four checkbox groups. */
  datatype FilterKey = Price | Appearance | Category | Quality | Collectibles

  /** `{ min, max }` from the price box, or the checked values of a group. */
  datatype Filter = PriceRange(min: JsValue, max: JsValue) | Selected(values: seq<string>)

  type Filters = map<FilterKey, Filter>

  /** The price key holds a price range and every other key a selection. */
  predicate WellShaped(filters: Filters) {
    forall k :: k in filters ==> (filters[k].PriceRange? <==> k == Price)
  }

  /** `{ ...current, ...filters }`: the given keys win, all other keys are kept. */
  function Merge(current: Filters, filters: Filters): (merged: Filters)
    ensures merged.Keys == current.Keys + filters.Keys
    ensures forall k :: k in filters ==> merged[k] == filters[k]
    ensures forall k :: k in current && k !in filters ==> merged[k] == current[k]
  {
    current + filters
  }

  /** Merging shapes well-shaped filters into well-shaped filters. */
  lemma MergeWellShaped(current: Filters, filters: Filters)
    requires WellShaped(current) && WellShaped(filters)
    ensures WellShaped(Merge(current, filters))
  {
  }

  /** Applying the same filters twice is the same as applying them once. */
  lemma MergeIdempotent(current: Filters, filters: Filters)
    ensures Merge(Merge(current, filters), filters) == Merge(current, filters)
  {
  }

  // ---------------------------------------------------------------------------
  // Page changes
  // ---------------------------------------------------------------------------

  /** What can change the current page. */
  datatype Action = PrevClick | NextClick | FiltersApplied | PageClick(page: int)

  /** The page after one action: prev stops at page 1, next always moves on, filters reset to 1. */
  function Step(page: int, action: Action): (next: int)
    ensures action.PrevClick? ==> (next == page - 1 <==> page > 1) && (page <= 1 ==> next == page)
    ensures action.NextClick? ==> next == page + 1
    ensures action.FiltersApplied? ==> next == 1
    ensures action.PageClick? ==> next == action.page
  {
    match action
    case PrevClick => if page > 1 then page - 1 else page
    case NextClick => page + 1
    case FiltersApplied => 1
    case PageClick(n) => n
  }

  /** The page after a sequence of actions. */
  function Replay(page: int, actions: seq<Action>): int
    decreases |actions|
  {
    if |actions| == 0 then page else Replay(Step(page, actions[0]), actions[1..])
  }

  /** Buttons only name pages from 1 up, so no sequence of actions leaves page 1 behind downwards. */
  lemma {:induction false} PageNeverBelowOne(page: int, actions: seq<Action>)
    requires page >= 1
    requires forall i :: 0 <= i < |actions| && actions[i].PageClick? ==> actions[i].page >= 1
    ensures Replay(page, actions) >= 1
    decreases |actions|
  {
    if |actions| > 0 {
      PageNeverBelowOne(Step(page, actions[0]), actions[1..]);
    }
  }

  /** Next then prev comes back to the same page. */
  lemma NextThenPrev(page: int)
    requires page >= 1
    ensures Replay(page, [NextClick, PrevClick]) == page
  {
  }

  /** The listing state of the page: `currentPage` and `currentFilters`. */
  class Listing {
    var currentPage: int
    var currentFilters: Filters

    ghost predicate Valid()
      reads this
    {
      currentPage >= 1 && WellShaped(currentFilters)
    }

    constructor()
      ensures Valid()
      ensures currentPage == 1 && currentFilters == map[]
    {
      currentPage := 1;
      currentFilters := map[];
    }

    /** `applyFilters`: merge and go back to the first page. */
    method ApplyFilters(filters: Filters)
      requires Valid() && WellShaped(filters)
      modifies this
      ensures Valid()
      ensures currentFilters == Merge(old(currentFilters), filters)
      ensures currentPage == Step(old(currentPage), FiltersApplied)
    {
      MergeWellShaped(currentFilters, filters);
      currentFilters := currentFilters + filters;
      currentPage := 1;
    }

    /** The previous-page button; `reload` says whether the list is fetched again. */
    method Prev() returns (reload: bool)
      requires Valid()
      modifies this
      ensures Valid()
      ensures currentPage == Step(old(currentPage), PrevClick) && currentFilters == old(currentFilters)
      ensures reload <==> old(currentPage) > 1
    {
      reload := currentPage > 1;
      if reload {
        currentPage := currentPage - 1;
      }
    }

    /** The next-page button. */
    method Next()
      requires Valid()
      modifies this
      ensures Valid()
      ensures currentPage == Step(old(currentPage), NextClick) && currentFilters == old(currentFilters)
    {
      currentPage := currentPage + 1;
    }

    /** A page-number button. */
    method GoTo(page: int)
      requires Valid() && page >= 1
      modifies this
      ensures Valid()
      ensures currentPage == Step(old(currentPage), PageClick(page)) && currentFilters == old(currentFilters)
    {
      currentPage := page;
    }

    /** The `URLSearchParams` `loadItems` builds from the current state. */
    method Params() returns (params: seq<QueryParam>)
      ensures params == QueryParams(currentPage, currentFilters)
    {
      params := [QueryParam(PageKey, Number(currentPage)), QueryParam(PageSizeKey, Number(PageSize))];
      if Price in currentFilters && currentFilters[Price].PriceRange? {
        var range := currentFilters[Price];
        if Truthy(range.min) {
          params := params + [QueryParam(MinPriceKey, PriceValue(range.min))];
        }
        if Truthy(range.max) {
          params := params + [QueryParam(MaxPriceKey, PriceValue(range.max))];
        }
      }
      ghost var upToPrice := params;
      assert upToPrice == Head(currentPage) + PriceParams(currentFilters);
      ghost var a := Each(AppearanceKey, SelectedOf(currentFilters, Appearance));
      ghost var c := Each(CategoryKey, SelectedOf(currentFilters, Category));
      params := AppendEach(params, AppearanceKey, SelectedOf(currentFilters, Appearance));
      params := AppendEach(params, CategoryKey, SelectedOf(currentFilters, Category));
      AppendAssoc(upToPrice, a, c);
      params := AppendEach(params, QualityKey, SelectedOf(currentFilters, Quality));
      AppendAssoc(upToPrice, a + c, Each(QualityKey, SelectedOf(currentFilters, Quality)));
      var collectibles := SelectedOf(currentFilters, Collectibles);
      if |collectibles| > 0 {
        var first := collectibles[0];
        if first == "true" {
          params := params + [QueryParam(IsCollectibleKey, Word("true"))];
        } else if first == "false" {
          params := params + [QueryParam(IsCollectibleKey, Word("false"))];
        }
      }
    }
  }

  // ---------------------------------------------------------------------------
  // Query parameters
  // ---------------------------------------------------------------------------

  /** The query-string names: page, pageSize, minPrice, maxPrice, appearance, category, quality, isCollectible. */
  datatype ParamKey = PageKey | PageSizeKey | MinPriceKey | MaxPriceKey | AppearanceKey | CategoryKey | QualityKey | IsCollectibleKey

  /** A value before `URLSearchParams` turns it into text. */
  datatype ParamValue = Number(n: int) | PriceValue(v: JsValue) | Word(s: string)

  datatype QueryParam = QueryParam(key: ParamKey, value: ParamValue)

  /** The checked values of a group; anything that is not a selection contributes nothing. */
  function SelectedOf(filters: Filters, k: FilterKey): seq<string> {
    if k in filters && filters[k].Selected? then filters[k].values else []
  }

  /** One parameter per value, in order. */
  function Each(key: ParamKey, values: seq<string>): (params: seq<QueryParam>)
    ensures |params| == |values|
  {
    if |values| == 0 then [] else Each(key, values[..|values| - 1]) + [QueryParam(key, Word(values[|values| - 1]))]
  }

  /** The i-th parameter carries the i-th value under the group's name. */
  lemma {:induction false} EachAt(key: ParamKey, values: seq<string>)
    ensures forall i :: 0 <= i < |values| ==> Each(key, values)[i] == QueryParam(key, Word(values[i]))
    decreases |values|
  {
    if |values| > 0 {
      EachAt(key, values[..|values| - 1]);
    }
  }

  /** The price bounds, each only when truthy (so 0 and NaN are not sent). */
  function PriceParams(filters: Filters): seq<QueryParam> {
    if Price in filters && filters[Price].PriceRange? then
      (if Truthy(filters[Price].min) then [QueryParam(MinPriceKey, PriceValue(filters[Price].min))] else []) +
      (if Truthy(filters[Price].max) then [QueryParam(MaxPriceKey, PriceValue(filters[Price].max))] else [])
    else []
  }

  /** Only the first checked collectible value counts, and only "true" or "false" is forwarded. */
  function CollectibleParam(values: seq<string>): seq<QueryParam> {
    if |values| == 0 then []
    else if values[0] == "true" then [QueryParam(IsCollectibleKey, Word("true"))]
    else if values[0] == "false" then [QueryParam(IsCollectibleKey, Word("false"))]
    else []
  }

  /** The page and page size the parameters start with. */
  function Head(page: int): seq<QueryParam> {
    [QueryParam(PageKey, Number(page)), QueryParam(PageSizeKey, Number(PageSize))]
  }

  /** Every checked appearance, then category, then quality value. */
  function Selections(filters: Filters): seq<QueryParam> {
    Each(AppearanceKey, SelectedOf(filters, Appearance))
      + Each(CategoryKey, SelectedOf(filters, Category))
      + Each(QualityKey, SelectedOf(filters, Quality))
  }

  /** The parameters of the list request, in the order they are appended. */
  function QueryParams(page: int, filters: Filters): seq<QueryParam> {
    Head(page) + PriceParams(filters) + Selections(filters) + CollectibleParam(SelectedOf(filters, Collectibles))
  }

  lemma AppendAssoc(x: seq<QueryParam>, y: seq<QueryParam>, z: seq<QueryParam>)
    ensures (x + y) + z == x + (y + z)
  {
  }

  /** `values.forEach(val => params.append(key, val))`. */
  method AppendEach(params: seq<QueryParam>, key: ParamKey, values: seq<string>) returns (out: seq<QueryParam>)
    ensures out == params + Each(key, values)
  {
    out := params;
    var i := 0;
    while i < |values|
      invariant 0 <= i <= |values|
      invariant out == params + Each(key, values[..i])
    {
      assert values[..i + 1][..i] == values[..i];
      out := out + [QueryParam(key, Word(values[i]))];
      i := i + 1;
    }
    assert values[..i] == values;
  }

  /** The values sent under one name, in order. */
  function ValuesOf(params: seq<QueryParam>, key: ParamKey): seq<ParamValue> {
    if |params| == 0 then []
    else ValuesOf(params[..|params| - 1], key) + (if params[|params| - 1].key == key then [params[|params| - 1].value] else [])
  }

  function Words(values: seq<string>): (ws: seq<ParamValue>)
    ensures |ws| == |values|
  {
    if |values| == 0 then [] else Words(values[..|values| - 1]) + [Word(values[|values| - 1])]
  }

  lemma {:induction false} ValuesOfAppend(a: seq<QueryParam>, b: seq<QueryParam>, key: ParamKey)
    ensures ValuesOf(a + b, key) == ValuesOf(a, key) + ValuesOf(b, key)
    decreases |b|
  {
    if |b| == 0 {
      assert a + b == a;
    } else {
      assert (a + b)[..|a + b| - 1] == a + b[..|b| - 1];
      ValuesOfAppend(a, b[..|b| - 1], key);
    }
  }

  lemma {:induction false} ValuesOfEach(group: ParamKey, values: seq<string>, key: ParamKey)
    ensures ValuesOf(Each(group, values), key) == if key == group then Words(values) else []
    decreases |values|
  {
    if |values| > 0 {
      var params := Each(group, values);
      assert params[..|params| - 1] == Each(group, values[..|values| - 1]);
      ValuesOfEach(group, values[..|values| - 1], key);
    }
  }

  /** The minimum price sent, if any. */
  function MinPriceSent(filters: Filters): seq<ParamValue> {
    if Price in filters && filters[Price].PriceRange? && Truthy(filters[Price].min) then [PriceValue(filters[Price].min)] else []
  }

  /** The maximum price sent, if any. */
  function MaxPriceSent(filters: Filters): seq<ParamValue> {
    if Price in filters && filters[Price].PriceRange? && Truthy(filters[Price].max) then [PriceValue(filters[Price].max)] else []
  }

  /** The collectible flag sent, if any. */
  function CollectibleSent(filters: Filters): seq<ParamValue> {
    var values := SelectedOf(filters, Collectibles);
    if |values| > 0 && (values[0] == "true" || values[0] == "false") then [Word(values[0])] else []
  }

  /** The two price pieces by name. */
  lemma PriceByName(filters: Filters, key: ParamKey)
    ensures ValuesOf(PriceParams(filters), key) ==
      (if key == MinPriceKey then MinPriceSent(filters) else []) + (if key == MaxPriceKey then MaxPriceSent(filters) else [])
  {
    if Price in filters && filters[Price].PriceRange? {
      var range := filters[Price];
      var lo := if Truthy(range.min) then [QueryParam(MinPriceKey, PriceValue(range.min))] else [];
      var hi := if Truthy(range.max) then [QueryParam(MaxPriceKey, PriceValue(range.max))] else [];
      assert PriceParams(filters) == lo + hi;
      ValuesOfAppend(lo, hi, key);
      if Truthy(range.min) {
        OneByName(lo[0], key);
      }
      if Truthy(range.max) {
        OneByName(hi[0], key);
      }
    }
  }

  /** A single parameter read back by name. */
  lemma OneByName(p: QueryParam, key: ParamKey)
    ensures ValuesOf([p], key) == if p.key == key then [p.value] else []
  {
    assert [p][..0] == [];
  }

  lemma HeadByName(page: int, key: ParamKey)
    ensures ValuesOf(Head(page), key) ==
      (if key == PageKey then [Number(page)] else []) + (if key == PageSizeKey then [Number(PageSize)] else [])
  {
    var first := [QueryParam(PageKey, Number(page))];
    var second := [QueryParam(PageSizeKey, Number(PageSize))];
    assert first[..0] == [] && second[..0] == [];
    ValuesOfAppend(first, second, key);
    assert first + second == Head(page);
  }

  lemma SelectionsByName(filters: Filters, key: ParamKey)
    ensures ValuesOf(Selections(filters), key) ==
      (if key == AppearanceKey then Words(SelectedOf(filters, Appearance)) else []) +
      (if key == CategoryKey then Words(SelectedOf(filters, Category)) else []) +
      (if key == QualityKey then Words(SelectedOf(filters, Quality)) else [])
  {
    var a := Each(AppearanceKey, SelectedOf(filters, Appearance));
    var c := Each(CategoryKey, SelectedOf(filters, Category));
    var q := Each(QualityKey, SelectedOf(filters, Quality));
    ValuesOfAppend(a, c, key);
    ValuesOfAppend(a + c, q, key);
    ValuesOfEach(AppearanceKey, SelectedOf(filters, Appearance), key);
    ValuesOfEach(CategoryKey, SelectedOf(filters, Category), key);
    ValuesOfEach(QualityKey, SelectedOf(filters, Quality), key);
  }

  lemma CollectibleByName(filters: Filters, key: ParamKey)
    ensures ValuesOf(CollectibleParam(SelectedOf(filters, Collectibles)), key) ==
      if key == IsCollectibleKey then CollectibleSent(filters) else []
  {
    var k := CollectibleParam(SelectedOf(filters, Collectibles));
    assert k == [] || (|k| == 1 && k[..0] == []);
  }

  /** What the request should carry under each name. */
  function Expected(page: int, filters: Filters, key: ParamKey): seq<ParamValue> {
    ((if key == PageKey then [Number(page)] else []) +
     (if key == PageSizeKey then [Number(PageSize)] else [])) +
    ((if key == MinPriceKey then MinPriceSent(filters) else []) +
     (if key == MaxPriceKey then MaxPriceSent(filters) else [])) +
    ((if key == AppearanceKey then Words(SelectedOf(filters, Appearance)) else []) +
     (if key == CategoryKey then Words(SelectedOf(filters, Category)) else []) +
     (if key == QualityKey then Words(SelectedOf(filters, Quality)) else [])) +
    (if key == IsCollectibleKey then CollectibleSent(filters) else [])
  }

  /**
   * Read back by name, the request carries exactly: its page and the page size
   * once each, each price bound once when truthy, every checked appearance,
   * category and quality value in the order checked, and the first collectible
   * value when it is "true" or "false".
   */
  lemma ParamsByName(page: int, filters: Filters, key: ParamKey)
    ensures ValuesOf(QueryParams(page, filters), key) == Expected(page, filters, key)
  {
    var head := Head(page);
    var price := PriceParams(filters);
    var selections := Selections(filters);
    var k := CollectibleParam(SelectedOf(filters, Collectibles));
    ValuesOfAppend(head, price, key);
    ValuesOfAppend(head + price, selections, key);
    ValuesOfAppend(head + price + selections, k, key);
    HeadByName(page, key);
    PriceByName(filters, key);
    SelectionsByName(filters, key);
    CollectibleByName(filters, key);
  }

  /** The position of a name in the request. */
  function Rank(key: ParamKey): nat {
    match key
    case PageKey => 0
    case PageSizeKey => 1
    case MinPriceKey => 2
    case MaxPriceKey => 3
    case AppearanceKey => 4
    case CategoryKey => 5
    case QualityKey => 6
    case IsCollectibleKey => 7
  }

  predicate RanksWithin(params: seq<QueryParam>, lo: nat, hi: nat) {
    forall i :: 0 <= i < |params| ==> lo <= Rank(params[i].key) <= hi
  }

  predicate Grouped(params: seq<QueryParam>) {
    forall i, j :: 0 <= i < j < |params| ==> Rank(params[i].key) <= Rank(params[j].key)
  }

  lemma GroupedAppend(a: seq<QueryParam>, b: seq<QueryParam>, lo: nat, top: nat, mid: nat, hi: nat)
    requires Grouped(a) && Grouped(b)
    requires RanksWithin(a, lo, top) && RanksWithin(b, mid, hi) && lo <= top <= mid <= hi
    ensures Grouped(a + b) && RanksWithin(a + b, lo, hi)
  {
    forall i | 0 <= i < |a + b| ensures lo <= Rank((a + b)[i].key) <= hi {
      if i >= |a| {
        assert (a + b)[i] == b[i - |a|];
      } else {
        assert (a + b)[i] == a[i];
      }
    }
    forall i, j | 0 <= i < j < |a + b| ensures Rank((a + b)[i].key) <= Rank((a + b)[j].key) {
      if j < |a| {
      } else if i >= |a| {
        assert (a + b)[i] == b[i - |a|] && (a + b)[j] == b[j - |a|];
      } else {
        assert (a + b)[j] == b[j - |a|];
      }
    }
  }

  lemma EachGrouped(key: ParamKey, values: seq<string>)
    ensures Grouped(Each(key, values)) && RanksWithin(Each(key, values), Rank(key), Rank(key))
  {
    EachAt(key, values);
  }

  lemma HeadGrouped(page: int)
    ensures Grouped(Head(page)) && RanksWithin(Head(page), 0, 1)
  {
  }

  lemma PriceGrouped(filters: Filters)
    ensures Grouped(PriceParams(filters)) && RanksWithin(PriceParams(filters), 2, 3)
  {
  }

  lemma CollectibleGrouped(values: seq<string>)
    ensures Grouped(CollectibleParam(values)) && RanksWithin(CollectibleParam(values), 7, 7)
  {
  }

  lemma SelectionsGrouped(filters: Filters)
    ensures Grouped(Selections(filters)) && RanksWithin(Selections(filters), 4, 6)
  {
    var a := Each(AppearanceKey, SelectedOf(filters, Appearance));
    var c := Each(CategoryKey, SelectedOf(filters, Category));
    var q := Each(QualityKey, SelectedOf(filters, Quality));
    EachGrouped(AppearanceKey, SelectedOf(filters, Appearance));
    EachGrouped(CategoryKey, SelectedOf(filters, Category));
    EachGrouped(QualityKey, SelectedOf(filters, Quality));
    GroupedAppend(a, c, 4, 4, 5, 5);
    GroupedAppend(a + c, q, 4, 5, 6, 6);
  }

  /** The names come in a fixed order: page, pageSize, prices, appearance, category, quality, isCollectible. */
  lemma ParamsGrouped(page: int, filters: Filters)
    ensures Grouped(QueryParams(page, filters))
  {
    var head := Head(page);
    var price := PriceParams(filters);
    var selections := Selections(filters);
    var k := CollectibleParam(SelectedOf(filters, Collectibles));
    HeadGrouped(page);
    PriceGrouped(filters);
    GroupedAppend(head, price, 0, 1, 2, 3);
    SelectionsGrouped(filters);
    GroupedAppend(head + price, selections, 0, 3, 4, 6);
    CollectibleGrouped(SelectedOf(filters, Collectibles));
    GroupedAppend(head + price + selections, k, 0, 6, 7, 7);
  }

  /**
   * How Express hands a repeated name to the server: absent, one text, or an
   * array.
   */
  function Received(values: seq<string>): (v: Server.QueryValue)
    ensures v.Absent? <==> values == []
  {
    if |values| == 0 then Server.Absent
    else if |values| == 1 then Server.Text(values[0])
    else Server.Many(values)
  }

  /**
   * Checked codes reach the list handler unchanged: several arrive as an array,
   * a single one as text that is not JSON and holds no comma.
   */
  lemma SelectionReachesServer(values: seq<string>, parse: string -> Option<Server.Json>)
    requires forall i :: 0 <= i < |values| ==> values[i] != "" && ',' !in values[i]
    requires |values| == 1 ==> parse(values[0]).None?
    ensures Server.ParseArrayParam(Received(values), parse) == Server.Strs(values)
  {
    if |values| == 1 {
      assert Text.Join(values, ",") == values[0];
      Server.CsvRoundTrip(values, parse);
    }
  }

  /** The forwarded collectible flag is read by the server as the matching boolean. */
  lemma CollectibleReachesServer(filters: Filters)
    requires CollectibleSent(filters) != []
    ensures var first := SelectedOf(filters, Collectibles)[0];
      Server.CollectibleFlag(Server.Text(first)) == Bool(first == "true")
  {
  }

  // ---------------------------------------------------------------------------
  // Page-number bar
  // ---------------------------------------------------------------------------

  /** A page-number button (with the `active` class or not) or a "..." gap. */
  datatype PageItem = PageButton(page: int, active: bool) | Ellipsis

  function Max(a: int, b: int): int { if a >= b then a else b }

  function Min(a: int, b: int): int { if a <= b then a else b }

  /** The first and last page of the numbered window. */
  function Window(current: int, total: int): (int, int) {
    var start := Max(1, current - 2);
    var end := Min(total, current + 2);
    if total <= 7 then (1, total)
    else if current <= 3 then (1, 7)
    else if current >= total - 2 then (total - 6, total)
    else (start, end)
  }

  /**
   * For a current page among the existing ones the window lies within them,
   * contains every existing page at most two away from the current one, and is seven
   * pages wide (five in the middle of a long list, all pages for a short one).
   */
  lemma WindowBounds(current: int, total: int)
    requires 1 <= current <= total
    ensures var (start, end) := Window(current, total);
      1 <= start <= current <= end <= total &&
      start <= Max(1, current - 2) && Min(total, current + 2) <= end &&
      end - start + 1 == (if total <= 7 then total else if current <= 3 || current >= total - 2 then 7 else 5)
  {
  }

  /** One button per page of `[start, end]`, only `current` active. */
  function Buttons(start: int, end: int, current: int): (items: seq<PageItem>)
    ensures |items| == if end < start then 0 else end - start + 1
    decreases end - start
  {
    if end < start then [] else Buttons(start, end - 1, current) + [PageButton(end, end == current)]
  }

  /** The i-th button shows page `start + i` and is active exactly for the current page. */
  lemma {:induction false} ButtonsAt(start: int, end: int, current: int)
    ensures forall i :: 0 <= i < |Buttons(start, end, current)| ==>
      Buttons(start, end, current)[i] == PageButton(start + i, start + i == current)
    decreases end - start
  {
    if end >= start {
      ButtonsAt(start, end - 1, current);
    }
  }

  /** Page 1 and a gap before the window when it does not start at page 1. */
  function Lead(start: int): seq<PageItem> {
    if start > 1 then [PageButton(1, false)] + (if start > 2 then [Ellipsis] else []) else []
  }

  /** A gap and the last page after the window when it does not reach the last page. */
  function Trail(end: int, total: int): seq<PageItem> {
    if end < total then (if end < total - 1 then [Ellipsis] else []) + [PageButton(total, false)] else []
  }

  /** What `renderPagination` puts into the page-number bar. */
  function PageBar(current: int, total: int): seq<PageItem> {
    var (start, end) := Window(current, total);
    Lead(start) + Buttons(start, end, current) + Trail(end, total)
  }

  /** `renderPagination`'s page numbers, built item by item. */
  method RenderPageNumbers(current: int, total: int) returns (items: seq<PageItem>)
    ensures items == PageBar(current, total)
  {
    var startPage := Max(1, current - 2);
    var endPage := Min(total, current + 2);
    if total <= 7 {
      startPage := 1;
      endPage := total;
    } else {
      if current <= 3 {
        startPage := 1;
        endPage := 7;
      } else if current >= total - 2 {
        startPage := total - 6;
        endPage := total;
      }
    }
    assert (startPage, endPage) == Window(current, total);
    items := [];
    if startPage > 1 {
      items := items + [PageButton(1, false)];
      if startPage > 2 {
        items := items + [Ellipsis];
      }
    }
    items := AppendButtons(items, startPage, endPage, current);
    if endPage < total {
      if endPage < total - 1 {
        items := items + [Ellipsis];
      }
      items := items + [PageButton(total, false)];
    }
  }

  /** The `for (let i = startPage; i <= endPage; i++)` loop of `renderPagination`. */
  method AppendButtons(items: seq<PageItem>, start: int, end: int, current: int) returns (out: seq<PageItem>)
    ensures out == items + Buttons(start, end, current)
  {
    out := items;
    var i := start;
    while i <= end
      invariant start <= i && (i <= end + 1 || i == start)
      invariant out == items + Buttons(start, i - 1, current)
      decreases end - i
    {
      out := out + [PageButton(i, i == current)];
      i := i + 1;
    }
  }

  /** The pages of the active buttons, in order. */
  function Actives(items: seq<PageItem>): seq<int> {
    if |items| == 0 then []
    else Actives(items[..|items| - 1]) + (if items[|items| - 1].PageButton? && items[|items| - 1].active then [items[|items| - 1].page] else [])
  }

  lemma {:induction false} ActivesAppend(a: seq<PageItem>, b: seq<PageItem>)
    ensures Actives(a + b) == Actives(a) + Actives(b)
    decreases |b|
  {
    if |b| == 0 {
      assert a + b == a;
    } else {
      assert (a + b)[..|a + b| - 1] == a + b[..|b| - 1];
      ActivesAppend(a, b[..|b| - 1]);
    }
  }

  lemma {:induction false} ActivesButtons(start: int, end: int, current: int)
    ensures Actives(Buttons(start, end, current)) == if start <= current <= end then [current] else []
    decreases end - start
  {
    if end >= start {
      var items := Buttons(start, end, current);
      assert items[..|items| - 1] == Buttons(start, end - 1, current);
      ActivesButtons(start, end - 1, current);
    }
  }

  lemma {:induction false} NoActives(items: seq<PageItem>)
    requires forall i :: 0 <= i < |items| ==> !(items[i].PageButton? && items[i].active)
    ensures Actives(items) == []
    decreases |items|
  {
    if |items| > 0 {
      NoActives(items[..|items| - 1]);
    }
  }

  /** Exactly one button is active, the one of the current page. */
  lemma PageBarActive(current: int, total: int)
    requires 1 <= current <= total
    ensures Actives(PageBar(current, total)) == [current]
  {
    WindowBounds(current, total);
    var start, end := Window(current, total).0, Window(current, total).1;
    var lead := Lead(start);
    var buttons := Buttons(start, end, current);
    var trail := Trail(end, total);
    assert PageBar(current, total) == lead + buttons + trail;
    ActivesAppend(lead, buttons);
    ActivesAppend(lead + buttons, trail);
    NoActives(lead);
    NoActives(trail);
    ActivesButtons(start, end, current);
    assert start <= current <= end;
    assert Actives(lead + buttons + trail) == [] + [current] + [];
  }

  /** Page 1 and the last page are always shown, at the two ends of the bar. */
  lemma PageBarEnds(current: int, total: int)
    requires 1 <= current <= total
    ensures var items := PageBar(current, total);
      |items| >= 1 && items[0] == PageButton(1, current == 1) && items[|items| - 1] == PageButton(total, current == total)
  {
    WindowBounds(current, total);
  }

  /**
   * Neighbouring buttons show neighbouring pages, and a "..." sits exactly
   * where pages are skipped: between two buttons whose pages are more than one
   * apart.
   */
  predicate Linked(items: seq<PageItem>) {
    Consecutive(items) && GapsMarked(items)
  }

  predicate Consecutive(items: seq<PageItem>) {
    forall i :: 0 <= i < |items| - 1 && items[i].PageButton? && items[i + 1].PageButton? ==>
      items[i + 1].page == items[i].page + 1
  }

  predicate GapsMarked(items: seq<PageItem>) {
    forall i :: 0 <= i < |items| && items[i].Ellipsis? ==>
      0 < i < |items| - 1 && items[i - 1].PageButton? && items[i + 1].PageButton? &&
      items[i + 1].page > items[i - 1].page + 1
  }

  lemma LeadButtonsLinked(start: int, end: int, current: int)
    requires 1 <= start <= end
    ensures Linked(Lead(start) + Buttons(start, end, current))
  {
    var items := Lead(start) + Buttons(start, end, current);
    ButtonsAt(start, end, current);
    if start > 2 {
      assert items[0] == PageButton(1, false) && items[1] == Ellipsis && items[2] == PageButton(start, start == current);
    } else if start > 1 {
      assert items[0] == PageButton(1, false) && items[1] == PageButton(start, start == current);
    }
  }

  lemma ConsecutiveTrail(items: seq<PageItem>, end: int, total: int)
    requires Consecutive(items) && |items| >= 1 && items[|items| - 1].PageButton? && items[|items| - 1].page == end
    ensures Consecutive(items + Trail(end, total))
  {
    var all := items + Trail(end, total);
    var n := |items|;
    if end < total - 1 {
      assert all[n] == Ellipsis && all[n + 1] == PageButton(total, false);
    } else if end < total {
      assert all[n] == PageButton(total, false);
    } else {
      assert all == items;
    }
  }

  lemma GapsMarkedTrail(items: seq<PageItem>, end: int, total: int)
    requires GapsMarked(items) && |items| >= 1 && items[|items| - 1].PageButton? && items[|items| - 1].page == end
    ensures GapsMarked(items + Trail(end, total))
  {
    var all := items + Trail(end, total);
    var n := |items|;
    if end < total - 1 {
      assert all[n] == Ellipsis && all[n + 1] == PageButton(total, false);
      forall i | 0 <= i < |all| && all[i].Ellipsis?
        ensures 0 < i < |all| - 1 && all[i - 1].PageButton? && all[i + 1].PageButton? && all[i + 1].page > all[i - 1].page + 1
      {
        if i < n {
          assert all[i - 1] == items[i - 1] && all[i + 1] == items[i + 1];
        }
      }
    } else if end < total {
      assert all[n] == PageButton(total, false);
    } else {
      assert all == items;
    }
  }

  /** The bar runs through its pages without holes, marking every skip with "...". */
  lemma PageBarLinked(current: int, total: int)
    requires 1 <= current <= total
    ensures Linked(PageBar(current, total))
  {
    var (start, end) := Window(current, total);
    WindowBounds(current, total);
    LeadButtonsLinked(start, end, current);
    var items := Lead(start) + Buttons(start, end, current);
    assert items[|items| - 1] == Buttons(start, end, current)[end - start];
    ConsecutiveTrail(items, end, total);
    GapsMarkedTrail(items, end, total);
  }

  // ---------------------------------------------------------------------------
  // Advertisement carousel
  // ---------------------------------------------------------------------------

  /**
   * `(currentIndex + 1) % adItems.length`: the next slide, wrapping to the
   * first; with no slides the remainder is NaN.
   */
  function NextIndex(index: ParsedInt, ads: nat): (next: ParsedInt)
    ensures ads == 0 || index.NotANumber? ==> next.NotANumber?
    ensures ads > 0 && index.Whole? && index.v >= 0 ==> next.Whole? && 0 <= next.v < ads
    ensures ads > 0 && index.Whole? && 0 <= index.v < ads - 1 ==> next == Whole(index.v + 1)
    ensures ads > 0 && index == Whole(ads - 1) ==> next == Whole(0)
  {
    match index
    case NotANumber => NotANumber
    case Whole(i) => if ads == 0 then NotANumber else Whole(JsRemainder(i + 1, ads))
  }

  /** JavaScript's `%`: the remainder takes the sign of the dividend and is smaller than the divisor. */
  function JsRemainder(a: int, b: int): (r: int)
    requires b > 0
    ensures a >= 0 ==> 0 <= r < b
    ensures a < 0 ==> -b < r <= 0
  {
    if a >= 0 then a % b else -((-a) % b)
  }

  /** The remainder is what is left after the quotient truncated toward zero. */
  lemma JsTruncatedDivision(a: int, b: int) returns (q: int)
    requires b > 0
    ensures a == q * b + JsRemainder(a, b)
    ensures a >= 0 ==> q >= 0
    ensures a < 0 ==> q <= 0
  {
    if a >= 0 {
      q := a / b;
    } else {
      q := -((-a) / b);
    }
  }

  /** The index after `steps` automatic switches. */
  function Rotate(index: ParsedInt, ads: nat, steps: nat): ParsedInt
    decreases steps
  {
    if steps == 0 then index else Rotate(NextIndex(index, ads), ads, steps - 1)
  }

  /** Switching `a` times and then `b` times is switching `a + b` times. */
  lemma {:induction false} RotateAdd(index: ParsedInt, ads: nat, a: nat, b: nat)
    ensures Rotate(index, ads, a + b) == Rotate(Rotate(index, ads, a), ads, b)
    decreases a
  {
    if a > 0 {
      RotateAdd(NextIndex(index, ads), ads, a - 1, b);
    }
  }

  /** Before the last slide the carousel moves one slide per switch. */
  lemma {:induction false} RotateForward(i: int, ads: nat, steps: nat)
    requires 0 <= i && i + steps < ads
    ensures Rotate(Whole(i), ads, steps) == Whole(i + steps)
    decreases steps
  {
    if steps > 0 {
      RotateForward(i + 1, ads, steps - 1);
    }
  }

  /** Every slide is shown again after one full round of `ads` switches. */
  lemma FullRound(i: int, ads: nat)
    requires 0 <= i < ads
    ensures Rotate(Whole(i), ads, ads) == Whole(i)
  {
    RotateForward(i, ads, ads - 1 - i);
    RotateAdd(Whole(i), ads, ads - 1 - i, 1);
    RotateForward(0, ads, i);
    RotateAdd(Whole(i), ads, ads - i, i);
  }

  /** One carousel of a sidebar: its slide and indicator counts and the shown slide. */
  class Carousel {
    const ads: nat
    const indicators: nat
    var currentIndex: ParsedInt

    ghost predicate Valid()
      reads this
    {
      match currentIndex
      case Whole(i) => i >= 0
      case NotANumber => ads == 0
    }

    constructor(ads: nat, indicators: nat)
      ensures Valid()
      ensures this.ads == ads && this.indicators == indicators && currentIndex == Whole(0)
    {
      this.ads := ads;
      this.indicators := indicators;
      currentIndex := Whole(0);
    }

    /** `switchAd(index)` from an indicator click. */
    method Select(index: nat)
      requires Valid() && index < indicators
      modifies this
      ensures Valid()
      ensures currentIndex == Whole(index)
    {
      currentIndex := Whole(index);
    }

    /** `nextAd`: the timer's switch to the following slide. */
    method NextAd()
      requires Valid()
      modifies this
      ensures Valid()
      ensures currentIndex == NextIndex(old(currentIndex), ads)
    {
      currentIndex := NextIndex(currentIndex, ads);
    }
  }
}
