# Weapon-skin catalog: a verified model of its query and paging logic

The catalog is a small Express + MySQL application. Its browser page lists weapon skins twelve at a time, filters them, and shows a row of page-number buttons and an advertisement carousel. A second application, `delta-trade`, lists trade items.

This project models the logic of the catalog and of `delta-trade` in Dafny, module by module:

- `Js` holds JavaScript values: truthiness, `null`, `undefined`, `NaN`, and the results of `parseInt`.
- `Text` holds the string operations the code relies on: `join`, `split(c)`, `filter(Boolean)`, ASCII `toUpperCase`, and counting `?` placeholders.
- `SkinQuery` models `getWeaponSkinsWithPagination`:
  - filter codes are normalised to the labels stored in the table;
  - the `conditions` / `params` lists are pushed step by step and the `WHERE … AND …` clause is assembled;
  - the count and page statements are built;
  - the pagination object is computed.
- `SkinStore` models the `weapon_skins` table as a class. Its field `map<int, Row>` is updated in place by the single-row writes of `weaponSkinModel.js` and by the earlier variants in `w1.js`.
- `TradeQuery` models `TradeItem.getAll`: its `1=1` clause, the sort allow-list and the order direction. It also models the distinct projections `getCategories` and `getQualities`.
- `Server` models the request-shape logic of `server.js`:
  - `parseArrayParam`;
  - the query-to-options mapping, including the tri-state `isCollectible`;
  - the `isNaN(id)` guard and the status each route answers with.
- `Client` models the browser state of `main.js`:
  - `currentPage` and `currentFilters`, as a class;
  - `applyFilters` and the prev, next and page-number buttons;
  - the `URLSearchParams` built by `loadItems`;
  - the page-number bar of `renderPagination`;
  - the carousel's `currentIndex`, as a class.
- `FilterOptions` models the catalogue served by `getAllFilterOptions` and proves that it agrees with the query builder's code-to-label maps.

A SQL statement is modelled as its text plus its bound parameters; no SQL engine is modelled. The row count that the count query returns is an input. `parseInt` and `JSON.parse` are function parameters. `parseFloat` is kept symbolic: a price parameter is bound as `FloatOf(raw)`.

The window of `renderPagination` (lines 385-401 of `weapon/public/js/main.js`) is modelled as written. In the middle of a long list it is five pages wide, even though the comment says seven are always shown. `Client.WindowBounds` states both widths.

## Model

| member | source | states |
|---|---|---|
| SkinQuery.ColumnName | weapon/model/weaponSkinModel.js:158-220 | the column names pushed into `IN` conditions hold no placeholder |
| SkinQuery.SqlArity | weapon/model/weaponSkinModel.js:135-220 | the text of every pushed condition carries exactly as many `?` as the values it binds |
| SkinQuery.InConditionMarks | weapon/model/weaponSkinModel.js:157-159 | `column IN (?,…,?)` over n values has exactly n placeholders |
| SkinQuery.Label | weapon/model/weaponSkinModel.js:154 | `map[val] \|\| val`: a known code with a non-empty label becomes that label; a value that is not a known code passes through unchanged |
| SkinQuery.Normalise | weapon/model/weaponSkinModel.js:153-155 | the normalised list is no longer than the codes and holds only truthy values |
| SkinQuery.NormaliseKeeps | weapon/model/weaponSkinModel.js:153-155 | every truthy label of an input code appears in the output |
| SkinQuery.NormaliseFrom | weapon/model/weaponSkinModel.js:153-155 | every output value is the label of some input code |
| SkinQuery.NormaliseKnown | weapon/model/weaponSkinModel.js:173-175 | when all codes are known, each code maps to its own label, one for one and in order |
| SkinQuery.NormaliseFalsy | weapon/model/weaponSkinModel.js:195-197 | falsy codes are dropped: an all-falsy input normalises to nothing |
| SkinQuery.Values | weapon/model/weaponSkinModel.js:160 | `params.push(...values)` binds the values themselves, one parameter per value, in order |
| SkinQuery.ThenBalanced | weapon/model/weaponSkinModel.js:130-131 | appending one balanced filter to balanced parallel lists keeps placeholders equal to parameters |
| SkinQuery.PriceFilterBalanced | weapon/model/weaponSkinModel.js:134-141 | a price bound adds one condition with one parameter, or nothing |
| SkinQuery.InFilterBalanced | weapon/model/weaponSkinModel.js:156-161 | an `IN` filter adds nothing for an empty list, else one condition binding every value; never `IN ()` |
| SkinQuery.CollectibleFilterBalanced | weapon/model/weaponSkinModel.js:207-216 | the collectible filter adds one condition with one parameter, or nothing |
| SkinQuery.ChainBalanced | weapon/model/weaponSkinModel.js:133-222 | the whole filter chain is balanced |
| SkinQuery.FiltersBalanced | weapon/model/weaponSkinModel.js:130-222 | the placeholders of all conditions equal the number of parameters, and no condition binds nothing |
| SkinQuery.NoFiltersNoClause | weapon/model/weaponSkinModel.js:116-126 | with the option defaults (null prices and flag, empty lists) there is no condition and no parameter |
| SkinQuery.ColumnConditionIff | weapon/model/weaponSkinModel.js:144-222 | a column gets an `IN` condition iff its normalised list (raw list for baseWeapon) is non-empty, and then exactly one condition with one `?` per value |
| SkinQuery.ChainColumnPresent | weapon/model/weaponSkinModel.js:156-161 | in the chain, a column's `IN` condition is present iff its value list is non-empty |
| SkinQuery.ChainColumnOnly | weapon/model/weaponSkinModel.js:156-222 | every `IN` condition on a column binds exactly that column's value count |
| SkinQuery.Rendered | weapon/model/weaponSkinModel.js:225-226 | the rendered conditions are one text per condition, carrying in total every condition's placeholders |
| SkinQuery.WhereClause | weapon/model/weaponSkinModel.js:225-226 | the clause is empty iff there is no condition, and its placeholders equal those of the conditions |
| SkinQuery.PushPrice | weapon/model/weaponSkinModel.js:134-141 | pushing a price bound extends the lists by exactly the price filter (a condition and `parseFloat(bound)` when the bound is neither null nor "") |
| SkinQuery.PushIn | weapon/model/weaponSkinModel.js:156-161 | pushing an `IN` filter extends the lists by exactly that filter |
| SkinQuery.PushCollectible | weapon/model/weaponSkinModel.js:207-216 | pushing the flag extends the lists by `isCollectible = ?` bound to 1 for true, "true" or 1 and to 0 otherwise, only when the flag is neither null nor "" |
| SkinQuery.Labels | weapon/model/weaponSkinModel.js:144-155 | the guarded `map(...).filter(Boolean)` gives the normalised list |
| SkinQuery.Filters | weapon/model/weaponSkinModel.js:130-222 | the clause the options describe: the price, appearance, category, quality, collectible and baseWeapon filters chained in that order, over the normalised labels; `BuildFilters` and the balance lemmas are about it |
| SkinQuery.BuildFilters | weapon/model/weaponSkinModel.js:130-222 | the successive pushes build exactly the filter chain, in source order: prices, appearance, category, quality, collectible, baseWeapon |
| SkinQuery.Offset | weapon/model/weaponSkinModel.js:229 | `(page - 1) * pageSize`, NaN when either is NaN |
| SkinQuery.TotalPages | weapon/model/weaponSkinModel.js:245 | `Math.ceil(total / pageSize)`: a page count for a non-zero size, Infinity for x/0 with x > 0, NaN for 0/0 or a NaN size; characterised by the two lemmas below |
| SkinQuery.TotalPagesPositive | weapon/model/weaponSkinModel.js:245 | for a positive page size, totalPages is the least n with n * pageSize >= total |
| SkinQuery.TotalPagesNegative | weapon/model/weaponSkinModel.js:245 | for a negative page size, `Math.ceil` of the negative quotient is still a ceiling |
| SkinQuery.HasNextIffRowsRemain | weapon/model/weaponSkinModel.js:245-255 | for a positive page size, `page < totalPages` iff rows lie beyond the current page |
| SkinQuery.Paginate | weapon/model/weaponSkinModel.js:245-257 | the pagination object: totalPages is `TotalPages(total, pageSize)`; hasPrev iff page > 1; hasNext iff page * pageSize < total for a positive page size; a NaN page has neither |
| SkinQuery.DefaultWindow | weapon/model/weaponSkinModel.js:117-118 | without page and pageSize, offset is 0, pageSize 12, no previous page, and a next page iff total > 12 |
| SkinQuery.CountSqlMarks | weapon/model/weaponSkinModel.js:232-235 | the count statement adds no placeholder to the clause |
| SkinQuery.PageSqlMarks | weapon/model/weaponSkinModel.js:239-242 | the page statement adds exactly two placeholders, LIMIT's and OFFSET's |
| SkinQuery.PlanList | weapon/model/weaponSkinModel.js:224-242 | the count binds the filter parameters; the page statement binds them followed by pageSize and `(page - 1) * pageSize`; each statement has one `?` per parameter |
| SkinStore.Matches | weapon/model/weaponSkinModel.js:58 | `WHERE id = ?` matches at most one stored row, and none iff the id is not an integral number of a stored row |
| SkinStore.AddedRow | weapon/model/weaponSkinModel.js:30-39 | the inserted row holds the given name, baseWeapon and price, with skinName "", appearance "未知", category "武器皮肤" and stock 0 in place of falsy values |
| SkinStore.AddedRowLabelled | weapon/model/weaponSkinModel.js:32-33 | every added row has a truthy appearance and category |
| SkinStore.ZeroPriceRejectedZeroStockAccepted | weapon/model/w1.js:34-45 | the w1 required-field check rejects price 0 and accepts stock 0 |
| SkinStore.CheckedRow | weapon/model/w1.js:21-62 | the w1 insert stores the nine supplied values, with quality null, isCollectible 0 and imgUrl null when absent |
| SkinStore.DescendingStored | weapon/model/weaponSkinModel.js:8 | every id listed by `ORDER BY id DESC` is a stored one |
| SkinStore.DescendingComplete | weapon/model/weaponSkinModel.js:8 | every stored id is listed |
| SkinStore.DescendingSorted | weapon/model/weaponSkinModel.js:8 | the listed ids are strictly decreasing |
| SkinStore.SkinTable.All | weapon/model/weaponSkinModel.js:5-15 | every stored row, newest first, each paired with its id |
| SkinStore.SkinTable.Add | weapon/model/weaponSkinModel.js:19-46 | a fresh id not already stored is returned, and the table gains exactly that row, with the defaults applied |
| SkinStore.SkinTable.Delete | weapon/model/weaponSkinModel.js:50-64 | a falsy id throws before any write; no matching row throws NotFound with the table unchanged; otherwise exactly that row is removed |
| SkinStore.SkinTable.SetColumn | weapon/model/weaponSkinModel.js:79-106 | `UPDATE … WHERE id = ?` reports the matched rows and changes only that column of that row |
| SkinStore.SkinTable.UpdatePrice | weapon/model/weaponSkinModel.js:68-85 | a falsy id, then a price that is not a non-negative number, then no matching row each throw with the table unchanged; otherwise only the price of that row changes |
| SkinStore.SkinTable.UpdateStock | weapon/model/weaponSkinModel.js:88-112 | the same guards for stock; on success only the stock of that row changes and affectedRows is returned |
| SkinStore.SkinTable.AddChecked | weapon/model/w1.js:15-73 | a missing required field throws with the table unchanged; otherwise the nine values are stored under a fresh id, which is returned |
| SkinStore.SkinTable.DeleteLenient | weapon/model/w1.js:76-91 | the delete always runs; the call reports success iff the id is not null or undefined, even when nothing matched |
| SkinStore.SkinTable.UpdatePriceUnchecked | weapon/model/w1.js:93-105 | `(price, id)`: the price is written without validation and success is always reported |
| TradeQuery.Requested | delta-trade/models/TradeItem.js:18-31 | a category, quality or keyword filter is present iff that parameter is non-empty |
| TradeQuery.Params | delta-trade/models/TradeItem.js:16-31 | one parameter per appended filter, in the same order: the category, the quality, and the keyword wrapped as `%keyword%` |
| TradeQuery.FragmentMarks | delta-trade/models/TradeItem.js:19-29 | each appended fragment has exactly one placeholder |
| TradeQuery.ClauseMarks | delta-trade/models/TradeItem.js:15-31 | the clause has exactly one placeholder per bound parameter |
| TradeQuery.Clause | delta-trade/models/TradeItem.js:15-31 | `1=1` followed by each requested filter's ` AND … ?` fragment, in order |
| TradeQuery.BuildWhere | delta-trade/models/TradeItem.js:15-31 | the step-by-step appends build the `1=1` clause and the parameters of the requested filters, with matching counts |
| TradeQuery.Append | delta-trade/models/TradeItem.js:19-20 | one `+=` and `push` extends the clause and the parameters by exactly one filter |
| TradeQuery.NoFilters | delta-trade/models/TradeItem.js:6-15 | with empty filters the clause is `1=1` and nothing is bound |
| TradeQuery.KeywordLast | delta-trade/models/TradeItem.js:28-31 | a keyword is bound last, wrapped as `%keyword%` |
| TradeQuery.SortField | delta-trade/models/TradeItem.js:34-35 | the sort field is always in the allow-list, and equals the request's iff that is in the allow-list |
| TradeQuery.OrderType | delta-trade/models/TradeItem.js:36 | the direction is DESC or ASC |
| TradeQuery.UpperCharIs | delta-trade/models/TradeItem.js:36 | upper-casing yields a capital letter exactly from that letter or its lower-case form |
| TradeQuery.OrderTypeDescIff | delta-trade/models/TradeItem.js:36 | the order is DESC iff the request spells "desc" in any mix of cases |
| TradeQuery.GetAll | delta-trade/models/TradeItem.js:5-45 | the executed statement and parameters, with defaults, for the requested filters, sort field and direction |
| TradeQuery.Query | delta-trade/models/TradeItem.js:38-42 | the statement text: the clause after WHERE, then `ORDER BY` the sort field and direction |
| TradeQuery.DefaultsOrderByPrice | delta-trade/models/TradeItem.js:10-11 | with no parameters, rows are ordered by price ascending |
| TradeQuery.Distinct | delta-trade/models/TradeItem.js:50 | `SELECT DISTINCT` keeps exactly the values present, each once |
| TradeQuery.DistinctKeepsOrder | delta-trade/models/TradeItem.js:50 | distinct values keep the order of their first occurrences |
| TradeQuery.Categories | delta-trade/models/TradeItem.js:51 | `rows.map(item => item.category)` |
| TradeQuery.Qualities | delta-trade/models/TradeItem.js:57 | `rows.map(item => item.quality)` |
| TradeQuery.DistinctCategories | delta-trade/models/TradeItem.js:49-52 | the categories listed are exactly those of some row, each once |
| TradeQuery.DistinctQualities | delta-trade/models/TradeItem.js:55-58 | the qualities listed are exactly those of some row, each once |
| Server.ParseArrayParam | weapon/config/server.js:54-66 | a falsy input gives []; an array is returned as it is; a nested object gives [] |
| Server.CsvFallback | weapon/config/server.js:61-62 | a text that is not JSON gives only pieces of its comma split, each non-empty and comma-free, and every non-empty piece is among the values |
| Server.EmptyPieceDropped | weapon/config/server.js:61-62 | `a,,b` reads as the two values `a` and `b` |
| Server.JsonInput | weapon/config/server.js:58-60 | a JSON array is taken element by element; any other JSON value becomes a one-element list |
| Server.CsvRoundTrip | weapon/config/server.js:62 | values without commas, joined by commas and not read as JSON, come back unchanged |
| Server.CollectibleFlag | weapon/config/server.js:76-79 | the flag is null iff the key is absent, and true iff it is "true" or "1" |
| Server.ParseIntOf | weapon/config/server.js:69-70 | `parseInt` after the destructuring default: the default itself when the key is absent, an array read through its comma-joined text |
| Server.Options | weapon/config/server.js:68-81 | page and pageSize default to 1 and 12 before `parseInt`; a falsy price becomes null and any other passes through; the lists go through `parseArrayParam` |
| Server.DefaultPaging | weapon/config/server.js:42-43 | without page and pageSize, page 1 of size 12 at offset 0 is asked for |
| Server.CollectibleEndToEnd | weapon/config/server.js:76-79 | from query string to SQL: the collectible condition is present iff the key is, and binds 1 exactly for "true" or "1" |
| Server.Status | weapon/config/server.js:85-170 | a NaN id gives 400 before any model call; a thrown list gives 500; a thrown get or delete gives 404; a thrown create or update gives 400; a successful create gives 201 and any other success 200 |
| Server.MissingModelCalls | weapon/config/server.js:105-115 | with no model function behind them, `GET /:id` with a numeric id answers 404 and `PUT /:id` answers 400 |
| Server.DeleteRoute | weapon/config/server.js:153-171 | a NaN id answers 400 with the table untouched; otherwise 200 iff the row existed and was removed, else 404 with the table unchanged |
| Server.CreateRoute | weapon/config/server.js:119-129 | the row is added under a fresh id and 201 is answered |
| Text.MarksOfJoin | weapon/model/weaponSkinModel.js:226 | joining with a separator that holds no `?` keeps exactly the parts' placeholders |
| Text.QuestionMarks | weapon/model/weaponSkinModel.js:158 | `values.map(() => "?")` is n marks |
| Text.Placeholders | weapon/model/weaponSkinModel.js:158 | `map(() => "?").join(",")` has exactly n placeholders |
| Text.Split | weapon/config/server.js:62 | `split(c)` gives at least one piece, none of which holds the separator |
| Text.JoinSplit | weapon/config/server.js:62 | joining the pieces of a split gives back the text |
| Text.SplitJoin | weapon/config/server.js:62 | splitting a join gives back the parts when none holds the separator |
| Text.DropEmpty | weapon/config/server.js:62 | `filter(Boolean)` keeps only non-empty pieces, each taken from the input |
| Text.DropEmptyComplete | weapon/config/server.js:62 | every non-empty piece of the input is kept |
| Text.DropEmptyAppend | weapon/config/server.js:62 | the filter works piece by piece, so it keeps the input's order |
| Text.SplitGap | weapon/config/server.js:62 | splitting `a,,b` on commas and dropping empty pieces gives `a` and `b` |
| Text.DropEmptyKeeps | weapon/config/server.js:62 | pieces that are all non-empty are kept as they are |
| Text.Upper | delta-trade/models/TradeItem.js:36 | `toUpperCase` keeps the length and upper-cases each character |
| Client.Merge | weapon/public/js/main.js:198 | `{ ...current, ...filters }`: the keys are the union, the given keys win, and the others are kept |
| Client.MergeWellShaped | weapon/public/js/main.js:135-159 | merging a price range or a group's selection keeps the filter state well shaped |
| Client.MergeIdempotent | weapon/public/js/main.js:198 | applying the same filters twice equals applying them once |
| Client.Step | weapon/public/js/main.js:171-199 | prev moves down only above page 1; next always moves up; applying filters resets to 1; a button goes to its page |
| Client.PageNeverBelowOne | weapon/public/js/main.js:171-177 | from page 1 or above, no sequence of clicks leads below page 1 |
| Client.NextThenPrev | weapon/public/js/main.js:171-185 | next then prev returns to the same page |
| Client.Listing.ApplyFilters | weapon/public/js/main.js:195-201 | the filters are merged and the page is reset to 1 |
| Client.Listing.Prev | weapon/public/js/main.js:170-178 | the page decrements and the list reloads iff the page was above 1; the filters are unchanged |
| Client.Listing.Next | weapon/public/js/main.js:180-186 | the page increments; the filters are unchanged |
| Client.Listing.GoTo | weapon/public/js/main.js:444-446 | a page button sets the current page |
| Client.QueryParams | weapon/public/js/main.js:213-254 | the list request's parameters: page and pageSize, the truthy price bounds, every checked appearance, category and quality value, and the forwarded collectible value; `ParamsByName` and `ParamsGrouped` are about it |
| Client.Listing.Params | weapon/public/js/main.js:213-254 | the built `URLSearchParams` are exactly the parameter list of the current page and filters |
| Client.Each | weapon/public/js/main.js:230-232 | `forEach(append)` adds one parameter per checked value |
| Client.EachAt | weapon/public/js/main.js:230-232 | the i-th added parameter carries the i-th value under the group's name |
| Client.AppendEach | weapon/public/js/main.js:229-245 | the append loop extends the parameters by one per value, in order |
| Client.PriceByName | weapon/public/js/main.js:219-226 | minPrice and maxPrice are sent only when truthy, so 0 is omitted |
| Client.HeadByName | weapon/public/js/main.js:213-216 | page and pageSize (12) are sent once each |
| Client.SelectionsByName | weapon/public/js/main.js:229-245 | each group's checked values are sent under its name, in selection order |
| Client.CollectibleByName | weapon/public/js/main.js:247-254 | only the first collectible value is used, and only "true" or "false" is forwarded |
| Client.ParamsByName | weapon/public/js/main.js:213-254 | the values sent under each name are exactly the expected ones |
| Client.EachGrouped | weapon/public/js/main.js:230-232 | one group's parameters all share that group's name |
| Client.HeadGrouped | weapon/public/js/main.js:213-216 | page comes first, then pageSize |
| Client.PriceGrouped | weapon/public/js/main.js:219-226 | minPrice comes before maxPrice |
| Client.CollectibleGrouped | weapon/public/js/main.js:247-254 | the collectible parameter stands on its own at the end |
| Client.SelectionsGrouped | weapon/public/js/main.js:229-245 | appearance values come before category, and category before quality |
| Client.ParamsGrouped | weapon/public/js/main.js:213-254 | the names come in the fixed order page, pageSize, prices, appearance, category, quality, isCollectible |
| Client.Received | weapon/config/server.js:41-51 | a name that is not sent is absent at the server, and only then |
| Client.SelectionReachesServer | weapon/config/server.js:54-66 | checked codes without commas reach the list handler unchanged, whether one or several |
| Client.CollectibleReachesServer | weapon/public/js/main.js:247-254 | the forwarded collectible value is read by the server as the matching boolean |
| Client.Window | weapon/public/js/main.js:385-401 | the first and last page of the numbered window, through the same branches as the code; `WindowBounds` is about it |
| Client.WindowBounds | weapon/public/js/main.js:385-401 | the window lies within [1, total], contains current and every page up to two away, and is 7 pages wide (5 in the middle of a long list, all pages for a short one) |
| Client.Buttons | weapon/public/js/main.js:417-423 | one button per page of the window |
| Client.ButtonsAt | weapon/public/js/main.js:417-423 | the i-th button shows page start + i, and it is active iff it is the current page |
| Client.PageBar | weapon/public/js/main.js:404-436 | the items of the bar: page 1 and a gap before the window when it starts later, the window's buttons, a gap and the last page when it ends earlier; `PageBarActive`, `PageBarEnds` and `PageBarLinked` are about it |
| Client.RenderPageNumbers | weapon/public/js/main.js:403-436 | the items appended are exactly the page bar: first page and gap, window buttons, gap and last page |
| Client.AppendButtons | weapon/public/js/main.js:417-423 | the for loop appends the window's buttons in order |
| Client.ActivesButtons | weapon/public/js/main.js:419-421 | within the window only the current page's button is active |
| Client.PageBarActive | weapon/public/js/main.js:404-436 | exactly one button of the bar is active: the current page's |
| Client.PageBarEnds | weapon/public/js/main.js:404-436 | the bar starts with page 1 and ends with the last page |
| Client.LeadButtonsLinked | weapon/public/js/main.js:404-423 | page 1, the gap when start > 2, and the window buttons: neighbouring buttons show neighbouring pages, and every gap separates pages more than one apart |
| Client.ConsecutiveTrail | weapon/public/js/main.js:426-436 | appending the gap and last page keeps neighbouring buttons on neighbouring pages |
| Client.GapsMarkedTrail | weapon/public/js/main.js:426-436 | after appending the gap and last page, every gap still separates pages more than one apart |
| Client.PageBarLinked | weapon/public/js/main.js:404-436 | the bar runs through its pages without holes, and marks every skip with "..." |
| Client.NextIndex | weapon/public/js/main.js:700-703 | `(currentIndex + 1) % adItems.length` stays in [0, length), steps by one and wraps to 0; with no ads it is NaN |
| Client.JsRemainder | weapon/public/js/main.js:701 | JavaScript's `%` takes the sign of the dividend and is smaller in size than the divisor |
| Client.JsTruncatedDivision | weapon/public/js/main.js:701 | the remainder is the dividend minus a quotient truncated toward zero times the divisor |
| Client.RotateAdd | weapon/public/js/main.js:700-707 | a switches then b switches equal a + b switches |
| Client.RotateForward | weapon/public/js/main.js:700-703 | before the last slide, each switch moves one slide on |
| Client.FullRound | weapon/public/js/main.js:700-707 | after one full round of switches every slide is shown again |
| Client.Carousel.Select | weapon/public/js/main.js:718-724 | an indicator click shows its slide |
| Client.Carousel.NextAd | weapon/public/js/main.js:700-703 | the timer's switch moves to the next index |
| FilterOptions.AllFilterOptions | weapon/config/filterOptions.js:2-31 | the catalogue literal: five appearance, five category, seven quality and two collectible options, each a code and its label |
| FilterOptions.AppearanceAgrees | weapon/config/filterOptions.js:4-10 | the appearance options are exactly the five pairs of the builder's appearance map (weaponSkinModel.js lines 146-152) |
| FilterOptions.CategoryAgrees | weapon/config/filterOptions.js:11-17 | the category options are exactly the five pairs of the category map (weaponSkinModel.js lines 166-172) |
| FilterOptions.QualityAgrees | weapon/config/filterOptions.js:18-26 | the quality options are exactly the seven pairs of the quality map (weaponSkinModel.js lines 186-194) |
| FilterOptions.AppearanceDistinct | weapon/config/filterOptions.js:4-10 | appearance codes are pairwise distinct, and so are their labels |
| FilterOptions.CategoryDistinct | weapon/config/filterOptions.js:11-17 | category codes are pairwise distinct, and so are their labels |
| FilterOptions.QualityDistinct | weapon/config/filterOptions.js:18-26 | quality codes are pairwise distinct, and so are their labels |
| FilterOptions.CollectiblesDistinct | weapon/config/filterOptions.js:27-30 | the two collectible codes differ, and so do their labels |
| FilterOptions.AppearanceOptionFilters | weapon/config/filterOptions.js:4-10 | checking an appearance box filters on exactly the label it shows |
| FilterOptions.CategoryOptionFilters | weapon/config/filterOptions.js:11-17 | checking a category box filters on exactly the label it shows |
| FilterOptions.QualityOptionFilters | weapon/config/filterOptions.js:18-26 | checking a quality box filters on exactly the label it shows |
| FilterOptions.CollectiblesForwarded | weapon/config/filterOptions.js:27-30 | the collectible codes are "true" and "false", the two values the client forwards, and the server reads each as the matching flag |

## Left out

- SQL execution: row matching of the list query, the table schema and column defaults are not modelled. A statement is its text plus its parameters, and the count query's total is an input.
- MySQL type coercion of a bound id: only a number with an integral value selects a row, so a string id such as "3" matches nothing in the model.
- mysql2 rejecting `undefined` bind values, and database errors in general: they would make a call throw. The model only throws where the code itself does.
- `parseInt`, `parseFloat` and `JSON.parse`: `parseInt` and `JSON.parse` are function parameters, and `parseFloat` is the symbolic `FloatOf`. Their parsing rules and floating-point rounding are left out, and so is `formatPrice`'s `toFixed(2)`.
- Prototype keys of the object-literal maps: `appearanceMap["constructor"]` and similar lookups are not modelled. Only the listed codes are keys.
- `toUpperCase` outside ASCII: `Text.Upper` changes only `a`-`z`.
- `getWeaponSkinById` and `updateWeaponSkin`, which `server.js` calls at lines 105 and 142. Neither exists in the model file, so these routes appear only through `Server.Status`. Because the call always throws, `GET /:id` with a numeric id always answers 404 and `PUT /:id` always answers 400, as `Server.MissingModelCalls` states.
- SkinQuery.Label: a value that is not a string is passed through unchanged. JavaScript would first turn it into a string key, so a one-element nested array such as `["factory_new"]` from a JSON list would find its label.
- Infinity: `JsValue` has no ±Infinity. A JSON body such as `{"price": 1e999}` yields Infinity, which the `typeof newPrice !== "number" || newPrice < 0` guard of `weaponSkinModel.js` lets through; the model's numbers are finite reals.
- The `GET /api/weapon-skins` handler's `res.json` and Express routing: `Client.Received` stands in for the query-string parser.
- `TradeItem.getAll` with non-string query values (arrays, objects) and the `delta-trade` controllers and views.
- DOM rendering, `fetch`, `scrollTo`, `loadFilterOptions`, modals, the carousel's `active` class toggling and its `setInterval` / `clearInterval` timers. Only the index arithmetic and the state changes are modelled.
- SkinStore.SkinTable.All: ids are returned beside the rows, because a modelled row carries no id column.
- SkinQuery.Paginate: hasNext is characterised only for a positive page size and a NaN page. For other page sizes it is `page < totalPages` over `TotalPages`, which its ensures names and `TotalPagesNegative` describes.
- Server.ParseArrayParam: the JSON branches are stated by `Server.JsonInput` and `Server.CsvFallback`, not in its own ensures.
- TradeQuery.Distinct: values are compared by exact string equality. MySQL's `SELECT DISTINCT` compares under the column's collation, which is often case-insensitive, and a NULL category or quality is not modelled.
