/**
 * The filter catalogue `GET /api/filter-options` serves: for each checkbox
 * group the codes the client sends and the labels it shows. The labels are the
 * values the list query filters on, so the catalogue has to agree with the
 * code-to-label maps of the query builder; that agreement is proved here.
 */
module FilterOptions {
  import opened Js
  import SkinQuery
  import Client
  import Server

  /** `{ value, label }`: the code sent and the label shown (`label` is a Dafny keyword, hence `text`). */
  datatype FilterOption = FilterOption(value: string, text: string)

  datatype Catalogue = Catalogue(
    appearance: seq<FilterOption>,
    category: seq<FilterOption>,
    quality: seq<FilterOption>,
    collectibles: seq<FilterOption>)

  /** `getAllFilterOptions`. */
  function AllFilterOptions(): Catalogue {
    Catalogue(
      [FilterOption("factory_new", "崭新出厂"),
       FilterOption("minimal_wear", "略有磨损"),
       FilterOption("field_tested", "久经沙场"),
       FilterOption("well_worn", "破损不堪"),
       FilterOption("battle_scarred", "战痕累累")],
      [FilterOption("weapon_skin", "武器皮肤"),
       FilterOption("sticker", "印花"),
       FilterOption("glove", "手套"),
       FilterOption("knife", "刀具"),
       FilterOption("music_kit", "音乐盒")],
      [FilterOption("consumer", "消费级"),
       FilterOption("industrial", "工业级"),
       FilterOption("milspec", "军规级"),
       FilterOption("restricted", "受限"),
       FilterOption("classified", "保密"),
       FilterOption("covert", "隐秘"),
       FilterOption("exceedingly_rare", "非凡")],
      [FilterOption("true", "是"),
       FilterOption("false", "否")])
  }

  /** The code-to-label table a list of options stands for; a later option wins. */
  function AsMap(options: seq<FilterOption>): map<string, string> {
    if |options| == 0 then map[]
    else AsMap(options[..|options| - 1])[options[|options| - 1].value := options[|options| - 1].text]
  }

  /** No two options of a group share a code, and no two share a label. */
  predicate Distinct(options: seq<FilterOption>) {
    forall i, j :: 0 <= i < j < |options| ==>
      options[i].value != options[j].value && options[i].text != options[j].text
  }

  /** The table of five options, entry by entry. */
  lemma AsMapFive(a: FilterOption, b: FilterOption, c: FilterOption, d: FilterOption, e: FilterOption)
    ensures AsMap([a, b, c, d, e]) == map[a.value := a.text, b.value := b.text, c.value := c.text, d.value := d.text, e.value := e.text]
  {
    assert [a][..0] == [];
    assert AsMap([a]) == map[a.value := a.text];
    assert [a, b][..1] == [a];
    assert AsMap([a, b]) == AsMap([a])[b.value := b.text];
    assert [a, b, c][..2] == [a, b];
    assert AsMap([a, b, c]) == AsMap([a, b])[c.value := c.text];
    assert [a, b, c, d][..3] == [a, b, c];
    assert AsMap([a, b, c, d]) == AsMap([a, b, c])[d.value := d.text];
    assert [a, b, c, d, e][..4] == [a, b, c, d];
    assert AsMap([a, b, c, d, e]) == AsMap([a, b, c, d])[e.value := e.text];
  }

  /** The table of seven options, entry by entry. */
  lemma AsMapSeven(a: FilterOption, b: FilterOption, c: FilterOption, d: FilterOption, e: FilterOption,
                   f: FilterOption, g: FilterOption)
    ensures AsMap([a, b, c, d, e, f, g]) ==
      map[a.value := a.text, b.value := b.text, c.value := c.text, d.value := d.text, e.value := e.text,
          f.value := f.text, g.value := g.text]
  {
    AsMapFive(a, b, c, d, e);
    assert [a, b, c, d, e, f][..5] == [a, b, c, d, e];
    assert AsMap([a, b, c, d, e, f]) == AsMap([a, b, c, d, e])[f.value := f.text];
    assert [a, b, c, d, e, f, g][..6] == [a, b, c, d, e, f];
    assert AsMap([a, b, c, d, e, f, g]) == AsMap([a, b, c, d, e, f])[g.value := g.text];
  }

  /** With distinct codes every option's code looks up its own label. */
  lemma {:induction false} AsMapLookup(options: seq<FilterOption>, k: int)
    requires Distinct(options) && 0 <= k < |options|
    ensures options[k].value in AsMap(options) && AsMap(options)[options[k].value] == options[k].text
    decreases |options|
  {
    if k < |options| - 1 {
      var init := options[..|options| - 1];
      assert Distinct(init) by {
        forall i, j | 0 <= i < j < |init|
          ensures init[i].value != init[j].value && init[i].text != init[j].text
        {
          assert init[i] == options[i] && init[j] == options[j];
        }
      }
      AsMapLookup(init, k);
      assert init[k] == options[k];
    }
  }

  /** The appearance options are exactly the query builder's appearance map. */
  lemma AppearanceAgrees()
    ensures AsMap(AllFilterOptions().appearance) == SkinQuery.AppearanceMap
  {
    var o := AllFilterOptions().appearance;
    AsMapFive(o[0], o[1], o[2], o[3], o[4]);
    assert o == [o[0], o[1], o[2], o[3], o[4]];
  }

  /** The category options are exactly the query builder's category map. */
  lemma CategoryAgrees()
    ensures AsMap(AllFilterOptions().category) == SkinQuery.CategoryMap
  {
    var o := AllFilterOptions().category;
    AsMapFive(o[0], o[1], o[2], o[3], o[4]);
    assert o == [o[0], o[1], o[2], o[3], o[4]];
  }

  /** The quality options are exactly the query builder's quality map. */
  lemma QualityAgrees()
    ensures AsMap(AllFilterOptions().quality) == SkinQuery.QualityMap
  {
    var o := AllFilterOptions().quality;
    AsMapSeven(o[0], o[1], o[2], o[3], o[4], o[5], o[6]);
    assert o == [o[0], o[1], o[2], o[3], o[4], o[5], o[6]];
  }

  /** Appearance codes and labels are pairwise distinct, so code to label is one to one. */
  lemma AppearanceDistinct()
    ensures Distinct(AllFilterOptions().appearance)
  {
  }

  /** The same for the categories. */
  lemma CategoryDistinct()
    ensures Distinct(AllFilterOptions().category)
  {
  }

  /** The same for the qualities. */
  lemma QualityDistinct()
    ensures Distinct(AllFilterOptions().quality)
  {
  }

  /** The same for the collectible choices. */
  lemma CollectiblesDistinct()
    ensures Distinct(AllFilterOptions().collectibles)
  {
  }

  /**
   * Checking one appearance box filters the list on that option's label: the
   * code the client sends is mapped by the query builder to the shown label.
   */
  lemma AppearanceOptionFilters(k: int)
    requires 0 <= k < |AllFilterOptions().appearance|
    ensures var o := AllFilterOptions().appearance[k];
      SkinQuery.Normalise(SkinQuery.AppearanceMap, [Str(o.value)]) == [Str(o.text)]
  {
    var options := AllFilterOptions().appearance;
    AppearanceDistinct();
    AsMapLookup(options, k);
    AppearanceAgrees();
  }

  /** The same for a category box. */
  lemma CategoryOptionFilters(k: int)
    requires 0 <= k < |AllFilterOptions().category|
    ensures var o := AllFilterOptions().category[k];
      SkinQuery.Normalise(SkinQuery.CategoryMap, [Str(o.value)]) == [Str(o.text)]
  {
    var options := AllFilterOptions().category;
    CategoryDistinct();
    AsMapLookup(options, k);
    CategoryAgrees();
  }

  /** The same for a quality box. */
  lemma QualityOptionFilters(k: int)
    requires 0 <= k < |AllFilterOptions().quality|
    ensures var o := AllFilterOptions().quality[k];
      SkinQuery.Normalise(SkinQuery.QualityMap, [Str(o.value)]) == [Str(o.text)]
  {
    var options := AllFilterOptions().quality;
    QualityDistinct();
    AsMapLookup(options, k);
    QualityAgrees();
  }

  /**
   * The collectible codes are exactly "true" and "false": the two values the
   * client forwards, read by the server as the matching flag.
   */
  lemma CollectiblesForwarded(k: int)
    requires 0 <= k < |AllFilterOptions().collectibles|
    ensures var v := AllFilterOptions().collectibles[k].value;
      (v == "true" || v == "false") &&
      Client.CollectibleParam([v]) == [Client.QueryParam(Client.IsCollectibleKey, Client.Word(v))] &&
      Server.CollectibleFlag(Server.Text(v)) == Bool(v == "true")
  {
  }
}
