/**
 * The `weapon_skins` table and the single-row writes against it, in the two
 * variants the repository carries: the guarded model (`weaponSkinModel.js`)
 * and the earlier one (`w1.js`). The table is a map from id to row that the
 * methods update in place; ids come from an auto-increment counter.
 */
module SkinStore {
  import opened Wrappers
  import opened Js

  /** The columns the writes name. */
  datatype Column = Name | BaseWeapon | SkinName | Price | Appearance | Category | Quality | IsCollectible | ImgUrl | Stock

  /** A stored row: the columns its INSERT named (database defaults for the others are not modelled). */
  type Row = map<Column, JsValue>

  /** Why a call throws. */
  datatype Failure =
    | EmptyId          // `ID 不能为空`: a falsy id
    | InvalidPrice     // `价格必须为非负数值`
    | InvalidStock     // `库存必须为非负整数`
    | NotFound         // `未找到 ID=… 的数据`: affectedRows is 0
    | MissingRequired  // w1: a required field is missing
    | NullId           // w1: `删除失败，ID不能为空`, raised after the DELETE ran

  /** A call that returns `{ success: true, … }`, or one that throws. */
  datatype Outcome = Success | Failed(reason: Failure)

  /** The fields `addWeaponSkin` destructures; an absent one is `Undefined`. */
  datatype NewSkin = NewSkin(
    name: JsValue, baseWeapon: JsValue, skinName: JsValue, price: JsValue,
    appearance: JsValue, category: JsValue, stock: JsValue)

  /** The fields the w1 insert destructures; an absent one is `Undefined`. */
  datatype CheckedSkin = CheckedSkin(
    name: JsValue, baseWeapon: JsValue, price: JsValue, appearance: JsValue, category: JsValue,
    quality: JsValue, isCollectible: JsValue, imgUrl: JsValue, stock: JsValue)

  const UnknownAppearance := Str("未知")
  const DefaultCategory := Str("武器皮肤")

  /** The id a bound value selects in `WHERE id = ?`: a number with an integral value. */
  function KeyOf(id: JsValue): Option<int> {
    if id.Num? && id.x.Floor as real == id.x then Some(id.x.Floor) else None
  }

  /** The rows `WHERE id = ?` matches: at most one, and only a stored one. */
  function Matches(rows: map<int, Row>, id: JsValue): (ks: set<int>)
    ensures ks <= rows.Keys
    ensures |ks| <= 1
    ensures ks == {} <==> KeyOf(id).None? || KeyOf(id).value !in rows
  {
    if KeyOf(id).Some? && KeyOf(id).value in rows then {KeyOf(id).value} else {}
  }

  /** `typeof v === "number" && !(v < 0)`: NaN passes, since NaN < 0 is false. */
  predicate NonNegativeNumber(v: JsValue) {
    (v.Num? && v.x >= 0.0) || v.NaN?
  }

  /** The row `addWeaponSkin` inserts: skinName, appearance, category and stock defaulted with `||`. */
  function AddedRow(skin: NewSkin): (row: Row)
    ensures row.Keys == {Name, BaseWeapon, SkinName, Price, Appearance, Category, Stock}
    ensures row[Name] == skin.name && row[BaseWeapon] == skin.baseWeapon && row[Price] == skin.price
    ensures Truthy(skin.skinName) ==> row[SkinName] == skin.skinName
    ensures !Truthy(skin.skinName) ==> row[SkinName] == Str("")
    ensures Truthy(skin.appearance) ==> row[Appearance] == skin.appearance
    ensures !Truthy(skin.appearance) ==> row[Appearance] == UnknownAppearance
    ensures Truthy(skin.category) ==> row[Category] == skin.category
    ensures !Truthy(skin.category) ==> row[Category] == DefaultCategory
    ensures Truthy(skin.stock) ==> row[Stock] == skin.stock
    ensures !Truthy(skin.stock) ==> row[Stock] == Num(0.0)
  {
    map[Name := skin.name, BaseWeapon := skin.baseWeapon, SkinName := Or(skin.skinName, Str("")),
        Price := skin.price, Appearance := Or(skin.appearance, UnknownAppearance),
        Category := Or(skin.category, DefaultCategory), Stock := Or(skin.stock, Num(0.0))]
  }

  /** The stored appearance and category are never empty: a falsy one is replaced by a truthy default. */
  lemma AddedRowLabelled(skin: NewSkin)
    ensures Truthy(AddedRow(skin)[Appearance]) && Truthy(AddedRow(skin)[Category])
  {
  }

  /** The w1 insert's guard: name, baseWeapon, price, appearance and category truthy, stock defined. */
  predicate Complete(skin: CheckedSkin) {
    Truthy(skin.name) && Truthy(skin.baseWeapon) && Truthy(skin.price) &&
    Truthy(skin.appearance) && Truthy(skin.category) && !skin.stock.Undefined?
  }

  /** A price of 0 makes the insert fail, while a stock of 0 does not. */
  lemma ZeroPriceRejectedZeroStockAccepted(skin: CheckedSkin)
    requires Truthy(skin.name) && Truthy(skin.baseWeapon) && Truthy(skin.appearance) && Truthy(skin.category)
    ensures !Complete(skin.(price := Num(0.0)))
    ensures Truthy(skin.price) ==> Complete(skin.(stock := Num(0.0)))
  {
  }

  /** The nine values the w1 insert binds: quality, isCollectible and imgUrl defaulted when undefined. */
  function CheckedRow(skin: CheckedSkin): (row: Row)
    ensures row.Keys == {Name, BaseWeapon, Price, Appearance, Category, Quality, IsCollectible, ImgUrl, Stock}
    ensures row[Name] == skin.name && row[BaseWeapon] == skin.baseWeapon && row[Price] == skin.price
    ensures row[Appearance] == skin.appearance && row[Category] == skin.category && row[Stock] == skin.stock
    ensures row[Quality] == (if skin.quality.Undefined? then Null else skin.quality)
    ensures row[IsCollectible] == (if skin.isCollectible.Undefined? then Num(0.0) else skin.isCollectible)
    ensures row[ImgUrl] == (if skin.imgUrl.Undefined? then Null else skin.imgUrl)
  {
    map[Name := skin.name, BaseWeapon := skin.baseWeapon, Price := skin.price,
        Appearance := skin.appearance, Category := skin.category,
        Quality := Default(skin.quality, Null), IsCollectible := Default(skin.isCollectible, Num(0.0)),
        ImgUrl := Default(skin.imgUrl, Null), Stock := skin.stock]
  }

  /** The stored ids from `top` down to 1, greatest first. */
  function Descending(rows: map<int, Row>, top: int): seq<int>
    decreases top
  {
    if top < 1 then []
    else (if top in rows then [top] else []) + Descending(rows, top - 1)
  }

  /** Every listed id is a stored one in [1, top]. */
  lemma {:induction false} DescendingStored(rows: map<int, Row>, top: int)
    ensures forall i :: 0 <= i < |Descending(rows, top)| ==>
      Descending(rows, top)[i] in rows && 1 <= Descending(rows, top)[i] <= top
    decreases top
  {
    if top >= 1 {
      DescendingStored(rows, top - 1);
    }
  }

  /** Every stored id in [1, top] is listed. */
  lemma {:induction false} DescendingComplete(rows: map<int, Row>, top: int)
    ensures forall k :: k in rows && 1 <= k <= top ==> k in Descending(rows, top)
    decreases top
  {
    if top >= 1 {
      DescendingComplete(rows, top - 1);
    }
  }

  /** The ids are strictly decreasing: `ORDER BY id DESC` over unique ids. */
  lemma {:induction false} DescendingSorted(rows: map<int, Row>, top: int)
    ensures forall i, j :: 0 <= i < j < |Descending(rows, top)| ==> Descending(rows, top)[i] > Descending(rows, top)[j]
    decreases top
  {
    if top >= 1 {
      DescendingSorted(rows, top - 1);
      DescendingStored(rows, top - 1);
    }
  }

  /** The `weapon_skins` table. */
  class SkinTable {
    var rows: map<int, Row>
    /** The next AUTO_INCREMENT value. */
    var nextId: int

    /** Every stored id was handed out earlier, so a new id is never a stored one. */
    ghost predicate Valid()
      reads this
    {
      nextId >= 1 && forall k :: k in rows ==> 1 <= k < nextId
    }

    constructor ()
      ensures Valid() && rows == map[] && nextId == 1
    {
      rows := map[];
      nextId := 1;
    }

    /**
     * `SELECT * FROM weapon_skins ORDER BY id DESC` (both files): every stored
     * row, newest first; `ids[i]` is the id of `result[i]`.
     */
    method All() returns (ids: seq<int>, result: seq<Row>)
      requires Valid()
      ensures forall k :: k in rows ==> k in ids
      ensures forall i, j :: 0 <= i < j < |ids| ==> ids[i] > ids[j]
      ensures |result| == |ids|
      ensures forall i :: 0 <= i < |ids| ==> ids[i] in rows && result[i] == rows[ids[i]]
    {
      ids := Descending(rows, nextId - 1);
      DescendingStored(rows, nextId - 1);
      DescendingComplete(rows, nextId - 1);
      DescendingSorted(rows, nextId - 1);
      result := [];
      var i := 0;
      while i < |ids|
        invariant 0 <= i <= |ids|
        invariant |result| == i
        invariant forall j :: 0 <= j < i ==> result[j] == rows[ids[j]]
      {
        result := result + [rows[ids[i]]];
        i := i + 1;
      }
    }

    /** `addWeaponSkin`: insert the defaulted row under the next id and return that id. */
    method Add(skin: NewSkin) returns (insertId: int)
      requires Valid()
      modifies this
      ensures Valid()
      ensures insertId == old(nextId) && insertId !in old(rows)
      ensures rows == old(rows)[insertId := AddedRow(skin)]
    {
      insertId := nextId;
      rows := rows[insertId := AddedRow(skin)];
      nextId := nextId + 1;
    }

    /** `deleteWeaponSkin` (weaponSkinModel.js): guard the id, delete, then fail if nothing matched. */
    method Delete(id: JsValue) returns (outcome: Outcome)
      requires Valid()
      modifies this
      ensures Valid() && nextId == old(nextId)
      ensures !Truthy(id) ==> outcome == Failed(EmptyId) && rows == old(rows)
      ensures Truthy(id) && Matches(old(rows), id) == {} ==> outcome == Failed(NotFound) && rows == old(rows)
      ensures Truthy(id) && Matches(old(rows), id) != {} ==>
        outcome == Success && rows == old(rows) - {KeyOf(id).value}
    {
      if !Truthy(id) {
        return Failed(EmptyId);
      }
      var matched := Matches(rows, id);
      rows := rows - matched;
      if |matched| == 0 {
        return Failed(NotFound);
      }
      return Success;
    }

    /** `UPDATE weapon_skins SET column = ? WHERE id = ?`: the matched row, if any, gets the value. */
    method SetColumn(id: JsValue, column: Column, value: JsValue) returns (affectedRows: nat)
      requires Valid()
      modifies this
      ensures Valid() && nextId == old(nextId)
      ensures affectedRows == |Matches(old(rows), id)|
      ensures Matches(old(rows), id) == {} ==> rows == old(rows)
      ensures Matches(old(rows), id) != {} ==>
        var k := KeyOf(id).value; rows == old(rows)[k := old(rows)[k][column := value]]
    {
      var matched := Matches(rows, id);
      affectedRows := |matched|;
      if affectedRows > 0 {
        var k := KeyOf(id).value;
        rows := rows[k := rows[k][column := value]];
      }
    }

    /** `updateWeaponSkinPrice(id, newPrice)` (weaponSkinModel.js). */
    method UpdatePrice(id: JsValue, newPrice: JsValue) returns (outcome: Outcome)
      requires Valid()
      modifies this
      ensures Valid() && nextId == old(nextId)
      ensures !Truthy(id) ==> outcome == Failed(EmptyId) && rows == old(rows)
      ensures Truthy(id) && !NonNegativeNumber(newPrice) ==> outcome == Failed(InvalidPrice) && rows == old(rows)
      ensures Truthy(id) && NonNegativeNumber(newPrice) && Matches(old(rows), id) == {} ==>
        outcome == Failed(NotFound) && rows == old(rows)
      ensures Truthy(id) && NonNegativeNumber(newPrice) && Matches(old(rows), id) != {} ==>
        var k := KeyOf(id).value; outcome == Success && rows == old(rows)[k := old(rows)[k][Price := newPrice]]
    {
      if !Truthy(id) {
        return Failed(EmptyId);
      }
      if !NonNegativeNumber(newPrice) {
        return Failed(InvalidPrice);
      }
      var affectedRows := SetColumn(id, Price, newPrice);
      if affectedRows == 0 {
        return Failed(NotFound);
      }
      return Success;
    }

    /** `updateWeaponSkinStock(id, newStock)`: like the price update, and it reports affectedRows. */
    method UpdateStock(id: JsValue, newStock: JsValue) returns (result: Result<nat, Failure>)
      requires Valid()
      modifies this
      ensures Valid() && nextId == old(nextId)
      ensures !Truthy(id) ==> result == Err(EmptyId) && rows == old(rows)
      ensures Truthy(id) && !NonNegativeNumber(newStock) ==> result == Err(InvalidStock) && rows == old(rows)
      ensures Truthy(id) && NonNegativeNumber(newStock) && Matches(old(rows), id) == {} ==>
        result == Err(NotFound) && rows == old(rows)
      ensures Truthy(id) && NonNegativeNumber(newStock) && Matches(old(rows), id) != {} ==>
        var k := KeyOf(id).value; result == Ok(1) && rows == old(rows)[k := old(rows)[k][Stock := newStock]]
    {
      if !Truthy(id) {
        return Err(EmptyId);
      }
      if !NonNegativeNumber(newStock) {
        return Err(InvalidStock);
      }
      var affectedRows := SetColumn(id, Stock, newStock);
      if affectedRows == 0 {
        return Err(NotFound);
      }
      return Ok(affectedRows);
    }

    /** w1 `getAllWeaponSkin`: validate the required fields, then insert the nine values. */
    method AddChecked(skin: CheckedSkin) returns (result: Result<int, Failure>)
      requires Valid()
      modifies this
      ensures Valid()
      ensures !Complete(skin) ==> result == Err(MissingRequired) && rows == old(rows) && nextId == old(nextId)
      ensures Complete(skin) ==>
        result == Ok(old(nextId)) && old(nextId) !in old(rows) && rows == old(rows)[old(nextId) := CheckedRow(skin)]
    {
      if !Complete(skin) {
        return Err(MissingRequired);
      }
      var insertId := nextId;
      rows := rows[insertId := CheckedRow(skin)];
      nextId := nextId + 1;
      return Ok(insertId);
    }

    /** w1 `deleteWeaponSkin`: the DELETE runs first; success is then reported for any id that is not null. */
    method DeleteLenient(id: JsValue) returns (outcome: Outcome)
      requires Valid()
      modifies this
      ensures Valid() && nextId == old(nextId)
      ensures rows == old(rows) - Matches(old(rows), id)
      ensures outcome == Success <==> NotNullish(id)
      ensures outcome != Success ==> outcome == Failed(NullId)
    {
      rows := rows - Matches(rows, id);
      if NotNullish(id) {
        return Success;
      }
      return Failed(NullId);
    }

    /** w1 `updateWeaponSkinPrice(price, id)`: arguments in reverse order, no validation, always success. */
    method UpdatePriceUnchecked(price: JsValue, id: JsValue) returns (outcome: Outcome)
      requires Valid()
      modifies this
      ensures Valid() && nextId == old(nextId)
      ensures outcome == Success
      ensures Matches(old(rows), id) == {} ==> rows == old(rows)
      ensures Matches(old(rows), id) != {} ==>
        var k := KeyOf(id).value; rows == old(rows)[k := old(rows)[k][Price := price]]
    {
      var _ := SetColumn(id, Price, price);
      return Success;
    }
  }
}
