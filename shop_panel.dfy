/**
 * The shop panel: a table of one-time purchasable items, a stack of item
 * rectangles for hit-testing, and a score-gated purchase.  The panel's own
 * rectangle is a constructor parameter: the program computes it with
 * `GridHelper.grid_to_pixels`, which utils/grid_helper.py does not define.
 */
module Shop {
  import opened Wrappers

  datatype ShopItem = ShopItem(id: string, name: string, description: string, price: int, purchased: bool)

  /** The five items the panel starts with, none purchased. */
  const InitialItems: seq<ShopItem> := [
    ShopItem("cpu_4", "CPU 4", "Nova CPU Verde", 10, false),
    ShopItem("cpu_5", "CPU 5", "Nova CPU Amarela", 20, false),
    ShopItem("cpu_6", "CPU 6", "Nova CPU Roxa", 30, false),
    ShopItem("upgrade_speed", "Velocidade +", "Aumenta velocidade transporte", 15, false),
    ShopItem("upgrade_capacity", "Capacidade +", "Aumenta capacidade do sistema", 25, false)
  ]

  /** A screen rectangle with pygame's hit test: left and top edges inside, right and bottom edges outside. */
  datatype Rect = Rect(left: int, top: int, width: int, height: int) {
    predicate CollidePoint(px: int, py: int) {
      left <= px < left + width && top <= py < top + height
    }
  }

  const ItemHeight := 80
  const Padding := 10

  /** The rectangle of item `i` on a panel whose corner is (x, y) and whose width is `width`. */
  function ItemRect(x: int, y: int, width: int, i: int): Rect
  {
    Rect(x + Padding, y + Padding + i * (ItemHeight + Padding), width - Padding * 2, ItemHeight)
  }

  /** All ids in the table are different. */
  ghost predicate UniqueIds(items: seq<ShopItem>)
  {
    forall i, j :: 0 <= i < j < |items| ==> items[i].id != items[j].id
  }

  /** The purchase test that `purchase_item` applies to each item. */
  predicate Purchasable(item: ShopItem, itemId: string, score: int)
  {
    item.id == itemId && !item.purchased && score >= item.price
  }

  /** The first item the purchase test accepts, if any. */
  function PurchaseIndex(items: seq<ShopItem>, itemId: string, score: int): (r: Option<nat>)
    ensures r.Some? ==> r.value < |items| && Purchasable(items[r.value], itemId, score)
    ensures r.Some? ==> forall k :: 0 <= k < r.value ==> !Purchasable(items[k], itemId, score)
    ensures r.None? <==> forall k :: 0 <= k < |items| ==> !Purchasable(items[k], itemId, score)
  {
    if items == [] then None
    else if Purchasable(items[0], itemId, score) then Some(0)
    else match PurchaseIndex(items[1..], itemId, score)
      case None => None
      case Some(k) => Some(k + 1)
  }

  /** The first item with the given id, if any. */
  function FindItem(items: seq<ShopItem>, itemId: string): (r: Option<nat>)
    ensures r.Some? ==> r.value < |items| && items[r.value].id == itemId
    ensures r.Some? ==> forall k :: 0 <= k < r.value ==> items[k].id != itemId
    ensures r.None? <==> forall k :: 0 <= k < |items| ==> items[k].id != itemId
  {
    if items == [] then None
    else if items[0].id == itemId then Some(0)
    else match FindItem(items[1..], itemId)
      case None => None
      case Some(k) => Some(k + 1)
  }

  /** The table after item `i` is bought. */
  function MarkPurchased(items: seq<ShopItem>, i: nat): (r: seq<ShopItem>)
    requires i < |items|
    ensures |r| == |items| && r[i].purchased
    ensures forall k :: 0 <= k < |items| ==>
              r[k].id == items[k].id && r[k].price == items[k].price &&
              r[k].name == items[k].name && r[k].description == items[k].description
    ensures forall k :: 0 <= k < |items| && k != i ==> r[k] == items[k]
  {
    items[i := items[i].(purchased := true)]
  }

  /** What `is_item_purchased` reports: the flag of the first item with that id, false for an unknown id. */
  function PurchasedFlag(items: seq<ShopItem>, itemId: string): (b: bool)
    ensures b ==> exists k :: 0 <= k < |items| && items[k].id == itemId && items[k].purchased
    ensures (forall k :: 0 <= k < |items| ==> items[k].id != itemId) ==> !b
  {
    match FindItem(items, itemId)
    case None => false
    case Some(k) => items[k].purchased
  }

  /** The initial table: five items with distinct ids, none purchased, at the listed prices. */
  lemma InitialTable()
    ensures |InitialItems| == 5
    ensures UniqueIds(InitialItems)
    ensures forall k :: 0 <= k < 5 ==> !InitialItems[k].purchased
    ensures [InitialItems[0].price, InitialItems[1].price, InitialItems[2].price,
             InitialItems[3].price, InitialItems[4].price] == [10, 20, 30, 15, 25]
  {
    assert InitialItems[0].id[4] != InitialItems[1].id[4];
    assert InitialItems[0].id[4] != InitialItems[2].id[4];
    assert InitialItems[1].id[4] != InitialItems[2].id[4];
    assert |InitialItems[3].id| != |InitialItems[4].id|;
    assert |InitialItems[0].id| != |InitialItems[3].id|;
    assert |InitialItems[0].id| != |InitialItems[4].id|;
    assert |InitialItems[1].id| != |InitialItems[3].id|;
    assert |InitialItems[1].id| != |InitialItems[4].id|;
    assert |InitialItems[2].id| != |InitialItems[3].id|;
    assert |InitialItems[2].id| != |InitialItems[4].id|;
  }

  /** A purchase succeeds exactly when some item with that id is unpurchased and affordable. */
  lemma PurchaseSucceedsIff(items: seq<ShopItem>, itemId: string, score: int)
    ensures PurchaseIndex(items, itemId, score).Some? <==>
            exists k :: 0 <= k < |items| && items[k].id == itemId && !items[k].purchased && score >= items[k].price
  {
    if PurchaseIndex(items, itemId, score).None? {
      forall k | 0 <= k < |items|
        ensures !(items[k].id == itemId && !items[k].purchased && score >= items[k].price)
      {
        assert !Purchasable(items[k], itemId, score);
      }
    }
  }

  /** With distinct ids, buying an item makes every later purchase of the same id fail, whatever the score. */
  lemma SecondPurchaseFails(items: seq<ShopItem>, itemId: string, score: int, laterScore: int)
    requires UniqueIds(items)
    requires PurchaseIndex(items, itemId, score).Some?
    ensures PurchaseIndex(MarkPurchased(items, PurchaseIndex(items, itemId, score).value), itemId, laterScore).None?
  {
    var i := PurchaseIndex(items, itemId, score).value;
    var after := MarkPurchased(items, i);
    forall k | 0 <= k < |after|
      ensures !Purchasable(after[k], itemId, laterScore)
    {
      if k != i {
        assert after[k] == items[k];
        assert k < i || i < k;
      }
    }
  }

  /** With distinct ids, after a purchase the item reports purchased; every other id reports as before. */
  lemma PurchaseIsReported(items: seq<ShopItem>, itemId: string, score: int, otherId: string)
    requires UniqueIds(items)
    requires PurchaseIndex(items, itemId, score).Some?
    ensures var after := MarkPurchased(items, PurchaseIndex(items, itemId, score).value);
            PurchasedFlag(after, itemId) &&
            (otherId != itemId ==> PurchasedFlag(after, otherId) == PurchasedFlag(items, otherId))
  {
    var i := PurchaseIndex(items, itemId, score).value;
    var after := MarkPurchased(items, i);
    var f := FindItem(after, itemId);
    assert after[i].id == itemId;
    if otherId != itemId {
      var g := FindItem(items, otherId);
      var h := FindItem(after, otherId);
      assert g.Some? <==> h.Some?;
      if g.Some? {
        assert h.value == g.value;
      }
    }
  }

  /** Item rectangles never overlap: the stride of 90 pixels exceeds the height of 80. */
  lemma ItemRectsDisjoint(x: int, y: int, width: int, i: int, j: int, px: int, py: int)
    requires i != j
    ensures !(ItemRect(x, y, width, i).CollidePoint(px, py) && ItemRect(x, y, width, j).CollidePoint(px, py))
  {
    if i < j {
      assert j * 90 >= i * 90 + 90;
    } else {
      assert i * 90 >= j * 90 + 90;
    }
  }

  class ShopPanel {
    const x: int
    const y: int
    const width: int
    const height: int
    var shopItems: seq<ShopItem>
    var itemRects: seq<Rect>

    /** One rectangle per item, laid out by `ItemRect`, and distinct item ids. */
    ghost predicate Valid()
      reads this
    {
      |itemRects| == |shopItems| && UniqueIds(shopItems) &&
      forall i :: 0 <= i < |itemRects| ==> itemRects[i] == ItemRect(x, y, width, i)
    }

    constructor (px: int, py: int, w: int, h: int)
      ensures Valid()
      ensures x == px && y == py && width == w && height == h
      ensures shopItems == InitialItems
    {
      x, y, width, height := px, py, w, h;
      shopItems := InitialItems;
      itemRects := [];
      new;
      InitialTable();
      CalculateItemRects();
    }

    /** Rebuilds one rectangle per item: item `i` at (x + 10, y + 10 + 90 i), `width - 20` wide and 80 high. */
    method CalculateItemRects()
      modifies this`itemRects
      ensures |itemRects| == |shopItems|
      ensures forall i :: 0 <= i < |itemRects| ==> itemRects[i] == ItemRect(x, y, width, i)
    {
      itemRects := [];
      var i := 0;
      while i < |shopItems|
        invariant 0 <= i <= |shopItems|
        invariant |itemRects| == i
        invariant forall k :: 0 <= k < i ==> itemRects[k] == ItemRect(x, y, width, k)
      {
        var rectY := y + Padding + i * (ItemHeight + Padding);
        itemRects := itemRects + [Rect(x + Padding, rectY, width - Padding * 2, ItemHeight)];
        i := i + 1;
      }
    }

    /**
     * The item whose rectangle contains the point, or None.  Because the
     * rectangles are disjoint the answer is the unique containing item.
     */
    method IsClicked(px: int, py: int) returns (r: Option<ShopItem>)
      requires Valid()
      ensures r.None? <==> forall i :: 0 <= i < |itemRects| ==> !itemRects[i].CollidePoint(px, py)
      ensures forall i :: 0 <= i < |itemRects| && itemRects[i].CollidePoint(px, py) ==> r == Some(shopItems[i])
    {
      var i := 0;
      while i < |itemRects|
        invariant 0 <= i <= |itemRects|
        invariant forall k :: 0 <= k < i ==> !itemRects[k].CollidePoint(px, py)
      {
        if itemRects[i].CollidePoint(px, py) {
          forall k | 0 <= k < |itemRects| && k != i
            ensures !itemRects[k].CollidePoint(px, py)
          {
            ItemRectsDisjoint(x, y, width, i, k, px, py);
          }
          return Some(shopItems[i]);
        }
        i := i + 1;
      }
      return None;
    }

    /**
     * Buys the first item with that id that is unpurchased and affordable,
     * returning its price; otherwise returns (false, 0) and the table is
     * unchanged.  The score is not touched and no price changes.
     */
    method PurchaseItem(itemId: string, currentScore: int) returns (ok: bool, price: int)
      requires Valid()
      modifies this`shopItems
      ensures Valid()
      ensures ok == PurchaseIndex(old(shopItems), itemId, currentScore).Some?
      ensures ok ==> var i := PurchaseIndex(old(shopItems), itemId, currentScore).value;
                     price == old(shopItems)[i].price && shopItems == MarkPurchased(old(shopItems), i)
      ensures !ok ==> price == 0 && shopItems == old(shopItems)
    {
      var i := 0;
      while i < |shopItems|
        invariant 0 <= i <= |shopItems|
        invariant forall k :: 0 <= k < i ==> !Purchasable(shopItems[k], itemId, currentScore)
      {
        var item := shopItems[i];
        if item.id == itemId && !item.purchased && currentScore >= item.price {
          assert PurchaseIndex(shopItems, itemId, currentScore) == Some(i);
          shopItems := MarkPurchased(shopItems, i);
          return true, item.price;
        }
        i := i + 1;
      }
      return false, 0;
    }

    /** The purchased flag of the item with that id; false for an unknown id. */
    method IsItemPurchased(itemId: string) returns (b: bool)
      ensures b == PurchasedFlag(shopItems, itemId)
      ensures (forall k :: 0 <= k < |shopItems| ==> shopItems[k].id != itemId) ==> !b
    {
      var i := 0;
      while i < |shopItems|
        invariant 0 <= i <= |shopItems|
        invariant forall k :: 0 <= k < i ==> shopItems[k].id != itemId
      {
        if shopItems[i].id == itemId {
          assert FindItem(shopItems, itemId) == Some(i);
          return shopItems[i].purchased;
        }
        i := i + 1;
      }
      return false;
    }
  }
}
