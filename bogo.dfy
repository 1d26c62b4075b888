/**
 * The "buy X, get Y free" rule of BOGO Free for WC. On every cart
 * recalculation the host runs two callbacks, in this order:
 *  - the add/remove pass: if some line is a target product, or a product of
 *    a target category, every configured free product that has no line yet
 *    gets a quantity-1 line flagged `free_gift`; otherwise every line for a
 *    configured free product is removed;
 *  - the price pass: every line flagged `free_gift` gets price 0.
 */
module Bogo {
  import opened PhpStrings
  import opened ShopCart

  type CategoryId = int

  /**
   * The three stored options as the host returns them: the target and free
   * product ids as the comma-separated text the administrator typed, and the
   * selected category ids. An option never saved reads as "" / [].
   */
  datatype Settings = Settings(targetProductIds: string, freeProductIds: string, targetCategories: seq<CategoryId>)

  /** `is_admin()` and `defined('DOING_AJAX')` for the current request. */
  datatype Request = Request(isAdmin: bool, doingAjax: bool)

  /** An admin screen that is not an AJAX call: both callbacks return at once. */
  predicate InAdminScreen(req: Request)
  {
    req.isAdmin && !req.doingAjax
  }

  /**
   * No target of either kind, or no free product: the add/remove pass returns
   * at once. The guard only stops texts that would have parsed to the single
   * id 0.
   */
  predicate RuleOff(settings: Settings): (off: bool)
    ensures off ==> || (ParseIdList(settings.targetProductIds) == [0] && |settings.targetCategories| == 0)
                    || ParseIdList(settings.freeProductIds) == [0]
  {
    FalsyParsesToZero(settings.targetProductIds);
    FalsyParsesToZero(settings.freeProductIds);
    || (Falsy(settings.targetProductIds) && |settings.targetCategories| == 0)
    || Falsy(settings.freeProductIds)
  }

  /**
   * `array_map('intval', explode(',', s))`: one 64-bit id per comma plus one.
   */
  function ParseIdList(s: string): (ids: seq<ProductId>)
    ensures |ids| == Occurrences(s, ',') + 1
    ensures forall i :: 0 <= i < |ids| ==> PhpIntMin <= ids[i] <= PhpIntMax
  {
    ExplodeCountsCommas(s);
    var pieces := Explode(s);
    seq(|pieces|, i requires 0 <= i < |pieces| => IntVal(pieces[i]))
  }

  /** A falsy text parses to the single id 0. */
  lemma FalsyParsesToZero(s: string)
    ensures Falsy(s) ==> ParseIdList(s) == [0]
  {
    if Falsy(s) {
      ExplodeOnePiece(s);
      var ids := ParseIdList(s);
      assert |ids| == 1 && ids[0] == IntVal(s);
    }
  }

  /**
   * A piece that does not start with a number after its whitespace and sign
   * (an empty piece, "abc", "ab12", "-x5") parses to id 0.
   */
  lemma ParseIdListShape(s: string)
    ensures var ids := ParseIdList(s);
      && |ids| == |Explode(s)|
      && (forall i :: 0 <= i < |ids| && !HasLeadingNumber(Explode(s)[i]) ==> ids[i] == 0)
  {
    var pieces := Explode(s);
    forall i | 0 <= i < |pieces| && !HasLeadingNumber(pieces[i])
      ensures IntVal(pieces[i]) == 0
    {
      IntValNoLeadingNumber(pieces[i]);
    }
  }

  /** `array_intersect(a, b)` is non-empty: some value is in both. */
  predicate Intersects(a: seq<CategoryId>, b: seq<CategoryId>): (r: bool)
    ensures r <==> exists c :: c in a && c in b
  {
    CommonValue(a, b);
    exists i, j :: 0 <= i < |a| && 0 <= j < |b| && a[i] == b[j]
  }

  /** Two sequences share a position pair with equal values exactly when they share a value. */
  lemma CommonValue(a: seq<CategoryId>, b: seq<CategoryId>)
    ensures (exists i, j :: 0 <= i < |a| && 0 <= j < |b| && a[i] == b[j]) <==> exists c :: c in a && c in b
  {
    if exists c :: c in a && c in b {
      var c :| c in a && c in b;
      var i :| 0 <= i < |a| && a[i] == c;
      var j :| 0 <= j < |b| && b[j] == c;
    }
    if exists i, j :: 0 <= i < |a| && 0 <= j < |b| && a[i] == b[j] {
      var i, j :| 0 <= i < |a| && 0 <= j < |b| && a[i] == b[j];
      assert a[i] in a && a[i] in b;
    }
  }

  /**
   * A line that makes the cart qualify: its product is a target product, or
   * one of the product's categories (`wp_get_post_terms`, here `categoriesOf`)
   * is a target category.
   */
  predicate IsTargetLine(line: Line, targetIds: seq<ProductId>, targetCategories: seq<CategoryId>,
                         categoriesOf: ProductId -> seq<CategoryId>): (r: bool)
    ensures r <==> || line.productId in targetIds
                   || exists c :: c in targetCategories && c in categoriesOf(line.productId)
  {
    line.productId in targetIds || Intersects(targetCategories, categoriesOf(line.productId))
  }

  /** Some line of the cart is a target line, wherever it stands in the cart. */
  predicate Qualifies(lines: seq<Line>, targetIds: seq<ProductId>, targetCategories: seq<CategoryId>,
                      categoriesOf: ProductId -> seq<CategoryId>): (r: bool)
    ensures r <==> exists l :: l in lines && IsTargetLine(l, targetIds, targetCategories, categoriesOf)
  {
    exists i :: 0 <= i < |lines| && IsTargetLine(lines[i], targetIds, targetCategories, categoriesOf)
  }

  /** The line `add_to_cart($id, 1, '', array(), array('free_gift' => true))` creates. */
  function GiftLine(key: nat, id: ProductId, catalogPrice: ProductId -> int): Line
  {
    Line(key, id, 1, true, catalogPrice(id))
  }

  /**
   * One round of the loop over the free ids: when the cart qualifies, a gift
   * line for `id` is added unless some line (of any kind) is for `id`; when it
   * does not, every line for `id` is removed.
   */
  function ApplyFreeId(lines: seq<Line>, id: ProductId, addFree: bool, catalogPrice: ProductId -> int): seq<Line>
  {
    if !addFree then WithoutProducts(lines, [id])
    else if Present(lines, id) then lines
    else lines + [GiftLine(FreshKey(lines), id, catalogPrice)]
  }

  /** The loop over the free ids, in their configured order. */
  function ApplyFreeIds(lines: seq<Line>, freeIds: seq<ProductId>, addFree: bool,
                        catalogPrice: ProductId -> int): seq<Line>
  {
    if freeIds == [] then lines
    else
      var last := |freeIds| - 1;
      ApplyFreeId(ApplyFreeIds(lines, freeIds[..last], addFree, catalogPrice), freeIds[last], addFree, catalogPrice)
  }

  /** The cart after `bogo_add_or_remove_free_products`. */
  function AddOrRemovePass(req: Request, settings: Settings, categoriesOf: ProductId -> seq<CategoryId>,
                           catalogPrice: ProductId -> int, lines: seq<Line>): seq<Line>
  {
    if InAdminScreen(req) || RuleOff(settings) then lines
    else
      var addFree := Qualifies(lines, ParseIdList(settings.targetProductIds), settings.targetCategories, categoriesOf);
      ApplyFreeIds(lines, ParseIdList(settings.freeProductIds), addFree, catalogPrice)
  }

  /** `set_price(0)` applied to a line flagged `free_gift`; other lines are as they were. */
  function ZeroIfGift(line: Line): Line
  {
    if line.freeGift then line.(price := 0) else line
  }

  /** Every gift line priced 0, nothing else changed. */
  function ZeroGiftPrices(lines: seq<Line>): (r: seq<Line>)
    ensures |r| == |lines|
    ensures forall i :: 0 <= i < |r| ==>
              && r[i].key == lines[i].key && r[i].productId == lines[i].productId
              && r[i].quantity == lines[i].quantity && r[i].freeGift == lines[i].freeGift
              && r[i].price == (if lines[i].freeGift then 0 else lines[i].price)
  {
    seq(|lines|, i requires 0 <= i < |lines| => ZeroIfGift(lines[i]))
  }

  /** The cart after `bogo_set_free_product_price`. */
  function PricePass(req: Request, lines: seq<Line>): seq<Line>
  {
    if InAdminScreen(req) then lines else ZeroGiftPrices(lines)
  }

  /** The cart after one `woocommerce_before_calculate_totals` event: priority 10, then 20. */
  function RecalculationPass(req: Request, settings: Settings, categoriesOf: ProductId -> seq<CategoryId>,
                             catalogPrice: ProductId -> int, lines: seq<Line>): seq<Line>
  {
    PricePass(req, AddOrRemovePass(req, settings, categoriesOf, catalogPrice, lines))
  }

  /**
   * The first loop of `bogo_add_or_remove_free_products`: scan the lines in
   * order and stop at the first target line. Stopping early gives the same
   * answer as looking at every line.
   */
  method ScanForTarget(items: seq<Line>, targetIds: seq<ProductId>, targetCategories: seq<CategoryId>,
                       categoriesOf: ProductId -> seq<CategoryId>) returns (addFree: bool)
    ensures addFree == Qualifies(items, targetIds, targetCategories, categoriesOf)
  {
    addFree := false;
    var i := 0;
    while i < |items|
      invariant 0 <= i <= |items|
      invariant !addFree
      invariant forall k :: 0 <= k < i ==> !IsTargetLine(items[k], targetIds, targetCategories, categoriesOf)
    {
      var productId := items[i].productId;
      if productId in targetIds {
        addFree := true;
        break;
      }
      var productCategories := categoriesOf(productId);
      if Intersects(targetCategories, productCategories) {
        addFree := true;
        break;
      }
      i := i + 1;
    }
  }

  /** The lines the scan has kept so far do not use the key of `items[i]`. */
  lemma KeptLinesMissKey(items: seq<Line>, i: nat, id: ProductId)
    requires UniqueKeys(items) && i < |items|
    ensures WithoutKey(WithoutProducts(items[..i], [id]), items[i].key) == WithoutProducts(items[..i], [id])
  {
    var done := WithoutProducts(items[..i], [id]);
    forall m | 0 <= m < |done|
      ensures done[m].key != items[i].key
    {
      assert done[m] in items[..i];
      var p :| 0 <= p < i && items[..i][p] == done[m];
      assert items[p] == done[m];
    }
    WithoutAbsentKey(done, items[i].key);
  }

  /** Removing the key of `items[i]` from `items[i..]` leaves `items[i + 1..]`. */
  lemma RemovingKeyOfNextLine(items: seq<Line>, i: nat)
    requires UniqueKeys(items) && i < |items|
    ensures WithoutKey(items[i..], items[i].key) == items[i + 1..]
  {
    assert items[i..] == [items[i]] + items[i + 1..];
    WithoutKeyAppend([items[i]], items[i + 1..], items[i].key);
    WithoutAbsentKey(items[i + 1..], items[i].key);
    assert WithoutKey([items[i]], items[i].key) == [];
  }

  /** Extending the scanned prefix by one line for `id` keeps nothing more. */
  lemma ScannedMatchedLine(items: seq<Line>, i: nat, id: ProductId)
    requires i < |items| && items[i].productId == id
    ensures WithoutProducts(items[..i + 1], [id]) == WithoutProducts(items[..i], [id])
  {
    assert items[..i + 1] == items[..i] + [items[i]];
    WithoutProductsAppend(items[..i], [items[i]], [id]);
    assert WithoutProducts([items[i]], [id]) == [];
  }

  /** Removing the line under the key of `items[i]`, a line for `id`, moves the scan one line on. */
  lemma RemovingMatchedLine(items: seq<Line>, i: nat, id: ProductId)
    requires UniqueKeys(items) && i < |items| && items[i].productId == id
    ensures WithoutKey(WithoutProducts(items[..i], [id]) + items[i..], items[i].key)
            == WithoutProducts(items[..i + 1], [id]) + items[i + 1..]
  {
    WithoutKeyAppend(WithoutProducts(items[..i], [id]), items[i..], items[i].key);
    KeptLinesMissKey(items, i, id);
    RemovingKeyOfNextLine(items, i);
    ScannedMatchedLine(items, i, id);
  }

  /** Passing over a line for another product moves the scan one line on. */
  lemma SkippingOtherLine(items: seq<Line>, i: nat, id: ProductId)
    requires i < |items| && items[i].productId != id
    ensures WithoutProducts(items[..i], [id]) + items[i..] == WithoutProducts(items[..i + 1], [id]) + items[i + 1..]
  {
    assert items[..i + 1] == items[..i] + [items[i]];
    WithoutProductsAppend(items[..i], [items[i]], [id]);
    assert items[i..] == [items[i]] + items[i + 1..];
  }

  /**
   * The second part of `bogo_add_or_remove_free_products` for one free id:
   * the loop over the lines read afresh from the cart, then the add.
   */
  method ReconcileFreeId(cart: Cart, freeId: ProductId, addFree: bool, catalogPrice: ProductId -> int)
    requires cart.Valid()
    modifies cart
    ensures cart.Valid()
    ensures cart.lines == ApplyFreeId(old(cart.lines), freeId, addFree, catalogPrice)
  {
    var freePresent := false;
    var items := cart.lines;
    var i := 0;
    while i < |items|
      invariant 0 <= i <= |items|
      invariant cart.Valid()
      invariant freePresent == Present(items[..i], freeId)
      invariant addFree ==> cart.lines == items
      invariant !addFree ==> cart.lines == WithoutProducts(items[..i], [freeId]) + items[i..]
    {
      assert items[..i + 1] == items[..i] + [items[i]];
      if items[i].productId == freeId {
        freePresent := true;
        if !addFree {
          RemovingMatchedLine(items, i, freeId);
          cart.RemoveCartItem(items[i].key);
        }
      } else if !addFree {
        SkippingOtherLine(items, i, freeId);
      }
      i := i + 1;
    }
    assert items[..i] == items;
    if addFree && !freePresent {
      var _ := cart.AddToCart(freeId, 1, true, catalogPrice(freeId));
    }
  }

  /** The loop of `bogo_add_or_remove_free_products` over the free ids, in order. */
  method ReconcileFreeIds(cart: Cart, freeIds: seq<ProductId>, addFree: bool, catalogPrice: ProductId -> int)
    requires cart.Valid()
    modifies cart
    ensures cart.Valid()
    ensures cart.lines == ApplyFreeIds(old(cart.lines), freeIds, addFree, catalogPrice)
  {
    ghost var start := cart.lines;
    var j := 0;
    while j < |freeIds|
      invariant 0 <= j <= |freeIds|
      invariant cart.Valid()
      invariant cart.lines == ApplyFreeIds(start, freeIds[..j], addFree, catalogPrice)
    {
      assert freeIds[..j + 1][..j] == freeIds[..j];
      ReconcileFreeId(cart, freeIds[j], addFree, catalogPrice);
      j := j + 1;
    }
    assert freeIds[..j] == freeIds;
  }

  /**
   * `bogo_add_or_remove_free_products($cart)`. `categoriesOf` stands for the
   * host's category lookup and `catalogPrice` for the price the host gives a
   * product it adds.
   */
  method AddOrRemoveFreeProducts(cart: Cart, req: Request, settings: Settings,
                                 categoriesOf: ProductId -> seq<CategoryId>, catalogPrice: ProductId -> int)
    requires cart.Valid()
    modifies cart
    ensures cart.Valid()
    ensures cart.lines == AddOrRemovePass(req, settings, categoriesOf, catalogPrice, old(cart.lines))
  {
    if req.isAdmin && !req.doingAjax {
      return;
    }
    if RuleOff(settings) {
      return;
    }
    var targetIdsArray := ParseIdList(settings.targetProductIds);
    var freeProductIdsArray := ParseIdList(settings.freeProductIds);
    var addFree := ScanForTarget(cart.lines, targetIdsArray, settings.targetCategories, categoriesOf);
    ReconcileFreeIds(cart, freeProductIdsArray, addFree, catalogPrice);
  }

  /** `bogo_set_free_product_price($cart)`. */
  method SetFreeProductPrice(cart: Cart, req: Request)
    requires cart.Valid()
    modifies cart
    ensures cart.Valid()
    ensures cart.lines == PricePass(req, old(cart.lines))
  {
    if req.isAdmin && !req.doingAjax {
      return;
    }
    var items := cart.lines;
    for i := 0 to |items|
      invariant cart.Valid()
      invariant |cart.lines| == |items|
      invariant forall k :: 0 <= k < i ==> cart.lines[k] == ZeroIfGift(items[k])
      invariant forall k :: i <= k < |items| ==> cart.lines[k] == items[k]
    {
      if items[i].freeGift {
        cart.SetPrice(i, 0);
      }
    }
  }

  /** The host's `woocommerce_before_calculate_totals` event: both callbacks in priority order. */
  method BeforeCalculateTotals(cart: Cart, req: Request, settings: Settings,
                               categoriesOf: ProductId -> seq<CategoryId>, catalogPrice: ProductId -> int)
    requires cart.Valid()
    modifies cart
    ensures cart.Valid()
    ensures cart.lines == RecalculationPass(req, settings, categoriesOf, catalogPrice, old(cart.lines))
  {
    AddOrRemoveFreeProducts(cart, req, settings, categoriesOf, catalogPrice);
    SetFreeProductPrice(cart, req);
  }
}
