/**
 * What the promotion guarantees about the cart: its guards, how it reads the
 * id lists, what the add/remove pass does when the cart qualifies and when it
 * does not, that lines for other products are never touched, that the price
 * pass only zeroes gift lines, and that a whole recalculation is idempotent.
 */
module BogoProperties {
  import opened PhpStrings
  import opened ShopCart
  import opened Bogo

  // ----- Guards -----

  /** On an admin screen outside AJAX the add/remove callback changes nothing. */
  lemma AdminScreenLeavesCartAlone(req: Request, settings: Settings, categoriesOf: ProductId -> seq<CategoryId>,
                                   catalogPrice: ProductId -> int, lines: seq<Line>)
    requires InAdminScreen(req)
    ensures AddOrRemovePass(req, settings, categoriesOf, catalogPrice, lines) == lines
  {
  }

  /** On an admin screen outside AJAX the price callback changes nothing. */
  lemma AdminScreenLeavesPricesAlone(req: Request, lines: seq<Line>)
    requires InAdminScreen(req)
    ensures PricePass(req, lines) == lines
  {
  }

  /** Without targets, or without free products, the add/remove pass changes nothing. */
  lemma RuleOffLeavesCartAlone(req: Request, settings: Settings, categoriesOf: ProductId -> seq<CategoryId>,
                               catalogPrice: ProductId -> int, lines: seq<Line>)
    requires RuleOff(settings)
    ensures AddOrRemovePass(req, settings, categoriesOf, catalogPrice, lines) == lines
  {
  }

  // ----- Reading the id lists -----

  /** The canonical way to write ids: PHP's decimal form of each, joined by commas. */
  function RenderIdList(ids: seq<ProductId>): string
    requires |ids| >= 1
  {
    Implode(seq(|ids|, i requires 0 <= i < |ids| => Render(ids[i])))
  }

  /** Ids written in their canonical form are read back exactly, in order. */
  lemma ParseIdListRoundTrip(ids: seq<ProductId>)
    requires |ids| >= 1
    requires forall i :: 0 <= i < |ids| ==> PhpIntMin <= ids[i] <= PhpIntMax
    ensures ParseIdList(RenderIdList(ids)) == ids
  {
    var pieces := seq(|ids|, i requires 0 <= i < |ids| => Render(ids[i]));
    ExplodeImplode(pieces);
    forall i | 0 <= i < |ids|
      ensures IntVal(pieces[i]) == ids[i]
    {
      IntValRender(ids[i]);
    }
  }

  // ----- The add/remove pass when the cart qualifies -----

  /**
   * When the cart qualifies, every existing line stays as it was and in
   * place; after them come only new gift lines (quantity 1, flagged
   * `free_gift`, at the catalogue price), each for a free id that had no line
   * at all before, and no two for the same product.
   */
  lemma {:induction false} QualifyingOnlyAppendsGifts(lines: seq<Line>, freeIds: seq<ProductId>,
                                                      catalogPrice: ProductId -> int)
    ensures var r := ApplyFreeIds(lines, freeIds, true, catalogPrice);
      && |lines| <= |r| && r[..|lines|] == lines
      && (forall k :: |lines| <= k < |r| ==>
            && r[k].productId in freeIds && !Present(lines, r[k].productId)
            && r[k].freeGift && r[k].quantity == 1 && r[k].price == catalogPrice(r[k].productId))
      && (forall k, m :: |lines| <= k < m < |r| ==> r[k].productId != r[m].productId)
    decreases |freeIds|
  {
    if freeIds != [] {
      var last := |freeIds| - 1;
      var init, x := freeIds[..last], freeIds[last];
      assert freeIds == init + [x];
      QualifyingOnlyAppendsGifts(lines, init, catalogPrice);
      var prev := ApplyFreeIds(lines, init, true, catalogPrice);
      if !Present(prev, x) {
        var r := prev + [GiftLine(FreshKey(prev), x, catalogPrice)];
        assert r[..|prev|] == prev;
        assert r[..|lines|] == lines;
        forall i | 0 <= i < |lines|
          ensures lines[i].productId != x
        {
          assert prev[i] == lines[i];
        }
      }
    }
  }

  /** When the cart qualifies, afterwards every free id has a line. */
  lemma {:induction false} QualifyingCoversFreeIds(lines: seq<Line>, freeIds: seq<ProductId>,
                                                   catalogPrice: ProductId -> int)
    ensures forall id :: id in freeIds ==> Present(ApplyFreeIds(lines, freeIds, true, catalogPrice), id)
    decreases |freeIds|
  {
    if freeIds != [] {
      var last := |freeIds| - 1;
      var init, x := freeIds[..last], freeIds[last];
      assert freeIds == init + [x];
      QualifyingCoversFreeIds(lines, init, catalogPrice);
      var prev := ApplyFreeIds(lines, init, true, catalogPrice);
      var r := ApplyFreeId(prev, x, true, catalogPrice);
      assert r[..|prev|] == prev;
      forall id | id in freeIds
        ensures Present(r, id)
      {
        if id == x && !Present(prev, x) {
          assert r[|prev|].productId == x;
        } else {
          var i :| 0 <= i < |prev| && prev[i].productId == id;
          assert r[i] == prev[i];
        }
      }
    }
  }

  /**
   * When the cart qualifies, a free id with no line gets exactly one, however
   * often it is listed; a free id that already has lines (a gift or a line
   * the customer added) gets none more; other products keep their count.
   */
  lemma {:induction false} QualifyingAddsEachGiftOnce(lines: seq<Line>, freeIds: seq<ProductId>,
                                                      catalogPrice: ProductId -> int, id: ProductId)
    ensures Count(ApplyFreeIds(lines, freeIds, true, catalogPrice), id)
            == if id in freeIds && Count(lines, id) == 0 then 1 else Count(lines, id)
    decreases |freeIds|
  {
    if freeIds != [] {
      var last := |freeIds| - 1;
      var init, x := freeIds[..last], freeIds[last];
      assert freeIds == init + [x];
      var prev := ApplyFreeIds(lines, init, true, catalogPrice);
      QualifyingAddsEachGiftOnce(lines, init, catalogPrice, id);
      if id != x {
        assert id in freeIds <==> id in init;
        if !Present(prev, x) {
          CountAppend(prev, GiftLine(FreshKey(prev), x, catalogPrice), id);
        }
      } else {
        PresentIffCounted(prev, x);
        if !Present(prev, x) {
          CountAppend(prev, GiftLine(FreshKey(prev), x, catalogPrice), x);
        }
      }
    }
  }

  // ----- The add/remove pass when the cart does not qualify -----

  /**
   * When the cart does not qualify, the pass keeps exactly the lines whose
   * product is not a free id, in order: gift lines and lines the customer
   * added alike are removed.
   */
  lemma {:induction false} NotQualifyingRemovesFreeProducts(lines: seq<Line>, freeIds: seq<ProductId>,
                                                            catalogPrice: ProductId -> int)
    ensures ApplyFreeIds(lines, freeIds, false, catalogPrice) == WithoutProducts(lines, freeIds)
    decreases |freeIds|
  {
    if freeIds == [] {
      WithoutAbsentProducts(lines, freeIds);
    } else {
      var last := |freeIds| - 1;
      var init, x := freeIds[..last], freeIds[last];
      assert freeIds == init + [x];
      NotQualifyingRemovesFreeProducts(lines, init, catalogPrice);
      WithoutProductsTwice(lines, init, [x]);
    }
  }

  // ----- Nothing else changes -----

  lemma {:induction false} WithoutMatchingProducts(a: seq<Line>, ids: seq<ProductId>)
    requires forall i :: 0 <= i < |a| ==> a[i].productId in ids
    ensures WithoutProducts(a, ids) == []
  {
    if a != [] {
      WithoutMatchingProducts(a[1..], ids);
    }
  }

  /**
   * Either way, the lines for products that are not free ids are the same
   * lines, in the same order, before and after the pass.
   */
  lemma OtherProductsUntouched(lines: seq<Line>, freeIds: seq<ProductId>, addFree: bool,
                               catalogPrice: ProductId -> int)
    ensures WithoutProducts(ApplyFreeIds(lines, freeIds, addFree, catalogPrice), freeIds)
            == WithoutProducts(lines, freeIds)
  {
    var r := ApplyFreeIds(lines, freeIds, addFree, catalogPrice);
    if addFree {
      QualifyingOnlyAppendsGifts(lines, freeIds, catalogPrice);
      var added := r[|lines|..];
      assert r == lines + added;
      WithoutProductsAppend(lines, added, freeIds);
      WithoutMatchingProducts(added, freeIds);
    } else {
      NotQualifyingRemovesFreeProducts(lines, freeIds, catalogPrice);
      var w := WithoutProducts(lines, freeIds);
      forall i | 0 <= i < |w|
        ensures w[i].productId !in freeIds
      {
        assert w[i] in w;
      }
      WithoutAbsentProducts(w, freeIds);
    }
  }

  // ----- Idempotence -----

  /** A cart the add/remove loop leaves as it is, for the given qualification. */
  ghost predicate Settled(lines: seq<Line>, freeIds: seq<ProductId>, addFree: bool)
  {
    if addFree then forall id :: id in freeIds ==> Present(lines, id)
    else forall i :: 0 <= i < |lines| ==> lines[i].productId !in freeIds
  }

  lemma {:induction false} AllPresentIsFixpoint(lines: seq<Line>, freeIds: seq<ProductId>,
                                                catalogPrice: ProductId -> int)
    requires forall id :: id in freeIds ==> Present(lines, id)
    ensures ApplyFreeIds(lines, freeIds, true, catalogPrice) == lines
    decreases |freeIds|
  {
    if freeIds != [] {
      var last := |freeIds| - 1;
      assert freeIds == freeIds[..last] + [freeIds[last]];
      AllPresentIsFixpoint(lines, freeIds[..last], catalogPrice);
    }
  }

  /** The add/remove loop leaves a settled cart unchanged. */
  lemma SettledIsFixpoint(lines: seq<Line>, freeIds: seq<ProductId>, addFree: bool,
                          catalogPrice: ProductId -> int)
    requires Settled(lines, freeIds, addFree)
    ensures ApplyFreeIds(lines, freeIds, addFree, catalogPrice) == lines
  {
    if addFree {
      AllPresentIsFixpoint(lines, freeIds, catalogPrice);
    } else {
      NotQualifyingRemovesFreeProducts(lines, freeIds, catalogPrice);
      WithoutAbsentProducts(lines, freeIds);
    }
  }

  /**
   * One add/remove loop settles the cart and does not change whether it
   * qualifies: additions happen only when some line already qualifies and
   * keep that line; removals happen only when none does.
   */
  lemma PassSettles(lines: seq<Line>, freeIds: seq<ProductId>, targetIds: seq<ProductId>,
                    targetCategories: seq<CategoryId>, categoriesOf: ProductId -> seq<CategoryId>,
                    catalogPrice: ProductId -> int)
    ensures var q := Qualifies(lines, targetIds, targetCategories, categoriesOf);
      var r := ApplyFreeIds(lines, freeIds, q, catalogPrice);
      Qualifies(r, targetIds, targetCategories, categoriesOf) == q && Settled(r, freeIds, q)
  {
    var q := Qualifies(lines, targetIds, targetCategories, categoriesOf);
    var r := ApplyFreeIds(lines, freeIds, q, catalogPrice);
    if q {
      QualifyingOnlyAppendsGifts(lines, freeIds, catalogPrice);
      QualifyingCoversFreeIds(lines, freeIds, catalogPrice);
      var i :| 0 <= i < |lines| && IsTargetLine(lines[i], targetIds, targetCategories, categoriesOf);
      assert r[i] == lines[i];
    } else {
      NotQualifyingRemovesFreeProducts(lines, freeIds, catalogPrice);
      forall i | 0 <= i < |r|
        ensures !IsTargetLine(r[i], targetIds, targetCategories, categoriesOf) && r[i].productId !in freeIds
      {
        assert r[i] in r;
        var m :| 0 <= m < |lines| && lines[m] == r[i];
      }
    }
  }

  /** Running the add/remove pass twice gives the same cart as running it once. */
  lemma AddOrRemovePassIdempotent(req: Request, settings: Settings, categoriesOf: ProductId -> seq<CategoryId>,
                                  catalogPrice: ProductId -> int, lines: seq<Line>)
    ensures var once := AddOrRemovePass(req, settings, categoriesOf, catalogPrice, lines);
      AddOrRemovePass(req, settings, categoriesOf, catalogPrice, once) == once
  {
    if !InAdminScreen(req) && !RuleOff(settings) {
      var targetIds := ParseIdList(settings.targetProductIds);
      var freeIds := ParseIdList(settings.freeProductIds);
      var q := Qualifies(lines, targetIds, settings.targetCategories, categoriesOf);
      PassSettles(lines, freeIds, targetIds, settings.targetCategories, categoriesOf, catalogPrice);
      SettledIsFixpoint(ApplyFreeIds(lines, freeIds, q, catalogPrice), freeIds, q, catalogPrice);
    }
  }

  /** Zeroing gift prices twice is zeroing them once. */
  lemma ZeroGiftPricesIdempotent(lines: seq<Line>)
    ensures ZeroGiftPrices(ZeroGiftPrices(lines)) == ZeroGiftPrices(lines)
  {
  }

  /** Two carts with the same products, line by line. */
  ghost predicate SameProducts(a: seq<Line>, b: seq<Line>)
  {
    |a| == |b| && forall i :: 0 <= i < |a| ==> a[i].productId == b[i].productId
  }

  /** Counts depend only on the products, line by line. */
  lemma {:induction false} CountSameProducts(a: seq<Line>, b: seq<Line>, id: ProductId)
    requires SameProducts(a, b)
    ensures Count(a, id) == Count(b, id)
  {
    if a != [] {
      CountSameProducts(a[..|a| - 1], b[..|b| - 1], id);
    }
  }

  /** The price pass does not change what the add/remove pass sees. */
  lemma PricesDoNotMatter(y: seq<Line>, freeIds: seq<ProductId>, q: bool, targetIds: seq<ProductId>,
                          targetCategories: seq<CategoryId>, categoriesOf: ProductId -> seq<CategoryId>)
    ensures var z := ZeroGiftPrices(y);
      && Settled(z, freeIds, q) == Settled(y, freeIds, q)
      && Qualifies(z, targetIds, targetCategories, categoriesOf) == Qualifies(y, targetIds, targetCategories, categoriesOf)
  {
    var z := ZeroGiftPrices(y);
    forall id | Present(y, id)
      ensures Present(z, id)
    {
      var i :| 0 <= i < |y| && y[i].productId == id;
      assert z[i].productId == id;
    }
    forall id | Present(z, id)
      ensures Present(y, id)
    {
      var i :| 0 <= i < |z| && z[i].productId == id;
      assert y[i].productId == id;
    }
    if Qualifies(y, targetIds, targetCategories, categoriesOf) {
      var i :| 0 <= i < |y| && IsTargetLine(y[i], targetIds, targetCategories, categoriesOf);
      assert IsTargetLine(z[i], targetIds, targetCategories, categoriesOf);
    }
    if Qualifies(z, targetIds, targetCategories, categoriesOf) {
      var i :| 0 <= i < |z| && IsTargetLine(z[i], targetIds, targetCategories, categoriesOf);
      assert IsTargetLine(y[i], targetIds, targetCategories, categoriesOf);
    }
  }

  /**
   * A whole recalculation (add/remove pass, then price pass) run on its own
   * result changes nothing more.
   */
  lemma RecalculationPassIdempotent(req: Request, settings: Settings, categoriesOf: ProductId -> seq<CategoryId>,
                                    catalogPrice: ProductId -> int, lines: seq<Line>)
    ensures var once := RecalculationPass(req, settings, categoriesOf, catalogPrice, lines);
      RecalculationPass(req, settings, categoriesOf, catalogPrice, once) == once
  {
    if !InAdminScreen(req) {
      var y := AddOrRemovePass(req, settings, categoriesOf, catalogPrice, lines);
      var z := ZeroGiftPrices(y);
      if !RuleOff(settings) {
        var targetIds := ParseIdList(settings.targetProductIds);
        var freeIds := ParseIdList(settings.freeProductIds);
        var q := Qualifies(lines, targetIds, settings.targetCategories, categoriesOf);
        PassSettles(lines, freeIds, targetIds, settings.targetCategories, categoriesOf, catalogPrice);
        PricesDoNotMatter(y, freeIds, q, targetIds, settings.targetCategories, categoriesOf);
        SettledIsFixpoint(z, freeIds, q, catalogPrice);
      }
      ZeroGiftPricesIdempotent(y);
    }
  }

  // ----- Whole recalculations -----

  /**
   * A qualifying cart with no line for a configured free product ends the
   * recalculation with exactly one line for it: a quantity-1 gift line at
   * price 0. Several target lines do not add more.
   */
  lemma QualifyingCartGetsOneFreeGift(req: Request, settings: Settings, categoriesOf: ProductId -> seq<CategoryId>,
                                      catalogPrice: ProductId -> int, lines: seq<Line>, freeId: ProductId)
    requires !InAdminScreen(req) && !RuleOff(settings)
    requires Qualifies(lines, ParseIdList(settings.targetProductIds), settings.targetCategories, categoriesOf)
    requires freeId in ParseIdList(settings.freeProductIds)
    requires !Present(lines, freeId)
    ensures var r := RecalculationPass(req, settings, categoriesOf, catalogPrice, lines);
      && Count(r, freeId) == 1
      && forall i :: 0 <= i < |r| && r[i].productId == freeId ==>
           r[i].freeGift && r[i].quantity == 1 && r[i].price == 0
  {
    var freeIds := ParseIdList(settings.freeProductIds);
    var y := ApplyFreeIds(lines, freeIds, true, catalogPrice);
    var z := ZeroGiftPrices(y);
    PresentIffCounted(lines, freeId);
    QualifyingAddsEachGiftOnce(lines, freeIds, catalogPrice, freeId);
    CountSameProducts(y, z, freeId);
    QualifyingOnlyAppendsGifts(lines, freeIds, catalogPrice);
    forall k | 0 <= k < |lines|
      ensures y[k].productId != freeId
    {
      assert y[k] == lines[k];
    }
  }

  /**
   * A cart that does not qualify ends the recalculation with no line for any
   * configured free product, while every line for another product is kept.
   */
  lemma NonQualifyingCartLosesFreeProducts(req: Request, settings: Settings,
                                           categoriesOf: ProductId -> seq<CategoryId>,
                                           catalogPrice: ProductId -> int, lines: seq<Line>)
    requires !InAdminScreen(req) && !RuleOff(settings)
    requires !Qualifies(lines, ParseIdList(settings.targetProductIds), settings.targetCategories, categoriesOf)
    ensures var r := AddOrRemovePass(req, settings, categoriesOf, catalogPrice, lines);
      var freeIds := ParseIdList(settings.freeProductIds);
      forall l :: l in r <==> l in lines && l.productId !in freeIds
  {
    NotQualifyingRemovesFreeProducts(lines, ParseIdList(settings.freeProductIds), catalogPrice);
  }
}
