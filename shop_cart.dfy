/**
 * The part of the host shop's cart that the promotion reads and changes:
 * an ordered list of lines, each under a unique key, with the three cart
 * operations the promotion calls (remove a line by key, add a product,
 * set a line's price).
 */
module ShopCart {

  type ProductId = int

  /**
   * One cart line: the host's line key, the product, the quantity, whether
   * the line carries the item data `free_gift` set to exactly `true`, and the
   * unit price the host will charge (a decimal in the host, minor units here).
   */
  datatype Line = Line(key: nat, productId: ProductId, quantity: nat, freeGift: bool, price: int)

  /** No two lines share a key. */
  predicate UniqueKeys(lines: seq<Line>)
  {
    forall i, j :: 0 <= i < j < |lines| ==> lines[i].key != lines[j].key
  }

  /** A key that no line of the cart uses yet. */
  function FreshKey(lines: seq<Line>): (k: nat)
    ensures forall i :: 0 <= i < |lines| ==> lines[i].key < k
  {
    if lines == [] then 0
    else
      var k := FreshKey(lines[1..]);
      if lines[0].key < k then k else lines[0].key + 1
  }

  /** Some line of the cart is for product `id`. */
  predicate Present(lines: seq<Line>, id: ProductId)
  {
    exists i :: 0 <= i < |lines| && lines[i].productId == id
  }

  /** The number of lines of the cart for product `id`. */
  function Count(lines: seq<Line>, id: ProductId): nat
  {
    if lines == [] then 0
    else Count(lines[..|lines| - 1], id) + (if lines[|lines| - 1].productId == id then 1 else 0)
  }

  lemma {:induction false} PresentIffCounted(lines: seq<Line>, id: ProductId)
    ensures Present(lines, id) <==> Count(lines, id) > 0
  {
    if lines != [] {
      var init := lines[..|lines| - 1];
      PresentIffCounted(init, id);
      if Present(init, id) {
        var i :| 0 <= i < |init| && init[i].productId == id;
        assert lines[i] == init[i];
      }
      if Present(lines, id) && lines[|lines| - 1].productId != id {
        var i :| 0 <= i < |lines| && lines[i].productId == id;
        assert init[i] == lines[i];
      }
    }
  }

  /** Appending a line adds one to the count of its own product only. */
  lemma CountAppend(lines: seq<Line>, line: Line, id: ProductId)
    ensures Count(lines + [line], id) == Count(lines, id) + (if line.productId == id then 1 else 0)
  {
    assert (lines + [line])[..|lines|] == lines;
  }

  /** The cart without the line under `key`. */
  function WithoutKey(lines: seq<Line>, key: nat): (r: seq<Line>)
    ensures forall l :: l in r <==> l in lines && l.key != key
  {
    if lines == [] then []
    else if lines[0].key == key then WithoutKey(lines[1..], key)
    else [lines[0]] + WithoutKey(lines[1..], key)
  }

  /** The cart without any line whose product is one of `ids`, in the original order. */
  function WithoutProducts(lines: seq<Line>, ids: seq<ProductId>): (r: seq<Line>)
    ensures |r| <= |lines|
    ensures forall l :: l in r <==> l in lines && l.productId !in ids
  {
    if lines == [] then []
    else if lines[0].productId in ids then WithoutProducts(lines[1..], ids)
    else [lines[0]] + WithoutProducts(lines[1..], ids)
  }

  lemma {:induction false} WithoutKeyAppend(a: seq<Line>, b: seq<Line>, key: nat)
    ensures WithoutKey(a + b, key) == WithoutKey(a, key) + WithoutKey(b, key)
  {
    if a == [] {
      assert a + b == b;
    } else {
      var ab := a + b;
      assert ab[0] == a[0] && ab[1..] == a[1..] + b;
      WithoutKeyAppend(a[1..], b, key);
      var x, y := WithoutKey(a[1..], key), WithoutKey(b, key);
      if a[0].key != key {
        assert [a[0]] + (x + y) == ([a[0]] + x) + y;
      }
    }
  }

  /** Removing a key that no line has changes nothing. */
  lemma {:induction false} WithoutAbsentKey(a: seq<Line>, key: nat)
    requires forall i :: 0 <= i < |a| ==> a[i].key != key
    ensures WithoutKey(a, key) == a
  {
    if a != [] {
      WithoutAbsentKey(a[1..], key);
      assert a == [a[0]] + a[1..];
    }
  }

  /** Removing a line keeps the keys unique. */
  lemma {:induction false} WithoutKeyKeepsUnique(a: seq<Line>, key: nat)
    requires UniqueKeys(a)
    ensures UniqueKeys(WithoutKey(a, key))
  {
    if a != [] {
      var rest := WithoutKey(a[1..], key);
      WithoutKeyKeepsUnique(a[1..], key);
      if a[0].key != key {
        forall j | 0 <= j < |rest|
          ensures rest[j].key != a[0].key
        {
          assert rest[j] in a[1..];
          var m :| 0 <= m < |a[1..]| && a[1..][m] == rest[j];
          assert a[m + 1] == rest[j];
        }
      }
    }
  }

  lemma {:induction false} WithoutProductsAppend(a: seq<Line>, b: seq<Line>, ids: seq<ProductId>)
    ensures WithoutProducts(a + b, ids) == WithoutProducts(a, ids) + WithoutProducts(b, ids)
  {
    if a == [] {
      assert a + b == b;
    } else {
      var ab := a + b;
      assert ab[0] == a[0] && ab[1..] == a[1..] + b;
      WithoutProductsAppend(a[1..], b, ids);
      var x, y := WithoutProducts(a[1..], ids), WithoutProducts(b, ids);
      if a[0].productId !in ids {
        assert [a[0]] + (x + y) == ([a[0]] + x) + y;
      }
    }
  }

  /** Removing products that no line has changes nothing. */
  lemma {:induction false} WithoutAbsentProducts(a: seq<Line>, ids: seq<ProductId>)
    requires forall i :: 0 <= i < |a| ==> a[i].productId !in ids
    ensures WithoutProducts(a, ids) == a
  {
    if a != [] {
      WithoutAbsentProducts(a[1..], ids);
      assert a == [a[0]] + a[1..];
    }
  }

  /** Removing the products `ids`, then `more`, removes the products `ids + more`. */
  lemma {:induction false} WithoutProductsTwice(a: seq<Line>, ids: seq<ProductId>, more: seq<ProductId>)
    ensures WithoutProducts(WithoutProducts(a, ids), more) == WithoutProducts(a, ids + more)
  {
    if a != [] {
      WithoutProductsTwice(a[1..], ids, more);
    }
  }

  /**
   * The host's cart object. Only the operations the promotion calls are
   * modelled; each says exactly what the list of lines becomes.
   */
  class Cart {
    var lines: seq<Line>

    ghost predicate Valid()
      reads this
    {
      UniqueKeys(lines)
    }

    constructor (initial: seq<Line>)
      requires UniqueKeys(initial)
      ensures Valid() && lines == initial
    {
      lines := initial;
    }

    /** `remove_cart_item($key)`: the line under `key`, if any, leaves the cart. */
    method RemoveCartItem(key: nat)
      requires Valid()
      modifies this
      ensures Valid()
      ensures lines == WithoutKey(old(lines), key)
    {
      WithoutKeyKeepsUnique(lines, key);
      lines := WithoutKey(lines, key);
    }

    /**
     * `add_to_cart($productId, $quantity, ...)`: a new line for the product,
     * under a key no line has yet, at the end of the cart.
     */
    method AddToCart(productId: ProductId, quantity: nat, freeGift: bool, price: int) returns (key: nat)
      requires Valid()
      modifies this
      ensures Valid()
      ensures key == FreshKey(old(lines))
      ensures lines == old(lines) + [Line(key, productId, quantity, freeGift, price)]
    {
      key := FreshKey(lines);
      lines := lines + [Line(key, productId, quantity, freeGift, price)];
    }

    /** `$cart_item['data']->set_price($price)` on the line at position `i`. */
    method SetPrice(i: nat, price: int)
      requires Valid() && i < |lines|
      modifies this
      ensures Valid()
      ensures lines == old(lines)[i := old(lines)[i].(price := price)]
    {
      lines := lines[i := lines[i].(price := price)];
    }
  }
}
