/**
 * The checkout screen: a cart of product lines bounded by the stock of the product list,
 * and a sale that takes the cart's quantities off that stock.
 *
 * The cart and the list it builds are pure values (`Added`, `Removed`, `Sold`, `Total`);
 * the `Register` class holds the two pieces of state the screen replaces on each action.
 */
module Checkout {
  import opened Optional
  import Seqs

  /** A product of the shop. A cart line is the same record with `quantity` counting the
      units in the cart instead of the units in stock. Prices are in minor units. */
  datatype Item = Item(id: int, name: string, category: string, price: int, quantity: int)

  /** No two lines share an id. */
  ghost predicate UniqueIds(lines: seq<Item>)
  {
    forall i, j :: 0 <= i < j < |lines| ==> lines[i].id != lines[j].id
  }

  /** Every cart line asks for no more units than the product with the same id has in stock. */
  ghost predicate WithinStock(cart: seq<Item>, products: seq<Item>)
  {
    forall c, p :: c in cart && p in products && c.id == p.id ==> c.quantity <= p.quantity
  }

  /** No product has a negative stock. */
  ghost predicate NoNegativeStock(products: seq<Item>)
  {
    forall p :: p in products ==> p.quantity >= 0
  }

  /** Position of the first line carrying `id`, or `|lines|` when there is none:
      the search `lines.find(p => p.id === id)` performs. */
  function FirstIndex(lines: seq<Item>, id: int): (k: nat)
    ensures k <= |lines|
    ensures forall i :: 0 <= i < k ==> lines[i].id != id
    ensures k < |lines| ==> lines[k].id == id
  {
    if lines == [] then 0
    else if lines[0].id == id then 0
    else 1 + FirstIndex(lines[1..], id)
  }

  /** The first line carrying `id`, if any (`Array.prototype.find`). */
  function Find(lines: seq<Item>, id: int): (r: Option<Item>)
    ensures r.None? <==> forall i :: 0 <= i < |lines| ==> lines[i].id != id
    ensures r.Some? ==> r.value in lines && r.value.id == id
    ensures r.Some? ==>
      exists k :: 0 <= k < |lines| && r.value == lines[k] && forall i :: 0 <= i < k ==> lines[i].id != id
  {
    var k := FirstIndex(lines, id);
    if k < |lines| then Some(lines[k]) else None
  }

  /** Units of product `id` in the cart: the first matching line's quantity, 0 when absent. */
  function CartQty(cart: seq<Item>, id: int): int
  {
    match Find(cart, id)
    case Some(line) => line.quantity
    case None => 0
  }

  /** Every line carrying `id` with one more unit; the other lines as they were. */
  function Increment(cart: seq<Item>, id: int): (r: seq<Item>)
    ensures |r| == |cart|
    ensures forall i :: 0 <= i < |cart| ==> r[i].id == cart[i].id
  {
    seq(|cart|, i requires 0 <= i < |cart| =>
      if cart[i].id == id then cart[i].(quantity := cart[i].quantity + 1) else cart[i])
  }

  /** The cart after "Add to Cart" on `product`: refused (cart unchanged) when one more unit
      would exceed the product's stock; otherwise the existing line gains a unit, or a new
      line with one unit is appended. */
  function Added(cart: seq<Item>, product: Item): seq<Item>
  {
    var inCart := Find(cart, product.id);
    var cartQty := if inCart.Some? then inCart.value.quantity else 0;
    if cartQty + 1 > product.quantity then cart
    else if inCart.Some? then Increment(cart, product.id)
    else cart + [product.(quantity := 1)]
  }

  /** The cart after "Remove" on `id`. */
  function Removed(cart: seq<Item>, id: int): seq<Item>
  {
    Seqs.Filter(cart, (line: Item) => line.id != id)
  }

  /** The product list after the sale of `cart`. */
  function Sold(products: seq<Item>, cart: seq<Item>): (r: seq<Item>)
    ensures |r| == |products|
    ensures forall i :: 0 <= i < |products| ==>
      r[i].(quantity := products[i].quantity) == products[i]
      && r[i].quantity == products[i].quantity - CartQty(cart, products[i].id)
  {
    seq(|products|, i requires 0 <= i < |products| =>
      match Find(cart, products[i].id)
      case Some(sold) => products[i].(quantity := products[i].quantity - sold.quantity)
      case None => products[i])
  }

  /** What one line costs. */
  function Subtotal(line: Item): int
  {
    line.price * line.quantity
  }

  /** The amount due for the cart. */
  function Total(cart: seq<Item>): int
  {
    if cart == [] then 0 else Subtotal(cart[0]) + Total(cart[1..])
  }

  /** Two carts whose ids agree position by position find `id` at the same place. */
  lemma FirstIndexSameIds(a: seq<Item>, b: seq<Item>, id: int)
    requires |a| == |b|
    requires forall i :: 0 <= i < |a| ==> a[i].id == b[i].id
    ensures FirstIndex(a, id) == FirstIndex(b, id)
  {
  }

  /** In a cart without duplicate ids, the quantity of an id is that of the one line carrying it. */
  lemma CartQtyOfLine(cart: seq<Item>, i: int)
    requires UniqueIds(cart) && 0 <= i < |cart|
    ensures CartQty(cart, cart[i].id) == cart[i].quantity
  {
  }

  /** "Add to Cart" is refused, leaving the cart as it was, exactly when one more unit would
      exceed the product's stock; otherwise the product's quantity in the cart rises by one,
      so it never exceeds the stock. */
  lemma {:induction false} AddRespectsStock(cart: seq<Item>, product: Item)
    ensures CartQty(cart, product.id) + 1 > product.quantity ==> Added(cart, product) == cart
    ensures CartQty(cart, product.id) + 1 <= product.quantity ==>
      Added(cart, product) != cart
      && CartQty(Added(cart, product), product.id) == CartQty(cart, product.id) + 1 <= product.quantity
  {
    var id := product.id;
    if CartQty(cart, id) + 1 <= product.quantity {
      var r := Added(cart, product);
      if Find(cart, id).Some? {
        FirstIndexSameIds(r, cart, id);
        var k := FirstIndex(cart, id);
        assert r[k].quantity == cart[k].quantity + 1;
      } else {
        assert r == cart + [product.(quantity := 1)];
        assert r[|cart|].id == id;
        assert forall i :: 0 <= i < |cart| ==> r[i] == cart[i];
        assert FirstIndex(r, id) == |cart|;
        assert |r| != |cart|;
      }
    }
  }

  /** An accepted "Add to Cart" either raises the existing line by one unit and touches no
      other line and no order, or appends a one-unit line carrying the product's other fields. */
  lemma AddShape(cart: seq<Item>, product: Item)
    requires CartQty(cart, product.id) + 1 <= product.quantity
    ensures Find(cart, product.id).Some? ==>
      |Added(cart, product)| == |cart|
      && forall i :: 0 <= i < |cart| ==>
        (cart[i].id == product.id ==> Added(cart, product)[i] == cart[i].(quantity := cart[i].quantity + 1))
        && (cart[i].id != product.id ==> Added(cart, product)[i] == cart[i])
    ensures Find(cart, product.id).None? ==> Added(cart, product) == cart + [product.(quantity := 1)]
  {
  }

  /** "Add to Cart" never produces two lines with the same id. */
  lemma AddKeepsIdsUnique(cart: seq<Item>, product: Item)
    requires UniqueIds(cart)
    ensures UniqueIds(Added(cart, product))
  {
  }

  /** With product ids unique in the product list, adding a listed product keeps every cart
      line within its product's stock. */
  lemma AddKeepsWithinStock(cart: seq<Item>, products: seq<Item>, product: Item)
    requires UniqueIds(cart) && UniqueIds(products)
    requires WithinStock(cart, products) && product in products
    ensures WithinStock(Added(cart, product), products)
  {
    var r := Added(cart, product);
    AddRespectsStock(cart, product);
    AddKeepsIdsUnique(cart, product);
    forall c, q | c in r && q in products && c.id == q.id ensures c.quantity <= q.quantity {
      if c.id == product.id {
        var i :| 0 <= i < |products| && products[i] == q;
        var j :| 0 <= j < |products| && products[j] == product;
        assert q == product;
        var n :| 0 <= n < |r| && r[n] == c;
        CartQtyOfLine(r, n);
      } else {
        var n :| 0 <= n < |r| && r[n] == c;
        if n < |cart| {
          assert c == cart[n];
        }
      }
    }
  }

  /** "Remove" leaves exactly the lines with another id, each as often as before, in their
      original order. */
  lemma RemoveDropsOnlyThatId(cart: seq<Item>, id: int)
    ensures forall line :: line in Removed(cart, id) <==> line in cart && line.id != id
    ensures Seqs.IsSubsequence(Removed(cart, id), cart)
    ensures forall line: Item :: line.id != id ==> multiset(Removed(cart, id))[line] == multiset(cart)[line]
  {
  }

  /** Removing an id that is not in the cart changes nothing. */
  lemma RemoveAbsent(cart: seq<Item>, id: int)
    requires Find(cart, id).None?
    ensures Removed(cart, id) == cart
  {
    Seqs.FilterKeepsAll(cart, (line: Item) => line.id != id);
  }

  /** Removing twice is removing once. */
  lemma RemoveIdempotent(cart: seq<Item>, id: int)
    ensures Removed(Removed(cart, id), id) == Removed(cart, id)
  {
    Seqs.FilterIdempotent(cart, (line: Item) => line.id != id);
  }

  /** "Remove" never introduces a duplicate id. */
  lemma {:induction false} RemoveKeepsIdsUnique(cart: seq<Item>, id: int)
    requires UniqueIds(cart)
    ensures UniqueIds(Removed(cart, id))
  {
    if cart != [] {
      RemoveKeepsIdsUnique(cart[1..], id);
      var rest := Removed(cart[1..], id);
      if cart[0].id != id {
        assert Removed(cart, id) == [cart[0]] + rest;
        forall j | 0 <= j < |rest| ensures rest[j].id != cart[0].id {
          assert rest[j] in cart[1..];
        }
      } else {
        assert Removed(cart, id) == rest;
      }
    }
  }

  /** The total of two carts one after the other is the sum of their totals. */
  lemma {:induction false} TotalAppend(a: seq<Item>, b: seq<Item>)
    ensures Total(a + b) == Total(a) + Total(b)
  {
    if a == [] {
      assert a + b == b;
    } else {
      assert (a + b)[1..] == a[1..] + b;
      TotalAppend(a[1..], b);
    }
  }

  /** Adding a unit to the one line carrying `id` raises the total by that line's price. */
  lemma {:induction false} TotalIncrement(cart: seq<Item>, id: int)
    requires UniqueIds(cart) && Find(cart, id).Some?
    ensures Total(Increment(cart, id)) == Total(cart) + Find(cart, id).value.price
  {
    var r := Increment(cart, id);
    assert r[1..] == Increment(cart[1..], id);
    if cart[0].id == id {
      forall i | 0 <= i < |cart[1..]| ensures cart[1..][i].id != id {
        assert cart[1..][i] == cart[i + 1];
      }
      assert Increment(cart[1..], id) == cart[1..];
    } else {
      assert Find(cart[1..], id) == Find(cart, id);
      TotalIncrement(cart[1..], id);
    }
  }

  /** An accepted "Add to Cart" raises the total by one unit's price: the price already on the
      cart line when the product is in the cart, the product's price for a new line. */
  lemma AddRaisesTotal(cart: seq<Item>, product: Item)
    requires UniqueIds(cart)
    requires CartQty(cart, product.id) + 1 <= product.quantity
    ensures Find(cart, product.id).Some? ==>
      Total(Added(cart, product)) == Total(cart) + Find(cart, product.id).value.price
    ensures Find(cart, product.id).None? ==>
      Total(Added(cart, product)) == Total(cart) + product.price
  {
    if Find(cart, product.id).Some? {
      TotalIncrement(cart, product.id);
    } else {
      TotalAppend(cart, [product.(quantity := 1)]);
    }
  }

  /** Removing the line carrying `id` lowers the total by that line's subtotal. */
  lemma {:induction false} RemoveLowersTotal(cart: seq<Item>, id: int)
    requires UniqueIds(cart) && Find(cart, id).Some?
    ensures Total(Removed(cart, id)) == Total(cart) - Subtotal(Find(cart, id).value)
  {
    if cart[0].id == id {
      assert Removed(cart, id) == Removed(cart[1..], id);
      forall i | 0 <= i < |cart[1..]| ensures cart[1..][i].id != id {
        assert cart[1..][i] == cart[i + 1];
      }
      RemoveAbsent(cart[1..], id);
    } else {
      assert Removed(cart, id) == [cart[0]] + Removed(cart[1..], id);
      assert Find(cart[1..], id) == Find(cart, id);
      RemoveLowersTotal(cart[1..], id);
    }
  }

  /** A sale never drives stock below zero when every cart line is within its stock. */
  lemma SaleLeavesNoNegativeStock(products: seq<Item>, cart: seq<Item>)
    requires NoNegativeStock(products) && WithinStock(cart, products)
    ensures NoNegativeStock(Sold(products, cart))
  {
  }

  /** A product whose id is not in the cart keeps its stock through the sale. */
  lemma SaleSparesOtherProducts(products: seq<Item>, cart: seq<Item>, i: int)
    requires 0 <= i < |products| && Find(cart, products[i].id).None?
    ensures Sold(products, cart)[i] == products[i]
  {
  }

  /** The shop's state on the checkout screen: the product list and the cart. */
  class Register {
    var products: seq<Item>
    var cart: seq<Item>

    /** Cart ids are distinct and every line holds at least one unit. */
    ghost predicate Valid()
      reads this
    {
      UniqueIds(cart) && forall line :: line in cart ==> line.quantity >= 1
    }

    /** The stock is well formed and covers the cart. */
    ghost predicate StockBounded()
      reads this
    {
      UniqueIds(products) && NoNegativeStock(products) && WithinStock(cart, products)
    }

    /** The screen opens with the shop's products and an empty cart. */
    constructor (products: seq<Item>)
      ensures Valid()
      ensures this.products == products && cart == []
    {
      this.products := products;
      cart := [];
    }

    /** `addToCart`. */
    method AddToCart(product: Item)
      requires Valid()
      modifies this
      ensures Valid()
      ensures cart == Added(old(cart), product) && products == old(products)
      ensures old(StockBounded()) && product in products ==> StockBounded()
    {
      AddKeepsIdsUnique(cart, product);
      if StockBounded() && product in products {
        AddKeepsWithinStock(cart, products, product);
      }
      var inCart := Find(cart, product.id);
      var cartQty := if inCart.Some? then inCart.value.quantity else 0;
      if cartQty + 1 > product.quantity {
        return;
      }
      if inCart.Some? {
        cart := Increment(cart, product.id);
      } else {
        cart := cart + [product.(quantity := 1)];
      }
    }

    /** `removeFromCart`. */
    method RemoveFromCart(id: int)
      requires Valid()
      modifies this
      ensures Valid()
      ensures cart == Removed(old(cart), id) && products == old(products)
      ensures old(StockBounded()) ==> StockBounded()
    {
      RemoveKeepsIdsUnique(cart, id);
      RemoveDropsOnlyThatId(cart, id);
      cart := Removed(cart, id);
    }

    /** `completeSale`: the stock loses the cart's quantities and the cart is emptied. */
    method CompleteSale()
      requires Valid()
      modifies this
      ensures Valid()
      ensures products == Sold(old(products), old(cart)) && cart == []
      ensures old(StockBounded()) ==> StockBounded()
    {
      if StockBounded() {
        SaleLeavesNoNegativeStock(products, cart);
      }
      products := Sold(products, cart);
      cart := [];
    }
  }
}
