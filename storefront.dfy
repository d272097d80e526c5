/**
 * The browser side of the storefront (app.js): the catalog, the tab
 * filter, the cart ledger with its badge count and total, and the two
 * pure parts of card checkout, turning the cart into request items and
 * classifying the reply of the checkout endpoint.
 */
module Storefront {
  import opened Wire

  /** A catalog entry with the fields the core reads; prices are integer cents. */
  datatype Product = Product(id: string, name: string, category: string, price: int)

  /** A cart line as `addToCart` creates it: `{ id, qty, name, price }`. */
  datatype Line = Line(id: string, qty: int, name: string, price: int)

  /** The tab that shows the whole catalog. */
  const ALL_TAB: string := "all"

  function Max(a: int, b: int): int
  {
    if a >= b then a else b
  }

  // ------------------------------------------------------------------
  // Lookups: `find(x => x.id === id)` over the catalog and over the cart
  // ------------------------------------------------------------------

  /** Index of the first element whose id is `id`, or -1 when there is none. */
  function FirstIndex<T>(s: seq<T>, idOf: T -> string, id: string): (k: int)
    ensures -1 <= k < |s|
    ensures k >= 0 ==> idOf(s[k]) == id
    ensures forall j :: 0 <= j < |s| && (k < 0 || j < k) ==> idOf(s[j]) != id
  {
    if s == [] then -1
    else if idOf(s[0]) == id then 0
    else
      var rest := FirstIndex(s[1..], idOf, id);
      if rest < 0 then -1 else rest + 1
  }

  /** Index of the first product with this id, or -1 when there is none. */
  function ProductIndex(products: seq<Product>, id: string): (k: int)
    ensures -1 <= k < |products|
    ensures k >= 0 ==> products[k].id == id
    ensures forall j :: 0 <= j < |products| && (k < 0 || j < k) ==> products[j].id != id
  {
    FirstIndex(products, (p: Product) => p.id, id)
  }

  /** Index of the first cart line with this id, or -1 when there is none. */
  function LineIndex(cart: seq<Line>, id: string): (k: int)
    ensures -1 <= k < |cart|
    ensures k >= 0 ==> cart[k].id == id
    ensures forall j :: 0 <= j < |cart| && (k < 0 || j < k) ==> cart[j].id != id
  {
    FirstIndex(cart, (l: Line) => l.id, id)
  }

  /** The current catalog price of an id, 0 when no product has it (`p?.price || 0`). */
  function UnitPrice(products: seq<Product>, id: string): (u: int)
    ensures (forall p :: p in products ==> p.id != id) ==> u == 0
    ensures u != 0 ==> exists p :: p in products && p.id == id && p.price == u
    ensures (forall p :: p in products ==> p.price >= 0) ==> u >= 0
    ensures forall k :: 0 <= k < |products| && products[k].id == id && (forall j :: 0 <= j < k ==> products[j].id != id) ==>
      u == products[k].price
  {
    var k := ProductIndex(products, id);
    if k < 0 then 0 else products[k].price
  }

  // ------------------------------------------------------------------
  // Filtering by tab
  // ------------------------------------------------------------------

  /** The products of one category, in catalog order. */
  function ByCategory(products: seq<Product>, tab: string): (r: seq<Product>)
    ensures |r| <= |products|
    ensures forall p :: p in r ==> p in products && p.category == tab
  {
    if products == [] then []
    else (if products[0].category == tab then [products[0]] else []) + ByCategory(products[1..], tab)
  }

  /** The visible products for a tab: the whole catalog for "all", else one category. */
  function FilterByTab(products: seq<Product>, tab: string): (r: seq<Product>)
    ensures |r| <= |products|
    ensures forall p :: p in r ==> p in products
  {
    if tab == ALL_TAB then products else ByCategory(products, tab)
  }

  /** `a` is `b` with some elements left out and the others kept in their order. */
  predicate IsSubsequence<T(==)>(a: seq<T>, b: seq<T>)
    decreases |b|
  {
    a == [] || (b != [] && (if a[0] == b[0] then IsSubsequence(a[1..], b[1..]) else IsSubsequence(a, b[1..])))
  }

  lemma {:induction false} SubsequenceReflexive<T>(s: seq<T>)
    ensures IsSubsequence(s, s)
  {
    if s != [] {
      SubsequenceReflexive(s[1..]);
    }
  }

  lemma {:induction false} ByCategoryIsSubsequence(products: seq<Product>, tab: string)
    ensures IsSubsequence(ByCategory(products, tab), products)
  {
    if products != [] {
      var rest := ByCategory(products[1..], tab);
      ByCategoryIsSubsequence(products[1..], tab);
      if products[0].category == tab {
        assert ByCategory(products, tab) == [products[0]] + rest;
        assert ([products[0]] + rest)[1..] == rest;
      } else {
        assert ByCategory(products, tab) == rest;
        if rest != [] {
          assert rest[0] in rest;
        }
      }
    }
  }

  /** A product of the category is kept as many times as the catalog lists it; others never. */
  lemma {:induction false} ByCategoryMultiplicity(products: seq<Product>, tab: string, p: Product)
    ensures multiset(ByCategory(products, tab))[p] == if p.category == tab then multiset(products)[p] else 0
  {
    if products != [] {
      ByCategoryMultiplicity(products[1..], tab, p);
      assert products == [products[0]] + products[1..];
    }
  }

  /**
   * `applyFilter(tab)`: "all" shows the catalog itself; any other tab shows
   * exactly the products of that category, each as often as the catalog
   * lists it, in catalog order.
   */
  lemma FilterByTabSpec(products: seq<Product>, tab: string)
    ensures IsSubsequence(FilterByTab(products, tab), products)
    ensures tab == ALL_TAB ==> FilterByTab(products, tab) == products
    ensures tab != ALL_TAB ==>
      forall p :: p in FilterByTab(products, tab) <==> p in products && p.category == tab
    ensures tab != ALL_TAB ==>
      forall p: Product :: p.category == tab ==> multiset(FilterByTab(products, tab))[p] == multiset(products)[p]
  {
    if tab == ALL_TAB {
      SubsequenceReflexive(products);
    } else {
      ByCategoryIsSubsequence(products, tab);
      forall p: Product
        ensures p in FilterByTab(products, tab) <==> p in products && p.category == tab
        ensures p.category == tab ==> multiset(FilterByTab(products, tab))[p] == multiset(products)[p]
      {
        ByCategoryMultiplicity(products, tab, p);
      }
    }
  }

  // ------------------------------------------------------------------
  // The cart ledger
  // ------------------------------------------------------------------

  /** Every line has a quantity of at least 1. */
  predicate PositiveQuantities(cart: seq<Line>)
  {
    forall i :: 0 <= i < |cart| ==> cart[i].qty >= 1
  }

  /** No two lines share an id. */
  predicate UniqueIds(cart: seq<Line>)
  {
    forall i, j :: 0 <= i < j < |cart| ==> cart[i].id != cart[j].id
  }

  /** The invariant the cart handlers keep. */
  predicate CartValid(cart: seq<Line>)
  {
    PositiveQuantities(cart) && UniqueIds(cart)
  }

  /** The line `addToCart` pushes for a product it has not seen in the cart. */
  function NewLine(p: Product): Line
  {
    Line(p.id, 1, p.name, p.price)
  }

  /** The cart with line `i` set to quantity `q`; everything else as it was. */
  function WithQty(cart: seq<Line>, i: int, q: int): seq<Line>
    requires 0 <= i < |cart|
  {
    cart[i := cart[i].(qty := q)]
  }

  /** The cart without the lines of one id (`cart.filter(x => x.id !== id)`). */
  function RemoveId(cart: seq<Line>, id: string): (r: seq<Line>)
    ensures |r| <= |cart|
    ensures forall k :: 0 <= k < |r| ==> r[k].id != id
  {
    if cart == [] then []
    else (if cart[0].id == id then [] else [cart[0]]) + RemoveId(cart[1..], id)
  }

  /** The cart after `addToCart(id)` (app.js:103-108). */
  function AddLine(products: seq<Product>, cart: seq<Line>, id: string): (r: seq<Line>)
    ensures |r| == |cart| + (if ProductIndex(products, id) >= 0 && LineIndex(cart, id) < 0 then 1 else 0)
    ensures forall j :: 0 <= j < |cart| && cart[j].id != id ==> r[j] == cart[j]
  {
    var k := ProductIndex(products, id);
    if k < 0 then cart
    else
      var i := LineIndex(cart, id);
      if i >= 0 then WithQty(cart, i, cart[i].qty + 1) else cart + [NewLine(products[k])]
  }

  /** The two quantity buttons of a cart row. */
  datatype QtyAction = Inc | Dec

  /** The new quantity for a button press: +1, or -1 but never below 0. */
  function Stepped(qty: int, action: QtyAction): int
  {
    if action == Inc then qty + 1 else Max(0, qty - 1)
  }

  /** The cart after the + or - button of the row for `id` (app.js:168-173). */
  function ChangeLine(cart: seq<Line>, id: string, action: QtyAction): (r: seq<Line>)
    ensures |r| <= |cart|
    ensures |r| < |cart| ==> LineIndex(cart, id) >= 0 && Stepped(cart[LineIndex(cart, id)].qty, action) == 0
  {
    var i := LineIndex(cart, id);
    if i < 0 then cart
    else
      var q := Stepped(cart[i].qty, action);
      var updated := WithQty(cart, i, q);
      if q == 0 then RemoveId(updated, id) else updated
  }

  // Folds over the cart. Both are left folds, as `reduce` is.

  /** The badge count: the sum of the line quantities (app.js:97). */
  function CartCount(cart: seq<Line>): (n: int)
    ensures PositiveQuantities(cart) ==> n >= |cart|
  {
    if cart == [] then 0 else CartCount(cart[..|cart| - 1]) + cart[|cart| - 1].qty
  }

  /**
   * The cart total: each line's quantity times the CURRENT catalog price of
   * its id, 0 for an id the catalog lacks; the price stored on the line is
   * never read (app.js:144-147).
   */
  function CartTotal(products: seq<Product>, cart: seq<Line>): (t: int)
    ensures (forall p :: p in products ==> p.price >= 0) && PositiveQuantities(cart) ==> t >= 0
  {
    if cart == [] then 0
    else
      var last := cart[|cart| - 1];
      CartTotal(products, cart[..|cart| - 1]) + UnitPrice(products, last.id) * last.qty
  }

  lemma {:induction false} CountAppend(a: seq<Line>, b: seq<Line>)
    ensures CartCount(a + b) == CartCount(a) + CartCount(b)
  {
    if b == [] {
      assert a + b == a;
    } else {
      CountAppend(a, b[..|b| - 1]);
      assert (a + b)[..|a + b| - 1] == a + b[..|b| - 1];
    }
  }

  lemma {:induction false} CountWithQty(cart: seq<Line>, i: int, q: int)
    requires 0 <= i < |cart|
    ensures CartCount(WithQty(cart, i, q)) == CartCount(cart) - cart[i].qty + q
  {
    var n := |cart|;
    if i < n - 1 {
      CountWithQty(cart[..n - 1], i, q);
      assert WithQty(cart, i, q)[..n - 1] == WithQty(cart[..n - 1], i, q);
    } else {
      assert WithQty(cart, i, q)[..n - 1] == cart[..n - 1];
    }
  }

  lemma {:induction false} TotalAppend(products: seq<Product>, a: seq<Line>, b: seq<Line>)
    ensures CartTotal(products, a + b) == CartTotal(products, a) + CartTotal(products, b)
  {
    if b == [] {
      assert a + b == a;
    } else {
      var init, last := b[..|b| - 1], b[|b| - 1];
      var step := UnitPrice(products, last.id) * last.qty;
      TotalAppend(products, a, init);
      assert (a + b)[..|a + b| - 1] == a + init && (a + b)[|a + b| - 1] == last;
      assert CartTotal(products, a + b) == CartTotal(products, a + init) + step;
      assert CartTotal(products, b) == CartTotal(products, init) + step;
    }
  }

  lemma {:induction false} TotalWithQty(products: seq<Product>, cart: seq<Line>, i: int, q: int)
    requires 0 <= i < |cart|
    ensures CartTotal(products, WithQty(cart, i, q))
         == CartTotal(products, cart) - UnitPrice(products, cart[i].id) * cart[i].qty + UnitPrice(products, cart[i].id) * q
  {
    var n := |cart|;
    if i < n - 1 {
      TotalWithQty(products, cart[..n - 1], i, q);
      assert WithQty(cart, i, q)[..n - 1] == WithQty(cart[..n - 1], i, q);
    } else {
      assert WithQty(cart, i, q)[..n - 1] == cart[..n - 1];
    }
  }

  /** Only ids and quantities decide the total: the name and price stored on a line do not. */
  lemma {:induction false} TotalIgnoresStoredFields(products: seq<Product>, a: seq<Line>, b: seq<Line>)
    requires |a| == |b|
    requires forall k :: 0 <= k < |a| ==> a[k].id == b[k].id && a[k].qty == b[k].qty
    ensures CartTotal(products, a) == CartTotal(products, b)
  {
    if a != [] {
      TotalIgnoresStoredFields(products, a[..|a| - 1], b[..|b| - 1]);
    }
  }

  /** A line whose id the catalog lacks adds nothing to the total, wherever it stands. */
  lemma TotalSkipsUnknown(products: seq<Product>, a: seq<Line>, l: Line, b: seq<Line>)
    requires ProductIndex(products, l.id) < 0
    ensures CartTotal(products, a + [l] + b) == CartTotal(products, a + b)
  {
    TotalAppend(products, a + [l], b);
    TotalAppend(products, a, b);
    assert (a + [l])[..|a + [l]| - 1] == a;
  }

  lemma {:induction false} RemoveAbsent(cart: seq<Line>, id: string)
    requires forall k :: 0 <= k < |cart| ==> cart[k].id != id
    ensures RemoveId(cart, id) == cart
  {
    if cart != [] {
      RemoveAbsent(cart[1..], id);
      assert cart == [cart[0]] + cart[1..];
    }
  }

  /** A line of another id is kept as many times as the cart holds it; a line of this id never. */
  lemma {:induction false} RemoveIdMultiplicity(cart: seq<Line>, id: string, l: Line)
    ensures multiset(RemoveId(cart, id))[l] == if l.id != id then multiset(cart)[l] else 0
  {
    if cart != [] {
      RemoveIdMultiplicity(cart[1..], id, l);
      assert cart == [cart[0]] + cart[1..];
    }
  }

  /** The filter keeps exactly the lines of other ids, each as often as the cart holds it, in their order. */
  lemma {:induction false} RemoveIdSpec(cart: seq<Line>, id: string)
    ensures forall l :: l in RemoveId(cart, id) <==> l in cart && l.id != id
    ensures forall l: Line :: l.id != id ==> multiset(RemoveId(cart, id))[l] == multiset(cart)[l]
    ensures IsSubsequence(RemoveId(cart, id), cart)
  {
    forall l: Line
      ensures l.id != id ==> multiset(RemoveId(cart, id))[l] == multiset(cart)[l]
    {
      RemoveIdMultiplicity(cart, id, l);
    }
    if cart != [] {
      RemoveIdSpec(cart[1..], id);
      var rest := RemoveId(cart[1..], id);
      assert cart == [cart[0]] + cart[1..];
      if cart[0].id != id {
        assert RemoveId(cart, id) == [cart[0]] + rest;
        assert ([cart[0]] + rest)[1..] == rest;
      } else {
        assert RemoveId(cart, id) == rest;
        if rest != [] {
          assert rest[0] in rest;
        }
      }
    }
  }

  /** With unique ids, removing the id of line `i` removes exactly that line. */
  lemma {:induction false} RemoveUnique(cart: seq<Line>, i: int)
    requires UniqueIds(cart) && 0 <= i < |cart|
    ensures RemoveId(cart, cart[i].id) == cart[..i] + cart[i + 1..]
  {
    if i == 0 {
      var tail := cart[1..];
      assert forall k :: 0 <= k < |tail| ==> tail[k].id != cart[0].id by {
        forall k | 0 <= k < |tail| ensures tail[k].id != cart[0].id {
          assert tail[k] == cart[k + 1];
        }
      }
      RemoveAbsent(tail, cart[0].id);
      assert RemoveId(cart, cart[0].id) == [] + RemoveId(tail, cart[0].id);
      assert cart[..0] + cart[1..] == tail;
    } else {
      var id, tail := cart[i].id, cart[1..];
      assert UniqueIds(tail) by {
        forall a, b | 0 <= a < b < |tail| ensures tail[a].id != tail[b].id {
          assert tail[a] == cart[a + 1] && tail[b] == cart[b + 1];
        }
      }
      assert tail[i - 1] == cart[i];
      RemoveUnique(tail, i - 1);
      assert cart[0].id != id;
      assert RemoveId(cart, id) == [cart[0]] + RemoveId(tail, id);
      assert tail[..i - 1] == cart[1..i] && tail[i..] == cart[i + 1..];
      assert cart[..i] == [cart[0]] + cart[1..i];
    }
  }

  /** Removing an id drops the line of that id whatever its quantity. */
  lemma {:induction false} RemoveIgnoresQty(cart: seq<Line>, i: int, q: int)
    requires 0 <= i < |cart|
    ensures RemoveId(WithQty(cart, i, q), cart[i].id) == RemoveId(cart, cart[i].id)
  {
    if i > 0 {
      RemoveIgnoresQty(cart[1..], i - 1, q);
      assert WithQty(cart, i, q)[1..] == WithQty(cart[1..], i - 1, q);
    }
  }

  /** The quantities of the cart split around line `i`. */
  lemma CountAround(cart: seq<Line>, i: int)
    requires 0 <= i < |cart|
    ensures CartCount(cart) == CartCount(cart[..i]) + cart[i].qty + CartCount(cart[i + 1..])
  {
    var a, l, b := cart[..i], [cart[i]], cart[i + 1..];
    assert cart == (a + l) + b;
    CountAppend(a + l, b);
    CountAppend(a, l);
    assert l[..0] == [];
  }

  lemma ValidWithQty(cart: seq<Line>, i: int, q: int)
    requires CartValid(cart) && 0 <= i < |cart| && q >= 1
    ensures CartValid(WithQty(cart, i, q))
  {
    var c := WithQty(cart, i, q);
    assert forall k :: 0 <= k < |c| ==> c[k].id == cart[k].id;
  }

  lemma ValidWithout(cart: seq<Line>, i: int)
    requires CartValid(cart) && 0 <= i < |cart|
    ensures CartValid(cart[..i] + cart[i + 1..])
  {
    var c := cart[..i] + cart[i + 1..];
    assert forall k :: 0 <= k < |c| ==> c[k] == cart[if k < i then k else k + 1];
  }

  /**
   * `addToCart(id)`: an id missing from the catalog leaves the cart as it
   * was; an id already in the cart raises that line's quantity by 1 and
   * touches nothing else; any other id gets one new line of quantity 1 at
   * the end.
   */
  lemma AddLineSpec(products: seq<Product>, cart: seq<Line>, id: string)
    ensures ProductIndex(products, id) < 0 ==> AddLine(products, cart, id) == cart
    ensures ProductIndex(products, id) >= 0 && LineIndex(cart, id) >= 0 ==>
      var i := LineIndex(cart, id);
      AddLine(products, cart, id) == cart[i := cart[i].(qty := cart[i].qty + 1)]
    ensures ProductIndex(products, id) >= 0 && LineIndex(cart, id) < 0 ==>
      var p := products[ProductIndex(products, id)];
      AddLine(products, cart, id) == cart + [Line(id, 1, p.name, p.price)]
  {
  }

  /** `addToCart` raises the badge count by exactly 1 for a catalog id, else leaves it. */
  lemma AddLineCount(products: seq<Product>, cart: seq<Line>, id: string)
    ensures CartCount(AddLine(products, cart, id)) == CartCount(cart) + (if ProductIndex(products, id) < 0 then 0 else 1)
  {
    var k := ProductIndex(products, id);
    if k >= 0 {
      var i := LineIndex(cart, id);
      if i >= 0 {
        CountWithQty(cart, i, cart[i].qty + 1);
      } else {
        var l := NewLine(products[k]);
        assert AddLine(products, cart, id) == cart + [l];
        CountAppend(cart, [l]);
        assert [l][..0] == [];
      }
    }
  }

  /** `addToCart` keeps ids unique and quantities positive. */
  lemma AddLineValid(products: seq<Product>, cart: seq<Line>, id: string)
    requires CartValid(cart)
    ensures CartValid(AddLine(products, cart, id))
  {
    var k := ProductIndex(products, id);
    if k >= 0 {
      var i := LineIndex(cart, id);
      if i >= 0 {
        ValidWithQty(cart, i, cart[i].qty + 1);
      } else {
        ValidAppend(cart, NewLine(products[k]));
      }
    }
  }

  lemma ValidAppend(cart: seq<Line>, l: Line)
    requires CartValid(cart) && l.qty >= 1
    requires forall k :: 0 <= k < |cart| ==> cart[k].id != l.id
    ensures CartValid(cart + [l])
  {
    var c := cart + [l];
    assert forall k :: 0 <= k < |cart| ==> c[k] == cart[k];
  }

  /** Adding the same catalog product twice to a cart without it yields one line of quantity 2. */
  lemma AddTwice(products: seq<Product>, cart: seq<Line>, id: string)
    requires ProductIndex(products, id) >= 0 && LineIndex(cart, id) < 0
    ensures var p := products[ProductIndex(products, id)];
      AddLine(products, AddLine(products, cart, id), id) == cart + [Line(id, 2, p.name, p.price)]
  {
    var once := AddLine(products, cart, id);
    assert once[|cart|].id == id;
    assert LineIndex(once, id) == |cart|;
  }

  /** Pushing a line adds its quantity times its current unit price to the total. */
  lemma TotalPush(products: seq<Product>, cart: seq<Line>, l: Line)
    ensures CartTotal(products, cart + [l]) == CartTotal(products, cart) + UnitPrice(products, l.id) * l.qty
  {
    assert (cart + [l])[..|cart|] == cart;
  }

  /** One more unit on line `i` adds its current unit price to the total. */
  lemma TotalStep(products: seq<Product>, cart: seq<Line>, i: int)
    requires 0 <= i < |cart|
    ensures CartTotal(products, WithQty(cart, i, cart[i].qty + 1)) == CartTotal(products, cart) + UnitPrice(products, cart[i].id)
  {
    var u, q := UnitPrice(products, cart[i].id), cart[i].qty;
    TotalWithQty(products, cart, i, q + 1);
    MulSucc(u, q);
  }

  /** The one nonlinear step of `TotalStep`, kept apart so that its proof stays small. */
  lemma MulSucc(u: int, q: int)
    ensures u * (q + 1) == u * q + u
  {
  }

  /** Adding a known product raises the total by its current catalog price. */
  lemma AddLineTotal(products: seq<Product>, cart: seq<Line>, id: string)
    ensures ProductIndex(products, id) >= 0 ==>
      CartTotal(products, AddLine(products, cart, id)) == CartTotal(products, cart) + UnitPrice(products, id)
  {
    var k := ProductIndex(products, id);
    if k >= 0 {
      var i := LineIndex(cart, id);
      if i >= 0 {
        assert AddLine(products, cart, id) == WithQty(cart, i, cart[i].qty + 1);
        TotalStep(products, cart, i);
      } else {
        var l := NewLine(products[k]);
        assert AddLine(products, cart, id) == cart + [l];
        TotalPush(products, cart, l);
      }
    }
  }

  /**
   * The + and - buttons: an id not in the cart is a no-op; "+" raises the
   * line by 1 and leaves the others; on a valid cart "-" lowers the line
   * by 1, or removes exactly that line when it reaches 0.
   */
  lemma ChangeLineSpec(cart: seq<Line>, id: string, action: QtyAction)
    ensures LineIndex(cart, id) < 0 ==> ChangeLine(cart, id, action) == cart
    ensures LineIndex(cart, id) >= 0 && action == Inc ==>
      var r, i := ChangeLine(cart, id, action), LineIndex(cart, id);
      cart[i].qty != -1 ==> r == cart[i := cart[i].(qty := cart[i].qty + 1)]
    ensures CartValid(cart) && LineIndex(cart, id) >= 0 && action == Dec ==>
      var r, i := ChangeLine(cart, id, action), LineIndex(cart, id);
      if cart[i].qty == 1 then r == cart[..i] + cart[i + 1..]
      else r == cart[i := cart[i].(qty := cart[i].qty - 1)]
  {
    var i := LineIndex(cart, id);
    if i >= 0 && action == Dec && CartValid(cart) && cart[i].qty == 1 {
      RemoveIgnoresQty(cart, i, 0);
      RemoveUnique(cart, i);
    }
  }

  /** The + and - buttons keep ids unique and quantities positive. */
  lemma ChangeLineValid(cart: seq<Line>, id: string, action: QtyAction)
    requires CartValid(cart)
    ensures CartValid(ChangeLine(cart, id, action))
  {
    var i := LineIndex(cart, id);
    if i >= 0 {
      var q := Stepped(cart[i].qty, action);
      if q == 0 {
        RemoveIgnoresQty(cart, i, q);
        RemoveUnique(cart, i);
        ValidWithout(cart, i);
      } else {
        ValidWithQty(cart, i, q);
      }
    }
  }

  /** On a valid cart the + and - buttons move the badge count by exactly 1. */
  lemma ChangeLineCount(cart: seq<Line>, id: string, action: QtyAction)
    requires CartValid(cart)
    ensures CartCount(ChangeLine(cart, id, action))
         == CartCount(cart) + (if LineIndex(cart, id) < 0 then 0 else if action == Inc then 1 else -1)
  {
    var i := LineIndex(cart, id);
    if i >= 0 {
      var q := Stepped(cart[i].qty, action);
      if q == 0 {
        RemoveIgnoresQty(cart, i, q);
        RemoveUnique(cart, i);
        CountAround(cart, i);
        CountAppend(cart[..i], cart[i + 1..]);
      } else {
        CountWithQty(cart, i, q);
      }
    }
  }

  // ------------------------------------------------------------------
  // Checkout: the request items and the reply
  // ------------------------------------------------------------------

  /**
   * The request item for a line: `qty || 1`, and `size || null`,
   * `color || null`; lines never carry a size or a colour, so both are null.
   */
  function ItemOf(l: Line): (it: Item)
    ensures it.id == l.id && it.size.None? && it.color.None?
    ensures it.qty != 0 && (l.qty != 0 ==> it.qty == l.qty)
    ensures l.qty == 0 ==> it.qty == 1
  {
    Item(l.id, if l.qty == 0 then 1 else l.qty, None, None)
  }

  /** The `items` of the checkout request: one item per line, in cart order (app.js:189-194). */
  function Serialize(cart: seq<Line>): (items: seq<Item>)
    ensures |items| == |cart|
    ensures forall k :: 0 <= k < |cart| ==> items[k] == ItemOf(cart[k])
  {
    if cart == [] then [] else [ItemOf(cart[0])] + Serialize(cart[1..])
  }

  /** For a valid cart the request carries every line's own id and quantity, ids stay unique. */
  lemma SerializeValidCart(cart: seq<Line>)
    requires CartValid(cart)
    ensures forall k :: 0 <= k < |cart| ==> Serialize(cart)[k] == Item(cart[k].id, cart[k].qty, None, None)
    ensures forall i, j :: 0 <= i < j < |cart| ==> Serialize(cart)[i].id != Serialize(cart)[j].id
  {
  }

  /**
   * The fields of the parsed reply body that the client reads. A body that
   * is not JSON leaves `data` as `{}`, i.e. `Some` of three absent fields;
   * `None` stands for a body that parses to a falsy value such as `null`.
   */
  datatype ResponseData = ResponseData(url: Option<string>, hint: Option<string>, error: Option<string>)

  /** A reply that arrived: `res.ok`, the raw text of the body and its parse. */
  datatype HttpReply = HttpReply(ok: bool, text: string, data: Option<ResponseData>)

  /** What the POST produced: a reply, or an exception before one was read. */
  datatype Transport = Received(reply: HttpReply) | NetworkFailure

  /**
   * The result of the "Pay with Card" handler: nothing sent (empty cart), a
   * redirect to the payment page, or an error alert whose text is
   * "Stripe checkout error: " followed by `hint`.
   */
  datatype CheckoutOutcome = EmptyCart | Redirect(url: string) | CheckoutError(hint: string)

  const UNKNOWN_ERROR: string := "Unknown error"
  const NETWORK_ISSUE: string := "network issue. Please try again."

  /** `(data && (data.hint || data.error)) || text || 'Unknown error'` */
  function ErrorHint(reply: HttpReply): (h: string)
    ensures h != ""
  {
    var fromData :=
      if reply.data.None? then ""
      else if Truthy(reply.data.value.hint) then reply.data.value.hint.value
      else OrEmpty(reply.data.value.error);
    if fromData != "" then fromData else if reply.text != "" then reply.text else UNKNOWN_ERROR
  }

  /** The first non-empty candidate, else the fallback. */
  function FirstTruthy(candidates: seq<string>, fallback: string): string
  {
    if candidates == [] then fallback
    else if candidates[0] != "" then candidates[0]
    else FirstTruthy(candidates[1..], fallback)
  }

  /** The error hint is the first non-empty of hint, error and raw text, else "Unknown error". */
  lemma ErrorHintOrder(reply: HttpReply)
    ensures reply.data.Some? ==>
      ErrorHint(reply) == FirstTruthy([OrEmpty(reply.data.value.hint), OrEmpty(reply.data.value.error), reply.text], UNKNOWN_ERROR)
    ensures reply.data.None? ==> ErrorHint(reply) == FirstTruthy([reply.text], UNKNOWN_ERROR)
  {
    if reply.data.Some? {
      var h, e, t := OrEmpty(reply.data.value.hint), OrEmpty(reply.data.value.error), reply.text;
      assert [h, e, t][1..] == [e, t] && [e, t][1..] == [t] && [t][1..] == [];
      assert FirstTruthy([t], UNKNOWN_ERROR) == if t != "" then t else UNKNOWN_ERROR;
      assert FirstTruthy([e, t], UNKNOWN_ERROR) == if e != "" then e else FirstTruthy([t], UNKNOWN_ERROR);
      assert FirstTruthy([h, e, t], UNKNOWN_ERROR) == if h != "" then h else FirstTruthy([e, t], UNKNOWN_ERROR);
      assert Truthy(reply.data.value.hint) ==> reply.data.value.hint.value == h;
    } else {
      assert [reply.text][1..] == [];
    }
  }

  /**
   * Classifying what the POST produced (app.js:207-217): a redirect exactly
   * when the reply is ok and carries a non-empty url, to that url; otherwise
   * an error with a non-empty hint, the fixed network message when no reply
   * arrived.
   */
  function Classify(t: Transport): (o: CheckoutOutcome)
    ensures !o.EmptyCart?
    ensures o.Redirect? <==> t.Received? && t.reply.ok && t.reply.data.Some? && Truthy(t.reply.data.value.url)
    ensures o.Redirect? ==> o.url == t.reply.data.value.url.value && o.url != ""
    ensures t.NetworkFailure? ==> o == CheckoutError(NETWORK_ISSUE)
    ensures o.CheckoutError? ==> o.hint != ""
    ensures t.Received? && !o.Redirect? ==> o == CheckoutError(ErrorHint(t.reply))
  {
    match t
    case NetworkFailure => CheckoutError(NETWORK_ISSUE)
    case Received(r) =>
      if r.ok && r.data.Some? && Truthy(r.data.value.url) then Redirect(r.data.value.url.value)
      else CheckoutError(ErrorHint(r))
  }

  // ------------------------------------------------------------------
  // The shared `state` record and its handlers
  // ------------------------------------------------------------------

  class Shop {
    var products: seq<Product>
    var filtered: seq<Product>
    var cart: seq<Line>
    var activeTab: string

    /** The invariant every handler keeps: unique line ids, quantities of at least 1. */
    predicate Valid()
      reads this
    {
      CartValid(cart)
    }

    /** The initial `state` (app.js:2-7). */
    constructor ()
      ensures products == [] && filtered == [] && cart == [] && activeTab == ALL_TAB
      ensures Valid()
    {
      products, filtered, cart, activeTab := [], [], [], ALL_TAB;
    }

    /**
     * The end of loading the catalog: `feed` is the parsed array, or None
     * when the fetch failed or the body was not an array, which leaves the
     * catalog empty; then the "all" tab is applied.
     */
    method LoadProducts(feed: Option<seq<Product>>)
      requires Valid()
      modifies this
      ensures Valid()
      ensures products == (if feed.Some? then feed.value else [])
      ensures activeTab == ALL_TAB && filtered == products && cart == old(cart)
    {
      products := if feed.Some? then feed.value else [];
      ApplyFilter(ALL_TAB);
    }

    /** `applyFilter(tab)` (app.js:34-38). */
    method ApplyFilter(tab: string)
      requires Valid()
      modifies this
      ensures Valid()
      ensures activeTab == tab && filtered == FilterByTab(products, tab)
      ensures products == old(products) && cart == old(cart)
      ensures IsSubsequence(filtered, products)
      ensures tab == ALL_TAB ==> filtered == products
      ensures tab != ALL_TAB ==> forall p :: p in filtered <==> p in products && p.category == tab
    {
      activeTab := tab;
      if tab == ALL_TAB {
        filtered := products;
      } else {
        filtered := ByCategory(products, tab);
      }
      FilterByTabSpec(products, tab);
    }

    /** The cart part of `addToCart(id)` (app.js:103-108). */
    method AddToCart(id: string)
      requires Valid()
      modifies this
      ensures Valid()
      ensures cart == AddLine(products, old(cart), id)
      ensures products == old(products) && filtered == old(filtered) && activeTab == old(activeTab)
      ensures CartCount(cart) == old(CartCount(cart)) + (if ProductIndex(products, id) < 0 then 0 else 1)
    {
      AddLineCount(products, cart, id);
      AddLineValid(products, cart, id);
      var k := ProductIndex(products, id);
      if k < 0 {
        return;
      }
      var i := LineIndex(cart, id);
      if i >= 0 {
        cart := cart[i := cart[i].(qty := cart[i].qty + 1)];
      } else {
        cart := cart + [Line(id, 1, products[k].name, products[k].price)];
      }
    }

    /** The + / - button handler of a cart row (app.js:168-173). */
    method ChangeQuantity(id: string, action: QtyAction)
      requires Valid()
      modifies this
      ensures Valid()
      ensures cart == ChangeLine(old(cart), id, action)
      ensures products == old(products) && filtered == old(filtered) && activeTab == old(activeTab)
      ensures CartCount(cart) == old(CartCount(cart)) + (if LineIndex(old(cart), id) < 0 then 0 else if action == Inc then 1 else -1)
    {
      ChangeLineValid(cart, id, action);
      ChangeLineCount(cart, id, action);
      var i := LineIndex(cart, id);
      if i < 0 {
        return;
      }
      var it := cart[i];
      if action == Inc {
        it := it.(qty := it.qty + 1);
      } else {
        it := it.(qty := Max(0, it.qty - 1));
      }
      cart := cart[i := it];
      if it.qty == 0 {
        cart := RemoveId(cart, id);
      }
    }

    /** The Clear button (app.js:165). */
    method Clear()
      modifies this
      ensures Valid()
      ensures cart == [] && CartCount(cart) == 0
      ensures products == old(products) && filtered == old(filtered) && activeTab == old(activeTab)
    {
      cart := [];
    }

    /**
     * `checkoutStripe` (app.js:183-218): an empty cart sends nothing;
     * otherwise the serialised cart is posted through `send` and what it
     * produced is classified. The cart is left as it is either way.
     */
    method CheckoutStripe(send: seq<Item> -> Transport) returns (o: CheckoutOutcome)
      ensures o.EmptyCart? <==> cart == []
      ensures cart != [] ==> o == Classify(send(Serialize(cart)))
    {
      if |cart| == 0 {
        return EmptyCart;
      }
      var items := Serialize(cart);
      o := Classify(send(items));
    }
  }
}
