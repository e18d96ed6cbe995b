/** The pending sale of the cashier page as a value: the cart updaters (add,
    change quantity, remove), the total and item count, and the rows a
    checkout writes. */
module Cart {
  import opened Records
  import Text
  import Receipt

  /** A cart line: the product as it was when first added (a snapshot, its
      stock included), and the quantity held. */
  datatype CartItem = CartItem(product: Product, qty: int)

  /** The position of the first line for product `id`. */
  function FindLine(cart: seq<CartItem>, id: string): (r: Option<nat>)
    ensures r.Some? ==> r.value < |cart| && cart[r.value].product.id == id
    ensures r.Some? ==> forall j :: 0 <= j < r.value ==> cart[j].product.id != id
    ensures r.None? <==> forall j :: 0 <= j < |cart| ==> cart[j].product.id != id
  {
    if cart == [] then None
    else if cart[0].product.id == id then Some(0)
    else match FindLine(cart[1..], id)
      case None => None
      case Some(k) => Some(k + 1)
  }

  ghost predicate UniqueIds(cart: seq<CartItem>) {
    forall i, j :: 0 <= i < j < |cart| ==> cart[i].product.id != cart[j].product.id
  }

  /** What every cart the updaters build satisfies: one line per product,
      and every quantity at least 1. */
  ghost predicate WellFormed(cart: seq<CartItem>) {
    UniqueIds(cart) && forall i :: 0 <= i < |cart| ==> cart[i].qty >= 1
  }

  /** No line holds more than the stock recorded in its snapshot. */
  ghost predicate WithinStock(cart: seq<CartItem>) {
    forall i :: 0 <= i < |cart| ==> cart[i].qty <= cart[i].product.stock
  }

  /** The cart an updater returns, and the notification it shows, if any. */
  datatype Change = Change(cart: seq<CartItem>, toast: Option<Toast>)

  function Increment(cart: seq<CartItem>, id: string): (r: seq<CartItem>)
    ensures |r| == |cart|
    ensures forall i :: 0 <= i < |cart| ==>
      r[i] == if cart[i].product.id == id then cart[i].(qty := cart[i].qty + 1) else cart[i]
  {
    seq(|cart|, i requires 0 <= i < |cart| =>
      if cart[i].product.id == id then cart[i].(qty := cart[i].qty + 1) else cart[i])
  }

  /** Adding a product (by a click on its card or by its barcode), checked
      against the stock of the product as passed in. */
  function AddToCart(cart: seq<CartItem>, p: Product): Change {
    if p.stock <= 0 then Change(cart, Some(Toast("Stok " + p.name + " habis!", Error)))
    else match FindLine(cart, p.id)
      case Some(k) =>
        if cart[k].qty + 1 > p.stock then Change(cart, Some(Toast("Stok tidak mencukupi", Error)))
        else Change(Increment(cart, p.id), None)
      case None => Change(cart + [CartItem(p, 1)], None)
  }

  /** A product without stock is refused and the cart stays as it is. */
  lemma AddOutOfStock(cart: seq<CartItem>, p: Product)
    requires p.stock <= 0
    ensures AddToCart(cart, p).cart == cart
    ensures AddToCart(cart, p).toast == Some(Toast("Stok " + p.name + " habis!", Error))
  {
  }

  /** With one line per product, the line of product `id` is the only one. */
  lemma LineOfUnique(cart: seq<CartItem>, id: string, k: nat)
    requires UniqueIds(cart) && k < |cart| && cart[k].product.id == id
    ensures FindLine(cart, id) == Some(k)
    ensures forall j :: 0 <= j < |cart| && j != k ==> cart[j].product.id != id
  {
    assert forall j :: 0 <= j < k ==> cart[j].product.id != cart[k].product.id;
    assert forall j :: k < j < |cart| ==> cart[k].product.id != cart[j].product.id;
  }

  /** A product already in the cart: its line gains exactly one unit unless
      that would pass the product's stock, and no other line changes. */
  lemma AddExisting(cart: seq<CartItem>, p: Product, k: nat)
    requires UniqueIds(cart) && k < |cart| && cart[k].product.id == p.id && p.stock > 0
    ensures var c := AddToCart(cart, p);
      if cart[k].qty + 1 > p.stock then
        c.cart == cart && c.toast == Some(Toast("Stok tidak mencukupi", Error))
      else
        && c.toast == None
        && |c.cart| == |cart|
        && c.cart[k] == CartItem(cart[k].product, cart[k].qty + 1)
        && forall j :: 0 <= j < |cart| && j != k ==> c.cart[j] == cart[j]
  {
    LineOfUnique(cart, p.id, k);
  }

  /** A product not yet in the cart is appended as a new last line holding one unit. */
  lemma AddNew(cart: seq<CartItem>, p: Product)
    requires p.stock > 0
    requires forall j :: 0 <= j < |cart| ==> cart[j].product.id != p.id
    ensures AddToCart(cart, p) == Change(cart + [CartItem(p, 1)], None)
  {
  }

  lemma {:induction false} AddKeepsWellFormed(cart: seq<CartItem>, p: Product)
    requires WellFormed(cart)
    ensures WellFormed(AddToCart(cart, p).cart)
  {
    if p.stock > 0 {
      match FindLine(cart, p.id)
      case Some(k) =>
        var r := AddToCart(cart, p).cart;
        assert forall i :: 0 <= i < |cart| ==> r[i].product == cart[i].product && r[i].qty >= cart[i].qty;
      case None =>
        var r := cart + [CartItem(p, 1)];
        assert forall i :: 0 <= i < |cart| ==> r[i] == cart[i];
    }
  }

  /** The stock bound is kept by an add whenever the product passed in has no
      more stock than the snapshot in its line. */
  lemma AddKeepsWithinStock(cart: seq<CartItem>, p: Product)
    requires UniqueIds(cart) && WithinStock(cart)
    requires forall j :: 0 <= j < |cart| && cart[j].product.id == p.id ==> p.stock <= cart[j].product.stock
    ensures WithinStock(AddToCart(cart, p).cart)
  {
    if p.stock > 0 {
      match FindLine(cart, p.id)
      case Some(k) =>
        LineOfUnique(cart, p.id, k);
      case None =>
        var r := cart + [CartItem(p, 1)];
        assert forall i :: 0 <= i < |cart| ==> r[i] == cart[i];
    }
  }

  /** The add checks the product passed in, not the snapshot in the line: a
      product whose stock rose after the line was made can push the line
      past the stock its snapshot records. */
  lemma AddChecksFreshStock()
    ensures var old_ := Product("p1", "Teh", None, 1000, 2000, 1, "");
      var fresh_ := old_.(stock := 3);
      var c := AddToCart([CartItem(old_, 1)], fresh_).cart;
      WithinStock([CartItem(old_, 1)]) && c == [CartItem(old_, 2)] && !WithinStock(c)
  {
    var old_ := Product("p1", "Teh", None, 1000, 2000, 1, "");
    assert FindLine([CartItem(old_, 1)], "p1") == Some(0);
  }

  /** The new quantity of a line after `delta`: refused when above the
      line's snapshot stock, and never below 1. */
  function Adjust(item: CartItem, delta: int): CartItem {
    var newQty := item.qty + delta;
    if newQty > item.product.stock then item
    else item.(qty := if newQty < 1 then 1 else newQty)
  }

  predicate Exceeds(cart: seq<CartItem>, id: string, delta: int) {
    exists i :: 0 <= i < |cart| && cart[i].product.id == id && cart[i].qty + delta > cart[i].product.stock
  }

  /** The +/- buttons of a line. */
  function UpdateQty(cart: seq<CartItem>, id: string, delta: int): Change {
    Change(
      seq(|cart|, i requires 0 <= i < |cart| => if cart[i].product.id == id then Adjust(cart[i], delta) else cart[i]),
      if Exceeds(cart, id, delta) then Some(Toast("Mencapai batas stok", Error)) else None)
  }

  /** Only the matching line changes; it stays as it is when the new
      quantity passes its stock, and otherwise takes max(1, qty + delta).
      No line is added or removed. */
  lemma UpdateQtyEffect(cart: seq<CartItem>, id: string, delta: int)
    ensures var r := UpdateQty(cart, id, delta).cart;
      && |r| == |cart|
      && (forall j :: 0 <= j < |cart| ==> r[j].product == cart[j].product)
      && (forall j :: 0 <= j < |cart| && cart[j].product.id != id ==> r[j] == cart[j])
      && (forall j :: 0 <= j < |cart| && cart[j].product.id == id ==>
            r[j].qty == if cart[j].qty + delta > cart[j].product.stock then cart[j].qty
                        else if cart[j].qty + delta < 1 then 1 else cart[j].qty + delta)
  {
  }

  lemma UpdateQtyKeepsInvariants(cart: seq<CartItem>, id: string, delta: int)
    requires WellFormed(cart) && WithinStock(cart)
    ensures WellFormed(UpdateQty(cart, id, delta).cart) && WithinStock(UpdateQty(cart, id, delta).cart)
  {
    var r := UpdateQty(cart, id, delta).cart;
    assert forall j :: 0 <= j < |cart| ==> r[j].product == cart[j].product;
  }

  /** The line filter behind the trash button. */
  function RemoveLine(cart: seq<CartItem>, id: string): (r: seq<CartItem>)
    ensures forall x :: x in r <==> x in cart && x.product.id != id
  {
    if cart == [] then []
    else (if cart[0].product.id != id then [cart[0]] else []) + RemoveLine(cart[1..], id)
  }

  /** With one line per product, removing product `id` drops exactly its
      line and keeps the others in order. */
  lemma {:induction false} RemoveExact(cart: seq<CartItem>, id: string, k: nat)
    requires UniqueIds(cart) && k < |cart| && cart[k].product.id == id
    ensures RemoveLine(cart, id) == cart[..k] + cart[k + 1..]
  {
    var tail := cart[1..];
    if k == 0 {
      forall j | 0 <= j < |tail| ensures tail[j].product.id != id {
        assert tail[j] == cart[j + 1];
      }
      RemoveAbsent(tail, id);
      assert cart[..0] + cart[1..] == tail;
    } else {
      UniqueTail(cart);
      assert tail[k - 1] == cart[k];
      RemoveExact(tail, id, k - 1);
      assert cart[0].product.id != id;
      SpliceCons(cart, k);
    }
  }

  lemma UniqueTail(cart: seq<CartItem>)
    requires cart != [] && UniqueIds(cart)
    ensures UniqueIds(cart[1..])
  {
    var tail := cart[1..];
    forall i, j | 0 <= i < j < |tail| ensures tail[i].product.id != tail[j].product.id {
      assert tail[i] == cart[i + 1] && tail[j] == cart[j + 1];
    }
  }

  lemma SpliceCons<T>(s: seq<T>, k: nat)
    requires 0 < k < |s|
    ensures [s[0]] + (s[1..][..k - 1] + s[1..][k..]) == s[..k] + s[k + 1..]
  {
    assert s[1..][..k - 1] == s[1..k];
    assert s[1..][k..] == s[k + 1..];
    assert s[..k] == [s[0]] + s[1..k];
  }

  lemma SpliceAt<T>(s: seq<T>, k: nat, i: nat)
    requires k < |s| && i < |s| - 1
    ensures (s[..k] + s[k + 1..])[i] == s[if i < k then i else i + 1]
  {
  }

  /** Removing a product that has no line changes nothing. */
  lemma {:induction false} RemoveAbsent(cart: seq<CartItem>, id: string)
    requires forall j :: 0 <= j < |cart| ==> cart[j].product.id != id
    ensures RemoveLine(cart, id) == cart
  {
    if cart != [] {
      RemoveAbsent(cart[1..], id);
      assert cart == [cart[0]] + cart[1..];
    }
  }

  function Subtotal(item: CartItem): int {
    item.product.sellPrice * item.qty
  }

  /** `calculateTotal`: the sum of sell price times quantity over the lines. */
  function Total(cart: seq<CartItem>): int {
    if cart == [] then 0 else Total(cart[..|cart| - 1]) + Subtotal(cart[|cart| - 1])
  }

  /** The badge count: the sum of the quantities. */
  function ItemCount(cart: seq<CartItem>): int {
    if cart == [] then 0 else ItemCount(cart[..|cart| - 1]) + cart[|cart| - 1].qty
  }

  lemma {:induction false} TotalAppend(a: seq<CartItem>, b: seq<CartItem>)
    ensures Total(a + b) == Total(a) + Total(b)
    ensures ItemCount(a + b) == ItemCount(a) + ItemCount(b)
    decreases |b|
  {
    if b == [] {
      assert a + b == a;
    } else {
      var b' := b[..|b| - 1];
      TotalAppend(a, b');
      assert (a + b)[..|a + b| - 1] == a + b';
      assert (a + b)[|a + b| - 1] == b[|b| - 1];
    }
  }

  /** Totals of a cart with line `k` replaced by `x`. */
  lemma {:induction false} TotalReplace(cart: seq<CartItem>, k: nat, x: CartItem)
    requires k < |cart|
    ensures Total(cart[k := x]) == Total(cart) - Subtotal(cart[k]) + Subtotal(x)
    ensures ItemCount(cart[k := x]) == ItemCount(cart) - cart[k].qty + x.qty
  {
    assert cart == cart[..k] + [cart[k]] + cart[k + 1..];
    assert cart[k := x] == cart[..k] + [x] + cart[k + 1..];
    TotalAppend(cart[..k] + [cart[k]], cart[k + 1..]);
    TotalAppend(cart[..k], [cart[k]]);
    TotalAppend(cart[..k] + [x], cart[k + 1..]);
    TotalAppend(cart[..k], [x]);
    assert Total([cart[k]]) == Subtotal(cart[k]) && Total([x]) == Subtotal(x) by {
      assert [cart[k]][..0] == [] && [x][..0] == [];
    }
    assert ItemCount([cart[k]]) == cart[k].qty && ItemCount([x]) == x.qty by {
      assert [cart[k]][..0] == [] && [x][..0] == [];
    }
  }

  lemma IncrementIsUpdate(cart: seq<CartItem>, id: string, k: nat)
    requires UniqueIds(cart) && k < |cart| && cart[k].product.id == id
    ensures Increment(cart, id) == cart[k := cart[k].(qty := cart[k].qty + 1)]
  {
    LineOfUnique(cart, id, k);
  }

  lemma OneMoreUnit(item: CartItem)
    ensures Subtotal(item.(qty := item.qty + 1)) == Subtotal(item) + item.product.sellPrice
  {
    var a, b := item.product.sellPrice, item.qty;
    assert a * (b + 1) == a * b + a;
  }

  lemma TotalOneMore(cart: seq<CartItem>, k: nat)
    requires k < |cart|
    ensures Total(cart[k := cart[k].(qty := cart[k].qty + 1)]) == Total(cart) + cart[k].product.sellPrice
    ensures ItemCount(cart[k := cart[k].(qty := cart[k].qty + 1)]) == ItemCount(cart) + 1
  {
    TotalReplace(cart, k, cart[k].(qty := cart[k].qty + 1));
    OneMoreUnit(cart[k]);
  }

  /** An add that raises an existing line adds one unit price to the
      total and one to the count. */
  lemma AddExistingRaisesTotal(cart: seq<CartItem>, p: Product, k: nat)
    requires UniqueIds(cart) && k < |cart| && cart[k].product.id == p.id && p.stock > 0
    requires cart[k].qty + 1 <= p.stock
    ensures Total(AddToCart(cart, p).cart) == Total(cart) + cart[k].product.sellPrice
    ensures ItemCount(AddToCart(cart, p).cart) == ItemCount(cart) + 1
  {
    IncrementIsUpdate(cart, p.id, k);
    assert AddToCart(cart, p).cart == Increment(cart, p.id);
    TotalOneMore(cart, k);
  }

  /** An add that appends a line adds the product's price to the total and
      one to the count. */
  lemma AddNewRaisesTotal(cart: seq<CartItem>, p: Product)
    requires p.stock > 0
    requires forall j :: 0 <= j < |cart| ==> cart[j].product.id != p.id
    ensures Total(AddToCart(cart, p).cart) == Total(cart) + p.sellPrice
    ensures ItemCount(AddToCart(cart, p).cart) == ItemCount(cart) + 1
  {
    AddNew(cart, p);
    TotalAppend(cart, [CartItem(p, 1)]);
    assert [CartItem(p, 1)][..0] == [];
  }

  /** Removing a line takes its subtotal off the total. */
  lemma RemoveLowersTotal(cart: seq<CartItem>, id: string, k: nat)
    requires UniqueIds(cart) && k < |cart| && cart[k].product.id == id
    ensures Total(RemoveLine(cart, id)) == Total(cart) - Subtotal(cart[k])
    ensures ItemCount(RemoveLine(cart, id)) == ItemCount(cart) - cart[k].qty
  {
    var a, x, b := cart[..k], cart[k], cart[k + 1..];
    RemoveExact(cart, id, k);
    assert RemoveLine(cart, id) == a + b;
    assert cart == (a + [x]) + b;
    TotalAppend(a, b);
    TotalAppend(a + [x], b);
    TotalAppend(a, [x]);
    TotalSingle(x);
  }

  lemma TotalSingle(x: CartItem)
    ensures Total([x]) == Subtotal(x) && ItemCount([x]) == x.qty
  {
    assert [x][..0] == [];
  }

  /** Removing a line keeps the cart well formed and within stock. */
  lemma RemoveKeepsInvariants(cart: seq<CartItem>, id: string)
    requires WellFormed(cart)
    ensures WellFormed(RemoveLine(cart, id))
    ensures WithinStock(cart) ==> WithinStock(RemoveLine(cart, id))
  {
    match FindLine(cart, id)
    case None =>
      RemoveAbsent(cart, id);
    case Some(k) =>
      RemoveExact(cart, id, k);
      var r := cart[..k] + cart[k + 1..];
      forall i | 0 <= i < |r| ensures r[i] == cart[if i < k then i else i + 1] {
        SpliceAt(cart, k, i);
      }
      forall i, j | 0 <= i < j < |r| ensures r[i].product.id != r[j].product.id {
        assert r[i] == cart[if i < k then i else i + 1];
        assert r[j] == cart[if j < k then j else j + 1];
      }
  }

  /** The minus button of line `k`: one unit less through `UpdateQty`, or,
      on a line holding a single unit, the removal of the line. */
  function PressMinus(cart: seq<CartItem>, k: nat): Change
    requires k < |cart|
  {
    if cart[k].qty > 1 then UpdateQty(cart, cart[k].product.id, -1)
    else Change(RemoveLine(cart, cart[k].product.id), None)
  }

  /** Within stock, the minus button always takes exactly one unit off the
      count, without a notice. */
  lemma MinusLowersCount(cart: seq<CartItem>, k: nat)
    requires WellFormed(cart) && WithinStock(cart) && k < |cart|
    ensures ItemCount(PressMinus(cart, k).cart) == ItemCount(cart) - 1
    ensures PressMinus(cart, k).toast == None
  {
    var id := cart[k].product.id;
    LineOfUnique(cart, id, k);
    if cart[k].qty > 1 {
      var x := cart[k].(qty := cart[k].qty - 1);
      UpdateQtyEffect(cart, id, -1);
      var r := UpdateQty(cart, id, -1).cart;
      assert r == cart[k := x] by {
        assert forall i :: 0 <= i < |cart| ==> r[i] == cart[k := x][i];
      }
      TotalReplace(cart, k, x);
    } else {
      RemoveLowersTotal(cart, id, k);
    }
  }

  /** No two catalog entries share an id (the store's primary key). */
  ghost predicate ProductIdsUnique(ps: seq<Product>) {
    forall i, j :: 0 <= i < |ps| && 0 <= j < |ps| && ps[i].id == ps[j].id ==> i == j
  }

  /** Every line's snapshot is a current catalog entry. */
  ghost predicate FromCatalog(cart: seq<CartItem>, ps: seq<Product>) {
    forall i :: 0 <= i < |cart| ==> cart[i].product in ps
  }

  /** While the snapshots in the cart are the catalog's own entries, adding a
      catalog product keeps every line within its stock. */
  lemma AddFromCatalogKeepsWithinStock(cart: seq<CartItem>, ps: seq<Product>, p: Product)
    requires UniqueIds(cart) && WithinStock(cart) && ProductIdsUnique(ps) && FromCatalog(cart, ps) && p in ps
    ensures WithinStock(AddToCart(cart, p).cart) && FromCatalog(AddToCart(cart, p).cart, ps)
  {
    forall j | 0 <= j < |cart| && cart[j].product.id == p.id
      ensures p.stock <= cart[j].product.stock
    {
      var a :| 0 <= a < |ps| && ps[a] == cart[j].product;
      var b :| 0 <= b < |ps| && ps[b] == p;
      assert a == b;
    }
    AddKeepsWithinStock(cart, p);
    var r := AddToCart(cart, p).cart;
    if p.stock > 0 && FindLine(cart, p.id).Some? {
      assert forall i :: 0 <= i < |cart| ==> r[i].product == cart[i].product;
    } else if p.stock > 0 {
      assert forall i :: 0 <= i < |cart| ==> r[i] == cart[i];
    }
  }

  /** `n` adds of the same product, one after another. */
  function AddTimes(cart: seq<CartItem>, p: Product, n: nat): seq<CartItem> {
    if n == 0 then cart else AddToCart(AddTimes(cart, p, n - 1), p).cart
  }

  /** Adding a product with stock s > 0 to an empty cart n >= 1 times leaves
      one line holding min(n, s) units: the adds past the stock are refused. */
  lemma {:induction false} AddTimesCapsAtStock(p: Product, n: nat)
    requires p.stock > 0 && n >= 1
    ensures AddTimes([], p, n) == [CartItem(p, if n < p.stock then n else p.stock)]
  {
    if n == 1 {
      assert FindLine([], p.id) == None;
    } else {
      var m := if n - 1 < p.stock then n - 1 else p.stock;
      AddTimesCapsAtStock(p, n - 1);
      AddToSingleLine(p, m);
      assert AddTimes([], p, n) == AddToCart([CartItem(p, m)], p).cart;
    }
  }

  /** One more add on a cart holding only a line of `p` with `m` units. */
  lemma AddToSingleLine(p: Product, m: int)
    requires 1 <= m <= p.stock
    ensures AddToCart([CartItem(p, m)], p).cart == [CartItem(p, if m < p.stock then m + 1 else m)]
  {
    var prev := [CartItem(p, m)];
    assert FindLine(prev, p.id) == Some(0);
    if m < p.stock {
      assert Increment(prev, p.id)[0] == CartItem(p, m + 1);
    }
  }

  /** The add after the stock is used up is refused with a notice. */
  lemma AddBeyondStockRefused(p: Product)
    requires p.stock > 0
    ensures AddToCart([CartItem(p, p.stock)], p) == Change([CartItem(p, p.stock)], Some(Toast("Stok tidak mencukupi", Error)))
  {
    assert FindLine([CartItem(p, p.stock)], p.id) == Some(0);
  }

  /** One `transaction_items` row. */
  datatype ItemRow = ItemRow(
    transactionId: string,
    productId: string,
    productName: string,
    qty: int,
    price: int,
    subtotal: int)

  function ItemRowOf(item: CartItem, txId: string): ItemRow {
    ItemRow(txId, item.product.id, item.product.name, item.qty, item.product.sellPrice, item.qty * item.product.sellPrice)
  }

  /** The item rows of a checkout, one per cart line, in cart order. */
  function ItemsPayload(cart: seq<CartItem>, txId: string): (r: seq<ItemRow>)
    ensures |r| == |cart|
  {
    if cart == [] then [] else ItemsPayload(cart[..|cart| - 1], txId) + [ItemRowOf(cart[|cart| - 1], txId)]
  }

  lemma {:induction false} ItemsPayloadAt(cart: seq<CartItem>, txId: string, i: nat)
    requires i < |cart|
    ensures ItemsPayload(cart, txId)[i] == ItemRowOf(cart[i], txId)
  {
    if i < |cart| - 1 {
      ItemsPayloadAt(cart[..|cart| - 1], txId, i);
    }
  }

  function SubtotalSum(rows: seq<ItemRow>): int {
    if rows == [] then 0 else SubtotalSum(rows[..|rows| - 1]) + rows[|rows| - 1].subtotal
  }

  /** The item rows add up to the ledger amount of the checkout. */
  lemma {:induction false} ItemsPayloadSumsToTotal(cart: seq<CartItem>, txId: string)
    ensures SubtotalSum(ItemsPayload(cart, txId)) == Total(cart)
  {
    if cart != [] {
      var rows := ItemsPayload(cart, txId);
      ItemsPayloadSumsToTotal(cart[..|cart| - 1], txId);
      assert rows[..|rows| - 1] == ItemsPayload(cart[..|cart| - 1], txId);
    }
  }

  /** The stock write of one line. */
  datatype StockWrite = StockWrite(productId: string, stock: int)

  /** One stock write per cart line: the line's snapshot stock less its quantity. */
  function StockWrites(cart: seq<CartItem>): (r: seq<StockWrite>)
    ensures |r| == |cart|
  {
    if cart == [] then []
    else
      var last := cart[|cart| - 1];
      StockWrites(cart[..|cart| - 1]) + [StockWrite(last.product.id, last.product.stock - last.qty)]
  }

  lemma {:induction false} StockWritesAt(cart: seq<CartItem>, i: nat)
    requires i < |cart|
    ensures StockWrites(cart)[i] == StockWrite(cart[i].product.id, cart[i].product.stock - cart[i].qty)
  {
    if i < |cart| - 1 {
      StockWritesAt(cart[..|cart| - 1], i);
    }
  }

  /** Within the stock bound no written stock is negative. */
  lemma StockWritesNonNegative(cart: seq<CartItem>)
    requires WithinStock(cart)
    ensures forall i :: 0 <= i < |cart| ==> StockWrites(cart)[i].stock >= 0
  {
    forall i | 0 <= i < |cart| ensures StockWrites(cart)[i].stock >= 0 {
      StockWritesAt(cart, i);
    }
  }

  /** The description of a checkout's ledger entry. */
  function SaleDescription(cart: seq<CartItem>): string {
    "Penjualan Kasir: " + Text.IntToString(|cart|) + " item"
  }

  /** The description reads "Penjualan Kasir: ", a decimal numeral, then
      " item", and the numeral denotes the number of cart lines; so two
      checkouts get the same description exactly when their carts have the
      same number of lines. */
  lemma SaleDescriptionCounts(cart: seq<CartItem>, other: seq<CartItem>)
    ensures var s := SaleDescription(cart);
      && |s| >= 23 && s[..17] == "Penjualan Kasir: " && s[|s| - 5..] == " item"
      && (forall i :: 17 <= i < |s| - 5 ==> Text.IsDigit(s[i]))
      && Text.NumeralValue(s[17..|s| - 5]) == |cart|
    ensures SaleDescription(cart) == SaleDescription(other) <==> |cart| == |other|
  {
    var s := SaleDescription(cart);
    var n := Text.IntToString(|cart|);
    assert s[17..|s| - 5] == n;
    var t := SaleDescription(other);
    var m := Text.IntToString(|other|);
    assert t[17..|t| - 5] == m;
  }

  /** The ledger entry a checkout inserts: sales income for the cart total. */
  function SalePayload(cart: seq<CartItem>, now: string): (r: TxPayload)
    ensures r.kind == Income && r.category == Sales && r.amount == Total(cart) && r.date == now
  {
    TxPayload(Income, Sales, Total(cart), SaleDescription(cart), now)
  }

  function ReceiptItemOf(item: CartItem): Receipt.ReceiptItem {
    Receipt.ReceiptItem(item.product.name, item.qty, item.product.sellPrice)
  }

  /** One receipt item per cart line, in cart order. */
  function ReceiptItems(cart: seq<CartItem>): (r: seq<Receipt.ReceiptItem>)
    ensures |r| == |cart|
    ensures forall i :: 0 <= i < |cart| ==> r[i] == ReceiptItemOf(cart[i])
  {
    seq(|cart|, i requires 0 <= i < |cart| => ReceiptItemOf(cart[i]))
  }

  /** The printed subtotals of the cart's items add up to the cart total. */
  lemma {:induction false} ReceiptItemsAddUp(cart: seq<CartItem>)
    ensures Receipt.ItemsValue(ReceiptItems(cart)) == Total(cart)
  {
    if cart != [] {
      var items := ReceiptItems(cart);
      var p := cart[..|cart| - 1];
      ReceiptItemsAddUp(p);
      assert items[..|items| - 1] == ReceiptItems(p);
      var last := cart[|cart| - 1];
      assert items[|items| - 1].qty * items[|items| - 1].price == last.qty * last.product.sellPrice;
    }
  }

  /** The receipt shown after a checkout: the new id, the checkout time, the
      cart total, one item per line, no TUNAI / KEMBALI lines (a checkout
      records no tendered cash or change), and printed line subtotals that
      add up to the TOTAL. */
  function SaleReceipt(txId: string, now: string, cart: seq<CartItem>): (r: Receipt.ReceiptData)
    ensures r.id == txId && r.date == now && r.total == Total(cart)
    ensures r.paymentAmount == None && r.changeAmount == None && !Receipt.ShowsPayment(r)
    ensures |r.items| == |cart|
    ensures forall i :: 0 <= i < |cart| ==> r.items[i] == ReceiptItemOf(cart[i])
    ensures Receipt.ItemsValue(r.items) == r.total
  {
    ReceiptItemsAddUp(cart);
    Receipt.ReceiptData(txId, now, Total(cart), None, None, ReceiptItems(cart))
  }
}
