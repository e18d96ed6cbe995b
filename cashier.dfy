/** The cashier page as an object: the catalog it shows, the cart, the search
    box, and the checkout procedure that writes a sale to the store. */
module Cashier {
  import opened Records
  import opened Cart
  import Catalog
  import Receipt

  /** A write the checkout issues, in the order issued. */
  datatype CheckoutRequest =
    | InsertSale(payload: TxPayload)
    | InsertItems(rows: seq<ItemRow>)
    | WriteStock(write: StockWrite)
    | ReloadProducts

  /** An error the checkout only reports on the console. */
  datatype LogEntry = ItemsNotSaved(message: string) | StockNotUpdated(productId: string, message: string)

  /** What inserting the ledger entry reports: the new row's id, or an error. */
  datatype Inserted = Inserted(id: string) | InsertFailed(message: string)

  function StockRequests(ws: seq<StockWrite>): (r: seq<CheckoutRequest>)
    ensures |r| == |ws|
  {
    if ws == [] then [] else StockRequests(ws[..|ws| - 1]) + [WriteStock(ws[|ws| - 1])]
  }

  lemma {:induction false} StockRequestsAt(ws: seq<StockWrite>, i: nat)
    requires i < |ws|
    ensures StockRequests(ws)[i] == WriteStock(ws[i])
  {
    if i < |ws| - 1 {
      StockRequestsAt(ws[..|ws| - 1], i);
    }
  }

  /** The requests of a checkout whose ledger entry was saved as `txId`. */
  function SaleRequests(cart: seq<CartItem>, txId: string, now: string): seq<CheckoutRequest> {
    [InsertSale(SalePayload(cart, now)), InsertItems(ItemsPayload(cart, txId))]
      + StockRequests(StockWrites(cart)) + [ReloadProducts]
  }

  /** A saved checkout writes the ledger entry, then the item rows, then one
      stock write per line in cart order, and finally re-reads the catalog. */
  lemma SaleRequestsLayout(cart: seq<CartItem>, txId: string, now: string)
    ensures var r := SaleRequests(cart, txId, now);
      && |r| == |cart| + 3
      && r[0] == InsertSale(TxPayload(Income, Sales, Total(cart), SaleDescription(cart), now))
      && r[1] == InsertItems(ItemsPayload(cart, txId))
      && (forall i :: 0 <= i < |cart| ==>
            r[i + 2] == WriteStock(StockWrite(cart[i].product.id, cart[i].product.stock - cart[i].qty)))
      && r[|r| - 1] == ReloadProducts
  {
    var r := SaleRequests(cart, txId, now);
    var head := [InsertSale(SalePayload(cart, now)), InsertItems(ItemsPayload(cart, txId))];
    var mid := StockRequests(StockWrites(cart));
    assert r == head + mid + [ReloadProducts];
    forall i | 0 <= i < |cart|
      ensures r[i + 2] == WriteStock(StockWrite(cart[i].product.id, cart[i].product.stock - cart[i].qty))
    {
      assert r[i + 2] == mid[i];
      StockRequestsAt(StockWrites(cart), i);
      StockWritesAt(cart, i);
    }
  }

  function ItemsLog(reply: Reply): seq<LogEntry> {
    if reply.Failed? then [ItemsNotSaved(reply.message)] else []
  }

  /** The console errors of the stock writes, one per failed write, in cart order. */
  function StockLog(cart: seq<CartItem>, reply: string -> Reply): (r: seq<LogEntry>)
    ensures |r| <= |cart|
  {
    if cart == [] then []
    else
      var id := cart[|cart| - 1].product.id;
      StockLog(cart[..|cart| - 1], reply)
        + (if reply(id).Failed? then [StockNotUpdated(id, reply(id).message)] else [])
  }

  /** When every stock write succeeds, nothing is logged. */
  lemma {:induction false} StockLogEmptyWhenAllSaved(cart: seq<CartItem>, reply: string -> Reply)
    requires forall i :: 0 <= i < |cart| ==> reply(cart[i].product.id).Ok?
    ensures StockLog(cart, reply) == []
  {
    if cart != [] {
      StockLogEmptyWhenAllSaved(cart[..|cart| - 1], reply);
    }
  }

  /** Step 3 of a checkout: one stock write per line, in cart order, each
      failure reported on the console and none of them stopping the loop. */
  method IssueStockWrites(lines: seq<CartItem>, stockReply: string -> Reply)
    returns (requests: seq<CheckoutRequest>, log: seq<LogEntry>)
    ensures requests == StockRequests(StockWrites(lines))
    ensures log == StockLog(lines, stockReply)
  {
    requests, log := [], [];
    for j := 0 to |lines|
      invariant requests == StockRequests(StockWrites(lines[..j]))
      invariant log == StockLog(lines[..j], stockReply)
    {
      var item := lines[j];
      var w := StockWrite(item.product.id, item.product.stock - item.qty);
      assert lines[..j + 1][..j] == lines[..j];
      assert StockWrites(lines[..j + 1]) == StockWrites(lines[..j]) + [w];
      assert (StockWrites(lines[..j]) + [w])[..j] == StockWrites(lines[..j]);
      requests := requests + [WriteStock(w)];
      var reply := stockReply(item.product.id);
      if reply.Failed? {
        log := log + [StockNotUpdated(item.product.id, reply.message)];
      }
    }
    assert lines[..|lines|] == lines;
  }

  function ToastsOf(t: Option<Toast>): seq<Toast> {
    if t.Some? then [t.value] else []
  }

  /** The fields of the page, as one value. */
  datatype RegisterState = RegisterState(
    products: seq<Product>,
    cart: seq<CartItem>,
    searchTerm: string,
    isCheckingOut: bool,
    showScanner: bool,
    receipt: Option<Receipt.ReceiptData>,
    showReceipt: bool,
    isMobileCartOpen: bool,
    toasts: seq<Toast>)

  class Register {
    var products: seq<Product>
    var cart: seq<CartItem>
    var searchTerm: string
    var isCheckingOut: bool
    var showScanner: bool
    var receipt: Option<Receipt.ReceiptData>
    var showReceipt: bool
    var isMobileCartOpen: bool
    /** The notifications shown so far, oldest first. */
    var toasts: seq<Toast>

    function State(): RegisterState
      reads this
    {
      RegisterState(products, cart, searchTerm, isCheckingOut, showScanner, receipt, showReceipt, isMobileCartOpen, toasts)
    }

    /** The cart holds one line per product, each with at least one unit. */
    ghost predicate Valid()
      reads this
    {
      WellFormed(cart)
    }

    /** The snapshots in the cart are catalog entries, and no line passes its stock. */
    ghost predicate Synced()
      reads this
    {
      ProductIdsUnique(products) && FromCatalog(cart, products) && WithinStock(cart)
    }

    /** The products on screen for the current search term, in catalog order. */
    function Visible(): seq<Product>
      reads this
    {
      Catalog.Filter(products, searchTerm)
    }

    constructor ()
      ensures Valid() && Synced()
      ensures State() == RegisterState([], [], "", false, false, None, false, false, [])
    {
      products, cart, searchTerm := [], [], "";
      isCheckingOut, showScanner := false, false;
      receipt, showReceipt, isMobileCartOpen := None, false, false;
      toasts := [];
    }

    /** `fetchProducts`: the catalog is replaced when the read returned rows. */
    method FetchProducts(data: Option<seq<Product>>)
      modifies this
      ensures State() == old(State()).(products := if data.Some? then data.value else old(products))
      ensures old(Valid()) ==> Valid()
    {
      if data.Some? {
        products := data.value;
      }
    }

    /** `addToCart`, from a product card or the barcode field. */
    method AddToCart(p: Product)
      requires Valid()
      modifies this
      ensures var c := Cart.AddToCart(old(cart), p);
        State() == old(State()).(cart := c.cart, toasts := old(toasts) + ToastsOf(c.toast))
      ensures Valid()
      ensures old(Synced()) && p in products ==> Synced()
    {
      var c := Cart.AddToCart(cart, p);
      AddKeepsWellFormed(cart, p);
      if Synced() && p in products {
        AddFromCatalogKeepsWithinStock(cart, products, p);
      }
      cart := c.cart;
      toasts := toasts + ToastsOf(c.toast);
    }

    /** `updateQty`, behind the +/- buttons of a line. */
    method UpdateQty(id: string, delta: int)
      requires Valid()
      modifies this
      ensures var c := Cart.UpdateQty(old(cart), id, delta);
        State() == old(State()).(cart := c.cart, toasts := old(toasts) + ToastsOf(c.toast))
      ensures Valid()
      ensures old(Synced()) ==> Synced()
    {
      var c := Cart.UpdateQty(cart, id, delta);
      if WithinStock(cart) {
        UpdateQtyKeepsInvariants(cart, id, delta);
      }
      UpdateQtyEffect(cart, id, delta);
      assert forall i :: 0 <= i < |cart| ==> c.cart[i].product == cart[i].product;
      cart := c.cart;
      toasts := toasts + ToastsOf(c.toast);
    }

    /** `removeFromCart`: the mobile drawer closes when the cart held at
        most one line before the removal. */
    method RemoveFromCart(id: string)
      requires Valid()
      modifies this
      ensures State() == old(State()).(
        cart := RemoveLine(old(cart), id),
        isMobileCartOpen := if |old(cart)| <= 1 then false else old(isMobileCartOpen))
      ensures Valid()
      ensures old(Synced()) ==> Synced()
    {
      RemoveKeepsInvariants(cart, id);
      var wasShort := |cart| <= 1;
      cart := RemoveLine(cart, id);
      if wasShort {
        isMobileCartOpen := false;
      }
    }

    /** The minus button of line `k`. */
    method PressMinus(k: nat)
      requires Valid() && k < |cart|
      modifies this
      ensures var c := Cart.PressMinus(old(cart), k);
        State() == old(State()).(
          cart := c.cart,
          toasts := old(toasts) + ToastsOf(c.toast),
          isMobileCartOpen := if old(cart[k].qty) <= 1 && |old(cart)| <= 1 then false else old(isMobileCartOpen))
      ensures Valid()
      ensures old(Synced()) ==> Synced()
    {
      if cart[k].qty > 1 {
        UpdateQty(cart[k].product.id, -1);
      } else {
        RemoveFromCart(cart[k].product.id);
      }
    }

    /** `handleSearch`: typing or scanning into the search box. A text equal
        to a product's SKU adds that product and clears the box. */
    method HandleSearch(value: string)
      requires Valid()
      modifies this
      ensures match Catalog.FindBySku(old(products), value)
        case None => State() == old(State()).(searchTerm := value)
        case Some(k) =>
          var p := old(products)[k];
          var c := Cart.AddToCart(old(cart), p);
          State() == old(State()).(
            cart := c.cart,
            searchTerm := "",
            toasts := old(toasts) + ToastsOf(c.toast) + [Toast(p.name + " ditambahkan", Success)])
      ensures Valid()
      ensures old(Synced()) ==> Synced()
    {
      searchTerm := value;
      var exact := Catalog.FindBySku(products, value);
      if exact.Some? {
        var p := products[exact.value];
        AddToCart(p);
        searchTerm := "";
        toasts := toasts + [Toast(p.name + " ditambahkan", Success)];
      }
    }

    /** The scan button opens or closes the camera panel. */
    method ToggleScanner()
      modifies this
      ensures State() == old(State()).(showScanner := !old(showScanner))
      ensures old(Valid()) ==> Valid()
    {
      showScanner := !showScanner;
    }

    /** A decoded barcode goes through the search box; the camera panel
        closes and the code is announced. */
    method OnScan(decoded: string)
      requires Valid()
      modifies this
      ensures match Catalog.FindBySku(old(products), decoded)
        case None =>
          State() == old(State()).(searchTerm := decoded, showScanner := false,
            toasts := old(toasts) + [Toast("Barcode terdeteksi: " + decoded, Success)])
        case Some(k) =>
          var p := old(products)[k];
          var c := Cart.AddToCart(old(cart), p);
          State() == old(State()).(
            cart := c.cart,
            searchTerm := "",
            showScanner := false,
            toasts := old(toasts) + ToastsOf(c.toast) + [Toast(p.name + " ditambahkan", Success),
                                                         Toast("Barcode terdeteksi: " + decoded, Success)])
      ensures Valid()
      ensures old(Synced()) ==> Synced()
    {
      HandleSearch(decoded);
      showScanner := false;
      toasts := toasts + [Toast("Barcode terdeteksi: " + decoded, Success)];
    }

    /** The receipt's close button hides it; the last receipt is kept. */
    method CloseReceipt()
      modifies this
      ensures State() == old(State()).(showReceipt := false)
      ensures old(Valid()) ==> Valid()
    {
      showReceipt := false;
    }

    /** The checkout button is enabled on a non-empty cart while no checkout runs. */
    predicate CanCheckout()
      reads this
    {
      cart != [] && !isCheckingOut
    }

    /** `handleCheckout`. The store's replies are inputs: `tx` for the ledger
        entry, `itemsReply` for the item rows, `stockReply` per product id. */
    method Checkout(now: string, tx: Inserted, itemsReply: Reply, stockReply: string -> Reply)
      returns (requests: seq<CheckoutRequest>, log: seq<LogEntry>)
      requires Valid()
      modifies this
      ensures old(cart) == [] ==> State() == old(State()) && requests == [] && log == []
      ensures old(cart) != [] && tx.InsertFailed? ==>
        && State() == old(State()).(
             isCheckingOut := false,
             toasts := old(toasts) + [Toast("Gagal Checkout: " + tx.message, Error)])
        && requests == [InsertSale(SalePayload(old(cart), now))]
        && log == []
      ensures old(cart) != [] && tx.Inserted? ==>
        && State() == old(State()).(
             cart := [],
             isCheckingOut := false,
             receipt := Some(SaleReceipt(tx.id, now, old(cart))),
             showReceipt := true,
             isMobileCartOpen := false)
        && requests == SaleRequests(old(cart), tx.id, now)
        && log == ItemsLog(itemsReply) + StockLog(old(cart), stockReply)
      ensures Valid()
    {
      if cart == [] {
        requests, log := [], [];
        return;
      }
      isCheckingOut := true;
      var lines := cart;
      var first := InsertSale(TxPayload(Income, Sales, Cart.Total(lines), SaleDescription(lines), now));
      match tx
      case InsertFailed(message) =>
        toasts := toasts + [Toast("Gagal Checkout: " + message, Error)];
        isCheckingOut := false;
        requests, log := [first], [];
      case Inserted(txId) =>
        var rest;
        rest, log := CompleteSale(lines, txId, now, itemsReply, stockReply);
        requests := [first] + rest;
    }

    /** Steps 2 to 5 of a checkout once its ledger entry is saved: the item
        rows, the stock writes, the receipt, the empty cart, the catalog re-read. */
    method CompleteSale(lines: seq<CartItem>, txId: string, now: string, itemsReply: Reply, stockReply: string -> Reply)
      returns (requests: seq<CheckoutRequest>, log: seq<LogEntry>)
      modifies this
      ensures State() == old(State()).(
        cart := [],
        isCheckingOut := false,
        receipt := Some(SaleReceipt(txId, now, lines)),
        showReceipt := true,
        isMobileCartOpen := false)
      ensures [InsertSale(SalePayload(lines, now))] + requests == SaleRequests(lines, txId, now)
      ensures log == ItemsLog(itemsReply) + StockLog(lines, stockReply)
    {
      var rows := ItemsPayload(lines, txId);
      log := ItemsLog(itemsReply);
      var stockRequests, stockLog := IssueStockWrites(lines, stockReply);
      log := log + stockLog;
      var sale := SaleReceipt(txId, now, lines);
      receipt := Some(sale);
      showReceipt := true;
      cart := [];
      isMobileCartOpen := false;
      requests := [InsertItems(rows)] + stockRequests + [ReloadProducts];
      isCheckingOut := false;
      LeadingPair(InsertSale(SalePayload(lines, now)), InsertItems(rows), stockRequests, [ReloadProducts]);
    }
  }

  lemma LeadingPair<T>(a: T, b: T, m: seq<T>, e: seq<T>)
    ensures [a] + ([b] + m + e) == [a, b] + m + e
  {
  }

  /** A checkout run on a register in sync with its catalog writes no negative stock. */
  lemma CheckoutStockNonNegative(cart: seq<CartItem>, txId: string, now: string)
    requires WithinStock(cart)
    ensures forall i :: 2 <= i < |cart| + 2 ==>
      SaleRequests(cart, txId, now)[i].WriteStock? && SaleRequests(cart, txId, now)[i].write.stock >= 0
  {
    SaleRequestsLayout(cart, txId, now);
    forall i | 2 <= i < |cart| + 2
      ensures SaleRequests(cart, txId, now)[i].WriteStock? && SaleRequests(cart, txId, now)[i].write.stock >= 0
    {
      assert cart[i - 2].qty <= cart[i - 2].product.stock;
    }
  }
}
