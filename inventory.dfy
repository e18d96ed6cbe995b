/** The stock page: the product form, the searchable product list with its
    low-stock and margin display rules, and the page's open/edit/confirm
    controller. */
module InventoryPage {
  import opened Records
  import Catalog

  /** The product fields a save writes, numbers already converted. */
  datatype ProductPayload = ProductPayload(name: string, buyPrice: int, sellPrice: int, stock: int, sku: Option<string>)

  /** The form's fields: the name as typed ("" when empty), each number
      field None while it is empty, and the SKU as typed. */
  datatype ProductForm = ProductForm(name: string, buyPrice: Option<int>, sellPrice: Option<int>, stock: Option<int>, sku: Option<string>)

  /** The form after `reset()`: every field empty. */
  const BlankProduct := ProductForm("", None, None, None, None)

  /** `handleEdit`'s `setValue` calls: every field takes the product's value. */
  function FormOf(p: Product): ProductForm {
    ProductForm(p.name, Some(p.buyPrice), Some(p.sellPrice), Some(p.stock), p.sku)
  }

  /** The form's `required` rules: a name and the three numbers are filled
      in. Only a complete form reaches `onPreSubmit`. */
  predicate Complete(f: ProductForm) {
    f.name != "" && f.buyPrice.Some? && f.sellPrice.Some? && f.stock.Some?
  }

  /** `onPreSubmit`'s payload: the typed fields with the numbers converted. */
  function PayloadOf(f: ProductForm): ProductPayload
    requires Complete(f)
  {
    ProductPayload(f.name, f.buyPrice.value, f.sellPrice.value, f.stock.value, f.sku)
  }

  /** Editing a product and saving without typing passes the `required`
      rules exactly when the product has a name, and then writes back the
      product's own fields unchanged. */
  lemma EditRoundTrip(p: Product)
    ensures Complete(FormOf(p)) <==> p.name != ""
    ensures Complete(FormOf(p)) ==>
      var r := PayloadOf(FormOf(p));
      r.name == p.name && r.buyPrice == p.buyPrice && r.sellPrice == p.sellPrice && r.stock == p.stock && r.sku == p.sku
  {
  }

  /** A blank form never passes the `required` rules. */
  lemma BlankIncomplete()
    ensures !Complete(BlankProduct)
  {
  }

  /** A stock figure as shown: the units, in red below five units. */
  datatype StockFigure = StockFigure(units: int, red: bool)

  /** The compact row under a card: stock and sell price. */
  datatype Summary = Summary(stock: StockFigure, sellPrice: int)

  /** The expanded panel of a card: stock, buy and sell price, and the
      estimated profit per unit. */
  datatype Details = Details(stock: StockFigure, buyPrice: int, sellPrice: int, profit: int)

  /** A product card: its name, its SKU or "NO SKU", the compact row when
      shown, and the expanded panel when shown. */
  datatype ProductCard = ProductCard(name: string, skuLabel: string, summary: Option<Summary>, details: Option<Details>)

  function StockOf(p: Product): (r: StockFigure)
    ensures r.units == p.stock
    ensures r.red <==> p.stock < 5
  {
    StockFigure(p.stock, p.stock < 5)
  }

  /** The card of product `p` while `expandedId` is expanded. The compact
      row appears only while no card at all is expanded; the panel only on
      the expanded card; the profit shown is the sell price less the buy
      price. */
  function CardOf(p: Product, expandedId: Option<string>): (r: ProductCard)
    ensures r.name == p.name
    ensures r.skuLabel == if IsSet(p.sku) then p.sku.value else "NO SKU"
    ensures r.summary.Some? <==> expandedId.None?
    ensures r.summary.Some? ==> r.summary.value.stock == StockOf(p) && r.summary.value.sellPrice == p.sellPrice
    ensures r.details.Some? <==> expandedId == Some(p.id)
    ensures r.details.Some? ==>
      && r.details.value.stock == StockOf(p)
      && r.details.value.buyPrice == p.buyPrice && r.details.value.sellPrice == p.sellPrice
      && r.details.value.buyPrice + r.details.value.profit == r.details.value.sellPrice
  {
    ProductCard(
      p.name,
      if IsSet(p.sku) then p.sku.value else "NO SKU",
      if expandedId.None? then Some(Summary(StockOf(p), p.sellPrice)) else None,
      if expandedId == Some(p.id) then Some(Details(StockOf(p), p.buyPrice, p.sellPrice, p.sellPrice - p.buyPrice)) else None)
  }

  /** The fields of the page, as one value. */
  datatype PageState = PageState(
    products: seq<Product>,
    isFormOpen: bool,
    editingId: Option<string>,
    searchTerm: string,
    expandedId: Option<string>,
    confirm: ConfirmState<ProductPayload>,
    form: ProductForm,
    toasts: seq<Toast>)

  class Page {
    var products: seq<Product>
    var isFormOpen: bool
    var editingId: Option<string>
    var searchTerm: string
    var expandedId: Option<string>
    var confirm: ConfirmState<ProductPayload>
    var form: ProductForm
    var toasts: seq<Toast>

    function State(): PageState
      reads this
    {
      PageState(products, isFormOpen, editingId, searchTerm, expandedId, confirm, form, toasts)
    }

    /** The list on screen for the search term, in catalog order. */
    function Visible(): seq<Product>
      reads this
    {
      Catalog.Filter(products, searchTerm)
    }

    /** The cards on screen, one per listed product in list order. A card
        shows details only for the expanded product, and while any product
        is expanded no card shows its compact row. */
    function Cards(): (r: seq<ProductCard>)
      reads this
      ensures |r| == |Visible()|
      ensures forall i :: 0 <= i < |r| ==> r[i].name == Visible()[i].name
      ensures forall i :: 0 <= i < |r| ==> (r[i].details.Some? <==> expandedId == Some(Visible()[i].id))
      ensures expandedId.None? ==> forall i :: 0 <= i < |r| ==> r[i].summary.Some?
      ensures expandedId.Some? ==> forall i :: 0 <= i < |r| ==> r[i].summary.None?
    {
      var v, e := Visible(), expandedId;
      seq(|v|, i requires 0 <= i < |v| => CardOf(v[i], e))
    }

    constructor ()
      ensures State() == PageState([], false, None, "", None, InitialConfirm(), BlankProduct, [])
    {
      products, isFormOpen, editingId, searchTerm := [], false, None, "";
      expandedId, confirm, form, toasts := None, InitialConfirm(), BlankProduct, [];
    }

    /** `fetchProducts`: the list is replaced when the read returned rows. */
    method FetchProducts(data: Option<seq<Product>>)
      modifies this
      ensures State() == old(State()).(products := if data.Some? then data.value else old(products))
    {
      if data.Some? {
        products := data.value;
      }
    }

    method SetSearchTerm(term: string)
      modifies this
      ensures State() == old(State()).(searchTerm := term)
    {
      searchTerm := term;
    }

    /** `handleEdit`: the form opens on the product's values. */
    method Edit(p: Product)
      modifies this
      ensures State() == old(State()).(editingId := Some(p.id), form := FormOf(p), isFormOpen := true)
    {
      editingId := Some(p.id);
      form := FormOf(p);
      isFormOpen := true;
    }

    /** Typing into the form. */
    method SetForm(f: ProductForm)
      modifies this
      ensures State() == old(State()).(form := f)
    {
      form := f;
    }

    /** `onPreSubmit`: the save prompt opens carrying the converted values. */
    method PreSubmit(data: ProductPayload)
      modifies this
      ensures State() == old(State()).(confirm := ConfirmState(true, SaveAction(Some(data))))
    {
      confirm := ConfirmState(true, SaveAction(Some(data)));
    }

    /** The submit button, `handleSubmit(onPreSubmit)`: a form that breaks a
        `required` rule changes nothing; a complete one reaches `onPreSubmit`
        with its own values. */
    method Submit()
      modifies this
      ensures !Complete(old(form)) ==> State() == old(State())
      ensures Complete(old(form)) ==>
        State() == old(State()).(confirm := ConfirmState(true, SaveAction(Some(PayloadOf(old(form))))))
    {
      if Complete(form) {
        PreSubmit(PayloadOf(form));
      }
    }

    /** `handleConfirm`. `reply` is what the store reports for the write.
        The form is closed and reset only when a save reports no error. */
    method Confirm(reply: Reply) returns (requests: seq<Request<ProductPayload>>)
      modifies this
      ensures requests == ConfirmedRequests(old(confirm), old(editingId), reply)
      ensures old(confirm).action.SaveAction? && reply.Failed? ==>
        State() == old(State()).(
          confirm := Dismissed(old(confirm)),
          toasts := old(toasts) + [Toast("Gagal menyimpan produk", Error)])
      ensures old(confirm).action.SaveAction? && reply.Ok? ==>
        State() == old(State()).(
          confirm := Dismissed(old(confirm)),
          isFormOpen := false,
          editingId := None,
          form := BlankProduct,
          toasts := old(toasts) + [Toast(if IsSet(old(editingId)) then "Produk berhasil diperbarui" else "Produk berhasil ditambahkan", Success)])
      ensures old(confirm).action.DeleteAction? ==>
        State() == old(State()).(
          confirm := Dismissed(old(confirm)),
          toasts := old(toasts) + [if reply.Ok? then Toast("Produk berhasil dihapus", Success) else Toast("Gagal menghapus produk", Error)])
    {
      requests := [ConfirmedWrite(confirm, editingId)];
      match confirm.action {
        case SaveAction(_) =>
          if reply.Ok? {
            requests := requests + [Reload];
            var wasEditing := IsSet(editingId);
            isFormOpen := false;
            editingId := None;
            form := BlankProduct;
            toasts := toasts + [Toast(if wasEditing then "Produk berhasil diperbarui" else "Produk berhasil ditambahkan", Success)];
          } else {
            toasts := toasts + [Toast("Gagal menyimpan produk", Error)];
          }
        case DeleteAction(_) =>
          if reply.Ok? {
            requests := requests + [Reload];
            toasts := toasts + [Toast("Produk berhasil dihapus", Success)];
          } else {
            toasts := toasts + [Toast("Gagal menghapus produk", Error)];
          }
      }
      confirm := Dismissed(confirm);
    }

    /** `toggleExpand`. */
    method ToggleExpand(id: string)
      modifies this
      ensures State() == old(State()).(expandedId := Toggle(old(expandedId), id))
    {
      expandedId := Toggle(expandedId, id);
    }

    /** The header button: it closes a blank form (leaving the rest as it
        is), and otherwise opens a blank one. */
    method HeaderButton()
      modifies this
      ensures old(isFormOpen && !IsSet(editingId)) ==> State() == old(State()).(isFormOpen := false)
      ensures !old(isFormOpen && !IsSet(editingId)) ==>
        State() == old(State()).(isFormOpen := true, editingId := None, form := BlankProduct)
    {
      if isFormOpen && !IsSet(editingId) {
        isFormOpen := false;
      } else {
        isFormOpen := true;
        editingId := None;
        form := BlankProduct;
      }
    }

    /** The form's Batal button only closes the form: the product being
        edited and the typed values stay. */
    method CloseForm()
      modifies this
      ensures State() == old(State()).(isFormOpen := false)
    {
      isFormOpen := false;
    }

    /** The trash button of a product opens the delete prompt for it. */
    method RequestDelete(id: string)
      modifies this
      ensures State() == old(State()).(confirm := ConfirmState(true, DeleteAction(Some(id))))
    {
      confirm := ConfirmState(true, DeleteAction(Some(id)));
    }

    /** The prompt's cancel button. */
    method DismissConfirm()
      modifies this
      ensures State() == old(State()).(confirm := Dismissed(old(confirm)))
    {
      confirm := Dismissed(confirm);
    }
  }
}
