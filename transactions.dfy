/** The ledger page: the category labels, the receipt rebuilt from a stored
    entry, the entry form's validation, and the page's open/edit/confirm
    controller. */
module TransactionsPage {
  import opened Records
  import Receipt

  /** A `transaction_items` row as the page reads it back. */
  datatype TxItem = TxItem(id: string, productName: string, qty: int, price: int, subtotal: int)

  const SalesLabel := "Penjualan"
  const OperationalLabel := "Operasional"
  const CapitalLabel := "Modal"
  const OtherLabel := "Lainnya"

  /** `getCategoryLabel`: the display name of a stored category, and any
      unknown text as it is. */
  function CategoryLabel(cat: string): (r: string)
    ensures cat == "sales" ==> r == SalesLabel
    ensures cat == "operational" ==> r == OperationalLabel
    ensures cat == "capital" ==> r == CapitalLabel
    ensures cat == "other" ==> r == OtherLabel
    ensures cat !in {"sales", "operational", "capital", "other"} ==> r == cat
  {
    if cat == "sales" then SalesLabel
    else if cat == "operational" then OperationalLabel
    else if cat == "capital" then CapitalLabel
    else if cat == "other" then OtherLabel
    else cat
  }

  /** The four categories get four different labels, none of them a stored
      category name. */
  lemma CategoryLabelsDistinct(a: Category, b: Category)
    ensures CategoryLabel(CategoryName(a)) == CategoryLabel(CategoryName(b)) <==> a == b
    ensures CategoryLabel(CategoryName(a)) !in {"sales", "operational", "capital", "other"}
  {
  }

  /** Unknown text that happens to be a label reads like a known category. */
  lemma CategoryLabelNotInjective()
    ensures CategoryLabel("capital") == CategoryLabel("Modal")
  {
  }

  /** The items a receipt is printed from: the rows already loaded for the
      expanded entry when that is this entry and they are not empty, and a
      fresh read otherwise (empty when it failed or found nothing). */
  function ItemsToPrint(expandedId: Option<string>, expandedItems: seq<TxItem>, tx: Transaction, fetched: Option<seq<TxItem>>): (r: seq<TxItem>)
    ensures expandedId == Some(tx.id) && |expandedItems| > 0 ==> r == expandedItems
    ensures !(expandedId == Some(tx.id) && |expandedItems| > 0) ==>
      r == if fetched.Some? && |fetched.value| > 0 then fetched.value else []
  {
    if expandedId == Some(tx.id) && |expandedItems| > 0 then expandedItems
    else if fetched.Some? && |fetched.value| > 0 then fetched.value
    else []
  }

  /** Printing an expanded entry from its loaded rows prints exactly what a
      fresh read that found those rows would print. */
  lemma LoadedItemsAgree(expandedItems: seq<TxItem>, tx: Transaction, fetched: Option<seq<TxItem>>)
    requires |expandedItems| > 0
    ensures ItemsToPrint(Some(tx.id), expandedItems, tx, fetched) == ItemsToPrint(None, [], tx, Some(expandedItems))
  {
  }

  function FormatItem(item: TxItem): Receipt.ReceiptItem {
    Receipt.ReceiptItem(item.productName, item.qty, item.price)
  }

  /** The receipt line of each item, in order. */
  function FormatItems(items: seq<TxItem>): (r: seq<Receipt.ReceiptItem>)
    ensures |r| == |items|
    ensures forall i :: 0 <= i < |items| ==> r[i] == Receipt.ReceiptItem(items[i].productName, items[i].qty, items[i].price)
  {
    seq(|items|, i requires 0 <= i < |items| => FormatItem(items[i]))
  }

  /** The single line of a receipt for an entry without items: its
      description, or the category label when there is none. */
  function FallbackItem(tx: Transaction): Receipt.ReceiptItem {
    Receipt.ReceiptItem(if IsSet(tx.description) then tx.description.value else CategoryLabel(CategoryName(tx.category)), 1, tx.amount)
  }

  /** The receipt of a stored entry printed from `items`. */
  function BuildReceipt(tx: Transaction, items: seq<TxItem>): (r: Receipt.ReceiptData)
    ensures r.id == tx.id && r.date == tx.date && r.total == tx.amount
    ensures r.paymentAmount == tx.paymentAmount && r.changeAmount == tx.changeAmount
    ensures |items| > 0 ==> r.items == FormatItems(items)
    ensures |items| == 0 ==> r.items == [FallbackItem(tx)]
    ensures |r.items| >= 1
    ensures |items| == 0 ==> Receipt.ItemsValue(r.items) == r.total
  {
    assert Receipt.ItemsValue([FallbackItem(tx)]) == tx.amount by {
      assert [FallbackItem(tx)][..0] == [];
    }
    var formatted := FormatItems(items);
    Receipt.ReceiptData(tx.id, tx.date, tx.amount, tx.paymentAmount, tx.changeAmount,
      if |formatted| == 0 then [FallbackItem(tx)] else formatted)
  }

  /** A receipt without items has one line whose subtotal is the entry's
      amount, so its only line and its TOTAL agree. */
  lemma FallbackAddsUp(tx: Transaction)
    ensures var r := BuildReceipt(tx, []);
      |r.items| == 1 && r.items[0].qty * r.items[0].price == r.total
  {
  }

  /** The entry form's values: `amount` is the number typed, None when it
      is not a number. */
  datatype TxForm = TxForm(kind: TxType, category: Category, amount: Option<int>, description: Option<string>, date: Option<string>)

  /** The form after `reset()`: the first option of each list, nothing typed. */
  const BlankForm := TxForm(Income, Sales, None, None, None)

  /** `onPreSubmit`: the payload of a valid form, None when the amount is
      missing, not a number or not positive. `toIso` is the ISO form of a
      picked date; `now` the current time in ISO form. */
  function Validate(data: TxForm, toIso: string -> string, now: string): (r: Option<TxPayload>)
    ensures r.None? <==> data.amount.None? || data.amount.value <= 0
    ensures r.Some? ==>
      && r.value.kind == data.kind && r.value.category == data.category
      && r.value.amount == data.amount.value && r.value.amount > 0
      && r.value.description == (if data.description.Some? then data.description.value else "")
      && r.value.date == (if IsSet(data.date) then toIso(data.date.value) else now)
  {
    if data.amount.None? || data.amount.value <= 0 then None
    else Some(TxPayload(data.kind, data.category, data.amount.value,
      if IsSet(data.description) then data.description.value else "",
      if IsSet(data.date) then toIso(data.date.value) else now))
  }

  /** `handleEdit`'s `setValue` calls: the form takes the entry's type,
      category, amount and description, and the calendar day of its date
      (`dayOf`). */
  function EditForm(tx: Transaction, dayOf: string -> string): TxForm {
    TxForm(tx.kind, tx.category, Some(tx.amount), tx.description, Some(dayOf(tx.date)))
  }

  /** Editing an entry and saving without typing writes the entry back with
      its own type, category, amount and description, when its amount is
      positive; the date is written back unchanged when the picked day turns
      back into the stored date. An entry whose amount is not positive is
      refused. */
  lemma EditRoundTrip(tx: Transaction, dayOf: string -> string, toIso: string -> string, now: string)
    ensures Validate(EditForm(tx, dayOf), toIso, now).Some? <==> tx.amount > 0
    ensures tx.amount > 0 ==>
      var r := Validate(EditForm(tx, dayOf), toIso, now).value;
      && r.kind == tx.kind && r.category == tx.category && r.amount == tx.amount
      && r.description == (if tx.description.Some? then tx.description.value else "")
      && (dayOf(tx.date) != "" && toIso(dayOf(tx.date)) == tx.date ==> r.date == tx.date)
  {
  }

  /** The fields of the page, as one value. */
  datatype PageState = PageState(
    transactions: seq<Transaction>,
    isFormOpen: bool,
    expandedId: Option<string>,
    expandedItems: seq<TxItem>,
    isLoadingItems: bool,
    showReceipt: bool,
    receipt: Option<Receipt.ReceiptData>,
    editingId: Option<string>,
    printingId: Option<string>,
    confirm: ConfirmState<TxPayload>,
    form: TxForm,
    toasts: seq<Toast>)

  class Page {
    var transactions: seq<Transaction>
    var isFormOpen: bool
    var expandedId: Option<string>
    var expandedItems: seq<TxItem>
    var isLoadingItems: bool
    var showReceipt: bool
    var receipt: Option<Receipt.ReceiptData>
    var editingId: Option<string>
    var printingId: Option<string>
    var confirm: ConfirmState<TxPayload>
    var form: TxForm
    var toasts: seq<Toast>

    function State(): PageState
      reads this
    {
      PageState(transactions, isFormOpen, expandedId, expandedItems, isLoadingItems, showReceipt,
        receipt, editingId, printingId, confirm, form, toasts)
    }

    /** An entry is only ever edited in the open form. */
    ghost predicate Valid()
      reads this
    {
      editingId.Some? ==> isFormOpen
    }

    constructor ()
      ensures Valid()
      ensures State() == PageState([], false, None, [], false, false, None, None, None, InitialConfirm(), BlankForm, [])
    {
      transactions, isFormOpen, expandedId, expandedItems := [], false, None, [];
      isLoadingItems, showReceipt, receipt := false, false, None;
      editingId, printingId, confirm, form, toasts := None, None, InitialConfirm(), BlankForm, [];
    }

    /** `fetchTransactions`: the list is replaced when the read returned rows. */
    method FetchTransactions(data: Option<seq<Transaction>>)
      modifies this
      ensures State() == old(State()).(transactions := if data.Some? then data.value else old(transactions))
      ensures old(Valid()) ==> Valid()
    {
      if data.Some? {
        transactions := data.value;
      }
    }

    /** `toggleExpand`: a click on the expanded entry collapses it; a click
        on another entry expands it and loads its items, `fetched` being what
        the read returned. */
    method ToggleExpand(id: string, fetched: Option<seq<TxItem>>)
      modifies this
      ensures old(expandedId) == Some(id) ==> State() == old(State()).(expandedId := None)
      ensures old(expandedId) != Some(id) ==> State() == old(State()).(
        expandedId := Some(id),
        expandedItems := if fetched.Some? then fetched.value else [],
        isLoadingItems := false)
      ensures expandedId == Toggle(old(expandedId), id)
      ensures old(Valid()) ==> Valid()
    {
      if expandedId == Some(id) {
        expandedId := None;
      } else {
        expandedId := Some(id);
        isLoadingItems := true;
        expandedItems := [];
        if fetched.Some? {
          expandedItems := fetched.value;
        }
        isLoadingItems := false;
      }
    }

    /** `handleOpenReceipt`: the receipt of a stored entry. `fetched` is what
        the read of its items returns, when the loaded rows are not used. */
    method OpenReceipt(tx: Transaction, fetched: Option<seq<TxItem>>)
      modifies this
      ensures State() == old(State()).(
        receipt := Some(BuildReceipt(tx, ItemsToPrint(old(expandedId), old(expandedItems), tx, fetched))),
        showReceipt := true,
        printingId := None)
      ensures old(Valid()) ==> Valid()
    {
      printingId := Some(tx.id);
      var itemsToPrint: seq<TxItem> := [];
      if expandedId == Some(tx.id) && |expandedItems| > 0 {
        itemsToPrint := expandedItems;
      } else if fetched.Some? && |fetched.value| > 0 {
        itemsToPrint := fetched.value;
      }
      assert itemsToPrint == ItemsToPrint(expandedId, expandedItems, tx, fetched);
      var formatted := FormatItems(itemsToPrint);
      if |formatted| == 0 {
        formatted := formatted + [FallbackItem(tx)];
        assert formatted == [FallbackItem(tx)];
      }
      assert Receipt.ReceiptData(tx.id, tx.date, tx.amount, tx.paymentAmount, tx.changeAmount, formatted) == BuildReceipt(tx, itemsToPrint);
      receipt := Some(Receipt.ReceiptData(tx.id, tx.date, tx.amount, tx.paymentAmount, tx.changeAmount, formatted));
      showReceipt := true;
      printingId := None;
    }

    method CloseReceipt()
      modifies this
      ensures State() == old(State()).(showReceipt := false)
      ensures old(Valid()) ==> Valid()
    {
      showReceipt := false;
    }

    /** `handleEdit`: the form opens on the entry's values. `dayOf` is the
        calendar-day part of an entry's date. */
    method Edit(tx: Transaction, dayOf: string -> string)
      modifies this
      ensures State() == old(State()).(
        editingId := Some(tx.id),
        form := EditForm(tx, dayOf),
        isFormOpen := true)
      ensures Valid()
    {
      editingId := Some(tx.id);
      form := EditForm(tx, dayOf);
      isFormOpen := true;
    }

    /** `onPreSubmit`: a valid form opens the save prompt with its payload;
        an invalid amount is refused with a notice and nothing else changes. */
    method PreSubmit(data: TxForm, toIso: string -> string, now: string)
      modifies this
      ensures Validate(data, toIso, now).None? ==>
        State() == old(State()).(toasts := old(toasts) + [Toast("Mohon masukkan jumlah yang valid", Error)])
      ensures Validate(data, toIso, now).Some? ==>
        State() == old(State()).(confirm := ConfirmState(true, SaveAction(Validate(data, toIso, now))))
      ensures old(Valid()) ==> Valid()
    {
      var payload := Validate(data, toIso, now);
      if payload.None? {
        toasts := toasts + [Toast("Mohon masukkan jumlah yang valid", Error)];
        return;
      }
      confirm := ConfirmState(true, SaveAction(payload));
    }

    /** Typing into the form. */
    method SetForm(f: TxForm)
      modifies this
      ensures State() == old(State()).(form := f)
      ensures old(Valid()) ==> Valid()
    {
      form := f;
    }

    /** The submit button, `handleSubmit(onPreSubmit)`: while the amount is
        empty, its `required` rule stops the submission and nothing changes;
        otherwise `onPreSubmit` runs on the form's own values. */
    method Submit(toIso: string -> string, now: string)
      modifies this
      ensures old(form).amount.None? ==> State() == old(State())
      ensures old(form).amount.Some? && old(form).amount.value <= 0 ==>
        State() == old(State()).(toasts := old(toasts) + [Toast("Mohon masukkan jumlah yang valid", Error)])
      ensures old(form).amount.Some? && old(form).amount.value > 0 ==>
        State() == old(State()).(confirm := ConfirmState(true, SaveAction(Validate(old(form), toIso, now))))
      ensures old(Valid()) ==> Valid()
    {
      if form.amount.Some? {
        PreSubmit(form, toIso, now);
      }
    }

    /** `handleCancel`. */
    method Cancel()
      modifies this
      ensures State() == old(State()).(isFormOpen := false, editingId := None, form := BlankForm)
      ensures Valid()
    {
      isFormOpen := false;
      editingId := None;
      form := BlankForm;
    }

    /** The header button: it closes a blank form, and otherwise opens one. */
    method HeaderButton()
      modifies this
      ensures old(isFormOpen && !IsSet(editingId)) ==>
        State() == old(State()).(isFormOpen := false, editingId := None, form := BlankForm)
      ensures !old(isFormOpen && !IsSet(editingId)) ==>
        State() == old(State()).(isFormOpen := true, editingId := None, form := BlankForm)
      ensures Valid()
    {
      if isFormOpen && !IsSet(editingId) {
        Cancel();
      } else {
        isFormOpen := true;
        editingId := None;
        form := BlankForm;
      }
    }

    /** The trash button of an entry opens the delete prompt for it. */
    method RequestDelete(id: string)
      modifies this
      ensures State() == old(State()).(confirm := ConfirmState(true, DeleteAction(Some(id))))
      ensures old(Valid()) ==> Valid()
    {
      confirm := ConfirmState(true, DeleteAction(Some(id)));
    }

    /** The prompt's cancel button closes it and keeps what it carried. */
    method DismissConfirm()
      modifies this
      ensures State() == old(State()).(confirm := Dismissed(old(confirm)))
      ensures old(Valid()) ==> Valid()
    {
      confirm := Dismissed(confirm);
    }

    /** `handleConfirm`. `reply` is what the store reports for the write.
        The form is closed and reset only when a save reports no error; the
        notice tells an update from an insert by the entry being edited
        before the reset. The prompt closes whatever the outcome. */
    method Confirm(reply: Reply) returns (requests: seq<Request<TxPayload>>)
      modifies this
      ensures requests == ConfirmedRequests(old(confirm), old(editingId), reply)
      ensures old(confirm).action.SaveAction? && reply.Failed? ==>
        State() == old(State()).(
          confirm := Dismissed(old(confirm)),
          toasts := old(toasts) + [Toast("Gagal menyimpan: " + reply.message, Error)])
      ensures old(confirm).action.SaveAction? && reply.Ok? ==>
        State() == old(State()).(
          confirm := Dismissed(old(confirm)),
          isFormOpen := false,
          editingId := None,
          form := BlankForm,
          toasts := old(toasts) + [Toast(if IsSet(old(editingId)) then "Transaksi diperbarui" else "Transaksi berhasil disimpan", Success)])
      ensures old(confirm).action.DeleteAction? ==>
        State() == old(State()).(
          confirm := Dismissed(old(confirm)),
          toasts := old(toasts) + [if reply.Ok? then Toast("Transaksi berhasil dihapus", Success) else Toast("Gagal menghapus transaksi", Error)])
      ensures old(Valid()) ==> Valid()
    {
      requests := [ConfirmedWrite(confirm, editingId)];
      match confirm.action {
        case SaveAction(_) =>
          if reply.Failed? {
            toasts := toasts + [Toast("Gagal menyimpan: " + reply.message, Error)];
          } else {
            requests := requests + [Reload];
            var wasEditing := IsSet(editingId);
            isFormOpen := false;
            editingId := None;
            form := BlankForm;
            toasts := toasts + [Toast(if wasEditing then "Transaksi diperbarui" else "Transaksi berhasil disimpan", Success)];
          }
        case DeleteAction(_) =>
          if reply.Ok? {
            requests := requests + [Reload];
            toasts := toasts + [Toast("Transaksi berhasil dihapus", Success)];
          } else {
            toasts := toasts + [Toast("Gagal menghapus transaksi", Error)];
          }
      }
      confirm := Dismissed(confirm);
    }
  }
}
