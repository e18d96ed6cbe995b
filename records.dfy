/** Records kept in the remote store, the replies the store gives, and the small
    pieces of page state (notifications, confirmation prompts, expanded rows)
    that every page of the app shares. */
module Records {

  datatype Option<T> = None | Some(value: T)

  /** A catalog entry (a row of `products`). */
  datatype Product = Product(
    id: string,
    name: string,
    sku: Option<string>,
    buyPrice: int,
    sellPrice: int,
    stock: int,
    createdAt: string)

  datatype TxType = Income | Expense

  datatype Category = Sales | Capital | Operational | Other

  /** The store's spelling of a category. */
  function CategoryName(c: Category): (r: string)
    ensures r in {"sales", "capital", "operational", "other"}
  {
    match c
    case Sales => "sales"
    case Capital => "capital"
    case Operational => "operational"
    case Other => "other"
  }

  /** A ledger entry (a row of `transactions`). */
  datatype Transaction = Transaction(
    id: string,
    kind: TxType,
    category: Category,
    amount: int,
    paymentAmount: Option<int>,
    changeAmount: Option<int>,
    description: Option<string>,
    date: string,
    createdAt: string)

  /** The fields of a ledger entry a page writes (the store fills the rest). */
  datatype TxPayload = TxPayload(kind: TxType, category: Category, amount: int, description: string, date: string)

  /** A free-text note (a row of `notes`). */
  datatype Note = Note(id: string, title: string, content: string, isPinned: bool, createdAt: string)

  /** What a single write to the store reports: no error, or an error message. */
  datatype Reply = Ok | Failed(message: string)

  datatype ToastKind = Success | Error

  /** A transient notification shown to the user. */
  datatype Toast = Toast(message: string, kind: ToastKind)

  /** JavaScript truthiness of an optional string: absent and "" are both false. */
  predicate IsSet(s: Option<string>) {
    s.Some? && s.value != ""
  }

  /** What a confirmation prompt will do when confirmed: save a payload, or
      delete a row by id. */
  datatype Action<P> = SaveAction(payload: Option<P>) | DeleteAction(target: Option<string>)

  datatype ConfirmState<P> = ConfirmState(isOpen: bool, action: Action<P>)

  /** The prompt every page starts with: closed, of the save kind, with no data. */
  function InitialConfirm<P>(): ConfirmState<P> {
    ConfirmState(false, SaveAction(None))
  }

  /** Closing a prompt keeps its action and data. */
  function Dismissed<P>(c: ConfirmState<P>): (r: ConfirmState<P>)
    ensures !r.isOpen && r.action == c.action
  {
    c.(isOpen := false)
  }

  /** Dismissing is final and loses nothing: a second dismissal changes
      nothing, and a prompt reopened later still issues the write it would
      have issued before. */
  lemma DismissKeepsWrite<P>(c: ConfirmState<P>, editingId: Option<string>)
    ensures Dismissed(Dismissed(c)) == Dismissed(c)
    ensures ConfirmedWrite(Dismissed(c).(isOpen := true), editingId) == ConfirmedWrite(c, editingId)
  {
  }

  /** A request a page issues to the store for one table. */
  datatype Request<P> =
    | InsertRow(payload: Option<P>)
    | UpdateRow(id: string, payload: Option<P>)
    | DeleteRow(target: Option<string>)
    | Reload

  /** The write a confirmed prompt issues: a save updates the row being
      edited when there is one and inserts otherwise; a delete removes its
      target. */
  function ConfirmedWrite<P>(c: ConfirmState<P>, editingId: Option<string>): (r: Request<P>)
    ensures c.action.SaveAction? && IsSet(editingId) ==> r == UpdateRow(editingId.value, c.action.payload)
    ensures c.action.SaveAction? && !IsSet(editingId) ==> r == InsertRow(c.action.payload)
    ensures c.action.DeleteAction? ==> r == DeleteRow(c.action.target)
  {
    match c.action
    case SaveAction(p) => if IsSet(editingId) then UpdateRow(editingId.value, p) else InsertRow(p)
    case DeleteAction(t) => DeleteRow(t)
  }

  /** The requests a confirmed prompt leads to: the write, then a re-read of
      the table when the write reported no error. */
  function ConfirmedRequests<P>(c: ConfirmState<P>, editingId: Option<string>, reply: Reply): (r: seq<Request<P>>)
    ensures |r| == if reply.Ok? then 2 else 1
    ensures r[0] == ConfirmedWrite(c, editingId)
    ensures reply.Ok? ==> r[1] == Reload
  {
    [ConfirmedWrite(c, editingId)] + (if reply.Ok? then [Reload] else [])
  }

  /** What a confirmation leads to, in terms of the three kinds of write:
      the table is re-read exactly when the store reported no error, the
      re-read never comes first, an update happens exactly for a save while
      a row is being edited, an insert exactly for a save with nothing being
      edited, and a delete exactly for a delete prompt. */
  lemma ConfirmOutcome<P>(c: ConfirmState<P>, editingId: Option<string>, reply: Reply)
    ensures var r := ConfirmedRequests(c, editingId, reply);
      && (Reload in r <==> reply.Ok?)
      && r[0] != Reload
      && (r[0].UpdateRow? <==> c.action.SaveAction? && IsSet(editingId))
      && (r[0].InsertRow? <==> c.action.SaveAction? && !IsSet(editingId))
      && (r[0].DeleteRow? <==> c.action.DeleteAction?)
      && (forall k :: 1 <= k < |r| ==> r[k] == Reload)
  {
  }

  /** The expanded row after a click on row `id`: the expanded row collapses,
      any other row expands. */
  function Toggle(current: Option<string>, id: string): (r: Option<string>)
    ensures r == None <==> current == Some(id)
    ensures r != None ==> r == Some(id)
  {
    if current == Some(id) then None else Some(id)
  }

  /** Clicking the same row twice restores the state, when nothing or that
      row was expanded before. */
  lemma ToggleTwice(current: Option<string>, id: string)
    requires current == None || current == Some(id)
    ensures Toggle(Toggle(current, id), id) == current
  {
  }

  /** When another row was expanded, two clicks collapse everything instead. */
  lemma ToggleTwiceFromOther(other: string, id: string)
    requires other != id
    ensures Toggle(Toggle(Some(other), id), id) == None
  {
  }
}
