/** The notes page: the note form, its title check, and the page's
    open/edit/confirm controller. */
module NotesPage {
  import opened Records
  import Text

  /** The two fields of the note form. */
  datatype NoteForm = NoteForm(title: string, content: string)

  const BlankNote := NoteForm("", "")

  /** A title is refused when it trims to nothing. */
  predicate TitleMissing(f: NoteForm) {
    Text.Trim(f.title) == ""
  }

  /** The title check refuses exactly the titles made only of white space
      (the empty title included). */
  lemma TitleMissingIffBlank(f: NoteForm)
    ensures TitleMissing(f) <==> Text.AllSpace(f.title)
  {
    Text.TrimEmptyIffBlank(f.title);
  }

  /** The fields of the page, as one value. */
  datatype PageState = PageState(
    notes: seq<Note>,
    form: NoteForm,
    isFormOpen: bool,
    editingId: Option<string>,
    expandedId: Option<string>,
    confirm: ConfirmState<NoteForm>,
    toasts: seq<Toast>)

  class Page {
    var notes: seq<Note>
    var form: NoteForm
    var isFormOpen: bool
    var editingId: Option<string>
    var expandedId: Option<string>
    var confirm: ConfirmState<NoteForm>
    var toasts: seq<Toast>

    function State(): PageState
      reads this
    {
      PageState(notes, form, isFormOpen, editingId, expandedId, confirm, toasts)
    }

    /** A note is only ever edited in the open form. */
    ghost predicate Valid()
      reads this
    {
      editingId.Some? ==> isFormOpen
    }

    constructor ()
      ensures Valid()
      ensures State() == PageState([], BlankNote, false, None, None, InitialConfirm(), [])
    {
      notes, form, isFormOpen, editingId := [], BlankNote, false, None;
      expandedId, confirm, toasts := None, InitialConfirm(), [];
    }

    /** `fetchNotes`: the list is replaced when the read returned rows. */
    method FetchNotes(data: Option<seq<Note>>)
      modifies this
      ensures State() == old(State()).(notes := if data.Some? then data.value else old(notes))
      ensures old(Valid()) ==> Valid()
    {
      if data.Some? {
        notes := data.value;
      }
    }

    /** Typing into the title field. */
    method SetTitle(title: string)
      modifies this
      ensures State() == old(State()).(form := old(form).(title := title))
      ensures old(Valid()) ==> Valid()
    {
      form := form.(title := title);
    }

    /** Typing into the content field. */
    method SetContent(content: string)
      modifies this
      ensures State() == old(State()).(form := old(form).(content := content))
      ensures old(Valid()) ==> Valid()
    {
      form := form.(content := content);
    }

    /** `handleEdit`: the form opens on the note's title and content. */
    method Edit(n: Note)
      modifies this
      ensures State() == old(State()).(editingId := Some(n.id), form := NoteForm(n.title, n.content), isFormOpen := true)
      ensures Valid()
    {
      editingId := Some(n.id);
      form := NoteForm(n.title, n.content);
      isFormOpen := true;
    }

    /** `handleSave`: a blank title is refused with a notice; otherwise the
        save prompt opens carrying the form as it is. */
    method Save()
      modifies this
      ensures Text.AllSpace(old(form).title) ==>
        State() == old(State()).(toasts := old(toasts) + [Toast("Judul catatan tidak boleh kosong", Error)])
      ensures !Text.AllSpace(old(form).title) ==>
        State() == old(State()).(confirm := ConfirmState(true, SaveAction(Some(old(form)))))
      ensures old(Valid()) ==> Valid()
    {
      TitleMissingIffBlank(form);
      if Text.Trim(form.title) == "" {
        toasts := toasts + [Toast("Judul catatan tidak boleh kosong", Error)];
        return;
      }
      confirm := ConfirmState(true, SaveAction(Some(form)));
    }

    /** `handleCancel`: the form closes and empties. */
    method Cancel()
      modifies this
      ensures State() == old(State()).(isFormOpen := false, editingId := None, form := BlankNote)
      ensures Valid()
    {
      isFormOpen := false;
      editingId := None;
      form := BlankNote;
    }

    /** `handleConfirm`. `reply` is what the store reports for the write.
        A save without error resets the form through `Cancel`; a failed one
        leaves the form as it was. The prompt closes whatever the outcome. */
    method Confirm(reply: Reply) returns (requests: seq<Request<NoteForm>>)
      modifies this
      ensures requests == ConfirmedRequests(old(confirm), old(editingId), reply)
      ensures old(confirm).action.SaveAction? && reply.Failed? ==>
        State() == old(State()).(
          confirm := Dismissed(old(confirm)),
          toasts := old(toasts) + [Toast("Gagal menyimpan catatan", Error)])
      ensures old(confirm).action.SaveAction? && reply.Ok? ==>
        State() == old(State()).(
          confirm := Dismissed(old(confirm)),
          isFormOpen := false,
          editingId := None,
          form := BlankNote,
          toasts := old(toasts) + [Toast(if IsSet(old(editingId)) then "Catatan berhasil diperbarui" else "Catatan berhasil dibuat", Success)])
      ensures old(confirm).action.DeleteAction? ==>
        State() == old(State()).(
          confirm := Dismissed(old(confirm)),
          toasts := old(toasts) + [if reply.Ok? then Toast("Catatan berhasil dihapus", Success) else Toast("Gagal menghapus catatan", Error)])
      ensures old(Valid()) ==> Valid()
    {
      requests := [ConfirmedWrite(confirm, editingId)];
      match confirm.action {
        case SaveAction(_) =>
          if reply.Ok? {
            var wasEditing := IsSet(editingId);
            Cancel();
            requests := requests + [Reload];
            toasts := toasts + [Toast(if wasEditing then "Catatan berhasil diperbarui" else "Catatan berhasil dibuat", Success)];
          } else {
            toasts := toasts + [Toast("Gagal menyimpan catatan", Error)];
          }
        case DeleteAction(_) =>
          if reply.Ok? {
            requests := requests + [Reload];
            toasts := toasts + [Toast("Catatan berhasil dihapus", Success)];
          } else {
            toasts := toasts + [Toast("Gagal menghapus catatan", Error)];
          }
      }
      confirm := Dismissed(confirm);
    }

    /** `toggleExpand`. */
    method ToggleExpand(id: string)
      modifies this
      ensures State() == old(State()).(expandedId := Toggle(old(expandedId), id))
      ensures old(Valid()) ==> Valid()
    {
      expandedId := Toggle(expandedId, id);
    }

    /** The header button: it closes a blank form, and otherwise opens one. */
    method HeaderButton()
      modifies this
      ensures old(isFormOpen && !IsSet(editingId)) ==>
        State() == old(State()).(isFormOpen := false, editingId := None, form := BlankNote)
      ensures !old(isFormOpen && !IsSet(editingId)) ==>
        State() == old(State()).(isFormOpen := true, editingId := None, form := BlankNote)
      ensures Valid()
    {
      if isFormOpen && !IsSet(editingId) {
        Cancel();
      } else {
        isFormOpen := true;
        editingId := None;
        form := BlankNote;
      }
    }

    /** The trash button of a note opens the delete prompt for it. */
    method RequestDelete(id: string)
      modifies this
      ensures State() == old(State()).(confirm := ConfirmState(true, DeleteAction(Some(id))))
      ensures old(Valid()) ==> Valid()
    {
      confirm := ConfirmState(true, DeleteAction(Some(id)));
    }

    /** The prompt's cancel button. */
    method DismissConfirm()
      modifies this
      ensures State() == old(State()).(confirm := Dismissed(old(confirm)))
      ensures old(Valid()) ==> Valid()
    {
      confirm := Dismissed(confirm);
    }
  }
}
