/** The back-office catalogue page (src/pages/admin/AdminBooks.tsx): the book
    list with its search box, the create/edit dialog with its own form state,
    and the delete confirmation. Reloads that a handler starts without waiting
    for them are reported as `reloadStarted`; their result is a later
    `LoadBooks` call. */
module AdminBooks {
  import opened Common
  import opened Api
  import AdminBookForm

  type BookFields = AdminBookForm.BookFields

  /** The form of the create dialog. */
  const EmptyFields: BookFields := AdminBookForm.BookFields("", "", "", "", "", "")

  /** The form of the edit dialog for `b`: its values, numbers in decimal, a
      missing stock figure as "", the tags joined by ", ". */
  function EditFields(b: Book): (f: BookFields)
    ensures f.title == b.title && f.author == b.author && f.description == b.description
    ensures f.price == NumText(b.price)
    ensures f.quantity == if b.quantity.Some? then NumText(b.quantity.value) else ""
    ensures f.tags == Join(b.tags, AdminBookForm.TagSeparator)
  {
    AdminBookForm.BookFields(b.title, b.author, NumText(b.price),
      if b.quantity.Some? then OrElse(NumText(b.quantity.value), "") else "",
      b.description, Join(b.tags, AdminBookForm.TagSeparator))
  }

  /** This page's dialogs start from the same values as the stand-alone book form. */
  lemma DialogsAgreeWithBookForm(b: Book)
    ensures EditFields(b) == AdminBookForm.InitialFields(Some(b))
    ensures EmptyFields == AdminBookForm.InitialFields(None)
  {
  }

  /** `Object.entries(formData)`: the form's keys in the order its state object declares them. */
  function FieldPairs(f: BookFields): seq<(string, string)>
  {
    [("title", f.title), ("author", f.author), ("description", f.description),
     ("price", f.price), ("quantity", f.quantity), ("tags", f.tags)]
  }

  function AsEntries(pairs: seq<(string, string)>): (r: seq<FormEntry>)
    ensures |r| == |pairs|
    ensures forall i :: 0 <= i < |pairs| ==> r[i] == FormEntry(pairs[i].0, TextValue(pairs[i].1))
  {
    seq(|pairs|, i requires 0 <= i < |pairs| => FormEntry(pairs[i].0, TextValue(pairs[i].1)))
  }

  /** The multipart body of the dialog: every field as typed (an empty price or
      quantity stays empty), then the image when one was picked. */
  function DialogEntries(f: BookFields, image: Option<ImageFile>): seq<FormEntry>
  {
    AsEntries(FieldPairs(f)) + AdminBookForm.ImageEntries(image)
  }

  lemma NumbersSentAsTyped(f: BookFields, image: Option<ImageFile>)
    ensures FormGet(DialogEntries(f, image), "price") == Some(TextValue(f.price))
    ensures FormGet(DialogEntries(f, image), "quantity") == Some(TextValue(f.quantity))
  {
    var head := AsEntries(FieldPairs(f));
    FormGetAt(head, 3, "price");
    FormGetAt(head, 4, "quantity");
    FormGetAppend(head, AdminBookForm.ImageEntries(image), "price");
    FormGetAppend(head, AdminBookForm.ImageEntries(image), "quantity");
  }

  lemma TextFieldsSentAsTyped(f: BookFields, image: Option<ImageFile>)
    ensures FormGet(DialogEntries(f, image), "title") == Some(TextValue(f.title))
    ensures FormGet(DialogEntries(f, image), "author") == Some(TextValue(f.author))
    ensures FormGet(DialogEntries(f, image), "description") == Some(TextValue(f.description))
    ensures FormGet(DialogEntries(f, image), "tags") == Some(TextValue(f.tags))
  {
    var head := AsEntries(FieldPairs(f));
    FormGetAt(head, 0, "title");
    FormGetAt(head, 1, "author");
    FormGetAt(head, 2, "description");
    FormGetAt(head, 5, "tags");
    FormGetAppend(head, AdminBookForm.ImageEntries(image), "title");
    FormGetAppend(head, AdminBookForm.ImageEntries(image), "author");
    FormGetAppend(head, AdminBookForm.ImageEntries(image), "description");
    FormGetAppend(head, AdminBookForm.ImageEntries(image), "tags");
  }

  lemma ImageSentWhenPicked(f: BookFields, image: Option<ImageFile>)
    ensures FormGet(DialogEntries(f, image), "image") == if image.Some? then Some(FileValue(image.value)) else None
  {
    var head := AsEntries(FieldPairs(f));
    FormGetAppend(head, AdminBookForm.ImageEntries(image), "image");
  }

  /** Saving an edited book without touching the form: the price goes back in
      decimal, but a book without a stock figure is sent an empty quantity,
      where the stand-alone book form would send "0". */
  lemma UneditedDialogQuantity(b: Book)
    ensures FormGet(DialogEntries(EditFields(b), None), "price") == Some(TextValue(NumText(b.price)))
    ensures b.quantity.None? ==>
              FormGet(DialogEntries(EditFields(b), None), "quantity") == Some(TextValue(""))
              && FormGet(AdminBookForm.FormEntries(AdminBookForm.InitialFields(Some(b)), None), "quantity") == Some(TextValue("0"))
  {
    NumbersSentAsTyped(EditFields(b), None);
    AdminBookForm.PriceQuantityRead(AdminBookForm.InitialFields(Some(b)));
    AdminBookForm.FormEntriesRead(AdminBookForm.InitialFields(Some(b)), None);
  }

  /** `if (!deleteBookId) return`: the id to delete, unless none is pending or it is empty. */
  function DeleteTarget(pending: Option<string>): (r: Option<string>)
    ensures r.Some? <==> pending.Some? && pending.value != ""
    ensures r.Some? ==> r == pending
  {
    if pending.Some? && pending.value != "" then pending else None
  }

  /** Which request `handleSearch` makes. */
  datatype SearchRequest = ReloadAll | SearchFor(query: string)

  const LoadFailed: string := "Failed to load books"
  const SearchFailed: string := "Search failed"
  const SaveFailed: string := "Failed to save book"
  const DeleteFailed: string := "Delete failed"

  /** The state of the create/edit dialog. */
  datatype Dialog = Dialog(isOpen: bool, editing: Option<Book>, form: BookFields, image: Option<ImageFile>)

  class AdminBooksPage {
    var books: seq<Book>
    var isLoading: bool
    var searchQuery: string
    var isDialogOpen: bool
    var editingBook: Option<Book>
    var deleteBookId: Option<string>
    var isSaving: bool
    var formData: BookFields
    var imageFile: Option<ImageFile>

    function DialogState(): Dialog
      reads this
    {
      Dialog(isDialogOpen, editingBook, formData, imageFile)
    }

    constructor ()
      ensures books == [] && isLoading && searchQuery == "" && deleteBookId == None && !isSaving
      ensures DialogState() == Dialog(false, None, EmptyFields, None)
    {
      books, isLoading, searchQuery := [], true, "";
      isDialogOpen, editingBook, deleteBookId, isSaving := false, None, None, false;
      formData, imageFile := EmptyFields, None;
    }

    /** `loadBooks` with the reply of `getAll`: a reply replaces the list (a
        missing list reads as empty), a failure keeps it; loading ends either way. */
    method LoadBooks(reply: Response<Option<seq<Book>>>) returns (error: Option<string>)
      modifies this
      ensures !isLoading
      ensures reply.Ok? ==> books == OrEmpty(reply.data) && error == None
      ensures reply.Failed? ==> books == old(books) && error == Some(LoadFailed)
      ensures searchQuery == old(searchQuery) && deleteBookId == old(deleteBookId) && isSaving == old(isSaving)
      ensures DialogState() == old(DialogState())
    {
      error := None;
      if reply.Ok? {
        books := OrEmpty(reply.data);
      } else {
        error := Some(LoadFailed);
      }
      isLoading := false;
    }

    /** `handleSearch(query)`, with the reply of whichever request it makes. A
        blank query reloads the whole catalogue; any other is sent as typed,
        untrimmed. */
    method HandleSearch(query: string, reply: Response<Option<seq<Book>>>)
      returns (request: SearchRequest, error: Option<string>)
      modifies this
      ensures searchQuery == query
      ensures request == if IsBlank(query) then ReloadAll else SearchFor(query)
      ensures reply.Ok? ==> books == OrEmpty(reply.data) && error == None
      ensures reply.Failed? ==> books == old(books)
      ensures reply.Failed? && IsBlank(query) ==> error == Some(LoadFailed)
      ensures reply.Failed? && !IsBlank(query) ==> error == Some(SearchFailed)
      ensures isLoading == (old(isLoading) && !IsBlank(query))
      ensures deleteBookId == old(deleteBookId) && isSaving == old(isSaving)
      ensures DialogState() == old(DialogState())
    {
      searchQuery := query;
      if Trim(query) == "" {
        request := ReloadAll;
        error := LoadBooks(reply);
        return;
      }
      request := SearchFor(query);
      error := None;
      if reply.Ok? {
        books := OrEmpty(reply.data);
      } else {
        error := Some(SearchFailed);
      }
    }

    /** `openCreateDialog`: an empty form for a new book. */
    method OpenCreateDialog()
      modifies this
      ensures DialogState() == Dialog(true, None, EmptyFields, None)
      ensures books == old(books) && deleteBookId == old(deleteBookId) && isSaving == old(isSaving)
      ensures isLoading == old(isLoading) && searchQuery == old(searchQuery)
    {
      editingBook := None;
      formData := EmptyFields;
      imageFile := None;
      isDialogOpen := true;
    }

    /** `openEditDialog(book)`: the form filled from `book`, no new image. */
    method OpenEditDialog(book: Book)
      modifies this
      ensures DialogState() == Dialog(true, Some(book), EditFields(book), None)
      ensures books == old(books) && deleteBookId == old(deleteBookId) && isSaving == old(isSaving)
      ensures isLoading == old(isLoading) && searchQuery == old(searchQuery)
    {
      editingBook := Some(book);
      formData := EditFields(book);
      imageFile := None;
      isDialogOpen := true;
    }

    /** The dialog's inputs and file picker. */
    method EditForm(f: BookFields, picked: Option<ImageFile>)
      modifies this
      ensures DialogState() == old(DialogState()).(form := f, image := picked)
      ensures books == old(books) && deleteBookId == old(deleteBookId) && isSaving == old(isSaving)
      ensures isLoading == old(isLoading) && searchQuery == old(searchQuery)
    {
      formData, imageFile := f, picked;
    }

    /** The dialog's `onOpenChange` and its cancel button. */
    method SetDialogOpen(open: bool)
      modifies this
      ensures DialogState() == old(DialogState()).(isOpen := open)
      ensures books == old(books) && deleteBookId == old(deleteBookId) && isSaving == old(isSaving)
      ensures isLoading == old(isLoading) && searchQuery == old(searchQuery)
    {
      isDialogOpen := open;
    }

    /** The `forEach` that appends every form field, then the image. */
    method BuildFormData() returns (fd: FormData)
      ensures fresh(fd) && fd.entries == DialogEntries(formData, imageFile)
    {
      fd := new FormData();
      var pairs := FieldPairs(formData);
      var i := 0;
      while i < |pairs|
        invariant 0 <= i <= |pairs|
        invariant fd.entries == AsEntries(pairs[..i])
      {
        assert AsEntries(pairs[..i + 1]) == AsEntries(pairs[..i]) + [FormEntry(pairs[i].0, TextValue(pairs[i].1))];
        fd.Append(pairs[i].0, TextValue(pairs[i].1));
        i := i + 1;
      }
      assert pairs[..i] == pairs;
      if imageFile.Some? {
        fd.Append("image", FileValue(imageFile.value));
      }
    }

    /** `handleSubmit`, with the reply of the save request. The form goes to
        `update` when a book is being edited and to `create` otherwise; a
        success closes the dialog and starts a reload, a failure leaves the
        dialog open. */
    method HandleSubmit(saved: Response<()>) returns (call: BookCall, reloadStarted: bool, error: Option<string>)
      requires !isSaving
      modifies this
      ensures call == if old(editingBook).Some?
                      then UpdateBook(old(editingBook).value.id, DialogEntries(old(formData), old(imageFile)))
                      else CreateBook(DialogEntries(old(formData), old(imageFile)))
      ensures saved.Ok? ==>
                reloadStarted && error == None && DialogState() == old(DialogState()).(isOpen := false)
      ensures saved.Failed? ==>
                !reloadStarted && error == Some(SaveFailed) && DialogState() == old(DialogState())
      ensures !isSaving && books == old(books) && deleteBookId == old(deleteBookId)
      ensures isLoading == old(isLoading) && searchQuery == old(searchQuery)
    {
      isSaving := true;
      var fd := BuildFormData();
      if editingBook.Some? {
        call := UpdateBook(editingBook.value.id, fd.entries);
      } else {
        call := CreateBook(fd.entries);
      }
      if saved.Ok? {
        isDialogOpen := false;
        reloadStarted, error := true, None;
      } else {
        reloadStarted, error := false, Some(SaveFailed);
      }
      isSaving := false;
    }

    /** The trash button of a row: ask to confirm deleting `id`. */
    method RequestDelete(id: string)
      modifies this
      ensures deleteBookId == Some(id)
      ensures books == old(books) && DialogState() == old(DialogState()) && isSaving == old(isSaving)
      ensures isLoading == old(isLoading) && searchQuery == old(searchQuery)
    {
      deleteBookId := Some(id);
    }

    /** Dismissing the confirmation. */
    method CancelDelete()
      modifies this
      ensures deleteBookId == None
      ensures books == old(books) && DialogState() == old(DialogState()) && isSaving == old(isSaving)
      ensures isLoading == old(isLoading) && searchQuery == old(searchQuery)
    {
      deleteBookId := None;
    }

    /** `handleDelete`, with the reply of the delete request. Without a pending
        (non-empty) id nothing is sent; a success clears the confirmation and
        starts a reload, a failure keeps the confirmation. */
    method HandleDelete(reply: Response<()>) returns (call: Option<string>, reloadStarted: bool, error: Option<string>)
      modifies this
      ensures call == DeleteTarget(old(deleteBookId))
      ensures call.None? ==> !reloadStarted && error == None && deleteBookId == old(deleteBookId)
      ensures call.Some? && reply.Ok? ==> reloadStarted && error == None && deleteBookId == None
      ensures call.Some? && reply.Failed? ==>
                !reloadStarted && error == Some(DeleteFailed) && deleteBookId == old(deleteBookId)
      ensures books == old(books) && DialogState() == old(DialogState()) && isSaving == old(isSaving)
      ensures isLoading == old(isLoading) && searchQuery == old(searchQuery)
    {
      call := DeleteTarget(deleteBookId);
      reloadStarted, error := false, None;
      if call.None? {
        return;
      }
      if reply.Ok? {
        deleteBookId := None;
        reloadStarted := true;
      } else {
        error := Some(DeleteFailed);
      }
    }
  }
}
