/** The stand-alone book editor dialog (src/components/admin/AdminBookForm.tsx):
    its fields start from the book being edited, or empty for a new book, and
    submitting sends them as a multipart form to `create` or `update`. */
module AdminBookForm {
  import opened Common
  import opened Api

  /** The text inputs of a book form, as the user typed them. */
  datatype BookFields = BookFields(title: string, author: string, price: string, quantity: string,
                                   description: string, tags: string)

  const TagSeparator: string := ", "

  /** The initial field values: the book's own values, numbers in decimal, the
      tags joined by ", "; every field empty for a new book. */
  function InitialFields(book: Option<Book>): (f: BookFields)
    ensures book.None? ==> f == BookFields("", "", "", "", "", "")
    ensures book.Some? ==>
              f.title == book.value.title && f.author == book.value.author
              && f.description == book.value.description
              && f.price == NumText(book.value.price) && f.price != ""
              && (book.value.quantity.Some? ==> f.quantity == NumText(book.value.quantity.value))
              && (book.value.quantity.None? ==> f.quantity == "")
              && f.tags == Join(book.value.tags, TagSeparator)
  {
    match book
    case None => BookFields("", "", "", "", "", "")
    case Some(b) =>
      BookFields(OrElse(b.title, ""), OrElse(b.author, ""), OrElse(NumText(b.price), ""),
                 if b.quantity.Some? then OrElse(NumText(b.quantity.value), "") else "",
                 OrElse(b.description, ""), OrElse(Join(b.tags, TagSeparator), ""))
  }

  const TitleAuthorRequired: string := "Title and author are required"

  /** Title and author must contain something besides whitespace; nothing else is checked. */
  function SubmitError(f: BookFields): (r: Option<string>)
    ensures r.None? <==> !IsBlank(f.title) && !IsBlank(f.author)
    ensures r.Some? ==> r.value == TitleAuthorRequired
  {
    if Trim(f.title) == "" || Trim(f.author) == "" then Some(TitleAuthorRequired) else None
  }

  /** The text entries in the order the dialog appends them; an empty price
      or quantity is sent as "0". */
  function TextEntries(f: BookFields): seq<FormEntry>
  {
    [FormEntry("title", TextValue(f.title)),
     FormEntry("author", TextValue(f.author)),
     FormEntry("price", TextValue(OrElse(f.price, "0"))),
     FormEntry("quantity", TextValue(OrElse(f.quantity, "0"))),
     FormEntry("description", TextValue(f.description)),
     FormEntry("tags", TextValue(f.tags))]
  }

  /** The picked image, appended last when there is one. */
  function ImageEntries(image: Option<ImageFile>): seq<FormEntry>
  {
    if image.Some? then [FormEntry("image", FileValue(image.value))] else []
  }

  function FormEntries(f: BookFields, image: Option<ImageFile>): seq<FormEntry>
  {
    TextEntries(f) + ImageEntries(image)
  }

  lemma TitleAuthorRead(f: BookFields)
    ensures FormGet(TextEntries(f), "title") == Some(TextValue(f.title))
    ensures FormGet(TextEntries(f), "author") == Some(TextValue(f.author))
  {
    FormGetAt(TextEntries(f), 0, "title");
    FormGetAt(TextEntries(f), 1, "author");
  }

  lemma PriceQuantityRead(f: BookFields)
    ensures FormGet(TextEntries(f), "price") == Some(TextValue(OrElse(f.price, "0")))
    ensures FormGet(TextEntries(f), "quantity") == Some(TextValue(OrElse(f.quantity, "0")))
  {
    FormGetAt(TextEntries(f), 2, "price");
    FormGetAt(TextEntries(f), 3, "quantity");
  }

  lemma DescriptionTagsRead(f: BookFields)
    ensures FormGet(TextEntries(f), "description") == Some(TextValue(f.description))
    ensures FormGet(TextEntries(f), "tags") == Some(TextValue(f.tags))
  {
    FormGetAt(TextEntries(f), 4, "description");
    FormGetAt(TextEntries(f), 5, "tags");
  }

  lemma NoImageAmongText(f: BookFields)
    ensures FormGet(TextEntries(f), "image") == None
  {
  }

  /** What the server reads back from the form: every field as typed, numbers
      defaulted to "0", and an image exactly when one was picked. */
  lemma FormEntriesRead(f: BookFields, image: Option<ImageFile>)
    ensures FormGet(FormEntries(f, image), "title") == Some(TextValue(f.title))
    ensures FormGet(FormEntries(f, image), "author") == Some(TextValue(f.author))
    ensures FormGet(FormEntries(f, image), "price") == Some(TextValue(OrElse(f.price, "0")))
    ensures FormGet(FormEntries(f, image), "quantity") == Some(TextValue(OrElse(f.quantity, "0")))
    ensures FormGet(FormEntries(f, image), "description") == Some(TextValue(f.description))
    ensures FormGet(FormEntries(f, image), "tags") == Some(TextValue(f.tags))
    ensures FormGet(FormEntries(f, image), "image") == if image.Some? then Some(FileValue(image.value)) else None
  {
    var head, tail := TextEntries(f), ImageEntries(image);
    TitleAuthorRead(f);
    PriceQuantityRead(f);
    DescriptionTagsRead(f);
    NoImageAmongText(f);
    FormGetAppend(head, tail, "title");
    FormGetAppend(head, tail, "author");
    FormGetAppend(head, tail, "price");
    FormGetAppend(head, tail, "quantity");
    FormGetAppend(head, tail, "description");
    FormGetAppend(head, tail, "tags");
    FormGetAppend(head, tail, "image");
  }

  /** Saving an existing book without touching the form sends its own title,
      author, description, price and tags back; a book without a stock figure
      comes back with quantity "0". */
  lemma UneditedFormResendsBook(b: Book)
    ensures var form := FormEntries(InitialFields(Some(b)), None);
      FormGet(form, "title") == Some(TextValue(b.title))
      && FormGet(form, "price") == Some(TextValue(NumText(b.price)))
      && FormGet(form, "quantity") == Some(TextValue(if b.quantity.Some? then NumText(b.quantity.value) else "0"))
      && FormGet(form, "tags") == Some(TextValue(Join(b.tags, TagSeparator)))
  {
    FormEntriesRead(InitialFields(Some(b)), None);
  }

  /** The body of a successful save reply: whether it holds `data`, and its `message`. */
  datatype SaveReply = SaveReply(hasData: bool, message: string)

  /** What the dialog reports after a submit. */
  datatype Outcome =
    | Rejected(reason: string)
    | Saved
    | NotSaved(message: string)
    | SaveError

  class BookDialog {
    const book: Option<Book>
    var fields: BookFields
    var image: Option<ImageFile>
    var isLoading: bool

    /** Opening the dialog for `book` (None: a new book). */
    constructor (book: Option<Book>)
      ensures this.book == book && fields == InitialFields(book) && image == None && !isLoading
    {
      this.book := book;
      fields := InitialFields(book);
      image := None;
      isLoading := false;
    }

    /** The inputs' change handlers and the file picker. */
    method Edit(f: BookFields, picked: Option<ImageFile>)
      modifies this
      ensures fields == f && image == picked && isLoading == old(isLoading)
    {
      fields, image := f, picked;
    }

    /** The sequence of `append` calls of `handleSubmit`. */
    method BuildFormData() returns (fd: FormData)
      ensures fresh(fd) && fd.entries == FormEntries(fields, image)
    {
      fd := new FormData();
      fd.Append("title", TextValue(fields.title));
      fd.Append("author", TextValue(fields.author));
      fd.Append("price", TextValue(OrElse(fields.price, "0")));
      fd.Append("quantity", TextValue(OrElse(fields.quantity, "0")));
      fd.Append("description", TextValue(fields.description));
      fd.Append("tags", TextValue(fields.tags));
      if image.Some? {
        fd.Append("image", FileValue(image.value));
      }
    }

    /** `handleSubmit`, with the reply of the save request. A blank title or
        author sends nothing. Otherwise the form goes to `update` for an
        existing book and to `create` for a new one; `onSave` runs only when
        the reply holds data. */
    method HandleSubmit(saved: Response<SaveReply>) returns (call: Option<BookCall>, outcome: Outcome)
      requires !isLoading
      modifies this
      ensures fields == old(fields) && image == old(image) && !isLoading
      ensures call.None? <==> SubmitError(fields).Some?
      ensures call.None? ==> outcome == Rejected(TitleAuthorRequired)
      ensures call.Some? && book.Some? ==> call.value == UpdateBook(book.value.id, FormEntries(fields, image))
      ensures call.Some? && book.None? ==> call.value == CreateBook(FormEntries(fields, image))
      ensures call.Some? ==> (outcome == Saved <==> saved.Ok? && saved.data.hasData)
      ensures call.Some? && saved.Ok? && !saved.data.hasData ==> outcome == NotSaved(saved.data.message)
      ensures call.Some? && saved.Failed? ==> outcome == SaveError
    {
      if Trim(fields.title) == "" || Trim(fields.author) == "" {
        return None, Rejected(TitleAuthorRequired);
      }
      isLoading := true;
      var fd := BuildFormData();
      if book.Some? {
        call := Some(UpdateBook(book.value.id, fd.entries));
      } else {
        call := Some(CreateBook(fd.entries));
      }
      if saved.Failed? {
        outcome := SaveError;
      } else if saved.data.hasData {
        outcome := Saved;
      } else {
        outcome := NotSaved(saved.data.message);
      }
      isLoading := false;
    }
  }
}
