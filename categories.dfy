/** The category screen: a local copy of the server's category list, the
    add/edit dialog with its draft, the delete confirmation, a page-level
    error and a loading flag.

    Every backend round trip is an input to the handler that awaits it (a
    `Response`): the list changes only when the response is a success. Each
    handler is given as a function on a snapshot of the page's state
    (`PageState`); the class `CategoryPage` holds that state in fields and
    its methods are proved against those functions.
 */
module Categories {

  import opened Rules

  datatype Category = Category(id: int, name: string, description: string)

  /** The draft the dialog is reset to. */
  const EmptyDraft := Category(0, "", "")

  /** The outcome of a request: a success carrying the parsed body, a response
      whose status is not OK (the handler throws its own message), or an error
      thrown on the way (network failure, unparsable body) with its message. */
  datatype Response<T> = Ok(payload: T) | NotOk | Threw(message: string)

  // ---------------------------------------------------------------------
  // The list operations

  /** How many entries carry the id. */
  function Count(cs: seq<Category>, id: int): (n: nat)
    ensures n <= |cs|
    ensures n == 0 <==> forall i :: 0 <= i < |cs| ==> cs[i].id != id
  {
    if cs == [] then 0 else (if cs[0].id == id then 1 else 0) + Count(cs[1..], id)
  }

  /** `a` is `b` with some entries left out, the rest kept in order. */
  ghost predicate IsSubsequence(a: seq<Category>, b: seq<Category>)
    decreases |b|
  {
    a == [] || (b != [] && ((a[0] == b[0] && IsSubsequence(a[1..], b[1..])) || IsSubsequence(a, b[1..])))
  }

  /** `categories.filter(c => c.id !== id)`. */
  function RemoveById(cs: seq<Category>, id: int): (r: seq<Category>)
    ensures |r| == |cs| - Count(cs, id)
    ensures forall c :: multiset(r)[c] == if c.id == id then 0 else multiset(cs)[c]
    ensures IsSubsequence(r, cs)
  {
    if cs == [] then []
    else
      assert cs == [cs[0]] + cs[1..];
      var rest := RemoveById(cs[1..], id);
      if cs[0].id == id then
        assert rest == [] || IsSubsequence(rest, cs[1..]);
        rest
      else
        assert ([cs[0]] + rest)[1..] == rest;
        [cs[0]] + rest
  }

  /** `categories.map(c => c.id === id ? replacement : c)`. */
  function ReplaceById(cs: seq<Category>, id: int, replacement: Category): (r: seq<Category>)
    ensures |r| == |cs|
    ensures forall i :: 0 <= i < |cs| ==> r[i] == if cs[i].id == id then replacement else cs[i]
  {
    if cs == [] then []
    else [if cs[0].id == id then replacement else cs[0]] + ReplaceById(cs[1..], id, replacement)
  }

  /** No two entries share an id. */
  predicate UniqueIds(cs: seq<Category>) {
    forall i, j :: 0 <= i < j < |cs| ==> cs[i].id != cs[j].id
  }

  /** With unique ids, a present id occurs exactly once, so deleting it removes
      exactly one entry. */
  lemma {:induction false} CountUnique(cs: seq<Category>, id: int)
    requires UniqueIds(cs)
    ensures Count(cs, id) <= 1
  {
    if cs != [] {
      assert UniqueIds(cs[1..]) by {
        forall i, j | 0 <= i < j < |cs[1..]| ensures cs[1..][i].id != cs[1..][j].id {
          assert cs[1..][i] == cs[i + 1] && cs[1..][j] == cs[j + 1];
        }
      }
      CountUnique(cs[1..], id);
      if cs[0].id == id {
        forall i | 0 <= i < |cs[1..]| ensures cs[1..][i].id != id {
          assert cs[1..][i] == cs[i + 1];
        }
      }
    }
  }

  /** Leaving entries out keeps ids unique. */
  lemma {:induction false} SubsequenceKeepsUniqueIds(a: seq<Category>, b: seq<Category>)
    requires IsSubsequence(a, b) && UniqueIds(b)
    ensures UniqueIds(a)
    ensures forall i :: 0 <= i < |a| ==> a[i] in b
    decreases |b|
  {
    if a != [] {
      var tail := b[1..];
      assert UniqueIds(tail) by {
        forall i, j | 0 <= i < j < |tail| ensures tail[i].id != tail[j].id {
          assert tail[i] == b[i + 1] && tail[j] == b[j + 1];
        }
      }
      if a[0] == b[0] && IsSubsequence(a[1..], tail) {
        SubsequenceKeepsUniqueIds(a[1..], tail);
        forall i, j | 0 <= i < j < |a| ensures a[i].id != a[j].id {
          assert a[j] == a[1..][j - 1];
          var k :| 0 <= k < |tail| && tail[k] == a[j];
          assert b[k + 1] == a[j];
          if i == 0 {
            assert a[i] == b[0];
          } else {
            assert a[i] == a[1..][i - 1];
          }
        }
        forall i | 0 <= i < |a| ensures a[i] in b {
          if i > 0 { assert a[i] == a[1..][i - 1]; }
        }
      } else {
        SubsequenceKeepsUniqueIds(a, tail);
      }
    }
  }

  /** Replacing entries by one that carries the same id keeps every position's id. */
  lemma ReplaceKeepsIds(cs: seq<Category>, id: int, replacement: Category)
    requires replacement.id == id
    ensures forall i :: 0 <= i < |cs| ==> ReplaceById(cs, id, replacement)[i].id == cs[i].id
    ensures UniqueIds(cs) ==> UniqueIds(ReplaceById(cs, id, replacement))
  {
  }

  /** Appending keeps ids unique exactly when the new id is not already there. */
  lemma AppendUniqueIds(cs: seq<Category>, c: Category)
    ensures UniqueIds(cs + [c]) <==> UniqueIds(cs) && forall i :: 0 <= i < |cs| ==> cs[i].id != c.id
  {
    var r := cs + [c];
    if UniqueIds(r) {
      forall i | 0 <= i < |cs| ensures cs[i].id != c.id {
        assert r[i] == cs[i] && r[|cs|] == c;
      }
      forall i, j | 0 <= i < j < |cs| ensures cs[i].id != cs[j].id {
        assert r[i] == cs[i] && r[j] == cs[j];
      }
    }
  }

  // ---------------------------------------------------------------------
  // The handlers, on a snapshot of the page state

  datatype PageState = PageState(
    categories: seq<Category>,
    loading: bool,
    error: Option<string>,
    open: bool,
    editCategory: Option<Category>,
    newCategory: Category,
    confirmDeleteOpen: bool,
    categoryToDelete: Option<Category>)

  const InitialState := PageState([], true, None, false, None, EmptyDraft, false, None)

  /** The page error after a round trip: unchanged on success, otherwise the
      handler's own message (status not OK) or the thrown one. Nothing ever
      clears it. */
  function ErrorAfter<T>(previous: Option<string>, r: Response<T>, notOkMessage: string): (e: Option<string>)
    ensures r.Ok? ==> e == previous
    ensures r.NotOk? ==> e == Some(notOkMessage)
    ensures r.Threw? ==> e == Some(r.message)
  {
    match r
    case Ok(_) => previous
    case NotOk => Some(notOkMessage)
    case Threw(m) => Some(m)
  }

  /** `fetchCategories`: the list is replaced on success; loading ends either way. */
  function Fetched(s: PageState, r: Response<seq<Category>>): PageState
  {
    s.(categories := if r.Ok? then r.payload else s.categories,
       error := ErrorAfter(s.error, r, "Failed to fetch categories"),
       loading := false)
  }

  /** `handleDelete`: remember the category and open the confirmation. */
  function DeleteRequested(s: PageState, c: Category): PageState
  {
    s.(categoryToDelete := Some(c), confirmDeleteOpen := true)
  }

  /** `confirmDelete`: nothing without a category to delete; on success the
      entries with its id are dropped and the confirmation closes (the
      remembered category is kept). */
  function DeleteConfirmed(s: PageState, r: Response<()>): PageState
  {
    match s.categoryToDelete
    case None => s
    case Some(target) =>
      if r.Ok? then s.(categories := RemoveById(s.categories, target.id), confirmDeleteOpen := false)
      else s.(error := ErrorAfter(s.error, r, "Failed to delete category"))
  }

  /** The confirmation's Cancel button and its backdrop. */
  function DeleteCancelled(s: PageState): PageState
  {
    s.(confirmDeleteOpen := false)
  }

  /** `handleEdit`: the category becomes both the one under edit and the draft, and the dialog opens. */
  function EditStarted(s: PageState, c: Category): PageState
  {
    s.(editCategory := Some(c), newCategory := c, open := true)
  }

  /** The Add Category button: opens the dialog and leaves the draft as it is. */
  function AddStarted(s: PageState): PageState
  {
    s.(open := true)
  }

  /** Typing in the dialog's Name and Description fields. */
  function NameTyped(s: PageState, name: string): PageState
  {
    s.(newCategory := s.newCategory.(name := name))
  }

  function DescriptionTyped(s: PageState, description: string): PageState
  {
    s.(newCategory := s.newCategory.(description := description))
  }

  /** `handleUpdate`: nothing without a category under edit; on success every
      entry with its id is replaced by the draft, the dialog closes and the
      draft and the edit are cleared. The response body is not read. */
  function Updated(s: PageState, r: Response<()>): PageState
  {
    match s.editCategory
    case None => s
    case Some(target) =>
      if r.Ok? then
        s.(categories := ReplaceById(s.categories, target.id, s.newCategory),
           open := false, newCategory := EmptyDraft, editCategory := None)
      else s.(error := ErrorAfter(s.error, r, "Failed to update category"))
  }

  /** `handleAdd`: on success the record the server returns is appended, the
      dialog closes and the draft is reset. */
  function Added(s: PageState, r: Response<Category>): PageState
  {
    if r.Ok? then s.(categories := s.categories + [r.payload], open := false, newCategory := EmptyDraft)
    else s.(error := ErrorAfter(s.error, r, "Failed to add category"))
  }

  /** `handleClose`: the dialog closes, and the edit and the draft are cleared. */
  function Closed(s: PageState): PageState
  {
    s.(open := false, editCategory := None, newCategory := EmptyDraft)
  }

  /** The dialog's primary button updates while a category is under edit and
      adds otherwise. The dispatch matters: a successful add resets the draft
      but leaves `editCategory` as it is. */
  function PrimaryPressed(s: PageState, r: Response<Category>): PageState
  {
    if s.editCategory.Some? then Updated(s, Acknowledged(r)) else Added(s, r)
  }

  /** The update request's outcome without its body, which the page does not read. */
  function Acknowledged(r: Response<Category>): (a: Response<()>)
    ensures a.Ok? <==> r.Ok?
    ensures r.NotOk? ==> a.NotOk?
    ensures r.Threw? ==> a == Threw(r.message)
  {
    match r
    case Ok(_) => Ok(())
    case NotOk => NotOk
    case Threw(m) => Threw(m)
  }

  /** Everything that can happen on the page. */
  datatype Event =
    | FetchDone(fetched: Response<seq<Category>>)
    | ClickDelete(toDelete: Category)
    | ConfirmDeleteDone(deleted: Response<()>)
    | CancelDelete
    | ClickEdit(toEdit: Category)
    | ClickAdd
    | TypeName(name: string)
    | TypeDescription(description: string)
    | PrimaryDone(saved: Response<Category>)
    | Close

  function Step(s: PageState, e: Event): PageState
  {
    match e
    case FetchDone(r) => Fetched(s, r)
    case ClickDelete(c) => DeleteRequested(s, c)
    case ConfirmDeleteDone(r) => DeleteConfirmed(s, r)
    case CancelDelete => DeleteCancelled(s)
    case ClickEdit(c) => EditStarted(s, c)
    case ClickAdd => AddStarted(s)
    case TypeName(n) => NameTyped(s, n)
    case TypeDescription(d) => DescriptionTyped(s, d)
    case PrimaryDone(r) => PrimaryPressed(s, r)
    case Close => Closed(s)
  }

  // ---------------------------------------------------------------------
  // What the handlers promise

  /** A confirmed delete drops every entry with the target's id and keeps the
      others, in order; a failed one keeps the list and the confirmation and
      sets the error; without a target nothing happens. */
  lemma DeleteOutcome(s: PageState, r: Response<()>)
    ensures s.categoryToDelete.None? ==> DeleteConfirmed(s, r) == s
    ensures s.categoryToDelete.Some? && r.Ok? ==>
      var t := DeleteConfirmed(s, r); var id := s.categoryToDelete.value.id;
      && |t.categories| == |s.categories| - Count(s.categories, id)
      && (forall i :: 0 <= i < |t.categories| ==> t.categories[i].id != id)
      && (forall c: Category :: c.id != id ==> multiset(t.categories)[c] == multiset(s.categories)[c])
      && IsSubsequence(t.categories, s.categories)
      && !t.confirmDeleteOpen
    ensures s.categoryToDelete.Some? && !r.Ok? ==>
      var t := DeleteConfirmed(s, r);
      t.categories == s.categories && t.confirmDeleteOpen == s.confirmDeleteOpen && t.error.Some?
  {
    if s.categoryToDelete.Some? && r.Ok? {
      var t := DeleteConfirmed(s, r);
      var id := s.categoryToDelete.value.id;
      forall i | 0 <= i < |t.categories| ensures t.categories[i].id != id {
        assert t.categories[i] in multiset(t.categories);
      }
    }
  }

  /** With unique ids, deleting a present id removes exactly one entry. */
  lemma DeleteRemovesOne(s: PageState, r: Response<()>)
    requires s.categoryToDelete.Some? && r.Ok? && UniqueIds(s.categories)
    requires exists i :: 0 <= i < |s.categories| && s.categories[i].id == s.categoryToDelete.value.id
    ensures |DeleteConfirmed(s, r).categories| == |s.categories| - 1
  {
    CountUnique(s.categories, s.categoryToDelete.value.id);
  }

  /** A successful update replaces exactly the entries with the edited id by
      the draft, keeps the length, closes the dialog and resets the draft. */
  lemma UpdateOutcome(s: PageState, r: Response<()>)
    ensures s.editCategory.None? ==> Updated(s, r) == s
    ensures s.editCategory.Some? && r.Ok? ==>
      var t := Updated(s, r); var id := s.editCategory.value.id;
      && |t.categories| == |s.categories|
      && (forall i :: 0 <= i < |s.categories| && s.categories[i].id == id ==> t.categories[i] == s.newCategory)
      && (forall i :: 0 <= i < |s.categories| && s.categories[i].id != id ==> t.categories[i] == s.categories[i])
      && !t.open && t.newCategory == EmptyDraft && t.editCategory.None?
    ensures s.editCategory.Some? && !r.Ok? ==>
      var t := Updated(s, r);
      t == s.(error := t.error) && t.error.Some?
  {
  }

  /** A successful add puts the server's record last and grows the list by one;
      a failed one changes only the error. */
  lemma AddOutcome(s: PageState, r: Response<Category>)
    ensures r.Ok? ==>
      var t := Added(s, r);
      && |t.categories| == |s.categories| + 1
      && t.categories[|s.categories|] == r.payload
      && t.categories[..|s.categories|] == s.categories
      && !t.open && t.newCategory == EmptyDraft
    ensures !r.Ok? ==> Added(s, r) == s.(error := Added(s, r).error) && Added(s, r).error.Some?
  {
  }

  /** Opening a category for edit and closing the dialog leaves the list as it
      was and the dialog state as after a close. */
  lemma EditThenCloseKeepsList(s: PageState, c: Category)
    ensures Closed(EditStarted(s, c)).categories == s.categories
    ensures Closed(EditStarted(s, c)) == Closed(s)
  {
  }

  /** The error, once set, is never set back to nothing. (What is shown depends
      on its message too: see `AlertStays`.) */
  lemma ErrorIsNeverCleared(s: PageState, e: Event)
    requires s.error.Some?
    ensures Step(s, e).error.Some?
  {
  }

  /** The list changes only on a successful round trip. */
  lemma ListChangesOnlyOnSuccess(s: PageState, e: Event)
    requires Step(s, e).categories != s.categories
    ensures || (e.FetchDone? && e.fetched.Ok?)
            || (e.ConfirmDeleteDone? && e.deleted.Ok?)
            || (e.PrimaryDone? && e.saved.Ok?)
  {
  }

  /** While a category is under edit the draft keeps its id: it starts as a copy
      and the dialog edits only the name and the description. */
  ghost predicate DraftTracksEdit(s: PageState) {
    s.editCategory.Some? ==> s.newCategory.id == s.editCategory.value.id
  }

  lemma DraftTracksEditPreserved(s: PageState, e: Event)
    requires DraftTracksEdit(s)
    ensures DraftTracksEdit(Step(s, e))
  {
  }

  /** Ids stay unique on the page as long as the server sends a list with unique
      ids and gives each added record an id not already shown. */
  lemma UniqueIdsPreserved(s: PageState, e: Event)
    requires UniqueIds(s.categories) && DraftTracksEdit(s)
    requires e.FetchDone? && e.fetched.Ok? ==> UniqueIds(e.fetched.payload)
    requires e.PrimaryDone? && e.saved.Ok? && s.editCategory.None? ==>
      forall i :: 0 <= i < |s.categories| ==> s.categories[i].id != e.saved.payload.id
    ensures UniqueIds(Step(s, e).categories)
  {
    match e
    case ConfirmDeleteDone(r) =>
      if s.categoryToDelete.Some? && r.Ok? {
        SubsequenceKeepsUniqueIds(RemoveById(s.categories, s.categoryToDelete.value.id), s.categories);
      }
    case PrimaryDone(r) =>
      if s.editCategory.Some? {
        ReplaceKeepsIds(s.categories, s.editCategory.value.id, s.newCategory);
      } else if r.Ok? {
        AppendUniqueIds(s.categories, r.payload);
      }
    case _ =>
  }

  /** The page tests the error for truthiness: an error with an empty message
      is set but shows nothing. */
  predicate ShowsError(error: Option<string>) {
    error.Some? && error.value != ""
  }

  /** What is on screen: a spinner while loading, then the error alone if
      there is one to show, otherwise the list with its dialogs. */
  datatype View =
    | Spinner
    | ErrorAlert(message: string)
    | ListView(items: seq<Category>, dialogOpen: bool, dialogTitle: string, confirmDeleteOpen: bool)

  function Render(s: PageState): (v: View)
    ensures s.loading <==> v == Spinner
    ensures v.ErrorAlert? <==> !s.loading && ShowsError(s.error)
    ensures v.ErrorAlert? ==> s.error == Some(v.message)
    ensures v.ListView? <==> !s.loading && !ShowsError(s.error)
    ensures v.ListView? ==>
      && v.items == s.categories
      && v.dialogOpen == s.open
      && v.confirmDeleteOpen == s.confirmDeleteOpen
      && v.dialogTitle == (if s.editCategory.Some? then "Edit Category" else "Add Category")
  {
    if s.loading then Spinner
    else if ShowsError(s.error) then ErrorAlert(s.error.value)
    else ListView(s.categories, s.open, if s.editCategory.Some? then "Edit Category" else "Add Category", s.confirmDeleteOpen)
  }

  /** A request that fails by throwing an error with an empty message. */
  predicate ThrowsEmptyMessage(e: Event) {
    || (e.FetchDone? && e.fetched == Threw(""))
    || (e.ConfirmDeleteDone? && e.deleted == Threw(""))
    || (e.PrimaryDone? && e.saved == Threw(""))
  }

  /** Once the alert is shown, it stays through every event except a request
      that throws an empty message. */
  lemma AlertStays(s: PageState, e: Event)
    requires Render(s).ErrorAlert?
    requires !ThrowsEmptyMessage(e)
    ensures Render(Step(s, e)).ErrorAlert?
  {
  }

  /** A fetch that throws an empty message leaves an error set and the list on
      screen, even over an alert shown before. */
  lemma EmptyThrowShowsList(s: PageState)
    ensures Fetched(s, Threw("")).error == Some("")
    ensures Render(Fetched(s, Threw(""))) == ListView(s.categories, s.open,
      if s.editCategory.Some? then "Edit Category" else "Add Category", s.confirmDeleteOpen)
  {
  }

  // ---------------------------------------------------------------------
  // The component

  class CategoryPage {
    var categories: seq<Category>
    var loading: bool
    var error: Option<string>
    var open: bool
    var editCategory: Option<Category>
    var newCategory: Category
    var confirmDeleteOpen: bool
    var categoryToDelete: Option<Category>

    function Snapshot(): PageState
      reads this
    {
      PageState(categories, loading, error, open, editCategory, newCategory, confirmDeleteOpen, categoryToDelete)
    }

    constructor ()
      ensures Snapshot() == InitialState
    {
      categories := [];
      loading := true;
      error := None;
      open := false;
      editCategory := None;
      newCategory := EmptyDraft;
      confirmDeleteOpen := false;
      categoryToDelete := None;
    }

    method FetchCategories(r: Response<seq<Category>>)
      modifies this
      ensures Snapshot() == Fetched(old(Snapshot()), r)
    {
      if r.Ok? {
        categories := r.payload;
      } else {
        error := ErrorAfter(error, r, "Failed to fetch categories");
      }
      loading := false;
    }

    method HandleDelete(c: Category)
      modifies this
      ensures Snapshot() == DeleteRequested(old(Snapshot()), c)
    {
      categoryToDelete := Some(c);
      confirmDeleteOpen := true;
    }

    method ConfirmDelete(r: Response<()>)
      modifies this
      ensures Snapshot() == DeleteConfirmed(old(Snapshot()), r)
    {
      if categoryToDelete.None? {
        return;
      }
      if r.Ok? {
        categories := RemoveById(categories, categoryToDelete.value.id);
        confirmDeleteOpen := false;
      } else {
        error := ErrorAfter(error, r, "Failed to delete category");
      }
    }

    method CancelDelete()
      modifies this
      ensures Snapshot() == DeleteCancelled(old(Snapshot()))
    {
      confirmDeleteOpen := false;
    }

    method HandleEdit(c: Category)
      modifies this
      ensures Snapshot() == EditStarted(old(Snapshot()), c)
    {
      editCategory := Some(c);
      newCategory := c;
      open := true;
    }

    method OpenAdd()
      modifies this
      ensures Snapshot() == AddStarted(old(Snapshot()))
    {
      open := true;
    }

    method ChangeName(name: string)
      modifies this
      ensures Snapshot() == NameTyped(old(Snapshot()), name)
    {
      newCategory := newCategory.(name := name);
    }

    method ChangeDescription(description: string)
      modifies this
      ensures Snapshot() == DescriptionTyped(old(Snapshot()), description)
    {
      newCategory := newCategory.(description := description);
    }

    method HandleUpdate(r: Response<()>)
      modifies this
      ensures Snapshot() == Updated(old(Snapshot()), r)
    {
      if editCategory.None? {
        return;
      }
      if r.Ok? {
        categories := ReplaceById(categories, editCategory.value.id, newCategory);
        open := false;
        newCategory := EmptyDraft;
        editCategory := None;
      } else {
        error := ErrorAfter(error, r, "Failed to update category");
      }
    }

    method HandleAdd(r: Response<Category>)
      modifies this
      ensures Snapshot() == Added(old(Snapshot()), r)
    {
      if r.Ok? {
        categories := categories + [r.payload];
        open := false;
        newCategory := EmptyDraft;
      } else {
        error := ErrorAfter(error, r, "Failed to add category");
      }
    }

    method HandleClose()
      modifies this
      ensures Snapshot() == Closed(old(Snapshot()))
    {
      open := false;
      editCategory := None;
      newCategory := EmptyDraft;
    }

    /** The dialog's primary button. */
    method PressPrimary(r: Response<Category>)
      modifies this
      ensures Snapshot() == PrimaryPressed(old(Snapshot()), r)
    {
      if editCategory.Some? {
        HandleUpdate(Acknowledged(r));
      } else {
        HandleAdd(r);
      }
    }
  }

  /** Opening a category for edit and cancelling leaves the list untouched. */
  method EditThenCancel(page: CategoryPage, c: Category)
    modifies page
    ensures page.categories == old(page.categories)
    ensures page.editCategory.None? && page.newCategory == EmptyDraft && !page.open
  {
    page.HandleEdit(c);
    page.HandleClose();
  }
}
