/**
 * The admin product table (app/admin/products/page.js): the product form's
 * validation rules, the row of page buttons, the Previous/Next buttons, and
 * the handlers that keep the table in step after a delete, a create or an
 * edit. Requests to the server are abstract: a handler receives what the
 * server returned, or `None` when the request threw.
 */
module AdminProducts {
  import opened Wrappers
  import opened JsNumbers
  import Listing
  import opened CartContext
  import ProductsRoute

  // ---------------------------------------------------------------- form validation

  /** The image file picked in the form. */
  datatype ImageFile = ImageFile(size: int, mimeType: string)

  /**
   * The form values as the validator sees them: `None` for a value that is
   * missing, and for a number field also for one that is not a number.
   */
  datatype ProductForm = ProductForm(
    name: Option<string>,
    description: Option<string>,
    price: Option<real>,
    category: Option<string>,
    stock: Option<real>,
    image: Option<ImageFile>)

  /** The message shown under each field, if any. */
  datatype FormErrors = FormErrors(
    name: Option<string>,
    description: Option<string>,
    price: Option<string>,
    category: Option<string>,
    stock: Option<string>,
    image: Option<string>)

  const MaxImageSize: int := 2000000
  const AcceptedImageTypes: set<string> := {"image/jpeg", "image/png", "image/gif"}

  /** The rules of the form, stated directly. */
  predicate IsValidForm(form: ProductForm) {
    && form.name.Some? && form.name.value != ""
    && form.description.Some? && form.description.value != ""
    && form.category.Some? && form.category.value != ""
    && form.price.Some? && form.price.value > 0.0
    && form.stock.Some? && form.stock.value.Floor as real == form.stock.value && form.stock.value >= 1.0
    && form.image.Some? && form.image.value.size <= MaxImageSize
    && form.image.value.mimeType in AcceptedImageTypes
  }

  /** A required text field: missing or empty gives `message`. */
  function RequiredText(value: Option<string>, message: string): (r: Option<string>)
    ensures r.None? <==> value.Some? && value.value != ""
    ensures r.Some? ==> r.value == message
  {
    if value.None? || value.value == "" then Some(message) else None
  }

  /** `number().required().positive()`: the first failing test's message. */
  function PriceError(price: Option<real>): (r: Option<string>)
    ensures r.None? <==> price.Some? && price.value > 0.0
  {
    if price.None? then Some("Price is required")
    else if price.value <= 0.0 then Some("Price must be positive")
    else None
  }

  /** `number().required().integer().min(1)`: the first failing test's message. */
  function StockError(stock: Option<real>): (r: Option<string>)
    ensures r.None? <==> stock.Some? && stock.value.Floor as real == stock.value && stock.value >= 1.0
  {
    if stock.None? then Some("Stock is required")
    else if stock.value.Floor as real != stock.value then Some("Stock must be an integer")
    else if stock.value < 1.0 then Some("Stock must be at least 1")
    else None
  }

  /** `mixed().test('fileSize').test('fileType').required()`: a missing file fails only `required`. */
  function ImageError(image: Option<ImageFile>): (r: Option<string>)
    ensures r.None? <==> image.Some? && image.value.size <= MaxImageSize && image.value.mimeType in AcceptedImageTypes
    ensures image.None? ==> r == Some("Product image is required")
  {
    if image.None? then Some("Product image is required")
    else if image.value.size > MaxImageSize then Some("File size is too large")
    else if image.value.mimeType !in AcceptedImageTypes then Some("Unsupported file format")
    else None
  }

  /** The validation `schema`: the first failing rule of each field, in the order the schema lists them. */
  function Validate(form: ProductForm): (e: FormErrors)
    ensures NoErrors(e) <==> IsValidForm(form)
  {
    FormErrors(
      RequiredText(form.name, "Product name is required"),
      RequiredText(form.description, "Description is required"),
      PriceError(form.price),
      RequiredText(form.category, "Category is required"),
      StockError(form.stock),
      ImageError(form.image))
  }

  predicate NoErrors(e: FormErrors) {
    e.name.None? && e.description.None? && e.price.None?
    && e.category.None? && e.stock.None? && e.image.None?
  }

  /** Each field reports its own rule: e.g. a too large image is reported whatever the other fields hold. */
  lemma ValidateFieldMessages(form: ProductForm)
    ensures Validate(form).price == Some("Price must be positive") <==> form.price.Some? && form.price.value <= 0.0
    ensures Validate(form).stock == Some("Stock must be an integer") <==>
      form.stock.Some? && form.stock.value.Floor as real != form.stock.value
    ensures Validate(form).stock == Some("Stock must be at least 1") <==>
      form.stock.Some? && form.stock.value.Floor as real == form.stock.value && form.stock.value < 1.0
    ensures Validate(form).image == Some("File size is too large") <==>
      form.image.Some? && form.image.value.size > MaxImageSize
    ensures Validate(form).image == Some("Unsupported file format") <==>
      form.image.Some? && form.image.value.size <= MaxImageSize && form.image.value.mimeType !in AcceptedImageTypes
  {
  }

  // ---------------------------------------------------------------- pagination

  /** Products per page requested by the admin table. */
  const Limit: int := 1

  /** The query of the table's fetch: `?page=${currentPage}&limit=${limit}`. */
  function AdminQuery(currentPage: int): map<string, string> {
    map["page" := IntToString(currentPage), "limit" := IntToString(Limit)]
  }

  /** The table's query parses back to the current page and the limit of one. */
  lemma AdminQueryParams(currentPage: int)
    ensures ProductsRoute.PageParam(AdminQuery(currentPage)) == Some(currentPage)
    ensures ProductsRoute.LimitParam(AdminQuery(currentPage)) == Some(Limit)
  {
    var query := AdminQuery(currentPage);
    var page := IntToString(currentPage);
    var limit := IntToString(Limit);
    assert query["page"] == page && page != "";
    assert query["limit"] == limit && limit != "";
    ParseIntOfIntToString(currentPage);
    ParseIntOfIntToString(Limit);
  }

  /** With one product per page, page `p` shows the `p`-th product and there are as many pages as products. */
  lemma AdminListing(currentPage: int, db: ProductsRoute.Db)
    requires db.up && currentPage >= 1
    ensures var r := ProductsRoute.Get(AdminQuery(currentPage), db);
      && r.status == 200 && r.body.Page?
      && r.body.totalPages == Some(|db.rows|)
      && (currentPage <= |db.rows| ==> r.body.products == [db.rows[currentPage - 1]])
      && (currentPage > |db.rows| ==> r.body.products == [])
  {
    AdminQueryParams(currentPage);
    assert ProductsRoute.Get(AdminQuery(currentPage), db) == ProductsRoute.ListPage(currentPage, 1, db);
    OnePerPage(currentPage, db);
  }

  lemma OnePerPage(currentPage: int, db: ProductsRoute.Db)
    requires db.up && currentPage >= 1
    ensures var r := ProductsRoute.ListPage(currentPage, 1, db);
      && r.status == 200 && r.body.Page?
      && r.body.totalPages == Some(|db.rows|)
      && (currentPage <= |db.rows| ==> r.body.products == [db.rows[currentPage - 1]])
      && (currentPage > |db.rows| ==> r.body.products == [])
  {
    ProductsRoute.ListPageContents(currentPage, 1, db);
    var r := ProductsRoute.ListPage(currentPage, 1, db);
    assert ProductsRoute.CeilDiv(|db.rows|, 1) == |db.rows|;
    if currentPage <= |db.rows| {
      var found := ProductsRoute.FindMany(db.rows, currentPage - 1, 1);
      assert |found.value| == 1;
      assert r.body.products == found.value;
    }
  }

  /** One page button: its number and whether it is the highlighted (current) one. */
  datatype PageButton = PageButton(page: int, highlighted: bool)

  const MaxPagesToShow: int := 5

  /** `Math.max(1, currentPage - Math.floor(maxPagesToShow / 2))` */
  function WindowStart(currentPage: int): (start: int)
    ensures start >= 1 && start >= currentPage - MaxPagesToShow / 2
    ensures currentPage >= 1 ==> start <= currentPage
  {
    var s := currentPage - MaxPagesToShow / 2;
    if s > 1 then s else 1
  }

  /** `Math.min(totalPages, startPage + maxPagesToShow - 1)` */
  function WindowEnd(currentPage: int, totalPages: int): (end: int)
    ensures end <= totalPages && end <= WindowStart(currentPage) + MaxPagesToShow - 1
    ensures end == totalPages || end == WindowStart(currentPage) + MaxPagesToShow - 1
  {
    var e := WindowStart(currentPage) + MaxPagesToShow - 1;
    if totalPages < e then totalPages else e
  }

  /** `renderPaginationButtons()`: one button per page from the window's start to its end. */
  method RenderPaginationButtons(currentPage: int, totalPages: int) returns (pages: seq<PageButton>)
    ensures |pages| <= MaxPagesToShow
    ensures |pages| == if WindowEnd(currentPage, totalPages) >= WindowStart(currentPage)
      then WindowEnd(currentPage, totalPages) - WindowStart(currentPage) + 1 else 0
    ensures forall i :: 0 <= i < |pages| ==> pages[i].page == WindowStart(currentPage) + i
    ensures forall i :: 0 <= i < |pages| ==> 1 <= pages[i].page <= totalPages
    ensures forall i :: 0 <= i < |pages| ==> (pages[i].highlighted <==> pages[i].page == currentPage)
    ensures 1 <= currentPage <= totalPages ==>
      exists i :: 0 <= i < |pages| && pages[i].page == currentPage && pages[i].highlighted
  {
    pages := [];
    var startPage := WindowStart(currentPage);
    var endPage := WindowEnd(currentPage, totalPages);
    var i := startPage;
    while i <= endPage
      invariant startPage <= i <= (if endPage >= startPage then endPage + 1 else startPage)
      invariant |pages| == i - startPage
      invariant forall k :: 0 <= k < |pages| ==> pages[k] == PageButton(startPage + k, startPage + k == currentPage)
    {
      pages := pages + [PageButton(i, i == currentPage)];
      i := i + 1;
    }
    if 1 <= currentPage <= totalPages {
      assert pages[currentPage - startPage].page == currentPage;
    }
  }

  /** `disabled={currentPage === 1}` on Previous. */
  predicate PreviousDisabled(currentPage: int) {
    currentPage == 1
  }

  /** `disabled={currentPage === totalPages}` on Next, as written. */
  predicate NextDisabled(currentPage: int, totalPages: int) {
    currentPage == totalPages
  }

  /**
   * With an empty catalogue the table's own listing reports zero pages and
   * no products, and Next as written then stays enabled on every page,
   * including the one it leads to.
   */
  lemma NextNeverDisabledWhenEmpty(currentPage: int, db: ProductsRoute.Db)
    requires db.up && db.rows == [] && currentPage >= 1
    ensures var r := ProductsRoute.Get(AdminQuery(currentPage), db);
      && r.status == 200 && r.body.Page?
      && r.body.totalPages == Some(0)
      && r.body.products == []
      && !NextDisabled(currentPage, r.body.totalPages.value)
      && !NextDisabled(currentPage + 1, r.body.totalPages.value)
  {
    AdminListing(currentPage, db);
    var r := ProductsRoute.Get(AdminQuery(currentPage), db);
    assert forall p :: p in r.body.products ==> p in db.rows;
  }

  /** Next as intended: disabled whenever there is no later page. */
  predicate NextDisabledCorrected(currentPage: int, totalPages: int) {
    currentPage >= totalPages
  }

  /** With the corrected guard an enabled Next always leads to an existing page, and on pages within range it agrees with the code. */
  lemma NextCorrectedStaysInRange(currentPage: int, totalPages: int)
    ensures !NextDisabledCorrected(currentPage, totalPages) ==> currentPage + 1 <= totalPages
    ensures 1 <= currentPage <= totalPages ==>
      (NextDisabledCorrected(currentPage, totalPages) <==> NextDisabled(currentPage, totalPages))
  {
  }

  // ---------------------------------------------------------------- table maintenance

  /** `products.map((p) => (p.id === saved.id ? saved : p))` */
  function ReplaceById(products: seq<Product>, saved: Product): (r: seq<Product>)
    ensures |r| == |products|
    ensures forall i :: 0 <= i < |products| ==>
      r[i] == if products[i].id == saved.id then saved else products[i]
  {
    if products == [] then []
    else [if products[0].id == saved.id then saved else products[0]] + ReplaceById(products[1..], saved)
  }

  /** Replacing by id keeps the ids in place, so a table without duplicate ids stays without. */
  lemma ReplaceKeepsIds(products: seq<Product>, saved: Product)
    ensures forall i :: 0 <= i < |products| ==> ReplaceById(products, saved)[i].id == products[i].id
    ensures Listing.DistinctKeys(products, ProductsRoute.ProductId) ==>
      Listing.DistinctKeys(ReplaceById(products, saved), ProductsRoute.ProductId)
  {
    var r := ReplaceById(products, saved);
    if Listing.DistinctKeys(products, ProductsRoute.ProductId) {
      forall i, j | 0 <= i < j < |r| ensures ProductsRoute.ProductId(r[i]) != ProductsRoute.ProductId(r[j]) {
        assert r[i].id == products[i].id && r[j].id == products[j].id;
      }
    }
  }

  /** The form with no message under any field, as `reset()` leaves it. */
  const NoMessages: FormErrors := FormErrors(None, None, None, None, None, None)

  /** The form's rules are met exactly when the schema leaves every field without a message. */
  lemma ValidIsNoMessages(form: ProductForm)
    ensures IsValidForm(form) <==> Validate(form) == NoMessages
  {
  }

  /** The form's values before any `reset(values)`: nothing entered yet. */
  const BlankForm: ProductForm := ProductForm(None, None, None, None, None, None)

  /**
   * The values `reset(product)` loads into the form: the product's own
   * fields. A stored product carries `imageUrl` but no `image` file, so
   * the image value stays missing.
   */
  function EditForm(product: Product): (form: ProductForm)
    ensures form.image.None?
    ensures form.name == Some(product.name) && form.category == Some(product.category)
  {
    ProductForm(Some(product.name), Some(product.description), Some(product.price as real / 100.0),
                Some(product.category), Some(product.stock as real), None)
  }

  /** An edit form cannot be submitted before a new image file is picked. */
  lemma EditFormNeedsImage(product: Product)
    ensures Validate(EditForm(product)).image == Some("Product image is required")
    ensures !IsValidForm(EditForm(product))
  {
  }

  /**
   * Re-validation while typing after a submit attempt: each field whose
   * value changed takes the schema's message for the new values; every
   * other field keeps the message it had.
   */
  function Revalidated(errors: FormErrors, before: ProductForm, after: ProductForm): (e: FormErrors)
    ensures before == after ==> e == errors
    ensures after.name == before.name ==> e.name == errors.name
    ensures after.name != before.name ==> (e.name.None? <==> after.name.Some? && after.name.value != "")
    ensures after.description == before.description ==> e.description == errors.description
    ensures after.description != before.description ==>
      (e.description.None? <==> after.description.Some? && after.description.value != "")
    ensures after.price == before.price ==> e.price == errors.price
    ensures after.price != before.price ==> (e.price.None? <==> after.price.Some? && after.price.value > 0.0)
    ensures after.category == before.category ==> e.category == errors.category
    ensures after.category != before.category ==>
      (e.category.None? <==> after.category.Some? && after.category.value != "")
    ensures after.stock == before.stock ==> e.stock == errors.stock
    ensures after.stock != before.stock ==>
      (e.stock.None? <==> after.stock.Some? && after.stock.value.Floor as real == after.stock.value && after.stock.value >= 1.0)
    ensures after.image == before.image ==> e.image == errors.image
    ensures after.image != before.image ==>
      (e.image.None? <==> after.image.Some? && after.image.value.size <= MaxImageSize
                          && after.image.value.mimeType in AcceptedImageTypes)
  {
    var v := Validate(after);
    FormErrors(
      if after.name == before.name then errors.name else v.name,
      if after.description == before.description then errors.description else v.description,
      if after.price == before.price then errors.price else v.price,
      if after.category == before.category then errors.category else v.category,
      if after.stock == before.stock then errors.stock else v.stock,
      if after.image == before.image then errors.image else v.image)
  }

  /**
   * Submitting an empty form and then typing a name: the name's message
   * goes away while the other fields still report that they are required.
   */
  lemma TypingAfterSubmitClearsField(name: string)
    requires name != ""
    ensures var e := Revalidated(Validate(BlankForm), BlankForm, BlankForm.(name := Some(name)));
      && e.name.None?
      && e.description == Some("Description is required")
      && e.price == Some("Price is required")
      && e.image == Some("Product image is required")
  {
  }

  /**
   * The values an edit leaves as the form's defaults pass every rule but
   * the image's: a form reset to them, including the Add form opened after
   * an edit, reports only 'Product image is required'.
   */
  lemma EditDefaultsLackOnlyImage(product: Product)
    requires product.name != "" && product.description != "" && product.category != ""
    requires product.price > 0 && product.stock >= 1
    ensures Validate(EditForm(product)) == NoMessages.(image := Some("Product image is required"))
  {
    assert (product.stock as real).Floor as real == product.stock as real;
  }

  /** Every state field of the table page at one moment. */
  datatype PageState = PageState(
    products: seq<Product>,
    currentPage: int,
    totalPages: int,
    productToDelete: Option<int>,
    showDeleteModal: bool,
    isModalOpen: bool,
    isEditing: bool,
    selectedProduct: Option<Product>,
    imageBase64: Option<string>,
    form: ProductForm,
    defaults: ProductForm,
    errors: FormErrors,
    isSubmitted: bool)

  /** The table after a save: edit mode replaces by the returned id, create mode appends. */
  function Saved(products: seq<Product>, saved: Product, isEditing: bool): (r: seq<Product>)
    ensures isEditing ==> |r| == |products| && forall i :: 0 <= i < |r| ==> r[i].id == products[i].id
    ensures !isEditing ==> r == products + [saved]
  {
    if isEditing then ReplaceById(products, saved) else products + [saved]
  }

  class AdminProductsPage {
    var products: seq<Product>
    var currentPage: int
    var totalPages: int
    var productToDelete: Option<int>
    var showDeleteModal: bool
    var isModalOpen: bool
    var isEditing: bool
    var selectedProduct: Option<Product>
    var imageBase64: Option<string>
    var form: ProductForm
    var defaults: ProductForm
    var errors: FormErrors
    var isSubmitted: bool

    /** All the fields together, so that each handler can state its whole new state. */
    function State(): PageState
      reads this
    {
      PageState(products, currentPage, totalPages, productToDelete, showDeleteModal,
                isModalOpen, isEditing, selectedProduct, imageBase64, form, defaults, errors, isSubmitted)
    }

    constructor ()
      ensures State() == PageState([], 1, 1, None, false, false, false, None, None, BlankForm, BlankForm, NoMessages, false)
    {
      products := [];
      currentPage := 1;
      totalPages := 1;
      productToDelete := None;
      showDeleteModal := false;
      isModalOpen := false;
      isEditing := false;
      selectedProduct := None;
      imageBase64 := None;
      form := BlankForm;
      defaults := BlankForm;
      errors := NoMessages;
      isSubmitted := false;
    }

    /** The fetch effect's result for the current page: `setProducts`, `setTotalPages`. */
    method ProductsLoaded(page: seq<Product>, pages: int)
      modifies this
      ensures State() == old(State()).(products := page, totalPages := pages)
    {
      products := page;
      totalPages := pages;
    }

    /** `handlePageChange(page)` */
    method HandlePageChange(page: int)
      modifies this
      ensures State() == old(State()).(currentPage := page)
    {
      currentPage := page;
    }

    /** Clicking one of the rendered page buttons. */
    method ClickPageButton(page: int)
      requires WindowStart(currentPage) <= page <= WindowEnd(currentPage, totalPages)
      modifies this
      ensures State() == old(State()).(currentPage := page)
      ensures 1 <= currentPage <= totalPages
    {
      HandlePageChange(page);
    }

    /** Clicking Previous: a disabled button does nothing. */
    method ClickPrevious()
      modifies this
      ensures State() == old(State()).(currentPage :=
        if PreviousDisabled(old(currentPage)) then old(currentPage) else old(currentPage) - 1)
      ensures old(currentPage) >= 1 ==> currentPage >= 1
    {
      if !PreviousDisabled(currentPage) {
        HandlePageChange(currentPage - 1);
      }
    }

    /** Clicking Next, with the corrected guard: it never moves past the last page. */
    method ClickNext()
      modifies this
      ensures State() == old(State()).(currentPage :=
        if NextDisabledCorrected(old(currentPage), totalPages) then old(currentPage) else old(currentPage) + 1)
      ensures currentPage == old(currentPage) || currentPage == old(currentPage) + 1 <= totalPages
    {
      if !NextDisabledCorrected(currentPage, totalPages) {
        HandlePageChange(currentPage + 1);
      }
    }

    /** `confirmDeleteProduct(id)` */
    method ConfirmDeleteProduct(id: int)
      modifies this
      ensures State() == old(State()).(productToDelete := Some(id), showDeleteModal := true)
    {
      productToDelete := Some(id);
      showDeleteModal := true;
    }

    /**
     * `deleteProduct()`: once the DELETE request has completed (`sent`),
     * drop the products with the pending id, close the prompt and clear the
     * pending id; if the request threw nothing changes.
     */
    method DeleteProduct(sent: bool)
      modifies this
      ensures !sent ==> State() == old(State())
      ensures sent ==> State() == old(State()).(
        products := match old(productToDelete)
          case Some(id) => Listing.Without(old(products), ProductsRoute.ProductId, id)
          case None => old(products),
        showDeleteModal := false,
        productToDelete := None)
    {
      if !sent {
        return;
      }
      match productToDelete {
        case Some(id) => products := Listing.Without(products, ProductsRoute.ProductId, id);
        case None =>
      }
      showDeleteModal := false;
      productToDelete := None;
    }

    /**
     * `reset()`: the values go back to the form's defaults (those of the
     * last `reset(values)`), and the messages and the submitted flag clear.
     */
    method Reset()
      modifies this
      ensures State() == old(State()).(form := old(defaults), errors := NoMessages, isSubmitted := false)
    {
      form := defaults;
      errors := NoMessages;
      isSubmitted := false;
    }

    /** `toggleModal()`: flip the form, drop the selection and the image, and `reset()` the form. */
    method ToggleModal()
      modifies this
      ensures State() == old(State()).(isModalOpen := !old(isModalOpen), imageBase64 := None,
                                       selectedProduct := None, form := old(defaults),
                                       errors := NoMessages, isSubmitted := false)
    {
      isModalOpen := !isModalOpen;
      imageBase64 := None;
      selectedProduct := None;
      Reset();
    }

    /** "Add New Product": leave edit mode and toggle the form. */
    method OpenAddForm()
      modifies this
      ensures State() == old(State()).(isEditing := false, isModalOpen := !old(isModalOpen),
                                       imageBase64 := None, selectedProduct := None, form := old(defaults),
                                       errors := NoMessages, isSubmitted := false)
    {
      isEditing := false;
      ToggleModal();
    }

    /** `handleEditClick(product)`: edit mode, the product selected and its image shown, the form `reset(product)` and opened. */
    method HandleEditClick(product: Product)
      modifies this
      ensures State() == old(State()).(isEditing := true, selectedProduct := Some(product),
                                       imageBase64 := Some(product.imageUrl), form := EditForm(product),
                                       defaults := EditForm(product), errors := NoMessages,
                                       isSubmitted := false, isModalOpen := true)
      ensures Validate(form).image == Some("Product image is required")
    {
      isEditing := true;
      selectedProduct := Some(product);
      imageBase64 := Some(product.imageUrl);
      defaults := EditForm(product);
      Reset();
      isModalOpen := true;
    }

    /**
     * Typing into the registered inputs: every field but the image takes the
     * entered value. Once a submit has been attempted, each changed field is
     * validated again and its message replaced.
     */
    method EnterValues(values: ProductForm)
      modifies this
      ensures !old(isSubmitted) ==> State() == old(State()).(form := values.(image := old(form).image))
      ensures old(isSubmitted) ==> State() == old(State()).(
        form := values.(image := old(form).image),
        errors := Revalidated(old(errors), old(form), values.(image := old(form).image)))
    {
      var before := form;
      form := values.(image := form.image);
      if isSubmitted {
        errors := Revalidated(errors, before, form);
      }
    }

    /**
     * `handleImageChange(e)`: a picked file becomes the form's image and its
     * data URL (what the file reader yields) the preview; no file changes
     * nothing.
     */
    method HandleImageChange(file: Option<ImageFile>, dataUrl: string)
      modifies this
      ensures file.None? ==> State() == old(State())
      ensures file.Some? ==> State() == old(State()).(imageBase64 := Some(dataUrl),
                                                      form := old(form).(image := file))
    {
      if file.Some? {
        imageBase64 := Some(dataUrl);
        form := form.(image := file);
      }
    }

    /**
     * `onSubmit(data)` after the request: `saved` is the product the server
     * returned, `None` if the request threw (reading the selection's id in
     * edit mode without a selection throws too). The table takes the saved
     * product, then the form is toggled and reset.
     */
    method OnSubmit(saved: Option<Product>)
      modifies this
      ensures saved.None? || (old(isEditing) && old(selectedProduct).None?) ==> State() == old(State())
      ensures saved.Some? && !(old(isEditing) && old(selectedProduct).None?) ==>
        State() == old(State()).(products := Saved(old(products), saved.value, old(isEditing)),
                                 isModalOpen := !old(isModalOpen), imageBase64 := None,
                                 selectedProduct := None, form := old(defaults),
                                 errors := NoMessages, isSubmitted := false)
    {
      if saved.None? || (isEditing && selectedProduct.None?) {
        return;
      }
      products := Saved(products, saved.value, isEditing);
      ToggleModal();
      Reset();
    }

    /**
     * `handleSubmit(onSubmit)`: mark the form submitted, validate its values,
     * show the messages, and submit only a valid form.
     */
    method HandleSubmit(saved: Option<Product>)
      modifies this
      ensures !IsValidForm(old(form)) ==>
        State() == old(State()).(errors := Validate(old(form)), isSubmitted := true)
      ensures IsValidForm(old(form)) && (saved.None? || (old(isEditing) && old(selectedProduct).None?)) ==>
        State() == old(State()).(errors := NoMessages, isSubmitted := true)
      ensures IsValidForm(old(form)) && saved.Some? && !(old(isEditing) && old(selectedProduct).None?) ==>
        State() == old(State()).(products := Saved(old(products), saved.value, old(isEditing)),
                                 isModalOpen := !old(isModalOpen), imageBase64 := None,
                                 selectedProduct := None, form := old(defaults),
                                 errors := NoMessages, isSubmitted := false)
    {
      isSubmitted := true;
      errors := Validate(form);
      ValidIsNoMessages(form);
      if errors == NoMessages {
        OnSubmit(saved);
      }
    }
  }
}
