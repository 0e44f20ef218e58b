/**
  The administration page: the product form held as text fields, the product being
  edited, the chosen image file, and the handlers that fill, submit and reset them.
  The parent's add and update callbacks are not called here: submitting returns the
  call the page makes (`AdminCall`). What the upload callback does, the preview URL
  the browser makes for a chosen file and `parseFloat` are parameters.
*/
module Admin {
  import opened Wrappers
  import opened Catalog

  /** The form state. Every field is the text typed, except the in-stock switch. */
  datatype AdminForm = AdminForm(
    name: string,
    description: string,
    price: string,
    image: string,
    category: string,
    rating: string,
    inStock: bool)

  /** The empty form, used at start and after submit or cancel. */
  const DefaultForm: AdminForm := AdminForm("", "", "", "", "", "4.5", true)

  /** The product fields sent to the backend. */
  datatype ProductData = ProductData(
    name: string,
    description: string,
    price: int,
    image_url: string,
    category: string,
    in_stock: bool)

  /** The one call a submit makes to the page that owns the product list. */
  datatype AdminCall = AddCall(data: ProductData) | UpdateCall(id: string, data: ProductData)

  /** `in_stock ?? true`: only a missing value defaults; false stays false. */
  function StockOrTrue(v: Option<bool>): (r: bool)
    ensures v.None? ==> r
    ensures v.Some? ==> r == v.value
  {
    v.GetOr(true)
  }

  /** `convertToUIProduct`: a backend row as the product card shows it. */
  function ConvertToUIProduct(p: DbProduct): (r: Product)
    ensures r.id == p.id && r.name == p.name && r.price == p.price
    ensures r.description == (if p.description.Some? then p.description.value else "")
    ensures r.image == (if p.image_url.Some? then p.image_url.value else "")
    ensures r.category == (if p.category.Some? then p.category.value else "")
    ensures r.inStock == (p.in_stock != Some(false))
    ensures r.sizes.None? && r.collection.None? && r.selectedSize.None?
  {
    Product(p.id, p.name, TextOrEmpty(p.description), p.price, TextOrEmpty(p.image_url),
            TextOrEmpty(p.category), None, None, StockOrTrue(p.in_stock), None)
  }

  /** The form `handleEdit` fills from a row; the price is its decimal text. */
  function EditForm(p: DbProduct): AdminForm
  {
    AdminForm(p.name, TextOrEmpty(p.description), IntToString(p.price), TextOrEmpty(p.image_url),
              TextOrEmpty(p.category), "4.5", StockOrTrue(p.in_stock))
  }

  /**
    The image a submit sends: the form's image, replaced by the upload's URL when a
    file was chosen and the upload gave a non-empty one.
  */
  function SubmittedImage(form: AdminForm, imageFile: Option<ImageFile>, uploaded: Option<string>): (r: string)
    ensures imageFile.None? ==> r == form.image
    ensures imageFile.Some? && uploaded.Some? && uploaded.value != "" ==> r == uploaded.value
    ensures uploaded.None? || uploaded == Some("") ==> r == form.image
  {
    if imageFile.Some? then ChosenImage(form.image, uploaded) else form.image
  }

  /** The product fields a submit sends: the form's text, the price as `parse` reads it, the chosen image. */
  function SubmittedData(form: AdminForm, image: string, parse: string -> int): (r: ProductData)
    ensures r.name == form.name && r.description == form.description && r.category == form.category
    ensures r.price == parse(form.price) && r.image_url == image && r.in_stock == form.inStock
  {
    ProductData(form.name, form.description, parse(form.price), image, form.category, form.inStock)
  }

  /** Update when a product is being edited, add otherwise. */
  function Dispatch(editingProduct: Option<DbProduct>, data: ProductData): (c: AdminCall)
    ensures c.data == data
    ensures c.UpdateCall? <==> editingProduct.Some?
    ensures c.UpdateCall? ==> c.id == editingProduct.value.id
  {
    if editingProduct.Some? then UpdateCall(editingProduct.value.id, data) else AddCall(data)
  }

  /** The edit form shows a row as the product card does: same text, same image, same stock flag. */
  lemma EditFormMatchesCard(p: DbProduct)
    ensures var f, c := EditForm(p), ConvertToUIProduct(p);
      f.name == c.name && f.description == c.description && f.image == c.image
      && f.category == c.category && f.inStock == c.inStock
  {
  }

  /**
    Editing a row and submitting the form unchanged, without choosing a file,
    updates that row with its own values, nulls read as "" and true. `parseFloat`
    reads the decimal text of a whole number back as that number.
  */
  lemma EditThenSubmit(p: DbProduct)
    ensures Dispatch(Some(p), SubmittedData(EditForm(p), SubmittedImage(EditForm(p), None, None), ParseInt))
         == UpdateCall(p.id, ProductData(p.name, TextOrEmpty(p.description), p.price,
                                         TextOrEmpty(p.image_url), TextOrEmpty(p.category), StockOrTrue(p.in_stock)))
  {
    IntToStringRoundTrip(p.price);
  }

  /**
    Choosing a file puts its preview URL in the form; if the upload then fails,
    the submit sends that preview URL as the product image.
  */
  lemma FailedUploadSendsPreview(form: AdminForm, file: ImageFile, preview: string, parse: string -> int)
    ensures SubmittedData(form.(image := preview), SubmittedImage(form.(image := preview), Some(file), None), parse).image_url
         == preview
  {
  }

  /** The state of the administration page. */
  class AdminPanel {
    var isEditing: bool
    var editingProduct: Option<DbProduct>
    var formData: AdminForm
    var imageFile: Option<ImageFile>

    /** Not editing, the empty form, no product and no file. */
    constructor()
      ensures !isEditing && editingProduct.None? && formData == DefaultForm && imageFile.None?
    {
      isEditing := false;
      editingProduct := None;
      formData := DefaultForm;
      imageFile := None;
    }

    /** `resetForm`, also the cancel button: empty form, no file, not editing, no product. */
    method ResetForm()
      modifies this
      ensures formData == DefaultForm && imageFile.None? && !isEditing && editingProduct.None?
    {
      formData := DefaultForm;
      imageFile := None;
      isEditing := false;
      editingProduct := None;
    }

    /**
      `handleSubmit`. `upload` is what the upload callback does for the chosen file
      (it is asked only when a file is chosen); `parse` is `parseFloat`. The handler
      has no catch: when the upload throws, it stops there, with no call made and
      the form left as it was. Otherwise it returns the one call made to the page
      and resets the form.
    */
    method HandleSubmit(upload: UploadOutcome, parse: string -> int) returns (call: Option<AdminCall>)
      modifies this
      ensures call.None? <==> old(imageFile).Some? && upload.UploadThrows?
      ensures call.None? ==>
        formData == old(formData) && imageFile == old(imageFile)
        && isEditing == old(isEditing) && editingProduct == old(editingProduct)
      ensures call.Some? ==>
        call.value == Dispatch(old(editingProduct),
          SubmittedData(old(formData), SubmittedImage(old(formData), old(imageFile), upload.Answer()), parse))
        && formData == DefaultForm && imageFile.None? && !isEditing && editingProduct.None?
    {
      var imageUrl := formData.image;
      if imageFile.Some? {
        match upload {
          case UploadThrows =>
            return None;
          case UploadReturns(uploaded) =>
            imageUrl := ChosenImage(imageUrl, uploaded);
        }
      }
      var productData := ProductData(formData.name, formData.description, parse(formData.price),
                                     imageUrl, formData.category, formData.inStock);
      if editingProduct.Some? {
        call := Some(UpdateCall(editingProduct.value.id, productData));
      } else {
        call := Some(AddCall(productData));
      }
      ResetForm();
    }

    /** `handleEdit`: the row becomes the product being edited and fills the form; any chosen file is dropped. */
    method HandleEdit(product: DbProduct)
      modifies this
      ensures editingProduct == Some(product) && formData == EditForm(product)
      ensures imageFile.None? && isEditing
    {
      editingProduct := Some(product);
      formData := EditForm(product);
      imageFile := None;
      isEditing := true;
    }

    /** The header button: show or hide the form. */
    method ToggleEditing()
      modifies this
      ensures isEditing == !old(isEditing)
      ensures editingProduct == old(editingProduct) && formData == old(formData) && imageFile == old(imageFile)
    {
      isEditing := !isEditing;
    }

    /** The file input: the chosen file, and its preview URL as the form's image; no file leaves the image. */
    method ChooseFile(file: Option<ImageFile>, preview: string)
      modifies this
      ensures imageFile == file
      ensures formData == if file.Some? then old(formData).(image := preview) else old(formData)
      ensures isEditing == old(isEditing) && editingProduct == old(editingProduct)
    {
      imageFile := file;
      if file.Some? {
        formData := formData.(image := preview);
      }
    }
  }
}
