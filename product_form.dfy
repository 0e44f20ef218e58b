/**
  The product form component: the form fields, the chosen image file, its preview
  and the loading flag, with the handlers that validate and submit the form and
  that drop the image. The two callbacks the form is given are not called here:
  what the upload callback does is a parameter, and submitting returns the data
  the submit callback receives. A rejection of the submit callback only shows a
  message, so it leaves the same state as a success.
*/
module ProductForm {
  import opened Wrappers
  import opened Catalog
  import Admin

  /** The form state; the price is held as a number. */
  datatype FormData = FormData(
    name: string,
    description: string,
    price: int,
    category: string,
    in_stock: bool,
    image_url: string)

  /** The form a product opens with: its fields, or "", 0, "" and true when there is none. */
  function InitialFormData(product: Option<DbProduct>): (f: FormData)
    ensures product.None? ==> f == FormData("", "", 0, "", true, "")
    ensures product.Some? ==> var p := product.value;
      f.name == p.name && f.price == p.price && f.description == TextOrEmpty(p.description)
      && f.category == TextOrEmpty(p.category) && f.image_url == TextOrEmpty(p.image_url)
      && f.in_stock == (p.in_stock != Some(false))
  {
    match product
    case None => FormData("", "", 0, "", true, "")
    case Some(p) =>
      FormData(p.name, TextOrEmpty(p.description), p.price, TextOrEmpty(p.category),
               Admin.StockOrTrue(p.in_stock), TextOrEmpty(p.image_url))
  }

  /** `!name || !price`: a submit is refused when the name is empty or the price is 0. */
  predicate MissingRequired(f: FormData)
  {
    f.name == "" || f.price == 0
  }

  /**
    The data the submit callback receives once the form is valid, or None when the
    upload throws before it is reached. The upload is asked only when a file is
    chosen, and its URL replaces the form's image only when it is non-empty.
  */
  function SubmittedData(f: FormData, file: Option<ImageFile>, upload: UploadOutcome): (r: Option<FormData>)
    ensures r.None? <==> file.Some? && upload.UploadThrows?
    ensures r.Some? ==> r.value.(image_url := f.image_url) == f
    ensures r.Some? && file.None? ==> r.value == f
    ensures r.Some? && file.Some? ==>
      r.value.image_url == ChosenImage(f.image_url, upload.url)
  {
    if file.None? then Some(f)
    else match upload
      case UploadThrows => None
      case UploadReturns(u) => Some(f.(image_url := ChosenImage(f.image_url, u)))
  }

  /**
    A form opened without a product is refused as it stands, and once a name and a
    price are typed it is accepted exactly when the name is non-empty and the price
    is not 0.
  */
  lemma NewFormIsIncomplete(name: string, price: int)
    ensures MissingRequired(InitialFormData(None))
    ensures !MissingRequired(InitialFormData(None).(name := name, price := price)) <==> name != "" && price != 0
  {
  }

  /** The form opened on a row shows it as the product card does. */
  lemma InitialFormMatchesCard(p: DbProduct)
    ensures var f, c := InitialFormData(Some(p)), Admin.ConvertToUIProduct(p);
      f.name == c.name && f.description == c.description && f.price == c.price
      && f.category == c.category && f.image_url == c.image && f.in_stock == c.inStock
  {
  }

  /**
    Opening a row and submitting it unchanged, without choosing a file, sends the
    row's own values, nulls read as "" and true.
  */
  lemma OpenThenSubmit(p: DbProduct, upload: UploadOutcome)
    ensures SubmittedData(InitialFormData(Some(p)), None, upload)
         == Some(FormData(p.name, TextOrEmpty(p.description), p.price, TextOrEmpty(p.category),
                          p.in_stock != Some(false), TextOrEmpty(p.image_url)))
  {
  }

  /** An upload that answers null or "" keeps the form's image; the product is still submitted. */
  lemma EmptyUploadKeepsImage(f: FormData, file: ImageFile, url: Option<string>)
    requires url.None? || url == Some("")
    ensures SubmittedData(f, Some(file), UploadReturns(url)) == Some(f)
  {
  }

  /** The state of the product form. */
  class FormState {
    var formData: FormData
    var imageFile: Option<ImageFile>
    var imagePreview: string
    var loading: bool

    /** The form opened on `product`, or empty; the preview is the product's image; not loading. */
    constructor(product: Option<DbProduct>)
      ensures formData == InitialFormData(product) && imageFile.None?
      ensures imagePreview == formData.image_url && !loading
    {
      formData := InitialFormData(product);
      imageFile := None;
      imagePreview := if product.Some? then TextOrEmpty(product.value.image_url) else "";
      loading := false;
    }

    /**
      The first half of `handleSubmit`: a form missing its name or price is refused
      and nothing changes; otherwise the form starts loading.
    */
    method StartSubmit() returns (started: bool)
      modifies this
      ensures started <==> !MissingRequired(formData)
      ensures loading == (started || old(loading))
      ensures formData == old(formData) && imageFile == old(imageFile) && imagePreview == old(imagePreview)
    {
      if formData.name == "" || formData.price == 0 {
        return false;
      }
      loading := true;
      return true;
    }

    /**
      The second half of `handleSubmit`, after the form started loading: the upload
      is asked when a file is chosen, the submit callback receives the form with the
      chosen image unless the upload threw, and loading ends in every case.
    */
    method FinishSubmit(upload: UploadOutcome) returns (askedUpload: bool, sent: Option<FormData>)
      modifies this
      ensures askedUpload <==> imageFile.Some?
      ensures sent == SubmittedData(formData, imageFile, upload)
      ensures !loading
      ensures formData == old(formData) && imageFile == old(imageFile) && imagePreview == old(imagePreview)
    {
      var imageUrl := formData.image_url;
      askedUpload := false;
      sent := None;
      if imageFile.Some? {
        askedUpload := true;
        match upload {
          case UploadThrows =>
            loading := false;
            return;
          case UploadReturns(u) =>
            if u.Some? && u.value != "" {
              imageUrl := u.value;
            }
        }
      }
      sent := Some(formData.(image_url := imageUrl));
      loading := false;
    }

    /**
      `handleSubmit` as a whole: a refused form asks neither callback and leaves the
      state as it was; a valid one is submitted as `SubmittedData` says and ends not
      loading. `busy` is the loading flag while the callbacks run.
    */
    method HandleSubmit(upload: UploadOutcome) returns (askedUpload: bool, sent: Option<FormData>, ghost busy: bool)
      modifies this
      ensures MissingRequired(old(formData)) ==> !askedUpload && sent.None? && loading == old(loading)
      ensures !MissingRequired(old(formData)) ==>
        busy && askedUpload == old(imageFile).Some?
        && sent == SubmittedData(old(formData), old(imageFile), upload) && !loading
      ensures formData == old(formData) && imageFile == old(imageFile) && imagePreview == old(imagePreview)
    {
      var started := StartSubmit();
      busy := loading;
      if !started {
        return false, None, busy;
      }
      askedUpload, sent := FinishSubmit(upload);
    }

    /** `handleImageChange`: a chosen file is kept; no file leaves the state as it is. */
    method HandleImageChange(file: Option<ImageFile>)
      modifies this
      ensures imageFile == if file.Some? then file else old(imageFile)
      ensures formData == old(formData) && imagePreview == old(imagePreview) && loading == old(loading)
    {
      if file.Some? {
        imageFile := file;
      }
    }

    /** The file reader's answer for a chosen file becomes the preview; the form's image is not touched. */
    method PreviewLoaded(dataUrl: string)
      modifies this
      ensures imagePreview == dataUrl
      ensures formData == old(formData) && imageFile == old(imageFile) && loading == old(loading)
    {
      imagePreview := dataUrl;
    }

    /** `removeImage`: no file, no preview and no image URL, the other fields as they were. */
    method RemoveImage()
      modifies this
      ensures imageFile.None? && imagePreview == ""
      ensures formData == old(formData).(image_url := "") && loading == old(loading)
    {
      imageFile := None;
      imagePreview := "";
      formData := formData.(image_url := "");
    }
  }

  /** After the image is removed, a submit sends an empty image URL and asks no upload. */
  lemma RemoveThenSubmit(f: FormData, upload: UploadOutcome)
    ensures SubmittedData(f.(image_url := ""), None, upload) == Some(f.(image_url := ""))
  {
  }
}
