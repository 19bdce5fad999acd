/**
 * The admin product form: its initial state, the change handlers of its
 * text inputs and of its category select, the category list it loads, and
 * the product object it hands to its `onSubmit` callback. The category
 * reference travels through the form as text and is parsed back on submit.
 */
module AdminProductForm {
  import opened Js
  import opened Catalog
  import opened Postgrest

  /** The form state: every field is text, the category reference included. */
  datatype FormData = FormData(
    name_ar: string,
    name_en: string,
    category_id: string,
    brand: string,
    size_type: string,
    description_ar: string,
    description_en: string,
    image_url: string)

  /** The inputs wired to `handleChange`, and the select wired to `handleSelectChange`. */
  datatype Field = NameAr | NameEn | CategoryId | Brand | SizeType | DescriptionAr | DescriptionEn

  function FieldValue(f: FormData, field: Field): string
  {
    match field
    case NameAr => f.name_ar
    case NameEn => f.name_en
    case CategoryId => f.category_id
    case Brand => f.brand
    case SizeType => f.size_type
    case DescriptionAr => f.description_ar
    case DescriptionEn => f.description_en
  }

  /**
   * `{ ...prev, [name]: value }`, the update both `handleChange` and
   * `handleSelectChange` make: one field takes the new value, nothing else moves.
   */
  function WithField(f: FormData, field: Field, value: string): (r: FormData)
    ensures FieldValue(r, field) == value
    ensures forall other :: other != field ==> FieldValue(r, other) == FieldValue(f, other)
    ensures r.image_url == f.image_url
  {
    match field
    case NameAr => f.(name_ar := value)
    case NameEn => f.(name_en := value)
    case CategoryId => f.(category_id := value)
    case Brand => f.(brand := value)
    case SizeType => f.(size_type := value)
    case DescriptionAr => f.(description_ar := value)
    case DescriptionEn => f.(description_en := value)
  }

  /**
   * The form's starting state: each text field copied from the product, the
   * category reference as its decimal text, the image or the placeholder;
   * all empty (and the placeholder image) when adding.
   */
  function InitialForm(product: Option<Product>): (f: FormData)
    ensures product.None? ==> f == FormData("", "", "", "", "", "", "", PlaceholderImage)
    ensures product.Some? ==>
      var p := product.value;
      f.name_ar == p.name_ar && f.name_en == p.name_en && f.brand == p.brand &&
      f.size_type == p.size_type && f.description_ar == p.description_ar &&
      f.description_en == p.description_en &&
      f.image_url == (if p.image_url != "" then p.image_url else PlaceholderImage) &&
      f.category_id == NumberToString(p.category_id) && ParseInt(f.category_id) == p.category_id
  {
    match product
    case None => FormData("", "", "", "", "", "", "", PlaceholderImage)
    case Some(p) =>
      ParseIntOfToString(p.category_id);
      FormData(p.name_ar, p.name_en, NumberToString(p.category_id), p.brand, p.size_type,
               p.description_ar, p.description_en,
               if p.image_url != "" then p.image_url else PlaceholderImage)
  }

  /** The value of the select item offered for a category: `category.id.toString()`. */
  function ItemValue(category: Category): string
    requires category.id.Some?
  {
    NumberToString(Int(category.id.value))
  }

  /**
   * The object passed to `onSubmit`: the form's text fields, the category
   * reference parsed as a base-10 integer, the preview URL if any, and the
   * edited product's id (undefined when adding).
   */
  function FinalProduct(f: FormData, imagePreview: Option<string>, product: Option<Product>): (p: Product)
    ensures p.name_ar == f.name_ar && p.name_en == f.name_en && p.brand == f.brand &&
            p.size_type == f.size_type && p.description_ar == f.description_ar &&
            p.description_en == f.description_en
    ensures p.category_id == ParseInt(f.category_id)
    ensures p.category_id.NaN? <==> DigitPrefix(SignStripped(TrimStart(f.category_id))) == []
    ensures p.image_url == OrElse(imagePreview, f.image_url)
    ensures p.id == (if product.Some? then product.value.id else None)
  {
    Product(if product.Some? then product.value.id else None,
            f.name_ar, f.name_en, ParseInt(f.category_id), f.brand, f.size_type,
            f.description_ar, f.description_en, OrElse(imagePreview, f.image_url))
  }

  /** Opening the form on a product and submitting it untouched gives that product back. */
  lemma SubmitUntouched(p: Product)
    requires p.image_url != ""
    ensures FinalProduct(InitialForm(Some(p)), None, Some(p)) == p
  {
    ParseIntOfToString(p.category_id);
  }

  /**
   * Choosing a category in the select and submitting yields a product whose
   * reference is that category's id, whatever else was typed.
   */
  lemma {:induction false} SelectedCategorySubmitted(f: FormData, c: Category, imagePreview: Option<string>, product: Option<Product>)
    requires c.id.Some?
    ensures RefersTo(FinalProduct(WithField(f, CategoryId, ItemValue(c)), imagePreview, product).category_id, c.id)
  {
    ParseIntOfToString(Int(c.id.value));
  }

  /** Submitting without choosing a category when adding yields a NaN reference, which matches no category. */
  lemma NoCategoryIsNaN(f: FormData, imagePreview: Option<string>, id: Option<int>)
    requires f.category_id == ""
    ensures FinalProduct(f, imagePreview, None).category_id == NaN
    ensures !RefersTo(FinalProduct(f, imagePreview, None).category_id, id)
  {
    ParseIntEmpty();
  }

  class ProductForm {
    /** The `product` prop: present when editing. */
    const product: Option<Product>
    var formData: FormData
    var categories: seq<Category>
    var imagePreview: Option<string>
    var isLoading: bool

    constructor (product: Option<Product>)
      ensures this.product == product
      ensures formData == InitialForm(product) && categories == [] && imagePreview == None && !isLoading
    {
      this.product := product;
      formData := InitialForm(product);
      categories := [];
      imagePreview := None;
      isLoading := false;
    }

    /**
     * `fetchCategories`, given the reply of `select("*")` on the categories
     * table: on error the list stays as it was; a reply without data empties it.
     */
    method FetchCategories(reply: FetchReply<Category>)
      modifies this`categories
      ensures reply.FetchError? ==> categories == old(categories)
      ensures reply.Rows? ==> categories == if reply.data.Some? then reply.data.value else []
    {
      if reply.FetchError? {
        return;
      }
      categories := if reply.data.Some? then reply.data.value else [];
    }

    /** `handleChange` and `handleSelectChange`. */
    method HandleChange(field: Field, value: string)
      modifies this`formData
      ensures formData == WithField(old(formData), field, value)
    {
      match field
      case NameAr => formData := formData.(name_ar := value);
      case NameEn => formData := formData.(name_en := value);
      case CategoryId => formData := formData.(category_id := value);
      case Brand => formData := formData.(brand := value);
      case SizeType => formData := formData.(size_type := value);
      case DescriptionAr => formData := formData.(description_ar := value);
      case DescriptionEn => formData := formData.(description_en := value);
    }

    /** `handleImageChange`: `objectUrl` is the preview URL made for the chosen file, if one was chosen. */
    method HandleImageChange(objectUrl: Option<string>)
      modifies this`imagePreview
      ensures imagePreview == if objectUrl.Some? then objectUrl else old(imagePreview)
    {
      if objectUrl.Some? {
        imagePreview := objectUrl;
      }
    }

    /** `handleSubmit`: returns what `onSubmit` receives; the loading flag ends cleared. */
    method HandleSubmit() returns (submitted: Product)
      modifies this`isLoading
      ensures submitted == FinalProduct(formData, imagePreview, product)
      ensures !isLoading
    {
      isLoading := true;
      var finalImageUrl := formData.image_url;
      if StringTruthy(imagePreview) {
        finalImageUrl := imagePreview.value;
      }
      submitted := Product(if product.Some? then product.value.id else None,
                           formData.name_ar, formData.name_en, ParseInt(formData.category_id),
                           formData.brand, formData.size_type, formData.description_ar,
                           formData.description_en, finalImageUrl);
      isLoading := false;
    }
  }
}
