/**
 * The relational products API route: GET lists products, narrowed to one
 * category when a `category` slug resolves to exactly one category row;
 * POST validates four required fields and inserts the body with a creation
 * time stamp. The tables are sequences of rows; what the database reports
 * is a parameter.
 */
module ProductsApi {
  import opened Js
  import opened JsArray
  import opened Catalog
  import opened Postgrest
  import opened Json

  const FetchFailed: string := "Failed to fetch products"
  const AddFailed: string := "Failed to add product"
  const MissingFields: string := "Missing required fields"

  /** The members `POST` insists on, in the order it tests them. */
  const Required: seq<string> := ["name_ar", "name_en", "category_id", "brand"]

  // ---------------------------------------------------------------------
  // GET

  /** The category row `select("id").eq("slug", slug).single()` yields: only when exactly one row has the slug. */
  function CategoryBySlug(categories: seq<Category>, slug: string): (r: Option<Category>)
    ensures r.Some? ==> r.value in categories && r.value.slug == slug
    ensures r.Some? <==> |Filter(categories, (c: Category) => c.slug == slug)| == 1
  {
    Single(categories, (c: Category) => c.slug == slug)
  }

  /**
   * `GET /api/products[?category=slug]` over the two tables. `slugFailed` is
   * whether the slug lookup reports an error, which the handler discards
   * (it reads only `data`, null then); `failed` is whether the final product
   * query reports an error. A falsy parameter, a failed slug lookup or a
   * slug that does not resolve leaves the query unfiltered.
   */
  function Get(category: Option<string>, categories: seq<Category>, products: seq<Product>,
               slugFailed: bool, failed: bool): (r: Response<seq<Product>>)
    ensures failed <==> r.Error?
    ensures r.Error? ==> r == Error(500, FetchFailed)
    ensures r.Ok? && (!StringTruthy(category) || slugFailed) ==> r.body == products
    ensures r.Ok? && StringTruthy(category) && !slugFailed && CategoryBySlug(categories, category.value).None? ==>
      r.body == products
    ensures r.Ok? && StringTruthy(category) && !slugFailed && CategoryBySlug(categories, category.value).Some? ==>
      r.body == ProductsIn(products, CategoryBySlug(categories, category.value).value.id)
  {
    var rows :=
      if StringTruthy(category) && !slugFailed && CategoryBySlug(categories, category.value).Some? then
        ProductsIn(products, CategoryBySlug(categories, category.value).value.id)
      else products;
    if failed then Error(500, FetchFailed) else Ok(rows)
  }

  /** With a slug that resolves, every product listed belongs to that category, and none of its products is missing. */
  lemma ResolvedSlugListsItsProducts(slug: string, categories: seq<Category>, products: seq<Product>)
    requires slug != "" && CategoryBySlug(categories, slug).Some?
    ensures var c := CategoryBySlug(categories, slug).value;
            var r := Get(Some(slug), categories, products, false, false);
            r.Ok? && c.slug == slug &&
            (forall i :: 0 <= i < |r.body| ==> RefersTo(r.body[i].category_id, c.id) && r.body[i] in products) &&
            (forall i :: 0 <= i < |products| && RefersTo(products[i].category_id, c.id) ==> products[i] in r.body)
  {
  }

  /** A slug that names no category lists every product rather than none. */
  lemma UnknownSlugListsEverything(slug: string, categories: seq<Category>, products: seq<Product>)
    requires slug != ""
    requires forall i :: 0 <= i < |categories| ==> categories[i].slug != slug
    ensures Get(Some(slug), categories, products, false, false) == Ok(products)
  {
    FilterExtremes(categories, (c: Category) => c.slug == slug);
  }

  // ---------------------------------------------------------------------
  // POST

  /** What the insert reports: the rows `.select()` returns, or an error. */
  datatype InsertReply = Returned(rows: seq<JsValue>) | InsertFailed

  /** The row sent to the insert (if any) and the response. */
  datatype PostResult = PostResult(record: Option<JsValue>, response: Response<JsValue>)

  /** `{ ...product, created_at: now }`. */
  function StampedRecord(body: map<string, JsValue>, now: string): (r: map<string, JsValue>)
    ensures r.Keys == body.Keys + {"created_at"}
    ensures r["created_at"] == Str(now)
    ensures forall k :: k in body && k != "created_at" ==> r[k] == body[k]
  {
    body["created_at" := Str(now)]
  }

  /**
   * `POST /api/products`. `body` is the parsed request body (`None` when it
   * is not JSON), `now` the ISO time of the request, `reply` what the insert
   * reports. The response carries the first returned row. When the insert
   * returns no rows, `data[0]` is undefined, which the JSON response cannot
   * serialise; the throw lands in the handler's `catch` and gives 500.
   */
  function Post(body: Option<JsValue>, now: string, reply: InsertReply): (r: PostResult)
    ensures body.None? || body == Some(Null) ==> r == PostResult(None, Error(500, AddFailed))
    ensures body.Some? && body.value != Null && MissingAny(body.value, Required) ==>
      r == PostResult(None, Error(400, MissingFields))
    ensures body.Some? && body.value != Null && !MissingAny(body.value, Required) ==>
      body.value.Obj? && r.record == Some(Obj(StampedRecord(body.value.fields, now))) &&
      r.response == match reply
                    case InsertFailed => Error(500, AddFailed)
                    case Returned(rows) => if rows == [] then Error(500, AddFailed) else Ok(rows[0])
  {
    if body.None? || body.value.Null? then PostResult(None, Error(500, AddFailed))
    else
      var product := body.value;
      if MissingAny(product, Required) then PostResult(None, Error(400, MissingFields))
      else
        assert Truthy(Member(product, Required[0]));
        var record := Obj(StampedRecord(product.fields, now));
        match reply
        case InsertFailed => PostResult(Some(record), Error(500, AddFailed))
        case Returned(rows) =>
          if rows == [] then PostResult(Some(record), Error(500, AddFailed))
          else PostResult(Some(record), Ok(rows[0]))
  }

  /**
   * The validator uses truthiness, not presence: an empty name or a
   * `category_id` of 0 is refused with 400 and nothing is inserted.
   */
  lemma FalsyFieldRefused(fields: map<string, JsValue>, key: string, now: string, reply: InsertReply)
    requires key in Required
    requires key in fields && fields[key] in {Str(""), Num(Int(0)), Num(NaN), Null, Bool(false)}
    ensures Post(Some(Obj(fields)), now, reply) == PostResult(None, Error(400, MissingFields))
  {
    var i :| 0 <= i < |Required| && Required[i] == key;
    assert !Truthy(Member(Obj(fields), Required[i]));
  }

  /** An accepted body is inserted with every one of its members, plus `created_at`. */
  lemma AcceptedBodyStoredWhole(fields: map<string, JsValue>, now: string, reply: InsertReply)
    requires forall i :: 0 <= i < |Required| ==> Truthy(Member(Obj(fields), Required[i]))
    ensures var rec := Post(Some(Obj(fields)), now, reply).record;
            rec.Some? && rec.value.Obj? && rec.value.fields.Keys == fields.Keys + {"created_at"} &&
            (forall k :: k in fields && k != "created_at" ==> rec.value.fields[k] == fields[k])
  {
  }
}
