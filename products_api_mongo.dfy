/**
 * The document-store products API route: GET lists the documents of the
 * products collection, narrowed by an exact `category` match when the
 * parameter is non-empty; POST validates four required members, stores the
 * body with a `createdAt` date and answers with the new id and the body.
 */
module ProductsApiMongo {
  import opened Js
  import opened JsArray
  import opened Json

  const FetchFailed: string := "Failed to fetch products"
  const AddFailed: string := "Failed to add product"
  const MissingFields: string := "Missing required fields"

  /** The members `POST` insists on, in the order it tests them. */
  const Required: seq<string> := ["nameAr", "nameEn", "category", "brand"]

  // ---------------------------------------------------------------------
  // GET

  /**
   * The filter `{ category }`: the document's `category` equals the value, or
   * is an array holding it (the store's equality on an array member matches
   * any element).
   */
  predicate CategoryMatches(doc: JsValue, category: string)
  {
    var v := Member(doc, "category");
    v == Some(Str(category)) || (v.Some? && v.value.Arr? && Str(category) in v.value.items)
  }

  /** `GET /api/products[?category=c]` over the collection; `failed` is whether the store reports an error. */
  function Get(category: Option<string>, docs: seq<JsValue>, failed: bool): (r: Response<seq<JsValue>>)
    ensures failed <==> r.Error?
    ensures r.Error? ==> r == Error(500, FetchFailed)
    ensures r.Ok? && !StringTruthy(category) ==> r.body == docs
    ensures r.Ok? && StringTruthy(category) ==>
      |r.body| <= |docs| &&
      (forall i :: 0 <= i < |r.body| ==> r.body[i] in docs && CategoryMatches(r.body[i], category.value)) &&
      (forall i :: 0 <= i < |docs| && CategoryMatches(docs[i], category.value) ==> docs[i] in r.body)
  {
    if failed then Error(500, FetchFailed)
    else if StringTruthy(category) then Ok(Filter(docs, (d: JsValue) => CategoryMatches(d, category.value)))
    else Ok(docs)
  }

  /** Listing by category keeps the collection's order: two parts of the collection list as the two parts of the answer. */
  lemma {:induction false} ListingKeepsOrder(category: string, a: seq<JsValue>, b: seq<JsValue>)
    requires category != ""
    ensures Get(Some(category), a + b, false).body ==
            Get(Some(category), a, false).body + Get(Some(category), b, false).body
  {
    FilterAppend(a, b, (d: JsValue) => CategoryMatches(d, category));
  }

  // ---------------------------------------------------------------------
  // POST

  /** The document passed to `insertOne` (if any) and the response. */
  datatype PostResult = PostResult(stored: Option<JsValue>, response: Response<JsValue>)

  /** `{ ...product, createdAt: now }`. */
  function Stamped(body: map<string, JsValue>, now: JsValue): (r: map<string, JsValue>)
    ensures r.Keys == body.Keys + {"createdAt"}
    ensures r["createdAt"] == now
    ensures forall k :: k in body && k != "createdAt" ==> r[k] == body[k]
  {
    body["createdAt" := now]
  }

  /**
   * `{ id: insertedId, ...product }`: the new id, then every member of the
   * body, a member of the body named `id` replacing the new id.
   */
  function Answer(insertedId: JsValue, body: map<string, JsValue>): (r: map<string, JsValue>)
    ensures r.Keys == body.Keys + {"id"}
    ensures forall k :: k in body ==> r[k] == body[k]
    ensures "id" !in body ==> r["id"] == insertedId
  {
    map["id" := insertedId] + body
  }

  /**
   * `POST /api/products`. `body` is the parsed request body (`None` when it
   * is not JSON), `now` the `Date` of the request, `insertedId` the id the
   * store assigns and `failed` whether the insert reports an error.
   */
  function Post(body: Option<JsValue>, now: JsValue, insertedId: JsValue, failed: bool): (r: PostResult)
    ensures body.None? || body == Some(Null) ==> r == PostResult(None, Error(500, AddFailed))
    ensures body.Some? && body.value != Null && MissingAny(body.value, Required) ==>
      r == PostResult(None, Error(400, MissingFields))
    ensures body.Some? && body.value != Null && !MissingAny(body.value, Required) ==>
      body.value.Obj? && r.stored == Some(Obj(Stamped(body.value.fields, now))) &&
      r.response == if failed then Error(500, AddFailed) else Ok(Obj(Answer(insertedId, body.value.fields)))
  {
    if body.None? || body.value.Null? then PostResult(None, Error(500, AddFailed))
    else
      var product := body.value;
      if MissingAny(product, Required) then PostResult(None, Error(400, MissingFields))
      else
        assert Truthy(Member(product, Required[0]));
        var doc := Obj(Stamped(product.fields, now));
        if failed then PostResult(Some(doc), Error(500, AddFailed))
        else PostResult(Some(doc), Ok(Obj(Answer(insertedId, product.fields))))
  }

  /** An empty name, a falsy category or a missing brand is refused with 400 and nothing is stored. */
  lemma FalsyFieldRefused(fields: map<string, JsValue>, key: string, now: JsValue, insertedId: JsValue, failed: bool)
    requires key in Required
    requires key !in fields || fields[key] in {Str(""), Num(Int(0)), Num(NaN), Null, Bool(false)}
    ensures Post(Some(Obj(fields)), now, insertedId, failed) == PostResult(None, Error(400, MissingFields))
  {
    var i :| 0 <= i < |Required| && Required[i] == key;
    assert !Truthy(Member(Obj(fields), Required[i]));
  }

  /** When the body carries its own `id`, the answer reports that id and not the one the store assigned. */
  lemma BodyIdWins(fields: map<string, JsValue>, now: JsValue, insertedId: JsValue)
    requires forall i :: 0 <= i < |Required| ==> Truthy(Member(Obj(fields), Required[i]))
    requires "id" in fields
    ensures var r := Post(Some(Obj(fields)), now, insertedId, false).response;
            r.Ok? && r.body.Obj? && r.body.fields["id"] == fields["id"]
  {
  }
}
