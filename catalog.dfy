/**
 * The catalog records as the admin screens and the relational API routes
 * see them. A text field the database leaves empty or null is "", which is
 * as falsy as `undefined` and gives the same result under `x || default`.
 */
module Catalog {
  import opened Js
  import opened JsArray

  /** A product row, or a product object built by the product form (then `id` may be undefined). */
  datatype Product = Product(
    id: Option<int>,
    name_ar: string,
    name_en: string,
    category_id: Number,
    brand: string,
    size_type: string,
    description_ar: string,
    description_en: string,
    image_url: string)

  /** A category row, or a category object built by the category form. */
  datatype Category = Category(
    id: Option<int>,
    name_ar: string,
    name_en: string,
    slug: string,
    image_url: string)

  /** The image both forms fall back to when a record has none. */
  const PlaceholderImage: string := "/placeholder.svg?height=300&width=300"

  /**
   * `categoryId === id` between a product's category reference and a record id:
   * an undefined id and a NaN reference never match anything.
   */
  predicate RefersTo(categoryId: Number, id: Option<int>)
  {
    id.Some? && StrictEquals(categoryId, Int(id.value))
  }

  /**
   * The products a category holds, in list order: the dashboard's
   * `products.filter((p) => p.category_id === id)` and the `eq("category_id", id)`
   * filter of the products listing.
   */
  function ProductsIn(products: seq<Product>, id: Option<int>): (r: seq<Product>)
    ensures forall i :: 0 <= i < |r| ==> RefersTo(r[i].category_id, id) && r[i] in products
    ensures forall i :: 0 <= i < |products| && RefersTo(products[i].category_id, id) ==> products[i] in r
  {
    Filter(products, (p: Product) => RefersTo(p.category_id, id))
  }
}
