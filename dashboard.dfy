/**
 * The admin dashboard page: the token gate, the two catalog lists it keeps
 * in memory, and the handlers that change them after each remote write.
 * Remote replies and the answer to each `confirm()` prompt are parameters;
 * the write request a handler sends is returned, so "no remote call" can be
 * stated.
 */
module AdminDashboard {
  import opened Js
  import opened JsArray
  import opened Catalog
  import opened Browser
  import opened Postgrest

  /**
   * `{ data, error }` of an `insert(...).select()`: the stored row, or an
   * error. A reply with no error and no rows is not represented.
   */
  datatype InsertReply<T> = Inserted(row: T) | InsertError

  /** The write a handler sends to the database. */
  datatype Request =
    | InsertProduct(product: Product)
    | InsertCategory(category: Category)
    | UpdateProduct(product: Product, productId: Option<int>)
    | UpdateCategory(category: Category, categoryId: Option<int>)
    | DeleteProduct(productId: Option<int>)
    | DeleteCategory(categoryId: Option<int>)

  /** The toast a handler ends with. */
  datatype Outcome = Succeeded | Failed | Declined | Refused

  const LoginPath: string := "/admin/login"

  // ---------------------------------------------------------------------
  // List transforms

  /** `products.map((p) => (p.id === product.id ? product : p))`. */
  function ReplaceProduct(products: seq<Product>, product: Product): (r: seq<Product>)
    ensures |r| == |products|
    ensures forall i :: 0 <= i < |products| ==>
      r[i] == if products[i].id == product.id then product else products[i]
  {
    ReplaceWhere(products, (p: Product) => p.id == product.id, product)
  }

  /** `categories.map((c) => (c.id === category.id ? category : c))`. */
  function ReplaceCategory(categories: seq<Category>, category: Category): (r: seq<Category>)
    ensures |r| == |categories|
    ensures forall i :: 0 <= i < |categories| ==>
      r[i] == if categories[i].id == category.id then category else categories[i]
  {
    ReplaceWhere(categories, (c: Category) => c.id == category.id, category)
  }

  /** `products.filter((p) => p.id !== id)`. */
  function RemoveProduct(products: seq<Product>, id: Option<int>): (r: seq<Product>)
    ensures forall i :: 0 <= i < |r| ==> r[i].id != id && r[i] in products
    ensures forall i :: 0 <= i < |products| && products[i].id != id ==> products[i] in r
  {
    Filter(products, (p: Product) => p.id != id)
  }

  /** `categories.filter((c) => c.id !== id)`. */
  function RemoveCategory(categories: seq<Category>, id: Option<int>): (r: seq<Category>)
    ensures forall i :: 0 <= i < |r| ==> r[i].id != id && r[i] in categories
    ensures forall i :: 0 <= i < |categories| && categories[i].id != id ==> categories[i] in r
  {
    Filter(categories, (c: Category) => c.id != id)
  }

  /** The count shown on a category card. */
  function ProductCount(products: seq<Product>, id: Option<int>): nat
  {
    |ProductsIn(products, id)|
  }

  /** The count is zero exactly when no product refers to the category. */
  lemma ProductCountZero(products: seq<Product>, id: Option<int>)
    ensures ProductCount(products, id) == 0 <==>
            forall i :: 0 <= i < |products| ==> !RefersTo(products[i].category_id, id)
  {
    FilterExtremes(products, (p: Product) => RefersTo(p.category_id, id));
  }

  /** Counting over two lists adds up, so appending a product adds one to exactly its category. */
  lemma ProductCountAppend(products: seq<Product>, product: Product, id: Option<int>)
    ensures ProductCount(products + [product], id) ==
            ProductCount(products, id) + (if RefersTo(product.category_id, id) then 1 else 0)
  {
    var keep := (p: Product) => RefersTo(p.category_id, id);
    FilterAppend(products, [product], keep);
    assert Filter([product], keep) == (if keep(product) then [product] else []) + Filter([], keep);
  }

  /** `getCategoryName`: the name of the first category whose id is `categoryId`, in the page language. */
  function CategoryName(categories: seq<Category>, categoryId: Number, language: string): (r: Option<string>)
    ensures r.None? <==> forall i :: 0 <= i < |categories| ==> !RefersTo(categoryId, categories[i].id)
    ensures r.Some? ==> exists i :: (0 <= i < |categories| && RefersTo(categoryId, categories[i].id) &&
      (forall j :: 0 <= j < i ==> !RefersTo(categoryId, categories[j].id)) &&
      r.value == (if language == "ar" then categories[i].name_ar else categories[i].name_en))
  {
    match Find(categories, (c: Category) => RefersTo(categoryId, c.id))
    case None => None
    case Some(c) => Some(if language == "ar" then c.name_ar else c.name_en)
  }

  /** The fields a product insert or update sends: `category_id` goes through `Number.parseInt`. */
  function ProductPayload(p: Product): Product
  {
    p.(id := None, category_id := ParseInt(NumberToString(p.category_id)))
  }

  /** The fields a category insert or update sends. */
  function CategoryPayload(c: Category): Category
  {
    c.(id := None)
  }

  /** Re-parsing `category_id` changes nothing: the payload is the product without its id. */
  lemma ProductPayloadKeepsFields(p: Product)
    ensures ProductPayload(p) == p.(id := None)
  {
    ParseIntOfToString(p.category_id);
  }

  // ---------------------------------------------------------------------
  // Referential integrity

  /** Every product's category reference names a category in the list (a NaN reference names none). */
  ghost predicate ReferencesResolve(products: seq<Product>, categories: seq<Category>)
  {
    forall i :: 0 <= i < |products| && products[i].category_id.Int? ==>
      exists j :: 0 <= j < |categories| && RefersTo(products[i].category_id, categories[j].id)
  }

  /**
   * The delete guard is what keeps references resolvable: removing a category
   * that no product refers to leaves every reference resolvable.
   */
  lemma GuardKeepsReferences(products: seq<Product>, categories: seq<Category>, id: Option<int>)
    requires ReferencesResolve(products, categories)
    requires ProductCount(products, id) == 0
    ensures ReferencesResolve(products, RemoveCategory(categories, id))
  {
    ProductCountZero(products, id);
    var rest := RemoveCategory(categories, id);
    forall i | 0 <= i < |products| && products[i].category_id.Int?
      ensures exists k :: 0 <= k < |rest| && RefersTo(products[i].category_id, rest[k].id)
    {
      var j :| 0 <= j < |categories| && RefersTo(products[i].category_id, categories[j].id);
      assert categories[j].id != id;
      assert categories[j] in rest;
      var k :| 0 <= k < |rest| && rest[k] == categories[j];
    }
  }

  /** Editing a category replaces entries only by ones with the same id, so no reference is lost. */
  lemma EditKeepsReferences(products: seq<Product>, categories: seq<Category>, category: Category)
    requires ReferencesResolve(products, categories)
    ensures ReferencesResolve(products, ReplaceCategory(categories, category))
  {
    var next := ReplaceCategory(categories, category);
    forall i | 0 <= i < |products| && products[i].category_id.Int?
      ensures exists k :: 0 <= k < |next| && RefersTo(products[i].category_id, next[k].id)
    {
      var j :| 0 <= j < |categories| && RefersTo(products[i].category_id, categories[j].id);
      assert next[j].id == categories[j].id;
    }
  }

  /** Adding a category and removing products never break a reference either. */
  lemma GrowShrinkKeepsReferences(products: seq<Product>, categories: seq<Category>, category: Category, id: Option<int>)
    requires ReferencesResolve(products, categories)
    ensures ReferencesResolve(products, categories + [category])
    ensures ReferencesResolve(RemoveProduct(products, id), categories)
  {
    var more := categories + [category];
    forall i | 0 <= i < |products| && products[i].category_id.Int?
      ensures exists k :: 0 <= k < |more| && RefersTo(products[i].category_id, more[k].id)
    {
      var j :| 0 <= j < |categories| && RefersTo(products[i].category_id, categories[j].id);
      assert more[j] == categories[j];
    }
    var fewer := RemoveProduct(products, id);
    forall i | 0 <= i < |fewer| && fewer[i].category_id.Int?
      ensures exists j :: 0 <= j < |categories| && RefersTo(fewer[i].category_id, categories[j].id)
    {
      var k :| 0 <= k < |products| && products[k] == fewer[i];
    }
  }

  /** Deleting by id keeps the survivors in their order: it distributes over concatenation. */
  lemma RemoveProductKeepsOrder(a: seq<Product>, b: seq<Product>, id: Option<int>)
    ensures RemoveProduct(a + b, id) == RemoveProduct(a, id) + RemoveProduct(b, id)
  {
    FilterAppend(a, b, (p: Product) => p.id != id);
  }

  /** The entries a product delete removes. */
  function ProductsWithId(products: seq<Product>, id: Option<int>): seq<Product>
  {
    Filter(products, (p: Product) => p.id == id)
  }

  /** Deleting by id drops the entries carrying that id and nothing else: the two filters account for the whole list. */
  lemma RemoveProductExact(products: seq<Product>, id: Option<int>)
    ensures |RemoveProduct(products, id)| + |ProductsWithId(products, id)| == |products|
  {
    FilterPartition(products, (p: Product) => p.id != id, (p: Product) => p.id == id);
  }

  // ---------------------------------------------------------------------
  // The page

  class Dashboard {
    var products: seq<Product>
    var categories: seq<Category>
    var isAddingProduct: bool
    var isAddingCategory: bool
    var editingProduct: Option<Product>
    var editingCategory: Option<Category>
    var isAuthenticated: bool
    var isLoading: bool

    constructor ()
      ensures products == [] && categories == []
      ensures !isAddingProduct && !isAddingCategory
      ensures editingProduct == None && editingCategory == None
      ensures !isAuthenticated && isLoading && ShowsSpinner()
    {
      products, categories := [], [];
      isAddingProduct, isAddingCategory := false, false;
      editingProduct, editingCategory := None, None;
      isAuthenticated, isLoading := false, true;
    }

    /** While this holds the page shows only a spinner. */
    predicate ShowsSpinner()
      reads this
    {
      !isAuthenticated || isLoading
    }

    /**
     * The mount effect. Without a stored `adminToken` the page redirects to
     * the login page and loads nothing; with one it loads both lists.
     */
    method Mount(storage: LocalStorage, productRows: FetchReply<Product>, categoryRows: FetchReply<Category>)
      returns (redirect: Option<string>)
      modifies this
      ensures !StringTruthy(storage.GetItem("adminToken")) ==>
        redirect == Some(LoginPath) && unchanged(this)
      ensures StringTruthy(storage.GetItem("adminToken")) ==>
        redirect == None && isAuthenticated && !isLoading && !ShowsSpinner() &&
        Fetched(old(products), old(categories), productRows, categoryRows)
      ensures isAddingProduct == old(isAddingProduct) && isAddingCategory == old(isAddingCategory)
      ensures editingProduct == old(editingProduct) && editingCategory == old(editingCategory)
    {
      var token := storage.GetItem("adminToken");
      if !StringTruthy(token) {
        redirect := Some(LoginPath);
      } else {
        redirect := None;
        isAuthenticated := true;
        FetchData(productRows, categoryRows);
      }
    }

    /** The lists after a load: both replaced when both selects succeed (null data as []), else both kept. */
    ghost predicate Fetched(oldProducts: seq<Product>, oldCategories: seq<Category>,
                            productRows: FetchReply<Product>, categoryRows: FetchReply<Category>)
      reads this
    {
      if productRows.Rows? && categoryRows.Rows? then
        products == (if productRows.data.Some? then productRows.data.value else []) &&
        categories == (if categoryRows.data.Some? then categoryRows.data.value else [])
      else
        products == oldProducts && categories == oldCategories
    }

    method FetchData(productRows: FetchReply<Product>, categoryRows: FetchReply<Category>)
      modifies this
      ensures !isLoading && Fetched(old(products), old(categories), productRows, categoryRows)
      ensures isAuthenticated == old(isAuthenticated)
      ensures ShowsSpinner() <==> !isAuthenticated
      ensures isAddingProduct == old(isAddingProduct) && isAddingCategory == old(isAddingCategory)
      ensures editingProduct == old(editingProduct) && editingCategory == old(editingCategory)
    {
      isLoading := true;
      if productRows.Rows? && categoryRows.Rows? {
        products := if productRows.data.Some? then productRows.data.value else [];
        categories := if categoryRows.data.Some? then categoryRows.data.value else [];
      }
      isLoading := false;
    }

    /** `handleLogout`: forget the session and go to the login page. */
    method Logout(storage: LocalStorage) returns (redirect: string)
      modifies storage
      ensures storage.items == old(storage.items) - {"adminToken", "adminUsername"}
      ensures storage.GetItem("adminToken") == None && storage.GetItem("adminUsername") == None
      ensures redirect == LoginPath
    {
      storage.RemoveItem("adminToken");
      storage.RemoveItem("adminUsername");
      redirect := LoginPath;
    }

    method AddProduct(product: Product, reply: InsertReply<Product>) returns (request: Request, outcome: Outcome)
      modifies this`products, this`isAddingProduct
      ensures request == InsertProduct(ProductPayload(product))
      ensures reply.Inserted? ==>
        outcome == Succeeded && products == old(products) + [reply.row] && !isAddingProduct
      ensures reply.InsertError? ==>
        outcome == Failed && products == old(products) && isAddingProduct == old(isAddingProduct)
    {
      request := InsertProduct(ProductPayload(product));
      if reply.Inserted? {
        products := products + [reply.row];
        isAddingProduct := false;
        outcome := Succeeded;
      } else {
        outcome := Failed;
      }
    }

    method AddCategory(category: Category, reply: InsertReply<Category>) returns (request: Request, outcome: Outcome)
      modifies this`categories, this`isAddingCategory
      ensures request == InsertCategory(CategoryPayload(category))
      ensures reply.Inserted? ==>
        outcome == Succeeded && categories == old(categories) + [reply.row] && !isAddingCategory
      ensures reply.InsertError? ==>
        outcome == Failed && categories == old(categories) && isAddingCategory == old(isAddingCategory)
      ensures ReferencesResolve(products, old(categories)) ==> ReferencesResolve(products, categories)
    {
      request := InsertCategory(CategoryPayload(category));
      if reply.Inserted? {
        if ReferencesResolve(products, categories) {
          GrowShrinkKeepsReferences(products, categories, reply.row, None);
        }
        categories := categories + [reply.row];
        isAddingCategory := false;
        outcome := Succeeded;
      } else {
        outcome := Failed;
      }
    }

    /** `handleEditProduct`; `failed` is whether the update reported an error. */
    method EditProduct(product: Product, failed: bool) returns (request: Request, outcome: Outcome)
      modifies this`products, this`editingProduct
      ensures request == UpdateProduct(ProductPayload(product), product.id)
      ensures !failed ==>
        outcome == Succeeded && products == ReplaceProduct(old(products), product) && editingProduct == None
      ensures failed ==>
        outcome == Failed && products == old(products) && editingProduct == old(editingProduct)
    {
      request := UpdateProduct(ProductPayload(product), product.id);
      if !failed {
        products := ReplaceProduct(products, product);
        editingProduct := None;
        outcome := Succeeded;
      } else {
        outcome := Failed;
      }
    }

    method EditCategory(category: Category, failed: bool) returns (request: Request, outcome: Outcome)
      modifies this`categories, this`editingCategory
      ensures request == UpdateCategory(CategoryPayload(category), category.id)
      ensures !failed ==>
        outcome == Succeeded && categories == ReplaceCategory(old(categories), category) && editingCategory == None
      ensures failed ==>
        outcome == Failed && categories == old(categories) && editingCategory == old(editingCategory)
      ensures ReferencesResolve(products, old(categories)) ==> ReferencesResolve(products, categories)
    {
      request := UpdateCategory(CategoryPayload(category), category.id);
      if !failed {
        if ReferencesResolve(products, categories) {
          EditKeepsReferences(products, categories, category);
        }
        categories := ReplaceCategory(categories, category);
        editingCategory := None;
        outcome := Succeeded;
      } else {
        outcome := Failed;
      }
    }

    /**
     * `handleDeleteProduct`: `confirmed` is the answer to the prompt, `failed`
     * whether the delete reported an error.
     */
    method DeleteProductById(id: Option<int>, confirmed: bool, failed: bool)
      returns (request: Option<Request>, outcome: Outcome)
      modifies this`products
      ensures !confirmed ==> request == None && outcome == Declined && products == old(products)
      ensures confirmed ==> request == Some(DeleteProduct(id))
      ensures confirmed && failed ==> outcome == Failed && products == old(products)
      ensures confirmed && !failed ==> outcome == Succeeded && products == RemoveProduct(old(products), id)
      ensures ReferencesResolve(old(products), categories) ==> ReferencesResolve(products, categories)
    {
      if !confirmed {
        request, outcome := None, Declined;
        return;
      }
      request := Some(DeleteProduct(id));
      if failed {
        outcome := Failed;
      } else {
        if ReferencesResolve(products, categories) {
          GrowShrinkKeepsReferences(products, categories, Category(None, "", "", "", ""), id);
        }
        products := RemoveProduct(products, id);
        outcome := Succeeded;
      }
    }

    /**
     * `handleDeleteCategory`: refused, before any prompt, while a product in
     * the list refers to the category; `asked` says whether the prompt was shown.
     */
    method DeleteCategoryById(id: Option<int>, confirmed: bool, failed: bool)
      returns (asked: bool, request: Option<Request>, outcome: Outcome)
      modifies this`categories
      ensures asked <==> ProductCount(products, id) == 0
      ensures !asked ==> request == None && outcome == Refused
      ensures asked && !confirmed ==> request == None && outcome == Declined
      ensures asked && confirmed ==> request == Some(DeleteCategory(id))
      ensures asked && confirmed && failed ==> outcome == Failed && categories == old(categories)
      ensures asked && confirmed && !failed ==>
        outcome == Succeeded && categories == RemoveCategory(old(categories), id)
      ensures outcome != Succeeded ==> categories == old(categories)
      ensures ReferencesResolve(products, old(categories)) ==> ReferencesResolve(products, categories)
    {
      if ProductCount(products, id) > 0 {
        asked, request, outcome := false, None, Refused;
        return;
      }
      asked := true;
      if !confirmed {
        request, outcome := None, Declined;
        return;
      }
      request := Some(DeleteCategory(id));
      if failed {
        outcome := Failed;
      } else {
        if ReferencesResolve(products, categories) {
          GuardKeepsReferences(products, categories, id);
        }
        categories := RemoveCategory(categories, id);
        outcome := Succeeded;
      }
    }

    /** The edit buttons open a modal on a list entry; cancelling closes it. */
    method StartEditProduct(product: Product)
      modifies this`editingProduct
      ensures editingProduct == Some(product)
    {
      editingProduct := Some(product);
    }

    method CancelEditProduct()
      modifies this`editingProduct
      ensures editingProduct == None
    {
      editingProduct := None;
    }

    method StartEditCategory(category: Category)
      modifies this`editingCategory
      ensures editingCategory == Some(category)
    {
      editingCategory := Some(category);
    }

    method CancelEditCategory()
      modifies this`editingCategory
      ensures editingCategory == None
    {
      editingCategory := None;
    }
  }
}
