/** The product resolver (src/resolvers/product.ts): listing, presigned
    upload requests for product images, and the administrator's create,
    update and delete. Images live in the storage bucket under the key
    "products/" followed by the product id. */
module ProductResolver {
  import opened Wrappers
  import opened Documents
  import opened Store
  import Listing
  import Config

  const KEY_PREFIX := "products/"
  /** Presigned upload URLs expire after five minutes. */
  const UPLOAD_EXPIRY_SECONDS := 60 * 5
  /** The product schema's image default is `false`, which Mongoose stores
      as the text "false". */
  const NO_IMAGE := "false"
  /** Stands for the database driver's duplicate-key error message. */
  const DUPLICATE_KEY := "E11000 duplicate key error"

  /** The storage key of a product's image. */
  function ImageKey(id: string): (key: string)
    ensures |key| == |KEY_PREFIX| + |id| && key[..|KEY_PREFIX|] == KEY_PREFIX && key[|KEY_PREFIX|..] == id
  {
    KEY_PREFIX + id
  }

  /** Distinct products never share an image key. */
  lemma ImageKeyInjective(a: string, b: string)
    ensures ImageKey(a) == ImageKey(b) <==> a == b
  {
    if ImageKey(a) == ImageKey(b) {
      assert a == ImageKey(a)[|KEY_PREFIX|..] == ImageKey(b)[|KEY_PREFIX|..] == b;
    }
  }

  /** JavaScript truthiness of an optional text. */
  predicate Truthy(s: Option<string>) { s.Some? && s.value != "" }

  // ---------------------------------------------------------------------------
  // products, product

  /** `products(params)`: the query options; `params` is nullable here. */
  method ProductsQuery(db: Db, args: Option<Listing.ParamsArgs>)
    returns (items: map<string, Product>, options: Listing.QueryOptions)
    ensures items == db.products
    ensures options == Listing.QueryOptionsFor(args)
    ensures args.None? ==> options == Listing.NO_OPTIONS
    ensures options.limit.Some? <==> Listing.Paginated(args)
    ensures options.sort.Some? <==> Listing.Sorted(args)
  {
    options := Listing.BuildQueryOptions(args);
    items := db.products;
  }

  /** `product(id)` */
  method ProductQuery(db: Db, isValid: string -> bool, id: string) returns (r: Result<Product, Failure>)
    ensures r.Ok? <==> isValid(id) && id in db.products
    ensures r.Ok? ==> r.value == db.products[id]
    ensures isValid(id) && id !in db.products ==> r == Err(Fail(PRODUCT_NOT_FOUND))
  {
    r := FindById(db.products, isValid, id, PRODUCT_NOT_FOUND);
  }

  // ---------------------------------------------------------------------------
  // getProductPresignedUrl

  /** What is handed to the storage client to sign; the signing itself is a
      foreign call. */
  datatype PresignRequest = PresignRequest(operation: string, bucket: string, key: string, expires: int)

  /** `getProductPresignedUrl(id)`: `freshId` is the ObjectId generated when
      no id is given. */
  function PresignedUpload(products: map<string, Product>, isValid: string -> bool, id: Option<string>,
                           freshId: string, env: Config.Env)
    : (r: Result<PresignRequest, Failure>)
    ensures Truthy(id) && !isValid(id.value) ==> r == Err(Fail(INVALID_ID))
    ensures Truthy(id) && isValid(id.value) && id.value !in products ==> r == Err(Fail(PRODUCT_NOT_FOUND))
    ensures r.Ok? <==> !Truthy(id) || (isValid(id.value) && id.value in products)
    ensures r.Ok? ==> r.value.operation == "putObject" && r.value.bucket == env.bucket && r.value.expires == 300
    ensures r.Ok? && Truthy(id) ==> r.value.key == ImageKey(id.value)
    ensures r.Ok? && !Truthy(id) ==> r.value.key == ImageKey(freshId)
  {
    if Truthy(id) && !isValid(id.value) then Err(Fail(INVALID_ID))
    else if Truthy(id) && id.value !in products then Err(Fail(PRODUCT_NOT_FOUND))
    else
      var productId := if Truthy(id) then id.value else freshId;
      Ok(PresignRequest("putObject", env.bucket, ImageKey(productId), UPLOAD_EXPIRY_SECONDS))
  }

  method GetProductPresignedUrl(db: Db, isValid: string -> bool, id: Option<string>, freshId: string, env: Config.Env)
    returns (r: Result<PresignRequest, Failure>)
    ensures r == PresignedUpload(db.products, isValid, id, freshId, env)
  {
    if Truthy(id) {
      if !isValid(id.value) {
        return Err(Fail(INVALID_ID));
      }
      if id.value !in db.products {
        return Err(Fail(PRODUCT_NOT_FOUND));
      }
    }
    var productId := if Truthy(id) then id.value else freshId;
    var secondsInFiveMinutes := 60 * 5;
    return Ok(PresignRequest("putObject", env.bucket, KEY_PREFIX + productId, secondsInFiveMinutes));
  }

  // ---------------------------------------------------------------------------
  // createProduct

  /** `ProductInput` */
  datatype ProductInput = ProductInput(id: string, name: string, image: Option<string>, price: int)

  /** The stored document `Product.create` makes at time `now`. */
  function NewProduct(input: ProductInput, now: int): (p: Product)
    ensures p.id == input.id && p.name == input.name && p.price == input.price && p.updatedAt == now
    ensures p.image == (if input.image.Some? then input.image.value else NO_IMAGE)
  {
    Product(input.id, input.name, input.price, if input.image.Some? then input.image.value else NO_IMAGE, now)
  }

  /** `createProduct(params)`: the outcome and the products afterwards. */
  function CreateProductResult(products: map<string, Product>, isValid: string -> bool, input: ProductInput, now: int)
    : (r: (Result<string, Failure>, map<string, Product>))
    ensures r.0.Ok? <==> isValid(input.id) && input.id !in products
    ensures !isValid(input.id) ==> r.0 == Err(Fail(INVALID_ID))
    ensures r.0.Err? ==> r.1 == products
    ensures r.0.Ok? ==> r.0.value == SUCCESS && r.1 == products[input.id := NewProduct(input, now)]
  {
    if !isValid(input.id) then (Err(Fail(INVALID_ID)), products)
    else if input.id in products then (Err(Fail(DUPLICATE_KEY)), products)
    else (Ok(SUCCESS), products[input.id := NewProduct(input, now)])
  }

  method CreateProduct(db: Db, isValid: string -> bool, input: ProductInput, now: int) returns (r: Result<string, Failure>)
    requires db.Valid()
    modifies db`products
    ensures db.Valid()
    ensures (r, db.products) == CreateProductResult(old(db.products), isValid, input, now)
  {
    if !isValid(input.id) {
      return Err(Fail(INVALID_ID));
    }
    if input.id in db.products {
      return Err(Fail(DUPLICATE_KEY));
    }
    db.products := db.products[input.id := NewProduct(input, now)];
    return Ok(SUCCESS);
  }

  // ---------------------------------------------------------------------------
  // updateProduct

  /** The `$set` document: name and price always, the image only when a
      non-empty one is given. */
  datatype ProductUpdate = ProductUpdate(name: string, price: int, image: Option<string>)

  method BuildUpdate(input: ProductInput) returns (update: ProductUpdate)
    ensures update.name == input.name && update.price == input.price
    ensures update.image.Some? <==> Truthy(input.image)
    ensures update.image.Some? ==> update.image == input.image
  {
    update := ProductUpdate(input.name, input.price, None);
    if Truthy(input.image) {
      update := update.(image := input.image);
    }
  }

  /** The product after `$set`; the timestamps plugin adds `updatedAt`. */
  function Applied(p: Product, update: ProductUpdate, now: int): (p': Product)
    ensures p'.id == p.id && p'.name == update.name && p'.price == update.price && p'.updatedAt == now
    ensures p'.image == (if update.image.Some? then update.image.value else p.image)
  {
    p.(name := update.name, price := update.price, updatedAt := now,
       image := if update.image.Some? then update.image.value else p.image)
  }

  /** `updateProduct(params)` at time `now`. The store reports how many
      documents changed, and the resolver takes zero for a missing product. */
  function UpdateProductResult(products: map<string, Product>, isValid: string -> bool, input: ProductInput, now: int)
    : (r: (Result<string, Failure>, map<string, Product>))
    ensures !isValid(input.id) ==> r == (Err(Fail(INVALID_ID)), products)
    ensures isValid(input.id) && input.id !in products ==> r == (Err(Fail(PRODUCT_NOT_FOUND)), products)
    ensures r.0.Ok? ==> r.0.value == SUCCESS
    ensures r.0.Ok? <==> (isValid(input.id) && input.id in products &&
      products[input.id] != Applied(products[input.id], ProductUpdate(input.name, input.price,
        if Truthy(input.image) then input.image else None), now))
    ensures isValid(input.id) && input.id in products ==> r.1 == products[input.id := Applied(products[input.id],
      ProductUpdate(input.name, input.price, if Truthy(input.image) then input.image else None), now)]
  {
    var update := ProductUpdate(input.name, input.price, if Truthy(input.image) then input.image else None);
    if !isValid(input.id) then (Err(Fail(INVALID_ID)), products)
    else if input.id !in products then (Err(Fail(PRODUCT_NOT_FOUND)), products)
    else
      var updated := Applied(products[input.id], update, now);
      var nModified := if updated != products[input.id] then 1 else 0;
      (if nModified == 0 then Err(Fail(PRODUCT_NOT_FOUND)) else Ok(SUCCESS), products[input.id := updated])
  }

  /** Because every update stamps the time, an update of a stored product
      at a new instant always succeeds; an empty image keeps the stored one. */
  lemma UpdateOfStoredProduct(products: map<string, Product>, isValid: string -> bool, input: ProductInput, now: int)
    requires isValid(input.id) && input.id in products && products[input.id].updatedAt != now
    ensures var r := UpdateProductResult(products, isValid, input, now);
      r.0 == Ok(SUCCESS) && input.id in r.1 &&
      r.1[input.id].name == input.name && r.1[input.id].price == input.price &&
      (Truthy(input.image) ==> r.1[input.id].image == input.image.value) &&
      (!Truthy(input.image) ==> r.1[input.id].image == products[input.id].image) &&
      forall id | id in products && id != input.id :: id in r.1 && r.1[id] == products[id]
  {
  }

  method UpdateProduct(db: Db, isValid: string -> bool, input: ProductInput, now: int) returns (r: Result<string, Failure>)
    requires db.Valid()
    modifies db`products
    ensures db.Valid()
    ensures (r, db.products) == UpdateProductResult(old(db.products), isValid, input, now)
  {
    if !isValid(input.id) {
      return Err(Fail(INVALID_ID));
    }
    var update := BuildUpdate(input);
    var nModified := 0;
    if input.id in db.products {
      var stored := db.products[input.id];
      var updated := Applied(stored, update, now);
      if updated != stored {
        nModified := 1;
      }
      db.products := db.products[input.id := updated];
    }
    if nModified == 0 {
      return Err(Fail(PRODUCT_NOT_FOUND));
    }
    return Ok(SUCCESS);
  }

  // ---------------------------------------------------------------------------
  // deleteProduct

  /** `deleteProduct(id)`: `storage` is the storage service's answer to the
      image deletion, asked only when the product has a non-empty image. */
  function DeleteProductResult(products: map<string, Product>, isValid: string -> bool, id: string,
                               env: Config.Env, storage: Delivery)
    : (r: (Result<string, Failure>, map<string, Product>, seq<Effect>))
    ensures !isValid(id) ==> r == (Err(Fail(INVALID_ID)), products, [])
    ensures isValid(id) && id !in products ==> r == (Err(Fail(PRODUCT_NOT_FOUND)), products, [])
    ensures r.0.Ok? <==> (isValid(id) && id in products && (products[id].image == "" || storage.Sent?))
    ensures r.0.Err? ==> r.1 == products && r.2 == []
    ensures r.0.Ok? ==> (r.0.value == SUCCESS && r.1 == products - {id} &&
      r.2 == if products[id].image != "" then [StorageDelete(env.bucket, ImageKey(id))] else [])
  {
    if !isValid(id) then (Err(Fail(INVALID_ID)), products, [])
    else if id !in products then (Err(Fail(PRODUCT_NOT_FOUND)), products, [])
    else if products[id].image != "" && storage.Refused? then (Err(Fail(storage.message)), products, [])
    else (Ok(SUCCESS), products - {id},
          if products[id].image != "" then [StorageDelete(env.bucket, ImageKey(id))] else [])
  }

  /** The image a presigned upload for a stored product wrote is the object
      its deletion removes; a product created without an image still has
      the truthy default, so its deletion asks the storage too. */
  lemma DeleteRemovesUploadedImage(products: map<string, Product>, isValid: string -> bool, id: string,
                                   freshId: string, env: Config.Env, now: int)
    requires id != "" && isValid(id) && id in products && products[id].image != ""
    ensures var upload := PresignedUpload(products, isValid, Some(id), freshId, env);
      var deleted := DeleteProductResult(products, isValid, id, env, Sent);
      upload.Ok? && deleted.2 == [StorageDelete(upload.value.bucket, upload.value.key)]
    ensures NewProduct(ProductInput(id, "", None, 0), now).image != ""
  {
    var upload := PresignedUpload(products, isValid, Some(id), freshId, env);
    assert upload.Ok? && upload.value.key == ImageKey(id);
    assert |NO_IMAGE| == 5;
  }

  method DeleteProduct(db: Db, isValid: string -> bool, id: string, env: Config.Env, storage: Delivery)
    returns (r: Result<string, Failure>)
    requires db.Valid()
    modifies db`products, db`effects
    ensures db.Valid()
    ensures var expected := DeleteProductResult(old(db.products), isValid, id, env, storage);
      r == expected.0 && db.products == expected.1 && db.effects == old(db.effects) + expected.2
  {
    if !isValid(id) {
      return Err(Fail(INVALID_ID));
    }
    if id !in db.products {
      return Err(Fail(PRODUCT_NOT_FOUND));
    }
    var product := db.products[id];
    if product.image != "" {
      if storage.Refused? {
        return Err(Fail(storage.message));
      }
      db.Emit(StorageDelete(env.bucket, KEY_PREFIX + id));
    }
    db.products := db.products - {id};
    return Ok(SUCCESS);
  }
}
