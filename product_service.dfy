/**
 * `ProductService`: creating a product (refused when the pharmacy already has
 * one with that name or barcode), updating one (the stock timestamp and the
 * prescription flag, and the unique indexes refusing a name or barcode that
 * another product of the pharmacy has), and listing the products of a user's
 * pharmacies.
 */
module ProductService {
  import opened Wrappers
  import opened ObjectIds
  import opened PharmacyEntity
  import opened PharmacyService
  import opened ProductDto

  /** A product document. */
  datatype Product = Product(
    name: string,
    description: string,
    pharmacyId: ObjectId,
    image: string,
    stock: int,
    barcode: string,
    genericName: Option<string>,
    category: ObjectId,
    requiresPrescription: bool,
    lastStockUpdate: Option<int>)

  datatype ProductResponse = ProductResponse(message: string, product: Product)

  const DuplicateProduct := HttpError(BadRequest, "You already have a product with this name or barcode")
  const CreateProductSuccess := "Product created"
  const ValidationErrorPrefix := "Validation Error: "
  const ProductMissing := HttpError(BadRequest, "This product doesn't exist")
  const UpdateProductSuccess := "Product updated successfully"
  /**
   * The duplicate-key error of a `$set` that breaks a unique index: no
   * `HttpException`, so a 500. As for every thrown error, the message is the
   * error's own, here the head of the driver's text.
   */
  const DuplicateKeyFailure := HttpError(InternalServerError, "E11000 duplicate key error")

  /** `findProductByPharmacyIdAndBarcodeAndName` finds something: a product of the pharmacy with the barcode or the name. */
  predicate HasClash(products: map<ObjectId, Product>, pharmacyId: ObjectId, barcode: string, name: string) {
    exists k | k in products :: products[k].pharmacyId == pharmacyId && (products[k].barcode == barcode || products[k].name == name)
  }

  /** The unique indexes on (pharmacyId, name) and (pharmacyId, barcode). */
  ghost predicate ProductsUnique(products: map<ObjectId, Product>) {
    forall a, b | a in products && b in products && a != b && products[a].pharmacyId == products[b].pharmacyId ::
      products[a].name != products[b].name && products[a].barcode != products[b].barcode
  }

  /** Another product of pharmacy `pharmacyId` than `productId` already has that name or barcode. */
  predicate IndexClash(products: map<ObjectId, Product>, productId: ObjectId, pharmacyId: ObjectId, name: string, barcode: string) {
    exists k | k in products && k != productId ::
      products[k].pharmacyId == pharmacyId && (products[k].name == name || products[k].barcode == barcode)
  }

  /** Mongoose's cast of a string to a Boolean path: "true", "1", "yes" and "false", "0", "no"; anything else fails. */
  function CastBoolean(s: string): Option<bool> {
    if s in {"true", "1", "yes"} then Some(true)
    else if s in {"false", "0", "no"} then Some(false)
    else None
  }

  /**
   * `handleCreateProduct`. `newId` is the id the database gives the document;
   * `validationMessage` is the text of mongoose's validation error, should
   * the save fail it (a missing image, a prescription flag that is no Boolean).
   */
  function CreateProductSpec(products: map<ObjectId, Product>, dto: ProductDto, newId: ObjectId, validationMessage: string)
    : (r: (Result<string>, map<ObjectId, Product>))
  {
    match ToObjectId(dto.pharmacyId)
      case Err(e) => (Err(e), products)
      case Ok(pid) =>
        if HasClash(products, pid, dto.barcode, dto.name) then (Err(DuplicateProduct), products)
        else
          match ToObjectId(dto.category)
            case Err(e) => (Err(e), products)
            case Ok(cid) =>
              var prescription := CastBoolean(dto.requiresPrescription);
              if dto.image.None? || dto.image.value == "" || prescription.None? then
                (Err(HttpError(BadRequest, ValidationErrorPrefix + validationMessage)), products)
              else
                (Ok(CreateProductSuccess),
                 products[newId := Product(dto.name, dto.description, pid, dto.image.value, dto.stock, dto.barcode,
                                           dto.genericName, cid, prescription.value, dto.lastStockUpdate)])
  }

  /** Creation is refused exactly when the pharmacy already has a product with that name or barcode, checked first. */
  lemma CreateProductOutcome(products: map<ObjectId, Product>, dto: ProductDto, newId: ObjectId, validationMessage: string)
    requires IsMongoId(dto.pharmacyId) && IsMongoId(dto.category)
    ensures var (r, after) := CreateProductSpec(products, dto, newId, validationMessage);
      var pid := ToObjectId(dto.pharmacyId).value;
      && (HasClash(products, pid, dto.barcode, dto.name) ==> r == Err(DuplicateProduct))
      && (r.Err? ==> after == products)
      && (r.Ok? <==>
            (!HasClash(products, pid, dto.barcode, dto.name) && dto.image.Some? && dto.image.value != ""
             && CastBoolean(dto.requiresPrescription).Some?))
      && (r.Ok? ==>
            (after.Keys == products.Keys + {newId} && (forall k | k in products && k != newId :: after[k] == products[k])
             && after[newId].pharmacyId == pid && after[newId].category == ToObjectId(dto.category).value
             && after[newId].name == dto.name && after[newId].barcode == dto.barcode
             && after[newId].description == dto.description && after[newId].stock == dto.stock
             && after[newId].image == dto.image.value && after[newId].genericName == dto.genericName
             && after[newId].lastStockUpdate == dto.lastStockUpdate
             && (after[newId].requiresPrescription <==> dto.requiresPrescription in {"true", "1", "yes"})))
  {
  }

  /** A created product never shares a name or barcode with another product of its pharmacy. */
  lemma CreateKeepsProductsUnique(products: map<ObjectId, Product>, dto: ProductDto, newId: ObjectId, validationMessage: string)
    requires ProductsUnique(products) && newId !in products
    ensures ProductsUnique(CreateProductSpec(products, dto, newId, validationMessage).1)
  {
    var (r, after) := CreateProductSpec(products, dto, newId, validationMessage);
    if r.Ok? {
      var pid := ToObjectId(dto.pharmacyId).value;
      assert !HasClash(products, pid, dto.barcode, dto.name);
      forall a, b | a in after && b in after && a != b && after[a].pharmacyId == after[b].pharmacyId
        ensures after[a].name != after[b].name && after[a].barcode != after[b].barcode
      {
        if a == newId {
          assert b in products;
        } else if b == newId {
          assert a in products;
        }
      }
    }
  }

  /** The product `handleUpdateProduct` writes over `stored`, with the converted ids and the clock reading `now`. */
  function UpdatedProduct(stored: Product, dto: ProductDto, pid: ObjectId, cid: ObjectId, now: int): Product {
    Product(
      dto.name, dto.description, pid, dto.image.GetOr(stored.image), dto.stock, dto.barcode,
      if dto.genericName.Some? then dto.genericName else stored.genericName,
      cid,
      dto.requiresPrescription == "true",
      if dto.stock != stored.stock then Some(now)
      else if dto.lastStockUpdate.Some? then dto.lastStockUpdate
      else stored.lastStockUpdate)
  }

  /** `handleUpdateProduct(dto, productId)` at time `now`. */
  function UpdateProductSpec(products: map<ObjectId, Product>, dto: ProductDto, productId: string, now: int)
    : (r: (Result<ProductResponse>, map<ObjectId, Product>))
  {
    match (ToObjectId(dto.pharmacyId), ToObjectId(dto.category), ToObjectId(productId))
      case (Err(e), _, _) => (Err(e), products)
      case (_, Err(e), _) => (Err(e), products)
      case (_, _, Err(e)) => (Err(e), products)
      case (Ok(pid), Ok(cid), Ok(prid)) =>
        if prid !in products || products[prid].pharmacyId != pid then (Err(ProductMissing), products)
        else if IndexClash(products, prid, pid, dto.name, dto.barcode) then (Err(DuplicateKeyFailure), products)
        else
          var updated := UpdatedProduct(products[prid], dto, pid, cid, now);
          (Ok(ProductResponse(UpdateProductSuccess, updated)), products[prid := updated])
  }

  /**
   * An update of a product that is not in the given pharmacy, or one that would
   * give it the name or barcode of another product of the pharmacy, is refused
   * and writes nothing; otherwise only that product changes.
   */
  lemma UpdateProductOutcome(products: map<ObjectId, Product>, dto: ProductDto, productId: string, now: int)
    requires IsMongoId(dto.pharmacyId) && IsMongoId(dto.category) && IsMongoId(productId)
    ensures var (r, after) := UpdateProductSpec(products, dto, productId, now);
      var pid := ToObjectId(dto.pharmacyId).value;
      var prid := ToObjectId(productId).value;
      && (r.Ok? <==> prid in products && products[prid].pharmacyId == pid && !IndexClash(products, prid, pid, dto.name, dto.barcode))
      && ((prid !in products || products[prid].pharmacyId != pid) ==> r == Err(ProductMissing))
      && (prid in products && products[prid].pharmacyId == pid && IndexClash(products, prid, pid, dto.name, dto.barcode)
          ==> r == Err(HttpError(InternalServerError, "E11000 duplicate key error")))
      && (r.Err? ==> after == products)
      && (r.Ok? ==>
            (after.Keys == products.Keys && (forall k | k in products && k != prid :: after[k] == products[k])
             && r.value.product == after[prid]
             && after[prid] == UpdatedProduct(products[prid], dto, pid, ToObjectId(dto.category).value, now)))
  {
  }

  /** An update never gives a product the name or barcode of another product of its pharmacy. */
  lemma UpdateKeepsProductsUnique(products: map<ObjectId, Product>, dto: ProductDto, productId: string, now: int)
    requires ProductsUnique(products)
    ensures ProductsUnique(UpdateProductSpec(products, dto, productId, now).1)
  {
    var (r, after) := UpdateProductSpec(products, dto, productId, now);
    if r.Ok? {
      var pid := ToObjectId(dto.pharmacyId).value;
      var prid := ToObjectId(productId).value;
      assert !IndexClash(products, prid, pid, dto.name, dto.barcode);
      assert after == products[prid := UpdatedProduct(products[prid], dto, pid, ToObjectId(dto.category).value, now)];
      forall a, b | a in after && b in after && a != b && after[a].pharmacyId == after[b].pharmacyId
        ensures after[a].name != after[b].name && after[a].barcode != after[b].barcode
      {
        if a == prid {
          assert b in products && products[b].pharmacyId == pid;
        } else if b == prid {
          assert a in products && products[a].pharmacyId == pid;
        }
      }
    }
  }

  /**
   * The clock reaches `lastStockUpdate` exactly when the stock changes: for two
   * different clock readings the written timestamps differ iff the new stock
   * differs from the stored one, and a changed stock is stamped with the clock.
   */
  lemma StockTimestampRule(stored: Product, dto: ProductDto, pid: ObjectId, cid: ObjectId, now: int, later: int)
    requires now != later
    ensures dto.stock != stored.stock ==> UpdatedProduct(stored, dto, pid, cid, now).lastStockUpdate == Some(now)
    ensures UpdatedProduct(stored, dto, pid, cid, now).lastStockUpdate != UpdatedProduct(stored, dto, pid, cid, later).lastStockUpdate
        <==> dto.stock != stored.stock
    ensures dto.stock == stored.stock && dto.lastStockUpdate.None? ==>
      UpdatedProduct(stored, dto, pid, cid, now).lastStockUpdate == stored.lastStockUpdate
  {
  }

  /**
   * The update writes the prescription flag as true only for the exact text
   * "true", and the ids converted from the form (lower-case, canonical), not
   * the form's strings. Creation casts the flag the mongoose way, so "1" and
   * "yes" store true when creating but false when updating.
   */
  lemma UpdateWritesConvertedValues(stored: Product, dto: ProductDto, now: int)
    requires IsMongoId(dto.pharmacyId) && IsMongoId(dto.category)
    ensures var q := UpdatedProduct(stored, dto, ToObjectId(dto.pharmacyId).value, ToObjectId(dto.category).value, now);
      && (q.requiresPrescription <==> dto.requiresPrescription == "true")
      && q.stock == dto.stock && (q.stock != stored.stock ==> q.lastStockUpdate == Some(now))
      && IsCanonical(q.pharmacyId) && IsCanonical(q.category)
      && ToObjectId(q.pharmacyId.hex) == ToObjectId(dto.pharmacyId)
      && ToObjectId(q.category.hex) == ToObjectId(dto.category)
    ensures CastBoolean("yes") == Some(true) && CastBoolean("1") == Some(true)
    ensures !UpdatedProduct(stored, dto.(requiresPrescription := "yes"), stored.pharmacyId, stored.category, now).requiresPrescription
  {
    var pid := ToObjectId(dto.pharmacyId).value;
    var cid := ToObjectId(dto.category).value;
    CanonicalRoundTrip(pid);
    CanonicalRoundTrip(cid);
  }

  /**
   * `handleGetPharmacyProducts(userId)`: the products of every pharmacy the
   * user owns, keyed by product id.
   */
  function PharmacyProducts(pharmacies: map<ObjectId, Pharmacy>, products: map<ObjectId, Product>, userId: string)
    : (r: Result<map<ObjectId, Product>>)
    ensures r.Err? <==> !IsMongoId(userId)
    ensures r.Ok? ==> forall k | k in r.value :: k in products && r.value[k] == products[k]
    ensures r.Ok? ==> forall k | k in products ::
      k in r.value <==> (products[k].pharmacyId in pharmacies
                         && pharmacies[products[k].pharmacyId].userId == ToObjectId(userId).value)
  {
    match ToObjectId(userId)
      case Err(e) => Err(e)
      case Ok(uid) =>
        var ids := OwnedBy(pharmacies, uid);
        Ok(map k | k in products && products[k].pharmacyId in ids :: products[k])
  }

  /** Products of a pharmacy that someone else owns, or that no longer exists, are never listed. */
  lemma OthersProductsNotListed(pharmacies: map<ObjectId, Pharmacy>, products: map<ObjectId, Product>, userId: string, k: ObjectId)
    requires IsMongoId(userId) && k in products
    requires products[k].pharmacyId !in pharmacies || pharmacies[products[k].pharmacyId].userId != ToObjectId(userId).value
    ensures k !in PharmacyProducts(pharmacies, products, userId).value
  {
  }

  /** The product collection. */
  class ProductStore {
    var products: map<ObjectId, Product>

    constructor ()
      ensures products == map[]
    {
      products := map[];
    }
  }

  /** The service over the product collection. */
  class ProductService {
    const productStore: ProductStore

    /** The collection keeps its unique indexes. */
    ghost predicate Valid()
      reads this, productStore
    {
      ProductsUnique(productStore.products)
    }

    constructor (productStore: ProductStore)
      requires ProductsUnique(productStore.products)
      ensures this.productStore == productStore && Valid()
    {
      this.productStore := productStore;
    }

    /** `handleCreateProduct` (see `CreateProductSpec`). */
    method HandleCreateProduct(dto: ProductDto, newId: ObjectId, validationMessage: string) returns (r: Result<string>)
      requires Valid() && newId !in productStore.products
      modifies productStore
      ensures var (expected, after) := CreateProductSpec(old(productStore.products), dto, newId, validationMessage);
        r == expected && productStore.products == after
      ensures Valid()
    {
      CreateKeepsProductsUnique(productStore.products, dto, newId, validationMessage);
      var pharmacyObjectId := ToObjectId(dto.pharmacyId);
      if pharmacyObjectId.Err? {
        return Err(pharmacyObjectId.error);
      }
      var pid := pharmacyObjectId.value;
      var noneFound := !HasClash(productStore.products, pid, dto.barcode, dto.name);
      if !noneFound {
        return Err(DuplicateProduct);
      }
      var categoryObjectId := ToObjectId(dto.category);
      if categoryObjectId.Err? {
        return Err(categoryObjectId.error);
      }
      var prescription := CastBoolean(dto.requiresPrescription);
      if dto.image.None? || dto.image.value == "" || prescription.None? {
        return Err(HttpError(BadRequest, ValidationErrorPrefix + validationMessage));
      }
      var product := Product(dto.name, dto.description, pid, dto.image.value, dto.stock, dto.barcode,
                             dto.genericName, categoryObjectId.value, prescription.value, dto.lastStockUpdate);
      productStore.products := productStore.products[newId := product];
      r := Ok(CreateProductSuccess);
    }

    /** `handleUpdateProduct` at time `now`: `productData` is the form with the ids converted, then the conditional fields. */
    method HandleUpdateProduct(dto: ProductDto, productId: string, now: int) returns (r: Result<ProductResponse>)
      requires Valid()
      modifies productStore
      ensures var (expected, after) := UpdateProductSpec(old(productStore.products), dto, productId, now);
        r == expected && productStore.products == after
      ensures Valid()
    {
      UpdateKeepsProductsUnique(productStore.products, dto, productId, now);
      var pharmacyObjectId := ToObjectId(dto.pharmacyId);
      if pharmacyObjectId.Err? {
        return Err(pharmacyObjectId.error);
      }
      var categoryObjectId := ToObjectId(dto.category);
      if categoryObjectId.Err? {
        return Err(categoryObjectId.error);
      }
      var productObjectId := ToObjectId(productId);
      if productObjectId.Err? {
        return Err(productObjectId.error);
      }
      var prid := productObjectId.value;
      if prid !in productStore.products || productStore.products[prid].pharmacyId != pharmacyObjectId.value {
        return Err(ProductMissing);
      }
      var product := productStore.products[prid];
      if IndexClash(productStore.products, prid, pharmacyObjectId.value, dto.name, dto.barcode) {
        return Err(DuplicateKeyFailure);
      }
      var productData := Product(
        dto.name, dto.description, pharmacyObjectId.value, dto.image.GetOr(product.image), dto.stock, dto.barcode,
        if dto.genericName.Some? then dto.genericName else product.genericName,
        categoryObjectId.value, false,
        if dto.lastStockUpdate.Some? then dto.lastStockUpdate else product.lastStockUpdate);
      if dto.stock != product.stock {
        productData := productData.(lastStockUpdate := Some(now));
      }
      productData := productData.(requiresPrescription := dto.requiresPrescription == "true");
      productStore.products := productStore.products[prid := productData];
      r := Ok(ProductResponse(UpdateProductSuccess, productData));
    }
  }
}
