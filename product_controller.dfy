/** Creating and updating products (backend/controllers/productController.js). */
module ProductController {
  import opened Common
  import opened ProductModel

  const CreationFailed := "Product creation failed"
  const UpdateFailed := "Product update failed"
  const ProductNotFound := "Product not found"

  /** Uploads the image files one after the other, collecting their URLs in
      order; the first upload that fails aborts the whole request. */
  method UploadImages(files: seq<UploadedFile>) returns (urls: Option<seq<string>>)
    ensures urls.Some? <==> AllStored(files)
    ensures urls.Some? ==> urls.value == StoredUrls(files)
  {
    var images: seq<string> := [];
    var i := 0;
    while i < |files|
      invariant 0 <= i <= |files|
      invariant |images| == i
      invariant forall j :: 0 <= j < i ==> files[j].stored.Some? && images[j] == files[j].stored.value
    {
      match files[i].stored {
        case None =>
          return None;
        case Some(url) =>
          images := images + [url];
      }
      i := i + 1;
    }
    urls := Some(images);
  }

  /** The catalogue upload succeeded, or there was none. */
  predicate CatalogueStored(file: Option<UploadedFile>)
  {
    file.None? || file.value.stored.Some?
  }

  /** The document handed to `Product.create`: the caller as vendor unless the
      body names one, every body key, and then the uploaded images and the
      catalogue URL ("" without a catalogue) over whatever the body said. */
  function CreatedFields(caller: Id, body: ProductFields, images: seq<string>, catalogue: string): ProductFields
  {
    body.(vendor := Some(body.vendor.GetOr(caller)), images := Some(images), catalogue := Some(catalogue))
  }

  /** The product `createProduct` stores under `id`, or None when an upload or
      the schema's validation fails (both answered with a 500). */
  function CreatedProduct(id: Id, caller: Id, body: ProductFields,
                          imageFiles: seq<UploadedFile>, catalogueFile: Option<UploadedFile>): (p: Option<Product>)
    ensures p.Some? <==>
      AllStored(imageFiles) && CatalogueStored(catalogueFile)
      && RequiredText(body.name) && body.kind.Some? && ParseProductType(body.kind.value).Some? && body.price.Some?
    ensures p.Some? ==>
      && p.value.id == id && ValidProduct(p.value)
      && p.value.vendor == body.vendor.GetOr(caller)
      && p.value.name == body.name.value && p.value.price == body.price.value
      && p.value.kind == ParseProductType(body.kind.value).value
      && p.value.description == body.description && p.value.specifications == body.specifications
      && p.value.images == StoredUrls(imageFiles)
      && p.value.catalogue == Some(if catalogueFile.Some? then catalogueFile.value.stored.value else "")
  {
    if !AllStored(imageFiles) || !CatalogueStored(catalogueFile) then None
    else
      var catalogue := if catalogueFile.Some? then catalogueFile.value.stored.value else "";
      Validate(id, CreatedFields(caller, body, StoredUrls(imageFiles), catalogue))
  }

  /** Images and catalogue in the body never reach the stored product: the
      uploads decide them. */
  lemma BodyCannotSetUploads(id: Id, caller: Id, body: ProductFields, images: Option<seq<string>>, catalogue: Option<string>,
                             imageFiles: seq<UploadedFile>, catalogueFile: Option<UploadedFile>)
    ensures CreatedProduct(id, caller, body.(images := images, catalogue := catalogue), imageFiles, catalogueFile)
         == CreatedProduct(id, caller, body, imageFiles, catalogueFile)
  {
  }

  /** `createProduct`: uploads, then `Product.create` under the fresh id `newId`
      the database assigns. */
  method CreateProduct(db: ProductCollection, caller: Caller, body: ProductFields,
                       imageFiles: seq<UploadedFile>, catalogueFile: Option<UploadedFile>, newId: Id)
    returns (r: Result<Product>)
    requires db.Valid() && newId !in db.records
    modifies db
    ensures db.Valid()
    ensures match CreatedProduct(newId, caller.id, body, imageFiles, catalogueFile)
      case None => r == Err(ServerError(CreationFailed)) && db.records == old(db.records)
      case Some(p) => r == Ok(p) && db.records == old(db.records)[newId := p]
  {
    var images := UploadImages(imageFiles);
    if images.None? {
      return Err(ServerError(CreationFailed));
    }
    var catalogue := "";
    if catalogueFile.Some? {
      match catalogueFile.value.stored {
        case None =>
          return Err(ServerError(CreationFailed));
        case Some(url) =>
          catalogue := url;
      }
    }
    var product := Validate(newId, CreatedFields(caller.id, body, images.value, catalogue));
    if product.None? {
      return Err(ServerError(CreationFailed));
    }
    db.Insert(product.value);
    r := Ok(product.value);
  }

  /** A stored product seen as a document whose paths can be reassigned. */
  function AsFields(p: Product): ProductFields
  {
    ProductFields(Some(p.vendor), Some(p.name), Some(if p.kind == ProductKind then "product" else "service"),
                  p.description, p.specifications, Some(p.price), Some(p.images), p.catalogue)
  }

  /** Saving a stored product unchanged gives it back. */
  lemma AsFieldsRoundTrip(p: Product)
    requires ValidProduct(p)
    ensures Validate(p.id, AsFields(p)) == Some(p)
  {
  }

  /** `Object.assign(product, body)`: every key the body carries replaces the
      document's, every other path is kept. */
  function Overlay(d: ProductFields, body: ProductFields): (r: ProductFields)
    ensures body == EmptyBody ==> r == d
    ensures AllKeys(body) ==> r == body
    ensures AllKeys(d) ==> AllKeys(r)
  {
    ProductFields(
      if body.vendor.Some? then body.vendor else d.vendor,
      if body.name.Some? then body.name else d.name,
      if body.kind.Some? then body.kind else d.kind,
      if body.description.Some? then body.description else d.description,
      if body.specifications.Some? then body.specifications else d.specifications,
      if body.price.Some? then body.price else d.price,
      if body.images.Some? then body.images else d.images,
      if body.catalogue.Some? then body.catalogue else d.catalogue)
  }

  /** The document `updateProduct` saves: the body laid over the product, then
      the uploaded images replacing the list when any were sent, then the
      uploaded catalogue when one was sent. None when an upload or the
      validation fails. */
  function UpdatedProduct(p: Product, body: ProductFields,
                          imageFiles: seq<UploadedFile>, catalogueFile: Option<UploadedFile>): (q: Option<Product>)
    ensures q.Some? <==>
      AllStored(imageFiles) && CatalogueStored(catalogueFile)
      && body.name.GetOr(p.name) != ""
      && (body.kind.Some? ==> ParseProductType(body.kind.value).Some?)
    ensures q.Some? ==>
      && q.value.id == p.id && ValidProduct(q.value)
      && q.value.vendor == body.vendor.GetOr(p.vendor)
      && q.value.name == body.name.GetOr(p.name)
      && q.value.kind == (if body.kind.Some? then ParseProductType(body.kind.value).value else p.kind)
      && q.value.price == body.price.GetOr(p.price)
      && q.value.description == (if body.description.Some? then body.description else p.description)
      && q.value.specifications == (if body.specifications.Some? then body.specifications else p.specifications)
      && q.value.images == (if |imageFiles| > 0 then StoredUrls(imageFiles) else body.images.GetOr(p.images))
      && q.value.catalogue == (if catalogueFile.Some? then catalogueFile.value.stored
                               else if body.catalogue.Some? then body.catalogue else p.catalogue)
  {
    if !AllStored(imageFiles) || !CatalogueStored(catalogueFile) then None
    else
      var overlaid := Overlay(AsFields(p), body);
      var withImages := if |imageFiles| > 0 then overlaid.(images := Some(StoredUrls(imageFiles))) else overlaid;
      var withCatalogue := if catalogueFile.Some? then withImages.(catalogue := catalogueFile.value.stored) else withImages;
      Validate(p.id, withCatalogue)
  }

  /** The body with no keys. */
  const EmptyBody := ProductFields(None, None, None, None, None, None, None, None)

  /** A document or body that carries every path. */
  predicate AllKeys(d: ProductFields)
  {
    && d.vendor.Some? && d.name.Some? && d.kind.Some? && d.description.Some?
    && d.specifications.Some? && d.price.Some? && d.images.Some? && d.catalogue.Some?
  }

  /** Assigning the same body twice is assigning it once, and a later body
      wins over an earlier one on every key it carries. */
  lemma OverlayLaws(d: ProductFields, b1: ProductFields, b2: ProductFields)
    ensures Overlay(Overlay(d, b1), b1) == Overlay(d, b1)
    ensures Overlay(Overlay(d, b1), b2) == Overlay(d, Overlay(b1, b2))
  {
  }

  /** An update with an empty body and no files saves the product as it was. */
  lemma EmptyUpdateKeepsProduct(p: Product)
    requires ValidProduct(p)
    ensures UpdatedProduct(p, EmptyBody, [], None) == Some(p)
  {
    AsFieldsRoundTrip(p);
  }

  /** Sending the same update twice stores the same product as sending it once. */
  lemma UpdateIdempotent(p: Product, body: ProductFields, imageFiles: seq<UploadedFile>, catalogueFile: Option<UploadedFile>)
    requires UpdatedProduct(p, body, imageFiles, catalogueFile).Some?
    ensures var q := UpdatedProduct(p, body, imageFiles, catalogueFile).value;
      UpdatedProduct(q, body, imageFiles, catalogueFile) == Some(q)
  {
  }

  /** A body that renames a product to "" is refused by validation, whatever
      else it carries. */
  lemma EmptyNameRefused(p: Product, body: ProductFields, imageFiles: seq<UploadedFile>, catalogueFile: Option<UploadedFile>)
    requires body.name == Some("")
    ensures UpdatedProduct(p, body, imageFiles, catalogueFile).None?
  {
  }

  /** `updateProduct`. Whoever calls it may update any product:
      `updateProduct` makes no ownership check, and neither does this model. */
  method UpdateProduct(db: ProductCollection, id: Id, body: ProductFields,
                       imageFiles: seq<UploadedFile>, catalogueFile: Option<UploadedFile>)
    returns (r: Result<Product>)
    requires db.Valid()
    modifies db
    ensures db.Valid()
    ensures id !in old(db.records) ==> r == Err(NotFound(ProductNotFound)) && db.records == old(db.records)
    ensures id in old(db.records) ==>
      match UpdatedProduct(old(db.records)[id], body, imageFiles, catalogueFile)
        case None => r == Err(ServerError(UpdateFailed)) && db.records == old(db.records)
        case Some(q) => r == Ok(q) && db.records == old(db.records)[id := q]
  {
    var found := db.FindById(id);
    if found.None? {
      return Err(NotFound(ProductNotFound));
    }
    var p := found.value;
    var draft := Overlay(AsFields(p), body);
    if |imageFiles| > 0 {
      var images := UploadImages(imageFiles);
      if images.None? {
        return Err(ServerError(UpdateFailed));
      }
      draft := draft.(images := Some(images.value));
    }
    if catalogueFile.Some? {
      if catalogueFile.value.stored.None? {
        return Err(ServerError(UpdateFailed));
      }
      draft := draft.(catalogue := catalogueFile.value.stored);
    }
    var saved := Validate(p.id, draft);
    if saved.None? {
      return Err(ServerError(UpdateFailed));
    }
    db.Save(saved.value);
    r := Ok(saved.value);
  }
}
