/** The stored product record (backend/models/product.js) and its collection. */
module ProductModel {
  import opened Common

  /** The `type` enum. */
  datatype ProductType = ProductKind | ServiceKind

  /** The enum validator: which strings name a product type. */
  function ParseProductType(s: string): (t: Option<ProductType>)
    ensures t.Some? <==> s == "product" || s == "service"
    ensures t == Some(ProductKind) <==> s == "product"
  {
    if s == "product" then Some(ProductKind)
    else if s == "service" then Some(ServiceKind)
    else None
  }

  /** A stored product. `vendor`, `name`, `kind` and `price` are required;
      `images` is a list of URLs in display order; `catalogue` is one optional URL. */
  datatype Product = Product(
    id: Id,
    vendor: Id,
    name: string,
    kind: ProductType,
    description: Option<string>,
    specifications: Option<string>,
    price: real,
    images: seq<string>,
    catalogue: Option<string>)

  /** A product document before validation, or the keys of a request body:
      every path optional, an absent key being None. The type is still text. */
  datatype ProductFields = ProductFields(
    vendor: Option<Id>,
    name: Option<string>,
    kind: Option<string>,
    description: Option<string>,
    specifications: Option<string>,
    price: Option<real>,
    images: Option<seq<string>>,
    catalogue: Option<string>)

  /** The required validator on a String path refuses a missing value and "". */
  predicate RequiredText(s: Option<string>)
  {
    s.Some? && s.value != ""
  }

  /** A stored product satisfies the schema: its name is a non-empty string
      (the enum and the other required paths hold by their types). */
  predicate ValidProduct(p: Product)
  {
    p.name != ""
  }

  /** The schema's validation of a document about to be saved under `id`:
      vendor, non-empty name, a type of the enum and a price must be present;
      images default to the empty list. No bound is put on the price. */
  function Validate(id: Id, d: ProductFields): (p: Option<Product>)
    ensures p.Some? <==>
      d.vendor.Some? && RequiredText(d.name) && d.kind.Some? && ParseProductType(d.kind.value).Some? && d.price.Some?
    ensures p.Some? ==>
      && ValidProduct(p.value) && p.value.id == id
      && p.value.vendor == d.vendor.value && p.value.name == d.name.value
      && p.value.kind == ParseProductType(d.kind.value).value && p.value.price == d.price.value
      && p.value.description == d.description && p.value.specifications == d.specifications
      && p.value.images == d.images.GetOr([]) && p.value.catalogue == d.catalogue
  {
    if d.vendor.None? || !RequiredText(d.name) || d.kind.None? || d.price.None? then None
    else match ParseProductType(d.kind.value)
      case None => None
      case Some(kind) =>
        Some(Product(id, d.vendor.value, d.name.value, kind, d.description, d.specifications,
                     d.price.value, d.images.GetOr([]), d.catalogue))
  }

  /** The schema declares no lower bound on the price: a negative price is saved. */
  lemma NegativePriceIsAccepted(id: Id, vendor: Id)
    ensures var d := ProductFields(Some(vendor), Some("Bolt"), Some("product"), None, None, Some(-1.0), None, None);
      Validate(id, d).Some? && Validate(id, d).value.price < 0.0
  {
  }

  /** The products collection: the records by id. */
  class ProductCollection {
    var records: map<Id, Product>

    /** Every record is stored under its own id and satisfies the schema. */
    ghost predicate Valid()
      reads this
    {
      forall id :: id in records ==> records[id].id == id && ValidProduct(records[id])
    }

    constructor ()
      ensures Valid() && records == map[]
    {
      records := map[];
    }

    /** `Product.findById`. */
    method FindById(id: Id) returns (found: Option<Product>)
      requires Valid()
      ensures found.Some? <==> id in records
      ensures found.Some? ==> found.value == records[id] && found.value.id == id && ValidProduct(found.value)
    {
      if id in records {
        found := Some(records[id]);
      } else {
        found := None;
      }
    }

    /** `Product.create`, under the fresh id the database assigns. */
    method Insert(p: Product)
      requires Valid() && p.id !in records && ValidProduct(p)
      modifies this
      ensures Valid()
      ensures records == old(records)[p.id := p]
    {
      records := records[p.id := p];
    }

    /** `product.save()` on a record that exists. */
    method Save(p: Product)
      requires Valid() && p.id in records && ValidProduct(p)
      modifies this
      ensures Valid()
      ensures records == old(records)[p.id := p]
    {
      records := records[p.id := p];
    }
  }
}
