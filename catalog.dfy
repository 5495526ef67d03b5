/** The product catalogue of `backend/routes/products.js`: field validation,
    feature parsing, and the stored product records that the create, update
    and soft-delete handlers change in place. */
module Catalog {
  import opened Common
  import opened Text
  import opened OrderModel

  /** A stored product. Prices are in paise (minor units). */
  datatype Product = Product(
    id: ProductId,
    name: string,
    description: string,
    price: int,
    category: string,
    stock: int,
    features: seq<string>,
    image: string,
    isActive: bool)

  /** The multipart form of a create or update request. A text field is None
      when it is absent; `price` and `stock` carry the converted numbers. */
  datatype ProductForm = ProductForm(
    name: Option<string>,
    description: Option<string>,
    price: Option<int>,
    category: Option<string>,
    stock: Option<int>,
    features: Option<string>)

  datatype CatalogError = MissingFields | ImageRequired | ProductNotFound

  /** JavaScript truthiness of a form text field: present and not empty. */
  predicate Supplied(s: Option<string>) {
    s.Some? && s.value != ""
  }

  /** The required-field check shared by create and update: name, description,
      price, category and stock must all be given; features may be left out. */
  predicate HasRequiredFields(f: ProductForm) {
    Supplied(f.name) && Supplied(f.description) && f.price.Some? && Supplied(f.category) && f.stock.Some?
  }

  /** `features ? features.split(',').map(f => f.trim()) : []`. */
  function ParseFeatures(features: Option<string>): (r: seq<string>)
    ensures !Supplied(features) ==> r == []
    ensures Supplied(features) ==> |r| == Occurrences(features.value, ',') + 1
    ensures Supplied(features) ==> (|r| == |Split(features.value, ',')|
      && forall k :: 0 <= k < |r| ==> r[k] == Trim(Split(features.value, ',')[k]))
    ensures forall k :: 0 <= k < |r| ==>
      ',' !in r[k] && (r[k] == [] || (!IsWhitespace(r[k][0]) && !IsWhitespace(r[k][|r[k]| - 1])))
  {
    if !Supplied(features) then []
    else
      SplitCount(features.value, ',');
      TrimAll(Split(features.value, ','), ',')
  }

  /** The pieces, each trimmed. */
  function TrimAll(parts: seq<string>, sep: char): (r: seq<string>)
    requires forall k :: 0 <= k < |parts| ==> sep !in parts[k]
    ensures |r| == |parts|
    ensures forall k :: 0 <= k < |r| ==> r[k] == Trim(parts[k]) && sep !in r[k]
  {
    if parts == [] then []
    else
      TrimSubset(parts[0], sep);
      [Trim(parts[0])] + TrimAll(parts[1..], sep)
  }

  /** Trimming never introduces a character. */
  lemma TrimSubset(s: string, c: char)
    requires c !in s
    ensures c !in Trim(s)
  {
  }

  /** The admin page's edit form shows the features as `features.join(', ')`;
      that is the single-character join on ',' of the features, every one
      after the first preceded by a space. */
  function FeaturesText(fs: seq<string>): string {
    if fs == [] then "" else Join(Padded(fs), ',')
  }

  function Padded(fs: seq<string>): (r: seq<string>)
    requires fs != []
    ensures |r| == |fs| && r[0] == fs[0]
    ensures forall i :: 1 <= i < |fs| ==> r[i] == " " + fs[i]
  {
    [fs[0]] + seq(|fs| - 1, i requires 0 <= i < |fs| - 1 => " " + fs[i + 1])
  }

  lemma TrimLeadingSpace(f: string)
    requires Trim(f) == f
    ensures Trim(" " + f) == f
  {
    var s := " " + f;
    TrimUnique(s, 1, |s|);
    assert s[1..|s|] == f;
  }

  /** Saving an edit form without touching the features field gives back the
      same features, as long as each is non-empty, already trimmed and free of commas. */
  lemma {:induction false} FeaturesRoundTrip(fs: seq<string>)
    requires forall i :: 0 <= i < |fs| ==> fs[i] != "" && Trim(fs[i]) == fs[i] && ',' !in fs[i]
    ensures ParseFeatures(Some(FeaturesText(fs))) == fs
  {
    if fs != [] {
      var padded := Padded(fs);
      PaddedPieces(fs);
      JoinFirst(padded, ',');
      SplitJoin(padded, ',');
      TrimPadded(fs);
    }
  }

  lemma PaddedPieces(fs: seq<string>)
    requires fs != []
    requires forall i :: 0 <= i < |fs| ==> ',' !in fs[i]
    ensures forall k :: 0 <= k < |Padded(fs)| ==> ',' !in Padded(fs)[k]
  {
    var padded := Padded(fs);
    forall k | 0 <= k < |padded| ensures ',' !in padded[k] {
      if k > 0 { assert padded[k] == " " + fs[k]; }
    }
  }

  lemma TrimPadded(fs: seq<string>)
    requires fs != []
    requires forall i :: 0 <= i < |fs| ==> Trim(fs[i]) == fs[i] && ',' !in fs[i]
    ensures forall k :: 0 <= k < |Padded(fs)| ==> ',' !in Padded(fs)[k]
    ensures TrimAll(Padded(fs), ',') == fs
  {
    PaddedPieces(fs);
    var r := TrimAll(Padded(fs), ',');
    forall k | 0 <= k < |fs| ensures r[k] == fs[k] {
      if k > 0 { TrimLeadingSpace(fs[k]); }
    }
  }

  /** The joined text starts with the first piece. */
  lemma JoinFirst(parts: seq<string>, sep: char)
    requires parts != []
    ensures |Join(parts, sep)| >= |parts[0]|
  {
  }

  /** The record a create stores: the form's fields, the uploaded image, active. */
  function NewProduct(id: ProductId, f: ProductForm, filename: string): (p: Product)
    requires HasRequiredFields(f)
    ensures p.id == id && p.isActive
    ensures p.image == "/uploads/" + filename
    ensures p.name == f.name.value && p.description == f.description.value && p.category == f.category.value
    ensures p.price == f.price.value && p.stock == f.stock.value
    ensures p.features == ParseFeatures(f.features)
  {
    Product(id, f.name.value, f.description.value, f.price.value, f.category.value, f.stock.value,
            ParseFeatures(f.features), "/uploads/" + filename, true)
  }

  /** The record an update leaves: every form field overwritten, the image
      replaced only when a new file came with the request, identity and the
      active flag untouched. */
  function Updated(p: Product, f: ProductForm, file: Option<string>): (r: Product)
    requires HasRequiredFields(f)
    ensures r.id == p.id && r.isActive == p.isActive
    ensures file.None? ==> r.image == p.image
    ensures file.Some? ==> r.image == "/uploads/" + file.value
    ensures r.name == f.name.value && r.description == f.description.value && r.category == f.category.value
    ensures r.price == f.price.value && r.stock == f.stock.value
    ensures r.features == ParseFeatures(f.features)
  {
    var image := if file.Some? then "/uploads/" + file.value else p.image;
    p.(name := f.name.value, description := f.description.value, price := f.price.value,
       category := f.category.value, stock := f.stock.value, features := ParseFeatures(f.features),
       image := image)
  }

  /** Applying the same update twice is the same as applying it once. */
  lemma UpdateIdempotent(p: Product, f: ProductForm, file: Option<string>)
    requires HasRequiredFields(f)
    ensures Updated(Updated(p, f, file), f, file) == Updated(p, f, file)
  {
  }

  /** Ids of the products the public list shows. */
  function ActiveIds(products: map<ProductId, Product>): (ids: set<ProductId>)
    ensures forall id :: id in ids <==> id in products && products[id].isActive
  {
    set id | id in products && products[id].isActive
  }

  /** The catalogue after a soft delete of a stored product. */
  function Deactivated(products: map<ProductId, Product>, id: ProductId): map<ProductId, Product>
    requires id in products
  {
    products[id := products[id].(isActive := false)]
  }

  /** A soft delete keeps the record (so a lookup by id still finds it) and
      removes exactly that product from the public list. */
  lemma SoftDeleteOnlyHides(products: map<ProductId, Product>, id: ProductId)
    requires id in products
    ensures Deactivated(products, id).Keys == products.Keys
    ensures Deactivated(products, id)[id] == products[id].(isActive := false)
    ensures ActiveIds(Deactivated(products, id)) == ActiveIds(products) - {id}
  {
  }

  /** The Product collection. Ids are handed out in creation order. */
  class ProductStore {
    var products: map<ProductId, Product>
    var nextId: nat

    ghost predicate Valid()
      reads this
    {
      forall id :: id in products ==> products[id].id == id && id < nextId
    }

    constructor ()
      ensures Valid() && products == map[] && nextId == 0
    {
      products := map[];
      nextId := 0;
    }

    /** GET `/`: `Product.find({ isActive: true })`, in creation order. */
    method ListActive() returns (r: seq<Product>)
      requires Valid()
      ensures forall k :: 0 <= k < |r| ==> r[k].id in ActiveIds(products) && products[r[k].id] == r[k]
      ensures forall id :: id in ActiveIds(products) ==> products[id] in r
      ensures forall k, l :: 0 <= k < l < |r| ==> r[k].id < r[l].id
    {
      r := [];
      var i := 0;
      while i < nextId
        invariant 0 <= i <= nextId
        invariant forall k :: 0 <= k < |r| ==> r[k].id < i && r[k].id in ActiveIds(products) && products[r[k].id] == r[k]
        invariant forall id :: id in ActiveIds(products) && id < i ==> products[id] in r
        invariant forall k, l :: 0 <= k < l < |r| ==> r[k].id < r[l].id
      {
        if i in products && products[i].isActive {
          r := r + [products[i]];
        }
        i := i + 1;
      }
    }

    /** GET `/:id`: the stored record whether or not it is active. */
    method Get(id: ProductId) returns (r: Result<Product, CatalogError>)
      requires Valid()
      ensures id in products <==> r.Ok?
      ensures r.Ok? ==> r.value == products[id] && r.value.id == id
      ensures r.Err? ==> r.error == ProductNotFound
    {
      if id in products {
        r := Ok(products[id]);
      } else {
        r := Err(ProductNotFound);
      }
    }

    /** POST `/`: validate the fields, then demand an image, then store. */
    method Create(f: ProductForm, file: Option<string>) returns (r: Result<Product, CatalogError>)
      requires Valid()
      modifies this
      ensures Valid()
      ensures !HasRequiredFields(f) ==> r == Err(MissingFields)
      ensures HasRequiredFields(f) && file.None? ==> r == Err(ImageRequired)
      ensures r.Err? ==> products == old(products) && nextId == old(nextId)
      ensures r.Ok? <==> HasRequiredFields(f) && file.Some?
      ensures r.Ok? ==>
        && HasRequiredFields(f) && file.Some?
        && old(nextId) !in old(products)
        && r.value == NewProduct(old(nextId), f, file.value)
        && products == old(products)[old(nextId) := r.value]
        && nextId == old(nextId) + 1
    {
      if !HasRequiredFields(f) {
        return Err(MissingFields);
      }
      if file.None? {
        return Err(ImageRequired);
      }
      var p := NewProduct(nextId, f, file.value);
      products := products[nextId := p];
      nextId := nextId + 1;
      r := Ok(p);
    }

    /** PUT `/:id`: validate the fields first, then look the product up. */
    method Update(id: ProductId, f: ProductForm, file: Option<string>) returns (r: Result<Product, CatalogError>)
      requires Valid()
      modifies this
      ensures Valid() && nextId == old(nextId)
      ensures !HasRequiredFields(f) ==> r == Err(MissingFields)
      ensures HasRequiredFields(f) && id !in old(products) ==> r == Err(ProductNotFound)
      ensures r.Err? ==> products == old(products)
      ensures r.Ok? <==> HasRequiredFields(f) && id in old(products)
      ensures r.Ok? ==>
        && HasRequiredFields(f) && id in old(products)
        && r.value == Updated(old(products)[id], f, file)
        && products == old(products)[id := r.value]
    {
      if !HasRequiredFields(f) {
        return Err(MissingFields);
      }
      if id !in products {
        return Err(ProductNotFound);
      }
      var p := Updated(products[id], f, file);
      products := products[id := p];
      r := Ok(p);
    }

    /** DELETE `/:id`: a soft delete that only clears `isActive`. */
    method Delete(id: ProductId) returns (r: Result<(), CatalogError>)
      requires Valid()
      modifies this
      ensures Valid() && nextId == old(nextId)
      ensures r.Ok? <==> id in old(products)
      ensures r.Err? ==> r.error == ProductNotFound && products == old(products)
      ensures r.Ok? ==> products == Deactivated(old(products), id)
    {
      if id !in products {
        return Err(ProductNotFound);
      }
      products := Deactivated(products, id);
      r := Ok(());
    }

    /** `findByIdAndUpdate(id, { $inc: { stock: delta } })`: nothing happens
        for an unknown id. */
    method IncStock(id: ProductId, delta: int) returns (found: bool)
      requires Valid()
      modifies this
      ensures Valid() && nextId == old(nextId)
      ensures found <==> id in old(products)
      ensures found ==> products == old(products)[id := old(products)[id].(stock := old(products)[id].stock + delta)]
      ensures !found ==> products == old(products)
    {
      found := id in products;
      if found {
        products := products[id := products[id].(stock := products[id].stock + delta)];
      }
    }
  }
}
