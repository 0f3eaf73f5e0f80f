/** The product catalog page: its search, its statistics cards, the
    attribute editor and the create/edit/delete dialogs over the page's
    product list. */
module ProductCatalog {
  import opened Wrappers
  import opened Types
  import opened Text
  import opened Seqs

  // ---------------------------------------------------------------------
  // Search

  /** The query is lowered once; the name, the SKU and every attribute's
      name and value are lowered before the comparison, while the barcode
      is compared as stored against the lowered query. */
  predicate ProductMatches(p: Product, query: string) {
    var q := Lower(query);
    || Contains(Lower(p.name), q)
    || (p.sku.Some? && Contains(Lower(p.sku.value), q))
    || (p.barcode.Some? && Contains(p.barcode.value, q))
    || (exists a :: a in p.attributes && (Contains(Lower(a.name), q) || Contains(Lower(a.value), q)))
  }

  predicate InCategory(p: Product, category: string) {
    category == "Todos" || p.category == Some(category)
  }

  function Listed(query: string, category: string): Product -> bool {
    (p: Product) => ProductMatches(p, query) && InCategory(p, category)
  }

  /** The table's rows: products matching the search and the category tab,
      active or not, in list order. */
  function FilteredProducts(products: seq<Product>, query: string, category: string): (r: seq<Product>)
    ensures |r| <= |products|
    ensures forall p :: p in r <==> p in products && ProductMatches(p, query) && InCategory(p, category)
  {
    Filter(products, Listed(query, category))
  }

  /** The search ignores the case of the query: a query and its lower-case
      form list the same products. */
  lemma SearchIgnoresQueryCase(p: Product, query: string)
    ensures ProductMatches(p, query) <==> ProductMatches(p, Lower(query))
  {
    LowerIdempotent(query);
  }

  /** An empty search lists the whole category tab. */
  lemma EmptySearchListsCategory(products: seq<Product>, category: string)
    ensures forall p :: p in FilteredProducts(products, "", category) <==> p in products && InCategory(p, category)
  {
    forall p: Product ensures ProductMatches(p, "") {
      assert Lower("") == "";
      assert IsPrefix("", Lower(p.name));
    }
  }

  // ---------------------------------------------------------------------
  // Statistics

  datatype ProductStats = ProductStats(total: nat, active: nat, lowStock: nat, outOfStock: nat)

  predicate IsActiveProduct(p: Product) {
    p.isActive
  }

  /** Some stock left, but fewer than ten. */
  predicate IsLowStock(p: Product) {
    0.0 < p.stock < 10.0
  }

  predicate IsOutOfStock(p: Product) {
    p.stock == 0.0
  }

  /** The four cards: a product is low on stock or out of it, never both,
      so those two cards never add up to more than the total. */
  function Stats(products: seq<Product>): (r: ProductStats)
    ensures r.total == |products|
    ensures r.active <= r.total
    ensures r.lowStock + r.outOfStock <= r.total
    ensures r.active == Count(products, IsActiveProduct)
    ensures r.lowStock == Count(products, IsLowStock)
    ensures r.outOfStock == Count(products, IsOutOfStock)
  {
    FilterDisjoint(products, IsLowStock, IsOutOfStock);
    FilterCount(products, IsActiveProduct);
    FilterCount(products, IsLowStock);
    FilterCount(products, IsOutOfStock);
    ProductStats(
      |products|,
      |Filter(products, IsActiveProduct)|,
      |Filter(products, IsLowStock)|,
      |Filter(products, IsOutOfStock)|)
  }

  // ---------------------------------------------------------------------
  // Attributes

  datatype AttributeField = NameField | ValueField

  function AttributeUpdated(attributes: seq<Attribute>, id: string, field: AttributeField, value: string): (r: seq<Attribute>)
    ensures |r| == |attributes|
    ensures forall i :: 0 <= i < |r| ==> r[i].id == attributes[i].id
  {
    seq(|attributes|, i requires 0 <= i < |attributes| =>
      var a := attributes[i];
      if a.id != id then a
      else match field
        case NameField => a.(name := value)
        case ValueField => a.(value := value))
  }

  function NotAttribute(id: string): Attribute -> bool {
    (a: Attribute) => a.id != id
  }

  predicate NoAttribute(attributes: seq<Attribute>, id: string) {
    forall a :: a in attributes ==> a.id != id
  }

  /** Removing the attribute just added with a fresh id gives the list back
      as it was. */
  lemma RemoveUndoesAdd(attributes: seq<Attribute>, id: string)
    requires NoAttribute(attributes, id)
    ensures Filter(attributes + [Attribute(id, "", "")], NotAttribute(id)) == attributes
  {
    FilterAppend(attributes, [Attribute(id, "", "")], NotAttribute(id));
    FilterKeepsAll(attributes, NotAttribute(id));
    assert [Attribute(id, "", "")][1..] == [];
  }

  /** Editing attributes by id changes only that attribute's field. */
  lemma UpdateAttributeOnly(attributes: seq<Attribute>, id: string, field: AttributeField, value: string, i: nat)
    requires i < |attributes|
    ensures attributes[i].id != id ==> AttributeUpdated(attributes, id, field, value)[i] == attributes[i]
    ensures attributes[i].id == id ==>
      var r := AttributeUpdated(attributes, id, field, value)[i];
      (field == NameField ==> r.name == value && r.value == attributes[i].value) &&
      (field == ValueField ==> r.value == value && r.name == attributes[i].name)
  {
  }

  // ---------------------------------------------------------------------
  // The product form

  datatype FormMode = Create | Edit

  /** The dialog's fields. Numeric fields hold what `parseFloat` makes of
      the text: `None` for an empty or non-numeric field. The description
      field is never saved and is left out. */
  datatype ProductForm = ProductForm(
    name: string,
    price: Option<real>,
    stock: Option<real>,
    sku: string,
    barcode: string,
    category: string,
    active: bool,
    imagePreview: Option<string>,
    isWeighted: bool,
    attributes: seq<Attribute>)

  /** The form as `openCreateProduct` leaves it. The weighed-product switch
      is not reset and keeps whatever it last held. */
  function BlankForm(isWeighted: bool): (f: ProductForm)
    ensures f.name == "" && f.category == "Bebidas" && f.active && f.attributes == []
    ensures f.isWeighted == isWeighted
  {
    ProductForm("", None, None, "", "", "Bebidas", true, None, isWeighted, [])
  }

  /** The form as `openEditProduct` fills it from a product: a weighed
      product shows its per-kilo price in the price field. */
  function FormOf(p: Product): (f: ProductForm)
    ensures f.price == (if p.isWeighted then p.pricePerKg else Some(p.price))
    ensures f.stock == Some(p.stock) && f.attributes == p.attributes && f.isWeighted == p.isWeighted
  {
    ProductForm(
      p.name,
      if p.isWeighted then p.pricePerKg else Some(p.price),
      Some(p.stock),
      p.sku.GetOr(""),
      p.barcode.GetOr(""),
      p.category.GetOr(""),
      p.isActive,
      if p.image == "" then None else Some(p.image),
      p.isWeighted,
      p.attributes)
  }

  /** The product the save handler builds from the form: trimmed name, SKU
      and barcode; a weighed product costs 0 per unit and takes the price
      field as its per-kilo price; a missing or zero number becomes 0; with
      no new image the product keeps `fallbackImage`. */
  function FromForm(form: ProductForm, id: string, fallbackImage: string): (p: Product)
    ensures p.id == id && p.name == Trim(form.name)
    ensures p.isWeighted ==> p.price == 0.0 && p.pricePerKg == form.price
    ensures !p.isWeighted ==> p.price == form.price.GetOr(0.0) && p.pricePerKg == None
    ensures p.isWeighted == form.isWeighted && p.stock == form.stock.GetOr(0.0)
    ensures p.sku == Some(Trim(form.sku)) && p.barcode == Some(Trim(form.barcode))
    ensures p.category == Some(form.category) && p.isActive == form.active && p.attributes == form.attributes
    ensures form.imagePreview.Some? && form.imagePreview.value != "" ==> p.image == form.imagePreview.value
    ensures form.imagePreview.None? || form.imagePreview.value == "" ==> p.image == fallbackImage
  {
    Product(
      id,
      Trim(form.name),
      if form.isWeighted then 0.0 else form.price.GetOr(0.0),
      Some(Trim(form.sku)),
      Some(Trim(form.barcode)),
      form.stock.GetOr(0.0),
      form.active,
      Some(form.category),
      if form.imagePreview.Some? && form.imagePreview.value != "" then form.imagePreview.value else fallbackImage,
      form.attributes,
      form.isWeighted,
      if form.isWeighted then form.price else None)
  }

  /** A product already in the shape the form writes comes back unchanged
      from opening it for editing and saving without touching a field. */
  lemma EditRoundTrip(p: Product)
    requires Trim(p.name) == p.name
    requires p.sku.Some? && Trim(p.sku.value) == p.sku.value
    requires p.barcode.Some? && Trim(p.barcode.value) == p.barcode.value
    requires p.category.Some?
    requires p.isWeighted ==> p.price == 0.0 && p.pricePerKg.Some?
    requires !p.isWeighted ==> p.pricePerKg.None?
    ensures FromForm(FormOf(p), p.id, p.image) == p
  {
    var f := FormOf(p);
    assert f.sku == p.sku.value && f.barcode == p.barcode.value;
    var r := FromForm(f, p.id, p.image);
    assert r.name == p.name && r.sku == p.sku && r.barcode == p.barcode;
    if p.image == "" {
      assert f.imagePreview == None;
    } else {
      assert f.imagePreview == Some(p.image);
    }
    assert r.image == p.image;
    assert r.price == p.price && r.pricePerKg == p.pricePerKg;
  }

  /** The list after saving an edit: every product with the edited id is
      rebuilt from the form, keeping its id and, with no new image, its
      image; every other product is unchanged. */
  function ProductsEdited(products: seq<Product>, id: string, form: ProductForm): (r: seq<Product>)
    ensures |r| == |products|
    ensures forall i :: 0 <= i < |r| ==> r[i].id == products[i].id
    ensures forall i :: 0 <= i < |r| && products[i].id != id ==> r[i] == products[i]
    ensures forall i :: 0 <= i < |r| && products[i].id == id ==> r[i] == FromForm(form, id, products[i].image)
  {
    seq(|products|, i requires 0 <= i < |products| =>
      if products[i].id == id then FromForm(form, products[i].id, products[i].image) else products[i])
  }

  predicate UniqueIds(products: seq<Product>) {
    forall i, j :: 0 <= i < j < |products| ==> products[i].id != products[j].id
  }

  /** Opening a listed product for editing and saving it unchanged leaves
      the whole list as it was. */
  lemma EditUnchangedKeepsList(products: seq<Product>, k: nat)
    requires k < |products| && UniqueIds(products)
    requires var p := products[k];
      && Trim(p.name) == p.name
      && p.sku.Some? && Trim(p.sku.value) == p.sku.value
      && p.barcode.Some? && Trim(p.barcode.value) == p.barcode.value
      && p.category.Some?
      && (p.isWeighted ==> p.price == 0.0 && p.pricePerKg.Some?)
      && (!p.isWeighted ==> p.pricePerKg.None?)
    ensures ProductsEdited(products, products[k].id, FormOf(products[k])) == products
  {
    EditRoundTrip(products[k]);
    var r := ProductsEdited(products, products[k].id, FormOf(products[k]));
    forall i | 0 <= i < |products| ensures r[i] == products[i] {
      if i < k {
        assert products[i].id != products[k].id;
      } else if k < i {
        assert products[k].id != products[i].id;
      }
    }
  }

  function NotProductId(id: string): Product -> bool {
    (p: Product) => p.id != id
  }

  /** Deleting a product just created under an unused id gives the list
      back as it was. */
  lemma DeleteUndoesCreate(products: seq<Product>, p: Product)
    requires forall q :: q in products ==> q.id != p.id
    ensures Filter(products + [p], NotProductId(p.id)) == products
  {
    FilterAppend(products, [p], NotProductId(p.id));
    FilterKeepsAll(products, NotProductId(p.id));
    assert [p][1..] == [];
  }

  // ---------------------------------------------------------------------
  // The page

  class ProductsPage {
    var products: seq<Product>
    var mode: FormMode
    var editingId: Option<string>
    var form: ProductForm
    var dialogOpen: bool
    var productToDelete: Option<Product>
    var deleteOpen: bool

    /** The page as first rendered over the initial product list. */
    constructor (initial: seq<Product>)
      ensures products == initial && mode == Create && editingId == None
      ensures form == BlankForm(false) && !dialogOpen && productToDelete == None && !deleteOpen
    {
      products, mode, editingId := initial, Create, None;
      form := BlankForm(false);
      dialogOpen, productToDelete, deleteOpen := false, None, false;
    }

    /** "Agregar atributo", with the random id as a parameter. */
    method AddAttribute(freshId: string)
      modifies this`form
      ensures form == old(form).(attributes := old(form).attributes + [Attribute(freshId, "", "")])
    {
      form := form.(attributes := form.attributes + [Attribute(freshId, "", "")]);
    }

    method UpdateAttribute(id: string, field: AttributeField, value: string)
      modifies this`form
      ensures form == old(form).(attributes := AttributeUpdated(old(form).attributes, id, field, value))
    {
      form := form.(attributes := AttributeUpdated(form.attributes, id, field, value));
    }

    method RemoveAttribute(id: string)
      modifies this`form
      ensures form == old(form).(attributes := Filter(old(form).attributes, NotAttribute(id)))
      ensures NoAttribute(form.attributes, id)
    {
      form := form.(attributes := Filter(form.attributes, NotAttribute(id)));
    }

    method OpenCreate()
      modifies this`mode, this`editingId, this`form, this`dialogOpen
      ensures mode == Create && editingId == None && dialogOpen
      ensures form == BlankForm(old(form).isWeighted)
    {
      mode, editingId, dialogOpen := Create, None, true;
      form := BlankForm(form.isWeighted);
    }

    method OpenEdit(p: Product)
      modifies this`mode, this`editingId, this`form, this`dialogOpen
      ensures mode == Edit && editingId == Some(p.id) && dialogOpen && form == FormOf(p)
    {
      mode, editingId, dialogOpen := Edit, Some(p.id), true;
      form := FormOf(p);
    }

    /** "Guardar", with the clock reading that names a new product as a
        parameter. A blank name keeps the dialog open and changes nothing;
        otherwise a new product is appended, or every product with the
        edited id is rebuilt from the form, and the dialog closes. */
    method SaveProduct(now: nat)
      modifies this`products, this`dialogOpen, this`editingId
      ensures IsBlank(form.name) ==>
        products == old(products) && dialogOpen == old(dialogOpen) && editingId == old(editingId)
      ensures !IsBlank(form.name) ==> !dialogOpen && editingId == None
      ensures !IsBlank(form.name) && mode == Create ==>
        products == old(products) + [FromForm(form, NatToString(now), "")]
      ensures !IsBlank(form.name) && mode == Edit ==>
        products == if old(editingId).Some? && old(editingId).value != ""
                    then ProductsEdited(old(products), old(editingId).value, form)
                    else old(products)
    {
      if IsBlank(form.name) {
        return;
      }
      if mode == Create {
        products := products + [FromForm(form, NatToString(now), "")];
      } else if editingId.Some? && editingId.value != "" {
        products := ProductsEdited(products, editingId.value, form);
      }
      dialogOpen, editingId := false, None;
    }

    method OpenDelete(p: Product)
      modifies this`productToDelete, this`deleteOpen
      ensures productToDelete == Some(p) && deleteOpen
    {
      productToDelete, deleteOpen := Some(p), true;
    }

    /** "Eliminar" in the confirmation dialog: every product with the
        chosen id goes, the others stay in order. */
    method ConfirmDelete()
      modifies this`products, this`productToDelete, this`deleteOpen
      ensures old(productToDelete).None? ==> products == old(products) && deleteOpen == old(deleteOpen)
      ensures old(productToDelete).Some? ==>
        products == Filter(old(products), NotProductId(old(productToDelete).value.id))
        && !deleteOpen
      ensures productToDelete == None
      ensures forall p :: p in products ==> p in old(products)
    {
      if productToDelete.None? {
        return;
      }
      products := Filter(products, NotProductId(productToDelete.value.id));
      deleteOpen, productToDelete := false, None;
    }
  }
}
