/**
 * The business layer: the colour, product-type and product handlers. Each handler checks
 * its request, builds the entity and makes exactly one repository call; every failure is
 * reported before the store is touched. Clock readings arrive as the `now` parameter.
 */
module Handlers {
  import opened Wrappers
  import opened Text
  import opened Entities
  import opened Exceptions
  import opened Requests
  import opened Data

  // ---------------------------------------------------------------------------
  // Colours

  const ColourNameRequiredMessage := "Colour name is required."

  class ColourHandler {
    const colourRepository: ColourRepository

    constructor (repository: ColourRepository)
      ensures colourRepository == repository
    {
      colourRepository := repository;
    }

    /**
     * Stores a colour named as in the request and returns its key. A null request and a
     * blank name are argument errors, raised before the repository is called.
     */
    method AddColour(colour: Option<ColourRequest>, now: DateTime) returns (r: Result<int, Exception>)
      requires colourRepository.db.Valid()
      modifies colourRepository.db
      ensures colourRepository.db.Valid()
      ensures colour.None? ==> r == Err(ArgumentNull(Some("colour")))
      ensures colour.Some? && IsNullOrWhiteSpace(colour.value.colourName)
              ==> r == Err(Argument(ColourNameRequiredMessage, Some("ColourName")))
      ensures r.Ok? <==> colour.Some? && !IsNullOrWhiteSpace(colour.value.colourName)
      ensures r.Err? ==> colourRepository.db.State() == old(colourRepository.db.State())
      ensures r.Ok? ==>
                && r.value == old(colourRepository.db.nextColourId)
                && colourRepository.db.State() == old(colourRepository.db.State()).(
                     colours := old(colourRepository.db.colours) + [Colour(r.value, colour.value.colourName.value, FreshAudit(now))],
                     nextColourId := r.value + 1)
      ensures r.Ok? ==> forall i :: 0 <= i < |colourRepository.db.colours| && colourRepository.db.colours[i].colourId == r.value
                          ==> colourRepository.db.colours[i] == Colour(r.value, colour.value.colourName.value, FreshAudit(now))
      ensures old(colourRepository.db.Intact()) ==> colourRepository.db.Intact()
    {
      if colour.None? {
        return Err(ArgumentNull(Some("colour")));
      }
      if IsNullOrWhiteSpace(colour.value.colourName) {
        return Err(Argument(ColourNameRequiredMessage, Some("ColourName")));
      }
      var entity := Colour(0, colour.value.colourName.value, FreshAudit(now));
      var id := colourRepository.AddColour(entity);
      r := Ok(id);
      ghost var db := colourRepository.db;
      forall i | 0 <= i < |db.colours| && db.colours[i].colourId == id
        ensures db.colours[i] == Colour(id, colour.value.colourName.value, FreshAudit(now))
      {
        FindByIdUnique(db.colours, ColourKey, db.nextColourId, i);
        FindByIdUnique(db.colours, ColourKey, db.nextColourId, |db.colours| - 1);
      }
    }

    /** The repository's colours, unchanged. */
    function GetAllColours(): (r: seq<Colour>)
      reads colourRepository.db
      ensures r == colourRepository.GetAllColours()
    {
      colourRepository.GetAllColours()
    }
  }

  /** A colour name the request rules accept is never refused by the handler's blank check. */
  lemma ValidColourNamePassesGuard(request: ColourRequest)
    requires ColourRequestValid(request)
    ensures request.colourName.Some? && !IsNullOrWhiteSpace(request.colourName)
  {
  }

  // ---------------------------------------------------------------------------
  // Product types

  const ProductTypeNameRequiredMessage := "Product type name is required."

  class ProductTypeHandler {
    const productTypeRepository: ProductTypeRepository

    constructor (repository: ProductTypeRepository)
      ensures productTypeRepository == repository
    {
      productTypeRepository := repository;
    }

    /**
     * Stores a product type named as in the request and returns its key; a null request
     * and a blank name are argument errors raised before the repository is called.
     */
    method AddProductType(productType: Option<ProductTypeRequest>, now: DateTime) returns (r: Result<int, Exception>)
      requires productTypeRepository.db.Valid()
      modifies productTypeRepository.db
      ensures productTypeRepository.db.Valid()
      ensures productType.None? ==> r == Err(ArgumentNull(Some("productType")))
      ensures productType.Some? && IsNullOrWhiteSpace(productType.value.productTypeName)
              ==> r == Err(Argument(ProductTypeNameRequiredMessage, Some("ProductTypeName")))
      ensures r.Ok? <==> productType.Some? && !IsNullOrWhiteSpace(productType.value.productTypeName)
      ensures r.Err? ==> productTypeRepository.db.State() == old(productTypeRepository.db.State())
      ensures r.Ok? ==>
                && r.value == old(productTypeRepository.db.nextProductTypeId)
                && productTypeRepository.db.State() == old(productTypeRepository.db.State()).(
                     productTypes := old(productTypeRepository.db.productTypes)
                                     + [ProductType(r.value, productType.value.productTypeName.value, FreshAudit(now))],
                     nextProductTypeId := r.value + 1)
      ensures r.Ok? ==> forall i :: 0 <= i < |productTypeRepository.db.productTypes| && productTypeRepository.db.productTypes[i].productTypeId == r.value
                          ==> productTypeRepository.db.productTypes[i] == ProductType(r.value, productType.value.productTypeName.value, FreshAudit(now))
      ensures old(productTypeRepository.db.Intact()) ==> productTypeRepository.db.Intact()
    {
      if productType.None? {
        return Err(ArgumentNull(Some("productType")));
      }
      if IsNullOrWhiteSpace(productType.value.productTypeName) {
        return Err(Argument(ProductTypeNameRequiredMessage, Some("ProductTypeName")));
      }
      var entity := ProductType(0, productType.value.productTypeName.value, FreshAudit(now));
      var id := productTypeRepository.AddProductType(entity);
      r := Ok(id);
      ghost var db := productTypeRepository.db;
      forall i | 0 <= i < |db.productTypes| && db.productTypes[i].productTypeId == id
        ensures db.productTypes[i] == ProductType(id, productType.value.productTypeName.value, FreshAudit(now))
      {
        FindByIdUnique(db.productTypes, ProductTypeKey, db.nextProductTypeId, i);
        FindByIdUnique(db.productTypes, ProductTypeKey, db.nextProductTypeId, |db.productTypes| - 1);
      }
    }

    /** The repository's product types, unchanged. */
    function GetAllProductTypes(): (r: seq<ProductType>)
      reads productTypeRepository.db
      ensures r == productTypeRepository.GetAllProductTypes()
    {
      productTypeRepository.GetAllProductTypes()
    }
  }

  /** A product type name the request rules accept is never refused by the handler's blank check. */
  lemma ValidProductTypeNamePassesGuard(request: ProductTypeRequest)
    requires ProductTypeRequestValid(request)
    ensures request.productTypeName.Some? && !IsNullOrWhiteSpace(request.productTypeName)
  {
  }

  // ---------------------------------------------------------------------------
  // Products: the guard chain

  const NoColourMessage := "At least one colour must be selected."
  const InvalidColourIdMessage := "Invalid colour ID. Colour IDs must be positive numbers."

  const MissingColoursLead := "The following colour IDs do not exist: "
  const MissingColoursAdvice := ". Please create these colours first or use existing colour IDs."

  function MissingColoursMessage(missing: seq<int>): string {
    MissingColoursLead + Join(", ", Decimals(missing)) + MissingColoursAdvice
  }

  function MissingProductTypeMessage(productTypeId: int): string {
    "Product type with ID '" + IntToDecimal(productTypeId) + "' does not exist. "
    + "Please create the product type first or use an existing product type ID."
  }

  /** The requested ids that are not among the existing ones, in request order and with
      repetitions kept. */
  function MissingIds(requested: seq<int>, existing: seq<int>): (r: seq<int>)
    ensures forall x :: x in r <==> x in requested && x !in existing
    ensures forall x :: x !in existing ==> multiset(r)[x] == multiset(requested)[x]
    ensures |r| <= |requested|
  {
    if |requested| == 0 then []
    else
      assert requested == [requested[0]] + requested[1..];
      (if requested[0] in existing then [] else [requested[0]]) + MissingIds(requested[1..], existing)
  }

  /** Collecting the missing ids keeps request order: it distributes over concatenation. */
  lemma {:induction false} MissingIdsAppend(a: seq<int>, b: seq<int>, existing: seq<int>)
    ensures MissingIds(a + b, existing) == MissingIds(a, existing) + MissingIds(b, existing)
  {
    if |a| > 0 {
      var head := if a[0] in existing then [] else [a[0]];
      assert (a + b)[0] == a[0];
      assert (a + b)[1..] == a[1..] + b;
      assert MissingIds(a + b, existing) == head + MissingIds(a[1..] + b, existing);
      assert MissingIds(a, existing) == head + MissingIds(a[1..], existing);
      MissingIdsAppend(a[1..], b, existing);
    } else {
      assert a + b == b;
    }
  }

  /** The message about missing colours names every one of them. */
  lemma MissingColoursMessageNamesEach(missing: seq<int>, i: int)
    requires 0 <= i < |missing|
    ensures IsSubstring(IntToDecimal(missing[i]), MissingColoursMessage(missing))
  {
    var joined := Join(", ", Decimals(missing));
    JoinContainsEach(", ", Decimals(missing), i);
    var k :| OccursAt(IntToDecimal(missing[i]), joined, k);
    OccursInside(IntToDecimal(missing[i]), joined, k, MissingColoursLead, MissingColoursAdvice);
  }

  predicate HasColours(ids: Option<seq<Int32>>) {
    ids.Some? && |ids.value| > 0
  }

  predicate AllPositive(ids: seq<Int32>) {
    forall c :: c in ids ==> c > 0
  }

  /**
   * The outcome of `AddProduct`'s guards, in the order the handler applies them: the
   * request itself, the colour list, the sign of each colour id, the existence of each
   * colour, the existence of the product type. `None` means every guard passed.
   */
  function ProductGuard(request: Option<ProductRequest>, colours: seq<Colour>, productTypes: seq<ProductType>): (r: Option<Exception>)
    ensures request.None? ==> r == Some(ArgumentNull(Some("request")))
    ensures request.Some? && !HasColours(request.value.colourIds) ==> r == Some(BadRequest(NoColourMessage))
    ensures request.Some? && HasColours(request.value.colourIds) && !AllPositive(request.value.colourIds.value)
            ==> r == Some(BadRequest(InvalidColourIdMessage))
    ensures request.Some? && HasColours(request.value.colourIds) && AllPositive(request.value.colourIds.value)
            && MissingIds(request.value.colourIds.value, Keys(colours, ColourKey)) != []
            ==> r == Some(BadRequest(MissingColoursMessage(MissingIds(request.value.colourIds.value, Keys(colours, ColourKey)))))
    ensures request.Some? && HasColours(request.value.colourIds) && AllPositive(request.value.colourIds.value)
            && MissingIds(request.value.colourIds.value, Keys(colours, ColourKey)) == []
            && request.value.productTypeId !in Keys(productTypes, ProductTypeKey)
            ==> r == Some(BadRequest(MissingProductTypeMessage(request.value.productTypeId)))
    ensures r.None? <==>
              && request.Some?
              && HasColours(request.value.colourIds)
              && (forall c :: c in request.value.colourIds.value ==> c > 0 && c in Keys(colours, ColourKey))
              && request.value.productTypeId in Keys(productTypes, ProductTypeKey)
  {
    if request.None? then Some(ArgumentNull(Some("request")))
    else if !HasColours(request.value.colourIds) then Some(BadRequest(NoColourMessage))
    else if !AllPositive(request.value.colourIds.value) then Some(BadRequest(InvalidColourIdMessage))
    else
      var missing := MissingIds(request.value.colourIds.value, Keys(colours, ColourKey));
      if missing != [] then
        assert missing[0] in missing;
        Some(BadRequest(MissingColoursMessage(missing)))
      else if request.value.productTypeId !in Keys(productTypes, ProductTypeKey) then
        Some(BadRequest(MissingProductTypeMessage(request.value.productTypeId)))
      else None
  }

  /** The first three guards do not depend on the tables: a null request, an empty colour
      list or a non-positive colour id is reported whatever the store holds. */
  lemma EarlyGuardsIgnoreTables(request: Option<ProductRequest>,
                                colours1: seq<Colour>, productTypes1: seq<ProductType>,
                                colours2: seq<Colour>, productTypes2: seq<ProductType>)
    requires request.None? || !HasColours(request.value.colourIds) || !AllPositive(request.value.colourIds.value)
    ensures ProductGuard(request, colours1, productTypes1) == ProductGuard(request, colours2, productTypes2)
    ensures ProductGuard(request, colours1, productTypes1).Some?
  {
  }

  /** When both a colour and the product type are missing, the colour error is the one
      reported, and it lists exactly the missing colour ids. */
  lemma ColourErrorWins(request: ProductRequest, colours: seq<Colour>, productTypes: seq<ProductType>)
    requires HasColours(request.colourIds) && AllPositive(request.colourIds.value)
    requires exists c :: c in request.colourIds.value && c !in Keys(colours, ColourKey)
    requires request.productTypeId !in Keys(productTypes, ProductTypeKey)
    ensures var missing := MissingIds(request.colourIds.value, Keys(colours, ColourKey));
            && missing != []
            && ProductGuard(Some(request), colours, productTypes) == Some(BadRequest(MissingColoursMessage(missing)))
  {
    var c :| c in request.colourIds.value && c !in Keys(colours, ColourKey);
    assert c in MissingIds(request.colourIds.value, Keys(colours, ColourKey));
  }

  /** The product entity built from a request that passed the guards. */
  function NewProduct(request: ProductRequest, now: DateTime): (p: Product)
    ensures p.productId == 0 && p.name == request.name && p.productTypeId == request.productTypeId
    ensures p.audit.createdBy == Some("User") && p.audit.updatedBy == Some("User")
    ensures p.audit.createdDate == now && p.audit.updatedDate == Some(now) && p.audit.deletedDate.None?
  {
    Product(0, request.name, request.productTypeId, Audit(Some("User"), Some("User"), now, Some(now), None))
  }

  // ---------------------------------------------------------------------------
  // Products: the read projections

  /** The name of the colour with key `colourId`, or null when there is none. */
  function ColourNameOf(colours: seq<Colour>, colourId: int): (r: Option<string>)
    ensures r.Some? <==> colourId in Keys(colours, ColourKey)
    ensures r.Some? ==> exists c :: c in colours && c.colourId == colourId && c.colourName == r.value
  {
    match FindById(colours, ColourKey, colourId)
    case None => None
    case Some(c) => Some(c.colourName)
  }

  /** One list entry per product, in table order. */
  function ListOf(products: seq<Product>): (r: seq<ProductListResponse>)
    ensures |r| == |products|
    ensures forall i :: 0 <= i < |r| ==> r[i].id == products[i].productId && r[i].name == products[i].name
  {
    seq(|products|, i requires 0 <= i < |products| => ProductListResponse(products[i].productId, products[i].name))
  }

  /** The detail of a loaded product: its type's name and one colour name per association. */
  function DetailOf(loaded: LoadedProduct): (d: ProductDetailResponse)
    ensures d.id == loaded.product.productId && d.name == loaded.product.name
    ensures d.productType.Some? <==> loaded.productType.Some?
    ensures d.productType.Some? ==> d.productType.value == loaded.productType.value.productTypeName
    ensures |d.colours| == |loaded.associations|
    ensures forall k :: 0 <= k < |d.colours| ==>
              (d.colours[k].Some? <==> loaded.associations[k].colour.Some?)
              && (d.colours[k].Some? ==> d.colours[k].value == loaded.associations[k].colour.value.colourName)
  {
    var assocs := loaded.associations;
    ProductDetailResponse(
      loaded.product.productId,
      loaded.product.name,
      if loaded.productType.Some? then Some(loaded.productType.value.productTypeName) else None,
      seq(|assocs|, k requires 0 <= k < |assocs| =>
        if assocs[k].colour.Some? then Some(assocs[k].colour.value.colourName) else None))
  }

  // ---------------------------------------------------------------------------
  // Products: the handler

  class ProductHandler {
    const repository: ProductRepository
    const colourRepository: ColourRepository
    const productTypeRepository: ProductTypeRepository

    constructor (repository: ProductRepository, colourRepository: ColourRepository,
                 productTypeRepository: ProductTypeRepository)
      ensures this.repository == repository
      ensures this.colourRepository == colourRepository
      ensures this.productTypeRepository == productTypeRepository
    {
      this.repository := repository;
      this.colourRepository := colourRepository;
      this.productTypeRepository := productTypeRepository;
    }

    /** The three repositories work on one scoped database context. */
    predicate SharedStore() {
      repository.db == colourRepository.db && repository.db == productTypeRepository.db
    }

    /**
     * The guard chain of `AddProduct`, in the handler's order; the colours are read only
     * once the request and its id list have passed, and the product types last.
     */
    method CheckRequest(request: Option<ProductRequest>) returns (rejection: Option<Exception>)
      requires SharedStore()
      ensures rejection == ProductGuard(request, repository.db.colours, repository.db.productTypes)
    {
      if request.None? {
        return Some(ArgumentNull(Some("request")));
      }
      var req := request.value;
      if req.colourIds.None? || |req.colourIds.value| == 0 {
        return Some(BadRequest(NoColourMessage));
      }
      var ids := req.colourIds.value;
      if !AllPositive(ids) {
        return Some(BadRequest(InvalidColourIdMessage));
      }
      var allColours := colourRepository.GetAllColours();
      var missing := MissingIds(ids, Keys(allColours, ColourKey));
      if missing != [] {
        return Some(BadRequest(MissingColoursMessage(missing)));
      }
      var allProductTypes := productTypeRepository.GetAllProductTypes();
      if req.productTypeId !in Keys(allProductTypes, ProductTypeKey) {
        return Some(BadRequest(MissingProductTypeMessage(req.productTypeId)));
      }
      return None;
    }

    /**
     * Runs the guard chain and, when every guard passes, stores the product with its
     * colour associations. Any guard failure is returned before the store is written; on
     * success the new product can be read back with the request's name, its type's name
     * and the requested colours' names in request order.
     */
    method AddProduct(request: Option<ProductRequest>, now: DateTime) returns (r: Result<int, Exception>)
      requires SharedStore() && repository.db.Valid()
      modifies repository.db
      ensures repository.db.Valid()
      ensures r.Err? <==> ProductGuard(request, old(repository.db.colours), old(repository.db.productTypes)).Some?
      ensures r.Err? ==> Some(r.error) == ProductGuard(request, old(repository.db.colours), old(repository.db.productTypes))
      ensures r.Err? ==> repository.db.State() == old(repository.db.State())
      ensures r.Ok? ==>
                && r.value == old(repository.db.nextProductId)
                && repository.db.State() == old(repository.db.State()).(
                     products := old(repository.db.products) + [NewProduct(request.value, now).(productId := r.value)],
                     productColours := old(repository.db.productColours)
                                       + NewAssociations(r.value, request.value.colourIds.value, old(repository.db.nextProductColourId)),
                     nextProductId := r.value + 1,
                     nextProductColourId := old(repository.db.nextProductColourId) + |request.value.colourIds.value|)
      ensures old(repository.db.Intact()) ==> repository.db.Intact()
      ensures r.Ok? && old(repository.db.Intact()) ==> ReadsBack(r.value, request.value)
    {
      var rejection := CheckRequest(request);
      if rejection.Some? {
        return Err(rejection.value);
      }
      var req := request.value;
      var ids := req.colourIds.value;
      var product := NewProduct(req, now);
      ghost var before := repository.db.State();
      var id := repository.AddProduct(product, ids);
      r := Ok(id);
      if old(repository.db.Intact()) {
        NewProductRows(before, repository.db.State(), id, product, ids);
        ReadsBackNewProduct(id, req, before.nextProductColourId);
      }
    }

    /**
     * Reading product `id` back gives the request's name, the name of the request's
     * product type, and one resolved colour name per requested colour id, in request order.
     */
    ghost predicate ReadsBack(id: int, request: ProductRequest)
      reads repository.db
    {
      var d := GetProductById(id);
      && request.colourIds.Some?
      && d.Some?
      && d.value.id == id
      && d.value.name == request.name
      && request.productTypeId in Keys(repository.db.productTypes, ProductTypeKey)
      && d.value.productType == Some(FindById(repository.db.productTypes, ProductTypeKey, request.productTypeId).value.productTypeName)
      && |d.value.colours| == |request.colourIds.value|
      && forall k :: 0 <= k < |request.colourIds.value| ==>
           d.value.colours[k].Some? && d.value.colours[k] == ColourNameOf(repository.db.colours, request.colourIds.value[k])
    }

    /** The heap-level half of the read-back guarantee. */
    lemma ReadsBackNewProduct(id: int, request: ProductRequest, firstKey: int)
      requires request.colourIds.Some?
      requires |repository.db.products| > 0
      requires var last := repository.db.products[|repository.db.products| - 1];
               last.productId == id && last.name == request.name && last.productTypeId == request.productTypeId
      requires RowsOfProduct(repository.db.productColours, id) == NewAssociations(id, request.colourIds.value, firstKey)
      requires request.productTypeId in Keys(repository.db.productTypes, ProductTypeKey)
      requires forall c :: c in request.colourIds.value ==> c in Keys(repository.db.colours, ColourKey)
      requires repository.db.Valid()
      ensures ReadsBack(id, request)
    {
      var db := repository.db;
      FindByIdUnique(db.products, ProductKey, db.nextProductId, |db.products| - 1);
      var loaded := repository.GetProductById(id).value;
      var ids := request.colourIds.value;
      var rows := NewAssociations(id, ids, firstKey);
      forall k | 0 <= k < |ids|
        ensures loaded.associations[k].colour == FindById(db.colours, ColourKey, ids[k])
      {
        assert rows[k].colourId == ids[k];
        assert ids[k] in ids;
      }
    }

    /** The product list: one `{Id, Name}` entry per stored product, in table order. */
    function GetAllProducts(): (r: seq<ProductListResponse>)
      reads repository.db
      ensures |r| == |repository.db.products|
      ensures forall i :: 0 <= i < |r| ==> r[i] == ProductListResponse(repository.db.products[i].productId, repository.db.products[i].name)
      ensures Keys(repository.db.products, ProductKey) == seq(|r|, i requires 0 <= i < |r| => r[i].id)
    {
      ListOf(repository.GetAllProducts())
    }

    /** The product detail, or `None` exactly when the repository finds no such product. */
    function GetProductById(id: int): (r: Option<ProductDetailResponse>)
      reads repository.db
      ensures r.None? <==> repository.GetProductById(id).None?
      ensures r.None? <==> id !in Keys(repository.db.products, ProductKey)
      ensures r.Some? ==> r.value == DetailOf(repository.GetProductById(id).value) && r.value.id == id
    {
      match repository.GetProductById(id)
      case None => None
      case Some(loaded) => Some(DetailOf(loaded))
    }
  }

  /**
   * Store-level facts behind the read-back guarantee: after the two-phase insert of a
   * product whose colours and type exist, loading that product finds its type and one
   * resolved colour per requested id, in request order.
   */
  lemma NewProductRows(before: Tables, after: Tables, id: int, product: Product, ids: seq<int>)
    requires IntactTables(before)
    requires id !in Keys(before.products, ProductKey)
    requires after == before.(products := before.products + [product.(productId := id)],
                              productColours := before.productColours + NewAssociations(id, ids, before.nextProductColourId),
                              nextProductId := id + 1,
                              nextProductColourId := before.nextProductColourId + |ids|)
    ensures RowsOfProduct(after.productColours, id) == NewAssociations(id, ids, before.nextProductColourId)
  {
    forall i | 0 <= i < |before.productColours|
      ensures before.productColours[i].productId != id
    {
      assert before.productColours[i].productId in Keys(before.products, ProductKey);
    }
    RowsOfProductNone(before.productColours, id);
    RowsOfProductAppend(before.productColours, NewAssociations(id, ids, before.nextProductColourId), id);
    RowsOfNewAssociations(id, ids, before.nextProductColourId);
  }
}
