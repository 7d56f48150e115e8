/**
 * The relational store and the three repositories over it. `Database` plays the part of
 * the EF Core context: four tables held as sequences of rows in insertion order, and one
 * AUTOINCREMENT counter per table (keys start at 1 and are never reused). Each repository
 * holds a reference to the context it was given and is the only code that touches it.
 */
module Data {
  import opened Wrappers
  import opened Entities

  // ---------------------------------------------------------------------------
  // Table helpers

  /** The key column of a table, in row order. */
  function Keys<T>(rows: seq<T>, key: T -> int): (ks: seq<int>)
    ensures |ks| == |rows| && forall i :: 0 <= i < |rows| ==> ks[i] == key(rows[i])
  {
    seq(|rows|, i requires 0 <= i < |rows| => key(rows[i]))
  }

  /** AUTOINCREMENT keys: positive, strictly increasing in insertion order, and all below
      the counter that supplies the next key. */
  ghost predicate AutoKeys(ks: seq<int>, next: int) {
    && 1 <= next
    && (forall i :: 0 <= i < |ks| ==> 1 <= ks[i] < next)
    && (forall i, j :: 0 <= i < j < |ks| ==> ks[i] < ks[j])
  }

  /** The first row whose key is `id` (`FirstOrDefault(row => key == id)`). */
  function FindById<T>(rows: seq<T>, key: T -> int, id: int): (r: Option<T>)
    ensures r.None? <==> id !in Keys(rows, key)
    ensures r.Some? ==> r.value in rows && key(r.value) == id
  {
    if |rows| == 0 then None
    else if key(rows[0]) == id then Some(rows[0])
    else
      assert Keys(rows, key) == [key(rows[0])] + Keys(rows[1..], key);
      FindById(rows[1..], key, id)
  }

  /** With AUTOINCREMENT keys, a key names at most one row, and `FindById` finds that row. */
  lemma FindByIdUnique<T>(rows: seq<T>, key: T -> int, next: int, i: int)
    requires AutoKeys(Keys(rows, key), next)
    requires 0 <= i < |rows|
    ensures FindById(rows, key, key(rows[i])) == Some(rows[i])
    ensures forall j :: 0 <= j < |rows| && key(rows[j]) == key(rows[i]) ==> j == i
  {
    var ks := Keys(rows, key);
    forall j | 0 <= j < |rows| && key(rows[j]) == key(rows[i])
      ensures j == i
    {
      assert ks[j] == ks[i];
    }
    assert ks[i] == key(rows[i]);
    var r := FindById(rows, key, key(rows[i]));
    var j :| 0 <= j < |rows| && rows[j] == r.value;
  }

  /** The junction rows of one product (`ProductColours` of a loaded product), in table order. */
  function RowsOfProduct(rows: seq<ProductColour>, productId: int): (r: seq<ProductColour>)
    ensures forall pc :: pc in r <==> pc in rows && pc.productId == productId
    ensures |r| <= |rows|
  {
    if |rows| == 0 then []
    else
      assert rows == [rows[0]] + rows[1..];
      (if rows[0].productId == productId then [rows[0]] else []) + RowsOfProduct(rows[1..], productId)
  }

  lemma {:induction false} RowsOfProductAppend(a: seq<ProductColour>, b: seq<ProductColour>, productId: int)
    ensures RowsOfProduct(a + b, productId) == RowsOfProduct(a, productId) + RowsOfProduct(b, productId)
  {
    if |a| > 0 {
      assert (a + b)[1..] == a[1..] + b;
      RowsOfProductAppend(a[1..], b, productId);
    } else {
      assert a + b == b;
    }
  }

  /** The associations that `AddProduct` writes for product `productId`: one per requested
      colour id, in request order and duplicates included, keyed from `firstKey` on. */
  function NewAssociations(productId: int, colourIds: seq<int>, firstKey: int): (r: seq<ProductColour>)
    ensures |r| == |colourIds|
    ensures forall k :: 0 <= k < |r| ==> r[k] == ProductColour(firstKey + k, productId, colourIds[k])
  {
    seq(|colourIds|, k requires 0 <= k < |colourIds| => ProductColour(firstKey + k, productId, colourIds[k]))
  }

  /** Filtering the new associations by their own product id gives all of them back. */
  lemma {:induction false} RowsOfNewAssociations(productId: int, colourIds: seq<int>, firstKey: int)
    ensures RowsOfProduct(NewAssociations(productId, colourIds, firstKey), productId)
            == NewAssociations(productId, colourIds, firstKey)
    decreases |colourIds|
  {
    var rows := NewAssociations(productId, colourIds, firstKey);
    if |colourIds| > 0 {
      assert rows[1..] == NewAssociations(productId, colourIds[1..], firstKey + 1);
      RowsOfNewAssociations(productId, colourIds[1..], firstKey + 1);
      assert rows == [rows[0]] + rows[1..];
    }
  }

  /** Rows that all belong to other products contribute nothing to a product's associations. */
  lemma {:induction false} RowsOfProductNone(rows: seq<ProductColour>, productId: int)
    requires forall i :: 0 <= i < |rows| ==> rows[i].productId != productId
    ensures RowsOfProduct(rows, productId) == []
  {
    if |rows| > 0 {
      RowsOfProductNone(rows[1..], productId);
    }
  }

  // ---------------------------------------------------------------------------
  // The store

  /** A snapshot of the whole store, for stating what an operation changes. */
  datatype Tables = Tables(
    colours: seq<Colour>,
    productTypes: seq<ProductType>,
    products: seq<Product>,
    productColours: seq<ProductColour>,
    nextColourId: int,
    nextProductTypeId: int,
    nextProductId: int,
    nextProductColourId: int)

  /** A product with its navigations loaded: its type and, through the junction, its colours. */
  datatype LoadedProduct = LoadedProduct(
    product: Product,
    productType: Option<ProductType>,
    associations: seq<LoadedAssociation>)

  datatype LoadedAssociation = LoadedAssociation(row: ProductColour, colour: Option<Colour>)

  class Database {
    var colours: seq<Colour>
    var productTypes: seq<ProductType>
    var products: seq<Product>
    var productColours: seq<ProductColour>
    var nextColourId: int
    var nextProductTypeId: int
    var nextProductId: int
    var nextProductColourId: int

    function State(): Tables
      reads this
    {
      Tables(colours, productTypes, products, productColours,
             nextColourId, nextProductTypeId, nextProductId, nextProductColourId)
    }

    /** Every table's keys are AUTOINCREMENT keys. */
    ghost predicate Valid()
      reads this
    {
      && AutoKeys(Keys(colours, ColourKey), nextColourId)
      && AutoKeys(Keys(productTypes, ProductTypeKey), nextProductTypeId)
      && AutoKeys(Keys(products, ProductKey), nextProductId)
      && AutoKeys(Keys(productColours, ProductColourKey), nextProductColourId)
    }

    /** Every foreign key resolves: a product's type, and both ends of every association. */
    ghost predicate Intact()
      reads this
    {
      IntactTables(State())
    }

    /** A freshly migrated, empty database. */
    constructor ()
      ensures Valid() && Intact()
      ensures State() == Tables([], [], [], [], 1, 1, 1, 1)
    {
      colours, productTypes, products, productColours := [], [], [], [];
      nextColourId, nextProductTypeId, nextProductId, nextProductColourId := 1, 1, 1, 1;
    }
  }

  // ---------------------------------------------------------------------------
  // Repositories

  class ColourRepository {
    const db: Database

    constructor (context: Database)
      ensures db == context
    {
      db := context;
    }

    /**
     * Inserts one colour and returns the key the store generated for it. The entity
     * arrives unsaved (key 0); the stored row carries the new key.
     */
    method AddColour(colour: Colour) returns (id: int)
      requires db.Valid() && colour.colourId == 0
      modifies db
      ensures db.Valid()
      ensures id == old(db.nextColourId) && id !in Keys(old(db.colours), ColourKey)
      ensures db.State() == old(db.State()).(colours := old(db.colours) + [colour.(colourId := id)],
                                             nextColourId := id + 1)
      ensures old(db.Intact()) ==> db.Intact()
    {
      id := db.nextColourId;
      ghost var before := db.colours;
      db.colours := db.colours + [colour.(colourId := id)];
      db.nextColourId := id + 1;
      assert Keys(db.colours, ColourKey) == Keys(before, ColourKey) + [id];
    }

    /** Every stored colour, in table order. */
    function GetAllColours(): (r: seq<Colour>)
      reads db
      ensures r == db.colours
    {
      db.colours
    }
  }

  class ProductTypeRepository {
    const db: Database

    constructor (context: Database)
      ensures db == context
    {
      db := context;
    }

    /** Inserts one product type and returns the key the store generated for it. */
    method AddProductType(productType: ProductType) returns (id: int)
      requires db.Valid() && productType.productTypeId == 0
      modifies db
      ensures db.Valid()
      ensures id == old(db.nextProductTypeId) && id !in Keys(old(db.productTypes), ProductTypeKey)
      ensures db.State() == old(db.State()).(productTypes := old(db.productTypes) + [productType.(productTypeId := id)],
                                             nextProductTypeId := id + 1)
      ensures old(db.Intact()) ==> db.Intact()
    {
      id := db.nextProductTypeId;
      ghost var before := db.productTypes;
      db.productTypes := db.productTypes + [productType.(productTypeId := id)];
      db.nextProductTypeId := id + 1;
      assert Keys(db.productTypes, ProductTypeKey) == Keys(before, ProductTypeKey) + [id];
    }

    /** Every stored product type, in table order. */
    function GetAllProductTypes(): (r: seq<ProductType>)
      reads db
      ensures r == db.productTypes
    {
      db.productTypes
    }
  }

  class ProductRepository {
    const db: Database

    constructor (context: Database)
      ensures db == context
    {
      db := context;
    }

    /**
     * Two-phase insert: the product row first, which yields its key, then one association
     * row per requested colour id. The repository itself rejects nothing: an empty list
     * still stores the product, with no associations.
     */
    method AddProduct(product: Product, colourIds: seq<int>) returns (id: int)
      requires db.Valid() && product.productId == 0
      modifies db
      ensures db.Valid()
      ensures id == old(db.nextProductId) && id !in Keys(old(db.products), ProductKey)
      ensures db.State() == old(db.State()).(
                products := old(db.products) + [product.(productId := id)],
                productColours := old(db.productColours) + NewAssociations(id, colourIds, old(db.nextProductColourId)),
                nextProductId := id + 1,
                nextProductColourId := old(db.nextProductColourId) + |colourIds|)
      ensures && old(db.Intact())
              && product.productTypeId in Keys(db.productTypes, ProductTypeKey)
              && (forall c :: c in colourIds ==> c in Keys(db.colours, ColourKey))
              ==> db.Intact()
    {
      // Phase one: the product row, saved to obtain its key.
      id := db.nextProductId;
      ghost var oldProducts := db.products;
      db.products := db.products + [product.(productId := id)];
      db.nextProductId := id + 1;
      assert Keys(db.products, ProductKey) == Keys(oldProducts, ProductKey) + [id];

      // Phase two: one association per colour id.
      ghost var mid := db.State();
      ghost var first := db.nextProductColourId;
      for i := 0 to |colourIds|
        invariant db.State() == mid.(productColours := mid.productColours + NewAssociations(id, colourIds[..i], first),
                                     nextProductColourId := first + i)
        invariant db.Valid()
      {
        ghost var rowsBefore := db.productColours;
        db.productColours := db.productColours + [ProductColour(db.nextProductColourId, id, colourIds[i])];
        db.nextProductColourId := db.nextProductColourId + 1;
        assert NewAssociations(id, colourIds[..i + 1], first)
            == NewAssociations(id, colourIds[..i], first) + [ProductColour(first + i, id, colourIds[i])];
        assert Keys(db.productColours, ProductColourKey)
            == Keys(rowsBefore, ProductColourKey) + [first + i];
      }
      assert colourIds[..|colourIds|] == colourIds;
      if && old(db.Intact())
         && product.productTypeId in Keys(db.productTypes, ProductTypeKey)
         && (forall c :: c in colourIds ==> c in Keys(db.colours, ColourKey))
      {
        IntactAfterAddProduct(old(db.State()), db.State(), id, product, colourIds);
      }
    }

    /** Every stored product, in table order, without navigations. */
    function GetAllProducts(): (r: seq<Product>)
      reads db
      ensures r == db.products
    {
      db.products
    }

    /**
     * The product with key `id`, with its type and its associated colours loaded, or
     * `None` when no product has that key.
     */
    function GetProductById(id: int): (r: Option<LoadedProduct>)
      reads db
      ensures r.None? <==> id !in Keys(db.products, ProductKey)
      ensures r.Some? ==> r.value.product in db.products && r.value.product.productId == id
      ensures r.Some? ==> r.value.productType == FindById(db.productTypes, ProductTypeKey, r.value.product.productTypeId)
      ensures r.Some? ==>
                var rows := RowsOfProduct(db.productColours, id);
                && |r.value.associations| == |rows|
                && forall k :: 0 <= k < |rows| ==>
                     r.value.associations[k] == LoadedAssociation(rows[k], FindById(db.colours, ColourKey, rows[k].colourId))
    {
      match FindById(db.products, ProductKey, id)
      case None => None
      case Some(p) =>
        var rows := RowsOfProduct(db.productColours, id);
        var colours := db.colours;
        Some(LoadedProduct(
          p,
          FindById(db.productTypes, ProductTypeKey, p.productTypeId),
          seq(|rows|, k requires 0 <= k < |rows| => LoadedAssociation(rows[k], FindById(colours, ColourKey, rows[k].colourId)))))
    }
  }

  /** The store-level facts behind `ProductRepository.AddProduct`'s integrity guarantee. */
  lemma IntactAfterAddProduct(before: Tables, after: Tables, id: int, product: Product, colourIds: seq<int>)
    requires after == before.(products := before.products + [product.(productId := id)],
                              productColours := before.productColours + NewAssociations(id, colourIds, before.nextProductColourId),
                              nextProductId := id + 1,
                              nextProductColourId := before.nextProductColourId + |colourIds|)
    requires IntactTables(before)
    requires product.productTypeId in Keys(after.productTypes, ProductTypeKey)
    requires forall c :: c in colourIds ==> c in Keys(after.colours, ColourKey)
    ensures IntactTables(after)
  {
    var newRows := NewAssociations(id, colourIds, before.nextProductColourId);
    assert Keys(after.products, ProductKey) == Keys(before.products, ProductKey) + [id];
    forall i | 0 <= i < |after.productColours|
      ensures after.productColours[i].productId in Keys(after.products, ProductKey)
      ensures after.productColours[i].colourId in Keys(after.colours, ColourKey)
    {
      if i >= |before.productColours| {
        var k := i - |before.productColours|;
        assert after.productColours[i] == newRows[k];
        assert colourIds[k] in colourIds;
      }
    }
  }

  /** `Database.Intact` on a snapshot. */
  ghost predicate IntactTables(t: Tables) {
    && (forall i :: 0 <= i < |t.products| ==> t.products[i].productTypeId in Keys(t.productTypes, ProductTypeKey))
    && (forall i :: 0 <= i < |t.productColours| ==>
          && t.productColours[i].productId in Keys(t.products, ProductKey)
          && t.productColours[i].colourId in Keys(t.colours, ColourKey))
  }
}
