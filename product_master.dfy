/**
 * The older `Product-master` copy of the product repository. Its products are tracked
 * objects: `AddProduct` fills in missing audit columns on the caller's own object, then
 * stores that same object, whose key the store assigns on save. Three operations were
 * never written and always fail with a not-implemented error.
 */
module ProductMaster {
  import opened Wrappers
  import opened Text
  import opened Entities
  import opened Exceptions

  const SystemUser := "system"

  /** A product entity, updated in place by the repository. */
  class ProductModel {
    var productId: int
    var name: Option<string>
    var price: real
    var productTypeId: Option<int>
    var colourId: Option<int>
    var createdBy: Option<string>
    var updatedBy: Option<string>
    var createdDate: DateTime
    var updatedDate: Option<DateTime>
    var deletedDate: Option<DateTime>

    /** A new entity: key 0, `CreatedDate` from the clock, everything else as given or null. */
    constructor (name: Option<string>, price: real, productTypeId: Option<int>, colourId: Option<int>,
                 createdBy: Option<string>, updatedBy: Option<string>, now: DateTime)
      ensures this.productId == 0 && this.name == name && this.price == price
      ensures this.productTypeId == productTypeId && this.colourId == colourId
      ensures this.createdBy == createdBy && this.updatedBy == updatedBy
      ensures this.createdDate == now && this.updatedDate.None? && this.deletedDate.None?
    {
      productId := 0;
      this.name := name;
      this.price := price;
      this.productTypeId := productTypeId;
      this.colourId := colourId;
      this.createdBy := createdBy;
      this.updatedBy := updatedBy;
      createdDate := now;
      updatedDate := None;
      deletedDate := None;
    }

    /** Fills in the missing audit columns on this entity and touches nothing else. */
    method ApplyAuditDefaults(now: DateTime)
      modifies this`createdBy, this`updatedBy, this`createdDate
      ensures createdBy == DefaultCreatedBy(old(createdBy))
      ensures updatedBy == DefaultUpdatedBy(old(updatedBy), createdBy)
      ensures createdDate == DefaultCreatedDate(old(createdDate), now)
    {
      if IsNullOrWhiteSpace(createdBy) {
        createdBy := Some(SystemUser);
      }
      if IsNullOrWhiteSpace(updatedBy) {
        updatedBy := if createdBy.Some? then createdBy else Some(SystemUser);
      }
      if createdDate == DefaultDateTime {
        createdDate := now;
      }
    }
  }

  // ---------------------------------------------------------------------------
  // The audit defaults

  /** A blank creator becomes the system user; any other value is kept. */
  function DefaultCreatedBy(createdBy: Option<string>): (r: Option<string>)
    ensures !IsNullOrWhiteSpace(r)
    ensures !IsNullOrWhiteSpace(createdBy) ==> r == createdBy
    ensures IsNullOrWhiteSpace(createdBy) ==> r == Some(SystemUser)
  {
    if IsNullOrWhiteSpace(createdBy) then
      assert !IsWhiteSpace(SystemUser[0]);
      Some(SystemUser)
    else createdBy
  }

  /** A blank updater becomes the (already defaulted) creator; any other value is kept. */
  function DefaultUpdatedBy(updatedBy: Option<string>, createdBy: Option<string>): (r: Option<string>)
    requires !IsNullOrWhiteSpace(createdBy)
    ensures !IsNullOrWhiteSpace(r)
    ensures !IsNullOrWhiteSpace(updatedBy) ==> r == updatedBy
    ensures IsNullOrWhiteSpace(updatedBy) ==> r == createdBy
  {
    if IsNullOrWhiteSpace(updatedBy) then (if createdBy.Some? then createdBy else Some(SystemUser)) else updatedBy
  }

  /** An unset creation date becomes the clock reading; a set one is kept. */
  function DefaultCreatedDate(createdDate: DateTime, now: DateTime): (r: DateTime)
    ensures createdDate != DefaultDateTime ==> r == createdDate
    ensures createdDate == DefaultDateTime ==> r == now
  {
    if createdDate == DefaultDateTime then now else createdDate
  }

  /** Applying the defaults a second time changes nothing, provided the clock reading used
      the first time was itself a set date. */
  lemma DefaultsIdempotent(createdBy: Option<string>, updatedBy: Option<string>, createdDate: DateTime,
                           now: DateTime, later: DateTime)
    requires now != DefaultDateTime
    ensures var c := DefaultCreatedBy(createdBy);
            var u := DefaultUpdatedBy(updatedBy, c);
            var d := DefaultCreatedDate(createdDate, now);
            && DefaultCreatedBy(c) == c
            && DefaultUpdatedBy(u, DefaultCreatedBy(c)) == u
            && DefaultCreatedDate(d, later) == d
  {
  }

  // ---------------------------------------------------------------------------
  // The store and the repository

  class MasterDatabase {
    var products: seq<ProductModel>
    var nextProductId: int

    /** Stored entities are distinct objects with AUTOINCREMENT keys in insertion order. */
    ghost predicate Valid()
      reads this, products
    {
      && 1 <= nextProductId
      && (forall i :: 0 <= i < |products| ==> 1 <= products[i].productId < nextProductId)
      && (forall i, j :: 0 <= i < j < |products| ==> products[i].productId < products[j].productId)
    }

    constructor ()
      ensures Valid() && products == [] && nextProductId == 1
    {
      products := [];
      nextProductId := 1;
    }

    /** `Add` then `SaveChanges`: the tracked object gets the next key and joins the set. */
    method Save(product: ProductModel) returns (id: int)
      requires Valid() && product !in products
      modifies this, product`productId
      ensures Valid()
      ensures id == old(nextProductId) && product.productId == id
      ensures forall p :: p in old(products) ==> p.productId != id
      ensures products == old(products) + [product] && nextProductId == id + 1
    {
      id := nextProductId;
      product.productId := id;
      products := products + [product];
      nextProductId := id + 1;
    }
  }

  class ProductRepository {
    const dbContext: MasterDatabase

    constructor (context: MasterDatabase)
      ensures dbContext == context
    {
      dbContext := context;
    }

    /**
     * Fills in the audit defaults on `product` itself, stores that object and returns the
     * key it was given. Afterwards neither audit name is blank, and the stored object is
     * the caller's object.
     */
    method AddProduct(product: ProductModel, now: DateTime) returns (id: int)
      requires dbContext.Valid() && product !in dbContext.products && product.productId == 0
      modifies product, dbContext
      ensures dbContext.Valid()
      ensures product.createdBy == DefaultCreatedBy(old(product.createdBy))
      ensures product.updatedBy == DefaultUpdatedBy(old(product.updatedBy), product.createdBy)
      ensures product.createdDate == DefaultCreatedDate(old(product.createdDate), now)
      ensures !IsNullOrWhiteSpace(product.createdBy) && !IsNullOrWhiteSpace(product.updatedBy)
      ensures unchanged(product`name, product`price, product`productTypeId, product`colourId,
                        product`updatedDate, product`deletedDate)
      ensures id == old(dbContext.nextProductId) && product.productId == id
      ensures forall p :: p in old(dbContext.products) ==> p.productId != id
      ensures dbContext.products == old(dbContext.products) + [product]
      ensures dbContext.nextProductId == id + 1
    {
      product.ApplyAuditDefaults(now);
      id := dbContext.Save(product);
    }

    /** Every stored entity. */
    function GetAllProducts(): (r: seq<ProductModel>)
      reads dbContext
      ensures r == dbContext.products
    {
      dbContext.products
    }

    method DeleteProduct(productId: int) returns (r: Result<int, Exception>)
      ensures r == Err(NotImplemented)
    {
      r := Err(NotImplemented);
    }

    method GetProductById(productId: int) returns (r: Result<ProductModel, Exception>)
      ensures r == Err(NotImplemented)
    {
      r := Err(NotImplemented);
    }

    method UpdateProduct(product: ProductModel) returns (r: Result<int, Exception>)
      ensures r == Err(NotImplemented)
    {
      r := Err(NotImplemented);
    }
  }
}
