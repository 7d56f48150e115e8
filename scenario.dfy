/**
 * One request sequence through the whole stack on a fresh database: create a colour and a
 * product type, create a product in that colour and type, read it back by its route id.
 */
module Scenario {
  import opened Wrappers
  import opened Text
  import opened Entities
  import opened Requests
  import opened Data
  import opened Handlers
  import opened ProductApi

  /** Wires the layers over a fresh database and stores the colour "Red" and the product
      type "Shirt" through their handlers; both get key 1. */
  method Seed(now: DateTime) returns (db: Database, controller: ProductController)
    ensures fresh(db) && db.Valid() && db.Intact()
    ensures controller.handler.SharedStore() && controller.handler.repository.db == db
    ensures db.State() == Tables([Colour(1, "Red", FreshAudit(now))], [ProductType(1, "Shirt", FreshAudit(now))], [], [], 2, 2, 1, 1)
  {
    db := new Database();
    var colours := new ColourRepository(db);
    var productTypes := new ProductTypeRepository(db);
    var products := new ProductRepository(db);
    var colourHandler := new ColourHandler(colours);
    var productTypeHandler := new ProductTypeHandler(productTypes);
    var productHandler := new ProductHandler(products, colours, productTypes);
    controller := new ProductController(productHandler);

    assert !IsWhiteSpace("Red"[0]);
    var red := colourHandler.AddColour(Some(ColourRequest(Some("Red"))), now);
    assert !IsWhiteSpace("Shirt"[0]);
    var shirt := productTypeHandler.AddProductType(Some(ProductTypeRequest(Some("Shirt"))), now);
  }

  method CreateThenRead(now: DateTime) returns (created: int, answer: ActionResult<ProductDetailResponse>)
    ensures created == 1
    ensures answer == Success(200, ProductDetailResponse(1, Some("Basic Tee"), Some("Shirt"), [Some("Red")]))
  {
    var db, controller := Seed(now);
    ghost var seeded := db.State();
    var request := ProductRequest(Some("Basic Tee"), 1, Some([1]), None);
    SeededGuardPasses(request, db.colours, db.productTypes, now);
    var result := controller.Create(Some(request), now);
    created := result.value.value.id;
    assert db.colours == seeded.colours && db.productTypes == seeded.productTypes;
    OneParses();
    assert db.products[0].productId == 1;
    assert 1 in Keys(db.products, ProductKey);
    answer := controller.GetById("1");
    assert answer.Success?;
    DetailOfScenario(controller.handler, answer, request, now);
  }

  /** The scenario's request passes every guard against the seeded tables. */
  lemma SeededGuardPasses(request: ProductRequest, colours: seq<Colour>, productTypes: seq<ProductType>, now: DateTime)
    requires request == ProductRequest(Some("Basic Tee"), 1, Some([1]), None)
    requires colours == [Colour(1, "Red", FreshAudit(now))]
    requires productTypes == [ProductType(1, "Shirt", FreshAudit(now))]
    ensures ProductGuard(Some(request), colours, productTypes).None?
  {
    assert Keys(colours, ColourKey) == [1];
    assert Keys(productTypes, ProductTypeKey) == [1];
    assert MissingIds([1], [1]) == [];
  }

  /** The route segment "1" is the key 1. */
  lemma OneParses()
    ensures TryParseInt32("1") == Some(1)
  {
    ParseOfDecimal(1);
    assert IntToDecimal(1) == "1";
  }

  lemma DetailOfScenario(handler: ProductHandler, answer: ActionResult<ProductDetailResponse>, request: ProductRequest, now: DateTime)
    requires handler.ReadsBack(1, request)
    requires request == ProductRequest(Some("Basic Tee"), 1, Some([1]), None)
    requires handler.repository.db.colours == [Colour(1, "Red", FreshAudit(now))]
    requires handler.repository.db.productTypes == [ProductType(1, "Shirt", FreshAudit(now))]
    requires answer.Success? && Some(answer.value) == handler.GetProductById(1)
    ensures answer.value == ProductDetailResponse(1, Some("Basic Tee"), Some("Shirt"), [Some("Red")])
  {
    var d := answer.value;
    assert ColourNameOf(handler.repository.db.colours, 1) == Some("Red");
    assert d.colours[0] == Some("Red");
  }
}
