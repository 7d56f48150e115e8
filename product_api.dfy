/**
 * The product endpoints. `Create` and `GetAll` shape the handler's answer; `GetById`
 * decides the answer for a raw route segment: parse it, check its sign, look it up.
 * Exceptions from the handler are not caught here: they reach the global exception
 * handler, so `Create` passes them on as `Err`.
 */
module ProductApi {
  import opened Wrappers
  import opened Text
  import opened Entities
  import opened Exceptions
  import opened Requests
  import opened Data
  import opened Handlers

  /** An action result: a success with its status code and body, or an error envelope
      (whose status code is carried inside it). */
  datatype ActionResult<T> =
    | Success(status: int, value: T)
    | Failure(error: ErrorResponse)
  {
    function StatusCode(): int {
      match this
      case Success(s, _) => s
      case Failure(e) => e.statusCode
    }
  }

  const CreatedMessage := "Product created successfully"

  function InvalidFormatMessage(id: string): string {
    "Invalid product ID format. '" + id + "' is not a valid number. Please provide a valid positive integer."
  }

  function NonPositiveIdMessage(productId: int): string {
    "Invalid product ID. Product ID must be a positive number greater than 0. Received: " + IntToDecimal(productId)
  }

  function ProductNotFoundMessage(productId: int): string {
    "Product with ID " + IntToDecimal(productId) + " was not found."
  }

  /** An error envelope as the controller builds it: no details and no error map. */
  function ControllerError(message: string, statusCode: int): (e: ErrorResponse)
    ensures e.message == message && e.statusCode == statusCode && e.details.None? && e.errors.None?
  {
    ErrorResponse(message, statusCode, None, None)
  }

  class ProductController {
    const handler: ProductHandler

    constructor (handler: ProductHandler)
      ensures this.handler == handler
    {
      this.handler := handler;
    }

    /**
     * Creates the product and answers 201 with the new key and a fixed message. Whatever
     * the handler rejects comes back as the handler's exception, with the store untouched.
     * A product created here is found by `GetById` under the decimal text of its key.
     */
    method Create(request: Option<ProductRequest>, now: DateTime) returns (r: Result<ActionResult<CreatedResponse>, Exception>)
      requires handler.SharedStore() && handler.repository.db.Valid()
      modifies handler.repository.db
      ensures handler.repository.db.Valid()
      ensures r.Err? <==> ProductGuard(request, old(handler.repository.db.colours), old(handler.repository.db.productTypes)).Some?
      ensures r.Err? ==> Some(r.error) == ProductGuard(request, old(handler.repository.db.colours), old(handler.repository.db.productTypes))
      ensures r.Err? ==> handler.repository.db.State() == old(handler.repository.db.State())
      ensures r.Ok? ==> r.value == Success(201, CreatedResponse(old(handler.repository.db.nextProductId), CreatedMessage))
      ensures r.Ok? ==>
                handler.repository.db.State() == old(handler.repository.db.State()).(
                  products := old(handler.repository.db.products) + [NewProduct(request.value, now).(productId := r.value.value.id)],
                  productColours := old(handler.repository.db.productColours)
                                    + NewAssociations(r.value.value.id, request.value.colourIds.value, old(handler.repository.db.nextProductColourId)),
                  nextProductId := r.value.value.id + 1,
                  nextProductColourId := old(handler.repository.db.nextProductColourId) + |request.value.colourIds.value|)
      ensures r.Ok? && old(handler.repository.db.Intact()) && r.value.value.id <= MaxInt32 ==>
                var answer := GetById(IntToDecimal(r.value.value.id));
                answer.Success? && answer.status == 200 && answer.value.id == r.value.value.id
                && answer.value.name == request.value.name
      ensures r.Ok? && old(handler.repository.db.Intact()) ==> handler.ReadsBack(r.value.value.id, request.value)
    {
      var added := handler.AddProduct(request, now);
      match added
      case Err(e) =>
        r := Err(e);
      case Ok(id) =>
        r := Ok(Success(201, CreatedResponse(id, CreatedMessage)));
        if old(handler.repository.db.Intact()) && id <= MaxInt32 {
          ParseOfDecimal(id);
        }
    }

    /** 200 with the handler's product list. */
    function GetAll(): (r: ActionResult<seq<ProductListResponse>>)
      reads handler.repository.db
      ensures r.Success? && r.StatusCode() == 200 && r.value == handler.GetAllProducts()
    {
      Success(200, handler.GetAllProducts())
    }

    /**
     * The answer for route segment `id`: 400 when it is not a 32-bit integer, 400 when it
     * is not positive, 404 when no product has that key, otherwise 200 with the detail.
     * The handler is consulted only for positive keys.
     */
    function GetById(id: string): (r: ActionResult<ProductDetailResponse>)
      reads handler.repository.db
      ensures var p := TryParseInt32(id);
              p.None? ==> r == Failure(ControllerError(InvalidFormatMessage(id), 400))
      ensures var p := TryParseInt32(id);
              p.Some? && p.value <= 0 ==> r == Failure(ControllerError(NonPositiveIdMessage(p.value), 400))
      ensures var p := TryParseInt32(id);
              p.Some? && p.value > 0 && handler.GetProductById(p.value).None?
              ==> r == Failure(ControllerError(ProductNotFoundMessage(p.value), 404))
      ensures var p := TryParseInt32(id);
              r.Success? <==> p.Some? && p.value in Keys(handler.repository.db.products, ProductKey) && p.value > 0
      ensures var p := TryParseInt32(id);
              r.Success? ==> r.status == 200 && p.Some? && Some(r.value) == handler.GetProductById(p.value)
      ensures r.StatusCode() in {200, 400, 404}
    {
      match TryParseInt32(id)
      case None => Failure(ControllerError(InvalidFormatMessage(id), 400))
      case Some(productId) =>
        if productId <= 0 then Failure(ControllerError(NonPositiveIdMessage(productId), 400))
        else
          match handler.GetProductById(productId)
          case None => Failure(ControllerError(ProductNotFoundMessage(productId), 404))
          case Some(product) => Success(200, product)
    }

    /** Every stored product is served under the decimal text of its key. */
    lemma GetByIdFindsStored(i: int)
      requires handler.repository.db.Valid()
      requires 0 <= i < |handler.repository.db.products|
      requires handler.repository.db.products[i].productId <= MaxInt32
      ensures var p := handler.repository.db.products[i];
              var answer := GetById(IntToDecimal(p.productId));
              answer.Success? && answer.value.id == p.productId && answer.value.name == p.name
    {
      var db := handler.repository.db;
      var p := db.products[i];
      assert Keys(db.products, ProductKey)[i] == p.productId;
      ParseOfDecimal(p.productId);
      FindByIdUnique(db.products, ProductKey, db.nextProductId, i);
    }

    /** A segment holding a character that is neither a digit nor a leading sign is a
        format error, whatever the store holds. */
    lemma NonNumericIsFormatError(id: string, i: int)
      requires 0 <= i < |id| && !IsDigit(id[i]) && (i > 0 || (id[0] != '+' && id[0] != '-'))
      ensures GetById(id) == Failure(ControllerError(InvalidFormatMessage(id), 400))
    {
    }
  }
}
