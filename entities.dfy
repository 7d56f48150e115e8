/**
 * The stored records and the response shapes of the product service. Each of these
 * is a plain value; the tables that hold the records live in the `Data` module.
 */
module Entities {
  import opened Wrappers

  /** A point in time as a tick count; `0` is `default(DateTime)`. */
  type DateTime = nat

  const DefaultDateTime: DateTime := 0

  /** The audit columns every table carries; nothing in the service reads them back. */
  datatype Audit = Audit(
    createdBy: Option<string>,
    updatedBy: Option<string>,
    createdDate: DateTime,
    updatedDate: Option<DateTime>,
    deletedDate: Option<DateTime>)

  /** The audit columns of an entity created with only its name set: `CreatedDate`
      defaults to the clock, every other column is null. */
  function FreshAudit(now: DateTime): Audit {
    Audit(None, None, now, None, None)
  }

  /** A row of the `colours` table. The key `0` marks an entity not yet saved. */
  datatype Colour = Colour(colourId: int, colourName: string, audit: Audit)

  /** A row of the `ProductTypes` table. */
  datatype ProductType = ProductType(productTypeId: int, productTypeName: string, audit: Audit)

  /** A row of the `Products` table. The column `Name` is NOT NULL in the database; the
      row type still admits a null name, because the handler never checks it and only the
      database would reject it. */
  datatype Product = Product(productId: int, name: Option<string>, productTypeId: int, audit: Audit)

  /** A row of the `ProductColours` junction table: one product/colour association. */
  datatype ProductColour = ProductColour(productColourId: int, productId: int, colourId: int)

  // Key columns, as function values for the generic table helpers of `Data`.
  function ColourKey(c: Colour): int { c.colourId }
  function ProductTypeKey(t: ProductType): int { t.productTypeId }
  function ProductKey(p: Product): int { p.productId }
  function ProductColourKey(pc: ProductColour): int { pc.productColourId }

  /** One entry of the product list. */
  datatype ProductListResponse = ProductListResponse(id: int, name: Option<string>)

  /** The product detail: the type's name and one colour name per association
      (null where the navigation did not resolve). */
  datatype ProductDetailResponse = ProductDetailResponse(
    id: int,
    name: Option<string>,
    productType: Option<string>,
    colours: seq<Option<string>>)

  /** The body of a 201 answer; the `Location` link is not modelled. */
  datatype CreatedResponse = CreatedResponse(id: int, message: string)

  /** Field name to error messages, as carried by validation failures. */
  type ErrorMap = map<string, seq<string>>

  /** The uniform error envelope; trace id and timestamp are not modelled. */
  datatype ErrorResponse = ErrorResponse(
    message: string,
    statusCode: int,
    details: Option<string>,
    errors: Option<ErrorMap>)
}
