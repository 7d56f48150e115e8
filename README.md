# Product service: a verified model

A Dafny model of a small layered ASP.NET Core CRUD service. The service manages colours, product types and products. Products link to colours through a `ProductColours` junction table. The model covers these layers:

- **Data**: the store as one `Database` object. It holds four tables (sequences of rows in insertion order) and one AUTOINCREMENT counter per table. The three repositories share it, as the scoped database context is shared.
- **Business**: the colour, product-type and product handlers, as classes over the repositories.
  - The product handler's guard chain is also a pure function, `ProductGuard`.
  - Its read projections are pure functions.
- **Request rules**: the data-annotation rules on the request payloads, as predicates.
- **API**: three total decision functions and one mutating endpoint.
  - `ProductController.GetById`: parse, sign check, lookup.
  - `CreateErrorResponse`: the global exception-to-envelope classifier.
  - `Authenticate`: the API-key gate.
  - `ProductController.Create`: the mutating endpoint.
- **Product-master**: the older repository that fills in audit columns on the caller's own object before storing it.

Files:

- `wrappers.dfy`: `Option` and `Result`.
- `text.dfy`: the .NET string facilities the service relies on.
  - `IsNullOrWhiteSpace`;
  - ordinal case-insensitive `Contains`;
  - `int.ToString` and `int.TryParse`;
  - `string.Join`.
- `entities.dfy`: rows and response shapes.
- `exceptions.dfy`: the exceptions and the `ValidationException` constructors.
- `requests.dfy`: the request payload rules.
- `data.dfy`: the store and the repositories.
- `handlers.dfy`: the handlers.
- `product_api.dfy`: the product controller.
- `exception_handler.dfy`: the global exception handler.
- `api_key.dfy`: the API-key middleware.
- `product_master.dfy`: the Product-master repository.
- `scenario.dfy`: one create-then-read sequence through every layer on a fresh store.

Main results:

- **Guard failures leave the store alone.** Every failure of the product guard chain leaves the store exactly as it was.
- **A successful create is fully described.** It appends one product row and one junction row per requested colour id, in order and with duplicates. It keeps every earlier row, and it keeps referential integrity.
- **Created products read back.** The product can then be read back through the controller under the decimal text of its key. The read gives its name, its type's name and the requested colours' names in request order.
- **The reported missing colours are exact.** They are the requested ids absent from the colour table, in request order with duplicates. The message names each of them.
- **The error envelope is bounded.** Its status is always one of 400, 401, 404 and 500. Outside development it never carries details. Constraint-message classification ignores letter case, and a foreign-key message always wins.
- **The API-key gate opens only for the key.** Off the exempt paths, only the exact configured key lets a request through. The exempt-path test respects segment boundaries.

## Model

| member | source | states |
|---|---|---|
| Text.TryParseInt32 | API/Controllers/ProductController.cs:78 | parses iff the text after an optional '+' or '-' is one or more digits whose signed value lies in the 32-bit range, and the result is that signed value |
| Text.ParsedShape | API/Controllers/ProductController.cs:78 | parsable text starts with a digit or a sign, continues with digits only, and a negative value has a leading '-' |
| Text.ParseAcceptsNonCanonical | API/Controllers/ProductController.cs:78 | text the formatter never writes still parses: "+5" to 5, "07" to 7, "-0" to 0 (for every value, not just these) |
| Text.ParseOfDecimal | API/Controllers/ProductController.cs:78-99 | parsing the decimal text of any 32-bit integer gives that integer back |
| Text.ContainsIgnoreCaseIff | API/Middleware/GlobalExceptionHandler.cs:172-185 | the case-insensitive `Contains` holds exactly when some window of the text matches the needle up to case |
| Text.ContainsIgnoreCaseOfUpper | API/Middleware/GlobalExceptionHandler.cs:172-185 | case-insensitive search gives the same answer on the upper-cased text |
| Text.JoinContainsEach | Business/Handlers/ProductHandler.cs:63 | `string.Join` output contains every joined part as a substring |
| Exceptions.NewValidationException | Domain/Exceptions/ValidationException.cs:10-14 | the fixed validation message and an empty error map |
| Exceptions.ValidationExceptionOf | Domain/Exceptions/ValidationException.cs:16-20 | the fixed message and exactly the given map, null included |
| Exceptions.ValidationExceptionFor | Domain/Exceptions/ValidationException.cs:22-26 | the fixed message and a map whose only key is the field, bound to `[error]`; a null field fails with an argument-null error for `key` |
| Requests.ProductNameValidIff | Domain/Request/ProductRequest.cs:16-18 | a name passes iff it is present, 2..200 long, only ASCII letters, digits and spaces, with at least one letter or digit |
| Requests.ProductTypeIdValidIff | Domain/Request/ProductRequest.cs:25 | the type id passes iff it is at least 1, so 0 and negatives fail |
| Requests.ColourIdsValidIff | Domain/Request/ProductRequest.cs:31-33 | the colour list passes iff present and non-empty; the default empty list fails |
| Requests.CreatedByValidIff | Domain/Request/ProductRequest.cs:39-40 | `CreatedBy` passes iff null or at most 100 UTF-16 code units long, as `string.Length` counts; up to 50 characters always pass, over 100 never, and within the Basic Multilingual Plane the limit is exactly 100 characters |
| Requests.AstralCreatedByLimit | Domain/Request/ProductRequest.cs:39-40 | 51 characters above the Basic Multilingual Plane (102 code units) are rejected, 50 of them are accepted |
| Text.Utf16LengthOfBmp | Domain/Request/ProductRequest.cs:16-18 | text within the Basic Multilingual Plane has a `string.Length` equal to its character count, so the ASCII-only name rules can count characters |
| Text.Utf16LengthOfAstral | Domain/Request/ProductRequest.cs:39-40 | text of characters above the Basic Multilingual Plane has a `string.Length` of two per character |
| Requests.ColourNameValidIff | Domain/Request/ColourRequest.cs:13-15 | a colour name passes iff present, 2..50 long, only ASCII letters and spaces, with a letter; no digit ever passes |
| Requests.ProductTypeNameValidIff | Domain/Request/ProductTypeRequest.cs:14-16 | a type name passes iff present, 2..100 long, only ASCII letters, digits and spaces, with a letter or digit |
| Data.FindById | Infrastructure/Data/ProductRepository.cs:49 | `FirstOrDefault` by key: absent iff no row has the key, otherwise a stored row with that key |
| Data.FindByIdUnique | Infrastructure/Migrations/20251214112121_AddProductAndProductColourTables.cs:18-19 | with AUTOINCREMENT keys a key names at most one row, and the lookup finds that row |
| Data.RowsOfProduct | Infrastructure/Data/ProductRepository.cs:47-48 | the loaded associations are exactly the junction rows whose product id matches |
| Data.NewAssociations | Infrastructure/Data/ProductRepository.cs:25-32 | one junction row per requested colour id, in request order, each naming the product |
| Data.RowsOfNewAssociations | Infrastructure/Data/ProductRepository.cs:25-32 | all the rows written for a product are found again when loading that product |
| Data.Database.constructor | Infrastructure/Migrations/20251214105828_InitialCreate.cs:18-19 | a fresh store: empty tables, every counter at 1 |
| Data.ColourRepository.AddColour | Infrastructure/Data/ColourRepository.cs:30-35 | appends exactly one colour under a fresh key and returns it; other tables unchanged; keys and integrity preserved |
| Data.ColourRepository.GetAllColours | Infrastructure/Data/ColourRepository.cs:41-44 | exactly the stored colours, in table order, with no change |
| Data.ProductTypeRepository.AddProductType | Infrastructure/Data/ProductTypeRepository.cs:30-35 | appends exactly one product type under a fresh key and returns it; other tables unchanged |
| Data.ProductTypeRepository.GetAllProductTypes | Infrastructure/Data/ProductTypeRepository.cs:41-44 | exactly the stored product types, with no change |
| Data.ProductRepository.AddProduct | Infrastructure/Data/ProductRepository.cs:19-36 | one product row under a fresh key, then one junction row per colour id (none for an empty list); colours, types and earlier rows unchanged; integrity kept when the referenced rows exist |
| Data.ProductRepository.GetAllProducts | Infrastructure/Data/ProductRepository.cs:38-41 | every stored product, with no change |
| Data.ProductRepository.GetProductById | Infrastructure/Data/ProductRepository.cs:43-50 | absent iff no product has the key; otherwise that product with its type and one resolved colour per matching junction row |
| Data.IntactAfterAddProduct | Infrastructure/Migrations/20251214112121_AddProductAndProductColourTables.cs:51-62 | the two-phase insert keeps every foreign key resolvable when the type and colours exist |
| Handlers.ColourHandler.AddColour | Business/Handlers/ColourHandler.cs:33-51 | null request: argument-null for `colour`; blank name: argument error on `ColourName`; both leave the store unchanged; otherwise exactly one colour with the request's name under the returned key |
| Handlers.ColourHandler.GetAllColours | Business/Handlers/ColourHandler.cs:57-60 | the repository's answer unchanged |
| Handlers.ValidColourNamePassesGuard | Business/Handlers/ColourHandler.cs:40 | a colour name the request rules accept never trips the handler's blank check |
| Handlers.ProductTypeHandler.AddProductType | Business/Handlers/ProductTypeHandler.cs:33-51 | the same guards and outcome as the colour handler, for `productType` and `ProductTypeName` |
| Handlers.ProductTypeHandler.GetAllProductTypes | Business/Handlers/ProductTypeHandler.cs:57-60 | the repository's answer unchanged |
| Handlers.ValidProductTypeNamePassesGuard | Business/Handlers/ProductTypeHandler.cs:40 | a type name the request rules accept never trips the blank check |
| Handlers.MissingIds | Business/Handlers/ProductHandler.cs:56-58 | exactly the requested ids absent from the colour table, with each kept as often as requested |
| Handlers.MissingIdsAppend | Business/Handlers/ProductHandler.cs:58 | the collection keeps request order, since it distributes over concatenation |
| Handlers.MissingColoursMessageNamesEach | Business/Handlers/ProductHandler.cs:60-65 | the error message names every missing id |
| Handlers.ProductGuard | Business/Handlers/ProductHandler.cs:40-74 | each guard's error in chain order; no error iff request present, colours non-empty, every id positive and stored, and the type stored |
| Handlers.EarlyGuardsIgnoreTables | Business/Handlers/ProductHandler.cs:40-53 | the null, empty-list and non-positive-id errors do not depend on the tables |
| Handlers.ColourErrorWins | Business/Handlers/ProductHandler.cs:56-74 | with a missing colour and a missing type, the colour error listing the missing ids is reported |
| Handlers.NewProduct | Business/Handlers/ProductHandler.cs:77-86 | the entity carries the request's name and type, `User` as creator and updater, both dates from the clock, and no deletion date |
| Handlers.ColourNameOf | Business/Handlers/ProductHandler.cs:128 | a colour name exactly when the key is stored, and then that colour's name |
| Handlers.ListOf | Business/Handlers/ProductHandler.cs:101-105 | one `{Id, Name}` per product, in order |
| Handlers.DetailOf | Business/Handlers/ProductHandler.cs:123-129 | the detail: id, name, the type's name when loaded, and one name (or null) per association |
| Handlers.ProductHandler.CheckRequest | Business/Handlers/ProductHandler.cs:40-74 | runs the guards in the handler's order, reading the colours and then the product types only when needed, and answers exactly the guard chain's rejection, or none |
| Handlers.ProductHandler.AddProduct | Business/Handlers/ProductHandler.cs:37-90 | fails iff the guard chain fails, with the store unchanged; otherwise the repository's two-phase insert with the mapped entity and the repository's key; the product then reads back with its name, type name and colour names |
| Handlers.ProductHandler.ReadsBackNewProduct | Business/Handlers/ProductHandler.cs:115-130 | a product whose rows were just written reads back with its type's name and one resolved colour per requested id |
| Handlers.ProductHandler.GetAllProducts | Business/Handlers/ProductHandler.cs:96-106 | one entry per stored product, same order, carrying each key |
| Handlers.ProductHandler.GetProductById | Business/Handlers/ProductHandler.cs:115-130 | null iff the repository finds nothing; otherwise the projection of what it found |
| Handlers.NewProductRows | Infrastructure/Data/ProductRepository.cs:25-32 | after the insert, a fresh product's associations are exactly its new rows, since no earlier row can name a fresh key |
| ProductApi.ProductController.Create | API/Controllers/ProductController.cs:36-48 | 201 with the new key and "Product created successfully"; a handler rejection is passed on with the store unchanged; the product is then served by `GetById` |
| ProductApi.ProductController.GetAll | API/Controllers/ProductController.cs:57-61 | 200 with the handler's list |
| ProductApi.ProductController.GetById | API/Controllers/ProductController.cs:75-115 | 400 with the raw text when the segment is not an int; 400 naming a non-positive number; 404 naming an unknown id; otherwise 200 with the handler's detail |
| ProductApi.ProductController.GetByIdFindsStored | API/Controllers/ProductController.cs:101-114 | every stored product is served under the decimal text of its key |
| ProductApi.ProductController.NonNumericIsFormatError | API/Controllers/ProductController.cs:78-87 | a segment with a non-digit (other than a leading sign) is a format error whatever the store holds |
| ExceptionHandling.ParseSqliteConstraintError | API/Middleware/GlobalExceptionHandler.cs:170-188 | FOREIGN KEY over UNIQUE over NOT NULL over the fallback, each by case-insensitive search |
| ExceptionHandling.ClassificationIgnoresCase | API/Middleware/GlobalExceptionHandler.cs:172-185 | the classification of a message and of its upper-cased form agree |
| ExceptionHandling.ForeignKeyWins | API/Middleware/GlobalExceptionHandler.cs:172-175 | any message with a foreign-key window anywhere is classified as a foreign-key failure |
| ExceptionHandling.HandleDatabaseException | API/Middleware/GlobalExceptionHandler.cs:131-168 | SQLite code 19 gives 400 with the classified text; other SQLite codes give 500; no SQLite inner exception gives 500; details only in development |
| ExceptionHandling.CreateErrorResponse | API/Middleware/GlobalExceptionHandler.cs:60-129 | the status is in {400, 401, 404, 500}; no details outside development; an error map only for validation; each arm's status and message, and argument-null before argument; the not-found, validation, bad-request and argument arms carry the stack trace as details in development |
| ExceptionHandling.TryHandle | API/Middleware/GlobalExceptionHandler.cs:27-42 | always handled; the written status is the envelope's |
| ExceptionHandling.ProductGuardFailuresAre400 | API/Middleware/GlobalExceptionHandler.cs:85-110 | every product-guard rejection reaches the client as 400 with the guard's message, or "Required parameter is missing: request" |
| ExceptionHandling.BlankColourNameIs400 | API/Middleware/GlobalExceptionHandler.cs:112-118 | the blank colour name error reaches the client as 400 with message "Colour name is required." followed by " (Parameter 'ColourName')" |
| ExceptionHandling.BlankProductTypeNameIs400 | API/Middleware/GlobalExceptionHandler.cs:112-118 | the blank type name error reaches the client as 400 with the parameter suffix |
| ExceptionHandling.NotImplementedIs500 | API/Middleware/GlobalExceptionHandler.cs:121-127 | a not-implemented error falls to the generic 500 arm with the generic message in every environment; its message and trace appear as details in development and nothing appears outside it |
| ApiKeyGate.Authenticate | API/Middleware/ApiKeyAuthenticationMiddleware.cs:26-89 | exempt path: next; no header: 401; header but no key configured: 500; mismatch: 401; next iff exempt or the header equals the configured non-empty key |
| ApiKeyGate.SwaggerTreeIsExempt | API/Middleware/ApiKeyAuthenticationMiddleware.cs:29 | the Swagger segment and everything below it are exempt in any letter case |
| ApiKeyGate.SegmentBoundaryMatters | API/Middleware/ApiKeyAuthenticationMiddleware.cs:29-31 | "/swaggerish" and "/api/product" are checked; "/SWAGGER/v1/swagger.json" is exempt |
| ApiKeyGate.OnlyTheKeyOpensTheGate | API/Middleware/ApiKeyAuthenticationMiddleware.cs:38-88 | off the exempt paths only the exact non-empty configured key passes, and a missing header is 401 even with no key configured |
| ProductMaster.ProductModel.constructor | Product-master/Domain/EntityModel/ProductModel.cs:30 | a new entity has key 0 and `CreatedDate` from the clock |
| ProductMaster.DefaultCreatedBy | Product-master/Infrastructure/Data/ProductRepository.cs:22-25 | a blank creator becomes "system", a non-blank one is kept, and the result is never blank |
| ProductMaster.DefaultUpdatedBy | Product-master/Infrastructure/Data/ProductRepository.cs:28-31 | a blank updater becomes the defaulted creator, a non-blank one is kept, and the result is never blank |
| ProductMaster.DefaultCreatedDate | Product-master/Infrastructure/Data/ProductRepository.cs:34-37 | an unset creation date becomes the clock reading; a set one is kept |
| ProductMaster.DefaultsIdempotent | Product-master/Infrastructure/Data/ProductRepository.cs:22-37 | applying the defaults twice changes nothing once the clock reading is a set date |
| ProductMaster.ProductModel.ApplyAuditDefaults | Product-master/Infrastructure/Data/ProductRepository.cs:22-37 | the three audit columns become their defaults in place; every other field of the entity is outside its frame |
| ProductMaster.MasterDatabase.Save | Product-master/Infrastructure/Data/ProductRepository.cs:39-40 | the tracked object receives the next key, distinct from every stored key, and is appended; keys stay increasing |
| ProductMaster.MasterDatabase.constructor | Product-master/Infrastructure/Data/ApplicationDbContext.cs:14 | a fresh, empty product set |
| ProductMaster.ProductRepository.AddProduct | Product-master/Infrastructure/Data/ProductRepository.cs:19-44 | defaults the caller's object in place, leaves its other fields alone, stores that same object and returns its fresh key |
| ProductMaster.ProductRepository.GetAllProducts | Product-master/Infrastructure/Data/ProductRepository.cs:51-54 | all stored objects unchanged |
| ProductMaster.ProductRepository.DeleteProduct | Product-master/Infrastructure/Data/ProductRepository.cs:46-49 | always the not-implemented error |
| ProductMaster.ProductRepository.GetProductById | Product-master/Infrastructure/Data/ProductRepository.cs:56-59 | always the not-implemented error |
| ProductMaster.ProductRepository.UpdateProduct | Product-master/Infrastructure/Data/ProductRepository.cs:61-64 | always the not-implemented error |
| Scenario.Seed | Business/Handlers/ColourHandler.cs:33-51 | on a fresh store the first colour and the first product type both get key 1 |
| Scenario.CreateThenRead | API/Controllers/ProductController.cs:36-115 | creating "Basic Tee" in colour 1 and type 1 returns key 1, and `GetById("1")` answers 200 with type "Shirt" and colours ["Red"] |

## Left out

- **Entity Framework and SQLite mechanics.** Change tracking, the migrations and the SQL itself are replaced by the in-memory `Database`. Only the AUTOINCREMENT keys and the foreign keys are kept, as `Valid` and `Intact`. Database-side constraint enforcement is not modelled, so no modelled operation raises `DbUpdateException`. The classifier still handles that exception as an input.
- **Concurrency.** Async calls and the race between the existence checks and the insert are not modelled; the model runs requests one at a time.
- **Integer widths of keys.** Keys are unbounded integers. The link from created keys to the 32-bit route id is stated only for keys up to `int.MaxValue`.
- **Clock.** `DateTime.Now` and `DateTime.UtcNow` are one `now` parameter per call. Local and UTC time are not told apart.
- **HTTP plumbing and output.** This covers:
  - `Url.Action` and `CreatedAtAction` links;
  - JSON writing and content types;
  - trace ids and timestamps;
  - logging (`LogException` and the middleware's log lines);
  - model-state wiring, Swagger and the thin colour and product-type controllers.
- **Argument validation stage.** The request rules are stated as predicates. The framework step that applies them before a handler runs is not modelled; the handlers are modelled for any input.
- **Case folding.** Case-insensitive comparison folds ASCII letters only.
- **Header values.** A multi-valued `StringValues` header is one string.
- **Stack traces.** These are an input, `stackTrace`.
- Data.ColourRepository.AddColour: requires the entity's key to be 0, as every caller passes it; storing an explicit key is not modelled.
- Data.ProductTypeRepository.AddProductType: requires the entity's key to be 0, for the same reason.
- Data.ProductRepository.AddProduct: requires the entity's key to be 0, for the same reason.
- Handlers.ProductHandler.AddProduct: a request whose `Name` is null passes the handler's guards. The model then stores the row and returns `Ok`. In the application the database refuses it, because `Products.Name` is NOT NULL. The save fails with SQLite code 19, and the client gets 400 "Required field is missing. Please provide all required information.". `ProductApi.ProductController.Create` inherits the same gap.
- Data.ProductRepository.GetProductById: returns associations in table order; the store itself does not promise an order.
- Text.TryParseInt32: does not accept surrounding whitespace, culture-specific signs or separators, which `int.TryParse` may accept.
- ProductMaster.ProductRepository.AddProduct: requires that the object is not already stored and that its key is 0; re-adding a tracked entity is not modelled. `Price` is a `real`, and decimal rounding is not modelled.
- **The rest of the Product-master tree.** It is an AutoMapper-based handler, interfaces and dependency injection wiring. It is not part of this model.
- **The stale controller.** `API/Controllers/ProuductController.cs` duplicates the product controller's class and is not part of this model.
