# Product repository of the `tienda` catalog service

This project models the in-memory product repository behind the service's
four HTTP handlers. The repository is one module-level array of products,
`{id, name, price}`. At start-up it holds four seed products with ids 1 to 4.

- **list** returns the array.
- **get-by-id** returns the first product with the requested id, or
  NotFound.
- **delete-by-id** splices out the first product with that id, or reports
  NotFound.
- **create** does three things in order:
  - it rejects a falsy name or a falsy price with InvalidInput;
  - it rejects a name that some product already has with DuplicateName;
  - otherwise it draws an id with `Math.floor(Math.random() * 1000000)` and
    appends the new record.

Layout:

- `catalog.dfy` (module `Catalog`) defines the data model. It also defines
  each operation as a function over the ordered sequence of products:
  - `Lookup`, `Remove` and `Create`;
  - `Find` and `FindIndex`, which model the array searches;
  - `DrawId`, which models the id draw.
- `repository.dfy` (module `Store`) holds the class `Repository`. Its
  `products` field is the array. The constructor seeds it, and its methods
  are the handlers. Delete and create change the field in place and keep the
  invariant `Valid()`: names are unique, and every stored record has a
  truthy name and price.
- `properties.dfy` (module `CatalogProperties`) holds the lemmas. They cover
  the invariants each operation keeps and what a later lookup or delete sees.
  They also cover what the missing id-collision check allows.

Two behaviours of index.js shape the model:
- The id draw (index.js:67) never checks for a collision with an existing
  id. So `IdsUnique` is not part of `Repository.Valid`.
  - `CreateIdsUnique` proves that ids stay unique after a create exactly
    when the drawn id is fresh.
  - `DrawIdReaches` proves that every id in range can be drawn.
  - `CollisionBreaksIdsUnique` and `CreateThenLookupShadowed` show what a
    collision leads to.
- Delete (index.js:43-46) removes only the first product with the id.
  `RemoveLeavesDuplicateId` shows that a later product with the same id
  survives the delete.

## Model

| member | source | states |
|---|---|---|
| `Catalog.Seed` | index.js:16-21 | the start-up collection has four products with ids 1..4 in order; names and ids are unique and every record has a non-empty name and non-zero price |
| `Catalog.FindIndex` | index.js:43 | result is -1 exactly when no element satisfies the predicate; otherwise it is the first index whose element satisfies it |
| `Catalog.Find` | index.js:31 | result is absent exactly when no element satisfies the predicate; otherwise it is the element at the first satisfying index |
| `Catalog.DrawId` | index.js:67 | for a random number in [0, 1) the id is an integer in [0, 1000000), the floor of the number times 1000000 |
| `Catalog.Lookup` | index.js:29-38 | Ok exactly when some product has the id, and then it is the first such product; otherwise NotFound |
| `Catalog.Remove` | index.js:41-51 | NotFound exactly when no product has the id; otherwise the result is the collection with exactly the first matching element taken out and the others in their original order |
| `Catalog.Create` | index.js:54-74 | InvalidInput exactly when name or price is falsy, checked before the duplicate test; DuplicateName exactly when both are truthy and the name equals an existing name, whatever the price; otherwise Ok with the record {id, name, price} |
| `Store.Repository.constructor` | index.js:16-21 | the repository starts with the seed products, satisfying its invariant and with unique ids |
| `Store.Repository.List` | index.js:24-26 | returns the whole collection in insertion order |
| `Store.Repository.GetById` | index.js:29-38 | returns the lookup result and changes nothing |
| `Store.Repository.DeleteById` | index.js:41-51 | with a match it splices out that element, leaving the `Remove` result; with none it reports NotFound and leaves the collection unchanged; keeps names unique and, if they were, ids unique |
| `Store.Repository.Create` | index.js:54-74 | returns the `Create` outcome for the drawn id; on success the new collection is the old one plus that record at the end, on failure it is unchanged; names stay unique |
| `CatalogProperties.LookupOwnId` | index.js:29-34 | while ids are unique, looking up a stored product's id returns that product |
| `CatalogProperties.RemovedAtMultiset` | index.js:46 | taking one element out by splice leaves the same multiset minus that element |
| `CatalogProperties.RemovePreservesInvariants` | index.js:43-47 | a successful delete keeps names unique, ids unique and every record well formed |
| `CatalogProperties.RemoveTakesOutFirstMatch` | index.js:43-47 | a successful delete shortens the collection by one; what it removes is exactly the product a lookup of the id returns |
| `CatalogProperties.RemoveThenNotFound` | index.js:29-50 | while ids are unique, after a successful delete both a lookup and a second delete of the id report NotFound |
| `CatalogProperties.RemoveLeavesDuplicateId` | index.js:43-46 | for any collection in which two products share an id, deleting that id succeeds, the later of the two stays in the collection, and a lookup of the id still succeeds |
| `CatalogProperties.CreatePreservesInvariants` | index.js:61-72 | appending a successfully created record keeps names unique and every record well formed |
| `CatalogProperties.CreateIdsUnique` | index.js:66-72 | after a successful create, ids are unique exactly when the drawn id was not already in use |
| `CatalogProperties.CreateThenLookup` | index.js:66-73 | with a fresh drawn id, looking up that id right after the create returns the new record with the given name and price |
| `CatalogProperties.CreateThenLookupShadowed` | index.js:67-72 | when the drawn id collides, a lookup of it keeps returning the older product and never the new record |
| `CatalogProperties.CreateTwiceRejected` | index.js:61-64 | a second create with the same name reports DuplicateName, whatever truthy price and id it has (a falsy price reports InvalidInput first) |
| `CatalogProperties.DrawIdReaches` | index.js:67 | every integer in [0, 1000000) is the id of some random number in [0, 1) |
| `CatalogProperties.CollisionBreaksIdsUnique` | index.js:67-72 | some random number draws an existing product's id, and then a valid create leaves two products with the same id |
| `CatalogProperties.SeedLookupMissing` | index.js:29-37 | looking up id 999 in the seed data reports NotFound |
| `CatalogProperties.SeedCreateDuplicate` | index.js:61-64 | creating "Laptop" over the seed data reports DuplicateName |
| `CatalogProperties.SeedCreateFresh` | index.js:66-73 | creating "Mouse" at 19.99 over the seed data succeeds with the drawn id |
| `CatalogProperties.SeedDeleteThenLookup` | index.js:41-47 | deleting id 1 from the seed data succeeds, and afterwards id 1 is not found |

## Left out

- Express application setup, routing, JSON body parsing and `app.listen`
  (index.js:1-7, 77-79): HTTP plumbing over a library that is not part of
  this model. The mapping from outcomes to status codes 200, 201, 204, 400 and
  404 and to the error messages is presentation only. `Error` carries the
  three outcomes.
- Morgan request logging and its `body` token (index.js:2, 10-13): logging
  only.
- `Math.random()` (index.js:67): randomness is not modelled. The value it
  returns is the `rand` parameter of `Store.Repository.Create`, constrained
  to [0, 1).
- `Number(req.params.id)` (index.js:30, 42): ids are `int`. Non-numeric path
  segments give `NaN` in the service, which matches no product. That case is
  the same as any id absent from the collection.
- Request field types: `name` is an optional string and `price` an optional
  number. An absent or null field is `None`. The model does not cover
  non-string names, or prices that are strings, booleans or objects, which
  the service would accept whenever they are truthy.
- `Catalog.DrawId`: computes `Math.floor(rand * 1000000)` in exact real
  arithmetic. The service multiplies IEEE-754 doubles, and their rounding is
  not modelled.
- Prices are exact decimals (`real`). Floating-point representation and the
  value `NaN` (falsy in the service) are not modelled.
- `Store.Repository.List`: returns the collection as a value. In the service
  it returns the live array, which is serialised at once, so no aliasing is
  observable.
- Concurrency: requests run one at a time to completion, so the model needs
  no interleaving.
