/**
 The product catalog of the service: the Product record, the outcomes of the
 four repository operations, and each operation as a function over the
 ordered collection of products.  The class in Store keeps the collection and
 calls these functions; the lemmas in CatalogProperties relate them.
 */
module Catalog {

  /** A request field that may be missing (absent or null in the JSON body). */
  datatype Option<T> = None | Some(value: T)

  /** The three failures a handler reports instead of a product. */
  datatype Error = NotFound | InvalidInput | DuplicateName

  datatype Result<T> = Ok(value: T) | Err(error: Error)

  /** A catalog entry; the price is the exact decimal the client sent. */
  datatype Product = Product(id: int, name: string, price: real)

  /** New ids are drawn from [0, IdBound). */
  const IdBound: int := 1000000

  // ---------------------------------------------------------------------------
  // Seed data
  // ---------------------------------------------------------------------------

  /** The four products present when the process starts, in insertion order. */
  function Seed(): (s: seq<Product>)
    ensures |s| == 4
    ensures forall k :: 0 <= k < |s| ==> s[k].id == k + 1
    ensures NamesUnique(s) && IdsUnique(s) && AllWellFormed(s)
  {
    [ Product(1, "Laptop", 999.99),
      Product(2, "Smartphone", 499.99),
      Product(3, "Headphones", 79.99),
      Product(4, "Keyboard", 49.99) ]
  }

  // ---------------------------------------------------------------------------
  // Invariants of the collection
  // ---------------------------------------------------------------------------

  /** No two products share a name (exact, case-sensitive comparison). */
  ghost predicate NamesUnique(ps: seq<Product>)
  {
    forall i, j :: 0 <= i < j < |ps| ==> ps[i].name != ps[j].name
  }

  /** No two products share an id. */
  ghost predicate IdsUnique(ps: seq<Product>)
  {
    forall i, j :: 0 <= i < j < |ps| ==> ps[i].id != ps[j].id
  }

  /** A stored product has passed the creation check: truthy name and price. */
  predicate WellFormed(p: Product)
  {
    p.name != "" && p.price != 0.0
  }

  ghost predicate AllWellFormed(ps: seq<Product>)
  {
    forall k :: 0 <= k < |ps| ==> WellFormed(ps[k])
  }

  // ---------------------------------------------------------------------------
  // JavaScript truthiness of the request fields
  // ---------------------------------------------------------------------------

  /** `name` is truthy: present and not the empty string. */
  predicate NameTruthy(name: Option<string>)
  {
    name.Some? && name.value != ""
  }

  /** `price` is truthy: present and not zero. */
  predicate PriceTruthy(price: Option<real>)
  {
    price.Some? && price.value != 0.0
  }

  // ---------------------------------------------------------------------------
  // Array.prototype.findIndex and Array.prototype.find
  // ---------------------------------------------------------------------------

  /** i is the first index of s whose element satisfies p. */
  ghost predicate IsFirst<T>(s: seq<T>, p: T -> bool, i: int)
  {
    0 <= i < |s| && p(s[i]) && forall j :: 0 <= j < i ==> !p(s[j])
  }

  /** The index of the first element satisfying p, or -1 when there is none. */
  function FindIndex<T>(s: seq<T>, p: T -> bool): (r: int)
    ensures -1 <= r < |s|
    ensures r == -1 <==> forall j :: 0 <= j < |s| ==> !p(s[j])
    ensures r != -1 ==> IsFirst(s, p, r)
  {
    if |s| == 0 then -1
    else if p(s[0]) then 0
    else
      var k := FindIndex(s[1..], p);
      if k == -1 then -1 else k + 1
  }

  /** The first element satisfying p, if any. */
  function Find<T>(s: seq<T>, p: T -> bool): (r: Option<T>)
    ensures r.None? <==> forall j :: 0 <= j < |s| ==> !p(s[j])
    ensures r.Some? ==> exists i :: IsFirst(s, p, i) && r.value == s[i]
  {
    var i := FindIndex(s, p);
    if i == -1 then None else Some(s[i])
  }

  /** The predicate `p => p.id === id` of the lookup and delete handlers. */
  function HasId(id: int): Product -> bool
  {
    (p: Product) => p.id == id
  }

  /** The predicate `p => p.name === name` of the create handler. */
  function HasName(name: string): Product -> bool
  {
    (p: Product) => p.name == name
  }

  // ---------------------------------------------------------------------------
  // The id draw: Math.floor(Math.random() * 1000000)
  // ---------------------------------------------------------------------------

  /** The id obtained from a random number rand in [0, 1). */
  function DrawId(rand: real): (id: int)
    requires 0.0 <= rand < 1.0
    ensures 0 <= id < IdBound
    ensures id as real <= rand * IdBound as real < id as real + 1.0
  {
    (rand * IdBound as real).Floor
  }

  // ---------------------------------------------------------------------------
  // The repository operations
  // ---------------------------------------------------------------------------

  /** GET /api/products/:id: the first product with that id, or NotFound. */
  function Lookup(ps: seq<Product>, id: int): (r: Result<Product>)
    ensures r.Ok? <==> exists j :: 0 <= j < |ps| && ps[j].id == id
    ensures r.Ok? ==> exists i :: IsFirst(ps, HasId(id), i) && r.value == ps[i]
    ensures r.Ok? ==> r.value in ps && r.value.id == id
    ensures r.Err? ==> r.error == NotFound
  {
    match Find(ps, HasId(id))
    case Some(p) => Ok(p)
    case None => Err(NotFound)
  }

  /** rest is s with the element at index i taken out, the others in order. */
  ghost predicate RemovedAt<T>(s: seq<T>, i: int, rest: seq<T>)
  {
    && 0 <= i < |s|
    && |rest| == |s| - 1
    && (forall k :: 0 <= k < i ==> rest[k] == s[k])
    && (forall k :: i <= k < |rest| ==> rest[k] == s[k + 1])
  }

  /** DELETE /api/products/:id: the collection without the first product that
      has that id (the splice), or NotFound when no product has it. */
  function Remove(ps: seq<Product>, id: int): (r: Result<seq<Product>>)
    ensures r.Err? <==> forall j :: 0 <= j < |ps| ==> ps[j].id != id
    ensures r.Err? ==> r.error == NotFound
    ensures r.Ok? ==> exists i :: IsFirst(ps, HasId(id), i) && RemovedAt(ps, i, r.value)
  {
    var i := FindIndex(ps, HasId(id));
    if i == -1 then Err(NotFound)
    else
      var rest := ps[..i] + ps[i + 1..];
      assert RemovedAt(ps, i, rest);
      Ok(rest)
  }

  /** POST /api/products with an already drawn id: InvalidInput when name or
      price is falsy, else DuplicateName when the name is taken, else the new
      record (which the caller appends). */
  function Create(ps: seq<Product>, name: Option<string>, price: Option<real>, id: int)
    : (r: Result<Product>)
    ensures r == Err(InvalidInput) <==> !NameTruthy(name) || !PriceTruthy(price)
    ensures r == Err(DuplicateName) <==>
      NameTruthy(name) && PriceTruthy(price) &&
      exists j :: 0 <= j < |ps| && ps[j].name == name.value
    ensures r.Ok? <==>
      NameTruthy(name) && PriceTruthy(price) &&
      forall j :: 0 <= j < |ps| ==> ps[j].name != name.value
    ensures r.Ok? ==> r.value == Product(id, name.value, price.value) && WellFormed(r.value)
  {
    if !NameTruthy(name) || !PriceTruthy(price) then Err(InvalidInput)
    else if Find(ps, HasName(name.value)).Some? then Err(DuplicateName)
    else Ok(Product(id, name.value, price.value))
  }
}
