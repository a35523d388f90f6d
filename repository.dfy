/**
 The process-wide product collection and the four request handlers that read
 and change it.  Failed requests leave the collection as it was.
 */
module Store {
  import opened Catalog
  import CatalogProperties

  class Repository {
    /** The products in insertion order. */
    var products: seq<Product>

    /** Names are unique and every record has a truthy name and price. */
    ghost predicate Valid()
      reads this
    {
      NamesUnique(products) && AllWellFormed(products)
    }

    /** The collection at process start holds the four seed products. */
    constructor ()
      ensures Valid() && IdsUnique(products)
      ensures products == Seed()
    {
      products := Seed();
    }

    /** GET /api/products: the whole collection, in insertion order. */
    method List() returns (all: seq<Product>)
      ensures all == products
    {
      all := products;
    }

    /** GET /api/products/:id */
    method GetById(id: int) returns (r: Result<Product>)
      ensures r == Lookup(products, id)
    {
      r := Lookup(products, id);
    }

    /** DELETE /api/products/:id: splices out the first product with the id. */
    method DeleteById(id: int) returns (r: Result<()>)
      requires Valid()
      modifies this
      ensures Valid()
      ensures Remove(old(products), id).Ok? ==>
                r == Ok(()) && products == Remove(old(products), id).value
      ensures Remove(old(products), id).Err? ==>
                r == Err(NotFound) && products == old(products)
      ensures IdsUnique(old(products)) ==> IdsUnique(products)
    {
      var index := FindIndex(products, HasId(id));
      if index != -1 {
        CatalogProperties.RemovePreservesInvariants(products, id);
        products := products[..index] + products[index + 1..];
        r := Ok(());
      } else {
        r := Err(NotFound);
      }
    }

    /** POST /api/products, where rand is the value Math.random() returned. */
    method Create(name: Option<string>, price: Option<real>, rand: real) returns (r: Result<Product>)
      requires Valid()
      requires 0.0 <= rand < 1.0
      modifies this
      ensures Valid()
      ensures r == Catalog.Create(old(products), name, price, DrawId(rand))
      ensures r.Ok? ==> products == old(products) + [r.value]
      ensures r.Err? ==> products == old(products)
    {
      if !NameTruthy(name) || !PriceTruthy(price) {
        return Err(InvalidInput);
      }
      var existing := Find(products, HasName(name.value));
      if existing.Some? {
        return Err(DuplicateName);
      }
      var product := Product(DrawId(rand), name.value, price.value);
      CatalogProperties.CreatePreservesInvariants(products, name, price, product.id);
      products := products + [product];
      r := Ok(product);
    }
  }
}
