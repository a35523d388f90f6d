/**
 Properties of the catalog operations: the invariants each operation keeps,
 the way one operation's result is seen by the next, and what the missing
 collision check on new ids allows.
 */
module CatalogProperties {
  import opened Catalog

  // ---------------------------------------------------------------------------
  // Lookup
  // ---------------------------------------------------------------------------

  /** There is only one first match. */
  lemma FirstIsUnique<T>(s: seq<T>, p: T -> bool, i: int, j: int)
    requires IsFirst(s, p, i) && IsFirst(s, p, j)
    ensures i == j
  {
  }

  /** While ids are unique, every stored product is what a lookup of its id returns. */
  lemma LookupOwnId(ps: seq<Product>, k: int)
    requires IdsUnique(ps)
    requires 0 <= k < |ps|
    ensures Lookup(ps, ps[k].id) == Ok(ps[k])
  {
  }

  // ---------------------------------------------------------------------------
  // Remove (the splice of the delete handler)
  // ---------------------------------------------------------------------------

  /** Taking out one element keeps all the others: a permutation minus one. */
  lemma {:induction false} RemovedAtMultiset<T>(s: seq<T>, i: int, rest: seq<T>)
    requires RemovedAt(s, i, rest)
    ensures multiset(rest) + multiset{s[i]} == multiset(s)
  {
    assert rest == s[..i] + s[i + 1..];
    assert s == s[..i] + [s[i]] + s[i + 1..];
  }

  /** Deleting keeps names unique, ids unique and every record well formed. */
  lemma RemovePreservesInvariants(ps: seq<Product>, id: int)
    requires Remove(ps, id).Ok?
    ensures NamesUnique(ps) ==> NamesUnique(Remove(ps, id).value)
    ensures IdsUnique(ps) ==> IdsUnique(Remove(ps, id).value)
    ensures AllWellFormed(ps) ==> AllWellFormed(Remove(ps, id).value)
  {
  }

  /** A successful delete takes out exactly the first product with the id:
      one element fewer, the others kept in order, the same multiset less it. */
  lemma RemoveTakesOutFirstMatch(ps: seq<Product>, id: int)
    requires Remove(ps, id).Ok?
    ensures |Remove(ps, id).value| == |ps| - 1
    ensures Lookup(ps, id).Ok?
    ensures multiset(Remove(ps, id).value) + multiset{Lookup(ps, id).value} == multiset(ps)
  {
    var rest := Remove(ps, id).value;
    var i :| IsFirst(ps, HasId(id), i) && RemovedAt(ps, i, rest);
    var j :| IsFirst(ps, HasId(id), j) && Lookup(ps, id).value == ps[j];
    FirstIsUnique(ps, HasId(id), i, j);
    RemovedAtMultiset(ps, i, rest);
  }

  /** While ids are unique, after a successful delete the id is gone: a lookup
      and a second delete of it both report NotFound. */
  lemma RemoveThenNotFound(ps: seq<Product>, id: int)
    requires IdsUnique(ps)
    requires Remove(ps, id).Ok?
    ensures Lookup(Remove(ps, id).value, id) == Err(NotFound)
    ensures Remove(Remove(ps, id).value, id) == Err(NotFound)
  {
  }

  /** Without unique ids a successful delete can leave the id behind: when
      two products share an id, only the first is removed, the later one stays
      and a lookup of the id still succeeds. */
  lemma RemoveLeavesDuplicateId(ps: seq<Product>, id: int, i: int, j: int)
    requires 0 <= i < j < |ps| && ps[i].id == id && ps[j].id == id
    ensures Remove(ps, id).Ok?
    ensures ps[j] in Remove(ps, id).value
    ensures Lookup(Remove(ps, id).value, id).Ok?
  {
  }

  // ---------------------------------------------------------------------------
  // Create (validation, duplicate check, append)
  // ---------------------------------------------------------------------------

  /** Appending the record a successful create returns keeps names unique and
      every record well formed. */
  lemma CreatePreservesInvariants(ps: seq<Product>, name: Option<string>, price: Option<real>, id: int)
    requires Create(ps, name, price, id).Ok?
    ensures NamesUnique(ps) ==> NamesUnique(ps + [Create(ps, name, price, id).value])
    ensures AllWellFormed(ps) ==> AllWellFormed(ps + [Create(ps, name, price, id).value])
  {
  }

  /** Appending keeps ids unique exactly when the drawn id is not already used. */
  lemma CreateIdsUnique(ps: seq<Product>, name: Option<string>, price: Option<real>, id: int)
    requires IdsUnique(ps)
    requires Create(ps, name, price, id).Ok?
    ensures IdsUnique(ps + [Create(ps, name, price, id).value]) <==>
            forall j :: 0 <= j < |ps| ==> ps[j].id != id
  {
    var q := ps + [Create(ps, name, price, id).value];
    assert forall k :: 0 <= k < |ps| ==> q[k] == ps[k];
    if exists j :: 0 <= j < |ps| && ps[j].id == id {
      var j :| 0 <= j < |ps| && ps[j].id == id;
      assert q[j].id == q[|ps|].id;
    }
  }

  /** With a fresh id, a lookup right after a create returns the new record. */
  lemma CreateThenLookup(ps: seq<Product>, name: Option<string>, price: Option<real>, id: int)
    requires Create(ps, name, price, id).Ok?
    requires forall j :: 0 <= j < |ps| ==> ps[j].id != id
    ensures Lookup(ps + [Create(ps, name, price, id).value], id) ==
            Ok(Product(id, name.value, price.value))
  {
    var p := Create(ps, name, price, id).value;
    var q := ps + [p];
    var r := Lookup(q, id);
    assert q[|ps|].id == id;
    var i :| IsFirst(q, HasId(id), i) && r.value == q[i];
  }

  /** When the drawn id collides, a lookup of it still returns the older product,
      never the new record. */
  lemma CreateThenLookupShadowed(ps: seq<Product>, name: Option<string>, price: Option<real>, id: int)
    requires Create(ps, name, price, id).Ok?
    requires exists j :: 0 <= j < |ps| && ps[j].id == id
    ensures Lookup(ps + [Create(ps, name, price, id).value], id) == Lookup(ps, id)
    ensures Lookup(ps, id) != Ok(Create(ps, name, price, id).value)
  {
    var p := Create(ps, name, price, id).value;
    var q := ps + [p];
    assert Lookup(ps, id).Ok?;
    var i :| IsFirst(ps, HasId(id), i) && Lookup(ps, id).value == ps[i];
    assert IsFirst(q, HasId(id), i) by {
      assert forall k :: 0 <= k < |ps| ==> q[k] == ps[k];
    }
    var i' :| IsFirst(q, HasId(id), i') && Lookup(q, id).value == q[i'];
    FirstIsUnique(q, HasId(id), i, i');
    assert ps[i].name != name.value;
  }

  /** Creating the same name twice: the second call reports DuplicateName,
      whatever its price and id. */
  lemma CreateTwiceRejected(ps: seq<Product>, name: Option<string>, price: Option<real>, id: int,
                            price': Option<real>, id': int)
    requires Create(ps, name, price, id).Ok?
    requires PriceTruthy(price')
    ensures Create(ps + [Create(ps, name, price, id).value], name, price', id') == Err(DuplicateName)
  {
    var q := ps + [Create(ps, name, price, id).value];
    assert q[|ps|].name == name.value;
  }

  // ---------------------------------------------------------------------------
  // Id draw
  // ---------------------------------------------------------------------------

  /** Every id in [0, IdBound) is drawn by some random number, so any id an
      existing product holds in that range can be drawn again. */
  lemma DrawIdReaches(id: int)
    requires 0 <= id < IdBound
    ensures 0.0 <= id as real / IdBound as real < 1.0
    ensures DrawId(id as real / IdBound as real) == id
  {
  }

  /** The creation that follows a collision: with the random number that draws
      an existing product's id, a valid create breaks id uniqueness. */
  lemma CollisionBreaksIdsUnique(ps: seq<Product>, k: int, name: Option<string>, price: Option<real>)
    requires IdsUnique(ps)
    requires 0 <= k < |ps| && 0 <= ps[k].id < IdBound
    requires Create(ps, name, price, ps[k].id).Ok?
    ensures var rand := ps[k].id as real / IdBound as real;
            0.0 <= rand < 1.0 &&
            !IdsUnique(ps + [Create(ps, name, price, DrawId(rand)).value])
  {
    DrawIdReaches(ps[k].id);
    CreateIdsUnique(ps, name, price, ps[k].id);
  }

  // ---------------------------------------------------------------------------
  // The seeded collection
  // ---------------------------------------------------------------------------

  /** A lookup of id 999 in the seed data reports NotFound. */
  lemma SeedLookupMissing()
    ensures Lookup(Seed(), 999) == Err(NotFound)
  {
  }

  /** Creating "Laptop" over the seed data reports DuplicateName. */
  lemma SeedCreateDuplicate(id: int)
    ensures Create(Seed(), Some("Laptop"), Some(1.0), id) == Err(DuplicateName)
  {
  }

  /** Creating "Mouse" over the seed data succeeds with the drawn id. */
  lemma SeedCreateFresh(id: int)
    ensures Create(Seed(), Some("Mouse"), Some(19.99), id) == Ok(Product(id, "Mouse", 19.99))
  {
  }

  /** Deleting id 1 from the seed data succeeds, after which id 1 is not found. */
  lemma SeedDeleteThenLookup()
    ensures Remove(Seed(), 1).Ok?
    ensures Lookup(Remove(Seed(), 1).value, 1) == Err(NotFound)
  {
  }
}
