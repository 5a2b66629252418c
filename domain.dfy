/**
 * The domain store the storefront talks to through its CMS client: users,
 * products and orders, each keyed by a string identifier. Only what the
 * checkout and webhook code reads or writes is kept.
 */
module Domain {

  type Id = string

  datatype Option<+T> = None | Some(value: T)

  datatype Result<+T, +E> = Ok(value: T) | Err(error: E)

  /** A user document; `role` is the raw string the access rules compare against. */
  datatype User = User(email: string, role: string)

  /** A product document; `priceId` is the price-list reference, absent or empty when unpriced. */
  datatype Product = Product(id: Id, priceId: Option<string>)

  /** An order document: its owner, the products it references, and the `_isPaid` flag. */
  datatype Order = Order(user: Id, products: seq<Id>, isPaid: bool)

  /**
   * The store's state. `products` is a sequence because a `find` over it returns
   * documents in a fixed order, and the checkout code keeps that order.
   */
  class Database {
    var users: map<Id, User>
    var products: seq<Product>
    var orders: map<Id, Order>

    constructor (users: map<Id, User>, products: seq<Product>, orders: map<Id, Order>)
      ensures this.users == users && this.products == products && this.orders == orders
    {
      this.users := users;
      this.products := products;
      this.orders := orders;
    }
  }

  /**
   * The store's `find` with the filter `id in ids`: the products whose id is
   * listed, in store order.
   */
  function FindByIds(products: seq<Product>, ids: seq<Id>): (found: seq<Product>)
    ensures |found| <= |products|
    ensures multiset(found) <= multiset(products)
    ensures forall p :: p in found <==> p in products && p.id in ids
  {
    if products == [] then []
    else
      assert products == [products[0]] + products[1..];
      if products[0].id in ids then [products[0]] + FindByIds(products[1..], ids)
      else FindByIds(products[1..], ids)
  }

  /** The query depends only on which ids are listed, not on their order or repetition. */
  lemma {:induction false} FindByIdsSameIds(products: seq<Product>, ids: seq<Id>, ids': seq<Id>)
    requires forall id :: id in ids <==> id in ids'
    ensures FindByIds(products, ids) == FindByIds(products, ids')
  {
    if products != [] {
      FindByIdsSameIds(products[1..], ids, ids');
    }
  }

  /**
   * The query keeps store order: querying a concatenation of stores
   * concatenates the answers, so each stored product comes back at most once
   * and in its place.
   */
  lemma {:induction false} FindByIdsAppend(a: seq<Product>, b: seq<Product>, ids: seq<Id>)
    ensures FindByIds(a + b, ids) == FindByIds(a, ids) + FindByIds(b, ids)
  {
    if a == [] {
      assert a + b == b;
    } else {
      assert (a + b)[1..] == a[1..] + b;
      FindByIdsAppend(a[1..], b, ids);
    }
  }
}
