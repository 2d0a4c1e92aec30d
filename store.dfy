// The Mongo collections the routes read and write, held in memory. A
// collection is a sequence of documents in insertion order (find_one returns
// the first match); carts are keyed by user id, as find_one({"user_id": ...}) reads them.
module Store {
  import opened Models

  class Database {
    var users: seq<User>
    var products: seq<Product>
    var carts: map<string, seq<CartItem>>
    var addresses: seq<Address>
    var orders: seq<Order>

    constructor ()
      ensures users == [] && products == [] && carts == map[] && addresses == [] && orders == []
    {
      users, products, carts, addresses, orders := [], [], map[], [], [];
    }
  }

  /** The cart of a user, or no items when the user has no cart document. */
  function CartOf(carts: map<string, seq<CartItem>>, userId: string): seq<CartItem> {
    if userId in carts then carts[userId] else []
  }

  /** No two users share an id (ids are fresh uuid4 values). */
  predicate UserIdsUnique(users: seq<User>) {
    forall i, j :: 0 <= i < j < |users| ==> users[i].id != users[j].id
  }

  /** No two users share a phone number. */
  predicate PhonesUnique(users: seq<User>) {
    forall i, j :: 0 <= i < j < |users| ==> users[i].info.phone != users[j].info.phone
  }

  predicate ProductIdsUnique(products: seq<Product>) {
    forall i, j :: 0 <= i < j < |products| ==> products[i].id != products[j].id
  }

  predicate OrderIdsUnique(orders: seq<Order>) {
    forall i, j :: 0 <= i < j < |orders| ==> orders[i].id != orders[j].id
  }
}
