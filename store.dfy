/**
 * The part of the storefront's database the routes write: the `users`, `orders`, `order_items` and
 * `products` tables, held in memory. Each write either succeeds whole or fails and changes nothing;
 * whether it fails, and the keys the database generates, are inputs.
 */
module Store {
  import opened Optional
  import opened Catalog

  datatype User = User(id: string, email: string, name: string, phone: string)

  /** The shipping snapshot stored with an order, copied from the customer profile. */
  datatype ShippingAddress = ShippingAddress(
    name: string, phone: string, address: string, city: string, postalCode: string)

  datatype Order = Order(
    id: string,
    userId: string,
    totalAmount: int,
    status: string,
    paymentMethod: string,
    midtransOrderId: string,
    shippingAddress: ShippingAddress)

  datatype OrderItem = OrderItem(orderId: string, productId: string, quantity: int, price: int)

  /** The `users` table is keyed by its unique `email` column: every row sits under its own email. */
  ghost predicate KeyedByEmail(users: map<string, User>)
  {
    forall e :: e in users ==> users[e].email == e
  }

  function UserIds(users: map<string, User>): set<string>
  {
    set e | e in users :: users[e].id
  }

  function OrderIds(orders: seq<Order>): set<string>
  {
    set i | 0 <= i < |orders| :: orders[i].id
  }

  /**
   * `upsert({email, name, phone}, {onConflict: 'email'})`: a row with that email is overwritten with
   * the new name and phone and keeps its id; otherwise a row is created with the id the database
   * generates (`newId`). No other row changes.
   */
  function UpsertByEmail(users: map<string, User>, email: string, name: string, phone: string, newId: string)
    : (r: map<string, User>)
    ensures r.Keys == users.Keys + {email}
    ensures r[email].email == email && r[email].name == name && r[email].phone == phone
    ensures email in users ==> r[email].id == users[email].id
    ensures email !in users ==> r[email].id == newId
    ensures forall e :: e in users && e != email ==> r[e] == users[e]
  {
    var id := if email in users then users[email].id else newId;
    users[email := User(id, email, name, phone)]
  }

  /** Upserting keeps the table keyed by email, and keeps every id that was there. */
  lemma {:induction false} UpsertPreservesKeying(users: map<string, User>, email: string, name: string, phone: string, newId: string)
    requires KeyedByEmail(users)
    ensures KeyedByEmail(UpsertByEmail(users, email, name, phone, newId))
    ensures UserIds(users) <= UserIds(UpsertByEmail(users, email, name, phone, newId))
  {
    var r := UpsertByEmail(users, email, name, phone, newId);
    forall id | id in UserIds(users) ensures id in UserIds(r) {
      var e :| e in users && users[e].id == id;
      assert r[e].id == id;
    }
  }

  /** In a table keyed by email, the users carrying a given email are that email's row and nothing else. */
  lemma {:induction false} UsersWithEmail(users: map<string, User>, email: string)
    requires KeyedByEmail(users)
    ensures (set e | e in users && users[e].email == email) == (if email in users then {email} else {})
  {
  }

  /** After an upsert exactly one user has the upserted email. */
  lemma {:induction false} UpsertLeavesOneUser(users: map<string, User>, email: string, name: string, phone: string, newId: string)
    requires KeyedByEmail(users)
    ensures var r := UpsertByEmail(users, email, name, phone, newId);
      |set e | e in r && r[e].email == email| == 1
  {
    var r := UpsertByEmail(users, email, name, phone, newId);
    UpsertPreservesKeying(users, email, name, phone, newId);
    UsersWithEmail(r, email);
  }

  /**
   * Two upserts with the same email: one row, the second call's name and phone (last write wins), and
   * the id given to that email by the first call.
   */
  lemma {:induction false} UpsertTwice(users: map<string, User>, email: string, n1: string, p1: string, id1: string,
                    n2: string, p2: string, id2: string)
    ensures UpsertByEmail(UpsertByEmail(users, email, n1, p1, id1), email, n2, p2, id2)
         == UpsertByEmail(users, email, n2, p2, id1)
  {
    var once := UpsertByEmail(users, email, n1, p1, id1);
    assert once[email].id == (if email in users then users[email].id else id1);
  }

  class Database {
    var users: map<string, User>
    var orders: seq<Order>
    var orderItems: seq<OrderItem>
    var products: seq<Product>

    /**
     * The tables' integrity: users are keyed by email, every order belongs to a stored user and every
     * order item to a stored order. Orders without items are allowed: nothing rolls an order back.
     */
    ghost predicate Valid()
      reads this
    {
      && KeyedByEmail(users)
      && (forall i :: 0 <= i < |orders| ==> orders[i].userId in UserIds(users))
      && (forall i :: 0 <= i < |orderItems| ==> orderItems[i].orderId in OrderIds(orders))
    }

    constructor (products: seq<Product>)
      ensures Valid()
      ensures users == map[] && orders == [] && orderItems == [] && this.products == products
    {
      users := map[];
      orders := [];
      orderItems := [];
      this.products := products;
    }

    /** `from('users').upsert(..., {onConflict: 'email'}).select().single()`: the stored row, or None on error. */
    method Upsert(email: string, name: string, phone: string, fails: bool, newId: string) returns (r: Option<User>)
      requires Valid()
      modifies this
      ensures Valid()
      ensures fails ==> r == None && users == old(users)
      ensures !fails ==> users == UpsertByEmail(old(users), email, name, phone, newId) && r == Some(users[email])
      ensures orders == old(orders) && orderItems == old(orderItems) && products == old(products)
    {
      if fails {
        r := None;
      } else {
        UpsertPreservesKeying(users, email, name, phone, newId);
        users := UpsertByEmail(users, email, name, phone, newId);
        r := Some(users[email]);
      }
    }

    /** `from('orders').insert(order).select().single()`: the stored row, or None on error. */
    method InsertOrder(order: Order, fails: bool) returns (r: Option<Order>)
      requires Valid() && order.userId in UserIds(users)
      modifies this
      ensures Valid()
      ensures fails ==> r == None && orders == old(orders)
      ensures !fails ==> r == Some(order) && orders == old(orders) + [order]
      ensures users == old(users) && orderItems == old(orderItems) && products == old(products)
    {
      if fails {
        r := None;
      } else {
        orders := orders + [order];
        r := Some(order);
        assert forall i :: 0 <= i < |old(orders)| ==> orders[i] == old(orders)[i];
        assert OrderIds(old(orders)) <= OrderIds(orders);
      }
    }

    /** `from('order_items').insert(items)`: one batch, stored whole or not at all. */
    method InsertOrderItems(items: seq<OrderItem>, fails: bool) returns (ok: bool)
      requires Valid() && forall i :: 0 <= i < |items| ==> items[i].orderId in OrderIds(orders)
      modifies this
      ensures Valid()
      ensures ok == !fails
      ensures orderItems == if fails then old(orderItems) else old(orderItems) + items
      ensures users == old(users) && orders == old(orders) && products == old(products)
    {
      ok := !fails;
      if !fails {
        orderItems := orderItems + items;
      }
    }

    /** `from('products').insert([row]).select().single()`: the stored row, or the error message. */
    method InsertProduct(row: Product, error: Option<string>) returns (r: Option<Product>)
      requires Valid()
      modifies this
      ensures Valid()
      ensures error.Some? ==> r == None && products == old(products)
      ensures error.None? ==> r == Some(row) && products == old(products) + [row]
      ensures users == old(users) && orders == old(orders) && orderItems == old(orderItems)
    {
      if error.Some? {
        r := None;
      } else {
        products := products + [row];
        r := Some(row);
      }
    }
  }
}
