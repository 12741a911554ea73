/**
 * The orders page: the guard in front of its form, the order its form
 * submits (the total is the product's price times the quantity), and the
 * store action it dispatches.
 */
module OrdersPage {
  import opened Common
  import opened Values
  import opened Records
  import Text
  import Store

  /** The form is offered only once there is at least one product and one customer. */
  predicate CanCreateOrders(products: seq<Product>, customers: seq<Customer>)
  {
    |products| > 0 && |customers| > 0
  }

  /**
   * What the guard rules out: with customers but no products the form would
   * find no product for any order and `product.price` would throw.
   */
  lemma GuardRulesOutEmptyCatalogue(products: seq<Product>, customers: seq<Customer>, data: Obj)
    requires !CanCreateOrders(products, customers) && |customers| > 0
    ensures OrderPayload(products, data).None?
  {
  }

  /**
   * Behind the guard the select offers products, and an order for a listed
   * product (any id but NaN) finds its product, so the form does not throw.
   */
  lemma ListedProductIsFound(products: seq<Product>, data: Obj, i: int)
    requires 0 <= i < |products| && Get(data, "productId") == products[i].id && !products[i].id.NaN?
    ensures OrderPayload(products, data).Some?
  {
    LooseEqualsSymmetric(products[i].id, products[i].id);
  }

  /** `a * b`: both sides are turned into numbers, and NaN spreads. */
  function Multiply(a: Value, b: Value): (r: Value)
    ensures r.Num? <==> ToNumber(a).Num? && ToNumber(b).Num?
    ensures r.Num? ==> r.n == ToNumber(a).n * ToNumber(b).n
  {
    match (ToNumber(a), ToNumber(b))
    case (Num(x), Num(y)) => Num(x * y)
    case _ => NaN
  }

  /** `product.price`: `undefined` when the product holds no price. */
  function PriceOf(p: Product): Value
  {
    if p.price.Some? then Num(p.price.value) else Undefined
  }

  /**
   * The form's `onSubmit`: `{ ...data, total, quantity }` with the product the
   * form names; `None` where `product.price` throws because no product has
   * the id.
   */
  function OrderPayload(products: seq<Product>, data: Obj): (r: Option<Obj>)
    ensures r.None? <==> FindProduct(products, Get(data, "productId")).None?
    ensures r.Some? ==> Get(r.value, "quantity") == ParseInt(Get(data, "quantity"))
    ensures r.Some? ==>
      Get(r.value, "total") == Multiply(PriceOf(FindProduct(products, Get(data, "productId")).value), ParseInt(Get(data, "quantity")))
    ensures r.Some? ==> forall k :: k != "total" && k != "quantity" ==>
      (k in r.value <==> k in data) && Get(r.value, k) == Get(data, k)
  {
    match FindProduct(products, Get(data, "productId"))
    case None => None
    case Some(p) =>
      var quantity := ParseInt(Get(data, "quantity"));
      Some(data["total" := Multiply(PriceOf(p), quantity)]["quantity" := quantity])
  }

  /**
   * The select field holds an id as text; it still finds a product whose id
   * is that number, and with a price and a whole quantity the total is the
   * price times the quantity.
   */
  lemma SelectedOrderTotal(products: seq<Product>, data: Obj, i: int, n: int, q: int)
    requires 0 <= i < |products| && products[i].id == Num(n) && products[i].price.Some?
    requires Get(data, "productId") == Str(Text.IntToString(n))
    requires Get(data, "quantity") == Num(q)
    requires forall j :: 0 <= j < i ==> !LooseEquals(products[j].id, Get(data, "productId"))
    ensures OrderPayload(products, data).Some?
    ensures Get(OrderPayload(products, data).value, "quantity") == Num(q)
    ensures Get(OrderPayload(products, data).value, "total") == Num(products[i].price.value * q)
  {
    LooseEqualsRendering(n);
    FindProductAt(products, Get(data, "productId"), i);
    ParseIntOfNumber(q);
  }

  /**
   * `onSubmit` then `handleSubmit`: the payload goes to the server and the
   * order the server created is appended; when no product has the id the
   * form throws before anything is sent.
   */
  method OnSubmit(store: Store.Store, products: seq<Product>, data: Obj, created: Option<Obj>)
    returns (payload: Option<Obj>)
    modifies store
    ensures payload == OrderPayload(products, data)
    ensures store.orders ==
      (if payload.Some? && created.Some? then old(store.orders) + [created.value] else old(store.orders))
    ensures store.products == old(store.products) && store.customers == old(store.customers)
    ensures store.loading == old(store.loading)
  {
    payload := OrderPayload(products, data);
    if payload.Some? {
      store.AddOrder(created);
    }
  }
}
