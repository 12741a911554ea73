/**
 * The products page: the payload its form submits, the store action it
 * dispatches, and the stock badge of the product table.
 */
module ProductsPage {
  import opened Common
  import opened Values
  import opened Records
  import Store
  import Dashboard

  /** `Number(x) || 0`: the number `x` stands for, 0 when it stands for none. */
  function Amount(x: Value): (r: int)
    ensures r != 0 ==> ToNumber(x) == Num(r)
    ensures ToNumber(x).NaN? ==> r == 0
    ensures ToNumber(x).Num? ==> r == ToNumber(x).n
  {
    NumberOr(ToNumber(x), 0)
  }

  /** The keys the payload sets or drops; every other key of the form passes through. */
  predicate Rewritten(k: string)
  {
    k == "price" || k == "materialCost" || k == "otherCost" || k == "stock" || k == "image"
  }

  /**
   * `{ ...data, price, materialCost, otherCost, stock }` with the given stock,
   * then `delete payload.image` when the image is falsy.
   */
  function PayloadWith(data: Obj, stock: Value): (r: Obj)
    ensures Get(r, "price") == Num(Amount(Get(data, "price")))
    ensures Get(r, "materialCost") == Num(Amount(Get(data, "materialCost")))
    ensures Get(r, "otherCost") == Num(Amount(Get(data, "otherCost")))
    ensures "stock" in r && r["stock"] == stock
    ensures "image" in r <==> Truthy(Get(data, "image"))
    ensures "image" in r ==> r["image"] == data["image"]
    ensures forall k :: !Rewritten(k) ==> (k in r <==> k in data) && Get(r, k) == Get(data, k)
  {
    var p := data["price" := Num(Amount(Get(data, "price")))]
                 ["materialCost" := Num(Amount(Get(data, "materialCost")))]
                 ["otherCost" := Num(Amount(Get(data, "otherCost")))]
                 ["stock" := stock];
    if Truthy(Get(p, "image")) then p else p - {"image"}
  }

  /** `data.stock ? Number(data.stock) : undefined`, as the page writes it. */
  function StockAsWritten(x: Value): (r: Value)
    ensures r.Undefined? <==> !Truthy(x)
    ensures Truthy(x) ==> r == ToNumber(x)
  {
    if Truthy(x) then ToNumber(x) else Undefined
  }

  /** The payload the form submits, as the page writes it. */
  function PayloadAsWritten(data: Obj): (r: Obj)
    ensures "stock" in r && (r["stock"].Undefined? <==> !Truthy(Get(data, "stock")))
    ensures Truthy(Get(data, "stock")) ==> r["stock"] == ToNumber(Get(data, "stock"))
    ensures forall k :: k != "stock" ==> (k in r <==> k in Payload(data)) && Get(r, k) == Get(Payload(data), k)
  {
    PayloadWith(data, StockAsWritten(Get(data, "stock")))
  }

  /**
   * The stock as evidently intended: an empty field leaves the stock unknown,
   * and every number entered, 0 included, is kept.
   */
  function StockKept(x: Value): (r: Value)
    ensures x.Num? ==> r == x
    ensures r.Undefined? <==> x.Undefined? || x.Null? || x == Str("")
  {
    if x.Undefined? || x.Null? || x == Str("") then Undefined else ToNumber(x)
  }

  /** The payload the form submits, with the stock kept as intended. */
  function Payload(data: Obj): (r: Obj)
    ensures "stock" in r && (r["stock"].Undefined? <==> Get(data, "stock") in {Undefined, Null, Str("")})
    ensures Get(data, "stock").Num? ==> r["stock"] == Get(data, "stock")
    ensures Get(data, "stock") !in {Undefined, Null, Str("")} ==> r["stock"] == ToNumber(Get(data, "stock"))
  {
    PayloadWith(data, StockKept(Get(data, "stock")))
  }

  /** The colour of the stock cell: a dash, red, orange or green. */
  datatype StockBadge = Dash | Empty | Low | Plenty

  /** `p.stock !== undefined ? (p.stock === 0 ? red : p.stock < 5 ? orange : green) : dash`. */
  function Badge(stock: Value): (r: StockBadge)
    ensures r == Dash <==> stock.Undefined?
    ensures r == Empty <==> stock == Num(0)
    ensures r == Low ==> ToNumber(stock).Num? && ToNumber(stock).n < 5
    ensures r == Plenty ==> ToNumber(stock).NaN? || ToNumber(stock).n >= 5
    ensures stock.Num? && stock.n != 0 ==> (r == Low <==> stock.n < 5)
  {
    if stock.Undefined? then Dash
    else if stock == Num(0) then Empty
    else
      var n := ToNumber(stock);
      if n.Num? && n.n < 5 then Low else Plenty
  }

  /**
   * As written, no payload built from a number field (which holds a number or
   * the empty string) carries a stock of 0, so the red "sold out" badge is
   * never reached through the form; entering 0 leaves the stock unknown.
   */
  lemma SavedStockNeverZero(data: Obj)
    ensures Get(data, "stock").Num? || Get(data, "stock") == Str("") ==>
      Badge(Get(PayloadAsWritten(data), "stock")) != Empty
    ensures Get(data, "stock") == Num(0) ==> Badge(Get(PayloadAsWritten(data), "stock")) == Dash
  {
  }

  /** With the stock kept, a number entered is saved as it is, and 0 shows as sold out. */
  lemma StockKeptForNumbers(data: Obj, n: int)
    requires Get(data, "stock") == Num(n)
    ensures Get(Payload(data), "stock") == Num(n)
    ensures n == 0 ==> Badge(Get(Payload(data), "stock")) == Empty
    ensures Payload(data) == PayloadAsWritten(data) <==> n != 0
  {
    if n == 0 {
      assert Get(PayloadAsWritten(data), "stock") == Undefined;
    }
  }

  /**
   * The dashboard calls a known stock low when it is between 0 and 5; the
   * product table colours 0 red and 1 to 4 orange, but colours 5 green.
   */
  lemma DashboardVsBadge(p: Product)
    requires p.stock.Some?
    ensures var b := Badge(Num(p.stock.value));
      Dashboard.LowStock(p) <==> (p.stock.value >= 0 && (b == Empty || b == Low)) || p.stock.value == 5
  {
  }

  /**
   * `handleSubmit`: an edit merges the payload into the products with the
   * edited product's id, anything else adds the product the server created.
   * The browser's asynchronous flow is collapsed into the server's outcome:
   * `created` for an add, `ok` for an update. The page submits the payload
   * as it writes it.
   */
  method HandleSubmit(store: Store.Store, data: Obj, editing: Option<Obj>, created: Option<Obj>, ok: bool)
    returns (payload: Obj)
    modifies store
    ensures payload == PayloadAsWritten(data)
    ensures editing.Some? ==>
      store.products == (if ok then Store.Merged(old(store.products), Store.IdOf(editing.value), payload) else old(store.products))
    ensures editing.None? ==>
      store.products == (if created.Some? then old(store.products) + [created.value] else old(store.products))
    ensures store.customers == old(store.customers) && store.orders == old(store.orders)
    ensures store.loading == old(store.loading)
  {
    payload := PayloadAsWritten(data);
    Dispatch(store, payload, editing, created, ok);
  }

  /** `handleSubmit` with the stock kept as intended. */
  method HandleSubmitCorrected(store: Store.Store, data: Obj, editing: Option<Obj>, created: Option<Obj>, ok: bool)
    returns (payload: Obj)
    modifies store
    ensures payload == Payload(data)
    ensures editing.Some? ==>
      store.products == (if ok then Store.Merged(old(store.products), Store.IdOf(editing.value), payload) else old(store.products))
    ensures editing.None? ==>
      store.products == (if created.Some? then old(store.products) + [created.value] else old(store.products))
    ensures store.customers == old(store.customers) && store.orders == old(store.orders)
    ensures store.loading == old(store.loading)
  {
    payload := Payload(data);
    Dispatch(store, payload, editing, created, ok);
  }

  /** The store action `handleSubmit` dispatches for a payload. */
  method Dispatch(store: Store.Store, payload: Obj, editing: Option<Obj>, created: Option<Obj>, ok: bool)
    modifies store
    ensures editing.Some? ==>
      store.products == (if ok then Store.Merged(old(store.products), Store.IdOf(editing.value), payload) else old(store.products))
    ensures editing.None? ==>
      store.products == (if created.Some? then old(store.products) + [created.value] else old(store.products))
    ensures store.customers == old(store.customers) && store.orders == old(store.orders)
    ensures store.loading == old(store.loading)
  {
    if editing.Some? {
      store.UpdateProduct(Store.IdOf(editing.value), payload, ok);
    } else {
      store.AddProduct(created);
    }
  }
}
