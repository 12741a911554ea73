/**
 * The three collections the report pages read from the store, as typed
 * records, and the `find` lookups the pages use to join them. Ids are
 * compared with the loose `==`.
 */
module Records {
  import opened Common
  import opened Values

  /** The status of an order that has been completed. */
  const Completed := "Selesai"
  /** The status of an order that is still waiting. */
  const Waiting := "Menunggu"
  /** What a lookup shows when there is no record or the record has no name. */
  const NoName := "—"

  /** A product; a numeric field that the record does not hold is `None`. */
  datatype Product = Product(
    id: Value,
    name: string,
    price: Option<int>,
    materialCost: Option<int>,
    otherCost: Option<int>,
    stock: Option<int>)

  datatype Customer = Customer(id: Value, name: string)

  /** An order; `date` is a `YYYY-MM-DD` string. */
  datatype Order = Order(
    id: Value,
    customerId: Value,
    productId: Value,
    quantity: Option<int>,
    total: Option<int>,
    date: string,
    status: string)

  /** `products.find(p => p.id == id)`: the first product with that id. */
  function FindProduct(ps: seq<Product>, id: Value): (r: Option<Product>)
    ensures r.None? <==> forall i :: 0 <= i < |ps| ==> !LooseEquals(ps[i].id, id)
    ensures r.Some? ==> r.value in ps && LooseEquals(r.value.id, id)
    ensures r.Some? ==> exists i :: 0 <= i < |ps| && ps[i] == r.value && forall j :: 0 <= j < i ==> !LooseEquals(ps[j].id, id)
  {
    if ps == [] then None
    else if LooseEquals(ps[0].id, id) then
      assert ps[0] == ps[0];
      Some(ps[0])
    else
      var r := FindProduct(ps[1..], id);
      assert forall i :: 0 < i < |ps| ==> ps[i] == ps[1..][i - 1];
      if r.Some? then
        var k :| 0 <= k < |ps[1..]| && ps[1..][k] == r.value && forall j :: 0 <= j < k ==> !LooseEquals(ps[1..][j].id, id);
        assert ps[k + 1] == r.value;
        r
      else r
  }

  /** The product `find` returns is the one at the first index whose id matches. */
  lemma {:induction false} FindProductAt(ps: seq<Product>, id: Value, i: int)
    requires 0 <= i < |ps| && LooseEquals(ps[i].id, id)
    requires forall j :: 0 <= j < i ==> !LooseEquals(ps[j].id, id)
    ensures FindProduct(ps, id) == Some(ps[i])
    decreases i
  {
    if i > 0 {
      FindProductAt(ps[1..], id, i - 1);
    }
  }

  /** `customers.find(c => c.id == id)`: the first customer with that id. */
  function FindCustomer(cs: seq<Customer>, id: Value): (r: Option<Customer>)
    ensures r.None? <==> forall i :: 0 <= i < |cs| ==> !LooseEquals(cs[i].id, id)
    ensures r.Some? ==> r.value in cs && LooseEquals(r.value.id, id)
    ensures r.Some? ==> exists i :: 0 <= i < |cs| && cs[i] == r.value && forall j :: 0 <= j < i ==> !LooseEquals(cs[j].id, id)
  {
    if cs == [] then None
    else if LooseEquals(cs[0].id, id) then
      assert cs[0] == cs[0];
      Some(cs[0])
    else
      var r := FindCustomer(cs[1..], id);
      assert forall i :: 0 < i < |cs| ==> cs[i] == cs[1..][i - 1];
      if r.Some? then
        var k :| 0 <= k < |cs[1..]| && cs[1..][k] == r.value && forall j :: 0 <= j < k ==> !LooseEquals(cs[1..][j].id, id);
        assert cs[k + 1] == r.value;
        r
      else r
  }

  /** `find(...)?.name || '—'`: the name of a found record, or the dash. */
  function NameOr(name: Option<string>): (r: string)
    ensures r != ""
    ensures name.Some? && name.value != "" ==> r == name.value
    ensures name.None? || name.value == "" ==> r == NoName
  {
    if name.Some? && name.value != "" then name.value else NoName
  }

  /** The product name shown for an order. */
  function ProductLabel(ps: seq<Product>, id: Value): (r: string)
    ensures (forall i :: 0 <= i < |ps| ==> !LooseEquals(ps[i].id, id)) ==> r == NoName
    ensures FindProduct(ps, id).Some? && FindProduct(ps, id).value.name == "" ==> r == NoName
    ensures FindProduct(ps, id).Some? && FindProduct(ps, id).value.name != "" ==> r == FindProduct(ps, id).value.name
  {
    var p := FindProduct(ps, id);
    NameOr(if p.Some? then Some(p.value.name) else None)
  }

  /** The customer name shown for an order. */
  function CustomerLabel(cs: seq<Customer>, id: Value): (r: string)
    ensures (forall i :: 0 <= i < |cs| ==> !LooseEquals(cs[i].id, id)) ==> r == NoName
    ensures FindCustomer(cs, id).Some? && FindCustomer(cs, id).value.name == "" ==> r == NoName
    ensures FindCustomer(cs, id).Some? && FindCustomer(cs, id).value.name != "" ==> r == FindCustomer(cs, id).value.name
  {
    var c := FindCustomer(cs, id);
    NameOr(if c.Some? then Some(c.value.name) else None)
  }
}
