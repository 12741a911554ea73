/**
 * The application store: three collections of plain records and a loading
 * flag. Every action first talks to the server and then replaces one
 * collection; the server's answer is a parameter here (the list or record it
 * returns, or `None` / `false` when the request fails, in which case an
 * add, update or delete throws before it changes anything).
 */
module Store {
  import opened Common
  import opened Values
  import opened Seqs

  /** `record.id`. */
  function IdOf(r: Obj): Value
  {
    Get(r, "id")
  }

  /** `list.map(p => p.id == id ? { ...p, ...data } : p)`, with the loose `==`. */
  function Merged(list: seq<Obj>, id: Value, data: Obj): (r: seq<Obj>)
    ensures |r| == |list|
    ensures forall i :: 0 <= i < |list| && !LooseEquals(IdOf(list[i]), id) ==> r[i] == list[i]
    ensures forall i, k :: 0 <= i < |list| && LooseEquals(IdOf(list[i]), id) ==>
      Get(r[i], k) == if k in data then data[k] else Get(list[i], k)
    ensures forall i :: 0 <= i < |list| && LooseEquals(IdOf(list[i]), id) ==> r[i].Keys == list[i].Keys + data.Keys
  {
    seq(|list|, i requires 0 <= i < |list| => if LooseEquals(IdOf(list[i]), id) then list[i] + data else list[i])
  }

  function OtherIdFn(id: Value): Obj -> bool
  {
    (r: Obj) => !LooseEquals(IdOf(r), id)
  }

  /** `list.filter(p => p.id != id)`. */
  function Removed(list: seq<Obj>, id: Value): (r: seq<Obj>)
    ensures |r| <= |list|
    ensures forall i :: 0 <= i < |r| ==> r[i] in list && !LooseEquals(IdOf(r[i]), id)
  {
    Filter(OtherIdFn(id), list)
  }

  /**
   * After a delete no record has the id, every record with another id is
   * still there, and the rest keep their order.
   */
  lemma RemovedSpec(list: seq<Obj>, id: Value)
    ensures forall r :: r in Removed(list, id) <==> r in list && !LooseEquals(IdOf(r), id)
    ensures IsSubsequence(Removed(list, id), list)
  {
    FilterIsSubsequence(OtherIdFn(id), list);
  }

  /** Deleting the same id twice leaves what deleting it once left. */
  lemma RemovedIdempotent(list: seq<Obj>, id: Value)
    ensures Removed(Removed(list, id), id) == Removed(list, id)
  {
    FilterIdempotent(OtherIdFn(id), list);
  }

  /** Deleting an id nobody has changes nothing. */
  lemma RemovedAbsent(list: seq<Obj>, id: Value)
    requires forall i :: 0 <= i < |list| ==> !LooseEquals(IdOf(list[i]), id)
    ensures Removed(list, id) == list
  {
    FilterAll(OtherIdFn(id), list);
  }

  /**
   * Deleting the id of a record just added with a fresh id undoes the add
   * (a NaN id equals nothing, so such a record could not be deleted).
   */
  lemma RemoveUndoesAdd(list: seq<Obj>, added: Obj)
    requires !IdOf(added).NaN?
    requires forall i :: 0 <= i < |list| ==> !LooseEquals(IdOf(list[i]), IdOf(added))
    ensures Removed(list + [added], IdOf(added)) == list
  {
    FilterAppend(OtherIdFn(IdOf(added)), list, [added]);
    RemovedAbsent(list, IdOf(added));
    LooseEqualsSymmetric(IdOf(added), IdOf(added));
    assert [added][..0] == [];
  }

  /** Applying the same update twice leaves what applying it once left. */
  lemma MergedIdempotent(list: seq<Obj>, id: Value, data: Obj)
    ensures Merged(Merged(list, id, data), id, data) == Merged(list, id, data)
  {
    var once := Merged(list, id, data);
    forall i | 0 <= i < |list| ensures Merged(once, id, data)[i] == once[i] {
      if LooseEquals(IdOf(once[i]), id) {
        assert once[i] + data == once[i];
      }
    }
  }

  class Store {
    var products: seq<Obj>
    var customers: seq<Obj>
    var orders: seq<Obj>
    var loading: bool

    /** The initial state: empty collections, not loading. */
    constructor()
      ensures products == [] && customers == [] && orders == [] && !loading
    {
      products, customers, orders, loading := [], [], [], false;
    }

    /** `fetchProducts`: the server's list on success, the old list on failure; loading ends either way. */
    method FetchProducts(response: Option<seq<Obj>>)
      modifies this
      ensures products == if response.Some? then response.value else old(products)
      ensures !loading
      ensures customers == old(customers) && orders == old(orders)
    {
      loading := true;
      if response.Some? {
        products, loading := response.value, false;
      } else {
        loading := false;
      }
    }

    method FetchCustomers(response: Option<seq<Obj>>)
      modifies this
      ensures customers == if response.Some? then response.value else old(customers)
      ensures !loading
      ensures products == old(products) && orders == old(orders)
    {
      loading := true;
      if response.Some? {
        customers, loading := response.value, false;
      } else {
        loading := false;
      }
    }

    method FetchOrders(response: Option<seq<Obj>>)
      modifies this
      ensures orders == if response.Some? then response.value else old(orders)
      ensures !loading
      ensures products == old(products) && customers == old(customers)
    {
      loading := true;
      if response.Some? {
        orders, loading := response.value, false;
      } else {
        loading := false;
      }
    }

    /** `addProduct`: the record the server created goes at the end; on failure nothing changes. */
    method AddProduct(created: Option<Obj>)
      modifies this
      ensures products == if created.Some? then old(products) + [created.value] else old(products)
      ensures customers == old(customers) && orders == old(orders) && loading == old(loading)
    {
      if created.Some? {
        products := products + [created.value];
      }
    }

    method AddCustomer(created: Option<Obj>)
      modifies this
      ensures customers == if created.Some? then old(customers) + [created.value] else old(customers)
      ensures products == old(products) && orders == old(orders) && loading == old(loading)
    {
      if created.Some? {
        customers := customers + [created.value];
      }
    }

    method AddOrder(created: Option<Obj>)
      modifies this
      ensures orders == if created.Some? then old(orders) + [created.value] else old(orders)
      ensures products == old(products) && customers == old(customers) && loading == old(loading)
    {
      if created.Some? {
        orders := orders + [created.value];
      }
    }

    /** `updateProduct`: `data` is merged into every product with the id once the server accepts it. */
    method UpdateProduct(id: Value, data: Obj, ok: bool)
      modifies this
      ensures products == if ok then Merged(old(products), id, data) else old(products)
      ensures customers == old(customers) && orders == old(orders) && loading == old(loading)
    {
      if ok {
        products := Merged(products, id, data);
      }
    }

    method UpdateCustomer(id: Value, data: Obj, ok: bool)
      modifies this
      ensures customers == if ok then Merged(old(customers), id, data) else old(customers)
      ensures products == old(products) && orders == old(orders) && loading == old(loading)
    {
      if ok {
        customers := Merged(customers, id, data);
      }
    }

    /** `deleteProduct`: every product with the id goes once the server accepts it. */
    method DeleteProduct(id: Value, ok: bool)
      modifies this
      ensures products == if ok then Removed(old(products), id) else old(products)
      ensures customers == old(customers) && orders == old(orders) && loading == old(loading)
    {
      if ok {
        products := Removed(products, id);
      }
    }

    method DeleteCustomer(id: Value, ok: bool)
      modifies this
      ensures customers == if ok then Removed(old(customers), id) else old(customers)
      ensures products == old(products) && orders == old(orders) && loading == old(loading)
    {
      if ok {
        customers := Removed(customers, id);
      }
    }

    method DeleteOrder(id: Value, ok: bool)
      modifies this
      ensures orders == if ok then Removed(old(orders), id) else old(orders)
      ensures products == old(products) && customers == old(customers) && loading == old(loading)
    {
      if ok {
        orders := Removed(orders, id);
      }
    }
  }
}
