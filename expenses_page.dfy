/**
 * The expenses page: the payload its form submits, the store action it asks
 * for, and the total of a list of expenses. The store defines no expense
 * list and no expense actions, so the action is returned rather than applied.
 */
module ExpensesPage {
  import opened Common
  import opened Values
  import opened Seqs

  /** `parseInt(data.quantity) || 1`: never 0. */
  function Quantity(data: Obj): (q: int)
    ensures q != 0
    ensures var x := ParseInt(Get(data, "quantity"));
      if x.Num? && x.n != 0 then q == x.n else q == 1
  {
    NumberOr(ParseInt(Get(data, "quantity")), 1)
  }

  /** `parseFloat(data.unitPrice) || 0`, prices being whole Rupiah. */
  function UnitPrice(data: Obj): (u: int)
    ensures var x := ParseInt(Get(data, "unitPrice"));
      if x.Num? then u == x.n else u == 0
  {
    NumberOr(ParseInt(Get(data, "unitPrice")), 0)
  }

  predicate Rewritten(k: string)
  {
    k == "quantity" || k == "unitPrice" || k == "total"
  }

  /** `{ ...data, quantity, unitPrice, total }` with `total = quantity * unitPrice`. */
  function Payload(data: Obj): (r: Obj)
    ensures Get(r, "quantity") == Num(Quantity(data))
    ensures Get(r, "unitPrice") == Num(UnitPrice(data))
    ensures Get(r, "total") == Num(Quantity(data) * UnitPrice(data))
    ensures forall k :: !Rewritten(k) ==> (k in r <==> k in data) && Get(r, k) == Get(data, k)
  {
    var q, u := Quantity(data), UnitPrice(data);
    data["quantity" := Num(q)]["unitPrice" := Num(u)]["total" := Num(q * u)]
  }

  /** The store action `handleSubmit` calls. */
  datatype Submission = AddExpense(payload: Obj) | UpdateExpense(id: Value, payload: Obj)

  /** `handleSubmit`: an edit updates the edited expense's id, anything else adds. */
  function HandleSubmit(data: Obj, editing: Option<Obj>): (r: Submission)
    ensures r.UpdateExpense? <==> editing.Some?
    ensures r.UpdateExpense? ==> r.id == Get(editing.value, "id")
    ensures r.payload == Payload(data)
  {
    match editing
    case Some(e) => UpdateExpense(Get(e, "id"), Payload(data))
    case None => AddExpense(Payload(data))
  }

  /** `e.total || 0` for an expense whose total is a number or missing. */
  function ExpenseTotal(e: Obj): (r: int)
    ensures Get(e, "total").Num? ==> r == Get(e, "total").n
    ensures !Get(e, "total").Num? ==> r == 0
  {
    match Get(e, "total")
    case Num(n) => n
    case _ => 0
  }

  /** `totalExpenses`. */
  function TotalExpenses(expenses: seq<Obj>): (r: int)
    ensures expenses == [] ==> r == 0
  {
    SumBy(ExpenseTotal, expenses)
  }

  /**
   * An expense the form submits adds its quantity times its unit price to
   * the total.
   */
  lemma SubmittedTotal(expenses: seq<Obj>, data: Obj)
    ensures TotalExpenses(expenses + [Payload(data)]) == TotalExpenses(expenses) + Quantity(data) * UnitPrice(data)
  {
    SumByAppend(ExpenseTotal, expenses, [Payload(data)]);
    assert SumBy(ExpenseTotal, [Payload(data)]) == ExpenseTotal(Payload(data)) by {
      assert [Payload(data)][..0] == [];
    }
  }
}
