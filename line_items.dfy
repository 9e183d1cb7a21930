/** The line-item list operations of the invoice editor: append a blank
    item, remove by id, and edit one field of the item(s) with a given id.
    Ids come from the random id generator and are parameters here. */
module LineItems {
  import opened InvoiceData
  import opened Tax

  /** A blank item as the "add item" button creates it: worth nothing, at
      the default 18 % rate. */
  function BlankItem(id: string): (r: Item)
    ensures r.id == id && Line(r) == 0.0 && Rate(r) == 18.0
  {
    Item(id, "", "", Num(1.0), Num(0.0), Num(18.0))
  }

  /** Appends one blank item; the earlier items stay as they were. */
  function AddItem(items: seq<Item>, id: string): (r: seq<Item>)
    ensures |r| == |items| + 1
    ensures r[..|items|] == items
    ensures r[|items|].id == id && r[|items|].name == "" && r[|items|].hsn == ""
    ensures r[|items|].qty == Num(1.0) && r[|items|].price == Num(0.0) && r[|items|].gst == Num(18.0)
  {
    items + [BlankItem(id)]
  }

  /** Keeps, in order, the items whose id differs from `id`. */
  function RemoveItem(items: seq<Item>, id: string): (r: seq<Item>)
    ensures |r| <= |items|
    ensures forall x :: x in r ==> x in items && x.id != id
    ensures forall x :: x in items && x.id != id ==> x in r
  {
    if |items| == 0 then []
    else if items[0].id != id then [items[0]] + RemoveItem(items[1..], id)
    else RemoveItem(items[1..], id)
  }

  /** Removal distributes over concatenation, so the kept items keep their order. */
  lemma {:induction false} RemoveItemAppend(a: seq<Item>, b: seq<Item>, id: string)
    ensures RemoveItem(a + b, id) == RemoveItem(a, id) + RemoveItem(b, id)
    decreases |a|
  {
    if |a| > 0 {
      assert (a + b)[0] == a[0];
      assert (a + b)[1..] == a[1..] + b;
      RemoveItemAppend(a[1..], b, id);
      if a[0].id != id {
        var ra, rb := RemoveItem(a[1..], id), RemoveItem(b, id);
        assert [a[0]] + (ra + rb) == ([a[0]] + ra) + rb;
      }
    } else {
      assert a + b == b;
    }
  }

  /** Removing an id that no item has leaves the list as it is. */
  lemma {:induction false} RemoveAbsentId(items: seq<Item>, id: string)
    requires forall i :: 0 <= i < |items| ==> items[i].id != id
    ensures RemoveItem(items, id) == items
    decreases |items|
  {
    if |items| > 0 {
      RemoveAbsentId(items[1..], id);
      assert [items[0]] + items[1..] == items;
    }
  }

  /** Removing the same id twice removes nothing more. */
  lemma {:induction false} RemoveItemIdempotent(items: seq<Item>, id: string)
    ensures RemoveItem(RemoveItem(items, id), id) == RemoveItem(items, id)
    decreases |items|
  {
    if |items| > 0 {
      RemoveItemIdempotent(items[1..], id);
      if items[0].id != id {
        var rest := RemoveItem(items[1..], id);
        assert ([items[0]] + rest)[0] == items[0];
        assert ([items[0]] + rest)[1..] == rest;
      }
    }
  }

  /** With non-negative lines, removing items never raises the subtotal. */
  lemma {:induction false} RemoveItemSubtotal(items: seq<Item>, id: string)
    requires forall i :: 0 <= i < |items| ==> Line(items[i]) >= 0.0
    ensures Subtotal(RemoveItem(items, id)) <= Subtotal(items)
    decreases |items|
  {
    if |items| > 0 {
      RemoveItemSubtotal(items[1..], id);
      SubtotalCons(items[0], items[1..]);
      assert [items[0]] + items[1..] == items;
      if items[0].id != id {
        SubtotalCons(items[0], RemoveItem(items[1..], id));
      }
    }
  }

  /** Adding a blank item changes none of the totals: its price is 0. */
  lemma {:induction false} AddItemKeepsTotals(inv: Invoice, id: string)
    ensures ComputeTotals(inv.(items := AddItem(inv.items, id))) == ComputeTotals(inv)
  {
  }

  /** One field edit as the item table's inputs make it; numeric inputs
      arrive already converted by `Number(...)`. */
  datatype ItemEdit = SetName(name: string) | SetHsn(hsn: string)
                    | SetQty(qty: real) | SetPrice(price: real) | SetGst(gst: real)

  /** `{ ...x, field: v }`: the edited field takes the new value, every
      other field, the id included, stays. */
  function ApplyEdit(it: Item, e: ItemEdit): (r: Item)
    ensures r.id == it.id
    ensures r.name == (if e.SetName? then e.name else it.name)
    ensures r.hsn == (if e.SetHsn? then e.hsn else it.hsn)
    ensures r.qty == (if e.SetQty? then Num(e.qty) else it.qty)
    ensures r.price == (if e.SetPrice? then Num(e.price) else it.price)
    ensures r.gst == (if e.SetGst? then Num(e.gst) else it.gst)
  {
    match e
    case SetName(v) => it.(name := v)
    case SetHsn(v) => it.(hsn := v)
    case SetQty(v) => it.(qty := Num(v))
    case SetPrice(v) => it.(price := Num(v))
    case SetGst(v) => it.(gst := Num(v))
  }

  /** Applies the edit to every item with the given id and to no other. */
  function EditItem(items: seq<Item>, id: string, e: ItemEdit): (r: seq<Item>)
    ensures |r| == |items|
    ensures forall i :: 0 <= i < |items| && items[i].id == id ==> r[i] == ApplyEdit(items[i], e)
    ensures forall i :: 0 <= i < |items| && items[i].id != id ==> r[i] == items[i]
  {
    seq(|items|, i requires 0 <= i < |items| => if items[i].id == id then ApplyEdit(items[i], e) else items[i])
  }

  /** Editing an item and then deleting it is the same as just deleting it. */
  lemma {:induction false} EditThenRemove(items: seq<Item>, id: string, e: ItemEdit)
    ensures RemoveItem(EditItem(items, id, e), id) == RemoveItem(items, id)
    decreases |items|
  {
    if |items| > 0 {
      var edited := EditItem(items, id, e);
      assert edited[1..] == EditItem(items[1..], id, e);
      EditThenRemove(items[1..], id, e);
    }
  }

  /** Renaming an item or changing its HSN code leaves every total as it was. */
  lemma {:induction false} TextEditKeepsTotals(inv: Invoice, id: string, e: ItemEdit)
    requires e.SetName? || e.SetHsn?
    ensures ComputeTotals(inv.(items := EditItem(inv.items, id, e))) == ComputeTotals(inv)
  {
    SameAmountsSameTotals(inv, EditItem(inv.items, id, e));
  }

  /** Setting the quantity of the item(s) with `id` to `q` makes each such
      line worth `q × price`, and no other line changes. */
  lemma {:induction false} QtyEditLines(items: seq<Item>, id: string, q: real)
    ensures forall i :: 0 <= i < |items| ==>
      Line(EditItem(items, id, SetQty(q))[i]) == (if items[i].id == id then q * Norm(items[i].price) else Line(items[i]))
  {
  }
}
