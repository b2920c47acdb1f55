/** The line items of the invoice and the pure computations over them:
    the new list after adding, removing or editing a row (spread, `filter` and `map`
    in the component), the total (`reduce`), and the coercion of the quantity and
    price inputs. */
module LineItems {
  import opened Wrappers

  /** One row of the invoice table. Quantities and prices are exact numbers here;
      the component stores JavaScript numbers. */
  datatype Item = Item(id: string, description: string, quantity: int, price: real)

  /** A field-level edit, as the three `onChange` handlers of a row issue it. */
  datatype Edit =
    | SetDescription(text: string)
    | SetQuantity(newQuantity: int)
    | SetPrice(newPrice: real)

  /** The amount of one row: quantity times unit price. */
  function Amount(it: Item): real
  {
    it.quantity as real * it.price
  }

  /** The row the "add item" button appends. */
  function NewItem(id: string): Item
  {
    Item(id, "", 1, 0.0)
  }

  /** The table the component starts with: one default row with id "1". */
  const INITIAL_ITEMS: seq<Item> := [Item("1", "", 1, 0.0)]

  predicate HasId(s: seq<Item>, id: string)
  {
    exists i | 0 <= i < |s| :: s[i].id == id
  }

  /** No two rows share an id. */
  predicate UniqueIds(s: seq<Item>)
  {
    forall i, j | 0 <= i < j < |s| :: s[i].id != s[j].id
  }

  // ---------------------------------------------------------------- addItem

  /** `[...items, { id, description: '', quantity: 1, price: 0 }]` */
  function WithNewItem(s: seq<Item>, id: string): (r: seq<Item>)
    ensures |r| == |s| + 1
    ensures r[..|s|] == s
    ensures r[|s|].id == id && r[|s|].description == ""
    ensures r[|s|].quantity == 1 && r[|s|].price == 0.0
  {
    s + [NewItem(id)]
  }

  lemma WithNewItemKeepsUnique(s: seq<Item>, id: string)
    requires UniqueIds(s) && !HasId(s, id)
    ensures UniqueIds(WithNewItem(s, id))
    ensures HasId(WithNewItem(s, id), id)
  {
  }

  /** The appended row contributes 1 × 0, so the total does not move. */
  lemma WithNewItemKeepsTotal(s: seq<Item>, id: string)
    ensures Total(WithNewItem(s, id)) == Total(s)
  {
    SumConcat(s, [NewItem(id)]);
  }

  // ------------------------------------------------------------- removeItem

  /** `items.filter(item => item.id !== id)` */
  function WithoutId(s: seq<Item>, id: string): (r: seq<Item>)
    ensures |r| <= |s|
    ensures forall x :: x in r <==> x in s && x.id != id
    ensures !HasId(r, id)
  {
    if s == [] then []
    else if s[0].id == id then WithoutId(s[1..], id)
    else [s[0]] + WithoutId(s[1..], id)
  }

  /** Filtering distributes over concatenation, so the relative order of the kept rows is
      the original one. */
  lemma {:induction false} WithoutIdConcat(a: seq<Item>, b: seq<Item>, id: string)
    ensures WithoutId(a + b, id) == WithoutId(a, id) + WithoutId(b, id)
  {
    if a == [] {
      assert a + b == b;
    } else {
      assert (a + b)[0] == a[0];
      assert (a + b)[1..] == a[1..] + b;
      WithoutIdConcat(a[1..], b, id);
    }
  }

  /** Removing an id that is not in the table leaves it unchanged. */
  lemma {:induction false} WithoutAbsentId(s: seq<Item>, id: string)
    requires !HasId(s, id)
    ensures WithoutId(s, id) == s
  {
    if s != [] {
      assert s[0].id != id;
      assert !HasId(s[1..], id) by {
        forall i | 0 <= i < |s[1..]| ensures s[1..][i].id != id {
          assert s[1..][i] == s[i + 1];
        }
      }
      WithoutAbsentId(s[1..], id);
      assert s == [s[0]] + s[1..];
    }
  }

  /** With unique ids, removing the id of row k removes exactly that row and keeps the
      others in order: the table shrinks by exactly one. */
  lemma WithoutPresentId(s: seq<Item>, k: int)
    requires UniqueIds(s) && 0 <= k < |s|
    ensures WithoutId(s, s[k].id) == s[..k] + s[k + 1..]
    ensures |WithoutId(s, s[k].id)| == |s| - 1
  {
    var id := s[k].id;
    var pre, post := s[..k], s[k + 1..];
    assert s == pre + ([s[k]] + post);
    WithoutIdConcat(pre, [s[k]] + post, id);
    WithoutIdConcat([s[k]], post, id);
    assert !HasId(pre, id) by {
      forall i | 0 <= i < |pre| ensures pre[i].id != id {
        assert pre[i] == s[i];
      }
    }
    assert !HasId(post, id) by {
      forall i | 0 <= i < |post| ensures post[i].id != id {
        assert post[i] == s[k + 1 + i];
      }
    }
    WithoutAbsentId(pre, id);
    WithoutAbsentId(post, id);
    assert [s[k]][1..] == [];
  }

  /** Removing a present row lowers the total by exactly that row's amount. */
  lemma WithoutPresentIdTotal(s: seq<Item>, k: int)
    requires UniqueIds(s) && 0 <= k < |s|
    ensures Total(WithoutId(s, s[k].id)) == Total(s) - Amount(s[k])
  {
    WithoutPresentId(s, k);
    SumAround(s, k);
    SumConcat(s[..k], s[k + 1..]);
  }

  /** Filtering never introduces a duplicate id. */
  lemma {:induction false} WithoutIdKeepsUnique(s: seq<Item>, id: string)
    requires UniqueIds(s)
    ensures UniqueIds(WithoutId(s, id))
  {
    if s != [] {
      var tail := s[1..];
      assert UniqueIds(tail) by {
        forall i, j | 0 <= i < j < |tail| ensures tail[i].id != tail[j].id {
          assert tail[i] == s[i + 1] && tail[j] == s[j + 1];
        }
      }
      WithoutIdKeepsUnique(tail, id);
      if s[0].id != id {
        var rest := WithoutId(tail, id);
        var r := [s[0]] + rest;
        forall j | 0 <= j < |rest| ensures rest[j].id != s[0].id {
          assert rest[j] in tail;
          var m :| 0 <= m < |tail| && tail[m] == rest[j];
          assert s[m + 1] == rest[j];
        }
        forall i, j | 0 <= i < j < |r| ensures r[i].id != r[j].id {
          assert r[j] == rest[j - 1];
          if i > 0 {
            assert r[i] == rest[i - 1];
          }
        }
      }
    }
  }

  // ------------------------------------------------------------- updateItem

  /** `{ ...item, [field]: value }`: only the edited field changes. */
  function Apply(it: Item, e: Edit): (r: Item)
    ensures r.id == it.id
    ensures r.description == if e.SetDescription? then e.text else it.description
    ensures r.quantity == if e.SetQuantity? then e.newQuantity else it.quantity
    ensures r.price == if e.SetPrice? then e.newPrice else it.price
  {
    match e
    case SetDescription(d) => it.(description := d)
    case SetQuantity(q) => it.(quantity := q)
    case SetPrice(p) => it.(price := p)
  }

  /** `items.map(item => item.id === id ? { ...item, [field]: value } : item)`:
      same length, and row by row either the edited row or the row unchanged. */
  function WithEdit(s: seq<Item>, id: string, e: Edit): (r: seq<Item>)
    ensures |r| == |s|
    ensures forall i :: 0 <= i < |s| ==>
      r[i] == if s[i].id == id then Apply(s[i], e) else s[i]
  {
    if s == [] then []
    else [if s[0].id == id then Apply(s[0], e) else s[0]] + WithEdit(s[1..], id, e)
  }

  /** Editing never changes an id, so ids stay unique, and an unmatched id is a no-op. */
  lemma WithEditKeepsIds(s: seq<Item>, id: string, e: Edit)
    ensures forall i :: 0 <= i < |s| ==> WithEdit(s, id, e)[i].id == s[i].id
    ensures UniqueIds(s) ==> UniqueIds(WithEdit(s, id, e))
    ensures !HasId(s, id) ==> WithEdit(s, id, e) == s
  {
  }

  /** With unique ids, editing row k's id replaces row k and nothing else. */
  lemma WithEditPresentId(s: seq<Item>, k: int, e: Edit)
    requires UniqueIds(s) && 0 <= k < |s|
    ensures WithEdit(s, s[k].id, e) == s[..k] + [Apply(s[k], e)] + s[k + 1..]
  {
  }

  /** Editing row k changes the total by the difference of its old and new amount. */
  lemma WithEditPresentIdTotal(s: seq<Item>, k: int, e: Edit)
    requires UniqueIds(s) && 0 <= k < |s|
    ensures Total(WithEdit(s, s[k].id, e)) == Total(s) - Amount(s[k]) + Amount(Apply(s[k], e))
  {
    WithEditPresentId(s, k, e);
    SumAround(s, k);
    SumConcat(s[..k] + [Apply(s[k], e)], s[k + 1..]);
    SumConcat(s[..k], [Apply(s[k], e)]);
  }

  /** Editing a description never changes the total, whatever the ids. */
  lemma {:induction false} DescriptionEditKeepsTotal(s: seq<Item>, id: string, text: string)
    ensures Total(WithEdit(s, id, SetDescription(text))) == Total(s)
  {
    if s != [] {
      var r := WithEdit(s, id, SetDescription(text));
      DescriptionEditKeepsTotal(s[1..], id, text);
      assert r[1..] == WithEdit(s[1..], id, SetDescription(text));
      assert Amount(r[0]) == Amount(s[0]);
    }
  }

  // ---------------------------------------------------------- calculateTotal

  /** `items.reduce((total, item) => total + item.quantity * item.price, acc)`:
      a left fold from the accumulator. */
  function Fold(acc: real, s: seq<Item>): real
    decreases |s|
  {
    if s == [] then acc else Fold(acc + Amount(s[0]), s[1..])
  }

  /** The sum of the row amounts, as a reference definition independent of the fold. */
  function Sum(s: seq<Item>): real
  {
    if s == [] then 0.0 else Amount(s[0]) + Sum(s[1..])
  }

  lemma {:induction false} FoldIsSum(acc: real, s: seq<Item>)
    ensures Fold(acc, s) == acc + Sum(s)
    decreases |s|
  {
    if s != [] {
      FoldIsSum(acc + Amount(s[0]), s[1..]);
    }
  }

  lemma {:induction false} SumConcat(a: seq<Item>, b: seq<Item>)
    ensures Sum(a + b) == Sum(a) + Sum(b)
  {
    if a == [] {
      assert a + b == b;
    } else {
      assert (a + b)[0] == a[0];
      assert (a + b)[1..] == a[1..] + b;
      SumConcat(a[1..], b);
    }
  }

  /** Row k's amount splits the sum into the rows before and after it. */
  lemma SumAround(s: seq<Item>, k: int)
    requires 0 <= k < |s|
    ensures Sum(s) == Sum(s[..k]) + Amount(s[k]) + Sum(s[k + 1..])
  {
    assert s == s[..k] + ([s[k]] + s[k + 1..]);
    SumConcat(s[..k], [s[k]] + s[k + 1..]);
    SumConcat([s[k]], s[k + 1..]);
    assert [s[k]][1..] == [];
  }

  /** `calculateTotal()`: the fold from 0 equals the sum of quantity × price over the rows,
      so it is 0 for the empty table. */
  function Total(s: seq<Item>): (t: real)
    ensures t == Sum(s)
    ensures s == [] ==> t == 0.0
  {
    FoldIsSum(0.0, s);
    Fold(0.0, s)
  }

  /** The initial table has unique ids and a zero total. */
  lemma InitialItems()
    ensures UniqueIds(INITIAL_ITEMS) && HasId(INITIAL_ITEMS, "1")
    ensures Total(INITIAL_ITEMS) == 0.0
  {
    assert INITIAL_ITEMS[0].id == "1";
    assert INITIAL_ITEMS[1..] == [];
  }

  // ------------------------------------------------- quantity and price input

  /** `parseInt(value) || 0`, where `parsed` is the result of `parseInt` (None for NaN):
      `||` keeps the left operand when it is truthy, that is neither NaN nor 0. */
  function QuantityFromInput(parsed: Option<int>): (q: int)
    ensures q == if parsed.None? then 0 else parsed.value
  {
    if parsed.Some? && parsed.value != 0 then parsed.value else 0
  }

  /** `parseFloat(value) || 0`, with `parsed` the result of `parseFloat` (None for NaN). */
  function PriceFromInput(parsed: Option<real>): (p: real)
    ensures p == if parsed.None? then 0.0 else parsed.value
  {
    if parsed.Some? && parsed.value != 0.0 then parsed.value else 0.0
  }
}
