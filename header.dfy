/**
 * The header's cart badge: `totalItems`, the sum of the cart lines'
 * quantities, and how each reducer action moves it.
 */
module Header {

  import opened CartContext

  /** `items.reduce((total, item) => total + item.quantity, 0)`, folded from the left. */
  function TotalItems(items: seq<Line>): (total: int)
  {
    if items == [] then 0 else TotalItems(items[..|items| - 1]) + items[|items| - 1].quantity
  }

  /** The count of a concatenation is the sum of the counts. */
  lemma {:induction false} TotalItemsAppend(a: seq<Line>, b: seq<Line>)
    ensures TotalItems(a + b) == TotalItems(a) + TotalItems(b)
    decreases |b|
  {
    if b == [] {
      assert a + b == a;
    } else {
      var c := b[..|b| - 1];
      assert (a + b)[..|a + b| - 1] == a + c;
      TotalItemsAppend(a, c);
      assert b[..|b| - 1] == c;
    }
  }

  /** The count of one line is its quantity. */
  lemma TotalItemsSingle(line: Line)
    ensures TotalItems([line]) == line.quantity
  {
    assert [line][..0] == [];
  }

  /** Replacing one line changes the count by the difference of the quantities. */
  lemma TotalItemsUpdate(items: seq<Line>, i: nat, line: Line)
    requires i < |items|
    ensures TotalItems(items[i := line]) == TotalItems(items) - items[i].quantity + line.quantity
  {
    assert items == items[..i] + [items[i]] + items[i + 1..];
    assert items[i := line] == items[..i] + [line] + items[i + 1..];
    TotalItemsAppend(items[..i] + [items[i]], items[i + 1..]);
    TotalItemsAppend(items[..i], [items[i]]);
    TotalItemsAppend(items[..i] + [line], items[i + 1..]);
    TotalItemsAppend(items[..i], [line]);
    TotalItemsSingle(items[i]);
    TotalItemsSingle(line);
  }

  /** Deleting one line takes its quantity off the count. */
  lemma TotalItemsDelete(items: seq<Line>, i: nat)
    requires i < |items|
    ensures TotalItems(items[..i] + items[i + 1..]) == TotalItems(items) - items[i].quantity
  {
    assert items == items[..i] + [items[i]] + items[i + 1..];
    TotalItemsAppend(items[..i] + [items[i]], items[i + 1..]);
    TotalItemsAppend(items[..i], [items[i]]);
    TotalItemsAppend(items[..i], items[i + 1..]);
    TotalItemsSingle(items[i]);
  }

  /** Every line counts at least once, so the badge is at least the number of lines. */
  lemma {:induction false} TotalItemsAtLeastLines(items: seq<Line>)
    requires PositiveQuantities(items)
    ensures TotalItems(items) >= |items|
    ensures TotalItems(items) == 0 <==> items == []
    decreases |items|
  {
    if items != [] {
      var init := items[..|items| - 1];
      assert PositiveQuantities(init) by {
        assert forall k :: 0 <= k < |init| ==> init[k] == items[k];
      }
      TotalItemsAtLeastLines(init);
    }
  }

  /** `add-item` raises the count by exactly one, whether it merges or appends. */
  lemma AddItemIncrementsTotal(items: seq<Line>, item: Item)
    ensures TotalItems(AddLine(items, item)) == TotalItems(items) + 1
  {
    var i := FindIndex(items, item.id);
    if i > -1 {
      TotalItemsUpdate(items, i, items[i].(quantity := items[i].quantity + 1));
    } else {
      TotalItemsAppend(items, [NewLine(item)]);
      TotalItemsSingle(NewLine(item));
    }
  }

  /** `remove-item` on a present id lowers the count by exactly one. */
  lemma RemoveItemDecrementsTotal(items: seq<Line>, id: string)
    requires PositiveQuantities(items) && Contains(items, id)
    ensures TotalItems(RemoveLine(items, id)) == TotalItems(items) - 1
  {
    var i := FindIndex(items, id);
    if items[i].quantity > 1 {
      var reduced := items[i].(quantity := items[i].quantity - 1);
      assert RemoveLine(items, id) == items[i := reduced];
      TotalItemsUpdate(items, i, reduced);
    } else {
      assert items[i].quantity == 1;
      assert RemoveLine(items, id) == items[..i] + items[i + 1..];
      TotalItemsDelete(items, i);
    }
  }

  /** `clear-cart` brings the count to zero. */
  lemma ClearCartZeroesTotal(state: CartState)
    ensures TotalItems(Reduce(state, Clear).items) == 0
  {
  }

  /** `add-item` actions in a dispatch sequence. */
  function Adds(actions: seq<Action>): (n: nat)
  {
    if actions == [] then 0 else (if actions[0].Add? then 1 else 0) + Adds(actions[1..])
  }

  /** `remove-item` actions in a dispatch sequence. */
  function Removes(actions: seq<Action>): (n: nat)
  {
    if actions == [] then 0 else (if actions[0].Remove? then 1 else 0) + Removes(actions[1..])
  }

  /**
   * Over any sequence of `add-item` and `remove-item` dispatches from a valid
   * cart (each removal naming an id then in the cart), the count moves by the
   * number of additions minus the number of removals.
   */
  lemma {:induction false} NetTotalOfDispatches(state: CartState, actions: seq<Action>)
    requires ValidCart(state.items) && DispatchableAll(state, actions)
    requires forall k :: 0 <= k < |actions| ==> actions[k].Add? || actions[k].Remove?
    ensures TotalItems(ReduceAll(state, actions).items)
         == TotalItems(state.items) + Adds(actions) - Removes(actions)
    decreases |actions|
  {
    if actions != [] {
      var next := Reduce(state, actions[0]);
      if actions[0].Add? {
        AddItemIncrementsTotal(state.items, actions[0].item);
      } else {
        RemoveItemDecrementsTotal(state.items, actions[0].id);
      }
      ReduceKeepsValid(state, actions[0]);
      assert forall k :: 0 <= k < |actions[1..]| ==> actions[1..][k] == actions[k + 1];
      NetTotalOfDispatches(next, actions[1..]);
    }
  }
}
