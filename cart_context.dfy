/**
 * The cart store of the front end: the `cartReducer` and the provider that
 * holds its state and dispatches `add-item`, `remove-item` and `clear-cart`.
 */
module CartContext {

  /** A listed price. The reducer copies it and never computes with it. */
  datatype Price = Price(literal: string)

  /** What `addItem` receives: a meal of the menu, or a line already in the cart. */
  datatype Item = Item(id: string, name: string, price: Price)

  /** One line of the cart. */
  datatype Line = Line(id: string, name: string, price: Price, quantity: int)

  /** The reducer state `{ items }`. */
  datatype CartState = CartState(items: seq<Line>)

  /**
   * A dispatched action, by its `type` tag: `add-item` with an item,
   * `remove-item` with an id, `clear-cart`, and any other tag.
   */
  datatype Action = Add(item: Item) | Remove(id: string) | Clear | Other

  predicate Contains(items: seq<Line>, id: string)
  {
    exists k :: 0 <= k < |items| && items[k].id == id
  }

  /** No two lines share an id. */
  predicate UniqueIds(items: seq<Line>)
  {
    forall i, j :: 0 <= i < j < |items| ==> items[i].id != items[j].id
  }

  /** Every line holds at least one unit. */
  predicate PositiveQuantities(items: seq<Line>)
  {
    forall i :: 0 <= i < |items| ==> items[i].quantity >= 1
  }

  /** The shape every reachable cart has. */
  predicate ValidCart(items: seq<Line>)
  {
    UniqueIds(items) && PositiveQuantities(items)
  }

  /** `items.findIndex(item => item.id === id)`: the first matching index, or -1. */
  function FindIndex(items: seq<Line>, id: string): (r: int)
    ensures -1 <= r < |items|
    ensures r == -1 <==> !Contains(items, id)
    ensures r >= 0 ==> items[r].id == id
    ensures r >= 0 ==> forall j :: 0 <= j < r ==> items[j].id != id
  {
    if items == [] then -1
    else if items[0].id == id then 0
    else
      var r := FindIndex(items[1..], id);
      assert forall k :: 1 <= k < |items| ==> items[k] == items[1..][k - 1];
      if r == -1 then -1 else r + 1
  }

  /** The line pushed for an item not yet in the cart: `{ ...item, quantity: 1 }`. */
  function NewLine(item: Item): (line: Line)
  {
    Line(item.id, item.name, item.price, 1)
  }

  /** The `add-item` branch: merge with the line of the same id, or append. */
  function AddLine(items: seq<Line>, item: Item): (r: seq<Line>)
  {
    var i := FindIndex(items, item.id);
    if i > -1 then
      var existing := items[i];
      items[i := existing.(quantity := existing.quantity + 1)]
    else
      items + [NewLine(item)]
  }

  /**
   * The `remove-item` branch. `cartReducer` indexes the copied items with the
   * result of `findIndex`, so an absent id reads index -1 and throws; the id
   * being present is therefore demanded of the caller. A line whose quantity
   * is neither above 1 nor exactly 1 is left as it is.
   */
  function RemoveLine(items: seq<Line>, id: string): (r: seq<Line>)
    requires Contains(items, id)
  {
    var i := FindIndex(items, id);
    var existing := items[i];
    if existing.quantity > 1 then
      items[i := existing.(quantity := existing.quantity - 1)]
    else if existing.quantity == 1 then
      items[..i] + items[i + 1..]
    else
      items
  }

  /** What the reducer demands of an action: a `remove-item` id must be in the cart. */
  predicate Dispatchable(state: CartState, action: Action)
  {
    action.Remove? ==> Contains(state.items, action.id)
  }

  /** `cartReducer(state, action)`. */
  function Reduce(state: CartState, action: Action): (r: CartState)
    requires Dispatchable(state, action)
  {
    match action
    case Add(item) => state.(items := AddLine(state.items, item))
    case Remove(id) => state.(items := RemoveLine(state.items, id))
    case Clear => state.(items := [])
    case Other => state
  }

  /** Each action, in turn, is dispatchable in the state the previous ones left. */
  predicate DispatchableAll(state: CartState, actions: seq<Action>)
    decreases |actions|
  {
    actions == [] ||
    (Dispatchable(state, actions[0]) && DispatchableAll(Reduce(state, actions[0]), actions[1..]))
  }

  /** The state `useReducer` holds after the actions are dispatched one by one. */
  function ReduceAll(state: CartState, actions: seq<Action>): (r: CartState)
    requires DispatchableAll(state, actions)
    decreases |actions|
  {
    if actions == [] then state else ReduceAll(Reduce(state, actions[0]), actions[1..])
  }

  /** The first index holding an id is what `findIndex` returns. */
  lemma FindIndexIs(items: seq<Line>, id: string, i: nat)
    requires i < |items| && items[i].id == id
    requires forall j :: 0 <= j < i ==> items[j].id != id
    ensures FindIndex(items, id) == i
  {
    assert Contains(items, id);
  }

  // ---------------------------------------------------------------------------
  // add-item

  /** An id already present: that line gains one unit in place, all else stays. */
  lemma AddItemMerges(items: seq<Line>, item: Item, i: nat)
    requires i < |items| && items[i].id == item.id
    requires forall j :: 0 <= j < i ==> items[j].id != item.id
    ensures |AddLine(items, item)| == |items|
    ensures AddLine(items, item)[i] == items[i].(quantity := items[i].quantity + 1)
    ensures forall k :: 0 <= k < |items| && k != i ==> AddLine(items, item)[k] == items[k]
  {
    FindIndexIs(items, item.id, i);
  }

  /** An absent id: a fresh line of quantity 1 goes at the end, earlier lines stay. */
  lemma AddItemAppends(items: seq<Line>, item: Item)
    requires !Contains(items, item.id)
    ensures |AddLine(items, item)| == |items| + 1
    ensures AddLine(items, item)[..|items|] == items
    ensures AddLine(items, item)[|items|] == Line(item.id, item.name, item.price, 1)
  {
  }

  /** After `add-item` the id is in the cart. */
  lemma AddItemContains(items: seq<Line>, item: Item)
    ensures Contains(AddLine(items, item), item.id)
  {
    var i := FindIndex(items, item.id);
    if i > -1 {
      assert AddLine(items, item)[i].id == item.id;
    } else {
      assert AddLine(items, item)[|items|].id == item.id;
    }
  }

  /** `add-item` never creates a second line for an id, and every quantity stays at least 1. */
  lemma AddItemKeepsValid(items: seq<Line>, item: Item)
    requires ValidCart(items)
    ensures ValidCart(AddLine(items, item))
  {
    var r := AddLine(items, item);
    var i := FindIndex(items, item.id);
    if i == -1 {
      forall a, b | 0 <= a < b < |r| ensures r[a].id != r[b].id {
        if b == |items| {
          assert r[a] == items[a];
        }
      }
    }
  }

  // ---------------------------------------------------------------------------
  // remove-item

  /** A line holding more than one unit loses one unit in place, all else stays. */
  lemma RemoveItemDecrements(items: seq<Line>, id: string, i: nat)
    requires i < |items| && items[i].id == id && items[i].quantity > 1
    requires forall j :: 0 <= j < i ==> items[j].id != id
    ensures |RemoveLine(items, id)| == |items|
    ensures RemoveLine(items, id)[i] == items[i].(quantity := items[i].quantity - 1)
    ensures forall k :: 0 <= k < |items| && k != i ==> RemoveLine(items, id)[k] == items[k]
  {
    FindIndexIs(items, id, i);
  }

  /** A line holding exactly one unit is deleted; the others keep their order. */
  lemma RemoveItemDeletes(items: seq<Line>, id: string, i: nat)
    requires i < |items| && items[i].id == id && items[i].quantity == 1
    requires forall j :: 0 <= j < i ==> items[j].id != id
    ensures |RemoveLine(items, id)| == |items| - 1
    ensures forall k :: 0 <= k < i ==> RemoveLine(items, id)[k] == items[k]
    ensures forall k :: i <= k < |items| - 1 ==> RemoveLine(items, id)[k] == items[k + 1]
  {
    FindIndexIs(items, id, i);
  }

  /** With unique ids, deleting the last unit of a line removes the id from the cart. */
  lemma RemoveLastUnitRemovesId(items: seq<Line>, id: string)
    requires ValidCart(items) && Contains(items, id)
    requires items[FindIndex(items, id)].quantity == 1
    ensures !Contains(RemoveLine(items, id), id)
  {
    var i := FindIndex(items, id);
    var r := RemoveLine(items, id);
    forall k | 0 <= k < |r| ensures r[k].id != id {
      if k < i {
        assert r[k] == items[k];
      } else {
        assert r[k] == items[k + 1];
      }
    }
  }

  /** `remove-item` keeps ids unique and every quantity at least 1. */
  lemma RemoveItemKeepsValid(items: seq<Line>, id: string)
    requires ValidCart(items) && Contains(items, id)
    ensures ValidCart(RemoveLine(items, id))
  {
    var i := FindIndex(items, id);
    var r := RemoveLine(items, id);
    if items[i].quantity == 1 {
      assert forall k :: 0 <= k < |r| ==> r[k] == items[if k < i then k else k + 1];
    }
  }

  /** `add-item` followed by `remove-item` of the same id restores the cart exactly. */
  lemma AddThenRemoveRestores(items: seq<Line>, item: Item)
    requires PositiveQuantities(items)
    ensures Contains(AddLine(items, item), item.id)
    ensures RemoveLine(AddLine(items, item), item.id) == items
  {
    AddItemContains(items, item);
    var i := FindIndex(items, item.id);
    var added := AddLine(items, item);
    if i > -1 {
      FindIndexIs(added, item.id, i);
      assert added[i].quantity > 1;
    } else {
      FindIndexIs(added, item.id, |items|);
      assert added[..|items|] == items;
    }
  }

  // ---------------------------------------------------------------------------
  // the reducer as a whole

  /** Every action keeps the cart valid. */
  lemma ReduceKeepsValid(state: CartState, action: Action)
    requires ValidCart(state.items) && Dispatchable(state, action)
    ensures ValidCart(Reduce(state, action).items)
  {
    match action
    case Add(item) => AddItemKeepsValid(state.items, item);
    case Remove(id) => RemoveItemKeepsValid(state.items, id);
    case Clear =>
    case Other =>
  }

  /** `clear-cart` empties the items and an unknown action returns the state as it is. */
  lemma ClearAndUnknownActions(state: CartState)
    ensures Reduce(state, Clear).items == []
    ensures Reduce(state, Other) == state
  {
  }

  /** Any dispatch sequence that starts from a valid cart ends in a valid cart. */
  lemma {:induction false} ReduceAllKeepsValid(state: CartState, actions: seq<Action>)
    requires ValidCart(state.items) && DispatchableAll(state, actions)
    ensures ValidCart(ReduceAll(state, actions).items)
    decreases |actions|
  {
    if actions != [] {
      ReduceKeepsValid(state, actions[0]);
      ReduceAllKeepsValid(Reduce(state, actions[0]), actions[1..]);
    }
  }

  // ---------------------------------------------------------------------------
  // the provider

  /**
   * `CartContextProvider`: the state held by `useReducer`, replaced by the
   * reducer's result on every dispatch.
   */
  class CartProvider {
    var cart: CartState

    ghost predicate Valid()
      reads this
    {
      ValidCart(cart.items)
    }

    /** `useReducer(cartReducer, { items: [] })`. */
    constructor ()
      ensures Valid() && cart.items == []
    {
      cart := CartState([]);
    }

    /** `addItem(item)`: dispatch `{ type: "add-item", item }`. */
    method AddItem(item: Item)
      requires Valid()
      modifies this
      ensures Valid()
      ensures cart == Reduce(old(cart), Add(item))
      ensures Contains(cart.items, item.id)
    {
      AddItemKeepsValid(cart.items, item);
      AddItemContains(cart.items, item);
      cart := Reduce(cart, Add(item));
    }

    /** `removeItem(id)`: dispatch `{ type: "remove-item", id }`; the id must be in the cart. */
    method RemoveItem(id: string)
      requires Valid() && Contains(cart.items, id)
      modifies this
      ensures Valid()
      ensures cart == Reduce(old(cart), Remove(id))
    {
      RemoveItemKeepsValid(cart.items, id);
      cart := Reduce(cart, Remove(id));
    }

    /** `clearCart()`: dispatch `{ type: "clear-cart" }`. */
    method ClearCart()
      requires Valid()
      modifies this
      ensures Valid() && cart.items == []
      ensures cart == Reduce(old(cart), Clear)
    {
      cart := Reduce(cart, Clear);
    }
  }
}
