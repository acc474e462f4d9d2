/** The cart page: quantity controls that call the provider's update, a
    confirmed removal, the set of line ids with a request in flight, which
    screen is shown, and the two aggregates of the summary panel. */
module CartPage {
  import opened Remote
  import opened Entities
  import opened CartContext
  import opened Inputs

  /** The three quantity controls of one line. `Typed` carries the result of
      `parseInt` on the field's text (`None` for NaN). */
  datatype Control = Minus | Plus | Typed(parsed: Option<int>)

  /** The quantity a control hands to `handleUpdateQuantity`. */
  function Requested(control: Control, current: int): (q: int)
    ensures control == Minus ==> q == current - 1
    ensures control == Plus ==> q == current + 1
    ensures control.Typed? ==> q == TypedValue(control.parsed) && q != 0
  {
    match control
    case Minus => current - 1
    case Plus => current + 1
    case Typed(parsed) => TypedValue(parsed)
  }

  /** The quantity actually sent to the provider: anything below 1 is
      dropped by the handler's guard. Minus from 1 sends nothing, Plus is not
      bounded by stock on this page, and unreadable or zero text sends 1. */
  function SentQuantity(control: Control, current: int): (sent: Option<int>)
    ensures sent.Some? ==> sent.value >= 1
    ensures control == Minus ==> (sent.Some? <==> current >= 2) && (sent.Some? ==> sent.value == current - 1)
    ensures control == Plus ==> (sent.Some? <==> current >= 0) && (sent.Some? ==> sent.value == current + 1)
    ensures control.Typed? ==>
      sent == (if control.parsed.None? || control.parsed == Some(0) then Some(1)
               else if control.parsed.value >= 1 then Some(control.parsed.value)
               else None)
  {
    var q := Requested(control, current);
    if q < 1 then None else Some(q)
  }

  /** On a line holding at least one unit, Plus then Minus sends the
      starting quantity back, and Minus sends nothing exactly at 1. */
  lemma StepsKeepQuantityPositive(current: int)
    requires current >= 1
    ensures SentQuantity(Plus, current) == Some(current + 1)
    ensures SentQuantity(Minus, current + 1) == Some(current)
    ensures current == 1 <==> SentQuantity(Minus, current).None?
  {
  }

  /** What the page renders, checked in the source's order. */
  datatype Screen = LoginPrompt | Spinner | EmptyCart | ItemList

  function CartScreen(authenticated: bool, isLoading: bool, items: seq<CartItem>): (screen: Screen)
    ensures screen == LoginPrompt <==> !authenticated
    ensures screen == Spinner <==> authenticated && isLoading
    ensures screen == EmptyCart <==> authenticated && !isLoading && |items| == 0
    ensures screen == ItemList <==> authenticated && !isLoading && |items| > 0
  {
    if !authenticated then LoginPrompt
    else if isLoading then Spinner
    else if |items| == 0 then EmptyCart
    else ItemList
  }

  /** "Total Qty": `items.reduce((sum, item) => sum + item.quantity, 0)`, a
      left fold. */
  function TotalQty(items: seq<CartItem>): (total: int)
    ensures (forall i :: 0 <= i < |items| ==> items[i].quantity >= 0) ==> total >= 0
    ensures (forall i :: 0 <= i < |items| ==> items[i].quantity >= 1) ==> total >= |items|
  {
    if items == [] then 0
    else TotalQty(items[..|items| - 1]) + items[|items| - 1].quantity
  }

  /** The fold adds up piecewise. */
  lemma {:induction false} TotalQtyConcat(a: seq<CartItem>, b: seq<CartItem>)
    ensures TotalQty(a + b) == TotalQty(a) + TotalQty(b)
    decreases |b|
  {
    if b == [] {
      assert a + b == a;
    } else {
      var c := b[..|b| - 1];
      assert (a + b)[..|a + b| - 1] == a + c;
      TotalQtyConcat(a, c);
    }
  }

  /** Removing a line never raises "Total Qty" while quantities are not
      negative. */
  lemma {:induction false} TotalQtyWithout(items: seq<CartItem>, itemId: string)
    requires forall i :: 0 <= i < |items| ==> items[i].quantity >= 0
    ensures TotalQty(Without(items, itemId)) <= TotalQty(items)
  {
    if items != [] {
      var rest := items[1..];
      assert items == [items[0]] + rest;
      TotalQtyWithout(rest, itemId);
      TotalQtyConcat([items[0]], rest);
      assert TotalQty([items[0]]) == items[0].quantity by {
        assert [items[0]][..0] == [];
      }
      if items[0].id != itemId {
        TotalQtyConcat([items[0]], Without(rest, itemId));
      }
    }
  }

  /** The page's own state: ids with an update or removal in flight. */
  class CartPageView {
    var updating: set<string>

    constructor ()
      ensures updating == {}
    {
      updating := {};
    }

    method MarkUpdating(itemId: string)
      modifies this
      ensures updating == old(updating) + {itemId}
    {
      updating := updating + {itemId};
    }

    method UnmarkUpdating(itemId: string)
      modifies this
      ensures updating == old(updating) - {itemId}
    {
      updating := updating - {itemId};
    }

    /** `handleUpdateQuantity`: below 1 nothing happens; otherwise the id is
        marked, the provider's update runs, and the id is unmarked whether it
        succeeded or not; other ids keep their mark. A rejection is passed
        on. */
    method HandleUpdateQuantity(itemId: string, newQuantity: int, cart: CartProvider,
                                authenticated: bool, updated: Call<()>, fetched: Call<CartSummary>)
      returns (request: Option<LineRequest>, thrown: Option<ApiError>, ghost markedDuring: set<string>)
      modifies this, cart
      ensures request == if newQuantity >= 1 then Some(LineRequest(itemId, newQuantity)) else None
      ensures request.None? ==> updating == old(updating) && cart.State() == old(cart.State()) && thrown == None
      ensures request.Some? ==> markedDuring == old(updating) + {itemId}
      ensures request.Some? ==> updating == old(updating) - {itemId}
      ensures request.Some? ==> Outcome(cart.State(), thrown) == AfterUpdate(old(cart.State()), authenticated, updated, fetched)
    {
      markedDuring := updating;
      if newQuantity < 1 {
        return None, None, markedDuring;
      }
      MarkUpdating(itemId);
      markedDuring := updating;
      var sent;
      thrown, sent := cart.UpdateItem(itemId, newQuantity, authenticated, updated, fetched);
      request := Some(sent);
      assert updating == markedDuring;
      UnmarkUpdating(itemId);
    }

    /** `handleRemove`: only a confirmed removal reaches the provider, with
        the same marking as an update. */
    method HandleRemove(itemId: string, confirmed: bool, cart: CartProvider,
                        authenticated: bool, removed: Call<()>, fetched: Call<CartSummary>)
      returns (thrown: Option<ApiError>, ghost markedDuring: set<string>)
      modifies this, cart
      ensures !confirmed ==> updating == old(updating) && cart.State() == old(cart.State()) && thrown == None
      ensures confirmed ==> markedDuring == old(updating) + {itemId}
      ensures confirmed ==> updating == old(updating) - {itemId}
      ensures confirmed ==> Outcome(cart.State(), thrown) == AfterRemove(old(cart.State()), authenticated, itemId, removed, fetched)
    {
      thrown, markedDuring := None, updating;
      if confirmed {
        MarkUpdating(itemId);
        markedDuring := updating;
        thrown := cart.RemoveItem(itemId, authenticated, removed, fetched);
        assert updating == markedDuring;
        UnmarkUpdating(itemId);
      }
    }
  }
}
