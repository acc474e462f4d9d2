/** The cart provider: the local list of cart lines and the fetched summary,
    changed by refresh, add, update, remove and clear. Every mutation makes one
    call to the cart client; a rejected call leaves the local state as it was
    and is rethrown to the caller. */
module CartContext {
  import opened Remote
  import opened Entities

  /** The provider's state: `items`, `summary` and `isLoading`. */
  datatype CartState = CartState(items: seq<CartItem>, summary: Option<CartSummary>, isLoading: bool)

  /** The state a handler leaves behind and the error it rethrew, if any. */
  datatype Outcome = Outcome(state: CartState, thrown: Option<ApiError>)

  /** What `addItem` and `updateItem` hand to the cart client: the material
      (or line) id and the quantity. */
  datatype LineRequest = LineRequest(id: string, quantity: int)

  /** The provider's initial state: no lines, no summary, not loading. */
  const Initial := CartState([], None, false)

  /** `items.filter(item => item.id !== itemId)`. */
  function Without(items: seq<CartItem>, itemId: string): (kept: seq<CartItem>)
    ensures |kept| <= |items|
    ensures forall x :: x in kept <==> x in items && x.id != itemId
    ensures forall x: CartItem :: x.id != itemId ==> multiset(kept)[x] == multiset(items)[x]
    ensures (forall i :: 0 <= i < |items| ==> items[i].id != itemId) ==> kept == items
  {
    if items == [] then []
    else
      var rest := Without(items[1..], itemId);
      assert items == [items[0]] + items[1..];
      if items[0].id != itemId then [items[0]] + rest else rest
  }

  /** Filtering distributes over concatenation, so the kept lines stay in
      their original order. */
  lemma {:induction false} WithoutConcat(a: seq<CartItem>, b: seq<CartItem>, itemId: string)
    ensures Without(a + b, itemId) == Without(a, itemId) + Without(b, itemId)
  {
    if a == [] {
      assert a + b == b;
    } else {
      assert (a + b)[1..] == a[1..] + b;
      WithoutConcat(a[1..], b, itemId);
    }
  }

  /** Removing a line that was just appended, under an id no earlier line
      has, gives back the earlier list. */
  lemma RemoveUndoesAppend(items: seq<CartItem>, item: CartItem)
    requires forall i :: 0 <= i < |items| ==> items[i].id != item.id
    ensures Without(items + [item], item.id) == items
  {
    WithoutConcat(items, [item], item.id);
    assert Without([item], item.id) == [];
  }

  /** Removing the same id twice removes nothing more. */
  lemma {:induction false} WithoutIdempotent(items: seq<CartItem>, itemId: string)
    ensures Without(Without(items, itemId), itemId) == Without(items, itemId)
  {
    var kept := Without(items, itemId);
    assert forall i :: 0 <= i < |kept| ==> kept[i].id != itemId by {
      forall i | 0 <= i < |kept| ensures kept[i].id != itemId {
        assert kept[i] in kept;
      }
    }
  }

  /** `refreshCart`: nothing when signed out; otherwise loading is raised,
      the fetched cart replaces the local one (missing `items` read as
      empty), a failed fetch is swallowed, and loading ends false. */
  function AfterRefresh(s: CartState, authenticated: bool, fetched: Call<CartSummary>): (t: CartState)
    ensures !authenticated ==> t == s
    ensures authenticated ==> !t.isLoading
    ensures authenticated && fetched.Ok? ==>
      t.summary == Some(fetched.value) &&
      t.items == (if fetched.value.items.Some? then fetched.value.items.value else [])
    ensures authenticated && fetched.Fail? ==> t.items == s.items && t.summary == s.summary
  {
    if !authenticated then s
    else
      var loading := s.(isLoading := true);
      var synced :=
        match fetched
        case Ok(data) => loading.(items := if data.items.Some? then data.items.value else [], summary := Some(data))
        case Fail(_) => loading;
      synced.(isLoading := false)
  }

  /** A successful resync decides the whole list and summary: whatever the
      handler did to the local list before it is overwritten. */
  lemma ResyncOverridesLocalEdits(s: CartState, u: CartState, data: CartSummary)
    ensures AfterRefresh(s, true, Ok(data)) == AfterRefresh(u, true, Ok(data))
  {
  }

  /** `addItem`: a rejected add changes nothing and is rethrown; an accepted
      one appends the returned line after every existing line and then
      resyncs, so the append is what remains only when the resync does not
      replace the list. */
  function AfterAdd(s: CartState, authenticated: bool, added: Call<CartItem>, fetched: Call<CartSummary>): (r: Outcome)
    ensures added.Fail? ==> r == Outcome(s, Some(added.err))
    ensures added.Ok? ==> r.thrown == None
    ensures added.Ok? && (!authenticated || fetched.Fail?) ==>
      r.state.items == s.items + [added.value] && r.state.summary == s.summary
    ensures added.Ok? && authenticated && fetched.Ok? ==> r.state == AfterRefresh(s, true, fetched)
    ensures added.Ok? && authenticated ==> !r.state.isLoading
    ensures added.Ok? && !authenticated ==> r.state.isLoading == s.isLoading
  {
    match added
    case Fail(e) => Outcome(s, Some(e))
    case Ok(item) => Outcome(AfterRefresh(s.(items := s.items + [item]), authenticated, fetched), None)
  }

  /** `updateItem`: the local list is never edited; only the resync can
      change it. */
  function AfterUpdate(s: CartState, authenticated: bool, updated: Call<()>, fetched: Call<CartSummary>): (r: Outcome)
    ensures updated.Fail? ==> r == Outcome(s, Some(updated.err))
    ensures updated.Ok? ==> r.thrown == None
    ensures !authenticated || fetched.Fail? ==> r.state.items == s.items && r.state.summary == s.summary
    ensures updated.Ok? ==> r.state == AfterRefresh(s, authenticated, fetched)
  {
    match updated
    case Fail(e) => Outcome(s, Some(e))
    case Ok(_) => Outcome(AfterRefresh(s, authenticated, fetched), None)
  }

  /** `removeItem`: a rejected removal changes nothing and is rethrown; an
      accepted one keeps exactly the lines with a different id, then
      resyncs. */
  function AfterRemove(s: CartState, authenticated: bool, itemId: string, removed: Call<()>, fetched: Call<CartSummary>): (r: Outcome)
    ensures removed.Fail? ==> r == Outcome(s, Some(removed.err))
    ensures removed.Ok? ==> r.thrown == None
    ensures removed.Ok? && (!authenticated || fetched.Fail?) ==>
      r.state.items == Without(s.items, itemId) && r.state.summary == s.summary
    ensures removed.Ok? && authenticated && fetched.Ok? ==> r.state == AfterRefresh(s, true, fetched)
    ensures removed.Ok? && authenticated ==> !r.state.isLoading
    ensures removed.Ok? && !authenticated ==> r.state.isLoading == s.isLoading
  {
    match removed
    case Fail(e) => Outcome(s, Some(e))
    case Ok(_) => Outcome(AfterRefresh(s.(items := Without(s.items, itemId)), authenticated, fetched), None)
  }

  /** `clearCart`: on success no lines and no summary; on failure nothing
      changes and the error is rethrown. No resync follows. */
  function AfterClear(s: CartState, cleared: Call<()>): (r: Outcome)
    ensures cleared.Ok? ==> r == Outcome(s.(items := [], summary := None), None)
    ensures cleared.Fail? ==> r == Outcome(s, Some(cleared.err))
    ensures r.state.isLoading == s.isLoading
  {
    match cleared
    case Ok(_) => Outcome(CartState([], None, s.isLoading), None)
    case Fail(e) => Outcome(s, Some(e))
  }

  /** The provider object: fields updated in place by each handler. */
  class CartProvider {
    var items: seq<CartItem>
    var summary: Option<CartSummary>
    var isLoading: bool

    function State(): CartState
      reads this
    {
      CartState(items, summary, isLoading)
    }

    constructor ()
      ensures State() == Initial
    {
      items, summary, isLoading := [], None, false;
    }

    method RefreshCart(authenticated: bool, fetched: Call<CartSummary>)
      modifies this
      ensures State() == AfterRefresh(old(State()), authenticated, fetched)
    {
      if !authenticated {
        return;
      }
      isLoading := true;
      match fetched {
        case Ok(data) =>
          items := if data.items.Some? then data.items.value else [];
          summary := Some(data);
        case Fail(_) =>
      }
      isLoading := false;
    }

    /** `materialId` and `quantity` go to the cart client; `added` is its
        answer and `fetched` the answer of the resync that follows. */
    method AddItem(materialId: string, quantity: int, authenticated: bool, added: Call<CartItem>, fetched: Call<CartSummary>)
      returns (thrown: Option<ApiError>, request: LineRequest)
      modifies this
      ensures request == LineRequest(materialId, quantity)
      ensures Outcome(State(), thrown) == AfterAdd(old(State()), authenticated, added, fetched)
    {
      request := LineRequest(materialId, quantity);
      match added {
        case Fail(e) =>
          thrown := Some(e);
        case Ok(newItem) =>
          items := items + [newItem];
          RefreshCart(authenticated, fetched);
          thrown := None;
      }
    }

    /** `itemId` and `quantity` go to the cart client; `updated` is its
        answer and `fetched` the answer of the resync that follows. */
    method UpdateItem(itemId: string, quantity: int, authenticated: bool, updated: Call<()>, fetched: Call<CartSummary>)
      returns (thrown: Option<ApiError>, request: LineRequest)
      modifies this
      ensures request == LineRequest(itemId, quantity)
      ensures Outcome(State(), thrown) == AfterUpdate(old(State()), authenticated, updated, fetched)
    {
      request := LineRequest(itemId, quantity);
      match updated {
        case Fail(e) =>
          thrown := Some(e);
        case Ok(_) =>
          RefreshCart(authenticated, fetched);
          thrown := None;
      }
    }

    method RemoveItem(itemId: string, authenticated: bool, removed: Call<()>, fetched: Call<CartSummary>)
      returns (thrown: Option<ApiError>)
      modifies this
      ensures Outcome(State(), thrown) == AfterRemove(old(State()), authenticated, itemId, removed, fetched)
    {
      match removed {
        case Fail(e) =>
          return Some(e);
        case Ok(_) =>
          items := Without(items, itemId);
          RefreshCart(authenticated, fetched);
          return None;
      }
    }

    method ClearCart(cleared: Call<()>) returns (thrown: Option<ApiError>)
      modifies this
      ensures Outcome(State(), thrown) == AfterClear(old(State()), cleared)
    {
      match cleared {
        case Fail(e) =>
          return Some(e);
        case Ok(_) =>
          items := [];
          summary := None;
          return None;
      }
    }
  }
}
