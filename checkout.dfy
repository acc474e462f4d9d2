/** The checkout page: the order form, submitting the cart as one order, and
    clearing the cart only once the order exists. */
module Checkout {
  import opened Remote
  import opened Entities
  import opened CartContext

  const CheckoutFallback := "Checkout failed"
  const ConfirmationPath := "/order-confirmation/"

  /** `cartItems.map(item => ({material_id, quantity}))`. */
  function OrderItems(items: seq<CartItem>): (lines: seq<OrderLine>)
    ensures |lines| == |items|
    ensures forall i :: 0 <= i < |items| ==> lines[i] == OrderLine(items[i].materialId, items[i].quantity)
  {
    if items == [] then []
    else [OrderLine(items[0].materialId, items[0].quantity)] + OrderItems(items[1..])
  }

  /** The projection keeps every line where it was: projecting a longer cart
      extends the projection of its prefix. */
  lemma {:induction false} OrderItemsConcat(a: seq<CartItem>, b: seq<CartItem>)
    ensures OrderItems(a + b) == OrderItems(a) + OrderItems(b)
  {
    if a == [] {
      assert a + b == b;
    } else {
      assert (a + b)[1..] == a[1..] + b;
      OrderItemsConcat(a[1..], b);
    }
  }

  /** The form's state. */
  datatype Form = Form(
    deliveryType: DeliveryType,
    deliveryAddress: string,
    notes: string,
    isLoading: bool,
    error: Option<string>)

  /** A fresh form: delivery type 'BUY', nothing typed, no error. */
  const InitialForm := Form(Buy, "", "", false, None)

  /** What a submission leaves behind: the form, the cart, the request that
      was sent and where the page navigated, if it did. */
  datatype Submission = Submission(form: Form, cart: CartState, request: OrderRequest, navigateTo: Option<string>)

  /** `handleCheckout`: the whole cart goes out as one order; the cart is
      cleared, and the page leaves for the confirmation, only after the order
      was created and the clear succeeded. Any rejection on the way, the
      clear's included, sets the error to the server message or 'Checkout
      failed'; loading always ends false. */
  function AfterCheckout(form: Form, cart: CartState, created: Call<Order>, cleared: Call<()>): (r: Submission)
    ensures r.request == OrderRequest(form.deliveryType, form.deliveryAddress, form.notes, OrderItems(cart.items))
    ensures !r.form.isLoading
    ensures r.form.(isLoading := form.isLoading, error := form.error) == form
    ensures r.cart != cart ==> created.Ok? && cleared.Ok?
    ensures created.Fail? ==>
      r.cart == cart && r.navigateTo == None && r.form.error == Some(ErrorText(created.err, CheckoutFallback))
    ensures created.Ok? && cleared.Fail? ==>
      r.cart == cart && r.navigateTo == None && r.form.error == Some(ErrorText(cleared.err, CheckoutFallback))
    ensures created.Ok? && cleared.Ok? ==>
      r.cart == cart.(items := [], summary := None) && r.form.error == None &&
      r.navigateTo == Some(ConfirmationPath + created.value.id)
  {
    var submitting := form.(isLoading := true, error := None);
    var request := OrderRequest(form.deliveryType, form.deliveryAddress, form.notes, OrderItems(cart.items));
    match created
    case Fail(e) =>
      Submission(submitting.(isLoading := false, error := Some(ErrorText(e, CheckoutFallback))), cart, request, None)
    case Ok(order) =>
      var clearing := AfterClear(cart, cleared);
      match clearing.thrown
      case Some(e) =>
        Submission(submitting.(isLoading := false, error := Some(ErrorText(e, CheckoutFallback))), clearing.state, request, None)
      case None =>
        Submission(submitting.(isLoading := false), clearing.state, request, Some(ConfirmationPath + order.id))
  }

  /** Whatever the server answers, every error text the page can show is
      non-empty, so the error banner appears whenever a submission failed. */
  lemma FailedCheckoutShowsError(form: Form, cart: CartState, created: Call<Order>, cleared: Call<()>)
    requires created.Fail? || cleared.Fail?
    ensures AfterCheckout(form, cart, created, cleared).form.error.Some?
    ensures AfterCheckout(form, cart, created, cleared).form.error.value != ""
  {
  }

  /** What the page renders: an empty cart replaces the form. */
  datatype Screen = EmptyCartNotice | OrderForm

  function CheckoutScreen(items: seq<CartItem>): (screen: Screen)
    ensures screen == EmptyCartNotice <==> |items| == 0
  {
    if |items| == 0 then EmptyCartNotice else OrderForm
  }

  class CheckoutPage {
    var deliveryType: DeliveryType
    var deliveryAddress: string
    var notes: string
    var isLoading: bool
    var error: Option<string>

    function State(): Form
      reads this
    {
      Form(deliveryType, deliveryAddress, notes, isLoading, error)
    }

    constructor ()
      ensures State() == InitialForm
    {
      deliveryType, deliveryAddress, notes := Buy, "", "";
      isLoading, error := false, None;
    }

    /** One of the two radio buttons. */
    method SelectDeliveryType(t: DeliveryType)
      modifies this`deliveryType
      ensures deliveryType == t
    {
      deliveryType := t;
    }

    method HandleCheckout(cart: CartProvider, created: Call<Order>, cleared: Call<()>)
      returns (request: OrderRequest, navigateTo: Option<string>)
      modifies this, cart
      ensures Submission(State(), cart.State(), request, navigateTo)
           == AfterCheckout(old(State()), old(cart.State()), created, cleared)
    {
      isLoading := true;
      error := None;
      request := OrderRequest(deliveryType, deliveryAddress, notes, OrderItems(cart.items));
      navigateTo := None;
      match created {
        case Fail(e) =>
          error := Some(ErrorText(e, CheckoutFallback));
        case Ok(order) =>
          var thrown := cart.ClearCart(cleared);
          if thrown.Some? {
            error := Some(ErrorText(thrown.value, CheckoutFallback));
          } else {
            navigateTo := Some(ConfirmationPath + order.id);
          }
      }
      isLoading := false;
    }
  }
}
