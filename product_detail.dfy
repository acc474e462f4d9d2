/** The product page: loading one material, the quantity stepper and its
    clamps, adding the chosen quantity to the cart, the hazard badge colour,
    the subtotal and which stock sections are shown. */
module ProductDetail {
  import opened Remote
  import opened Entities
  import opened Inputs
  import opened CartContext

  const NotFoundMessage := "Produk tidak ditemukan"
  const AddFailedMessage := "Gagal menambahkan ke keranjang"
  const AddedSuffix := " ditambahkan ke keranjang!"

  /** The stepper's three inputs; `Typed` carries `parseInt`'s result. */
  datatype Stepper = Decrement | Increment | Typed(parsed: Option<int>)

  function Max(a: int, b: int): int { if a >= b then a else b }
  function Min(a: int, b: int): int { if a <= b then a else b }

  /** The new quantity after one stepper input: `max(1, q - 1)`,
      `min(stock, q + 1)` and `max(1, parseInt(text) || 1)`. Only the
      buttons respect the stock; typed text is raised to 1 but never capped. */
  function Adjusted(control: Stepper, quantity: int, stock: int): (q: int)
    ensures control == Decrement ==> q >= 1 && q <= Max(quantity, 1) && (quantity >= 2 ==> q == quantity - 1)
    ensures control == Increment ==> q <= stock && q <= quantity + 1 && (quantity < stock ==> q == quantity + 1)
    ensures control == Increment && quantity >= stock ==> q == stock
    ensures control.Typed? ==> q >= 1
    ensures control.Typed? && control.parsed.Some? && control.parsed.value >= 1 ==> q == control.parsed.value
    ensures control.Typed? && (control.parsed.None? || control.parsed.value <= 1) ==> q == 1
  {
    match control
    case Decrement => Max(1, quantity - 1)
    case Increment => Min(stock, quantity + 1)
    case Typed(parsed) => Max(1, TypedValue(parsed))
  }

  /** A run of stepper inputs, oldest first. */
  function AdjustedAll(controls: seq<Stepper>, quantity: int, stock: int): int
    decreases |controls|
  {
    if controls == [] then quantity
    else AdjustedAll(controls[1..], Adjusted(controls[0], quantity, stock), stock)
  }

  /** Using only the two buttons, a quantity that starts within [1, stock]
      stays there: it never drops below 1 and never exceeds the stock. */
  lemma {:induction false} ButtonsKeepQuantityInStock(controls: seq<Stepper>, quantity: int, stock: int)
    requires 1 <= quantity <= stock
    requires forall i :: 0 <= i < |controls| ==> !controls[i].Typed?
    ensures 1 <= AdjustedAll(controls, quantity, stock) <= stock
    decreases |controls|
  {
    if controls != [] {
      var next := Adjusted(controls[0], quantity, stock);
      assert 1 <= next <= stock;
      ButtonsKeepQuantityInStock(controls[1..], next, stock);
    }
  }

  /** The typed field is not capped: any number above the stock is kept. */
  lemma TypedInputCanExceedStock(quantity: int, stock: int, n: int)
    requires n > stock && n >= 1
    ensures Adjusted(Typed(Some(n)), quantity, stock) == n
  {
  }

  /** The displayed subtotal, `price * quantity`. */
  function Subtotal(price: int, quantity: int): (total: int)
    ensures quantity == 0 ==> total == 0
    ensures quantity == 1 ==> total == price
    ensures price >= 0 && quantity >= 0 ==> total >= 0
  {
    price * quantity
  }

  /** One more unit adds exactly one unit's price. */
  lemma SubtotalStep(price: int, quantity: int)
    ensures Subtotal(price, quantity + 1) == Subtotal(price, quantity) + price
  {
    assert price * (quantity + 1) == price * quantity + price;
  }

  /** With a quantity the buttons allow, the subtotal lies between one unit's
      price and the price of the whole stock. */
  lemma SubtotalWithinStock(price: int, quantity: int, stock: int)
    requires price >= 0 && 1 <= quantity <= stock
    ensures price <= Subtotal(price, quantity) <= price * stock
  {
    assert price * quantity - price == price * (quantity - 1);
    assert price * stock - price * quantity == price * (stock - quantity);
  }

  /** The badge classes of the six known hazard classes. */
  const HazardColors: map<string, string> := map[
    "Explosive" := "bg-red-100 text-red-600",
    "Flammable Liquid" := "bg-orange-100 text-orange-600",
    "Corrosive" := "bg-yellow-100 text-yellow-700",
    "Poison" := "bg-purple-100 text-purple-600",
    "Radioactive" := "bg-green-100 text-green-600",
    "Oxidizer" := "bg-blue-100 text-blue-600"]

  const DefaultHazardColor := "bg-gray-100 text-gray-600"

  /** `getHazardColor`: the class's own colour when it is one of the six,
      the gray default for every other string. */
  function HazardColor(hazardClass: string): (color: string)
    ensures hazardClass in HazardColors ==> color == HazardColors[hazardClass]
    ensures color == DefaultHazardColor <==> hazardClass !in HazardColors
    ensures color != ""
  {
    if hazardClass in HazardColors then HazardColors[hazardClass]
    else DefaultHazardColor
  }

  /** Which of the two stock-dependent sections are rendered. */
  datatype Sections = Sections(quantityControls: bool, outOfStockNotice: bool)

  function StockSections(stock: int): (s: Sections)
    ensures s.quantityControls <==> stock > 0
    ensures s.outOfStockNotice <==> stock == 0
    ensures !(s.quantityControls && s.outOfStockNotice)
    ensures stock >= 0 ==> s.quantityControls != s.outOfStockNotice
  {
    Sections(stock > 0, stock == 0)
  }

  /** What the page renders: the spinner while loading, the error view when
      there is an error text or no material, the details otherwise. */
  datatype Screen = Spinner | ErrorView | Details

  function DetailScreen(isLoading: bool, error: Option<string>, material: Option<Material>): (screen: Screen)
    ensures screen == Spinner <==> isLoading
    ensures screen == Details <==> !isLoading && (error.None? || error.value == "") && material.Some?
    ensures !isLoading && error.Some? && error.value != "" ==> screen == ErrorView
  {
    if isLoading then Spinner
    else if (error.Some? && error.value != "") || material.None? then ErrorView
    else Details
  }

  /** How `handleAddToCart` ended. */
  datatype AddResult = NotSignedIn | NoMaterial | Added | AddFailed

  class ProductPage {
    var material: Option<Material>
    var quantity: int
    var isLoading: bool
    var error: Option<string>
    var isAddingToCart: bool
    var successMessage: string

    constructor ()
      ensures material == None && quantity == 1 && isLoading && error == None
      ensures !isAddingToCart && successMessage == ""
    {
      material, quantity, isLoading, error := None, 1, true, None;
      isAddingToCart, successMessage := false, "";
    }

    /** The fetch effect: without a route id nothing happens (the spinner
        stays); otherwise the material or the not-found text, and loading
        ends. */
    method LoadMaterial(id: Option<string>, fetched: Call<Material>)
      modifies this
      ensures id.None? || id.value == "" ==> unchanged(this)
      ensures id.Some? && id.value != "" ==>
        !isLoading &&
        quantity == old(quantity) &&
        (fetched.Ok? ==> material == Some(fetched.value) && error == old(error)) &&
        (fetched.Fail? ==> material == old(material) && error == Some(NotFoundMessage))
      ensures isAddingToCart == old(isAddingToCart) && successMessage == old(successMessage)
    {
      if id.None? || id.value == "" {
        return;
      }
      match fetched {
        case Ok(data) => material := Some(data);
        case Fail(_) => error := Some(NotFoundMessage);
      }
      isLoading := false;
    }

    /** One stepper input; the stepper is only rendered for a loaded
        material. */
    method Step(control: Stepper)
      requires material.Some?
      modifies this`quantity
      ensures quantity == Adjusted(control, old(quantity), material.value.stock)
    {
      match control {
        case Decrement => quantity := Max(1, quantity - 1);
        case Increment => quantity := Min(material.value.stock, quantity + 1);
        case Typed(parsed) => quantity := Max(1, TypedValue(parsed));
      }
    }

    /** `handleAddToCart`: signed out or without a material nothing is sent;
        otherwise the provider's add runs with the chosen quantity, success
        resets the quantity to 1 and sets the success text, failure sets the
        error text, and the busy flag ends false either way. */
    method HandleAddToCart(authenticated: bool, cart: CartProvider, added: Call<CartItem>, fetched: Call<CartSummary>)
      returns (result: AddResult, request: Option<LineRequest>)
      modifies this, cart
      ensures !authenticated ==> result == NotSignedIn
      ensures result in {NotSignedIn, NoMaterial} <==> request.None?
      ensures authenticated && old(material).Some? ==> request == Some(LineRequest(old(material).value.id, old(quantity)))
      ensures authenticated && old(material).None? ==> result == NoMaterial
      ensures result in {NotSignedIn, NoMaterial} ==> unchanged(this) && cart.State() == old(cart.State())
      ensures authenticated && old(material).Some? ==>
        AfterAdd(old(cart.State()), authenticated, added, fetched).state == cart.State() &&
        !isAddingToCart && material == old(material) && isLoading == old(isLoading)
      ensures authenticated && old(material).Some? && added.Ok? ==>
        result == Added && quantity == 1 && error == old(error) &&
        successMessage == old(material).value.name + AddedSuffix
      ensures authenticated && old(material).Some? && added.Fail? ==>
        result == AddFailed && quantity == old(quantity) && error == Some(AddFailedMessage) &&
        successMessage == old(successMessage)
    {
      if !authenticated {
        return NotSignedIn, None;
      }
      if material.None? {
        return NoMaterial, None;
      }
      isAddingToCart := true;
      var m := material.value;
      var thrown, sent := cart.AddItem(m.id, quantity, authenticated, added, fetched);
      request := Some(sent);
      if thrown.None? {
        successMessage := m.name + AddedSuffix;
        quantity := 1;
        result := Added;
      } else {
        error := Some(AddFailedMessage);
        result := AddFailed;
      }
      isAddingToCart := false;
    }
  }
}
