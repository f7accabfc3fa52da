/**
 * The cart mirror: a client-side snapshot of the server's cart (entries, total, item count,
 * error) that every accepted mutation resynchronises by refetching the whole cart.
 */
module CartContext {
  import opened Results

  /** Client-side cap on the quantity of one item in the cart. */
  const MaxPerItem := 2

  const LoginToAdd := "Please log in to add items to your cart."
  const LoginToUpdate := "Please log in to update your cart."
  const LoginToRemove := "Please log in to remove items from your cart."
  const LoginToClear := "Please log in to clear your cart."
  const FetchFailed := "Failed to fetch cart data. Please try again."
  const OverCap := "You can't add more than 2 of the same item to your cart."
  const Unavailable := "This item is out of stock or the requested quantity is not available."
  const AddFailed := "Failed to add item to cart. Please try again later."
  const UpdateFailed := "Failed to update item quantity. Please try again later."
  const RemoveFailed := "Failed to remove item from cart. Please try again later."
  const ClearFailed := "Failed to clear cart. Please try again later."

  /** One cart line: the id of its item and its quantity, which the server may leave out. */
  datatype Entry = Entry(itemId: int, quantity: Option<int>)

  /** The body of `GET /cart`: an object with an `items` array, a bare array, or anything else. */
  datatype CartPayload = Wrapped(items: seq<Entry>) | Bare(entries: seq<Entry>) | Unrecognised

  /** The body of `GET /cart/total`: a number (the total in cents) or anything else. */
  datatype TotalPayload = Number(cents: int) | NotANumber

  /** The body of `GET /items/{id}/availability`: missing, or a stock report. */
  datatype Availability = NoReport | Report(inStock: bool, availableQuantity: Option<int>)

  /** The backend calls the cart mirror makes. */
  datatype CartCall =
    | GetCart
    | GetCartTotal
    | CheckAvailability(itemId: int)
    | AddToCart(itemId: int, quantity: int)
    | UpdateCartItem(itemId: int, quantity: int)
    | RemoveCartItem(itemId: int)
    | ClearCart

  /** A full refetch: the cart and its total, requested together. */
  const Refetch: seq<CartCall> := [GetCart, GetCartTotal]

  /** `item.quantity || 0`. */
  function Quantity(e: Entry): int
  {
    match e.quantity
    case Some(q) => q
    case None => 0
  }

  /** `calculateCartItemCount`: the quantities summed from the left, as `reduce` does. */
  function ItemCount(items: seq<Entry>): (r: int)
    // lines without a quantity add nothing
    ensures (forall i :: 0 <= i < |items| ==> items[i].quantity.None?) ==> r == 0
    // no negative quantity, no negative count
    ensures (forall i :: 0 <= i < |items| ==> Quantity(items[i]) >= 0) ==> r >= 0
  {
    if items == [] then 0 else ItemCount(items[..|items| - 1]) + Quantity(items[|items| - 1])
  }

  /** The count of a list split in two is the sum of the counts of its parts. */
  lemma {:induction false} ItemCountAppend(a: seq<Entry>, b: seq<Entry>)
    ensures ItemCount(a + b) == ItemCount(a) + ItemCount(b)
    decreases |b|
  {
    if b == [] {
      assert a + b == a;
    } else {
      var front := b[..|b| - 1];
      assert (a + b)[..|a + b| - 1] == a + front;
      ItemCountAppend(a, front);
    }
  }

  /** `cart.find(item => item.item.id === itemId)`: the first line for that item, if any. */
  function FindEntry(cart: seq<Entry>, itemId: int): (r: Option<Entry>)
    ensures r.None? <==> forall e :: e in cart ==> e.itemId != itemId
    ensures r.Some? ==> r.value.itemId == itemId
    ensures r.Some? ==> exists i :: 0 <= i < |cart| && cart[i] == r.value && forall j :: 0 <= j < i ==> cart[j].itemId != itemId
  {
    if cart == [] then None
    else if cart[0].itemId == itemId then Some(cart[0])
    else
      var r := FindEntry(cart[1..], itemId);
      assert forall e :: e in cart ==> e == cart[0] || e in cart[1..];
      r
  }

  /** The add-cap: only a line already in the cart, with a quantity, can push the sum over two. */
  predicate ExceedsCap(cart: seq<Entry>, itemId: int, quantity: int)
    // an item not in the cart is never capped, whatever the quantity
    ensures (forall e :: e in cart ==> e.itemId != itemId) ==> !ExceedsCap(cart, itemId, quantity)
    // a capped item has a line with a quantity that the request would push over two
    ensures ExceedsCap(cart, itemId, quantity) ==>
      exists e :: e in cart && e.itemId == itemId && e.quantity.Some? && e.quantity.value + quantity > MaxPerItem
  {
    match FindEntry(cart, itemId)
    case None => false
    case Some(e) => e.quantity.Some? && e.quantity.value + quantity > MaxPerItem
  }

  /** The availability guard passes: a report, in stock, and no stated quantity below the request. */
  predicate Available(a: Availability, quantity: int)
    // a missing report or an item out of stock always fails
    ensures !a.Report? || !a.inStock ==> !Available(a, quantity)
    // an in-stock report passes when it states no quantity or enough of it
    ensures a.Report? && a.inStock && (a.availableQuantity.None? || a.availableQuantity.value >= quantity) ==> Available(a, quantity)
    ensures a.Report? && a.availableQuantity.Some? && a.availableQuantity.value < quantity ==> !Available(a, quantity)
  {
    a.Report? && a.inStock && !(a.availableQuantity.Some? && a.availableQuantity.value < quantity)
  }

  /** `error.response?.data?.message || fallback`. */
  function ErrorText(e: Error, fallback: string): (r: string)
    // either the server's own non-empty message or the fallback
    ensures r == fallback || (e.Status? && e.message == Some(r) && r != "")
    ensures e.Status? && e.message.Some? && e.message.value != "" ==> r == e.message.value
    ensures !e.Status? ==> r == fallback
  {
    match e
    case Status(_, Some(m)) => if m != "" then m else fallback
    case _ => fallback
  }

  /** The mirror's observable state: `cart`, `total`, `cartItemCount` and `error`. */
  datatype CartState = CartState(cart: seq<Entry>, total: int, count: int, error: Option<string>)

  /** The item count agrees with the entries. */
  predicate Consistent(s: CartState)
  {
    s.count == ItemCount(s.cart)
  }

  /** The state after an operation and the backend calls it made, in order. */
  datatype CartStep = CartStep(after: CartState, calls: seq<CartCall>)

  function Items(p: CartPayload): seq<Entry>
  {
    match p
    case Wrapped(items) => items
    case Bare(entries) => entries
    case Unrecognised => []
  }

  function Total(p: TotalPayload): int
  {
    match p
    case Number(cents) => cents
    case NotANumber => 0
  }

  /** `fetchCartData`, with the answers to `GET /cart` and `GET /cart/total`. */
  function FetchOutcome(authenticated: bool, before: CartState, cartReply: Result<CartPayload>, totalReply: Result<TotalPayload>): (s: CartStep)
    ensures Consistent(s.after)
    // signed out: emptied without asking the server; the error is left as it was
    ensures !authenticated ==> s == CartStep(before.(cart := [], total := 0, count := 0), [])
    ensures authenticated ==> s.calls == Refetch
    // both answers arrived: items from `items` if an array, else from the body if an array,
    // else none; the total if a number, else 0; the error cleared
    ensures authenticated && cartReply.Ok? && totalReply.Ok? ==>
      && s.after.cart == (match cartReply.value
                          case Wrapped(items) => items
                          case Bare(entries) => entries
                          case Unrecognised => [])
      && s.after.total == (if totalReply.value.Number? then totalReply.value.cents else 0)
      && s.after.error == None
    // either call failed: emptied, with an error
    ensures authenticated && (cartReply.Err? || totalReply.Err?) ==> s.after == CartState([], 0, 0, Some(FetchFailed))
  {
    if !authenticated then
      CartStep(before.(cart := [], total := 0, count := 0), [])
    else if cartReply.Ok? && totalReply.Ok? then
      var items := Items(cartReply.value);
      CartStep(CartState(items, Total(totalReply.value), ItemCount(items), None), Refetch)
    else
      CartStep(CartState([], 0, 0, Some(FetchFailed)), Refetch)
  }

  /** What an accepted mutation leads to: the refetched snapshot if its call succeeded, else an error. */
  function Settle(before: CartState, calls: seq<CartCall>, reply: Result<()>, failure: string,
                  cartReply: Result<CartPayload>, totalReply: Result<TotalPayload>): CartStep
  {
    match reply
    case Err(_) => CartStep(before.(error := Some(failure)), calls)
    case Ok(_) =>
      var f := FetchOutcome(true, before, cartReply, totalReply);
      CartStep(f.after, calls + f.calls)
  }

  /** `addItemToCart(itemId, quantity)`. */
  function AddOutcome(authenticated: bool, before: CartState, itemId: int, quantity: int,
                      availability: Result<Availability>, added: Result<()>,
                      cartReply: Result<CartPayload>, totalReply: Result<TotalPayload>): (s: CartStep)
    // first guard: signed in, else an error and no call
    ensures !authenticated ==> s == CartStep(before.(error := Some(LoginToAdd)), [])
    // second guard: the cap, with no call
    ensures authenticated && ExceedsCap(before.cart, itemId, quantity) ==> s == CartStep(before.(error := Some(OverCap)), [])
    // an item not in the cart never meets the cap, whatever the quantity: availability is asked
    ensures authenticated && (forall e :: e in before.cart ==> e.itemId != itemId) ==>
      |s.calls| > 0 && s.calls[0] == CheckAvailability(itemId)
    // third guard: availability, asked once the first two passed
    ensures authenticated && !ExceedsCap(before.cart, itemId, quantity) && availability.Ok? && !Available(availability.value, quantity) ==>
      s == CartStep(before.(error := Some(Unavailable)), [CheckAvailability(itemId)])
    // the mutating call is made exactly when all three guards pass
    ensures AddToCart(itemId, quantity) in s.calls <==>
      authenticated && !ExceedsCap(before.cart, itemId, quantity) && availability.Ok? && Available(availability.value, quantity)
    // accepted and done: the state is the refetched snapshot
    ensures AddToCart(itemId, quantity) in s.calls && added.Ok? ==>
      && s.calls == [CheckAvailability(itemId), AddToCart(itemId, quantity)] + Refetch
      && s.after == FetchOutcome(true, before, cartReply, totalReply).after
    // a thrown availability check or add: the server's message, or the fallback; snapshot kept
    ensures authenticated && !ExceedsCap(before.cart, itemId, quantity) && availability.Err? ==>
      s == CartStep(before.(error := Some(ErrorText(availability.error, AddFailed))), [CheckAvailability(itemId)])
    ensures AddToCart(itemId, quantity) in s.calls && added.Err? ==>
      s == CartStep(before.(error := Some(ErrorText(added.error, AddFailed))), [CheckAvailability(itemId), AddToCart(itemId, quantity)])
    ensures Consistent(before) ==> Consistent(s.after)
  {
    if !authenticated then
      CartStep(before.(error := Some(LoginToAdd)), [])
    else if ExceedsCap(before.cart, itemId, quantity) then
      CartStep(before.(error := Some(OverCap)), [])
    else
      var probe := [CheckAvailability(itemId)];
      match availability
      case Err(e) => CartStep(before.(error := Some(ErrorText(e, AddFailed))), probe)
      case Ok(a) =>
        if !Available(a, quantity) then
          CartStep(before.(error := Some(Unavailable)), probe)
        else
          var failure := if added.Err? then ErrorText(added.error, AddFailed) else AddFailed;
          Settle(before, probe + [AddToCart(itemId, quantity)], added, failure, cartReply, totalReply)
  }

  /** `updateQuantity(itemId, newQuantity)`. */
  function UpdateOutcome(authenticated: bool, before: CartState, itemId: int, newQuantity: int,
                         availability: Result<Availability>, updated: Result<()>,
                         cartReply: Result<CartPayload>, totalReply: Result<TotalPayload>): (s: CartStep)
    ensures !authenticated ==> s == CartStep(before.(error := Some(LoginToUpdate)), [])
    // the cap looks at the new quantity alone, before any call
    ensures authenticated && newQuantity > MaxPerItem ==> s == CartStep(before.(error := Some(OverCap)), [])
    ensures authenticated && newQuantity <= MaxPerItem ==> |s.calls| > 0 && s.calls[0] == CheckAvailability(itemId)
    ensures authenticated && newQuantity <= MaxPerItem && availability.Ok? && !Available(availability.value, newQuantity) ==>
      s == CartStep(before.(error := Some(Unavailable)), [CheckAvailability(itemId)])
    ensures UpdateCartItem(itemId, newQuantity) in s.calls <==>
      authenticated && newQuantity <= MaxPerItem && availability.Ok? && Available(availability.value, newQuantity)
    ensures UpdateCartItem(itemId, newQuantity) in s.calls && updated.Ok? ==>
      && s.calls == [CheckAvailability(itemId), UpdateCartItem(itemId, newQuantity)] + Refetch
      && s.after == FetchOutcome(true, before, cartReply, totalReply).after
    // any thrown call: one fixed message, snapshot kept, no further call
    ensures authenticated && newQuantity <= MaxPerItem && availability.Err? ==>
      s == CartStep(before.(error := Some(UpdateFailed)), [CheckAvailability(itemId)])
    ensures UpdateCartItem(itemId, newQuantity) in s.calls && updated.Err? ==>
      s == CartStep(before.(error := Some(UpdateFailed)), [CheckAvailability(itemId), UpdateCartItem(itemId, newQuantity)])
    ensures Consistent(before) ==> Consistent(s.after)
  {
    if !authenticated then
      CartStep(before.(error := Some(LoginToUpdate)), [])
    else if newQuantity > MaxPerItem then
      CartStep(before.(error := Some(OverCap)), [])
    else
      var probe := [CheckAvailability(itemId)];
      match availability
      case Err(_) => CartStep(before.(error := Some(UpdateFailed)), probe)
      case Ok(a) =>
        if !Available(a, newQuantity) then
          CartStep(before.(error := Some(Unavailable)), probe)
        else
          Settle(before, probe + [UpdateCartItem(itemId, newQuantity)], updated, UpdateFailed, cartReply, totalReply)
  }

  /** Unlike the add-cap, the update-cap and its calls do not depend on what the cart holds. */
  lemma UpdateCapIgnoresCart(authenticated: bool, s1: CartState, s2: CartState, itemId: int, newQuantity: int,
                             availability: Result<Availability>, updated: Result<()>,
                             cartReply: Result<CartPayload>, totalReply: Result<TotalPayload>)
    ensures UpdateOutcome(authenticated, s1, itemId, newQuantity, availability, updated, cartReply, totalReply).calls ==
            UpdateOutcome(authenticated, s2, itemId, newQuantity, availability, updated, cartReply, totalReply).calls
  {
  }

  /** `removeFromCart(itemId)`. */
  function RemoveOutcome(authenticated: bool, before: CartState, itemId: int, removed: Result<()>,
                         cartReply: Result<CartPayload>, totalReply: Result<TotalPayload>): (s: CartStep)
    ensures !authenticated ==> s == CartStep(before.(error := Some(LoginToRemove)), [])
    // no cap and no availability check: the delete is the first call
    ensures authenticated ==> |s.calls| > 0 && s.calls[0] == RemoveCartItem(itemId)
    ensures authenticated && removed.Ok? ==>
      s == CartStep(FetchOutcome(true, before, cartReply, totalReply).after, [RemoveCartItem(itemId)] + Refetch)
    ensures authenticated && removed.Err? ==> s == CartStep(before.(error := Some(RemoveFailed)), [RemoveCartItem(itemId)])
    ensures Consistent(before) ==> Consistent(s.after)
  {
    if !authenticated then
      CartStep(before.(error := Some(LoginToRemove)), [])
    else
      Settle(before, [RemoveCartItem(itemId)], removed, RemoveFailed, cartReply, totalReply)
  }

  /** `clearCart()`. */
  function ClearOutcome(authenticated: bool, before: CartState, cleared: Result<()>,
                        cartReply: Result<CartPayload>, totalReply: Result<TotalPayload>): (s: CartStep)
    ensures !authenticated ==> s == CartStep(before.(error := Some(LoginToClear)), [])
    ensures authenticated ==> |s.calls| > 0 && s.calls[0] == ClearCart
    ensures authenticated && cleared.Ok? ==>
      s == CartStep(FetchOutcome(true, before, cartReply, totalReply).after, [ClearCart] + Refetch)
    ensures authenticated && cleared.Err? ==> s == CartStep(before.(error := Some(ClearFailed)), [ClearCart])
    ensures Consistent(before) ==> Consistent(s.after)
  {
    if !authenticated then
      CartStep(before.(error := Some(LoginToClear)), [])
    else
      Settle(before, [ClearCart], cleared, ClearFailed, cartReply, totalReply)
  }

  /** The `CartProvider` state. `authenticated` is the session's flag at the time of the call. */
  class CartMirror {
    var cart: seq<Entry>
    var total: int
    var count: int
    var error: Option<string>
    var isLoading: bool

    /** Between operations the count agrees with the entries and nothing is loading. */
    ghost predicate Valid()
      reads this
    {
      Consistent(State()) && !isLoading
    }

    function State(): CartState
      reads this
    {
      CartState(cart, total, count, error)
    }

    constructor ()
      ensures Valid() && State() == CartState([], 0, 0, None)
    {
      cart, total, count, error, isLoading := [], 0, 0, None, false;
    }

    method FetchCartData(authenticated: bool, cartReply: Result<CartPayload>, totalReply: Result<TotalPayload>)
      returns (ghost calls: seq<CartCall>)
      requires Valid()
      modifies this
      ensures Valid()
      ensures CartStep(State(), calls) == FetchOutcome(authenticated, old(State()), cartReply, totalReply)
    {
      if !authenticated {
        cart, total, count, calls := [], 0, 0, [];
        return;
      }
      isLoading := true;
      calls := Refetch;
      if cartReply.Ok? && totalReply.Ok? {
        var items := Items(cartReply.value);
        cart := items;
        total := Total(totalReply.value);
        count := ItemCount(items);
        error := None;
      } else {
        error := Some(FetchFailed);
        cart, total, count := [], 0, 0;
      }
      isLoading := false;
    }

    method AddItemToCart(authenticated: bool, itemId: int, quantity: int,
                         availability: Result<Availability>, added: Result<()>,
                         cartReply: Result<CartPayload>, totalReply: Result<TotalPayload>)
      returns (ghost calls: seq<CartCall>)
      requires Valid()
      modifies this
      ensures Valid()
      ensures CartStep(State(), calls) == AddOutcome(authenticated, old(State()), itemId, quantity, availability, added, cartReply, totalReply)
    {
      calls := [];
      if !authenticated {
        error := Some(LoginToAdd);
        return;
      }
      var current := FindEntry(cart, itemId);
      if current.Some? && current.value.quantity.Some? && current.value.quantity.value + quantity > MaxPerItem {
        error := Some(OverCap);
        return;
      }
      calls := [CheckAvailability(itemId)];
      if availability.Err? {
        error := Some(ErrorText(availability.error, AddFailed));
        return;
      }
      if !Available(availability.value, quantity) {
        error := Some(Unavailable);
        return;
      }
      calls := calls + [AddToCart(itemId, quantity)];
      if added.Err? {
        error := Some(ErrorText(added.error, AddFailed));
        return;
      }
      ghost var refetch := FetchCartData(true, cartReply, totalReply);
      calls := calls + refetch;
    }

    method UpdateQuantity(authenticated: bool, itemId: int, newQuantity: int,
                          availability: Result<Availability>, updated: Result<()>,
                          cartReply: Result<CartPayload>, totalReply: Result<TotalPayload>)
      returns (ghost calls: seq<CartCall>)
      requires Valid()
      modifies this
      ensures Valid()
      ensures CartStep(State(), calls) == UpdateOutcome(authenticated, old(State()), itemId, newQuantity, availability, updated, cartReply, totalReply)
    {
      calls := [];
      if !authenticated {
        error := Some(LoginToUpdate);
        return;
      }
      if newQuantity > MaxPerItem {
        error := Some(OverCap);
        return;
      }
      calls := [CheckAvailability(itemId)];
      if availability.Err? {
        error := Some(UpdateFailed);
        return;
      }
      if !Available(availability.value, newQuantity) {
        error := Some(Unavailable);
        return;
      }
      calls := calls + [UpdateCartItem(itemId, newQuantity)];
      if updated.Err? {
        error := Some(UpdateFailed);
        return;
      }
      ghost var refetch := FetchCartData(true, cartReply, totalReply);
      calls := calls + refetch;
    }

    method RemoveFromCart(authenticated: bool, itemId: int, removed: Result<()>,
                          cartReply: Result<CartPayload>, totalReply: Result<TotalPayload>)
      returns (ghost calls: seq<CartCall>)
      requires Valid()
      modifies this
      ensures Valid()
      ensures CartStep(State(), calls) == RemoveOutcome(authenticated, old(State()), itemId, removed, cartReply, totalReply)
    {
      calls := [];
      if !authenticated {
        error := Some(LoginToRemove);
        return;
      }
      calls := [RemoveCartItem(itemId)];
      if removed.Err? {
        error := Some(RemoveFailed);
        return;
      }
      ghost var refetch := FetchCartData(true, cartReply, totalReply);
      calls := calls + refetch;
    }

    method ClearCart(authenticated: bool, cleared: Result<()>,
                     cartReply: Result<CartPayload>, totalReply: Result<TotalPayload>)
      returns (ghost calls: seq<CartCall>)
      requires Valid()
      modifies this
      ensures Valid()
      ensures CartStep(State(), calls) == ClearOutcome(authenticated, old(State()), cleared, cartReply, totalReply)
    {
      calls := [];
      if !authenticated {
        error := Some(LoginToClear);
        return;
      }
      calls := [CartCall.ClearCart];
      if cleared.Err? {
        error := Some(ClearFailed);
        return;
      }
      ghost var refetch := FetchCartData(true, cartReply, totalReply);
      calls := calls + refetch;
    }
  }
}
