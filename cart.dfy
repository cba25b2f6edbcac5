/** The session cart of the point of sale (pos/views.py): a dictionary from the
    product id, as posted text, to a line holding the product's id, name, unit
    price and quantity. */
module Cart {
  import opened Sums
  import opened Ledger

  datatype CartLine = CartLine(id: nat, name: string, price: int, quantity: int)

  /** A line as get_cart_data hands it to the page, with its subtotal. */
  datatype CartRow = CartRow(line: CartLine, subtotal: int)

  datatype Response = BadRequest | CartView(rows: seq<CartRow>, total: int)

  function LineValue(): CartLine -> int {
    (l: CartLine) => l.quantity * l.price
  }

  /** The cart total: the sum of quantity times price over the lines. */
  ghost function CartTotal(cart: map<string, CartLine>): int {
    SumOver(cart, LineValue())
  }

  /** The number of units of product `p` in the cart (two keys may name one product). */
  function UnitsOf(p: nat): CartLine -> int {
    (l: CartLine) => if l.id == p then l.quantity else 0
  }

  ghost function CartUnits(cart: map<string, CartLine>, p: nat): int {
    SumOver(cart, UnitsOf(p))
  }

  /** The empty cart costs nothing and holds no units. */
  lemma EmptyCart(p: nat)
    ensures CartTotal(map[]) == 0 && CartUnits(map[], p) == 0
  {
  }

  /** Raising the quantity of a line by `q` raises the total by `q` times its price. */
  lemma TotalAfterAdd(cart: map<string, CartLine>, key: string, q: int)
    requires key in cart
    ensures CartTotal(cart[key := cart[key].(quantity := cart[key].quantity + q)])
         == CartTotal(cart) + q * cart[key].price
  {
    var line := cart[key];
    var line' := line.(quantity := line.quantity + q);
    assert line'.quantity * line'.price == line.quantity * line.price + q * line.price by {
      assert (line.quantity + q) * line.price == line.quantity * line.price + q * line.price;
    }
    SumOverUpdate(cart, key, line', LineValue());
  }

  /** A new line adds its quantity times its price. */
  lemma TotalAfterInsert(cart: map<string, CartLine>, key: string, line: CartLine)
    requires key !in cart
    ensures CartTotal(cart[key := line]) == CartTotal(cart) + line.quantity * line.price
  {
    SumOverAdd(cart, key, line, LineValue());
  }

  /** Deleting a line takes its value off the total. */
  lemma TotalAfterDelete(cart: map<string, CartLine>, key: string)
    requires key in cart
    ensures CartTotal(cart - {key}) == CartTotal(cart) - cart[key].quantity * cart[key].price
  {
    SumOverRemove(cart, key, LineValue());
  }

  /** `rows` are the rows of the cart lines at the distinct keys `keys`, in order. */
  ghost predicate Listed(cart: map<string, CartLine>, keys: seq<string>, rows: seq<CartRow>) {
    && |keys| == |rows|
    && (forall i, j :: 0 <= i < j < |keys| ==> keys[i] != keys[j])
    && (forall i :: 0 <= i < |rows| ==>
          keys[i] in cart && rows[i] == CartRow(cart[keys[i]], cart[keys[i]].quantity * cart[keys[i]].price))
  }

  /** Listing one more key that is not yet listed. */
  lemma ListedStep(cart: map<string, CartLine>, keys: seq<string>, rows: seq<CartRow>, key: string)
    requires Listed(cart, keys, rows) && key in cart && key !in keys
    ensures Listed(cart, keys + [key], rows + [CartRow(cart[key], cart[key].quantity * cart[key].price)])
  {
  }

  /** The rows and the total of the cart (get_cart_data): one row per key, in the
      order `keys` visits them, each with its subtotal, and the total of the cart. */
  method GetCartData(cart: map<string, CartLine>) returns (rows: seq<CartRow>, total: int, ghost keys: seq<string>)
    ensures total == CartTotal(cart)
    ensures |keys| == |rows| == |cart|
    ensures forall k :: k in cart <==> k in keys
    ensures forall i, j :: 0 <= i < j < |keys| ==> keys[i] != keys[j]
    ensures forall i :: 0 <= i < |rows| ==>
      keys[i] in cart && rows[i] == CartRow(cart[keys[i]], cart[keys[i]].quantity * cart[keys[i]].price)
  {
    rows, total, keys := [], 0, [];
    var rest := cart;
    while rest != map[]
      invariant forall k :: k in rest ==> k in cart && rest[k] == cart[k] && k !in keys
      invariant forall k :: k in cart ==> k in rest || k in keys
      invariant |rows| + |rest| == |cart|
      invariant total + CartTotal(rest) == CartTotal(cart)
      invariant Listed(cart, keys, rows)
      decreases |rest|
    {
      var key :| key in rest;
      var item := rest[key];
      var subtotal := item.quantity * item.price;
      ListedStep(cart, keys, rows, key);
      total := total + subtotal;
      rows, keys := rows + [CartRow(item, subtotal)], keys + [key];
      TotalAfterDelete(rest, key);
      rest := rest - {key};
    }
  }

  /** The total checkout recomputes from the cart: price times quantity, summed over
      the lines. */
  method SumCart(cart: map<string, CartLine>) returns (total: int)
    ensures total == CartTotal(cart)
  {
    total := 0;
    var rest := cart;
    while rest != map[]
      invariant rest.Keys <= cart.Keys
      invariant total + CartTotal(rest) == CartTotal(cart)
      decreases |rest|
    {
      var key :| key in rest;
      total := total + rest[key].price * rest[key].quantity;
      TotalAfterDelete(rest, key);
      rest := rest - {key};
    }
  }

  /** The cart kept in the user's session. */
  class Session {
    var cart: map<string, CartLine>

    constructor ()
      ensures cart == map[]
    {
      cart := map[];
    }

    /** add_to_cart: `productId` is the posted id ("" when missing), `quantity` the
        result of parsing the posted quantity (None when it is not an integer),
        `product` the product the id names, stored under `pid`. */
    method AddToCart(productId: string, quantity: Option<int>, pid: nat, product: Product) returns (response: Response)
      modifies this
      ensures productId == "" ==> response == BadRequest && cart == old(cart)
      ensures productId != "" ==>
        var q := if quantity.Some? then quantity.value else 1;
        && cart == (if productId in old(cart)
                    then old(cart)[productId := old(cart)[productId].(quantity := old(cart)[productId].quantity + q)]
                    else old(cart)[productId := CartLine(pid, product.name, product.price, q)])
        && response.CartView? && response.total == CartTotal(cart)
    {
      if productId == "" {
        return BadRequest;
      }
      var quantityAdd := 1;
      if quantity.Some? {
        quantityAdd := quantity.value;
      }
      if productId in cart {
        cart := cart[productId := cart[productId].(quantity := cart[productId].quantity + quantityAdd)];
      } else {
        cart := cart[productId := CartLine(pid, product.name, product.price, quantityAdd)];
      }
      var rows, total, _ := GetCartData(cart);
      response := CartView(rows, total);
    }

    /** update_cart_item: "increment", "decrement" or "remove" on the line at
        `productId`; anything else, or an id not in the cart, changes nothing. */
    method UpdateCartItem(productId: string, action: string) returns (response: Response)
      modifies this
      ensures response.CartView? && response.total == CartTotal(cart)
      ensures productId == "" || productId !in old(cart) ==> cart == old(cart)
      ensures productId != "" && productId in old(cart) ==>
        var line := old(cart)[productId];
        && (action == "increment" ==> cart == old(cart)[productId := line.(quantity := line.quantity + 1)])
        && (action == "decrement" && line.quantity - 1 >= 1 ==>
              cart == old(cart)[productId := line.(quantity := line.quantity - 1)])
        && (action == "decrement" && line.quantity - 1 < 1 ==> cart == old(cart) - {productId})
        && (action == "remove" ==> cart == old(cart) - {productId})
        && (action != "increment" && action != "decrement" && action != "remove" ==> cart == old(cart))
    {
      if productId != "" && productId in cart {
        if action == "increment" {
          cart := cart[productId := cart[productId].(quantity := cart[productId].quantity + 1)];
        } else if action == "decrement" {
          cart := cart[productId := cart[productId].(quantity := cart[productId].quantity - 1)];
          if cart[productId].quantity < 1 {
            cart := cart - {productId};
          }
        } else if action == "remove" {
          cart := cart - {productId};
        }
      }
      var rows, total, _ := GetCartData(cart);
      response := CartView(rows, total);
    }

    /** clear_cart: the cart becomes empty and the page shows a zero total. */
    method ClearCart() returns (response: Response)
      modifies this
      ensures cart == map[] && response == CartView([], 0)
      ensures CartTotal(cart) == 0
    {
      cart := map[];
      response := CartView([], 0);
    }
  }

  /** The effect of update_cart_item on the total: +price, -price, or the line's whole
      value when it is deleted; other lines are never touched. */
  lemma UpdateEffectOnTotal(cart: map<string, CartLine>, key: string)
    requires key in cart
    ensures var line := cart[key];
      && CartTotal(cart[key := line.(quantity := line.quantity + 1)]) == CartTotal(cart) + line.price
      && CartTotal(cart[key := line.(quantity := line.quantity - 1)]) == CartTotal(cart) - line.price
      && CartTotal(cart - {key}) == CartTotal(cart) - line.quantity * line.price
      && forall k :: k in cart && k != key ==>
           k in cart - {key} && (cart - {key})[k] == cart[k]
           && cart[key := line.(quantity := line.quantity + 1)][k] == cart[k]
  {
    TotalAfterAdd(cart, key, 1);
    TotalAfterAdd(cart, key, -1);
    TotalAfterDelete(cart, key);
  }
}
