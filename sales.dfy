/**
 * The sales screen: opening a tab (comanda) for a customer, adding a product
 * to a tab, and the quick-sale cart with its merge-by-name rule, removal by
 * position, total and checkout.
 */
module Sales {
  import opened Base
  import opened Js
  import opened Types
  import opened App
  import opened Menu

  /**
   * `Math.max(1, parseInt(qty.toString()) || 1)`: the typed quantity when it
   * reads as a positive integer, otherwise 1 (NaN and 0 are falsy, a
   * negative number loses to 1).
   */
  function FinalQty(qty: string): (n: int)
    ensures n >= 1
    ensures ParseInt(qty).Some? && ParseInt(qty).value > 0 ==> n == ParseInt(qty).value
    ensures ParseInt(qty).None? || ParseInt(qty).value <= 0 ==> n == 1
  {
    var parsed := ParseInt(qty);
    var orOne := if parsed.Some? && parsed.value != 0 then parsed.value else 1;
    if orOne > 1 then orOne else 1
  }

  /** Typing a positive whole number gives exactly that quantity. */
  lemma FinalQtyOfNumeral(n: int)
    requires n >= 1
    ensures FinalQty(IntToString(n)) == n
  {
    ParseIntRoundTrip(n);
  }

  /** `activeOrders`: the orders that are not closed, in their order. */
  function ActiveOrders(orders: seq<Order>): (r: seq<Order>)
    ensures forall i :: 0 <= i < |r| ==> r[i] in orders && r[i].status != Fechado
    ensures forall i :: 0 <= i < |orders| && orders[i].status != Fechado ==> orders[i] in r
    ensures forall o :: multiset(r)[o] == if o.status != Fechado then multiset(orders)[o] else 0
  {
    FilterCounts(orders, IsOpen);
    Filter(orders, IsOpen)
  }

  lemma ActiveOrdersOrder(orders: seq<Order>)
    ensures IsSubsequence(ActiveOrders(orders), orders)
  {
    FilterIsSubsequence(orders, IsOpen);
  }

  /** `cart.findIndex(item => item.nome === name)` */
  function CartIndexOf(cart: seq<ItemPedido>, name: string): (i: int)
    ensures -1 <= i < |cart|
    ensures i >= 0 ==> cart[i].nome == name && forall j :: 0 <= j < i ==> cart[j].nome != name
    ensures i == -1 <==> forall j :: 0 <= j < |cart| ==> cart[j].nome != name
  {
    IndexWhere(cart, (item: ItemPedido) => item.nome == name)
  }

  /** The cart after adding `qty` of a product: merged into the row of the same name, or a new row. */
  function AddToCart(cart: seq<ItemPedido>, p: Product, qty: int): (r: seq<ItemPedido>)
    ensures |r| == if CartIndexOf(cart, p.nome) >= 0 then |cart| else |cart| + 1
    ensures forall k :: 0 <= k < |cart| && cart[k].nome != p.nome ==> r[k] == cart[k]
    ensures forall k :: 0 <= k < |r| ==> r[k].nome == p.nome || r[k] in cart
  {
    var i := CartIndexOf(cart, p.nome);
    if i >= 0 then cart[i := cart[i].(qtd := cart[i].qtd + qty)]
    else cart + [ItemPedido(p.nome, qty, p.preco, Some(p.custo))]
  }

  /** No two rows of the cart carry the same name. */
  predicate UniqueNames(cart: seq<ItemPedido>)
  {
    forall i, j :: 0 <= i < j < |cart| ==> cart[i].nome != cart[j].nome
  }

  /**
   * When the product's name is in the cart, that row's quantity grows by
   * `qty` and nothing else changes; otherwise one row is appended.
   */
  lemma AddToCartEffect(cart: seq<ItemPedido>, p: Product, qty: int)
    ensures var r := AddToCart(cart, p, qty);
      (exists i :: 0 <= i < |cart| && cart[i].nome == p.nome) ==>
        |r| == |cart|
        && (forall j :: 0 <= j < |cart| ==>
              r[j] == if j == CartIndexOf(cart, p.nome) then cart[j].(qtd := cart[j].qtd + qty) else cart[j])
    ensures var r := AddToCart(cart, p, qty);
      (forall i :: 0 <= i < |cart| ==> cart[i].nome != p.nome) ==>
        r == cart + [ItemPedido(p.nome, qty, p.preco, Some(p.custo))]
  {
  }

  /** Adding to the cart keeps at most one row per name, and the product's name is then in the cart. */
  lemma AddToCartUnique(cart: seq<ItemPedido>, p: Product, qty: int)
    requires UniqueNames(cart)
    ensures UniqueNames(AddToCart(cart, p, qty))
  {
  }

  /** After adding, the product's name is in the cart. */
  lemma AddToCartHasName(cart: seq<ItemPedido>, p: Product, qty: int)
    ensures CartIndexOf(AddToCart(cart, p, qty), p.nome) >= 0
  {
    var r := AddToCart(cart, p, qty);
    var i := CartIndexOf(cart, p.nome);
    if i >= 0 {
      assert r[i].nome == p.nome;
    } else {
      assert r[|cart|].nome == p.nome;
    }
  }

  /** `cartTotal`: the sum of price times quantity over the cart. */
  function CartTotal(cart: seq<ItemPedido>): (total: int)
    ensures cart == [] ==> total == 0
  {
    ItemsTotal(cart)
  }

  /**
   * Adding raises the total by the quantity times the price of the row it
   * lands in: the price already in the cart when merging by name, the
   * product's price for a new row.
   */
  lemma AddToCartTotal(cart: seq<ItemPedido>, p: Product, qty: int)
    ensures CartIndexOf(cart, p.nome) >= 0 ==>
      CartTotal(AddToCart(cart, p, qty)) == CartTotal(cart) + cart[CartIndexOf(cart, p.nome)].preco * qty
    ensures CartIndexOf(cart, p.nome) < 0 ==>
      CartTotal(AddToCart(cart, p, qty)) == CartTotal(cart) + p.preco * qty
  {
    var i := CartIndexOf(cart, p.nome);
    if i >= 0 {
      MergeRowTotal(cart, i, qty);
    } else {
      ItemsTotalAppend(cart, ItemPedido(p.nome, qty, p.preco, Some(p.custo)));
    }
  }

  /** Raising one row's quantity raises the total by that row's price times the increase. */
  lemma MergeRowTotal(cart: seq<ItemPedido>, i: int, qty: int)
    requires 0 <= i < |cart|
    ensures ItemsTotal(cart[i := cart[i].(qtd := cart[i].qtd + qty)]) == ItemsTotal(cart) + cart[i].preco * qty
  {
    var row := cart[i];
    ItemsTotalUpdate(cart, i, row.(qtd := row.qtd + qty));
    Distribute(row.preco, row.qtd, qty);
  }

  lemma Distribute(a: int, b: int, c: int)
    ensures a * (b + c) == a * b + a * c
  {
  }

  /** `cart.filter((_, i) => i !== index)` */
  function RemoveAt(cart: seq<ItemPedido>, index: int): (r: seq<ItemPedido>)
    ensures |r| == if 0 <= index < |cart| then |cart| - 1 else |cart|
    decreases |cart|
  {
    if cart == [] then []
    else (if index == 0 then [] else [cart[0]]) + RemoveAt(cart[1..], index - 1)
  }

  /** Removing drops exactly the row at the index and keeps the others in order; a bad index changes nothing. */
  lemma {:induction false} RemoveAtSlices(cart: seq<ItemPedido>, index: int)
    ensures 0 <= index < |cart| ==> RemoveAt(cart, index) == cart[..index] + cart[index + 1..]
    ensures !(0 <= index < |cart|) ==> RemoveAt(cart, index) == cart
    decreases |cart|
  {
    if cart != [] {
      var tail := cart[1..];
      RemoveAtSlices(tail, index - 1);
      if index == 0 {
        assert cart[index + 1..] == tail;
      } else if 0 < index < |cart| {
        SlicesOfTail(cart, index);
      } else {
        assert [cart[0]] + tail == cart;
      }
    }
  }

  lemma SlicesOfTail(cart: seq<ItemPedido>, index: int)
    requires 0 < index < |cart|
    ensures cart[..index] + cart[index + 1..] == [cart[0]] + (cart[1..][..index - 1] + cart[1..][index..])
  {
    assert cart[..index] == [cart[0]] + cart[1..][..index - 1];
    assert cart[index + 1..] == cart[1..][index..];
  }

  /** What `handleCreate` hands to the order store. */
  datatype CreateRequest = CreateRequest(nome: string, telefone: string)

  /** What `handleAddItemToComanda` hands to the order store; None is the NaN `parseInt` gives for a non-numeral. */
  datatype AddRequest = AddRequest(orderId: Option<int>, productId: string, qty: int)

  /** What `handleFinalizeQuickSale` hands on: the cart, its total and the payment type. */
  datatype QuickSale = QuickSale(items: seq<ItemPedido>, total: int, paymentType: string)

  /** The state of the sales screen. */
  class SalesPanel {
    var newName: string
    var newPhone: string
    var selectedOrder: string
    var cart: seq<ItemPedido>
    var showPaymentModal: bool
    var productSearch: string
    var selectedProduct: string
    var qty: string

    constructor ()
      ensures newName == "" && newPhone == "" && selectedOrder == ""
      ensures cart == [] && !showPaymentModal
      ensures productSearch == "" && selectedProduct == "" && qty == "1"
    {
      newName, newPhone, selectedOrder := "", "", "";
      cart, showPaymentModal := [], false;
      productSearch, selectedProduct, qty := "", "", "1";
    }

    /** The cart never holds two rows of the same name. */
    predicate Valid()
      reads this
    {
      UniqueNames(cart)
    }

    /** The product list under the search box. */
    function Listed(products: seq<Product>): (r: seq<Product>)
      reads this
      ensures forall i :: 0 <= i < |r| ==> r[i] in products && NameMatches(r[i], productSearch)
      ensures forall i :: 0 <= i < |products| && NameMatches(products[i], productSearch) ==> products[i] in r
      ensures productSearch == "" ==> r == products
    {
      EmptySearchListsAll(products);
      FilteredProducts(products, productSearch)
    }

    /** Opening a tab: refused without a name; otherwise the phone goes on as digits only and both fields are cleared. */
    method HandleCreate() returns (request: Option<CreateRequest>)
      modifies this`newName, this`newPhone
      ensures old(newName) == "" ==> request == None && newName == old(newName) && newPhone == old(newPhone)
      ensures old(newName) != "" ==>
        request == Some(CreateRequest(old(newName), Digits(old(newPhone))))
        && newName == "" && newPhone == ""
      ensures request.Some? ==> forall i :: 0 <= i < |request.value.telefone| ==> IsDigit(request.value.telefone[i])
    {
      if newName == "" {
        return None;
      }
      request := Some(CreateRequest(newName, Digits(newPhone)));
      newName, newPhone := "", "";
    }

    /** Adding to a tab: nothing without an order and a product; otherwise the request carries a quantity of at least 1. */
    method HandleAddItemToComanda() returns (request: Option<AddRequest>)
      modifies this`qty, this`selectedProduct, this`productSearch
      ensures old(selectedOrder) == "" || old(selectedProduct) == "" ==>
        request == None && qty == old(qty) && selectedProduct == old(selectedProduct) && productSearch == old(productSearch)
      ensures old(selectedOrder) != "" && old(selectedProduct) != "" ==>
        request == Some(AddRequest(ParseInt(old(selectedOrder)), old(selectedProduct), FinalQty(old(qty))))
        && qty == "1" && selectedProduct == "" && productSearch == ""
      ensures request.Some? ==> request.value.qty >= 1
    {
      if selectedOrder == "" || selectedProduct == "" {
        return None;
      }
      request := Some(AddRequest(ParseInt(selectedOrder), selectedProduct, FinalQty(qty)));
      qty, selectedProduct, productSearch := "1", "", "";
    }

    /** Adding a product to the cart, then clearing the quantity, the selection and the search. */
    method HandleAddToCart(p: Product)
      requires Valid()
      modifies this`cart, this`qty, this`selectedProduct, this`productSearch
      ensures Valid()
      ensures cart == AddToCart(old(cart), p, FinalQty(old(qty)))
      ensures qty == "1" && selectedProduct == "" && productSearch == ""
    {
      var q := FinalQty(qty);
      AddToCartUnique(cart, p, q);
      cart := AddToCart(cart, p, q);
      qty, selectedProduct, productSearch := "1", "", "";
    }

    /** Removing the row at `index`. */
    method RemoveFromCart(index: int)
      requires Valid()
      modifies this`cart
      ensures Valid()
      ensures 0 <= index < |old(cart)| ==> cart == old(cart)[..index] + old(cart)[index + 1..]
      ensures !(0 <= index < |old(cart)|) ==> cart == old(cart)
    {
      RemoveAtSlices(cart, index);
      ghost var before := cart;
      cart := RemoveAt(cart, index);
      if 0 <= index < |before| {
        forall i, j | 0 <= i < j < |cart| ensures cart[i].nome != cart[j].nome {
          var bi := if i < index then i else i + 1;
          var bj := if j < index then j else j + 1;
          assert cart[i] == before[bi] && cart[j] == before[bj];
        }
      }
    }

    /** Checking out: the cart and its total go on with the payment type, and the cart is emptied. */
    method HandleFinalizeQuickSale(paymentType: string) returns (sale: QuickSale)
      requires Valid()
      modifies this`cart, this`showPaymentModal
      ensures Valid()
      ensures sale == QuickSale(old(cart), CartTotal(old(cart)), paymentType)
      ensures cart == [] && !showPaymentModal
    {
      sale := QuickSale(cart, CartTotal(cart), paymentType);
      cart, showPaymentModal := [], false;
    }
  }
}
