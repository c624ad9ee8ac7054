/**
 * The application shell: who may open which tab, and the store of products,
 * orders and cash entries with one method per handler that changes it
 * (opening an order, adding an item, finishing an order, marking it ready,
 * deleting it, saving the attendant permissions).
 *
 * The store stands for the remote tables. The app's `orders` list is the
 * view of the orders that are not closed and `salesHistory` the view of the
 * closed ones; each handler's write is modelled as the change it makes to
 * the tables, and the re-fetch that follows it as reading the views again.
 */
module App {
  import opened Base
  import opened Js
  import opened Types

  /** The attendant permissions before any are loaded: menu, sales and orders on. */
  const DefaultPermissions := RolePermissions(true, true, true, false, false)

  // ---------------------------------------------------------------------
  // Access

  /** `hasAccess(tab)` for the signed-in role (None when nobody is signed in). */
  function HasAccess(role: Option<Role>, perms: RolePermissions, tab: Tab): (r: bool)
    ensures role == Some(AdminRole) ==> r
    ensures role != Some(AdminRole) ==> (r <==> KeyOf(tab).Some? && Flag(perms, KeyOf(tab).value))
  {
    if role == Some(AdminRole) then true
    else if tab == Team then false
    else if tab == Menu then perms.menu
    else if tab == Sales then perms.sales
    else if tab == Orders then perms.orders
    else if tab == Cashier then perms.cashier
    else if tab == Admin then perms.stock
    else false
  }

  /** Nobody but an administrator reaches the Team tab. */
  lemma TeamOnlyForAdmin(role: Option<Role>, perms: RolePermissions)
    ensures HasAccess(role, perms, Team) <==> role == Some(AdminRole)
  {
  }

  /** The condition under which the bottom bar shows a tab's button. */
  function NavVisible(role: Option<Role>, perms: RolePermissions, tab: Tab): bool
  {
    var admin := role == Some(AdminRole);
    match tab
    case Menu => perms.menu || admin
    case Sales => perms.sales || admin
    case Orders => perms.orders || admin
    case Cashier => perms.cashier || admin
    case Admin => perms.stock || admin
    case Team => admin
  }

  /** A tab's button is shown exactly when the tab may be opened. */
  lemma NavVisibleIffAccess(role: Option<Role>, perms: RolePermissions, tab: Tab)
    ensures NavVisible(role, perms, tab) == HasAccess(role, perms, tab)
  {
  }

  /** The condition under which the main area renders a tab's section. */
  function SectionShown(role: Option<Role>, perms: RolePermissions, active: Tab, tab: Tab): bool
  {
    active == tab && (if tab == Team then role == Some(AdminRole) else HasAccess(role, perms, tab))
  }

  /** Only the active tab's section is rendered, and only when its button would be shown. */
  lemma SectionShownIff(role: Option<Role>, perms: RolePermissions, active: Tab, tab: Tab)
    ensures SectionShown(role, perms, active, tab) <==> active == tab && NavVisible(role, perms, tab)
  {
  }

  // ---------------------------------------------------------------------
  // Orders and items

  predicate IsOpen(o: Order) { o.status != Fechado }

  predicate UniqueOrderIds(orders: seq<Order>)
  {
    forall i, j :: 0 <= i < j < |orders| ==> orders[i].id != orders[j].id
  }

  predicate UniqueProductIds(products: seq<Product>)
  {
    forall i, j :: 0 <= i < j < |products| ==> products[i].id != products[j].id
  }

  /** Every order's total is the sum of its lines. */
  predicate TotalsConsistent(orders: seq<Order>)
  {
    forall i :: 0 <= i < |orders| ==> orders[i].total == ItemsTotal(orders[i].itens)
  }

  predicate StockNonNegative(products: seq<Product>)
  {
    forall i :: 0 <= i < |products| ==> products[i].qtd >= 0
  }

  /** The order that `handleCreateOrder` inserts; `id` is the one the table assigns. */
  function NewOrder(id: int, nome: string, telefone: Option<string>, email: Option<string>, now: string): (o: Order)
    ensures o.id == id && o.cliente == nome && o.data == now
    ensures o.status == Aberto && o.itens == [] && o.pagamento == None
    ensures o.total == 0 == ItemsTotal(o.itens)
    ensures o.telefone == telefone.GetOr("")
    ensures o.atendente == if email.Some? && email.value != "" then email.value else "Admin"
  {
    var tel := if telefone.Some? && telefone.value != "" then telefone.value else "";
    var attendant := if email.Some? && email.value != "" then email.value else "Admin";
    Order(id, nome, tel, attendant, [], 0, now, Aberto, None)
  }

  /** The line item recorded when a product is added: a copy of its name, price and cost. */
  function Snapshot(p: Product, qty: int): (item: ItemPedido)
    ensures item.nome == p.nome && item.qtd == qty && item.preco == p.preco && item.custo == Some(p.custo)
    ensures LineTotal(item) == p.preco * qty
  {
    ItemPedido(p.nome, qty, p.preco, Some(p.custo))
  }

  /** The order after a product is added: one more line and the total raised by its price times the quantity. */
  function WithItem(o: Order, p: Product, qty: int): (r: Order)
    ensures r.id == o.id && r.cliente == o.cliente && r.telefone == o.telefone && r.atendente == o.atendente
    ensures r.data == o.data && r.status == o.status && r.pagamento == o.pagamento
    ensures |r.itens| == |o.itens| + 1 && r.total - o.total == LineTotal(r.itens[|o.itens|])
  {
    o.(itens := o.itens + [Snapshot(p, qty)], total := o.total + p.preco * qty)
  }

  /** Adding an item keeps an order's total equal to the sum of its lines, and keeps the earlier lines. */
  lemma WithItemKeepsTotal(o: Order, p: Product, qty: int)
    requires o.total == ItemsTotal(o.itens)
    ensures WithItem(o, p, qty).total == ItemsTotal(WithItem(o, p, qty).itens)
    ensures WithItem(o, p, qty).itens[..|o.itens|] == o.itens
    ensures |WithItem(o, p, qty).itens| == |o.itens| + 1
  {
    ItemsTotalAppend(o.itens, Snapshot(p, qty));
    assert (o.itens + [Snapshot(p, qty)])[..|o.itens|] == o.itens;
  }

  /** Adding a product raises the order's cost by the product's cost times the quantity. */
  lemma WithItemCost(o: Order, p: Product, qty: int)
    ensures ItemsCost(WithItem(o, p, qty).itens) == ItemsCost(o.itens) + p.custo * qty
  {
    ItemsCostAppend(o.itens, Snapshot(p, qty));
  }

  /** The position of the order with this id when that order is open; -1 otherwise. */
  function OpenIndex(orders: seq<Order>, id: int): (i: int)
    ensures -1 <= i < |orders|
    ensures i >= 0 ==> orders[i].id == id && IsOpen(orders[i])
    ensures UniqueOrderIds(orders) ==>
      (i == -1 <==> forall j :: 0 <= j < |orders| && orders[j].id == id ==> !IsOpen(orders[j]))
  {
    var i := OrderIndex(orders, id);
    if i >= 0 && IsOpen(orders[i]) then i else -1
  }

  /**
   * Looking an id up in the open orders is looking it up in the table and
   * checking that the order found is open, because ids are unique.
   */
  lemma {:induction false} OpenLookup(orders: seq<Order>, id: int)
    requires UniqueOrderIds(orders)
    ensures FindOrder(Filter(orders, IsOpen), id)
         == (var i := OpenIndex(orders, id); if i >= 0 then Some(orders[i]) else None)
  {
    if orders != [] {
      var o, rest := orders[0], orders[1..];
      UniqueOrderIdsTail(orders);
      OpenLookup(rest, id);
      if o.id == id {
        if !IsOpen(o) {
          forall k | 0 <= k < |rest| ensures rest[k].id != id {
            assert rest[k] == orders[k + 1];
          }
          NoIdAfterFilter(rest, id);
        }
      } else if IsOpen(o) {
        FindOrderSkip(o, Filter(rest, IsOpen), id);
      }
    }
  }

  lemma UniqueOrderIdsTail(orders: seq<Order>)
    requires UniqueOrderIds(orders) && orders != []
    ensures UniqueOrderIds(orders[1..])
  {
    var rest := orders[1..];
    forall i, j | 0 <= i < j < |rest| ensures rest[i].id != rest[j].id {
      assert rest[i] == orders[i + 1] && rest[j] == orders[j + 1];
    }
  }

  /** When no order has the id, neither does any open one. */
  lemma NoIdAfterFilter(orders: seq<Order>, id: int)
    requires forall k :: 0 <= k < |orders| ==> orders[k].id != id
    ensures FindOrder(Filter(orders, IsOpen), id) == None
  {
    var f := Filter(orders, IsOpen);
    forall j | 0 <= j < |f| ensures f[j].id != id {
      assert f[j] in orders;
    }
  }

  /** Looking past an order with another id. */
  lemma FindOrderSkip(o: Order, rest: seq<Order>, id: int)
    requires o.id != id
    ensures FindOrder([o] + rest, id) == FindOrder(rest, id)
  {
    assert ([o] + rest)[1..] == rest;
  }

  // ---------------------------------------------------------------------
  // Payments

  datatype Payment = Payment(kind: string, value: int)

  /** What a caller passes as `paymentInput`: a payment type name, a list of payments, or anything else. */
  datatype PaymentInput = TypeName(name: string) | PaymentList(payments: seq<Payment>) | OtherInput

  /** The payments a finished order is settled with. */
  function Payments(input: PaymentInput, total: int): (ps: seq<Payment>)
    ensures input.TypeName? ==> ps == [Payment(input.name, total)]
    ensures input.PaymentList? ==> ps == input.payments
    ensures input.OtherInput? ==> ps == []
  {
    match input
    case TypeName(name) => [Payment(name, total)]
    case PaymentList(payments) => payments
    case OtherInput => []
  }

  function PaymentsTotal(ps: seq<Payment>): int
  {
    if ps == [] then 0 else PaymentsTotal(ps[..|ps| - 1]) + ps[|ps| - 1].value
  }

  /** `${p.type}: R$${Number(p.value).toFixed(2)}` */
  function Describe(p: Payment): (s: string)
    ensures |s| > |p.kind| + 4
    ensures s[..|p.kind| + 4] == p.kind + ": R$"
    ensures ParseNumber(s[|p.kind| + 4..]) == Num(p.value)
  {
    var s := p.kind + ": R$" + ToFixed2(p.value);
    assert s[|p.kind| + 4..] == ToFixed2(p.value);
    ParseToFixed2(p.value);
    s
  }

  function Descriptions(ps: seq<Payment>): (r: seq<string>)
    ensures |r| == |ps| && forall i :: 0 <= i < |ps| ==> r[i] == Describe(ps[i])
  {
    if ps == [] then [] else [Describe(ps[0])] + Descriptions(ps[1..])
  }

  /** The `pagamento` text of a closed order: the descriptions joined with ", ". */
  function PaymentSummary(ps: seq<Payment>): (r: string)
    ensures ps == [] ==> r == ""
    ensures |ps| == 1 ==> r == Describe(ps[0])
  {
    Join(Descriptions(ps), ", ")
  }

  /** A single payment's summary names its type and reads back as its exact value. */
  lemma SinglePaymentSummary(kind: string, total: int)
    ensures PaymentSummary([Payment(kind, total)]) == Describe(Payment(kind, total))
    ensures PaymentsTotal(Payments(TypeName(kind), total)) == total
  {
    assert [Payment(kind, total)][..0] == [];
  }

  /** One ledger entry per payment, each carrying the customer and the closing time. */
  function CashEntriesFor(cliente: string, ps: seq<Payment>, timestamp: string): (es: seq<CashEntry>)
    ensures |es| == |ps|
    ensures forall i :: 0 <= i < |ps| ==> es[i] == CashEntry(cliente, ps[i].kind, ps[i].value, timestamp)
  {
    if ps == [] then [] else CashEntriesFor(cliente, ps[..|ps| - 1], timestamp) + [CashEntry(cliente, ps[|ps| - 1].kind, ps[|ps| - 1].value, timestamp)]
  }

  /** The ledger entries of a settlement add up to the payments. */
  lemma {:induction false} CashEntriesTotal(cliente: string, ps: seq<Payment>, timestamp: string)
    ensures EntriesTotal(CashEntriesFor(cliente, ps, timestamp)) == PaymentsTotal(ps)
    decreases |ps|
  {
    if ps != [] {
      var es := CashEntriesFor(cliente, ps, timestamp);
      CashEntriesTotal(cliente, ps[..|ps| - 1], timestamp);
      assert es[..|es| - 1] == CashEntriesFor(cliente, ps[..|ps| - 1], timestamp);
    }
  }

  /** The order as `handleFinishOrder` leaves it. */
  function Closed(o: Order, summary: string, timestamp: string): (r: Order)
    ensures r.status == Fechado && r.pagamento == Some(summary) && r.data == timestamp
    ensures r.id == o.id && r.cliente == o.cliente && r.telefone == o.telefone && r.atendente == o.atendente
    ensures r.itens == o.itens && r.total == o.total
  {
    o.(status := Fechado, pagamento := Some(summary), data := timestamp)
  }

  // ---------------------------------------------------------------------
  // Table-wide updates

  /** `update({status: 'pronto'}).eq('id', id)` */
  function MarkedReady(orders: seq<Order>, id: int): (r: seq<Order>)
    ensures |r| == |orders|
    ensures forall i :: 0 <= i < |orders| ==> r[i] == if orders[i].id == id then orders[i].(status := Pronto) else orders[i]
  {
    if orders == [] then []
    else [if orders[0].id == id then orders[0].(status := Pronto) else orders[0]] + MarkedReady(orders[1..], id)
  }

  /** `delete().eq('id', id)` */
  function Deleted(orders: seq<Order>, id: int): (r: seq<Order>)
    ensures forall i :: 0 <= i < |r| ==> r[i] in orders && r[i].id != id
    ensures forall i :: 0 <= i < |orders| && orders[i].id != id ==> orders[i] in r
  {
    Filter(orders, (o: Order) => o.id != id)
  }

  predicate NoneCancelled(orders: seq<Order>)
  {
    forall i :: 0 <= i < |orders| ==> orders[i].status != Cancelado
  }

  /**
   * The handlers only ever set `aberto`, `pronto` or `fechado`: a table with
   * no cancelled order still has none after opening, marking ready or deleting.
   */
  lemma HandlersNeverCancel(orders: seq<Order>, id: int, nome: string, telefone: Option<string>, email: Option<string>, now: string)
    requires NoneCancelled(orders)
    ensures NoneCancelled(orders + [NewOrder(id, nome, telefone, email, now)])
    ensures NoneCancelled(MarkedReady(orders, id))
    ensures NoneCancelled(Deleted(orders, id))
  {
    var added := orders + [NewOrder(id, nome, telefone, email, now)];
    forall i | 0 <= i < |added| ensures added[i].status != Cancelado {
      if i < |orders| {
        assert added[i] == orders[i];
      }
    }
    var deleted := Deleted(orders, id);
    forall i | 0 <= i < |deleted| ensures deleted[i].status != Cancelado {
      assert deleted[i] in orders;
    }
  }

  lemma ReplaceKeepsNoneCancelled(orders: seq<Order>, i: int, o: Order)
    requires NoneCancelled(orders) && 0 <= i < |orders| && o.status != Cancelado
    ensures NoneCancelled(orders[i := o])
  {
  }

  datatype AddOutcome = NotFound | OutOfStock | Added

  /** The outcome of adding an item and the two tables after it. */
  datatype AddResult = AddResult(outcome: AddOutcome, products: seq<Product>, orders: seq<Order>)

  /**
   * Adding `qty` of a product to an open order: nothing changes when either
   * is missing or the stock is below `qty`; otherwise the order gains a
   * snapshot line and its total grows, and the product's stock drops by
   * `qty` (with no floor and no exemption by category).
   */
  function AddItem(products: seq<Product>, orders: seq<Order>, orderId: int, productId: string, qty: int): (r: AddResult)
    ensures r.outcome == NotFound <==> ProductIndex(products, productId) < 0 || OpenIndex(orders, orderId) < 0
    ensures r.outcome == OutOfStock <==>
      ProductIndex(products, productId) >= 0 && OpenIndex(orders, orderId) >= 0
      && products[ProductIndex(products, productId)].qtd < qty
    ensures r.outcome != Added ==> r.products == products && r.orders == orders
    ensures r.outcome == Added ==>
      var pi := ProductIndex(products, productId);
      var oi := OpenIndex(orders, orderId);
      && r.orders == orders[oi := WithItem(orders[oi], products[pi], qty)]
      && r.products == products[pi := products[pi].(qtd := products[pi].qtd - qty)]
      && r.products[pi].qtd >= 0
  {
    var pi := ProductIndex(products, productId);
    var oi := OpenIndex(orders, orderId);
    if pi < 0 || oi < 0 then AddResult(NotFound, products, orders)
    else
      var p := products[pi];
      if p.qtd < qty then AddResult(OutOfStock, products, orders)
      else AddResult(Added, products[pi := p.(qtd := p.qtd - qty)], orders[oi := WithItem(orders[oi], p, qty)])
  }

  /** Replacing an order by one with the same id keeps the ids unique. */
  lemma ReplaceOrderKeepsIds(orders: seq<Order>, i: int, o: Order)
    requires UniqueOrderIds(orders) && 0 <= i < |orders| && o.id == orders[i].id
    ensures UniqueOrderIds(orders[i := o])
  {
    var u := orders[i := o];
    forall a, b | 0 <= a < b < |u| ensures u[a].id != u[b].id {
      assert u[a].id == orders[a].id && u[b].id == orders[b].id;
    }
  }

  lemma ReplaceProductKeepsIds(products: seq<Product>, i: int, p: Product)
    requires UniqueProductIds(products) && 0 <= i < |products| && p.id == products[i].id
    ensures UniqueProductIds(products[i := p])
  {
    var u := products[i := p];
    forall a, b | 0 <= a < b < |u| ensures u[a].id != u[b].id {
      assert u[a].id == products[a].id && u[b].id == products[b].id;
    }
  }

  /**
   * Adding an item keeps the ids unique, keeps every order's total equal to
   * the sum of its lines, and keeps stock non-negative; an accepted add
   * keeps the earlier lines of the order and appends exactly one.
   */
  lemma AddItemKeepsInvariants(products: seq<Product>, orders: seq<Order>, orderId: int, productId: string, qty: int)
    requires UniqueOrderIds(orders) && UniqueProductIds(products)
    ensures var r := AddItem(products, orders, orderId, productId, qty);
      UniqueOrderIds(r.orders) && UniqueProductIds(r.products)
    ensures TotalsConsistent(orders) ==> TotalsConsistent(AddItem(products, orders, orderId, productId, qty).orders)
    ensures StockNonNegative(products) ==> StockNonNegative(AddItem(products, orders, orderId, productId, qty).products)
    ensures var r := AddItem(products, orders, orderId, productId, qty);
      var oi := OpenIndex(orders, orderId);
      r.outcome == Added ==>
        |r.orders[oi].itens| == |orders[oi].itens| + 1 && r.orders[oi].itens[..|orders[oi].itens|] == orders[oi].itens
  {
    var r := AddItem(products, orders, orderId, productId, qty);
    if r.outcome == Added {
      var pi := ProductIndex(products, productId);
      var oi := OpenIndex(orders, orderId);
      var p := products[pi];
      var o := orders[oi];
      ReplaceOrderKeepsIds(orders, oi, WithItem(o, p, qty));
      ReplaceProductKeepsIds(products, pi, p.(qtd := p.qtd - qty));
      ItemsTotalAppend(o.itens, Snapshot(p, qty));
      assert (o.itens + [Snapshot(p, qty)])[..|o.itens|] == o.itens;
      if TotalsConsistent(orders) {
        WithItemKeepsTotal(o, p, qty);
      }
    }
  }

  /** Adding an item never cancels an order. */
  lemma AddItemNeverCancels(products: seq<Product>, orders: seq<Order>, orderId: int, productId: string, qty: int)
    requires NoneCancelled(orders)
    ensures NoneCancelled(AddItem(products, orders, orderId, productId, qty).orders)
  {
    var pi := ProductIndex(products, productId);
    var oi := OpenIndex(orders, orderId);
    if pi >= 0 && oi >= 0 {
      ReplaceKeepsNoneCancelled(orders, oi, WithItem(orders[oi], products[pi], qty));
    }
  }

  /** The outcome of finishing an order and the two tables after it. */
  datatype FinishResult = FinishResult(found: bool, orders: seq<Order>, cashier: seq<CashEntry>)

  /**
   * Finishing an open order: it is closed with the payment summary and the
   * closing time, and one ledger entry per payment is appended. Nothing
   * changes when the id is not an open order.
   */
  function FinishOrder(orders: seq<Order>, cashier: seq<CashEntry>, orderId: int, input: PaymentInput, timestamp: string): (r: FinishResult)
    ensures r.found <==> OpenIndex(orders, orderId) >= 0
    ensures !r.found ==> r.orders == orders && r.cashier == cashier
    ensures r.found ==>
      var o := orders[OpenIndex(orders, orderId)];
      var ps := Payments(input, o.total);
      && r.orders == orders[OpenIndex(orders, orderId) := Closed(o, PaymentSummary(ps), timestamp)]
      && r.cashier == cashier + CashEntriesFor(o.cliente, ps, timestamp)
  {
    var oi := OpenIndex(orders, orderId);
    if oi < 0 then FinishResult(false, orders, cashier)
    else
      var o := orders[oi];
      var ps := Payments(input, o.total);
      FinishResult(true, orders[oi := Closed(o, PaymentSummary(ps), timestamp)], cashier + CashEntriesFor(o.cliente, ps, timestamp))
  }

  /** Finishing keeps the ids unique and every order's total equal to the sum of its lines. */
  lemma FinishOrderKeepsInvariants(orders: seq<Order>, cashier: seq<CashEntry>, orderId: int, input: PaymentInput, timestamp: string)
    requires UniqueOrderIds(orders)
    ensures UniqueOrderIds(FinishOrder(orders, cashier, orderId, input, timestamp).orders)
    ensures TotalsConsistent(orders) ==> TotalsConsistent(FinishOrder(orders, cashier, orderId, input, timestamp).orders)
  {
    var oi := OpenIndex(orders, orderId);
    if oi >= 0 {
      var o := orders[oi];
      ReplaceOrderKeepsIds(orders, oi, Closed(o, PaymentSummary(Payments(input, o.total)), timestamp));
    }
  }

  /** The ledger grows by exactly the amount paid: for a payment type alone, the order's total. */
  lemma FinishOrderLedger(orders: seq<Order>, cashier: seq<CashEntry>, orderId: int, input: PaymentInput, timestamp: string)
    requires OpenIndex(orders, orderId) >= 0
    ensures EntriesTotal(FinishOrder(orders, cashier, orderId, input, timestamp).cashier)
         == EntriesTotal(cashier) + PaymentsTotal(Payments(input, orders[OpenIndex(orders, orderId)].total))
    ensures input.TypeName? ==>
      EntriesTotal(FinishOrder(orders, cashier, orderId, input, timestamp).cashier)
      == EntriesTotal(cashier) + orders[OpenIndex(orders, orderId)].total
  {
    var o := orders[OpenIndex(orders, orderId)];
    var ps := Payments(input, o.total);
    EntriesTotalConcat(cashier, CashEntriesFor(o.cliente, ps, timestamp));
    CashEntriesTotal(o.cliente, ps, timestamp);
    if input.TypeName? {
      SinglePaymentSummary(input.name, o.total);
    }
  }

  /** Finishing an order closes it; it never cancels one. */
  lemma FinishOrderNeverCancels(orders: seq<Order>, cashier: seq<CashEntry>, orderId: int, input: PaymentInput, timestamp: string)
    requires NoneCancelled(orders)
    ensures NoneCancelled(FinishOrder(orders, cashier, orderId, input, timestamp).orders)
  {
    var oi := OpenIndex(orders, orderId);
    if oi >= 0 {
      var o := orders[oi];
      ReplaceKeepsNoneCancelled(orders, oi, Closed(o, PaymentSummary(Payments(input, o.total)), timestamp));
    }
  }

  class Store {
    var products: seq<Product>
    var orders: seq<Order>
    var cashier: seq<CashEntry>
    var role: Option<Role>
    var permissions: RolePermissions

    /** Ids are the tables' primary keys. */
    predicate Valid()
      reads this
    {
      UniqueOrderIds(orders) && UniqueProductIds(products)
    }

    /** The app's `orders`: the orders that are not closed, in table order. */
    function OpenOrders(): seq<Order>
      reads this
    {
      Filter(orders, IsOpen)
    }

    /** The app's `salesHistory`: the closed orders. */
    function SalesHistory(): (r: seq<Order>)
      reads this
      ensures forall i :: 0 <= i < |r| ==> r[i] in orders && r[i].status == Fechado
      ensures forall i :: 0 <= i < |orders| && orders[i].status == Fechado ==> orders[i] in r
      ensures IsSubsequence(r, orders)
    {
      FilterIsSubsequence(orders, (o: Order) => o.status == Fechado);
      Filter(orders, (o: Order) => o.status == Fechado)
    }

    constructor ()
      ensures Valid()
      ensures products == [] && orders == [] && cashier == []
      ensures role == None && permissions == DefaultPermissions
    {
      products, orders, cashier := [], [], [];
      role := None;
      permissions := DefaultPermissions;
    }

    /** Opening an order inserts a new open order with no items; `newId` is the id the table assigns. */
    method HandleCreateOrder(nome: string, telefone: Option<string>, email: Option<string>, now: string, newId: int)
      requires Valid()
      requires forall i :: 0 <= i < |orders| ==> orders[i].id != newId
      modifies this`orders
      ensures Valid()
      ensures orders == old(orders) + [NewOrder(newId, nome, telefone, email, now)]
      ensures old(TotalsConsistent(orders)) ==> TotalsConsistent(orders)
    {
      orders := orders + [NewOrder(newId, nome, telefone, email, now)];
    }

    /**
     * `handleAddItemToOrder`: the order is looked up among the open orders
     * the app holds, the product in the catalogue.
     */
    method HandleAddItemToOrder(orderId: int, productId: string, qty: int) returns (outcome: AddOutcome)
      requires Valid()
      modifies this`products, this`orders
      ensures Valid()
      ensures var r := AddItem(old(products), old(orders), orderId, productId, qty);
        outcome == r.outcome && products == r.products && orders == r.orders
      ensures FindOrder(old(OpenOrders()), orderId).None? ==> outcome == NotFound
      ensures old(TotalsConsistent(orders)) ==> TotalsConsistent(orders)
      ensures old(StockNonNegative(products)) ==> StockNonNegative(products)
    {
      OpenLookup(orders, orderId);
      AddItemKeepsInvariants(products, orders, orderId, productId, qty);
      var r := AddItem(products, orders, orderId, productId, qty);
      outcome, products, orders := r.outcome, r.products, r.orders;
    }

    /** `handleFinishOrder`: the order is looked up among the open orders the app holds. */
    method HandleFinishOrder(orderId: int, input: PaymentInput, timestamp: string) returns (found: bool)
      requires Valid()
      modifies this`orders, this`cashier
      ensures Valid()
      ensures var r := FinishOrder(old(orders), old(cashier), orderId, input, timestamp);
        found == r.found && orders == r.orders && cashier == r.cashier
      ensures found <==> FindOrder(old(OpenOrders()), orderId).Some?
      ensures old(TotalsConsistent(orders)) ==> TotalsConsistent(orders)
    {
      OpenLookup(orders, orderId);
      FinishOrderKeepsInvariants(orders, cashier, orderId, input, timestamp);
      var r := FinishOrder(orders, cashier, orderId, input, timestamp);
      found, orders, cashier := r.found, r.orders, r.cashier;
    }

    /** The order board's "ready" action. */
    method MarkReady(id: int)
      requires Valid()
      modifies this`orders
      ensures Valid()
      ensures orders == MarkedReady(old(orders), id)
      ensures old(TotalsConsistent(orders)) ==> TotalsConsistent(orders)
    {
      orders := MarkedReady(orders, id);
    }

    /** The order board's delete action. */
    method DeleteOrder(id: int)
      requires Valid()
      modifies this`orders
      ensures Valid()
      ensures orders == Deleted(old(orders), id)
      ensures IsSubsequence(orders, old(orders))
    {
      FilterIsSubsequence(orders, (o: Order) => o.id != id);
      ghost var before := orders;
      orders := Deleted(orders, id);
      SubsequenceUnique(orders, before);
    }

    /** Saving the attendant permissions from the Team tab. */
    method UpdatePermissions(perms: RolePermissions)
      modifies this`permissions
      ensures permissions == perms
    {
      permissions := perms;
    }
  }

  /** A subsequence of a list with unique ids has unique ids. */
  lemma {:induction false} SubsequenceUnique(a: seq<Order>, b: seq<Order>)
    requires IsSubsequence(a, b) && UniqueOrderIds(b)
    ensures UniqueOrderIds(a)
    decreases |b|
  {
    if a != [] && b != [] {
      assert UniqueOrderIds(b[1..]) by {
        forall i, j | 0 <= i < j < |b[1..]| ensures b[1..][i].id != b[1..][j].id {
          assert b[1..][i] == b[i + 1] && b[1..][j] == b[j + 1];
        }
      }
      if a[0] == b[0] && IsSubsequence(a[1..], b[1..]) {
        SubsequenceUnique(a[1..], b[1..]);
        SubsequenceMembers(a[1..], b[1..]);
        forall i, j | 0 <= i < j < |a| ensures a[i].id != a[j].id {
          if i == 0 {
            assert a[j] == a[1..][j - 1];
            var k :| 0 <= k < |b[1..]| && b[1..][k] == a[j];
            assert b[k + 1] == a[j];
          } else {
            assert a[i] == a[1..][i - 1] && a[j] == a[1..][j - 1];
          }
        }
      } else {
        SubsequenceUnique(a, b[1..]);
      }
    }
  }

  /** Every element of a subsequence is an element of the sequence. */
  lemma {:induction false} SubsequenceMembers<T>(a: seq<T>, b: seq<T>)
    requires IsSubsequence(a, b)
    ensures forall i :: 0 <= i < |a| ==> exists k :: 0 <= k < |b| && b[k] == a[i]
    decreases |b|
  {
    if a != [] && b != [] {
      if a[0] == b[0] && IsSubsequence(a[1..], b[1..]) {
        SubsequenceMembers(a[1..], b[1..]);
        forall i | 0 <= i < |a| ensures exists k :: 0 <= k < |b| && b[k] == a[i] {
          if i == 0 {
            assert b[0] == a[0];
          } else {
            assert a[i] == a[1..][i - 1];
            var k :| 0 <= k < |b[1..]| && b[1..][k] == a[i];
            assert b[k + 1] == a[i];
          }
        }
      } else {
        SubsequenceMembers(a, b[1..]);
        forall i | 0 <= i < |a| ensures exists k :: 0 <= k < |b| && b[k] == a[i] {
          var k :| 0 <= k < |b[1..]| && b[1..][k] == a[i];
          assert b[k + 1] == a[i];
        }
      }
    }
  }
}
