/**
 * The records of the point-of-sale front end: roles and the attendant
 * permission record, products, line items, orders (comandas), cash-ledger
 * entries and the navigation tabs.
 *
 * Every amount of money (`preco`, `custo`, `total`, `valor`) is an integer
 * number of cents.
 */
module Types {
  import opened Base

  datatype Role = AdminRole | AtendenteRole

  /** The five switches an administrator sets for attendants, one per tab except Team. */
  datatype RolePermissions = RolePermissions(menu: bool, sales: bool, orders: bool, cashier: bool, stock: bool)

  /** `keyof RolePermissions` */
  datatype PermissionKey = MenuKey | SalesKey | OrdersKey | CashierKey | StockKey

  datatype Tab = Menu | Orders | Sales | Cashier | Admin | Team

  /** `perms[key]` */
  function Flag(perms: RolePermissions, key: PermissionKey): bool
  {
    match key
    case MenuKey => perms.menu
    case SalesKey => perms.sales
    case OrdersKey => perms.orders
    case CashierKey => perms.cashier
    case StockKey => perms.stock
  }

  /** The tab a permission flag opens; `stock` opens the Admin (stock) tab. */
  function TabOf(key: PermissionKey): (t: Tab)
    ensures t != Team
  {
    match key
    case MenuKey => Menu
    case SalesKey => Sales
    case OrdersKey => Orders
    case CashierKey => Cashier
    case StockKey => Admin
  }

  /** The flag that governs a tab; Team has none. */
  function KeyOf(t: Tab): (k: Option<PermissionKey>)
    ensures k.None? <==> t == Team
    ensures k.Some? ==> TabOf(k.value) == t
  {
    match t
    case Menu => Some(MenuKey)
    case Sales => Some(SalesKey)
    case Orders => Some(OrdersKey)
    case Cashier => Some(CashierKey)
    case Admin => Some(StockKey)
    case Team => None
  }

  /** Flags and non-Team tabs correspond one to one. */
  lemma FlagsMatchTabs(key: PermissionKey, t: Tab)
    ensures KeyOf(TabOf(key)) == Some(key)
    ensures TabOf(key) == t <==> KeyOf(t) == Some(key)
  {
  }

  datatype Category = Adega | Tabacaria | Combos | Doses | Comidas

  datatype Product = Product(id: string, nome: string, preco: int, custo: int, qtd: int, categoria: Option<Category>)

  /**
   * A line item of an order or of the quick-sale cart; the cost is optional.
   * The quantity field is `qtd` as declared in types.ts:33 and read by the
   * cashier and the order board. The item that App.tsx:169 builds spells the
   * key `qty`; this model has one quantity field and keeps that mismatch out.
   */
  datatype ItemPedido = ItemPedido(nome: string, qtd: int, preco: int, custo: Option<int>)

  datatype OrderStatus = Aberto | Pronto | Fechado | Cancelado

  datatype Order = Order(
    id: int,
    cliente: string,
    telefone: string,
    atendente: string,
    itens: seq<ItemPedido>,
    total: int,
    data: string,
    status: OrderStatus,
    pagamento: Option<string>)

  /**
   * An entry of the cash ledger. The declared method is `Pix`, `Cartão` or
   * `Dinheiro`, but the handler that writes entries stores whatever payment
   * type it was given, so the field is a string here.
   */
  datatype CashEntry = CashEntry(cliente: string, forma: string, valor: int, data: string)

  /** The three methods the type declares for `forma`. */
  predicate IsDeclaredForma(forma: string)
  {
    forma == "Pix" || forma == "Cart\U{E3}o" || forma == "Dinheiro"
  }

  /** `item.preco * item.qtd` */
  function LineTotal(item: ItemPedido): int
  {
    item.preco * item.qtd
  }

  /** `(item.custo || 0) * item.qtd` */
  function LineCost(item: ItemPedido): int
  {
    item.custo.GetOr(0) * item.qtd
  }

  /** `items.reduce((acc, item) => acc + item.preco * item.qtd, 0)`, folded from the left. */
  function ItemsTotal(items: seq<ItemPedido>): int
  {
    if items == [] then 0 else ItemsTotal(items[..|items| - 1]) + LineTotal(items[|items| - 1])
  }

  /** The cost of a list of items, folded from the left like the total. */
  function ItemsCost(items: seq<ItemPedido>): int
  {
    if items == [] then 0 else ItemsCost(items[..|items| - 1]) + LineCost(items[|items| - 1])
  }

  lemma ItemsCostAppend(items: seq<ItemPedido>, item: ItemPedido)
    ensures ItemsCost(items + [item]) == ItemsCost(items) + LineCost(item)
  {
    assert (items + [item])[..|items|] == items;
  }

  /** The cost of a list does not depend on how it is split, so it is the sum over the rows. */
  lemma {:induction false} ItemsCostConcat(a: seq<ItemPedido>, b: seq<ItemPedido>)
    ensures ItemsCost(a + b) == ItemsCost(a) + ItemsCost(b)
    decreases |b|
  {
    if b == [] {
      assert a + b == a;
    } else {
      var c := b[..|b| - 1];
      assert a + b == (a + c) + [b[|b| - 1]];
      assert b == c + [b[|b| - 1]];
      ItemsCostAppend(a + c, b[|b| - 1]);
      ItemsCostAppend(c, b[|b| - 1]);
      ItemsCostConcat(a, c);
    }
  }

  lemma ItemsTotalAppend(items: seq<ItemPedido>, item: ItemPedido)
    ensures ItemsTotal(items + [item]) == ItemsTotal(items) + LineTotal(item)
  {
    assert (items + [item])[..|items|] == items;
  }

  /** The total of a list does not depend on how it is split, so it is the sum over the rows. */
  lemma {:induction false} ItemsTotalConcat(a: seq<ItemPedido>, b: seq<ItemPedido>)
    ensures ItemsTotal(a + b) == ItemsTotal(a) + ItemsTotal(b)
    decreases |b|
  {
    if b == [] {
      assert a + b == a;
    } else {
      var c := b[..|b| - 1];
      assert a + b == (a + c) + [b[|b| - 1]];
      assert b == c + [b[|b| - 1]];
      ItemsTotalAppend(a + c, b[|b| - 1]);
      ItemsTotalAppend(c, b[|b| - 1]);
      ItemsTotalConcat(a, c);
    }
  }

  /** Replacing one line changes the total by the difference of the two lines. */
  lemma {:induction false} ItemsTotalUpdate(items: seq<ItemPedido>, i: int, item: ItemPedido)
    requires 0 <= i < |items|
    ensures ItemsTotal(items[i := item]) == ItemsTotal(items) - LineTotal(items[i]) + LineTotal(item)
    decreases |items|
  {
    var n := |items| - 1;
    var u := items[i := item];
    if i == n {
      assert u[..n] == items[..n];
    } else {
      assert u[..n] == items[..n][i := item];
      ItemsTotalUpdate(items[..n], i, item);
    }
  }

  /** The sum of the `valor` of a list of cash entries, folded from the left. */
  function EntriesTotal(entries: seq<CashEntry>): int
  {
    if entries == [] then 0 else EntriesTotal(entries[..|entries| - 1]) + entries[|entries| - 1].valor
  }

  /** The total of two ledgers one after the other is the sum of their totals. */
  lemma {:induction false} EntriesTotalConcat(a: seq<CashEntry>, b: seq<CashEntry>)
    ensures EntriesTotal(a + b) == EntriesTotal(a) + EntriesTotal(b)
    decreases |b|
  {
    if b == [] {
      assert a + b == a;
    } else {
      var c := b[..|b| - 1];
      assert (a + b)[..|a + b| - 1] == a + c;
      EntriesTotalConcat(a, c);
    }
  }

  /** The first element of the list with the given id, as `find` returns it; -1 when there is none. */
  function ProductIndex(products: seq<Product>, id: string): (i: int)
    ensures -1 <= i < |products|
    ensures i >= 0 ==> products[i].id == id && forall j :: 0 <= j < i ==> products[j].id != id
    ensures i == -1 <==> forall j :: 0 <= j < |products| ==> products[j].id != id
  {
    IndexWhere(products, (q: Product) => q.id == id)
  }

  /** The first order with the given id; -1 when there is none. */
  function OrderIndex(orders: seq<Order>, id: int): (i: int)
    ensures -1 <= i < |orders|
    ensures i >= 0 ==> orders[i].id == id && forall j :: 0 <= j < i ==> orders[j].id != id
    ensures i == -1 <==> forall j :: 0 <= j < |orders| ==> orders[j].id != id
  {
    IndexWhere(orders, (o: Order) => o.id == id)
  }

  /** `orders.find(o => o.id === id)` */
  function FindOrder(orders: seq<Order>, id: int): (r: Option<Order>)
    ensures r.Some? <==> exists j :: 0 <= j < |orders| && orders[j].id == id
    ensures r.Some? ==> r.value in orders && r.value.id == id
    ensures r.Some? ==> r.value == orders[OrderIndex(orders, id)]
  {
    var i := OrderIndex(orders, id);
    if i < 0 then None else Some(orders[i])
  }
}
