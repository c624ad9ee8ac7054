/**
 * The order board: the customer search and status filter, the actions each
 * status offers, the payload sent when a tab is closed with one payment, and
 * the phone number and greeting of the WhatsApp notice.
 */
module Orders {
  import opened Base
  import opened Js
  import opened Types
  import opened App

  /** The status filter: `todos` or one status; the board starts on `aberto`. */
  datatype StatusFilter = Todos | OnlyStatus(status: OrderStatus)

  const DefaultFilter := OnlyStatus(Aberto)

  predicate OrderMatches(o: Order, search: string, filter: StatusFilter)
  {
    Contains(Lower(o.cliente), Lower(search)) && (filter == Todos || filter == OnlyStatus(o.status))
  }

  /** `filteredOrders` */
  function FilteredOrders(orders: seq<Order>, search: string, filter: StatusFilter): (r: seq<Order>)
    ensures forall i :: 0 <= i < |r| ==> r[i] in orders && OrderMatches(r[i], search, filter)
    ensures forall i :: 0 <= i < |orders| && OrderMatches(orders[i], search, filter) ==> orders[i] in r
    ensures forall o :: multiset(r)[o] == if OrderMatches(o, search, filter) then multiset(orders)[o] else 0
  {
    FilterCounts(orders, (o: Order) => OrderMatches(o, search, filter));
    Filter(orders, (o: Order) => OrderMatches(o, search, filter))
  }

  /** The board keeps the order of the list it is given. */
  lemma FilteredOrdersOrder(orders: seq<Order>, search: string, filter: StatusFilter)
    ensures IsSubsequence(FilteredOrders(orders, search, filter), orders)
  {
    FilterIsSubsequence(orders, (o: Order) => OrderMatches(o, search, filter));
  }

  /** With no search text and `todos`, every order is listed. */
  lemma ShowAll(orders: seq<Order>)
    ensures FilteredOrders(orders, "", Todos) == orders
  {
    forall i | 0 <= i < |orders| ensures OrderMatches(orders[i], "", Todos) {
      ContainsEmpty(Lower(orders[i].cliente));
    }
    FilterKeepsAll(orders, (o: Order) => OrderMatches(o, "", Todos));
  }

  datatype Action = Print | Notify | Close | MarkReady | Delete

  /** The buttons on an order's card. */
  function ActionsFor(status: OrderStatus): (r: set<Action>)
    ensures Print in r
    ensures MarkReady in r <==> status == Aberto
    ensures Notify in r <==> status == Pronto
    ensures Close in r <==> status == Pronto
    ensures Delete in r <==> status == Fechado
  {
    {Print}
    + (if status == Pronto then {Notify, Close} else {})
    + (if status == Aberto then {MarkReady} else {})
    + (if status == Fechado then {Delete} else {})
  }

  /** A cancelled order can only be printed. */
  lemma CancelledOnlyPrints()
    ensures ActionsFor(Cancelado) == {Print}
  {
    assert forall a :: a in ActionsFor(Cancelado) ==> a == Print;
  }

  /**
   * The board is given the app's open orders, so the `fechado` filter lists
   * nothing and no card offers Delete.
   */
  lemma NoDeleteOnOpenOrders(orders: seq<Order>, search: string, filter: StatusFilter)
    ensures var shown := FilteredOrders(Filter(orders, IsOpen), search, filter);
      forall i :: 0 <= i < |shown| ==> Delete !in ActionsFor(shown[i].status)
    ensures FilteredOrders(Filter(orders, IsOpen), search, OnlyStatus(Fechado)) == []
  {
    var open := Filter(orders, IsOpen);
    var shown := FilteredOrders(open, search, filter);
    forall i | 0 <= i < |shown| ensures Delete !in ActionsFor(shown[i].status) {
      assert shown[i] in open;
    }
    forall i | 0 <= i < |open| ensures !OrderMatches(open[i], search, OnlyStatus(Fechado)) {
      assert IsOpen(open[i]);
    }
    FilterKeepsNone(open, (o: Order) => OrderMatches(o, search, OnlyStatus(Fechado)));
  }

  /** `handleConfirmClosing`: the id and a one-payment list for the order's total, or nothing for an unknown id. */
  function ConfirmClosing(orders: seq<Order>, orderId: int, kind: string): (r: Option<(int, PaymentInput)>)
    ensures r.None? <==> FindOrder(orders, orderId).None?
    ensures r.Some? ==> r.value.0 == orderId
    ensures r.Some? ==> r.value.1 == PaymentList([Payment(kind, FindOrder(orders, orderId).value.total)])
  {
    match FindOrder(orders, orderId)
    case None => None
    case Some(o) => Some((orderId, PaymentList([Payment(kind, o.total)])))
  }

  /** Closing from the board settles the order exactly as passing the payment type alone would. */
  lemma ConfirmClosingSettlesTotal(orders: seq<Order>, orderId: int, kind: string)
    requires ConfirmClosing(orders, orderId, kind).Some?
    ensures var o := FindOrder(orders, orderId).value;
      var ps := Payments(ConfirmClosing(orders, orderId, kind).value.1, o.total);
      ps == Payments(TypeName(kind), o.total) && PaymentsTotal(ps) == o.total
  {
    SinglePaymentSummary(kind, FindOrder(orders, orderId).value.total);
  }

  /** Closing with one of the board's three buttons records ledger entries of a declared method only. */
  lemma BoardClosingDeclaredForma(orders: seq<Order>, orderId: int, kind: string, cliente: string, timestamp: string)
    requires IsDeclaredForma(kind) && ConfirmClosing(orders, orderId, kind).Some?
    ensures var ps := Payments(ConfirmClosing(orders, orderId, kind).value.1, FindOrder(orders, orderId).value.total);
      forall e :: e in CashEntriesFor(cliente, ps, timestamp) ==> IsDeclaredForma(e.forma)
  {
    var ps := Payments(ConfirmClosing(orders, orderId, kind).value.1, FindOrder(orders, orderId).value.total);
    var es := CashEntriesFor(cliente, ps, timestamp);
    forall e | e in es ensures IsDeclaredForma(e.forma) {
      var i :| 0 <= i < |es| && es[i] == e;
      assert e.forma == ps[i].kind;
    }
  }

  /**
   * The number the notice is sent to: refused when the phone is missing or
   * shorter than ten characters; otherwise its digits, with the country code
   * `55` in front when there are at most eleven of them.
   */
  function WhatsAppTarget(telefone: string): (r: Option<string>)
    ensures r.None? <==> |telefone| < 10
    ensures r.Some? ==> forall i :: 0 <= i < |r.value| ==> IsDigit(r.value[i])
    ensures r.Some? && |Digits(telefone)| <= 11 ==> r.value == "55" + Digits(telefone)
    ensures r.Some? && |Digits(telefone)| > 11 ==> r.value == Digits(telefone)
  {
    if telefone == "" || |telefone| < 10 then None
    else
      var clean := Digits(telefone);
      Some(if |clean| <= 11 then "55" + clean else clean)
  }

  /** A number stored as eleven digits gets the country code; one that has it already is left alone. */
  lemma WhatsAppTargetOfDigits(telefone: string)
    requires AllDigits(telefone)
    ensures |telefone| == 10 || |telefone| == 11 ==> WhatsAppTarget(telefone) == Some("55" + telefone)
    ensures |telefone| > 11 ==> WhatsAppTarget(telefone) == Some(telefone)
  {
    DigitsOfDigits(telefone);
  }

  /** The greeting for the hour of the day. */
  function Greeting(hour: int): (g: string)
    ensures hour < 12 ==> g == "Bom dia"
    ensures 12 <= hour < 18 ==> g == "Boa tarde"
    ensures hour >= 18 ==> g == "Boa noite"
  {
    if hour < 12 then "Bom dia" else if hour < 18 then "Boa tarde" else "Boa noite"
  }
}
