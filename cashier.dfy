/**
 * The cash desk: the inclusive date range on the day part of a timestamp,
 * the revenue and its split by payment method, the cost of the closed
 * orders of the period, the profit, and the day/month/year rendering.
 */
module Cashier {
  import opened Base
  import opened Js
  import opened Types

  // ---------------------------------------------------------------------
  // Period

  /** `dateStr.split('T')[0]`: the day part of an ISO timestamp. */
  function DatePart(dateStr: string): (d: string)
    ensures d <= dateStr && 'T' !in d
    ensures d == dateStr || (|d| < |dateStr| && dateStr[|d|] == 'T')
  {
    var parts := Split(dateStr, 'T');
    var i := IndexOf(dateStr, 'T');
    assert parts[0] == if i < 0 then dateStr else dateStr[..i];
    parts[0]
  }

  /** `isInRange`: never for an empty string; otherwise the day part lies between the bounds, both included. */
  predicate IsInRange(dateStr: string, startDate: string, endDate: string)
  {
    dateStr != "" && LexLe(startDate, DatePart(dateStr)) && LexLe(DatePart(dateStr), endDate)
  }

  /** Nothing is in a range whose start comes after its end. */
  lemma InRangeOrdersBounds(dateStr: string, startDate: string, endDate: string)
    ensures IsInRange(dateStr, startDate, endDate) ==> LexLe(startDate, endDate)
  {
    if IsInRange(dateStr, startDate, endDate) {
      LexLeTransitive(startDate, DatePart(dateStr), endDate);
    }
  }

  /** The one-day range of a day admits exactly the timestamps of that day. */
  lemma OneDayOnly(s: string, day: string)
    requires IsInRange(s, day, day)
    ensures DatePart(s) == day
  {
    LexLeAntisymmetric(day, DatePart(s));
  }

  /** A timestamp `day` + `T` + time falls in the one-day range of its day. */
  lemma SameDayInRange(s: string, day: string, time: string)
    requires 'T' !in day && 'T' !in time
    requires s == Join([day, time], "T")
    ensures IsInRange(s, day, day)
  {
    SplitJoin([day, time], 'T');
    JoinCons(day, [time], "T");
    LexLeReflexive(day);
  }

  function FilteredEntries(entries: seq<CashEntry>, startDate: string, endDate: string): (r: seq<CashEntry>)
    ensures forall i :: 0 <= i < |r| ==> r[i] in entries && IsInRange(r[i].data, startDate, endDate)
    ensures forall i :: 0 <= i < |entries| && IsInRange(entries[i].data, startDate, endDate) ==> entries[i] in r
    ensures forall e :: multiset(r)[e] == if IsInRange(e.data, startDate, endDate) then multiset(entries)[e] else 0
  {
    FilterCounts(entries, (e: CashEntry) => IsInRange(e.data, startDate, endDate));
    Filter(entries, (e: CashEntry) => IsInRange(e.data, startDate, endDate))
  }

  function FilteredSales(sales: seq<Order>, startDate: string, endDate: string): (r: seq<Order>)
    ensures forall i :: 0 <= i < |r| ==> r[i] in sales && IsInRange(r[i].data, startDate, endDate)
    ensures forall i :: 0 <= i < |sales| && IsInRange(sales[i].data, startDate, endDate) ==> sales[i] in r
    ensures forall o :: multiset(r)[o] == if IsInRange(o.data, startDate, endDate) then multiset(sales)[o] else 0
  {
    FilterCounts(sales, (o: Order) => IsInRange(o.data, startDate, endDate));
    Filter(sales, (o: Order) => IsInRange(o.data, startDate, endDate))
  }

  /** The period's entries keep the ledger order, and a reversed period has none. */
  lemma FilteredEntriesProperties(entries: seq<CashEntry>, startDate: string, endDate: string)
    ensures IsSubsequence(FilteredEntries(entries, startDate, endDate), entries)
    ensures !LexLe(startDate, endDate) ==> FilteredEntries(entries, startDate, endDate) == []
  {
    var keep := (e: CashEntry) => IsInRange(e.data, startDate, endDate);
    FilterIsSubsequence(entries, keep);
    if !LexLe(startDate, endDate) {
      forall i | 0 <= i < |entries| ensures !keep(entries[i]) {
        InRangeOrdersBounds(entries[i].data, startDate, endDate);
      }
      FilterKeepsNone(entries, keep);
    }
  }

  // ---------------------------------------------------------------------
  // Revenue by method

  datatype Metrics = Metrics(revenue: int, pix: int, cartao: int, dinheiro: int)

  const NoSales := Metrics(0, 0, 0, 0)

  datatype Bucket = PixBucket | CartaoBucket | DinheiroBucket | Unbucketed

  /** The bucket of a payment method: the first of `pix`, `cartão`/`cartao`, `dinheiro` in its lower-cased text. */
  function BucketOf(forma: string): (b: Bucket)
    ensures var f := Lower(forma);
      && (b == PixBucket <==> Contains(f, "pix"))
      && (b == CartaoBucket <==>
            !Contains(f, "pix") && (Contains(f, "cart\U{E3}o") || Contains(f, "cartao")))
      && (b == DinheiroBucket <==>
            !Contains(f, "pix") && !Contains(f, "cart\U{E3}o") && !Contains(f, "cartao") && Contains(f, "dinheiro"))
  {
    var f := Lower(forma);
    if Contains(f, "pix") then PixBucket
    else if Contains(f, "cart\U{E3}o") || Contains(f, "cartao") then CartaoBucket
    else if Contains(f, "dinheiro") then DinheiroBucket
    else Unbucketed
  }

  /** Each of the three methods the ledger declares falls in its own bucket. */
  lemma DeclaredFormaBucketed(forma: string)
    requires IsDeclaredForma(forma)
    ensures BucketOf(forma) == if forma == "Pix" then PixBucket
                               else if forma == "Cart\U{E3}o" then CartaoBucket
                               else DinheiroBucket
  {
    if forma == "Pix" {
      assert Lower("Pix") == "pix";
    } else if forma == "Cart\U{E3}o" {
      assert Lower("Cart\U{E3}o") == "cart\U{E3}o";
      NotContains("cart\U{E3}o", "pix");
    } else {
      LowerDinheiro();
      DinheiroText("dinheiro");
    }
  }

  lemma LowerDinheiro()
    ensures Lower("Dinheiro") == "dinheiro"
  {
  }

  lemma DinheiroText(f: string)
    requires f == "dinheiro"
    ensures !Contains(f, "pix") && !Contains(f, "cart\U{E3}o") && !Contains(f, "cartao") && Contains(f, "dinheiro")
  {
    NotContains(f, "pix");
    NotContains(f, "cart\U{E3}o");
    NotContains(f, "cartao");
  }

  /** A text does not include a word whose first letter it does not contain. */
  lemma {:induction false} NotContains(s: string, t: string)
    requires t != [] && t[0] !in s
    ensures !Contains(s, t)
  {
    if s != [] {
      assert s[1..] == s[1..] && t[0] !in s[1..] by {
        forall k | 0 <= k < |s[1..]| ensures s[1..][k] != t[0] {
          assert s[1..][k] == s[k + 1];
        }
      }
      NotContains(s[1..], t);
    }
  }

  function BucketSum(m: Metrics): int
  {
    m.pix + m.cartao + m.dinheiro
  }

  /** One step of the reduce: the entry's value goes to the revenue and to at most one bucket. */
  function Tally(m: Metrics, e: CashEntry): (r: Metrics)
    ensures r.revenue == m.revenue + e.valor
    ensures BucketSum(r) == BucketSum(m) + (if BucketOf(e.forma) == Unbucketed then 0 else e.valor)
    ensures BucketOf(e.forma) == PixBucket ==> r == m.(revenue := r.revenue, pix := m.pix + e.valor)
    ensures BucketOf(e.forma) == CartaoBucket ==> r == m.(revenue := r.revenue, cartao := m.cartao + e.valor)
    ensures BucketOf(e.forma) == DinheiroBucket ==> r == m.(revenue := r.revenue, dinheiro := m.dinheiro + e.valor)
    ensures BucketOf(e.forma) == Unbucketed ==> r == m.(revenue := r.revenue)
  {
    var n := m.(revenue := m.revenue + e.valor);
    match BucketOf(e.forma)
    case PixBucket => n.(pix := n.pix + e.valor)
    case CartaoBucket => n.(cartao := n.cartao + e.valor)
    case DinheiroBucket => n.(dinheiro := n.dinheiro + e.valor)
    case Unbucketed => n
  }

  /** The metrics of a list of entries, folded from the left. */
  function MetricsOf(entries: seq<CashEntry>): Metrics
  {
    if entries == [] then NoSales else Tally(MetricsOf(entries[..|entries| - 1]), entries[|entries| - 1])
  }

  /** The metrics `reduce`, running totals updated entry by entry. */
  method Summarize(entries: seq<CashEntry>) returns (m: Metrics)
    ensures m == MetricsOf(entries)
  {
    m := NoSales;
    for i := 0 to |entries|
      invariant m == MetricsOf(entries[..i])
    {
      var curr := entries[i];
      assert entries[..i + 1][..i] == entries[..i];
      m := m.(revenue := m.revenue + curr.valor);
      var forma := Lower(curr.forma);
      if Contains(forma, "pix") {
        m := m.(pix := m.pix + curr.valor);
      } else if Contains(forma, "cart\U{E3}o") || Contains(forma, "cartao") {
        m := m.(cartao := m.cartao + curr.valor);
      } else if Contains(forma, "dinheiro") {
        m := m.(dinheiro := m.dinheiro + curr.valor);
      }
    }
    assert entries[..|entries|] == entries;
  }

  /** The value of the entries no bucket takes, folded from the left. */
  function UnbucketedTotal(entries: seq<CashEntry>): int
  {
    if entries == [] then 0
    else
      var e := entries[|entries| - 1];
      UnbucketedTotal(entries[..|entries| - 1]) + (if BucketOf(e.forma) == Unbucketed then e.valor else 0)
  }

  /** Revenue is the sum of the entries, and it exceeds the buckets by exactly the unbucketed entries. */
  lemma {:induction false} RevenueSplit(entries: seq<CashEntry>)
    ensures MetricsOf(entries).revenue == EntriesTotal(entries)
    ensures MetricsOf(entries).revenue == BucketSum(MetricsOf(entries)) + UnbucketedTotal(entries)
  {
    if entries != [] {
      RevenueSplit(entries[..|entries| - 1]);
    }
  }

  lemma {:induction false} UnbucketedNonNegative(entries: seq<CashEntry>)
    requires forall i :: 0 <= i < |entries| ==> entries[i].valor >= 0
    ensures UnbucketedTotal(entries) >= 0
  {
    if entries != [] {
      UnbucketedNonNegative(entries[..|entries| - 1]);
    }
  }

  lemma {:induction false} AllBucketed(entries: seq<CashEntry>)
    requires forall i :: 0 <= i < |entries| ==> BucketOf(entries[i].forma) != Unbucketed
    ensures UnbucketedTotal(entries) == 0
  {
    if entries != [] {
      AllBucketed(entries[..|entries| - 1]);
    }
  }

  /**
   * With no negative amounts the buckets never exceed the revenue, and they
   * add up to it when every method names a bucket.
   */
  lemma BucketsWithinRevenue(entries: seq<CashEntry>)
    ensures (forall i :: 0 <= i < |entries| ==> entries[i].valor >= 0) ==>
      BucketSum(MetricsOf(entries)) <= MetricsOf(entries).revenue
    ensures (forall i :: 0 <= i < |entries| ==> BucketOf(entries[i].forma) != Unbucketed) ==>
      BucketSum(MetricsOf(entries)) == MetricsOf(entries).revenue
  {
    RevenueSplit(entries);
    if forall i :: 0 <= i < |entries| ==> entries[i].valor >= 0 {
      UnbucketedNonNegative(entries);
    }
    if forall i :: 0 <= i < |entries| ==> BucketOf(entries[i].forma) != Unbucketed {
      AllBucketed(entries);
    }
  }

  // ---------------------------------------------------------------------
  // Cost and profit

  /** `sale.itens?.reduce((acc, item) => acc + (item.custo || 0) * item.qtd, 0) || 0` */
  function SaleCost(o: Order): (c: int)
    ensures o.itens == [] ==> c == 0
  {
    ItemsCost(o.itens)
  }

  /** The cost of a list of closed orders, folded from the left. */
  function TotalCost(sales: seq<Order>): int
  {
    if sales == [] then 0 else TotalCost(sales[..|sales| - 1]) + SaleCost(sales[|sales| - 1])
  }

  /** Appending an order adds its cost; an order with no items adds nothing. */
  lemma TotalCostAppend(sales: seq<Order>, o: Order)
    ensures TotalCost(sales + [o]) == TotalCost(sales) + SaleCost(o)
    ensures o.itens == [] ==> TotalCost(sales + [o]) == TotalCost(sales)
  {
    assert (sales + [o])[..|sales|] == sales;
  }

  /**
   * The cost of the period's orders is the sum of the costs of any split of
   * them, so orders without items add nothing wherever they stand.
   */
  lemma {:induction false} TotalCostConcat(a: seq<Order>, b: seq<Order>)
    ensures TotalCost(a + b) == TotalCost(a) + TotalCost(b)
    decreases |b|
  {
    if b == [] {
      assert a + b == a;
    } else {
      var c := b[..|b| - 1];
      assert a + b == (a + c) + [b[|b| - 1]];
      assert b == c + [b[|b| - 1]];
      TotalCostAppend(a + c, b[|b| - 1]);
      TotalCostAppend(c, b[|b| - 1]);
      TotalCostConcat(a, c);
    }
  }

  /** What the cash desk shows for a period. */
  datatype Report = Report(metrics: Metrics, cost: int, profit: int, entries: seq<CashEntry>)

  /** The `useMemo` of the cash desk. */
  method Summary(entries: seq<CashEntry>, salesHistory: seq<Order>, startDate: string, endDate: string)
    returns (r: Report)
    ensures r.entries == FilteredEntries(entries, startDate, endDate)
    ensures r.metrics == MetricsOf(r.entries)
    ensures r.metrics.revenue == EntriesTotal(r.entries)
    ensures r.cost == TotalCost(FilteredSales(salesHistory, startDate, endDate))
    ensures r.profit == r.metrics.revenue - r.cost
  {
    var filteredEntries := FilteredEntries(entries, startDate, endDate);
    var filteredSales := FilteredSales(salesHistory, startDate, endDate);
    var m := Summarize(filteredEntries);
    RevenueSplit(filteredEntries);
    var totalCost := TotalCost(filteredSales);
    r := Report(m, totalCost, m.revenue - totalCost, filteredEntries);
  }

  // ---------------------------------------------------------------------
  // Display

  /** A piece of a split, or what a template literal prints for a missing one. */
  function Piece(parts: seq<string>, i: nat): string
  {
    if i < |parts| then parts[i] else "undefined"
  }

  /** `formatDate`: `YYYY-MM-DD` as `DD/MM/YYYY`; the empty string stays empty. */
  function FormatDate(dateStr: string): (r: string)
    ensures dateStr == "" ==> r == ""
  {
    if dateStr == "" then ""
    else
      var parts := Split(dateStr, '-');
      Join([Piece(parts, 2), Piece(parts, 1), Piece(parts, 0)], "/")
  }

  /** Year, month and day without dashes come back in the order day, month, year. */
  lemma FormatDateParts(year: string, month: string, day: string)
    requires '-' !in year && '-' !in month && '-' !in day
    ensures FormatDate(Join([year, month, day], "-")) == Join([day, month, year], "/")
  {
    SplitJoin([year, month, day], '-');
    JoinCons(year, [month, day], "-");
  }
}
