/**
 * The print and order tables (convex/prints.ts, convex/orders.ts): creating a
 * print together with its draft order, the unconditional status patches, the
 * session-id patch, the partial patch of checkout details, and the listing of
 * orders filtered by status, newest first, each paired with its print.
 *
 * Document ids are issued consecutively (`PrintId(0)`, `PrintId(1)`, ...), which
 * stands in for Convex's opaque ids and gives the tables their creation order.
 * A mutation on an id with no document throws in Convex and rolls back; here it
 * reports `false` and changes nothing.
 */
module Records {
  import opened Wrappers

  datatype PrintId = PrintId(n: nat)
  datatype OrderId = OrderId(n: nat)

  /** The three statuses the code ever writes. */
  datatype Status = Draft | Paid | Canceled

  function StatusName(s: Status): string {
    match s
    case Draft => "draft"
    case Paid => "paid"
    case Canceled => "canceled"
  }

  lemma StatusNamesDistinct(s: Status, t: Status)
    ensures StatusName(s) == StatusName(t) <==> s == t
  {
  }

  /** The arguments of `createPrintAndOrder`, stored unchanged in the print. */
  datatype PrintArgs = PrintArgs(
    fileName: string,
    storageId: string,
    material: string,
    quality: string,
    color: string,
    scale: real,
    qty: real,
    gramsEach: real,
    priceEach: real,
    baseFee: real,
    total: real)

  datatype Print = Print(args: PrintArgs, status: Status, createdAt: int)

  datatype Address = Address(
    line1: Option<string>,
    line2: Option<string>,
    city: Option<string>,
    state: Option<string>,
    postalCode: Option<string>,
    country: Option<string>)

  datatype Order = Order(
    printId: PrintId,
    status: Status,
    createdAt: int,
    stripeSessionId: Option<string>,
    amountTotal: Option<real>,
    amountTax: Option<real>,
    customerEmail: Option<string>,
    customerName: Option<string>,
    paymentIntentId: Option<string>,
    billingAddress: Option<Address>,
    shippingAddress: Option<Address>)

  /** The fields `applySessionDetails` accepts besides the order id; `None` means the field was not sent. */
  datatype DetailsPatch = DetailsPatch(
    amountTotal: Option<real>,
    amountTax: Option<real>,
    customerEmail: Option<string>,
    customerName: Option<string>,
    paymentIntentId: Option<string>,
    billingAddress: Option<Address>,
    shippingAddress: Option<Address>)

  // ---------------------------------------------------------------------------
  // Records and patches as values

  /** The order created with a print: a draft pointing at the print, stamped with the same time, with nothing else set. */
  function NewOrder(printId: PrintId, now: int): (o: Order)
    ensures o.printId == printId && o.status == Draft && o.createdAt == now
    ensures o.stripeSessionId.None? && o.amountTotal.None? && o.amountTax.None?
    ensures o.customerEmail.None? && o.customerName.None? && o.paymentIntentId.None?
    ensures o.billingAddress.None? && o.shippingAddress.None?
  {
    Order(printId, Draft, now, None, None, None, None, None, None, None, None)
  }

  /** `patch(id, { status })`: sets the status whatever it was. */
  function PatchStatus(o: Order, s: Status): (r: Order)
    ensures r.status == s
    ensures r.(status := o.status) == o
  {
    o.(status := s)
  }

  /** Patching the status twice is the same as patching it once with the later value. */
  lemma PatchStatusLastWins(o: Order, s: Status, t: Status)
    ensures PatchStatus(PatchStatus(o, s), t) == PatchStatus(o, t)
    ensures PatchStatus(PatchStatus(o, s), s) == PatchStatus(o, s)
  {
  }

  /** A paid order can be canceled and a canceled order can be marked paid. */
  lemma StatusPatchesAreUnguarded(o: Order)
    ensures o.status == Paid ==> PatchStatus(o, Canceled).status == Canceled
    ensures o.status == Canceled ==> PatchStatus(o, Paid).status == Paid
  {
  }

  function Override<T>(current: Option<T>, given: Option<T>): (r: Option<T>)
    ensures given.Some? ==> r == given
    ensures given.None? ==> r == current
  {
    if given.Some? then given else current
  }

  /** `patch(id, rest)`: every field that was sent replaces the stored one; the others stay. */
  function ApplyDetails(o: Order, d: DetailsPatch): (r: Order)
    ensures r.printId == o.printId && r.status == o.status && r.createdAt == o.createdAt
    ensures r.stripeSessionId == o.stripeSessionId
    ensures r.amountTotal == Override(o.amountTotal, d.amountTotal)
    ensures r.amountTax == Override(o.amountTax, d.amountTax)
    ensures r.customerEmail == Override(o.customerEmail, d.customerEmail)
    ensures r.customerName == Override(o.customerName, d.customerName)
    ensures r.paymentIntentId == Override(o.paymentIntentId, d.paymentIntentId)
    ensures r.billingAddress == Override(o.billingAddress, d.billingAddress)
    ensures r.shippingAddress == Override(o.shippingAddress, d.shippingAddress)
  {
    o.(amountTotal := Override(o.amountTotal, d.amountTotal),
       amountTax := Override(o.amountTax, d.amountTax),
       customerEmail := Override(o.customerEmail, d.customerEmail),
       customerName := Override(o.customerName, d.customerName),
       paymentIntentId := Override(o.paymentIntentId, d.paymentIntentId),
       billingAddress := Override(o.billingAddress, d.billingAddress),
       shippingAddress := Override(o.shippingAddress, d.shippingAddress))
  }

  /** Applying the same details twice is applying them once; an empty patch changes nothing. */
  lemma ApplyDetailsIdempotent(o: Order, d: DetailsPatch)
    ensures ApplyDetails(ApplyDetails(o, d), d) == ApplyDetails(o, d)
    ensures ApplyDetails(o, DetailsPatch(None, None, None, None, None, None, None)) == o
  {
  }

  /** Details and status are independent: patching them in either order gives the same order. */
  lemma DetailsCommuteWithStatus(o: Order, d: DetailsPatch, s: Status)
    ensures ApplyDetails(PatchStatus(o, s), d) == PatchStatus(ApplyDetails(o, d), s)
  {
  }

  // ---------------------------------------------------------------------------
  // The listing

  /** An order document as a query returns it: its id and its fields. */
  datatype OrderDoc = OrderDoc(id: OrderId, order: Order)

  datatype Row = Row(order: OrderDoc, printDoc: Option<Print>)

  /** `status ? o.status === status : true`: no status, or the empty string, selects every order. */
  predicate Matches(status: Option<string>, o: Order) {
    status.None? || status.value == "" || StatusName(o.status) == status.value
  }

  predicate Distinct<T(==)>(s: seq<T>) {
    forall i, j :: 0 <= i < j < |s| ==> s[i] != s[j]
  }

  predicate NewestFirst(s: seq<OrderDoc>) {
    forall i, j :: 0 <= i < j < |s| ==> s[i].order.createdAt >= s[j].order.createdAt
  }

  /** `collect()`: the first n orders in creation order. */
  function Collect(orders: map<OrderId, Order>, n: nat): (r: seq<OrderDoc>)
    requires forall i: nat :: i < n ==> OrderId(i) in orders
    ensures |r| == n
    ensures forall k :: 0 <= k < n ==> r[k] == OrderDoc(OrderId(k), orders[OrderId(k)])
  {
    if n == 0 then [] else Collect(orders, n - 1) + [OrderDoc(OrderId(n - 1), orders[OrderId(n - 1)])]
  }

  /** `filter`: keeps, in order, the documents whose status matches. */
  function FilterByStatus(s: seq<OrderDoc>, status: Option<string>): (r: seq<OrderDoc>)
    ensures forall x :: x in r <==> x in s && Matches(status, x.order)
    ensures Distinct(s) ==> Distinct(r)
  {
    if |s| == 0 then []
    else
      var init := FilterByStatus(s[..|s| - 1], status);
      var last := s[|s| - 1];
      assert s == s[..|s| - 1] + [last];
      if Matches(status, last.order) then init + [last] else init
  }

  /** Places x after every document at least as new, so that equal times keep their order. */
  function InsertNewestFirst(x: OrderDoc, s: seq<OrderDoc>): (r: seq<OrderDoc>)
    ensures multiset(r) == multiset(s) + multiset{x}
    ensures NewestFirst(s) ==> NewestFirst(r)
  {
    if |s| == 0 then [x]
    else if s[0].order.createdAt >= x.order.createdAt then
      var rest := InsertNewestFirst(x, s[1..]);
      assert s == [s[0]] + s[1..];
      HeadStaysNewest(x, s, rest);
      [s[0]] + rest
    else
      [x] + s
  }

  lemma HeadStaysNewest(x: OrderDoc, s: seq<OrderDoc>, rest: seq<OrderDoc>)
    requires |s| > 0 && s[0].order.createdAt >= x.order.createdAt
    requires multiset(rest) == multiset(s[1..]) + multiset{x}
    requires NewestFirst(s) ==> NewestFirst(rest)
    ensures NewestFirst(s) ==> NewestFirst([s[0]] + rest)
  {
    if NewestFirst(s) {
      var r := [s[0]] + rest;
      forall i, j | 0 <= i < j < |r|
        ensures r[i].order.createdAt >= r[j].order.createdAt
      {
        if i == 0 {
          assert r[j] in multiset(s[1..]) + multiset{x};
          if r[j] != x {
            assert r[j] in s[1..];
          }
        } else {
          assert r[i] == rest[i - 1] && r[j] == rest[j - 1];
        }
      }
    }
  }

  /** A sequence without repeats has every element once. */
  lemma {:induction false} DistinctCounts<T>(s: seq<T>, y: T)
    requires Distinct(s)
    ensures multiset(s)[y] <= 1
    decreases |s|
  {
    if |s| > 0 {
      var init := s[..|s| - 1];
      assert s == init + [s[|s| - 1]];
      DistinctCounts(init, y);
      if y == s[|s| - 1] {
        assert y !in init;
      }
    }
  }

  /** Rearranging a sequence without repeats gives a sequence without repeats. */
  lemma PermutationKeepsDistinct<T>(s: seq<T>, t: seq<T>)
    requires multiset(s) == multiset(t) && Distinct(s)
    ensures Distinct(t)
  {
    forall i, j | 0 <= i < j < |t|
      ensures t[i] != t[j]
    {
      if t[i] == t[j] {
        assert t == t[..j] + t[j..];
        assert t[i] in t[..j] && t[j] in t[j..];
        assert multiset(t)[t[i]] == multiset(t[..j])[t[i]] + multiset(t[j..])[t[i]];
        DistinctCounts(s, t[i]);
        assert false;
      }
    }
  }

  /** `sort((a, b) => b.createdAt - a.createdAt)`: a stable sort, newest first. */
  function SortNewestFirst(s: seq<OrderDoc>): (r: seq<OrderDoc>)
    ensures multiset(r) == multiset(s)
    ensures NewestFirst(r)
  {
    if |s| == 0 then []
    else
      var init := s[..|s| - 1];
      assert s == init + [s[|s| - 1]];
      InsertNewestFirst(s[|s| - 1], SortNewestFirst(init))
  }

  function PrintOf(prints: map<PrintId, Print>, id: PrintId): (r: Option<Print>)
    ensures r.Some? <==> id in prints
    ensures r.Some? ==> r.value == prints[id]
  {
    if id in prints then Some(prints[id]) else None
  }

  /** `Promise.all(filtered.map(...))`: pairs each order with its print, in order. */
  function PairWithPrints(s: seq<OrderDoc>, prints: map<PrintId, Print>): (r: seq<Row>)
    ensures |r| == |s|
    ensures forall k :: 0 <= k < |s| ==> r[k] == Row(s[k], PrintOf(prints, s[k].order.printId))
  {
    seq(|s|, k requires 0 <= k < |s| => Row(s[k], PrintOf(prints, s[k].order.printId)))
  }

  lemma CollectIsDistinct(orders: map<OrderId, Order>, n: nat)
    requires forall i: nat :: i < n ==> OrderId(i) in orders
    ensures Distinct(Collect(orders, n))
  {
    var c := Collect(orders, n);
    forall i, j | 0 <= i < j < n
      ensures c[i] != c[j]
    {
      assert c[i].id == OrderId(i) && c[j].id == OrderId(j);
    }
  }

  /** A collected document carries the order stored under its id. */
  lemma CollectedDocsAreStored(orders: map<OrderId, Order>, n: nat, x: OrderDoc)
    requires forall i: nat :: i < n ==> OrderId(i) in orders
    ensures x in Collect(orders, n) <==> x.id.n < n && x.id in orders && x.order == orders[x.id]
  {
    var c := Collect(orders, n);
    if x.id.n < n && x.id in orders && x.order == orders[x.id] {
      assert c[x.id.n] == x;
    }
  }

  /** `listOrders(status)` over a table of `count` orders. */
  function Listing(orders: map<OrderId, Order>, count: nat, prints: map<PrintId, Print>, status: Option<string>): (rows: seq<Row>)
    requires forall i: nat :: i < count ==> OrderId(i) in orders
  {
    PairWithPrints(SortNewestFirst(FilterByStatus(Collect(orders, count), status)), prints)
  }

  /**
   * The listing holds exactly the stored orders whose status matches, each
   * once, newest first, each with the print it refers to.
   */
  lemma ListingIsExact(orders: map<OrderId, Order>, count: nat, prints: map<PrintId, Print>, status: Option<string>)
    requires forall i: nat :: i < count ==> OrderId(i) in orders
    ensures var rows := Listing(orders, count, prints, status);
      && (forall k :: 0 <= k < |rows| ==>
            && rows[k].order.id in orders
            && rows[k].order.order == orders[rows[k].order.id]
            && Matches(status, rows[k].order.order)
            && rows[k].printDoc == PrintOf(prints, rows[k].order.order.printId))
      && (forall i: nat :: i < count && Matches(status, orders[OrderId(i)]) ==>
            exists k :: 0 <= k < |rows| && rows[k].order.id == OrderId(i))
      && (forall k, l :: 0 <= k < l < |rows| ==> rows[k].order.id != rows[l].order.id)
      && (forall k, l :: 0 <= k < l < |rows| ==> rows[k].order.order.createdAt >= rows[l].order.order.createdAt)
  {
    ListingRowsAreStored(orders, count, prints, status);
    ListingIsComplete(orders, count, prints, status);
    ListingIsDistinct(orders, count, prints, status);
  }

  /** Every row is a stored order whose status matches, paired with its print. */
  lemma ListingRowsAreStored(orders: map<OrderId, Order>, count: nat, prints: map<PrintId, Print>, status: Option<string>)
    requires forall i: nat :: i < count ==> OrderId(i) in orders
    ensures var rows := Listing(orders, count, prints, status);
      forall k :: 0 <= k < |rows| ==>
        && rows[k].order.id in orders
        && rows[k].order.order == orders[rows[k].order.id]
        && Matches(status, rows[k].order.order)
        && rows[k].printDoc == PrintOf(prints, rows[k].order.order.printId)
  {
    var filtered := FilterByStatus(Collect(orders, count), status);
    var sorted := SortNewestFirst(filtered);
    var rows := Listing(orders, count, prints, status);
    forall k | 0 <= k < |rows|
      ensures rows[k].order.id in orders && rows[k].order.order == orders[rows[k].order.id]
      ensures Matches(status, rows[k].order.order)
    {
      assert sorted[k] in multiset(filtered);
      CollectedDocsAreStored(orders, count, sorted[k]);
    }
  }

  /** Every stored order whose status matches has a row. */
  lemma ListingIsComplete(orders: map<OrderId, Order>, count: nat, prints: map<PrintId, Print>, status: Option<string>)
    requires forall i: nat :: i < count ==> OrderId(i) in orders
    ensures var rows := Listing(orders, count, prints, status);
      forall i: nat :: i < count && Matches(status, orders[OrderId(i)]) ==>
        exists k :: 0 <= k < |rows| && rows[k].order.id == OrderId(i)
  {
    var filtered := FilterByStatus(Collect(orders, count), status);
    var sorted := SortNewestFirst(filtered);
    var rows := Listing(orders, count, prints, status);
    forall i: nat | i < count && Matches(status, orders[OrderId(i)])
      ensures exists k :: 0 <= k < |rows| && rows[k].order.id == OrderId(i)
    {
      var x := OrderDoc(OrderId(i), orders[OrderId(i)]);
      CollectedDocsAreStored(orders, count, x);
      assert x in multiset(sorted);
      var k :| 0 <= k < |sorted| && sorted[k] == x;
      assert rows[k].order.id == OrderId(i);
    }
  }

  /** No order has two rows. */
  lemma ListingIsDistinct(orders: map<OrderId, Order>, count: nat, prints: map<PrintId, Print>, status: Option<string>)
    requires forall i: nat :: i < count ==> OrderId(i) in orders
    ensures var rows := Listing(orders, count, prints, status);
      forall k, l :: 0 <= k < l < |rows| ==> rows[k].order.id != rows[l].order.id
  {
    var filtered := FilterByStatus(Collect(orders, count), status);
    var sorted := SortNewestFirst(filtered);
    var rows := Listing(orders, count, prints, status);
    CollectIsDistinct(orders, count);
    PermutationKeepsDistinct(filtered, sorted);
    forall k, l | 0 <= k < l < |rows|
      ensures rows[k].order.id != rows[l].order.id
    {
      assert sorted[k] in multiset(filtered) && sorted[l] in multiset(filtered);
      CollectedDocsAreStored(orders, count, sorted[k]);
      CollectedDocsAreStored(orders, count, sorted[l]);
    }
  }

  /** With no status, or an empty one, the listing holds every order. */
  lemma EmptyFilterListsAll(o: Order)
    ensures Matches(None, o) && Matches(Some(""), o)
    ensures forall s: Status :: Matches(Some(StatusName(s)), o) <==> o.status == s
  {
    forall s: Status
      ensures Matches(Some(StatusName(s)), o) <==> o.status == s
    {
      StatusNamesDistinct(o.status, s);
    }
  }

  // ---------------------------------------------------------------------------
  // The tables

  class Db {
    var prints: map<PrintId, Print>
    var orders: map<OrderId, Order>
    var printCount: nat
    var orderCount: nat

    /**
     * Ids are issued consecutively and never reused; every order refers to an
     * existing print and carries that print's creation time.
     */
    ghost predicate Valid()
      reads this
    {
      && (forall id :: id in prints <==> id.n < printCount)
      && (forall id :: id in orders <==> id.n < orderCount)
      && (forall id :: id in orders ==>
            orders[id].printId in prints && orders[id].createdAt == prints[orders[id].printId].createdAt)
    }

    constructor ()
      ensures Valid()
      ensures prints == map[] && orders == map[]
    {
      prints := map[];
      orders := map[];
      printCount := 0;
      orderCount := 0;
    }

    /**
     * `createPrintAndOrder`: inserts a draft print holding the arguments and a
     * draft order for it, both stamped `now`, and returns their fresh ids.
     */
    method CreatePrintAndOrder(args: PrintArgs, now: int) returns (printId: PrintId, orderId: OrderId)
      requires Valid()
      modifies this
      ensures Valid()
      ensures printId !in old(prints) && orderId !in old(orders)
      ensures prints == old(prints)[printId := Print(args, Draft, now)]
      ensures orders == old(orders)[orderId := NewOrder(printId, now)]
    {
      printId := PrintId(printCount);
      prints := prints[printId := Print(args, Draft, now)];
      printCount := printCount + 1;
      orderId := OrderId(orderCount);
      orders := orders[orderId := NewOrder(printId, now)];
      orderCount := orderCount + 1;
    }

    /** `getOrderById`: the stored order, or nothing. */
    function GetOrderById(id: OrderId): (r: Option<Order>)
      reads this
      ensures r.Some? <==> id in orders
      ensures r.Some? ==> r.value == orders[id]
    {
      if id in orders then Some(orders[id]) else None
    }

    /** The print lookup the checkout action relies on. */
    function GetPrintById(id: PrintId): (r: Option<Print>)
      reads this
      ensures r == PrintOf(prints, id)
    {
      PrintOf(prints, id)
    }

    function ListOrders(status: Option<string>): (rows: seq<Row>)
      reads this
      requires Valid()
      ensures forall k :: 0 <= k < |rows| ==>
        && rows[k].order.id in orders
        && rows[k].order.order == orders[rows[k].order.id]
        && Matches(status, rows[k].order.order)
        && rows[k].printDoc == Some(prints[rows[k].order.order.printId])
      ensures forall id :: id in orders && Matches(status, orders[id]) ==>
        exists k :: 0 <= k < |rows| && rows[k].order.id == id
      ensures forall k, l :: 0 <= k < l < |rows| ==> rows[k].order.id != rows[l].order.id
      ensures forall k, l :: 0 <= k < l < |rows| ==> rows[k].order.order.createdAt >= rows[l].order.order.createdAt
    {
      ListingIsExact(orders, orderCount, prints, status);
      var rows := Listing(orders, orderCount, prints, status);
      assert forall id :: id in orders ==> id == OrderId(id.n);
      rows
    }

    /** The single-field patches of orders.ts; `false` when there is no such order. */
    method PatchOrder(id: OrderId, o: Order) returns (ok: bool)
      requires Valid()
      requires id in orders ==> o.printId == orders[id].printId && o.createdAt == orders[id].createdAt
      modifies this
      ensures Valid()
      ensures ok == (id in old(orders))
      ensures ok ==> orders == old(orders)[id := o]
      ensures !ok ==> orders == old(orders)
      ensures prints == old(prints) && printCount == old(printCount) && orderCount == old(orderCount)
    {
      if id !in orders {
        return false;
      }
      orders := orders[id := o];
      return true;
    }

    /** `setStripeSessionId`: overwrites the session id whatever the status or a previous value. */
    method SetStripeSessionId(id: OrderId, sessionId: string) returns (ok: bool)
      requires Valid()
      modifies this
      ensures Valid()
      ensures ok == (id in old(orders))
      ensures ok ==> orders == old(orders)[id := old(orders)[id].(stripeSessionId := Some(sessionId))]
      ensures !ok ==> orders == old(orders)
      ensures prints == old(prints) && printCount == old(printCount) && orderCount == old(orderCount)
    {
      if id !in orders {
        return false;
      }
      ok := PatchOrder(id, orders[id].(stripeSessionId := Some(sessionId)));
    }

    /** `markOrderPaid`: sets status paid from any status, changing nothing else. */
    method MarkOrderPaid(id: OrderId) returns (ok: bool)
      requires Valid()
      modifies this
      ensures Valid()
      ensures ok == (id in old(orders))
      ensures ok ==> orders == old(orders)[id := PatchStatus(old(orders)[id], Paid)]
      ensures !ok ==> orders == old(orders)
      ensures prints == old(prints) && printCount == old(printCount) && orderCount == old(orderCount)
    {
      if id !in orders {
        return false;
      }
      ok := PatchOrder(id, PatchStatus(orders[id], Paid));
    }

    /** `markOrderCanceled`: sets status canceled from any status, changing nothing else. */
    method MarkOrderCanceled(id: OrderId) returns (ok: bool)
      requires Valid()
      modifies this
      ensures Valid()
      ensures ok == (id in old(orders))
      ensures ok ==> orders == old(orders)[id := PatchStatus(old(orders)[id], Canceled)]
      ensures !ok ==> orders == old(orders)
      ensures prints == old(prints) && printCount == old(printCount) && orderCount == old(orderCount)
    {
      if id !in orders {
        return false;
      }
      ok := PatchOrder(id, PatchStatus(orders[id], Canceled));
    }

    /** `applySessionDetails`: writes the fields that were sent, never the status or the print. */
    method ApplySessionDetails(id: OrderId, d: DetailsPatch) returns (ok: bool)
      requires Valid()
      modifies this
      ensures Valid()
      ensures ok == (id in old(orders))
      ensures ok ==> orders == old(orders)[id := ApplyDetails(old(orders)[id], d)]
      ensures !ok ==> orders == old(orders)
      ensures prints == old(prints) && printCount == old(printCount) && orderCount == old(orderCount)
    {
      if id !in orders {
        return false;
      }
      ok := PatchOrder(id, ApplyDetails(orders[id], d));
    }
  }
}
