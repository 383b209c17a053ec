/** The admin orders page (app/admin/orders/page.tsx): status colours, the status filter and the summary counts. */
module OrdersAdmin {
  import opened Wrappers
  import Seqs
  import Text

  /** An order line; only its presence is counted. */
  datatype OrderItem = OrderItem(id: string)

  /** An `orders` row with its nested `order_items`, which may be absent. */
  datatype Order = Order(
    id: string, customerName: string, status: string, paymentStatus: string, orderItems: Option<seq<OrderItem>>)

  /** The order statuses the page knows, in display order. */
  const Statuses: seq<string> := ["pending", "processing", "shipped", "delivered", "cancelled"]

  /** The filter value that adds no status test. */
  const AllOrders: string := "all"

  const GrayClass: string := "bg-gray-100 text-gray-700"

  /** `getStatusColor`: a class per known status, gray for anything else. */
  function StatusColor(status: string): (r: string)
    ensures r == GrayClass <==> status !in Statuses
  {
    match status
    case "pending" => "bg-yellow-100 text-yellow-700"
    case "processing" => "bg-blue-100 text-blue-700"
    case "shipped" => "bg-purple-100 text-purple-700"
    case "delivered" => "bg-green-100 text-green-700"
    case "cancelled" => "bg-red-100 text-red-700"
    case _ => GrayClass
  }

  /** The five known statuses get five different classes. */
  lemma StatusColorsDistinct(a: string, b: string)
    requires a in Statuses && b in Statuses && a != b
    ensures StatusColor(a) != StatusColor(b)
  {
  }

  /** The status test `fetchOrders` adds to its query: none for `all`, exact equality otherwise. */
  function StatusTest(filter: string): (r: Option<string>)
    ensures r.None? <==> filter == AllOrders
    ensures r.Some? ==> r.value == filter
  {
    if filter == AllOrders then None else Some(filter)
  }

  /** The orders the page lists under `filter`, in the order the backend returned them. */
  function FilteredOrders(orders: seq<Order>, filter: string): (r: seq<Order>)
    ensures Seqs.IsSubseq(r, orders)
    ensures filter == AllOrders ==> r == orders
    ensures filter != AllOrders ==> forall o :: o in r <==> o in orders && o.status == filter
    ensures filter != AllOrders ==> forall o :: multiset(r)[o] == if o.status == filter then multiset(orders)[o] else 0
  {
    match StatusTest(filter)
    case None =>
      Seqs.FilterKeepsAll((o: Order) => true, orders);
      orders
    case Some(s) =>
      Seqs.FilterMembership((o: Order) => o.status == s, orders);
      Seqs.Filter((o: Order) => o.status == s, orders)
  }

  /** `orders.filter(o => o.status === status).length`. */
  function CountStatus(orders: seq<Order>, status: string): (n: nat)
    ensures n <= |orders|
    ensures n == 0 <==> forall k :: 0 <= k < |orders| ==> orders[k].status != status
  {
    Seqs.FilterEmptyIff((o: Order) => o.status == status, orders);
    |Seqs.Filter((o: Order) => o.status == status, orders)|
  }

  /** The number of orders carrying `status`, counted one by one. */
  function Tally(orders: seq<Order>, status: string): nat
    decreases |orders|
  {
    if orders == [] then 0 else (if orders[0].status == status then 1 else 0) + Tally(orders[1..], status)
  }

  /** Each summary count is the number of orders with exactly that status. */
  lemma {:induction false} CountIsTally(orders: seq<Order>, status: string)
    ensures CountStatus(orders, status) == Tally(orders, status)
    decreases |orders|
  {
    if orders != [] {
      CountIsTally(orders[1..], status);
    }
  }

  /** Counts of distinct statuses never add up to more than the number of orders. */
  lemma {:induction false} TalliesBounded(orders: seq<Order>, a: string, b: string, c: string)
    requires a != b && b != c && a != c
    ensures Tally(orders, a) + Tally(orders, b) + Tally(orders, c) <= |orders|
    decreases |orders|
  {
    if orders != [] {
      TalliesBounded(orders[1..], a, b, c);
    }
  }

  /** The pending, processing and delivered cards together count at most the listed orders. */
  lemma SummaryCountsBounded(orders: seq<Order>)
    ensures CountStatus(orders, "pending") <= |orders|
    ensures CountStatus(orders, "pending") + CountStatus(orders, "processing") + CountStatus(orders, "delivered") <= |orders|
  {
    CountIsTally(orders, "pending");
    CountIsTally(orders, "processing");
    CountIsTally(orders, "delivered");
    TalliesBounded(orders, "pending", "processing", "delivered");
  }

  /** Under a status filter, the cards for every other status read zero. */
  lemma OtherCountsZeroUnderFilter(orders: seq<Order>, filter: string, other: string)
    requires filter != AllOrders && other != filter
    ensures CountStatus(FilteredOrders(orders, filter), other) == 0
  {
    var listed := FilteredOrders(orders, filter);
    Seqs.FilterDropsAll((o: Order) => o.status == other, listed);
  }

  /** `order.order_items?.length || 0`. */
  function ItemCount(order: Order): (n: nat)
    ensures order.orderItems.Some? ==> n == |order.orderItems.value|
    ensures order.orderItems.None? ==> n == 0
  {
    match order.orderItems
    case Some(items) => |items|
    case None => 0
  }

  /** `order.id.substring(0, 8)`: the first eight characters of the id (all of a shorter id). */
  function DisplayId(id: string): (r: string)
    ensures Text.StartsWith(id, r)
    ensures |r| == if |id| < 8 then |id| else 8
  {
    Text.Take(id, 8)
  }

  const PaidClass: string := "bg-green-100 text-green-700"
  const UnpaidClass: string := "bg-yellow-100 text-yellow-700"

  /** The payment badge: green exactly for `paid`, yellow for any other payment status. */
  function PaymentClass(paymentStatus: string): (r: string)
    ensures r == PaidClass <==> paymentStatus == "paid"
    ensures r == UnpaidClass <==> paymentStatus != "paid"
  {
    if paymentStatus == "paid" then PaidClass else UnpaidClass
  }
}
