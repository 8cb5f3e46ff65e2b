/**
 * The admin order list: the five order statuses, the status filter, and the
 * style each status is shown with.
 */
module AdminOrders {
  import opened Types
  import Filtering

  const Statuses: seq<string> := ["pending", "processing", "shipped", "delivered", "cancelled"]
  /** The filter value that shows every order. */
  const AllOrders: string := "all"
  const MutedStyle: string := "bg-muted text-muted-foreground"

  function HasStatus(status: string): Order -> bool
  {
    (order: Order) => order.status == status
  }

  /**
   * The orders shown for a filter value: all of them for 'all', otherwise
   * exactly those with that status, as often as they occur and in their order.
   */
  function FilterOrders(orders: seq<Order>, filterStatus: string): (shown: seq<Order>)
    ensures filterStatus == AllOrders ==> shown == orders
    ensures filterStatus != AllOrders ==>
      forall o :: multiset(shown)[o] == if o.status == filterStatus then multiset(orders)[o] else 0
    ensures Filtering.IsSubsequence(shown, orders)
    ensures |shown| <= |orders|
  {
    if filterStatus == AllOrders then
      Filtering.SubsequenceReflexive(orders);
      orders
    else
      Filtering.FilterCount(orders, HasStatus(filterStatus));
      Filtering.FilterIsSubsequence(orders, HasStatus(filterStatus));
      Filtering.Filter(orders, HasStatus(filterStatus))
  }

  /** Filtering the filtered list again by the same value changes nothing. */
  lemma FilterOrdersIdempotent(orders: seq<Order>, filterStatus: string)
    ensures FilterOrders(FilterOrders(orders, filterStatus), filterStatus) == FilterOrders(orders, filterStatus)
  {
    if filterStatus != AllOrders {
      Filtering.FilterIdempotent(orders, HasStatus(filterStatus));
    }
  }

  /** When every order has the chosen status, the filter shows them all. */
  lemma FilterOrdersUniform(orders: seq<Order>, filterStatus: string)
    requires forall i :: 0 <= i < |orders| ==> orders[i].status == filterStatus
    ensures FilterOrders(orders, filterStatus) == orders
  {
    if filterStatus != AllOrders {
      Filtering.FilterKeepsAll(orders, HasStatus(filterStatus));
    }
  }

  /** Each of the five statuses has its own style; anything else is muted. */
  function StatusColor(status: string): (style: string)
    ensures status in Statuses <==> style != MutedStyle
  {
    match status
    case "pending" => "bg-yellow-100 text-yellow-800"
    case "processing" => "bg-blue-100 text-blue-800"
    case "shipped" => "bg-purple-100 text-purple-800"
    case "delivered" => "bg-green-100 text-green-800"
    case "cancelled" => "bg-red-100 text-red-800"
    case _ => "bg-muted text-muted-foreground"
  }

  /** No two statuses share a style. */
  lemma StatusColorsDistinct(i: nat, j: nat)
    requires i < |Statuses| && j < |Statuses| && i != j
    ensures StatusColor(Statuses[i]) != StatusColor(Statuses[j])
  {
  }

  /** The per-order selector offers each status once; 'all' is not one of them. */
  function StatusOptions(): (options: seq<string>)
    ensures |options| == 5 && AllOrders !in options
    ensures forall i, j :: 0 <= i < j < |options| ==> options[i] != options[j]
    ensures forall s :: s in options <==> StatusColor(s) != MutedStyle
  {
    Statuses
  }

  /** The filter menu: 'all' first, then every status. */
  function FilterOptions(): (options: seq<string>)
    ensures options == [AllOrders] + StatusOptions()
  {
    [AllOrders] + Statuses
  }
}
