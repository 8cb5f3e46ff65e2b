/**
 * The customer's order history repeats the admin list's status styles; the
 * two must agree.
 */
module OrderHistory {
  import AdminOrders

  function StatusColor(status: string): (style: string)
    ensures style == AdminOrders.StatusColor(status)
  {
    match status
    case "pending" => "bg-yellow-100 text-yellow-800"
    case "processing" => "bg-blue-100 text-blue-800"
    case "shipped" => "bg-purple-100 text-purple-800"
    case "delivered" => "bg-green-100 text-green-800"
    case "cancelled" => "bg-red-100 text-red-800"
    case _ => "bg-muted text-muted-foreground"
  }
}
