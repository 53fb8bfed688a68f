/** The store dashboard: order-status badges, the supplier menu and the recent-orders list. */
module MinhaLoja {
  import opened Wrappers
  import Auth

  const Gray := "bg-gray-100 text-gray-800"

  predicate KnownStatus(status: string) {
    status == "entregue" || status == "em_transito" || status == "processando" || status == "cancelado"
  }

  /** `getStatusColor`: a colour per known order status, grey for anything else. */
  function StatusColor(status: string): (c: string)
    ensures c == Gray <==> !KnownStatus(status)
  {
    match status
    case "entregue" => "bg-green-100 text-green-800"
    case "em_transito" => "bg-blue-100 text-blue-800"
    case "processando" => "bg-yellow-100 text-yellow-800"
    case "cancelado" => "bg-red-100 text-red-800"
    case _ => Gray
  }

  /** `getStatusText`: a label per known order status; anything else is shown as it is. */
  function StatusText(status: string): (t: string)
    ensures !KnownStatus(status) ==> t == status
  {
    match status
    case "entregue" => "Entregue"
    case "em_transito" => "Em Trânsito"
    case "processando" => "Processando"
    case "cancelado" => "Cancelado"
    case _ => status
  }

  /** The two maps agree: a status gets its own colour exactly when it gets a label of its own,
      and the four known statuses get four different colours. */
  lemma BadgeMapsAgree(status: string, other: string)
    ensures StatusColor(status) == Gray <==> StatusText(status) == status
    ensures KnownStatus(status) && KnownStatus(other) && status != other ==> StatusColor(status) != StatusColor(other)
  {
  }

  /** The supplier menu entries are shown to companies and service providers. */
  function ShowsSupplierMenu(user: Option<Auth.User>): (shown: bool)
    ensures shown <==> user.Some? && (user.value.role == Some("COMPANY") || user.value.role == Some("SERVICE_PROVIDER"))
  {
    match user
    case None => false
    case Some(u) => u.role == Some("COMPANY") || u.role == Some("SERVICE_PROVIDER")
  }

  /** `slice(0, 5)`: the first five orders, or all of them when there are fewer. */
  function RecentOrders<T>(orders: seq<T>): (r: seq<T>)
    ensures r <= orders
    ensures |r| == if |orders| < 5 then |orders| else 5
  {
    if |orders| <= 5 then orders else orders[..5]
  }
}
