/** The seller's orders page: the page loads its orders only after the seller
    check passes, and shows each order's status as a coloured badge with a
    Spanish text. */
module SellerOrders {
  import opened Roles
  import opened Wrappers

  const KnownStatuses: set<string> := {"pending", "processing", "completed", "cancelled"}

  const GrayBadge := "bg-gray-100 text-gray-800"

  /** `getStatusBadgeClass`: a colour per known status, gray for any
      other. */
  function StatusBadgeClass(status: string): (r: string)
    ensures r == GrayBadge <==> status !in KnownStatuses
  {
    match status
    case "pending" => "bg-yellow-100 text-yellow-800"
    case "processing" => "bg-blue-100 text-blue-800"
    case "completed" => "bg-green-100 text-green-800"
    case "cancelled" => "bg-red-100 text-red-800"
    case _ => GrayBadge
  }

  /** `getStatusText`: a Spanish text per known status; any other status is
      shown as itself. */
  function StatusText(status: string): (r: string)
    ensures r == status <==> status !in KnownStatuses
  {
    match status
    case "pending" => "Pendiente"
    case "processing" => "En proceso"
    case "completed" => "Completada"
    case "cancelled" => "Cancelada"
    case _ => status
  }

  /** What the four known statuses show. */
  lemma KnownStatusBadges()
    ensures StatusBadgeClass("pending") == "bg-yellow-100 text-yellow-800" && StatusText("pending") == "Pendiente"
    ensures StatusBadgeClass("processing") == "bg-blue-100 text-blue-800" && StatusText("processing") == "En proceso"
    ensures StatusBadgeClass("completed") == "bg-green-100 text-green-800" && StatusText("completed") == "Completada"
    ensures StatusBadgeClass("cancelled") == "bg-red-100 text-red-800" && StatusText("cancelled") == "Cancelada"
  {
  }

  /** A status outside the four known ones gets the gray badge and is shown
      as itself; a known one never gets either. This only gathers, for one
      status, the fallback clauses of `StatusBadgeClass` and `StatusText`. */
  lemma UnknownStatusFallback(status: string)
    ensures StatusBadgeClass(status) == GrayBadge <==> status !in KnownStatuses
    ensures StatusText(status) == status <==> status !in KnownStatuses
  {
  }

  /** The four known statuses have pairwise different badges, so the badge
      alone tells them apart. */
  lemma KnownBadgesDistinct(a: string, b: string)
    requires a in KnownStatuses && b in KnownStatuses && a != b
    ensures StatusBadgeClass(a) != StatusBadgeClass(b)
  {
  }

  datatype SellerOrder = SellerOrder(id: string, status: string, total: real)

  /** The page state: whether the seller check passed, the orders shown and
      the loading flag. */
  datatype PageState = PageState(authorized: bool, orders: seq<SellerOrder>, loading: bool)

  const InitialState := PageState(false, [], true)

  /** `checkAuthorizationAndLoadOrders`: record the seller check; stop when
      it fails; otherwise show `loaded` (the page's development list) and
      stop loading. */
  function LoadOrders(state: PageState, user: Option<string>, profiles: seq<Profile>, loaded: seq<SellerOrder>): (r: PageState)
    ensures r.authorized == IsSeller(user, profiles)
    ensures !r.authorized ==> r.orders == state.orders && r.loading == state.loading
    ensures r.authorized ==> r.orders == loaded && !r.loading
  {
    var checked := state.(authorized := IsSeller(user, profiles));
    if !checked.authorized then checked
    else checked.(orders := loaded, loading := false)
  }

  /** Starting from the initial page, orders appear only for a user whose
      profile role is `seller`, and without one the page keeps loading. */
  lemma OrdersOnlyForSellers(user: Option<string>, profiles: seq<Profile>, loaded: seq<SellerOrder>)
    requires loaded != []
    ensures var r := LoadOrders(InitialState, user, profiles, loaded);
            (r.orders != [] <==> user.Some? && LookupRole(profiles, user.value) == Some("seller"))
            && (r.loading <==> !r.authorized)
  {
  }
}
