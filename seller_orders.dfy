/**
 * The pure rules of the seller-orders admin page: the search filter over the
 * loaded orders, the status badges, the local list update after a delete, the
 * query string of the order listing request, the short order id and the
 * fallbacks used when counts are missing.
 */
module SellerOrders {
  import opened Wrappers
  import opened Text
  import opened Collections

  datatype Buyer = Buyer(firstName: string, lastName: string, email: string, phone: string)

  datatype Seller = Seller(id: string, firstName: string, lastName: string, email: string, storeName: Option<string>)

  datatype Order = Order(id: string, buyer: Buyer, seller: Seller, status: string, paymentStatus: string)

  // ---------------------------------------------------------------- search

  function FullName(firstName: string, lastName: string): string
  {
    firstName + " " + lastName
  }

  /** `storeName?.toLowerCase() || ''`: an absent store name searches as the empty string. */
  function StoreSearchText(storeName: Option<string>): string
  {
    match storeName
    case None => ""
    case Some(name) => Lower(name)
  }

  /** The six lowered texts the search box looks in, in the order the page tests them. */
  function SearchFields(o: Order): (fields: seq<string>)
    ensures |fields| == 6
  {
    [ Lower(o.id),
      Lower(FullName(o.buyer.firstName, o.buyer.lastName)),
      Lower(o.buyer.email),
      Lower(FullName(o.seller.firstName, o.seller.lastName)),
      Lower(o.seller.email),
      StoreSearchText(o.seller.storeName) ]
  }

  /** The predicate passed to `orders.filter`: an empty query keeps every order. */
  predicate MatchesSearch(o: Order, searchQuery: string)
  {
    if searchQuery != "" then
      var query := Lower(searchQuery);
      Includes(Lower(o.id), query)
      || Includes(Lower(FullName(o.buyer.firstName, o.buyer.lastName)), query)
      || Includes(Lower(o.buyer.email), query)
      || Includes(Lower(FullName(o.seller.firstName, o.seller.lastName)), query)
      || Includes(Lower(o.seller.email), query)
      || Includes(StoreSearchText(o.seller.storeName), query)
    else
      true
  }

  /** The orders shown in the table. */
  function FilterOrders(orders: seq<Order>, searchQuery: string): seq<Order>
  {
    Filter((o: Order) => MatchesSearch(o, searchQuery), orders)
  }

  /** With a non-empty query an order matches iff the lowered query occurs in one of its six search fields. */
  lemma MatchesSearchIff(o: Order, searchQuery: string)
    requires searchQuery != ""
    ensures MatchesSearch(o, searchQuery)
        <==> exists k, i :: 0 <= k < 6 && OccursAt(SearchFields(o)[k], Lower(searchQuery), i)
  {
    var fields := SearchFields(o);
    var query := Lower(searchQuery);
    forall k | 0 <= k < 6
      ensures Includes(fields[k], query) <==> exists i :: OccursAt(fields[k], query, i)
    {
      IncludesIffOccurs(fields[k], query);
    }
    assert MatchesSearch(o, searchQuery) <==> exists k :: 0 <= k < 6 && Includes(fields[k], query) by {
      assert MatchesSearch(o, searchQuery) <==>
        Includes(fields[0], query) || Includes(fields[1], query) || Includes(fields[2], query)
        || Includes(fields[3], query) || Includes(fields[4], query) || Includes(fields[5], query);
    }
  }

  /** An empty search box shows the whole list. */
  lemma FilterOrdersEmptyQuery(orders: seq<Order>)
    ensures FilterOrders(orders, "") == orders
  {
    FilterKeepsAll((o: Order) => MatchesSearch(o, ""), orders);
  }

  /** The shown orders are exactly the loaded orders that match, in their loaded order. */
  lemma FilterOrdersSpec(orders: seq<Order>, searchQuery: string)
    ensures IsSubsequence(FilterOrders(orders, searchQuery), orders)
    ensures forall o :: o in FilterOrders(orders, searchQuery) <==> o in orders && MatchesSearch(o, searchQuery)
    ensures forall o :: multiset(FilterOrders(orders, searchQuery))[o]
                        == if MatchesSearch(o, searchQuery) then multiset(orders)[o] else 0
  {
    FilterIsSubsequence((o: Order) => MatchesSearch(o, searchQuery), orders);
  }

  /** Filtering the shown list again changes nothing. */
  lemma FilterOrdersIdempotent(orders: seq<Order>, searchQuery: string)
    ensures FilterOrders(FilterOrders(orders, searchQuery), searchQuery) == FilterOrders(orders, searchQuery)
  {
    FilterIdempotent((o: Order) => MatchesSearch(o, searchQuery), orders);
  }

  /** The search ignores the letter case of the query. */
  lemma FilterOrdersIgnoresQueryCase(orders: seq<Order>, q1: string, q2: string)
    requires Lower(q1) == Lower(q2)
    ensures FilterOrders(orders, q1) == FilterOrders(orders, q2)
  {
    assert (q1 == "") == (q2 == "") by {
      assert |q1| == |Lower(q1)| == |Lower(q2)| == |q2|;
    }
    FilterCongruent((o: Order) => MatchesSearch(o, q1), (o: Order) => MatchesSearch(o, q2), orders);
  }

  // ---------------------------------------------------------------- badges

  const GreenBadge := "bg-green-100 text-green-800"
  const BlueBadge := "bg-blue-100 text-blue-800"
  const YellowBadge := "bg-yellow-100 text-yellow-800"
  const RedBadge := "bg-red-100 text-red-800"
  const GrayBadge := "bg-gray-100 text-gray-800"

  /** `getStatusBadgeColor`: "pending" and every unknown status fall to gray. */
  function StatusBadgeColor(status: string): (badge: string)
    ensures badge == GreenBadge <==> Lower(status) == "delivered"
    ensures badge == BlueBadge <==> Lower(status) == "shipped"
    ensures badge == YellowBadge <==> Lower(status) == "processing"
    ensures badge == RedBadge <==> Lower(status) == "cancelled"
    ensures badge == GrayBadge <==> Lower(status) !in {"delivered", "shipped", "processing", "cancelled"}
  {
    var s := Lower(status);
    if s == "delivered" then GreenBadge
    else if s == "shipped" then BlueBadge
    else if s == "processing" then YellowBadge
    else if s == "cancelled" then RedBadge
    else GrayBadge
  }

  /** `getPaymentStatusBadgeColor`: "failed" and "cancelled" share red; "pending" and every unknown status fall to yellow. */
  function PaymentStatusBadgeColor(status: string): (badge: string)
    ensures badge == GreenBadge <==> Lower(status) == "completed"
    ensures badge == BlueBadge <==> Lower(status) == "refunded"
    ensures badge == RedBadge <==> Lower(status) in {"failed", "cancelled"}
    ensures badge == YellowBadge <==> Lower(status) !in {"completed", "refunded", "failed", "cancelled"}
    ensures badge in {GreenBadge, BlueBadge, RedBadge, YellowBadge}
  {
    var s := Lower(status);
    if s == "completed" then GreenBadge
    else if s == "refunded" then BlueBadge
    else if s == "failed" then RedBadge
    else if s == "cancelled" then RedBadge
    else YellowBadge
  }

  /** The order-status badge depends on the status only up to letter case. */
  lemma StatusBadgeIgnoresCase(status: string)
    ensures StatusBadgeColor(Lower(status)) == StatusBadgeColor(status)
    ensures StatusBadgeColor(Upper(status)) == StatusBadgeColor(status)
  {
    LowerIdempotent(status);
    LowerOfUpper(status);
  }

  /** The payment badge depends on the status only up to letter case. */
  lemma PaymentBadgeIgnoresCase(status: string)
    ensures PaymentStatusBadgeColor(Lower(status)) == PaymentStatusBadgeColor(status)
    ensures PaymentStatusBadgeColor(Upper(status)) == PaymentStatusBadgeColor(status)
  {
    LowerIdempotent(status);
    LowerOfUpper(status);
  }

  // ---------------------------------------------------------------- delete

  /** The local list after the server confirmed deleting `orderId`. */
  function RemoveOrder(orders: seq<Order>, orderId: string): seq<Order>
  {
    Filter((o: Order) => o.id != orderId, orders)
  }

  /** After a delete the list keeps every other order, in order, and no order with the deleted id. */
  lemma RemoveOrderSpec(orders: seq<Order>, orderId: string)
    ensures IsSubsequence(RemoveOrder(orders, orderId), orders)
    ensures forall o :: o in RemoveOrder(orders, orderId) <==> o in orders && o.id != orderId
    ensures forall o :: multiset(RemoveOrder(orders, orderId))[o] == if o.id != orderId then multiset(orders)[o] else 0
    ensures (forall o :: o in orders ==> o.id != orderId) ==> RemoveOrder(orders, orderId) == orders
    ensures (exists o :: o in orders && o.id == orderId) ==> |RemoveOrder(orders, orderId)| < |orders|
  {
    var p := (o: Order) => o.id != orderId;
    FilterIsSubsequence(p, orders);
    if forall o :: o in orders ==> o.id != orderId {
      FilterKeepsAll(p, orders);
    }
    if exists o :: o in orders && o.id == orderId {
      RemovingShortens(p, orders);
    }
  }

  /** A filter that drops some element is strictly shorter. */
  lemma {:induction false} RemovingShortens<T>(p: T -> bool, s: seq<T>)
    requires exists x :: x in s && !p(x)
    ensures |Filter(p, s)| < |s|
  {
    if p(s[0]) {
      var x :| x in s && !p(x);
      assert x in s[1..];
      RemovingShortens(p, s[1..]);
    }
  }

  // ---------------------------------------------------------------- listing request

  datatype Param = Param(key: string, value: string)

  /** The parameters `fetchOrders` appends: each only when its filter is set, `status` first. */
  function FilterParams(statusFilter: string, sellerFilter: string): (params: seq<Param>)
    ensures Param("status", statusFilter) in params <==> statusFilter != ""
    ensures Param("sellerId", sellerFilter) in params <==> sellerFilter != ""
    ensures forall p :: p in params ==> p == Param("status", statusFilter) || p == Param("sellerId", sellerFilter)
    ensures |params| == (if statusFilter != "" then 1 else 0) + (if sellerFilter != "" then 1 else 0)
    ensures forall i, j :: 0 <= i < j < |params| ==> params[i].key == "status" && params[j].key == "sellerId"
  {
    (if statusFilter != "" then [Param("status", statusFilter)] else [])
    + (if sellerFilter != "" then [Param("sellerId", sellerFilter)] else [])
  }

  /** `params.toString()` without percent-encoding: `key=value` pairs joined by `&`. */
  function SerializeParams(params: seq<Param>): (query: string)
    ensures query == "" <==> params == []
  {
    if params == [] then ""
    else
      var pair := params[0].key + "=" + params[0].value;
      if |params| == 1 then pair else pair + "&" + SerializeParams(params[1..])
  }

  function OrdersPath(apiUrl: string): string
  {
    apiUrl + "/api/orders/admin/all"
  }

  /** The listing URL: `?` and the query are appended only when some filter is set. */
  function OrdersUrl(apiUrl: string, statusFilter: string, sellerFilter: string): (url: string)
    ensures statusFilter == "" && sellerFilter == "" ==> url == OrdersPath(apiUrl)
    ensures statusFilter != "" || sellerFilter != "" ==>
      url == OrdersPath(apiUrl) + "?" + SerializeParams(FilterParams(statusFilter, sellerFilter))
  {
    var query := SerializeParams(FilterParams(statusFilter, sellerFilter));
    if query != "" then OrdersPath(apiUrl) + "?" + query else OrdersPath(apiUrl)
  }

  /** The listing URL as text, for each combination of set and unset filters. */
  lemma OrdersUrlText(apiUrl: string, statusFilter: string, sellerFilter: string)
    ensures statusFilter != "" && sellerFilter != "" ==>
      OrdersUrl(apiUrl, statusFilter, sellerFilter)
        == OrdersPath(apiUrl) + "?status=" + statusFilter + "&sellerId=" + sellerFilter
    ensures statusFilter != "" && sellerFilter == "" ==>
      OrdersUrl(apiUrl, statusFilter, sellerFilter) == OrdersPath(apiUrl) + "?status=" + statusFilter
    ensures statusFilter == "" && sellerFilter != "" ==>
      OrdersUrl(apiUrl, statusFilter, sellerFilter) == OrdersPath(apiUrl) + "?sellerId=" + sellerFilter
  {
    if statusFilter != "" && sellerFilter != "" {
      BothFiltersUrl(apiUrl, statusFilter, sellerFilter);
    } else if statusFilter != "" {
      OneFilterUrl(apiUrl, statusFilter, sellerFilter);
    } else if sellerFilter != "" {
      OneFilterUrl(apiUrl, statusFilter, sellerFilter);
    }
  }

  /** With both filters set the URL ends in `?status=…&sellerId=…`. */
  lemma BothFiltersUrl(apiUrl: string, statusFilter: string, sellerFilter: string)
    requires statusFilter != "" && sellerFilter != ""
    ensures OrdersUrl(apiUrl, statusFilter, sellerFilter)
        == OrdersPath(apiUrl) + "?status=" + statusFilter + "&sellerId=" + sellerFilter
  {
    var ps := FilterParams(statusFilter, sellerFilter);
    assert ps == [Param("status", statusFilter), Param("sellerId", sellerFilter)];
    assert ps[1..] == [Param("sellerId", sellerFilter)];
    assert SerializeParams(ps) == "status=" + statusFilter + "&sellerId=" + sellerFilter;
  }

  /** With exactly one filter set the URL ends in that filter's single parameter. */
  lemma OneFilterUrl(apiUrl: string, statusFilter: string, sellerFilter: string)
    requires (statusFilter == "") != (sellerFilter == "")
    ensures statusFilter != "" ==> OrdersUrl(apiUrl, statusFilter, sellerFilter) == OrdersPath(apiUrl) + "?status=" + statusFilter
    ensures sellerFilter != "" ==> OrdersUrl(apiUrl, statusFilter, sellerFilter) == OrdersPath(apiUrl) + "?sellerId=" + sellerFilter
  {
    if statusFilter != "" {
      assert FilterParams(statusFilter, sellerFilter) == [Param("status", statusFilter)];
    } else {
      assert FilterParams(statusFilter, sellerFilter) == [Param("sellerId", sellerFilter)];
    }
  }

  // ---------------------------------------------------------------- filter controls

  /** The two server-side filters the page keeps in state. */
  datatype Filters = Filters(statusFilter: string, sellerFilter: string)

  /** The controls that change a filter and then reload: the status select, a seller row's button, "clear seller". */
  datatype FilterChange = SelectStatus(status: string) | SelectSeller(sellerId: string) | ClearSeller

  function ApplyFilterChange(f: Filters, c: FilterChange): (g: Filters)
    ensures c.SelectStatus? ==> g == f.(statusFilter := c.status)
    ensures c.SelectSeller? ==> g == f.(sellerFilter := c.sellerId)
    ensures c.ClearSeller? ==> g == f.(sellerFilter := "")
  {
    match c
    case SelectStatus(status) => f.(statusFilter := status)
    case SelectSeller(sellerId) => f.(sellerFilter := sellerId)
    case ClearSeller => f.(sellerFilter := "")
  }

  /**
   * As written: each control calls the state setter and then `fetchOrders` from the same
   * render, whose closure still holds the filters from before the change.
   */
  function ReloadUrlAsWritten(apiUrl: string, f: Filters, c: FilterChange): (url: string)
    ensures f.statusFilter == "" && f.sellerFilter == "" ==> url == OrdersPath(apiUrl)
  {
    OrdersUrl(apiUrl, f.statusFilter, f.sellerFilter)
  }

  /** Selecting "pending" from the unfiltered list requests the unfiltered list again. */
  lemma ReloadAsWrittenIgnoresChange(apiUrl: string)
    ensures ReloadUrlAsWritten(apiUrl, Filters("", ""), SelectStatus("pending")) == OrdersPath(apiUrl)
    ensures OrdersUrl(apiUrl, "pending", "") == OrdersPath(apiUrl) + "?status=pending"
    ensures ReloadUrlAsWritten(apiUrl, Filters("", ""), SelectStatus("pending"))
         != OrdersUrl(apiUrl, "pending", "")
  {
    assert FilterParams("pending", "") == [Param("status", "pending")];
    assert |OrdersPath(apiUrl) + "?status=pending"| != |OrdersPath(apiUrl)|;
  }

  /** Corrected: the reload asks for the filters the control has just set. */
  function ReloadUrl(apiUrl: string, f: Filters, c: FilterChange): (url: string)
    ensures c.SelectStatus? ==> url == OrdersUrl(apiUrl, c.status, f.sellerFilter)
    ensures c.SelectSeller? ==> url == OrdersUrl(apiUrl, f.statusFilter, c.sellerId)
    ensures c.ClearSeller? ==> url == OrdersUrl(apiUrl, f.statusFilter, "")
  {
    var g := ApplyFilterChange(f, c);
    OrdersUrl(apiUrl, g.statusFilter, g.sellerFilter)
  }

  /** After the correction the reload URL carries, as text, the filter value the control has just set. */
  lemma ReloadCarriesNewFilter(apiUrl: string, f: Filters, c: FilterChange)
    ensures c.SelectStatus? && c.status != "" ==>
      ReloadUrl(apiUrl, f, c) == OrdersPath(apiUrl) + "?status=" + c.status
        + (if f.sellerFilter != "" then "&sellerId=" + f.sellerFilter else "")
    ensures c.SelectSeller? && c.sellerId != "" ==>
      ReloadUrl(apiUrl, f, c) == OrdersPath(apiUrl) + "?"
        + (if f.statusFilter != "" then "status=" + f.statusFilter + "&" else "") + "sellerId=" + c.sellerId
    ensures c.ClearSeller? ==>
      ReloadUrl(apiUrl, f, c) == OrdersPath(apiUrl) + (if f.statusFilter != "" then "?status=" + f.statusFilter else "")
  {
    var g := ApplyFilterChange(f, c);
    OrdersUrlText(apiUrl, g.statusFilter, g.sellerFilter);
    var path := OrdersPath(apiUrl);
    match c
    case SelectStatus(v) =>
      if v != "" && f.sellerFilter != "" {
        assert path + "?status=" + v + "&sellerId=" + f.sellerFilter
            == path + "?status=" + v + ("&sellerId=" + f.sellerFilter);
      } else if v != "" {
        assert path + "?status=" + v == path + "?status=" + v + "";
      }
    case SelectSeller(id) =>
      if id != "" && f.statusFilter != "" {
        assert path + "?status=" + f.statusFilter + "&sellerId=" + id
            == path + "?" + ("status=" + f.statusFilter + "&") + "sellerId=" + id;
      } else if id != "" {
        assert path + "?sellerId=" + id == path + "?" + "" + "sellerId=" + id;
      }
    case ClearSeller =>
      if f.statusFilter == "" {
        assert path == path + "";
      }
  }

  // ---------------------------------------------------------------- display

  /** `id.substring(0, 8).toUpperCase()`. */
  function ShortOrderId(id: string): (shown: string)
    ensures |shown| == if |id| < 8 then |id| else 8
    ensures forall i :: 0 <= i < |shown| ==> shown[i] == UpperChar(id[i])
    ensures forall c :: c in shown ==> !IsAsciiLower(c)
  {
    Upper(id[..if |id| < 8 then |id| else 8])
  }

  /** `storeName || t('noStoreName')`: an absent or empty store name shows the fallback label. */
  function StoreLabel(storeName: Option<string>, fallback: string): (shown: string)
    ensures storeName.Some? && storeName.value != "" ==> shown == storeName.value
    ensures storeName.None? || storeName.value == "" ==> shown == fallback
  {
    if storeName.Some? && storeName.value != "" then storeName.value else fallback
  }

  datatype EmptyNotice = AdjustFilters | NoOrdersInSystem

  /** The hint under an empty table: blame the filters whenever any of them is set. */
  function EmptyListNotice(searchQuery: string, statusFilter: string, sellerFilter: string): (notice: EmptyNotice)
    ensures notice == NoOrdersInSystem <==> searchQuery == "" && statusFilter == "" && sellerFilter == ""
  {
    if searchQuery != "" || statusFilter != "" || sellerFilter != "" then AdjustFilters else NoOrdersInSystem
  }

  datatype SellerCount = SellerCount(seller: Seller, count: int)

  /** The response of the count request; any part of it may be missing. */
  datatype OrderCounts = OrderCounts(
    totalCount: Option<int>,
    statusCounts: Option<map<string, int>>,
    paymentStatusCounts: Option<map<string, int>>,
    sellerCounts: Option<seq<SellerCount>>)

  /** `counts?.[key] || 0` on one of the per-status tallies. */
  function Tally(tallies: Option<map<string, int>>, key: string): (n: int)
    ensures tallies.None? || key !in tallies.value ==> n == 0
    ensures tallies.Some? && key in tallies.value ==> n == tallies.value[key]
  {
    if tallies.Some? && key in tallies.value then tallies.value[key] else 0
  }

  /** The "total orders" card. */
  function TotalOrdersShown(counts: Option<OrderCounts>): (n: int)
    ensures counts.None? || counts.value.totalCount.None? ==> n == 0
    ensures counts.Some? && counts.value.totalCount.Some? ==> n == counts.value.totalCount.value
  {
    if counts.Some? && counts.value.totalCount.Some? then counts.value.totalCount.value else 0
  }

  /** The "pending orders" card. */
  function PendingOrdersShown(counts: Option<OrderCounts>): (n: int)
    ensures counts.None? ==> n == 0
    ensures counts.Some? ==> n == Tally(counts.value.statusCounts, "pending")
  {
    if counts.Some? then Tally(counts.value.statusCounts, "pending") else 0
  }

  /** The "completed payments" card. */
  function CompletedPaymentsShown(counts: Option<OrderCounts>): (n: int)
    ensures counts.None? ==> n == 0
    ensures counts.Some? ==> n == Tally(counts.value.paymentStatusCounts, "completed")
  {
    if counts.Some? then Tally(counts.value.paymentStatusCounts, "completed") else 0
  }

  /** The "active sellers" card: the number of sellers in the tally. */
  function ActiveSellersShown(counts: Option<OrderCounts>): (n: nat)
    ensures counts.None? || counts.value.sellerCounts.None? ==> n == 0
    ensures counts.Some? && counts.value.sellerCounts.Some? ==> n == |counts.value.sellerCounts.value|
  {
    if counts.Some? && counts.value.sellerCounts.Some? then |counts.value.sellerCounts.value| else 0
  }
}
