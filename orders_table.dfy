/** The admin panel's order list: the status filter, the count on each filter button, and the
    action each row offers for its order's status. */
module OrdersTable {
  import opened Wrappers
  import Seqs
  import opened Db
  import CompleteOrderRoute

  /** The filter buttons: every order, or the orders with one status. */
  datatype StatusFilter = All | Only(status: Status)

  /** Whether the row of `o` is shown under `filter`. */
  predicate Shows(filter: StatusFilter, o: Order) {
    filter.All? || o.status == filter.status
  }

  /** `filteredOrders`: the shown rows, in the order the page received them. */
  function FilteredOrders(orders: seq<Order>, filter: StatusFilter): (r: seq<Order>)
    ensures filter.All? ==> r == orders
    ensures filter.Only? ==> forall i :: 0 <= i < |r| ==> r[i].status == filter.status
    ensures forall o :: multiset(r)[o] == if Shows(filter, o) then multiset(orders)[o] else 0
    ensures Seqs.IsSubsequence(r, orders)
  {
    Seqs.FilterCounts(orders, o => Shows(filter, o));
    Seqs.Filter(orders, o => Shows(filter, o))
  }

  /** The number on a filter button: `orders.length` for "all", `orders.filter(...).length`
      for a status. */
  function Badge(orders: seq<Order>, filter: StatusFilter): nat {
    |FilteredOrders(orders, filter)|
  }

  /** The number of orders with `status`, counted one by one. */
  function CountWith(orders: seq<Order>, status: Status): nat {
    if orders == [] then 0
    else (if orders[0].status == status then 1 else 0) + CountWith(orders[1..], status)
  }

  lemma FilteredCons(orders: seq<Order>, filter: StatusFilter)
    requires orders != []
    ensures FilteredOrders(orders, filter)
      == (if Shows(filter, orders[0]) then [orders[0]] else []) + FilteredOrders(orders[1..], filter)
  {
  }

  /** A status button counts exactly the orders with that status. */
  lemma {:induction false} BadgeCountsStatus(orders: seq<Order>, status: Status)
    ensures Badge(orders, Only(status)) == CountWith(orders, status)
  {
    if orders != [] {
      FilteredCons(orders, Only(status));
      BadgeCountsStatus(orders[1..], status);
    }
  }

  /** The five status buttons together count every order once: their sum is the "all" badge. */
  lemma {:induction false} BadgesAddUp(orders: seq<Order>)
    ensures Badge(orders, All)
      == Badge(orders, Only(Pending)) + Badge(orders, Only(WaitingPayment)) + Badge(orders, Only(Paid))
       + Badge(orders, Only(Completed)) + Badge(orders, Only(Failed))
  {
    BadgeCountsStatus(orders, Pending);
    BadgeCountsStatus(orders, WaitingPayment);
    BadgeCountsStatus(orders, Paid);
    BadgeCountsStatus(orders, Completed);
    BadgeCountsStatus(orders, Failed);
    CountsAddUp(orders);
  }

  lemma {:induction false} CountsAddUp(orders: seq<Order>)
    ensures |orders|
      == CountWith(orders, Pending) + CountWith(orders, WaitingPayment) + CountWith(orders, Paid)
       + CountWith(orders, Completed) + CountWith(orders, Failed)
  {
    if orders != [] {
      CountsAddUp(orders[1..]);
    }
  }

  /** What a row offers for its order. */
  datatype Action =
    | SimulatePayment  // "🎯 Симулировать оплату"
    | Complete         // "✓ Выполнить", which posts to /api/complete-order
    | NoAction         // a status badge only

  /** The row's conditional rendering, tested in the page's order: COMPLETED, WAITING_PAYMENT,
      PAID, FAILED, then everything else. */
  function ActionFor(status: Status): (a: Action)
    ensures a == SimulatePayment <==> status == WaitingPayment
    ensures a == Complete <==> status == Paid || status == Pending
    ensures a == NoAction <==> status == Completed || status == Failed
  {
    if status == Completed then NoAction
    else if status == WaitingPayment then SimulatePayment
    else if status == Paid then Complete
    else if status == Failed then NoAction
    else
      assert status == Pending;
      Complete
  }

  /** Pressing "complete" on a row completes its order, after which the row offers nothing. */
  lemma CompleteButtonSettlesRow(st: State, id: string)
    requires id != "" && id in st.orders && ActionFor(st.orders[id].status) == Complete
    ensures var out := CompleteOrderRoute.CompleteOrder(st, Some(CompleteOrderRoute.Request(Some(id))));
      out.reply == CompleteOrderRoute.Done && ActionFor(out.state.orders[id].status) == NoAction
  {
  }
}
