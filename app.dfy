/**
 * The application root: the session (the logged-in user), the application-level
 * order store, and the route table whose decisions depend on the user's type.
 */
module App {
  import opened Common
  import opened Orders
  import Seqs

  /** The user object the login endpoint returns: `{ id, name, email, type }`. */
  datatype User = User(id: int, name: string, email: string, userType: string)

  const CustomerType := "customer"
  const DeliveryType := "delivery"

  const RootPath := "/"
  const LoginPath := "/login"
  const SignupPath := "/signup"
  const CustomerDashboardPath := "/customer-dashboard"
  const DeliveryDashboardPath := "/delivery-dashboard"

  /** The dashboard a logged-in user is sent to: the customer one for type customer, the delivery one for any other type. */
  function HomeFor(u: User): (path: string)
    ensures path == CustomerDashboardPath <==> u.userType == CustomerType
    ensures path == DeliveryDashboardPath <==> u.userType != CustomerType
  {
    if u.userType == CustomerType then CustomerDashboardPath else DeliveryDashboardPath
  }

  /** What the router renders for a path. */
  datatype View = Redirect(to: string) | LoginScreenPage | CustomerDashboardPage | DeliveryDashboardPage | NoMatch

  /**
   * The route table, for the current session: only the five routed paths render
   * anything, every redirect goes to the login page or a dashboard, the login screen
   * renders only without a session and each dashboard only for a user of its type.
   */
  function Route(path: string, user: Option<User>): (view: View)
    ensures view.NoMatch? <==> path !in {RootPath, LoginPath, SignupPath, CustomerDashboardPath, DeliveryDashboardPath}
    ensures view.Redirect? ==> view.to in {LoginPath, CustomerDashboardPath, DeliveryDashboardPath}
    ensures view == LoginScreenPage ==> user.None?
    ensures view == CustomerDashboardPage ==> user.Some? && user.value.userType == CustomerType
    ensures view == DeliveryDashboardPage ==> user.Some? && user.value.userType == DeliveryType
  {
    if path == RootPath then Redirect(LoginPath)
    else if path == LoginPath || path == SignupPath then
      (if user.Some? then Redirect(HomeFor(user.value)) else LoginScreenPage)
    else if path == CustomerDashboardPath then
      (if user.Some? && user.value.userType == CustomerType then CustomerDashboardPage else Redirect(LoginPath))
    else if path == DeliveryDashboardPath then
      (if user.Some? && user.value.userType == DeliveryType then DeliveryDashboardPage else Redirect(LoginPath))
    else NoMatch
  }

  /** The view reached from `path` after following at most `hops` redirects. */
  function Settle(path: string, user: Option<User>, hops: nat): (view: View)
    ensures !Route(path, user).Redirect? ==> view == Route(path, user)
    ensures view.NoMatch? <==> path !in {RootPath, LoginPath, SignupPath, CustomerDashboardPath, DeliveryDashboardPath}
    ensures view.Redirect? ==> view.to in {LoginPath, CustomerDashboardPath, DeliveryDashboardPath}
    decreases hops
  {
    var v := Route(path, user);
    if v.Redirect? && hops > 0 then Settle(v.to, user, hops - 1) else v
  }

  /** The customer dashboard renders only for a logged-in customer; otherwise the route redirects to the login page. */
  lemma CustomerDashboardGuard(user: Option<User>)
    ensures Route(CustomerDashboardPath, user) == CustomerDashboardPage <==> user.Some? && user.value.userType == CustomerType
    ensures Route(CustomerDashboardPath, user) != CustomerDashboardPage ==> Route(CustomerDashboardPath, user) == Redirect(LoginPath)
  {
  }

  /** The delivery dashboard renders only for a logged-in delivery user; otherwise the route redirects to the login page. */
  lemma DeliveryDashboardGuard(user: Option<User>)
    ensures Route(DeliveryDashboardPath, user) == DeliveryDashboardPage <==> user.Some? && user.value.userType == DeliveryType
    ensures Route(DeliveryDashboardPath, user) != DeliveryDashboardPage ==> Route(DeliveryDashboardPath, user) == Redirect(LoginPath)
  {
  }

  /**
   * The login and signup pages show the login screen only without a session; a
   * logged-in user is sent to the customer dashboard if a customer and to the
   * delivery dashboard otherwise.
   */
  lemma LoginPagesRedirectLoggedIn(path: string, user: Option<User>)
    requires path == LoginPath || path == SignupPath
    ensures user.None? ==> Route(path, user) == LoginScreenPage
    ensures user.Some? && user.value.userType == CustomerType ==> Route(path, user) == Redirect(CustomerDashboardPath)
    ensures user.Some? && user.value.userType != CustomerType ==> Route(path, user) == Redirect(DeliveryDashboardPath)
  {
  }

  /**
   * Without a session, and for a customer or delivery user, every routed path
   * reaches a page after at most two redirects; a logged-in user lands on their own dashboard.
   */
  lemma RoutesSettle(path: string, user: Option<User>)
    requires path in {RootPath, LoginPath, SignupPath, CustomerDashboardPath, DeliveryDashboardPath}
    requires user.Some? ==> user.value.userType in {CustomerType, DeliveryType}
    ensures !Settle(path, user, 2).Redirect?
    ensures user.None? ==> Settle(path, user, 2) == LoginScreenPage
    ensures user.Some? && user.value.userType == CustomerType ==> Settle(path, user, 2) == CustomerDashboardPage
    ensures user.Some? && user.value.userType == DeliveryType ==> Settle(path, user, 2) == DeliveryDashboardPage
  {
  }

  /**
   * A logged-in user whose type is neither customer nor delivery is bounced between
   * the login page and the delivery dashboard forever: no number of redirects reaches a page.
   */
  lemma {:induction false} RoutesLoopForOtherTypes(user: User, hops: nat)
    requires user.userType != CustomerType && user.userType != DeliveryType
    ensures Settle(LoginPath, Some(user), hops).Redirect?
    ensures Settle(DeliveryDashboardPath, Some(user), hops).Redirect?
    decreases hops
  {
    if hops > 0 {
      RoutesLoopForOtherTypes(user, hops - 1);
    }
  }

  /** The application-level state: the session user and the order list. */
  class AppStore {
    var user: Option<User>
    var orders: seq<Order>

    /** Both state cells start empty: no user, no orders. */
    constructor ()
      ensures user == None && orders == []
    {
      user := None;
      orders := [];
    }

    /** `setUser(u)`, called by the login screen on a successful login. */
    method SetUser(u: User)
      modifies this`user
      ensures user == Some(u)
    {
      user := Some(u);
    }

    /** `handleLogout`: drops the session; the orders are kept. Repeating it changes nothing. */
    method HandleLogout()
      modifies this`user
      ensures user == None
    {
      user := None;
    }

    /** `addOrder(draft)`: appends the draft with id `now` (the clock reading) and status pending. */
    method AddOrder(draft: Order, now: int)
      modifies this`orders
      ensures orders == WithAdded(old(orders), draft, now)
      ensures |orders| == |old(orders)| + 1 && orders[..|old(orders)|] == old(orders)
      ensures orders[|orders| - 1].id == now && orders[|orders| - 1].status == Pending
    {
      orders := WithAdded(orders, draft, now);
    }

    /** `updateOrder(orderId, patch)`: merges the patch into every order with that id. */
    method UpdateOrder(orderId: int, patch: Patch)
      modifies this`orders
      ensures orders == Updated(old(orders), orderId, patch)
      ensures |orders| == |old(orders)|
      ensures forall i :: 0 <= i < |orders| ==>
        orders[i] == (if old(orders)[i].id == orderId then Merge(old(orders)[i], patch) else old(orders)[i])
    {
      orders := Updated(orders, orderId, patch);
    }

    /** `deleteOrder(orderId)`: drops every order with that id, keeping the rest in order. */
    method DeleteOrder(orderId: int)
      modifies this`orders
      ensures orders == Removed(old(orders), orderId)
      ensures orderId !in Ids(orders)
      ensures Seqs.IsSubsequence(orders, old(orders))
    {
      orders := Removed(orders, orderId);
      RemovedExactly(old(orders), orderId);
    }

    /**
     * `getCustomerOrders(customerId)`: the orders of that customer, each as often as
     * it occurs in the store, in store order, and no other order.
     */
    function CustomerOrders(customerId: int): (r: seq<Order>)
      reads this
      ensures forall o :: o in r ==> o.customerId == customerId
      ensures forall o: Order :: o.customerId == customerId ==> multiset(r)[o] == multiset(orders)[o]
      ensures Seqs.IsSubsequence(r, orders)
    {
      OfCustomerExactly(orders, customerId);
      OfCustomer(orders, customerId)
    }
  }
}
