/**
 * The six order views: which orders a user may list, retrieve or manage, decided from the
 * user's role, the restaurant the user manages and the rider bound to the user.
 *
 * A view answers with the selected orders, `PermissionDenied` with its detail text, a 404
 * from `get_object_or_404`, or an exception the view does not catch. The database is given
 * as sequences of rows; ordering by `-date_ordered` is left to the database and recorded as
 * a flag on the selection.
 */
module OrderViews {
  import opened Wrappers
  import opened Entities
  import opened OrderModels
  import opened OrderSerializers
  import opened ChannelLayer
  import opened OrderSignals
  import opened OrderUtils

  datatype Response<+T> = Granted(value: T) | Forbidden(detail: string) | NotFound | Crash(error: string)

  /** A queryset: its rows, and whether `order_by("-date_ordered")` was applied. */
  datatype Selection = Selection(orders: seq<Order>, newestFirst: bool)

  /** `get_object_or_404` / `get`: no row, exactly one row, or several. */
  datatype Lookup<+T> = Missing | Found(value: T) | Multiple

  const NoManagedRestaurant: string := "Manager is not associated with any restaurant."
  const CreateNeedsStaff: string := "Only managers or admins can create orders."
  const NotYourRestaurantsOrder: string := "This order doesn't belong to your restaurant."
  const NotAssigned: string := "You are not assigned to this order."
  const NoAccessToOrder: string := "You do not have permission to access this order."
  const OwnRestaurantOnly: string := "You can only manage orders for your own restaurant."
  const NoManagePermission: string := "You do not have permission to manage this order."
  const RiderNotYours: string := "This rider does not belong to your restaurant."
  const NoRiderOrdersPermission: string := "You do not have permission to view this rider's orders."
  const NoRiderOrdersAccess: string := "You do not have access to this rider's orders."
  const CreateNeedsManager: string := "Only managers can create orders."
  const CreateOwnRestaurantOnly: string := "You can only create orders for your own restaurant."

  const SeveralRows: string := "MultipleObjectsReturned: get() returned more than one row"
  const OrderWithoutRestaurant: string := "AttributeError: 'NoneType' object has no attribute 'restaurant_id'"
  const OrderWithoutRider: string := "AttributeError: 'NoneType' object has no attribute 'rider_code'"

  /** `queryset.filter(...)`: the rows that satisfy `keep`, in their order. */
  function Filter<T(!new)>(xs: seq<T>, keep: T -> bool): (r: seq<T>)
    ensures forall x :: x in r <==> x in xs && keep(x)
    ensures |r| <= |xs|
  {
    if xs == [] then [] else (if keep(xs[0]) then [xs[0]] else []) + Filter(xs[1..], keep)
  }

  /** `get(...)` over a table: the unique matching row, or why there is none. */
  function Find<T(==,!new)>(xs: seq<T>, matches: T -> bool): (r: Lookup<T>)
    ensures r.Missing? <==> forall x :: x in xs ==> !matches(x)
    ensures r.Found? ==> r.value in xs && matches(r.value)
                         && forall x :: x in xs && matches(x) ==> x == r.value
    ensures r.Multiple? ==> exists x, y :: x in xs && y in xs && matches(x) && matches(y) && x != y
  {
    if xs == [] then Missing
    else
      var rest := Find(xs[1..], matches);
      assert forall x :: x in xs <==> x == xs[0] || x in xs[1..];
      if !matches(xs[0]) then rest
      else match rest
        case Missing => Found(xs[0])
        case Found(v) => if v == xs[0] then rest else Multiple
        case Multiple => Multiple
  }

  /** `restaurant__restaurant_id=code`. */
  predicate OfRestaurant(o: Order, restaurantCode: string)
  {
    o.restaurant.Some? && o.restaurant.value.restaurantId == restaurantCode
  }

  /** `rider__rider_code=code`. */
  predicate AssignedTo(o: Order, riderCode: string)
  {
    o.rider.Some? && o.rider.value.riderCode == riderCode
  }

  /** `get_object_or_404(Rider, user=user)`. */
  function RiderOfUser(riders: seq<Rider>, user: User): Lookup<Rider>
  {
    Find(riders, (r: Rider) => r.userId == Some(user.id))
  }

  /** `get_object_or_404(Rider, rider_code=code)`; a missing URL kwarg matches no rider. */
  function RiderByCode(riders: seq<Rider>, code: Option<string>): Lookup<Rider>
  {
    Find(riders, (r: Rider) => Some(r.riderCode) == code)
  }

  /** `get_object_or_404(Restaurant, restaurant_id=code)`. */
  function RestaurantByCode(restaurants: seq<Restaurant>, code: Option<string>): Lookup<Restaurant>
  {
    Find(restaurants, (r: Restaurant) => Some(r.restaurantId) == code)
  }

  /** A manager whose restaurant has the given code. */
  predicate ManagesRestaurant(user: User, restaurantCode: string)
  {
    user.restaurant.Some? && user.restaurant.value.restaurantId == restaurantCode
  }

  // ---- OrderListCreateView -----------------------------------------------------------------

  /**
   * `OrderListCreateView.get_queryset`: an admin sees every order, a manager the orders of
   * their restaurant, a rider the orders assigned to them, and any other role nothing.
   */
  function OrderList(user: User, orders: seq<Order>, riders: seq<Rider>): (r: Response<Selection>)
    ensures user.role == "admin" ==> r == Granted(Selection(orders, true))
    ensures user.role == "manager" && user.restaurant.None? ==> r == Forbidden(NoManagedRestaurant)
    ensures user.role == "manager" && user.restaurant.Some? ==>
              r.Granted? && r.value.newestFirst
              && forall o :: o in r.value.orders <==>
                               o in orders && OfRestaurant(o, user.restaurant.value.restaurantId)
    ensures user.role == "rider" ==>
              && (RiderOfUser(riders, user).Missing? ==> r == NotFound)
              && (RiderOfUser(riders, user).Multiple? ==> r == Crash(SeveralRows))
              && (RiderOfUser(riders, user).Found? ==>
                    r.Granted? && r.value.newestFirst
                    && forall o :: o in r.value.orders <==>
                                     o in orders && AssignedTo(o, RiderOfUser(riders, user).value.riderCode))
    ensures user.role !in {"admin", "manager", "rider"} ==> r == Granted(Selection([], false))
  {
    if user.role == "admin" then Granted(Selection(orders, true))
    else if user.role == "manager" then
      if user.restaurant.None? then Forbidden(NoManagedRestaurant)
      else
        var code := user.restaurant.value.restaurantId;
        Granted(Selection(Filter(orders, (o: Order) => OfRestaurant(o, code)), true))
    else if user.role == "rider" then
      match RiderOfUser(riders, user)
      case Missing => NotFound
      case Multiple => Crash(SeveralRows)
      case Found(rider) => Granted(Selection(Filter(orders, (o: Order) => AssignedTo(o, rider.riderCode)), true))
    else Granted(Selection([], false))
  }

  /**
   * The checks and the save of `OrderListCreateView.perform_create`: only a manager or an
   * admin may create, and the serializer then saves with no extra arguments.
   */
  function OrderCreateCall(user: User, validated: map<string, Value>): (r: Response<CreateCall>)
    ensures user.role !in {"manager", "admin"} ==> r == Forbidden(CreateNeedsStaff)
    ensures user.role in {"manager", "admin"} ==>
              match Create(validated)
              case Ok(call) => r == Granted(call)
              case Err(e) => r == Crash(e)
  {
    if user.role !in {"manager", "admin"} then Forbidden(CreateNeedsStaff)
    else
      assert validated + map[] == validated;
      match Save(validated, map[])
      case Ok(call) => Granted(call)
      case Err(e) => Crash(e)
  }

  /**
   * An order created through the list view never gets a restaurant: the serializer has no
   * restaurant field, so no restaurant reaches `Order.objects.create`.
   */
  lemma OrderCreateHasNoRestaurant(user: User, validated: map<string, Value>)
    requires validated.Keys <= ReadableFields + WriteOnlyFields
    requires OrderCreateCall(user, validated).Granted?
    ensures "restaurant" !in OrderCreateCall(user, validated).value.others
  {
    assert "restaurant" !in RelatedFields && "restaurant" !in LocationFields;
    assert "restaurant" !in StatusFields && "restaurant" !in MoneyFields;
    assert "restaurant" !in WriteOnlyFields;
  }

  function RiderColumn(v: Value): Option<Rider>
  {
    if v.RiderRef? then Some(v.rider) else None
  }

  function CustomerColumn(v: Value): Option<Customer>
  {
    if v.CustomerRef? then Some(v.customer) else None
  }

  function BranchColumn(v: Value): Option<nat>
  {
    if v.BranchRef? then Some(v.branch) else None
  }

  function RestaurantColumn(others: map<string, Value>): Option<Restaurant>
  {
    if "restaurant" in others && others["restaurant"].RestaurantRef? then Some(others["restaurant"].restaurant) else None
  }

  /**
   * The row `Order.objects.create` inserts for a call: the generated id, the related
   * columns of the call, and the declared defaults for the rest.
   */
  function CreatedOrder(id: string, call: CreateCall): Order
  {
    NewOrder(id, CustomerColumn(call.customer), RiderColumn(call.rider), RestaurantColumn(call.others),
             BranchColumn(call.branch))
  }

  /**
   * `OrderListCreateView.perform_create` as written: past the checks the row is inserted
   * (with `newId` from the id generator) and `post_save` runs `order_saved(created=True)`,
   * whose sends are logged; a receiver that raises makes the request fail.
   */
  method OrderCreate(rt: Runtime, user: User, validated: map<string, Value>, newId: string) returns (r: Response<Order>)
    modifies rt
    ensures rt.groups == old(rt.groups)
    ensures !OrderCreateCall(user, validated).Granted? ==>
              r == Refused(OrderCreateCall(user, validated)) && rt.effects == old(rt.effects)
    ensures OrderCreateCall(user, validated).Granted? ==>
              var o := CreatedOrder(newId, OrderCreateCall(user, validated).value);
              && rt.effects == old(rt.effects) + Broadcasts(o, SaveMessage(o, true)).sends
              && r == (if Broadcasts(o, SaveMessage(o, true)).outcome.Pass? then Granted(o) else Crash(NoRestaurant))
  {
    var call := OrderCreateCall(user, validated);
    if !call.Granted? {
      return Refused(call);
    }
    var o := CreatedOrder(newId, call.value);
    var outcome := OrderSaved(rt, o, true);
    if outcome.Fail? {
      r := Crash(outcome.error);
    } else {
      r := Granted(o);
    }
  }

  /**
   * Every permitted create through the list view makes exactly one broadcast, to the new
   * order's group, and then raises: the order has no restaurant for the dashboard send.
   */
  lemma ListCreateRaises(user: User, validated: map<string, Value>, newId: string)
    requires validated.Keys <= ReadableFields + WriteOnlyFields
    requires OrderCreateCall(user, validated).Granted?
    ensures var o := CreatedOrder(newId, OrderCreateCall(user, validated).value);
            Broadcasts(o, SaveMessage(o, true))
              == Fanout([Broadcast(OrderGroup(newId), SaveMessage(o, true))], Fail(NoRestaurant))
  {
    OrderCreateHasNoRestaurant(user, validated);
  }

  /**
   * `perform_create` with the guarded receiver: a permitted create inserts the row, makes
   * the receiver's sends and succeeds.
   */
  method OrderCreateGuarded(rt: Runtime, user: User, validated: map<string, Value>, newId: string)
    returns (r: Response<Order>)
    modifies rt
    ensures rt.groups == old(rt.groups)
    ensures !OrderCreateCall(user, validated).Granted? ==>
              r == Refused(OrderCreateCall(user, validated)) && rt.effects == old(rt.effects)
    ensures OrderCreateCall(user, validated).Granted? ==>
              var o := CreatedOrder(newId, OrderCreateCall(user, validated).value);
              && rt.effects == old(rt.effects) + GuardedBroadcasts(o, SaveMessage(o, true)).sends
              && r == Granted(o)
  {
    var call := OrderCreateCall(user, validated);
    if !call.Granted? {
      return Refused(call);
    }
    var o := CreatedOrder(newId, call.value);
    var outcome := OrderSavedGuarded(rt, o, true);
    r := Granted(o);
  }

  // ---- OrderRetrieveUpdateDestroyView --------------------------------------------------------

  /**
   * `OrderRetrieveUpdateDestroyView.get_object`, once the order is found: an admin always,
   * a manager only for an order of their restaurant, a rider only for an order assigned to
   * them, nobody else.
   */
  function OrderRetrieve(user: User, order: Order, riders: seq<Rider>): (r: Response<Order>)
    ensures r.Granted? ==> r.value == order
    ensures user.role == "admin" ==> r.Granted?
    ensures user.role == "manager" ==>
              && (user.restaurant.None? ==> r == Forbidden(NotYourRestaurantsOrder))
              && (user.restaurant.Some? && order.restaurant.None? ==> r == Crash(OrderWithoutRestaurant))
              && (user.restaurant.Some? && order.restaurant.Some? ==>
                    (r.Granted? <==> OfRestaurant(order, user.restaurant.value.restaurantId))
                    && (r.Forbidden? <==> !r.Granted?)
                    && (r.Forbidden? ==> r.detail == NotYourRestaurantsOrder))
    ensures user.role == "rider" ==>
              && (RiderOfUser(riders, user).Missing? ==> r == NotFound)
              && (RiderOfUser(riders, user).Multiple? ==> r == Crash(SeveralRows))
              && (RiderOfUser(riders, user).Found? && order.rider.None? ==> r == Crash(OrderWithoutRider))
              && (RiderOfUser(riders, user).Found? && order.rider.Some? ==>
                    (r.Granted? <==> AssignedTo(order, RiderOfUser(riders, user).value.riderCode))
                    && (!r.Granted? ==> r == Forbidden(NotAssigned)))
    ensures user.role !in {"admin", "manager", "rider"} ==> r == Forbidden(NoAccessToOrder)
  {
    if user.role == "admin" then Granted(order)
    else if user.role == "manager" then
      if user.restaurant.None? then Forbidden(NotYourRestaurantsOrder)
      else if order.restaurant.None? then Crash(OrderWithoutRestaurant)
      else if order.restaurant.value.restaurantId != user.restaurant.value.restaurantId then
        Forbidden(NotYourRestaurantsOrder)
      else Granted(order)
    else if user.role == "rider" then
      match RiderOfUser(riders, user)
      case Missing => NotFound
      case Multiple => Crash(SeveralRows)
      case Found(rider) =>
        if order.rider.None? then Crash(OrderWithoutRider)
        else if order.rider.value.riderCode != rider.riderCode then Forbidden(NotAssigned)
        else Granted(order)
    else Forbidden(NoAccessToOrder)
  }

  /**
   * The list and the detail view agree: an order appears in a user's list exactly when the
   * user may retrieve it.
   */
  lemma ListedIffRetrievable(user: User, orders: seq<Order>, riders: seq<Rider>, o: Order)
    requires o in orders
    requires OrderList(user, orders, riders).Granted?
    ensures o in OrderList(user, orders, riders).value.orders <==> OrderRetrieve(user, o, riders).Granted?
  {
  }

  // ---- RestaurantOrderRetrieveUpdateDestroyView ----------------------------------------------

  /**
   * `RestaurantOrderRetrieveUpdateDestroyView.get_queryset`: the URL's restaurant must
   * exist (404 first, whoever asks); then an admin, or the manager of that restaurant, gets
   * its orders, and everyone else is refused.
   */
  function RestaurantOrders(user: User, restaurantCode: Option<string>, restaurants: seq<Restaurant>,
                            orders: seq<Order>): (r: Response<Selection>)
    ensures RestaurantByCode(restaurants, restaurantCode).Missing? ==> r == NotFound
    ensures RestaurantByCode(restaurants, restaurantCode).Multiple? ==> r == Crash(SeveralRows)
    ensures RestaurantByCode(restaurants, restaurantCode).Found? ==>
              var code := RestaurantByCode(restaurants, restaurantCode).value.restaurantId;
              && (r.Granted? <==> user.role == "admin" || (user.role == "manager" && ManagesRestaurant(user, code)))
              && (r.Granted? ==> !r.value.newestFirst
                                 && forall o :: o in r.value.orders <==> o in orders && OfRestaurant(o, code))
              && (user.role == "manager" && !ManagesRestaurant(user, code) ==> r == Forbidden(OwnRestaurantOnly))
              && (user.role !in {"admin", "manager"} ==> r == Forbidden(NoManagePermission))
  {
    match RestaurantByCode(restaurants, restaurantCode)
    case Missing => NotFound
    case Multiple => Crash(SeveralRows)
    case Found(restaurant) =>
      var code := restaurant.restaurantId;
      if user.role == "admin" then Granted(Selection(Filter(orders, (o: Order) => OfRestaurant(o, code)), false))
      else if user.role == "manager" then
        if !ManagesRestaurant(user, code) then Forbidden(OwnRestaurantOnly)
        else Granted(Selection(Filter(orders, (o: Order) => OfRestaurant(o, code)), false))
      else Forbidden(NoManagePermission)
  }

  // ---- RiderOrderListView, RiderOrderRetrieveUpdateDestroyView -------------------------------

  /**
   * The two rider-scoped querysets share one rule and differ in their refusal texts and in
   * the ordering: the rider must exist (404 first); then an admin, or the manager of the
   * rider's restaurant, gets the rider's orders.
   */
  function RiderScoped(user: User, riderCode: Option<string>, riders: seq<Rider>, orders: seq<Order>,
                       notYours: string, noRole: string, newestFirst: bool): (r: Response<Selection>)
    ensures RiderByCode(riders, riderCode).Missing? ==> r == NotFound
    ensures RiderByCode(riders, riderCode).Multiple? ==> r == Crash(SeveralRows)
    ensures RiderByCode(riders, riderCode).Found? ==>
              var rider := RiderByCode(riders, riderCode).value;
              && (r.Granted? <==> user.role == "admin"
                                  || (user.role == "manager" && ManagesRestaurant(user, rider.restaurant.restaurantId)))
              && (r.Granted? ==> r.value.newestFirst == newestFirst
                                 && forall o :: o in r.value.orders <==> o in orders && AssignedTo(o, rider.riderCode))
              && (user.role == "manager" && !ManagesRestaurant(user, rider.restaurant.restaurantId) ==>
                    r == Forbidden(notYours))
              && (user.role !in {"admin", "manager"} ==> r == Forbidden(noRole))
  {
    match RiderByCode(riders, riderCode)
    case Missing => NotFound
    case Multiple => Crash(SeveralRows)
    case Found(rider) =>
      if user.role == "admin" then
        Granted(Selection(Filter(orders, (o: Order) => AssignedTo(o, rider.riderCode)), newestFirst))
      else if user.role == "manager" then
        if !ManagesRestaurant(user, rider.restaurant.restaurantId) then Forbidden(notYours)
        else Granted(Selection(Filter(orders, (o: Order) => AssignedTo(o, rider.riderCode)), newestFirst))
      else Forbidden(noRole)
  }

  /** `RiderOrderListView.get_queryset`: newest first. */
  function RiderOrderList(user: User, riderCode: Option<string>, riders: seq<Rider>, orders: seq<Order>): Response<Selection>
  {
    RiderScoped(user, riderCode, riders, orders, RiderNotYours, NoRiderOrdersPermission, true)
  }

  /** `RiderOrderRetrieveUpdateDestroyView.get_queryset`: unordered. */
  function RiderOrderManage(user: User, riderCode: Option<string>, riders: seq<Rider>, orders: seq<Order>): Response<Selection>
  {
    RiderScoped(user, riderCode, riders, orders, NoRiderOrdersAccess, NoManagePermission, false)
  }

  /**
   * A rider never reaches the rider-scoped views, not even for their own orders: only the
   * admin and the rider's manager get past the role check.
   */
  lemma RidersCannotUseRiderViews(user: User, riderCode: Option<string>, riders: seq<Rider>, orders: seq<Order>)
    requires user.role == "rider"
    ensures !RiderOrderList(user, riderCode, riders, orders).Granted?
    ensures !RiderOrderManage(user, riderCode, riders, orders).Granted?
  {
  }

  // ---- RiderOrderCreateView ------------------------------------------------------------------

  /**
   * The checks of `RiderOrderCreateView.perform_create`: the caller must be a manager; the
   * URL's restaurant and rider must exist; the caller must manage that restaurant, and the
   * rider must belong to it. A request that passes them yields that restaurant and rider.
   */
  function RiderOrderTarget(user: User, restaurantCode: Option<string>, riderCode: Option<string>,
                            restaurants: seq<Restaurant>, riders: seq<Rider>): (r: Response<(Restaurant, Rider)>)
    ensures user.role != "manager" ==> r == Forbidden(CreateNeedsManager)
    ensures r.Granted? <==>
              && user.role == "manager"
              && RestaurantByCode(restaurants, restaurantCode).Found?
              && RiderByCode(riders, riderCode).Found?
              && ManagesRestaurant(user, RestaurantByCode(restaurants, restaurantCode).value.restaurantId)
              && RiderByCode(riders, riderCode).value.restaurant.restaurantId
                   == RestaurantByCode(restaurants, restaurantCode).value.restaurantId
    ensures r.Granted? ==> r.value == (RestaurantByCode(restaurants, restaurantCode).value, RiderByCode(riders, riderCode).value)
  {
    if user.role != "manager" then Forbidden(CreateNeedsManager)
    else match RestaurantByCode(restaurants, restaurantCode)
      case Missing => NotFound
      case Multiple => Crash(SeveralRows)
      case Found(restaurant) =>
        match RiderByCode(riders, riderCode)
        case Missing => NotFound
        case Multiple => Crash(SeveralRows)
        case Found(rider) =>
          if !ManagesRestaurant(user, restaurant.restaurantId) then Forbidden(CreateOwnRestaurantOnly)
          else if rider.restaurant.restaurantId != restaurant.restaurantId then Forbidden(RiderNotYours)
          else Granted((restaurant, rider))
  }

  /** `serializer.save(restaurant=restaurant, rider=rider)`'s keyword arguments. */
  function RiderOrderKwargs(restaurant: Restaurant, rider: Rider): map<string, Value>
  {
    map["restaurant" := RestaurantRef(restaurant), "rider" := RiderRef(rider)]
  }

  /** A refusal, carried over to a response of another type. */
  function Refused<S, T>(r: Response<S>): Response<T>
    requires !r.Granted?
  {
    match r
    case Forbidden(detail) => Forbidden(detail)
    case NotFound => NotFound
    case Crash(e) => Crash(e)
  }

  /**
   * `RiderOrderCreateView.perform_create` as written: past the checks, the order is saved
   * with the written `create`, which raises for every such save.
   */
  function RiderOrderCreateAsWritten(user: User, restaurantCode: Option<string>, riderCode: Option<string>,
                                     restaurants: seq<Restaurant>, riders: seq<Rider>,
                                     validated: map<string, Value>): Response<CreateCall>
  {
    var target := RiderOrderTarget(user, restaurantCode, riderCode, restaurants, riders);
    if !target.Granted? then Refused(target)
    else match Save(validated, RiderOrderKwargs(target.value.0, target.value.1))
      case Ok(call) => Granted(call)
      case Err(e) => Crash(e)
  }

  /**
   * As written, the view never creates an order: a request that passes the checks raises
   * the duplicate-keyword TypeError (or the missing `customer_id` KeyError), and every other
   * request gets the same refusal as the checks give.
   */
  lemma RiderOrderCreateAsWrittenRaises(user: User, restaurantCode: Option<string>, riderCode: Option<string>,
                                        restaurants: seq<Restaurant>, riders: seq<Rider>,
                                        validated: map<string, Value>)
    ensures !RiderOrderCreateAsWritten(user, restaurantCode, riderCode, restaurants, riders, validated).Granted?
    ensures RiderOrderTarget(user, restaurantCode, riderCode, restaurants, riders).Granted? ==>
              RiderOrderCreateAsWritten(user, restaurantCode, riderCode, restaurants, riders, validated)
                == Crash(if "customer_id" in validated then DuplicateKeyword else MissingCustomer)
  {
    var target := RiderOrderTarget(user, restaurantCode, riderCode, restaurants, riders);
    if target.Granted? && "customer_id" in validated {
      SaveWithRiderRaises(validated, target.value.0, target.value.1);
    }
  }

  /**
   * `RiderOrderCreateView.perform_create` with the corrected `create`: past the checks, the
   * order is saved with the URL's restaurant and rider.
   */
  function RiderOrderCreate(user: User, restaurantCode: Option<string>, riderCode: Option<string>,
                            restaurants: seq<Restaurant>, riders: seq<Rider>,
                            validated: map<string, Value>): (r: Response<CreateCall>)
    ensures user.role != "manager" ==> r == Forbidden(CreateNeedsManager)
    ensures r.Granted? <==>
              && user.role == "manager"
              && RestaurantByCode(restaurants, restaurantCode).Found?
              && RiderByCode(riders, riderCode).Found?
              && ManagesRestaurant(user, RestaurantByCode(restaurants, restaurantCode).value.restaurantId)
              && RiderByCode(riders, riderCode).value.restaurant.restaurantId
                   == RestaurantByCode(restaurants, restaurantCode).value.restaurantId
              && ("customer_id" in validated || "customer" in validated)
    ensures r.Granted? ==>
              && r.value.rider == RiderRef(RiderByCode(riders, riderCode).value)
              && "restaurant" in r.value.others
              && r.value.others["restaurant"] == RestaurantRef(RestaurantByCode(restaurants, restaurantCode).value)
    ensures !r.Granted? && ("customer_id" in validated || "customer" in validated) ==>
              r == RiderOrderCreateAsWritten(user, restaurantCode, riderCode, restaurants, riders, validated)
  {
    var target := RiderOrderTarget(user, restaurantCode, riderCode, restaurants, riders);
    if !target.Granted? then Refused(target)
    else
      var kwargs := RiderOrderKwargs(target.value.0, target.value.1);
      assert "restaurant" in validated + kwargs - PoppedKeys - ExplicitKeywords;
      match CreateResolved(validated + kwargs)
      case Ok(call) => Granted(call)
      case Err(e) => Crash(e)
  }
}
