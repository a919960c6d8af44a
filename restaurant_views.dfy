/**
 * The state-changing views of the restaurants app: the rider active toggle, starting and
 * ending a rider shift, creating a category with its first food, and choosing the
 * restaurant a new rider is created under. Every lookup is scoped to the signed-in user:
 * a rider, a shift or a restaurant belongs to the user when the restaurant's owner is the user.
 *
 * The database is the `Store`; the clock and the primary key of a new shift are parameters.
 */
module RestaurantViews {
  import opened Wrappers
  import opened Json
  import opened Entities
  import DecimalText

  /** A rider shift: rider and shift type by primary key, who started and ended it, and when it ended. */
  datatype Shift = Shift(
    rider: nat,
    shiftType: nat,
    status: string,
    secretCode: Json,
    startedBy: nat,
    endedBy: Option<nat>,
    endTime: Option<int>)

  datatype Category = Category(restaurant: nat, name: Json)

  /** A food; `category` is the position of its category in the store's category list. */
  datatype Food = Food(restaurant: nat, category: nat, name: Json, description: Json, price: Json)

  /** An HTTP response with its JSON body, or an exception the view does not catch. */
  datatype Response = Respond(status: nat, body: map<string, Json>) | Raised(error: string)

  const RiderNotFound: string := "Rider not found."
  const RiderOrShiftTypeNotFound: string := "Rider or shift type not found."
  const ShiftNotFound: string := "Shift not found."
  const ShiftNotRunning: string := "Shift already ended or cancelled."
  /** DRF's 404 text before version 3.15; later versions pass on Django's "No Restaurant matches the given query.". */
  const NotFound: string := "Not found."
  const CategoryAndFoodRequired: string := "category_name and food are required."
  const FoodNotADict: string := "AttributeError: object has no attribute 'get'"
  const Started: string := "started"
  const Ended: string := "ended"

  function Detail(status: nat, text: string): Response
  {
    Respond(status, map["detail" := JStr(text)])
  }

  /** A shift as `RiderShift.objects.create(rider=..., shift_type=..., started_by=...)` makes it. */
  function NewShift(rider: nat, shiftType: nat, user: User): Shift
  {
    Shift(rider, shiftType, Started, JNull, user.id, None, None)
  }

  /** The serialized shift (the columns this model keeps); the end time is the clock's value. */
  function ShiftBody(pk: nat, s: Shift): map<string, Json>
  {
    map["id" := JNum(pk as real), "rider" := JNum(s.rider as real), "shift_type" := JNum(s.shiftType as real),
        "end_time" := if s.endTime.Some? then JNum(s.endTime.value as real) else JNull,
        "status" := JStr(s.status), "secret_code" := s.secretCode,
        "started_by" := JNum(s.startedBy as real),
        "ended_by" := if s.endedBy.Some? then JNum(s.endedBy.value as real) else JNull]
  }

  /** The toggle's reply: the rider's id, name and new state, and a message naming that state. */
  function ToggleBody(r: Rider): (body: map<string, Json>)
    ensures body.Keys == {"id", "full_name", "is_active", "message"}
    ensures body["id"] == JNum(r.id as real) && body["full_name"] == JStr(r.fullName)
    ensures body["is_active"] == JBool(r.isActive)
    ensures body["message"] == JStr(if r.isActive then "Rider is now active" else "Rider is now inactive")
  {
    map["id" := JNum(r.id as real), "full_name" := JStr(r.fullName), "is_active" := JBool(r.isActive),
        "message" := JStr(if r.isActive then "Rider is now active" else "Rider is now inactive")]
  }

  /** `rider.is_active = not rider.is_active`. */
  function Toggled(r: Rider): (t: Rider)
    ensures t.isActive != r.isActive
    ensures t.(isActive := r.isActive) == r
  {
    r.(isActive := !r.isActive)
  }

  /** Toggling twice gives back the rider as it was. */
  lemma ToggleTwiceRestores(r: Rider)
    ensures Toggled(Toggled(r)) == r
  {
  }

  // ---- choosing the restaurant of a new rider -------------------------------------------

  /** The message of the validation error for a restaurant id the user does not own. */
  function InvalidRestaurant(restaurantId: string): string
  {
    "Invalid restaurant ID \"" + restaurantId + "\" - object does not exist."
  }

  /** `Restaurant.objects.filter(id=..., user=user).first()`, over the restaurants keyed by primary key. */
  function OwnedRestaurant(user: User, restaurantId: string, restaurants: map<nat, Restaurant>): (r: Result<Option<Restaurant>>)
    ensures DecimalText.ParseInt(restaurantId).None? <==> r.Err?
    ensures r.Ok? && r.value.Some? ==> r.value.value.ownerId == user.id
    ensures r.Ok? ==> (r.value.None? <==>
              var n := DecimalText.ParseInt(restaurantId).value;
              n < 0 || n !in restaurants || restaurants[n].ownerId != user.id)
  {
    match DecimalText.ParseInt(restaurantId)
    case None => Err("ValueError: Field 'id' expected a number but got '" + restaurantId + "'.")
    case Some(n) =>
      if n >= 0 && n in restaurants && restaurants[n].ownerId == user.id then Ok(Some(restaurants[n]))
      else Ok(None)
  }

  /**
   * `RestaurantRiderListView.perform_create`: the URL names the restaurant; unless the user
   * owns it, the rider is refused with a validation error; otherwise it is created there,
   * whatever restaurant the form named.
   */
  function RestaurantRiderTarget(user: User, restaurantId: string, restaurants: map<nat, Restaurant>): (r: Result<Restaurant>)
    ensures r.Ok? ==> r.value.ownerId == user.id
    ensures OwnedRestaurant(user, restaurantId, restaurants) == Ok(None) ==> r == Err(InvalidRestaurant(restaurantId))
    ensures r.Ok? <==> OwnedRestaurant(user, restaurantId, restaurants).Ok?
                       && OwnedRestaurant(user, restaurantId, restaurants).value.Some?
  {
    match OwnedRestaurant(user, restaurantId, restaurants)
    case Err(e) => Err(e)
    case Ok(None) => Err(InvalidRestaurant(restaurantId))
    case Ok(Some(restaurant)) => Ok(restaurant)
  }

  /**
   * `RiderListCreateView.perform_create`: with a non-empty restaurant id in the URL, as
   * above; with none, the restaurant the form named is kept (`Ok(None)`).
   */
  function RiderTarget(user: User, restaurantId: Option<string>, restaurants: map<nat, Restaurant>): (r: Result<Option<Restaurant>>)
    ensures restaurantId.None? || restaurantId.value == "" ==> r == Ok(None)
    ensures restaurantId.Some? && restaurantId.value != "" ==>
              match RestaurantRiderTarget(user, restaurantId.value, restaurants)
              case Ok(restaurant) => r == Ok(Some(restaurant))
              case Err(e) => r == Err(e)
  {
    if restaurantId.None? || restaurantId.value == "" then Ok(None)
    else match RestaurantRiderTarget(user, restaurantId.value, restaurants)
      case Ok(restaurant) => Ok(Some(restaurant))
      case Err(e) => Err(e)
  }

  /** A rider created under a URL restaurant is always created under a restaurant the user owns. */
  lemma RiderTargetOwned(user: User, restaurantId: Option<string>, restaurants: map<nat, Restaurant>)
    requires RiderTarget(user, restaurantId, restaurants).Ok?
    requires RiderTarget(user, restaurantId, restaurants).value.Some?
    ensures RiderTarget(user, restaurantId, restaurants).value.value.ownerId == user.id
    ensures RiderTarget(user, restaurantId, restaurants).value.value in restaurants.Values
  {
  }

  class Store {
    var riders: map<nat, Rider>
    var shiftTypes: set<nat>
    var shifts: map<nat, Shift>
    var restaurants: map<nat, Restaurant>
    var categories: seq<Category>
    var foods: seq<Food>

    constructor (riders: map<nat, Rider>, shiftTypes: set<nat>, shifts: map<nat, Shift>, restaurants: map<nat, Restaurant>)
      ensures this.riders == riders && this.shiftTypes == shiftTypes && this.shifts == shifts
      ensures this.restaurants == restaurants && categories == [] && foods == []
    {
      this.riders := riders;
      this.shiftTypes := shiftTypes;
      this.shifts := shifts;
      this.restaurants := restaurants;
      categories := [];
      foods := [];
    }

    /** `Rider.objects.get(pk=pk, restaurant__user=user)` finds a row. */
    predicate OwnsRider(user: User, pk: nat)
      reads this
    {
      pk in riders && riders[pk].restaurant.ownerId == user.id
    }

    /** `RiderShift.objects.get(id=pk, rider__restaurant__user=user)` finds a row. */
    predicate OwnsShift(user: User, pk: nat)
      reads this
    {
      pk in shifts && shifts[pk].rider in riders && riders[shifts[pk].rider].restaurant.ownerId == user.id
    }

    /** `get_object_or_404(Restaurant, id=pk, user=user)` finds a row. */
    predicate OwnsRestaurant(user: User, pk: nat)
      reads this
    {
      pk in restaurants && restaurants[pk].ownerId == user.id
    }

    /**
     * `toggle_rider_active_status`: a rider of the user's restaurants has its active flag
     * flipped; any other pk answers 404 and nothing changes.
     */
    method ToggleRiderActive(user: User, pk: nat) returns (r: Response)
      modifies this
      ensures !old(OwnsRider(user, pk)) ==> r == Detail(404, RiderNotFound) && riders == old(riders)
      ensures old(OwnsRider(user, pk)) ==>
                && riders == old(riders)[pk := Toggled(old(riders)[pk])]
                && r == Respond(200, ToggleBody(riders[pk]))
      ensures shiftTypes == old(shiftTypes) && shifts == old(shifts) && restaurants == old(restaurants)
      ensures categories == old(categories) && foods == old(foods)
    {
      if !OwnsRider(user, pk) {
        return Detail(404, RiderNotFound);
      }
      riders := riders[pk := Toggled(riders[pk])];
      r := Respond(200, ToggleBody(riders[pk]));
    }

    /**
     * `StartRiderShiftView.post`: the rider must be one of the user's and the shift type must
     * exist, else 404 and nothing is created; otherwise exactly one shift is added, started by
     * the user. `freshPk` is the primary key the database assigns.
     */
    method StartShift(user: User, riderPk: nat, shiftTypeId: Option<nat>, freshPk: nat) returns (r: Response)
      requires freshPk !in shifts
      modifies this
      ensures !(old(OwnsRider(user, riderPk)) && shiftTypeId.Some? && shiftTypeId.value in shiftTypes) ==>
                r == Detail(404, RiderOrShiftTypeNotFound) && shifts == old(shifts)
      ensures old(OwnsRider(user, riderPk)) && shiftTypeId.Some? && shiftTypeId.value in shiftTypes ==>
                && shifts == old(shifts)[freshPk := NewShift(riderPk, shiftTypeId.value, user)]
                && r == Respond(201, ShiftBody(freshPk, shifts[freshPk]))
      ensures riders == old(riders) && shiftTypes == old(shiftTypes) && restaurants == old(restaurants)
      ensures categories == old(categories) && foods == old(foods)
    {
      if !OwnsRider(user, riderPk) || shiftTypeId.None? || shiftTypeId.value !in shiftTypes {
        return Detail(404, RiderOrShiftTypeNotFound);
      }
      shifts := shifts[freshPk := NewShift(riderPk, shiftTypeId.value, user)];
      r := Respond(201, ShiftBody(freshPk, shifts[freshPk]));
    }

    /**
     * `EndRiderShiftView.post`: a shift of the user's riders that is still "started" becomes
     * "ended", with the secret code, the user as `ended_by` and `now` as its end time; a
     * shift not found answers 404, a shift not running 400, and neither changes anything.
     */
    method EndShift(user: User, pk: nat, secretCode: Json, now: int) returns (r: Response)
      modifies this
      ensures !old(OwnsShift(user, pk)) ==> r == Detail(404, ShiftNotFound) && shifts == old(shifts)
      ensures old(OwnsShift(user, pk)) && old(shifts)[pk].status != Started ==>
                r == Detail(400, ShiftNotRunning) && shifts == old(shifts)
      ensures old(OwnsShift(user, pk)) && old(shifts)[pk].status == Started ==>
                && shifts == old(shifts)[pk := old(shifts)[pk].(status := Ended, secretCode := secretCode,
                                                                 endedBy := Some(user.id), endTime := Some(now))]
                && r == Respond(200, ShiftBody(pk, shifts[pk]))
      ensures riders == old(riders) && shiftTypes == old(shiftTypes) && restaurants == old(restaurants)
      ensures categories == old(categories) && foods == old(foods)
    {
      if !OwnsShift(user, pk) {
        return Detail(404, ShiftNotFound);
      }
      if shifts[pk].status != Started {
        return Detail(400, ShiftNotRunning);
      }
      shifts := shifts[pk := shifts[pk].(status := Ended, secretCode := secretCode,
                                         endedBy := Some(user.id), endTime := Some(now))];
      r := Respond(200, ShiftBody(pk, shifts[pk]));
    }

    /**
     * `RestaurantCategoryFoodCreateView.post`: the restaurant must be the user's (404); a
     * falsy `category_name` or `food` answers 400 and creates nothing; otherwise the category
     * is created, then the food in it. A `food` that is not a dict raises after the category
     * was created.
     */
    method CreateCategoryWithFood(user: User, restaurantPk: nat, data: map<string, Json>) returns (r: Response)
      modifies this
      ensures !old(OwnsRestaurant(user, restaurantPk)) ==>
                r == Detail(404, NotFound) && categories == old(categories) && foods == old(foods)
      ensures old(OwnsRestaurant(user, restaurantPk)) && !(Truthy(Get(data, "category_name")) && Truthy(Get(data, "food"))) ==>
                r == Detail(400, CategoryAndFoodRequired) && categories == old(categories) && foods == old(foods)
      ensures old(OwnsRestaurant(user, restaurantPk)) && Truthy(Get(data, "category_name")) && Truthy(Get(data, "food")) ==>
                && categories == old(categories) + [Category(restaurantPk, data["category_name"])]
                && (!data["food"].JObj? ==> r == Raised(FoodNotADict) && foods == old(foods))
                && (data["food"].JObj? ==>
                      var food := data["food"].fields;
                      && foods == old(foods) + [Food(restaurantPk, |old(categories)|, Get(food, "name"),
                                                     Get(food, "description"), Get(food, "price"))]
                      && r.Respond? && r.status == 201)
      ensures riders == old(riders) && shiftTypes == old(shiftTypes) && shifts == old(shifts)
      ensures restaurants == old(restaurants)
    {
      if !OwnsRestaurant(user, restaurantPk) {
        return Detail(404, NotFound);
      }
      var categoryName := Get(data, "category_name");
      var foodData := Get(data, "food");
      if !Truthy(categoryName) || !Truthy(foodData) {
        return Detail(400, CategoryAndFoodRequired);
      }
      var categoryPos := |categories|;
      categories := categories + [Category(restaurantPk, categoryName)];
      if !foodData.JObj? {
        return Raised(FoodNotADict);
      }
      var food := Food(restaurantPk, categoryPos, Get(foodData.fields, "name"),
                       Get(foodData.fields, "description"), Get(foodData.fields, "price"));
      foods := foods + [food];
      r := Respond(201, map["category" := JObj(map["name" := categoryName]),
                            "food" := JObj(map["name" := food.name, "description" := food.description,
                                               "price" := food.price])]);
    }
  }

  /** Toggling the same rider twice leaves every rider as it was. */
  method ToggleTwice(store: Store, user: User, pk: nat)
    modifies store
    ensures store.riders == old(store.riders)
  {
    var first := store.ToggleRiderActive(user, pk);
    var second := store.ToggleRiderActive(user, pk);
    if old(store.OwnsRider(user, pk)) {
      ToggleTwiceRestores(old(store.riders)[pk]);
      assert old(store.riders)[pk := old(store.riders)[pk]] == old(store.riders);
    }
  }

  /** Once a shift has been ended, ending it again is refused and changes nothing. */
  method EndTwice(store: Store, user: User, pk: nat, code: Json, now: int, later: int)
    requires store.OwnsShift(user, pk) && store.shifts[pk].status == Started
    modifies store
    ensures pk in store.shifts && store.shifts[pk].status == Ended && store.shifts[pk].endTime == Some(now)
  {
    var first := store.EndShift(user, pk, code, now);
    assert first.Respond? && first.status == 200;
    var second := store.EndShift(user, pk, JStr("other"), later);
    assert second == Detail(400, ShiftNotRunning);
  }
}
