/**
 * The records the core reads, reduced to the columns the core uses.
 * They stand for the Django models of restaurants, riders, customers and users; the ORM
 * that loads them is not part of this model.
 */
module Entities {
  import opened Wrappers
  import DecimalText

  datatype Date = Date(year: int, month: int, day: int)

  /** A GIS point: `x` is the longitude, `y` the latitude. */
  datatype Point = Point(x: real, y: real)

  /**
   * A restaurant: its primary key `id` (used in the dashboard group name), the
   * `restaurant_id` attribute the order views compare, and the pk of its owning user.
   */
  datatype Restaurant = Restaurant(id: nat, restaurantId: string, ownerId: nat)

  /**
   * The signed-in user. `restaurant` is what `user.restaurant` yields; `None` when
   * `hasattr(user, "restaurant")` is false.
   */
  datatype User = User(id: nat, role: string, restaurant: Option<Restaurant>)

  /** A rider, employed by one restaurant, possibly bound to a login user. */
  datatype Rider = Rider(
    id: nat,
    riderCode: string,
    fullName: string,
    userId: Option<nat>,
    restaurant: Restaurant,
    isActive: bool)

  datatype Customer = Customer(
    id: nat,
    name: string,
    email: string,
    phone: string,
    isStudent: bool,
    gender: string,
    location: string)

  /** `date.isoformat()`: `YYYY-MM-DD`. */
  function IsoDate(d: Date): string
  {
    DecimalText.FormatInt(d.year, 4) + "-" + DecimalText.FormatInt(d.month, 2) + "-"
      + DecimalText.FormatInt(d.day, 2)
  }
}
