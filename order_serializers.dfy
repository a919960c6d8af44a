/**
 * The order serializer: primary-key coercion, the coordinate field, the read representation
 * of an order, and `create`, which turns validated data into the arguments of
 * `Order.objects.create`.
 */
module OrderSerializers {
  import opened Wrappers
  import opened Json
  import opened Entities
  import opened OrderModels
  import DecimalText

  const InvalidCoordinates: string := "Invalid coordinates format."

  // ---- FlexiblePKRelatedField.to_internal_value ------------------------------------------

  /**
   * The value handed on to the primary-key lookup: a string made only of digits becomes the
   * integer it denotes; an empty string, any other string and every non-string pass unchanged.
   */
  function CoercePk(data: Json): (r: Json)
    ensures r != data <==> data.JStr? && DecimalText.IsDigitString(data.s)
    ensures data.JStr? && DecimalText.IsDigitString(data.s) ==>
              r == JNum(DecimalText.DigitsValue(data.s) as real)
  {
    if data.JStr? && DecimalText.IsDigitString(data.s) then
      JNum(DecimalText.DigitsValue(data.s) as real)
    else
      data
  }

  /** The decimal numeral of `n`, sent as a string, is looked up as the number `n`. */
  lemma CoercePkNumeral(n: nat)
    ensures CoercePk(JStr(DecimalText.NatToString(n))) == JNum(n as real)
  {
    DecimalText.NatToStringValue(n);
  }

  /** A character key such as "user_130379" reaches the lookup as the same string. */
  lemma CoercePkKeepsCharacterKeys()
    ensures CoercePk(JStr("user_130379")) == JStr("user_130379")
    ensures CoercePk(JStr("")) == JStr("")
  {
    assert !DecimalText.IsDigit("user_130379"[0]);
  }

  // ---- PointField ----------------------------------------------------------------------

  /** `to_representation`: a point becomes `{"lat": y, "lng": x}`. */
  function PointToJson(p: Point): (j: Json)
    ensures j.JObj? && j.fields.Keys == {"lat", "lng"}
    ensures j.fields["lat"] == JNum(p.y) && j.fields["lng"] == JNum(p.x)
  {
    JObj(map["lat" := JNum(p.y), "lng" := JNum(p.x)])
  }

  /**
   * Python's `float(v)` on a decoded JSON value: numbers and booleans convert, strings
   * convert when they are integer literals, `None`, lists and dicts raise.
   */
  function FloatOf(v: Json): Option<real>
  {
    match v
    case JNum(n) => Some(n)
    case JBool(b) => Some(if b then 1.0 else 0.0)
    case JStr(s) =>
      (match DecimalText.ParseInt(s)
       case Some(n) => Some(n as real)
       case None => None)
    case _ => None
  }

  /**
   * `to_internal_value`: a dict whose "lat" and "lng" both convert becomes `Point(lng, lat)`;
   * a non-dict, a missing key or a value that does not convert is rejected with one message.
   */
  function PointFromJson(data: Json): (r: Result<Point>)
    ensures r.Err? ==> r.error == InvalidCoordinates
    ensures !data.JObj? ==> r.Err?
    ensures data.JObj? && ("lat" !in data.fields || "lng" !in data.fields) ==> r.Err?
    ensures r.Ok? <==> data.JObj? && FloatOf(Get(data.fields, "lat")).Some?
                                  && FloatOf(Get(data.fields, "lng")).Some?
    ensures r.Ok? ==> r.value == Point(FloatOf(Get(data.fields, "lng")).value,
                                       FloatOf(Get(data.fields, "lat")).value)
  {
    if !data.JObj? then Err(InvalidCoordinates)
    else
      var lat := FloatOf(Get(data.fields, "lat"));
      var lng := FloatOf(Get(data.fields, "lng"));
      if lat.None? || lng.None? then Err(InvalidCoordinates)
      else Ok(Point(lng.value, lat.value))
  }

  /** Writing a point and reading it back gives the same point. */
  lemma PointRoundTrip(p: Point)
    ensures PointFromJson(PointToJson(p)) == Ok(p)
  {
  }

  /** Whatever input was accepted, the point it yields is shown with the converted lat and lng. */
  lemma PointAcceptedShape(data: Json, p: Point)
    requires PointFromJson(data) == Ok(p)
    ensures PointToJson(p) == JObj(map["lat" := JNum(FloatOf(data.fields["lat"]).value),
                                       "lng" := JNum(FloatOf(data.fields["lng"]).value)])
  {
  }

  // ---- OrderSerializer: read representation ----------------------------------------------

  /** The fields an order is shown with: `Meta.fields` without the write-only ones. */
  const ReadableFields: set<string> := RelatedFields + LocationFields + StatusFields + MoneyFields
  const RelatedFields: set<string> := {"id", "rider", "customer", "branch"}
  const LocationFields: set<string> := {"pickup_location", "dropoff_location", "current_location"}
  const StatusFields: set<string> :=
    {"status", "date_ordered", "date_delivered", "payment_method", "payment_status"}
  const MoneyFields: set<string> := {"delivery_fee", "platform_fee", "tax", "total"}

  const WriteOnlyFields: set<string> := {"rider_id", "customer_id", "branch_id"}

  /** A two-place decimal in cents, as the serializer renders it: "12.50", "-0.05". */
  function CentsText(c: int): string
  {
    var m: nat := if c < 0 then -c else c;
    (if c < 0 then "-" else "") + DecimalText.NatToString(m / 100) + "."
      + DecimalText.FormatInt(m % 100, 2)
  }

  /** The nested rider (only the columns this model keeps). */
  function RiderJson(r: Rider): Json
  {
    JObj(map["id" := JNum(r.id as real), "rider_code" := JStr(r.riderCode),
             "full_name" := JStr(r.fullName), "restaurant" := JNum(r.restaurant.id as real),
             "is_active" := JBool(r.isActive)])
  }

  /** The nested customer (all columns but the photo). */
  function CustomerJson(c: Customer): Json
  {
    JObj(map["id" := JNum(c.id as real), "name" := JStr(c.name), "email" := JStr(c.email),
             "phone" := JStr(c.phone), "is_student" := JBool(c.isStudent),
             "gender" := JStr(c.gender), "location" := JStr(c.location)])
  }

  function PointOrNull(p: Option<Point>): Json
  {
    if p.Some? then PointToJson(p.value) else JNull
  }

  function DateOrNull(d: Option<Date>): Json
  {
    if d.Some? then JStr(IsoDate(d.value)) else JNull
  }

  /** `OrderSerializer(order).data`: one entry per readable field. */
  function Representation(o: Order): (data: map<string, Json>)
    ensures data.Keys == ReadableFields
    ensures data["id"] == JStr(o.id) && data["status"] == JStr(o.status)
  {
    MoneyPart(o) + LocationPart(o) + StatusPart(o) + RelatedPart(o)
  }

  function RelatedPart(o: Order): (m: map<string, Json>)
    ensures m.Keys == RelatedFields && m["id"] == JStr(o.id)
  {
    map[
      "id" := JStr(o.id),
      "rider" := (if o.rider.Some? then RiderJson(o.rider.value) else JNull),
      "customer" := (if o.customer.Some? then CustomerJson(o.customer.value) else JNull),
      "branch" := (if o.branch.Some? then JNum(o.branch.value as real) else JNull)
    ]
  }

  function LocationPart(o: Order): (m: map<string, Json>)
    ensures m.Keys == LocationFields
  {
    map[
      "pickup_location" := PointOrNull(o.pickupLocation),
      "dropoff_location" := PointOrNull(o.dropoffLocation),
      "current_location" := PointOrNull(o.currentLocation)
    ]
  }

  function StatusPart(o: Order): (m: map<string, Json>)
    ensures m.Keys == StatusFields
    ensures m["status"] == JStr(o.status)
  {
    map[
      "status" := JStr(o.status),
      "date_ordered" := DateOrNull(o.dateOrdered),
      "date_delivered" := DateOrNull(o.dateDelivered),
      "payment_method" := JStr(o.paymentMethod),
      "payment_status" := JStr(o.paymentStatus)
    ]
  }

  function MoneyPart(o: Order): (m: map<string, Json>)
    ensures m.Keys == MoneyFields
  {
    map[
      "delivery_fee" := JStr(CentsText(o.deliveryFee)),
      "platform_fee" := JStr(CentsText(o.platformFee)),
      "tax" := JStr(CentsText(o.tax)),
      "total" := JStr(CentsText(o.total))
    ]
  }

  /**
   * The representation never shows a write-only field, has no "event" key for a broadcast
   * to collide with, and does not name the order's restaurant.
   */
  lemma RepresentationKeys(o: Order)
    ensures Representation(o).Keys !! WriteOnlyFields
    ensures "event" !in Representation(o) && "restaurant" !in Representation(o)
  {
    assert RelatedFields !! WriteOnlyFields && LocationFields !! WriteOnlyFields;
    assert StatusFields !! WriteOnlyFields && MoneyFields !! WriteOnlyFields;
    assert "event" !in RelatedFields && "event" !in LocationFields;
    assert "event" !in StatusFields && "event" !in MoneyFields;
    assert "restaurant" !in RelatedFields && "restaurant" !in LocationFields;
    assert "restaurant" !in StatusFields && "restaurant" !in MoneyFields;
  }

  // ---- OrderSerializer.create ----------------------------------------------------------

  /** A validated value: plain JSON, a related instance resolved from its pk, or None. */
  datatype Value =
    | Plain(json: Json)
    | RiderRef(rider: Rider)
    | CustomerRef(customer: Customer)
    | BranchRef(branch: nat)
    | RestaurantRef(restaurant: Restaurant)
    | NoneValue

  /** The arguments of `Order.objects.create(rider=..., customer=..., branch=..., **others)`. */
  datatype CreateCall = CreateCall(rider: Value, customer: Value, branch: Value, others: map<string, Value>)

  const PoppedKeys: set<string> := {"rider_id", "customer_id", "branch_id"}
  const ExplicitKeywords: set<string> := {"rider", "customer", "branch"}
  const MissingCustomer: string := "KeyError: 'customer_id'"
  /**
   * Python's TypeError for a keyword passed twice. Python's own text also names the keyword
   * and qualifies `create()`; this model keeps one text for all three keywords.
   */
  const DuplicateKeyword: string := "TypeError: create() got multiple values for keyword argument"

  /** `validated_data.pop(key, default)`. */
  function Pop(d: map<string, Value>, key: string, default: Value): Value
  {
    if key in d then d[key] else default
  }

  /**
   * `create`: pops `rider_id` (default None), `customer_id` (required) and `branch_id`
   * (default None) and passes them as `rider`, `customer`, `branch` beside the rest.
   * A remaining key that is one of those three keywords makes the call raise.
   */
  function Create(validated: map<string, Value>): (r: Result<CreateCall>)
    ensures "customer_id" !in validated ==> r == Err(MissingCustomer)
    ensures r.Ok? <==> "customer_id" in validated && validated.Keys !! ExplicitKeywords
    ensures r.Ok? ==> && r.value.rider == Pop(validated, "rider_id", NoneValue)
                      && r.value.customer == validated["customer_id"]
                      && r.value.branch == Pop(validated, "branch_id", NoneValue)
                      && r.value.others == validated - PoppedKeys
  {
    if "customer_id" !in validated then Err(MissingCustomer)
    else
      var others := validated - PoppedKeys;
      assert forall k :: k in ExplicitKeywords ==> (k in others <==> k in validated);
      if !(others.Keys !! ExplicitKeywords) then Err(DuplicateKeyword)
      else Ok(CreateCall(Pop(validated, "rider_id", NoneValue), validated["customer_id"],
                         Pop(validated, "branch_id", NoneValue), others))
  }

  /** `serializer.save(**kwargs)` on a new instance: the keyword arguments join the validated data. */
  function Save(validated: map<string, Value>, kwargs: map<string, Value>): Result<CreateCall>
  {
    Create(validated + kwargs)
  }

  /**
   * `serializer.save(restaurant=..., rider=...)` as the rider-order view calls it: `rider` is
   * still a key of the data when `create` passes `rider=` explicitly, so the call raises,
   * whatever the request carried.
   */
  lemma SaveWithRiderRaises(validated: map<string, Value>, restaurant: Restaurant, rider: Rider)
    requires "customer_id" in validated
    ensures Save(validated, map["restaurant" := RestaurantRef(restaurant), "rider" := RiderRef(rider)])
              == Err(DuplicateKeyword)
  {
    var d := validated + map["restaurant" := RestaurantRef(restaurant), "rider" := RiderRef(rider)];
    assert "rider" in d - PoppedKeys && "rider" in ExplicitKeywords;
  }

  /** The related value for `key`: an instance given by keyword wins over the popped pk. */
  function Resolve(d: map<string, Value>, key: string, pkKey: string, default: Value): Value
  {
    if key in d then d[key] else Pop(d, pkKey, default)
  }

  /**
   * `create` as evidently intended: a related instance handed to `save` by keyword
   * (`rider=`, `branch=`, `customer=`) takes the place of the pk field and is passed once.
   * Where the written `create` succeeds, this one returns the same call.
   */
  function CreateResolved(validated: map<string, Value>): (r: Result<CreateCall>)
    ensures r.Ok? <==> "customer_id" in validated || "customer" in validated
    ensures r.Ok? ==> && r.value.rider == Resolve(validated, "rider", "rider_id", NoneValue)
                      && r.value.customer == Resolve(validated, "customer", "customer_id", NoneValue)
                      && r.value.branch == Resolve(validated, "branch", "branch_id", NoneValue)
                      && r.value.others == validated - PoppedKeys - ExplicitKeywords
    ensures Create(validated).Ok? ==> r == Create(validated)
  {
    if "customer_id" !in validated && "customer" !in validated then Err(MissingCustomer)
    else
      var others := validated - PoppedKeys - ExplicitKeywords;
      assert validated.Keys !! ExplicitKeywords ==> others == validated - PoppedKeys;
      Ok(CreateCall(Resolve(validated, "rider", "rider_id", NoneValue),
                    Resolve(validated, "customer", "customer_id", NoneValue),
                    Resolve(validated, "branch", "branch_id", NoneValue), others))
  }

  /** With the corrected `create`, the save of the rider-order view yields the URL's rider and restaurant. */
  lemma SaveWithRiderResolved(validated: map<string, Value>, restaurant: Restaurant, rider: Rider)
    requires "customer_id" in validated
    ensures CreateResolved(validated + map["restaurant" := RestaurantRef(restaurant), "rider" := RiderRef(rider)]).Ok?
    ensures var call := CreateResolved(validated + map["restaurant" := RestaurantRef(restaurant), "rider" := RiderRef(rider)]).value;
            call.rider == RiderRef(rider) && call.others["restaurant"] == RestaurantRef(restaurant)
  {
    var d := validated + map["restaurant" := RestaurantRef(restaurant), "rider" := RiderRef(rider)];
    assert "restaurant" in d - PoppedKeys - ExplicitKeywords;
  }

  /** With no `rider_id` or `branch_id` supplied, both default to None. */
  lemma CreateDefaults(validated: map<string, Value>)
    requires "customer_id" in validated && validated.Keys !! ExplicitKeywords
    requires "rider_id" !in validated && "branch_id" !in validated
    ensures Create(validated).Ok?
    ensures Create(validated).value.rider == NoneValue && Create(validated).value.branch == NoneValue
  {
  }
}
