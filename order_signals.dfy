/**
 * The `post_save` and `post_delete` receivers of `Order`: each sends the change to the
 * order's group and then to its restaurant's dashboard group. The restaurant group name
 * reads `instance.restaurant.id`, which raises when the order has no restaurant; by then the
 * order-group message has already gone out.
 */
module OrderSignals {
  import opened Wrappers
  import opened Json
  import opened Entities
  import opened ChannelLayer
  import opened OrderModels
  import opened OrderUtils
  import OrderSerializers

  const NoRestaurant: string := "AttributeError: 'NoneType' object has no attribute 'id'"

  /** The sends a receiver makes, in order, and how the receiver ends. */
  datatype Fanout = Fanout(sends: seq<Effect>, outcome: Outcome)

  function EventTag(created: bool): string
  {
    if created then "created" else "updated"
  }

  /** `{"event": ..., **OrderSerializer(instance).data}`: later keys win, as in a Python dict display. */
  function SavePayload(o: Order, created: bool): map<string, Json>
  {
    map["event" := JStr(EventTag(created))] + OrderSerializers.Representation(o)
  }

  /** The payload of a save is the event tag and, beside it, exactly the serialized order. */
  lemma SavePayloadContents(o: Order, created: bool)
    ensures SavePayload(o, created)["event"] == JStr(if created then "created" else "updated")
    ensures SavePayload(o, created).Keys == OrderSerializers.ReadableFields + {"event"}
    ensures forall k :: k in OrderSerializers.Representation(o) ==>
              SavePayload(o, created)[k] == OrderSerializers.Representation(o)[k]
  {
    OrderSerializers.RepresentationKeys(o);
  }

  function SaveMessage(o: Order, created: bool): map<string, Json>
  {
    UpdateMessage(JObj(SavePayload(o, created)))
  }

  /** A delete carries only the tag and the order id, never the serialized fields. */
  function DeletePayload(o: Order): (p: map<string, Json>)
    ensures p.Keys == {"event", "order_id"}
    ensures p["event"] == JStr("deleted") && p["order_id"] == JStr(o.id)
  {
    map["event" := JStr("deleted"), "order_id" := JStr(o.id)]
  }

  /** No key of a delete payload is a field of the serialized order. */
  lemma DeletePayloadHasNoOrderFields(o: Order)
    ensures DeletePayload(o).Keys !! OrderSerializers.ReadableFields
  {
    assert "event" !in OrderSerializers.RelatedFields && "order_id" !in OrderSerializers.RelatedFields;
    assert "event" !in OrderSerializers.LocationFields && "order_id" !in OrderSerializers.LocationFields;
    assert "event" !in OrderSerializers.StatusFields && "order_id" !in OrderSerializers.StatusFields;
    assert "event" !in OrderSerializers.MoneyFields && "order_id" !in OrderSerializers.MoneyFields;
  }

  /**
   * Both receivers: the message to the order group, then the same message to the restaurant
   * group; with no restaurant the second send is never made and the receiver raises.
   */
  function Broadcasts(o: Order, message: map<string, Json>): (f: Fanout)
    ensures |f.sends| == if o.restaurant.Some? then 2 else 1
    ensures f.sends[0] == Broadcast(OrderGroup(o.id), message)
    ensures o.restaurant.Some? ==>
              f.sends[1] == Broadcast(RestaurantGroup(o.restaurant.value.id), message) && f.outcome == Pass
    ensures o.restaurant.None? ==> f.outcome == Fail(NoRestaurant)
  {
    match o.restaurant
    case None => Fanout([Broadcast(OrderGroup(o.id), message)], Fail(NoRestaurant))
    case Some(r) =>
      Fanout([Broadcast(OrderGroup(o.id), message), Broadcast(RestaurantGroup(r.id), message)], Pass)
  }

  /**
   * Every send of a receiver is a group send of an order update, addressed to the order's
   * group or to its restaurant's group, and the two groups are different groups; no branch,
   * rider or customer group is ever addressed.
   */
  lemma OnlyOrderAndRestaurantGroups(o: Order, message: map<string, Json>)
    ensures forall e :: e in Broadcasts(o, message).sends ==>
              && e.Broadcast?
              && e.message == message
              && (e.group == OrderGroup(o.id)
                  || (o.restaurant.Some? && e.group == RestaurantGroup(o.restaurant.value.id)))
    ensures o.restaurant.Some? ==>
              Broadcasts(o, message).sends[0].group != Broadcasts(o, message).sends[1].group
  {
    if o.restaurant.Some? {
      GroupKindsDisjoint(o.id, o.restaurant.value.id);
    }
  }

  /** An order placed with a branch and no restaurant reaches only its own group, then raises. */
  lemma BranchOrderNoDashboard(o: Order, created: bool)
    requires o.branch.Some? && o.restaurant.None?
    ensures Broadcasts(o, SaveMessage(o, created)).sends == [Broadcast(OrderGroup(o.id), SaveMessage(o, created))]
    ensures Broadcasts(o, SaveMessage(o, created)).outcome == Fail(NoRestaurant)
  {
  }

  /** `order_saved(instance, created)`. */
  method OrderSaved(rt: Runtime, o: Order, created: bool) returns (outcome: Outcome)
    modifies rt
    ensures rt.groups == old(rt.groups)
    ensures rt.effects == old(rt.effects) + Broadcasts(o, SaveMessage(o, created)).sends
    ensures outcome == Broadcasts(o, SaveMessage(o, created)).outcome
  {
    rt.GroupSend(OrderGroup(o.id), SaveMessage(o, created));
    match o.restaurant
    case None =>
      outcome := Fail(NoRestaurant);
    case Some(r) =>
      rt.GroupSend(RestaurantGroup(r.id), SaveMessage(o, created));
      outcome := Pass;
  }

  /**
   * The receivers as evidently intended: an order may have a branch and no restaurant
   * (`Order.clean` allows it), so the dashboard send is made only when there is a
   * restaurant, and the receiver never raises.
   */
  function GuardedBroadcasts(o: Order, message: map<string, Json>): (f: Fanout)
    ensures f.outcome == Pass
    ensures f.sends == Broadcasts(o, message).sends
    ensures o.restaurant.Some? ==> f == Broadcasts(o, message)
  {
    Fanout(Broadcasts(o, message).sends, Pass)
  }

  /** `order_saved(instance, created)` with the guarded dashboard send. */
  method OrderSavedGuarded(rt: Runtime, o: Order, created: bool) returns (outcome: Outcome)
    modifies rt
    ensures rt.groups == old(rt.groups)
    ensures rt.effects == old(rt.effects) + GuardedBroadcasts(o, SaveMessage(o, created)).sends
    ensures outcome == Pass
  {
    rt.GroupSend(OrderGroup(o.id), SaveMessage(o, created));
    if o.restaurant.Some? {
      rt.GroupSend(RestaurantGroup(o.restaurant.value.id), SaveMessage(o, created));
    }
    outcome := Pass;
  }

  /**
   * `Order.calculate_totals` with its `self.save()`: the new total, then the `post_save`
   * receiver with `created=False`. For an order without a restaurant the receiver raises
   * after the order-group send, so `calculate_totals` itself raises.
   */
  method CalculateTotalsSaved(rt: Runtime, o: Order, items: seq<Item>) returns (updated: Order, outcome: Outcome)
    modifies rt
    ensures updated == o.(total := ItemsTotal(items) + o.deliveryFee + o.platformFee + o.tax)
    ensures rt.groups == old(rt.groups)
    ensures rt.effects == old(rt.effects) + Broadcasts(updated, SaveMessage(updated, false)).sends
    ensures outcome == Broadcasts(updated, SaveMessage(updated, false)).outcome
  {
    updated := CalculateTotals(o, items);
    outcome := OrderSaved(rt, updated, false);
  }

  /** `order_deleted(instance)`. */
  method OrderDeleted(rt: Runtime, o: Order) returns (outcome: Outcome)
    modifies rt
    ensures rt.groups == old(rt.groups)
    ensures rt.effects == old(rt.effects) + Broadcasts(o, UpdateMessage(JObj(DeletePayload(o)))).sends
    ensures outcome == Broadcasts(o, UpdateMessage(JObj(DeletePayload(o)))).outcome
  {
    rt.GroupSend(OrderGroup(o.id), UpdateMessage(JObj(DeletePayload(o))));
    match o.restaurant
    case None =>
      outcome := Fail(NoRestaurant);
    case Some(r) =>
      rt.GroupSend(RestaurantGroup(r.id), UpdateMessage(JObj(DeletePayload(o))));
      outcome := Pass;
  }
}
