/**
 * Group names of the real-time layer and the one-group update helper `send_order_update`.
 * An order's trackers listen on `order_<order id>`, a restaurant dashboard on
 * `restaurant_<restaurant pk>`.
 */
module OrderUtils {
  import opened Json
  import opened ChannelLayer
  import DecimalText

  /** The `type` of every order update; the layer dispatches it to the consumer handler of that name. */
  const UpdateType: string := "send_order_update"

  function OrderGroup(orderId: string): string
  {
    "order_" + orderId
  }

  function RestaurantGroup(restaurantPk: nat): string
  {
    "restaurant_" + DecimalText.NatToString(restaurantPk)
  }

  /** An order group is never a restaurant group, whatever the ids. */
  lemma GroupKindsDisjoint(orderId: string, restaurantPk: nat)
    ensures OrderGroup(orderId) != RestaurantGroup(restaurantPk)
  {
    assert OrderGroup(orderId)[0] == 'o' && RestaurantGroup(restaurantPk)[0] == 'r';
  }

  /** Distinct orders have distinct groups, and so do distinct restaurants. */
  lemma GroupNamesInjective(a: string, b: string, m: nat, n: nat)
    ensures OrderGroup(a) == OrderGroup(b) ==> a == b
    ensures RestaurantGroup(m) == RestaurantGroup(n) ==> m == n
  {
    if OrderGroup(a) == OrderGroup(b) {
      assert a == OrderGroup(a)[6..] && b == OrderGroup(b)[6..];
    }
    if RestaurantGroup(m) == RestaurantGroup(n) {
      assert DecimalText.NatToString(m) == RestaurantGroup(m)[11..];
      assert DecimalText.NatToString(n) == RestaurantGroup(n)[11..];
      DecimalText.NatToStringValue(m);
      DecimalText.NatToStringValue(n);
    }
  }

  /** The group message for an order update: exactly the keys `type` and `data`, `data` as given. */
  function UpdateMessage(data: Json): (m: map<string, Json>)
    ensures m.Keys == {"type", "data"}
    ensures m["type"] == JStr(UpdateType) && m["data"] == data
  {
    map["type" := JStr(UpdateType), "data" := data]
  }

  /** Different data never yield the same message: `data` is forwarded unchanged. */
  lemma UpdateMessageInjective(d1: Json, d2: Json)
    ensures UpdateMessage(d1) == UpdateMessage(d2) ==> d1 == d2
  {
    if UpdateMessage(d1) == UpdateMessage(d2) {
      assert UpdateMessage(d1)["data"] == UpdateMessage(d2)["data"];
    }
  }

  /** `send_order_update(order_id, data)`: one group send, to the order's group, and nothing else. */
  method SendOrderUpdate(rt: Runtime, orderId: string, data: Json)
    modifies rt
    ensures rt.groups == old(rt.groups)
    ensures rt.effects == old(rt.effects) + [Broadcast(OrderGroup(orderId), UpdateMessage(data))]
  {
    rt.GroupSend(OrderGroup(orderId), UpdateMessage(data));
  }
}
