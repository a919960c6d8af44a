/**
 * The websocket consumers of the orders app.
 *
 * The module defines `OrderTrackingConsumer` twice; the second class statement rebinds the
 * name, so the class the routing table reaches is the second one, and that is the one
 * modelled here. A consumer's socket and its channel layer are the shared `Runtime`; the
 * consumer's own fields are `order_id` and `room_group_name`, unset until `connect` runs.
 */
module OrderConsumers {
  import opened Wrappers
  import opened Json
  import opened ChannelLayer
  import opened OrderUtils

  const MissingOrderId: string := "KeyError: 'order_id'"
  const NoGroupName: string :=
    "AttributeError: 'OrderTrackingConsumer' object has no attribute 'room_group_name'"
  const MissingData: string := "KeyError: 'data'"

  /**
   * What `send_order_update(event)` writes to the socket: `event['data']`, which must be
   * present.
   */
  function HandlerFrame(event: map<string, Json>): (r: Result<Json>)
    ensures r.Ok? <==> "data" in event
    ensures r.Ok? ==> r.value == event["data"]
    ensures r.Err? ==> r.error == MissingData
  {
    if "data" in event then Ok(event["data"]) else Err(MissingData)
  }

  /** Whatever data `send_order_update` in the utils puts on the group reaches the client unchanged. */
  lemma RelayDeliversData(data: Json)
    ensures HandlerFrame(UpdateMessage(data)) == Ok(data)
  {
  }

  class OrderTrackingConsumer {
    const channelName: string
    const runtime: Runtime
    var orderId: Option<string>
    var roomGroupName: Option<string>

    constructor (channelName: string, runtime: Runtime)
      ensures this.channelName == channelName && this.runtime == runtime
      ensures orderId == None && roomGroupName == None
    {
      this.channelName := channelName;
      this.runtime := runtime;
      orderId := None;
      roomGroupName := None;
    }

    /**
     * `connect`: read `order_id` from the URL kwargs, name the group `order_<order_id>`,
     * join it, and only then accept the socket.
     */
    method Connect(urlKwargs: map<string, string>) returns (outcome: Outcome)
      modifies this, runtime
      ensures "order_id" !in urlKwargs ==>
                && outcome == Fail(MissingOrderId)
                && orderId == old(orderId) && roomGroupName == old(roomGroupName)
                && runtime.groups == old(runtime.groups) && runtime.effects == old(runtime.effects)
      ensures "order_id" in urlKwargs ==>
                && outcome == Pass
                && orderId == Some(urlKwargs["order_id"])
                && roomGroupName == Some(OrderGroup(urlKwargs["order_id"]))
                && runtime.groups == AddMember(old(runtime.groups), OrderGroup(urlKwargs["order_id"]), channelName)
                && runtime.effects == old(runtime.effects)
                     + [Joined(OrderGroup(urlKwargs["order_id"]), channelName), Accepted(channelName)]
    {
      if "order_id" !in urlKwargs {
        return Fail(MissingOrderId);
      }
      orderId := Some(urlKwargs["order_id"]);
      roomGroupName := Some(OrderGroup(urlKwargs["order_id"]));
      runtime.GroupAdd(roomGroupName.value, channelName);
      runtime.Accept(channelName);
      outcome := Pass;
    }

    /** `disconnect`: leave the group `connect` joined, with the same channel name. */
    method Disconnect(closeCode: int) returns (outcome: Outcome)
      modifies runtime
      ensures roomGroupName.None? ==>
                && outcome == Fail(NoGroupName)
                && runtime.groups == old(runtime.groups) && runtime.effects == old(runtime.effects)
      ensures roomGroupName.Some? ==>
                && outcome == Pass
                && runtime.groups == DiscardMember(old(runtime.groups), roomGroupName.value, channelName)
                && runtime.effects == old(runtime.effects) + [Left(roomGroupName.value, channelName)]
    {
      if roomGroupName.None? {
        return Fail(NoGroupName);
      }
      runtime.GroupDiscard(roomGroupName.value, channelName);
      outcome := Pass;
    }

    /** `receive`: the text is only printed; no frame is sent and no group changes. */
    method Receive(textData: string)
      ensures runtime.groups == old(runtime.groups) && runtime.effects == old(runtime.effects)
    {
    }

    /** `send_order_update`: exactly one frame, `event['data']`, to this consumer's socket. */
    method SendOrderUpdate(event: map<string, Json>) returns (outcome: Outcome)
      modifies runtime
      ensures outcome == Pass <==> HandlerFrame(event).Ok?
      ensures runtime.groups == old(runtime.groups)
      ensures HandlerFrame(event).Ok? ==>
                runtime.effects == old(runtime.effects) + [Sent(channelName, HandlerFrame(event).value)]
      ensures HandlerFrame(event).Err? ==>
                outcome == Fail(MissingData) && runtime.effects == old(runtime.effects)
    {
      match HandlerFrame(event)
      case Err(e) =>
        outcome := Fail(e);
      case Ok(frame) =>
        runtime.Send(channelName, frame);
        outcome := Pass;
    }
  }

  /**
   * One tracking session, as the routing table drives it: connect to an order, then
   * disconnect. Every group ends with the members it started with.
   */
  method TrackOrderSession(rt: Runtime, channel: string, orderId: string)
    requires channel !in Members(rt.groups, OrderGroup(orderId))
    modifies rt
    ensures forall g :: Members(rt.groups, g) == Members(old(rt.groups), g)
    ensures rt.effects == old(rt.effects)
              + [Joined(OrderGroup(orderId), channel), Accepted(channel), Left(OrderGroup(orderId), channel)]
  {
    var consumer := new OrderTrackingConsumer(channel, rt);
    var connected := consumer.Connect(map["order_id" := orderId]);
    var closed := consumer.Disconnect(1000);
    JoinThenLeave(old(rt.groups), OrderGroup(orderId), channel);
  }

  // ---- TestConsumer ----------------------------------------------------------------------

  const OrdersGreeting: string := "WebSocket connected successfully!"

  /**
   * `json.dumps({key: text})`: a one-key text frame, the greeting (`"message"`) and the echo
   * (`"echo"`) of a test socket. The text is put in as a string; an echoed text is never parsed.
   */
  function TextFrame(key: string, text: string): (f: Json)
    ensures f.JObj? && f.fields.Keys == {key} && f.fields[key] == JStr(text)
  {
    JObj(map[key := JStr(text)])
  }

  /** Different texts get different replies: the echo loses nothing. */
  lemma EchoInjective(a: string, b: string)
    ensures TextFrame("echo", a) == TextFrame("echo", b) ==> a == b
  {
    if TextFrame("echo", a) == TextFrame("echo", b) {
      assert TextFrame("echo", a).fields["echo"] == TextFrame("echo", b).fields["echo"];
    }
  }

  /**
   * A client that sends the JSON text `{}` gets that text back as a string, not the empty
   * object it denotes.
   */
  lemma EchoKeepsRawText()
    ensures TextFrame("echo", "{}").fields["echo"] == JStr("{}")
    ensures TextFrame("echo", "{}") != JObj(map["echo" := JObj(map[])])
  {
    assert TextFrame("echo", "{}").fields["echo"] != JObj(map[]);
  }

  class TestConsumer {
    const channelName: string
    const runtime: Runtime

    constructor (channelName: string, runtime: Runtime)
      ensures this.channelName == channelName && this.runtime == runtime
    {
      this.channelName := channelName;
      this.runtime := runtime;
    }

    /** `connect`: accept, then exactly one greeting frame. */
    method Connect()
      modifies runtime
      ensures runtime.groups == old(runtime.groups)
      ensures runtime.effects == old(runtime.effects)
                + [Accepted(channelName), Sent(channelName, TextFrame("message", OrdersGreeting))]
    {
      runtime.Accept(channelName);
      runtime.Send(channelName, TextFrame("message", OrdersGreeting));
    }

    /** `disconnect`: the close code is only printed; no frame is sent. */
    method Disconnect(closeCode: int)
      ensures runtime.groups == old(runtime.groups) && runtime.effects == old(runtime.effects)
    {
    }

    /** `receive`: exactly one reply, the echo of the raw text. */
    method Receive(textData: string)
      modifies runtime
      ensures runtime.groups == old(runtime.groups)
      ensures runtime.effects == old(runtime.effects) + [Sent(channelName, TextFrame("echo", textData))]
    {
      runtime.Send(channelName, TextFrame("echo", textData));
    }
  }
}
