/**
 * The chat app's test socket: it greets on connect and echoes every text frame, with the
 * same `{"echo": text}` reply shape as the orders test socket. It keeps no state: the class
 * has no mutable field, so each reply depends on the current frame alone.
 */
module ChatConsumers {
  import opened Json
  import opened ChannelLayer
  import OrderConsumers

  const ChatGreeting: string := "Connected to test WebSocket!"

  /** The replies to `texts`, one echo per frame, in the order received. */
  function Replies(channel: string, texts: seq<string>): seq<Effect>
  {
    if texts == [] then []
    else Replies(channel, texts[..|texts| - 1]) + [Sent(channel, OrderConsumers.TextFrame("echo", texts[|texts| - 1]))]
  }

  /** Exactly one reply per frame, and the i-th reply echoes the i-th frame and nothing else. */
  lemma {:induction false} RepliesPerFrame(channel: string, texts: seq<string>)
    ensures |Replies(channel, texts)| == |texts|
    ensures forall i :: 0 <= i < |texts| ==>
              Replies(channel, texts)[i] == Sent(channel, OrderConsumers.TextFrame("echo", texts[i]))
  {
    if texts != [] {
      RepliesPerFrame(channel, texts[..|texts| - 1]);
    }
  }

  /** The replies to a conversation are the replies to each part: no frame affects another. */
  lemma {:induction false} RepliesAppend(channel: string, a: seq<string>, b: seq<string>)
    ensures Replies(channel, a + b) == Replies(channel, a) + Replies(channel, b)
  {
    if b == [] {
      assert a + b == a;
    } else {
      assert (a + b)[..|a + b| - 1] == a + b[..|b| - 1];
      RepliesAppend(channel, a, b[..|b| - 1]);
    }
  }

  class TestConsumer {
    const channelName: string
    const runtime: Runtime

    constructor (channelName: string, runtime: Runtime)
      ensures this.channelName == channelName && this.runtime == runtime
    {
      this.channelName := channelName;
      this.runtime := runtime;
    }

    /** `connect`: accept, then exactly one greeting frame. */
    method Connect()
      modifies runtime
      ensures runtime.groups == old(runtime.groups)
      ensures runtime.effects == old(runtime.effects)
                + [Accepted(channelName), Sent(channelName, OrderConsumers.TextFrame("message", ChatGreeting))]
    {
      runtime.Accept(channelName);
      runtime.Send(channelName, OrderConsumers.TextFrame("message", ChatGreeting));
    }

    /** `disconnect`: a message is printed; no frame is sent. */
    method Disconnect(closeCode: int)
      ensures runtime.groups == old(runtime.groups) && runtime.effects == old(runtime.effects)
    {
    }

    /** `receive`: exactly one reply, the echo of the raw text. */
    method Receive(textData: string)
      modifies runtime
      ensures runtime.groups == old(runtime.groups)
      ensures runtime.effects == old(runtime.effects) + [Sent(channelName, OrderConsumers.TextFrame("echo", textData))]
    {
      runtime.Send(channelName, OrderConsumers.TextFrame("echo", textData));
    }
  }

  /** A whole test session: connect, one reply per received frame, disconnect. */
  method Session(rt: Runtime, channel: string, texts: seq<string>)
    modifies rt
    ensures rt.groups == old(rt.groups)
    ensures rt.effects == old(rt.effects)
              + [Accepted(channel), Sent(channel, OrderConsumers.TextFrame("message", ChatGreeting))]
              + Replies(channel, texts)
  {
    var consumer := new TestConsumer(channel, rt);
    consumer.Connect();
    ghost var greeted := rt.effects;
    var k := 0;
    while k < |texts|
      invariant 0 <= k <= |texts|
      invariant rt.groups == old(rt.groups)
      invariant rt.effects == greeted + Replies(channel, texts[..k])
    {
      assert texts[..k + 1][..k] == texts[..k];
      consumer.Receive(texts[k]);
      k := k + 1;
    }
    assert texts[..k] == texts;
    consumer.Disconnect(1000);
  }
}
