/**
 * The chat app's `MessageListCreateView`: listing the conversation between the signed-in
 * user and the user named by the `user` query parameter, oldest first, or only its latest
 * message; and creating a message, whose sender is always the signed-in user.
 *
 * The stored messages are an input sequence; the database's `order_by('timestamp')` is
 * modelled by an insertion sort, and any order it picks among equal timestamps is allowed.
 */
module ChatViews {
  import opened Wrappers
  import opened Json
  import DecimalText

  datatype Message = Message(id: nat, sender: int, receiver: int, content: string, timestamp: int)

  /** The message is from `me` to `other` or from `other` to `me`. */
  predicate Between(m: Message, me: int, other: int)
  {
    (m.sender == me && m.receiver == other) || (m.sender == other && m.receiver == me)
  }

  /** `Message.objects.filter(Q(sender=me, receiver_id=other) | Q(sender_id=other, receiver=me))`. */
  function Thread(messages: seq<Message>, me: int, other: int): (t: seq<Message>)
    ensures forall m :: m in t <==> m in messages && Between(m, me, other)
    ensures forall m :: multiset(t)[m] == if Between(m, me, other) then multiset(messages)[m] else 0
    ensures |t| <= |messages|
  {
    if messages == [] then []
    else
      var rest := Thread(messages[1..], me, other);
      assert messages == [messages[0]] + messages[1..];
      if Between(messages[0], me, other) then [messages[0]] + rest else rest
  }

  predicate SortedByTime(s: seq<Message>)
  {
    forall i, j :: 0 <= i < j < |s| ==> s[i].timestamp <= s[j].timestamp
  }

  /** Put `m` into the sorted `s` after every message not later than it. */
  function Insert(m: Message, s: seq<Message>): (r: seq<Message>)
    requires SortedByTime(s)
    ensures SortedByTime(r)
    ensures multiset(r) == multiset(s) + multiset{m}
  {
    if s == [] then [m]
    else if s[0].timestamp <= m.timestamp then
      var tail := Insert(m, s[1..]);
      assert s == [s[0]] + s[1..];
      HeadBelowInsert(m, s, tail);
      [s[0]] + tail
    else
      [m] + s
  }

  /** Every message of `tail`, which holds the rest of `s` and `m`, is no earlier than `s[0]`. */
  lemma HeadBelowInsert(m: Message, s: seq<Message>, tail: seq<Message>)
    requires SortedByTime(s) && s != [] && s[0].timestamp <= m.timestamp
    requires multiset(tail) == multiset(s[1..]) + multiset{m}
    ensures forall j :: 0 <= j < |tail| ==> s[0].timestamp <= tail[j].timestamp
  {
    forall j | 0 <= j < |tail|
      ensures s[0].timestamp <= tail[j].timestamp
    {
      assert tail[j] in multiset(tail);
      if tail[j] != m {
        assert tail[j] in multiset(s[1..]);
        var k :| 0 <= k < |s[1..]| && s[1..][k] == tail[j];
        assert s[k + 1] == tail[j];
      }
    }
  }

  /** `.order_by('timestamp')`: the same messages, oldest first. */
  function OrderByTimestamp(s: seq<Message>): (r: seq<Message>)
    ensures SortedByTime(r)
    ensures multiset(r) == multiset(s)
  {
    if s == [] then []
    else
      assert s == [s[0]] + s[1..];
      Insert(s[0], OrderByTimestamp(s[1..]))
  }

  /** `int(text)` as the ORM applies it to the `user` parameter. */
  function NotAnId(text: string): string
  {
    "ValueError: Field 'id' expected a number but got '" + text + "'."
  }

  /**
   * `get_queryset`: no or an empty `user` parameter gives nothing; otherwise the thread with
   * that user, oldest first; with `last=true`, only its latest message (nothing when the
   * thread is empty). A `user` parameter that is not an integer raises.
   */
  function GetQueryset(me: int, params: map<string, string>, messages: seq<Message>): (r: Result<seq<Message>>)
    ensures "user" !in params || params["user"] == "" ==> r == Ok([])
    ensures "user" in params && params["user"] != "" ==>
              (r.Err? <==> DecimalText.ParseInt(params["user"]).None?)
    ensures r.Ok? && "user" in params && params["user"] != "" ==>
              var other := DecimalText.ParseInt(params["user"]).value;
              var thread := OrderByTimestamp(Thread(messages, me, other));
              if "last" in params && params["last"] == "true" then
                r.value == (if thread == [] then [] else [thread[|thread| - 1]])
              else r.value == thread
  {
    if "user" !in params || params["user"] == "" then Ok([])
    else match DecimalText.ParseInt(params["user"])
      case None => Err(NotAnId(params["user"]))
      case Some(other) =>
        var thread := OrderByTimestamp(Thread(messages, me, other));
        if "last" in params && params["last"] == "true" then
          Ok(if thread == [] then [] else [thread[|thread| - 1]])
        else Ok(thread)
  }

  lemma MultisetMembership(a: seq<Message>, b: seq<Message>)
    requires multiset(a) == multiset(b)
    ensures forall m :: m in a <==> m in b
  {
    forall m
      ensures m in a <==> m in b
    {
      assert m in a <==> m in multiset(a);
      assert m in b <==> m in multiset(b);
    }
  }

  /**
   * The listed conversation holds exactly the messages between the two users, each as
   * often as stored, oldest first.
   */
  lemma ListedIsConversation(me: int, other: nat, messages: seq<Message>)
    ensures var r := GetQueryset(me, map["user" := DecimalText.NatToString(other)], messages);
            && r.Ok?
            && SortedByTime(r.value)
            && multiset(r.value) == multiset(Thread(messages, me, other))
            && (forall m :: m in r.value <==> m in messages && Between(m, me, other))
  {
    DecimalText.NatToStringValue(other);
    var thread := Thread(messages, me, other);
    MultisetMembership(OrderByTimestamp(thread), thread);
  }

  /** The last message of a sorted sequence is a latest one. */
  lemma LastIsMax(s: seq<Message>, m: Message)
    requires SortedByTime(s) && m in s
    ensures m.timestamp <= s[|s| - 1].timestamp
  {
    var k :| 0 <= k < |s| && s[k] == m;
  }

  /** With `last=true` the one message listed is a latest message of the conversation. */
  lemma LastIsLatest(me: int, other: nat, messages: seq<Message>)
    ensures var r := GetQueryset(me, map["user" := DecimalText.NatToString(other), "last" := "true"], messages);
            && r.Ok?
            && (r.value == [] <==> forall m :: m in messages ==> !Between(m, me, other))
            && (r.value != [] ==>
                  && |r.value| == 1 && r.value[0] in messages && Between(r.value[0], me, other)
                  && forall m :: m in messages && Between(m, me, other) ==> m.timestamp <= r.value[0].timestamp)
  {
    var params := map["user" := DecimalText.NatToString(other), "last" := "true"];
    DecimalText.NatToStringValue(other);
    assert DecimalText.ParseInt(params["user"]) == Some(other);
    var thread := Thread(messages, me, other);
    var sorted := OrderByTimestamp(thread);
    MultisetMembership(sorted, thread);
    var r := GetQueryset(me, params, messages);
    if sorted == [] {
      assert r == Ok([]);
    } else {
      var latest := sorted[|sorted| - 1];
      assert r == Ok([latest]);
      assert latest in sorted;
      forall m | m in messages && Between(m, me, other)
        ensures m.timestamp <= latest.timestamp
      {
        assert m in sorted;
        LastIsMax(sorted, m);
      }
    }
  }

  /** `perform_create`: the saved row takes the submitted fields and the signed-in user as sender. */
  function PerformCreate(me: nat, validated: map<string, Json>): (row: map<string, Json>)
    ensures row.Keys == validated.Keys + {"sender"}
    ensures row["sender"] == JNum(me as real)
    ensures forall k :: k in validated && k != "sender" ==> row[k] == validated[k]
  {
    validated["sender" := JNum(me as real)]
  }

  /** A submitted sender cannot impersonate anyone: the stored sender is the signed-in user. */
  lemma SenderCannotBeForged(me: nat, validated: map<string, Json>, forged: Json)
    ensures PerformCreate(me, validated["sender" := forged]) == PerformCreate(me, validated)
  {
    assert validated["sender" := forged]["sender" := JNum(me as real)] == validated["sender" := JNum(me as real)];
  }
}
