# bistropulse_backend core, modelled in Dafny

This project models the core of bistropulse_backend, a Django REST backend for restaurants, franchises, riders and orders. It covers these parts:

- **Orders:** the order model (ids, `clean`, item and order totals), its serializer (flexible primary keys, GIS point fields, the nested create), the role-based order views, and the real-time fan-out. The fan-out is the `post_save`/`post_delete` signals, the `send_order_update` helper and the order-tracking websocket consumer.
- **Franchises:** the sequential `BF0001`/`BFb0001` ids, and the franchise and branch serializers with their nested representative.
- **Restaurants:** the rider age check and the restaurant serializer with uploaded files. The views cover the rider active toggle, rider shifts, category-with-food creation, and the choice of restaurant for a new rider.
- **Accounts:** the register serializer's full-name split and the one-time role-code sign-up.
- **Chat:** the message thread listing and the test websocket.

Values and decisions are modelled as datatypes and functions; state changes as classes whose methods are proved against those functions.

- **Channel layer.** `ChannelLayer.Runtime` holds the group membership map and one ordered log of every request the code makes: join, leave, group send, accept and send. Ordering facts are therefore statements about the log, such as "join before accept" or "order group before restaurant group".
- **Database.** The rows a view reads are inputs: sequences of orders and riders, or the `Store` and `OtpStore` classes. Rows that serializers update in place are `ModelRows.Row` objects. Each serializer operation is planned by a pure function on column maps, and a method carries the plan out on the rows.
- **Not modelled as computation.** Clocks, random draws, new primary keys and uploaded files are parameters. JSON encoding is not modelled: a text frame carries the JSON value that was dumped.
- **Money** is integer cents.
- **Text to integer.** `int(text)` accepts an optional sign followed by ASCII digits (`DecimalText.ParseInt`).

Where the code and its surrounding description disagree, the model follows the code:
- Group names are `order_<id>` and `restaurant_<pk>`.
- An order without a restaurant makes the signal receivers raise after the first send.
- Both test sockets echo the raw received text, not parsed JSON.

Inconsistencies in the repository that the model notes but does not resolve:
- `restaurant_id` is read on restaurants (orders/views.py:23) but restaurants/models.py declares no such field. `user.restaurant` is read although the declared related name is `restaurants`. The model gives `Restaurant` both a primary key and a `restaurantId` code.
- The role-code lookup filters on `otp=` (users/serializers.py:15), but the field is `code` (users/models.py:17). The model looks codes up by their code, as intended.
- `SignupSerializer` lists `phone` and `fullname`, which the users `User` model does not declare. The model passes them to user creation as the serializer does.
- As written, these two make every sign-up fail: DRF raises ImproperlyConfigured when it builds the fields `phone` and `fullname`, and the `otp=` lookup raises FieldError. `UserSerializers.SignupSerializer.ValidateOtpCode`, `UserSerializers.SignupSerializer.Create` and `UserSerializers.SignupTwice` model the intended code.
- orders/views.py:6 imports `.serializers`, but the module file is `serilalizers.py`.
- orders/consumers.py defines `OrderTrackingConsumer` twice; the second definition (line 44) is the one in effect and the one modelled.
- restaurants/models.py is partial. `Representative`, `Rider`, `RiderShift`, `FoodCategory` and `ShiftType` are not part of this model's sources; their columns are taken from the serializers and views that use them.
- The order detail views use `lookup_field = "order_id"`, which is not a field of `Order`. The rider-scoped views read a `rider_code` URL argument. The model takes the looked-up order, and the rider code as an optional argument: when it is absent, the lookup finds nothing and the view answers 404.

## Model

| member | source | states |
|---|---|---|
| DecimalText.NatToStringValue | orders/serilalizers.py:18-19 | the decimal text of `n` reads back as `n` (basis of `str.isdigit`/`int`) |
| DecimalText.NatToStringLength | franchise/models.py:10 | a number between 10^k and 10^(k+1) has k+1 digits |
| DecimalText.ZeroPadValue | franchise/models.py:10 | zero padding to a width keeps the digits' value and gives length max(width, digits) |
| DecimalText.FormatIntRoundTrip | franchise/models.py:9-10 | `int(f"{n:04d}")` gives back `n` for every integer, negative numbers included |
| DecimalText.FormatNatShape | franchise/models.py:10 | a non-negative `%0Nd` text is all digits, at least N long |
| ChannelLayer.AddMember | orders/consumers.py:49 | `group_add` adds the channel to that group and changes no other group |
| ChannelLayer.DiscardMember | orders/consumers.py:53 | `group_discard` removes the channel from that group and changes no other group |
| ChannelLayer.JoinThenLeave | orders/consumers.py:49-53 | joining and then leaving restores every group's membership |
| ChannelLayer.Runtime.GroupAdd | orders/consumers.py:49 | membership becomes AddMember of the old one; one join is logged |
| ChannelLayer.Runtime.GroupDiscard | orders/consumers.py:53 | membership becomes DiscardMember of the old one; one leave is logged |
| ChannelLayer.Runtime.GroupSend | orders/utils.py:6-12 | one broadcast is logged; membership is unchanged |
| ChannelLayer.Runtime.Accept | orders/consumers.py:50 | one accept is logged; membership is unchanged |
| ChannelLayer.Runtime.Send | orders/consumers.py:58-59 | one frame is logged to the channel; membership is unchanged |
| OrderUtils.GroupKindsDisjoint | orders/signals.py:15-27 | an order group is never a restaurant group |
| OrderUtils.GroupNamesInjective | orders/utils.py:7 | distinct orders, and distinct restaurants, get distinct group names |
| OrderUtils.UpdateMessage | orders/utils.py:8-11 | the message has exactly the keys `type` and `data`; its type is `send_order_update` and its data is the given data |
| OrderUtils.UpdateMessageInjective | orders/utils.py:10 | data is forwarded unchanged: different data never give the same message |
| OrderUtils.SendOrderUpdate | orders/utils.py:4-12 | exactly one broadcast, to `order_<id>`, carrying UpdateMessage(data); membership is unchanged |
| OrderModels.NewOrder | orders/models.py:51-86 | a new order has status "Placed", payment "Cash in hand"/"Pending" and zero fees, tax and total |
| OrderModels.CandidateIdShape | orders/models.py:16 | a draw in [1000000, 9999999] gives "BO" and seven digits that read back as the draw, within the 10-character column |
| OrderModels.GenerateUniqueId | orders/models.py:14-18 | the id returned is a well-formed, unused candidate from the draws; none is returned exactly when every draw collides |
| OrderModels.Clean | orders/models.py:93-99 | passes iff exactly one of restaurant and branch is set, with the source's message for each failure |
| OrderModels.NewOrderNeedsSellingLocation | orders/models.py:93-95 | an order with neither restaurant nor branch fails `clean` |
| OrderModels.OrderText | orders/models.py:101-102 | the text is "Order ", the id, " - ", then the status |
| OrderModels.SaveItem | orders/models.py:112-114 | a saved item's total is quantity times unit price; other columns are kept |
| OrderModels.SaveItemOverridesTotal | orders/models.py:112-114 | any supplied total is overwritten, and saving twice equals saving once |
| OrderModels.ItemsTotalAppend | orders/models.py:89 | the items total of a concatenation is the sum of the totals |
| OrderModels.ItemsTotalAddLine | orders/models.py:89-113 | adding a saved line adds its quantity times unit price |
| OrderModels.CalculateTotals | orders/models.py:88-90 | the new total is the items total plus delivery fee, platform fee and tax; nothing else changes |
| OrderSerializers.CoercePk | orders/serilalizers.py:16-20 | the value changes iff it is a non-empty all-digit string, and then becomes that number |
| OrderSerializers.CoercePkNumeral | orders/serilalizers.py:18-19 | the decimal text of a number is coerced to that number |
| OrderSerializers.CoercePkKeepsCharacterKeys | orders/serilalizers.py:13-14 | character keys such as "user_130379", and the empty string, pass through unchanged |
| OrderSerializers.PointToJson | orders/serilalizers.py:24-26 | a point is written as exactly `lat` = y and `lng` = x |
| OrderSerializers.PointFromJson | orders/serilalizers.py:29-37 | accepted iff a dict whose `lat` and `lng` both convert with `float()`; the point is (lng, lat); every rejection carries "Invalid coordinates format." |
| OrderSerializers.PointRoundTrip | orders/serilalizers.py:24-37 | reading back a written point gives the same point |
| OrderSerializers.PointAcceptedShape | orders/serilalizers.py:29-35 | an accepted input is written back with the same lat and lng |
| OrderSerializers.Representation | orders/serilalizers.py:40-81 | the output has exactly the readable fields, with the order's id and status |
| OrderSerializers.RelatedPart | orders/serilalizers.py:41-66 | the related part has exactly id, rider, customer and branch |
| OrderSerializers.LocationPart | orders/serilalizers.py:54-56 | the location part has exactly the three point fields |
| OrderSerializers.StatusPart | orders/serilalizers.py:71-75 | the status part has the status and date and payment fields, with the order's status |
| OrderSerializers.MoneyPart | orders/serilalizers.py:76-79 | the money part has exactly the fee, tax and total fields |
| OrderSerializers.RepresentationKeys | orders/serilalizers.py:44-81 | write-only `*_id` fields never appear in the output, and neither do `event` and `restaurant` |
| OrderSerializers.Create | orders/serilalizers.py:83-93 | succeeds iff `customer_id` is present and no explicit keyword is duplicated; the rider and branch are popped with default None, the customer is required, and the rest is passed through |
| OrderSerializers.SaveWithRiderRaises | orders/views.py:155 | saving with `rider=` as a keyword always raises "multiple values for keyword argument" |
| OrderSerializers.CreateResolved | orders/serilalizers.py:83-93 | the corrected create: an explicit rider, customer or branch wins over the popped id; it agrees with Create wherever Create succeeds |
| OrderSerializers.SaveWithRiderResolved | orders/views.py:155 | with the corrected create, saving with a restaurant and a rider succeeds and records both |
| OrderSerializers.CreateDefaults | orders/serilalizers.py:84-86 | without rider and branch ids, both are None |
| OrderSignals.SavePayloadContents | orders/signals.py:18-33 | a save payload has the event "created" or "updated" and exactly the serialized order's fields beside it |
| OrderSignals.DeletePayload | orders/signals.py:46-61 | a delete payload is exactly the event "deleted" and the order id |
| OrderSignals.DeletePayloadHasNoOrderFields | orders/signals.py:46-49 | a delete payload shares no key with the serialized order |
| OrderSignals.Broadcasts | orders/signals.py:14-35 | the order group is sent to first, then the restaurant group; with no restaurant only the first send happens and the receiver raises |
| OrderSignals.OnlyOrderAndRestaurantGroups | orders/signals.py:14-63 | every send is an update to the order's group or the restaurant's group, and these two differ |
| OrderSignals.BranchOrderNoDashboard | orders/signals.py:26-27 | a branch order with no restaurant reaches only its own group, then the receiver raises |
| OrderSignals.OrderSaved | orders/signals.py:9-35 | the log grows by exactly Broadcasts of the save message; membership is unchanged |
| OrderSignals.OrderDeleted | orders/signals.py:37-63 | the log grows by exactly Broadcasts of the delete message; membership is unchanged |
| OrderSignals.GuardedBroadcasts | orders/signals.py:26-35 | the intended receivers never raise, make the same sends, and agree with the written ones for every order with a restaurant |
| OrderSignals.OrderSavedGuarded | orders/signals.py:9-35 | the intended `order_saved`: the log grows by exactly the guarded sends, and it passes |
| OrderSignals.CalculateTotalsSaved | orders/models.py:88-91 | the new total as `CalculateTotals` gives it, then `order_saved(created=False)`: the log grows by exactly its sends and the outcome is its outcome |
| OrderConsumers.HandlerFrame | orders/consumers.py:58-59 | the frame is `event['data']`; an event without data raises |
| OrderConsumers.RelayDeliversData | orders/utils.py:8-11 | data sent by `send_order_update` reaches the socket unchanged |
| OrderConsumers.OrderTrackingConsumer.Connect | orders/consumers.py:45-50 | without `order_id` the consumer raises and nothing happens; otherwise it records the order and group, joins `order_<id>`, then accepts |
| OrderConsumers.OrderTrackingConsumer.Disconnect | orders/consumers.py:52-53 | leaves exactly the group it joined; before connect it raises and changes nothing |
| OrderConsumers.OrderTrackingConsumer.Receive | orders/consumers.py:55-56 | a received text changes no group and sends nothing |
| OrderConsumers.OrderTrackingConsumer.SendOrderUpdate | orders/consumers.py:58-59 | exactly one frame with the event's data, or a failure with nothing sent |
| OrderConsumers.TrackOrderSession | orders/consumers.py:45-53 | connecting and then disconnecting leaves every group as it was, with join, accept and leave logged in that order |
| OrderConsumers.TextFrame | orders/consumers.py:31-42 | the greeting and the echo are exactly `{key: text}`, with the text as a string |
| OrderConsumers.EchoInjective | orders/consumers.py:40-42 | different texts get different replies |
| OrderConsumers.EchoKeepsRawText | orders/consumers.py:38-42 | the text `{}` is echoed as a string, not as a parsed object |
| OrderConsumers.TestConsumer.Connect | orders/consumers.py:29-33 | the socket is accepted, then one greeting "WebSocket connected successfully!" is sent |
| OrderConsumers.TestConsumer.Disconnect | orders/consumers.py:35-36 | nothing is sent |
| OrderConsumers.TestConsumer.Receive | orders/consumers.py:38-42 | exactly one echo of the received text is sent |
| ChatConsumers.RepliesPerFrame | chat/consumers.py:13-14 | one reply per frame; the i-th reply echoes the i-th frame |
| ChatConsumers.RepliesAppend | chat/consumers.py:13-14 | the replies to a conversation are the replies to its parts: no frame affects another |
| ChatConsumers.TestConsumer.Connect | chat/consumers.py:6-8 | the socket is accepted, then one greeting "Connected to test WebSocket!" is sent |
| ChatConsumers.TestConsumer.Disconnect | chat/consumers.py:10-11 | nothing is sent |
| ChatConsumers.TestConsumer.Receive | chat/consumers.py:13-14 | exactly one echo of the raw text is sent |
| ChatConsumers.Session | chat/consumers.py:6-14 | a session logs accept, greeting, then exactly Replies of the texts |
| OrderViews.Filter | orders/views.py:22-24 | the result holds exactly the kept elements |
| OrderViews.Find | orders/views.py:26 | `get` finds nothing, exactly one match, or several matches |
| OrderViews.OrderList | orders/views.py:15-30 | admin: all orders; manager: their restaurant's orders, or refused with no restaurant; rider: their assigned orders, 404 without a rider row; other roles: nothing; newest first |
| OrderViews.OrderCreateCall | orders/views.py:38-42 | only managers and admins may create; the save is the serializer's create with no extra arguments |
| OrderViews.OrderCreate | orders/views.py:38-42 | refused requests change nothing; a permitted create logs exactly the `order_saved(created=True)` sends of the new row, and fails when the receiver raises |
| OrderViews.OrderCreateHasNoRestaurant | orders/views.py:42 | orders created through the list view never receive a restaurant |
| OrderViews.ListCreateRaises | orders/views.py:42 | every permitted list-view create makes exactly one broadcast, to `order_<id>`, and then raises AttributeError |
| OrderViews.OrderCreateGuarded | orders/views.py:38-42 | with the intended receiver, a permitted create succeeds with the new row and logs exactly the guarded sends |
| OrderViews.OrderRetrieve | orders/views.py:51-70 | admin always; a manager only for their restaurant's order; a rider only for an assigned order; otherwise refused with the source's texts, or raising on a missing restaurant or rider |
| OrderViews.ListedIffRetrievable | orders/views.py:15-30 | an order is in a user's list exactly when the user may retrieve it |
| OrderViews.RestaurantOrders | orders/views.py:78-99 | 404 for an unknown restaurant; then granted iff admin or that restaurant's manager, with exactly its orders |
| OrderViews.RiderScoped | orders/views.py:106-127 | 404 for an unknown rider; then granted iff admin or the manager of the rider's restaurant, with exactly the rider's orders |
| OrderViews.RidersCannotUseRiderViews | orders/views.py:125-127 | a rider is refused by both rider-scoped views |
| OrderViews.RiderOrderTarget | orders/views.py:134-154 | passes iff manager, restaurant and rider found, the manager's own restaurant, and the rider belongs to it; then yields that restaurant and rider |
| OrderViews.RiderOrderCreateAsWrittenRaises | orders/views.py:155 | as written, the view never creates an order: a request past the checks raises the duplicate-keyword TypeError (the KeyError without `customer_id`) |
| OrderViews.RiderOrderCreate | orders/views.py:134-155 | with the corrected create: granted iff the checks pass and a customer is given; the order gets that rider and restaurant; refusals are those of the as-written view |
| FranchiseModels.DropPrefix | franchise/models.py:9-15 | `text[k:]` is the rest after k characters, or empty when the text is shorter |
| FranchiseModels.NextNumber | franchise/models.py:9-15 | 1 with no last row; otherwise the last suffix plus one, or a ValueError |
| FranchiseModels.GenerateFranchiseId | franchise/models.py:7-10 | "BF" followed by the next number, padded to four digits |
| FranchiseModels.GenerateBranchId | franchise/models.py:13-16 | "BFb" followed by the next number, padded to four digits |
| FranchiseModels.FirstIds | franchise/models.py:9-16 | the first ids are "BF0001" and "BFb0001" |
| FranchiseModels.IdRoundTrip | franchise/models.py:9-16 | the generator's slicing reads back the number an id was made from |
| FranchiseModels.NextIdFollows | franchise/models.py:7-16 | after the id of n comes the id of n + 1 |
| FranchiseModels.IdsInjective | franchise/models.py:10-16 | different numbers give different ids |
| FranchiseModels.FranchiseIdShape | franchise/models.py:10 | a franchise id is "BF" and at least four digits |
| FranchiseModels.WithDefaults | franchise/models.py:44-84 | given columns keep their values; missing columns take the defaults |
| FranchiseModels.DefaultStatuses | franchise/models.py:45-84 | a franchise defaults to "Active", a branch to "Open" |
| FranchiseSerializers.CreatePlan | franchise/serializers.py:18-48 | the nested data is required; the nested row is exactly it; the parent has the rest, a generated id unless one was given, and the defaults |
| FranchiseSerializers.CreateNested | franchise/serializers.py:18-22 | two fresh rows realize the plan, the parent linked to the nested row |
| FranchiseSerializers.CreateFranchise | franchise/serializers.py:18-22 | the franchise create, with owner, `franchise_id` and the franchise defaults |
| FranchiseSerializers.CreateBranch | franchise/serializers.py:44-48 | the branch create, with representative, `branch_id` and the branch defaults |
| FranchiseSerializers.FranchiseCreateDefaults | franchise/serializers.py:18-22 | a franchise created from owner data alone gets the next id, "Active" and "0.0" |
| FranchiseSerializers.UpdatePlan | franchise/serializers.py:24-60 | truthy nested data overwrites exactly its attributes on the linked row, which must exist; then exactly the other supplied attributes on the parent; the rest is kept |
| FranchiseSerializers.UpdateIdempotent | franchise/serializers.py:24-34 | applying the same update twice equals applying it once |
| FranchiseSerializers.UpdateNested | franchise/serializers.py:24-34 | the rows afterwards are the plan's rows; on failure nothing is written |
| FranchiseSerializers.UpdateFranchise | franchise/serializers.py:24-34 | the franchise update, with key `owner` |
| FranchiseSerializers.UpdateBranch | franchise/serializers.py:50-60 | the branch update, with key `representative` |
| ModelRows.Row.SetAttributes | franchise/serializers.py:31-32 | every supplied attribute takes its value; every other attribute is kept |
| ModelRows.Linked.SetLink | restaurants/serializers.py:201 | the foreign key now points to the given row |
| RestaurantSerializers.ValidateDateOfBirth | restaurants/serializers.py:84-96 | rejected iff the age in completed years is below 18; an empty value is kept |
| RestaurantSerializers.AcceptedIffEighteenthBirthdayPassed | restaurants/serializers.py:87-92 | accepted exactly when the 18th birthday is today or earlier |
| RestaurantSerializers.EighteenthBirthday | restaurants/serializers.py:87-95 | accepted on the 18th birthday, rejected the day before |
| RestaurantSerializers.RepData | restaurants/serializers.py:170-190 | the submitted representative fields are all kept, and an uploaded photo replaces the submitted one; a non-dict representative is refused |
| RestaurantSerializers.RestaurantData | restaurants/serializers.py:177-192 | the remaining data, without `representative`, with the uploaded image winning |
| RestaurantSerializers.UpdatePlan | restaurants/serializers.py:184-207 | non-empty representative data updates, or creates, the representative; the restaurant gets exactly the remaining data |
| RestaurantSerializers.UploadedFilesWin | restaurants/serializers.py:188-192 | after an update the stored photo and image are the uploaded ones |
| RestaurantSerializers.UpdateWithoutRepresentative | restaurants/serializers.py:195-206 | with no representative data, only the restaurant's supplied columns change |
| RestaurantSerializers.Update | restaurants/serializers.py:184-207 | the rows afterwards are the plan's rows; a newly created representative is fresh |
| RestaurantSerializers.CreatePlan | restaurants/serializers.py:169-182 | a representative is always created from its data, and the restaurant from the rest |
| RestaurantSerializers.Create | restaurants/serializers.py:169-182 | two fresh rows, linked, holding the plan |
| RestaurantViews.ToggleBody | restaurants/views.py:258-265 | the reply has exactly the rider's id, full name and new state, with "Rider is now active/inactive" |
| RestaurantViews.Toggled | restaurants/views.py:255 | the active flag flips and nothing else changes |
| RestaurantViews.OwnedRestaurant | restaurants/views.py:182-184 | a non-integer id raises; otherwise the restaurant found belongs to the user, and none is found iff no owned restaurant has that id |
| RestaurantViews.RestaurantRiderTarget | restaurants/views.py:225-239 | the rider goes to an owned restaurant, or is refused with 'Invalid restaurant ID "<id>" - object does not exist.' |
| RestaurantViews.RiderTarget | restaurants/views.py:179-194 | with no or an empty URL id, the form's restaurant is kept; otherwise the result is as RestaurantRiderTarget |
| RestaurantViews.RiderTargetOwned | restaurants/views.py:179-192 | a rider created under a URL restaurant lands in a restaurant the user owns |
| RestaurantViews.Store.ToggleRiderActive | restaurants/views.py:245-266 | a rider of the user's restaurants is flipped and reported; any other pk gets 404 "Rider not found." and nothing changes |
| RestaurantViews.ToggleTwice | restaurants/views.py:245-266 | toggling twice restores every rider |
| RestaurantViews.Store.StartShift | restaurants/views.py:289-305 | with the user's rider and an existing shift type, exactly one started shift is added and 201 returned; otherwise 404 and nothing is created |
| RestaurantViews.Store.EndShift | restaurants/views.py:308-329 | 404 for a shift not the user's; 400 unless "started"; otherwise "ended" with the secret code, `ended_by` and end time |
| RestaurantViews.EndTwice | restaurants/views.py:319-326 | a shift that was ended stays ended, with its first end time, when ended again |
| RestaurantViews.Store.CreateCategoryWithFood | restaurants/views.py:122-153 | 404 for a restaurant not the user's; 400 and nothing created without category name and food; otherwise one category, then one food in it (a non-dict food raises after the category is created) |
| AuthSerializers.FirstSpace | authapp/serializers.py:20 | the position of the first space, or the length when there is none |
| AuthSerializers.SplitFullName | authapp/serializers.py:17-23 | the first name has no space; with a space, first + " " + last is the full name; without, the last name is empty |
| AuthSerializers.SplitUnique | authapp/serializers.py:21 | the split is the only space-free-first-name reading of the full name |
| AuthSerializers.SplitWithoutSpace | authapp/serializers.py:18-23 | "" gives ("", ""), "Ada" gives ("Ada", ""), and later spaces stay in the last name |
| AuthSerializers.Create | authapp/serializers.py:13-31 | succeeds iff username, email and password are present; they are passed unchanged; the names are the split of the full name, default "" |
| AuthSerializers.PhoneDiscarded | authapp/serializers.py:15-33 | the phone has no effect on the created user |
| AuthSerializers.NoFullName | authapp/serializers.py:14-19 | a missing full name gives empty first and last names |
| UserSerializers.SignupSerializer.ValidateOtpCode | users/serializers.py:13-19 | an unused stored code is remembered; otherwise "Invalid or expired OTP code." and nothing is remembered |
| UserSerializers.SignupSerializer.Create | users/serializers.py:21-36 | `otp_code` is removed; the user takes the remembered code's role; the code is marked used; nothing is written on failure |
| UserSerializers.Lookup | users/serializers.py:26-29 | `get` returns the value iff the key is present |
| UserSerializers.MarkUsedKeepsValid | users/serializers.py:33-34 | marking a code used keeps codes unique |
| UserSerializers.SignupTwice | users/serializers.py:15-34 | once a sign-up with a code succeeds, a second sign-up with the same code is rejected |
| UserSerializers.Output | users/serializers.py:6-11 | the output has exactly username, email, phone and fullname, each the user's value or null; never the password or the code |
| ChatViews.Thread | chat/views.py:21-24 | holds exactly the stored messages from me to the other user or from the other user to me, each as often as stored |
| ChatViews.Insert | chat/views.py:24 | inserting into a sorted sequence keeps it sorted and adds exactly the one message |
| ChatViews.HeadBelowInsert | chat/views.py:24 | in the recursive insert, no message after the head is earlier than the head |
| ChatViews.OrderByTimestamp | chat/views.py:24 | the same messages, as a multiset, oldest first |
| ChatViews.GetQueryset | chat/views.py:13-30 | no or an empty `user` parameter gives nothing; a non-integer raises; otherwise the sorted thread, or with `last=true` its last message or nothing |
| ChatViews.MultisetMembership | chat/views.py:24 | a reordering keeps the same members |
| ChatViews.ListedIsConversation | chat/views.py:21-30 | the listing is sorted and holds exactly the conversation, each message as often as stored |
| ChatViews.LastIsMax | chat/views.py:27-28 | the last message of a sorted sequence is a latest one |
| ChatViews.LastIsLatest | chat/views.py:27-28 | with `last=true`: nothing iff the conversation is empty, else one message of the conversation that no other message is later than |
| ChatViews.PerformCreate | chat/views.py:32-33 | the saved row has the submitted fields and the signed-in user as sender |
| ChatViews.SenderCannotBeForged | chat/views.py:33 | a submitted sender has no effect on the stored sender |

## Left out

- HTTP, authentication and permission classes, parser classes, token issue (authapp/views.py, users/views.py) and URL routing. The views are modelled from the point where they read the user and the URL arguments.
- The Django ORM: querysets are sequences or maps passed in, `get` is `OrderViews.Find`, and `order_by("-date_ordered")` in the order views is a `newestFirst` tag on the selection, not a sort.
- Concurrency and delivery by the channel layer: each consumer handler is one sequential step, and what the layer does with a group send is not modelled.
- `json.dumps`/`json.loads`: frames carry JSON values. `OrderTrackingConsumer.receive` (the definition in effect) only prints its text; printing is not modelled, so the model sends nothing.
- Floating point: coordinates and `float()` parsing are reals, and `FloatOf` converts JSON numbers, booleans and integer texts only (decimal and exponent texts are not modelled). GIS storage is not modelled.
- OrderSerializers.Create: the duplicate-keyword TypeError has one text for the three keywords; Python's message also names the keyword and qualifies `create()`, which varies with the Python version.
- Decimal money fields are integer cents. The 10-digit `max_digits` bound is not enforced.
- `int()` and `str.isdigit()` accept only ASCII digits here. Unicode digits, surrounding whitespace and underscores are left out.
- OrderModels.GenerateUniqueId: the `while True` retry is bounded by the supplied sequence of random draws, so a run with no fresh draw returns None instead of looping forever.
- OrderModels.CalculateTotals: returns the updated order; its `self.save()` and the `post_save` receiver it fires are `OrderSignals.CalculateTotalsSaved`. `Item.save` (`OrderModels.SaveItem`) returns the updated item; items have no receiver.
- OrderViews.OrderCreate: the inserted row takes the call's rider, customer, branch and restaurant; the other submitted columns (locations, status, dates, payment, fees) are not carried into it and keep their defaults, so the broadcast payload shows the defaults for them.
- Serialized rider, customer and date values are reduced to the columns the model keeps. Image URLs built with `build_absolute_uri` are left out.
- RestaurantViews.Store.StartShift: a new shift's status is taken to be "started", which the views imply (the end view requires it). The `RiderShift` model, with its default, is not part of this model. A `shift_type_id` that is not an integer (a ValueError in the ORM) is not modelled: the argument is the id, or None when absent.
- RestaurantViews.Store.CreateCategoryWithFood: the response carries the category name and the food's name, description and price; generated ids, the image and extras are left out. The 404 text is DRF's "Not found." as DRF before 3.15 gives it; from 3.15 on, the response carries Django's "No Restaurant matches the given query.".
- RestaurantViews.Store.EndShift and StartShift reply with the shift's own columns; `rider_name`, `shift_type_name` and the start time are left out, and the end time is the clock's number rather than a datetime text.
- RestaurantSerializers.Create: the representative row is created before the restaurant, so a failure creating the restaurant would leave a representative behind. The model creates both or neither. Column defaults of restaurants and representatives are not part of this model.
- FranchiseSerializers.CreatePlan: the owner row is created before the id is generated. If generation fails, that orphan owner row is not modelled.
- Validation by the serializers' declared fields (required fields, choices, max lengths) runs before the modelled code. The modelled code receives the validated data and handles only the errors it raises itself.
- Whether the signals fire at all depends on app registration. `orders`, `franchise`, `chat` and `channels` are missing from `INSTALLED_APPS` (backend/settings.py:26-40); the model assumes the receivers run. backend/settings.py also sets no `CHANNEL_LAYERS`, so `get_channel_layer()` would return None; the model assumes a configured channel layer.
- ChatViews.PerformCreate: the `logging.info` of the saved message's timestamp (chat/views.py:34) is not modelled.
- UserSerializers.Output: the email is written as submitted, and null when absent. `create_user` stores `normalize_email(email)`, which is "" for None and lower-cases the domain; that normalization is not modelled. `RegisterView` never writes out `serializer.data` (users/views.py:19-28).
- Test and client scripts (socket-test.js, wsstest.py) are not modelled.

## Findings

| source | as written | input that shows it | evidently intended | confidence | as-written member | corrected member |
|---|---|---|---|---|---|---|
| orders/views.py:155, orders/serilalizers.py:84-93 | `RiderOrderCreateView` saves with `rider=rider`. DRF merges the keyword into `validated_data`, so `create` pops `rider_id` but passes `rider=` explicitly and again inside `**validated_data`. | any permitted rider-order create, e.g. validated data `{customer_id: c}` saved with `restaurant=R, rider=D` | the order is created with restaurant R and rider D | not executed | OrderSerializers.SaveWithRiderRaises, OrderViews.RiderOrderCreateAsWrittenRaises | OrderSerializers.CreateResolved, OrderSerializers.SaveWithRiderResolved, OrderViews.RiderOrderCreate |
| orders/views.py:42, orders/signals.py:26 | `OrderListCreateView` saves through `OrderSerializer`, which has no restaurant field, so the new order has no restaurant. `post_save` runs `order_saved`, which sends to `order_<id>` and then reads `instance.restaurant.id` on None. The same holds for every branch order, which `Order.clean` allows. | an admin creating with validated data `{customer_id: c}` | the order is created and broadcast to its own group; the dashboard send is skipped when there is no restaurant | not executed | OrderViews.ListCreateRaises | OrderSignals.GuardedBroadcasts, OrderViews.OrderCreateGuarded |
