# Emergency-Network STOMP client and server, modelled in Dafny

Emergency-Network is a publish/subscribe emergency-report service that speaks STOMP 1.2. Its two halves are modelled here.

The client is written in C++:
- `processFrame` dispatches the frames the broker sends: CONNECTED, MESSAGE, RECEIPT and ERROR.
- `StompProtocol` builds the outgoing CONNECT, SUBSCRIBE, UNSUBSCRIBE, DISCONNECT and SEND frames. It draws receipt and subscription ids from two counters.
- Two lock-guarded dictionaries hold the channel → subscription-id table and the receipt-id → message table.
- `SummaryManager` keeps every report per channel and per sender, and renders the summary file.

The server is written in Java:
- `StompEncoderDecoder` splits the incoming byte stream at NUL bytes.
- `StompMessagingProtocolImpl` handles one connection's frames.
- `ConnectionsImpl` is the shared registry of handlers, subscriptions, users and message ids.

How the model is built:
- Each stateful component has a pure state value (`ProtocolState`, `Session`, `Registry`, `ServerState`, the decoder's buffer).
- Transition functions say what each operation does to that state.
- Lemmas state what the operations promise: fresh and consecutive ids, the subscription tables kept in agreement, no report lost, and the error and acknowledgement paths.
- The classes keep that state in fields, as the source does. Each of their methods is proved to perform the transition function on its state.
- A thrown exception becomes a `None` result, with the state left as it was.
- Frames a component sends are appended to an outbox: `output` on the client, `outbox` per connection on the server.
- `Interop` connects the two halves. A DISCONNECT built by the client is answered by the server with a RECEIPT, and that RECEIPT ends the client's session.

Files:
- `wrappers.dfy`: `Option` and `Result`.
- `strings.dfy`: `std::to_string`, `std::stoi`, `std::getline`, Java's `split` and `trim`, and byte-wise string order.
- `events.dfy`: events and their ordered attribute map.
- `sorting.dfy`: the stand-in for `std::sort`.
- `hash_maps.dfy`: the two dictionaries.
- `summary_manager.dfy`, `stomp_protocol.dfy`, `stomp_client.dfy`: the client.
- `connections.dfy`, `messaging_protocol.dfy`, `codec.dfy`: the server.
- `interop.dfy`: both halves together.

The STOMP 1.2 standard says each subscriber's MESSAGE carries its own subscription id. The server writes the sender's subscription id into every copy (`StompMessagingProtocolImpl.java` lines 168-170). `ServerProtocol.SendOutcome` states the behaviour as written.

## Model

| member | source | states |
|---|---|---|
| Strings.StoiOfIntToString | client/src/StompClient.cpp:25-42 | `std::stoi` reads back every 32-bit id that `std::to_string` wrote |
| Strings.JavaSplitIgnoresFinalNewline | server/src/main/java/bgu/spl/net/impl/stomp/StompMessagingProtocolImpl.java:29 | Java's `split("\n")` drops trailing empty strings, so a final newline does not change the lines of a non-empty text |
| Sorting.InsertionSort | client/src/SummaryManager.cpp:34-39 | the sort's result is a permutation of its input |
| Sorting.InsertionSortSorted | client/src/StompProtocol.cpp:76-83 | under any total preorder the sort's result is ordered |
| Events.TimeLeTotalPreorder | client/src/StompProtocol.cpp:77-81 | the by-time comparator of the report frames is a strict weak order, so sorting by it is meaningful |
| Events.SummaryLeTotalPreorder | client/src/SummaryManager.cpp:34-39 | the summary comparator (time, then event name) is a strict weak order |
| Events.AtKeys | client/src/SummaryManager.cpp:54-55 | `at(key)` on the attribute map succeeds exactly for stored keys and yields the stored pair |
| Events.AtPut | client/src/StompClient.cpp:127 | after `generalInfo[key] = value`, `key` maps to `value` and every other key keeps its value |
| Events.KeysPut | client/src/StompClient.cpp:127 | assignment adds exactly `key` to the key set |
| Events.PutOrdered | client/src/StompProtocol.cpp:101-103 | assignment keeps the keys strictly ascending, so iteration stays in key order with each key once |
| HashMaps.ConcurrentHashMap.InsertOrUpdate | client/src/ConcurrentHashMap.cpp:10-13 | the key now maps to the value; all other entries are unchanged |
| HashMaps.ConcurrentHashMap.Get | client/src/ConcurrentHashMap.cpp:16-24 | reports presence exactly; copies the value when present and leaves the out-parameter alone otherwise |
| HashMaps.ConcurrentHashMap.GetValue | client/src/ConcurrentHashMap.cpp:27-34 | the stored value, or the "Key not found: key" error for a missing key |
| HashMaps.ConcurrentHashMap.Remove | client/src/ConcurrentHashMap.cpp:37-40 | erases the key and reports whether it was present |
| HashMaps.ConcurrentHashMap.Contains | client/src/ConcurrentHashMap.cpp:43-46 | true exactly when the key is stored |
| HashMaps.ConcurrentHashMap.Size | client/src/ConcurrentHashMap.cpp:49-52 | the number of keys |
| HashMaps.ConcurrentHashMap.Clear | client/src/ConcurrentHashMap.cpp:55-58 | the map is empty |
| HashMaps.ConcurrentHashMapReversed.InsertOrUpdate | client/src/ConcurrentHashMapReversed.cpp:10-13 | the receipt id now maps to the text; all other entries are unchanged |
| HashMaps.ConcurrentHashMapReversed.Get | client/src/ConcurrentHashMapReversed.cpp:16-24 | reports presence exactly; copies the text when present and leaves the out-parameter alone otherwise |
| HashMaps.ConcurrentHashMapReversed.GetValue | client/src/ConcurrentHashMapReversed.cpp:27-34 | the stored text, or the error naming the id in decimal |
| HashMaps.ConcurrentHashMapReversed.Remove | client/src/ConcurrentHashMapReversed.cpp:37-40 | erases the id and reports whether it was present |
| HashMaps.ConcurrentHashMapReversed.Contains | client/src/ConcurrentHashMapReversed.cpp:43-46 | true exactly when the id is stored |
| HashMaps.ConcurrentHashMapReversed.Size | client/src/ConcurrentHashMapReversed.cpp:49-52 | the number of ids |
| HashMaps.ConcurrentHashMapReversed.Clear | client/src/ConcurrentHashMapReversed.cpp:55-58 | the map is empty |
| Summary.WithEvent | client/src/SummaryManager.cpp:12-15 | the event is appended to the (channel, user) log, creating missing entries; every other log is unchanged |
| Summary.WithoutClient | client/src/SummaryManager.cpp:101-108 | the user's log is gone under every channel, the channels stay, and other users' logs are unchanged |
| Summary.AddAllKeepsEveryEvent | client/src/SummaryManager.cpp:12-15 | no report is lost: after any run of `addEvent` calls, each log ends with exactly the reports addressed to it, in call order |
| Summary.CountTrue | client/src/SummaryManager.cpp:53-56 | a statistic never exceeds the number of reports |
| Summary.CountTrueExtremes | client/src/SummaryManager.cpp:53-56 | the count is zero when no report says "true" and the total when all do |
| Summary.StatsWithinTotal | client/src/SummaryManager.cpp:49-56 | both statistics are at most the total |
| Summary.Truncate | client/src/SummaryManager.cpp:75-78 | descriptions of at most 27 characters (bytes in the source; the two agree on ASCII text) are kept; longer ones become their first 27 characters plus "..." |
| Summary.HeaderLines | client/src/SummaryManager.cpp:59-64 | the header has eight lines |
| Summary.HeaderFirst | client/src/SummaryManager.cpp:59-63 | the header names the channel, then the total, active and forces-arrival counts |
| Summary.ReportBlocksLength | client/src/SummaryManager.cpp:67-80 | each report takes six lines |
| Summary.ReportBlockAt | client/src/SummaryManager.cpp:67-80 | report i sits at lines 6i to 6i+5 of the report section |
| Summary.ReportsAfterHeader | client/src/SummaryManager.cpp:58-80 | after the eight header lines, report i starts at line 8 + 6i |
| Summary.RenderFailsOnlyOnMissingAttribute | client/src/SummaryManager.cpp:53-56 | a summary is written exactly when every report has both `active` and `forces_arrival_at_scene`; otherwise `at` throws |
| Summary.SummaryHeader | client/src/SummaryManager.cpp:59-63 | a written summary has 8 + 6n lines and opens with the channel and the three statistics |
| Summary.SummaryReports | client/src/SummaryManager.cpp:67-80 | report i is numbered i+1 and shows the city, the rendered date, the name and the truncated description |
| Summary.SummaryManager.AddEvent | client/src/SummaryManager.cpp:12-15 | the log becomes `WithEvent` of the old log |
| Summary.SummaryManager.GenerateSummary | client/src/SummaryManager.cpp:17-84 | no data → `NoData`; empty log → `NoEvents`; otherwise the reports sorted by time then name (a permutation), and `CannotOpen` or the rendered file |
| Summary.SummaryManager.CountStatistics | client/src/SummaryManager.cpp:49-56 | completes exactly when every report has both attributes, and then returns both counts |
| Summary.SummaryManager.FormatReport | client/src/SummaryManager.cpp:68-79 | the six lines of one report are `ReportBlock`; the summary line carries the truncated description |
| Summary.SummaryManager.WriteReport | client/src/SummaryManager.cpp:58-80 | the file's lines are the header, then one block per report in order |
| Summary.SummaryManager.Clear | client/src/SummaryManager.cpp:96-99 | the log is empty |
| Summary.SummaryManager.ClearClientData | client/src/SummaryManager.cpp:101-108 | the log becomes `WithoutClient` of the old log |
| ClientProtocol.InitialConsistent | client/src/StompProtocol.cpp:7-15 | a new engine (counters 0, no disconnect pending, empty tables) is consistent |
| ClientProtocol.SubscribeEffects | client/src/StompProtocol.cpp:35-46 | joining uses a receipt id not yet pending and a subscription id no other channel holds; records "Joined channel …"; maps the channel to the new id; stays consistent |
| ClientProtocol.UnsubscribeEffects | client/src/StompProtocol.cpp:48-64 | leaving removes exactly that channel from the table and names its id, or -1 when it was never joined; draws one receipt id and records "Exited channel …" under it; the subscription counter, the DISCONNECT receipt, the connected flag and the event log are unchanged; stays consistent |
| ClientProtocol.DisconnectEffects | client/src/StompProtocol.cpp:66-70 | the DISCONNECT's receipt id is remembered as `sentDisconnect`; the tables are untouched |
| ClientProtocol.ReportFramesAppend | client/src/StompProtocol.cpp:87-114 | each loop step draws one receipt id, logs the event and appends its frame |
| ClientProtocol.ReportFrameAt | client/src/StompProtocol.cpp:87-114 | frame `i` reports the `i`-th event sent, under receipt id counter + `i` |
| ClientProtocol.ReportFramesKeepTables | client/src/StompProtocol.cpp:87-114 | reporting registers no pending receipt, leaves the subscriptions alone, and advances the counter once per event |
| ClientProtocol.ReportFramesNumbering | client/src/StompProtocol.cpp:87-114 | one frame per event, in order, with receipt ids counter, counter+1, … |
| ClientProtocol.ReportFramesLog | client/src/StompProtocol.cpp:89 | the events are logged under (channel, user) in the order sent; no other log changes |
| ClientProtocol.ReportFramesConsistent | client/src/StompProtocol.cpp:87-114 | reporting keeps the engine consistent |
| ClientProtocol.SecondUnsubscribeNamesNoId | client/src/StompProtocol.cpp:48-64 | join then leave twice: the first UNSUBSCRIBE names the joined id and the second names -1 |
| ClientProtocol.IssueAdvances | client/src/StompProtocol.cpp:22-24 | every request advances the receipt counter by the number of frames it builds |
| ClientProtocol.RunReceiptIdsConsecutive | client/src/StompProtocol.cpp:22-24 | receipt ids are never reused: over any run of requests the frames carry consecutive ids |
| ClientProtocol.StompProtocol.constructor | client/src/StompProtocol.cpp:7-15 | the engine starts in the initial state |
| ClientProtocol.StompProtocol.GetNextReceiptId | client/src/StompProtocol.cpp:22-24 | returns the counter and increments it |
| ClientProtocol.StompProtocol.GetNextSubscriptionId | client/src/StompProtocol.cpp:26-28 | returns the counter and increments it |
| ClientProtocol.StompProtocol.ConstructConnectFrame | client/src/StompProtocol.cpp:30-33 | the CONNECT frame for the user name and password, drawing no id and changing nothing |
| ClientProtocol.StompProtocol.ConstructSubscribeFrame | client/src/StompProtocol.cpp:35-46 | state and frame are `Subscribe` of the old state |
| ClientProtocol.StompProtocol.ConstructUnsubscribeFrame | client/src/StompProtocol.cpp:48-64 | state and frame are `Unsubscribe` of the old state |
| ClientProtocol.StompProtocol.ConstructDisconnectFrame | client/src/StompProtocol.cpp:66-70 | state and frame are `Disconnect` of the old state |
| ClientProtocol.StompProtocol.FormatReportFrame | client/src/StompProtocol.cpp:92-113 | the SEND frame text built piece by piece is `ReportFrame` |
| ClientProtocol.StompProtocol.ReportEvent | client/src/StompProtocol.cpp:87-113 | one report: the receipt counter goes up by one, the report is filed under the channel and sender, and the frame is `ReportFrame` with the old counter |
| ClientProtocol.StompProtocol.ConstructReportFrames | client/src/StompProtocol.cpp:72-117 | events sorted by time (a permutation), then state and frames are `ReportFrames` over that order |
| ClientDispatch.TakeToken | client/src/StompClient.cpp:68-70 | `response >> command` reads the first word: a prefix with no white space, stopped by white space |
| ClientDispatch.CompareAgreesWithGet | client/src/StompClient.cpp:25-63 | `compareReceiptId` and `getReceiptId` throw together; with a header, compare is equality with the id read; without one, false and -1 |
| ClientDispatch.ParseLinesKeepsInfoOrdered | client/src/StompClient.cpp:113-130 | the collected general information stays a map with ascending keys |
| ClientDispatch.ParseLineFailsOnlyOnBadDate | client/src/StompClient.cpp:99-100 | one line fails to parse only when it is a "date time:" line that `stoi` rejects |
| ClientDispatch.OtherLineParses | client/src/StompClient.cpp:91-139 | every line that does not start with "date time:" parses |
| ClientDispatch.BadDateLineFails | client/src/StompClient.cpp:99-100 | a "date time:" line that `stoi` rejects always fails the parse |
| ClientDispatch.ParseLineSetsOwnField | client/src/StompClient.cpp:91-112 | a "destination:", "user:", "city:" or "event name:" line sets its own field to the rest of the line; every other header field keeps its value, and only a "date time:" line can change the time |
| ClientDispatch.ContinuationKeepsHeaders | client/src/StompClient.cpp:113-139 | a line with no known header leaves destination, sender, city, name and time alone, only extends the description, never opens the general information section, and changes nothing outside a section |
| ClientDispatch.ParseFailsOnlyOnBadDate | client/src/StompClient.cpp:90-140 | a MESSAGE frame fails to parse only because of such a line |
| ClientDispatch.TeardownConsistent | client/src/StompClient.cpp:158-169 | the disconnect teardown keeps the engine consistent |
| ClientDispatch.NextSessionKeepsConsistent | client/src/StompClient.cpp:65-188 | no incoming frame breaks the engine's consistency |
| ClientDispatch.OnlyParseErrorsEndTheClient | client/src/StompClient.cpp:65-188 | an exception escapes only for a MESSAGE with a bad date or a RECEIPT with a bad id |
| ClientDispatch.UnknownCommandIgnored | client/src/StompClient.cpp:72-188 | a frame with any other command changes nothing |
| ClientDispatch.ConnectedMarksLogin | client/src/StompClient.cpp:72-75 | CONNECTED sets the logged-in flag and prints "Login successful!" |
| ClientDispatch.ErrorEndsSession | client/src/StompClient.cpp:174-187 | ERROR prints the frame, clears both tables and the user's reports, resets the flags, and keeps the receipt counter |
| ClientDispatch.MessageRecordsEvent | client/src/StompClient.cpp:142-144 | a MESSAGE that parses appends its event to the log of its destination and sender |
| ClientDispatch.ReceiptIdTextOfReceiptFrame | client/src/StompClient.cpp:25-37 | the id text read from a broker RECEIPT is exactly the text of its header |
| ClientDispatch.GetReceiptIdOfReceiptFrame | client/src/StompClient.cpp:25-63 | a RECEIPT for a 32-bit id reads back as that id, and compares equal exactly to it |
| ClientDispatch.CommandOfReceiptFrame | client/src/StompClient.cpp:68-70 | the command read from a RECEIPT frame is "RECEIPT" |
| ClientDispatch.TakeTokenUpTo | client/src/StompClient.cpp:68-70 | the command ends at the first white space |
| ClientDispatch.ReceiptAcknowledgesRequest | client/src/StompClient.cpp:148-156 | the receipt for a pending request prints its message and forgets exactly that receipt |
| ClientDispatch.DisconnectReceiptEndsSession | client/src/StompClient.cpp:148-170 | the receipt for the DISCONNECT acknowledges it and tears the session down |
| ClientDispatch.StompClient.EndSession | client/src/StompClient.cpp:158-169 | the client's state becomes `Teardown` of the old state |
| ClientDispatch.StompClient.ProcessFrame | client/src/StompClient.cpp:65-188 | completes exactly when `NextSession` is defined; the new state is `NextSession`'s, and is unchanged on an exception |
| ClientDispatch.StompClient.ReceiveMessage | client/src/StompClient.cpp:77-145 | the MESSAGE branch performs `OnMessage` |
| ClientDispatch.StompClient.ReceiveReceipt | client/src/StompClient.cpp:148-173 | the RECEIPT branch performs `OnReceipt` |
| ClientDispatch.StompClient.ParseMessage | client/src/StompClient.cpp:81-140 | the `getline` loop computes `ParseLines` over the frame's lines |
| Connections.LeaveChannelMembership | server/src/main/java/bgu/spl/net/srv/ConnectionsImpl.java:108-113 | removing a connection from a channel removes exactly that membership; the channel stays a key exactly when it was one and its set keeps another member, and every other key is kept; no key is added |
| Connections.EmptyValid | server/src/main/java/bgu/spl/net/srv/ConnectionsImpl.java:18-26 | the new registry is consistent and its message-id generator starts at -1 |
| Connections.KeysAgreeKeptBySubscriptions | server/src/main/java/bgu/spl/net/srv/ConnectionsImpl.java:52-118 | subscribe, unsubscribe and disconnect keep the two per-connection subscription maps defined for the same connections |
| Connections.KeysAgreeKeptByAccounts | server/src/main/java/bgu/spl/net/srv/ConnectionsImpl.java:70-152 | adding a connection, registering a user, binding it to a connection and drawing a message id keep the two maps' keys equal |
| Connections.KeysAgreeKeptByMessages | server/src/main/java/bgu/spl/net/srv/ConnectionsImpl.java:29-49 | sending to one connection or to a channel keeps the two maps' keys equal |
| Connections.SubscribeEffects | server/src/main/java/bgu/spl/net/srv/ConnectionsImpl.java:84-93 | after `subscribe`, membership, id lookup and destination lookup all see the subscription; other connections and channels are unaffected |
| Connections.SubscribeKeepsValid | server/src/main/java/bgu/spl/net/srv/ConnectionsImpl.java:84-93 | a subscription under an unused id keeps the three tables in agreement |
| Connections.ReusedIdStrandsChannel | server/src/main/java/bgu/spl/net/srv/ConnectionsImpl.java:84-118 | reusing an id for a second channel and then unsubscribing leaves the first channel subscribed with no id leading to it |
| Connections.UnknownIdUnsubscribeChangesNothing | server/src/main/java/bgu/spl/net/srv/ConnectionsImpl.java:103-118 | `unsubscribe` with an id the connection does not hold changes nothing |
| Connections.UnsubscribeEffects | server/src/main/java/bgu/spl/net/srv/ConnectionsImpl.java:103-118 | unsubscribing a held id drops the id, the channel entry and the membership; every other subscription stays |
| Connections.UnsubscribeKeepsValid | server/src/main/java/bgu/spl/net/srv/ConnectionsImpl.java:103-118 | `unsubscribe` keeps the tables in agreement |
| Connections.DisconnectEffects | server/src/main/java/bgu/spl/net/srv/ConnectionsImpl.java:51-68 | `disconnect` leaves no handler, membership, user or subscription of the connection; channels and other connections stay |
| Connections.DisconnectKeepsValid | server/src/main/java/bgu/spl/net/srv/ConnectionsImpl.java:51-68 | `disconnect` keeps the tables in agreement |
| Connections.CheckOrRegisterEffects | server/src/main/java/bgu/spl/net/srv/ConnectionsImpl.java:129-136 | a known login is checked against its password without change; an unknown one is registered and accepted; credentials are never dropped |
| Connections.RegisteredLoginAccepted | server/src/main/java/bgu/spl/net/srv/ConnectionsImpl.java:129-136 | once accepted, the same login and password are accepted again |
| Connections.MessageIdsConsecutive | server/src/main/java/bgu/spl/net/srv/ConnectionsImpl.java:150-152 | n draws give the n successive values above the generator |
| Connections.MessageIdsFromZero | server/src/main/java/bgu/spl/net/srv/ConnectionsImpl.java:25 | from a new registry the message ids are 0, 1, 2, … |
| Connections.DeliverEffects | server/src/main/java/bgu/spl/net/srv/ConnectionsImpl.java:29-37 | `send` succeeds exactly for a connection with a handler, and appends only to its outbox |
| Connections.DeliverToChannelEffects | server/src/main/java/bgu/spl/net/srv/ConnectionsImpl.java:40-49 | the message reaches each subscriber with a handler once, except `notYou`, and no one else |
| Connections.ConnectionsImpl.constructor | server/src/main/java/bgu/spl/net/srv/ConnectionsImpl.java:18-26 | the registry starts empty |
| Connections.ConnectionsImpl.Send | server/src/main/java/bgu/spl/net/srv/ConnectionsImpl.java:29-37 | state and result are `Deliver` |
| Connections.ConnectionsImpl.SendToChannel | server/src/main/java/bgu/spl/net/srv/ConnectionsImpl.java:40-49 | the loop over the subscriber set, in any order, performs `DeliverToChannel` |
| Connections.ConnectionsImpl.Disconnect | server/src/main/java/bgu/spl/net/srv/ConnectionsImpl.java:52-68 | the loop over the channels performs `WithoutConnection` |
| Connections.ConnectionsImpl.AddConnection | server/src/main/java/bgu/spl/net/srv/ConnectionsImpl.java:70-72 | the handler is registered |
| Connections.ConnectionsImpl.IsSubscribed | server/src/main/java/bgu/spl/net/srv/ConnectionsImpl.java:75-82 | true exactly when the channel is non-null and lists the connection |
| Connections.ConnectionsImpl.Subscribe | server/src/main/java/bgu/spl/net/srv/ConnectionsImpl.java:84-93 | performs `WithSubscription` |
| Connections.ConnectionsImpl.FindDestination | server/src/main/java/bgu/spl/net/srv/ConnectionsImpl.java:95-101 | the channel under the id, or null when the connection has no subscriptions |
| Connections.ConnectionsImpl.Unsubscribe | server/src/main/java/bgu/spl/net/srv/ConnectionsImpl.java:103-118 | performs `WithoutSubscription` |
| Connections.ConnectionsImpl.GetSubscriptionId | server/src/main/java/bgu/spl/net/srv/ConnectionsImpl.java:120-123 | the connection's id for the channel, or null |
| Connections.ConnectionsImpl.ValidateOrRegisterUser | server/src/main/java/bgu/spl/net/srv/ConnectionsImpl.java:129-136 | state and result are `CheckOrRegister` |
| Connections.ConnectionsImpl.IsUserLoggedIn | server/src/main/java/bgu/spl/net/srv/ConnectionsImpl.java:138-140 | true exactly when some connection is bound to the login |
| Connections.ConnectionsImpl.AssociateUserWithConnection | server/src/main/java/bgu/spl/net/srv/ConnectionsImpl.java:142-144 | binds the login to the connection |
| Connections.ConnectionsImpl.GetUserByConnectionId | server/src/main/java/bgu/spl/net/srv/ConnectionsImpl.java:146-148 | the login bound to the connection, or null |
| Connections.ConnectionsImpl.GetMessageId | server/src/main/java/bgu/spl/net/srv/ConnectionsImpl.java:150-152 | increments the generator and returns the new value |
| ServerProtocol.HeaderValueNone | server/src/main/java/bgu/spl/net/impl/stomp/StompMessagingProtocolImpl.java:221-228 | `extractHeader` yields null exactly when no line starts with `header:` |
| ServerProtocol.HeaderValueAt | server/src/main/java/bgu/spl/net/impl/stomp/StompMessagingProtocolImpl.java:221-228 | the first matching line decides, and its trimmed remainder is the value |
| ServerProtocol.TwoLineHeader | server/src/main/java/bgu/spl/net/impl/stomp/StompMessagingProtocolImpl.java:221-228 | in a two-line frame, the header on the second line is read back exactly |
| ServerProtocol.WithoutDestinations | server/src/main/java/bgu/spl/net/impl/stomp/StompMessagingProtocolImpl.java:236-239 | no destination line is kept in the body |
| ServerProtocol.CollectedWhileCollecting | server/src/main/java/bgu/spl/net/impl/stomp/StompMessagingProtocolImpl.java:234-245 | once collecting, every later non-destination line is appended with a newline |
| ServerProtocol.CollectedBeforeDestination | server/src/main/java/bgu/spl/net/impl/stomp/StompMessagingProtocolImpl.java:234-245 | nothing before the first destination line is collected |
| ServerProtocol.BodyAfterDestination | server/src/main/java/bgu/spl/net/impl/stomp/StompMessagingProtocolImpl.java:230-249 | the body is the trimmed lines after the first destination line, without destination lines |
| ServerProtocol.NoDestinationNoBody | server/src/main/java/bgu/spl/net/impl/stomp/StompMessagingProtocolImpl.java:230-249 | with no destination line the body is empty |
| ServerProtocol.ErrorReplyEffects | server/src/main/java/bgu/spl/net/impl/stomp/StompMessagingProtocolImpl.java:202-219 | the ERROR frame reaches the sender only, which is then disconnected everywhere; credentials stay |
| ServerProtocol.UnknownCommandRejected | server/src/main/java/bgu/spl/net/impl/stomp/StompMessagingProtocolImpl.java:49-50 | any other command gets "Unknown command" with the command named |
| ServerProtocol.ConnectOutcome | server/src/main/java/bgu/spl/net/impl/stomp/StompMessagingProtocolImpl.java:59-91 | missing credentials, already logged in, wrong password are refused in that order; otherwise the user is bound and gets CONNECTED, then the receipt |
| ServerProtocol.SubscribeOutcome | server/src/main/java/bgu/spl/net/impl/stomp/StompMessagingProtocolImpl.java:93-121 | missing headers or an existing subscription are refused; otherwise the subscription is recorded and the receipt sent |
| ServerProtocol.UnsubscribeOutcome | server/src/main/java/bgu/spl/net/impl/stomp/StompMessagingProtocolImpl.java:123-148 | a missing id, or one naming no subscribed channel, is refused; otherwise exactly that channel is left and the receipt sent |
| ServerProtocol.SendOutcome | server/src/main/java/bgu/spl/net/impl/stomp/StompMessagingProtocolImpl.java:150-180 | a message id is drawn before the check; a non-subscriber is refused and reaches no one; a subscriber's MESSAGE reaches every other subscriber with a handler |
| ServerProtocol.DisconnectOutcome | server/src/main/java/bgu/spl/net/impl/stomp/StompMessagingProtocolImpl.java:182-193 | the receipt is sent first, then the connection is forgotten and the processor terminates |
| ServerProtocol.ConnectKeepsValid | server/src/main/java/bgu/spl/net/impl/stomp/StompMessagingProtocolImpl.java:59-91 | CONNECT keeps the registry consistent |
| ServerProtocol.SubscribeKeepsValidUnlessReused | server/src/main/java/bgu/spl/net/impl/stomp/StompMessagingProtocolImpl.java:93-121 | SUBSCRIBE under an unused id keeps the registry consistent |
| ServerProtocol.UnsubscribeKeepsValidFrame | server/src/main/java/bgu/spl/net/impl/stomp/StompMessagingProtocolImpl.java:123-148 | UNSUBSCRIBE keeps the registry consistent |
| ServerProtocol.SendKeepsValid | server/src/main/java/bgu/spl/net/impl/stomp/StompMessagingProtocolImpl.java:150-180 | SEND keeps the registry consistent |
| ServerProtocol.ReceiptReplyKeepsValid | server/src/main/java/bgu/spl/net/impl/stomp/StompMessagingProtocolImpl.java:195-200 | a receipt keeps the registry consistent |
| ServerProtocol.ErrorReplyKeepsValid | server/src/main/java/bgu/spl/net/impl/stomp/StompMessagingProtocolImpl.java:202-219 | an error reply keeps the registry consistent |
| ServerProtocol.DispatchKeepsValid | server/src/main/java/bgu/spl/net/impl/stomp/StompMessagingProtocolImpl.java:33-51 | every frame keeps the registry consistent, except a SUBSCRIBE that reuses an id |
| ServerProtocol.DispatchDisconnect | server/src/main/java/bgu/spl/net/impl/stomp/StompMessagingProtocolImpl.java:46-48 | a first line of DISCONNECT is handled with the receipt header |
| ServerProtocol.DigitsTrimmed | server/src/main/java/bgu/spl/net/impl/stomp/StompMessagingProtocolImpl.java:224 | `trim` leaves a decimal id unchanged |
| ServerProtocol.SplitTwoLines | server/src/main/java/bgu/spl/net/impl/stomp/StompMessagingProtocolImpl.java:29 | a two-line text splits into its two lines |
| ServerProtocol.DisconnectWithReceipt | server/src/main/java/bgu/spl/net/impl/stomp/StompMessagingProtocolImpl.java:29-48 | DISCONNECT with `receipt:value` is answered with a receipt for exactly that value |
| ServerProtocol.FrameText | server/src/main/java/bgu/spl/net/impl/stomp/StompMessagingProtocolImpl.java:26 | corrected: only a NUL terminator is removed; a text without NUL is kept whole |
| ServerProtocol.ProcessedAsWrittenOf | server/src/main/java/bgu/spl/net/impl/stomp/StompMessagingProtocolImpl.java:24-52 | as written, `process` handles the text without its last character |
| ServerProtocol.ProcessedOf | server/src/main/java/bgu/spl/net/impl/stomp/StompMessagingProtocolImpl.java:24-52 | corrected, `process` handles the text as decoded |
| ServerProtocol.NewlineTerminatedFramesAgree | server/src/main/java/bgu/spl/net/impl/stomp/StompMessagingProtocolImpl.java:26-29 | for a frame ending in a newline, as written and corrected yield the same lines, which are the lines of the whole frame |
| ServerProtocol.NewlineTerminatedFrame | server/src/main/java/bgu/spl/net/impl/stomp/StompMessagingProtocolImpl.java:24-52 | a frame ending in a newline is dispatched on its own lines both as written and corrected; as written, only the frame text handed on loses its last character |
| ServerProtocol.DroppedCharacterChangesReceipt | server/src/main/java/bgu/spl/net/impl/stomp/StompMessagingProtocolImpl.java:26 | as written, "DISCONNECT\nreceipt:77" is acknowledged as receipt 7; corrected, as 77 |
| ServerProtocol.EmptyMessageCrashes | server/src/main/java/bgu/spl/net/impl/stomp/StompMessagingProtocolImpl.java:26-30 | as written, an empty message throws; corrected, it is rejected as an unknown command |
| ServerProtocol.StompMessagingProtocolImpl.constructor | server/src/main/java/bgu/spl/net/impl/stomp/StompMessagingProtocolImpl.java:13-15 | not terminated, no registry yet |
| ServerProtocol.StompMessagingProtocolImpl.Start | server/src/main/java/bgu/spl/net/impl/stomp/StompMessagingProtocolImpl.java:18-21 | stores the connection id and the registry |
| ServerProtocol.StompMessagingProtocolImpl.ShouldTerminate | server/src/main/java/bgu/spl/net/impl/stomp/StompMessagingProtocolImpl.java:55-57 | returns the terminate flag |
| ServerProtocol.StompMessagingProtocolImpl.Process | server/src/main/java/bgu/spl/net/impl/stomp/StompMessagingProtocolImpl.java:24-52 | performs the corrected line 26 (see "Findings"): completes exactly when the frame has a line; the new state is `Processed`'s, and is unchanged otherwise |
| ServerProtocol.StompMessagingProtocolImpl.HandleConnect | server/src/main/java/bgu/spl/net/impl/stomp/StompMessagingProtocolImpl.java:59-91 | performs `OnConnect` |
| ServerProtocol.StompMessagingProtocolImpl.HandleSubscribe | server/src/main/java/bgu/spl/net/impl/stomp/StompMessagingProtocolImpl.java:93-121 | performs `OnSubscribe` |
| ServerProtocol.StompMessagingProtocolImpl.HandleUnsubscribe | server/src/main/java/bgu/spl/net/impl/stomp/StompMessagingProtocolImpl.java:123-148 | performs `OnUnsubscribe` |
| ServerProtocol.StompMessagingProtocolImpl.HandleSend | server/src/main/java/bgu/spl/net/impl/stomp/StompMessagingProtocolImpl.java:150-180 | performs `OnSend` |
| ServerProtocol.StompMessagingProtocolImpl.HandleDisconnect | server/src/main/java/bgu/spl/net/impl/stomp/StompMessagingProtocolImpl.java:182-193 | performs `OnDisconnect` |
| ServerProtocol.StompMessagingProtocolImpl.SendReceipt | server/src/main/java/bgu/spl/net/impl/stomp/StompMessagingProtocolImpl.java:195-200 | performs `ReceiptReply`: nothing for a null receipt |
| ServerProtocol.StompMessagingProtocolImpl.SendError | server/src/main/java/bgu/spl/net/impl/stomp/StompMessagingProtocolImpl.java:202-219 | performs `ErrorReply` |
| Codec.Feed | server/src/main/java/bgu/spl/net/impl/stomp/StompEncoderDecoder.java:13-21 | one decoding result per input byte |
| Codec.FeedWithoutNul | server/src/main/java/bgu/spl/net/impl/stomp/StompEncoderDecoder.java:13-21 | bytes other than NUL only accumulate and yield no frame |
| Codec.FeedAppend | server/src/main/java/bgu/spl/net/impl/stomp/StompEncoderDecoder.java:13-21 | decoding two pieces in turn is decoding their concatenation |
| Codec.RoundTrip | server/src/main/java/bgu/spl/net/impl/stomp/StompEncoderDecoder.java:13-28 | decoding `encode(m)` for a NUL-free m yields nothing until the NUL, then exactly m, and leaves the buffer empty |
| Codec.ConsecutiveFrames | server/src/main/java/bgu/spl/net/impl/stomp/StompEncoderDecoder.java:13-44 | frames do not leak: back-to-back encoded frames decode to exactly those frames |
| Codec.StompEncoderDecoder.constructor | server/src/main/java/bgu/spl/net/impl/stomp/StompEncoderDecoder.java:9-10 | a 1024-byte buffer holding nothing |
| Codec.StompEncoderDecoder.DecodeNextByte | server/src/main/java/bgu/spl/net/impl/stomp/StompEncoderDecoder.java:13-21 | buffer and result are one `Step` of the pure decoder |
| Codec.StompEncoderDecoder.Encode | server/src/main/java/bgu/spl/net/impl/stomp/StompEncoderDecoder.java:24-28 | the frame followed by one NUL |
| Codec.StompEncoderDecoder.PushByte | server/src/main/java/bgu/spl/net/impl/stomp/StompEncoderDecoder.java:30-37 | appends the byte, doubling a full buffer into a fresh array first |
| Codec.StompEncoderDecoder.PopString | server/src/main/java/bgu/spl/net/impl/stomp/StompEncoderDecoder.java:39-44 | returns the collected bytes and empties the buffer, keeping its storage |
| Interop.DisconnectFrameLines | client/src/StompProtocol.cpp:66-70 | the server splits the client's DISCONNECT into its command line and its receipt line |
| Interop.ConnectFrameLines | client/src/StompProtocol.cpp:30-33 | the server splits the client's CONNECT into its command, version, host, login and passcode lines |
| Interop.ConnectLogin | server/src/main/java/bgu/spl/net/impl/stomp/StompMessagingProtocolImpl.java:60 | the server reads back the user name as the login header |
| Interop.ConnectPasscode | server/src/main/java/bgu/spl/net/impl/stomp/StompMessagingProtocolImpl.java:61 | the server reads back the password as the passcode header |
| Interop.ConnectWithoutReceipt | server/src/main/java/bgu/spl/net/impl/stomp/StompMessagingProtocolImpl.java:31 | the client's CONNECT carries no receipt header |
| Interop.ServerReadsConnect | server/src/main/java/bgu/spl/net/impl/stomp/StompMessagingProtocolImpl.java:24-37 | the server handles the client's CONNECT as a CONNECT without receipt whose login and passcode are what the client sent; as written, only the echoed frame text loses its last character |
| ServerProtocol.DispatchConnect | server/src/main/java/bgu/spl/net/impl/stomp/StompMessagingProtocolImpl.java:34-36 | a first line of CONNECT is handled by `OnConnect` with the receipt header |
| Interop.ServerReadsDisconnect | server/src/main/java/bgu/spl/net/impl/stomp/StompMessagingProtocolImpl.java:24-48 | the server handles the client's DISCONNECT with the client's receipt id, and dropping the last character does not matter for it |
| Interop.DisconnectHandshake | client/src/StompClient.cpp:148-170 | end to end: the client's DISCONNECT is acknowledged with its own receipt id, the server forgets the connection, and the client tears its session down |

## Left out

- Threads, locks and atomics: each locked or atomic operation is one step. Interleavings between the keyboard thread and the listener thread on the client, and between connection handlers on the server, are not modelled.
- Sockets and the console: frames sent become the outbox (`Registry.outbox`, `Session.output`). The handlers' `close` and the condition-variable wake-up are not modelled.
- `epochToDate` renders with the local time zone. It is a function parameter.
- Whether the summary file opens is the boolean `fileOpens`. The file's text is its lines, each followed by "\n".
- `parseEventsFile` (the JSON report reader) is not part of this model. `ConstructReportFrames` takes the events it would have read.
- The client's `main`, `listen` and keyboard command parsing (client/src/StompClient.cpp lines 190-399) are left out.
- `StompServer`, `BaseServer` and the reactor and thread-per-client servers are left out. So are `getSubscribers`, which nothing in the core calls, and the server's `send` through the connection handler (it appends to the outbox).
- The `connectionsImpl == null` branches of the server are dead code and are not modelled: the registry always is a `ConnectionsImpl`.
- Summary.Truncate: client strings are modelled as sequences of characters, which agree with the C++ byte strings only for ASCII text. The source measures and cuts the description in bytes (`size()` and `substr(0, 27)`, client/src/SummaryManager.cpp lines 75-77), so a non-ASCII description longer than 27 bytes is cut earlier there, possibly in the middle of a multi-byte character; `Summary.SummaryManager.FormatReport` and `Summary.SummaryReports` inherit the same difference.
- Bytes and strings are not converted. The decoder works on bytes, and the protocol works on strings. UTF-8 conversion is not modelled.
- The `Event` type's own source is not part of this model. It is taken to hold the fields shown in `Events.Event`.
- ClientProtocol.ReportFramesNumbering: counters are unbounded integers. The 32-bit wrap-around of `receiptCounter` after 2^31 ids is not modelled.
- Connections.MessageIdsConsecutive: the message-id generator is an unbounded integer. `AtomicInteger` wrap-around is not modelled.
- Summary.SummaryManager.GenerateSummary: `std::sort` is not stable, so the ghost order `sorted` is only promised to be a permutation ordered by time, then name. Ties keep an unspecified order. The same holds for ClientProtocol.StompProtocol.ConstructReportFrames and its order `sent`.
- Connections.SubscribeKeepsValid requires that the connection does not already use the id. The server does not check this, and `Connections.ReusedIdStrandsChannel` shows what goes wrong when it is reused.
- ServerProtocol.StompMessagingProtocolImpl.Process performs the corrected line 26, not the code as written (see "Findings"). An empty message is answered as an unknown command where the code throws, and a frame that does not end in "\n" keeps its last character where the code drops it. `ServerProtocol.ProcessedAsWritten` models the code as written.
- The client's connection handler, which appends the NUL terminator to every frame it sends, is not part of this model. The frames the client builds are taken to reach the server's decoder with that NUL, as `Interop` assumes.
- Summary.SummaryManager.GenerateSummary: the code opens the summary file with `std::ios::trunc` (client/src/SummaryManager.cpp line 42) before the statistics loop, whose `at` throws on a missing attribute (line 54). So a `MissingAttribute` outcome leaves the file emptied. The model does not track the file's contents on that path.
- ServerProtocol.SendOutcome: each MESSAGE copy carries the sender's subscription id, as the code writes it, not the receiver's.

## Findings

| source | as written | input that shows it | evidently intended | confidence | as-written member | corrected member |
|---|---|---|---|---|---|---|
| server/src/main/java/bgu/spl/net/impl/stomp/StompMessagingProtocolImpl.java:26 | `process` always drops the message's last character, to remove the NUL terminator, but the decoder has already removed it | "DISCONNECT\nreceipt:77" (no final newline) is acknowledged as receipt "7"; an empty message throws | remove a NUL terminator only when one is there | not executed | ServerProtocol.DroppedCharacterChangesReceipt | ServerProtocol.FrameText |
