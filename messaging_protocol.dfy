/**
 * The server's per-connection frame processor (`StompMessagingProtocolImpl`):
 * splits a decoded frame into lines, dispatches on the command, validates the
 * headers and answers with CONNECTED, RECEIPT or MESSAGE frames, or with an
 * ERROR frame followed by a disconnect.
 *
 * `extractHeader` and `extractBody` only read the line array and are modelled
 * as functions.  The checks for a `null` connections object cannot fail (the
 * server always passes a `ConnectionsImpl`) and are not modelled.
 */
module ServerProtocol {
  import opened Wrappers
  import opened Strings
  import opened Connections

  // ---------------------------------------------------------------------------
  // Headers and body
  // ---------------------------------------------------------------------------

  /** The line starts with `header` followed by a colon. */
  predicate HasHeader(line: string, header: string)
  {
    header + ":" <= line
  }

  /** `extractHeader`: the trimmed rest of the first line that starts with `header:`; `None` for null. */
  function HeaderValue(lines: seq<string>, header: string): Option<string>
  {
    if lines == [] then None
    else if HasHeader(lines[0], header) then Some(JavaTrim(lines[0][|header| + 1..]))
    else HeaderValue(lines[1..], header)
  }

  /** `extractHeader` yields null exactly when no line starts with `header:`. */
  lemma {:induction false} HeaderValueNone(lines: seq<string>, header: string)
    ensures HeaderValue(lines, header).None? <==> forall i :: 0 <= i < |lines| ==> !HasHeader(lines[i], header)
  {
    if lines != [] {
      HeaderValueNone(lines[1..], header);
      assert forall i :: 1 <= i < |lines| ==> lines[i] == lines[1..][i - 1];
    }
  }

  /** `extractHeader` takes the first line that starts with `header:`, whatever follows it. */
  lemma {:induction false} HeaderValueAt(lines: seq<string>, header: string, i: nat)
    requires i < |lines| && HasHeader(lines[i], header)
    requires forall j :: 0 <= j < i ==> !HasHeader(lines[j], header)
    ensures HeaderValue(lines, header) == Some(JavaTrim(lines[i][|header| + 1..]))
  {
    if i > 0 {
      HeaderValueAt(lines[1..], header, i - 1);
    }
  }

  predicate IsDestinationLine(line: string)
  {
    "destination:" <= line
  }

  /** The loop of `extractBody`: after a destination line, every non-destination line and a newline. */
  function Collected(lines: seq<string>, collecting: bool): string
  {
    if lines == [] then ""
    else if IsDestinationLine(lines[0]) then Collected(lines[1..], true)
    else (if collecting then lines[0] + "\n" else "") + Collected(lines[1..], collecting)
  }

  /** `extractBody`. */
  function Body(lines: seq<string>): string
  {
    JavaTrim(Collected(lines, false))
  }

  /** Lines joined, each followed by a newline. */
  function JoinLines(lines: seq<string>): string
  {
    if lines == [] then "" else lines[0] + "\n" + JoinLines(lines[1..])
  }

  /** The lines kept in the body: those that are not destination lines. */
  function WithoutDestinations(lines: seq<string>): (r: seq<string>)
    ensures forall i :: 0 <= i < |r| ==> !IsDestinationLine(r[i])
  {
    if lines == [] then []
    else if IsDestinationLine(lines[0]) then WithoutDestinations(lines[1..])
    else [lines[0]] + WithoutDestinations(lines[1..])
  }

  /** Once collecting, the body is every following non-destination line. */
  lemma {:induction false} CollectedWhileCollecting(lines: seq<string>)
    ensures Collected(lines, true) == JoinLines(WithoutDestinations(lines))
  {
    if lines != [] {
      CollectedWhileCollecting(lines[1..]);
    }
  }

  /**
   * The body is the lines after the first destination line, without any
   * destination line, each ended by a newline, then trimmed; with no
   * destination line it is empty.
   */
  lemma {:induction false} BodyAfterDestination(lines: seq<string>, k: nat)
    requires k < |lines| && IsDestinationLine(lines[k])
    requires forall j :: 0 <= j < k ==> !IsDestinationLine(lines[j])
    ensures Body(lines) == JavaTrim(JoinLines(WithoutDestinations(lines[k + 1..])))
  {
    CollectedBeforeDestination(lines, k);
    CollectedWhileCollecting(lines[k + 1..]);
  }

  lemma {:induction false} CollectedBeforeDestination(lines: seq<string>, k: nat)
    requires k < |lines| && IsDestinationLine(lines[k])
    requires forall j :: 0 <= j < k ==> !IsDestinationLine(lines[j])
    ensures Collected(lines, false) == Collected(lines[k + 1..], true)
  {
    if k > 0 {
      CollectedBeforeDestination(lines[1..], k - 1);
      assert lines[1..][k..] == lines[k + 1..];
    } else {
      assert lines[1..] == lines[k + 1..];
    }
  }

  lemma {:induction false} NoDestinationNoBody(lines: seq<string>)
    requires forall j :: 0 <= j < |lines| ==> !IsDestinationLine(lines[j])
    ensures Collected(lines, false) == "" && Body(lines) == ""
  {
    if lines != [] {
      NoDestinationNoBody(lines[1..]);
    }
  }

  // ---------------------------------------------------------------------------
  // Frames the server writes
  // ---------------------------------------------------------------------------

  const ConnectedFrame := "CONNECTED\nversion:1.2\n\n"

  function ReceiptFrame(receipt: string): string
  {
    "RECEIPT\nreceipt-id:" + receipt + "\n\n"
  }

  /** Java's string concatenation writes a null reference as "null". */
  function NullText(s: Option<string>): string
  {
    if s.Some? then s.value else "null"
  }

  /** The ERROR frame: with a receipt, its id header (after ": ") and "message: "; without, "message:". */
  function ErrorFrame(message: string, frame: string, body: string, receipt: Option<string>): string
  {
    var tail := "\n\nThe message:\n-----\n" + frame + "\n-----\n" + body + "\n\n";
    if receipt.Some? then "ERROR\nreceipt-id: " + receipt.value + "\nmessage: " + message + tail
    else "ERROR\nmessage:" + message + tail
  }

  function MessageFrame(subscription: Option<string>, messageId: int, destination: string, body: string): string
  {
    "MESSAGE\nsubscription:" + NullText(subscription) + "\nmessage-id:" + IntToString(messageId)
      + "\ndestination:" + destination + "\n\n" + body + "\n\n"
  }

  // ---------------------------------------------------------------------------
  // The processor as a state transition
  // ---------------------------------------------------------------------------

  datatype ServerState = ServerState(connections: Registry, connectionId: int, terminate: bool)

  /** `sendError`: the ERROR frame, then a disconnect; `terminate` is left as it was. */
  function ErrorReply(st: ServerState, message: string, frame: string, body: string, receipt: Option<string>): ServerState
  {
    var r := Deliver(st.connections, st.connectionId, ErrorFrame(message, frame, body, receipt)).0;
    st.(connections := WithoutConnection(r, st.connectionId))
  }

  /** `sendReceipt`: nothing without a receipt header. */
  function ReceiptReply(st: ServerState, receipt: Option<string>): ServerState
  {
    if receipt.None? then st
    else st.(connections := Deliver(st.connections, st.connectionId, ReceiptFrame(receipt.value)).0)
  }

  function OnConnect(st: ServerState, lines: seq<string>, receipt: Option<string>, frame: string): ServerState
  {
    var login := HeaderValue(lines, "login");
    var passcode := HeaderValue(lines, "passcode");
    if login.None? || passcode.None? then
      ErrorReply(st, "Malformed frame", frame, "CONNECT frame missing login or passcode.", receipt)
    else if LoggedIn(st.connections, login.value) then
      ErrorReply(st, "User already logged in", frame, "The user is already connected.", receipt)
    else
      var (r, ok) := CheckOrRegister(st.connections, login.value, passcode.value);
      if !ok then
        ErrorReply(st.(connections := r), "Invalid credentials", frame, "The provided login or passcode is incorrect.", receipt)
      else
        var r1 := WithUser(r, st.connectionId, login.value);
        var r2 := Deliver(r1, st.connectionId, ConnectedFrame).0;
        ReceiptReply(st.(connections := r2), receipt)
  }

  function OnSubscribe(st: ServerState, lines: seq<string>, receipt: Option<string>, frame: string): ServerState
  {
    var destination := HeaderValue(lines, "destination");
    var id := HeaderValue(lines, "id");
    if destination.None? || id.None? then
      ErrorReply(st, "Malformed frame", frame, "SUBSCRIBE frame missing destination or id.", receipt)
    else if Subscribed(st.connections, st.connectionId, destination) then
      ErrorReply(st, "Already signed in", frame, "You are already signed in to this channel", receipt)
    else
      var r := WithSubscription(st.connections, st.connectionId, destination.value, id.value);
      ReceiptReply(st.(connections := r), receipt)
  }

  function OnUnsubscribe(st: ServerState, lines: seq<string>, receipt: Option<string>, frame: string): ServerState
  {
    var id := HeaderValue(lines, "id");
    if id.None? then
      ErrorReply(st, "Malformed frame", frame, "UNSUBSCRIBE frame missing id.", receipt)
    else if !Subscribed(st.connections, st.connectionId, DestinationOf(st.connections, st.connectionId, id.value)) then
      ErrorReply(st, "Wrong channel request", frame, "You are not subscribed to this channel", receipt)
    else
      var r := WithoutSubscription(st.connections, st.connectionId, id.value);
      ReceiptReply(st.(connections := r), receipt)
  }

  /** SEND: the message id is drawn before the subscription check; a SEND gets no receipt. */
  function OnSend(st: ServerState, lines: seq<string>, receipt: Option<string>, frame: string): ServerState
  {
    var destination := HeaderValue(lines, "destination");
    if destination.None? then
      ErrorReply(st, "Malformed frame", frame, "SEND frame missing destination.", receipt)
    else
      var body := Body(lines);
      var subscription := SubscriptionIdOf(st.connections, st.connectionId, destination.value);
      var (r, messageId) := DrawMessageId(st.connections);
      var message := MessageFrame(subscription, messageId, destination.value, body);
      if !Subscribed(r, st.connectionId, destination) then
        ErrorReply(st.(connections := r), "Cannot send report", frame, "You are not subscribed to this channel", receipt)
      else
        st.(connections := DeliverToChannel(r, destination.value, message, st.connectionId))
  }

  /** DISCONNECT: the receipt goes out before the connection is dropped. */
  function OnDisconnect(st: ServerState, receipt: Option<string>): ServerState
  {
    var st1 := ReceiptReply(st, receipt);
    st1.(connections := WithoutConnection(st1.connections, st.connectionId), terminate := true)
  }

  /** The `switch` of `process` over the first line. */
  function Dispatch(st: ServerState, lines: seq<string>, frame: string): ServerState
    requires lines != []
  {
    var command := lines[0];
    var receipt := HeaderValue(lines, "receipt");
    if command == "CONNECT" then OnConnect(st, lines, receipt, frame)
    else if command == "SUBSCRIBE" then OnSubscribe(st, lines, receipt, frame)
    else if command == "UNSUBSCRIBE" then OnUnsubscribe(st, lines, receipt, frame)
    else if command == "SEND" then OnSend(st, lines, receipt, frame)
    else if command == "DISCONNECT" then OnDisconnect(st, receipt)
    else ErrorReply(st, "Unknown command", frame, "Invalid STOMP command: " + command, receipt)
  }

  // ---------------------------------------------------------------------------
  // Removing the frame terminator
  // ---------------------------------------------------------------------------

  /**
   * As written, `process` removes the last character of every message to strip
   * the NUL terminator; the decoder has already dropped it, so this removes the
   * frame's real last character, and an empty message makes `substring` throw.
   */
  function FrameTextAsWritten(message: string): Option<string>
  {
    if message == "" then None else Some(message[..|message| - 1])
  }

  /** The evident intent: strip a NUL terminator when there is one. */
  function FrameText(message: string): (r: string)
    ensures '\0' !in message ==> r == message
    ensures message != [] && message[|message| - 1] == '\0' ==> r + "\0" == message
  {
    if message != "" && message[|message| - 1] == '\0' then message[..|message| - 1] else message
  }

  /** `process` as written; `None` when `substring` or `lines[0]` throws. */
  function ProcessedAsWritten(st: ServerState, message: string): Option<ServerState>
  {
    match FrameTextAsWritten(message)
    case None => None
    case Some(text) =>
      var lines := JavaSplit(text);
      if lines == [] then None else Some(Dispatch(st, lines, text))
  }

  /** `process` with the terminator handled as intended; `None` when the frame has no line at all. */
  function Processed(st: ServerState, message: string): Option<ServerState>
  {
    var text := FrameText(message);
    var lines := JavaSplit(text);
    if lines == [] then None else Some(Dispatch(st, lines, text))
  }

  /** A frame ending in a newline (every frame the client builds) yields the same lines either way. */
  lemma NewlineTerminatedFramesAgree(message: string)
    requires |message| >= 2 && message[|message| - 1] == '\n'
    ensures FrameTextAsWritten(message).Some?
    ensures JavaSplit(FrameTextAsWritten(message).value) == JavaSplit(FrameText(message))
    ensures JavaSplit(message[..|message| - 1]) == JavaSplit(message)
  {
    var x := message[..|message| - 1];
    assert message == x + "\n";
    JavaSplitIgnoresFinalNewline(x);
  }

  /** The header of a two-line frame `command` / `header:value`, for a value with no blank at either end. */
  lemma TwoLineHeader(command: string, header: string, value: string)
    requires !HasHeader(command, header)
    requires JavaTrim(value) == value
    ensures HeaderValue([command, header + ":" + value], header) == Some(value)
  {
    var line := header + ":" + value;
    assert HasHeader(line, header);
    assert line[|header| + 1..] == value;
  }

  lemma DispatchConnect(st: ServerState, lines: seq<string>, frame: string)
    requires lines != [] && lines[0] == "CONNECT"
    ensures Dispatch(st, lines, frame) == OnConnect(st, lines, HeaderValue(lines, "receipt"), frame)
  {
  }

  lemma DispatchDisconnect(st: ServerState, lines: seq<string>, frame: string)
    requires lines != [] && lines[0] == "DISCONNECT"
    ensures Dispatch(st, lines, frame) == OnDisconnect(st, HeaderValue(lines, "receipt"))
  {
  }

  lemma DigitsTrimmed(s: string)
    requires AllDigits(s)
    ensures JavaTrim(s) == s
  {
    if s != [] {
      assert !IsJavaBlank(s[0]);
      assert !IsJavaBlank(s[|s| - 1]);
    }
  }

  lemma ProcessedAsWrittenOf(st: ServerState, message: string, lines: seq<string>)
    requires message != "" && lines != [] && JavaSplit(message[..|message| - 1]) == lines
    ensures ProcessedAsWritten(st, message) == Some(Dispatch(st, lines, message[..|message| - 1]))
  {
  }

  lemma ProcessedOf(st: ServerState, message: string, lines: seq<string>)
    requires lines != [] && JavaSplit(FrameText(message)) == lines
    ensures Processed(st, message) == Some(Dispatch(st, lines, FrameText(message)))
  {
  }

  /**
   * A frame that ends in a newline and has at least one line is handled by its
   * lines either way: as written, only the frame text handed on loses its last
   * character.
   */
  lemma NewlineTerminatedFrame(st: ServerState, message: string, lines: seq<string>)
    requires |message| >= 2 && message[|message| - 1] == '\n'
    requires lines != [] && JavaSplit(message) == lines
    ensures Processed(st, message) == Some(Dispatch(st, lines, message))
    ensures ProcessedAsWritten(st, message) == Some(Dispatch(st, lines, message[..|message| - 1]))
  {
    NewlineTerminatedFramesAgree(message);
    assert FrameText(message) == message;
    ProcessedOf(st, message, lines);
    ProcessedAsWrittenOf(st, message, lines);
  }

  /** The DISCONNECT frame `DISCONNECT` / `receipt:value` is answered with a receipt for `value`. */
  lemma DisconnectWithReceipt(st: ServerState, text: string, value: string)
    requires '\n' !in value && value != "" && AllDigits(value)
    requires text == "DISCONNECT" + "\n" + ("receipt:" + value)
    ensures JavaSplit(text) == ["DISCONNECT", "receipt:" + value]
    ensures Dispatch(st, ["DISCONNECT", "receipt:" + value], text) == OnDisconnect(st, Some(value))
  {
    SplitTwoLines("DISCONNECT", "receipt:" + value);
    DigitsTrimmed(value);
    TwoLineHeader("DISCONNECT", "receipt", value);
    DispatchDisconnect(st, ["DISCONNECT", "receipt:" + value], text);
  }

  /** As written, the last digit of a receipt on an unterminated DISCONNECT is lost; as intended it is kept. */
  lemma DroppedCharacterChangesReceipt(st: ServerState)
    ensures ProcessedAsWritten(st, "DISCONNECT\nreceipt:77") == Some(OnDisconnect(st, Some("7")))
    ensures Processed(st, "DISCONNECT\nreceipt:77") == Some(OnDisconnect(st, Some("77")))
  {
    var message := "DISCONNECT\nreceipt:77";
    var shortened := message[..|message| - 1];
    assert shortened == "DISCONNECT" + "\n" + ("receipt:" + "7");
    assert message == "DISCONNECT" + "\n" + ("receipt:" + "77");
    assert FrameText(message) == message;
    DisconnectWithReceipt(st, shortened, "7");
    DisconnectWithReceipt(st, message, "77");
    ProcessedAsWrittenOf(st, message, ["DISCONNECT", "receipt:" + "7"]);
    ProcessedOf(st, message, ["DISCONNECT", "receipt:" + "77"]);
  }

  /** As written, an empty message throws; as intended it is answered as an unknown command. */
  lemma EmptyMessageCrashes(st: ServerState)
    ensures ProcessedAsWritten(st, "").None?
    ensures Processed(st, "") == Some(ErrorReply(st, "Unknown command", "", "Invalid STOMP command: ", None))
  {
    assert JavaSplit("") == [""];
    assert !HasHeader("", "receipt");
    assert HeaderValue([""], "receipt") == None;
    assert "Invalid STOMP command: " + "" == "Invalid STOMP command: ";
  }

  lemma SplitTwoLines(a: string, b: string)
    requires '\n' !in a && '\n' !in b && b != ""
    ensures JavaSplit(a + "\n" + b) == [a, b]
  {
    LineThenRest(a, b);
    SingleLine(b);
    assert Pieces(a + "\n" + b) == [a, b];
  }

  // ---------------------------------------------------------------------------
  // What each command does
  // ---------------------------------------------------------------------------

  /** The outcome of an ERROR reply: the frame reaches the sender, which is then forgotten everywhere. */
  lemma ErrorReplyEffects(st: ServerState, message: string, frame: string, body: string, receipt: Option<string>)
    ensures var t := ErrorReply(st, message, frame, body, receipt);
      var c := st.connectionId;
      && t.terminate == st.terminate && t.connectionId == c
      && Delivered(t.connections, c) ==
           (if c in st.connections.handlers then Delivered(st.connections, c) + [ErrorFrame(message, frame, body, receipt)]
            else Delivered(st.connections, c))
      && (forall d :: d != c ==> Delivered(t.connections, d) == Delivered(st.connections, d))
      && c !in t.connections.handlers
      && (forall ch :: !Subscribed(t.connections, c, Some(ch)))
      && UserOf(t.connections, c).None?
      && t.connections.userCredentials == st.connections.userCredentials
  {
    var r := Deliver(st.connections, st.connectionId, ErrorFrame(message, frame, body, receipt)).0;
    DeliverEffects(st.connections, st.connectionId, ErrorFrame(message, frame, body, receipt));
    DisconnectEffects(r, st.connectionId);
  }

  /** A first line that names none of the five commands is answered with an ERROR and a disconnect. */
  lemma UnknownCommandRejected(st: ServerState, lines: seq<string>, frame: string)
    requires lines != [] && lines[0] !in {"CONNECT", "SUBSCRIBE", "UNSUBSCRIBE", "SEND", "DISCONNECT"}
    ensures Dispatch(st, lines, frame)
         == ErrorReply(st, "Unknown command", frame, "Invalid STOMP command: " + lines[0], HeaderValue(lines, "receipt"))
  {
  }

  /**
   * CONNECT is refused for missing credentials, then for a user already
   * logged in, then for a wrong password; otherwise the user is bound to the
   * connection and gets CONNECTED, then the receipt if one was asked for.
   */
  lemma ConnectOutcome(st: ServerState, lines: seq<string>, receipt: Option<string>, frame: string)
    ensures var t := OnConnect(st, lines, receipt, frame);
      var login := HeaderValue(lines, "login");
      var passcode := HeaderValue(lines, "passcode");
      var c := st.connectionId;
      && (login.None? || passcode.None? ==>
            t == ErrorReply(st, "Malformed frame", frame, "CONNECT frame missing login or passcode.", receipt))
      && (login.Some? && passcode.Some? && LoggedIn(st.connections, login.value) ==>
            t == ErrorReply(st, "User already logged in", frame, "The user is already connected.", receipt))
      && (login.Some? && passcode.Some? && !LoggedIn(st.connections, login.value)
          && login.value in st.connections.userCredentials
          && st.connections.userCredentials[login.value] != passcode.value ==>
            t == ErrorReply(st, "Invalid credentials", frame, "The provided login or passcode is incorrect.", receipt))
      && (login.Some? && passcode.Some? && !LoggedIn(st.connections, login.value)
          && (login.value in st.connections.userCredentials ==> st.connections.userCredentials[login.value] == passcode.value) ==>
            && UserOf(t.connections, c) == Some(login.value)
            && LoggedIn(t.connections, login.value)
            && t.connections.userCredentials[login.value] == passcode.value
            && Delivered(t.connections, c) ==
                 (if c in st.connections.handlers
                  then Delivered(st.connections, c) + [ConnectedFrame] + (if receipt.Some? then [ReceiptFrame(receipt.value)] else [])
                  else Delivered(st.connections, c))
            && t.terminate == st.terminate)
  {
    var login := HeaderValue(lines, "login");
    var passcode := HeaderValue(lines, "passcode");
    var c := st.connectionId;
    if login.Some? && passcode.Some? && !LoggedIn(st.connections, login.value) {
      var (r, ok) := CheckOrRegister(st.connections, login.value, passcode.value);
      if ok {
        var r1 := WithUser(r, c, login.value);
        assert login.value == r1.connectionToUser[c];
        var r2 := Deliver(r1, c, ConnectedFrame).0;
        assert LoggedIn(r2, login.value) by {
          assert r2.connectionToUser == r1.connectionToUser;
        }
      }
    }
  }

  /** SUBSCRIBE: refused when a header is missing or the connection already is subscribed; otherwise recorded. */
  lemma SubscribeOutcome(st: ServerState, lines: seq<string>, receipt: Option<string>, frame: string)
    ensures var t := OnSubscribe(st, lines, receipt, frame);
      var destination := HeaderValue(lines, "destination");
      var id := HeaderValue(lines, "id");
      var c := st.connectionId;
      && (destination.None? || id.None? ==>
            t == ErrorReply(st, "Malformed frame", frame, "SUBSCRIBE frame missing destination or id.", receipt))
      && (destination.Some? && id.Some? && Subscribed(st.connections, c, destination) ==>
            t == ErrorReply(st, "Already signed in", frame, "You are already signed in to this channel", receipt))
      && (destination.Some? && id.Some? && !Subscribed(st.connections, c, destination) ==>
            && Subscribed(t.connections, c, destination)
            && SubscriptionIdOf(t.connections, c, destination.value) == id
            && DestinationOf(t.connections, c, id.value) == destination
            && Delivered(t.connections, c) ==
                 (if c in st.connections.handlers && receipt.Some?
                  then Delivered(st.connections, c) + [ReceiptFrame(receipt.value)]
                  else Delivered(st.connections, c)))
  {
    var destination := HeaderValue(lines, "destination");
    var id := HeaderValue(lines, "id");
    if destination.Some? && id.Some? {
      SubscribeEffects(st.connections, st.connectionId, destination.value, id.value);
    }
  }

  /** UNSUBSCRIBE: refused unless the id names a channel the connection is subscribed to; then it leaves it. */
  lemma UnsubscribeOutcome(st: ServerState, lines: seq<string>, receipt: Option<string>, frame: string)
    requires Valid(st.connections)
    ensures var t := OnUnsubscribe(st, lines, receipt, frame);
      var id := HeaderValue(lines, "id");
      var c := st.connectionId;
      && (id.None? ==> t == ErrorReply(st, "Malformed frame", frame, "UNSUBSCRIBE frame missing id.", receipt))
      && (id.Some? && DestinationOf(st.connections, c, id.value).None? ==>
            t == ErrorReply(st, "Wrong channel request", frame, "You are not subscribed to this channel", receipt))
      && (id.Some? && DestinationOf(st.connections, c, id.value).Some? ==>
            var channel := DestinationOf(st.connections, c, id.value).value;
            && !Subscribed(t.connections, c, Some(channel))
            && DestinationOf(t.connections, c, id.value).None?
            && (forall ch :: ch != channel ==> Subscribed(t.connections, c, Some(ch)) == Subscribed(st.connections, c, Some(ch)))
            && Delivered(t.connections, c) ==
                 (if c in st.connections.handlers && receipt.Some?
                  then Delivered(st.connections, c) + [ReceiptFrame(receipt.value)]
                  else Delivered(st.connections, c)))
  {
    var id := HeaderValue(lines, "id");
    var c := st.connectionId;
    if id.Some? && DestinationOf(st.connections, c, id.value).Some? {
      var channel := DestinationOf(st.connections, c, id.value).value;
      assert HasId(st.connections, c, id.value);
      assert Subscribed(st.connections, c, Some(channel));
      UnsubscribeEffects(st.connections, c, id.value);
    }
  }

  /**
   * SEND from a connection not subscribed to the destination is refused and
   * reaches no one else, though a message id is used up; from a subscriber it
   * reaches every other subscriber with a handler, and the sender gets nothing.
   */
  lemma SendOutcome(st: ServerState, lines: seq<string>, receipt: Option<string>, frame: string)
    ensures var t := OnSend(st, lines, receipt, frame);
      var destination := HeaderValue(lines, "destination");
      var c := st.connectionId;
      && (destination.None? ==> t == ErrorReply(st, "Malformed frame", frame, "SEND frame missing destination.", receipt))
      && (destination.Some? ==> t.connections.messageIdGenerator == st.connections.messageIdGenerator + 1)
      && (destination.Some? && !Subscribed(st.connections, c, destination) ==>
            && (forall d :: d != c ==> Delivered(t.connections, d) == Delivered(st.connections, d))
            && c !in t.connections.handlers)
      && (destination.Some? && Subscribed(st.connections, c, destination) ==>
            var message := MessageFrame(SubscriptionIdOf(st.connections, c, destination.value),
                                        st.connections.messageIdGenerator + 1, destination.value, Body(lines));
            && (forall d :: Delivered(t.connections, d) ==
                  if Subscribed(st.connections, d, destination) && d != c && d in st.connections.handlers
                  then Delivered(st.connections, d) + [message]
                  else Delivered(st.connections, d))
            && t.connections.(outbox := st.connections.outbox, messageIdGenerator := st.connections.messageIdGenerator) == st.connections)
  {
    var destination := HeaderValue(lines, "destination");
    if destination.Some? {
      var r := DrawMessageId(st.connections).0;
      var message := MessageFrame(SubscriptionIdOf(st.connections, st.connectionId, destination.value),
                                  st.connections.messageIdGenerator + 1, destination.value, Body(lines));
      if !Subscribed(st.connections, st.connectionId, destination) {
        ErrorReplyEffects(st.(connections := r), "Cannot send report", frame, "You are not subscribed to this channel", receipt);
      } else {
        DeliverToChannelEffects(r, destination.value, message, st.connectionId);
      }
    }
  }

  /** DISCONNECT: the receipt is sent first, then the connection is forgotten and the processor terminates. */
  lemma DisconnectOutcome(st: ServerState, receipt: Option<string>)
    ensures var t := OnDisconnect(st, receipt);
      var c := st.connectionId;
      && t.terminate
      && Delivered(t.connections, c) ==
           (if c in st.connections.handlers && receipt.Some?
            then Delivered(st.connections, c) + [ReceiptFrame(receipt.value)]
            else Delivered(st.connections, c))
      && c !in t.connections.handlers
      && (forall ch :: !Subscribed(t.connections, c, Some(ch)))
      && UserOf(t.connections, c).None?
  {
    var st1 := ReceiptReply(st, receipt);
    DisconnectEffects(st1.connections, st.connectionId);
  }

  /** The frame subscribes under an id the connection already uses: the one input that breaks `Valid`. */
  ghost predicate ReusesSubscriptionId(st: ServerState, lines: seq<string>)
  {
    && lines != [] && lines[0] == "SUBSCRIBE"
    && HeaderValue(lines, "id").Some?
    && DestinationOf(st.connections, st.connectionId, HeaderValue(lines, "id").value).Some?
  }

  lemma ConnectKeepsValid(st: ServerState, lines: seq<string>, receipt: Option<string>, frame: string)
    requires Valid(st.connections)
    ensures Valid(OnConnect(st, lines, receipt, frame).connections)
  {
    var r := st.connections;
    var c := st.connectionId;
    var login := HeaderValue(lines, "login");
    var passcode := HeaderValue(lines, "passcode");
    if login.None? || passcode.None? {
      ErrorReplyKeepsValid(st, "Malformed frame", frame, "CONNECT frame missing login or passcode.", receipt);
    } else if LoggedIn(r, login.value) {
      ErrorReplyKeepsValid(st, "User already logged in", frame, "The user is already connected.", receipt);
    } else {
      var r0 := CheckOrRegister(r, login.value, passcode.value).0;
      ValidFromTables(r, r0);
      if !CheckOrRegister(r, login.value, passcode.value).1 {
        ErrorReplyKeepsValid(st.(connections := r0), "Invalid credentials", frame, "The provided login or passcode is incorrect.", receipt);
      } else {
        var r2 := Deliver(WithUser(r0, c, login.value), c, ConnectedFrame).0;
        ValidFromTables(r, r2);
        ReceiptReplyKeepsValid(st.(connections := r2), receipt);
        assert OnConnect(st, lines, receipt, frame) == ReceiptReply(st.(connections := r2), receipt);
      }
    }
  }

  lemma SubscribeKeepsValidUnlessReused(st: ServerState, lines: seq<string>, receipt: Option<string>, frame: string)
    requires Valid(st.connections)
    requires HeaderValue(lines, "id").Some? ==> DestinationOf(st.connections, st.connectionId, HeaderValue(lines, "id").value).None?
    ensures Valid(OnSubscribe(st, lines, receipt, frame).connections)
  {
    var r := st.connections;
    var c := st.connectionId;
    var destination := HeaderValue(lines, "destination");
    var id := HeaderValue(lines, "id");
    if destination.None? || id.None? {
      ErrorReplyKeepsValid(st, "Malformed frame", frame, "SUBSCRIBE frame missing destination or id.", receipt);
    } else if Subscribed(r, c, destination) {
      ErrorReplyKeepsValid(st, "Already signed in", frame, "You are already signed in to this channel", receipt);
    } else {
      var r1 := WithSubscription(r, c, destination.value, id.value);
      SubscribeKeepsValid(r, c, destination.value, id.value);
      ReceiptReplyKeepsValid(st.(connections := r1), receipt);
      assert OnSubscribe(st, lines, receipt, frame) == ReceiptReply(st.(connections := r1), receipt);
    }
  }

  lemma UnsubscribeKeepsValidFrame(st: ServerState, lines: seq<string>, receipt: Option<string>, frame: string)
    requires Valid(st.connections)
    ensures Valid(OnUnsubscribe(st, lines, receipt, frame).connections)
  {
    var r := st.connections;
    var c := st.connectionId;
    var id := HeaderValue(lines, "id");
    if id.None? {
      ErrorReplyKeepsValid(st, "Malformed frame", frame, "UNSUBSCRIBE frame missing id.", receipt);
    } else if !Subscribed(r, c, DestinationOf(r, c, id.value)) {
      ErrorReplyKeepsValid(st, "Wrong channel request", frame, "You are not subscribed to this channel", receipt);
    } else {
      var r1 := WithoutSubscription(r, c, id.value);
      UnsubscribeKeepsValid(r, c, id.value);
      ReceiptReplyKeepsValid(st.(connections := r1), receipt);
      assert OnUnsubscribe(st, lines, receipt, frame) == ReceiptReply(st.(connections := r1), receipt);
    }
  }

  lemma SendKeepsValid(st: ServerState, lines: seq<string>, receipt: Option<string>, frame: string)
    requires Valid(st.connections)
    ensures Valid(OnSend(st, lines, receipt, frame).connections)
  {
    var r := st.connections;
    var c := st.connectionId;
    var destination := HeaderValue(lines, "destination");
    if destination.None? {
      ErrorReplyKeepsValid(st, "Malformed frame", frame, "SEND frame missing destination.", receipt);
    } else {
      var r1 := DrawMessageId(r).0;
      ValidFromTables(r, r1);
      if !Subscribed(r1, c, destination) {
        ErrorReplyKeepsValid(st.(connections := r1), "Cannot send report", frame, "You are not subscribed to this channel", receipt);
      } else {
        var message := MessageFrame(SubscriptionIdOf(r, c, destination.value), DrawMessageId(r).1, destination.value, Body(lines));
        var r2 := DeliverToChannel(r1, destination.value, message, c);
        ValidFromTables(r, r2);
        assert OnSend(st, lines, receipt, frame) == st.(connections := r2);
      }
    }
  }

  /** Every frame keeps the subscription tables in agreement, except a SUBSCRIBE that reuses an id. */
  lemma DispatchKeepsValid(st: ServerState, lines: seq<string>, frame: string)
    requires lines != []
    requires Valid(st.connections)
    requires !ReusesSubscriptionId(st, lines)
    ensures Valid(Dispatch(st, lines, frame).connections)
  {
    var receipt := HeaderValue(lines, "receipt");
    var command := lines[0];
    if command == "CONNECT" {
      ConnectKeepsValid(st, lines, receipt, frame);
    } else if command == "SUBSCRIBE" {
      SubscribeKeepsValidUnlessReused(st, lines, receipt, frame);
    } else if command == "UNSUBSCRIBE" {
      UnsubscribeKeepsValidFrame(st, lines, receipt, frame);
    } else if command == "SEND" {
      SendKeepsValid(st, lines, receipt, frame);
    } else if command == "DISCONNECT" {
      ReceiptReplyKeepsValid(st, receipt);
      DisconnectKeepsValid(ReceiptReply(st, receipt).connections, st.connectionId);
    } else {
      ErrorReplyKeepsValid(st, "Unknown command", frame, "Invalid STOMP command: " + command, receipt);
    }
  }

  lemma ReceiptReplyKeepsValid(st: ServerState, receipt: Option<string>)
    requires Valid(st.connections)
    ensures Valid(ReceiptReply(st, receipt).connections)
  {
    ValidFromTables(st.connections, ReceiptReply(st, receipt).connections);
  }

  lemma ErrorReplyKeepsValid(st: ServerState, message: string, frame: string, body: string, receipt: Option<string>)
    requires Valid(st.connections)
    ensures Valid(ErrorReply(st, message, frame, body, receipt).connections)
  {
    var r := Deliver(st.connections, st.connectionId, ErrorFrame(message, frame, body, receipt)).0;
    ValidFromTables(st.connections, r);
    DisconnectKeepsValid(r, st.connectionId);
  }

  // ---------------------------------------------------------------------------
  // The processor object
  // ---------------------------------------------------------------------------

  class StompMessagingProtocolImpl {
    var connectionId: int
    var connections: ConnectionsImpl?
    var terminate: bool

    constructor()
      ensures !terminate && connections == null
    {
      terminate := false;
      connections := null;
    }

    function Model(): ServerState
      requires connections != null
      reads this, connections
    {
      ServerState(connections.Model(), connectionId, terminate)
    }

    method Start(connectionId: int, connections: ConnectionsImpl)
      modifies this
      ensures this.connectionId == connectionId && this.connections == connections
      ensures terminate == old(terminate)
    {
      this.connectionId := connectionId;
      this.connections := connections;
    }

    method ShouldTerminate() returns (t: bool)
      ensures t == terminate
    {
      t := terminate;
    }

    /** `process`; `completed` is false when the frame has no line, and then nothing has changed. */
    method Process(message: string) returns (completed: bool)
      requires connections != null
      modifies this, connections
      ensures connections == old(connections) && connectionId == old(connectionId)
      ensures completed <==> Processed(old(Model()), message).Some?
      ensures completed ==> Model() == Processed(old(Model()), message).value
      ensures !completed ==> Model() == old(Model())
    {
      var text := FrameText(message);
      var lines := JavaSplit(text);
      if lines == [] {
        return false;
      }
      var command := lines[0];
      var receiptId := HeaderValue(lines, "receipt");
      if command == "CONNECT" {
        HandleConnect(lines, receiptId, text);
      } else if command == "SUBSCRIBE" {
        HandleSubscribe(lines, receiptId, text);
      } else if command == "UNSUBSCRIBE" {
        HandleUnsubscribe(lines, receiptId, text);
      } else if command == "SEND" {
        HandleSend(lines, receiptId, text);
      } else if command == "DISCONNECT" {
        HandleDisconnect(lines, receiptId, text);
      } else {
        SendError("Unknown command", text, "Invalid STOMP command: " + command, receiptId);
      }
      return true;
    }

    method HandleConnect(lines: seq<string>, receiptId: Option<string>, frame: string)
      requires connections != null
      modifies connections
      ensures Model() == OnConnect(old(Model()), lines, receiptId, frame)
    {
      var login := HeaderValue(lines, "login");
      var passcode := HeaderValue(lines, "passcode");
      if login.None? || passcode.None? {
        SendError("Malformed frame", frame, "CONNECT frame missing login or passcode.", receiptId);
        return;
      }
      var loggedIn := connections.IsUserLoggedIn(login.value);
      if loggedIn {
        SendError("User already logged in", frame, "The user is already connected.", receiptId);
        return;
      }
      var ok := connections.ValidateOrRegisterUser(login.value, passcode.value);
      if !ok {
        SendError("Invalid credentials", frame, "The provided login or passcode is incorrect.", receiptId);
        return;
      }
      connections.AssociateUserWithConnection(connectionId, login.value);
      var _ := connections.Send(connectionId, ConnectedFrame);
      if receiptId.Some? {
        SendReceipt(receiptId);
      }
    }

    method HandleSubscribe(lines: seq<string>, receiptId: Option<string>, frame: string)
      requires connections != null
      modifies connections
      ensures Model() == OnSubscribe(old(Model()), lines, receiptId, frame)
    {
      var destination := HeaderValue(lines, "destination");
      var id := HeaderValue(lines, "id");
      if destination.None? || id.None? {
        SendError("Malformed frame", frame, "SUBSCRIBE frame missing destination or id.", receiptId);
        return;
      }
      var subscribed := connections.IsSubscribed(connectionId, destination);
      if subscribed {
        SendError("Already signed in", frame, "You are already signed in to this channel", receiptId);
        return;
      }
      connections.Subscribe(connectionId, destination.value, id.value);
      if receiptId.Some? {
        SendReceipt(receiptId);
      }
    }

    method HandleUnsubscribe(lines: seq<string>, receiptId: Option<string>, frame: string)
      requires connections != null
      modifies connections
      ensures Model() == OnUnsubscribe(old(Model()), lines, receiptId, frame)
    {
      var subscriptionId := HeaderValue(lines, "id");
      if subscriptionId.None? {
        SendError("Malformed frame", frame, "UNSUBSCRIBE frame missing id.", receiptId);
        return;
      }
      var destination := connections.FindDestination(connectionId, subscriptionId.value);
      var subscribed := connections.IsSubscribed(connectionId, destination);
      if !subscribed {
        SendError("Wrong channel request", frame, "You are not subscribed to this channel", receiptId);
        return;
      }
      connections.Unsubscribe(connectionId, subscriptionId.value);
      if receiptId.Some? {
        SendReceipt(receiptId);
      }
    }

    method HandleSend(lines: seq<string>, receiptId: Option<string>, frame: string)
      requires connections != null
      modifies connections
      ensures Model() == OnSend(old(Model()), lines, receiptId, frame)
    {
      var destination := HeaderValue(lines, "destination");
      if destination.None? {
        SendError("Malformed frame", frame, "SEND frame missing destination.", receiptId);
        return;
      }
      var body := Body(lines);
      var subscription := connections.GetSubscriptionId(connectionId, destination.value);
      var messageId := connections.GetMessageId();
      var messageFrame := MessageFrame(subscription, messageId, destination.value, body);
      var subscribed := connections.IsSubscribed(connectionId, destination);
      if !subscribed {
        SendError("Cannot send report", frame, "You are not subscribed to this channel", receiptId);
        return;
      }
      connections.SendToChannel(destination.value, messageFrame, connectionId);
    }

    method HandleDisconnect(lines: seq<string>, receiptId: Option<string>, frame: string)
      requires connections != null
      modifies this, connections
      ensures connections == old(connections) && connectionId == old(connectionId)
      ensures Model() == OnDisconnect(old(Model()), receiptId)
    {
      if receiptId.Some? {
        SendReceipt(receiptId);
      }
      connections.Disconnect(connectionId);
      terminate := true;
    }

    method SendReceipt(receiptId: Option<string>)
      requires connections != null
      modifies connections
      ensures Model() == ReceiptReply(old(Model()), receiptId)
    {
      if receiptId.None? {
        return;
      }
      var _ := connections.Send(connectionId, ReceiptFrame(receiptId.value));
    }

    method SendError(message: string, frame: string, body: string, receiptId: Option<string>)
      requires connections != null
      modifies connections
      ensures Model() == ErrorReply(old(Model()), message, frame, body, receiptId)
    {
      var text := ErrorFrame(message, frame, body, receiptId);
      var _ := connections.Send(connectionId, text);
      connections.Disconnect(connectionId);
    }
  }
}
