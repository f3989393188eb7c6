/**
 * The client's handling of frames from the broker (`processFrame` in
 * StompClient.cpp): CONNECTED, MESSAGE, RECEIPT and ERROR.
 *
 * A `std::stoi` that throws inside `processFrame` is not caught anywhere and
 * ends the client; such a frame yields `None`, and nothing has been changed by
 * then.  The global `user` and `handlerConnected` and the text written to the
 * console are part of the `Session`.
 */
module ClientDispatch {
  import opened Wrappers
  import opened Strings
  import opened Events
  import opened Summary
  import opened ClientProtocol
  import opened HashMaps

  // ---------------------------------------------------------------------------
  // The command and the receipt id of a frame
  // ---------------------------------------------------------------------------

  /** The characters up to the first white space. */
  function TakeToken(s: string): (r: string)
    ensures r <= s
    ensures forall i :: 0 <= i < |r| ==> !IsCSpace(r[i])
    ensures |r| < |s| ==> IsCSpace(s[|r|])
  {
    if s == [] || IsCSpace(s[0]) then [] else [s[0]] + TakeToken(s[1..])
  }

  /** `response >> command`: the first white-space-delimited word. */
  function Command(frame: string): string
  {
    TakeToken(DropLeadingCSpace(frame))
  }

  const ReceiptPrefix := "receipt-id:"

  /** The text after the first "receipt-id:" up to the end of its line, or to the end of the frame. */
  function ReceiptIdText(frame: string): Option<string>
  {
    match FindFrom(frame, ReceiptPrefix, 0)
    case None => None
    case Some(pos) =>
      var start := pos + |ReceiptPrefix|;
      match FindFrom(frame, "\n", start)
      case Some(end) => Some(frame[start..end])
      case None => Some(frame[start..])
  }

  /** `getReceiptId`: -1 without a receipt-id header; `None` when `std::stoi` throws. */
  function GetReceiptId(frame: string): Option<int>
  {
    match ReceiptIdText(frame)
    case None => Some(-1)
    case Some(text) => Stoi(text)
  }

  /** `compareReceiptId`: false without a receipt-id header; `None` when `std::stoi` throws. */
  function CompareReceiptId(frame: string, id: int): Option<bool>
  {
    match ReceiptIdText(frame)
    case None => Some(false)
    case Some(text) =>
      match Stoi(text)
      case None => None
      case Some(extracted) => Some(extracted == id)
  }

  /** The two readings of the receipt id fail together, and compare agrees with get when a header is present. */
  lemma CompareAgreesWithGet(frame: string, id: int)
    ensures CompareReceiptId(frame, id).None? <==> GetReceiptId(frame).None?
    ensures ReceiptIdText(frame).Some? && GetReceiptId(frame).Some? ==>
      CompareReceiptId(frame, id) == Some(GetReceiptId(frame).value == id)
    ensures ReceiptIdText(frame).None? ==> CompareReceiptId(frame, id) == Some(false) && GetReceiptId(frame) == Some(-1)
  {
  }

  // ---------------------------------------------------------------------------
  // MESSAGE frames
  // ---------------------------------------------------------------------------

  /** The locals of the MESSAGE branch while its lines are read. */
  datatype MessageFields = MessageFields(
    channel: string,
    user: string,
    city: string,
    eventName: string,
    description: string,
    dateTime: int,
    generalInfo: Info,
    inGeneralInfo: bool,
    inDescription: bool)

  const NoFields := MessageFields("", "", "", "", "", 0, [], false, false)

  /** A " key: value" line of the general information block, cut at its first colon and trimmed. */
  function InfoEntry(line: string, colon: nat): (string, string)
    requires colon < |line|
  {
    (TrimSpacesTabs(line[..colon]), TrimSpacesTabs(line[colon + 1..]))
  }

  /** One iteration of the `getline` loop; `None` when the date does not parse. */
  function ParseLine(f: MessageFields, line: string): Option<MessageFields>
  {
    if "destination:" <= line then Some(f.(channel := line[12..]))
    else if "user:" <= line then Some(f.(user := line[5..]))
    else if "city:" <= line then Some(f.(city := line[5..]))
    else if "event name:" <= line then Some(f.(eventName := line[11..]))
    else if "date time:" <= line then
      match Stoi(line[10..])
      case None => None
      case Some(t) => Some(f.(dateTime := t))
    else if "general information:" <= line then Some(f.(inGeneralInfo := true))
    else if "description:" <= line then Some(f.(description := line[12..], inDescription := true, inGeneralInfo := false))
    else Some(Continuation(f, line))
  }

  /** A line with no known header: a general information entry, a description line, or nothing. */
  function Continuation(f: MessageFields, line: string): MessageFields
  {
    if f.inGeneralInfo then
      match IndexOf(line, ':')
      case None => f.(inGeneralInfo := false)
      case Some(colon) =>
        var (key, value) := InfoEntry(line, colon);
        f.(generalInfo := Put(f.generalInfo, key, value))
    else if f.inDescription then
      if line == "" || ':' in line then f.(inDescription := false)
      else f.(description := f.description + line)
    else f
  }

  function ParseLines(f: MessageFields, lines: seq<string>): Option<MessageFields>
    decreases |lines|
  {
    if lines == [] then Some(f)
    else
      match ParseLine(f, lines[0])
      case None => None
      case Some(g) => ParseLines(g, lines[1..])
  }

  function MessageEvent(f: MessageFields): Event
  {
    Event(f.channel, f.city, f.eventName, f.dateTime, f.description, f.generalInfo)
  }

  lemma ContinuationKeepsInfoOrdered(f: MessageFields, line: string)
    requires Ordered(f.generalInfo)
    ensures Ordered(Continuation(f, line).generalInfo)
  {
    if f.inGeneralInfo && IndexOf(line, ':').Some? {
      var (key, value) := InfoEntry(line, IndexOf(line, ':').value);
      PutOrdered(f.generalInfo, key, value);
    }
  }

  lemma ParseLineKeepsInfoOrdered(f: MessageFields, line: string)
    requires Ordered(f.generalInfo)
    ensures ParseLine(f, line).Some? ==> Ordered(ParseLine(f, line).value.generalInfo)
  {
    var r := ParseLine(f, line);
    if "destination:" <= line || "user:" <= line || "city:" <= line || "event name:" <= line
       || "date time:" <= line || "general information:" <= line || "description:" <= line {
      assert r.Some? ==> r.value.generalInfo == f.generalInfo;
    } else {
      assert r == Some(Continuation(f, line));
      ContinuationKeepsInfoOrdered(f, line);
    }
  }

  /** The general information the loop collects stays a map: keys ascend, so each occurs once. */
  lemma {:induction false} ParseLinesKeepsInfoOrdered(f: MessageFields, lines: seq<string>)
    requires Ordered(f.generalInfo)
    ensures ParseLines(f, lines).Some? ==> Ordered(ParseLines(f, lines).value.generalInfo)
    decreases |lines|
  {
    if lines != [] {
      ParseLineKeepsInfoOrdered(f, lines[0]);
      var g := ParseLine(f, lines[0]);
      if g.Some? {
        ParseLinesKeepsInfoOrdered(g.value, lines[1..]);
      }
    }
  }

  /** A "date time:" line whose value `std::stoi` rejects. */
  predicate BadDateLine(line: string)
  {
    "date time:" <= line && Stoi(line[10..]).None?
  }

  lemma ParseLineFailsOnlyOnBadDate(f: MessageFields, line: string)
    ensures ParseLine(f, line).None? ==> BadDateLine(line)
  {
    if "date time:" <= line {
      DateLineHasNoEarlierHeader(line);
    } else {
      OtherLineParses(f, line);
    }
  }

  /** Only a "date time:" line can fail. */
  lemma OtherLineParses(f: MessageFields, line: string)
    requires !("date time:" <= line)
    ensures ParseLine(f, line).Some?
  {
  }

  /** A line that starts with `h` has `h`'s characters in front. */
  lemma PrefixAt(h: string, line: string, k: nat)
    requires h <= line && k < |h|
    ensures line[k] == h[k]
  {
    assert line[..|h|] == h;
  }

  /** Each header line sets its own field of the message and no other header field. */
  lemma ParseLineSetsOwnField(f: MessageFields, line: string)
    requires ParseLine(f, line).Some?
    ensures var g := ParseLine(f, line).value;
      && g.channel == (if "destination:" <= line then line[12..] else f.channel)
      && g.user == (if "user:" <= line then line[5..] else f.user)
      && g.city == (if "city:" <= line then line[5..] else f.city)
      && g.eventName == (if "event name:" <= line then line[11..] else f.eventName)
      && (!("date time:" <= line) ==> g.dateTime == f.dateTime)
  {
    if line != [] {
      if "destination:" <= line {
        PrefixAt("destination:", line, 0);
        PrefixAt("destination:", line, 1);
      } else if "user:" <= line {
        PrefixAt("user:", line, 0);
      } else if "city:" <= line {
        PrefixAt("city:", line, 0);
      } else if "event name:" <= line {
        PrefixAt("event name:", line, 0);
      } else if "date time:" <= line {
        PrefixAt("date time:", line, 0);
        PrefixAt("date time:", line, 1);
      }
    }
  }

  /** A line that fails to parse is exactly a "date time:" line that `stoi` rejects. */
  lemma BadDateLineFails(f: MessageFields, line: string)
    requires BadDateLine(line)
    ensures ParseLine(f, line).None?
  {
    DateLineHasNoEarlierHeader(line);
  }

  /** A "date time:" line starts with none of the headers the loop tests before it. */
  lemma DateLineHasNoEarlierHeader(line: string)
    requires "date time:" <= line
    ensures !("destination:" <= line) && !("user:" <= line) && !("city:" <= line) && !("event name:" <= line)
  {
    PrefixAt("date time:", line, 0);
    PrefixAt("date time:", line, 1);
    NotPrefixAt("destination:", line, 1);
    NotPrefixAt("user:", line, 0);
    NotPrefixAt("city:", line, 0);
    NotPrefixAt("event name:", line, 0);
  }

  /** A line that differs from `h` at some position of `h` does not start with `h`. */
  lemma NotPrefixAt(h: string, line: string, k: nat)
    requires k < |h| && k < |line| && line[k] != h[k]
    ensures !(h <= line)
  {
  }

  /**
   * A line with no known header never touches the header fields, only ever
   * extends the description, never opens the general information section, and
   * changes nothing outside a section.
   */
  lemma ContinuationKeepsHeaders(f: MessageFields, line: string)
    ensures var g := Continuation(f, line);
      && g.channel == f.channel && g.user == f.user && g.city == f.city
      && g.eventName == f.eventName && g.dateTime == f.dateTime
      && f.description <= g.description
      && (g.inGeneralInfo ==> f.inGeneralInfo)
      && (!f.inGeneralInfo ==> g.generalInfo == f.generalInfo)
      && (!f.inGeneralInfo && !f.inDescription ==> g == f)
  {
  }

  lemma TailIndex<T>(s: seq<T>, i: nat)
    requires i < |s| - 1
    ensures s[1..][i] == s[i + 1]
  {
  }

  /** A MESSAGE frame fails to parse only on a "date time:" line whose value `std::stoi` rejects. */
  lemma {:induction false} ParseFailsOnlyOnBadDate(f: MessageFields, lines: seq<string>)
    ensures ParseLines(f, lines).None? ==> exists i :: 0 <= i < |lines| && BadDateLine(lines[i])
    decreases |lines|
  {
    if lines != [] && ParseLines(f, lines).None? {
      var g := ParseLine(f, lines[0]);
      if g.None? {
        ParseLineFailsOnlyOnBadDate(f, lines[0]);
      } else {
        ParseFailsOnlyOnBadDate(g.value, lines[1..]);
        var i :| 0 <= i < |lines[1..]| && BadDateLine(lines[1..][i]);
        TailIndex(lines, i);
      }
    }
  }

  // ---------------------------------------------------------------------------
  // The client session
  // ---------------------------------------------------------------------------

  datatype Session = Session(
    protocol: ProtocolState,
    user: string,              // the global user name
    handlerConnected: bool,    // the physical connection is up
    output: seq<string>)       // lines written to the console

  /** The teardown after the DISCONNECT receipt or an ERROR frame. */
  function Teardown(s: Session): Session
  {
    s.(protocol := s.protocol.(channelData := WithoutClient(s.protocol.channelData, s.user),
                               pending := map[],
                               isLogicConnected := false,
                               sentDisconnect := -1,
                               subscriptions := map[]),
       handlerConnected := false)
  }

  /** The CONNECTED branch. */
  function OnConnected(s: Session): Session
  {
    s.(protocol := s.protocol.(isLogicConnected := true), output := s.output + ["Login successful!"])
  }

  /** The MESSAGE branch: the event goes under the frame's own destination and sender. */
  function OnMessage(s: Session, frame: string): Option<Session>
  {
    match ParseLines(NoFields, GetLines(frame))
    case None => None
    case Some(f) => Some(s.(protocol := s.protocol.(channelData := WithEvent(s.protocol.channelData, f.channel, f.user, MessageEvent(f)))))
  }

  /** Printing and forgetting the message pending under receipt `id`, if any. */
  function Acknowledge(s: Session, id: int): Session
  {
    if id in s.protocol.pending then
      s.(output := s.output + [s.protocol.pending[id]], protocol := s.protocol.(pending := s.protocol.pending - {id}))
    else s
  }

  /** The RECEIPT branch. */
  function OnReceipt(s: Session, frame: string): Option<Session>
  {
    match CompareReceiptId(frame, s.protocol.sentDisconnect)
    case None => None
    case Some(needDisconnect) =>
      match GetReceiptId(frame)
      case None => None
      case Some(id) =>
        var s1 := Acknowledge(s, id);
        Some(if needDisconnect then Teardown(s1) else s1)
  }

  /** The ERROR branch. */
  function OnError(s: Session, frame: string): Session
  {
    Teardown(s.(output := s.output + [frame]))
  }

  /** `processFrame`: the session after one frame from the broker; `None` when an exception escapes. */
  function NextSession(s: Session, frame: string): Option<Session>
  {
    var command := Command(frame);
    if command == "CONNECTED" then Some(OnConnected(s))
    else if command == "MESSAGE" then OnMessage(s, frame)
    else if command == "RECEIPT" then OnReceipt(s, frame)
    else if command == "ERROR" then Some(OnError(s, frame))
    else Some(s)
  }

  lemma TeardownConsistent(s: Session)
    requires Consistent(s.protocol)
    ensures Consistent(Teardown(s).protocol)
  {
  }

  /** Frames never break the protocol engine's consistency. */
  lemma NextSessionKeepsConsistent(s: Session, frame: string)
    requires Consistent(s.protocol)
    ensures NextSession(s, frame).Some? ==> Consistent(NextSession(s, frame).value.protocol)
  {
    var command := Command(frame);
    var p := s.protocol;
    if command == "CONNECTED" {
      assert NextSession(s, frame).value.protocol == p.(isLogicConnected := true);
    } else if command == "MESSAGE" {
      var f := ParseLines(NoFields, GetLines(frame));
      if f.Some? {
        var q := p.(channelData := WithEvent(p.channelData, f.value.channel, f.value.user, MessageEvent(f.value)));
        assert NextSession(s, frame).value.protocol == q;
        assert Consistent(q);
      }
    } else if command == "RECEIPT" {
      var needDisconnect := CompareReceiptId(frame, p.sentDisconnect);
      var id := GetReceiptId(frame);
      if needDisconnect.Some? && id.Some? {
        var s1 := Acknowledge(s, id.value);
        assert Consistent(s1.protocol);
        TeardownConsistent(s1);
        assert NextSession(s, frame) == Some(if needDisconnect.value then Teardown(s1) else s1);
      }
    } else if command == "ERROR" {
      TeardownConsistent(s.(output := s.output + [frame]));
    }
  }

  /** The frames that end the client are MESSAGE frames with a bad date and RECEIPT frames with a bad id. */
  lemma OnlyParseErrorsEndTheClient(s: Session, frame: string)
    ensures NextSession(s, frame).None? ==>
      || (Command(frame) == "MESSAGE" && ParseLines(NoFields, GetLines(frame)).None?)
      || (Command(frame) == "RECEIPT" && GetReceiptId(frame).None?)
  {
    CompareAgreesWithGet(frame, s.protocol.sentDisconnect);
  }

  /** A frame whose command the client does not know changes nothing. */
  lemma UnknownCommandIgnored(s: Session, frame: string)
    requires Command(frame) !in {"CONNECTED", "MESSAGE", "RECEIPT", "ERROR"}
    ensures NextSession(s, frame) == Some(s)
  {
  }

  /** CONNECTED only marks the session logged in and says so. */
  lemma ConnectedMarksLogin(s: Session, frame: string)
    requires Command(frame) == "CONNECTED"
    ensures NextSession(s, frame) == Some(s.(protocol := s.protocol.(isLogicConnected := true), output := s.output + ["Login successful!"]))
  {
  }

  /** An ERROR frame is printed and ends the session: all tables cleared, the user's reports dropped. */
  lemma ErrorEndsSession(s: Session, frame: string)
    requires Command(frame) == "ERROR"
    ensures NextSession(s, frame).Some?
    ensures var t := NextSession(s, frame).value;
      && t.output == s.output + [frame]
      && !t.handlerConnected && !t.protocol.isLogicConnected
      && t.protocol.pending == map[] && t.protocol.subscriptions == map[] && t.protocol.sentDisconnect == -1
      && (forall c :: EventsOf(t.protocol.channelData, c, s.user) == [])
      && (forall c, u :: u != s.user ==> EventsOf(t.protocol.channelData, c, u) == EventsOf(s.protocol.channelData, c, u))
      && t.protocol.receiptCounter == s.protocol.receiptCounter
  {
  }

  /** A MESSAGE frame appends the event it describes to the log of its destination and sender. */
  lemma MessageRecordsEvent(s: Session, frame: string)
    requires Command(frame) == "MESSAGE"
    requires ParseLines(NoFields, GetLines(frame)).Some?
    ensures var f := ParseLines(NoFields, GetLines(frame)).value;
      && NextSession(s, frame).Some?
      && EventsOf(NextSession(s, frame).value.protocol.channelData, f.channel, f.user)
         == EventsOf(s.protocol.channelData, f.channel, f.user) + [MessageEvent(f)]
      && NextSession(s, frame).value.protocol.pending == s.protocol.pending
  {
    var f := ParseLines(NoFields, GetLines(frame)).value;
    var data := WithEvent(s.protocol.channelData, f.channel, f.user, MessageEvent(f));
    assert OnMessage(s, frame) == Some(s.(protocol := s.protocol.(channelData := data)));
    assert NextSession(s, frame) == OnMessage(s, frame);
  }

  // ---------------------------------------------------------------------------
  // RECEIPT frames as the broker writes them
  // ---------------------------------------------------------------------------

  /** The RECEIPT frame the broker sends for a receipt header `receipt`. */
  function ReceiptFrame(receipt: string): string
  {
    "RECEIPT\nreceipt-id:" + receipt + "\n\n"
  }

  lemma IntToStringHasNoNewline(n: int)
    ensures '\n' !in IntToString(n)
  {
  }

  /** The receipt id the client reads back from a broker RECEIPT frame is the text of the header. */
  lemma ReceiptIdTextOfReceiptFrame(receipt: string)
    requires '\n' !in receipt
    ensures ReceiptIdText(ReceiptFrame(receipt)) == Some(receipt)
  {
    var frame := ReceiptFrame(receipt);
    assert OccursAt(frame, ReceiptPrefix, 8) by {
      assert frame[8..19] == ReceiptPrefix;
    }
    forall i | 0 <= i < 8 ensures !OccursAt(frame, ReceiptPrefix, i) {
      assert frame[i] != 'r';
    }
    var end := 19 + |receipt|;
    assert frame[end] == '\n';
    assert OccursAt(frame, "\n", end) by {
      assert frame[end..end + 1] == "\n";
    }
    forall i | 19 <= i < end ensures !OccursAt(frame, "\n", i) {
      assert frame[i] == receipt[i - 19];
    }
    assert frame[19..end] == receipt;
  }

  /** The receipt id of a RECEIPT for a client-issued id `id` reads back as `id`. */
  lemma GetReceiptIdOfReceiptFrame(id: int)
    requires Int32Min <= id <= Int32Max
    ensures GetReceiptId(ReceiptFrame(IntToString(id))) == Some(id)
    ensures forall other :: CompareReceiptId(ReceiptFrame(IntToString(id)), other) == Some(id == other)
  {
    IntToStringHasNoNewline(id);
    ReceiptIdTextOfReceiptFrame(IntToString(id));
    StoiOfIntToString(id);
  }

  lemma {:induction false} CommandOfReceiptFrame(receipt: string)
    ensures Command(ReceiptFrame(receipt)) == "RECEIPT"
  {
    var frame := ReceiptFrame(receipt);
    assert DropLeadingCSpace(frame) == frame;
    assert frame == "RECEIPT" + ("\n" + receipt[..0] + "receipt-id:" + receipt + "\n\n");
    assert TakeToken(frame) == "RECEIPT" by {
      assert frame[7] == '\n';
      assert frame[..7] == "RECEIPT";
      TakeTokenUpTo(frame, 7);
    }
  }

  lemma {:induction false} TakeTokenUpTo(s: string, n: nat)
    requires n < |s| && IsCSpace(s[n])
    requires forall i :: 0 <= i < n ==> !IsCSpace(s[i])
    ensures TakeToken(s) == s[..n]
  {
    if n > 0 {
      TakeTokenUpTo(s[1..], n - 1);
      assert s[..n] == [s[0]] + s[1..][..n - 1];
    }
  }

  /** The RECEIPT branch on a broker RECEIPT for a client-issued id `id`. */
  lemma OnReceiptOfReceiptFrame(s: Session, id: int)
    requires Int32Min <= id <= Int32Max
    ensures var frame := ReceiptFrame(IntToString(id));
      && NextSession(s, frame) == OnReceipt(s, frame)
      && OnReceipt(s, frame) == Some(if id == s.protocol.sentDisconnect then Teardown(Acknowledge(s, id)) else Acknowledge(s, id))
  {
    CommandOfReceiptFrame(IntToString(id));
    GetReceiptIdOfReceiptFrame(id);
  }

  /**
   * The receipt for a pending request (not the DISCONNECT one) prints the
   * request's message and forgets exactly that receipt; nothing else changes.
   */
  lemma ReceiptAcknowledgesRequest(s: Session, id: int)
    requires Int32Min <= id <= Int32Max
    requires id in s.protocol.pending && id != s.protocol.sentDisconnect
    ensures NextSession(s, ReceiptFrame(IntToString(id)))
         == Some(s.(output := s.output + [s.protocol.pending[id]],
                    protocol := s.protocol.(pending := s.protocol.pending - {id})))
  {
    OnReceiptOfReceiptFrame(s, id);
  }

  /** The receipt for the DISCONNECT ends the session, after printing its message if one was pending. */
  lemma DisconnectReceiptEndsSession(s: Session)
    requires 0 <= s.protocol.sentDisconnect <= Int32Max
    ensures NextSession(s, ReceiptFrame(IntToString(s.protocol.sentDisconnect)))
         == Some(Teardown(Acknowledge(s, s.protocol.sentDisconnect)))
  {
    OnReceiptOfReceiptFrame(s, s.protocol.sentDisconnect);
  }

  // ---------------------------------------------------------------------------
  // The listener's state as the client keeps it
  // ---------------------------------------------------------------------------

  class StompClient {
    var user: string
    var handlerConnected: bool
    var output: seq<string>
    const protocol: StompProtocol

    function Model(): Session
      reads this, protocol, protocol.channelToSubcriptonID, protocol.receiptIDToMessageMap, protocol.summaryManager
    {
      Session(protocol.Model(), user, handlerConnected, output)
    }

    ghost predicate Valid()
      reads this, protocol, protocol.channelToSubcriptonID, protocol.receiptIDToMessageMap, protocol.summaryManager
    {
      protocol.Valid()
    }

    constructor(protocol: StompProtocol)
      ensures this.protocol == protocol
      ensures user == "" && !handlerConnected && output == []
    {
      this.protocol := protocol;
      user := "";
      handlerConnected := false;
      output := [];
    }

    /** The teardown shared by the RECEIPT and ERROR branches (the socket's `close` is not modelled). */
    method EndSession()
      requires Valid()
      modifies this, protocol, protocol.channelToSubcriptonID, protocol.receiptIDToMessageMap, protocol.summaryManager
      ensures Valid()
      ensures Model() == Teardown(old(Model()))
    {
      protocol.summaryManager.ClearClientData(user);
      protocol.receiptIDToMessageMap.Clear();
      protocol.isLogicConnected := false;
      protocol.sentDisconnect := -1;
      protocol.channelToSubcriptonID.Clear();
      handlerConnected := false;
    }

    /** `processFrame`: `completed` is false when an exception escapes, and then nothing has changed. */
    method ProcessFrame(frame: string) returns (completed: bool)
      requires Valid()
      modifies this, protocol, protocol.channelToSubcriptonID, protocol.receiptIDToMessageMap, protocol.summaryManager
      ensures Valid()
      ensures completed <==> NextSession(old(Model()), frame).Some?
      ensures completed ==> Model() == NextSession(old(Model()), frame).value
      ensures !completed ==> Model() == old(Model())
    {
      NextSessionKeepsConsistent(Model(), frame);
      var command := Command(frame);
      if command == "CONNECTED" {
        protocol.isLogicConnected := true;
        output := output + ["Login successful!"];
        completed := true;
      } else if command == "MESSAGE" {
        completed := ReceiveMessage(frame);
      } else if command == "RECEIPT" {
        completed := ReceiveReceipt(frame);
      } else if command == "ERROR" {
        output := output + [frame];
        EndSession();
        completed := true;
      } else {
        completed := true;
      }
    }

    method ReceiveMessage(frame: string) returns (completed: bool)
      modifies protocol.summaryManager
      ensures completed <==> OnMessage(old(Model()), frame).Some?
      ensures completed ==> Model() == OnMessage(old(Model()), frame).value
      ensures !completed ==> Model() == old(Model())
    {
      var parsed := ParseMessage(frame);
      if parsed.None? {
        return false;
      }
      var f := parsed.value;
      protocol.summaryManager.AddEvent(f.channel, f.user, MessageEvent(f));
      return true;
    }

    method ReceiveReceipt(frame: string) returns (completed: bool)
      requires Valid()
      modifies this, protocol, protocol.channelToSubcriptonID, protocol.receiptIDToMessageMap, protocol.summaryManager
      ensures completed <==> OnReceipt(old(Model()), frame).Some?
      ensures completed ==> Model() == OnReceipt(old(Model()), frame).value
      ensures !completed ==> Model() == old(Model())
    {
      var needDisconnect := CompareReceiptId(frame, protocol.sentDisconnect);
      if needDisconnect.None? {
        return false;
      }
      var id := GetReceiptId(frame);
      CompareAgreesWithGet(frame, protocol.sentDisconnect);
      var present := protocol.receiptIDToMessageMap.Contains(id.value);
      if present {
        var message := protocol.receiptIDToMessageMap.GetValue(id.value);
        output := output + [message.value];
        var _ := protocol.receiptIDToMessageMap.Remove(id.value);
      }
      assert Model() == Acknowledge(old(Model()), id.value);
      if needDisconnect.value {
        assert Consistent(Model().protocol);
        EndSession();
      }
      return true;
    }

    /** The `getline` loop of the MESSAGE branch; `None` when `std::stoi` throws on the date. */
    static method ParseMessage(frame: string) returns (r: Option<MessageFields>)
      ensures r == ParseLines(NoFields, GetLines(frame))
    {
      var fields := NoFields;
      var lines := GetLines(frame);
      var i := 0;
      while i < |lines|
        invariant 0 <= i <= |lines|
        invariant ParseLines(NoFields, lines) == ParseLines(fields, lines[i..])
      {
        assert lines[i..][0] == lines[i] && lines[i..][1..] == lines[i + 1..];
        var next := ReadMessageLine(fields, lines[i]);
        if next.None? {
          return None;
        }
        fields := next.value;
        i := i + 1;
      }
      return Some(fields);
    }

    /** One pass of the `getline` loop over `line`. */
    static method ReadMessageLine(f: MessageFields, line: string) returns (r: Option<MessageFields>)
      ensures r == ParseLine(f, line)
    {
      if "destination:" <= line {
        return Some(f.(channel := line[12..]));
      } else if "user:" <= line {
        return Some(f.(user := line[5..]));
      } else if "city:" <= line {
        return Some(f.(city := line[5..]));
      } else if "event name:" <= line {
        return Some(f.(eventName := line[11..]));
      } else if "date time:" <= line {
        var t := Stoi(line[10..]);
        if t.None? {
          return None;
        }
        return Some(f.(dateTime := t.value));
      } else if "general information:" <= line {
        return Some(f.(inGeneralInfo := true));
      } else if "description:" <= line {
        return Some(f.(description := line[12..], inDescription := true, inGeneralInfo := false));
      }
      var g := ReadContinuationLine(f, line);
      return Some(g);
    }

    /** The rest of the loop body, for a line with no known header. */
    static method ReadContinuationLine(f: MessageFields, line: string) returns (g: MessageFields)
      ensures g == Continuation(f, line)
      ensures g.channel == f.channel && g.user == f.user && g.dateTime == f.dateTime
    {
      if f.inGeneralInfo {
        var colon := IndexOf(line, ':');
        if colon.None? {
          return f.(inGeneralInfo := false);
        }
        var key := TrimSpacesTabs(line[..colon.value]);
        var value := TrimSpacesTabs(line[colon.value + 1..]);
        return f.(generalInfo := Put(f.generalInfo, key, value));
      } else if f.inDescription {
        if line == "" || ':' in line {
          return f.(inDescription := false);
        }
        return f.(description := f.description + line);
      }
      return f;
    }
  }
}
