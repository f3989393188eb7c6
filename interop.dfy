/**
 * The client and the server side by side: a frame the client builds is read
 * by the server's `process`, and the server's reply is read by the client's
 * `processFrame`.  The frame travels as its text.  The client's connection
 * handler is not part of this model: it is taken to append the NUL that the
 * server's decoder strips again.
 */
module Interop {
  import opened Wrappers
  import opened Strings
  import Connections
  import ClientProtocol
  import ClientDispatch
  import ServerProtocol

  /** Both sides write and read the RECEIPT frame in the same layout. */
  lemma ReceiptFramesAgree(receipt: string)
    ensures ServerProtocol.ReceiptFrame(receipt) == ClientDispatch.ReceiptFrame(receipt)
    ensures ServerProtocol.ReceiptFrame(receipt)[..8] == "RECEIPT\n"
  {
  }

  /** The client's DISCONNECT frame is split into its command line and its receipt line. */
  lemma DisconnectFrameLines(id: nat)
    ensures var frame := ClientProtocol.DisconnectFrame(id);
      && ServerProtocol.FrameText(frame) == frame
      && JavaSplit(frame) == ["DISCONNECT", "receipt:" + IntToString(id)]
      && |frame| >= 2 && frame[|frame| - 1] == '\n'
  {
    var value := IntToString(id);
    var text := "DISCONNECT" + "\n" + ("receipt:" + value);
    var frame := ClientProtocol.DisconnectFrame(id);
    assert frame == text + "\n" + "\n";
    assert '\0' !in frame;
    ServerProtocol.DisconnectWithReceipt(ServerProtocol.ServerState(Connections.Empty, 0, false), text, value);
    JavaSplitIgnoresFinalNewline(text);
    JavaSplitIgnoresFinalNewline(text + "\n");
  }

  /** A line without '\n' in front of more text adds one piece in front. */
  lemma PieceInFront(a: string, rest: string, pieces: seq<string>)
    requires '\n' !in a && Pieces(rest) == pieces
    ensures Pieces(a + "\n" + rest) == [a] + pieces
  {
    LineThenRest(a, rest);
  }

  /** Three lines without '\n', joined by '\n', are three pieces. */
  lemma ThreePieces(c: string, d: string, e: string)
    requires '\n' !in c && '\n' !in d && '\n' !in e
    ensures Pieces(c + "\n" + (d + "\n" + e)) == [c, d, e]
  {
    SingleLine(e);
    PieceInFront(d, e, [e]);
    PieceInFront(c, d + "\n" + e, [d, e]);
  }

  lemma FourPieces(b: string, c: string, d: string, e: string)
    requires '\n' !in b && '\n' !in c && '\n' !in d && '\n' !in e
    ensures Pieces(b + "\n" + (c + "\n" + (d + "\n" + e))) == [b, c, d, e]
  {
    ThreePieces(c, d, e);
    PieceInFront(b, c + "\n" + (d + "\n" + e), [c, d, e]);
  }

  /** Five lines without '\n', joined by '\n', are five pieces. */
  lemma FivePieces(a: string, b: string, c: string, d: string, e: string)
    requires '\n' !in a && '\n' !in b && '\n' !in c && '\n' !in d && '\n' !in e
    ensures Pieces(a + "\n" + (b + "\n" + (c + "\n" + (d + "\n" + e)))) == [a, b, c, d, e]
  {
    FourPieces(b, c, d, e);
    PieceInFront(a, b + "\n" + (c + "\n" + (d + "\n" + e)), [b, c, d, e]);
  }

  /** A frame of five lines without '\n', each ended by '\n', then an empty line; the last line is not empty. */
  lemma FiveLineFrame(a: string, b: string, c: string, d: string, e: string)
    requires '\n' !in a && '\n' !in b && '\n' !in c && '\n' !in d && '\n' !in e && e != ""
    ensures var frame := a + "\n" + (b + "\n" + (c + "\n" + (d + "\n" + e))) + "\n" + "\n";
      && ServerProtocol.FrameText(frame) == frame
      && JavaSplit(frame) == [a, b, c, d, e]
      && |frame| >= 2 && frame[|frame| - 1] == '\n'
  {
    var text := a + "\n" + (b + "\n" + (c + "\n" + (d + "\n" + e)));
    var frame := text + "\n" + "\n";
    assert frame[|frame| - 1] == '\n';
    assert text != "" && text[|a|] == '\n';
    FivePieces(a, b, c, d, e);
    JavaSplitIgnoresFinalNewline(text);
    JavaSplitIgnoresFinalNewline(text + "\n");
  }

  /** The CONNECT frame is its five lines joined by '\n', then an empty line. */
  lemma ConnectFrameJoined(username: string, password: string)
    ensures ClientProtocol.ConnectFrame(username, password)
      == "CONNECT" + "\n" + ("accept-version:1.2" + "\n" + (("host:" + ClientProtocol.BrokerHost) + "\n"
         + (("login:" + username) + "\n" + ("passcode:" + password)))) + "\n" + "\n"
  {
  }

  /**
   * The client's CONNECT frame is split into its five lines, for a user name and
   * a password without '\n'.
   */
  lemma ConnectFrameLines(username: string, password: string)
    requires '\n' !in username && '\n' !in password
    ensures var frame := ClientProtocol.ConnectFrame(username, password);
      && ServerProtocol.FrameText(frame) == frame
      && JavaSplit(frame) == ConnectLines(username, password)
      && |frame| >= 2 && frame[|frame| - 1] == '\n'
  {
    var a, b, c, d, e := "CONNECT", "accept-version:1.2", "host:" + ClientProtocol.BrokerHost,
                          "login:" + username, "passcode:" + password;
    ConnectFrameJoined(username, password);
    FiveLineFrame(a, b, c, d, e);
  }

  /** The lines of a CONNECT frame, as the server reads them. */
  function ConnectLines(username: string, password: string): seq<string>
  {
    ["CONNECT", "accept-version:1.2", "host:" + ClientProtocol.BrokerHost, "login:" + username, "passcode:" + password]
  }

  /** A line whose first character differs from the header's does not carry it. */
  lemma FirstCharacterDiffers(line: string, header: string)
    requires line != [] && header != [] && line[0] != header[0]
    ensures !ServerProtocol.HasHeader(line, header)
  {
    assert (header + ":")[0] == header[0];
  }

  /** A line that is `header:` followed by a trimmed value carries that value. */
  lemma CarriesHeader(header: string, value: string)
    requires JavaTrim(value) == value
    ensures ServerProtocol.HasHeader(header + ":" + value, header)
    ensures JavaTrim((header + ":" + value)[|header| + 1..]) == value
  {
    var line := header + ":" + value;
    assert line[..|header| + 1] == header + ":";
    assert line[|header| + 1..] == value;
  }

  /** The server skips a first line that does not carry the header. */
  lemma SkipsLine(lines: seq<string>, header: string)
    requires lines != [] && lines[0] != [] && header != [] && lines[0][0] != header[0]
    ensures ServerProtocol.HeaderValue(lines, header) == ServerProtocol.HeaderValue(lines[1..], header)
  {
    FirstCharacterDiffers(lines[0], header);
  }

  /** The server finds the login in the fourth line of a CONNECT frame. */
  lemma ConnectLogin(username: string, password: string)
    requires JavaTrim(username) == username
    ensures ServerProtocol.HeaderValue(ConnectLines(username, password), "login") == Some(username)
  {
    var b, c := "accept-version:1.2", "host:" + ClientProtocol.BrokerHost;
    var tail := ["login:" + username, "passcode:" + password];
    assert ConnectLines(username, password) == ["CONNECT"] + ([b, c] + tail);
    SkipsLine(["CONNECT"] + ([b, c] + tail), "login");
    SkipsLine([b, c] + tail, "login");
    SkipsLine([c] + tail, "login");
    CarriesHeader("login", username);
  }

  /** The server finds the passcode in the fifth line of a CONNECT frame. */
  lemma ConnectPasscode(username: string, password: string)
    requires JavaTrim(password) == password
    ensures ServerProtocol.HeaderValue(ConnectLines(username, password), "passcode") == Some(password)
  {
    var b, c, d := "accept-version:1.2", "host:" + ClientProtocol.BrokerHost, "login:" + username;
    var tail := ["passcode:" + password];
    assert ConnectLines(username, password) == ["CONNECT"] + ([b, c, d] + tail);
    SkipsLine(["CONNECT"] + ([b, c, d] + tail), "passcode");
    SkipsLine([b, c, d] + tail, "passcode");
    SkipsLine([c, d] + tail, "passcode");
    SkipsLine([d] + tail, "passcode");
    CarriesHeader("passcode", password);
  }

  /** No line of a CONNECT frame carries a receipt. */
  lemma ConnectWithoutReceipt(username: string, password: string)
    ensures ServerProtocol.HeaderValue(ConnectLines(username, password), "receipt") == None
  {
    var lines := ConnectLines(username, password);
    forall i | 0 <= i < |lines|
      ensures !ServerProtocol.HasHeader(lines[i], "receipt")
    {
      FirstCharacterDiffers(lines[i], "receipt");
    }
    ServerProtocol.HeaderValueNone(lines, "receipt");
  }

  /**
   * The server reads the client's CONNECT frame as a CONNECT without a receipt
   * whose login and passcode are the user name and password the client sent,
   * for credentials without '\n' and without blanks at either end (the server
   * trims header values).  With the last character dropped, as written, the
   * lines are the same; only the frame text an ERROR reply echoes is shorter.
   */
  lemma ServerReadsConnect(st: ServerProtocol.ServerState, username: string, password: string)
    requires '\n' !in username && '\n' !in password
    requires JavaTrim(username) == username && JavaTrim(password) == password
    ensures var frame := ClientProtocol.ConnectFrame(username, password);
      var lines := JavaSplit(frame);
      && ServerProtocol.HeaderValue(lines, "login") == Some(username)
      && ServerProtocol.HeaderValue(lines, "passcode") == Some(password)
      && ServerProtocol.Processed(st, frame) == Some(ServerProtocol.OnConnect(st, lines, None, frame))
      && ServerProtocol.ProcessedAsWritten(st, frame) == Some(ServerProtocol.OnConnect(st, lines, None, frame[..|frame| - 1]))
  {
    var frame := ClientProtocol.ConnectFrame(username, password);
    var lines := ConnectLines(username, password);
    ConnectFrameLines(username, password);
    ConnectLogin(username, password);
    ConnectPasscode(username, password);
    ConnectWithoutReceipt(username, password);
    ServerProtocol.NewlineTerminatedFrame(st, frame, lines);
    ServerProtocol.DispatchConnect(st, lines, frame);
    ServerProtocol.DispatchConnect(st, lines, frame[..|frame| - 1]);
  }

  /**
   * The server reads the client's DISCONNECT frame, `DISCONNECT` /
   * `receipt:<id>` followed by an empty line, as a DISCONNECT carrying
   * receipt `<id>`, with or without the last character dropped.
   */
  lemma ServerReadsDisconnect(st: ServerProtocol.ServerState, id: nat)
    ensures var frame := ClientProtocol.DisconnectFrame(id);
      && ServerProtocol.Processed(st, frame) == Some(ServerProtocol.OnDisconnect(st, Some(IntToString(id))))
      && ServerProtocol.ProcessedAsWritten(st, frame) == ServerProtocol.Processed(st, frame)
  {
    var value := IntToString(id);
    var lines := ["DISCONNECT", "receipt:" + value];
    var frame := ClientProtocol.DisconnectFrame(id);
    DisconnectFrameLines(id);
    ServerProtocol.NewlineTerminatedFrame(st, frame, lines);
    ServerProtocol.DisconnectWithReceipt(st, "DISCONNECT" + "\n" + ("receipt:" + value), value);
    ServerProtocol.DispatchDisconnect(st, lines, frame);
    ServerProtocol.DispatchDisconnect(st, lines, frame[..|frame| - 1]);
  }

  /**
   * The DISCONNECT handshake end to end: the client draws a receipt id and
   * sends DISCONNECT; the server queues the matching RECEIPT for that client,
   * forgets the connection and asks to terminate; the client reads the
   * RECEIPT, recognises its own DISCONNECT receipt and ends the session.
   */
  lemma DisconnectHandshake(st: ServerProtocol.ServerState, s: ClientDispatch.Session)
    requires 0 <= s.protocol.receiptCounter <= Int32Max
    requires st.connectionId in st.connections.handlers
    ensures var (p, frame) := ClientProtocol.Disconnect(s.protocol);
      var id := s.protocol.receiptCounter;
      var reply := ServerProtocol.ReceiptFrame(IntToString(id));
      var served := ServerProtocol.Processed(st, frame);
      && served.Some?
      && served.value.terminate
      && st.connectionId !in served.value.connections.handlers
      && Connections.Delivered(served.value.connections, st.connectionId)
           == Connections.Delivered(st.connections, st.connectionId) + [reply]
      && ClientDispatch.NextSession(s.(protocol := p), reply)
           == Some(ClientDispatch.Teardown(ClientDispatch.Acknowledge(s.(protocol := p), id)))
  {
    var (p, frame) := ClientProtocol.Disconnect(s.protocol);
    var id := s.protocol.receiptCounter;
    ServerReadsDisconnect(st, id);
    ServerProtocol.DisconnectOutcome(st, Some(IntToString(id)));
    ReceiptFramesAgree(IntToString(id));
    ClientDispatch.DisconnectReceiptEndsSession(s.(protocol := p));
  }
}
