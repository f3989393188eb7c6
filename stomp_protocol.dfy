/**
 * The client's protocol engine (`StompProtocol`): builds the outbound frames,
 * hands out receipt and subscription ids from two counters, and keeps the
 * channel -> subscription-id table and the receipt-id -> message table.
 *
 * `ProtocolState` is the value of all of the engine's state; the transition
 * functions below say what each frame constructor does to it, and the class
 * `StompProtocol` keeps that state in fields and objects as the client does.
 */
module ClientProtocol {
  import opened Wrappers
  import opened Strings
  import opened Sorting
  import opened Events
  import opened Summary
  import opened HashMaps

  const BrokerHost := "stomp.cs.bgu.ac.il"

  // ---------------------------------------------------------------------------
  // Outbound frames (the text handed to the connection; the transport adds the NUL)
  // ---------------------------------------------------------------------------

  function ConnectFrame(username: string, password: string): string
  {
    "CONNECT" + "\n" + "accept-version:1.2" + "\n" + "host:" + BrokerHost + "\n" + "login:" + username
    + "\n" + "passcode:" + password + "\n" + "\n"
  }

  function SubscribeFrame(channel: string, subscriptionId: int, receiptId: int): string
  {
    "SUBSCRIBE\ndestination:" + channel + "\nid:" + IntToString(subscriptionId) + "\nreceipt:" + IntToString(receiptId) + "\n\n"
  }

  function UnsubscribeFrame(subscriptionId: int, receiptId: int): string
  {
    "UNSUBSCRIBE\nid:" + IntToString(subscriptionId) + "\nreceipt:" + IntToString(receiptId) + "\n\n"
  }

  function DisconnectFrame(receiptId: int): string
  {
    "DISCONNECT\nreceipt:" + IntToString(receiptId) + "\n\n"
  }

  /** One " key: value" line per attribute, in the map's key order. */
  function InfoLines(info: Info): string
  {
    if info == [] then ""
    else InfoLines(info[..|info| - 1]) + " " + info[|info| - 1].0 + ": " + info[|info| - 1].1 + "\n"
  }

  function ReportFrame(channel: string, user: string, e: Event, receiptId: int): string
  {
    "SEND\ndestination:" + channel + "\nuser:" + user + "\ncity:" + e.city + "\nevent name:" + e.name
    + "\ndate time:" + IntToString(e.dateTime) + "\ngeneral information:\n" + InfoLines(e.generalInformation)
    + "description:\n" + e.description + "\n" + "receipt:" + IntToString(receiptId) + "\n"
  }

  // ---------------------------------------------------------------------------
  // The engine's state and its transitions
  // ---------------------------------------------------------------------------

  datatype ProtocolState = ProtocolState(
    receiptCounter: int,
    subscriptionCounter: int,
    isLogicConnected: bool,
    sentDisconnect: int,              // receipt id of the DISCONNECT sent, or -1
    subscriptions: map<string, int>,  // channelToSubcriptonID
    pending: map<int, string>,        // receiptIDToMessageMap
    channelData: ChannelData)         // the summary engine's log

  const Initial := ProtocolState(0, 0, false, -1, map[], map[], map[])

  /**
   * Ids are handed out from the counters: every pending receipt and the
   * DISCONNECT receipt were drawn already, every subscription id too, and no two
   * channels share a subscription id.
   */
  ghost predicate Consistent(p: ProtocolState)
  {
    && 0 <= p.receiptCounter
    && 0 <= p.subscriptionCounter
    && -1 <= p.sentDisconnect < p.receiptCounter
    && (forall r :: r in p.pending ==> 0 <= r < p.receiptCounter)
    && (forall c :: c in p.subscriptions ==> 0 <= p.subscriptions[c] < p.subscriptionCounter)
    && (forall c, d :: c in p.subscriptions && d in p.subscriptions && c != d ==> p.subscriptions[c] != p.subscriptions[d])
  }

  /** `constructSubscribeFrame`: draws a receipt id, then a subscription id. */
  function Subscribe(p: ProtocolState, channel: string): (ProtocolState, string)
  {
    var receiptId := p.receiptCounter;
    var subscriptionId := p.subscriptionCounter;
    (p.(receiptCounter := receiptId + 1,
        subscriptionCounter := subscriptionId + 1,
        subscriptions := p.subscriptions[channel := subscriptionId],
        pending := p.pending[receiptId := "Joined channel " + channel]),
     SubscribeFrame(channel, subscriptionId, receiptId))
  }

  /** `constructUnsubscribeFrame`: id -1 when the channel was never joined. */
  function Unsubscribe(p: ProtocolState, channel: string): (ProtocolState, string)
  {
    var receiptId := p.receiptCounter;
    var subscriptionId := if channel in p.subscriptions then p.subscriptions[channel] else -1;
    (p.(receiptCounter := receiptId + 1,
        subscriptions := p.subscriptions - {channel},
        pending := p.pending[receiptId := "Exited channel " + channel]),
     UnsubscribeFrame(subscriptionId, receiptId))
  }

  /** `constructDisconnectFrame`: remembers the receipt that will end the session. */
  function Disconnect(p: ProtocolState): (ProtocolState, string)
  {
    var receiptId := p.receiptCounter;
    (p.(receiptCounter := receiptId + 1, sentDisconnect := receiptId), DisconnectFrame(receiptId))
  }

  /** The loop of `constructReportFrames` over the events in the order they are sent. */
  function ReportFrames(p: ProtocolState, channel: string, user: string, sent: seq<Event>): (ProtocolState, seq<string>)
  {
    if sent == [] then (p, [])
    else
      var (q, frames) := ReportFrames(p, channel, user, sent[..|sent| - 1]);
      var e := sent[|sent| - 1];
      (q.(receiptCounter := q.receiptCounter + 1, channelData := WithEvent(q.channelData, channel, user, e)),
       frames + [ReportFrame(channel, user, e, q.receiptCounter)])
  }

  lemma InitialConsistent()
    ensures Consistent(Initial)
  {
  }

  /**
   * Joining draws fresh ids: the receipt id is not pending yet and the
   * subscription id is held by no other channel; the receipt's message is
   * registered and the channel maps to the new id.
   */
  lemma SubscribeEffects(p: ProtocolState, channel: string)
    requires Consistent(p)
    ensures var (q, frame) := Subscribe(p, channel);
      && Consistent(q)
      && p.receiptCounter !in p.pending
      && (forall c :: c in p.subscriptions ==> p.subscriptions[c] != p.subscriptionCounter)
      && q.pending == p.pending[p.receiptCounter := "Joined channel " + channel]
      && q.subscriptions == p.subscriptions[channel := p.subscriptionCounter]
      && frame == SubscribeFrame(channel, p.subscriptionCounter, p.receiptCounter)
  {
  }

  /** Leaving forgets the channel and names the id it was joined with, or -1. */
  lemma UnsubscribeEffects(p: ProtocolState, channel: string)
    requires Consistent(p)
    ensures var (q, frame) := Unsubscribe(p, channel);
      && Consistent(q)
      && channel !in q.subscriptions
      && (forall c :: c in q.subscriptions <==> c in p.subscriptions && c != channel)
      && q.subscriptions == p.subscriptions - {channel}
      && q.receiptCounter == p.receiptCounter + 1
      && q.subscriptionCounter == p.subscriptionCounter
      && q.sentDisconnect == p.sentDisconnect
      && q.isLogicConnected == p.isLogicConnected
      && q.channelData == p.channelData
      && p.receiptCounter !in p.pending
      && q.pending == p.pending[p.receiptCounter := "Exited channel " + channel]
      && frame == UnsubscribeFrame(if channel in p.subscriptions then p.subscriptions[channel] else -1, p.receiptCounter)
  {
  }

  lemma DisconnectEffects(p: ProtocolState)
    requires Consistent(p)
    ensures var (q, frame) := Disconnect(p);
      && Consistent(q)
      && q.sentDisconnect == p.receiptCounter
      && q.pending == p.pending && q.subscriptions == p.subscriptions
      && frame == DisconnectFrame(p.receiptCounter)
  {
  }

  /** One more event: the step of the report loop. */
  lemma ReportFramesAppend(p: ProtocolState, channel: string, user: string, init: seq<Event>, e: Event)
    ensures var (q, frames) := ReportFrames(p, channel, user, init);
      ReportFrames(p, channel, user, init + [e])
      == (q.(receiptCounter := q.receiptCounter + 1, channelData := WithEvent(q.channelData, channel, user, e)),
          frames + [ReportFrame(channel, user, e, q.receiptCounter)])
  {
    assert (init + [e])[..|init|] == init;
    assert (init + [e])[|init|] == e;
  }

  lemma PrefixAll<T>(s: seq<T>)
    ensures s[..|s|] == s
  {
  }

  lemma PrefixAppend<T>(s: seq<T>, i: nat)
    requires i < |s|
    ensures s[..i] + [s[i]] == s[..i + 1]
  {
  }

  /** Reporting registers no pending receipt and leaves the subscriptions and the disconnect receipt alone. */
  lemma {:induction false} ReportFramesKeepTables(p: ProtocolState, channel: string, user: string, sent: seq<Event>)
    ensures var q := ReportFrames(p, channel, user, sent).0;
      && q.pending == p.pending && q.subscriptions == p.subscriptions && q.sentDisconnect == p.sentDisconnect
      && q.subscriptionCounter == p.subscriptionCounter && q.isLogicConnected == p.isLogicConnected
      && q.receiptCounter == p.receiptCounter + |sent|
  {
    if sent != [] {
      ReportFramesKeepTables(p, channel, user, sent[..|sent| - 1]);
    }
  }

  lemma {:induction false} ReportFramesLength(p: ProtocolState, channel: string, user: string, sent: seq<Event>)
    ensures |ReportFrames(p, channel, user, sent).1| == |sent|
    decreases |sent|
  {
    if sent != [] {
      ReportFramesLength(p, channel, user, sent[..|sent| - 1]);
    }
  }

  /** The frames for `sent` are those for all but its last event, then the last event's frame. */
  lemma ReportFramesSnoc(p: ProtocolState, channel: string, user: string, sent: seq<Event>)
    requires sent != []
    ensures ReportFrames(p, channel, user, sent).1
         == ReportFrames(p, channel, user, sent[..|sent| - 1]).1
            + [ReportFrame(channel, user, sent[|sent| - 1], p.receiptCounter + |sent| - 1)]
  {
    ReportFramesKeepTables(p, channel, user, sent[..|sent| - 1]);
  }

  /** Frame `i` reports event `i` under receipt id counter + i. */
  lemma {:induction false} ReportFrameAt(p: ProtocolState, channel: string, user: string, sent: seq<Event>, i: nat)
    requires i < |sent|
    ensures |ReportFrames(p, channel, user, sent).1| == |sent|
    ensures ReportFrames(p, channel, user, sent).1[i] == ReportFrame(channel, user, sent[i], p.receiptCounter + i)
    decreases |sent|
  {
    var init := sent[..|sent| - 1];
    ReportFramesSnoc(p, channel, user, sent);
    ReportFramesLength(p, channel, user, init);
    if i < |init| {
      ReportFrameAt(p, channel, user, init, i);
      assert init[i] == sent[i];
    } else {
      assert i == |sent| - 1;
    }
  }

  /** One frame per event, in order, with consecutive receipt ids starting at the counter. */
  lemma ReportFramesNumbering(p: ProtocolState, channel: string, user: string, sent: seq<Event>)
    ensures var frames := ReportFrames(p, channel, user, sent).1;
      && |frames| == |sent|
      && (forall i :: 0 <= i < |sent| ==> frames[i] == ReportFrame(channel, user, sent[i], p.receiptCounter + i))
  {
    ReportFramesLength(p, channel, user, sent);
    forall i | 0 <= i < |sent| ensures ReportFrames(p, channel, user, sent).1[i] == ReportFrame(channel, user, sent[i], p.receiptCounter + i) {
      ReportFrameAt(p, channel, user, sent, i);
    }
  }

  /** Logging the last event under (channel, user) extends that log and no other. */
  lemma LogStep(base: ChannelData, before: ChannelData, after: ChannelData, channel: string, user: string,
                sent: seq<Event>)
    requires sent != []
    requires EventsOf(before, channel, user) == EventsOf(base, channel, user) + sent[..|sent| - 1]
    requires forall c, u :: (c != channel || u != user) ==> EventsOf(before, c, u) == EventsOf(base, c, u)
    requires after == WithEvent(before, channel, user, sent[|sent| - 1])
    ensures EventsOf(after, channel, user) == EventsOf(base, channel, user) + sent
    ensures forall c, u :: (c != channel || u != user) ==> EventsOf(after, c, u) == EventsOf(base, c, u)
  {
    assert sent[..|sent| - 1] + [sent[|sent| - 1]] == sent;
    assert EventsOf(base, channel, user) + sent[..|sent| - 1] + [sent[|sent| - 1]] == EventsOf(base, channel, user) + sent;
  }

  /** The events go into the summary log under (channel, user), in the order sent; no other log changes. */
  lemma {:induction false} ReportFramesLog(p: ProtocolState, channel: string, user: string, sent: seq<Event>)
    ensures var q := ReportFrames(p, channel, user, sent).0;
      && EventsOf(q.channelData, channel, user) == EventsOf(p.channelData, channel, user) + sent
      && (forall c, u :: (c != channel || u != user) ==> EventsOf(q.channelData, c, u) == EventsOf(p.channelData, c, u))
  {
    if sent != [] {
      var init := sent[..|sent| - 1];
      ReportFramesLog(p, channel, user, init);
      var q := ReportFrames(p, channel, user, init).0;
      assert ReportFrames(p, channel, user, sent).0.channelData == WithEvent(q.channelData, channel, user, sent[|sent| - 1]);
      LogStep(p.channelData, q.channelData, ReportFrames(p, channel, user, sent).0.channelData, channel, user, sent);
    } else {
      assert EventsOf(p.channelData, channel, user) + sent == EventsOf(p.channelData, channel, user);
    }
  }

  /** Reporting keeps the engine consistent: its receipt ids are fresh. */
  lemma ReportFramesConsistent(p: ProtocolState, channel: string, user: string, sent: seq<Event>)
    requires Consistent(p)
    ensures Consistent(ReportFrames(p, channel, user, sent).0)
  {
    ReportFramesKeepTables(p, channel, user, sent);
  }

  /** Subscribing to a channel and leaving it twice: the second UNSUBSCRIBE names id -1. */
  lemma SecondUnsubscribeNamesNoId(p: ProtocolState, channel: string)
    requires Consistent(p)
    ensures var (q1, f1) := Subscribe(p, channel);
      var (q2, f2) := Unsubscribe(q1, channel);
      var (q3, f3) := Unsubscribe(q2, channel);
      && f2 == UnsubscribeFrame(p.subscriptionCounter, p.receiptCounter + 1)
      && f3 == UnsubscribeFrame(-1, p.receiptCounter + 2)
  {
  }

  // ---------------------------------------------------------------------------
  // Receipt ids over any sequence of requests
  // ---------------------------------------------------------------------------

  /** What the user can ask the engine for, in terms of the frames it builds. */
  datatype Request =
    | Join(channel: string)
    | Exit(channel: string)
    | Logout
    | Publish(channel: string, user: string, sent: seq<Event>)

  function Issue(p: ProtocolState, r: Request): (ProtocolState, seq<string>)
  {
    match r
    case Join(channel) => var (q, f) := Subscribe(p, channel); (q, [f])
    case Exit(channel) => var (q, f) := Unsubscribe(p, channel); (q, [f])
    case Logout => var (q, f) := Disconnect(p); (q, [f])
    case Publish(channel, user, sent) => ReportFrames(p, channel, user, sent)
  }

  /** The receipt ids the frames of one request carry, in frame order. */
  function ReceiptIds(p: ProtocolState, r: Request): seq<int>
  {
    match r
    case Publish(_, _, sent) => seq(|sent|, i => p.receiptCounter + i)
    case _ => [p.receiptCounter]
  }

  /** Issues the requests in order: the final state, all frames, and all receipt ids. */
  function Run(p: ProtocolState, rs: seq<Request>): (ProtocolState, seq<string>, seq<int>)
    decreases |rs|
  {
    if rs == [] then (p, [], [])
    else
      var (q, frames) := Issue(p, rs[0]);
      var (s, moreFrames, moreIds) := Run(q, rs[1..]);
      (s, frames + moreFrames, ReceiptIds(p, rs[0]) + moreIds)
  }

  lemma IssueAdvances(p: ProtocolState, r: Request)
    requires Consistent(p)
    ensures Consistent(Issue(p, r).0)
    ensures Issue(p, r).0.receiptCounter == p.receiptCounter + |ReceiptIds(p, r)|
    ensures |Issue(p, r).1| == |ReceiptIds(p, r)|
  {
    match r
    case Join(channel) =>
      SubscribeEffects(p, channel);
      assert Issue(p, r).0 == Subscribe(p, channel).0;
    case Exit(channel) =>
      UnsubscribeEffects(p, channel);
      assert Issue(p, r).0 == Unsubscribe(p, channel).0;
    case Logout =>
      DisconnectEffects(p);
      assert Issue(p, r).0 == Disconnect(p).0;
    case Publish(channel, user, sent) =>
      ReportFramesConsistent(p, channel, user, sent);
      ReportFramesKeepTables(p, channel, user, sent);
      ReportFramesNumbering(p, channel, user, sent);
  }

  /**
   * Receipt ids are never reused: over any run of requests the frames carry the
   * ids counter, counter + 1, ... in order, one per frame, and the engine stays
   * consistent.
   */
  lemma {:induction false} RunReceiptIdsConsecutive(p: ProtocolState, rs: seq<Request>)
    requires Consistent(p)
    ensures var (s, frames, ids) := Run(p, rs);
      && Consistent(s)
      && |ids| == |frames| == s.receiptCounter - p.receiptCounter
      && (forall i :: 0 <= i < |ids| ==> ids[i] == p.receiptCounter + i)
    decreases |rs|
  {
    if rs != [] {
      IssueAdvances(p, rs[0]);
      var (q, frames) := Issue(p, rs[0]);
      RunReceiptIdsConsecutive(q, rs[1..]);
      var (s, moreFrames, moreIds) := Run(q, rs[1..]);
      var first := ReceiptIds(p, rs[0]);
      var ids := first + moreIds;
      forall i | 0 <= i < |ids| ensures ids[i] == p.receiptCounter + i {
        if i >= |first| {
          assert ids[i] == moreIds[i - |first|];
        }
      }
    }
  }

  // ---------------------------------------------------------------------------
  // The engine object
  // ---------------------------------------------------------------------------

  class StompProtocol {
    var receiptCounter: int
    var subscriptionCounter: int
    var isLogicConnected: bool
    var sentDisconnect: int
    const channelToSubcriptonID: ConcurrentHashMap
    const receiptIDToMessageMap: ConcurrentHashMapReversed
    const summaryManager: SummaryManager

    function Model(): ProtocolState
      reads this, channelToSubcriptonID, receiptIDToMessageMap, summaryManager
    {
      ProtocolState(receiptCounter, subscriptionCounter, isLogicConnected, sentDisconnect,
                    channelToSubcriptonID.entries, receiptIDToMessageMap.entries, summaryManager.channelData)
    }

    ghost predicate Valid()
      reads this, channelToSubcriptonID, receiptIDToMessageMap, summaryManager
    {
      Consistent(Model())
    }

    constructor()
      ensures Model() == Initial && Valid()
      ensures fresh(channelToSubcriptonID) && fresh(receiptIDToMessageMap) && fresh(summaryManager)
    {
      receiptCounter := 0;
      subscriptionCounter := 0;
      isLogicConnected := false;
      sentDisconnect := -1;
      channelToSubcriptonID := new ConcurrentHashMap();
      summaryManager := new SummaryManager();
      receiptIDToMessageMap := new ConcurrentHashMapReversed();
    }

    /** `receiptCounter.fetch_add(1)`. */
    method GetNextReceiptId() returns (id: int)
      modifies this
      ensures id == old(receiptCounter)
      ensures Model() == old(Model()).(receiptCounter := id + 1)
    {
      id := receiptCounter;
      receiptCounter := receiptCounter + 1;
    }

    /** `subscriptionCounter.fetch_add(1)`. */
    method GetNextSubscriptionId() returns (id: int)
      modifies this
      ensures id == old(subscriptionCounter)
      ensures Model() == old(Model()).(subscriptionCounter := id + 1)
    {
      id := subscriptionCounter;
      subscriptionCounter := subscriptionCounter + 1;
    }

    /** The CONNECT frame needs no id, so the engine's state is left alone. */
    method ConstructConnectFrame(username: string, password: string) returns (frame: string)
      ensures frame == ConnectFrame(username, password)
    {
      frame := "CONNECT" + "\n" + "accept-version:1.2" + "\n" + "host:" + BrokerHost;
      frame := frame + "\n" + "login:" + username;
      frame := frame + "\n" + "passcode:" + password + "\n" + "\n";
    }

    method ConstructSubscribeFrame(channel: string) returns (frame: string)
      requires Valid()
      modifies this, channelToSubcriptonID, receiptIDToMessageMap
      ensures Valid()
      ensures (Model(), frame) == Subscribe(old(Model()), channel)
    {
      ghost var p := Model();
      SubscribeEffects(p, channel);
      var receiptId := GetNextReceiptId();
      var subscriptionId := GetNextSubscriptionId();
      channelToSubcriptonID.InsertOrUpdate(channel, subscriptionId);
      receiptIDToMessageMap.InsertOrUpdate(receiptId, "Joined channel " + channel);
      frame := "SUBSCRIBE\ndestination:" + channel + "\nid:" + IntToString(subscriptionId)
               + "\nreceipt:" + IntToString(receiptId) + "\n\n";
      assert frame == SubscribeFrame(channel, p.subscriptionCounter, p.receiptCounter);
    }

    method ConstructUnsubscribeFrame(channel: string) returns (frame: string)
      requires Valid()
      modifies this, channelToSubcriptonID, receiptIDToMessageMap
      ensures Valid()
      ensures (Model(), frame) == Unsubscribe(old(Model()), channel)
    {
      ghost var p := Model();
      UnsubscribeEffects(p, channel);
      var receiptId := GetNextReceiptId();
      var subID: int;
      var present := channelToSubcriptonID.Contains(channel);
      if !present {
        subID := -1;
        assert channelToSubcriptonID.entries == channelToSubcriptonID.entries - {channel};
      } else {
        var found := channelToSubcriptonID.GetValue(channel);
        subID := found.value;
        var _ := channelToSubcriptonID.Remove(channel);
      }
      receiptIDToMessageMap.InsertOrUpdate(receiptId, "Exited channel " + channel);
      frame := "UNSUBSCRIBE\nid:" + IntToString(subID) + "\nreceipt:" + IntToString(receiptId) + "\n\n";
      assert subID == (if channel in p.subscriptions then p.subscriptions[channel] else -1);
      assert frame == UnsubscribeFrame(subID, p.receiptCounter);
    }

    method ConstructDisconnectFrame() returns (frame: string)
      requires Valid()
      modifies this
      ensures Valid()
      ensures (Model(), frame) == Disconnect(old(Model()))
    {
      var receiptId := GetNextReceiptId();
      sentDisconnect := receiptId;
      frame := "DISCONNECT\nreceipt:" + IntToString(receiptId) + "\n\n";
    }

    /** The text of one SEND frame, written piece by piece as the string stream does. */
    static method FormatReportFrame(channel: string, user: string, event: Event, receiptId: int) returns (frame: string)
      ensures frame == ReportFrame(channel, user, event, receiptId)
    {
      frame := "SEND\ndestination:" + channel + "\nuser:" + user + "\ncity:" + event.city
               + "\nevent name:" + event.name + "\ndate time:" + IntToString(event.dateTime)
               + "\ngeneral information:\n";
      ghost var head := frame;
      var info := event.generalInformation;
      for j := 0 to |info|
        invariant frame == head + InfoLines(info[..j])
      {
        assert info[..j + 1][..j] == info[..j];
        frame := frame + " " + info[j].0 + ": " + info[j].1 + "\n";
      }
      assert info[..|info|] == info;
      frame := frame + "description:\n" + event.description + "\n";
      frame := frame + "receipt:" + IntToString(receiptId) + "\n";
    }

    /** One pass of the report loop: draw a receipt id, log the event, build its frame. */
    method ReportEvent(channel: string, user: string, event: Event) returns (frame: string)
      modifies this, summaryManager
      ensures Model() == old(Model()).(receiptCounter := old(receiptCounter) + 1,
                                       channelData := WithEvent(old(Model()).channelData, channel, user, event))
      ensures frame == ReportFrame(channel, user, event, old(receiptCounter))
    {
      var receiptId := GetNextReceiptId();
      summaryManager.AddEvent(channel, user, event);
      frame := FormatReportFrame(channel, user, event, receiptId);
    }

    /**
     * `constructReportFrames` for the events already read from the report file
     * for `channel`.  They are sorted by time with `std::sort`, which is not
     * stable: the order used is returned as the ghost `sent`.
     */
    method ConstructReportFrames(channel: string, user: string, events: seq<Event>)
      returns (frames: seq<string>, ghost sent: seq<Event>)
      requires Valid()
      modifies this, summaryManager
      ensures Valid()
      ensures multiset(sent) == multiset(events) && SortedBy(sent, TimeLe)
      ensures (Model(), frames) == ReportFrames(old(Model()), channel, user, sent)
    {
      var sorted := InsertionSort(events, TimeLe);
      TimeLeTotalPreorder();
      InsertionSortSorted(events, TimeLe);
      sent := sorted;
      ghost var start := Model();
      frames := [];
      for i := 0 to |sorted|
        invariant Model() == ReportFrames(start, channel, user, sorted[..i]).0
        invariant frames == ReportFrames(start, channel, user, sorted[..i]).1
      {
        ghost var q := Model();
        ReportFramesAppend(start, channel, user, sorted[..i], sorted[i]);
        PrefixAppend(sorted, i);
        var frame := ReportEvent(channel, user, sorted[i]);
        assert frame == ReportFrame(channel, user, sorted[i], q.receiptCounter);
        frames := frames + [frame];
      }
      PrefixAll(sorted);
      ReportFramesConsistent(start, channel, user, sorted);
    }
  }
}
