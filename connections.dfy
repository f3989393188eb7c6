/**
 * The server's connection registry (`ConnectionsImpl`): which connections have
 * a handler, who is subscribed to which channel under which subscription id,
 * which user each connection logged in as, the registered credentials, and
 * the message-id counter.
 *
 * A connection handler's `send` is replaced by an outbox: `outbox[c]` is the
 * sequence of frames handed to connection `c`'s handler.  Java `null` becomes
 * `None`.
 */
module Connections {
  import opened Wrappers

  datatype Registry = Registry(
    handlers: set<int>,                                  // connectionHandlers.keySet()
    channelSubscriptions: map<string, set<int>>,         // channel -> subscribed connections
    clientSubscriptions: map<int, map<string, string>>,  // connection -> (channel -> subscription id)
    subscriptionToChannel: map<int, map<string, string>>,// connection -> (subscription id -> channel)
    connectionToUser: map<int, string>,
    userCredentials: map<string, string>,
    messageIdGenerator: int,
    outbox: map<int, seq<string>>)

  /** The registry as the constructor leaves it. */
  const Empty := Registry({}, map[], map[], map[], map[], map[], -1, map[])

  /** The frames handed so far to connection `c`. */
  function Inbox(outbox: map<int, seq<string>>, c: int): seq<string>
  {
    if c in outbox then outbox[c] else []
  }

  function Delivered(r: Registry, c: int): seq<string>
  {
    Inbox(r.outbox, c)
  }

  // ---------------------------------------------------------------------------
  // Queries
  // ---------------------------------------------------------------------------

  /** `isSubscribed`: false for a null channel, else membership in the channel's subscriber set. */
  function Subscribed(r: Registry, c: int, channel: Option<string>): bool
  {
    channel.Some? && channel.value in r.channelSubscriptions && c in r.channelSubscriptions[channel.value]
  }

  /** `findDestination`: the channel a subscription id of `c` names. */
  function DestinationOf(r: Registry, c: int, subscriptionId: string): Option<string>
  {
    if c !in r.subscriptionToChannel || r.subscriptionToChannel[c] == map[] then None
    else if subscriptionId in r.subscriptionToChannel[c] then Some(r.subscriptionToChannel[c][subscriptionId])
    else None
  }

  /** `getSubscriptionId`: the subscription id under which `c` joined `channel`. */
  function SubscriptionIdOf(r: Registry, c: int, channel: string): Option<string>
  {
    if c in r.clientSubscriptions && channel in r.clientSubscriptions[c] then Some(r.clientSubscriptions[c][channel])
    else None
  }

  /** `isUserLoggedIn`: some connection is associated with `login`. */
  function LoggedIn(r: Registry, login: string): bool
  {
    login in r.connectionToUser.Values
  }

  function UserOf(r: Registry, c: int): Option<string>
  {
    if c in r.connectionToUser then Some(r.connectionToUser[c]) else None
  }

  // ---------------------------------------------------------------------------
  // Updates
  // ---------------------------------------------------------------------------

  function WithConnection(r: Registry, c: int): Registry
  {
    r.(handlers := r.handlers + {c})
  }

  /** `subscribe`: creates the missing containers, then records the subscription in all three maps. */
  function WithSubscription(r: Registry, c: int, channel: string, subscriptionId: string): Registry
  {
    var subscribers := if channel in r.channelSubscriptions then r.channelSubscriptions[channel] else {};
    var byChannel := if c in r.clientSubscriptions then r.clientSubscriptions[c] else map[];
    var byId := if c in r.subscriptionToChannel then r.subscriptionToChannel[c] else map[];
    r.(channelSubscriptions := r.channelSubscriptions[channel := subscribers + {c}],
       clientSubscriptions := r.clientSubscriptions[c := byChannel[channel := subscriptionId]],
       subscriptionToChannel := r.subscriptionToChannel[c := byId[subscriptionId := channel]])
  }

  /** The subscriber table after `c` leaves `channel`: a channel whose set empties is dropped. */
  function LeaveChannel(channels: map<string, set<int>>, channel: string, c: int): map<string, set<int>>
  {
    if channel !in channels then channels
    else if channels[channel] - {c} == {} then channels - {channel}
    else channels[channel := channels[channel] - {c}]
  }

  /**
   * `unsubscribe`: an unknown id changes nothing.  The source dereferences
   * `clientSubscriptions.get(c)` unguarded; the two per-connection maps always
   * have the same keys (`KeysAgree`), so that lookup cannot fail.
   */
  function WithoutSubscription(r: Registry, c: int, subscriptionId: string): Registry
  {
    if c !in r.subscriptionToChannel || subscriptionId !in r.subscriptionToChannel[c] then r
    else
      var channel := r.subscriptionToChannel[c][subscriptionId];
      r.(subscriptionToChannel := r.subscriptionToChannel[c := r.subscriptionToChannel[c] - {subscriptionId}],
         channelSubscriptions := LeaveChannel(r.channelSubscriptions, channel, c),
         clientSubscriptions := if c in r.clientSubscriptions
                                then r.clientSubscriptions[c := r.clientSubscriptions[c] - {channel}]
                                else r.clientSubscriptions)
  }

  lemma LeaveChannelMembership(channels: map<string, set<int>>, channel: string, c: int, ch: string, d: int)
    ensures (ch in LeaveChannel(channels, channel, c) && d in LeaveChannel(channels, channel, c)[ch])
        <==> (ch in channels && d in channels[ch] && !(ch == channel && d == c))
    ensures LeaveChannel(channels, channel, c).Keys <= channels.Keys
    ensures channel in LeaveChannel(channels, channel, c) <==> channel in channels && channels[channel] - {c} != {}
    ensures ch != channel ==> (ch in LeaveChannel(channels, channel, c) <==> ch in channels)
  {
    if channel in channels && ch == channel && d in channels[ch] && d != c {
      assert d in channels[channel] - {c};
    }
  }

  /** Every subscriber set with `c` taken out; the channel keys stay. */
  function RemoveEverywhere(channels: map<string, set<int>>, c: int): map<string, set<int>>
  {
    map channel | channel in channels :: channels[channel] - {c}
  }

  /** `disconnect`. */
  function WithoutConnection(r: Registry, c: int): Registry
  {
    r.(handlers := r.handlers - {c},
       channelSubscriptions := RemoveEverywhere(r.channelSubscriptions, c),
       connectionToUser := r.connectionToUser - {c},
       clientSubscriptions := r.clientSubscriptions - {c},
       subscriptionToChannel := r.subscriptionToChannel - {c})
  }

  /** `validateOrRegisterUser`: checks a known login's password, registers an unknown one. */
  function CheckOrRegister(r: Registry, login: string, passcode: string): (Registry, bool)
  {
    if login in r.userCredentials then (r, r.userCredentials[login] == passcode)
    else (r.(userCredentials := r.userCredentials[login := passcode]), true)
  }

  function WithUser(r: Registry, c: int, login: string): Registry
  {
    r.(connectionToUser := r.connectionToUser[c := login])
  }

  /** `getMesageID`: increment, then return. */
  function DrawMessageId(r: Registry): (Registry, int)
  {
    (r.(messageIdGenerator := r.messageIdGenerator + 1), r.messageIdGenerator + 1)
  }

  /** `send(connectionId, msg)`: handed to the handler when there is one. */
  function Deliver(r: Registry, c: int, msg: string): (Registry, bool)
  {
    if c in r.handlers then (r.(outbox := r.outbox[c := Delivered(r, c) + [msg]]), true)
    else (r, false)
  }

  /** Appends `msg` to the inbox of every connection in `targets`. */
  function DeliverAll(outbox: map<int, seq<string>>, targets: set<int>, msg: string): map<int, seq<string>>
  {
    map c | c in outbox.Keys + targets :: if c in targets then Inbox(outbox, c) + [msg] else outbox[c]
  }

  /** The connections `send(channel, msg, notYou)` reaches. */
  function Recipients(r: Registry, channel: string, notYou: int): set<int>
  {
    if channel in r.channelSubscriptions then (r.channelSubscriptions[channel] - {notYou}) * r.handlers else {}
  }

  /** `send(channel, msg, notYou)`: every subscriber but `notYou` that has a handler gets `msg` once. */
  function DeliverToChannel(r: Registry, channel: string, msg: string, notYou: int): Registry
  {
    r.(outbox := DeliverAll(r.outbox, Recipients(r, channel, notYou), msg))
  }

  // ---------------------------------------------------------------------------
  // Invariants
  // ---------------------------------------------------------------------------

  /** Both per-connection maps exist for the same connections (created in `subscribe`, removed in `disconnect`). */
  ghost predicate KeysAgree(r: Registry)
  {
    r.clientSubscriptions.Keys == r.subscriptionToChannel.Keys
  }

  predicate HasChannel(r: Registry, c: int, channel: string)
  {
    c in r.clientSubscriptions && channel in r.clientSubscriptions[c]
  }

  predicate HasId(r: Registry, c: int, subscriptionId: string)
  {
    c in r.subscriptionToChannel && subscriptionId in r.subscriptionToChannel[c]
  }

  /**
   * The three subscription tables agree: per connection the two maps are each
   * other's inverse, and a connection is in a channel's subscriber set exactly
   * when its channel map names that channel.
   */
  ghost predicate Valid(r: Registry)
  {
    && KeysAgree(r)
    && (forall c, channel :: HasChannel(r, c, channel) ==>
          HasId(r, c, r.clientSubscriptions[c][channel])
          && r.subscriptionToChannel[c][r.clientSubscriptions[c][channel]] == channel)
    && (forall c, id :: HasId(r, c, id) ==>
          HasChannel(r, c, r.subscriptionToChannel[c][id])
          && r.clientSubscriptions[c][r.subscriptionToChannel[c][id]] == id)
    && (forall c, channel :: Subscribed(r, c, Some(channel)) <==> HasChannel(r, c, channel))
  }

  /** `Valid` depends only on the three subscription tables. */
  lemma ValidFromTables(r: Registry, t: Registry)
    requires Valid(r)
    requires t.channelSubscriptions == r.channelSubscriptions
    requires t.clientSubscriptions == r.clientSubscriptions
    requires t.subscriptionToChannel == r.subscriptionToChannel
    ensures Valid(t)
  {
    assert forall c, ch :: HasChannel(t, c, ch) == HasChannel(r, c, ch);
    assert forall c, id :: HasId(t, c, id) == HasId(r, c, id);
    assert forall c, ch :: Subscribed(t, c, Some(ch)) == Subscribed(r, c, Some(ch));
  }

  lemma EmptyValid()
    ensures Valid(Empty) && Empty.messageIdGenerator == -1
  {
  }

  /** Every operation keeps the two per-connection maps defined together. */
  lemma KeysAgreeKeptBySubscriptions(r: Registry, c: int, channel: string, id: string)
    requires KeysAgree(r)
    ensures KeysAgree(WithSubscription(r, c, channel, id))
    ensures KeysAgree(WithoutSubscription(r, c, id))
    ensures KeysAgree(WithoutConnection(r, c))
  {
  }

  lemma KeysAgreeKeptByAccounts(r: Registry, c: int, login: string, passcode: string)
    requires KeysAgree(r)
    ensures KeysAgree(CheckOrRegister(r, login, passcode).0)
    ensures KeysAgree(WithUser(r, c, login)) && KeysAgree(WithConnection(r, c))
    ensures KeysAgree(DrawMessageId(r).0)
  {
  }

  lemma KeysAgreeKeptByMessages(r: Registry, c: int, channel: string, msg: string)
    requires KeysAgree(r)
    ensures KeysAgree(Deliver(r, c, msg).0)
    ensures KeysAgree(DeliverToChannel(r, channel, msg, c))
  {
  }

  // ---------------------------------------------------------------------------
  // subscribe / unsubscribe
  // ---------------------------------------------------------------------------

  /** After `subscribe(c, channel, id)` the three queries see the new subscription. */
  lemma SubscribeEffects(r: Registry, c: int, channel: string, id: string)
    ensures var t := WithSubscription(r, c, channel, id);
      && Subscribed(t, c, Some(channel))
      && SubscriptionIdOf(t, c, channel) == Some(id)
      && DestinationOf(t, c, id) == Some(channel)
      && (forall d, ch :: d != c ==> Subscribed(t, d, Some(ch)) == Subscribed(r, d, Some(ch)))
      && (forall ch :: ch != channel ==> Subscribed(t, c, Some(ch)) == Subscribed(r, c, Some(ch)))
  {
    var t := WithSubscription(r, c, channel, id);
    assert id in t.subscriptionToChannel[c];
  }

  /** A new subscription under an id the connection has not used keeps the tables in agreement. */
  lemma SubscribeKeepsValid(r: Registry, c: int, channel: string, id: string)
    requires Valid(r)
    requires !Subscribed(r, c, Some(channel))
    requires DestinationOf(r, c, id).None?
    ensures Valid(WithSubscription(r, c, channel, id))
  {
    var t := WithSubscription(r, c, channel, id);
    assert !HasId(r, c, id);
    forall d, ch | HasChannel(t, d, ch)
      ensures HasId(t, d, t.clientSubscriptions[d][ch]) && t.subscriptionToChannel[d][t.clientSubscriptions[d][ch]] == ch
    {
      if d == c && ch != channel {
        assert HasChannel(r, d, ch);
      }
    }
    forall d, i | HasId(t, d, i)
      ensures HasChannel(t, d, t.subscriptionToChannel[d][i]) && t.clientSubscriptions[d][t.subscriptionToChannel[d][i]] == i
    {
      if d == c && i != id {
        assert HasId(r, d, i);
      }
    }
    forall d, ch ensures Subscribed(t, d, Some(ch)) <==> HasChannel(t, d, ch) {
      if d != c || ch != channel {
        assert Subscribed(t, d, Some(ch)) == Subscribed(r, d, Some(ch));
        assert HasChannel(t, d, ch) == HasChannel(r, d, ch);
      }
    }
  }

  /**
   * The server does not reject a subscription id already in use on the
   * connection.  Reusing one strands the first channel: after unsubscribing
   * the id, the connection is still subscribed to it and no id leads to it.
   */
  lemma ReusedIdStrandsChannel()
    ensures var r0 := WithSubscription(WithSubscription(WithConnection(Empty, 1), 1, "a", "7"), 1, "b", "7");
      var r1 := WithoutSubscription(r0, 1, "7");
      && Subscribed(r1, 1, Some("a"))
      && (forall id :: DestinationOf(r1, 1, id) != Some("a"))
  {
    var r0 := WithSubscription(WithSubscription(WithConnection(Empty, 1), 1, "a", "7"), 1, "b", "7");
    assert r0.subscriptionToChannel[1] == map["7" := "b"];
    var r1 := WithoutSubscription(r0, 1, "7");
    assert r1.subscriptionToChannel[1] == map[];
  }

  /** `unsubscribe` with an id the connection does not hold changes nothing. */
  lemma UnknownIdUnsubscribeChangesNothing(r: Registry, c: int, id: string)
    requires DestinationOf(r, c, id).None?
    ensures WithoutSubscription(r, c, id) == r
  {
  }

  /**
   * `unsubscribe` of a held id drops the id, the connection's channel entry
   * and its membership in the channel; every other subscription stays.
   */
  lemma UnsubscribeEffects(r: Registry, c: int, id: string)
    requires Valid(r)
    requires DestinationOf(r, c, id).Some?
    ensures var channel := DestinationOf(r, c, id).value;
      var t := WithoutSubscription(r, c, id);
      && !Subscribed(t, c, Some(channel))
      && DestinationOf(t, c, id).None?
      && SubscriptionIdOf(t, c, channel).None?
      && (forall ch :: ch != channel ==> Subscribed(t, c, Some(ch)) == Subscribed(r, c, Some(ch)))
      && (forall d, ch :: d != c ==> Subscribed(t, d, Some(ch)) == Subscribed(r, d, Some(ch)))
      && (channel in t.channelSubscriptions <==> r.channelSubscriptions[channel] != {c})
  {
    var channel := DestinationOf(r, c, id).value;
    assert HasId(r, c, id);
    assert HasChannel(r, c, channel);
    assert Subscribed(r, c, Some(channel));
    var t := WithoutSubscription(r, c, id);
    assert t.channelSubscriptions == LeaveChannel(r.channelSubscriptions, channel, c);
    assert r.channelSubscriptions[channel] - {c} == {} <==> r.channelSubscriptions[channel] == {c};
  }

  lemma UnsubscribeKeepsValid(r: Registry, c: int, id: string)
    requires Valid(r)
    ensures Valid(WithoutSubscription(r, c, id))
  {
    if HasId(r, c, id) {
      var t := WithoutSubscription(r, c, id);
      var channel := r.subscriptionToChannel[c][id];
      assert HasChannel(r, c, channel);
      forall d, ch | HasChannel(t, d, ch)
        ensures HasId(t, d, t.clientSubscriptions[d][ch]) && t.subscriptionToChannel[d][t.clientSubscriptions[d][ch]] == ch
      {
        assert HasChannel(r, d, ch);
      }
      forall d, i | HasId(t, d, i)
        ensures HasChannel(t, d, t.subscriptionToChannel[d][i]) && t.clientSubscriptions[d][t.subscriptionToChannel[d][i]] == i
      {
        assert HasId(r, d, i);
      }
      assert Subscribed(r, c, Some(channel));
      forall d, ch ensures Subscribed(t, d, Some(ch)) <==> HasChannel(t, d, ch) {
        LeaveChannelMembership(r.channelSubscriptions, channel, c, ch, d);
        if d != c || ch != channel {
          assert Subscribed(t, d, Some(ch)) == Subscribed(r, d, Some(ch));
          assert HasChannel(t, d, ch) == HasChannel(r, d, ch);
        }
      }
    }
  }

  // ---------------------------------------------------------------------------
  // disconnect
  // ---------------------------------------------------------------------------

  /** `disconnect(c)` leaves no trace of `c` except its past outbox; subscriber sets that empty stay. */
  lemma DisconnectEffects(r: Registry, c: int)
    ensures var t := WithoutConnection(r, c);
      && c !in t.handlers
      && (forall ch :: !Subscribed(t, c, Some(ch)))
      && UserOf(t, c).None?
      && c !in t.clientSubscriptions && c !in t.subscriptionToChannel
      && t.channelSubscriptions.Keys == r.channelSubscriptions.Keys
      && (forall d, ch :: d != c ==> Subscribed(t, d, Some(ch)) == Subscribed(r, d, Some(ch)))
      && (forall d :: d != c ==> UserOf(t, d) == UserOf(r, d))
      && t.userCredentials == r.userCredentials
  {
  }

  lemma DisconnectKeepsValid(r: Registry, c: int)
    requires Valid(r)
    ensures Valid(WithoutConnection(r, c))
  {
    var t := WithoutConnection(r, c);
    forall d, ch | HasChannel(t, d, ch)
      ensures HasId(t, d, t.clientSubscriptions[d][ch]) && t.subscriptionToChannel[d][t.clientSubscriptions[d][ch]] == ch
    {
      assert HasChannel(r, d, ch);
    }
    forall d, i | HasId(t, d, i)
      ensures HasChannel(t, d, t.subscriptionToChannel[d][i]) && t.clientSubscriptions[d][t.subscriptionToChannel[d][i]] == i
    {
      assert HasId(r, d, i);
    }
    forall d, ch ensures Subscribed(t, d, Some(ch)) <==> HasChannel(t, d, ch) {
      if d != c {
        assert Subscribed(t, d, Some(ch)) == Subscribed(r, d, Some(ch));
      }
    }
  }

  // ---------------------------------------------------------------------------
  // Users, message ids, delivery
  // ---------------------------------------------------------------------------

  /**
   * A known login is checked against its password and nothing changes; an
   * unknown one is registered with the given password and accepted.
   * Credentials are never dropped.
   */
  lemma CheckOrRegisterEffects(r: Registry, login: string, passcode: string)
    ensures var (t, ok) := CheckOrRegister(r, login, passcode);
      && (login in r.userCredentials ==> t == r && (ok <==> r.userCredentials[login] == passcode))
      && (login !in r.userCredentials ==> ok && t.userCredentials == r.userCredentials[login := passcode])
      && r.userCredentials.Keys <= t.userCredentials.Keys
      && login in t.userCredentials
      && t.(userCredentials := r.userCredentials) == r
  {
  }

  /** After registration, the same login and password are accepted again. */
  lemma RegisteredLoginAccepted(r: Registry, login: string, passcode: string)
    requires CheckOrRegister(r, login, passcode).1
    ensures CheckOrRegister(CheckOrRegister(r, login, passcode).0, login, passcode) == (CheckOrRegister(r, login, passcode).0, true)
  {
  }

  /** `n` calls of `getMesageID` in a row. */
  function DrawMessageIds(r: Registry, n: nat): (Registry, seq<int>)
  {
    if n == 0 then (r, [])
    else
      var (r1, ids) := DrawMessageIds(r, n - 1);
      var (r2, id) := DrawMessageId(r1);
      (r2, ids + [id])
  }

  /** Message ids are the successive values above the counter: 0, 1, 2, ... from a new registry. */
  lemma {:induction false} MessageIdsConsecutive(r: Registry, n: nat)
    ensures var (t, ids) := DrawMessageIds(r, n);
      && |ids| == n
      && (forall i :: 0 <= i < n ==> ids[i] == r.messageIdGenerator + 1 + i)
      && t == r.(messageIdGenerator := r.messageIdGenerator + n)
  {
    if n > 0 {
      MessageIdsConsecutive(r, n - 1);
    }
  }

  lemma MessageIdsFromZero(n: nat)
    ensures |DrawMessageIds(Empty, n).1| == n
    ensures forall i :: 0 <= i < n ==> DrawMessageIds(Empty, n).1[i] == i
  {
    MessageIdsConsecutive(Empty, n);
  }

  /** `send(c, msg)` succeeds exactly for a connection with a handler, and appends only to its outbox. */
  lemma DeliverEffects(r: Registry, c: int, msg: string)
    ensures var (t, ok) := Deliver(r, c, msg);
      && (ok <==> c in r.handlers)
      && Delivered(t, c) == (if ok then Delivered(r, c) + [msg] else Delivered(r, c))
      && (forall d :: d != c ==> Delivered(t, d) == Delivered(r, d))
      && t.(outbox := r.outbox) == r
  {
  }

  /** `send(channel, msg, notYou)` hands `msg` once to each other subscriber with a handler, and to no one else. */
  lemma DeliverToChannelEffects(r: Registry, channel: string, msg: string, notYou: int)
    ensures var t := DeliverToChannel(r, channel, msg, notYou);
      && (forall d :: Delivered(t, d) ==
            if Subscribed(r, d, Some(channel)) && d != notYou && d in r.handlers then Delivered(r, d) + [msg]
            else Delivered(r, d))
      && t.(outbox := r.outbox) == r
  {
  }

  lemma DeliverAllStep(outbox: map<int, seq<string>>, targets: set<int>, c: int, msg: string)
    requires c !in targets
    ensures DeliverAll(outbox, targets + {c}, msg)
         == DeliverAll(outbox, targets, msg)[c := Inbox(DeliverAll(outbox, targets, msg), c) + [msg]]
  {
  }

  // ---------------------------------------------------------------------------
  // The registry object
  // ---------------------------------------------------------------------------

  class ConnectionsImpl {
    var handlers: set<int>
    var channelSubscriptions: map<string, set<int>>
    var clientSubscriptions: map<int, map<string, string>>
    var subscriptionToChannel: map<int, map<string, string>>
    var connectionToUser: map<int, string>
    var userCredentials: map<string, string>
    var messageIdGenerator: int
    var outbox: map<int, seq<string>>

    function Model(): Registry
      reads this
    {
      Registry(handlers, channelSubscriptions, clientSubscriptions, subscriptionToChannel,
               connectionToUser, userCredentials, messageIdGenerator, outbox)
    }

    constructor()
      ensures Model() == Empty
    {
      handlers := {};
      channelSubscriptions := map[];
      clientSubscriptions := map[];
      subscriptionToChannel := map[];
      connectionToUser := map[];
      userCredentials := map[];
      messageIdGenerator := -1;
      outbox := map[];
    }

    method Send(c: int, msg: string) returns (sent: bool)
      modifies this
      ensures (Model(), sent) == Deliver(old(Model()), c, msg)
    {
      if c in handlers {
        outbox := outbox[c := Inbox(outbox, c) + [msg]];
        return true;
      }
      return false;
    }

    /** `send(channel, msg, notYou)`: walks the subscriber set in whatever order it yields. */
    method SendToChannel(channel: string, msg: string, notYou: int)
      modifies this
      ensures Model() == DeliverToChannel(old(Model()), channel, msg, notYou)
    {
      if channel !in channelSubscriptions {
        return;
      }
      var subscribers := channelSubscriptions[channel];
      var remaining := subscribers;
      ghost var done: set<int> := {};
      while remaining != {}
        invariant remaining <= subscribers && done == subscribers - remaining
        invariant Model().(outbox := old(outbox)) == old(Model())
        invariant outbox == DeliverAll(old(outbox), (done - {notYou}) * handlers, msg)
        decreases remaining
      {
        assert (forall d :: d !in remaining) ==> remaining == {};
        var c :| c in remaining;
        if c != notYou {
          if c in handlers {
            DeliverAllStep(old(outbox), (done - {notYou}) * handlers, c, msg);
            assert ((done + {c}) - {notYou}) * handlers == (done - {notYou}) * handlers + {c};
          } else {
            assert ((done + {c}) - {notYou}) * handlers == (done - {notYou}) * handlers;
          }
          var _ := Send(c, msg);
        } else {
          assert ((done + {c}) - {notYou}) * handlers == (done - {notYou}) * handlers;
        }
        remaining := remaining - {c};
        done := done + {c};
      }
      assert done == subscribers;
    }

    method Disconnect(c: int)
      modifies this
      ensures Model() == WithoutConnection(old(Model()), c)
    {
      handlers := handlers - {c};
      var remaining := channelSubscriptions.Keys;
      while remaining != {}
        invariant remaining <= channelSubscriptions.Keys == old(channelSubscriptions).Keys
        invariant forall ch :: ch in channelSubscriptions ==>
          channelSubscriptions[ch] == if ch in remaining then old(channelSubscriptions)[ch] else old(channelSubscriptions)[ch] - {c}
        invariant Model().(channelSubscriptions := old(channelSubscriptions)) == old(Model()).(handlers := old(handlers) - {c})
        decreases remaining
      {
        var ch :| ch in remaining;
        channelSubscriptions := channelSubscriptions[ch := channelSubscriptions[ch] - {c}];
        remaining := remaining - {ch};
      }
      connectionToUser := connectionToUser - {c};
      clientSubscriptions := clientSubscriptions - {c};
      subscriptionToChannel := subscriptionToChannel - {c};
    }

    method AddConnection(c: int)
      modifies this
      ensures Model() == WithConnection(old(Model()), c)
    {
      handlers := handlers + {c};
    }

    method IsSubscribed(c: int, channel: Option<string>) returns (subscribed: bool)
      ensures subscribed == Subscribed(Model(), c, channel)
    {
      if channel.None? {
        return false;
      }
      subscribed := channel.value in channelSubscriptions && c in channelSubscriptions[channel.value];
    }

    method Subscribe(c: int, channel: string, subscriptionId: string)
      modifies this
      ensures Model() == WithSubscription(old(Model()), c, channel, subscriptionId)
    {
      var subscribers := if channel in channelSubscriptions then channelSubscriptions[channel] else {};
      channelSubscriptions := channelSubscriptions[channel := subscribers + {c}];
      var byChannel := if c in clientSubscriptions then clientSubscriptions[c] else map[];
      clientSubscriptions := clientSubscriptions[c := byChannel[channel := subscriptionId]];
      var byId := if c in subscriptionToChannel then subscriptionToChannel[c] else map[];
      subscriptionToChannel := subscriptionToChannel[c := byId[subscriptionId := channel]];
    }

    method FindDestination(c: int, subscriptionId: string) returns (channel: Option<string>)
      ensures channel == DestinationOf(Model(), c, subscriptionId)
    {
      if c !in subscriptionToChannel || subscriptionToChannel[c] == map[] {
        return None;
      }
      if subscriptionId in subscriptionToChannel[c] {
        return Some(subscriptionToChannel[c][subscriptionId]);
      }
      return None;
    }

    method Unsubscribe(c: int, subscriptionId: string)
      modifies this
      ensures Model() == WithoutSubscription(old(Model()), c, subscriptionId)
    {
      if c in subscriptionToChannel && subscriptionId in subscriptionToChannel[c] {
        var channel := subscriptionToChannel[c][subscriptionId];
        subscriptionToChannel := subscriptionToChannel[c := subscriptionToChannel[c] - {subscriptionId}];
        if channel in channelSubscriptions {
          var subscribers := channelSubscriptions[channel] - {c};
          channelSubscriptions := channelSubscriptions[channel := subscribers];
          if subscribers == {} {
            channelSubscriptions := channelSubscriptions - {channel};
          }
        }
        if c in clientSubscriptions {
          clientSubscriptions := clientSubscriptions[c := clientSubscriptions[c] - {channel}];
        }
      }
    }

    method GetSubscriptionId(c: int, channel: string) returns (id: Option<string>)
      ensures id == SubscriptionIdOf(Model(), c, channel)
    {
      if c in clientSubscriptions && channel in clientSubscriptions[c] {
        return Some(clientSubscriptions[c][channel]);
      }
      return None;
    }

    method ValidateOrRegisterUser(login: string, passcode: string) returns (ok: bool)
      modifies this
      ensures (Model(), ok) == CheckOrRegister(old(Model()), login, passcode)
    {
      if login in userCredentials {
        return userCredentials[login] == passcode;
      }
      userCredentials := userCredentials[login := passcode];
      return true;
    }

    method IsUserLoggedIn(login: string) returns (loggedIn: bool)
      ensures loggedIn == LoggedIn(Model(), login)
    {
      loggedIn := login in connectionToUser.Values;
    }

    method AssociateUserWithConnection(c: int, login: string)
      modifies this
      ensures Model() == WithUser(old(Model()), c, login)
    {
      connectionToUser := connectionToUser[c := login];
    }

    method GetUserByConnectionId(c: int) returns (login: Option<string>)
      ensures login == UserOf(Model(), c)
    {
      if c in connectionToUser {
        return Some(connectionToUser[c]);
      }
      return None;
    }

    /** `getMesageID`. */
    method GetMessageId() returns (id: int)
      modifies this
      ensures (Model(), id) == DrawMessageId(old(Model()))
    {
      messageIdGenerator := messageIdGenerator + 1;
      id := messageIdGenerator;
    }
  }
}
