/**
 * The client's summary engine: the per-channel, per-user log of event reports
 * (`SummaryManager::channelData`) and the summary file rendered from it.
 *
 * The file is modelled as its sequence of lines; the file's text is each line
 * followed by "\n".  Whether the file can be opened, and the local-time
 * rendering of an epoch (`epochToDate`), are parameters.
 */
module Summary {
  import opened Wrappers
  import opened Strings
  import opened Sorting
  import opened Events

  /** channel -> user -> reports in arrival order. */
  type ChannelData = map<string, map<string, seq<Event>>>

  /** The reports stored under (channel, user); none when either key is absent. */
  function EventsOf(data: ChannelData, channel: string, user: string): seq<Event>
  {
    if channel in data && user in data[channel] then data[channel][user] else []
  }

  /** `channelData[channel][user].push_back(event)`, creating missing entries. */
  function WithEvent(data: ChannelData, channel: string, user: string, event: Event): (r: ChannelData)
    ensures EventsOf(r, channel, user) == EventsOf(data, channel, user) + [event]
    ensures forall c, u :: (c != channel || u != user) ==> EventsOf(r, c, u) == EventsOf(data, c, u)
    ensures r.Keys == data.Keys + {channel}
    ensures channel in r && user in r[channel]
  {
    var users := if channel in data then data[channel] else map[];
    var log := if user in users then users[user] else [];
    data[channel := users[user := log + [event]]]
  }

  /** Erases `user` under every channel, keeping the channels themselves. */
  function WithoutClient(data: ChannelData, user: string): (r: ChannelData)
    ensures r.Keys == data.Keys
    ensures forall c :: c in r ==> user !in r[c]
    ensures forall c, u :: u != user ==> EventsOf(r, c, u) == EventsOf(data, c, u)
  {
    map c | c in data :: data[c] - {user}
  }

  /** A run of `addEvent(channel, user, event)` calls, applied in order. */
  function AddAll(data: ChannelData, adds: seq<(string, string, Event)>): ChannelData
  {
    if adds == [] then data
    else
      var last := adds[|adds| - 1];
      WithEvent(AddAll(data, adds[..|adds| - 1]), last.0, last.1, last.2)
  }

  /** The events of `adds` addressed to (channel, user), in call order. */
  function Matching(adds: seq<(string, string, Event)>, channel: string, user: string): seq<Event>
  {
    if adds == [] then []
    else
      var last := adds[|adds| - 1];
      Matching(adds[..|adds| - 1], channel, user) + (if last.0 == channel && last.1 == user then [last.2] else [])
  }

  /** No report is ever lost: each log ends with exactly the reports added to it, in call order. */
  lemma {:induction false} AddAllKeepsEveryEvent(data: ChannelData, adds: seq<(string, string, Event)>, channel: string, user: string)
    ensures EventsOf(AddAll(data, adds), channel, user) == EventsOf(data, channel, user) + Matching(adds, channel, user)
  {
    if adds != [] {
      AddAllKeepsEveryEvent(data, adds[..|adds| - 1], channel, user);
    }
  }

  // ---------------------------------------------------------------------------
  // The summary file
  // ---------------------------------------------------------------------------

  datatype SummaryOutcome =
    | NoData            // no entry for the channel or for the user
    | NoEvents          // the user's list is empty
    | CannotOpen        // the output file could not be opened
    | MissingAttribute  // a report lacks `active` or `forces_arrival_at_scene`: `at` throws
    | Written(lines: seq<string>)

  function Lookup(data: ChannelData, channel: string, user: string): Option<seq<Event>>
  {
    if channel in data && user in data[channel] then Some(data[channel][user]) else None
  }

  const ActiveKey := "active"
  const ForcesKey := "forces_arrival_at_scene"

  predicate IsTrue(e: Event, key: string)
  {
    At(e.generalInformation, key) == Some("true")
  }

  /** Both statistics attributes are present. */
  predicate HasStats(e: Event)
  {
    At(e.generalInformation, ActiveKey).Some? && At(e.generalInformation, ForcesKey).Some?
  }

  /** The number of reports whose attribute `key` is exactly "true". */
  function CountTrue(events: seq<Event>, key: string): (n: nat)
    ensures n <= |events|
  {
    if events == [] then 0
    else CountTrue(events[..|events| - 1], key) + (if IsTrue(events[|events| - 1], key) then 1 else 0)
  }

  /** The count is zero when no report says "true" and the total when all do. */
  lemma {:induction false} CountTrueExtremes(events: seq<Event>, key: string)
    ensures (forall i :: 0 <= i < |events| ==> !IsTrue(events[i], key)) ==> CountTrue(events, key) == 0
    ensures (forall i :: 0 <= i < |events| ==> IsTrue(events[i], key)) ==> CountTrue(events, key) == |events|
  {
    if events != [] {
      CountTrueExtremes(events[..|events| - 1], key);
    }
  }

  /** The summary line of a description: at most 27 characters, with "..." when cut. */
  function Truncate(description: string): (r: string)
    ensures |description| <= 27 ==> r == description
    ensures |description| > 27 ==> |r| == 30 && r[..27] == description[..27] && r[27..] == "..."
  {
    if |description| > 27 then description[..27] + "..." else description
  }

  function HeaderLines(channel: string, total: int, active: int, forces: int): (r: seq<string>)
    ensures |r| == 8
  {
    ["Channel " + channel,
     "Stats:",
     "Total: " + IntToString(total),
     "active: " + IntToString(active),
     "forces arrival at scene: " + IntToString(forces),
     "",
     "Event Reports:",
     ""]
  }

  /** The six lines of the report at position `i` (numbered from 1 in the file). */
  function ReportBlock(i: nat, e: Event, epochToDate: int -> string): seq<string>
  {
    ["Report_" + IntToString(i + 1) + ":",
     "city: " + e.city,
     "date time: " + epochToDate(e.dateTime),
     "event name: " + e.name,
     "summary: " + Truncate(e.description),
     ""]
  }

  function ReportBlocks(events: seq<Event>, epochToDate: int -> string): seq<string>
  {
    if events == [] then []
    else ReportBlocks(events[..|events| - 1], epochToDate) + ReportBlock(|events| - 1, events[|events| - 1], epochToDate)
  }

  /** The file rendered from the already sorted reports, or the failure of a missing attribute. */
  function Render(channel: string, events: seq<Event>, epochToDate: int -> string): SummaryOutcome
  {
    if forall i :: 0 <= i < |events| ==> HasStats(events[i]) then
      Written(HeaderLines(channel, |events|, CountTrue(events, ActiveKey), CountTrue(events, ForcesKey))
              + ReportBlocks(events, epochToDate))
    else MissingAttribute
  }

  lemma {:induction false} ReportBlocksLength(events: seq<Event>, epochToDate: int -> string)
    ensures |ReportBlocks(events, epochToDate)| == 6 * |events|
  {
    if events != [] {
      ReportBlocksLength(events[..|events| - 1], epochToDate);
    }
  }

  lemma SliceOfLeft<T>(a: seq<T>, b: seq<T>, lo: nat, hi: nat)
    requires lo <= hi <= |a|
    ensures (a + b)[lo..hi] == a[lo..hi]
  {
  }

  lemma SliceOfRight<T>(a: seq<T>, b: seq<T>, lo: nat, hi: nat)
    requires |a| <= lo <= hi <= |a| + |b|
    ensures (a + b)[lo..hi] == b[lo - |a|..hi - |a|]
  {
  }

  /** The blocks of the first `i + 1` reports: those of the first `i`, then report `i`'s. */
  lemma BlocksStep(events: seq<Event>, epochToDate: int -> string, i: nat)
    requires i < |events|
    ensures ReportBlocks(events[..i + 1], epochToDate) == ReportBlocks(events[..i], epochToDate) + ReportBlock(i, events[i], epochToDate)
  {
    var prefix := events[..i + 1];
    assert prefix[..|prefix| - 1] == events[..i];
    assert prefix[|prefix| - 1] == events[i];
  }

  /** The block of report `i` sits at lines 6 i to 6 i + 5 of the report section. */
  /** Six-line chunk `i` of `blocks + last`, where `blocks` holds `n` chunks and `last` is one more. */
  lemma ChunkOfSnoc<T>(blocks: seq<T>, last: seq<T>, n: nat, i: nat)
    requires |blocks| == 6 * n && |last| == 6 && i <= n
    ensures i < n ==> (blocks + last)[6 * i .. 6 * i + 6] == blocks[6 * i .. 6 * i + 6]
    ensures i == n ==> (blocks + last)[6 * i .. 6 * i + 6] == last
  {
    if i < n {
      SliceOfLeft(blocks, last, 6 * i, 6 * i + 6);
    } else {
      SliceOfRight(blocks, last, 6 * i, 6 * i + 6);
      assert last[0..6] == last;
    }
  }

  lemma {:induction false} ReportBlockAt(events: seq<Event>, epochToDate: int -> string, i: nat)
    requires i < |events|
    ensures |ReportBlocks(events, epochToDate)| == 6 * |events|
    ensures ReportBlocks(events, epochToDate)[6 * i .. 6 * i + 6] == ReportBlock(i, events[i], epochToDate)
  {
    ReportBlocksLength(events, epochToDate);
    var n := |events| - 1;
    var init := events[..n];
    ReportBlocksLength(init, epochToDate);
    ChunkOfSnoc(ReportBlocks(init, epochToDate), ReportBlock(n, events[n], epochToDate), n, i);
    if i < n {
      ReportBlockAt(init, epochToDate, i);
      assert events[i] == init[i];
    }
  }

  /** A summary is written exactly when every report carries both statistics attributes. */
  lemma RenderFailsOnlyOnMissingAttribute(channel: string, events: seq<Event>, epochToDate: int -> string)
    ensures Render(channel, events, epochToDate).Written? <==> forall i :: 0 <= i < |events| ==> HasStats(events[i])
    ensures !Render(channel, events, epochToDate).Written? ==> Render(channel, events, epochToDate) == MissingAttribute
  {
  }

  /** A written summary opens with the channel and its statistics. */
  lemma SummaryHeader(channel: string, events: seq<Event>, epochToDate: int -> string, lines: seq<string>)
    requires Render(channel, events, epochToDate) == Written(lines)
    ensures |lines| == 8 + 6 * |events|
    ensures lines[0] == "Channel " + channel
    ensures lines[2] == "Total: " + IntToString(|events|)
    ensures lines[3] == "active: " + IntToString(CountTrue(events, ActiveKey))
    ensures lines[4] == "forces arrival at scene: " + IntToString(CountTrue(events, ForcesKey))
  {
    ReportBlocksLength(events, epochToDate);
    HeaderFirst(channel, |events|, CountTrue(events, ActiveKey), CountTrue(events, ForcesKey), ReportBlocks(events, epochToDate));
  }

  lemma HeaderFirst(channel: string, total: int, active: int, forces: int, rest: seq<string>)
    ensures var lines := HeaderLines(channel, total, active, forces) + rest;
      && lines[0] == "Channel " + channel
      && lines[2] == "Total: " + IntToString(total)
      && lines[3] == "active: " + IntToString(active)
      && lines[4] == "forces arrival at scene: " + IntToString(forces)
  {
  }

  /** Then come the reports in the given order, numbered from 1, with truncated descriptions. */
  lemma SummaryReports(channel: string, events: seq<Event>, epochToDate: int -> string, lines: seq<string>)
    requires Render(channel, events, epochToDate) == Written(lines)
    ensures |lines| == 8 + 6 * |events|
    ensures forall i :: 0 <= i < |events| ==>
      && lines[8 + 6 * i] == "Report_" + IntToString(i + 1) + ":"
      && lines[8 + 6 * i + 1] == "city: " + events[i].city
      && lines[8 + 6 * i + 2] == "date time: " + epochToDate(events[i].dateTime)
      && lines[8 + 6 * i + 3] == "event name: " + events[i].name
      && lines[8 + 6 * i + 4] == "summary: " + Truncate(events[i].description)
  {
    var header := HeaderLines(channel, |events|, CountTrue(events, ActiveKey), CountTrue(events, ForcesKey));
    assert lines == header + ReportBlocks(events, epochToDate);
    ReportsAfterHeader(header, events, epochToDate);
    forall i | 0 <= i < |events|
      ensures lines[8 + 6 * i] == "Report_" + IntToString(i + 1) + ":"
      ensures lines[8 + 6 * i + 1] == "city: " + events[i].city
      ensures lines[8 + 6 * i + 2] == "date time: " + epochToDate(events[i].dateTime)
      ensures lines[8 + 6 * i + 3] == "event name: " + events[i].name
      ensures lines[8 + 6 * i + 4] == "summary: " + Truncate(events[i].description)
    {
      var block := lines[8 + 6 * i .. 8 + 6 * i + 6];
      assert block == ReportBlock(i, events[i], epochToDate);
      assert block[0] == lines[8 + 6 * i] && block[1] == lines[8 + 6 * i + 1] && block[2] == lines[8 + 6 * i + 2];
      assert block[3] == lines[8 + 6 * i + 3] && block[4] == lines[8 + 6 * i + 4];
    }
  }

  /** Whatever eight header lines precede them, report `i` occupies lines 8 + 6 i onwards. */
  lemma ReportsAfterHeader(header: seq<string>, events: seq<Event>, epochToDate: int -> string)
    requires |header| == 8
    ensures |header + ReportBlocks(events, epochToDate)| == 8 + 6 * |events|
    ensures forall i :: 0 <= i < |events| ==>
      (header + ReportBlocks(events, epochToDate))[8 + 6 * i .. 8 + 6 * i + 6] == ReportBlock(i, events[i], epochToDate)
  {
    var blocks := ReportBlocks(events, epochToDate);
    ReportBlocksLength(events, epochToDate);
    forall i | 0 <= i < |events|
      ensures (header + blocks)[8 + 6 * i .. 8 + 6 * i + 6] == ReportBlock(i, events[i], epochToDate)
    {
      ReportBlockAt(events, epochToDate, i);
      SliceOfRight(header, blocks, 8 + 6 * i, 8 + 6 * i + 6);
    }
  }

  /** Reports are never double counted: both statistics are at most the total. */
  lemma StatsWithinTotal(channel: string, events: seq<Event>, epochToDate: int -> string)
    ensures CountTrue(events, ActiveKey) <= |events| && CountTrue(events, ForcesKey) <= |events|
  {
  }

  class SummaryManager {
    var channelData: ChannelData

    constructor()
      ensures channelData == map[]
    {
      channelData := map[];
    }

    method AddEvent(channel: string, user: string, event: Event)
      modifies this
      ensures channelData == WithEvent(old(channelData), channel, user, event)
    {
      var users := if channel in channelData then channelData[channel] else map[];
      var log := if user in users then users[user] else [];
      channelData := channelData[channel := users[user := log + [event]]];
    }

    /**
     * `generateSummary`: copies the user's reports, sorts them by time then name,
     * counts the statistics and renders the file.  `std::sort` is not stable, so
     * the order is returned as the ghost `sorted`, of which only what every
     * result of the sort shares is promised.
     */
    method GenerateSummary(channel: string, user: string, fileOpens: bool, epochToDate: int -> string)
      returns (outcome: SummaryOutcome, ghost sorted: seq<Event>)
      ensures Lookup(channelData, channel, user).None? ==> outcome == NoData
      ensures Lookup(channelData, channel, user) == Some([]) ==> outcome == NoEvents
      ensures Lookup(channelData, channel, user).Some? && Lookup(channelData, channel, user).value != [] ==>
        && multiset(sorted) == multiset(Lookup(channelData, channel, user).value)
        && SortedBy(sorted, SummaryLe)
        && outcome == (if fileOpens then Render(channel, sorted, epochToDate) else CannotOpen)
    {
      if channel !in channelData || user !in channelData[channel] {
        return NoData, [];
      }
      var events := channelData[channel][user];
      if |events| == 0 {
        return NoEvents, [];
      }
      events := InsertionSort(events, SummaryLe);
      SummaryLeTotalPreorder();
      InsertionSortSorted(channelData[channel][user], SummaryLe);
      sorted := events;
      if !fileOpens {
        return CannotOpen, sorted;
      }

      var complete, activeCount, forcesArrivalCount := CountStatistics(events);
      if !complete {
        return MissingAttribute, sorted;
      }
      var lines := WriteReport(channel, events, activeCount, forcesArrivalCount, epochToDate);
      return Written(lines), sorted;
    }

    /**
     * The statistics loop of `generateSummary`: counts the reports whose `active`
     * and `forces_arrival_at_scene` attributes are "true"; `complete` is false when
     * `at` would throw on a missing attribute.
     */
    static method CountStatistics(events: seq<Event>) returns (complete: bool, activeCount: nat, forcesArrivalCount: nat)
      ensures complete <==> forall i :: 0 <= i < |events| ==> HasStats(events[i])
      ensures complete ==> activeCount == CountTrue(events, ActiveKey) && forcesArrivalCount == CountTrue(events, ForcesKey)
    {
      activeCount, forcesArrivalCount := 0, 0;
      for i := 0 to |events|
        invariant activeCount == CountTrue(events[..i], ActiveKey)
        invariant forcesArrivalCount == CountTrue(events[..i], ForcesKey)
        invariant forall j :: 0 <= j < i ==> HasStats(events[j])
      {
        assert events[..i + 1][..i] == events[..i];
        var active := At(events[i].generalInformation, ActiveKey);
        if active.None? {
          return false, activeCount, forcesArrivalCount;
        }
        if active.value == "true" {
          activeCount := activeCount + 1;
        }
        var forces := At(events[i].generalInformation, ForcesKey);
        if forces.None? {
          return false, activeCount, forcesArrivalCount;
        }
        if forces.value == "true" {
          forcesArrivalCount := forcesArrivalCount + 1;
        }
      }
      assert events[..|events|] == events;
      return true, activeCount, forcesArrivalCount;
    }

    /** The writing part of `generateSummary`: the header, then one block per report. */
    static method WriteReport(channel: string, events: seq<Event>, activeCount: nat, forcesArrivalCount: nat, epochToDate: int -> string)
      returns (lines: seq<string>)
      ensures lines == HeaderLines(channel, |events|, activeCount, forcesArrivalCount) + ReportBlocks(events, epochToDate)
    {
      lines := HeaderLines(channel, |events|, activeCount, forcesArrivalCount);
      for i := 0 to |events|
        invariant lines == HeaderLines(channel, |events|, activeCount, forcesArrivalCount) + ReportBlocks(events[..i], epochToDate)
      {
        BlocksStep(events, epochToDate, i);
        var block := FormatReport(i, events[i], epochToDate);
        lines := lines + block;
      }
      assert events[..|events|] == events;
    }

    /** The six lines of report `i`, the description cut to 27 characters and `...`. */
    static method FormatReport(i: nat, event: Event, epochToDate: int -> string) returns (block: seq<string>)
      ensures block == ReportBlock(i, event, epochToDate)
      ensures |block| == 6 && block[4] == "summary: " + Truncate(event.description)
    {
      var description := event.description;
      if |description| > 27 {
        description := description[..27] + "...";
      }
      block := ["Report_" + IntToString(i + 1) + ":",
                "city: " + event.city,
                "date time: " + epochToDate(event.dateTime),
                "event name: " + event.name,
                "summary: " + description,
                ""];
    }

    method Clear()
      modifies this
      ensures channelData == map[]
    {
      channelData := map[];
    }

    /** Erases `clientName`'s list under every channel, one channel at a time. */
    method ClearClientData(clientName: string)
      modifies this
      ensures channelData == WithoutClient(old(channelData), clientName)
    {
      ghost var original := channelData;
      var remaining := channelData.Keys;
      while remaining != {}
        invariant remaining <= original.Keys
        invariant channelData.Keys == original.Keys
        invariant forall c :: c in original ==>
          channelData[c] == if c in remaining then original[c] else original[c] - {clientName}
        decreases remaining
      {
        var c :| c in remaining;
        channelData := channelData[c := channelData[c] - {clientName}];
        remaining := remaining - {c};
      }
    }
  }
}
