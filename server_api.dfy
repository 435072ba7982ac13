/** The HTTP/WebSocket API server of the retranslator (server/api.go): how stored raw
    Contact ID frames are projected into display records, how the device list is
    projected, and how the set of WebSocket subscribers is pruned on a broadcast.
    Routing, CORS, JSON encoding, the stats and config handlers are not modelled. */
module ServerApi {
  import opened Wrappers
  import opened GoStrconv
  import opened CoreTypes

  /** Frames shorter than this are skipped before any field is sliced. */
  const MinFrameLength := 20
  /** `handleGetEvents` keeps at most this many of the most recent entries. */
  const RecentLimit := 500

  const ZonePrefix := "Зона "
  const GroupPrefix := "|Група "
  /** The status every device in the list is reported with. */
  const ActiveStatus := "Активний"

  const StatusBadRequest := 400
  const InvalidDeviceId := "Invalid device ID"

  /** The message kinds of the three broadcast wrappers. */
  const PpkUpdateKind := "ppk_update"
  const EventUpdateKind := "event_update"
  const StatsUpdateKind := "stats_update"

  // ---------------------------------------------------------------------------
  // Priority classification

  /** The prefixes with a rank of their own; every other two-character prefix ranks 5. */
  const PrefixRank: map<string, int> := map["E4" := 1, "E3" := 2, "E1" := 3, "R1" := 3, "E6" := 4]

  /** `determineEventPriority`: a display rank from the first two characters of the code,
      0 when the code is too short to have a prefix. */
  function DeterminePriority(code: string): (p: int)
    ensures 0 <= p <= 5
    ensures p == 0 <==> |code| < 2
  {
    if |code| < 2 then 0
    else
      match code[..2]
      case "E4" => 1
      case "E3" => 2
      case "E1" => 3
      case "R1" => 3
      case "E6" => 4
      case _ => 5
  }

  /** The switch agrees with the prefix table. */
  lemma PriorityByPrefixTable(code: string)
    ensures DeterminePriority(code) ==
      if |code| < 2 then 0
      else if code[..2] in PrefixRank then PrefixRank[code[..2]]
      else 5
  {
  }

  /** Only the first two characters matter. */
  lemma PriorityDependsOnPrefixOnly(a: string, b: string)
    requires |a| >= 2 && |b| >= 2 && a[..2] == b[..2]
    ensures DeterminePriority(a) == DeterminePriority(b)
  {
  }

  // ---------------------------------------------------------------------------
  // Projection of one stored frame

  /** `fmt.Sprintf("Зона %s|Група %s", zone, group)`. */
  function ZoneLabel(zone: string, group: string): string {
    ZonePrefix + zone + GroupPrefix + group
  }

  /** With the three-character zone of a frame, the label gives both fields back. */
  lemma ZoneLabelRecovers(zone: string, group: string)
    requires |zone| == 3
    ensures ZoneLabel(zone, group)[|ZonePrefix|..|ZonePrefix| + 3] == zone
    ensures ZoneLabel(zone, group)[|ZonePrefix| + 3 + |GroupPrefix|..] == group
  {
    var l := ZoneLabel(zone, group);
    assert l == ZonePrefix + zone + GroupPrefix + group;
    assert l[|ZonePrefix|..|ZonePrefix| + 3] == zone;
  }

  /** One element of the event responses (without the id of `handleGetEvents`). */
  datatype EventEntry = EventEntry(
    time: Time, device: string, code: string, eventType: string, desc: string,
    zone: string, priority: int)

  /** The body of both event loops for one stored event: nothing for a frame shorter than
      20 characters or a code missing from the dictionary, otherwise the enriched entry
      with device `Data[7:11]`, code `Data[11:15]`, group `Data[15:17]`, zone `Data[17:20]`. */
  function Project(m: EventMap, ev: Event): (r: Option<EventEntry>)
    ensures r.Some? <==> |ev.data| >= MinFrameLength && ev.data[11..15] in m
    ensures r.Some? ==>
      && r.value.time == ev.time
      && r.value.device == ev.data[7..11]
      && r.value.code == ev.data[11..15]
      && (r.value.eventType, r.value.desc) == m[ev.data[11..15]]
      && r.value.zone == ZoneLabel(ev.data[17..20], ev.data[15..17])
      && r.value.priority == DeterminePriority(ev.data[11..15])
      && 1 <= r.value.priority <= 5
  {
    if |ev.data| < MinFrameLength then None
    else
      var devId := ev.data[7..11];
      var code := ev.data[11..15];
      var group := ev.data[15..17];
      var zone := ev.data[17..20];
      if code !in m then None
      else
        var (eventType, desc) := m[code];
        Some(EventEntry(ev.time, devId, code, eventType, desc, ZoneLabel(zone, group),
                        DeterminePriority(code)))
  }

  /** A frame assembled from a 7-character header, the four fixed-width fields and any
      trailer projects back to exactly those fields. */
  lemma ProjectComposedFrame(
    m: EventMap, t: Time, header: string, device: string, code: string, group: string,
    zone: string, trailer: string)
    requires |header| == 7 && |device| == 4 && |code| == 4 && |group| == 2 && |zone| == 3
    requires code in m
    ensures Project(m, Event(t, header + device + code + group + zone + trailer)) ==
      Some(EventEntry(t, device, code, m[code].0, m[code].1, ZoneLabel(zone, group),
                      DeterminePriority(code)))
  {
    var data := header + device + code + group + zone + trailer;
    assert data[7..11] == device;
    assert data[11..15] == code;
    assert data[15..17] == group;
    assert data[17..20] == zone;
  }

  /** A sample frame: account 1234, code E130 (new burglary), group 01, zone 002.
      The E1 prefix ranks 3. */
  lemma ExampleFrame(t: Time)
    ensures Project(map["E130" := ("Burglary", "Zone alarm")],
                    Event(t, "0000000" + "1234" + "E130" + "01" + "002")) ==
      Some(EventEntry(t, "1234", "E130", "Burglary", "Zone alarm", "Зона 002|Група 01", 3))
  {
    ProjectComposedFrame(map["E130" := ("Burglary", "Zone alarm")], t,
                         "0000000", "1234", "E130", "01", "002", "");
    assert "0000000" + "1234" + "E130" + "01" + "002" + "" == "0000000" + "1234" + "E130" + "01" + "002";
    assert "E130"[..2] == "E1";
    assert ZoneLabel("002", "01") == "Зона 002|Група 01";
  }

  // ---------------------------------------------------------------------------
  // handleGetPPKEvents: the filter-map over the device's events

  function Emitted<T>(o: Option<T>): seq<T> {
    if o.Some? then [o.value] else []
  }

  /** The response of `handleGetPPKEvents` for the given events, appended in order. */
  function Enriched(m: EventMap, events: seq<Event>): seq<EventEntry> {
    if events == [] then []
    else Enriched(m, events[..|events| - 1]) + Emitted(Project(m, events[|events| - 1]))
  }

  /** The filter-map distributes over concatenation. */
  lemma {:induction false} EnrichedAppend(m: EventMap, a: seq<Event>, b: seq<Event>)
    ensures Enriched(m, a + b) == Enriched(m, a) + Enriched(m, b)
  {
    if b == [] {
      assert a + b == a;
    } else {
      var b' := b[..|b| - 1];
      assert (a + b)[..|a + b| - 1] == a + b';
      assert (a + b)[|a + b| - 1] == b[|b| - 1];
      EnrichedAppend(m, a, b');
    }
  }

  lemma EnrichedSingle(m: EventMap, ev: Event)
    ensures Enriched(m, [ev]) == Emitted(Project(m, ev))
  {
    assert [ev][..0] == [];
  }

  /** A short frame or an unknown code leaves no trace: the response is the one for the
      list without that event. */
  lemma EnrichedDropsRejected(m: EventMap, pre: seq<Event>, ev: Event, post: seq<Event>)
    requires |ev.data| < MinFrameLength || ev.data[11..15] !in m
    ensures Enriched(m, pre + [ev] + post) == Enriched(m, pre + post)
  {
    EnrichedAppend(m, pre + [ev], post);
    EnrichedAppend(m, pre, [ev]);
    EnrichedSingle(m, ev);
    EnrichedAppend(m, pre, post);
  }

  /** An accepted event yields exactly one entry, between the entries of the events before
      it and those of the events after it. */
  lemma EnrichedKeepsAccepted(m: EventMap, pre: seq<Event>, ev: Event, post: seq<Event>)
    requires |ev.data| >= MinFrameLength && ev.data[11..15] in m
    ensures Enriched(m, pre + [ev] + post) ==
      Enriched(m, pre) + [Project(m, ev).value] + Enriched(m, post)
  {
    EnrichedAppend(m, pre + [ev], post);
    EnrichedAppend(m, pre, [ev]);
    EnrichedSingle(m, ev);
  }

  // ---------------------------------------------------------------------------
  // handleGetEvents: the same loop, numbering each entry by its source index

  /** One element of the `handleGetEvents` response: the entry and `ID = int64(i)`. */
  datatype NumberedEntry = NumberedEntry(id: int, entry: EventEntry)

  /** The response built from the first `n` events, before truncation. Every entry is
      the projection of the event its id points to, and ids strictly increase. */
  function NumberedPrefix(m: EventMap, events: seq<Event>, n: nat): (r: seq<NumberedEntry>)
    requires n <= |events|
    ensures |r| <= n
    ensures forall k :: 0 <= k < |r| ==>
      0 <= r[k].id < n && Project(m, events[r[k].id]) == Some(r[k].entry)
    ensures forall j, k :: 0 <= j < k < |r| ==> r[j].id < r[k].id
  {
    if n == 0 then []
    else
      NumberedPrefix(m, events, n - 1)
        + match Project(m, events[n - 1])
          case Some(e) => [NumberedEntry(n - 1, e)]
          case None => []
  }

  function Numbered(m: EventMap, events: seq<Event>): seq<NumberedEntry> {
    NumberedPrefix(m, events, |events|)
  }

  /** Every accepted event among the first `n` appears, under its own index. */
  lemma {:induction false} NumberedPrefixComplete(m: EventMap, events: seq<Event>, n: nat, i: nat)
    requires i < n <= |events|
    requires Project(m, events[i]).Some?
    ensures exists k :: 0 <= k < |NumberedPrefix(m, events, n)| && NumberedPrefix(m, events, n)[k].id == i
  {
    var r := NumberedPrefix(m, events, n);
    if i == n - 1 {
      assert r[|r| - 1].id == i;
    } else {
      NumberedPrefixComplete(m, events, n - 1, i);
      var k :| 0 <= k < |NumberedPrefix(m, events, n - 1)| && NumberedPrefix(m, events, n - 1)[k].id == i;
      assert r[k] == NumberedPrefix(m, events, n - 1)[k];
    }
  }

  /** The entries without their ids. */
  function Entries(s: seq<NumberedEntry>): (r: seq<EventEntry>)
    ensures |r| == |s| && forall k :: 0 <= k < |s| ==> r[k] == s[k].entry
  {
    seq(|s|, k requires 0 <= k < |s| => s[k].entry)
  }

  /** Dropping the ids gives the `handleGetPPKEvents` response: both handlers filter and
      enrich alike. */
  lemma {:induction false} NumberedPrefixIsEnriched(m: EventMap, events: seq<Event>, n: nat)
    requires n <= |events|
    ensures Entries(NumberedPrefix(m, events, n)) == Enriched(m, events[..n])
  {
    if n > 0 {
      NumberedPrefixIsEnriched(m, events, n - 1);
      assert events[..n][..n - 1] == events[..n - 1];
      assert events[..n][n - 1] == events[n - 1];
      var prev := NumberedPrefix(m, events, n - 1);
      var cur := NumberedPrefix(m, events, n);
      assert Entries(cur) == Entries(prev) + Emitted(Project(m, events[n - 1]));
    }
  }

  /** The id of a numbered entry never names an event that was rejected. */
  lemma NumberedOmitsRejected(m: EventMap, events: seq<Event>, i: nat)
    requires i < |events|
    requires |events[i].data| < MinFrameLength || events[i].data[11..15] !in m
    ensures forall k :: 0 <= k < |Numbered(m, events)| ==> Numbered(m, events)[k].id != i
  {
  }

  // ---------------------------------------------------------------------------
  // The "last 500" truncation

  ghost predicate IsSuffix<T>(r: seq<T>, s: seq<T>) {
    |r| <= |s| && s[|s| - |r|..] == r
  }

  /** `if len(s) > n { s = s[len(s)-n:] }`: the last min(n, |s|) elements. */
  function KeepLast<T>(s: seq<T>, n: nat): (r: seq<T>)
    ensures IsSuffix(r, s)
    ensures |r| == if |s| <= n then |s| else n
  {
    if |s| > n then s[|s| - n..] else s
  }

  /** The response of `handleGetEvents` before JSON encoding. */
  function RecentEvents(m: EventMap, events: seq<Event>): seq<NumberedEntry> {
    KeepLast(Numbered(m, events), RecentLimit)
  }

  /** Element `k` of the window is element `|s| - |window| + k` of the whole list. */
  lemma KeepLastAt<T>(s: seq<T>, n: nat, k: nat)
    requires k < |KeepLast(s, n)|
    ensures KeepLast(s, n)[k] == s[|s| - |KeepLast(s, n)| + k]
  {
  }

  /** `handleGetEvents` answers at most 500 entries, in arrival order, each the
      projection of the event whose index it carries. */
  lemma RecentEventsOrdered(m: EventMap, events: seq<Event>)
    ensures |RecentEvents(m, events)| <= RecentLimit
    ensures forall j, k :: 0 <= j < k < |RecentEvents(m, events)| ==>
      RecentEvents(m, events)[j].id < RecentEvents(m, events)[k].id
    ensures forall k :: 0 <= k < |RecentEvents(m, events)| ==>
      && 0 <= RecentEvents(m, events)[k].id < |events|
      && Project(m, events[RecentEvents(m, events)[k].id]) == Some(RecentEvents(m, events)[k].entry)
  {
    var all := Numbered(m, events);
    var r := RecentEvents(m, events);
    forall k | 0 <= k < |r|
      ensures r[k] == all[|all| - |r| + k]
    {
      KeepLastAt(all, RecentLimit, k);
    }
  }

  /** The window holds the newest accepted events: every accepted event at or after the
      first one shown is shown. */
  lemma RecentEventsComplete(m: EventMap, events: seq<Event>, i: nat)
    requires i < |events| && Project(m, events[i]).Some?
    requires |RecentEvents(m, events)| > 0 && RecentEvents(m, events)[0].id <= i
    ensures exists k :: 0 <= k < |RecentEvents(m, events)| && RecentEvents(m, events)[k].id == i
  {
    var all := Numbered(m, events);
    var r := RecentEvents(m, events);
    var off := |all| - |r|;
    NumberedPrefixComplete(m, events, |events|, i);
    var j :| 0 <= j < |all| && all[j].id == i;
    KeepLastAt(all, RecentLimit, 0);
    assert j >= off;
    KeepLastAt(all, RecentLimit, j - off);
    assert r[j - off].id == i;
  }

  // ---------------------------------------------------------------------------
  // handleGetPPKList: the device projection

  /** One element of the `handleGetPPKList` response. */
  datatype PpkEntry = PpkEntry(number: Int64, name: string, event: string, date: Time, status: string)

  /** A device as listed: number is its id, name the decimal form of the id. */
  function PpkEntryOf(d: Device): PpkEntry {
    PpkEntry(d.id, FormatInt(d.id), d.lastEvent, d.lastEventTime, ActiveStatus)
  }

  /** The listed name parses back to the listed number, so the name identifies the device. */
  lemma PpkNameParsesToNumber(d: Device)
    ensures PpkEntryOf(d).number == d.id
    ensures Atoi(PpkEntryOf(d).name) == Some(d.id)
  {
    AtoiFormatInt(d.id);
  }

  // ---------------------------------------------------------------------------
  // The server object

  /** A WebSocket connection, compared by identity like the `*websocket.Conn` keys. */
  type Conn(==)

  /** The envelope every broadcast sends: `{"type": kind, "data": data}`. */
  datatype WsMessage<D> = WsMessage(kind: string, data: D)

  datatype HttpError = HttpError(status: int, message: string)

  /** The clients of `clients` whose write succeeds. */
  function Surviving(clients: set<Conn>, writeOk: Conn -> bool): (r: set<Conn>)
    ensures r <= clients
    ensures forall c :: c in clients ==> (c in r <==> writeOk(c))
  {
    set c | c in clients && writeOk(c)
  }

  /** The clients of `clients` whose write fails. */
  function Failing(clients: set<Conn>, writeOk: Conn -> bool): (r: set<Conn>)
    ensures r <= clients
    ensures forall c :: c in clients ==> (c in r <==> !writeOk(c))
  {
    set c | c in clients && !writeOk(c)
  }

  /** Surviving and failing clients split the subscriber set. */
  lemma SurvivingFailingPartition(clients: set<Conn>, writeOk: Conn -> bool)
    ensures Surviving(clients, writeOk) + Failing(clients, writeOk) == clients
    ensures Surviving(clients, writeOk) !! Failing(clients, writeOk)
  {
  }

  /** The API server: the event dictionary it was built with and the connected WebSocket
      clients. The data provider is not stored: each handler receives what it would return. */
  class ApiServer {
    const eventMap: EventMap
    var wsClients: set<Conn>

    /** `NewAPIServer`: no client is connected yet. */
    constructor (eventMap: EventMap)
      ensures this.eventMap == eventMap && wsClients == {}
    {
      this.eventMap := eventMap;
      wsClients := {};
    }

    /** `handleGetPPKList` over the devices the provider returned: one entry per device,
        in order. */
    method HandleGetPpkList(devices: seq<Device>) returns (response: seq<PpkEntry>)
      ensures |response| == |devices|
      ensures forall k :: 0 <= k < |devices| ==> response[k] == PpkEntryOf(devices[k])
    {
      response := [];
      for i := 0 to |devices|
        invariant |response| == i
        invariant forall k :: 0 <= k < i ==> response[k] == PpkEntryOf(devices[k])
      {
        var dev := devices[i];
        response := response + [PpkEntry(dev.id, FormatInt(dev.id), dev.lastEvent,
                                         dev.lastEventTime, ActiveStatus)];
      }
    }

    /** `handleGetPPKEvents`: a path id that `strconv.Atoi` rejects is a 400; otherwise the
        filtered, enriched events of that device in their stored order. */
    method HandleGetPpkEvents(idStr: string, deviceEvents: Int64 -> seq<Event>)
      returns (r: Result<seq<EventEntry>, HttpError>)
      ensures Atoi(idStr).None? ==> r == Failure(HttpError(StatusBadRequest, InvalidDeviceId))
      ensures Atoi(idStr).Some? ==> r == Success(Enriched(eventMap, deviceEvents(Atoi(idStr).value)))
    {
      var parsed := Atoi(idStr);
      if parsed.None? {
        return Failure(HttpError(StatusBadRequest, InvalidDeviceId));
      }
      var events := deviceEvents(parsed.value);
      var response: seq<EventEntry> := [];
      for i := 0 to |events|
        invariant response == Enriched(eventMap, events[..i])
      {
        assert events[..i + 1][..i] == events[..i];
        var ev := events[i];
        if |ev.data| < MinFrameLength {
          continue;
        }
        var devId := ev.data[7..11];
        var code := ev.data[11..15];
        var group := ev.data[15..17];
        var zone := ev.data[17..20];
        if code !in eventMap {
          continue;
        }
        var (eventType, desc) := eventMap[code];
        var priority := DeterminePriority(code);
        response := response + [EventEntry(ev.time, devId, code, eventType, desc,
                                           ZoneLabel(zone, group), priority)];
      }
      assert events[..|events|] == events;
      r := Success(response);
    }

    /** `handleGetEvents` over the provider's recent events: the numbered entries, cut to
        the last 500. */
    method HandleGetEvents(events: seq<Event>) returns (response: seq<NumberedEntry>)
      ensures response == RecentEvents(eventMap, events)
      ensures |response| <= RecentLimit
    {
      response := [];
      for i := 0 to |events|
        invariant response == NumberedPrefix(eventMap, events, i)
      {
        var ev := events[i];
        if |ev.data| < MinFrameLength {
          continue;
        }
        var devId := ev.data[7..11];
        var code := ev.data[11..15];
        var group := ev.data[15..17];
        var zone := ev.data[17..20];
        if code !in eventMap {
          continue;
        }
        var (eventType, desc) := eventMap[code];
        var priority := DeterminePriority(code);
        response := response + [NumberedEntry(i, EventEntry(ev.time, devId, code, eventType, desc,
                                                            ZoneLabel(zone, group), priority))];
      }
      if |response| > RecentLimit {
        response := response[|response| - RecentLimit..];
      }
    }

    /** The registration in `handleWebSocket` once the upgrade succeeded. */
    method HandleWebSocket(conn: Conn)
      modifies this
      ensures wsClients == old(wsClients) + {conn}
    {
      wsClients := wsClients + {conn};
    }

    /** The deferred removal in `handleWSClient` once reading from the client fails. */
    method HandleWsClientClosed(conn: Conn)
      modifies this
      ensures wsClients == old(wsClients) - {conn}
    {
      wsClients := wsClients - {conn};
    }

    /** `broadcastToClients`: writes the message to every client, in no particular order;
        each client whose write fails is closed (returned in `dropped`) and removed.
        No other client is removed and none is added. */
    method BroadcastToClients<D>(message: WsMessage<D>, writeOk: Conn -> bool)
      returns (dropped: set<Conn>)
      modifies this
      ensures wsClients == Surviving(old(wsClients), writeOk)
      ensures dropped == Failing(old(wsClients), writeOk)
    {
      ghost var before := wsClients;
      var pending := wsClients;
      dropped := {};
      while pending != {}
        invariant pending <= before
        invariant wsClients == pending + Surviving(before - pending, writeOk)
        invariant dropped == Failing(before - pending, writeOk)
        decreases pending
      {
        var client :| client in pending;
        if !writeOk(client) {
          wsClients := wsClients - {client};
          dropped := dropped + {client};
        }
        pending := pending - {client};
      }
    }

    method BroadcastPpkUpdate<D>(data: D, writeOk: Conn -> bool)
      returns (message: WsMessage<D>, dropped: set<Conn>)
      modifies this
      ensures message == WsMessage(PpkUpdateKind, data)
      ensures wsClients == Surviving(old(wsClients), writeOk)
      ensures dropped == Failing(old(wsClients), writeOk)
    {
      message := WsMessage(PpkUpdateKind, data);
      dropped := BroadcastToClients(message, writeOk);
    }

    method BroadcastEventUpdate<D>(data: D, writeOk: Conn -> bool)
      returns (message: WsMessage<D>, dropped: set<Conn>)
      modifies this
      ensures message == WsMessage(EventUpdateKind, data)
      ensures wsClients == Surviving(old(wsClients), writeOk)
      ensures dropped == Failing(old(wsClients), writeOk)
    {
      message := WsMessage(EventUpdateKind, data);
      dropped := BroadcastToClients(message, writeOk);
    }

    method BroadcastStatsUpdate<D>(data: D, writeOk: Conn -> bool)
      returns (message: WsMessage<D>, dropped: set<Conn>)
      modifies this
      ensures message == WsMessage(StatsUpdateKind, data)
      ensures wsClients == Surviving(old(wsClients), writeOk)
      ensures dropped == Failing(old(wsClients), writeOk)
    {
      message := WsMessage(StatsUpdateKind, data);
      dropped := BroadcastToClients(message, writeOk);
    }
  }
}
