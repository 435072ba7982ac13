/** The WebSocket relay of the headless entry point (main_headless.go): for each device
    update and each event update coming from the retranslator core, the payload it builds
    and hands to the API server's broadcast, and its own copy of the priority table.
    The channel loop, the goroutines, startup and shutdown are not modelled. */
module MainHeadless {
  import opened Wrappers
  import opened GoStrconv
  import opened CoreTypes
  import ServerApi

  /** The headless copy of `determineEventPriority`, written as the switch it is. */
  function DeterminePriority(code: string): (p: int)
    ensures 0 <= p <= 5
    ensures p == 0 <==> |code| < 2
  {
    if |code| < 2 then 0
    else
      var prefix := code[..2];
      if prefix == "E4" then 1
      else if prefix == "E3" then 2
      else if prefix == "E1" || prefix == "R1" then 3
      else if prefix == "E6" then 4
      else 5
  }

  /** The two copies of the priority table agree on every code. */
  lemma PriorityCopiesAgree(code: string)
    ensures DeterminePriority(code) == ServerApi.DeterminePriority(code)
  {
  }

  /** The `data` map of a `ppk_update` broadcast. */
  datatype DevicePayload = DevicePayload(number: Int64, name: string, event: string, date: Time)

  /** The `data` map of an `event_update` broadcast. */
  datatype EventPayload = EventPayload(
    time: Time, device: string, code: string, eventType: string, desc: string,
    zone: string, priority: int)

  /** The payload built for a device update: number is the id, name its decimal form. */
  function DeviceUpdatePayload(device: Device): DevicePayload {
    DevicePayload(device.id, FormatInt(device.id), device.lastEvent, device.lastEventTime)
  }

  /** The payload built for an event update, if any: a frame of 20 characters or more whose
      code `Data[11:15]` is in the dictionary. */
  function EventUpdatePayload(m: EventMap, ev: Event): Option<EventPayload> {
    if |ev.data| >= ServerApi.MinFrameLength then
      var code := ev.data[11..15];
      if code in m then
        var (eventType, desc) := m[code];
        var group := ev.data[15..17];
        var zone := ev.data[17..20];
        Some(EventPayload(ev.time, ev.data[7..11], code, eventType, desc,
                          ServerApi.ZoneLabel(zone, group), DeterminePriority(code)))
      else None
    else None
  }

  /** The same fields as the server's list entry, without the status. */
  function AsPayload(e: ServerApi.EventEntry): EventPayload {
    EventPayload(e.time, e.device, e.code, e.eventType, e.desc, e.zone, e.priority)
  }

  /** The live event feed and the stored-event handlers agree: the relay broadcasts an event
      exactly when the handlers would list it, with the same fields. */
  lemma EventPayloadAgreesWithServer(m: EventMap, ev: Event)
    ensures EventUpdatePayload(m, ev).Some? <==> ServerApi.Project(m, ev).Some?
    ensures EventUpdatePayload(m, ev).Some? ==>
      EventUpdatePayload(m, ev).value == AsPayload(ServerApi.Project(m, ev).value)
  {
    if |ev.data| >= ServerApi.MinFrameLength && ev.data[11..15] in m {
      PriorityCopiesAgree(ev.data[11..15]);
    }
  }

  /** What the relay broadcasts for an event: only a long enough frame with a known code,
      with device `Data[7:11]`, code `Data[11:15]`, the zone/group label and its priority. */
  lemma EventPayloadFields(m: EventMap, ev: Event)
    ensures EventUpdatePayload(m, ev).Some? <==>
      |ev.data| >= ServerApi.MinFrameLength && ev.data[11..15] in m
    ensures EventUpdatePayload(m, ev).Some? ==>
      var p := EventUpdatePayload(m, ev).value;
      && p.time == ev.time
      && p.device == ev.data[7..11]
      && p.code == ev.data[11..15]
      && (p.eventType, p.desc) == m[ev.data[11..15]]
      && p.zone == ServerApi.ZoneLabel(ev.data[17..20], ev.data[15..17])
      && p.priority == ServerApi.DeterminePriority(p.code)
      && 1 <= p.priority <= 5
  {
    EventPayloadAgreesWithServer(m, ev);
  }

  /** The device feed and the device list agree, and the name parses back to the number. */
  lemma DevicePayloadAgreesWithList(device: Device)
    ensures DeviceUpdatePayload(device).number == device.id
    ensures Atoi(DeviceUpdatePayload(device).name) == Some(device.id)
    ensures var e := ServerApi.PpkEntryOf(device);
      DeviceUpdatePayload(device) == DevicePayload(e.number, e.name, e.event, e.date)
  {
    ServerApi.PpkNameParsesToNumber(device);
  }

  /** The `device := <-deviceChan` case: broadcast the device payload as a `ppk_update`;
      the clients whose write failed are closed (`dropped`) and removed. */
  method RelayDeviceUpdate(api: ServerApi.ApiServer, device: Device, writeOk: ServerApi.Conn -> bool)
    returns (message: ServerApi.WsMessage<DevicePayload>, dropped: set<ServerApi.Conn>)
    modifies api
    ensures message == ServerApi.WsMessage(ServerApi.PpkUpdateKind, DeviceUpdatePayload(device))
    ensures api.wsClients == ServerApi.Surviving(old(api.wsClients), writeOk)
    ensures dropped == ServerApi.Failing(old(api.wsClients), writeOk)
  {
    var payload := DevicePayload(device.id, FormatInt(device.id), device.lastEvent, device.lastEventTime);
    message, dropped := api.BroadcastPpkUpdate(payload, writeOk);
  }

  /** The `event := <-eventChan` case: broadcast an `event_update` only for a frame of at
      least 20 characters whose code is in the dictionary the server was built with;
      otherwise nothing is sent and no client is touched. */
  method RelayEventUpdate(api: ServerApi.ApiServer, event: Event, writeOk: ServerApi.Conn -> bool)
    returns (sent: Option<ServerApi.WsMessage<EventPayload>>, dropped: set<ServerApi.Conn>)
    modifies api
    ensures sent.Some? <==> |event.data| >= ServerApi.MinFrameLength && event.data[11..15] in api.eventMap
    ensures sent.Some? ==>
      && sent.value == ServerApi.WsMessage(ServerApi.EventUpdateKind, EventUpdatePayload(api.eventMap, event).value)
      && api.wsClients == ServerApi.Surviving(old(api.wsClients), writeOk)
      && dropped == ServerApi.Failing(old(api.wsClients), writeOk)
    ensures sent.None? ==> api.wsClients == old(api.wsClients) && dropped == {}
  {
    sent, dropped := None, {};
    var eventMap := api.eventMap;
    if |event.data| >= ServerApi.MinFrameLength {
      var code := event.data[11..15];
      if code in eventMap {
        var (eventType, desc) := eventMap[code];
        var group := event.data[15..17];
        var zone := event.data[17..20];
        var payload := EventPayload(event.time, event.data[7..11], code, eventType, desc,
                                    ServerApi.ZoneLabel(zone, group), DeterminePriority(code));
        var message;
        message, dropped := api.BroadcastEventUpdate(payload, writeOk);
        sent := Some(message);
      }
    }
  }
}
