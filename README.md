# CID retranslator: event projection and classification

This project models the display layer of a Contact ID alarm retranslator. The layer
turns stored raw panel frames into display records, lists the known devices and
relays live updates to WebSocket subscribers. It covers two Go files.

- `server/api.go` is the HTTP API server. Its event handlers skip frames shorter than
  20 characters. They slice the device (`Data[7:11]`), code (`[11:15]`), group
  (`[15:17]`) and zone (`[17:20]`). They drop codes missing from the event dictionary and
  label the zone as `Зона <zone>|Група <group>`. They rank the code by its two-character
  prefix. `handleGetEvents` also numbers each entry by its index in the input and keeps
  only the last 500. `handleGetPPKList` lists each device under its decimal id.
  `broadcastToClients` writes to every WebSocket client and forgets the ones whose
  write failed.
- `main_headless.go` relays the core's device and event channels to the API server's
  broadcasts. It builds the same projection with its own copy of the priority table.

Modules:

- `Wrappers` holds `Option` and `Result`.
- `GoStrconv` holds the two Go library conversions the handlers use: `fmt.Sprintf("%d")`
  as `FormatInt` and `strconv.Atoi` as `Atoi`, over 64-bit `int`.
- `CoreTypes` holds the records received from packages outside the model: `Event`,
  `Device`, the `EventMap` dictionary (code to type and description), and `Time`, an
  opaque instant.
- `ServerApi` holds the projection functions, the list specifications and the
  `ApiServer` class. The class keeps the constant dictionary and the mutable subscriber
  set. Its handlers are loops proved equal to the specification functions.
- `MainHeadless` holds the relay's payloads, its priority copy, and the two relay steps
  as methods that take the `ApiServer`. The event relay reads the server's own
  dictionary, since the headless entry point hands one map to both.

## Model

| member | source | states |
|---|---|---|
| `ServerApi.DeterminePriority` | server/api.go:365-376 | the rank is always in 0..5, and it is 0 exactly when the code has fewer than 2 characters |
| `ServerApi.PriorityByPrefixTable` | server/api.go:369-375 | for codes of 2+ characters: E4→1, E3→2, E1 and R1→3, E6→4, any other prefix→5 (checked against an independent prefix table) |
| `ServerApi.PriorityDependsOnPrefixOnly` | server/api.go:369 | two codes with the same first two characters get the same rank |
| `ServerApi.ZoneLabel` | server/api.go:163 | the zone label: `Зона <zone>`, a vertical bar, then `Група <group>` |
| `ServerApi.ZoneLabelRecovers` | server/api.go:163 | with a 3-character zone, the label gives back both the zone and the group |
| `ServerApi.Project` | server/api.go:140-165 | one loop iteration: an entry exists iff the frame has 20+ characters and its code `Data[11:15]` is in the dictionary; then device = `Data[7:11]`, code = `Data[11:15]`, type and desc come from the dictionary, zone = label of `Data[17:20]` and `Data[15:17]`, priority = the code's rank, in 1..5 |
| `ServerApi.ProjectComposedFrame` | server/api.go:145-148 | a frame built from a 7-character header, a 4-char device, 4-char code, 2-char group, 3-char zone and any trailer projects back to exactly those fields |
| `ServerApi.ExampleFrame` | server/api.go:145-164 | the frame `0000000`+`1234`+`E130`+`01`+`002` projects to device 1234, code E130, zone label `Зона 002`, a vertical bar, `Група 01`, priority 3 |
| `ServerApi.Enriched` | server/api.go:139-166 | the `handleGetPPKEvents` response as a filter-map over the events, appended in input order |
| `ServerApi.EnrichedAppend` | server/api.go:139-166 | the response for a concatenation is the concatenation of the responses |
| `ServerApi.EnrichedDropsRejected` | server/api.go:141-153 | a short frame or an unknown code leaves no trace: the response equals the one for the list without that event |
| `ServerApi.EnrichedKeepsAccepted` | server/api.go:150-165 | an accepted event gives exactly one entry, after those of earlier events and before those of later ones (relative order kept) |
| `ServerApi.NumberedPrefix` | server/api.go:187-215 | the `handleGetEvents` loop over the first n events: each entry is the projection of the event its ID names, IDs are < n and strictly increase |
| `ServerApi.NumberedPrefixComplete` | server/api.go:188-215 | every accepted event appears in the numbered list under its own index |
| `ServerApi.NumberedPrefixIsEnriched` | server/api.go:187-215 | with the IDs removed, the `handleGetEvents` entries are exactly the `handleGetPPKEvents` response for the same events |
| `ServerApi.NumberedOmitsRejected` | server/api.go:189-201 | no entry carries the index of a short frame or of an unknown code |
| `ServerApi.KeepLast` | server/api.go:217-220 | the truncated response is a suffix of the full one, of length min(500, n) |
| `ServerApi.KeepLastAt` | server/api.go:219 | element k of the kept window is element (n minus the window's length plus k) of the full list |
| `ServerApi.RecentEventsOrdered` | server/api.go:187-220 | `handleGetEvents` returns at most 500 entries; IDs strictly increase; each entry is the projection of the input event at its ID |
| `ServerApi.RecentEventsComplete` | server/api.go:217-220 | the window holds the newest entries: every accepted event at or after the first one shown is shown |
| `ServerApi.PpkNameParsesToNumber` | server/api.go:104-110 | a listed device's number is its id, and its name parses back (by `strconv.Atoi`) to that id |
| `ServerApi.Surviving` | server/api.go:354-360 | the clients kept by a broadcast: those of the old set whose write succeeded |
| `ServerApi.Failing` | server/api.go:355-359 | the clients closed and deleted by a broadcast: those of the old set whose write failed |
| `ServerApi.SurvivingFailingPartition` | server/api.go:353-362 | kept and deleted clients are disjoint and together make up the old set |
| `ServerApi.ApiServer.constructor` | server/api.go:38-54 | a new server holds the given dictionary and no WebSocket client |
| `ServerApi.ApiServer.HandleGetPpkList` | server/api.go:91-115 | one entry per device, in order: number = id, name = decimal id, last event, date, status `Активний` |
| `ServerApi.ApiServer.HandleGetPpkEvents` | server/api.go:118-170 | a path id that `Atoi` rejects gives 400 "Invalid device ID"; otherwise the loop's response equals `Enriched` of that device's events |
| `ServerApi.ApiServer.HandleGetEvents` | server/api.go:173-224 | the loop and the truncation give exactly the last 500 numbered entries, so at most 500 |
| `ServerApi.ApiServer.HandleWebSocket` | server/api.go:293 | an upgraded connection joins the client set |
| `ServerApi.ApiServer.HandleWsClientClosed` | server/api.go:301-305 | a client whose read failed leaves the client set |
| `ServerApi.ApiServer.BroadcastToClients` | server/api.go:353-362 | the new client set is the old set minus exactly the clients whose write failed, and those clients are the ones closed; nothing is added |
| `ServerApi.ApiServer.BroadcastPpkUpdate` | server/api.go:323-330 | sends `{type: "ppk_update", data}` and prunes like `BroadcastToClients` |
| `ServerApi.ApiServer.BroadcastEventUpdate` | server/api.go:333-340 | sends `{type: "event_update", data}` and prunes like `BroadcastToClients` |
| `ServerApi.ApiServer.BroadcastStatsUpdate` | server/api.go:343-350 | sends `{type: "stats_update", data}` and prunes like `BroadcastToClients` |
| `GoStrconv.Digits` | server/api.go:106 | the decimal digits of a natural number: non-empty, all digits, no leading zero |
| `GoStrconv.FormatInt` | server/api.go:106 | `%d`: a leading `-` exactly for negative numbers, and digits only otherwise |
| `GoStrconv.Atoi` | server/api.go:121-125 | `strconv.Atoi`: an optional sign, then one or more digits, and the value must fit in 64 bits |
| `GoStrconv.DigitsValue` | server/api.go:106 | the digits of n denote n |
| `GoStrconv.AtoiFormatInt` | server/api.go:121 | `Atoi` of `%d` of any 64-bit value gives that value back |
| `GoStrconv.FormatIntInjective` | server/api.go:106 | two different ids never get the same name |
| `GoStrconv.AtoiRejectsBareSign` | server/api.go:121-125 | the empty string, `-` and `+` are invalid device ids |
| `MainHeadless.DeterminePriority` | main_headless.go:132-148 | the headless copy: always in 0..5, and 0 exactly when the code has fewer than 2 characters |
| `MainHeadless.PriorityCopiesAgree` | main_headless.go:132-148 | for every code, the headless copy and the server copy give the same rank, so both follow the E4/E3/E1-R1/E6/other table |
| `MainHeadless.DeviceUpdatePayload` | main_headless.go:71-76 | the `ppk_update` data: number = `device.ID`, name = its decimal form, last event and date |
| `MainHeadless.EventUpdatePayload` | main_headless.go:79-95 | the `event_update` data, built only for a frame of 20+ characters whose code is in the dictionary |
| `MainHeadless.EventPayloadAgreesWithServer` | main_headless.go:79-94 | the relay builds a payload exactly when the server handlers would list the event, and with the same fields |
| `MainHeadless.EventPayloadFields` | main_headless.go:79-94 | broadcast only if `len(Data) >= 20` and `Data[11:15]` is known; then device = `Data[7:11]`, code = `Data[11:15]`, zone = label of `Data[17:20]` and `Data[15:17]`, priority = the code's rank |
| `MainHeadless.DevicePayloadAgreesWithList` | main_headless.go:71-76 | number = `device.ID`, name parses back to it, and the payload equals the server's list entry without the status |
| `MainHeadless.RelayDeviceUpdate` | main_headless.go:69-76 | a device update is always broadcast as `ppk_update` with that payload; the failed clients are pruned and returned as the closed ones |
| `MainHeadless.RelayEventUpdate` | main_headless.go:77-96 | an `event_update` is sent iff the frame has 20+ characters and a code known to the server's dictionary, with that payload; the failed clients are then pruned and returned as closed; otherwise the client set is unchanged and nothing is closed |

## Left out

- Go strings are indexed by bytes. The model indexes characters, one per byte. This is the same for the ASCII frames panels send. A frame with multi-byte characters before offset 20 would be sliced differently in Go.
- `time.Time` is opaque (`CoreTypes.Time`). Times are copied into the records and never inspected.
- The data provider (`GetInitialDevices`, `GetInitialEvents`, `GetDeviceEvents`) lives in another package. Each handler takes that provider's answer as a parameter.
- The event dictionary's loading (`cidparser.LoadEvents`) is left out. So is its lookup function. The dictionary is a map, and a code is found exactly when it is a key.
- `ServerApi.ApiServer.BroadcastToClients`: whether a WebSocket write succeeds is an input predicate on the connection. The JSON write itself and `Close` are left out. The closed connections are the returned `dropped` set.
- HTTP routing, the CORS middleware, JSON encoding and response headers (server/api.go:57-88, 113-114) are library plumbing.
- `handleGetStats` (server/api.go:227-254) is left out. It races the stats channel against a 500 ms timer, which is timing and concurrency.
- `handleGetConfig` and `handleUpdateConfig` (server/api.go:257-283) are left out. They are file I/O and an in-place swap of a config type that is not part of this model.
- The WebSocket upgrade, the read-until-error loop and `Start` (server/api.go:286-320) are network I/O. Only their effect on the client set is kept: `HandleWebSocket` and `HandleWsClientClosed`. The unsynchronised access to the client set from several goroutines is a concurrency matter and is not modelled.
- `main` in main_headless.go is left out. That covers the file read, `core.NewApp`, `Startup`, the goroutines, the `select` loop, the ticker, signals and `Shutdown`. These are I/O, concurrency and code that is not part of this model. Each `select` case for a device or an event is modelled as one relay step.
- `GoStrconv.Atoi` follows Go's documented `strconv.Atoi` behaviour: an optional sign, ASCII digits, and the 64-bit range. It does not model the error values it returns. Only "an error" is modelled, which is all the handler distinguishes.
