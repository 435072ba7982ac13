/** The records the HTTP layer receives from the retranslator core and the event
    dictionary. The packages that define them are not part of this model; only the
    fields the core reads are kept. */
module CoreTypes {
  import opened GoStrconv

  /** A Go `time.Time`: carried through unchanged, never inspected. */
  type Time

  /** A stored event (`Event` / `GlobalEvent`): its arrival time and the raw frame text. */
  datatype Event = Event(time: Time, data: string)

  /** A panel known to the registry: its numeric id and the last event seen from it. */
  datatype Device = Device(id: Int64, lastEvent: string, lastEventTime: Time)

  /** The event dictionary (`cidparser.EventMap`): event code to (type, description).
      A code is found exactly when it is a key. */
  type EventMap = map<string, (string, string)>
}
