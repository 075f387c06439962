/**
 The wire-level vocabulary of the watch-party server: the JSON values that
 socket.io delivers as event payloads, and the outbound events a handler
 emits (event name, payload, target, optionally a skipped connection).
 */
module Wire {

  datatype Option<T> = None | Some(value: T)

  /** A connection id assigned by socket.io. */
  type Sid = string

  /** A JSON value as decoded by socket.io. An object is a dictionary from
      field names to values; JSON numbers (integers included) are `JNum`. */
  datatype Json =
    | JNull
    | JBool(b: bool)
    | JNum(n: real)
    | JStr(s: string)
    | JArr(items: seq<Json>)
    | JObj(fields: map<string, Json>)

  /** Python's `data.get(key)` on a dictionary payload: the stored value, or
      `None` (here `JNull`) when the key is absent. On a payload that is not a
      dictionary the Python call raises, so callers must check `JObj?` first. */
  function Get(data: Json, key: string): Json
    requires data.JObj?
  {
    if key in data.fields then data.fields[key] else JNull
  }

  /** The `playback_state` a new party starts with: `{time: 0, paused: true}`. */
  function InitialPlayback(): Json {
    JObj(map["time" := JNum(0.0), "paused" := JBool(true)])
  }

  /** A user entry of a party's ordered `users` list. */
  datatype User = User(id: Sid, username: Json, isHost: bool)

  /** Where an event goes: one connection, or every connection in the
      socket.io room named after a party code. */
  datatype Target = ToSid(sid: Sid) | ToParty(code: string)

  /** The payload of an outbound event. */
  datatype Body =
    | NoData
    | Created(partyCode: string, users: seq<User>)
    | Joined(partyCode: string, movieUrl: Json, initialState: Json)
    | UserList(users: seq<User>)
    | Relay(state: Json)

  /** One call of `sio.emit(name, body, to=target, skip_sid=skip)`. */
  datatype Event = Event(name: string, body: Body, to: Target, skip: Option<Sid>)

  /** An event without payload sent to a single connection. */
  function Notice(name: string, sid: Sid): Event
  {
    Event(name, NoData, ToSid(sid), None)
  }
}
