# Watch-party registry, modelled in Dafny

The watch-party server keeps every live party in one in-memory dictionary,
`parties`, keyed by a six-character party code. Each record holds the
host's connection id (`host_sid`), the movie URL, an ordered `users` list of
`{id, username, isHost}` entries and an opaque `playback_state`. Six socket
handlers read or change it: `check_party_code`, `create_party`,
`state_update`, `join_party`, `disconnect` and `end_party`.

This project models that registry as a sequential state machine:

- `Wire.dfy` (module `Wire`) holds the wire vocabulary. Payloads are JSON
  values (`Json`). `Get` is Python's `data.get`. An outbound event is
  `Event(name, body, target, skip)`. Its target is one connection
  (`ToSid`) or the socket.io room named after a party (`ToParty`).
- `Parties.dfy` (module `Parties`) holds the party record, its invariant
  `WellFormed`, and the pure pieces the handlers use. These are the
  user-list filter of `disconnect` (`Without`), the first-match search in
  insertion order (`FirstFrom` and `FirstMatch`), key deletion from the
  insertion order (`Erase`), and `party_code in parties` on a client value
  (`Resolve`).
- `App.dfy` (module `App`) holds class `Registry`. The dictionary is two
  fields: `order`, the keys in insertion order, and `parties`, the record
  map. There is one method per handler. Each method takes the sender id
  and the payload, changes the fields as the handler does, and returns the
  `sio.emit` calls in the order the handler makes them. `Valid()` is the
  registry invariant that every handler keeps: `order` lists each key once,
  every key is a six-character A-Z/0-9 code, and every party is well formed.
- `Scenarios.dfy` (module `Scenarios`) holds client scenarios, proved from
  the handlers' contracts alone. A late joiner gets the last reported state. A
  follower leaving keeps the other users in order. A host leaving ends the
  party. `end_party` by a host of two parties ends the older one. A code
  collision overwrites the old party in place. A connection that follows in
  an older party and hosts a newer one leaves the newer party orphaned when
  it disconnects, because `disconnect` acts only on the first party that
  lists the sender.

Modelling choices that follow the code:

- The search loops (`for code, party in parties.items(): ... break`) stop at
  the first match in dictionary insertion order. A code that is drawn again
  overwrites the old record, and the key keeps its position. A deleted code
  that is created again goes to the end.
- `playback_state` starts as `{time: 0, paused: true}`. `state_update`
  stores its payload verbatim, whatever JSON value it is.
- `data.get` on a payload that is not a dictionary raises in Python before
  any change to `parties` or any emit. In `create_party` the sender has
  already joined the socket.io room of the drawn code by then. The model treats that case as "no change, no
  events". So does `party_code in parties` when the client sends a list or
  a dictionary as the code, because the test raises `TypeError`.
- When the sender hosts no party, `state_update` and `end_party` emit
  nothing. When the sender is in no party, `disconnect` changes nothing.
- The code generator's alphabet comes from `random.choices` in
  `create_party`.  The generated code itself is an input of `CreateParty`,
  with a precondition that it is six characters from A-Z and 0-9.

The model does only what the code does. The code has no co-host promotion and no host
reassignment: a host leaving ends the party. It has no position
extrapolation, no reverse index from connection to party, and no rejection
of a duplicate code.

## Model

| member | source | states |
|---|---|---|
| App.Registry.constructor | app.py:17 | the registry starts empty and satisfies the invariant |
| App.Registry.Find | app.py:57-60 | the search loop returns exactly the code of the first party in insertion order that passes the test, or None when none does |
| App.Registry.CheckPartyCode | app.py:24-31 | read-only; `party_code_valid` to the sender when the payload's code names a stored party, `invalid_party_code` to the sender otherwise, nothing when the handler raises |
| App.Registry.CreateParty | app.py:33-50 | stores under the given code a party hosted by the sender, with users exactly `[{sender, username, isHost: true}]`, the payload's movie URL and playback `{time: 0, paused: true}`; a reused code keeps its position, a new one is appended; `party_created` goes to the sender only; other parties unchanged; invariant kept |
| App.Registry.StateUpdate | app.py:53-66 | if the sender hosts some party, the first such party's playback state becomes the payload exactly and `resync` goes to that party skipping the sender; otherwise no change and no event; invariant kept |
| App.Registry.JoinParty | app.py:68-89 | for a known code, exactly one `{sender, username, isHost: false}` entry is appended to that party's users and nothing else changes; `join_success` carries the stored movie URL and playback state unmodified, then `user_list_update` with the new list goes to the party; for an unknown code, nothing changes and `invalid_party_code` goes to the sender only |
| App.Registry.Delete | app.py:126 | `del parties[c]`: the record and its key go, the other keys keep their order, invariant kept |
| App.Registry.Disconnect | app.py:92-111 | in the first party listing the sender, a host deletes the party and `party_ended` goes to it, while a follower has every entry with their id removed and `user_list_update` goes to the party; other parties unchanged; a sender in no party changes nothing |
| App.Registry.EndParty | app.py:116-127 | the first party in insertion order hosted by the sender is deleted and `party_ended` goes to it; if the sender hosts none, nothing changes and nothing is emitted |
| Parties.NewParty | app.py:38-44 | a freshly created party satisfies the party invariant |
| Parties.AddFollower | app.py:75 | appending a follower entry keeps the party invariant |
| Parties.Without | app.py:109 | the filtered list holds exactly the entries of the old list whose id differs from the sender's |
| Parties.WithoutConcat | app.py:109 | the filter distributes over concatenation, so the remaining users keep their relative order |
| Parties.LeaveKeepsWellFormed | app.py:104-110 | a non-host leaving keeps the host entry first, the party non-empty and every later entry a follower |
| Parties.FirstFrom | app.py:97-100 | the result is the least index at or after the start whose party passes the test; None means no such index |
| Parties.FirstMatch | app.py:120-123 | the code the `for ... break` loop stops at: the party of the first passing index; None exactly when no party passes |
| Parties.Erase | app.py:106 | deleting a key removes exactly that key from the insertion order and keeps it duplicate-free |
| Parties.EraseAt | app.py:126 | deleting the key at position i of a duplicate-free order closes the gap and keeps every other key in its place |
| Parties.EraseAbsent | app.py:106 | deleting a key that is not in the order leaves the order unchanged |
| Wire.Get | app.py:70-71 | `data.get(key)` on a dictionary payload: the stored value, or null when the key is absent; defined only on dictionaries, because on anything else the call raises, and every handler tests for that first |
| Wire.InitialPlayback | app.py:43 | the playback state a new party starts with, `{time: 0, paused: true}` |
| Parties.ValidCode | app.py:35 | a code `random.choices` can draw: six characters, each from A-Z or 0-9 |
| Parties.Meets | app.py:58 | the loop tests: the party's `host_sid` is the sender (also app.py:121), or some user entry has the sender's id (app.py:98) |
| Parties.Resolve | app.py:73 | `party_code in parties` holds exactly for a string that is a stored code; a list or dictionary raises |

## Left out

- The eventlet monkey-patching, the socket.io server and WSGI wiring, Flask
  and CORS setup, and the `__main__` server loop are transport and process
  start-up.
- `sio.enter_room` is socket.io's own room membership. An emit to a party is
  the abstract target `ToParty(code)`. Who is in that room is not modelled.
  For example, a disconnected connection leaves the room, and the followers
  of an overwritten party stay in it.
- `random.choices` is not modelled. The drawn code is a parameter of
  `CreateParty`, constrained to six characters from A-Z and 0-9.
- The `connect` handler and all `print` calls only log.
- `playback_action` is commented out in the source.
- The test `party_code_to_update in parties` in `disconnect` always holds
  for a code the search returned, so it is not a separate branch. Likewise,
  `if party_code:` always holds for a found code, because codes are
  non-empty strings.
- Handlers called with the wrong number of arguments by socket.io are not
  modelled. This includes `end_party` or `disconnect` sent with a payload,
  which raise `TypeError`.
- Each handler is one atomic step. Interleaving of eventlet green threads
  inside a handler is not modelled.
- The emitted `users` list in `party_created` and `user_list_update` is the
  same Python list object as the stored one. The model emits a copy of its
  value at the time of the emit.
- JSON numbers are one `real` type. Python's distinction between integer
  and float, and its bool/int equality, do not affect any key lookup here.
