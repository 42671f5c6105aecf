# MeshCom gateway: packet admission and normalisation

A Dafny model of the UDP packet handler of the MeshCom integration for Home
Assistant, `MeshComGateway` in `__init__.py`. The gateway receives datagrams
from a MeshCom node. It decodes each one as a JSON object. It admits a packet
when the packet's destination is the gateway's own callsign or one of its
groups. It strips an APRS-style message number from the text. An admitted
packet overwrites the gateway's `last_*` fields, fires one `meshcom_message`
event on the host's bus, and schedules one job per entry of the listener
list, so a listener registered twice is scheduled twice.

Layout, one module per concern of the source file:

- `Wrappers` (`wrappers.dfy`): `Option`, Python's `None` or a value.
- `Text` (`text.dfy`): `str.strip()`, `str.upper()`, `str.split(",")` with
  its inverse `",".join(...)`, and `str.replace` for one character.
- `Identity` (`identity.dfy`): normalising the configured callsign and the
  groups, and parsing the comma-separated group setting.
- `Packet` (`packet.dfy`): the pure decision `Process`. Given the decoded
  text, the JSON outcome, the identity and the clock reading, it either
  discards the datagram with a reason or accepts it. An accepted outcome
  carries the values to store and the event to fire. The lemmas about the
  admission rule and the text normalisation are here.
- `Registry` (`registry.dfy`): removing the first occurrence of a listener.
- `Gateway` (`gateway.dfy`): the `Hass` host (event bus and job queue) and
  the `MeshComGateway` class. Its methods update the `last_*` fields and the
  listener list in place, in the order the source does. Each method is
  proved against `Process`, `Apply` and `RemoveFirst`.

Inputs that the model takes as parameters:

- `decoded`: the lossy UTF-8 decoding of the datagram bytes.
- `parsed`: the outcome of `json.loads` on the stripped text. It is
  `Malformed`, `NonObject` or `Object(payload)`.
- `now`: the ISO time stamp `datetime.now(timezone.utc).isoformat()`.

Where the code and some descriptions of this gateway differ, the model
follows the code:

- `*` is an ordinary group name. It matches only the literal destination
  `*`, or a packet without a `dst` field. There is no classification of
  destinations by callsign shape.
- Self-addressed `:ack` frames are not discarded.
- Time beacons (`{CET}`, `{CEST}`) are not discarded. They are accepted,
  with `last_message = None` and `is_time_beacon` set in the event.
- The text is not trimmed after the message number is stripped.
- There is no send operation.
- A listener's remover drops one occurrence only. A listener registered
  twice and removed once is still scheduled for the next accepted datagram.

## Model

| member | source | states |
|---|---|---|
| `Identity.NormalizeCall` | __init__.py:28 | the callsign is `None` exactly when the configured value is absent or empty; otherwise it is the upper-cased value, and it is non-empty |
| `Identity.NormalizeGroups` | __init__.py:29 | same length and order as the configured groups, each one upper-cased |
| `Identity.ParseGroups` | __init__.py:197 | every parsed group is non-empty, comma-free and has no whitespace at either end |
| `Identity.StrippedNonBlank` | __init__.py:197 | the comprehension's filter keeps at most as many names as there are pieces, each non-empty and stripped |
| `Identity.StrippedNonBlankMembers` | __init__.py:197 | the filter keeps a name exactly when it is non-empty and is the strip of some piece |
| `Identity.ParseGroupsMembers` | __init__.py:197 | a name is a parsed group exactly when it is the non-blank strip of a comma-separated piece of the setting (both directions) |
| `Identity.ParseJoinedGroups` | __init__.py:197 | every well-formed name of a list written as its comma-joined string is parsed back |
| `Identity.StrippedNonBlankKeeps` | __init__.py:197 | the filter returns a list of non-empty, stripped names unchanged |
| `Identity.ParseJoinedList` | __init__.py:197 | a list of well-formed names written as its comma-joined string is parsed back to exactly that list, in order |
| `Identity.NormalizedGroupsWellFormed` | __init__.py:197 | after parsing and upper-casing, every group is still non-empty, comma-free and stripped, and is its own upper case |
| `Text.Strip` | __init__.py:197 | the strip is empty exactly when the text is all whitespace, and it neither begins nor ends with whitespace |
| `Text.StripTrims` | __init__.py:63 | the strip is the slice of the text between an all-whitespace prefix and an all-whitespace suffix |
| `Text.StripFixpoint` | __init__.py:93 | strip leaves a text unchanged exactly when neither end is whitespace, so stripping twice is stripping once |
| `Text.StripKeeps` | __init__.py:197 | strip adds no character; a comma-free piece stays comma-free |
| `Text.Upper` | __init__.py:87-88 | upper-casing keeps the length and maps each character by the letter rule |
| `Text.UpperChar` | __init__.py:87-88 | a lower-case ASCII letter becomes its capital, any other character is unchanged, and whitespace stays whitespace |
| `Text.UpperIdempotent` | __init__.py:28-29 | upper-casing an upper-cased name changes nothing, so normalised callsigns and groups compare with upper-cased destinations as they are |
| `Text.UpperKeeps` | __init__.py:29 | upper-casing neither adds nor removes a comma or any other non-letter |
| `Text.UpperStripped` | __init__.py:29 | upper-casing keeps a name stripped, and keeps an unstripped name unstripped |
| `Text.Replace` | __init__.py:140 | replacement keeps the length, swaps exactly the replaced character at every index, and leaves none of it behind |
| `Text.Split` | __init__.py:197 | a split has at least one piece and no piece holds the separator |
| `Text.JoinSplit` | __init__.py:197 | joining the pieces of a split with the separator gives back the original text |
| `Text.SplitJoin` | __init__.py:197 | splitting a join of separator-free pieces gives back exactly those pieces |
| `Packet.Get` | __init__.py:85-97 | a present key gives its value and an absent key gives the default |
| `Packet.Lookup` | __init__.py:151-153 | `payload.get(key)` is `None` exactly when the key is absent, otherwise its value |
| `Packet.SeqNumberAt` | __init__.py:119 | defines the match of `\{\d{1,4}$`: a `{` at position `p` followed by one to four ASCII digits that run to the end of the text |
| `Packet.StripSeqNumber` | __init__.py:119 | when `{` and 1 to 4 digits end the text, exactly that suffix is cut; a text without such a suffix is unchanged |
| `Packet.StripSeqNumberSuffix` | __init__.py:119 | any text followed by `{` and 1 to 4 digits comes back as that text |
| `Packet.StripSeqNumberExamples` | __init__.py:119 | `hello{12` becomes `hello`; `x{12345` and `hello` are unchanged; only the last number of `a{1{23` goes |
| `Packet.IsTimeBeacon` | __init__.py:122-124 | defines a time beacon: the text starts with `{CET}` or with `{CEST}` |
| `Packet.BeaconSurvivesStrip` | __init__.py:119-124 | stripping a message number never removes a `{CET}` or `{CEST}` marker |
| `Packet.Sanitize` | __init__.py:140 | the sanitised text has the same length and holds no `"` |
| `Packet.Accept` | __init__.py:119-155 | an admitted packet stores the same source, destination, id and raw JSON that its event carries, and the clock reading as time stamp; it stores no message exactly when the event is flagged a time beacon; a stored message is the event text with `"` replaced and holds no `"` |
| `Packet.ProcessObject` | __init__.py:84-115 | a JSON object is dropped only for blank text or a destination not admitted |
| `Packet.Process` | __init__.py:59-115 | only a JSON object is ever accepted, and it is accepted with the values of `Accept` |
| `Packet.DiscardReasons` | __init__.py:63-115 | each discard reason (empty payload, invalid JSON, not an object, blank text, not addressed) happens exactly under its own condition, checked in the source's order |
| `Packet.Admits` | __init__.py:101-106 | defines the destination filter: `dst` is admitted when it equals the set, non-empty own callsign or is in the group list; `*` is a literal name |
| `Packet.AdmissionRule` | __init__.py:101-115 | a packet with text is accepted exactly when its upper-cased destination (`*` when absent) is the set, non-empty own callsign or one of the groups |
| `Packet.AbsentDestination` | __init__.py:86-115 | a packet without `dst` is accepted exactly when `*` is a group or the own callsign |
| `Packet.OwnCallAdmitted` | __init__.py:103-104 | a packet to the configured callsign, in any letter case, is accepted whatever the groups |
| `Packet.GroupAdmitted` | __init__.py:105-106 | a packet to a configured group, in any letter case, is accepted whatever the callsign |
| `Packet.WildcardIsLiteral` | __init__.py:101-115 | with groups `["*"]`, no callsign and the destination `LOCAL`, the packet is rejected as not addressed |
| `Packet.WildcardTakesUnaddressed` | __init__.py:86-106 | with groups `["*"]`, a packet without destination is accepted |
| `Packet.StoredFields` | __init__.py:128-132 | on acceptance, the source is the upper-cased `src` (default `Unknown`), the destination the upper-cased `dst` (default `*`), the id `msg_id` (default empty), with the time stamp and the raw JSON |
| `Packet.TimeBeacon` | __init__.py:135-138 | an accepted time beacon stores no message and its event is flagged a beacon |
| `Packet.OrdinaryMessage` | __init__.py:139-150 | an accepted ordinary message stores the stripped text with every `"` turned into `'`, so it holds no `"`; the event carries the stripped text unreplaced, the raw text, and no beacon flag |
| `Packet.TimeBeaconExample` | __init__.py:119-138 | `{CET}12:30` to `*` is accepted with no stored message, a beacon flag and destination `*` |
| `Registry.RemoveFirst` | __init__.py:174-175 | removing an absent listener changes nothing; removing a present one shortens the list by one |
| `Registry.RemoveFirstAt` | __init__.py:175 | removal keeps the listeners before the first occurrence and those after it, in order |
| `Registry.RemoveFirstCount` | __init__.py:174-175 | removal takes away exactly one occurrence of the listener, or nothing when there is none |
| `Registry.RegisterThenRemove` | __init__.py:171-175 | registering a new listener and calling its remover restores the list |
| `Registry.RemovedOnceRegistered` | __init__.py:174-175 | a listener registered once is gone after its remover runs |
| `Gateway.Apply` | __init__.py:59-140 | `last_raw_bytes` is always the datagram; a discard changes no other field; an acceptance writes all five fields and the message from the same packet |
| `Gateway.ApplyIdempotent` | __init__.py:127-140 | applying the same outcome twice gives the state that one application gives |
| `Gateway.AcceptedForgetsPast` | __init__.py:127-140 | after an accepted packet the `last_*` fields do not depend on what was there before |
| `Gateway.RedeliveryIdempotent` | __init__.py:56-140 | receiving the same datagram twice, with the same clock reading, ends in the state one delivery gives |
| `Gateway.Hass.Fire` | __init__.py:158 | the bus gets exactly one more event, with its type and data, and the job queue is untouched |
| `Gateway.Hass.AddJob` | __init__.py:163 | the job queue gets exactly that job appended, and the bus is untouched |
| `Gateway.MeshComGateway.constructor` | __init__.py:23-43 | the gateway keeps the host, normalises callsign and groups, and starts with no listeners and no observed values |
| `Gateway.MeshComGateway.DatagramReceived` | __init__.py:56-163 | the new `last_*` fields follow `Apply` of `Process`; an accepted datagram fires exactly its one event and schedules each pre-call listener once, in order; a discarded one fires and schedules nothing; the listener list is unchanged |
| `Gateway.MeshComGateway.HandlePayload` | __init__.py:84-163 | for a JSON object, acceptance by `ProcessObject` writes all five fields and the message, fires its event and schedules the listeners; a discard leaves fields, bus and queue as they were |
| `Gateway.MeshComGateway.Record` | __init__.py:127-163 | the five fields and the message come from one update, one event is fired, and the listener snapshot is appended to the job queue |
| `Gateway.MeshComGateway.NotifyListeners` | __init__.py:162-163 | every listener of the snapshot is scheduled once, in list order, and no event is fired |
| `Gateway.MeshComGateway.RegisterListener` | __init__.py:166-177 | the listener is appended, and the remover returned belongs to it |
| `Gateway.MeshComGateway.Remove` | __init__.py:173-175 | the listener list becomes `RemoveFirst` of the old list; removing an absent listener is a no-op |
| `Gateway.SetupEntry` | __init__.py:192-201 | the gateway gets the normalised `my_call` and the upper-cased parsed `groups` (empty when absent), with no listeners and nothing observed |
| `Gateway.RemovedListenerNotScheduled` | __init__.py:162-175 | a listener registered once and removed before a datagram arrives is not scheduled for it |
| `Gateway.TwiceRegisteredStillScheduled` | __init__.py:162-175 | a listener registered twice and removed once gets exactly one new job from an accepted datagram |

## Left out

- Transport lifecycle: `connection_made`, `connection_lost`, binding the socket in `async_setup_entry`, and closing it in `async_unload_entry`. These are socket I/O.
- The datagram's sender address: it is only logged.
- Logging: every branch's log message.
- UTF-8 decoding with `errors="ignore"`: its result is the `decoded` parameter. The model does not relate it to the bytes.
- `json.loads`: its outcome is the `parsed` parameter. Payload values are modelled as strings, so the `str()` coercion of numbers, booleans and `null` is not modelled. For example, a `null` `msg` would be the non-blank text `None` in the source.
- `Text.Upper`: does not model Python's full Unicode `str.upper()`. Only ASCII `a`-`z` are mapped, and the length is always kept (Python maps `ß` to `SS`).
- `Packet.StripSeqNumber`: does not model that `$` in Python's `re` also matches before a final newline, nor that `\d` matches non-ASCII decimal digits. A text ending in `{12` followed by a newline is left unchanged here.
- The clock: `datetime.now(timezone.utc).isoformat()` is the `now` parameter.
- Host calls: `hass.bus.fire` and `hass.add_job` are appends to the `Hass` object's event and job sequences. Jobs are not run, and `async_forward_entry_setups` and `hass.data` bookkeeping are not modelled.
- Listener identity: callables are compared as `Listener` values. The `_remove` closure is a `Remover` value passed to `MeshComGateway.Remove` of the gateway that issued it.
- `sensor.py` and `config_flow.py` are not part of this model. They read the gateway's fields and define the setup form, and hold no admission logic.
