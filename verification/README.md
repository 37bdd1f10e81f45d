# RTMP client core: AMF0 strings and the command orchestrator

This project models two sequential pieces of an RTMP publishing client
written in Kotlin, and proves properties of the model in Dafny.

1. **The AMF0 string body** (`AmfString`, section 2.4 of the AMF0
   specification): a 16-bit big-endian length prefix followed by that many
   US-ASCII bytes. The object stores the prefix it writes (`bodySize`) apart
   from its public, reassignable text (`value`). `Encode` and `Decode` are
   pure functions over byte sequences (`amf_string.dfy`).
2. **The command orchestrator** (`CommandsManager`): the session state
   (command id counter, stream id, session history, media settings, names)
   and every high-level send as a pure transition from a state to the next
   state plus the messages written (`commands_manager.dfy`). Sequences of
   calls between two resets are modelled in `session_runs.dfy`. The
   bookkeeping lemmas are proved by induction over those sequences: ids are
   issued consecutively, each is recorded under its command's name, and no
   earlier entry is overwritten. A further lemma proves that every command
   goes on the chunk stream its name selects. Besides the sends, a run may
contain the caller's assignments to the public fields: the stream id the
server grants, the application, stream and URL names, and the session start.

Supporting modules: `wrappers.dfy` (`Option`, `Result`); `amf.dfy` (bytes,
AMF0 type markers, AMF0 values and keyed lookup); `session_history.dfy`
(the command-id to name map).

Messages are abstract records. A `Command` carries its name, command id,
timestamp, message stream id, basic header (chunk type and chunk stream) and
AMF0 body. `Data` messages, the window acknowledgement size, and video and
audio packets carry what their constructors receive. AMF0 numbers are
integers, because every number the orchestrator writes is integral.

The wall clock is a parameter `now` in milliseconds. A message timestamp
is `now / 1000` (truncated toward zero, as Kotlin's `Long` division does)
minus the session start, wrapped to 32 bits as Kotlin's `toInt()` does.

## Model

| member | source | states |
|---|---|---|
| AmfStrings.New | rtmp/src/main/java/com/pedro/rtmp/amf/v0/AmfString.kt:17-19 | A freshly constructed string stores its text and a length equal to the text's length, so `getSize()` is that length |
| AmfStrings.SetValue | rtmp/src/main/java/com/pedro/rtmp/amf/v0/AmfString.kt:17-19 | Reassigning `value` changes the text only; the stored length and `getSize()` stay as they were |
| AmfStrings.GetType | rtmp/src/main/java/com/pedro/rtmp/amf/v0/AmfString.kt:40 | The type is always the one whose AMF0 marker is 0x02 (string) |
| AmfStrings.Encode | rtmp/src/main/java/com/pedro/rtmp/amf/v0/AmfString.kt:31-38 | Output is 2 + length-of-text bytes; the first two are the stored length, big-endian; then one US-ASCII byte per character |
| AmfStrings.ByteOfChar | rtmp/src/main/java/com/pedro/rtmp/amf/v0/AmfString.kt:33 | The US-ASCII encoder keeps ASCII characters as their code and turns any other character into '?' (0x3F) |
| AmfStrings.CharOfByte | rtmp/src/main/java/com/pedro/rtmp/amf/v0/AmfString.kt:28 | The US-ASCII decoder yields an ASCII character exactly for bytes below 0x80, with the same code |
| AmfStrings.Decode | rtmp/src/main/java/com/pedro/rtmp/amf/v0/AmfString.kt:21-29 | Fails when the input ends inside the prefix or when fewer than n bytes follow a prefix of n (the right error for each case). Otherwise it consumes exactly 2 + n bytes, and the stored length, `getSize()` and the text length all equal n |
| AmfStrings.GetSize | rtmp/src/main/java/com/pedro/rtmp/amf/v0/AmfString.kt:42 | `getSize()` is the length the prefix announces and fits in 16 bits. It excludes the prefix: a string whose stored length matches its text writes `getSize() + 2` bytes |
| AmfStrings.EncodeEmpty | rtmp/src/main/java/com/pedro/rtmp/amf/v0/AmfString.kt:31-38 | The empty string is written as 0x00 0x00 |
| AmfStrings.EncodeAb | rtmp/src/main/java/com/pedro/rtmp/amf/v0/AmfString.kt:31-38 | "ab" is written as 0x00 0x02 0x61 0x62 |
| AmfStrings.RoundTrip | rtmp/src/main/java/com/pedro/rtmp/amf/v0/AmfString.kt:17-38 | Any ASCII string of at most 65535 characters, freshly constructed and written, reads back as the same text and length, whatever bytes follow |
| AmfStrings.EncodeDecoded | rtmp/src/main/java/com/pedro/rtmp/amf/v0/AmfString.kt:21-38 | Conversely, writing back a string read from ASCII bytes reproduces exactly the bytes consumed |
| AmfStrings.PrefixIsStoredLength | rtmp/src/main/java/com/pedro/rtmp/amf/v0/AmfString.kt:17-35 | The prefix written is the stored length, not recomputed: reassigning the text leaves the first two bytes unchanged |
| AmfStrings.StalePrefixAfterReassignment | rtmp/src/main/java/com/pedro/rtmp/amf/v0/AmfString.kt:17-38 | Reassigning "ab" to "abc" still announces two bytes: a reader gets "ab" and leaves the 'c' unread |
| CommandsManager.Initial | rtmp/src/main/java/com/pedro/rtmp/rtmp/CommandsManager.kt:25-41 | A new orchestrator has session start 0, command id 0, stream id 0, an empty history and 640x480, 44100 Hz stereo; it satisfies the history invariant |
| CommandsManager.SetVideoResolution | rtmp/src/main/java/com/pedro/rtmp/rtmp/CommandsManager.kt:43-46 | Width and height take the given values and nothing else changes |
| CommandsManager.SetAudioInfo | rtmp/src/main/java/com/pedro/rtmp/rtmp/CommandsManager.kt:48-51 | Sample rate and stereo flag take the given values and nothing else changes |
| CommandsManager.SetAuth | rtmp/src/main/java/com/pedro/rtmp/rtmp/CommandsManager.kt:53-56 | User and password take the given values and nothing else changes |
| CommandsManager.CurrentTimestamp | rtmp/src/main/java/com/pedro/rtmp/rtmp/CommandsManager.kt:58-60 | The timestamp is a 32-bit value congruent, modulo 2^32, to the seconds elapsed since the session start |
| CommandsManager.ConnectObjectContents | rtmp/src/main/java/com/pedro/rtmp/rtmp/CommandsManager.kt:66-78 | The `connect` object has 11 distinct keys in fixed order. `app` and `tcUrl` carry the given values; the capability flags are fixed (capabilities 239, audioCodecs 3191, videoCodecs 252, objectEncoding 0, ...) |
| CommandsManager.IssueCommand | rtmp/src/main/java/com/pedro/rtmp/rtmp/CommandsManager.kt:63-85 | A command takes id commandId + 1 and the history records its name under that id; no other field changes. It is written with the basic header its call site passes, carrying the current stream id |
| CommandsManager.SendConnect | rtmp/src/main/java/com/pedro/rtmp/rtmp/CommandsManager.kt:63-85 | Increments the command id by one and records "connect" under it; no other field changes. Writes one command with a type-0 header on the connection chunk stream; its body is the connect object with auth appended to app and tcUrl. The command carries the current session timestamp. |
| CommandsManager.CreateStream | rtmp/src/main/java/com/pedro/rtmp/rtmp/CommandsManager.kt:88-118 | Writes releaseStream, FCPublish and createStream in that order, on ids n+1, n+2, n+3, and records those names, each stamped with the current session timestamp. Ends with command id n+3; no other field changes. The first two go on the stream chunk stream with (null, stream name); createStream goes on the connection chunk stream with (null) |
| CommandsManager.MetadataArrayContents | rtmp/src/main/java/com/pedro/rtmp/rtmp/CommandsManager.kt:132-145 | The `onMetaData` array has 12 distinct keys in fixed order. width, height, audiosamplerate and stereo are the configured values; the codec ids, frame rate and sample size are fixed |
| CommandsManager.SendMetadata | rtmp/src/main/java/com/pedro/rtmp/rtmp/CommandsManager.kt:128-151 | The state is left unchanged (no command id, no history entry). Writes one `@setDataFrame` data message on the current stream whose body is "onMetaData" followed by the metadata array. It carries the current session timestamp. |
| CommandsManager.SendPublish | rtmp/src/main/java/com/pedro/rtmp/rtmp/CommandsManager.kt:154-166 | Increments the command id by one and records "publish" under it; no other field changes. Writes one type-0 command on the stream chunk stream with (null, stream name, "live"). The command carries the current session timestamp. |
| CommandsManager.SendWindowAcknowledgementSize | rtmp/src/main/java/com/pedro/rtmp/rtmp/CommandsManager.kt:169-174 | The state is left unchanged; writes one window acknowledgement size message with the configured window |
| CommandsManager.SendClose | rtmp/src/main/java/com/pedro/rtmp/rtmp/CommandsManager.kt:177-187 | Increments the command id by one and records "closeStream" under it; no other field changes. Writes one type-0 command on the stream chunk stream with (null). The command carries the current session timestamp. |
| CommandsManager.SendVideoPacket | rtmp/src/main/java/com/pedro/rtmp/rtmp/CommandsManager.kt:190-198 | The state is left unchanged; writes exactly the given packet as one video message on the current stream |
| CommandsManager.SendAudioPacket | rtmp/src/main/java/com/pedro/rtmp/rtmp/CommandsManager.kt:201-209 | The state is left unchanged; writes exactly the given packet as one audio message on the current stream |
| CommandsManager.Reset | rtmp/src/main/java/com/pedro/rtmp/rtmp/CommandsManager.kt:211-215 | Stream id and command id become 0 and the history empties, together; all other settings are kept and the history invariant holds again |
| SessionHistory.SetPacket | rtmp/src/main/java/com/pedro/rtmp/rtmp/CommandsManager.kt:83 | Recording adds the id to the keys, maps it to the name, and keeps every other entry |
| SessionHistory.NameOf | rtmp/src/main/java/com/pedro/rtmp/rtmp/CommandsManager.kt:25 | A lookup finds a name exactly for recorded ids, and it is the recorded name |
| SessionRuns.ApplyBookkeeping | rtmp/src/main/java/com/pedro/rtmp/rtmp/CommandsManager.kt:43-209 | Any single call other than reset keeps history keys within 1..commandId. It overwrites no entry, adds exactly the ids it issues, issues them consecutively, and records each under its command's name |
| SessionRuns.RunBookkeeping | rtmp/src/main/java/com/pedro/rtmp/rtmp/CommandsManager.kt:43-209 | The same holds for any sequence of calls between resets: the commands written carry ids n+1 .. n' in order, all resolvable through the final history |
| SessionRuns.IdsNeverReused | rtmp/src/main/java/com/pedro/rtmp/rtmp/CommandsManager.kt:64-185 | Between resets, command ids strictly increase in writing order and none was already in the history |
| SessionRuns.ApplyAddressing | rtmp/src/main/java/com/pedro/rtmp/rtmp/CommandsManager.kt:63-187 | The header each call site passes agrees with the reference rule: chunk type 0, with connect and createStream on the connection chunk stream and all others on the stream chunk stream |
| SessionRuns.RunAddressing | rtmp/src/main/java/com/pedro/rtmp/rtmp/CommandsManager.kt:63-187 | The same holds for every command written by any sequence of calls |
| SessionRuns.MetadataUsesLatestSettings | rtmp/src/main/java/com/pedro/rtmp/rtmp/CommandsManager.kt:43-145 | After the resolution and audio settings are set, whatever other calls follow, the metadata reports those width, height, sample rate and stereo values |
| SessionRuns.ConnectThenCreateStream | rtmp/src/main/java/com/pedro/rtmp/rtmp/CommandsManager.kt:27-118 | From a new orchestrator, connect then createStream leaves exactly {1: connect, 2: releaseStream, 3: FCPublish, 4: createStream} and command id 4 |
| SessionRuns.ResetRestartsNumbering | rtmp/src/main/java/com/pedro/rtmp/rtmp/CommandsManager.kt:211-215 | After reset, the commands that follow carry ids 1, 2, ... and are the only history entries |

## Left out

- `CommandSessionHistory`: its implementation is abstracted to a map from id to name, where `setPacket` inserts or overwrites and `reset` empties it.
- `readMessageResponse`: it only delegates to the inbound message factory, which is not part of this model.
- Byte layout of command, data, window acknowledgement, video and audio messages and of chunk headers: those classes are not part of this model, so messages stay abstract records.
- The `readUInt16`, `readUntil` and `writeUInt16` helpers are not part of this model. End of input while reading the prefix or the text is modelled as a `Failure`.
- Logging, `output.flush()` and the `isEnabledLogs` flag: side channels with no protocol meaning.
- Write failures: an `IOException` during a send is not modelled. In the source it would leave `commandId` advanced without a history entry.
- `host`, `port` and `onAuth`: stored but never read by the modelled logic. `user` and `password` are stored by `SetAuth` and never read.
- `FlvPacket` internals are left out (the packet is payload bytes and a timestamp), and so is the configured acknowledgement window size (a parameter).
- AMF0 numbers are integers rather than IEEE-754 doubles: every number written here is integral.
- AmfStrings.New: requires an ASCII text of at most 65535 characters. The source accepts any string: its length is counted in UTF-16 units, and non-ASCII characters are replaced when encoding.
- CommandsManager.CreateStream: reads the clock once for all three commands, where the source reads it once per command.
- CommandsManager.IssueCommand: the command id is an unbounded integer; Kotlin `Int` wrap-around after 2^31 - 1 commands is not modelled.
