# Owner/processor protocol vocabulary and scheduler info provider

A Dafny model of two small pieces of the change-data-capture coordination code.

- **Protocol** (`protocol.dfy`): the five topic names on which the owner and the
  processors of a changefeed talk to each other, and the message records sent on
  them. Each topic is a fixed prefix (`dispatch/`, `dispatch-resp/`,
  `send-status/`, `send-status-resp/`, `checkpoint/`) followed by the changefeed
  ID. `ParseTopic` recovers the family and the ID from a name. It is the inverse
  of the builders. With it the model proves that each builder is injective and
  that the five families never share a name.
- **Scheduler** (`info_provider.dfy`): `GetTaskStatuses` and `GetTaskPositions`
  of `BaseScheduleDispatcher`, the read-only projection that the monitoring layer
  consumes. The dispatcher holds the keyspan table grouped by capture and the
  capture-status map. `GetTaskStatuses` builds its result in nested loops and
  `GetTaskPositions` in one loop, as the Go code does. Each is proved against a
  ghost predicate that states the projection: same captures and keyspans, start timestamp 0, and a dispatched
  operation exactly for adding (`delete == false`) and removing
  (`delete == true`) keyspans. Watermarks are copied unchanged. Neither method
  has a `modifies` clause, so the dispatcher's tables stay unchanged. Both
  methods return a `None` error.
- `model.dfy` holds the shared types of the `model` package (`Ts`, `KeySpanID`,
  `TaskStatus`, `TaskPosition`, `KeySpanOperation`, `OperStatus`). Go's
  `uint64`, `int64` and `byte` are modelled as newtypes over `int`.
  `wrappers.dfy` holds `Option`.

## Model

| member | source | states |
|---|---|---|
| `Protocol.DispatchKeySpanTopic` | cdc/cdc/model/protocol.go:28-30 | the topic starts with `dispatch/`, stripping that prefix gives back the changefeed ID, and parsing the topic yields the dispatch family with that ID |
| `Protocol.DispatchKeySpanResponseTopic` | cdc/cdc/model/protocol.go:43-45 | the topic starts with `dispatch-resp/`, stripping it gives back the ID, and parsing yields the dispatch-response family with that ID (not the dispatch family) |
| `Protocol.AnnounceTopic` | cdc/cdc/model/protocol.go:53-55 | the topic starts with `send-status/`, stripping it gives back the ID, and parsing yields the announce family with that ID |
| `Protocol.SyncTopic` | cdc/cdc/model/protocol.go:65-67 | the topic starts with `send-status-resp/`, stripping it gives back the ID, and parsing yields the sync family with that ID (not the announce family) |
| `Protocol.CheckpointTopic` | cdc/cdc/model/protocol.go:95-97 | the topic starts with `checkpoint/`, stripping it gives back the ID, and parsing yields the checkpoint family with that ID |
| `Protocol.TopicOf` | cdc/cdc/model/protocol.go:28-97 | for every family and changefeed, parsing the built topic gives back the same family and changefeed |
| `Protocol.ParseThenBuild` | cdc/cdc/model/protocol.go:28-97 | every name that parses is exactly the topic its family's builder gives for the parsed ID |
| `Protocol.TopicsEqualIff` | cdc/cdc/model/protocol.go:28-97 | two topics are equal if and only if they have the same family and the same changefeed ID (builders injective, families pairwise disjoint) |
| `Protocol.IsTopicIff` | cdc/cdc/model/protocol.go:28-97 | a name parses if and only if some builder produces it |
| `Protocol.DispatchKeySpanTopicInjective` | cdc/cdc/model/protocol.go:28-30 | equal dispatch topics come from equal changefeed IDs |
| `Protocol.DispatchFamiliesDisjoint` | cdc/cdc/model/protocol.go:28-45 | `dispatch/x` never equals `dispatch-resp/y` |
| `Protocol.StatusFamiliesDisjoint` | cdc/cdc/model/protocol.go:53-67 | `send-status/x` never equals `send-status-resp/y` |
| `Scheduler.BaseScheduleDispatcher.GetTaskStatuses` | cdc/cdc/scheduler/info_provider.go:32-67 | the result has exactly the captures of the grouped table; each capture's `KeySpans` has exactly its keyspans, each with `StartTs` 0; a running keyspan has no operation, an adding one has `{Delete: false, BoundaryTs: 0, Status: OperDispatched}`, a removing one `{Delete: true, ...}`; no other operation keys; the error is nil; nothing is modified |
| `Scheduler.BaseScheduleDispatcher.GetTaskPositions` | cdc/cdc/scheduler/info_provider.go:70-83 | the result has exactly the captures of `captureStatus`, each with its `CheckpointTs` and `ResolvedTs` copied; the error is nil; nothing is modified |
| `Scheduler.StatusOfDispatchedOperation` | cdc/cdc/scheduler/info_provider.go:47-62 | the reported operation encodes the keyspan's phase without loss, and an operation is present exactly for a phase other than running |
| `Scheduler.StatusRecoverable` | cdc/cdc/scheduler/info_provider.go:43-62 | in a projected task status every keyspan of the table is present, its phase can be read back from its operation, and it has an operation if and only if it is not running |
| `Scheduler.CaptureProjectionUnique` | cdc/cdc/scheduler/info_provider.go:39-63 | the per-capture projection determines the task status completely |
| `Scheduler.TaskStatusesUnique` | cdc/cdc/scheduler/info_provider.go:36-66 | the task-status projection determines the whole result map |
| `Scheduler.TaskPositionsUnique` | cdc/cdc/scheduler/info_provider.go:74-82 | the task-position projection determines the whole result map |
| `Scheduler.WatermarkOrderPreserved` | cdc/cdc/scheduler/info_provider.go:75-80 | when every capture's checkpoint is at most its resolved timestamp, the same holds for every reported task position |

## Left out

- `SyncMessage.Marshal` and `SyncMessage.Unmarshal` (cdc/cdc/model/protocol.go:80-91): they call the external msgpack library, whose encoding is not part of this model; no round trip is claimed.
- The JSON field tags of the messages: their encoding is done by an external library.
- The mutex in both info-provider methods: each method is modelled as one sequential, atomic step.
- `GetAllKeySpansGroupedByCaptures` and the keyspan table behind it, and the rules by which the scheduler updates its tables: they are not part of this model; the grouped table and the capture-status map are fields of the dispatcher, taken as given.
- `p2p.Topic` delivery semantics: topics are modelled as plain strings.
- `TaskStatus`, `TaskPosition`, `KeySpanReplicaInfo` and the scheduler's capture status are declared in files that are not part of this model; only the fields the info provider reads or writes are modelled. `OperStatus` has the three values of the model package, of which only `OperDispatched` is used here.
- Go maps of pointers become Dafny maps of values; pointer aliasing between the returned map and other data does not arise in the source, since every entry is freshly allocated.
- Go's unordered `range` over a map is modelled by picking an arbitrary remaining key; the results do not depend on the order.
