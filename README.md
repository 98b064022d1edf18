# zentropi core, modelled in Dafny

zentropi is an agent runtime. Agents exchange frames (events, messages, states,
commands, requests, responses) over pub/sub connections. Each agent routes the
frames it receives to the handlers registered on it. This project models four
sequential parts of it and proves properties of the model:

- **The agent's dispatch gate and lifecycle flags** (`agent.dfy`, `dispatch.dfy`).
  The `Agent` class keeps the seen-frame set, the spawn queue, the event loop,
  the two `should_stop` flags and the registries as fields. Ghost logs record
  handler invocations, emitted lifecycle events and closed connections.
  - `_trigger_frame_handler` makes its checks in source order: own message,
    foreign lifecycle event, already seen, filter veto. Then it records the id,
    builds the payload, and either runs the handler inline or spawns it.
  - The pure functions `Dispatch.Step` and `Dispatch.RunTriggers` specify the
    gate. The lemmas prove at-most-once handling per frame id.
    `Agent.DeliverAll` ties the class to that specification.
- **The validators and the wiring plan of `run_agents`** (`utils.dfy`,
  `orchestration.dfy`).
  - Each validator returns `Ok(value)` or `Err(exception class)`.
  - `run_agents` is a method that builds the sequence of calls it makes
    (`Start`, `Bind`, `Connect`, `Join`, `Run` of agent `i`). It also builds
    the list of agents whose `stop()` the last agent's `'*** stopping'` handler
    calls. The method is proved equal to the reference functions
    `WiringActions` and `WiringStops`, and lemmas state who binds, connects,
    joins, runs and is stopped.
- **The Redis pub/sub connection** (`redis_connection.dfy`). The class has the
  connection's fields. The network calls are replaced by handles passed in as
  parameters and by ghost logs: clients dialled, handles closed, tasks
  cancelled, frames published, frames forwarded. The incoming stream of a
  subscription is a given sequence.
- **The connection base class** (`connection.dfy`). It holds the `connected`
  and `endpoint` state and read-only accessors. Each transport operation
  raises `NotImplementedError`.

Shared types are in `base.dfy` (`Option`, `Result`, `Outcome`, exception
classes, a dynamic `PyValue`) and `frames.dfy` (the fields of frames and
handlers that the core reads).

Where the code behaves differently from what its names suggest, the model follows the code:
- `stop()` emits `'*** stopping'` on every call. Only the close of the
  connections is guarded by the false-to-true edge (`AgentRuntime.StopTwice`).
- The Redis `close()` leaves the connected flag and the joined spaces as they
  are. Nothing in the code sets the connection disconnected again.
- The dedup set is modelled as an exact set. The scalable Bloom filter it stands
  for has no false negatives, so every "dropped" property holds of it too.
- A frame id is recorded when the first matching handler passes its filters.
  A later handler that matches the same frame then finds the id already seen
  and is skipped, so one frame fires at most one handler, not every matching
  one (`Dispatch.AtMostOncePerFrameId`).
- Joining with a subscriber client subscribes one channel per joined space,
  but only the first channel is kept and listened to. Leaving the last space
  raises TypeError from the empty `subscribe` call after the space is gone.
- `leave` never unsubscribes. It removes the space from the set and calls
  `subscribe` again with the spaces that remain, so the subscriber client's
  own subscriptions only accumulate. The ghost log `subscriptions` records the
  names passed to each `subscribe` call, not what the client is subscribed to.

## Model

The functions `Dispatch.Gate` (src/zentropi/agent.py:61-71), `Dispatch.RunTriggers`
(src/zentropi/agent.py:61-71, one trigger after another), `Orchestration.WiringActions`
(src/zentropi/utils.py:189-220), `Orchestration.WiringStops` (src/zentropi/utils.py:222-226)
and `Redis.ConnectTarget` (src/zentropi/connections/redis_connection.py:52-61) are the
reference definitions that the rows below are stated against; their own properties are
the lemmas and method contracts listed here.

| member | source | states |
|---|---|---|
| `Dispatch.Step` | src/zentropi/agent.py:61-76 | An own message, a foreign `***` event, an already seen id or a filter veto leaves the seen set unchanged and invokes nothing. Otherwise the handler is invoked with the built payload, and the frame's id is added exactly when there is a frame. |
| `Dispatch.Payload` | src/zentropi/agent.py:72-76 | The payload has length 0 to 2. The agent comes first iff `pass_self`. The frame is present, and last, iff the handler is not a timer handler. |
| `Dispatch.RunRecordsExactlyPassedIds` | src/zentropi/agent.py:66-71 | Over any sequence of triggers, the seen set grows by exactly the ids of the frames whose handlers ran. |
| `Dispatch.AtMostOncePerFrameId` | src/zentropi/agent.py:66-71 | Over any sequence of triggers and any handlers, at most one invocation carries a given frame id, and none if the id was already seen. |
| `Dispatch.LoopPrevention` | src/zentropi/agent.py:62-65 | No invocation ever carries the agent's own message or another agent's lifecycle event. |
| `Dispatch.VetoedFrameCanStillFire` | src/zentropi/agent.py:68-71 | A filter veto records nothing, so the same frame offered next to a handler whose filters pass runs that handler. |
| `Dispatch.SecondDeliveryDropped` | src/zentropi/agent.py:66-71 | Once a frame has passed, a second trigger with it is dropped for every handler. |
| `AgentRuntime.Agent.TriggerFrameHandler` | src/zentropi/agent.py:61-87 | The new seen set and the invocation log follow `Step`. An async handler is spawned and returns None. A synchronous handler's truthy result goes to `handle_return`, whose answer is returned; a falsy result gives None. |
| `AgentRuntime.Agent.DeliverAll` | src/zentropi/agent.py:61-71 | Delivering triggers one after another through the class gives the seen set and the invocations of `RunTriggers`, so each frame id reaches at most one handler. |
| `AgentRuntime.Agent.constructor` | src/zentropi/agent.py:23-31 | A new agent has no loop, an empty spawn queue, an empty seen set and both stop flags false. |
| `AgentRuntime.Agent.Spawn` | src/zentropi/agent.py:116-120 | Without a loop the coroutine joins the start-up queue and None is returned. With a loop it becomes the next task and its task is returned. |
| `AgentRuntime.Agent.SetAsyncioLoop` | src/zentropi/agent.py:50-59 | An explicit loop when one is already set raises AssertionError and changes nothing. Otherwise an explicit loop is installed, or else the existing or default loop is kept. |
| `AgentRuntime.Agent.AddHandler` | src/zentropi/agent.py:89-93 | A timer handler is appended to the timer registry under its name. Any other handler is appended to the handler registry. |
| `AgentRuntime.Agent.OnTimer` | src/zentropi/agent.py:95-102 | Registers a timer handler under `str(interval)` and returns the callable unchanged. |
| `AgentRuntime.OnTimerMeta` | src/zentropi/agent.py:175-185 | Keeps the callable's existing meta list and appends one timer handler whose name reads back as the interval. |
| `AgentRuntime.DecimalRoundTrip` | src/zentropi/agent.py:97 | `str(interval)` of a whole number reads back as that number. |
| `AgentRuntime.DecimalStringInjective` | src/zentropi/agent.py:97 | Distinct intervals get distinct timer-registry keys. |
| `AgentRuntime.SelectConnections` | src/zentropi/agent.py:160-170 | Raises ValueError iff both an endpoint and tags are given. Otherwise it selects exactly the connections at the endpoint, or exactly those with one of the tags, or all of them. |
| `AgentRuntime.Agent.Close` | src/zentropi/agent.py:160-172 | On ValueError nothing is closed. Otherwise `close()` is called on exactly the selected connections, in registry order. |
| `AgentRuntime.Agent.OnShouldStop` | src/zentropi/agent.py:33-37 | `close()` runs, on all connections, only when the previous value was false and the new one true. The handler always returns True. |
| `AgentRuntime.Agent.SetShouldStop` | src/zentropi/agent.py:133 | Assigning `should_stop` closes the connections exactly on the false-to-true edge. |
| `AgentRuntime.Agent.Stop` | src/zentropi/agent.py:131-134 | Emits `'*** stopping'` and sets both stop flags. The connections are closed only if the agent was not already stopping. |
| `AgentRuntime.StopTwice` | src/zentropi/agent.py:131-134 | Two `stop()` calls close the connections once and emit `'*** stopping'` twice. |
| `AgentRuntime.Agent.RunForever` | src/zentropi/agent.py:39-48 | The queued coroutines are all spawned, each once, and the queue is dropped only when it was non-empty. Then `'*** started'` is emitted, the loop polls until `should_stop`, and `'*** stopped'` is emitted. |
| `AgentRuntime.Agent.DrainSpawnQueue` | src/zentropi/agent.py:41-43 | A non-empty queue becomes tasks, as a permutation of the queued set, and is set to None. An empty or dropped queue is left alone. |
| `AgentRuntime.Agent.WaitForStop` | src/zentropi/agent.py:46-47 | The loop ends exactly when `should_stop` is set. It polls zero times if the flag is already set. |
| `Utils.DeflateDict` | src/zentropi/utils.py:78-79 | Keeps exactly the entries whose value is truthy, with their values unchanged. |
| `Utils.DeflateDictIdempotent` | src/zentropi/utils.py:78-79 | Deflating twice equals deflating once. |
| `Utils.ValidateHandler` | src/zentropi/utils.py:82-90 | None passes through and a Handler is returned. Anything else raises ValueError. |
| `Utils.ValidateName` | src/zentropi/utils.py:93-104 | None gives None. A non-string, an empty or all-whitespace string, or one longer than the maximum raises ValueError. Any other name is returned unchanged, not stripped. |
| `Utils.ValidateNameIdempotent` | src/zentropi/utils.py:93-104 | A validated name validates to itself. |
| `Utils.Strip` | src/zentropi/utils.py:98 | `strip()` leaves no whitespace at either edge and is empty iff the name is all whitespace. |
| `Utils.StripWindow` | src/zentropi/utils.py:98 | `strip()` returns the contiguous text of the input that starts where its leading whitespace ends; only whitespace follows that text in the input. |
| `Utils.ValidateKind` | src/zentropi/utils.py:107-117 | None gives UNSET. An int is looked up by value and raises ValueError when unknown. A member is returned. Anything else raises ValueError. |
| `Utils.ValidateData` | src/zentropi/utils.py:120-129 | Falsy input gives an empty FrameData. A dict or FrameData whose serialised size is below 10240 is wrapped with its mapping unchanged. Anything else fails the assertion. |
| `Utils.ValidateDataIdempotent` | src/zentropi/utils.py:120-129 | Validated data, passed again as a FrameData, validates to itself. |
| `Utils.ValidateMeta` | src/zentropi/utils.py:132-137 | None gives `{}`. A dict whose serialised size is below 512 is returned as it is. Anything else fails the assertion. |
| `Utils.ValidateId` | src/zentropi/utils.py:140-144 | None passes and a string is returned unchanged. Anything else fails the assertion. |
| `Utils.ValidateEndpoint` | src/zentropi/utils.py:147-152 | A non-string raises ValueError. A string comes back as the lower-cased text of the input that starts where its leading whitespace ends and has only whitespace after it, with no edge whitespace and no upper-case letter, and is empty iff the input was all whitespace. |
| `Utils.LowerWindow` | src/zentropi/utils.py:151 | Lower-casing a window of the input that has only whitespace around it gives the lower-cased input text at the same place. |
| `Utils.StripNoop` | src/zentropi/utils.py:151 | Stripping a string without edge whitespace changes nothing. |
| `Utils.LowerFacts` | src/zentropi/utils.py:151 | Lower-casing leaves no upper-case letter, maps whitespace to whitespace and non-whitespace to non-whitespace at every position, and changes nothing in a string without upper-case letters. |
| `Utils.ValidateEndpointIdempotent` | src/zentropi/utils.py:147-152 | A normalised endpoint normalises to itself. |
| `Utils.ValidateSpace` | src/zentropi/utils.py:155-159 | A string is returned unchanged. Anything else raises ValueError. |
| `Utils.ValidateAuth` | src/zentropi/utils.py:162-167 | None passes and a string is returned unchanged. Anything else raises AssertionError. |
| `Utils.PassThroughValidatorsIdempotent` | src/zentropi/utils.py:140-167 | Validating a validated id, space or auth again gives the same result. |
| `Orchestration.RunAgents` | src/zentropi/utils.py:170-232 | The endpoint is validated first and then the space. No agents gives an empty plan. Any non-Agent raises ValueError. Otherwise the plan is exactly `WiringActions` and `WiringStops` for the agent count, with the shell counted when requested. |
| `Orchestration.CheckAgents` | src/zentropi/utils.py:180-182 | The check passes iff every argument is an Agent. |
| `Orchestration.Wire` | src/zentropi/utils.py:189-220 | The calls made and the stop list equal the reference plan. |
| `Orchestration.ConnectBlockMembers` | src/zentropi/utils.py:213-216 | The connect loop makes exactly the start, connect and join calls of the connect agents. |
| `Orchestration.WiringRunsLastOnly` | src/zentropi/utils.py:189-232 | The last call is `Run` of the last agent, and no earlier call runs an agent. |
| `Orchestration.WiringBindsFirstIffInMemory` | src/zentropi/utils.py:204-209 | An agent binds iff there are two or more agents, the endpoint is `inmemory://`, and it is the first agent. |
| `Orchestration.WiringEveryAgentJoins` | src/zentropi/utils.py:189-219 | Every agent joins. Every agent connects except the binding first agent in `inmemory://` mode. |
| `Orchestration.WiringConnectAgentOrder` | src/zentropi/utils.py:213-216 | Each connect agent starts, connects and joins in three consecutive calls, at its place in the order. |
| `Orchestration.WiringStopsConnectAgents` | src/zentropi/utils.py:222-226 | The stopping handler stops exactly the connect agents: never the last agent, and never the first agent in `inmemory://` mode. |
| `Orchestration.ExitOtherAgents` | src/zentropi/utils.py:222-229 | `stop()` is called on every connect agent in order. An agent whose stop raises is reported and the loop goes on. |
| `Connections.Connection.constructor` | src/zentropi/connections/connection.py:8-10 | A new connection is not connected and has no endpoint. |
| `Connections.Connection.Connected` | src/zentropi/connections/connection.py:12-14 | Reads the connected flag and changes nothing. |
| `Connections.Connection.Endpoint` | src/zentropi/connections/connection.py:16-18 | Reads the endpoint and changes nothing. |
| `Connections.FreshConnectionState` | src/zentropi/connections/connection.py:8-18 | The accessors of a fresh connection report not connected and no endpoint. |
| `Connections.Connection.Connect` | src/zentropi/connections/connection.py:20-21 | On the base, connect raises NotImplementedError. |
| `Connections.Connection.Bind` | src/zentropi/connections/connection.py:23-24 | On the base, bind raises NotImplementedError. |
| `Connections.Connection.Close` | src/zentropi/connections/connection.py:26-27 | On the base, close raises NotImplementedError. |
| `Connections.Connection.Broadcast` | src/zentropi/connections/connection.py:29-30 | On the base, broadcast raises NotImplementedError. |
| `Connections.Connection.Join` | src/zentropi/connections/connection.py:32-33 | On the base, join raises NotImplementedError. |
| `Connections.Connection.Leave` | src/zentropi/connections/connection.py:35-36 | On the base, leave raises NotImplementedError. |
| `Connections.Connection.Spaces` | src/zentropi/connections/connection.py:38-39 | On the base, spaces raises NotImplementedError. |
| `Connections.Connection.Agents` | src/zentropi/connections/connection.py:41-42 | On the base, agents raises NotImplementedError. |
| `Connections.Connection.Describe` | src/zentropi/connections/connection.py:44-45 | On the base, describe raises NotImplementedError. |
| `Redis.RedisConnection.constructor` | src/zentropi/connections/redis_connection.py:24-32 | A new connection has no clients, no channel, no listener, no spaces, no auth and no endpoint, and is not connected. |
| `Redis.RedisConnection.Connect` | src/zentropi/connections/redis_connection.py:51-66 | The auth is stored before the remaining checks. Then come "already connected" (ConnectionError), the scheme (ValueError) and the host:port split, in the order of `ConnectTarget`; a refusal leaves both clients as they were. Once all pass, the two clients are created for that host and port and kept, and both are sent the auth. What the auth calls come to is a parameter: an error is raised with both clients kept and the connection not connected; otherwise the connection is marked connected. The endpoint is never recorded. |
| `Redis.ConnectSucceedsIff` | src/zentropi/connections/redis_connection.py:51-66 | connect succeeds iff the connection is not yet connected, the endpoint is a string, the auth is None or a string, and the normalised endpoint starts with `redis://` and holds exactly one `:` once the scheme is removed. The host and port are then the text on either side of it. |
| `Redis.SecondConnectRefused` | src/zentropi/connections/redis_connection.py:56-57 | On a connected connection, the "already connected" check comes before the scheme check, whatever the endpoint. |
| `Redis.StoredAuthIff` | src/zentropi/connections/redis_connection.py:52-54 | The auth is stored, as given, iff the endpoint is a string and the auth is None or a string. |
| `Redis.RefusedConnectStoresAuth` | src/zentropi/connections/redis_connection.py:52-57 | A connect refused as "already connected" has still stored the auth. |
| `Redis.ConnectErrors` | src/zentropi/connections/redis_connection.py:52-61 | Every refusal of connect is a ValueError, an AssertionError or a ConnectionError. |
| `Redis.HostPort` | src/zentropi/connections/redis_connection.py:61 | A failed split is a ValueError. |
| `Redis.HostPortCorrect` | src/zentropi/connections/redis_connection.py:61 | The split succeeds iff exactly one `:` is left once `redis://` is removed, and then host `:` port is that text. |
| `Redis.HostPortRoundTrip` | src/zentropi/connections/redis_connection.py:61 | `redis://host:port` gives back that host and port. |
| `Redis.WellFormedConnects` | src/zentropi/connections/redis_connection.py:51-61 | A first connect to a well-formed `redis://host:port` endpoint succeeds for that host and port. |
| `Redis.NormalisedEndpoint` | src/zentropi/connections/redis_connection.py:52 | An endpoint with no edge whitespace and no upper-case letter is its own normal form. |
| `Redis.RedisConnection.BindAsWritten` | src/zentropi/connections/redis_connection.py:48-49 | bind as written changes nothing: the connect coroutine it creates is never awaited. |
| `Redis.BindAsWrittenDoesNotConnect` | src/zentropi/connections/redis_connection.py:48-49 | bind as written leaves a fresh connection disconnected, even on an endpoint that connect accepts. |
| `Redis.RedisConnection.Bind` | src/zentropi/connections/redis_connection.py:48-49 | bind as intended does what connect does with no auth: the same refusals, the same two clients, auth None, and connected exactly when the auth calls succeed. |
| `Redis.BindConnects` | src/zentropi/connections/redis_connection.py:48-49 | The intended bind creates both clients of a fresh connection for a well-formed endpoint's host and port, with no auth, and connects it exactly when the auth calls succeed. |
| `Redis.RedisConnection.Reconnect` | src/zentropi/connections/redis_connection.py:68-79 | It polls at most 100 times while not connected. Then its subscribe call names exactly the current space set. It closes the previous channel and cancels the previous listener, each only if present, installs the kept channel and spawns exactly one listener over it: the next task when the agent has a loop, a queued coroutine otherwise. `subscribe` returns one channel per space and only the first is kept, so the listener hears one space of the set. Without a subscriber client it raises AttributeError, and with an empty space set it raises TypeError; either way the channel, the listener, the logs and the agent's tasks and queue are unchanged. |
| `Redis.ForwardedFrames` | src/zentropi/connections/redis_connection.py:35-46 | The forwarded frames are the decoded incoming messages in arrival order, up to the first empty message, and nothing at all when disconnected. |
| `Redis.RedisConnection.Listen` | src/zentropi/connections/redis_connection.py:35-46 | The listener hands the agent exactly `ForwardedFrames` of the incoming stream. |
| `Redis.RedisConnection.Join` | src/zentropi/connections/redis_connection.py:91-95 | A name that `validate_name` rejects raises ValueError and leaves the space set, the channel, the listener, the logs and the agent's tasks and queue unchanged. A valid name is added and the connection reconnects as `Reconnect` states: the subscribe call names the new set, the old channel and listener are closed and cancelled, and one listener over the kept channel is spawned. Without a subscriber client it raises AttributeError and changes nothing but the set. |
| `Redis.RedisConnection.AddSpace` | src/zentropi/connections/redis_connection.py:94-95 | The space is added to the set, then the connection reconnects as `Reconnect` states; without a subscriber client it raises AttributeError and changes nothing else. |
| `Redis.RedisConnection.Leave` | src/zentropi/connections/redis_connection.py:97-100 | An invalid name raises ValueError, and a name not joined raises KeyError; both change nothing: not the set, the channel, the listener, the logs or the agent's tasks and queue. Otherwise the name is removed, even when the resubscribe then fails: with no space left it raises TypeError, and without a subscriber client AttributeError, and either way the channel, listener, logs, tasks and queue are unchanged. When spaces remain the connection reconnects as `Reconnect` states, its subscribe call naming exactly them. |
| `Redis.RedisConnection.RemoveSpace` | src/zentropi/connections/redis_connection.py:99-100 | The space is removed from the set, then the connection reconnects as `Reconnect` states; an empty remaining set raises TypeError, a missing subscriber AttributeError, and either leaves everything but the set unchanged. |
| `Redis.JoinThenLeave` | src/zentropi/connections/redis_connection.py:91-100 | Joining and then leaving a new space restores the space set. When other spaces were joined, the last subscribe call names exactly that set, join's channel is closed and its listener cancelled, the listened space is one of the old set, and exactly two listeners were spawned (as tasks with a loop, queued otherwise). When none were, leave raises TypeError and join's channel and listener stay current, listening to the space that was left, with only join's listener spawned. |
| `Redis.JoinThenLeaveOnly` | src/zentropi/connections/redis_connection.py:91-100 | With no space joined before, join then leave ends with leave's TypeError, join's channel and listener current, and the logs, tasks and queue as join left them. |
| `Redis.JoinThenLeaveAmongOthers` | src/zentropi/connections/redis_connection.py:91-100 | With other spaces joined, join then leave both pass; the logs record two subscribe calls, the old set with the space and then the old set, join's channel closed, and both listeners spawned: as tasks with a loop, where join's listener is then cancelled after any earlier one, and queued otherwise, where only an earlier listener is cancelled. |
| `Redis.RedisConnection.Spaces` | src/zentropi/connections/redis_connection.py:102-103 | Returns every joined space exactly once. |
| `Redis.RedisConnection.Broadcast` | src/zentropi/connections/redis_connection.py:105-113 | Without a publisher nothing is published. A frame with a space is published once, to that space. Otherwise the frame is published once to each joined space and to nothing else. |
| `Redis.EachSpaceOnceCovers` | src/zentropi/connections/redis_connection.py:108-113 | A broadcast to the joined spaces reaches every one of them. |
| `Redis.RedisConnection.Close` | src/zentropi/connections/redis_connection.py:81-89 | It cancels the listener and closes the channel and both clients, each only if present. The connected flag and the spaces are not changed. |
| `Redis.RedisConnection.Endpoint` | src/zentropi/connections/redis_connection.py:30 | The endpoint is the base's field, which connect never sets. |

## Left out

- Logging (`log_to_stream`), gettext (`i18n_wrapper`), the interactive shell and its history file: these are I/O.
- The JSON serialisation behind the size checks of `validate_data` and `validate_meta`. It is a parameter `size` giving the length of the JSON text.
- `FRAME_NAME_MAX_LENGTH` lives in a defaults module that is not part of this model. It is a parameter `maxLength`.
- The KINDS enumeration's value table is not part of this model. `ValidateKind` takes it as a parameter. For a non-member, the model takes the ValueError path; some Python versions raise TypeError from the `in` test instead.
- `FrameData` truthiness is not part of this model: a FrameData argument is taken to be truthy. An empty one validates to an empty FrameData either way.
- Utils.ValidateEndpoint: lower-casing covers ASCII letters only; Unicode case mapping is not modelled.
- The Bloom filter's false positives, which can drop a new frame. The seen set is exact; its drops are a subset of the filter's.
- Frames, handlers, `apply_filters`, `handle_return`, `emit` and `Frame.from_dict` are not part of this model. Filters are a boolean per trigger. `handle_return` and `from_dict` are function parameters. `emit` is a log of lifecycle event names.
- The handler registry of the Zentropian base class is not part of this model. `AddHandler` appends to a sequence, and the timer registry is a map from interval key to handlers.
- `TimerRegistry.start_timers` and timer firing: the timer registry is not part of this model.
- Timer intervals are whole numbers: `str()` of a float interval is not modelled.
- AgentRuntime.Agent.RunForever: the coroutine that sets `should_stop` is modelled as a `stop()` during poll number `stopAfter`. The one-second sleeps are left out.
- The `on_state('should_stop')` machinery is not part of this model. Assigning the flag calls the state handler directly with the previous and new values.
- The agent's connection registry is not part of this model. Entries are (id, endpoint, tag); "by endpoint" means an equal endpoint, and "by tags" means a tag in the list.
- The coroutine wrappers in `Agent.connect`/`bind`/`join`/`leave` depend on return types that are not part of this model.
- `start`, `run`, `sleep`, `spawn_in_thread` and `run_in_thread`: event-loop and thread plumbing.
- `run_agents`' `loop` argument, `KeyboardInterrupt` handling and traceback printing. The plan records the calls, not their effects on the agents.
- The aioredis calls (`create_redis`, `auth`, `subscribe`, `publish_json`, `wait_message`, `get_json`): clients and channels are handles passed in, and the stream is a given sequence.
- Redis.RedisConnection.Connect: which auth values the client library and the server refuse (including whether `auth(None)` raises) is not modelled; what the two `auth` calls come to is the parameter `authReply`, and a refusal there is raised with both clients kept and the connection not connected.
- Redis.RedisConnection.Reconnect: the client library may hand back the channel it already holds for a space name, so the kept channel can be the very one just closed; the model treats `channel` as any handle and does not model the client's accumulated subscriptions.
- Redis.RedisConnection.Reconnect: which space's channel comes first depends on the set's iteration order; the model says only that it is one of the joined spaces.
- AgentRuntime.Coro: coroutines are values, so two equal coroutines queued before a loop exists collapse into one entry of the queue set, where Python keeps two distinct coroutine objects.
- Redis.RedisConnection.Join: the space is typed as a string, so `validate_name(None)` letting None into the set is not modelled.
- Redis.RedisConnection.Leave: the space is typed as a string, so leaving None is not modelled.
- Subclassing: `RedisConnection` holds its `Connection` base as a field rather than inheriting from it.
- `_connected` is never set false by the code, so the listener's disconnect check is constant during one run.
- The concurrent interleaving of listener tasks, reconnect cycles and handlers: each method runs to completion.

## Findings

| source | as written | input that shows it | evidently intended | confidence | as-written member | corrected member |
|---|---|---|---|---|---|---|
| src/zentropi/connections/redis_connection.py:48-49 | `bind` calls the coroutine function `connect` without awaiting it, so the coroutine never runs and the connection stays disconnected | `bind('redis://localhost:6379')` on a fresh connection | `bind` connects like `connect` without auth | high; not executed | `Redis.BindAsWrittenDoesNotConnect` | `Redis.BindConnects` |
