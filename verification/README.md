# Streaming layer of Quant-Terminal, in Dafny

This project models the streaming layer of the Quant-Terminal server (`server/classes/streams/base.py`). It has two classes.

- **`ConnectionManager`** is the registry of subscriber sockets, kept as an ordered list.
  - `connect` registers a socket.
  - `disconnect` removes a socket's first registration.
  - `send_data` broadcasts one payload by walking the list by position. It disconnects every socket whose send raises.
- **`Stream`** drives one data source. Its `run` loop works like this:
  - It opens the source's stream: a polling stream for a REST source, a push stream for a WebSocket source, and `NotImplementedError` for anything else.
  - It hands every item to `process_data`. That method broadcasts the item and then, when storage is configured, calls `save_data`, which writes `data.json` for local or cloud storage.
  - After each item it runs `check_health_periodically`. This probes the source once more than `health_check_interval` seconds have passed since the last check, and calls `retry` when the probe says unhealthy. A probe that raises skips the recording of the check time, and the run loop's handler catches its exception.
  - Any exception in the loop body is caught, and the handler calls `retry`. `retry` sleeps for `retry_delay`, then calls the source's `connect`.

Modules:

- `Sequences` (`sequences.dfy`): order-preserving sub-lists (`IsSubsequence`) and lists without repeats (`Distinct`).
- `Connections` (`connections.dfy`): the registry.
  - The specification functions are `Removed` (one `disconnect`, defined recursively and proved equal to the find-then-close-the-gap of `list.remove`) and `Sweep` (the broadcast walk, exactly as Python iterates a list it shrinks). `Reference` is an independent, positional description of the same pass for lists without repeated sockets.
  - `ConnectionManager` is a class whose field `activeConnections` the methods reassign. `SendData` is a `while` loop over an index, proved equal to `Sweep`.
- `Streams` (`streams.dfy`): the stream.
  - `Stream` is a class. Its constant fields are the configuration; its mutable fields are `running` and `lastHealthCheck`, plus a `log` of the effects the stream has on the outside world.
  - Each method is proved equal to a pure function of the old state (`Retried`, `HealthGate`, `Saved`, `Processed`, `TicksRun`, `SessionBody`, `SessionRun`, `RunTrace`). The run-loop properties are proved as lemmas about those functions.

The outside world is an input. That covers:

- the outcome of each socket's send (`SendOutcome`);
- the clock reading, whether the health probe answers healthy, answers unhealthy or raises (`Probe`), and whether each reconnect succeeds (`Tick`);
- how the source's stream ends, and whether `stop()` was called by another task during a pass (`Session`).

A source has a `connect` exactly when the source is a WebSocket source. `RESTDataSource` (`server/classes/data_sources/base.py:8-30`) and the abstract `DataSource` (`server/classes/base.py:3-13`) define no `connect`. So for every other source, `retry` raises `AttributeError` from inside the exception handler, and that ends the run loop with `running` still set. `HasConnect` captures this, and `RunWithoutConnectEndsAtFirstRetry` and `UnsupportedSourceEndsFirstPass` state the consequence.

The code has none of the following, and the model follows the code:

- No idempotent `connect`: a registered socket is appended again (`DuplicateSurvivesOneDisconnect`).
- No broadcast over a snapshot of the list: `send_data` walks the live list, so the socket right after a failed one is skipped in that pass (`ReferenceSkipsNext`).
- No retry counter, retry limit or give-up state. A WebSocket source whose reconnects succeed is retried forever (`PushSourceRetriesWithoutLimit`).
- No send timeout and no subscriber filter.
- No interruption by `stop`: it is observed only when the loop condition is next tested, not during a pass or the sleep of a retry.
- No recording of the check time when the health gate's `retry` raises, because line 62 is then never reached.

## Model

| member | source | states |
|---|---|---|
| Connections.FirstIndex | server/classes/streams/base.py:83-84 | The index found holds the socket, and no earlier entry does: `list.remove` acts on the first occurrence. |
| Connections.Removed | server/classes/streams/base.py:82-84 | Disconnecting shortens the list by exactly one when the socket is registered, and leaves its length unchanged otherwise. |
| Connections.RemovedAtFirstIndex | server/classes/streams/base.py:83-84 | For a registered socket, the recursive definition of removal equals what `list.remove` does: find the first index, then close the gap there. |
| Connections.RemovedDeletesFirstOccurrence | server/classes/streams/base.py:82-84 | An absent socket leaves the list unchanged. A present one loses exactly one registration (multiset difference). The result is an order-preserving sub-list. Everything before the first occurrence stays in place, and everything after it shifts down by one. |
| Connections.DuplicateSurvivesOneDisconnect | server/classes/streams/base.py:78-84 | `connect` has no duplicate check. A socket connected again while registered keeps all its earlier registrations after one `disconnect`, and is still registered. |
| Connections.Sweep | server/classes/streams/base.py:86-94 | The live-list walk from a position: after a failed send the socket is disconnected and the walk goes on at the next position of the shortened list. It sends to the socket at the start position first, to at most one socket per remaining position, and never lets the registry grow. |
| Connections.SweepConserves | server/classes/streams/base.py:86-94 | After a broadcast pass, the registrations left plus one per failed send equal the registrations at the start. Only sockets whose send raised lose a registration. |
| Connections.SweepIsSubsequence | server/classes/streams/base.py:86-94 | A broadcast pass only removes sockets. Survivors keep their relative order. |
| Connections.SweepKeepsDelivered | server/classes/streams/base.py:87-89 | A socket whose send succeeds keeps every one of its registrations through the pass. |
| Connections.ReferenceWithin | server/classes/streams/base.py:86-94 | In the positional description of a pass, both the surviving list and the sockets sent to are order-preserving sub-lists of the original. |
| Connections.SweepIsReference | server/classes/streams/base.py:86-94 | For a list without repeats, the live-list walk equals the positional description: a failed socket is dropped and the next one is skipped. |
| Connections.ReferenceDropsExactlyFailedSends | server/classes/streams/base.py:87-94 | For a list without repeats, a socket is still registered after the pass exactly when it was not both sent to and failed. |
| Connections.ReferenceSkipsNext | server/classes/streams/base.py:87-94 | For a list without repeats, when the socket at position i is sent to and fails, the socket originally at i+1 is not sent to in that pass and stays registered. |
| Connections.ConnectionManager.constructor | server/classes/streams/base.py:75-76 | A new registry is empty. |
| Connections.ConnectionManager.Connect | server/classes/streams/base.py:78-80 | The socket is appended at the end, and earlier entries are unchanged. |
| Connections.ConnectionManager.Disconnect | server/classes/streams/base.py:82-84 | The list becomes `Removed` of the old list, and is unchanged when the socket is absent. |
| Connections.ConnectionManager.SendData | server/classes/streams/base.py:86-94 | The index loop yields the registry and the sockets sent to that `Sweep` describes, so no send error escapes. The new list is a sub-list of the old one, and for a list without repeats the pass equals `Reference`. |
| Streams.Retried | server/classes/streams/base.py:64-66 | A retry logs a sleep of `retry_delay` and then a reconnect. It raises exactly when the source has no `connect` or the connect fails, and nothing else changes. |
| Streams.HealthGate | server/classes/streams/base.py:55-62 | Within the interval (gap less than or equal to it), nothing changes. Past it (strictly greater), the source is probed once. A probe that raises passes its exception on, with the check time not recorded. A probe that answers is retried exactly when unhealthy, and the check time is recorded unless that retry raised. `running` and the registry are untouched. |
| Streams.Saved | server/classes/streams/base.py:68-72 | Local and cloud storage log one write of the payload to `data.json`, raising exactly when the write fails. Any other storage leaves the state unchanged. |
| Streams.Processed | server/classes/streams/base.py:44-49 | The broadcast is the first new effect, and the registry becomes what the pass leaves. A write to `data.json` follows exactly for local or cloud storage. Only a failed write raises, and `running` and the check time are untouched. |
| Streams.Opened | server/classes/streams/base.py:30-35 | A REST source opens its polling stream with the stream's interval, a WebSocket source its push stream, and any other source raises the dispatch error; only the log changes, and it raises exactly for the other sources. |
| Streams.HasConnect | server/classes/data_sources/base.py:8-54 | Only the WebSocket source class defines `connect` (lines 38-39); the REST source class (lines 8-30) and the abstract base class (server/classes/base.py:3-13) do not, so `retry` at server/classes/streams/base.py:66 raises for them. |
| Streams.TicksRun | server/classes/streams/base.py:37-39 | The item loop never changes `running` and only extends the log, by at least one entry per item when nothing raises. |
| Streams.TicksBroadcastEachItem | server/classes/streams/base.py:37-38 | The payloads broadcast by the item loop are, in order, the items the source yielded: all of them when nothing raises, and otherwise a prefix of them that holds at least the first item. |
| Streams.SessionBody | server/classes/streams/base.py:29-39 | The `try` block logs the dispatch first and never changes `running`; an unsupported source handles no item; a stream that raises after its last item always reaches the handler. |
| Streams.SessionRun | server/classes/streams/base.py:29-42 | Every exception of the `try` block is caught and followed by the retry, so the log gains the sleep and the reconnect and nothing else changes. Without an exception the pass is the `try` block alone. What escapes is always the failed reconnect of the handler's retry, and `running` is kept. |
| Streams.StopIfRequested | server/classes/streams/base.py:24-28 | A `stop()` during the pass clears `running` and changes nothing else; without one the state is kept. |
| Streams.RunTrace | server/classes/streams/base.py:27-42 | A loop that is not running does nothing; the log only grows; the loop is only left by an exception through the sleep and failed reconnect of a retry. |
| Streams.TicksKeepSubscriberOrder | server/classes/streams/base.py:37-39 | Handling any number of items leaves a sub-list of the registry. |
| Streams.RunKeepsSubscriberOrder | server/classes/streams/base.py:27-42 | A whole run leaves a sub-list of the registry. |
| Streams.HealthGateWithoutConnect | server/classes/streams/base.py:55-66 | For a source without `connect`, the health gate only extends the log, and raises exactly when it logs a failed reconnect or, past the interval, its probe raises. |
| Streams.TicksWithoutConnect | server/classes/streams/base.py:37-39 | For a source without `connect`, handling items only extends the log. Without a raise, no failed reconnect is logged. |
| Streams.SessionWithoutConnect | server/classes/streams/base.py:29-42 | For a source without `connect`, one pass of the loop body escapes with an exception exactly when it logged a failed reconnect. |
| Streams.RunWithoutConnectEndsAtFirstRetry | server/classes/streams/base.py:27-42 | For a source without `connect`, a run ends by an exception exactly when a failed reconnect was logged, so the first retry of any kind ends the run. |
| Streams.UnsupportedSourceEndsFirstPass | server/classes/streams/base.py:30-42 | An unsupported source logs the dispatch error, one sleep and a failed reconnect. The run then ends by an exception, with the registry untouched and `running` still set unless stop was requested. |
| Streams.RunEndsAtStop | server/classes/streams/base.py:24-28 | No pass after the first one during which `stop()` was called ever runs. A run that started ends not running, unless an exception ended it. |
| Streams.TicksReliableNeverRaise | server/classes/streams/base.py:37-39 | With a WebSocket source whose writes succeed, whose probes answer and whose reconnects succeed, handling items never raises and leaves `running` as it was. |
| Streams.PushSourceRetriesWithoutLimit | server/classes/streams/base.py:27-42 | A WebSocket source whose handler reconnects succeed never leaves the run loop by an exception, whatever fails inside a pass: the source, a write, a probe or a health-gate reconnect. It stops running exactly when stop was requested. |
| Streams.Stream.constructor | server/classes/streams/base.py:10-18 | A new stream is not running. Its health interval is 60 s, its retry delay is 5 s and its last check time is 0, with the given source, registry, storage and interval. |
| Streams.Stream.Start | server/classes/streams/base.py:20-22 | Sets `running` and changes nothing else. |
| Streams.Stream.Stop | server/classes/streams/base.py:24-25 | Clears `running` and changes nothing else. |
| Streams.Stream.Retry | server/classes/streams/base.py:64-66 | The new state and the exception are those of `Retried`. |
| Streams.Stream.CheckHealthPeriodically | server/classes/streams/base.py:55-62 | The new state and the exception are those of `HealthGate`, a probe that raises included. |
| Streams.Stream.SaveData | server/classes/streams/base.py:68-72 | The new state and the exception are those of `Saved`. |
| Streams.Stream.ProcessData | server/classes/streams/base.py:44-49 | The new state, including the registry after the broadcast, and the exception are those of `Processed`. |
| Streams.Stream.HandleItems | server/classes/streams/base.py:37-39 | The item loop ends in the state and with the exception of `TicksRun`. |
| Streams.Stream.RunBody | server/classes/streams/base.py:29-39 | The `try` block ends in the state and with the exception of `SessionBody`. |
| Streams.Stream.RunSession | server/classes/streams/base.py:29-42 | One pass with its handler ends as `SessionRun` says, and escapes with an exception exactly when the handler's retry raised. |
| Streams.Stream.Run | server/classes/streams/base.py:27-42 | The `while self.running` loop ends in the state, and with the exception, that `RunTrace` gives for the same passes. |

## Left out

- `websocket.accept()` in `connect` is left out. It is I/O on the socket, so a socket is registered as if the handshake succeeded.
- The JSON encoding of payloads is left out. A payload is an opaque string, and the file written holds the payload.
- The `print` diagnostics in `run`, `check_health_periodically` and `send_data` are left out.
- `asyncio.create_task` in `start` is left out, and so is concurrency in general. `Start` only sets `running`, and the caller drives `Run`. A `stop()` from another task appears as a flag on the pass during which it happened.
- The event-loop clock and the polling `interval` (`Optional[float]` at `server/classes/streams/base.py:10`) are floats in the source and integers here; the model only records the interval the REST stream is opened with.
- `Run` runs over a finite list of passes that the environment provides. A run whose source never stops yielding is the limit of longer and longer inputs.
- The data source and storage classes are represented only by their kind, plus the answers they give as inputs: send outcomes, write success, probe answers, reconnect success, and how a stream ends. The source may end its stream in ways the real REST source cannot, since that source polls forever.
- An exception inside a tick is modelled where the stream's own code can raise and where the health probe raises: a failed write, a raising `check_health` and a failed health-gate retry. Send errors cannot escape `send_data`. Errors raised by the source while it yields are modelled as the stream ending with `Raised`.
- A socket's send outcome is fixed for one broadcast, as a function of the socket, so two registrations of one socket fail or succeed together within one pass.
- The first `save_data` (`server/classes/streams/base.py:51-53`) is replaced by the definition at line 68, which is the one modelled.
