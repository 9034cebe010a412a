# Growth containers of a memory-leak harness, modelled in Dafny

The repository is a set of scripts that leak memory on purpose, so that
memory-monitoring tools have something to watch. They do it by filling
containers that are never cleared. This project models the two scripts that
have statable behaviour:

- `leak.py` (module `Leak`, file `leak.dfy`). It has a data processor, a
  connection manager, event listeners and the `MemoryLeakSimulator` that
  drives them. Each Python class whose fields are updated in place is a Dafny
  `class` with `seq` and `map` fields. Its methods have `modifies` clauses.
  Their `ensures` relate every container they write to its old contents, and
  describe each object they create, position by position, through its fields.
  The module-level `GLOBAL_CACHE` and `EVENT_LISTENERS` are the fields of a
  `Globals` object that is passed to the methods that write them.
- `teste_vscode.py` (module `TesteVscode`, file `teste_vscode.dfy`). It has a
  pure squaring function `process_data`, and a `main` whose loop appends
  every processed chunk to the global `leak_list`.

The property that runs through the whole model is that every container is
append-only. The postconditions state this in one of these shapes:

- a list field is `old(field) + added`, where `added` is given by a
  specification function (`BatchTemps`, `ProcessAll`, `FannedOut`, a
  parameter);
- a list field keeps `old(field)` as its prefix and grows by a stated count,
  and each new position holds a fresh object whose fields are given (the
  listener, worker and connection lists);
- a dictionary field is `old(field) + entries` or `old(field)[key := value]`,
  or, for the active connections after many stores, the fold
  `Registered(old(field), ids, connections)` of those single stores;
- a buffer is `old(buffer) + [item]`.

The lemmas `RegisteredKeys`, `RegisteredUntouched` and `RegisteredLast`
read the fold. Its keys are the old keys plus the stored ids. An id that is
not stored keeps its old object. An id holds the connection from its last
store.

So no entry is ever removed, and sizes never decrease. The lemmas
`BatchGrowth` and `MergeSize` state the size consequence for the dictionaries.
A dictionary entry can still be replaced by a new value under the same key:
`create_connection` does this with a reused id, and the model keeps it.

Generated content is opaque. Random strings, float matrices and nested
dictionaries are `Blob` values, and clock readings are `Stamp` values. The
values that the environment would produce (time, randomness) are parameters
of the methods that use them. The record id `f"record_{timestamp}_{i}"` is
the value `RecordId(stamp, i)`. It is distinct for distinct `i` because the
index is the suffix after the last underscore.

The listener callback is always `lambda event: self._handle_event(event)`
in the source, so an `EventListener` keeps a reference to its owning
simulator, and `HandleEvent` calls the owner's `HandleEvent`.

Python's `range(n)` runs zero times for a negative `n`. `Iterations(n)`
models this, so a negative batch size, worker count or connection count
inserts nothing.

## Model

| member | source | states |
|---|---|---|
| `TesteVscode.ProcessData` | teste_vscode.py:5-8 | the result has the input's length, and element k is the square of input element k |
| `TesteVscode.Range` | teste_vscode.py:12 | `list(range(n))` has n elements, and element i is i |
| `TesteVscode.ProcessAll` | teste_vscode.py:14-22 | processing chunks in order gives one entry per chunk; entry i has chunk i's length and holds the squares of chunk i |
| `TesteVscode.MainEntries` | teste_vscode.py:12-22 | `main` produces exactly 100 entries; each has 1000 elements, and element j of each is j*j |
| `TesteVscode.Globals.constructor` | teste_vscode.py:3 | `leak_list` starts empty |
| `TesteVscode.AppendProcessed` | teste_vscode.py:14-22 | the loop of `main` over any chunk list: `leak_list` becomes its old contents followed by the processed chunks in chunk order |
| `TesteVscode.RunMain` | teste_vscode.py:10-22 | `leak_list` becomes its old contents followed by the processed chunks in chunk order, 100 entries longer |
| `Leak.NatToString` | leak.py:210 | the rendering of an index is a non-empty string of decimal digits |
| `Leak.NatToStringRoundTrip` | leak.py:210 | reading the decimal rendering of n back gives n |
| `Leak.IndexedNamesDistinct` | leak.py:208-210 | names made from one prefix and distinct indices are distinct, so within one call the listener names (or the worker names) are pairwise distinct |
| `Leak.ListenerNames` | leak.py:208-210 | the five listener names are exactly `listener_0` .. `listener_4` |
| `Leak.BatchMapKeys` | leak.py:70-87 | the ids a batch stores are exactly the ids built from its indices 0 .. n-1 |
| `Leak.BatchMapAt` | leak.py:72-87 | every id generated in iteration i maps to the record generated in that iteration (id, timestamp, data, metadata "processed") |
| `Leak.BatchMapSize` | leak.py:70-72 | a batch of n iterations stores n distinct ids |
| `Leak.MergeSize` | leak.py:84-87 | storing entries into a dictionary never shrinks it; with keys not already present it grows by exactly their number |
| `Leak.BatchGrowth` | leak.py:84-87 | `GLOBAL_CACHE` and `processed_records` never shrink under a batch, and grow by exactly n when the batch ids are new |
| `Leak.BatchTempsShape` | leak.py:108-121 | a batch of n iterations appends exactly 100*n temporary objects; position k holds the id and data of the record of iteration k / 100 |
| `Leak.FannedOut` | leak.py:274-280 | one wrapped event per fired event, in firing order; each wraps the fired `data_event` |
| `Leak.Messages` | leak.py:243-249 | message j of a connection has `message_id` j, its payload, and metadata size 2000 and type "simulation" |
| `Leak.Globals.constructor` | leak.py:29-30 | `GLOBAL_CACHE` and `EVENT_LISTENERS` start empty |
| `Leak.RegisteredKeys` | leak.py:130-143 | after a run of `create_connection` stores, the active ids are the old ones plus the stored ids |
| `Leak.RegisteredUntouched` | leak.py:130-143 | an active id that no store in the run uses keeps its old connection object |
| `Leak.RegisteredLast` | leak.py:130-143 | an id stored for the last time at position i of the run maps to connection i, the one created by that store |
| `Leak.DataProcessor.constructor` | leak.py:60-64 | a new processor's record map, temp-file list and data list are empty |
| `Leak.DataProcessor.ProcessDataBatch` | leak.py:66-93 | `processed_records` and `GLOBAL_CACHE` both gain the batch's records under their ids; `memory_intensive_data` gains the n payloads in order; `temp_files` gains the batch's 100*n temporary objects; `EVENT_LISTENERS` is unchanged |
| `Leak.DataProcessor.SimulateProcessing` | leak.py:108-121 | `temp_files` gains exactly 100 objects, each with the record's id and data; nothing else changes |
| `Leak.Connection.constructor` | leak.py:132-137 | a new connection has the given id and creation time, an empty buffer and status "active" |
| `Leak.ConnectionManager.constructor` | leak.py:126-128 | no active connections and an empty history |
| `Leak.ConnectionManager.CreateConnection` | leak.py:130-143 | returns a fresh connection with the given id, an empty buffer and status "active"; stores that same object under the id, replacing any earlier one there; appends it to the history, which keeps the earlier one too; every active connection stays in the history under its own id |
| `Leak.ConnectionManager.SendData` | leak.py:145-149 | if the id is active, its connection's buffer gains `data` at the end; an unknown id changes nothing; no other connection's buffer changes |
| `Leak.EventListener.constructor` | leak.py:48-51 | a new listener has its name, its callback's owner and an empty buffer |
| `Leak.EventListener.HandleEvent` | leak.py:53-55 | the raw event is appended to its own buffer before the callback runs; the callback then appends one wrapped event to each of the owner's listeners, this one included if it is among them |
| `Leak.BackgroundWorker.constructor` | leak.py:154-156 | a new worker has its name and is running |
| `Leak.MemoryLeakSimulator.constructor` | leak.py:199-204 | fresh, empty processor and connection manager; no workers and no listeners; running |
| `Leak.MemoryLeakSimulator.SetupEventListeners` | leak.py:206-214 | appends exactly 5 fresh listeners `listener_0` .. `listener_4` with empty buffers, in that order, to the simulator's list, and the same 5 to `EVENT_LISTENERS`; their names are pairwise distinct; every listener in the list afterwards is an old one or a fresh one |
| `Leak.MemoryLeakSimulator.HandleEvent` | leak.py:216-227 | every listener of the simulator gets exactly one wrapped event, holding the original event, at the end of its buffer |
| `Leak.MemoryLeakSimulator.StartBackgroundWorkers` | leak.py:229-234 | appends exactly max(0, n) fresh running workers `worker_0`, `worker_1`, ... in order; their names are pairwise distinct; every worker in the list afterwards is an old one or a fresh one |
| `Leak.MemoryLeakSimulator.OpenConnection` | leak.py:239-249 | one loop pass: a fresh connection with the id, creation time and status "active", holding exactly the pass's 50 messages in order; the active map stores it under its id; the history gains it at the end |
| `Leak.MemoryLeakSimulator.SimulateConnections` | leak.py:236-249 | the history keeps its old entries and gains one fresh connection per iteration, in order. Connection i has id i, creation time i, status "active" and exactly its own 50 messages, even when an id is reused. The active map is the old one with the new connections stored in order (`Registered`). Its keys are the old keys plus the new ids |
| `Leak.MemoryLeakSimulator.OpenConnections` | leak.py:239-249 | the same loop, with the opened connections as a ghost sequence: the history is the old one followed by them; the active map is `Registered` over them |
| `Leak.MemoryLeakSimulator.RunIteration` | leak.py:263-286 | one loop iteration: the batch effects of `process_data_batch`; everything `simulate_connections` guarantees about the history entries (fresh, id, creation time, status, their own 50 messages) and about the active map (`Registered`, keys); every listener buffer gains the wrapped fired events in order |
| `Leak.MemoryLeakSimulator.Stop` | leak.py:308-312 | `running` is false and every worker's `is_running` is false; the worker and listener lists are unchanged, and no container is written |

## Left out

- `BackgroundWorker._work_loop`, `_process_work`, `start` and `THREAD_POOL` (leak.py:161-194): these are unjoined threads with unsynchronised writes, and the model has no concurrency. A worker keeps only its name and its `is_running` flag.
- `Leak.MemoryLeakSimulator.StartBackgroundWorkers`: models only the creation and registration of workers, not the thread start or the `THREAD_POOL` append, because the threads are not modelled.
- `run_simulation`'s wall-clock loop, its random counts and its sleeps (leak.py:251-288), and leak.py's `main` (leak.py:314-325): these depend on real time. `RunIteration` models one iteration, and the random counts there are the lengths of its parameters.
- `_generate_large_data`, the random payload strings and the `random.random()` lists (leak.py:95-106, leak.py:244-248, leak.py:275-279): these depend on randomness, and their values are opaque `Blob` parameters.
- `datetime.now()` and `time.time()`: clock readings are opaque `Stamp` parameters. A record's id and its `timestamp` field use the same reading, although the source calls the clock twice.
- The `processing_time` field of each temporary object (leak.py:116): it is one clock reading per object, and `TempObject` leaves it out.
- `metadata["size"] = len(str(large_data))` (leak.py:80): it depends on Python's text rendering of nested floats.
- `_log_memory_usage` (leak.py:290-306): it is operating-system inspection and logging.
- `DataRecord.__post_init__`'s `parent`/`children` fields (leak.py:41-44): they exist only to create reference cycles, and nothing reads them.
- `DataProcessor.connections` (leak.py:63): nothing writes or reads it.
- teste.py and teste4.py: these are endless append-and-sleep loops with nothing that terminates to specify.
- The `print` in teste_vscode.py (teste_vscode.py:19): it is output only.
- Three small departures from the source's interface. First, `send_data` takes `data: Any` in the source (leak.py:145). `SendData` takes a `Message`, which is the only kind of value the source ever passes. Second, the `logger.info` calls at leak.py:68, 253, 265 and 288 are dropped, because they are output only. Third, the defaults `batch_size=1000`, `num_workers=3` and `num_connections=10` (leak.py:66, 229, 236) are parameters every caller must supply.
- Record ids are modelled as `RecordId(stamp, index)` values, not as the formatted strings. Two ids are equal exactly when their stamps and indices are equal.
