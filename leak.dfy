// Model of the container layer of leak.py: every store the simulator writes
// to only ever receives insertions, and each operation inserts a fixed,
// statable amount.
module Leak {

  /** Generated content the program never inspects (random strings, float
      matrices, nested dictionaries): an opaque value. */
  datatype Blob = Blob(seed: nat)

  /** A reading of the clock (`datetime.now()`, `time.time()`): opaque. */
  datatype Stamp = Stamp(ticks: int)

  /** The key `f"record_{timestamp}_{i}"`. The index is the suffix after the
      last underscore, so two ids built with different indices differ. */
  datatype RecordId = RecordId(stamp: Stamp, index: nat)

  /** The `metadata` dictionary of a record (its "size" entry is not modelled). */
  datatype Metadata = Metadata(processed: bool)

  /** `DataRecord`: never mutated after construction, so a value. */
  datatype DataRecord = DataRecord(id: RecordId, timestamp: Stamp, data: Blob, metadata: Metadata)

  /** One entry of `temp_files`: the record's id and a copy of its data. */
  datatype TempObject = TempObject(id: RecordId, data: Blob)

  /** The message dictionary `simulate_connections` sends through a connection. */
  datatype Message = Message(messageId: int, payload: Blob, metadataSize: int, metadataType: string)

  /** An event: either one fired by `run_simulation` (its "type" is always
      "data_event") or one wrapped by `_handle_event`. */
  datatype Event =
    | RawEvent(kind: string, timestamp: Stamp, data: Blob)
    | ProcessedEvent(original: Event, processedAt: Stamp, handlerData: Blob)

  /** What the environment supplies for one event `run_simulation` fires:
      the clock readings and the random lists it builds. */
  datatype EventInput = EventInput(timestamp: Stamp, data: Blob, processedAt: Stamp, handlerData: Blob)

  /** The event `run_simulation` fires for one input. */
  function FiredEvent(e: EventInput): Event
  {
    RawEvent("data_event", e.timestamp, e.data)
  }

  /** What every listener receives, in order, when `run_simulation` fires
      one event per input. */
  function FannedOut(inputs: seq<EventInput>): (r: seq<Event>)
    ensures |r| == |inputs|
    ensures forall k :: 0 <= k < |inputs| ==>
              r[k].ProcessedEvent? && r[k].original == FiredEvent(inputs[k])
              && r[k].processedAt == inputs[k].processedAt && r[k].handlerData == inputs[k].handlerData
  {
    if inputs == [] then []
    else
      var n := |inputs| - 1;
      FannedOut(inputs[..n]) + [ProcessedEvent(FiredEvent(inputs[n]), inputs[n].processedAt, inputs[n].handlerData)]
  }

  /** Temporary objects `_simulate_processing` creates per record. */
  const TEMP_COPIES: nat := 100

  /** Listeners `setup_event_listeners` creates per call. */
  const LISTENERS_PER_SETUP: nat := 5

  /** Messages `simulate_connections` sends through each connection. */
  const MESSAGES_PER_CONNECTION: nat := 50

  /** How many times Python's `for i in range(n)` runs its body. */
  function Iterations(n: int): nat
  {
    if n < 0 then 0 else n
  }

  // ---------------------------------------------------------------------
  // Decimal rendering of indices, as in f"listener_{i}" and f"worker_{i}"

  function DigitChar(d: nat): (c: char)
    requires d < 10
    ensures '0' <= c <= '9'
  {
    (('0' as int) + d) as char
  }

  function DigitValue(c: char): nat
  {
    if '0' <= c <= '9' then (c as int) - ('0' as int) else 0
  }

  /** Python's `str(n)` for a non-negative integer. */
  function NatToString(n: nat): (s: string)
    ensures |s| >= 1
    ensures forall k :: 0 <= k < |s| ==> '0' <= s[k] <= '9'
    decreases n
  {
    if n < 10 then [DigitChar(n)] else NatToString(n / 10) + [DigitChar(n % 10)]
  }

  /** The value a string of decimal digits denotes. */
  function DecimalValue(s: string): nat
  {
    if s == [] then 0 else DecimalValue(s[..|s| - 1]) * 10 + DigitValue(s[|s| - 1])
  }

  /** Reading back the rendering of n gives n. */
  lemma {:induction false} NatToStringRoundTrip(n: nat)
    ensures DecimalValue(NatToString(n)) == n
    decreases n
  {
    var s := NatToString(n);
    if n < 10 {
      assert s[..|s| - 1] == [];
    } else {
      NatToStringRoundTrip(n / 10);
      assert s[..|s| - 1] == NatToString(n / 10);
    }
  }

  /** Distinct indices give distinct names under a common prefix. */
  lemma IndexedNamesDistinct(prefix: string, i: nat, j: nat)
    requires i != j
    ensures prefix + NatToString(i) != prefix + NatToString(j)
  {
    if prefix + NatToString(i) == prefix + NatToString(j) {
      assert NatToString(i) == (prefix + NatToString(i))[|prefix|..];
      assert NatToString(j) == (prefix + NatToString(j))[|prefix|..];
      NatToStringRoundTrip(i);
      NatToStringRoundTrip(j);
    }
  }

  function ListenerName(i: nat): string
  {
    "listener_" + NatToString(i)
  }

  function WorkerName(i: nat): string
  {
    "worker_" + NatToString(i)
  }

  /** The five names one call of `setup_event_listeners` gives, in order. */
  lemma ListenerNames()
    ensures ListenerName(0) == "listener_0" && ListenerName(1) == "listener_1"
    ensures ListenerName(2) == "listener_2" && ListenerName(3) == "listener_3"
    ensures ListenerName(4) == "listener_4"
  {
  }

  // ---------------------------------------------------------------------
  // What one call of `process_data_batch` inserts

  /** The record iteration i of a batch builds from its clock reading and payload. */
  function MakeRecord(stamp: Stamp, i: nat, payload: Blob): DataRecord
  {
    DataRecord(RecordId(stamp, i), stamp, payload, Metadata(true))
  }

  /** The entries a batch stores in `GLOBAL_CACHE` and in `processed_records`. */
  function BatchMap(stamps: seq<Stamp>, payloads: seq<Blob>): map<RecordId, DataRecord>
    requires |stamps| == |payloads|
  {
    if stamps == [] then map[]
    else
      var n := |stamps| - 1;
      BatchMap(stamps[..n], payloads[..n])[RecordId(stamps[n], n) := MakeRecord(stamps[n], n, payloads[n])]
  }

  /** The ids of a batch are exactly the ones built from its indices. */
  lemma {:induction false} BatchMapKeys(stamps: seq<Stamp>, payloads: seq<Blob>)
    requires |stamps| == |payloads|
    ensures BatchMap(stamps, payloads).Keys == set i | 0 <= i < |stamps| :: RecordId(stamps[i], i)
  {
    if stamps != [] {
      var n := |stamps| - 1;
      BatchMapKeys(stamps[..n], payloads[..n]);
      var ids := set i | 0 <= i < |stamps| :: RecordId(stamps[i], i);
      var prefixIds := set i | 0 <= i < n :: RecordId(stamps[..n][i], i);
      assert ids == prefixIds + {RecordId(stamps[n], n)} by {
        forall id | id in ids ensures id in prefixIds + {RecordId(stamps[n], n)} {
          var i :| 0 <= i < |stamps| && id == RecordId(stamps[i], i);
          if i < n { assert id == RecordId(stamps[..n][i], i); }
        }
        forall id | id in prefixIds ensures id in ids {
          var i :| 0 <= i < n && id == RecordId(stamps[..n][i], i);
          assert id == RecordId(stamps[i], i);
        }
      }
    }
  }

  /** Every id generated in a batch maps to the record generated with it. */
  lemma {:induction false} BatchMapAt(stamps: seq<Stamp>, payloads: seq<Blob>, i: nat)
    requires |stamps| == |payloads| && i < |stamps|
    ensures RecordId(stamps[i], i) in BatchMap(stamps, payloads)
    ensures BatchMap(stamps, payloads)[RecordId(stamps[i], i)] == MakeRecord(stamps[i], i, payloads[i])
  {
    var n := |stamps| - 1;
    if i < n {
      BatchMapAt(stamps[..n], payloads[..n], i);
    }
  }

  /** A batch of n iterations holds n distinct ids. */
  lemma {:induction false} BatchMapSize(stamps: seq<Stamp>, payloads: seq<Blob>)
    requires |stamps| == |payloads|
    ensures |BatchMap(stamps, payloads)| == |stamps|
  {
    if stamps != [] {
      var n := |stamps| - 1;
      BatchMapSize(stamps[..n], payloads[..n]);
      BatchMapKeys(stamps[..n], payloads[..n]);
      assert RecordId(stamps[n], n) !in BatchMap(stamps[..n], payloads[..n]);
    }
  }

  /** Inserting entries into a map never shrinks it; into fresh keys, it
      grows by exactly the number of entries. */
  lemma MergeSize<K, V>(m: map<K, V>, b: map<K, V>)
    ensures |m + b| >= |m| && |m + b| >= |b|
    ensures m.Keys !! b.Keys ==> |m + b| == |m| + |b|
  {
    assert (m + b).Keys == m.Keys + b.Keys;
    assert |m.Keys + b.Keys| + |m.Keys * b.Keys| == |m.Keys| + |b.Keys|;
    SubsetSize(m.Keys * b.Keys, b.Keys);
    SubsetSize(m.Keys * b.Keys, m.Keys);
  }

  lemma SubsetSize<T>(a: set<T>, b: set<T>)
    requires a <= b
    ensures |a| <= |b|
  {
    assert b == a + (b - a);
  }

  /** `process_data_batch` growth of the two record maps: they never
      shrink, and grow by exactly the batch size when its ids are new. */
  lemma BatchGrowth(m: map<RecordId, DataRecord>, stamps: seq<Stamp>, payloads: seq<Blob>)
    requires |stamps| == |payloads|
    ensures |m + BatchMap(stamps, payloads)| >= |m|
    ensures (forall i :: 0 <= i < |stamps| ==> RecordId(stamps[i], i) !in m) ==>
              |m + BatchMap(stamps, payloads)| == |m| + |stamps|
  {
    BatchMapKeys(stamps, payloads);
    BatchMapSize(stamps, payloads);
    MergeSize(m, BatchMap(stamps, payloads));
  }

  /** The hundred temporary objects `_simulate_processing` builds for one record. */
  function TempCopies(record: DataRecord): seq<TempObject>
  {
    seq(TEMP_COPIES, _ => TempObject(record.id, record.data))
  }

  /** The entries a batch appends to `temp_files`, in order. */
  function BatchTemps(stamps: seq<Stamp>, payloads: seq<Blob>): seq<TempObject>
    requires |stamps| == |payloads|
  {
    if stamps == [] then []
    else
      var n := |stamps| - 1;
      BatchTemps(stamps[..n], payloads[..n]) + TempCopies(MakeRecord(stamps[n], n, payloads[n]))
  }

  /** A batch of n iterations appends exactly 100 * n temporary objects; the
      hundred at positions 100*i .. 100*i + 99 belong to iteration i. */
  lemma {:induction false} BatchTempsShape(stamps: seq<Stamp>, payloads: seq<Blob>)
    requires |stamps| == |payloads|
    ensures |BatchTemps(stamps, payloads)| == TEMP_COPIES * |stamps|
    ensures forall k :: 0 <= k < |BatchTemps(stamps, payloads)| ==>
              BatchTemps(stamps, payloads)[k]
                == TempObject(RecordId(stamps[k / TEMP_COPIES], k / TEMP_COPIES), payloads[k / TEMP_COPIES])
  {
    if stamps != [] {
      var n := |stamps| - 1;
      BatchTempsShape(stamps[..n], payloads[..n]);
      var r := BatchTemps(stamps, payloads);
      var prev := BatchTemps(stamps[..n], payloads[..n]);
      assert |r| == TEMP_COPIES * n + TEMP_COPIES;
      forall k | 0 <= k < |r|
        ensures r[k] == TempObject(RecordId(stamps[k / TEMP_COPIES], k / TEMP_COPIES), payloads[k / TEMP_COPIES])
      {
        if k < TEMP_COPIES * n {
          assert r[k] == prev[k];
          assert k / TEMP_COPIES < n;
        } else {
          assert k / TEMP_COPIES == n;
          assert r[k] == TempCopies(MakeRecord(stamps[n], n, payloads[n]))[k - TEMP_COPIES * n];
        }
      }
    }
  }

  /** One more iteration of a batch stores one more record under its id. */
  lemma BatchMapStep(stamps: seq<Stamp>, payloads: seq<Blob>, i: nat)
    requires |stamps| == |payloads| && i < |stamps|
    ensures BatchMap(stamps[..i + 1], payloads[..i + 1])
         == BatchMap(stamps[..i], payloads[..i])[RecordId(stamps[i], i) := MakeRecord(stamps[i], i, payloads[i])]
  {
    assert stamps[..i + 1][..i] == stamps[..i];
    assert payloads[..i + 1][..i] == payloads[..i];
  }

  /** One more iteration of a batch appends one more record's hundred copies. */
  lemma BatchTempsStep(stamps: seq<Stamp>, payloads: seq<Blob>, i: nat)
    requires |stamps| == |payloads| && i < |stamps|
    ensures BatchTemps(stamps[..i + 1], payloads[..i + 1])
         == BatchTemps(stamps[..i], payloads[..i]) + TempCopies(MakeRecord(stamps[i], i, payloads[i]))
  {
    assert stamps[..i + 1][..i] == stamps[..i];
    assert payloads[..i + 1][..i] == payloads[..i];
  }

  /** Storing one more entry after a merge is merging the extended entries. */
  lemma MergeUpdate<K, V>(m: map<K, V>, b: map<K, V>, k: K, v: V)
    ensures (m + b)[k := v] == m + b[k := v]
  {
  }

  // ---------------------------------------------------------------------
  // The module-level stores

  /** `GLOBAL_CACHE` and `EVENT_LISTENERS`. */
  class Globals {
    var globalCache: map<RecordId, DataRecord>
    var eventListeners: seq<EventListener>

    constructor ()
      ensures globalCache == map[] && eventListeners == []
    {
      globalCache := map[];
      eventListeners := [];
    }
  }

  // ---------------------------------------------------------------------
  // DataProcessor

  class DataProcessor {
    var processedRecords: map<RecordId, DataRecord>
    var tempFiles: seq<TempObject>
    var memoryIntensiveData: seq<Blob>

    constructor ()
      ensures processedRecords == map[] && tempFiles == [] && memoryIntensiveData == []
    {
      processedRecords := map[];
      tempFiles := [];
      memoryIntensiveData := [];
    }

    /** `process_data_batch(batch_size)`: iteration i reads the clock as
        `stamps[i]` and generates `payloads[i]`. */
    method ProcessDataBatch(g: Globals, batchSize: int, stamps: seq<Stamp>, payloads: seq<Blob>)
      requires |stamps| == Iterations(batchSize) && |payloads| == Iterations(batchSize)
      modifies this, g
      ensures processedRecords == old(processedRecords) + BatchMap(stamps, payloads)
      ensures g.globalCache == old(g.globalCache) + BatchMap(stamps, payloads)
      ensures memoryIntensiveData == old(memoryIntensiveData) + payloads
      ensures tempFiles == old(tempFiles) + BatchTemps(stamps, payloads)
      ensures g.eventListeners == old(g.eventListeners)
    {
      var n := Iterations(batchSize);
      for i := 0 to n
        invariant processedRecords == old(processedRecords) + BatchMap(stamps[..i], payloads[..i])
        invariant g.globalCache == old(g.globalCache) + BatchMap(stamps[..i], payloads[..i])
        invariant memoryIntensiveData == old(memoryIntensiveData) + payloads[..i]
        invariant tempFiles == old(tempFiles) + BatchTemps(stamps[..i], payloads[..i])
        invariant g.eventListeners == old(g.eventListeners)
      {
        var record := MakeRecord(stamps[i], i, payloads[i]);
        BatchMapStep(stamps, payloads, i);
        BatchTempsStep(stamps, payloads, i);
        MergeUpdate(old(processedRecords), BatchMap(stamps[..i], payloads[..i]), record.id, record);
        MergeUpdate(old(g.globalCache), BatchMap(stamps[..i], payloads[..i]), record.id, record);
        assert payloads[..i + 1] == payloads[..i] + [payloads[i]];
        g.globalCache := g.globalCache[record.id := record];
        processedRecords := processedRecords[record.id := record];
        memoryIntensiveData := memoryIntensiveData + [payloads[i]];
        SimulateProcessing(record);
      }
      assert stamps[..n] == stamps && payloads[..n] == payloads;
    }

    /** `_simulate_processing(record)`: appends a hundred copies of the
        record's id and data to `temp_files`. */
    method SimulateProcessing(record: DataRecord)
      modifies this
      ensures tempFiles == old(tempFiles) + TempCopies(record)
      ensures processedRecords == old(processedRecords) && memoryIntensiveData == old(memoryIntensiveData)
    {
      var tempObjects: seq<TempObject> := [];
      for k := 0 to TEMP_COPIES
        invariant tempObjects == seq(k, _ => TempObject(record.id, record.data))
      {
        tempObjects := tempObjects + [TempObject(record.id, record.data)];
      }
      tempFiles := tempFiles + tempObjects;
    }
  }

  // ---------------------------------------------------------------------
  // ConnectionManager

  /** `active_connections` after storing `conns[i]` under `ids[i]` for each
      i in order, as `create_connection` does: a later id replaces an earlier
      entry under the same id. */
  function Registered(m: map<string, Connection>, ids: seq<string>, conns: seq<Connection>): map<string, Connection>
    requires |ids| == |conns|
  {
    if ids == [] then m
    else
      var n := |ids| - 1;
      Registered(m, ids[..n], conns[..n])[ids[n] := conns[n]]
  }

  /** After a run of stores the keys are the old ones plus the stored ids. */
  lemma {:induction false} RegisteredKeys(m: map<string, Connection>, ids: seq<string>, conns: seq<Connection>)
    requires |ids| == |conns|
    ensures Registered(m, ids, conns).Keys == m.Keys + (set id | id in ids)
  {
    if ids != [] {
      var n := |ids| - 1;
      RegisteredKeys(m, ids[..n], conns[..n]);
      assert ids == ids[..n] + [ids[n]];
    }
  }

  /** An id that is never stored keeps its old object. */
  lemma {:induction false} RegisteredUntouched(m: map<string, Connection>, ids: seq<string>, conns: seq<Connection>, id: string)
    requires |ids| == |conns|
    requires id in m && id !in ids
    ensures id in Registered(m, ids, conns) && Registered(m, ids, conns)[id] == m[id]
  {
    if ids != [] {
      var n := |ids| - 1;
      assert id !in ids[..n];
      RegisteredUntouched(m, ids[..n], conns[..n], id);
    }
  }

  /** Position i holds the last occurrence of its id in `ids`. */
  predicate LastStoredAt(ids: seq<string>, i: int)
  {
    0 <= i < |ids| && forall j :: i < j < |ids| ==> ids[j] != ids[i]
  }

  /** An id stored for the last time at position i holds `conns[i]`. */
  lemma {:induction false} RegisteredLast(m: map<string, Connection>, ids: seq<string>, conns: seq<Connection>, i: nat)
    requires |ids| == |conns|
    requires LastStoredAt(ids, i)
    ensures ids[i] in Registered(m, ids, conns) && Registered(m, ids, conns)[ids[i]] == conns[i]
  {
    var n := |ids| - 1;
    if i < n {
      var prefix := ids[..n];
      assert ids[n] != ids[i];
      assert LastStoredAt(prefix, i) by {
        forall j | i < j < n
          ensures prefix[j] != prefix[i]
        {
          assert prefix[j] == ids[j];
        }
      }
      RegisteredLast(m, prefix, conns[..n], i);
    }
  }

  /** The connection dictionary: only its `data_buffer` ever changes. */
  class Connection {
    const id: string
    const createdAt: Stamp
    const status: string
    var dataBuffer: seq<Message>

    constructor (id: string, createdAt: Stamp)
      ensures this.id == id && this.createdAt == createdAt && status == "active" && dataBuffer == []
    {
      this.id := id;
      this.createdAt := createdAt;
      status := "active";
      dataBuffer := [];
    }
  }

  class ConnectionManager {
    var activeConnections: map<string, Connection>
    var connectionHistory: seq<Connection>

    /** Every active connection is stored under its own id and was recorded
        in the history when it was created. */
    ghost predicate Valid()
      reads this
    {
      forall id :: id in activeConnections ==>
        activeConnections[id].id == id && activeConnections[id] in connectionHistory
    }

    constructor ()
      ensures Valid() && activeConnections == map[] && connectionHistory == []
    {
      activeConnections := map[];
      connectionHistory := [];
    }

    /** The connection `send_data` writes to: the active one with that id, if any. */
    function Target(connectionId: string): set<Connection>
      reads this
    {
      if connectionId in activeConnections then {activeConnections[connectionId]} else {}
    }

    /** `create_connection(connection_id)`, with `now` the clock reading for
        `created_at`. An earlier connection under the same id stays in the
        history but is no longer active. */
    method CreateConnection(connectionId: string, now: Stamp) returns (connection: Connection)
      requires Valid()
      modifies this
      ensures Valid()
      ensures fresh(connection)
      ensures connection.id == connectionId && connection.createdAt == now
      ensures connection.status == "active" && connection.dataBuffer == []
      ensures activeConnections == old(activeConnections)[connectionId := connection]
      ensures connectionHistory == old(connectionHistory) + [connection]
    {
      connection := new Connection(connectionId, now);
      activeConnections := activeConnections[connectionId := connection];
      connectionHistory := connectionHistory + [connection];
    }

    /** `send_data(connection_id, data)`: appends to the active connection's
        buffer when the id is known; otherwise nothing changes. */
    method SendData(connectionId: string, data: Message)
      modifies Target(connectionId)
      ensures connectionId in activeConnections ==>
                activeConnections[connectionId].dataBuffer == old(activeConnections[connectionId].dataBuffer) + [data]
      ensures forall k :: 0 <= k < |connectionHistory| && connectionHistory[k] !in Target(connectionId) ==>
                connectionHistory[k].dataBuffer == old(connectionHistory[k].dataBuffer)
    {
      if connectionId in activeConnections {
        var connection := activeConnections[connectionId];
        connection.dataBuffer := connection.dataBuffer + [data];
      }
    }
  }

  // ---------------------------------------------------------------------
  // Event listeners, workers and the orchestrator

  /** `EventListener`. Its callback is the one the program always installs:
      the owning simulator's `_handle_event`. */
  class EventListener {
    const name: string
    const owner: MemoryLeakSimulator
    var dataBuffer: seq<Event>

    constructor (name: string, owner: MemoryLeakSimulator)
      ensures this.name == name && this.owner == owner && dataBuffer == []
    {
      this.name := name;
      this.owner := owner;
      dataBuffer := [];
    }

    /** `handle_event(event)`: buffers the raw event, then runs the callback,
        which fans the wrapped event out to all of the owner's listeners. */
    method HandleEvent(event: Event, processedAt: Stamp, handlerData: Blob)
      requires owner.Valid()
      modifies this, owner.eventListeners
      ensures dataBuffer == old(dataBuffer) + [event] +
                (if this in owner.eventListeners then [ProcessedEvent(event, processedAt, handlerData)] else [])
      ensures forall k :: 0 <= k < |owner.eventListeners| && owner.eventListeners[k] != this ==>
                owner.eventListeners[k].dataBuffer
                  == old(owner.eventListeners[k].dataBuffer) + [ProcessedEvent(event, processedAt, handlerData)]
    {
      dataBuffer := dataBuffer + [event];
      owner.HandleEvent(event, processedAt, handlerData);
    }
  }

  /** The part of `BackgroundWorker` the model keeps: its name and stop flag. */
  class BackgroundWorker {
    const name: string
    var isRunning: bool

    constructor (name: string)
      ensures this.name == name && isRunning
    {
      this.name := name;
      isRunning := true;
    }
  }

  class MemoryLeakSimulator {
    const dataProcessor: DataProcessor
    const connectionManager: ConnectionManager
    var workers: seq<BackgroundWorker>
    var eventListeners: seq<EventListener>
    var running: bool

    /** The listeners are distinct objects, all created by this simulator. */
    ghost predicate Valid()
      reads this
    {
      && (forall i, j :: 0 <= i < j < |eventListeners| ==> eventListeners[i] != eventListeners[j])
      && (forall l :: l in eventListeners ==> l.owner == this)
    }

    constructor ()
      ensures Valid() && fresh(dataProcessor) && fresh(connectionManager)
      ensures dataProcessor.processedRecords == map[] && dataProcessor.tempFiles == []
      ensures dataProcessor.memoryIntensiveData == []
      ensures connectionManager.Valid()
      ensures connectionManager.activeConnections == map[] && connectionManager.connectionHistory == []
      ensures workers == [] && eventListeners == [] && running
    {
      dataProcessor := new DataProcessor();
      connectionManager := new ConnectionManager();
      workers := [];
      eventListeners := [];
      running := true;
    }

    /** `setup_event_listeners`: five new listeners `listener_0` ..
        `listener_4`, appended in that order to this simulator's list and to
        the global list. */
    method SetupEventListeners(g: Globals)
      requires Valid()
      modifies this, g
      ensures Valid()
      ensures |eventListeners| == |old(eventListeners)| + LISTENERS_PER_SETUP
      ensures eventListeners[..|old(eventListeners)|] == old(eventListeners)
      ensures forall k :: |old(eventListeners)| <= k < |eventListeners| ==>
                fresh(eventListeners[k]) && eventListeners[k].name == ListenerName(k - |old(eventListeners)|)
                && eventListeners[k].dataBuffer == []
      ensures forall l :: l in eventListeners ==> l in old(eventListeners) || fresh(l)
      ensures forall i, j :: |old(eventListeners)| <= i < j < |eventListeners| ==>
                eventListeners[i].name != eventListeners[j].name
      ensures g.eventListeners == old(g.eventListeners) + eventListeners[|old(eventListeners)|..]
      ensures g.globalCache == old(g.globalCache)
      ensures workers == old(workers) && running == old(running)
    {
      ghost var n := |old(eventListeners)|;
      for i := 0 to LISTENERS_PER_SETUP
        invariant Valid()
        invariant |eventListeners| == n + i
        invariant eventListeners[..n] == old(eventListeners)
        invariant forall k :: n <= k < |eventListeners| ==>
                    fresh(eventListeners[k]) && eventListeners[k].name == ListenerName(k - n)
                    && eventListeners[k].dataBuffer == []
        invariant forall l :: l in eventListeners ==> l in old(eventListeners) || fresh(l)
        invariant g.eventListeners == old(g.eventListeners) + eventListeners[n..]
        invariant g.globalCache == old(g.globalCache)
        invariant workers == old(workers) && running == old(running)
      {
        var listener := new EventListener(ListenerName(i), this);
        eventListeners := eventListeners + [listener];
        g.eventListeners := g.eventListeners + [listener];
      }
      forall i, j | n <= i < j < |eventListeners|
        ensures eventListeners[i].name != eventListeners[j].name
      {
        IndexedNamesDistinct("listener_", i - n, j - n);
      }
    }

    /** `_handle_event(event)`: appends one wrapped event to the buffer of
        every listener of this simulator. */
    method HandleEvent(event: Event, processedAt: Stamp, handlerData: Blob)
      requires Valid()
      modifies eventListeners
      ensures forall k :: 0 <= k < |eventListeners| ==>
                eventListeners[k].dataBuffer
                  == old(eventListeners[k].dataBuffer) + [ProcessedEvent(event, processedAt, handlerData)]
    {
      var processedEvent := ProcessedEvent(event, processedAt, handlerData);
      for i := 0 to |eventListeners|
        invariant forall k :: 0 <= k < i ==>
                    eventListeners[k].dataBuffer == old(eventListeners[k].dataBuffer) + [processedEvent]
        invariant forall k :: i <= k < |eventListeners| ==>
                    eventListeners[k].dataBuffer == old(eventListeners[k].dataBuffer)
      {
        var listener := eventListeners[i];
        listener.dataBuffer := listener.dataBuffer + [processedEvent];
      }
    }

    /** The registering part of `start_background_workers(num_workers)`:
        new workers `worker_0`, `worker_1`, ... appended in order. */
    method StartBackgroundWorkers(numWorkers: int)
      modifies this
      ensures |workers| == |old(workers)| + Iterations(numWorkers)
      ensures workers[..|old(workers)|] == old(workers)
      ensures forall k :: |old(workers)| <= k < |workers| ==>
                fresh(workers[k]) && workers[k].name == WorkerName(k - |old(workers)|) && workers[k].isRunning
      ensures forall w :: w in workers ==> w in old(workers) || fresh(w)
      ensures forall i, j :: |old(workers)| <= i < j < |workers| ==>
                workers[i].name != workers[j].name
      ensures eventListeners == old(eventListeners) && running == old(running)
    {
      ghost var n := |old(workers)|;
      for i := 0 to Iterations(numWorkers)
        invariant |workers| == n + i
        invariant workers[..n] == old(workers)
        invariant forall k :: n <= k < |workers| ==>
                    fresh(workers[k]) && workers[k].name == WorkerName(k - n) && workers[k].isRunning
        invariant forall w :: w in workers ==> w in old(workers) || fresh(w)
        invariant eventListeners == old(eventListeners) && running == old(running)
      {
        var worker := new BackgroundWorker(WorkerName(i));
        workers := workers + [worker];
      }
      forall i, j | n <= i < j < |workers|
        ensures workers[i].name != workers[j].name
      {
        IndexedNamesDistinct("worker_", i - n, j - n);
      }
    }

    /** `simulate_connections(num_connections)`: connection i gets the id
        `connIds[i]` and the creation time `nows[i]`, then fifty messages
        whose payloads are `payloads[i]`. */
    method SimulateConnections(numConnections: int, connIds: seq<string>, nows: seq<Stamp>, payloads: seq<seq<Blob>>)
      requires connectionManager.Valid()
      requires |connIds| == |nows| == |payloads| == Iterations(numConnections)
      requires forall i :: 0 <= i < |payloads| ==> |payloads[i]| == MESSAGES_PER_CONNECTION
      modifies connectionManager
      ensures connectionManager.Valid()
      ensures |connectionManager.connectionHistory| == |old(connectionManager.connectionHistory)| + |connIds|
      ensures connectionManager.connectionHistory[..|old(connectionManager.connectionHistory)|]
              == old(connectionManager.connectionHistory)
      ensures forall k :: |old(connectionManager.connectionHistory)| <= k < |connectionManager.connectionHistory| ==>
                var c, i := connectionManager.connectionHistory[k], k - |old(connectionManager.connectionHistory)|;
                fresh(c) && Opened(c, connIds[i], nows[i], payloads[i])
      ensures connectionManager.activeConnections
              == Registered(old(connectionManager.activeConnections), connIds,
                            connectionManager.connectionHistory[|old(connectionManager.connectionHistory)|..])
      ensures connectionManager.activeConnections.Keys
              == old(connectionManager.activeConnections).Keys + (set id | id in connIds)
    {
      var cm := connectionManager;
      ghost var created := OpenConnections(cm, Iterations(numConnections), connIds, nows, payloads);
      assert cm.connectionHistory[|old(cm.connectionHistory)|..] == created;
      RegisteredKeys(old(cm.activeConnections), connIds, created);
      forall k | |old(cm.connectionHistory)| <= k < |cm.connectionHistory|
        ensures cm.connectionHistory[k] == created[k - |old(cm.connectionHistory)|]
      {
      }
    }

    /** The loop of `simulate_connections`, over the given ids, creation
        times and payloads; `created` are the connections it opens, in
        order. */
    static method OpenConnections(cm: ConnectionManager, count: nat, connIds: seq<string>, nows: seq<Stamp>,
                                  payloads: seq<seq<Blob>>)
      returns (ghost created: seq<Connection>)
      requires cm.Valid()
      requires |connIds| == |nows| == |payloads| == count
      requires forall i :: 0 <= i < |payloads| ==> |payloads[i]| == MESSAGES_PER_CONNECTION
      modifies cm
      ensures cm.Valid()
      ensures |created| == count
      ensures cm.connectionHistory == old(cm.connectionHistory) + created
      ensures forall k :: 0 <= k < count ==>
                fresh(created[k]) && Opened(created[k], connIds[k], nows[k], payloads[k])
      ensures cm.activeConnections == Registered(old(cm.activeConnections), connIds, created)
    {
      created := [];
      for i := 0 to count
        invariant cm.Valid()
        invariant |created| == i
        invariant cm.connectionHistory == old(cm.connectionHistory) + created
        invariant forall k :: 0 <= k < i ==>
                    fresh(created[k]) && Opened(created[k], connIds[k], nows[k], payloads[k])
        invariant cm.activeConnections == Registered(old(cm.activeConnections), connIds[..i], created)
      {
        var connection := OpenConnection(cm, connIds[i], nows[i], payloads[i]);
        ghost var next := created + [connection];
        forall k | 0 <= k < i + 1
          ensures fresh(next[k]) && Opened(next[k], connIds[k], nows[k], payloads[k])
        {
          if k < i {
            assert next[k] == created[k];
          }
        }
        assert connIds[..i + 1][..i] == connIds[..i];
        assert next[..i] == created;
        created := next;
      }
      assert connIds[..count] == connIds;
    }

    /** `c` is a connection opened with this id and time that then received
        one message per payload. */
    static ghost predicate Opened(c: Connection, connectionId: string, now: Stamp, payloads: seq<Blob>)
      reads c
    {
      c.id == connectionId && c.createdAt == now && c.status == "active" && c.dataBuffer == Messages(payloads)
    }

    /** The body of the loop in `simulate_connections`: one new connection,
        then fifty `send_data` calls on its id. */
    static method OpenConnection(cm: ConnectionManager, connectionId: string, now: Stamp, payloads: seq<Blob>)
      returns (connection: Connection)
      requires cm.Valid()
      requires |payloads| == MESSAGES_PER_CONNECTION
      modifies cm
      ensures cm.Valid()
      ensures fresh(connection) && connection.id == connectionId && connection.createdAt == now
      ensures connection.status == "active" && connection.dataBuffer == Messages(payloads)
      ensures cm.activeConnections == old(cm.activeConnections)[connectionId := connection]
      ensures cm.connectionHistory == old(cm.connectionHistory) + [connection]
    {
      connection := cm.CreateConnection(connectionId, now);
      for j := 0 to MESSAGES_PER_CONNECTION
        modifies connection
        invariant connection.dataBuffer == Messages(payloads[..j])
      {
        cm.SendData(connectionId, MakeMessage(j, payloads[j]));
        assert payloads[..j + 1][..j] == payloads[..j];
      }
      assert payloads[..MESSAGES_PER_CONNECTION] == payloads;
    }

    /** One iteration of the loop in `run_simulation`, with the random batch
        size, connection count and event count replaced by the lengths of the
        clock readings and payloads the environment supplies. Logging and the
        sleep are not modelled. */
    method RunIteration(g: Globals, batchSize: int, stamps: seq<Stamp>, payloads: seq<Blob>,
                        numConnections: int, connIds: seq<string>, nows: seq<Stamp>, messages: seq<seq<Blob>>,
                        events: seq<EventInput>)
      requires Valid() && connectionManager.Valid()
      requires |stamps| == Iterations(batchSize) && |payloads| == Iterations(batchSize)
      requires |connIds| == |nows| == |messages| == Iterations(numConnections)
      requires forall i :: 0 <= i < |messages| ==> |messages[i]| == MESSAGES_PER_CONNECTION
      modifies dataProcessor, g, connectionManager, eventListeners
      ensures connectionManager.Valid()
      ensures dataProcessor.processedRecords == old(dataProcessor.processedRecords) + BatchMap(stamps, payloads)
      ensures g.globalCache == old(g.globalCache) + BatchMap(stamps, payloads)
      ensures dataProcessor.memoryIntensiveData == old(dataProcessor.memoryIntensiveData) + payloads
      ensures dataProcessor.tempFiles == old(dataProcessor.tempFiles) + BatchTemps(stamps, payloads)
      ensures g.eventListeners == old(g.eventListeners)
      ensures |connectionManager.connectionHistory| == |old(connectionManager.connectionHistory)| + |connIds|
      ensures connectionManager.connectionHistory[..|old(connectionManager.connectionHistory)|]
              == old(connectionManager.connectionHistory)
      ensures forall k :: |old(connectionManager.connectionHistory)| <= k < |connectionManager.connectionHistory| ==>
                var c, i := connectionManager.connectionHistory[k], k - |old(connectionManager.connectionHistory)|;
                fresh(c) && Opened(c, connIds[i], nows[i], messages[i])
      ensures connectionManager.activeConnections
              == Registered(old(connectionManager.activeConnections), connIds,
                            connectionManager.connectionHistory[|old(connectionManager.connectionHistory)|..])
      ensures connectionManager.activeConnections.Keys
              == old(connectionManager.activeConnections).Keys + (set id | id in connIds)
      ensures forall k :: 0 <= k < |eventListeners| ==>
                eventListeners[k].dataBuffer == old(eventListeners[k].dataBuffer) + FannedOut(events)
    {
      dataProcessor.ProcessDataBatch(g, batchSize, stamps, payloads);
      SimulateConnections(numConnections, connIds, nows, messages);
      for e := 0 to |events|
        modifies eventListeners
        invariant forall k :: 0 <= k < |eventListeners| ==>
                    eventListeners[k].dataBuffer == old(eventListeners[k].dataBuffer) + FannedOut(events[..e])
      {
        assert events[..e + 1][..e] == events[..e];
        HandleEvent(FiredEvent(events[e]), events[e].processedAt, events[e].handlerData);
      }
      assert events[..|events|] == events;
    }

    /** `stop`: clears the simulator's flag and every worker's flag; no
        container changes. */
    method Stop()
      modifies this, workers
      ensures !running
      ensures forall w :: w in workers ==> !w.isRunning
      ensures workers == old(workers) && eventListeners == old(eventListeners)
    {
      running := false;
      for i := 0 to |workers|
        invariant workers == old(workers) && eventListeners == old(eventListeners) && !running
        invariant forall k :: 0 <= k < i ==> !workers[k].isRunning
      {
        workers[i].isRunning := false;
      }
    }
  }

  /** The message `simulate_connections` sends as number j. */
  function MakeMessage(j: int, payload: Blob): Message
  {
    Message(j, payload, 2000, "simulation")
  }

  /** The buffer contents of a connection after `simulate_connections` sent
      the given payloads through it. */
  function Messages(payloads: seq<Blob>): (r: seq<Message>)
    ensures |r| == |payloads|
    ensures forall j :: 0 <= j < |payloads| ==> r[j] == MakeMessage(j, payloads[j])
  {
    if payloads == [] then []
    else Messages(payloads[..|payloads| - 1]) + [MakeMessage(|payloads| - 1, payloads[|payloads| - 1])]
  }
}
