/**
 * The start/stop protocol of `ProcessService` on the values it works with:
 * the index is a map from id to document, the clock reading is `now`.
 */
module Lifecycle {
  import opened Wrappers
  import opened Processes
  import opened Fingerprint

  /** The "addsmonitoring" index: documents by id. */
  type Store = map<string, ProcessDocument>

  /** Stop found no document at the id: reading its `Source.StartTimestamp` throws. */
  datatype StopError = SourceMissing(id: string)

  /** What start leaves behind: the new index and the id it returns. */
  datatype Started = Started(store: Store, id: string)

  /** The document start writes: the request's properties and a start time, nothing else set. */
  predicate IsOpenRecord(d: ProcessDocument, id: string, request: ProcessRequest, now: Ticks)
  {
    && d.id == id
    && d.Props() == request
    && d.startTimestamp == now
    && d.stopTimestamp == DEFAULT_TIMESTAMP
    && d.duration == 0
    && !d.isComplete
  }

  /** The document stop writes: the request's properties, the kept start time, the stop time and their difference. */
  predicate IsStoppedRecord(d: ProcessDocument, id: string, request: ProcessRequest, start: Ticks, now: Ticks)
  {
    && d.id == id
    && d.Props() == request
    && d.startTimestamp == start
    && d.stopTimestamp == now
    && d.duration == now - start
    && !d.isComplete
  }

  /** Every document is stored under its own id. */
  predicate KeyedById(store: Store)
  {
    forall k :: k in store ==> store[k].id == k
  }

  /** No stored document has its completion flag set. */
  predicate NoneComplete(store: Store)
  {
    forall k :: k in store ==> !store[k].isComplete
  }

  /** `StartProcessAsync`: upsert an open document at the request's id and return that id. */
  function Start(sha256: HashFunction, store: Store, request: ProcessRequest, now: Ticks): (r: Started)
    ensures r.id == GetHash(sha256, request)
    ensures r.store.Keys == store.Keys + {r.id}
    ensures forall k :: k in store && k != r.id ==> r.store[k] == store[k]
    ensures IsOpenRecord(r.store[r.id], r.id, request, now)
  {
    var id := GetHash(sha256, request);
    var document := ProcessDocument(id, request.prop1, request.prop2, request.prop3, request.prop4, request.prop5,
                                    now, DEFAULT_TIMESTAMP, 0, false);
    Started(store[id := document], id)
  }

  /** `StopProcessAsync`: read the document at the request's id and overwrite it with the stopped one. */
  function Stop(sha256: HashFunction, store: Store, request: ProcessRequest, now: Ticks): (r: Result<Store, StopError>)
    ensures var id := GetHash(sha256, request);
      && (r.Failure? <==> id !in store)
      && (r.Failure? ==> r.error == SourceMissing(id))
      && (r.Success? ==>
            && r.value.Keys == store.Keys
            && (forall k :: k in store && k != id ==> r.value[k] == store[k])
            && IsStoppedRecord(r.value[id], id, request, store[id].startTimestamp, now))
  {
    var id := GetHash(sha256, request);
    if id !in store then
      Failure(SourceMissing(id))
    else
      var startTimestamp := store[id].startTimestamp;
      var document := ProcessDocument(id, request.prop1, request.prop2, request.prop3, request.prop4, request.prop5,
                                      startTimestamp, now, now - startTimestamp, false);
      Success(store[id := document])
  }

  /** Start on an id that already holds a document, open or stopped, replaces it and resets its start time. */
  lemma StartOverwritesExisting(sha256: HashFunction, store: Store, request: ProcessRequest, now: Ticks)
    requires GetHash(sha256, request) in store
    ensures var r := Start(sha256, store, request, now);
      && |r.store| == |store|
      && r.store[r.id].startTimestamp == now
      && r.store[r.id].stopTimestamp == DEFAULT_TIMESTAMP
      && r.store[r.id].duration == 0
  {
  }

  /** A stop that finds no document at the request's id fails with `SourceMissing` at that id. */
  lemma StopWithoutStartFails(sha256: HashFunction, store: Store, request: ProcessRequest, now: Ticks)
    requires GetHash(sha256, request) !in store
    ensures Stop(sha256, store, request, now) == Failure(SourceMissing(GetHash(sha256, request)))
  {
  }

  /** Start at `t0` then stop at `t1` with the same request: a document with both times and `t1 - t0`, still not complete. */
  lemma StartThenStop(sha256: HashFunction, store: Store, request: ProcessRequest, t0: Ticks, t1: Ticks)
    ensures var started := Start(sha256, store, request, t0);
      var stopped := Stop(sha256, started.store, request, t1);
      && stopped.Success?
      && stopped.value.Keys == store.Keys + {started.id}
      && IsStoppedRecord(stopped.value[started.id], started.id, request, t0, t1)
  {
  }

  /** The duration is not checked for sign: a clock reading earlier than the start gives a negative duration. */
  lemma NegativeDurationIsStored(sha256: HashFunction, request: ProcessRequest)
    ensures var stopped := Stop(sha256, Start(sha256, map[], request, 10).store, request, 4);
      stopped.Success? && stopped.value[GetHash(sha256, request)].duration == -6
  {
  }

  /** Stop rewrites the properties from the stop request: under a concatenation collision the started ones are lost. */
  lemma StopTakesPropertiesFromRequest(sha256: HashFunction, store: Store, r1: ProcessRequest, r2: ProcessRequest, t0: Ticks, t1: Ticks)
    requires Concatenation(r1) == Concatenation(r2)
    ensures var started := Start(sha256, store, r1, t0);
      var stopped := Stop(sha256, started.store, r2, t1);
      && stopped.Success?
      && stopped.value[started.id].Props() == r2
      && stopped.value[started.id].startTimestamp == t0
  {
  }

  /** A second stop also succeeds: it keeps the original start time and records the later stop. */
  lemma StopTwice(sha256: HashFunction, store: Store, request: ProcessRequest, t1: Ticks, t2: Ticks)
    requires GetHash(sha256, request) in store
    ensures var id := GetHash(sha256, request);
      var first := Stop(sha256, store, request, t1);
      && first.Success?
      && var second := Stop(sha256, first.value, request, t2);
      && second.Success?
      && second.value.Keys == store.Keys
      && (forall k :: k in store && k != id ==> second.value[k] == store[k])
      && IsStoppedRecord(second.value[id], id, request, store[id].startTimestamp, t2)
  {
  }

  /** The duration always fits a `TimeSpan`: subtracting two `DateTime`s cannot overflow. */
  lemma DurationFitsTimeSpan(sha256: HashFunction, store: Store, request: ProcessRequest, now: Ticks)
    requires GetHash(sha256, request) in store
    ensures var stopped := Stop(sha256, store, request, now);
      -TIME_SPAN_MAX_TICKS - 1 <= stopped.value[GetHash(sha256, request)].duration <= TIME_SPAN_MAX_TICKS
  {
  }

  /** Both operations keep every document under its own id. */
  lemma OperationsKeepKeyedById(sha256: HashFunction, store: Store, request: ProcessRequest, now: Ticks)
    requires KeyedById(store)
    ensures KeyedById(Start(sha256, store, request, now).store)
    ensures Stop(sha256, store, request, now).Success? ==> KeyedById(Stop(sha256, store, request, now).value)
  {
  }

  /** A call a client makes to the service, with the clock reading at that moment. */
  datatype Call = StartCall(request: ProcessRequest, now: Ticks) | StopCall(request: ProcessRequest, now: Ticks)

  /** The index after a sequence of calls, one after the other; a failed stop changes nothing. */
  function Run(sha256: HashFunction, store: Store, calls: seq<Call>): Store
    decreases |calls|
  {
    if calls == [] then store
    else
      var next := match calls[0]
        case StartCall(request, now) => Start(sha256, store, request, now).store
        case StopCall(request, now) =>
          match Stop(sha256, store, request, now)
          case Success(s) => s
          case Failure(_) => store;
      Run(sha256, next, calls[1..])
  }

  /** The ids of the processes the calls start. */
  function StartedIds(sha256: HashFunction, calls: seq<Call>): set<string>
    decreases |calls|
  {
    if calls == [] then {}
    else (if calls[0].StartCall? then {GetHash(sha256, calls[0].request)} else {}) + StartedIds(sha256, calls[1..])
  }

  /** Documents are created by start only and never deleted: the ids after a run are the old ones and the started ones. */
  lemma {:induction false} RunKeys(sha256: HashFunction, store: Store, calls: seq<Call>)
    ensures Run(sha256, store, calls).Keys == store.Keys + StartedIds(sha256, calls)
    decreases |calls|
  {
    if calls != [] {
      match calls[0]
      case StartCall(request, now) =>
        RunKeys(sha256, Start(sha256, store, request, now).store, calls[1..]);
      case StopCall(request, now) =>
        match Stop(sha256, store, request, now)
        case Success(s) => RunKeys(sha256, s, calls[1..]);
        case Failure(_) => RunKeys(sha256, store, calls[1..]);
    }
  }

  /** No sequence of calls ever sets `IsComplete`. */
  lemma {:induction false} RunNeverCompletes(sha256: HashFunction, store: Store, calls: seq<Call>)
    requires NoneComplete(store)
    ensures NoneComplete(Run(sha256, store, calls))
    decreases |calls|
  {
    if calls != [] {
      match calls[0]
      case StartCall(request, now) =>
        RunNeverCompletes(sha256, Start(sha256, store, request, now).store, calls[1..]);
      case StopCall(request, now) =>
        match Stop(sha256, store, request, now)
        case Success(s) => RunNeverCompletes(sha256, s, calls[1..]);
        case Failure(_) => RunNeverCompletes(sha256, store, calls[1..]);
    }
  }

  /** After any sequence of calls every document is still stored under its own id. */
  lemma {:induction false} RunKeepsKeyedById(sha256: HashFunction, store: Store, calls: seq<Call>)
    requires KeyedById(store)
    ensures KeyedById(Run(sha256, store, calls))
    decreases |calls|
  {
    if calls != [] {
      match calls[0]
      case StartCall(request, now) =>
        RunKeepsKeyedById(sha256, Start(sha256, store, request, now).store, calls[1..]);
      case StopCall(request, now) =>
        match Stop(sha256, store, request, now)
        case Success(s) => RunKeepsKeyedById(sha256, s, calls[1..]);
        case Failure(_) => RunKeepsKeyedById(sha256, store, calls[1..]);
    }
  }
}
