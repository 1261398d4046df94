/** `ProcessService`: the index it writes to is a field it updates in place. */
module Service {
  import opened Wrappers
  import opened Processes
  import opened Fingerprint
  import opened Lifecycle

  class ProcessService {
    /** The hash the service applies (SHA-256 in the deployed service). */
    const sha256: HashFunction
    /** The contents of the "addsmonitoring" index. */
    var index: Store

    /** A service over an index that already holds `contents`. */
    constructor (sha256: HashFunction, contents: Store)
      ensures this.sha256 == sha256 && index == contents
    {
      this.sha256 := sha256;
      index := contents;
    }

    /** `GetAsync`: the stored document at `id`, or `None` when its source is null. */
    function Get(id: string): (r: Option<ProcessDocument>)
      reads this
      ensures r.Some? <==> id in index
      ensures r.Some? ==> r.value == index[id]
    {
      if id in index then Some(index[id]) else None
    }

    method StartProcess(request: ProcessRequest, now: Ticks) returns (id: string)
      modifies this
      ensures Started(index, id) == Start(sha256, old(index), request, now)
      ensures id == GetHash(sha256, request)
      ensures old(KeyedById(index)) ==> KeyedById(index)
    {
      id := GetHash(sha256, request);
      var document := ProcessDocument(id, request.prop1, request.prop2, request.prop3, request.prop4, request.prop5,
                                      now, DEFAULT_TIMESTAMP, 0, false);
      index := index[id := document];
    }

    method StopProcess(request: ProcessRequest, now: Ticks) returns (outcome: Outcome<StopError>)
      modifies this
      ensures outcome.Pass? <==> GetHash(sha256, request) in old(index)
      ensures match Stop(sha256, old(index), request, now)
        case Success(s) => outcome == Pass && index == s
        case Failure(e) => outcome == Fail(e) && index == old(index)
      ensures old(KeyedById(index)) ==> KeyedById(index)
    {
      var id := GetHash(sha256, request);
      var startProcess := Get(id);
      if startProcess.None? {
        return Fail(SourceMissing(id));
      }
      var startTimestamp := startProcess.value.startTimestamp;
      var stopTimestamp := now;
      var duration := stopTimestamp as int - startTimestamp as int;
      var document := ProcessDocument(id, request.prop1, request.prop2, request.prop3, request.prop4, request.prop5,
                                      startTimestamp, stopTimestamp, duration, false);
      index := index[id := document];
      outcome := Pass;
    }
  }

  /** A client's view: start then stop with the same properties gives one stopped document with the elapsed time. */
  method StartThenStopScenario(sha256: HashFunction, t0: Ticks, t1: Ticks)
  {
    var service := new ProcessService(sha256, map[]);
    var request := ProcessRequest("A", "B", "C", "D", "E");
    var id := service.StartProcess(request, t0);
    var outcome := service.StopProcess(request, t1);
    assert outcome == Pass;
    assert service.index.Keys == {id};
    assert IsStoppedRecord(service.index[id], id, request, t0, t1);
    var other := ProcessRequest("X", "Y", "Z", "W", "V");
    var missing := service.StopProcess(other, t1);
    assert missing.Fail? <==> GetHash(sha256, other) != id;
    assert service.index.Keys == {id};
  }
}
