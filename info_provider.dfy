/**
  The scheduler's info provider: a read-only projection of the owner's keyspan
  table and per-capture watermarks into the shapes the monitoring layer reads
  (`TaskStatus` and `TaskPosition` of the model package).

  The keyspan table and the code that fills it are not part of this model: the
  dispatcher holds the table's grouping by capture, as returned by
  `GetAllKeySpansGroupedByCaptures`, together with the capture-status map.
 */
module Scheduler {
  import opened Wrappers
  import opened Model

  /** The owner's belief about a keyspan's phase on one capture. */
  datatype KeySpanStatus = AddingKeySpan | RemovingKeySpan | RunningKeySpan

  /** One row of the keyspan table. */
  datatype KeySpanRecord = KeySpanRecord(keySpanID: KeySpanID, captureID: CaptureID, status: KeySpanStatus)

  /** The last watermarks a capture reported. */
  datatype CaptureStatus = CaptureStatus(checkpointTs: Ts, resolvedTs: Ts)

  /** Go's `error`; the info provider never returns one. */
  datatype Error = Error(message: string)

  /** The keyspan table grouped by capture. */
  type GroupedKeySpans = map<CaptureID, map<KeySpanID, KeySpanRecord>>

  // ---------------------------------------------------------------------------
  // What the projections promise
  // ---------------------------------------------------------------------------

  /** The operation reported for a keyspan in a given phase; a running keyspan has none. */
  function DispatchedOperation(status: KeySpanStatus): Option<KeySpanOperation>
  {
    match status
    case RunningKeySpan => None
    case AddingKeySpan => Some(KeySpanOperation(false, 0, OperDispatched))
    case RemovingKeySpan => Some(KeySpanOperation(true, 0, OperDispatched))
  }

  /** The operation a task status reports for keyspan `k`, if any. */
  function OperationAt(ts: TaskStatus, k: KeySpanID): Option<KeySpanOperation>
  {
    if k in ts.operation then Some(ts.operation[k]) else None
  }

  /**
    `ts` is the monitoring view of one capture's keyspans: every keyspan has a
    replica info with start timestamp 0, and exactly the adding and removing
    keyspans have a dispatched operation whose delete flag tells them apart.
   */
  ghost predicate ProjectsCapture(keyspans: map<KeySpanID, KeySpanRecord>, ts: TaskStatus)
  {
    && ts.keySpans.Keys == keyspans.Keys
    && (forall k :: k in ts.keySpans ==> ts.keySpans[k] == KeySpanReplicaInfo(0))
    && ts.operation.Keys <= keyspans.Keys
    && (forall k :: k in keyspans ==> OperationAt(ts, k) == DispatchedOperation(keyspans[k].status))
  }

  /** `ret` has exactly the captures of the grouped table, each projected. */
  ghost predicate ProjectsTaskStatuses(grouped: GroupedKeySpans, ret: map<CaptureID, TaskStatus>)
  {
    && ret.Keys == grouped.Keys
    && forall c :: c in ret ==> ProjectsCapture(grouped[c], ret[c])
  }

  /** `ret` has exactly the captures of `captureStatus`, with their watermarks copied. */
  ghost predicate ProjectsTaskPositions(captureStatus: map<CaptureID, CaptureStatus>, ret: map<CaptureID, TaskPosition>)
  {
    && ret.Keys == captureStatus.Keys
    && forall c :: c in ret ==>
         ret[c] == TaskPosition(captureStatus[c].checkpointTs, captureStatus[c].resolvedTs)
  }

  // ---------------------------------------------------------------------------
  // The dispatcher
  // ---------------------------------------------------------------------------

  class BaseScheduleDispatcher {
    /** The keyspan table as grouped by `GetAllKeySpansGroupedByCaptures`. */
    var keyspansByCapture: GroupedKeySpans
    /** The last status reported by each capture. */
    var captureStatus: map<CaptureID, CaptureStatus>

    /**
      The task status of every capture. The method changes nothing (it has no
      `modifies` clause) and never fails.
     */
    method GetTaskStatuses() returns (ret: map<CaptureID, TaskStatus>, err: Option<Error>)
      ensures ProjectsTaskStatuses(keyspansByCapture, ret)
      ensures err == None
    {
      var keyspansPerCapture := keyspansByCapture;
      ret := map[];
      var captures := keyspansPerCapture.Keys;
      while captures != {}
        invariant captures <= keyspansPerCapture.Keys
        invariant ret.Keys == keyspansPerCapture.Keys - captures
        invariant forall c :: c in ret ==> ProjectsCapture(keyspansPerCapture[c], ret[c])
        decreases captures
      {
        var captureID :| captureID in captures;
        captures := captures - {captureID};
        var keyspans := keyspansPerCapture[captureID];
        ret := ret[captureID := TaskStatus(map[], map[])];
        var pending := keyspans.Keys;
        while pending != {}
          invariant pending <= keyspans.Keys
          invariant captureID in ret
          invariant ret.Keys == keyspansPerCapture.Keys - captures
          invariant forall c :: c in ret && c != captureID ==> ProjectsCapture(keyspansPerCapture[c], ret[c])
          invariant ret[captureID].keySpans.Keys == keyspans.Keys - pending
          invariant forall k :: k in ret[captureID].keySpans ==> ret[captureID].keySpans[k] == KeySpanReplicaInfo(0)
          invariant ret[captureID].operation.Keys <= keyspans.Keys - pending
          invariant forall k :: k in keyspans && k !in pending ==>
                      OperationAt(ret[captureID], k) == DispatchedOperation(keyspans[k].status)
          decreases pending
        {
          var keyspanID :| keyspanID in pending;
          pending := pending - {keyspanID};
          var record := keyspans[keyspanID];
          var status := ret[captureID];
          ret := ret[captureID := status.(keySpans := status.keySpans[keyspanID := KeySpanReplicaInfo(0)])];
          match record.status
          case RunningKeySpan =>
          case AddingKeySpan =>
            status := ret[captureID];
            ret := ret[captureID := status.(operation := status.operation[keyspanID := KeySpanOperation(false, 0, OperDispatched)])];
          case RemovingKeySpan =>
            status := ret[captureID];
            ret := ret[captureID := status.(operation := status.operation[keyspanID := KeySpanOperation(true, 0, OperDispatched)])];
        }
      }
      err := None;
    }

    /**
      The watermarks of every capture. The method changes nothing (it has no
      `modifies` clause) and never fails.
     */
    method GetTaskPositions() returns (ret: map<CaptureID, TaskPosition>, err: Option<Error>)
      ensures ProjectsTaskPositions(captureStatus, ret)
      ensures err == None
    {
      ret := map[];
      var captures := captureStatus.Keys;
      while captures != {}
        invariant captures <= captureStatus.Keys
        invariant ret.Keys == captureStatus.Keys - captures
        invariant forall c :: c in ret ==>
                    ret[c] == TaskPosition(captureStatus[c].checkpointTs, captureStatus[c].resolvedTs)
        decreases captures
      {
        var captureID :| captureID in captures;
        captures := captures - {captureID};
        var st := captureStatus[captureID];
        ret := ret[captureID := TaskPosition(st.checkpointTs, st.resolvedTs)];
      }
      err := None;
    }
  }

  // ---------------------------------------------------------------------------
  // Properties of the projections
  // ---------------------------------------------------------------------------

  /** Reads a keyspan's phase back from the operation the projection reports. */
  function StatusOfOperation(op: Option<KeySpanOperation>): KeySpanStatus
  {
    match op
    case None => RunningKeySpan
    case Some(o) => if o.delete then RemovingKeySpan else AddingKeySpan
  }

  /** The reported operation encodes the phase without loss. */
  lemma StatusOfDispatchedOperation(status: KeySpanStatus)
    ensures StatusOfOperation(DispatchedOperation(status)) == status
    ensures DispatchedOperation(status).Some? <==> status != RunningKeySpan
  {
  }

  /**
    From a projected task status the phase of every keyspan of the table can be
    recovered, and the operation keys are exactly the adding and removing keyspans.
   */
  lemma StatusRecoverable(grouped: GroupedKeySpans, ret: map<CaptureID, TaskStatus>, c: CaptureID, k: KeySpanID)
    requires ProjectsTaskStatuses(grouped, ret)
    requires c in grouped && k in grouped[c]
    ensures c in ret && k in ret[c].keySpans
    ensures StatusOfOperation(OperationAt(ret[c], k)) == grouped[c][k].status
    ensures k in ret[c].operation <==> grouped[c][k].status != RunningKeySpan
  {
    StatusOfDispatchedOperation(grouped[c][k].status);
  }

  /** One capture's projection determines its task status. */
  lemma CaptureProjectionUnique(keyspans: map<KeySpanID, KeySpanRecord>, a: TaskStatus, b: TaskStatus)
    requires ProjectsCapture(keyspans, a) && ProjectsCapture(keyspans, b)
    ensures a == b
  {
  }

  /** The task-status projection leaves no freedom: it determines the result. */
  lemma TaskStatusesUnique(grouped: GroupedKeySpans, r1: map<CaptureID, TaskStatus>, r2: map<CaptureID, TaskStatus>)
    requires ProjectsTaskStatuses(grouped, r1) && ProjectsTaskStatuses(grouped, r2)
    ensures r1 == r2
  {
    forall c | c in r1
      ensures r1[c] == r2[c]
    {
      CaptureProjectionUnique(grouped[c], r1[c], r2[c]);
    }
  }

  /** The task-position projection determines the result. */
  lemma TaskPositionsUnique(captureStatus: map<CaptureID, CaptureStatus>, r1: map<CaptureID, TaskPosition>, r2: map<CaptureID, TaskPosition>)
    requires ProjectsTaskPositions(captureStatus, r1) && ProjectsTaskPositions(captureStatus, r2)
    ensures r1 == r2
  {
  }

  /** Copying the watermarks keeps every capture's checkpoint at or below its resolved timestamp. */
  lemma WatermarkOrderPreserved(captureStatus: map<CaptureID, CaptureStatus>, ret: map<CaptureID, TaskPosition>)
    requires ProjectsTaskPositions(captureStatus, ret)
    requires forall c :: c in captureStatus ==> captureStatus[c].checkpointTs <= captureStatus[c].resolvedTs
    ensures forall c :: c in ret ==> ret[c].checkPointTs <= ret[c].resolvedTs
  {
  }

}
