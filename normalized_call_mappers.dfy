/** `NormalizedCallMappers`: a call record is stored as a call row, a metadata row
    and one row per detection, and read back from the joined rows. */
module NormalizedCallMappers {
  import opened Wrappers
  import opened Ints
  import opened Text
  import opened Domain

  datatype CallEntity = CallEntity(id: string, userId: Option<int>, status: string, created: int,
                                   updated: int, notes: Option<string>)

  datatype CallMetadataEntity = CallMetadataEntity(callId: string, phoneNumber: string,
                                                   displayName: Option<string>, startTime: int,
                                                   endTime: Option<int>, direction: string,
                                                   durationSeconds: Option<int>)

  datatype DetectionResultEntity = DetectionResultEntity(id: string, callId: string, probability: real,
                                                         isDeepfake: bool, timestamp: int,
                                                         modelVersion: string, confidenceLevel: string)

  /** The joined rows of one call; the metadata row may be missing. */
  datatype CompleteCallRecord = CompleteCallRecord(call: CallEntity, metadata: Option<CallMetadataEntity>,
                                                   detections: seq<DetectionResultEntity>)

  const UNKNOWN_PHONE: string := "Unknown"

  /** The stored confidence band: HIGH from 0.8, MEDIUM from 0.5, LOW below. */
  function ConfidenceLevel(p: real): (level: string)
    ensures level == "HIGH" <==> p >= 0.8
    ensures level == "MEDIUM" <==> 0.5 <= p < 0.8
    ensures level == "LOW" <==> p < 0.5
  {
    if p >= 0.8 then "HIGH" else if p >= 0.5 then "MEDIUM" else "LOW"
  }

  /** `DetectionResultEntity.toDomain`. */
  function DetectionToDomain(e: DetectionResultEntity): (d: DetectionResult)
    ensures d.probability == e.probability && d.isDeepfake == e.isDeepfake
    ensures d.timestamp == e.timestamp && d.modelVersion == e.modelVersion
  {
    DetectionResult(e.probability, e.isDeepfake, e.timestamp, e.modelVersion)
  }

  /** `DetectionResult.toEntity(callId, detectionId)`. */
  function DetectionToEntity(d: DetectionResult, callId: string, detectionId: string): (e: DetectionResultEntity)
    ensures e.id == detectionId && e.callId == callId
    ensures e.confidenceLevel == ConfidenceLevel(d.probability)
  {
    DetectionResultEntity(detectionId, callId, d.probability, d.isDeepfake, d.timestamp, d.modelVersion,
                          ConfidenceLevel(d.probability))
  }

  /** Storing a detection and reading it back loses nothing. */
  lemma DetectionRoundTrip(d: DetectionResult, callId: string, detectionId: string)
    ensures DetectionToDomain(DetectionToEntity(d, callId, detectionId)) == d
  {
  }

  /** `CompleteCallRecord.toDomain`. */
  function CompleteToDomain(c: CompleteCallRecord): (r: CallRecord)
    ensures r.id == c.call.id && r.notes == c.call.notes
    ensures r.created == c.call.created && r.updated == c.call.updated
    ensures r.status == ParseStatus(c.call.status)
    ensures c.metadata.None? ==>
              r.metadata == CallMetadata(UNKNOWN_PHONE, None, c.call.created, None, UnknownDirection,
                                         None, None, None)
    ensures c.metadata.Some? ==>
              var m := c.metadata.value;
              r.metadata == CallMetadata(m.phoneNumber, m.displayName, m.startTime, m.endTime,
                                         ParseDirection(m.direction), None, None, None)
    ensures |r.detections| == |c.detections|
    ensures forall i :: 0 <= i < |c.detections| ==> r.detections[i] == DetectionToDomain(c.detections[i])
  {
    var metadata :=
      if c.metadata.Some? then
        var m := c.metadata.value;
        CallMetadata(m.phoneNumber, m.displayName, m.startTime, m.endTime, ParseDirection(m.direction), None, None, None)
      else
        CallMetadata(UNKNOWN_PHONE, None, c.call.created, None, UnknownDirection, None, None, None);
    var detections := seq(|c.detections|, i requires 0 <= i < |c.detections| => DetectionToDomain(c.detections[i]));
    CallRecord(c.call.id, metadata, ParseStatus(c.call.status), detections, c.call.notes,
               c.call.created, c.call.updated)
  }

  /** The id of the `index`-th detection row: `"<id>_detection_<index + 1>"`. */
  function DetectionId(id: string, index: nat): string {
    id + "_detection_" + NatToString(index + 1)
  }

  /** Detection row ids are distinct within a call. */
  lemma DetectionIdsDistinct(id: string, i: nat, j: nat)
    requires i != j
    ensures DetectionId(id, i) != DetectionId(id, j)
  {
    var p := id + "_detection_";
    if DetectionId(id, i) == DetectionId(id, j) {
      var a := NatToString(i + 1);
      var b := NatToString(j + 1);
      assert |p + a| == |p + b|;
      assert a == (p + a)[|p|..];
      assert b == (p + b)[|p|..];
      NatToStringInjective(i + 1, j + 1);
    }
  }

  /** The stored duration: `((end - start) / 1000).toInt()` with `Long` arithmetic. */
  function StoredDurationSeconds(m: CallMetadata): (d: Option<int>)
    ensures d.None? <==> m.endTime.None?
    ensures d.Some? ==> IsInt32(d.value)
  {
    if m.endTime.None? then None
    else Some(ToInt32(TruncDiv(ToInt64(m.endTime.value - m.startTime), 1000)))
  }

  /** For ordinary clock readings the stored duration is the whole seconds elapsed. */
  lemma StoredDurationWholeSeconds(m: CallMetadata)
    requires m.endTime.Some? && 0 <= m.startTime <= m.endTime.value
    requires m.endTime.value - m.startTime < 1000 * (INT32_MAX + 1)
    ensures StoredDurationSeconds(m) == Some((m.endTime.value - m.startTime) / 1000)
  {
    var diff := m.endTime.value - m.startTime;
    assert diff <= INT64_MAX;
    assert TruncDiv(diff, 1000) == diff / 1000;
  }

  /** `CallRecord.toEntities(userId)`. */
  function ToEntities(r: CallRecord, userId: Option<int>)
    : (t: (CallEntity, CallMetadataEntity, seq<DetectionResultEntity>))
    ensures t.0 == CallEntity(r.id, userId, StatusName(r.status), r.created, r.updated, r.notes)
    ensures t.1.callId == r.id && t.1.phoneNumber == r.metadata.phoneNumber
    ensures t.1.startTime == r.metadata.startTime && t.1.endTime == r.metadata.endTime
    ensures t.1.direction == DirectionName(r.metadata.direction)
    ensures |t.2| == |r.detections|
    ensures forall i :: 0 <= i < |t.2| ==>
              t.2[i] == DetectionToEntity(r.detections[i], r.id, DetectionId(r.id, i)) && t.2[i].callId == r.id
  {
    var call := CallEntity(r.id, userId, StatusName(r.status), r.created, r.updated, r.notes);
    var m := r.metadata;
    var meta := CallMetadataEntity(r.id, m.phoneNumber, m.displayName, m.startTime, m.endTime,
                                   DirectionName(m.direction), StoredDurationSeconds(m));
    var dets := seq(|r.detections|, i requires 0 <= i < |r.detections| =>
                      DetectionToEntity(r.detections[i], r.id, DetectionId(r.id, i)));
    (call, meta, dets)
  }

  /** Storing a record and reading back its joined rows gives the record back,
      except for the location, carrier and call-type label, which have no column. */
  lemma RecordRoundTrip(r: CallRecord, userId: Option<int>)
    requires r.metadata.location.None? && r.metadata.carrier.None? && r.metadata.callTypeLabel.None?
    ensures var t := ToEntities(r, userId);
            CompleteToDomain(CompleteCallRecord(t.0, Some(t.1), t.2)) == r
  {
    var t := ToEntities(r, userId);
    var back := CompleteToDomain(CompleteCallRecord(t.0, Some(t.1), t.2));
    StatusRoundTrip(r.status);
    DirectionRoundTrip(r.metadata.direction);
    assert back.metadata == r.metadata;
    assert back.detections == r.detections;
  }
}
