/** `CallRecordMappers`: the flat one-row form of a call record, which keeps only
    the latest detection's probability and model version. The two copies of the
    file (`entity.data.mappers` and `data.mappers`) differ only in whether the
    time columns are named in seconds or milliseconds. */
module CallRecordMappers {
  import opened Wrappers
  import opened Domain

  const DEEPFAKE_THRESHOLD: real := 0.7
  const UNKNOWN_VERSION: string := "unknown"

  datatype CallRecordEntity = CallRecordEntity(id: string, phoneNumber: string, displayName: Option<string>,
                                               startTime: int, endTime: Option<int>, direction: string,
                                               status: string, probability: real,
                                               modelVersion: Option<string>)

  /** `CallRecordEntity.toDomain()`: exactly one detection, flagged from 0.7 on; the
      detection time and the record's timestamps take the clock reading `now`. */
  function FlatToDomain(e: CallRecordEntity, now: int): (r: CallRecord)
    ensures |r.detections| == 1
    ensures r.detections[0].probability == e.probability
    ensures r.detections[0].isDeepfake <==> e.probability >= DEEPFAKE_THRESHOLD
    ensures r.detections[0].modelVersion == (if e.modelVersion.Some? then e.modelVersion.value else UNKNOWN_VERSION)
    ensures r.id == e.id && r.status == ParseStatus(e.status) && r.notes.None?
    ensures r.metadata == CallMetadata(e.phoneNumber, e.displayName, e.startTime, e.endTime,
                                       ParseDirection(e.direction), None, None, None)
  {
    var metadata := CallMetadata(e.phoneNumber, e.displayName, e.startTime, e.endTime,
                                 ParseDirection(e.direction), None, None, None);
    var detection := DetectionResult(e.probability, e.probability >= DEEPFAKE_THRESHOLD, now,
                                     e.modelVersion.GetOr(UNKNOWN_VERSION));
    CallRecord(e.id, metadata, ParseStatus(e.status), [detection], None, now, now)
  }

  /** `CallRecord.toEntity()`: the last detection's probability (0 with none) and
      model version (null with none). */
  function FlatToEntity(r: CallRecord): (e: CallRecordEntity)
    ensures e.id == r.id && e.status == StatusName(r.status)
    ensures e.startTime == r.metadata.startTime && e.endTime == r.metadata.endTime
    ensures e.direction == DirectionName(r.metadata.direction)
    ensures LastDetection(r).None? ==> e.probability == 0.0 && e.modelVersion.None?
    ensures LastDetection(r).Some? ==>
              e.probability == LastDetection(r).value.probability
              && e.modelVersion == Some(LastDetection(r).value.modelVersion)
  {
    var last := LastDetection(r);
    CallRecordEntity(r.id, r.metadata.phoneNumber, r.metadata.displayName, r.metadata.startTime,
                     r.metadata.endTime, DirectionName(r.metadata.direction), StatusName(r.status),
                     if last.Some? then last.value.probability else 0.0,
                     if last.Some? then Some(last.value.modelVersion) else None)
  }

  /** A row with a model version and valid enum names survives a read and a write. */
  lemma FlatRoundTrip(e: CallRecordEntity, now: int)
    requires e.modelVersion.Some?
    requires exists d :: DirectionName(d) == e.direction
    requires exists s :: StatusName(s) == e.status
    ensures FlatToEntity(FlatToDomain(e, now)) == e
  {
  }

  /** Without a model version the row comes back with "unknown" in its place. */
  lemma FlatVersionDefaulted(e: CallRecordEntity, now: int)
    requires e.modelVersion.None?
    ensures FlatToEntity(FlatToDomain(e, now)).modelVersion == Some(UNKNOWN_VERSION)
  {
  }

  /** Writing a record keeps only its latest detection: appending a detection and
      writing gives that detection's probability. */
  lemma FlatKeepsLatest(r: CallRecord, d: DetectionResult, now: int)
    ensures FlatToEntity(AppendDetection(r, d, now)).probability == d.probability
    ensures FlatToEntity(AppendDetection(r, d, now)).modelVersion == Some(d.modelVersion)
  {
    LastAfterAppend(r, d, now);
  }
}
