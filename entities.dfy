/** The domain values: call records with their metadata and detection history,
    detection sessions, feature vectors, accounts, settings and alert events,
    with the enum names the persistence layer stores. The two packages of the
    app (`entity.domain.entities` and `domain.entities`) hold the same records and
    differ only in whether a timestamp is named in seconds or in milliseconds;
    one record type with unit-neutral field names stands for both. */
module Domain {
  import opened Wrappers
  import opened Ints

  // ------------------------------------------------------------------ enums

  datatype CallStatus = Pending | Active | Completed | Dropped | Blocked | Unknown

  function StatusName(s: CallStatus): string {
    match s
    case Pending => "PENDING"
    case Active => "ACTIVE"
    case Completed => "COMPLETED"
    case Dropped => "DROPPED"
    case Blocked => "BLOCKED"
    case Unknown => "UNKNOWN"
  }

  /** `runCatching { CallStatus.valueOf(name) }.getOrDefault(UNKNOWN)`. */
  function ParseStatus(name: string): (s: CallStatus)
    ensures (exists t :: StatusName(t) == name) ==> StatusName(s) == name
    ensures (forall t :: StatusName(t) != name) ==> s == Unknown
  {
    if name == "PENDING" then Pending
    else if name == "ACTIVE" then Active
    else if name == "COMPLETED" then Completed
    else if name == "DROPPED" then Dropped
    else if name == "BLOCKED" then Blocked
    else Unknown
  }

  lemma StatusRoundTrip(s: CallStatus)
    ensures ParseStatus(StatusName(s)) == s
  {
  }

  datatype CallDirection = Incoming | Outgoing | UnknownDirection

  function DirectionName(d: CallDirection): string {
    match d
    case Incoming => "INCOMING"
    case Outgoing => "OUTGOING"
    case UnknownDirection => "UNKNOWN"
  }

  /** `runCatching { CallDirection.valueOf(name) }.getOrDefault(UNKNOWN)`. */
  function ParseDirection(name: string): (d: CallDirection)
    ensures (exists t :: DirectionName(t) == name) ==> DirectionName(d) == name
    ensures (forall t :: DirectionName(t) != name) ==> d == UnknownDirection
  {
    if name == "INCOMING" then Incoming
    else if name == "OUTGOING" then Outgoing
    else UnknownDirection
  }

  lemma DirectionRoundTrip(d: CallDirection)
    ensures ParseDirection(DirectionName(d)) == d
  {
  }

  datatype AlertSeverity = Warning | Critical

  function SeverityName(s: AlertSeverity): string {
    match s
    case Warning => "WARNING"
    case Critical => "CRITICAL"
  }

  /** `runCatching { AlertSeverity.valueOf(name) }.getOrDefault(WARNING)`. */
  function ParseSeverity(name: string): (s: AlertSeverity)
    ensures (exists t :: SeverityName(t) == name) ==> SeverityName(s) == name
    ensures (forall t :: SeverityName(t) != name) ==> s == Warning
  {
    if name == "CRITICAL" then Critical else Warning
  }

  datatype AlertAction = NotifiedUser | CallFlagged

  function ActionName(a: AlertAction): (name: string)
    ensures |name| > 0 && ',' !in name
  {
    match a
    case NotifiedUser => "NOTIFIED_USER"
    case CallFlagged => "CALL_FLAGGED"
  }

  /** `runCatching { AlertAction.valueOf(name) }.getOrNull()`. */
  function ParseAction(name: string): (a: Option<AlertAction>)
    ensures a.Some? <==> exists t :: ActionName(t) == name
    ensures a.Some? ==> ActionName(a.value) == name
  {
    if name == "NOTIFIED_USER" then assert ActionName(NotifiedUser) == name; Some(NotifiedUser)
    else if name == "CALL_FLAGGED" then assert ActionName(CallFlagged) == name; Some(CallFlagged)
    else None
  }

  datatype UserRole = Admin | Registered

  function RoleName(r: UserRole): string {
    match r
    case Admin => "ADMIN"
    case Registered => "REGISTERED"
  }

  /** `UserRole.valueOf(name)`, which throws on an unknown name. */
  function ParseRole(name: string): (r: Result<UserRole>)
    ensures r.Success? <==> exists t :: RoleName(t) == name
    ensures r.Success? ==> RoleName(r.value) == name
  {
    if name == "ADMIN" then assert RoleName(Admin) == name; Success(Admin)
    else if name == "REGISTERED" then assert RoleName(Registered) == name; Success(Registered)
    else Failure("No enum constant UserRole." + name)
  }

  // --------------------------------------------------------------- durations

  /** The `durationMillis`/`durationSeconds` getters: `end - start` as a `Long`,
      null when there is no end or the difference is negative. */
  function Duration(start: int, end: Option<int>): (d: Option<int>)
    ensures end.None? ==> d.None?
    ensures d.Some? ==> d.value >= 0
  {
    if end.None? then None
    else
      var diff := ToInt64(end.value - start);
      if diff >= 0 then Some(diff) else None
  }

  /** For timestamps of the same sign (every clock reading is non-negative) the
      duration is exactly the elapsed time when the end is not before the start,
      and null otherwise. */
  lemma DurationExact(start: int, end: int)
    requires 0 <= start <= INT64_MAX && 0 <= end <= INT64_MAX
    ensures end >= start ==> Duration(start, Some(end)) == Some(end - start)
    ensures end < start ==> Duration(start, Some(end)) == None
  {
  }

  /** The subtraction is a `Long` one: far-apart timestamps of opposite signs wrap
      around, and the getter then reports no duration although the end is after
      the start. */
  lemma DurationWraps()
    ensures Duration(-1, Some(INT64_MAX)) == None
  {
    assert INT64_MAX - (-1) == INT64_MAX + 1;
    assert ToInt64(INT64_MAX + 1) == INT64_MIN;
  }

  // ------------------------------------------------------------ call records

  datatype DetectionResult = DetectionResult(probability: real, isDeepfake: bool, timestamp: int,
                                             modelVersion: string)

  const DEFAULT_MODEL_VERSION: string := "0.0.1"

  /** A detection with the defaulted timestamp (the clock) and model version. */
  function NewDetection(probability: real, isDeepfake: bool, now: int): (d: DetectionResult)
    ensures d.probability == probability && d.isDeepfake == isDeepfake
    ensures d.timestamp == now && d.modelVersion == DEFAULT_MODEL_VERSION
  {
    DetectionResult(probability, isDeepfake, now, DEFAULT_MODEL_VERSION)
  }

  /** `LocationTag`: where the call was placed. */
  datatype LocationTag = LocationTag(latitude: real, longitude: real, accuracyMeters: Option<real>,
                                     source: Option<string>)

  datatype CallMetadata = CallMetadata(phoneNumber: string, displayName: Option<string>, startTime: int,
                                       endTime: Option<int>, direction: CallDirection,
                                       location: Option<LocationTag>,
                                       carrier: Option<string>, callTypeLabel: Option<string>)

  /** A call's metadata with every defaulted field left at its default. */
  function NewCallMetadata(phoneNumber: string, startTime: int): (m: CallMetadata)
    ensures m.phoneNumber == phoneNumber && m.startTime == startTime
    ensures m.displayName.None? && m.endTime.None? && m.direction == UnknownDirection
    ensures m.location.None? && m.carrier.None? && m.callTypeLabel.None?
  {
    CallMetadata(phoneNumber, None, startTime, None, UnknownDirection, None, None, None)
  }

  function CallDuration(m: CallMetadata): (d: Option<int>)
    ensures m.endTime.None? ==> d.None?
    ensures d.Some? ==> d.value >= 0
  {
    Duration(m.startTime, m.endTime)
  }

  datatype CallRecord = CallRecord(id: string, metadata: CallMetadata, status: CallStatus,
                                   detections: seq<DetectionResult>, notes: Option<string>,
                                   created: int, updated: int)

  /** A record with every defaulted field at its default; both timestamps are the clock. */
  function NewCallRecord(id: string, metadata: CallMetadata, now: int): (r: CallRecord)
    ensures r.id == id && r.metadata == metadata
    ensures r.status == Unknown && r.detections == [] && r.notes.None?
    ensures r.created == now && r.updated == now
  {
    CallRecord(id, metadata, Unknown, [], None, now, now)
  }

  /** `lastDetection`: `detections.lastOrNull()`. */
  function LastDetection(r: CallRecord): (d: Option<DetectionResult>)
    ensures d.None? <==> |r.detections| == 0
    ensures d.Some? ==> d.value == r.detections[|r.detections| - 1]
  {
    if |r.detections| == 0 then None else Some(r.detections[|r.detections| - 1])
  }

  /** `appendDetection`: the history grows by `d`; only the update time changes besides. */
  function AppendDetection(r: CallRecord, d: DetectionResult, now: int): (r2: CallRecord)
    ensures |r2.detections| == |r.detections| + 1
    ensures r2.detections[..|r.detections|] == r.detections
    ensures r2.id == r.id && r2.metadata == r.metadata && r2.status == r.status
    ensures r2.notes == r.notes && r2.created == r.created && r2.updated == now
  {
    var r2 := r.(detections := r.detections + [d], updated := now);
    assert r2.detections[..|r.detections|] == r.detections;
    r2
  }

  /** After appending, the appended detection is the last one. */
  lemma LastAfterAppend(r: CallRecord, d: DetectionResult, now: int)
    ensures LastDetection(AppendDetection(r, d, now)) == Some(d)
  {
  }

  /** Appending several detections in turn keeps every earlier one, in order. */
  lemma {:induction false} AppendAllKeepsHistory(r: CallRecord, ds: seq<DetectionResult>, now: int)
    ensures AppendAll(r, ds, now).detections == r.detections + ds
    decreases |ds|
  {
    if |ds| > 0 {
      AppendAllKeepsHistory(AppendDetection(r, ds[0], now), ds[1..], now);
      assert r.detections + [ds[0]] + ds[1..] == r.detections + ds;
    }
  }

  function AppendAll(r: CallRecord, ds: seq<DetectionResult>, now: int): CallRecord
    decreases |ds|
  {
    if |ds| == 0 then r else AppendAll(AppendDetection(r, ds[0], now), ds[1..], now)
  }

  // --------------------------------------------------------- detection sessions

  datatype SessionStatus = SessionRunning | SessionCompleted | SessionFailed

  datatype DetectionSession = DetectionSession(sessionId: string, callId: string, started: int,
                                               ended: Option<int>, status: SessionStatus,
                                               probabilities: seq<real>,
                                               finalResult: Option<DetectionResult>)

  /** A session with every defaulted field at its default. */
  function NewSession(sessionId: string, callId: string, now: int): (s: DetectionSession)
    ensures s.sessionId == sessionId && s.callId == callId && s.started == now
    ensures s.status == SessionRunning && s.probabilities == []
    ensures s.ended.None? && s.finalResult.None?
  {
    DetectionSession(sessionId, callId, now, None, SessionRunning, [], None)
  }

  function SessionDuration(s: DetectionSession): (d: Option<int>)
    ensures s.ended.None? ==> d.None?
    ensures d.Some? ==> d.value >= 0
  {
    Duration(s.started, s.ended)
  }

  /** A session that has not ended has no duration, whatever its start. */
  lemma NewSessionHasNoDuration(sessionId: string, callId: string, now: int)
    ensures SessionDuration(NewSession(sessionId, callId, now)).None?
  {
  }

  // ---------------------------------------------------------- feature vectors

  datatype FeatureVector = FeatureVector(frameCount: int, featureDimension: int, sampleRate: int,
                                         values: seq<real>, extraction: int)

  predicate IsInt32(x: int) { INT32_MIN <= x <= INT32_MAX }

  /** The object invariant the `init` check is meant to establish. */
  predicate ShapeMatches(v: FeatureVector) {
    |v.values| == v.frameCount * v.featureDimension
  }

  /** The constructor as written: `require(values.size == frameCount * featureDimension)`
      with the product in 32-bit `Int` arithmetic. */
  function MakeFeatureVector(frameCount: int, featureDimension: int, sampleRate: int,
                             values: seq<real>, now: int): (r: Result<FeatureVector>)
    requires IsInt32(frameCount) && IsInt32(featureDimension)
    ensures r.Success? <==> |values| == ToInt32(frameCount * featureDimension)
    ensures r.Success? ==> r.value == FeatureVector(frameCount, featureDimension, sampleRate, values, now)
    ensures ToInt32(frameCount * featureDimension) < 0 ==> r.Failure?
  {
    var expected := ToInt32(frameCount * featureDimension);
    if |values| == expected then Success(FeatureVector(frameCount, featureDimension, sampleRate, values, now))
    else Failure("FeatureVector values size does not match")
  }

  /** The 32-bit product wraps: 65536 frames of dimension 65536 multiply to 0, so
      the check accepts an empty array for a shape that calls for 2^32 values. */
  lemma FeatureVectorWrapAccepted()
    ensures var r := MakeFeatureVector(65536, 65536, 16000, [], 0);
            r.Success? && !ShapeMatches(r.value)
  {
    assert 65536 * 65536 == TWO_POW_32;
    assert ToInt32(TWO_POW_32) == 0;
  }

  /** The check with the product computed exactly (as `Math.multiplyExact` or a
      `Long` product would): construction succeeds iff the shape matches. */
  function MakeFeatureVectorExact(frameCount: int, featureDimension: int, sampleRate: int,
                                  values: seq<real>, now: int): (r: Result<FeatureVector>)
    ensures r.Success? <==> |values| == frameCount * featureDimension
    ensures r.Success? ==> ShapeMatches(r.value)
    ensures r.Success? ==> r.value == FeatureVector(frameCount, featureDimension, sampleRate, values, now)
  {
    if |values| == frameCount * featureDimension then
      Success(FeatureVector(frameCount, featureDimension, sampleRate, values, now))
    else Failure("FeatureVector values size does not match")
  }

  /** The two checks agree whenever the product fits in an `Int`. */
  lemma ExactAgreesWithoutOverflow(frameCount: int, featureDimension: int, sampleRate: int,
                                   values: seq<real>, now: int)
    requires IsInt32(frameCount) && IsInt32(featureDimension) && IsInt32(frameCount * featureDimension)
    ensures MakeFeatureVector(frameCount, featureDimension, sampleRate, values, now)
         == MakeFeatureVectorExact(frameCount, featureDimension, sampleRate, values, now)
  {
  }

  // ------------------------------------------------------- accounts, settings

  datatype UserAccount = UserAccount(id: int, username: string, displayName: string, role: UserRole,
                                     createdAt: int)

  datatype UserSettings = UserSettings(threshold: real, allowBackgroundMonitoring: bool,
                                       analyticsConsent: bool, realTimeDetectionEnabled: bool,
                                       preferredAlertSeverity: AlertSeverity,
                                       defaultAlertActions: set<AlertAction>,
                                       autoBlockUnknownNumbers: bool, autoBlockRepeatOffenders: bool)

  /** `UserSettings()`: every option at its default. */
  const DEFAULT_SETTINGS: UserSettings :=
    UserSettings(0.7, false, false, true, Warning, {NotifiedUser}, false, false)

  // ---------------------------------------------------------------- alerts

  datatype AlertEvent = AlertEvent(id: string, callId: string, trigger: int, severity: AlertSeverity,
                                   probability: real, message: string, actionsTaken: set<AlertAction>,
                                   acknowledged: bool, acknowledgedAt: Option<int>)
}
