/** `SaveDetectionAlertUseCase`: builds a CRITICAL alert for a call whose detection
    crossed the threshold and stores it with a single upsert. The random UUID and
    the clock reading are parameters. */
module SaveDetectionAlert {
  import opened Wrappers
  import opened Ints
  import opened Text
  import opened Domain
  import opened AlertEventMappers

  /** `"Deepfake probability ${(probability * 100).toInt()}% detected."` */
  function AlertMessage(probability: real): string {
    "Deepfake probability " + IntToString(FloatToInt(probability * 100.0)) + "% detected."
  }

  /** The whole percentage a probability in [0, 1] shows: between 0 and 100, and
      within one point below the exact value. */
  lemma AlertPercentInRange(probability: real)
    requires 0.0 <= probability <= 1.0
    ensures 0 <= FloatToInt(probability * 100.0) <= 100
    ensures FloatToInt(probability * 100.0) as real <= probability * 100.0
              < FloatToInt(probability * 100.0) as real + 1.0
  {
    assert TruncReal(probability * 100.0) <= 100;
  }

  /** The alert the use case builds. */
  function BuildAlert(id: string, callId: string, probability: real, now: int): (a: AlertEvent)
    ensures a.id == id && a.callId == callId && a.trigger == now && a.probability == probability
    ensures a.severity == Critical && a.actionsTaken == {NotifiedUser}
    ensures !a.acknowledged && a.acknowledgedAt.None?
    ensures a.message == AlertMessage(probability)
  {
    AlertEvent(id, callId, now, Critical, probability, AlertMessage(probability), {NotifiedUser}, false, None)
  }

  /** The alert survives the write to its table row and the read back. */
  lemma BuiltAlertStoresExactly(id: string, callId: string, probability: real, now: int,
                                detectionId: Option<string>)
    ensures var a := BuildAlert(id, callId, probability, now);
            AlertToDomain(AlertToEntity(a, [NotifiedUser], detectionId)) == a
            && AlertToEntity(a, [NotifiedUser], detectionId).actions == "NOTIFIED_USER"
            && AlertToEntity(a, [NotifiedUser], detectionId).severity == "CRITICAL"
  {
    var a := BuildAlert(id, callId, probability, now);
    AlertRoundTrip(a, [NotifiedUser], detectionId);
    assert ActionNames([NotifiedUser]) == ["NOTIFIED_USER"];
  }

  /** The alert table, keyed by alert id; `upserts` counts the writes. */
  class AlertRepository {
    var alerts: map<string, AlertEvent>
    var upserts: nat

    constructor()
      ensures alerts == map[] && upserts == 0
    {
      alerts := map[];
      upserts := 0;
    }

    /** `upsert`: inserts the alert, replacing any alert with the same id. */
    method Upsert(a: AlertEvent)
      modifies this
      ensures alerts == old(alerts)[a.id := a] && upserts == old(upserts) + 1
    {
      alerts := alerts[a.id := a];
      upserts := upserts + 1;
    }
  }

  class SaveDetectionAlertUseCase {
    const repository: AlertRepository

    constructor(repository: AlertRepository)
      ensures this.repository == repository
    {
      this.repository := repository;
    }

    /** `invoke(callId, probability)`: exactly one write, of the built alert. */
    method Invoke(callId: string, probability: real, id: string, now: int)
      modifies repository
      ensures repository.alerts == old(repository.alerts)[id := BuildAlert(id, callId, probability, now)]
      ensures repository.upserts == old(repository.upserts) + 1
    {
      var alert := BuildAlert(id, callId, probability, now);
      repository.Upsert(alert);
    }
  }
}
