/** `AppMainViewModel`: the screen state of the app and the decisions it takes when
    the user toggles real-time detection, logs in or out, or runs the model on a
    demo clip. The UI state is the immutable `AppUiState` the view model replaces
    on every update; the calls it makes into other components (the detection
    controller, the settings and call repositories, the alert use case, the alert
    handler) are recorded in order. Permission checks, the clock, random values
    and repository outcomes are parameters. */
module AppMainViewModel {
  import opened Wrappers
  import opened Ints
  import opened Domain
  import opened Text
  import opened SummaryUtils
  import opened UserRoleMapper

  datatype Screen = LoadingScreen | LoginScreen | RegisterScreen | SummaryScreen | CallHistoryScreen | DashboardScreen

  datatype ModelTestResult = ModelTestResult(status: string, selectedFile: Option<string>, score: Option<real>)

  const IDLE_MODEL_TEST: ModelTestResult := ModelTestResult("Idle", None, None)

  datatype UiState = UiState(screen: Screen, currentUser: Option<UserAccount>, userSettings: UserSettings,
                             users: seq<UserAccount>, callRecords: seq<CallRecord>, message: Option<string>,
                             isBusy: bool, modelTest: ModelTestResult)

  /** `AppUiState()`. */
  const INITIAL_STATE: UiState := UiState(LoadingScreen, None, DEFAULT_SETTINGS, [], [], None, false, IDLE_MODEL_TEST)

  const MSG_PERMISSION_REQUIRED: string := "Microphone permission required to enable detection"
  const MSG_ENABLE_PERMISSION: string := "Enable microphone permission to resume detection"
  const MSG_LOGGED_OUT: string := "Logged out"
  const MSG_MODEL_ALERT: string := "Alert triggered by model test."
  const STATUS_DONE: string := "Done"
  const STATUS_FAILED: string := "Failed (see logcat)"
  const TEST_CALL_NAME: string := "Test Audio Call"
  const MSG_REGISTERED: string := "Registration successful. Please log in."

  /** A call into `DetectionController`. */
  datatype ControllerCall = StartMonitoring | StopMonitoring

  // ------------------------------------------------------------ decisions

  /** What `setRealTimeDetection(enabled)` does for a signed-in user: the flag it
      stores, the controller call it makes (if any) and whether it warns. */
  datatype ToggleOutcome = ToggleOutcome(flag: bool, call: Option<ControllerCall>, warn: bool)

  function ToggleDecision(enabled: bool, hasPermission: bool): (o: ToggleOutcome)
    ensures o.flag <==> enabled && hasPermission
    ensures o.call == Some(StartMonitoring) <==> enabled && hasPermission
    ensures o.call == Some(StopMonitoring) <==> !enabled
    ensures o.warn <==> o.call.None?
    ensures o.warn <==> enabled && !hasPermission
  {
    if enabled && !hasPermission then ToggleOutcome(false, None, true)
    else ToggleOutcome(enabled, Some(if enabled then StartMonitoring else StopMonitoring), false)
  }

  /** The monitoring gate after a successful login: start when detection is on and
      the microphone is allowed; otherwise prompt, but only users who are not
      administrators. */
  datatype LoginGate = LoginGate(start: bool, prompt: bool)

  function LoginDecision(detectionEnabled: bool, hasPermission: bool, role: UserRole): (g: LoginGate)
    ensures g.start <==> detectionEnabled && hasPermission
    ensures g.prompt <==> detectionEnabled && !hasPermission && role != Admin
    ensures !(g.start && g.prompt)
  {
    LoginGate(detectionEnabled && hasPermission, detectionEnabled && !hasPermission && role != Admin)
  }

  /** `modelRunResult?.score ?: 0.0f`: `None` is a failed or null run, `Some(None)`
      a run without a score. */
  function ModelTestProbability(run: Option<Option<real>>): (p: real)
    ensures run.Some? && run.value.Some? ==> p == run.value.value
    ensures run.None? || run.value.None? ==> p == 0.0
  {
    if run.Some? && run.value.Some? then run.value.value else 0.0
  }

  /** What one model test decides, from the run, the threshold and whether the call
      record was stored. */
  datatype ModelTestOutcome = ModelTestOutcome(probability: real, isDeepfake: bool, raiseAlert: bool,
                                               refresh: bool, status: string, message: Option<string>)

  function ModelTestDecision(run: Option<Option<real>>, threshold: real, saved: bool): (o: ModelTestOutcome)
    ensures o.probability == ModelTestProbability(run)
    ensures o.isDeepfake <==> o.probability >= threshold
    ensures o.raiseAlert <==> o.isDeepfake && saved
    ensures o.refresh <==> saved
    ensures o.status == (if run.Some? then STATUS_DONE else STATUS_FAILED)
    ensures o.message == (if o.isDeepfake then Some(MSG_MODEL_ALERT) else None)
  {
    var p := ModelTestProbability(run);
    var isDeepfake := p >= threshold;
    ModelTestOutcome(p, isDeepfake, isDeepfake && saved, saved, if run.Some? then STATUS_DONE else STATUS_FAILED,
                     if isDeepfake then Some(MSG_MODEL_ALERT) else None)
  }

  /** A failed run scores 0, so with a positive threshold it never raises an alert
      nor reports one. */
  lemma FailedRunNeverAlerts(threshold: real, saved: bool)
    requires threshold > 0.0
    ensures var o := ModelTestDecision(None, threshold, saved);
            !o.raiseAlert && o.message.None? && o.status == STATUS_FAILED
  {
  }

  /** When storing the call fails the alert is neither saved nor shown, yet the
      message still reports an alert for a score at or above the threshold. */
  lemma UnsavedDeepfakeStillReported(run: Option<Option<real>>, threshold: real)
    requires ModelTestProbability(run) >= threshold
    ensures var o := ModelTestDecision(run, threshold, false);
            !o.raiseAlert && !o.refresh && o.message == Some(MSG_MODEL_ALERT)
  {
  }

  /** Width of the decimal form of a three- or four-digit number. */
  lemma NatToStringWidth(n: nat)
    ensures 100 <= n < 1000 ==> |NatToString(n)| == 3
    ensures 1000 <= n < 10000 ==> |NatToString(n)| == 4
  {
    if 100 <= n < 10000 {
      assert |NatToString(n / 10 / 10)| <= 2;
      if n >= 1000 {
        assert |NatToString(n / 10 / 10 / 10)| == 1;
      }
    }
  }

  /** The random caller of a model test: `"+1 <area> <prefix> <line>"`. */
  function TestPhoneNumber(area: nat, prefix: nat, line: nat): string {
    "+1 " + NatToString(area) + " " + NatToString(prefix) + " " + NatToString(line)
  }

  /** Drawn from 200..999, 200..999 and 1000..9999, the number is 15 characters
      long and its space-separated fields read back as the drawn values. */
  lemma TestPhoneNumberReadsBack(area: nat, prefix: nat, line: nat)
    requires 200 <= area <= 999 && 200 <= prefix <= 999 && 1000 <= line <= 9999
    ensures |TestPhoneNumber(area, prefix, line)| == 15
    ensures Split(TestPhoneNumber(area, prefix, line), ' ') ==
              ["+1", NatToString(area), NatToString(prefix), NatToString(line)]
    ensures DigitsValue(NatToString(area)) == area && DigitsValue(NatToString(prefix)) == prefix
    ensures DigitsValue(NatToString(line)) == line
  {
    NatToStringWidth(area);
    NatToStringWidth(prefix);
    NatToStringWidth(line);
    var parts := ["+1", NatToString(area), NatToString(prefix), NatToString(line)];
    assert Join(parts[3..], ' ') == parts[3];
    assert Join(parts[2..], ' ') == parts[2] + " " + parts[3] by {
      assert parts[2..][1..] == parts[3..];
    }
    assert Join(parts[1..], ' ') == parts[1] + " " + parts[2] + " " + parts[3] by {
      assert parts[1..][1..] == parts[2..];
    }
    assert Join(parts, ' ') == TestPhoneNumber(area, prefix, line);
    forall j | 0 <= j < |parts| ensures ' ' !in parts[j] {
      if j > 0 {
        assert IsDigits(parts[j]);
        forall k | 0 <= k < |parts[j]| ensures parts[j][k] != ' ' {
          assert '0' <= parts[j][k] <= '9';
        }
      }
    }
    SplitJoin(parts, ' ');
    NatToStringRoundTrip(area);
    NatToStringRoundTrip(prefix);
    NatToStringRoundTrip(line);
  }

  lemma TestCallLasts30(nowSeconds: int)
    ensures 60 <= nowSeconds <= INT64_MAX ==> Duration(nowSeconds - 60, Some(nowSeconds - 30)) == Some(30)
  {
    if 60 <= nowSeconds <= INT64_MAX {
      DurationExact(nowSeconds - 60, nowSeconds - 30);
    }
  }

  /** The demo call the model test stores: an incoming, completed call that started
      60 s and ended 30 s before `nowSeconds`, with one detection. */
  function TestCallRecord(callId: string, phoneNumber: string, probability: real, isDeepfake: bool,
                          nowSeconds: int): (r: CallRecord)
    ensures r.status == Completed && r.metadata.direction == Incoming
    ensures LastDetection(r) == Some(NewDetection(probability, isDeepfake, nowSeconds))
    ensures 60 <= nowSeconds <= INT64_MAX ==> CallDuration(r.metadata) == Some(30)
  {
    var metadata := CallMetadata(phoneNumber, Some(TEST_CALL_NAME), nowSeconds - 60, Some(nowSeconds - 30),
                                 Incoming, None, None, None);
    TestCallLasts30(nowSeconds);
    CallRecord(callId, metadata, Completed, [NewDetection(probability, isDeepfake, nowSeconds)], None,
               nowSeconds, nowSeconds)
  }

  // ------------------------------------------------------------ login

  /** The profile the authentication server returns; `idHash` is
      `profile.id.hashCode()`. */
  datatype LoginProfile = LoginProfile(idHash: int, username: string, displayName: string, role: string,
                                       createdAt: int)

  /** The account built from a profile; the role goes through `mapUserRole`. */
  function ProfileToAccount(p: LoginProfile): (u: UserAccount)
    ensures u.id == p.idHash && u.username == p.username && u.displayName == p.displayName
    ensures u.createdAt == p.createdAt
    ensures u.role == Admin <==> Lower(p.role) == "admin"
  {
    UserAccount(p.idHash, p.username, p.displayName, MapUserRole(p.role), p.createdAt)
  }

  /** With the role mapping as written every account is REGISTERED, so an
      administrator whose microphone is off is prompted too; with the corrected
      mapping they are not. */
  lemma AdminPromptedAsWritten()
    ensures LoginDecision(true, false, MapUserRoleAsWritten("admin")).prompt
    ensures !LoginDecision(true, false, MapUserRole("admin")).prompt
  {
    AsWrittenAlwaysRegistered("admin");
    assert Lower("admin") == "admin";
  }

  // ------------------------------------------------------------ aggregates

  /** One row of the daily or weekly aggregate query. */
  datatype AggregateResult = AggregateResult(period: string, total: nat, answered: nat, missed: nat,
                                             suspicious: nat, blocked: nat, avgConfidence: Option<real>)

  /** `aggregateSummary`'s row mapping: warned is `(suspicious - blocked)` floored at
      0 and a missing average becomes -1. */
  function AggregateToMetrics(r: AggregateResult): (m: SummaryMetrics)
    ensures m.periodLabel == r.period && m.totalCalls == r.total && m.suspicious == r.suspicious
    ensures m.answered == r.answered && m.missed == r.missed && m.blocked == r.blocked
    ensures m.warned <= m.suspicious
    ensures m.warned == 0 <==> m.suspicious <= m.blocked
    ensures m.warned + m.blocked >= m.suspicious
    ensures r.avgConfidence.None? ==> m.avgConfidence == NO_AVERAGE
    ensures r.avgConfidence.Some? ==> m.avgConfidence == r.avgConfidence.value
  {
    SummaryMetrics(r.period, r.total, r.answered, r.missed, r.suspicious, r.blocked,
                   Max(r.suspicious - r.blocked, 0), r.avgConfidence.GetOr(NO_AVERAGE))
  }

  /** The aggregate's warned figure never exceeds the one counted record by record:
      the record count leaves out only blocked suspicious calls, the aggregate
      subtracts every blocked call. */
  lemma AggregateWarnedIsLowerBound(rs: seq<CallRecord>, period: string, avg: Option<real>)
    ensures var m := SummarizeRecords(rs);
            var a := AggregateToMetrics(AggregateResult(period, m.totalCalls, m.answered, m.missed,
                                                        m.suspicious, m.blocked, avg));
            a.warned <= m.warned
  {
  }

  /** `aggregateSummary`: every row mapped, in order. */
  function AggregateSummary(rows: seq<AggregateResult>): (ms: seq<SummaryMetrics>)
    ensures |ms| == |rows|
    ensures forall i :: 0 <= i < |rows| ==> ms[i] == AggregateToMetrics(rows[i])
  {
    seq(|rows|, i requires 0 <= i < |rows| => AggregateToMetrics(rows[i]))
  }

  // ------------------------------------------------------------ the view model

  /** `currentUser?.id`. */
  function UserIdOf(u: Option<UserAccount>): Option<int> {
    if u.Some? then Some(u.value.id) else None
  }

  class AppMainViewModel {
    var state: UiState
    /** Calls into the detection controller, in order. */
    var controllerCalls: seq<ControllerCall>
    /** `settingsRepository.update(userId, settings)` calls, in order. */
    var settingsWrites: seq<(int, UserSettings)>
    /** `callRepository.upsert(record, userId)` calls that completed. */
    var savedCalls: seq<(CallRecord, Option<int>)>
    /** `saveDetectionAlert(callId, probability)` calls. */
    var savedAlerts: seq<(string, real)>
    /** `displayCriticalAlert(probability)` calls. */
    var displayedAlerts: seq<real>
    /** Dashboard reloads started by `refreshDashboard`. */
    var refreshes: nat

    constructor()
      ensures state == INITIAL_STATE
      ensures controllerCalls == [] && settingsWrites == [] && savedCalls == []
      ensures savedAlerts == [] && displayedAlerts == [] && refreshes == 0
    {
      state := INITIAL_STATE;
      controllerCalls := [];
      settingsWrites := [];
      savedCalls := [];
      savedAlerts := [];
      displayedAlerts := [];
      refreshes := 0;
    }

    /** `init`, once the default administrator exists: show the login screen. */
    method Initialized()
      modifies this
      ensures state == old(state).(screen := LoginScreen)
      ensures controllerCalls == old(controllerCalls) && settingsWrites == old(settingsWrites)
      ensures refreshes == old(refreshes)
      ensures savedCalls == old(savedCalls) && savedAlerts == old(savedAlerts)
      ensures displayedAlerts == old(displayedAlerts)
    {
      state := state.(screen := LoginScreen);
    }

    /** `refreshDashboard`: nothing without a signed-in user; otherwise a reload
        starts and the screen is busy until `DashboardLoaded`. */
    method RefreshDashboard()
      modifies this
      ensures old(state).currentUser.None? ==> state == old(state) && refreshes == old(refreshes)
      ensures old(state).currentUser.Some? ==>
                state == old(state).(isBusy := true) && refreshes == old(refreshes) + 1
      ensures controllerCalls == old(controllerCalls) && settingsWrites == old(settingsWrites)
      ensures savedCalls == old(savedCalls) && savedAlerts == old(savedAlerts)
      ensures displayedAlerts == old(displayedAlerts)
    {
      if state.currentUser.None? {
        return;
      }
      state := state.(isBusy := true);
      refreshes := refreshes + 1;
    }

    /** The reload finishes: administrators see the user list, others an empty one. */
    method DashboardLoaded(user: UserAccount, allUsers: seq<UserAccount>, recentCalls: seq<CallRecord>)
      modifies this
      ensures state == old(state).(users := if user.role == Admin then allUsers else [],
                                   callRecords := recentCalls, isBusy := false)
      ensures controllerCalls == old(controllerCalls) && settingsWrites == old(settingsWrites)
      ensures refreshes == old(refreshes)
      ensures savedCalls == old(savedCalls) && savedAlerts == old(savedAlerts)
      ensures displayedAlerts == old(displayedAlerts)
    {
      state := state.(users := if user.role == Admin then allUsers else [], callRecords := recentCalls,
                      isBusy := false);
    }

    /** `setRealTimeDetection(enabled)`. */
    method SetRealTimeDetection(enabled: bool, hasPermission: bool)
      modifies this
      ensures old(state).currentUser.None? ==>
                state == old(state) && controllerCalls == old(controllerCalls)
                && settingsWrites == old(settingsWrites)
      ensures old(state).currentUser.Some? ==>
                var o := ToggleDecision(enabled, hasPermission);
                var settings := old(state).userSettings.(realTimeDetectionEnabled := o.flag);
                state == old(state).(userSettings := settings,
                                     message := if o.warn then Some(MSG_PERMISSION_REQUIRED) else old(state).message)
                && controllerCalls == old(controllerCalls) + (if o.call.Some? then [o.call.value] else [])
                && settingsWrites == old(settingsWrites) + [(old(state).currentUser.value.id, settings)]
      ensures state.userSettings.realTimeDetectionEnabled ==>
                old(state).userSettings.realTimeDetectionEnabled || hasPermission
      ensures savedCalls == old(savedCalls) && savedAlerts == old(savedAlerts) && refreshes == old(refreshes)
      ensures displayedAlerts == old(displayedAlerts)
    {
      if state.currentUser.None? {
        return;
      }
      var user := state.currentUser.value;
      if enabled && !hasPermission {
        state := state.(userSettings := state.userSettings.(realTimeDetectionEnabled := false),
                        message := Some(MSG_PERMISSION_REQUIRED));
        settingsWrites := settingsWrites + [(user.id, state.userSettings)];
        return;
      }
      state := state.(userSettings := state.userSettings.(realTimeDetectionEnabled := enabled));
      if enabled {
        controllerCalls := controllerCalls + [StartMonitoring];
      } else {
        controllerCalls := controllerCalls + [StopMonitoring];
      }
      settingsWrites := settingsWrites + [(user.id, state.userSettings)];
    }

    /** `login(username, password)`, run to completion. `outcome` is what the
        remote sign-in, the profile request and the settings lookup yield together;
        `hasPermission` is the microphone permission at that moment. On success the
        account and its settings are installed, the monitoring gate runs and the
        dashboard reloads; on failure the error is shown. */
    method Login(outcome: Result<(LoginProfile, UserSettings)>, hasPermission: bool)
      modifies this
      ensures outcome.Failure? ==>
                state == old(state).(isBusy := false, message := Some(outcome.error))
                && controllerCalls == old(controllerCalls) && refreshes == old(refreshes)
      ensures outcome.Success? ==>
                var user := ProfileToAccount(outcome.value.0);
                var settings := outcome.value.1;
                var g := LoginDecision(settings.realTimeDetectionEnabled, hasPermission, user.role);
                state == old(state).(currentUser := Some(user), userSettings := settings, screen := DashboardScreen,
                                     message := if g.prompt then Some(MSG_ENABLE_PERMISSION) else None,
                                     isBusy := true)
                && controllerCalls == old(controllerCalls) + (if g.start then [StartMonitoring] else [])
                && refreshes == old(refreshes) + 1
      ensures settingsWrites == old(settingsWrites) && savedCalls == old(savedCalls)
      ensures savedAlerts == old(savedAlerts) && displayedAlerts == old(displayedAlerts)
    {
      state := state.(isBusy := true, message := None);
      if outcome.Failure? {
        state := state.(isBusy := false, message := Some(outcome.error));
        return;
      }
      var user := ProfileToAccount(outcome.value.0);
      var settings := outcome.value.1;
      state := state.(currentUser := Some(user), userSettings := settings, screen := DashboardScreen,
                      message := None, isBusy := false);
      if settings.realTimeDetectionEnabled {
        if hasPermission {
          controllerCalls := controllerCalls + [StartMonitoring];
        } else if user.role != Admin {
          state := state.(message := Some(MSG_ENABLE_PERMISSION));
        }
      }
      RefreshDashboard();
    }

    /** `register(...)`, run to completion; `error` is `None` when `RegisterUser`
        succeeds. Success returns to the login screen. */
    method Register(error: Option<string>)
      modifies this
      ensures error.None? ==>
                state == old(state).(screen := LoginScreen, message := Some(MSG_REGISTERED), isBusy := false)
      ensures error.Some? ==> state == old(state).(isBusy := false, message := error)
      ensures controllerCalls == old(controllerCalls) && settingsWrites == old(settingsWrites)
      ensures refreshes == old(refreshes)
      ensures savedCalls == old(savedCalls) && savedAlerts == old(savedAlerts)
      ensures displayedAlerts == old(displayedAlerts)
    {
      state := state.(isBusy := true, message := None);
      if error.None? {
        state := state.(screen := LoginScreen, message := Some(MSG_REGISTERED), isBusy := false);
      } else {
        state := state.(isBusy := false, message := error);
      }
    }

    /** `navigateToRegister`, `navigateToLogin`, `navigateToSummary`,
        `navigateToCallHistory` and `navigateToDashboard`. */
    method NavigateTo(target: Screen)
      requires target != LoadingScreen
      modifies this
      ensures state == old(state).(screen := target, message := None)
      ensures controllerCalls == old(controllerCalls) && settingsWrites == old(settingsWrites)
      ensures refreshes == old(refreshes)
      ensures savedCalls == old(savedCalls) && savedAlerts == old(savedAlerts)
      ensures displayedAlerts == old(displayedAlerts)
    {
      state := state.(screen := target, message := None);
    }

    /** `logout`: monitoring stops, settings return to their defaults and the call
        list is cleared. `signedOut` is what `LogoutUser` returns for the current
        user; that use case is not part of this model. */
    method Logout(signedOut: Option<UserAccount>)
      modifies this
      ensures state == old(state).(currentUser := signedOut, userSettings := DEFAULT_SETTINGS, screen := LoginScreen,
                                   message := Some(MSG_LOGGED_OUT), callRecords := [])
      ensures controllerCalls == old(controllerCalls) + [StopMonitoring]
      ensures settingsWrites == old(settingsWrites) && refreshes == old(refreshes)
      ensures savedCalls == old(savedCalls) && savedAlerts == old(savedAlerts)
      ensures displayedAlerts == old(displayedAlerts)
    {
      controllerCalls := controllerCalls + [StopMonitoring];
      state := state.(currentUser := signedOut, userSettings := DEFAULT_SETTINGS, screen := LoginScreen,
                      message := Some(MSG_LOGGED_OUT), callRecords := []);
    }

    /** `runModelTest(audioFile)`, run to completion. `run` is the outcome of
        `inferFromAsset` (see `ModelTestProbability`), `saveSucceeds` whether the
        call record upsert completes, `callId` and `phoneNumber` the random values
        and `nowMillis` the clock. */
    method RunModelTest(audioFile: string, run: Option<Option<real>>, saveSucceeds: bool, callId: string,
                        phoneNumber: string, nowMillis: nat)
      modifies this
      ensures var o := ModelTestDecision(run, old(state).userSettings.threshold, saveSucceeds);
              var record := TestCallRecord(callId, phoneNumber, o.probability, o.isDeepfake, nowMillis / 1000);
              savedCalls == old(savedCalls) + (if saveSucceeds then [(record, UserIdOf(old(state).currentUser))] else [])
              && savedAlerts == old(savedAlerts) + (if o.raiseAlert then [(callId, o.probability)] else [])
              && displayedAlerts == old(displayedAlerts) + (if o.raiseAlert then [o.probability] else [])
              && state == old(state).(isBusy := false, message := o.message,
                                      modelTest := ModelTestResult(o.status, Some(audioFile), Some(o.probability)))
              && refreshes == old(refreshes) + (if saveSucceeds && old(state).currentUser.Some? then 1 else 0)
      ensures controllerCalls == old(controllerCalls) && settingsWrites == old(settingsWrites)
    {
      state := state.(isBusy := true, message := None,
                      modelTest := ModelTestResult("Running...", Some(audioFile), None));
      var probability := ModelTestProbability(run);
      var threshold := state.userSettings.threshold;
      var isDeepfake := probability >= threshold;
      var record := TestCallRecord(callId, phoneNumber, probability, isDeepfake, nowMillis / 1000);
      if saveSucceeds {
        savedCalls := savedCalls + [(record, UserIdOf(state.currentUser))];
      }
      if isDeepfake && saveSucceeds {
        savedAlerts := savedAlerts + [(callId, probability)];
        displayedAlerts := displayedAlerts + [probability];
      }
      if saveSucceeds {
        RefreshDashboard();
      }
      var status := if run.Some? then STATUS_DONE else STATUS_FAILED;
      state := state.(isBusy := false, message := if isDeepfake then Some(MSG_MODEL_ALERT) else None,
                      modelTest := ModelTestResult(status, Some(audioFile), Some(probability)));
    }
  }
}
