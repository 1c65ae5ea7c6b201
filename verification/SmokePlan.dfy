/** What a packaged smoke test is asked to do, and what it may report. */
module SmokePlan {
  import opened Common

  const MAX_SAFE_INTEGER: U64 := 9_007_199_254_740_991

  const MAX_DESCENDANTS := 64

  datatype Scenario = CriticalFile | CriticalEmpty | FullFile | BackendRetryScenario | CodexScenario

  datatype Action =
    | EditorSave
    | TerminalSentinel
    | WorkspaceSearch
    | ScmStatus
    | PackagedPluginCommand
    | SecondaryWindow
    | SecondFileForwarding
    | BackendRetry
    | CodexInactive
    | CodexActivate
    | CodexStream
    | CodexCommandApproval
    | CodexFileApproval
    | CodexInterrupt
    | CodexRecover
    | CodexIdleExit

  const ALL_ACTIONS: seq<Action> :=
    [EditorSave, TerminalSentinel, WorkspaceSearch, ScmStatus, PackagedPluginCommand, SecondaryWindow,
     SecondFileForwarding]

  const CODEX_ACTIONS: seq<Action> :=
    [CodexInactive, CodexActivate, CodexStream, CodexCommandApproval, CodexFileApproval, CodexInterrupt,
     CodexRecover, CodexIdleExit]

  /** The canonical order of the actions. */
  function Index(action: Action): nat {
    match action
    case EditorSave => 0
    case TerminalSentinel => 1
    case WorkspaceSearch => 2
    case ScmStatus => 3
    case PackagedPluginCommand => 4
    case SecondaryWindow => 5
    case SecondFileForwarding => 6
    case BackendRetry => 7
    case CodexInactive => 8
    case CodexActivate => 9
    case CodexStream => 10
    case CodexCommandApproval => 11
    case CodexFileApproval => 12
    case CodexInterrupt => 13
    case CodexRecover => 14
    case CodexIdleExit => 15
  }

  /** The index of an action is its place among all of them. */
  lemma IndexIsPlace(action: Action)
    ensures var all := ALL_ACTIONS + [BackendRetry] + CODEX_ACTIONS;
      Index(action) < |all| && all[Index(action)] == action
      && forall k :: 0 <= k < |all| ==> Index(all[k]) == k
  {
  }

  function RequiredActions(scenario: Scenario): seq<Action> {
    match scenario
    case CriticalFile => ALL_ACTIONS
    case CriticalEmpty => [TerminalSentinel, PackagedPluginCommand]
    case FullFile => ALL_ACTIONS
    case BackendRetryScenario => [BackendRetry]
    case CodexScenario => CODEX_ACTIONS
  }

  /** Accepts the action lists in canonical order without repeats. */
  method ValidateActions(actions: seq<Action>) returns (ok: bool)
    ensures ok <==> forall i, j :: 0 <= i < j < |actions| ==> Index(actions[i]) < Index(actions[j])
  {
    var previous: Option<nat> := None;
    for k := 0 to |actions|
      invariant previous == if k == 0 then None else Some(Index(actions[k - 1]))
      invariant forall i, j :: 0 <= i < j < k ==> Index(actions[i]) < Index(actions[j])
    {
      var index := Index(actions[k]);
      if previous.Some? && index <= previous.value {
        return false;
      }
      previous := Some(index);
    }
    return true;
  }

  /** What the scenarios require passes that check. */
  lemma RequiredActionsAscend(scenario: Scenario, i: nat, j: nat)
    requires i < j < |RequiredActions(scenario)|
    ensures Index(RequiredActions(scenario)[i]) < Index(RequiredActions(scenario)[j])
  {
  }

  datatype Plan = Plan(scenario: Scenario, actions: seq<Action>)

  /** What `validate_spec` leaves of the action list. */
  predicate ValidPlan(plan: Plan) {
    plan.actions == RequiredActions(plan.scenario)
  }

  /** A retry of the backend is only ever the one action of its own scenario. */
  lemma RetryStandsAlone(plan: Plan, k: nat)
    requires ValidPlan(plan) && k < |plan.actions|
    ensures plan.actions[k] == BackendRetry <==> plan.scenario == BackendRetryScenario
    ensures plan.scenario == BackendRetryScenario ==> k == 0
  {
  }

  datatype Diagnostic = Diagnostic(code: string, message: string)

  function CatalogMessage(code: string): Option<string> {
    if code == "startup-failed" then Some("Application startup failed.")
    else if code == "action-failed" then Some("Smoke action failed.")
    else if code == "action-timeout" then Some("Smoke action timed out.")
    else if code == "sidecar-failed" then Some("Backend sidecar failed.")
    else if code == "protocol-failed" then Some("Smoke protocol failed.")
    else if code == "cleanup-failed" then Some("Process cleanup failed.")
    else None
  }

  predicate InCatalog(diagnostic: Diagnostic) {
    CatalogMessage(diagnostic.code) == Some(diagnostic.message)
  }

  predicate ActionDiagnostic(diagnostic: Diagnostic) {
    InCatalog(diagnostic) && (diagnostic.code == "action-failed" || diagnostic.code == "action-timeout")
  }

  /** The six diagnostics a request may carry, and the two of a failed action. */
  lemma CatalogByTheLetter(d: Diagnostic)
    ensures InCatalog(d) <==>
      || d == Diagnostic("startup-failed", "Application startup failed.")
      || d == Diagnostic("action-failed", "Smoke action failed.")
      || d == Diagnostic("action-timeout", "Smoke action timed out.")
      || d == Diagnostic("sidecar-failed", "Backend sidecar failed.")
      || d == Diagnostic("protocol-failed", "Smoke protocol failed.")
      || d == Diagnostic("cleanup-failed", "Process cleanup failed.")
    ensures ActionDiagnostic(d) <==>
      || d == Diagnostic("action-failed", "Smoke action failed.")
      || d == Diagnostic("action-timeout", "Smoke action timed out.")
  {
  }

  const DURABILITY_WARNING :=
    Diagnostic("report-durability-warning", "Smoke report was committed but durability sync failed.")

  // Requests and answers.

  datatype StepState = Started | Passed | Failed

  /** `RecordStepRequest` and `SmokeTransition` have the same four fields. */
  datatype Step = Step(action: Action, state: StepState, duration: U64, diagnostic: Option<Diagnostic>)

  datatype Status = AllPassed | HasFailed

  datatype Phase = Startup | Sidecar | Protocol | ActionPhase | Cleanup

  datatype Completion = Completion(status: Status, phase: Option<Phase>, duration: U64, diagnostic: Option<Diagnostic>)

  datatype UpdateStatus = Recorded | Completed

  datatype Response = Response(status: UpdateStatus, diagnostic: Option<Diagnostic>)

  // Native observations.

  datatype Observations = Observations(
    startupMode: string,
    documents: U64,
    gateway: string,
    backend: string,
    generationBefore: U64,
    generationAfter: U64,
    rootBefore: U64,
    rootAfter: U64,
    readyAfter: U64,
    descendantsBefore: seq<U64>,
    spawnsBefore: U64,
    spawnsAfter: U64,
    oldTreeAfter: U64)

  predicate SafePositive(n: U64) {
    0 < n <= MAX_SAFE_INTEGER
  }

  function Digits(text: string): (n: nat) {
    if text == [] then 0
    else Digits(text[..|text| - 1]) * 10 + (if '0' <= Last(text) <= '9' then (Last(text) - '0') as nat else 0)
  }

  /** A loopback socket address as its own printed form. */
  predicate IsLoopback(text: string) {
    && 11 <= |text| <= 15
    && text[..10] == "127.0.0.1:"
    && text[10] != '0'
    && (forall i :: 10 <= i < |text| ==> '0' <= text[i] <= '9')
    && Digits(text[10..]) <= 65535
  }

  predicate Distinct(pids: seq<U64>) {
    forall i, j :: 0 <= i < j < |pids| ==> pids[i] != pids[j]
  }

  /** The observations that hold for any outcome. */
  predicate Plausible(o: Observations) {
    && IsLoopback(o.gateway) && o.backend == "127.0.0.1:3000" && o.gateway != o.backend
    && o.startupMode == "rust-gateway" && o.documents == 1
    && SafePositive(o.generationBefore) && SafePositive(o.generationAfter)
    && SafePositive(o.rootBefore) && SafePositive(o.rootAfter) && SafePositive(o.readyAfter)
    && SafePositive(o.spawnsBefore) && SafePositive(o.spawnsAfter)
    && o.oldTreeAfter <= MAX_SAFE_INTEGER
    && |o.descendantsBefore| <= MAX_DESCENDANTS && Distinct(o.descendantsBefore)
    && (forall pid :: pid in o.descendantsBefore ==> SafePositive(pid) && pid != o.rootBefore)
  }

  /** A passed backend retry replaced exactly one backend and left nothing of
      the old one; any other passed scenario kept its backend. */
  predicate ShowsSuccess(scenario: Scenario, o: Observations) {
    && o.readyAfter == o.rootAfter && o.oldTreeAfter == 0
    && if scenario == BackendRetryScenario then
         && o.generationAfter == o.generationBefore + 1
         && o.rootBefore != o.rootAfter
         && o.descendantsBefore != []
         && o.spawnsAfter == o.spawnsBefore + 1
       else
         && o.generationAfter == o.generationBefore
         && o.rootBefore == o.rootAfter
         && o.spawnsAfter == o.spawnsBefore
  }

  predicate Observed(scenario: Scenario, status: Status, o: Observations) {
    Plausible(o) && (status.AllPassed? ==> ShowsSuccess(scenario, o))
  }

  method ValidateDescendants(root: U64, pids: seq<U64>) returns (ok: bool)
    ensures ok <==> Distinct(pids) && forall pid :: pid in pids ==> SafePositive(pid) && pid != root
  {
    var seen: set<U64> := {};
    for k := 0 to |pids|
      invariant seen == set i | 0 <= i < k :: pids[i]
      invariant Distinct(pids[..k])
      invariant forall i :: 0 <= i < k ==> SafePositive(pids[i]) && pids[i] != root
    {
      if !SafePositive(pids[k]) || pids[k] == root || pids[k] in seen {
        return false;
      }
      seen := seen + {pids[k]};
    }
    assert pids[..|pids|] == pids;
    return true;
  }

  method ValidateObservations(scenario: Scenario, status: Status, o: Observations) returns (ok: bool)
    ensures ok <==> Observed(scenario, status, o)
  {
    if !IsLoopback(o.gateway) || !IsLoopback(o.backend) {
      Backend3000();
      return false;
    }
    if o.startupMode != "rust-gateway"
      || o.documents != 1
      || o.backend != "127.0.0.1:3000"
      || o.gateway == o.backend
      || o.generationBefore == 0
      || o.generationBefore > MAX_SAFE_INTEGER
      || o.generationAfter == 0
      || o.generationAfter > MAX_SAFE_INTEGER
      || !SafePositive(o.rootBefore)
      || !SafePositive(o.rootAfter)
      || !SafePositive(o.readyAfter)
      || !SafePositive(o.spawnsBefore)
      || !SafePositive(o.spawnsAfter)
      || o.oldTreeAfter > MAX_SAFE_INTEGER
      || |o.descendantsBefore| > MAX_DESCENDANTS
    {
      return false;
    }
    var distinct := ValidateDescendants(o.rootBefore, o.descendantsBefore);
    if !distinct {
      return false;
    }
    if status.AllPassed? {
      var expectedAfter :=
        if scenario == BackendRetryScenario then CheckedSucc(o.generationBefore) else Some(o.generationBefore);
      if expectedAfter != Some(o.generationAfter)
        || o.readyAfter != o.rootAfter
        || o.oldTreeAfter != 0
      {
        return false;
      }
      if scenario == BackendRetryScenario {
        if o.rootBefore == o.rootAfter
          || o.descendantsBefore == []
          || CheckedSucc(o.spawnsBefore) != Some(o.spawnsAfter)
        {
          return false;
        }
      } else if o.rootBefore != o.rootAfter || o.spawnsBefore != o.spawnsAfter {
        return false;
      }
    }
    return true;
  }

  lemma Backend3000()
    ensures IsLoopback("127.0.0.1:3000")
  {
    var port := "127.0.0.1:3000"[10..];
    assert port == "3000";
    assert port[..3] == "300" && "300"[..2] == "30" && "30"[..1] == "3" && "3"[..0] == "";
    assert Digits("3") == 3;
    assert Digits("30") == 30;
    assert Digits("300") == 300;
  }
}
