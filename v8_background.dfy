/**
 * The version 8 background script: `updateEnvironment`, which decides
 * whether a new detection replaces the cached one, and the decision part of
 * `checkUrlForEnvironment`, which turns a tab's URL into such a detection;
 * and the install handler, which reloads the globals from storage.
 *
 * The confidence gate looks methods up in DETECTION_METHODS by key
 * (ORG_ID, HOSTNAME, ...), while every caller passes method names
 * ("Organization ID", "Hostname", ...); both lookups therefore fall back
 * to DEFAULT, and the model keeps the lookup as written.
 */
module V8Background {

  import opened Strings
  import opened Tables
  import opened Detections

  /** The script's cached globals and the storage keys it writes. */
  datatype State = State(
    currentEnvironment: Option<string>,
    detectedOrgId: Option<string>,
    lastDetectionMethod: Option<string>,
    lastDetectionSource: Option<string>,
    storage: map<string, string>)

  /** The confidence of the cached detection; 0 when no method is recorded. */
  function CurrentConfidence(s: State): nat {
    if s.lastDetectionMethod.Some? && Truthy(s.lastDetectionMethod.value) then ConfidenceOf(BackgroundDetectionMethods, Key, s.lastDetectionMethod.value)
    else 0
  }

  /** The same environment again, with a null or unchanged org ID. */
  predicate SameEnvironment(s: State, environment: string, orgId: OrgRef) {
    s.currentEnvironment == Some(environment) && (orgId == NullRef || orgId.SameAs(s.detectedOrgId))
  }

  /** The source strongly indicates DR: a hostname match, or a URL pattern naming "wawanesa-dr" or "/dr/". */
  predicate StrongDrEvidence(detectionMethod: string, source: string) {
    detectionMethod == HostnameName
    || (detectionMethod == UrlPatternName && (Contains(source, "wawanesa-dr") || Contains(source, "/dr/")))
  }

  /** Whether `updateEnvironment` gets past its three gates. */
  predicate Accepts(s: State, environment: string, orgId: OrgRef, detectionMethod: string, source: string) {
    var current := CurrentConfidence(s);
    var incoming := ConfidenceOf(BackgroundDetectionMethods, Key, detectionMethod);
    if SameEnvironment(s, environment, orgId) then false
    else if s.currentEnvironment == Some("test") && environment == "dr" then
      StrongDrEvidence(detectionMethod, source) || current <= incoming
    else !(s.currentEnvironment.Some? && current > incoming)
  }

  /** The state after an accepted update. */
  function Apply(s: State, environment: string, orgId: OrgRef, detectionMethod: string, source: string): State {
    var orgIdAfter := orgId.OrElse(s.detectedOrgId);
    State(Some(environment), orgIdAfter, Some(detectionMethod), Some(source),
          Store(s.storage["environmentType" := environment], "detectedOrgId", orgIdAfter)
            ["detectionMethod" := detectionMethod]["detectionSource" := source])
  }

  /** `updateEnvironment(environment, orgId, method, source)` as one transition. */
  function UpdateStep(s: State, environment: string, orgId: OrgRef, detectionMethod: string, source: string): State {
    if Accepts(s, environment, orgId, detectionMethod, source) then Apply(s, environment, orgId, detectionMethod, source)
    else s
  }

  /**
   * The `chrome.runtime.onInstalled` handler: each global is reloaded from
   * its storage key when the stored value is truthy (the detection time is
   * not modelled).
   */
  function InstalledStep(s: State): State {
    s.(currentEnvironment := Restored(s.currentEnvironment, s.storage, "environmentType"),
       detectedOrgId := Restored(s.detectedOrgId, s.storage, "detectedOrgId"),
       lastDetectionMethod := Restored(s.lastDetectionMethod, s.storage, "detectionMethod"),
       lastDetectionSource := Restored(s.lastDetectionSource, s.storage, "detectionSource"))
  }

  /** A detection `checkUrlForEnvironment` hands to `updateEnvironment` (always with a null org ID). */
  datatype UrlUpdate = UrlUpdate(environment: string, detectionMethod: string, source: string)

  /** The rules after the stored-state check: host table, gated DR step, DR API path. */
  function UrlRules(p: UrlParts, urlLower: string): Option<UrlUpdate> {
    var hostname := ToLower(p.hostname);
    var full := hostname + p.pathname + p.hash;
    match FirstKeyContained(hostname, HostnameMappings)
    case Some(host) => Some(UrlUpdate(host.1, HostnameName, host.0))
    case None =>
      var drStep :=
        if AnyContained(full, DrExcludeWords) then None
        else if Contains(hostname, "login") && Contains(full, "wawanesa-dr") then
          Some(UrlUpdate("dr", UrlPatternName, "login-wawanesa-dr"))
        else match FirstContained(urlLower, DrPatterns)
          case Some(pat) => Some(UrlUpdate("dr", UrlPatternName, "url-pattern:" + pat))
          case None => None;
      if drStep.Some? then drStep
      else if Contains(p.pathname, "/api/") && (Contains(p.pathname, "/dr/") || Contains(p.pathname, "/dr-api/")) then
        Some(UrlUpdate("dr", ApiEndpointName, p.pathname))
      else None
  }

  /** Storage already holds an organization-ID detection. */
  predicate StoredOrgIdDetection(storage: map<string, string>) {
    "environmentType" in storage && Truthy(storage["environmentType"])
    && "detectionMethod" in storage && storage["detectionMethod"] == OrgIdName
  }

  /**
   * The update `checkUrlForEnvironment(tabId, url)` asks for, if any;
   * `parsed` is the outcome of `new URL(url.toLowerCase())`.
   */
  function CheckUrlDecision(url: string, parsed: ParseResult, storage: map<string, string>): Option<UrlUpdate> {
    match parsed
    case ParseError(_) => None
    case Parsed(p) =>
      var u := ToLower(url);
      match FirstContained(u, StrongDrPatterns)
      case Some(pat) => Some(UrlUpdate("dr", UrlPatternName, "strong-dr-pattern:" + pat))
      case None =>
        if StoredOrgIdDetection(storage) then None
        else UrlRules(p, u)
  }

  /** The script's cached globals. */
  class Background {
    var currentEnvironment: Option<string>
    var detectedOrgId: Option<string>
    var lastDetectionMethod: Option<string>
    var lastDetectionSource: Option<string>
    var storage: map<string, string>

    function Snapshot(): State
      reads this
    {
      State(currentEnvironment, detectedOrgId, lastDetectionMethod, lastDetectionSource, storage)
    }

    /** Every global starts `null`; storage survives from earlier runs. */
    constructor (stored: map<string, string>)
      ensures Snapshot() == State(None, None, None, None, stored)
    {
      currentEnvironment := None;
      detectedOrgId := None;
      lastDetectionMethod := None;
      lastDetectionSource := None;
      storage := stored;
    }

    /** The `chrome.runtime.onInstalled` handler's storage reload. */
    method OnInstalled()
      modifies this
      ensures Snapshot() == InstalledStep(old(Snapshot()))
    {
      if "environmentType" in storage && Truthy(storage["environmentType"]) {
        currentEnvironment := Some(storage["environmentType"]);
      }
      if "detectedOrgId" in storage && Truthy(storage["detectedOrgId"]) {
        detectedOrgId := Some(storage["detectedOrgId"]);
      }
      if "detectionMethod" in storage && Truthy(storage["detectionMethod"]) {
        lastDetectionMethod := Some(storage["detectionMethod"]);
      }
      if "detectionSource" in storage && Truthy(storage["detectionSource"]) {
        lastDetectionSource := Some(storage["detectionSource"]);
      }
    }

    /** `updateEnvironment(environment, orgId, method, source)`. */
    method UpdateEnvironment(environment: string, orgId: OrgRef, detectionMethod: string, source: string)
      modifies this
      ensures Snapshot() == UpdateStep(old(Snapshot()), environment, orgId, detectionMethod, source)
    {
      var currentConfidence := 0;
      if lastDetectionMethod.Some? && Truthy(lastDetectionMethod.value) {
        currentConfidence := ConfidenceOf(BackgroundDetectionMethods, Key, lastDetectionMethod.value);
      }
      var newConfidence := ConfidenceOf(BackgroundDetectionMethods, Key, detectionMethod);
      ghost var s0 := Snapshot();
      assert currentConfidence == CurrentConfidence(s0);

      if currentEnvironment == Some(environment) && (orgId == NullRef || orgId.SameAs(detectedOrgId)) {
        return;
      }
      if currentEnvironment == Some("test") && environment == "dr" {
        if StrongDrEvidence(detectionMethod, source) {
          // the strong DR evidence bypasses the confidence gate
        } else if currentConfidence > newConfidence {
          return;
        }
      } else if currentEnvironment.Some? && currentConfidence > newConfidence {
        return;
      }
      assert Accepts(s0, environment, orgId, detectionMethod, source);

      currentEnvironment := Some(environment);
      if orgId.IsTruthy() {
        detectedOrgId := Some(orgId.id);
      }
      lastDetectionMethod := Some(detectionMethod);
      lastDetectionSource := Some(source);
      storage := Store(storage["environmentType" := environment], "detectedOrgId", orgId.OrElse(detectedOrgId))
                   ["detectionMethod" := detectionMethod]["detectionSource" := source];
    }

    /** `checkUrlForEnvironment(tabId, url)`: the decision, then the update it asks for. */
    method CheckUrlForEnvironment(url: string, parsed: ParseResult)
      modifies this
      ensures match CheckUrlDecision(url, parsed, old(storage))
        case Some(d) => Snapshot() == UpdateStep(old(Snapshot()), d.environment, NullRef, d.detectionMethod, d.source)
        case None => Snapshot() == old(Snapshot())
    {
      var decision := CheckUrlDecision(url, parsed, storage);
      if decision.Some? {
        UpdateEnvironment(decision.value.environment, NullRef, decision.value.detectionMethod, decision.value.source);
      }
    }
  }

  // ---------------------------------------------------------------------
  // Properties of updateEnvironment

  /** The same environment with a null or unchanged org ID leaves the whole state untouched. */
  lemma SameEnvironmentIsSkipped(s: State, environment: string, orgId: OrgRef, detectionMethod: string, source: string)
    requires s.currentEnvironment == Some(environment)
    requires orgId == NullRef || orgId.SameAs(s.detectedOrgId)
    ensures UpdateStep(s, environment, orgId, detectionMethod, source) == s
  {
  }

  /** test to dr is accepted for a hostname match, or a URL pattern whose source names "wawanesa-dr" or "/dr/". */
  lemma StrongDrOverridesTest(s: State, orgId: OrgRef, detectionMethod: string, source: string)
    requires s.currentEnvironment == Some("test")
    requires StrongDrEvidence(detectionMethod, source)
    ensures UpdateStep(s, "dr", orgId, detectionMethod, source).currentEnvironment == Some("dr")
  {
  }

  /** No method name is a key of DETECTION_METHODS. */
  lemma NamesAreNeverKeys(m: MethodInfo)
    requires m in BackgroundDetectionMethods || m in DetectionMethods
    ensures Find(BackgroundDetectionMethods, Key, m.name).None?
  {
  }

  /**
   * Because method names miss the keyed lookup, the confidence gate never
   * rejects: whenever the cached and the new method are not table keys,
   * the update happens exactly when it is not a same-environment repeat.
   */
  lemma ConfidenceGateNeverRejects(s: State, environment: string, orgId: OrgRef, detectionMethod: string, source: string)
    requires Find(BackgroundDetectionMethods, Key, detectionMethod).None?
    requires s.lastDetectionMethod.Some? ==> Find(BackgroundDetectionMethods, Key, s.lastDetectionMethod.value).None?
    ensures Accepts(s, environment, orgId, detectionMethod, source) <==> !SameEnvironment(s, environment, orgId)
  {
  }

  /** An accepted update overwrites environment, method and source, and the org ID only when the new one is truthy. */
  lemma AcceptOverwrites(s: State, environment: string, orgId: OrgRef, detectionMethod: string, source: string)
    requires Accepts(s, environment, orgId, detectionMethod, source)
    ensures var s' := UpdateStep(s, environment, orgId, detectionMethod, source);
      s'.currentEnvironment == Some(environment)
      && s'.lastDetectionMethod == Some(detectionMethod) && s'.lastDetectionSource == Some(source)
      && (orgId.IsTruthy() ==> s'.detectedOrgId == Some(orgId.id))
      && (!orgId.IsTruthy() ==> s'.detectedOrgId == s.detectedOrgId)
      && s'.storage["environmentType"] == environment && s'.storage["detectionMethod"] == detectionMethod
      && s'.storage["detectionSource"] == source
  {
  }

  /** Reloading twice is reloading once: the handler only copies storage into the globals. */
  lemma InstalledStepIdempotent(s: State)
    ensures InstalledStep(InstalledStep(s)) == InstalledStep(s)
  {
  }

  /** The globals an accepted update sets are exactly what the install handler reloads from its storage writes. */
  lemma AcceptedUpdateSurvivesReload(s: State, environment: string, orgId: OrgRef, detectionMethod: string, source: string)
    requires Accepts(s, environment, orgId, detectionMethod, source)
    ensures var s' := UpdateStep(s, environment, orgId, detectionMethod, source); InstalledStep(s') == s'
  {
  }

  /** The cached method stays a name (never a key) across any update that passes a name. */
  lemma MethodStaysUnkeyed(s: State, environment: string, orgId: OrgRef, detectionMethod: string, source: string)
    requires Find(BackgroundDetectionMethods, Key, detectionMethod).None?
    requires s.lastDetectionMethod.Some? ==> Find(BackgroundDetectionMethods, Key, s.lastDetectionMethod.value).None?
    ensures var s' := UpdateStep(s, environment, orgId, detectionMethod, source);
      s'.lastDetectionMethod.Some? ==> Find(BackgroundDetectionMethods, Key, s'.lastDetectionMethod.value).None?
  {
  }

  // ---------------------------------------------------------------------
  // Properties of checkUrlForEnvironment

  /** A strong DR pattern asks for a dr update before storage is consulted, whatever storage holds. */
  lemma StrongDrBeforeStoredState(url: string, p: UrlParts, storage: map<string, string>)
    requires AnyContained(ToLower(url), StrongDrPatterns)
    ensures var d := CheckUrlDecision(url, Parsed(p), storage);
      d.Some? && d.value.environment == "dr" && d.value.detectionMethod == UrlPatternName
      && d == CheckUrlDecision(url, Parsed(p), map[])
  {
  }

  /** Without a strong DR pattern, a stored organization-ID detection blocks all URL detection. */
  lemma StoredOrgIdBlocksUrlDetection(url: string, parsed: ParseResult, storage: map<string, string>)
    requires !AnyContained(ToLower(url), StrongDrPatterns)
    requires StoredOrgIdDetection(storage)
    ensures CheckUrlDecision(url, parsed, storage).None?
  {
  }

  /** The URL check never asks for test or dev except through the host table. */
  lemma UrlDecisionRange(url: string, parsed: ParseResult, storage: map<string, string>)
    ensures var d := CheckUrlDecision(url, parsed, storage);
      d.Some? ==> (d.value.environment == "dr" || d.value.detectionMethod == HostnameName)
  {
  }

  /**
   * End to end: from any state whose cached method is a name, a URL with a
   * strong DR pattern makes the environment dr.
   */
  lemma StrongDrUrlLands(s: State, url: string, p: UrlParts)
    requires s.lastDetectionMethod.Some? ==> Find(BackgroundDetectionMethods, Key, s.lastDetectionMethod.value).None?
    requires AnyContained(ToLower(url), StrongDrPatterns)
    ensures var d := CheckUrlDecision(url, Parsed(p), s.storage).value;
      UpdateStep(s, d.environment, NullRef, d.detectionMethod, d.source).currentEnvironment == Some("dr")
  {
    var d := CheckUrlDecision(url, Parsed(p), s.storage).value;
    NamesAreNeverKeys(BackgroundDetectionMethods[3]);
    if !SameEnvironment(s, d.environment, NullRef) {
      ConfidenceGateNeverRejects(s, d.environment, NullRef, d.detectionMethod, d.source);
    }
  }
}
