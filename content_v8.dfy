/**
 * The environment-detection module of the version 8 refactored content
 * script: `getConfidenceLevel`, which looks a method up by its name,
 * `updateEnvironment`, which decides whether a detection replaces the
 * module's cached one (with a `forceUpdate` flag that lifts the
 * confidence gate), and `checkCurrentUrlForEnvironment`, which forces the
 * update for a strong DR pattern.
 */
module ContentV8 {

  import opened Strings
  import opened Tables
  import opened Detections
  import UrlDetector

  /** The module's `let` state and the storage keys it writes. */
  datatype State = State(
    currentEnvironment: Option<string>,
    detectedOrgId: Option<string>,
    detectionMethod: Option<string>,
    detectionSource: Option<string>,
    storage: map<string, string>)

  function CurrentConfidence(s: State): nat {
    if s.detectionMethod.Some? && Truthy(s.detectionMethod.value) then ConfidenceOf(DetectionMethods, Name, s.detectionMethod.value) else 0
  }

  /** `confidence || getConfidenceLevel(method)`. */
  function IncomingConfidence(d: Detection): nat {
    if d.confidence != 0 then d.confidence else ConfidenceOf(DetectionMethods, Name, d.detectionMethod)
  }

  /** The same environment again, with a `null` or unchanged org ID (an absent one is neither). */
  predicate SameEnvironment(s: State, d: Detection) {
    s.currentEnvironment == Some(d.environment) && (d.orgId == NullRef || d.orgId.SameAs(s.detectedOrgId))
  }

  /** Whether `updateEnvironment(d, force)` gets past its gates. */
  predicate Accepts(s: State, d: Detection, force: bool) {
    var lower := CurrentConfidence(s) > IncomingConfidence(d);
    if !Truthy(d.environment) then false
    else if SameEnvironment(s, d) then false
    else if s.currentEnvironment == Some("test") && d.environment == "dr" then
      IsUrlMethod(d.detectionMethod) || !(lower && !force)
    else !(s.currentEnvironment.Some? && lower && !force)
  }

  /** `updateEnvironment(d, force)` as one transition. */
  function UpdateStep(s: State, d: Detection, force: bool): State {
    if Accepts(s, d, force) then
      var orgIdAfter := d.orgId.OrElse(s.detectedOrgId);
      State(Some(d.environment), orgIdAfter, Some(d.detectionMethod), Some(d.source),
            Store(s.storage["environmentType" := d.environment], "detectedOrgId", orgIdAfter)
              ["detectionMethod" := d.detectionMethod]["detectionSource" := d.source])
    else s
  }

  /** The result of `checkCurrentUrlForEnvironment(url)`: the strong-pattern result, else the detailed one. */
  function CheckCurrentUrlResult(url: string, parsed: ParseResult): Option<UrlDetector.UrlMatch> {
    match UrlDetector.DetectStrongEnvironmentPatterns(url)
    case Some(strong) => Some(strong)
    case None => UrlDetector.DetectEnvironmentFromUrl(url, parsed)
  }

  /** The state after `checkCurrentUrlForEnvironment(url)`: only a strong DR pattern updates, and it forces. */
  function CheckCurrentUrlStep(s: State, url: string): State {
    match UrlDetector.DetectStrongEnvironmentPatterns(url)
    case Some(strong) => if strong.detection.environment == "dr" then UpdateStep(s, strong.detection, true) else s
    case None => s
  }

  /** The content script's detection state. */
  class Detector {
    var currentEnvironment: Option<string>
    var detectedOrgId: Option<string>
    var detectionMethod: Option<string>
    var detectionSource: Option<string>
    var storage: map<string, string>

    function Snapshot(): State
      reads this
    {
      State(currentEnvironment, detectedOrgId, detectionMethod, detectionSource, storage)
    }

    constructor (stored: map<string, string>)
      ensures Snapshot() == State(None, None, None, None, stored)
    {
      currentEnvironment := None;
      detectedOrgId := None;
      detectionMethod := None;
      detectionSource := None;
      storage := stored;
    }

    /** `updateEnvironment(d, forceUpdate)`: returns whether the record was replaced. */
    method UpdateEnvironment(d: Detection, forceUpdate: bool) returns (updated: bool)
      modifies this
      ensures updated == Accepts(old(Snapshot()), d, forceUpdate)
      ensures Snapshot() == UpdateStep(old(Snapshot()), d, forceUpdate)
    {
      if !Truthy(d.environment) {
        return false;
      }
      var currentConfidence := 0;
      if detectionMethod.Some? && Truthy(detectionMethod.value) {
        currentConfidence := ConfidenceOf(DetectionMethods, Name, detectionMethod.value);
      }
      var newConfidence := if d.confidence != 0 then d.confidence else ConfidenceOf(DetectionMethods, Name, d.detectionMethod);

      if currentEnvironment == Some(d.environment) && (d.orgId == NullRef || d.orgId.SameAs(detectedOrgId)) {
        return false;
      }
      if currentEnvironment == Some("test") && d.environment == "dr" {
        if d.detectionMethod == HostnameName || d.detectionMethod == UrlPatternName {
          // a URL that says DR overrides a test detection
        } else if currentConfidence > newConfidence && !forceUpdate {
          return false;
        }
      } else if currentEnvironment.Some? && currentConfidence > newConfidence && !forceUpdate {
        return false;
      }

      currentEnvironment := Some(d.environment);
      if d.orgId.IsTruthy() {
        detectedOrgId := Some(d.orgId.id);
      }
      detectionMethod := Some(d.detectionMethod);
      detectionSource := Some(d.source);
      storage := Store(storage["environmentType" := d.environment], "detectedOrgId", d.orgId.OrElse(detectedOrgId))
                   ["detectionMethod" := d.detectionMethod]["detectionSource" := d.source];
      return true;
    }

    /** `checkCurrentUrlForEnvironment(url)`; `parsed` is the outcome of parsing the lower-cased URL. */
    method CheckCurrentUrlForEnvironment(url: string, parsed: ParseResult) returns (r: Option<UrlDetector.UrlMatch>)
      modifies this
      ensures r == CheckCurrentUrlResult(url, parsed)
      ensures Snapshot() == CheckCurrentUrlStep(old(Snapshot()), url)
    {
      var strong := UrlDetector.DetectStrongEnvironmentPatterns(url);
      if strong.Some? {
        if strong.value.detection.environment == "dr" {
          var _ := UpdateEnvironment(strong.value.detection, true);
        }
        return strong;
      }
      r := UrlDetector.DetectEnvironmentFromUrl(url, parsed);
    }
  }

  // ---------------------------------------------------------------------
  // Properties

  /** Every method name of DETECTION_METHODS gets its own confidence. */
  lemma ConfidenceOfKnownName(m: MethodInfo)
    requires m in DetectionMethods
    ensures ConfidenceOf(DetectionMethods, Name, m.name) == m.confidence
  {
    var r := Find(DetectionMethods, Name, m.name);
    assert Label(m, Name) == m.name;
    assert r.Some?;
    var i :| 0 <= i < |DetectionMethods| && DetectionMethods[i] == m;
    var j :| 0 <= j < |DetectionMethods| && DetectionMethods[j] == r.value;
    assert DetectionMethods[i].name == DetectionMethods[j].name;
  }

  /** A name outside the table gets DEFAULT's confidence. */
  lemma UnknownNameDefaults(detectionMethod: string)
    requires forall m :: m in DetectionMethods ==> m.name != detectionMethod
    ensures ConfidenceOf(DetectionMethods, Name, detectionMethod) == DefaultConfidence
  {
  }

  /** A result without an environment is refused and changes nothing. */
  lemma MissingEnvironmentIsIgnored(s: State, d: Detection, force: bool)
    requires !Truthy(d.environment)
    ensures !Accepts(s, d, force) && UpdateStep(s, d, force) == s
  {
  }

  /** The same environment with a null or unchanged org ID is refused, even when forced. */
  lemma SameEnvironmentIsSkipped(s: State, d: Detection, force: bool)
    requires SameEnvironment(s, d)
    ensures !Accepts(s, d, force) && UpdateStep(s, d, force) == s
  {
  }

  /**
   * A result with no `orgId` field never meets the same-environment skip:
   * `undefined` is neither `null` nor a stored ID.
   */
  lemma AbsentOrgIdNeverSkips(s: State, d: Detection)
    requires d.orgId == Missing
    ensures !SameEnvironment(s, d)
  {
  }

  /** With a known environment and a higher cached confidence, an unforced update is refused (test to dr by URL aside). */
  lemma ConfidenceGateRejects(s: State, d: Detection)
    requires s.currentEnvironment.Some? && CurrentConfidence(s) > IncomingConfidence(d)
    requires !(s.currentEnvironment == Some("test") && d.environment == "dr" && IsUrlMethod(d.detectionMethod))
    ensures !Accepts(s, d, false) && UpdateStep(s, d, false) == s
  {
  }

  /** Forcing lifts the confidence gate: only a missing environment or a same-environment repeat is refused. */
  lemma ForceBypassesConfidence(s: State, d: Detection)
    ensures Accepts(s, d, true) <==> Truthy(d.environment) && !SameEnvironment(s, d)
  {
  }

  /** test to dr by hostname or URL pattern is always accepted. */
  lemma UrlDrOverridesTest(s: State, d: Detection, force: bool)
    requires s.currentEnvironment == Some("test") && d.environment == "dr" && IsUrlMethod(d.detectionMethod)
    ensures Accepts(s, d, force)
  {
  }

  /** An accepted update overwrites environment, method and source, and keeps the old org ID when the new one is falsy. */
  lemma AcceptOverwrites(s: State, d: Detection, force: bool)
    requires Accepts(s, d, force)
    ensures var s' := UpdateStep(s, d, force);
      s'.currentEnvironment == Some(d.environment)
      && s'.detectionMethod == Some(d.detectionMethod) && s'.detectionSource == Some(d.source)
      && (d.orgId.IsTruthy() ==> s'.detectedOrgId == Some(d.orgId.id))
      && (!d.orgId.IsTruthy() ==> s'.detectedOrgId == s.detectedOrgId)
      && s'.storage["environmentType"] == d.environment && s'.storage["detectionMethod"] == d.detectionMethod
  {
  }

  /** A URL with a strong DR pattern always leaves the environment dr. */
  lemma StrongDrUrlLands(s: State, url: string)
    requires Truthy(url) && AnyContained(ToLower(url), StrongDrPatterns)
    ensures CheckCurrentUrlStep(s, url).currentEnvironment == Some("dr")
  {
  }

  /** A strong test pattern is reported but never recorded. */
  lemma StrongTestIsNotRecorded(s: State, url: string)
    requires Truthy(url) && !AnyContained(ToLower(url), StrongDrPatterns) && AnyContained(ToLower(url), StrongTestPatterns)
    ensures CheckCurrentUrlStep(s, url) == s
    ensures var r := UrlDetector.DetectStrongEnvironmentPatterns(url); r.Some? && r.value.detection.environment == "test"
  {
  }
}
