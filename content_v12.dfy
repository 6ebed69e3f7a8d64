/**
 * The environment-detection module of the version 12 content script.
 * `updateEnvironment` lower-cases the environment, forces dr for the DR
 * organization ID and prod for the production one, always reports an
 * organization-ID detection as accepted, and applies any other detection
 * only when the environment changes or the update is forced.
 *
 * Every storage write goes through `saveStorageData`, which the module
 * neither defines nor imports: each call throws inside its `try`, so the
 * module never writes storage and the model has no storage.
 * `detectEnvironment` picks among the URL, organization-ID and DOM
 * detectors' results, which are parameters here.
 */
module ContentV12 {

  import opened Strings
  import opened Tables
  import opened Detections

  /** The module's `let` state. */
  datatype State = State(
    currentEnvironment: Option<string>,
    detectedOrgId: Option<string>,
    detectionMethod: Option<string>,
    detectionSource: Option<string>)

  /** The organization-ID branch applies when the environment or the org ID differs (`!==`). */
  predicate OrgIdChanges(s: State, environment: string, orgId: OrgRef) {
    Some(environment) != s.currentEnvironment || !orgId.SameAs(s.detectedOrgId)
  }

  /** `updateEnvironment(d, forceUpdate)`: whether it reports an update. */
  predicate Reports(s: State, d: Detection, force: bool) {
    var environment := ToLower(d.environment);
    if !Truthy(d.environment) then false
    else if d.orgId == Ref(DrOrgId) || d.orgId == Ref(ProdOrgId) then true
    else if d.detectionMethod == OrgIdName then true
    else Some(environment) != s.currentEnvironment || force
  }

  /** `updateEnvironment(d, forceUpdate)`: the state after the call. */
  function UpdateStep(s: State, d: Detection, force: bool): State {
    var environment := ToLower(d.environment);
    if !Truthy(d.environment) then s
    else if d.orgId == Ref(DrOrgId) then
      State(Some("dr"), Some(DrOrgId), Some(OrgIdName), Some(OrElse(d.source, "dr-org-id-detection")))
    else if d.orgId == Ref(ProdOrgId) then
      State(Some("prod"), Some(ProdOrgId), Some(OrgIdName), Some(OrElse(d.source, "prod-org-id-detection")))
    else if d.detectionMethod == OrgIdName then
      if OrgIdChanges(s, environment, d.orgId) then
        State(Some(environment), d.orgId.OrElse(s.detectedOrgId), Some(d.detectionMethod), Some(d.source))
      else s
    else if Some(environment) != s.currentEnvironment || force then
      State(Some(environment), d.orgId.OrElse(s.detectedOrgId),
            if Truthy(d.detectionMethod) then Some(d.detectionMethod) else s.detectionMethod,
            if Truthy(d.source) then Some(d.source) else s.detectionSource)
    else s
  }

  /**
   * The login-page test of `detectEnvironment`: "login." in the lower-cased
   * address, and "/authenticate" in the address as written or "login" in
   * the lower-cased page title.
   */
  predicate IsLoginPage(href: string, title: string) {
    Contains(ToLower(href), "login.") && (Contains(href, "/authenticate") || Contains(ToLower(title), "login"))
  }

  /** The result `detectEnvironment` returns on a login page. */
  const LoginResult := Detection("unknown", 0, "login-page-detection", "login-page", Missing, None)

  /** The result of `checkCurrentUrlForEnvironment`, from the strong-pattern and the detailed URL detectors' results. */
  function UrlCheckResult(strong: Option<Detection>, detailed: Option<Detection>): Option<Detection> {
    if strong.Some? then strong else detailed
  }

  /** The state after `checkCurrentUrlForEnvironment`: a strong dr result is forced in. */
  function UrlCheckStep(s: State, strong: Option<Detection>): State {
    if strong.Some? && strong.value.environment == "dr" then UpdateStep(s, strong.value, true) else s
  }

  /** The choice `detectEnvironment` makes once it is off a login page. */
  function Choose(urlResult: Option<Detection>, orgIdResult: Option<Detection>, domResult: Option<Detection>): Option<Detection> {
    if urlResult.Some? && urlResult.value.environment == "dr" then urlResult
    else if orgIdResult.Some? then
      var lowered := orgIdResult.value.(environment := ToLower(orgIdResult.value.environment));
      if lowered.environment == "prod" then Some(lowered)
      else if lowered.environment == "test" && urlResult.Some? && urlResult.value.environment == "dr" then urlResult
      else Some(lowered)
    else if urlResult.Some? then urlResult
    else domResult
  }

  /** The result of `detectEnvironment`. */
  function DetectResult(href: string, title: string, strong: Option<Detection>, detailed: Option<Detection>,
                        orgIdResult: Option<Detection>, domResult: Option<Detection>): Option<Detection> {
    if IsLoginPage(href, title) then Some(LoginResult)
    else Choose(UrlCheckResult(strong, detailed), orgIdResult, domResult)
  }

  /** The content script's detection state. */
  class Detector {
    var currentEnvironment: Option<string>
    var detectedOrgId: Option<string>
    var detectionMethod: Option<string>
    var detectionSource: Option<string>

    function Snapshot(): State
      reads this
    {
      State(currentEnvironment, detectedOrgId, detectionMethod, detectionSource)
    }

    constructor ()
      ensures Snapshot() == State(None, None, None, None)
    {
      currentEnvironment := None;
      detectedOrgId := None;
      detectionMethod := None;
      detectionSource := None;
    }

    /** `updateEnvironment(d, forceUpdate)`. */
    method UpdateEnvironment(d: Detection, forceUpdate: bool) returns (updated: bool)
      modifies this
      ensures updated == Reports(old(Snapshot()), d, forceUpdate)
      ensures Snapshot() == UpdateStep(old(Snapshot()), d, forceUpdate)
    {
      if !Truthy(d.environment) {
        return false;
      }
      var normalizedEnvironment := ToLower(d.environment);

      if d.orgId == Ref(DrOrgId) {
        currentEnvironment := Some("dr");
        detectedOrgId := Some(DrOrgId);
        detectionMethod := Some(OrgIdName);
        detectionSource := Some(OrElse(d.source, "dr-org-id-detection"));
        return true;
      }
      if d.orgId == Ref(ProdOrgId) {
        currentEnvironment := Some("prod");
        detectedOrgId := Some(ProdOrgId);
        detectionMethod := Some(OrgIdName);
        detectionSource := Some(OrElse(d.source, "prod-org-id-detection"));
        return true;
      }
      if d.detectionMethod == OrgIdName {
        if Some(normalizedEnvironment) != currentEnvironment || !d.orgId.SameAs(detectedOrgId) {
          currentEnvironment := Some(normalizedEnvironment);
          if d.orgId.IsTruthy() {
            detectedOrgId := Some(d.orgId.id);
          }
          detectionMethod := Some(d.detectionMethod);
          detectionSource := Some(d.source);
        }
        return true;
      }
      if Some(normalizedEnvironment) != currentEnvironment || forceUpdate {
        currentEnvironment := Some(normalizedEnvironment);
        if d.orgId.IsTruthy() {
          detectedOrgId := Some(d.orgId.id);
        }
        if Truthy(d.detectionMethod) {
          detectionMethod := Some(d.detectionMethod);
        }
        if Truthy(d.source) {
          detectionSource := Some(d.source);
        }
        return true;
      }
      return false;
    }

    /** `checkCurrentUrlForEnvironment()`, given what the two URL detectors return. */
    method CheckCurrentUrlForEnvironment(strong: Option<Detection>, detailed: Option<Detection>) returns (r: Option<Detection>)
      modifies this
      ensures r == UrlCheckResult(strong, detailed)
      ensures Snapshot() == UrlCheckStep(old(Snapshot()), strong)
    {
      if strong.Some? {
        if strong.value.environment == "dr" {
          var _ := UpdateEnvironment(strong.value, true);
        }
        return strong;
      }
      return detailed;
    }

    /** `detectEnvironment()`, given the page's address and title and each detector's result. */
    method DetectEnvironment(href: string, title: string, strong: Option<Detection>, detailed: Option<Detection>,
                             orgIdResult: Option<Detection>, domResult: Option<Detection>) returns (r: Option<Detection>)
      modifies this
      ensures r == DetectResult(href, title, strong, detailed, orgIdResult, domResult)
      ensures Snapshot() == if IsLoginPage(href, title) then old(Snapshot()) else UrlCheckStep(old(Snapshot()), strong)
    {
      var isLoginPage := Contains(ToLower(href), "login.") && (Contains(href, "/authenticate") || Contains(ToLower(title), "login"));
      if isLoginPage {
        return Some(LoginResult);
      }
      var urlResult := CheckCurrentUrlForEnvironment(strong, detailed);
      if urlResult.Some? && urlResult.value.environment == "dr" {
        return urlResult;
      }
      if orgIdResult.Some? {
        var lowered := orgIdResult.value.(environment := ToLower(orgIdResult.value.environment));
        if lowered.environment == "prod" {
          return Some(lowered);
        }
        if lowered.environment == "test" && urlResult.Some? && urlResult.value.environment == "dr" {
          return urlResult;
        }
        return Some(lowered);
      }
      if urlResult.Some? {
        return urlResult;
      }
      return domResult;
    }
  }

  // ---------------------------------------------------------------------
  // Properties

  /** A result without an environment is refused and changes nothing. */
  lemma MissingEnvironmentIsIgnored(s: State, d: Detection, force: bool)
    requires !Truthy(d.environment)
    ensures !Reports(s, d, force) && UpdateStep(s, d, force) == s
  {
  }

  /** The DR organization ID forces dr, whatever environment, method or state came with it. */
  lemma DrOrgIdForcesDr(s: State, d: Detection, force: bool)
    requires Truthy(d.environment) && d.orgId == Ref(DrOrgId)
    ensures Reports(s, d, force)
    ensures var s' := UpdateStep(s, d, force);
      s'.currentEnvironment == Some("dr") && s'.detectedOrgId == Some(DrOrgId) && s'.detectionMethod == Some(OrgIdName)
  {
  }

  /** The production organization ID forces prod in the same way. */
  lemma ProdOrgIdForcesProd(s: State, d: Detection, force: bool)
    requires Truthy(d.environment) && d.orgId == Ref(ProdOrgId)
    ensures Reports(s, d, force)
    ensures var s' := UpdateStep(s, d, force);
      s'.currentEnvironment == Some("prod") && s'.detectedOrgId == Some(ProdOrgId) && s'.detectionMethod == Some(OrgIdName)
  {
  }

  /** The environment is lower-cased before any comparison: a result and its lower-cased copy act alike. */
  lemma EnvironmentIsLowercased(s: State, d: Detection, force: bool)
    ensures var lowered := d.(environment := ToLower(d.environment));
      Reports(s, d, force) == Reports(s, lowered, force)
      && UpdateStep(s, d, force) == UpdateStep(s, lowered, force)
  {
    ToLowerIdempotent(d.environment);
    ToLowerEmpty(d.environment);
  }

  /** Every state the updates leave holds a lower-case environment, given one before. */
  lemma EnvironmentStaysLower(s: State, d: Detection, force: bool)
    requires s.currentEnvironment.Some? ==> IsLower(s.currentEnvironment.value)
    ensures var s' := UpdateStep(s, d, force); s'.currentEnvironment.Some? ==> IsLower(s'.currentEnvironment.value)
  {
    ToLowerIsLower(d.environment);
  }

  /** An organization-ID detection (other than the DR and production IDs) always reports success. */
  lemma OrgIdMethodReportsSuccess(s: State, d: Detection, force: bool)
    requires Truthy(d.environment) && d.detectionMethod == OrgIdName
    ensures Reports(s, d, force)
  {
  }

  /** ... but changes the state only when the environment or the org ID differs. */
  lemma OrgIdMethodChangesOnlyOnDifference(s: State, d: Detection, force: bool)
    requires Truthy(d.environment) && d.detectionMethod == OrgIdName
    requires d.orgId != Ref(DrOrgId) && d.orgId != Ref(ProdOrgId)
    ensures !OrgIdChanges(s, ToLower(d.environment), d.orgId) ==> UpdateStep(s, d, force) == s
    ensures OrgIdChanges(s, ToLower(d.environment), d.orgId) ==>
      UpdateStep(s, d, force) == State(Some(ToLower(d.environment)), d.orgId.OrElse(s.detectedOrgId), Some(OrgIdName), Some(d.source))
  {
  }

  /** Any other detection applies exactly when the environment changes or the update is forced. */
  lemma OtherUpdatesNeedChangeOrForce(s: State, d: Detection, force: bool)
    requires Truthy(d.environment) && d.detectionMethod != OrgIdName
    requires d.orgId != Ref(DrOrgId) && d.orgId != Ref(ProdOrgId)
    ensures Reports(s, d, force) <==> (Some(ToLower(d.environment)) != s.currentEnvironment || force)
    ensures !Reports(s, d, force) ==> UpdateStep(s, d, force) == s
    ensures Reports(s, d, force) ==> (var s' := UpdateStep(s, d, force);
      s'.currentEnvironment == Some(ToLower(d.environment))
      && (Truthy(d.detectionMethod) ==> s'.detectionMethod == Some(d.detectionMethod))
      && (!Truthy(d.detectionMethod) ==> s'.detectionMethod == s.detectionMethod)
      && (!d.orgId.IsTruthy() ==> s'.detectedOrgId == s.detectedOrgId))
  {
  }

  /** A login page gives unknown at confidence 0 and leaves the state alone. */
  lemma LoginPageIsUnknown(href: string, title: string, strong: Option<Detection>, detailed: Option<Detection>,
                           orgIdResult: Option<Detection>, domResult: Option<Detection>)
    requires IsLoginPage(href, title)
    ensures var r := DetectResult(href, title, strong, detailed, orgIdResult, domResult);
      r.Some? && r.value.environment == "unknown" && r.value.confidence == 0
  {
  }

  /** Off a login page, a dr URL result wins over every other detector. */
  lemma DrUrlResultWins(href: string, title: string, strong: Option<Detection>, detailed: Option<Detection>,
                        orgIdResult: Option<Detection>, domResult: Option<Detection>)
    requires !IsLoginPage(href, title)
    requires var u := UrlCheckResult(strong, detailed); u.Some? && u.value.environment == "dr"
    ensures DetectResult(href, title, strong, detailed, orgIdResult, domResult) == UrlCheckResult(strong, detailed)
  {
  }

  /** Otherwise an organization-ID result wins, lower-cased; the URL result comes next and the DOM result last. */
  lemma DetectorPriority(urlResult: Option<Detection>, orgIdResult: Option<Detection>, domResult: Option<Detection>)
    requires !(urlResult.Some? && urlResult.value.environment == "dr")
    ensures orgIdResult.Some? ==>
      Choose(urlResult, orgIdResult, domResult) == Some(orgIdResult.value.(environment := ToLower(orgIdResult.value.environment)))
    ensures orgIdResult.None? && urlResult.Some? ==> Choose(urlResult, orgIdResult, domResult) == urlResult
    ensures orgIdResult.None? && urlResult.None? ==> Choose(urlResult, orgIdResult, domResult) == domResult
  {
  }

  /** A strong dr URL result always leaves the environment dr, whatever the state or the result's method. */
  lemma StrongDrUrlLands(s: State, strong: Detection)
    requires strong.environment == "dr"
    ensures UrlCheckStep(s, Some(strong)).currentEnvironment == Some(if strong.orgId == Ref(ProdOrgId) then "prod" else "dr")
  {
    assert ToLower("dr") == "dr";
  }
}
