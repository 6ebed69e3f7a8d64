/**
 * The version 12 background `EnvironmentService`: the cached environment
 * record, the per-tab notification cache, and the methods that feed
 * detections into the record (`updateEnvironment`,
 * `processOrganizationId`, `setEnvironmentManually`,
 * `clearEnvironmentData`, `checkUrlForEnvironment`).
 *
 * Like the version 8 background script, `updateEnvironment` looks the
 * cached method up in DETECTION_METHODS by key while the record holds
 * method names, so the cached confidence falls back to DEFAULT (50); the
 * model keeps the lookup as written. The tabs that `chrome.tabs.query`
 * reports are a parameter (`openTabs`); the messages sent to them are
 * left out, the cache updates they come with are kept.
 */
module EnvironmentService {

  import opened Strings
  import opened Tables
  import opened Detections

  /** An entry of `tabEnvironmentCache`: what a tab was last told. */
  datatype TabCache = TabCache(environment: string, orgId: OrgRef)

  /** The service's fields and the storage keys it reads and writes. */
  datatype State = State(
    currentEnvironment: Option<string>,
    detectedOrgId: Option<string>,
    lastDetectionMethod: Option<string>,
    lastDetectionSource: Option<string>,
    processedUrls: set<string>,
    tabCache: map<int, TabCache>,
    storage: map<string, string>)

  /** The method recorded when an org ID accompanies a hostname or URL-pattern detection of test or dev. */
  const CombinedMethodName := "URL+OrgID"

  // ---------------------------------------------------------------------
  // Tab notifications

  /** `notifyTab(tabId, environment, orgId = null)`: the cache after the call. */
  function NotifiedCache(cache: map<int, TabCache>, tabId: int, environment: string, orgId: OrgRef): map<int, TabCache> {
    if orgId != Ref(DrOrgId) && tabId in cache && cache[tabId].environment == environment then cache
    else cache[tabId := TabCache(environment, NullByDefault(orgId))]
  }

  /** The `tabs.forEach(tab => this.notifyTab(...))` of `notifyEnvironmentChange`, in tab order. */
  function NotifyAll(cache: map<int, TabCache>, tabs: seq<int>, environment: string, orgId: OrgRef): map<int, TabCache>
    decreases |tabs|
  {
    if tabs == [] then cache
    else NotifyAll(NotifiedCache(cache, tabs[0], environment, orgId), tabs[1..], environment, orgId)
  }

  /** Notify the triggering tab first, when there is one, then every open tab. */
  function Notified(s: State, tabId: Option<int>, environment: string, orgId: OrgRef, openTabs: seq<int>): State {
    var first := if TabTruthy(tabId) then NotifiedCache(s.tabCache, tabId.value, environment, orgId) else s.tabCache;
    s.(tabCache := NotifyAll(first, openTabs, environment, orgId))
  }

  // ---------------------------------------------------------------------
  // updateEnvironment

  /** The confidence of the cached detection; 0 when no method is recorded. */
  function CurrentConfidence(s: State): nat {
    if s.lastDetectionMethod.Some? && Truthy(s.lastDetectionMethod.value) then ConfidenceOf(DetectionMethods, Key, s.lastDetectionMethod.value)
    else 0
  }

  /** `confidence || (DETECTION_METHODS[method] || DEFAULT).confidence`. */
  function IncomingConfidence(d: Detection): nat {
    if d.confidence != 0 then d.confidence else ConfidenceOf(DetectionMethods, Key, d.detectionMethod)
  }

  predicate IsTestOrDev(environment: string) {
    environment == "test" || environment == "dev"
  }

  /** test or dev confirmed by an org ID: exempt from the same-environment skip. */
  predicate OrgIdRefresh(d: Detection) {
    IsTestOrDev(d.environment) && d.orgId.IsTruthy() && d.detectionMethod == OrgIdName
  }

  /** The same environment again, with a null or unchanged org ID. */
  predicate SameEnvironment(s: State, d: Detection) {
    s.currentEnvironment == Some(d.environment) && (d.orgId == NullRef || d.orgId.SameAs(s.detectedOrgId))
  }

  /** Whether `updateEnvironment(d)` gets past its gates. */
  predicate Accepts(s: State, d: Detection) {
    var current := CurrentConfidence(s);
    var incoming := IncomingConfidence(d);
    if !Truthy(d.environment) then false
    else if !OrgIdRefresh(d) && SameEnvironment(s, d) then false
    else if s.currentEnvironment == Some("test") && d.environment == "dr" then
      IsUrlMethod(d.detectionMethod) || current <= incoming
    else !(s.currentEnvironment.Some? && current > incoming)
  }

  /** An org ID accompanies a hostname or URL-pattern detection of test or dev. */
  predicate Combined(d: Detection) {
    IsTestOrDev(d.environment) && d.orgId.IsTruthy() && IsUrlMethod(d.detectionMethod)
  }

  function FinalMethod(d: Detection): string {
    if Combined(d) then CombinedMethodName else d.detectionMethod
  }

  function FinalSource(d: Detection): string {
    if Combined(d) then d.source + " + " + d.orgId.id else d.source
  }

  /** The fields and storage after an accepted update, before the tabs are told. */
  function Recorded(s: State, d: Detection): State {
    var orgIdAfter := d.orgId.OrElse(s.detectedOrgId);
    s.(currentEnvironment := Some(d.environment),
       detectedOrgId := orgIdAfter,
       lastDetectionMethod := Some(FinalMethod(d)),
       lastDetectionSource := Some(FinalSource(d)),
       storage := Store(s.storage["environmentType" := d.environment], "detectedOrgId", orgIdAfter)
                    ["detectionMethod" := FinalMethod(d)]["detectionSource" := FinalSource(d)])
  }

  /** `updateEnvironment(d)` as one transition. */
  function UpdateStep(s: State, d: Detection, openTabs: seq<int>): State {
    if Accepts(s, d) then Notified(Recorded(s, d), d.tabId, d.environment, d.orgId, openTabs)
    else s
  }

  // ---------------------------------------------------------------------
  // processOrganizationId, setEnvironmentManually, clearEnvironmentData

  /** The result `processOrganizationId(orgId, source, tabId)` returns. */
  function OrgIdResult(orgId: string, source: string, tabId: Option<int>): Option<Detection> {
    if !Truthy(orgId) then None
    else if orgId == DrOrgId then
      Some(Detection("dr", DrOrgIdConfidence, OrgIdName, OrElse(source, "dr-org-detection"), Ref(orgId), tabId))
    else match Lookup(OrgMappings, orgId)
      case None => None
      case Some(environment) => Some(Detection(environment, OrgIdConfidence, OrgIdName, OrElse(source, "unknown"), Ref(orgId), tabId))
  }

  /** The state after `processOrganizationId(orgId, source, tabId)`. */
  function OrgIdStep(s: State, orgId: string, source: string, tabId: Option<int>, openTabs: seq<int>): State {
    match OrgIdResult(orgId, source, tabId)
    case None => s
    case Some(d) =>
      if orgId == DrOrgId then
        // forced, with a minimal storage write, bypassing updateEnvironment
        var forced := s.(currentEnvironment := Some("dr"), detectedOrgId := Some(orgId),
                         lastDetectionMethod := Some(OrgIdName), lastDetectionSource := Some(d.source),
                         storage := s.storage["environmentType" := "dr"]["detectedOrgId" := orgId]);
        Notified(forced, tabId, "dr", Ref(orgId), openTabs)
      else UpdateStep(s, d, openTabs)
  }

  /** The environments a manual override may choose. */
  predicate ManualEnvironment(environment: string) {
    environment == "dr" || environment == "test" || environment == "dev"
  }

  /** The detection `setEnvironmentManually(environment)` hands to `updateEnvironment`. */
  function ManualResult(s: State, environment: string): Detection {
    Detection(environment, ManualOverrideConfidence, ManualOverrideName, "user-override", RefOf(s.detectedOrgId), None)
  }

  /** The state after `setEnvironmentManually(environment)`. */
  function ManualStep(s: State, environment: string, openTabs: seq<int>): State {
    if ManualEnvironment(environment) then UpdateStep(s, ManualResult(s, environment), openTabs) else s
  }

  /** The storage keys `clearEnvironmentData` removes (`lastUpdated` carries the dropped timestamp). */
  const DetectionKeys: set<string> := {"environmentType", "detectedOrgId", "detectionMethod", "detectionSource", "lastUpdated"}

  /** The state after `clearEnvironmentData()`. */
  function ClearStep(s: State, openTabs: seq<int>): State {
    var cleared := State(None, None, None, None, {}, s.tabCache, s.storage - DetectionKeys);
    cleared.(tabCache := NotifyAll(s.tabCache, openTabs, "unknown", NullRef))
  }

  // ---------------------------------------------------------------------
  // checkUrlForEnvironment

  /** The URL confidence is reduced for hostname matches: 0.95 * 0.8. */
  const ReducedHostnameConfidence: nat := HostnameConfidence * 80 / 100

  /** The login-page test as written: a `login.` host and an authenticate path or fragment, or "login" anywhere. */
  predicate LoginPage(p: UrlParts) {
    var hostname := ToLower(p.hostname);
    Contains(hostname, "login.")
    && (Contains(p.hash, "/authenticate") || Contains(p.pathname, "/authenticate")
        || Contains(hostname + p.pathname + p.hash, "login"))
  }

  /** The result for a login page: unknown at confidence 0, without an update. */
  function LoginResult(tabId: Option<int>): Detection {
    Detection("unknown", 0, "login-page", "login-detection", NullRef, tabId)
  }

  function UrlPatternResult(environment: string, source: string, tabId: Option<int>): Detection {
    Detection(environment, UrlPatternConfidence, UrlPatternName, source, NullRef, tabId)
  }

  /** Storage already holds an organization-ID detection. */
  predicate StoredOrgIdDetection(storage: map<string, string>) {
    "environmentType" in storage && Truthy(storage["environmentType"])
    && "detectionMethod" in storage && storage["detectionMethod"] == OrgIdName
  }

  predicate StoredOrgId(storage: map<string, string>) {
    "detectedOrgId" in storage && Truthy(storage["detectedOrgId"])
  }

  /** The strong-DR step, which appears twice in the chain. */
  function StrongDrStep(urlLower: string, tabId: Option<int>): (r: Option<Detection>)
    ensures r.Some? <==> AnyContained(urlLower, StrongDrPatterns)
    ensures r.Some? ==> (r.value.environment == "dr" && r.value.detectionMethod == UrlPatternName
      && r.value.confidence == UrlPatternConfidence && r.value.orgId == NullRef && r.value.tabId == tabId)
  {
    match FirstContained(urlLower, StrongDrPatterns)
    case Some(pat) => Some(UrlPatternResult("dr", "strong-dr-pattern:" + pat, tabId))
    case None => None
  }

  /** The DR step, skipped when a DR exclusion word occurs in host, path or fragment. */
  function DrStep(p: UrlParts, urlLower: string, tabId: Option<int>): (r: Option<Detection>)
    ensures AnyContained(ToLower(p.hostname) + p.pathname + p.hash, DrExcludeWords) ==> r.None?
    ensures r.Some? ==> (r.value.environment == "dr" && r.value.detectionMethod == UrlPatternName
      && r.value.confidence == UrlPatternConfidence && r.value.orgId == NullRef && r.value.tabId == tabId)
  {
    var hostname := ToLower(p.hostname);
    var full := hostname + p.pathname + p.hash;
    if AnyContained(full, DrExcludeWords) then None
    else if Contains(hostname, "login") && Contains(full, "wawanesa-dr") then
      Some(UrlPatternResult("dr", "login-wawanesa-dr", tabId))
    else match FirstContained(urlLower, DrPatterns)
      case Some(pat) => Some(UrlPatternResult("dr", "url-pattern:" + pat, tabId))
      case None => None
  }

  /** A test or dev pattern step, with no exclusion gate. */
  function PatternStep(environment: string, patterns: seq<string>, urlLower: string, tabId: Option<int>): (r: Option<Detection>)
    ensures r.Some? <==> AnyContained(urlLower, patterns)
    ensures r.Some? ==> (r.value.environment == environment && r.value.detectionMethod == UrlPatternName
      && r.value.confidence == UrlPatternConfidence && r.value.orgId == NullRef && r.value.tabId == tabId)
  {
    match FirstContained(urlLower, patterns)
    case Some(pat) => Some(UrlPatternResult(environment, "url-pattern:" + pat, tabId))
    case None => None
  }

  /** The DR API path step. */
  function ApiStep(pathname: string, tabId: Option<int>): (r: Option<Detection>)
    ensures r.Some? <==> Contains(pathname, "/api/") && (Contains(pathname, "/dr/") || Contains(pathname, "/dr-api/"))
    ensures r.Some? ==> (r.value.environment == "dr" && r.value.detectionMethod == ApiEndpointName
      && r.value.confidence == ApiEndpointConfidence && r.value.orgId == NullRef && r.value.tabId == tabId)
  {
    if Contains(pathname, "/api/") && (Contains(pathname, "/dr/") || Contains(pathname, "/dr-api/")) then
      Some(Detection("dr", ApiEndpointConfidence, ApiEndpointName, pathname, NullRef, tabId))
    else None
  }

  /** The fixed shapes of a URL result: null org ID, the caller's tab, a rule confidence, unknown exactly at 0. */
  predicate UrlShaped(d: Detection, tabId: Option<int>) {
    d.orgId == NullRef && d.tabId == tabId
    && (d.confidence == 0 || d.confidence == 76 || d.confidence == 85 || d.confidence == 90)
    && (d.confidence == 0 <==> d.environment == "unknown")
  }

  /** The checks after the stored-state checks: host table, DR, test, dev, DR API path. */
  function UrlRules(p: UrlParts, urlLower: string, tabId: Option<int>): (r: Option<Detection>)
    ensures r.Some? ==> UrlShaped(r.value, tabId)
  {
    match FirstKeyContained(ToLower(p.hostname), HostnameMappings)
    case Some(host) =>
      assert forall e :: e in HostnameMappings ==> e.1 != "unknown";
      Some(Detection(host.1, ReducedHostnameConfidence, HostnameName, host.0, NullRef, tabId))
    case None =>
      var dr := DrStep(p, urlLower, tabId);
      if dr.Some? then dr
      else
        var test := PatternStep("test", TestPatterns, urlLower, tabId);
        if test.Some? then test
        else
          var dev := PatternStep("dev", DevPatterns, urlLower, tabId);
          if dev.Some? then dev
          else ApiStep(p.pathname, tabId)
  }

  /** The detection the chain after the login check reaches, if any. */
  function UrlDetection(url: string, p: UrlParts, storage: map<string, string>, tabId: Option<int>): Option<Detection> {
    var u := ToLower(url);
    var strong := StrongDrStep(u, tabId);
    if strong.Some? then strong
    else if StoredOrgIdDetection(storage) && StoredOrgId(storage) then None
    else
      var again := StrongDrStep(u, tabId);
      if again.Some? then again
      else if StoredOrgIdDetection(storage) then None
      else UrlRules(p, u, tabId)
  }

  /**
   * The result of `checkUrlForEnvironment(tabId, url)`; `parsed` is the
   * outcome of `new URL(url.toLowerCase())`.
   */
  function CheckUrlResult(url: string, parsed: ParseResult, storage: map<string, string>, tabId: Option<int>): Option<Detection> {
    match parsed
    case ParseError(_) => None
    case Parsed(p) => if LoginPage(p) then Some(LoginResult(tabId)) else UrlDetection(url, p, storage, tabId)
  }

  /** Whether `checkUrlForEnvironment` passes its result on to `updateEnvironment`. */
  predicate CheckUrlUpdates(parsed: ParseResult) {
    parsed.Parsed? && !LoginPage(parsed.parts)
  }

  // ---------------------------------------------------------------------
  // The service object

  class Service {
    var currentEnvironment: Option<string>
    var detectedOrgId: Option<string>
    var lastDetectionMethod: Option<string>
    var lastDetectionSource: Option<string>
    var processedUrls: set<string>
    var tabEnvironmentCache: map<int, TabCache>
    var storage: map<string, string>

    function Snapshot(): State
      reads this
    {
      State(currentEnvironment, detectedOrgId, lastDetectionMethod, lastDetectionSource,
            processedUrls, tabEnvironmentCache, storage)
    }

    /** Every field starts `null` or empty; storage survives from earlier runs. */
    constructor (stored: map<string, string>)
      ensures Snapshot() == State(None, None, None, None, {}, map[], stored)
    {
      currentEnvironment := None;
      detectedOrgId := None;
      lastDetectionMethod := None;
      lastDetectionSource := None;
      processedUrls := {};
      tabEnvironmentCache := map[];
      storage := stored;
    }

    /** `notifyTab(tabId, environment, orgId)`: the cache update (the message itself is left out). */
    method NotifyTab(tabId: int, environment: string, orgId: OrgRef)
      modifies this
      ensures Snapshot() == old(Snapshot()).(tabCache := NotifiedCache(old(tabEnvironmentCache), tabId, environment, orgId))
    {
      var isDrOrgId := orgId == Ref(DrOrgId);
      if !isDrOrgId && tabId in tabEnvironmentCache && tabEnvironmentCache[tabId].environment == environment {
        return;
      }
      tabEnvironmentCache := tabEnvironmentCache[tabId := TabCache(environment, NullByDefault(orgId))];
    }

    /** `notifyEnvironmentChange(environment, orgId)` over the tabs the query reports. */
    method NotifyEnvironmentChange(environment: string, orgId: OrgRef, openTabs: seq<int>)
      modifies this
      ensures Snapshot() == old(Snapshot()).(tabCache := NotifyAll(old(tabEnvironmentCache), openTabs, environment, orgId))
    {
      var i := 0;
      while i < |openTabs|
        invariant 0 <= i <= |openTabs|
        invariant NotifyAll(tabEnvironmentCache, openTabs[i..], environment, orgId)
                  == NotifyAll(old(tabEnvironmentCache), openTabs, environment, orgId)
        invariant Snapshot() == old(Snapshot()).(tabCache := tabEnvironmentCache)
      {
        assert openTabs[i..][1..] == openTabs[i + 1..];
        NotifyTab(openTabs[i], environment, orgId);
        i := i + 1;
      }
    }

    /** `clearTabEnvironmentCache(tabId)`. */
    method ClearTabEnvironmentCache(tabId: int)
      modifies this
      ensures Snapshot() == old(Snapshot()).(tabCache := old(tabEnvironmentCache) - {tabId})
    {
      if tabId in tabEnvironmentCache {
        tabEnvironmentCache := tabEnvironmentCache - {tabId};
      }
    }

    /** The field and storage writes of an accepted `updateEnvironment(d)`. */
    method Record(d: Detection)
      modifies this
      ensures Snapshot() == Recorded(old(Snapshot()), d)
    {
      currentEnvironment := Some(d.environment);
      if d.orgId.IsTruthy() {
        detectedOrgId := Some(d.orgId.id);
      }
      var finalMethod := d.detectionMethod;
      var finalSource := d.source;
      if IsTestOrDev(d.environment) && d.orgId.IsTruthy() {
        if d.detectionMethod == OrgIdName {
          finalMethod := d.detectionMethod;
          finalSource := d.source;
        } else if d.detectionMethod == HostnameName || d.detectionMethod == UrlPatternName {
          finalMethod := CombinedMethodName;
          finalSource := d.source + " + " + d.orgId.id;
        }
      }
      lastDetectionMethod := Some(finalMethod);
      lastDetectionSource := Some(finalSource);
      storage := Store(storage["environmentType" := d.environment], "detectedOrgId", d.orgId.OrElse(detectedOrgId))
                   ["detectionMethod" := finalMethod]["detectionSource" := finalSource];
    }

    /** `updateEnvironment(d)`: returns whether the record was replaced. */
    method UpdateEnvironment(d: Detection, openTabs: seq<int>) returns (updated: bool)
      modifies this
      ensures updated == Accepts(old(Snapshot()), d)
      ensures Snapshot() == UpdateStep(old(Snapshot()), d, openTabs)
    {
      if !Truthy(d.environment) {
        return false;
      }
      var currentConfidence := 0;
      if lastDetectionMethod.Some? && Truthy(lastDetectionMethod.value) {
        currentConfidence := ConfidenceOf(DetectionMethods, Key, lastDetectionMethod.value);
      }
      var newConfidence := if d.confidence != 0 then d.confidence else ConfidenceOf(DetectionMethods, Key, d.detectionMethod);

      if IsTestOrDev(d.environment) && d.orgId.IsTruthy() && d.detectionMethod == OrgIdName {
        // an org ID for test or dev always goes through to the combined record
      } else if currentEnvironment == Some(d.environment) && (d.orgId == NullRef || d.orgId.SameAs(detectedOrgId)) {
        return false;
      }
      if currentEnvironment == Some("test") && d.environment == "dr" {
        if d.detectionMethod == HostnameName || d.detectionMethod == UrlPatternName {
          // a URL that says DR overrides a test detection
        } else if currentConfidence > newConfidence {
          return false;
        }
      } else if currentEnvironment.Some? && currentConfidence > newConfidence {
        return false;
      }

      assert Accepts(old(Snapshot()), d);
      Record(d);

      if TabTruthy(d.tabId) {
        NotifyTab(d.tabId.value, d.environment, d.orgId);
      }
      NotifyEnvironmentChange(d.environment, d.orgId, openTabs);
      return true;
    }

    /** `processOrganizationId(orgId, source, tabId)`. */
    method ProcessOrganizationId(orgId: string, source: string, tabId: Option<int>, openTabs: seq<int>) returns (r: Option<Detection>)
      modifies this
      ensures r == OrgIdResult(orgId, source, tabId)
      ensures Snapshot() == OrgIdStep(old(Snapshot()), orgId, source, tabId, openTabs)
    {
      if !Truthy(orgId) {
        return None;
      }
      if orgId == DrOrgId {
        var drSource := OrElse(source, "dr-org-detection");
        r := Some(Detection("dr", DrOrgIdConfidence, OrgIdName, drSource, Ref(orgId), tabId));
        currentEnvironment := Some("dr");
        detectedOrgId := Some(orgId);
        lastDetectionMethod := Some(OrgIdName);
        lastDetectionSource := Some(drSource);
        storage := storage["environmentType" := "dr"]["detectedOrgId" := orgId];
        if TabTruthy(tabId) {
          NotifyTab(tabId.value, "dr", Ref(orgId));
        }
        NotifyEnvironmentChange("dr", Ref(orgId), openTabs);
        return;
      }
      var environment := Lookup(OrgMappings, orgId);
      if environment.None? {
        return None;
      }
      r := Some(Detection(environment.value, OrgIdConfidence, OrgIdName, OrElse(source, "unknown"), Ref(orgId), tabId));
      var _ := UpdateEnvironment(r.value, openTabs);
    }

    /** `setEnvironmentManually(environment)`: false for anything outside dr, test and dev. */
    method SetEnvironmentManually(environment: string, openTabs: seq<int>) returns (ok: bool)
      modifies this
      ensures ok == ManualEnvironment(environment)
      ensures Snapshot() == ManualStep(old(Snapshot()), environment, openTabs)
    {
      if !(environment == "dr" || environment == "test" || environment == "dev") {
        return false;
      }
      var result := Detection(environment, ManualOverrideConfidence, ManualOverrideName, "user-override", RefOf(detectedOrgId), None);
      var _ := UpdateEnvironment(result, openTabs);
      return true;
    }

    /** `clearEnvironmentData()`. */
    method ClearEnvironmentData(openTabs: seq<int>) returns (ok: bool)
      modifies this
      ensures ok
      ensures Snapshot() == ClearStep(old(Snapshot()), openTabs)
    {
      currentEnvironment := None;
      detectedOrgId := None;
      lastDetectionMethod := None;
      lastDetectionSource := None;
      processedUrls := {};
      storage := storage - DetectionKeys;
      NotifyEnvironmentChange("unknown", NullRef, openTabs);
      return true;
    }

    /** `checkUrlForEnvironment(tabId, url)`: the result, and the update it asks for. */
    method CheckUrlForEnvironment(tabId: Option<int>, url: string, parsed: ParseResult, openTabs: seq<int>) returns (r: Option<Detection>)
      modifies this
      ensures r == CheckUrlResult(url, parsed, old(storage), tabId)
      ensures if CheckUrlUpdates(parsed) && r.Some? then Snapshot() == UpdateStep(old(Snapshot()), r.value, openTabs)
              else Snapshot() == old(Snapshot())
    {
      r := CheckUrlResult(url, parsed, storage, tabId);
      if CheckUrlUpdates(parsed) && r.Some? {
        var _ := UpdateEnvironment(r.value, openTabs);
      }
    }
  }

  // ---------------------------------------------------------------------
  // Properties of the tab cache

  /** After `notifyEnvironmentChange`, every reported tab has the new environment cached; other tabs are untouched. */
  lemma {:induction false} NotifyAllCachesEveryTab(cache: map<int, TabCache>, tabs: seq<int>, environment: string, orgId: OrgRef)
    ensures var c := NotifyAll(cache, tabs, environment, orgId);
      (forall t :: t in tabs ==> t in c && c[t].environment == environment)
      && (forall t :: t !in tabs ==> (t in c <==> t in cache) && (t in cache ==> c[t] == cache[t]))
    decreases |tabs|
  {
    if tabs != [] {
      var next := NotifiedCache(cache, tabs[0], environment, orgId);
      NotifyAllCachesEveryTab(next, tabs[1..], environment, orgId);
      NotifyAllKeepsEnvironment(next, tabs[1..], environment, orgId, tabs[0]);
    }
  }

  /** A tab already showing the environment keeps showing it. */
  lemma {:induction false} NotifyAllKeepsEnvironment(cache: map<int, TabCache>, tabs: seq<int>, environment: string, orgId: OrgRef, t: int)
    requires t in cache && cache[t].environment == environment
    ensures var c := NotifyAll(cache, tabs, environment, orgId); t in c && c[t].environment == environment
    decreases |tabs|
  {
    if tabs != [] {
      NotifyAllKeepsEnvironment(NotifiedCache(cache, tabs[0], environment, orgId), tabs[1..], environment, orgId, t);
    }
  }

  /** `notifyTab` skips a tab that already shows the environment, unless the org ID is the DR one. */
  lemma NotifyTabSkipsRepeat(cache: map<int, TabCache>, tabId: int, environment: string, orgId: OrgRef)
    requires orgId != Ref(DrOrgId)
    requires tabId in cache && cache[tabId].environment == environment
    ensures NotifiedCache(cache, tabId, environment, orgId) == cache
  {
  }

  /** Otherwise it records the environment and org ID for that tab and for no other. */
  lemma NotifyTabRecords(cache: map<int, TabCache>, tabId: int, environment: string, orgId: OrgRef)
    requires orgId == Ref(DrOrgId) || tabId !in cache || cache[tabId].environment != environment
    ensures NotifiedCache(cache, tabId, environment, orgId) == cache[tabId := TabCache(environment, NullByDefault(orgId))]
  {
  }

  /** Every cached org ID is a string or `null`, never `undefined`: the parameter defaults to `null`. */
  predicate NoUndefinedOrgId(cache: map<int, TabCache>) {
    forall t :: t in cache ==> cache[t].orgId != Missing
  }

  /** Notifying any tabs keeps the cache free of `undefined` org IDs, whatever `orgId` is passed. */
  lemma {:induction false} NotifyAllKeepsOrgIdsDefined(cache: map<int, TabCache>, tabs: seq<int>, environment: string, orgId: OrgRef)
    requires NoUndefinedOrgId(cache)
    ensures NoUndefinedOrgId(NotifyAll(cache, tabs, environment, orgId))
    decreases |tabs|
  {
    if tabs != [] {
      var next := NotifiedCache(cache, tabs[0], environment, orgId);
      assert NoUndefinedOrgId(next);
      NotifyAllKeepsOrgIdsDefined(next, tabs[1..], environment, orgId);
    }
  }

  // ---------------------------------------------------------------------
  // Properties of updateEnvironment

  /** A result without an environment changes nothing. */
  lemma MissingEnvironmentIsIgnored(s: State, d: Detection, openTabs: seq<int>)
    requires !Truthy(d.environment)
    ensures !Accepts(s, d) && UpdateStep(s, d, openTabs) == s
  {
  }

  /** The same environment with a null or unchanged org ID changes nothing, except test or dev with an org ID. */
  lemma SameEnvironmentIsSkipped(s: State, d: Detection, openTabs: seq<int>)
    requires SameEnvironment(s, d) && !OrgIdRefresh(d)
    ensures UpdateStep(s, d, openTabs) == s
  {
  }

  /** An org ID for the current test or dev environment faces only the confidence gate. */
  lemma OrgIdRefreshFacesOnlyConfidence(s: State, d: Detection)
    requires OrgIdRefresh(d) && s.currentEnvironment == Some(d.environment)
    ensures Accepts(s, d) <==> CurrentConfidence(s) <= IncomingConfidence(d)
  {
  }

  /** test to dr by hostname or URL pattern is accepted, whatever the confidences. */
  lemma UrlDrOverridesTest(s: State, d: Detection, openTabs: seq<int>)
    requires s.currentEnvironment == Some("test") && d.environment == "dr"
    requires IsUrlMethod(d.detectionMethod)
    ensures Accepts(s, d)
    ensures UpdateStep(s, d, openTabs).currentEnvironment == Some("dr")
  {
  }

  /** Elsewhere, a known current environment with a higher cached confidence wins. */
  lemma ConfidenceGate(s: State, d: Detection, openTabs: seq<int>)
    requires s.currentEnvironment.Some? && CurrentConfidence(s) > IncomingConfidence(d)
    requires !(s.currentEnvironment == Some("test") && d.environment == "dr" && IsUrlMethod(d.detectionMethod))
    ensures UpdateStep(s, d, openTabs) == s
  {
  }

  /** test or dev with an org ID from a hostname or URL pattern is recorded as "URL+OrgID", with the ID in the source. */
  lemma CombinedMethodIsRecorded(s: State, d: Detection, openTabs: seq<int>)
    requires Accepts(s, d) && Combined(d)
    ensures var s' := UpdateStep(s, d, openTabs);
      s'.lastDetectionMethod == Some(CombinedMethodName)
      && s'.lastDetectionSource == Some(d.source + " + " + d.orgId.id)
      && s'.storage["detectionMethod"] == CombinedMethodName
      && s'.detectedOrgId == Some(d.orgId.id)
  {
  }

  /** Every other accepted update records its own method and source, and keeps the old org ID when the new one is falsy. */
  lemma PlainMethodIsRecorded(s: State, d: Detection, openTabs: seq<int>)
    requires Accepts(s, d) && !Combined(d)
    ensures var s' := UpdateStep(s, d, openTabs);
      s'.currentEnvironment == Some(d.environment)
      && s'.lastDetectionMethod == Some(d.detectionMethod) && s'.lastDetectionSource == Some(d.source)
      && s'.storage["environmentType"] == d.environment && s'.storage["detectionMethod"] == d.detectionMethod
      && (d.orgId.IsTruthy() ==> s'.detectedOrgId == Some(d.orgId.id))
      && (!d.orgId.IsTruthy() ==> s'.detectedOrgId == s.detectedOrgId)
      && s'.processedUrls == s.processedUrls
  {
  }

  /** An accepted update tells every open tab the new environment. */
  lemma AcceptedUpdateReachesTabs(s: State, d: Detection, openTabs: seq<int>, t: int)
    requires Accepts(s, d) && t in openTabs
    ensures var c := UpdateStep(s, d, openTabs).tabCache; t in c && c[t].environment == d.environment
  {
    var r := Recorded(s, d);
    var first := if TabTruthy(d.tabId) then NotifiedCache(r.tabCache, d.tabId.value, d.environment, d.orgId) else r.tabCache;
    NotifyAllCachesEveryTab(first, openTabs, d.environment, d.orgId);
  }

  /** No cached confidence exceeds 100 (MANUAL_OVERRIDE). */
  lemma KeyedConfidenceAtMostManual(key: string)
    ensures ConfidenceOf(DetectionMethods, Key, key) <= ManualOverrideConfidence
  {
    var r := Find(DetectionMethods, Key, key);
    if r.Some? {
      assert forall m :: m in DetectionMethods ==> m.confidence <= ManualOverrideConfidence;
    }
  }

  // ---------------------------------------------------------------------
  // Properties of processOrganizationId, setEnvironmentManually, clearEnvironmentData

  /** An empty or unmapped org ID gives null and changes nothing. */
  lemma UnmappedOrgIdIsIgnored(s: State, orgId: string, source: string, tabId: Option<int>, openTabs: seq<int>)
    requires !Truthy(orgId) || (orgId != DrOrgId && forall e :: e in OrgMappings ==> e.0 != orgId)
    ensures OrgIdResult(orgId, source, tabId).None?
    ensures OrgIdStep(s, orgId, source, tabId, openTabs) == s
  {
  }

  /** The DR org ID forces dr at full confidence, whatever the state was. */
  lemma DrOrgIdForcesDr(s: State, source: string, tabId: Option<int>, openTabs: seq<int>)
    ensures var r := OrgIdResult(DrOrgId, source, tabId);
      r.Some? && r.value.environment == "dr" && r.value.confidence == 100 && r.value.detectionMethod == OrgIdName
    ensures var s' := OrgIdStep(s, DrOrgId, source, tabId, openTabs);
      s'.currentEnvironment == Some("dr") && s'.detectedOrgId == Some(DrOrgId)
      && s'.storage["environmentType"] == "dr" && s'.storage["detectedOrgId"] == DrOrgId
      && (forall k :: k in s.storage && k != "environmentType" && k != "detectedOrgId" ==> k in s'.storage && s'.storage[k] == s.storage[k])
  {
  }

  /** Any other mapped org ID is a 0.95 detection of its mapped environment, handed to `updateEnvironment`. */
  lemma MappedOrgIdIsDetected(s: State, orgId: string, environment: string, source: string, tabId: Option<int>, openTabs: seq<int>)
    requires orgId != DrOrgId && Truthy(orgId) && (orgId, environment) in OrgMappings
    ensures var r := OrgIdResult(orgId, source, tabId);
      r.Some? && r.value.environment == environment && r.value.confidence == OrgIdConfidence
      && r.value.orgId == Ref(orgId) && r.value.source == OrElse(source, "unknown")
      && OrgIdStep(s, orgId, source, tabId, openTabs) == UpdateStep(s, r.value, openTabs)
  {
    var r := Lookup(OrgMappings, orgId);
    assert r.Some?;
  }

  /** A manual override outside dr, test and dev changes nothing. */
  lemma ManualOverrideRejectsOthers(s: State, environment: string, openTabs: seq<int>)
    requires !ManualEnvironment(environment)
    ensures ManualStep(s, environment, openTabs) == s
  {
  }

  /** A manual override to a different environment always lands, whatever the cached confidence. */
  lemma ManualOverrideLands(s: State, environment: string, openTabs: seq<int>)
    requires ManualEnvironment(environment) && s.currentEnvironment != Some(environment)
    ensures var s' := ManualStep(s, environment, openTabs);
      s'.currentEnvironment == Some(environment)
      && s'.lastDetectionMethod == Some(ManualOverrideName) && s'.lastDetectionSource == Some("user-override")
      && s'.detectedOrgId == s.detectedOrgId
  {
    if s.lastDetectionMethod.Some? {
      KeyedConfidenceAtMostManual(s.lastDetectionMethod.value);
    }
  }

  /**
   * A manual override to the current environment passes the current org ID
   * along, so it meets the same-environment skip and changes nothing
   * (though `setEnvironmentManually` still returns true).
   */
  lemma ManualOverrideOfCurrentIsNoOp(s: State, environment: string, openTabs: seq<int>)
    requires s.currentEnvironment == Some(environment)
    ensures ManualStep(s, environment, openTabs) == s
  {
  }

  /** Clearing nulls every field, empties processedUrls, removes the detection keys and tells every tab "unknown". */
  lemma ClearForgetsEverything(s: State, openTabs: seq<int>)
    ensures var s' := ClearStep(s, openTabs);
      s'.currentEnvironment.None? && s'.detectedOrgId.None? && s'.lastDetectionMethod.None? && s'.lastDetectionSource.None?
      && s'.processedUrls == {}
      && (forall k :: k in s'.storage <==> k in s.storage && k !in DetectionKeys)
      && (forall t :: t in openTabs ==> t in s'.tabCache && s'.tabCache[t].environment == "unknown")
  {
    NotifyAllCachesEveryTab(s.tabCache, openTabs, "unknown", NullRef);
  }

  // ---------------------------------------------------------------------
  // Properties of checkUrlForEnvironment

  /**
   * The login-page test reduces to its first conjunct: a hostname with
   * "login." puts "login" into the full text, so the alternatives after it
   * never decide anything.
   */
  lemma LoginPageIsHostTest(p: UrlParts)
    ensures LoginPage(p) <==> Contains(ToLower(p.hostname), "login.")
  {
    var hostname := ToLower(p.hostname);
    if Contains(hostname, "login.") {
      var i := ContainsWitness(hostname, "login.");
      assert hostname[i..i + 5] == hostname[i..i + 6][..5] == "login";
      ContainsAt(hostname, "login", i);
      ContainsInLeft(hostname, p.pathname + p.hash, "login");
      assert hostname + p.pathname + p.hash == hostname + (p.pathname + p.hash);
    }
  }

  /** A login page is unknown at confidence 0 with a null org ID, and triggers no update. */
  lemma LoginPageIsUnknown(url: string, p: UrlParts, storage: map<string, string>, tabId: Option<int>)
    requires Contains(ToLower(p.hostname), "login.")
    ensures var r := CheckUrlResult(url, Parsed(p), storage, tabId);
      r == Some(Detection("unknown", 0, "login-page", "login-detection", NullRef, tabId))
    ensures !CheckUrlUpdates(Parsed(p))
  {
    LoginPageIsHostTest(p);
  }

  /** An unparsable URL gives null. */
  lemma UnparsableIsNull(url: string, message: string, storage: map<string, string>, tabId: Option<int>)
    ensures CheckUrlResult(url, ParseError(message), storage, tabId).None?
  {
  }

  /** Off a login page, a strong DR pattern gives dr by URL pattern, whatever storage holds. */
  lemma StrongDrBeforeStoredState(url: string, p: UrlParts, storage: map<string, string>, tabId: Option<int>)
    requires !Contains(ToLower(p.hostname), "login.")
    requires AnyContained(ToLower(url), StrongDrPatterns)
    ensures var r := CheckUrlResult(url, Parsed(p), storage, tabId);
      r.Some? && r.value.environment == "dr" && r.value.detectionMethod == UrlPatternName
      && r.value.confidence == UrlPatternConfidence
      && r == CheckUrlResult(url, Parsed(p), map[], tabId)
  {
    LoginPageIsHostTest(p);
  }

  /** Without a strong DR pattern, a stored organization-ID detection blocks URL detection, with or without a stored ID. */
  lemma StoredOrgIdBlocksUrlDetection(url: string, p: UrlParts, storage: map<string, string>, tabId: Option<int>)
    requires !Contains(ToLower(p.hostname), "login.")
    requires !AnyContained(ToLower(url), StrongDrPatterns)
    requires StoredOrgIdDetection(storage)
    ensures CheckUrlResult(url, Parsed(p), storage, tabId).None?
  {
    LoginPageIsHostTest(p);
  }

  /** A host-table match uses the reduced hostname confidence 0.76. */
  lemma HostnameConfidenceIsReduced(url: string, p: UrlParts, storage: map<string, string>, tabId: Option<int>)
    requires !Contains(ToLower(p.hostname), "login.")
    requires !AnyContained(ToLower(url), StrongDrPatterns) && !StoredOrgIdDetection(storage)
    requires FirstKeyContained(ToLower(p.hostname), HostnameMappings).Some?
    ensures var r := CheckUrlResult(url, Parsed(p), storage, tabId);
      r.Some? && r.value.detectionMethod == HostnameName && r.value.confidence == 76
      && r.value.environment == FirstKeyContained(ToLower(p.hostname), HostnameMappings).value.1
  {
    LoginPageIsHostTest(p);
  }

  /** The test step has no exclusion gate: a test pattern reached by the chain gives test even next to a test exclusion word. */
  lemma TestIsUngated(p: UrlParts, urlLower: string, tabId: Option<int>)
    requires FirstKeyContained(ToLower(p.hostname), HostnameMappings).None?
    requires DrStep(p, urlLower, tabId).None?
    requires AnyContained(urlLower, TestPatterns)
    ensures var r := UrlRules(p, urlLower, tabId);
      r.Some? && r.value.environment == "test" && r.value.detectionMethod == UrlPatternName
  {
  }

  /** A DR exclusion word in host, path or fragment leaves only the DR API path rule able to give dr. */
  lemma DrExclusionLeavesOnlyApiRule(p: UrlParts, urlLower: string, tabId: Option<int>)
    requires FirstKeyContained(ToLower(p.hostname), HostnameMappings).None?
    requires AnyContained(ToLower(p.hostname) + p.pathname + p.hash, DrExcludeWords)
    ensures var r := UrlRules(p, urlLower, tabId);
      r.Some? && r.value.environment == "dr" ==> r.value.detectionMethod == ApiEndpointName
  {
  }

  /** Every URL result has a null org ID and one of the rule's fixed confidences. */
  lemma UrlResultShapes(url: string, parsed: ParseResult, storage: map<string, string>, tabId: Option<int>)
    ensures var r := CheckUrlResult(url, parsed, storage, tabId);
      r.Some? ==> UrlShaped(r.value, tabId)
  {
  }

  /** The record holds no DETECTION_METHODS key as its method, so the cached confidence is DEFAULT's. */
  predicate MethodUnkeyed(s: State) {
    s.lastDetectionMethod.Some? ==> Find(DetectionMethods, Key, s.lastDetectionMethod.value).None?
  }

  /** Updates that pass method names keep the cached method unkeyed, the combined "URL+OrgID" included. */
  lemma MethodStaysUnkeyed(s: State, d: Detection, openTabs: seq<int>)
    requires MethodUnkeyed(s) && Find(DetectionMethods, Key, d.detectionMethod).None?
    ensures MethodUnkeyed(UpdateStep(s, d, openTabs))
  {
  }

  /**
   * End to end: from any state whose cached method is unkeyed, a URL with a
   * strong DR pattern off a login page makes the environment dr.
   */
  lemma StrongDrUrlLands(s: State, url: string, p: UrlParts, tabId: Option<int>, openTabs: seq<int>)
    requires MethodUnkeyed(s)
    requires !Contains(ToLower(p.hostname), "login.")
    requires AnyContained(ToLower(url), StrongDrPatterns)
    ensures var r := CheckUrlResult(url, Parsed(p), s.storage, tabId);
      r.Some? && UpdateStep(s, r.value, openTabs).currentEnvironment == Some("dr")
  {
    LoginPageIsHostTest(p);
  }
}
