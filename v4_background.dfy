/**
 * The version 4 background script: `detectEnvironment(url, title)`, a
 * fixed-priority chain (organization ID in the URL, host table, API path,
 * gated DR and test patterns, ungated dev patterns, default), and
 * `setOrganizationId`, which records an organization ID and keeps a list
 * of the unknown ones; and the install handler, which reloads the globals
 * from storage.
 */
module V4Background {

  import opened Strings
  import opened Tables
  import opened Detections

  // ---------------------------------------------------------------------
  // The organization-ID regular expression /org(?:anization)?[=\/]([a-f0-9-]{36})/i

  /** A character of the class `[a-f0-9-]` under the `i` flag. */
  predicate IdChar(c: char) {
    '0' <= c <= '9' || 'a' <= c <= 'f' || 'A' <= c <= 'F' || c == '-'
  }

  predicate AllIdChars(s: string) {
    forall i :: 0 <= i < |s| ==> IdChar(s[i])
  }

  predicate Separator(c: char) {
    c == '=' || c == '/'
  }

  /** The capture of a match that starts at the first character of `s`, if one does. */
  function OrgIdAt(s: string): Option<string> {
    if |s| >= 49 && s[..12] == "organization" && Separator(s[12]) && AllIdChars(s[13..49]) then Some(s[13..49])
    else if |s| >= 40 && s[..3] == "org" && Separator(s[3]) && AllIdChars(s[4..40]) then Some(s[4..40])
    else None
  }

  /** `s.match(regex)[1]`: the capture of the leftmost match. */
  function FirstOrgIdMatch(s: string): Option<string>
    decreases |s|
  {
    if s == [] then None
    else match OrgIdAt(s)
      case Some(id) => Some(id)
      case None => FirstOrgIdMatch(s[1..])
  }

  /** The captured ID is 36 characters of the class, and it occurs in the searched text. */
  lemma {:induction false} OrgIdMatchIsId(s: string)
    requires FirstOrgIdMatch(s).Some?
    ensures var id := FirstOrgIdMatch(s).value; |id| == 36 && AllIdChars(id) && Contains(s, id)
    decreases |s|
  {
    var id := FirstOrgIdMatch(s).value;
    match OrgIdAt(s)
    case Some(_) =>
      if |s| >= 49 && s[..12] == "organization" && Separator(s[12]) && AllIdChars(s[13..49]) {
        ContainsAt(s, id, 13);
      } else {
        ContainsAt(s, id, 4);
      }
    case None =>
      OrgIdMatchIsId(s[1..]);
      assert s == s[..1] + s[1..];
      ContainsInRight(s[..1], s[1..], id);
  }

  /** The org ID the URL names, with its environment, when ORGANIZATION_MAPPINGS knows it. */
  function MappedOrgIdInUrl(urlLower: string): (r: Option<(string, string)>)
    ensures r.Some? ==> (r.value.0, r.value.1) in V4OrgMappings && FirstOrgIdMatch(urlLower) == Some(r.value.0)
  {
    match FirstOrgIdMatch(urlLower)
    case None => None
    case Some(id) =>
      match Lookup(V4OrgMappings, id)
      case Some(env) => Some((id, env))
      case None => None
  }

  // ---------------------------------------------------------------------
  // The decision chain

  /** For each pattern in turn: a URL match (0.85), else a title match (0.80). */
  function ScanUrlThenTitle(environment: string, patterns: seq<string>, urlLower: string, titleLower: string): Option<Detection> {
    if patterns == [] then None
    else if Contains(urlLower, patterns[0]) then
      Some(UrlResult(environment, UrlPatternConfidence, UrlPatternName, "url-pattern:" + patterns[0]))
    else if Contains(titleLower, patterns[0]) then
      Some(UrlResult(environment, TitlePatternConfidence, TitlePatternName, "title-pattern:" + patterns[0]))
    else ScanUrlThenTitle(environment, patterns[1..], urlLower, titleLower)
  }

  /** The API-path rules: DR paths before test paths. */
  function ApiStep(path: string): Option<Detection> {
    if !Contains(path, "/api/") then None
    else if Contains(path, "/dr/") || Contains(path, "/dr-api/") then
      Some(UrlResult("dr", ApiEndpointConfidence, ApiEndpointName, path))
    else if Contains(path, "/test/") || Contains(path, "/test-api/") then
      Some(UrlResult("test", ApiEndpointConfidence, ApiEndpointName, path))
    else None
  }

  /** A gated pattern step: nothing if an exclusion word occurs, else the login special case, else the scan. */
  function GatedStep(environment: string, excludeWords: seq<string>, loginMarker: string, patterns: seq<string>,
                     p: UrlParts, urlLower: string, titleLower: string): Option<Detection> {
    var full := FullText(p);
    if AnyContained(full, excludeWords) then None
    else if Contains(p.hostname, "login") && Contains(full, loginMarker) then
      Some(UrlResult(environment, UrlPatternConfidence, UrlPatternName, "login-" + loginMarker))
    else ScanUrlThenTitle(environment, patterns, urlLower, titleLower)
  }

  /**
   * `detectEnvironment(url, title)`; `parsed` is the outcome of
   * `new URL(url.toLowerCase())`. An empty title stands for a missing one.
   */
  function Classify(url: string, title: string, parsed: ParseResult): Detection {
    match parsed
    case ParseError(message) => UrlResult("unknown", 30, "error", message)
    case Parsed(p) =>
      var u := ToLower(url);
      var t := ToLower(title);
      match MappedOrgIdInUrl(u)
      case Some(hit) => UrlResult(hit.1, OrgIdConfidence, OrgIdName, hit.0)
      case None =>
        match FirstKeyContained(p.hostname, HostnameMappings)
        case Some(host) => UrlResult(host.1, HostnameConfidence, HostnameName, host.0)
        case None =>
          match ApiStep(p.pathname)
          case Some(d) => d
          case None =>
            match GatedStep("dr", DrExcludeWords, "wawanesa-dr", DrPatterns, p, u, t)
            case Some(d) => d
            case None =>
              match GatedStep("test", TestExcludeWords, "wawanesa-test", BackgroundTestPatterns, p, u, t)
              case Some(d) => d
              case None =>
                match ScanUrlThenTitle("dev", DevPatterns, u, t)
                case Some(d) => d
                case None => UrlResult("unknown", DefaultConfidence, DefaultName, "default")
  }

  /** The org ID `detectEnvironment` records in `detectedOrgId`, if it records one. */
  function RecordedOrgId(url: string, parsed: ParseResult): Option<string> {
    if parsed.Parsed? then
      match MappedOrgIdInUrl(ToLower(url))
      case Some(hit) => Some(hit.0)
      case None => None
    else None
  }

  // ---------------------------------------------------------------------
  // The unknown-ID list and setOrganizationId

  /** An entry of the stored unknownOrgIds list (the detection time is not modelled). */
  datatype UnknownOrg = UnknownOrg(id: string, source: string, url: string)

  /** The script's globals together with the storage keys it writes. */
  datatype State = State(
    detectedOrgId: Option<string>,
    currentEnvironment: Option<string>,
    lastDetectionMethod: Option<string>,
    lastDetectionSource: Option<string>,
    storage: map<string, string>,
    unknownOrgIds: seq<UnknownOrg>)

  /** `unshift(entry)` followed by `slice(0, 10)` when the list grew past ten. */
  function PrependCapped(list: seq<UnknownOrg>, entry: UnknownOrg): seq<UnknownOrg> {
    var grown := [entry] + list;
    if |grown| > 10 then grown[..10] else grown
  }

  /** The new entry heads the list, at most ten entries remain, and the rest is the old list's head. */
  lemma PrependCappedShape(list: seq<UnknownOrg>, entry: UnknownOrg)
    ensures var r := PrependCapped(list, entry);
      |r| <= 10 && |r| >= 1 && r[0] == entry
      && r[1..] == list[..|r| - 1]
      && (|list| < 10 ==> |r| == |list| + 1)
  {
  }

  /** The list entry for an unknown ID: `url` is the source when it starts with "http", else "header". */
  function UnknownEntry(orgId: string, source: string): UnknownOrg {
    UnknownOrg(orgId, source, if IsPrefix("http", source) then source else "header")
  }

  /** `setOrganizationId(orgId, source)` as one state transition; an empty `orgId` stands for a falsy one. */
  function SetOrganizationIdStep(s: State, orgId: string, source: string): State {
    if !Truthy(orgId) || s.detectedOrgId == Some(orgId) then s
    else match Lookup(V4OrgMappings, orgId)
      case Some(env) =>
        s.(detectedOrgId := Some(orgId),
           currentEnvironment := Some(env),
           lastDetectionMethod := Some(OrgIdName),
           lastDetectionSource := Some(source),
           storage := s.storage["detectedOrgId" := orgId]["environmentType" := env]
                               ["detectionMethod" := OrgIdName]["detectionSource" := source])
      case None =>
        s.(detectedOrgId := Some(orgId),
           unknownOrgIds := PrependCapped(s.unknownOrgIds, UnknownEntry(orgId, source)),
           storage := if "environmentType" in s.storage && s.storage["environmentType"] == "dr" then s.storage
                      else s.storage["detectedOrgId" := orgId]["detectionSource" := source])
  }

  /**
   * The `chrome.runtime.onInstalled` handler: each global is reloaded from
   * its storage key when the stored value is truthy (the detection time is
   * not modelled).
   */
  function InstalledStep(s: State): State {
    s.(currentEnvironment := Restored(s.currentEnvironment, s.storage, "environmentType"),
       detectedOrgId := Restored(s.detectedOrgId, s.storage, "detectedOrgId"),
       lastDetectionMethod := Restored(s.lastDetectionMethod, s.storage, "detectionMethod"),
       lastDetectionSource := Restored(s.lastDetectionSource, s.storage, "detectionSource"))
  }

  /** The script's global state. */
  class Background {
    var detectedOrgId: Option<string>
    var currentEnvironment: Option<string>
    var lastDetectionMethod: Option<string>
    var lastDetectionSource: Option<string>
    var storage: map<string, string>
    var unknownOrgIds: seq<UnknownOrg>

    function Snapshot(): State
      reads this
    {
      State(detectedOrgId, currentEnvironment, lastDetectionMethod, lastDetectionSource, storage, unknownOrgIds)
    }

    /** The script starts with every global `null`; storage and the stored list survive from earlier runs. */
    constructor (stored: map<string, string>, storedUnknown: seq<UnknownOrg>)
      ensures Snapshot() == State(None, None, None, None, stored, storedUnknown)
    {
      detectedOrgId := None;
      currentEnvironment := None;
      lastDetectionMethod := None;
      lastDetectionSource := None;
      storage := stored;
      unknownOrgIds := storedUnknown;
    }

    /** The `chrome.runtime.onInstalled` handler's storage reload. */
    method OnInstalled()
      modifies this
      ensures Snapshot() == InstalledStep(old(Snapshot()))
    {
      if "environmentType" in storage && Truthy(storage["environmentType"]) {
        currentEnvironment := Some(storage["environmentType"]);
      }
      if "detectedOrgId" in storage && Truthy(storage["detectedOrgId"]) {
        detectedOrgId := Some(storage["detectedOrgId"]);
      }
      if "detectionMethod" in storage && Truthy(storage["detectionMethod"]) {
        lastDetectionMethod := Some(storage["detectionMethod"]);
      }
      if "detectionSource" in storage && Truthy(storage["detectionSource"]) {
        lastDetectionSource := Some(storage["detectionSource"]);
      }
    }

    /** `detectEnvironment(url, title)`: the classification, and the org ID it records. */
    method DetectEnvironment(url: string, title: string, parsed: ParseResult) returns (r: Detection)
      modifies this
      ensures r == Classify(url, title, parsed)
      ensures Snapshot() == old(Snapshot()).(detectedOrgId :=
                if RecordedOrgId(url, parsed).Some? then RecordedOrgId(url, parsed) else old(detectedOrgId))
    {
      r := Classify(url, title, parsed);
      var recorded := RecordedOrgId(url, parsed);
      if recorded.Some? {
        detectedOrgId := recorded;
      }
    }

    /** `setOrganizationId(orgId, source)`. */
    method SetOrganizationId(orgId: string, source: string)
      modifies this
      ensures Snapshot() == SetOrganizationIdStep(old(Snapshot()), orgId, source)
    {
      if !Truthy(orgId) || detectedOrgId == Some(orgId) {
        return;
      }
      detectedOrgId := Some(orgId);
      var env := Lookup(V4OrgMappings, orgId);
      if env.Some? {
        lastDetectionMethod := Some(OrgIdName);
        lastDetectionSource := Some(source);
        storage := storage["detectedOrgId" := orgId]["environmentType" := env.value]
                          ["detectionMethod" := OrgIdName]["detectionSource" := source];
        currentEnvironment := Some(env.value);
        return;
      }
      unknownOrgIds := PrependCapped(unknownOrgIds, UnknownEntry(orgId, source));
      if "environmentType" in storage && storage["environmentType"] == "dr" {
        return;
      }
      storage := storage["detectedOrgId" := orgId]["detectionSource" := source];
    }
  }

  // ---------------------------------------------------------------------
  // Properties of detectEnvironment

  /** A mapped org ID in the URL wins at ORG_ID confidence, and it is the ID recorded. */
  lemma OrgIdInUrlWins(url: string, title: string, p: UrlParts)
    requires MappedOrgIdInUrl(ToLower(url)).Some?
    ensures var hit := MappedOrgIdInUrl(ToLower(url)).value;
      Classify(url, title, Parsed(p)) == UrlResult(hit.1, OrgIdConfidence, OrgIdName, hit.0)
      && RecordedOrgId(url, Parsed(p)) == Some(hit.0)
      && |hit.0| == 36 && Contains(ToLower(url), hit.0)
  {
    OrgIdMatchIsId(ToLower(url));
  }

  /** A host result comes from the first table entry whose key occurs in the hostname. */
  lemma HostTableFirstEntryWins(url: string, title: string, p: UrlParts)
    requires MappedOrgIdInUrl(ToLower(url)).None?
    requires FirstKeyContained(p.hostname, HostnameMappings).Some?
    ensures exists k :: (0 <= k < |HostnameMappings|
      && Classify(url, title, Parsed(p)) == UrlResult(HostnameMappings[k].1, HostnameConfidence, HostnameName, HostnameMappings[k].0)
      && Contains(p.hostname, HostnameMappings[k].0)
      && (forall j :: 0 <= j < k ==> !Contains(p.hostname, HostnameMappings[j].0)))
  {
    var k := FirstKeyContainedIsFirst(p.hostname, HostnameMappings);
    assert Classify(url, title, Parsed(p)) == UrlResult(HostnameMappings[k].1, HostnameConfidence, HostnameName, HostnameMappings[k].0);
  }

  /** An API path with "/dr/" wins over every pattern, the title included, once the org ID and host steps pass. */
  lemma DrApiPathBeforePatterns(url: string, title: string, p: UrlParts)
    requires MappedOrgIdInUrl(ToLower(url)).None?
    requires FirstKeyContained(p.hostname, HostnameMappings).None?
    requires Contains(p.pathname, "/api/") && (Contains(p.pathname, "/dr/") || Contains(p.pathname, "/dr-api/"))
    ensures Classify(url, title, Parsed(p)) == UrlResult("dr", ApiEndpointConfidence, ApiEndpointName, p.pathname)
  {
  }

  /** A test API path without a DR marker gives test at API confidence. */
  lemma TestApiPathBeforePatterns(url: string, title: string, p: UrlParts)
    requires MappedOrgIdInUrl(ToLower(url)).None?
    requires FirstKeyContained(p.hostname, HostnameMappings).None?
    requires Contains(p.pathname, "/api/") && !Contains(p.pathname, "/dr/") && !Contains(p.pathname, "/dr-api/")
    requires Contains(p.pathname, "/test/") || Contains(p.pathname, "/test-api/")
    ensures Classify(url, title, Parsed(p)) == UrlResult("test", ApiEndpointConfidence, ApiEndpointName, p.pathname)
  {
  }

  /** Scan results name a reported pattern and carry the URL or the title confidence. */
  lemma {:induction false} ScanShape(environment: string, patterns: seq<string>, u: string, t: string)
    requires ScanUrlThenTitle(environment, patterns, u, t).Some?
    ensures var d := ScanUrlThenTitle(environment, patterns, u, t).value;
      d.environment == environment
      && ((d.detectionMethod == UrlPatternName && d.confidence == UrlPatternConfidence)
          || (d.detectionMethod == TitlePatternName && d.confidence == TitlePatternConfidence))
  {
    if !Contains(u, patterns[0]) && !Contains(t, patterns[0]) {
      ScanShape(environment, patterns[1..], u, t);
    }
  }

  /**
   * A title result means the reported pattern is in the title but not in the URL,
   * and no earlier pattern is in either: per pattern, the URL is tried before the title.
   */
  lemma {:induction false} TitleMatchMeansUrlMissed(environment: string, patterns: seq<string>, u: string, t: string)
      returns (k: nat)
    requires ScanUrlThenTitle(environment, patterns, u, t).Some?
    requires ScanUrlThenTitle(environment, patterns, u, t).value.detectionMethod == TitlePatternName
    ensures k < |patterns|
    ensures ScanUrlThenTitle(environment, patterns, u, t).value.source == "title-pattern:" + patterns[k]
    ensures Contains(t, patterns[k]) && !Contains(u, patterns[k])
    ensures forall j :: 0 <= j < k ==> !Contains(u, patterns[j]) && !Contains(t, patterns[j])
  {
    if Contains(u, patterns[0]) {
      assert false;
    } else if Contains(t, patterns[0]) {
      k := 0;
    } else {
      var k' := TitleMatchMeansUrlMissed(environment, patterns[1..], u, t);
      k := k' + 1;
    }
  }

  /** A pattern in the URL is reported from the URL, even if the same pattern is also in the title. */
  lemma UrlMatchBeforeTitleMatch(environment: string, patterns: seq<string>, u: string, t: string)
    requires |patterns| > 0 && Contains(u, patterns[0])
    ensures ScanUrlThenTitle(environment, patterns, u, t)
         == Some(UrlResult(environment, UrlPatternConfidence, UrlPatternName, "url-pattern:" + patterns[0]))
  {
  }

  /** A DR exclusion word in host + path + hash rules out every DR result of the pattern step. */
  lemma DrExclusionGate(url: string, title: string, p: UrlParts)
    requires AnyContained(FullText(p), DrExcludeWords)
    ensures var d := Classify(url, title, Parsed(p));
      d.environment == "dr" ==> d.detectionMethod in {OrgIdName, HostnameName, ApiEndpointName}
  {
    var t := ToLower(title);
    var u := ToLower(url);
    if GatedStep("test", TestExcludeWords, "wawanesa-test", BackgroundTestPatterns, p, u, t).Some?
       && !AnyContained(FullText(p), TestExcludeWords)
       && !(Contains(p.hostname, "login") && Contains(FullText(p), "wawanesa-test")) {
      ScanShape("test", BackgroundTestPatterns, u, t);
    }
    if ScanUrlThenTitle("dev", DevPatterns, u, t).Some? {
      ScanShape("dev", DevPatterns, u, t);
    }
  }

  /** A test exclusion word rules out every test result of the pattern step. */
  lemma TestExclusionGate(url: string, title: string, p: UrlParts)
    requires AnyContained(FullText(p), TestExcludeWords)
    ensures var d := Classify(url, title, Parsed(p));
      d.environment == "test" ==> d.detectionMethod in {OrgIdName, HostnameName, ApiEndpointName}
  {
    var t := ToLower(title);
    var u := ToLower(url);
    if GatedStep("dr", DrExcludeWords, "wawanesa-dr", DrPatterns, p, u, t).Some?
       && !AnyContained(FullText(p), DrExcludeWords)
       && !(Contains(p.hostname, "login") && Contains(FullText(p), "wawanesa-dr")) {
      ScanShape("dr", DrPatterns, u, t);
    }
    if ScanUrlThenTitle("dev", DevPatterns, u, t).Some? {
      ScanShape("dev", DevPatterns, u, t);
    }
  }

  /** The dev step has no gate: with the steps before it silent, a dev pattern in the URL gives dev. */
  lemma DevIsUngated(url: string, title: string, p: UrlParts)
    requires MappedOrgIdInUrl(ToLower(url)).None?
    requires FirstKeyContained(p.hostname, HostnameMappings).None?
    requires ApiStep(p.pathname).None?
    requires GatedStep("dr", DrExcludeWords, "wawanesa-dr", DrPatterns, p, ToLower(url), ToLower(title)).None?
    requires GatedStep("test", TestExcludeWords, "wawanesa-test", BackgroundTestPatterns, p, ToLower(url), ToLower(title)).None?
    requires AnyContained(ToLower(url), DevPatterns)
    ensures Classify(url, title, Parsed(p)).environment == "dev"
  {
    var k := FirstContainedIsFirst(ToLower(url), DevPatterns);
    DevScanFires(DevPatterns, ToLower(url), ToLower(title));
  }

  /** A scan over patterns one of which is in the URL always reports something. */
  lemma {:induction false} DevScanFires(patterns: seq<string>, u: string, t: string)
    requires AnyContained(u, patterns)
    ensures ScanUrlThenTitle("dev", patterns, u, t).Some?
    ensures ScanUrlThenTitle("dev", patterns, u, t).value.environment == "dev"
  {
    if !Contains(u, patterns[0]) && !Contains(t, patterns[0]) {
      var p :| p in patterns && Contains(u, p);
      assert p in patterns[1..];
      DevScanFires(patterns[1..], u, t);
    }
  }

  /** A gated step reports its own environment. */
  lemma GatedStepShape(environment: string, excludeWords: seq<string>, loginMarker: string, patterns: seq<string>,
                       p: UrlParts, u: string, t: string)
    requires GatedStep(environment, excludeWords, loginMarker, patterns, p, u, t).Some?
    ensures GatedStep(environment, excludeWords, loginMarker, patterns, p, u, t).value.environment == environment
  {
    if !AnyContained(FullText(p), excludeWords) && !(Contains(p.hostname, "login") && Contains(FullText(p), loginMarker)) {
      ScanShape(environment, patterns, u, t);
    }
  }

  /** A parse failure gives unknown at 0.3 with method "error" and the exception's message. */
  lemma ParseErrorResult(url: string, title: string, message: string)
    ensures Classify(url, title, ParseError(message)) == UrlResult("unknown", 30, "error", message)
  {
  }

  /** A parsed URL is unknown only as the default, at 0.5. */
  lemma UnknownIsDefault(url: string, title: string, p: UrlParts)
    requires Classify(url, title, Parsed(p)).environment == "unknown"
    ensures Classify(url, title, Parsed(p)) == UrlResult("unknown", DefaultConfidence, DefaultName, "default")
  {
    var u := ToLower(url);
    var t := ToLower(title);
    var hit := MappedOrgIdInUrl(u);
    if hit.Some? {
      assert hit.value.1 != "unknown";
    } else {
      if FirstKeyContained(p.hostname, HostnameMappings).None? && ApiStep(p.pathname).None? {
        if GatedStep("dr", DrExcludeWords, "wawanesa-dr", DrPatterns, p, u, t).Some? {
          GatedStepShape("dr", DrExcludeWords, "wawanesa-dr", DrPatterns, p, u, t);
        } else if GatedStep("test", TestExcludeWords, "wawanesa-test", BackgroundTestPatterns, p, u, t).Some? {
          GatedStepShape("test", TestExcludeWords, "wawanesa-test", BackgroundTestPatterns, p, u, t);
        } else if ScanUrlThenTitle("dev", DevPatterns, u, t).Some? {
          ScanShape("dev", DevPatterns, u, t);
        }
      }
    }
  }

  // ---------------------------------------------------------------------
  // Properties of setOrganizationId

  /** An empty ID, or the ID already recorded, changes nothing. */
  lemma SetOrganizationIdIgnoresRepeats(s: State, orgId: string, source: string)
    requires !Truthy(orgId) || s.detectedOrgId == Some(orgId)
    ensures SetOrganizationIdStep(s, orgId, source) == s
  {
  }

  /** A mapped ID sets the environment, the method and the four storage keys. */
  lemma MappedIdSetsEnvironment(s: State, orgId: string, source: string)
    requires Truthy(orgId) && s.detectedOrgId != Some(orgId)
    requires Lookup(V4OrgMappings, orgId).Some?
    ensures var s' := SetOrganizationIdStep(s, orgId, source);
      var env := Lookup(V4OrgMappings, orgId).value;
      s'.detectedOrgId == Some(orgId) && s'.currentEnvironment == Some(env)
      && s'.lastDetectionMethod == Some(OrgIdName) && s'.lastDetectionSource == Some(source)
      && s'.storage["environmentType"] == env && s'.storage["detectedOrgId"] == orgId
      && s'.storage["detectionMethod"] == OrgIdName && s'.storage["detectionSource"] == source
      && s'.unknownOrgIds == s.unknownOrgIds
  {
  }

  /** Reloading twice is reloading once: the handler only copies storage into the globals. */
  lemma InstalledStepIdempotent(s: State)
    ensures InstalledStep(InstalledStep(s)) == InstalledStep(s)
  {
  }

  /** What a mapped ID's `setOrganizationId` writes to storage is reloaded unchanged by the install handler. */
  lemma MappedIdSurvivesReload(s: State, orgId: string, source: string)
    requires Truthy(orgId) && s.detectedOrgId != Some(orgId)
    requires Lookup(V4OrgMappings, orgId).Some?
    ensures var s' := SetOrganizationIdStep(s, orgId, source); InstalledStep(s') == s'
  {
    var env := Lookup(V4OrgMappings, orgId).value;
    assert (orgId, env) in V4OrgMappings;
    assert Truthy(env);
  }

  /**
   * An unknown ID is recorded, prepended to the capped list (there is no
   * de-duplication: an ID already listed is listed again), leaves the
   * environment alone, and does not overwrite a stored DR environment.
   */
  lemma UnknownIdIsListed(s: State, orgId: string, source: string)
    requires Truthy(orgId) && s.detectedOrgId != Some(orgId)
    requires Lookup(V4OrgMappings, orgId).None?
    ensures var s' := SetOrganizationIdStep(s, orgId, source);
      s'.detectedOrgId == Some(orgId)
      && s'.currentEnvironment == s.currentEnvironment
      && s'.lastDetectionMethod == s.lastDetectionMethod
      && |s'.unknownOrgIds| <= 10 && s'.unknownOrgIds[0] == UnknownEntry(orgId, source)
      && s'.unknownOrgIds[1..] == s.unknownOrgIds[..|s'.unknownOrgIds| - 1]
      && ("environmentType" in s.storage && s.storage["environmentType"] == "dr" ==> s'.storage == s.storage)
      && ("environmentType" in s'.storage ==> s'.storage["environmentType"] == s.storage["environmentType"])
  {
    PrependCappedShape(s.unknownOrgIds, UnknownEntry(orgId, source));
  }

  /** However many IDs arrive, the list never holds more than ten entries once it has been written. */
  lemma UnknownListStaysCapped(s: State, orgId: string, source: string)
    requires |s.unknownOrgIds| <= 10
    ensures |SetOrganizationIdStep(s, orgId, source).unknownOrgIds| <= 10
  {
    PrependCappedShape(s.unknownOrgIds, UnknownEntry(orgId, source));
  }
}
