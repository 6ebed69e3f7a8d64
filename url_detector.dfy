/**
 * The URL detector of the refactored content script:
 * `detectStrongEnvironmentPatterns` (strong DR, then strong test patterns,
 * on the lower-cased URL) and `detectEnvironmentFromUrl`, which falls back
 * to the gated DR and test pattern lists, the ungated dev list and the
 * DR API-path rule on the parsed URL.
 */
module UrlDetector {

  import opened Strings
  import opened Tables
  import opened Detections

  /** A detection together with the pattern that produced it. */
  datatype UrlMatch = UrlMatch(detection: Detection, pattern: string)

  /** A URL-pattern result for `environment`, reporting `source` and `pattern`. */
  function PatternResult(environment: string, source: string, pattern: string): UrlMatch {
    UrlMatch(UrlResult(environment, UrlPatternConfidence, UrlPatternName, source), pattern)
  }

  /** `detectStrongEnvironmentPatterns(url)`. */
  function DetectStrongEnvironmentPatterns(url: string): Option<UrlMatch> {
    if !Truthy(url) then None
    else
      var u := ToLower(url);
      match FirstContained(u, StrongDrPatterns)
      case Some(p) => Some(PatternResult("dr", "strong-dr-pattern:" + p, p))
      case None =>
        match FirstContained(u, StrongTestPatterns)
        case Some(p) => Some(PatternResult("test", "strong-test-pattern:" + p, p))
        case None => None
  }

  /** The DR step, unless a DR exclusion word occurs: the login special case, then the DR list. */
  function DrStep(p: UrlParts): Option<UrlMatch> {
    var full := FullText(p);
    if AnyContained(full, DrExcludeWords) then None
    else if Contains(p.hostname, "login") && Contains(full, "wawanesa-dr") then
      Some(PatternResult("dr", "login-wawanesa-dr", "wawanesa-dr"))
    else match FirstContained(full, DrPatterns)
      case Some(pat) => Some(PatternResult("dr", "url-pattern:" + pat, pat))
      case None => None
  }

  /** The test step, unless a test exclusion word occurs. */
  function TestStep(p: UrlParts): Option<UrlMatch> {
    var full := FullText(p);
    if AnyContained(full, TestExcludeWords) then None
    else match FirstContained(full, TestPatterns)
      case Some(pat) => Some(PatternResult("test", "url-pattern:" + pat, pat))
      case None => None
  }

  /** The dev step, which has no exclusion gate. */
  function DevStep(p: UrlParts): Option<UrlMatch> {
    match FirstContained(FullText(p), DevPatterns)
    case Some(pat) => Some(PatternResult("dev", "url-pattern:" + pat, pat))
    case None => None
  }

  /** The DR API-endpoint rule on the path. */
  function ApiStep(p: UrlParts): Option<UrlMatch> {
    if Contains(p.pathname, "/api/") && (Contains(p.pathname, "/dr/") || Contains(p.pathname, "/dr-api/")) then
      Some(UrlMatch(UrlResult("dr", ApiEndpointConfidence, ApiEndpointName, p.pathname),
                    if Contains(p.pathname, "/dr/") then "/dr/" else "/dr-api/"))
    else None
  }

  /**
   * `detectEnvironmentFromUrl(url)`, where `parsed` is what `parseUrl`
   * obtains from `new URL(url.toLowerCase())`.
   */
  function DetectEnvironmentFromUrl(url: string, parsed: ParseResult): Option<UrlMatch> {
    if !Truthy(url) then None
    else match DetectStrongEnvironmentPatterns(url)
      case Some(strong) => Some(strong)
      case None =>
        match parsed
        case ParseError(_) => None
        case Parsed(p) =>
          match DrStep(p)
          case Some(m) => Some(m)
          case None =>
            match TestStep(p)
            case Some(m) => Some(m)
            case None =>
              match DevStep(p)
              case Some(m) => Some(m)
              case None => ApiStep(p)
  }

  // ---------------------------------------------------------------------
  // Properties

  lemma EmptyUrlIsNull(parsed: ParseResult)
    ensures DetectStrongEnvironmentPatterns("") == None
    ensures DetectEnvironmentFromUrl("", parsed) == None
  {
  }

  /** A strong DR pattern makes the strong result DR, even when a strong test pattern is present too. */
  lemma StrongDrBeforeStrongTest(url: string)
    requires AnyContained(ToLower(url), StrongDrPatterns)
    ensures var r := DetectStrongEnvironmentPatterns(url);
      r.Some? && r.value.detection.environment == "dr"
      && r.value.detection.confidence == UrlPatternConfidence
      && r.value.pattern in StrongDrPatterns
      && Contains(ToLower(url), r.value.pattern)
      && r.value.detection.source == "strong-dr-pattern:" + r.value.pattern
  {
    var p :| p in StrongDrPatterns && Contains(ToLower(url), p);
    ContainsLength(ToLower(url), p);
  }

  /** A strong result is test exactly when a strong test pattern occurs and no strong DR pattern. */
  lemma StrongTestNeedsNoStrongDr(url: string)
    ensures var r := DetectStrongEnvironmentPatterns(url);
      (r.Some? && r.value.detection.environment == "test")
      <==> (!AnyContained(ToLower(url), StrongDrPatterns) && AnyContained(ToLower(url), StrongTestPatterns))
  {
    if AnyContained(ToLower(url), StrongTestPatterns) {
      var p :| p in StrongTestPatterns && Contains(ToLower(url), p);
      ContainsLength(ToLower(url), p);
    }
  }

  /** A strong result exists exactly when some strong pattern occurs in the lower-cased URL. */
  lemma StrongResultIffPattern(url: string)
    ensures DetectStrongEnvironmentPatterns(url).Some?
        <==> AnyContained(ToLower(url), StrongDrPatterns) || AnyContained(ToLower(url), StrongTestPatterns)
  {
    StrongTestNeedsNoStrongDr(url);
    if AnyContained(ToLower(url), StrongDrPatterns) {
      StrongDrBeforeStrongTest(url);
    }
  }

  /** Both detectors match case-insensitively. */
  lemma CaseInsensitive(url: string, parsed: ParseResult)
    ensures DetectStrongEnvironmentPatterns(ToLower(url)) == DetectStrongEnvironmentPatterns(url)
    ensures DetectEnvironmentFromUrl(ToLower(url), parsed) == DetectEnvironmentFromUrl(url, parsed)
  {
    ToLowerIdempotent(url);
    ToLowerEmpty(url);
  }

  /** Whenever a strong pattern result exists, the detailed detector returns it unchanged. */
  lemma StrongResultWins(url: string, parsed: ParseResult)
    requires DetectStrongEnvironmentPatterns(url).Some?
    ensures DetectEnvironmentFromUrl(url, parsed) == DetectStrongEnvironmentPatterns(url)
  {
  }

  /** An unparsable URL without strong patterns gives null. */
  lemma UnparsableIsNull(url: string, message: string)
    requires DetectStrongEnvironmentPatterns(url).None?
    ensures DetectEnvironmentFromUrl(url, ParseError(message)) == None
  {
  }

  /**
   * The detailed detector gives null exactly when the URL is empty or fails
   * to parse, or when no strong pattern occurs, the DR step is excluded or
   * finds no login marker and no DR pattern, the test step is excluded or
   * finds no test pattern, no dev pattern occurs and the path is not a DR
   * API path.
   */
  lemma NoRuleIsNull(url: string, parsed: ParseResult)
    ensures DetectEnvironmentFromUrl(url, parsed).None? <==>
      (!Truthy(url)
       || (!AnyContained(ToLower(url), StrongDrPatterns) && !AnyContained(ToLower(url), StrongTestPatterns)
           && (parsed.ParseError?
               || (var p := parsed.parts;
                   var full := FullText(p);
                   (AnyContained(full, DrExcludeWords)
                    || (!(Contains(p.hostname, "login") && Contains(full, "wawanesa-dr")) && !AnyContained(full, DrPatterns)))
                   && (AnyContained(full, TestExcludeWords) || !AnyContained(full, TestPatterns))
                   && !AnyContained(full, DevPatterns)
                   && !(Contains(p.pathname, "/api/") && (Contains(p.pathname, "/dr/") || Contains(p.pathname, "/dr-api/")))))))
  {
    StrongResultIffPattern(url);
  }

  /**
   * A DR exclusion word in the full text skips the login special case and the
   * DR list: without a strong pattern, a DR result can only come from the API rule.
   */
  lemma DrExclusionLeavesOnlyApiRule(url: string, p: UrlParts)
    requires DetectStrongEnvironmentPatterns(url).None?
    requires AnyContained(FullText(p), DrExcludeWords)
    ensures var r := DetectEnvironmentFromUrl(url, Parsed(p));
      r.Some? && r.value.detection.environment == "dr" ==> r.value.detection.detectionMethod == ApiEndpointName
  {
  }

  /** A test exclusion word rules out a test result unless a strong test pattern gave it. */
  lemma TestExclusionRulesOutPatternTest(url: string, p: UrlParts)
    requires DetectStrongEnvironmentPatterns(url).None?
    requires AnyContained(FullText(p), TestExcludeWords)
    ensures var r := DetectEnvironmentFromUrl(url, Parsed(p));
      r.Some? ==> r.value.detection.environment != "test"
  {
  }

  /** Dev patterns have no gate: once the DR and test steps pass, a dev pattern gives dev, exclusion words or not. */
  lemma DevIsUngated(url: string, p: UrlParts)
    requires Truthy(url) && DetectStrongEnvironmentPatterns(url).None?
    requires DrStep(p).None? && TestStep(p).None?
    requires AnyContained(FullText(p), DevPatterns)
    ensures var r := DetectEnvironmentFromUrl(url, Parsed(p));
      r.Some? && r.value.detection.environment == "dev" && r.value.pattern in DevPatterns
  {
    var pat :| pat in DevPatterns && Contains(FullText(p), pat);
    ContainsLength(FullText(p), pat);
  }

  /** The API-endpoint result needs both "/api/" and one of "/dr/", "/dr-api/" in the path. */
  lemma ApiResultNeedsDrApiPath(url: string, parsed: ParseResult)
    requires var r := DetectEnvironmentFromUrl(url, parsed);
      r.Some? && r.value.detection.detectionMethod == ApiEndpointName
    ensures parsed.Parsed?
    ensures Contains(parsed.parts.pathname, "/api/")
    ensures Contains(parsed.parts.pathname, "/dr/") || Contains(parsed.parts.pathname, "/dr-api/")
    ensures DetectEnvironmentFromUrl(url, parsed).value.detection.environment == "dr"
    ensures DetectEnvironmentFromUrl(url, parsed).value.detection.confidence == ApiEndpointConfidence
  {
  }

  /** Every result is dr, test or dev, at the URL-pattern or API-endpoint confidence. */
  lemma ResultShapes(url: string, parsed: ParseResult)
    ensures var r := DetectEnvironmentFromUrl(url, parsed);
      r.Some? ==> (r.value.detection.environment in {"dr", "test", "dev"}
                   && r.value.detection.confidence in {UrlPatternConfidence, ApiEndpointConfidence}
                   && r.value.detection.orgId == Missing)
  {
  }
}
