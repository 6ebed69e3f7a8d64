/**
 * The Python prototype classifier `detect_environment`: organization IDs in
 * the page content, then a hostname special case, then DR patterns behind a
 * DR exclusion gate, then test patterns, then a probe of two organization
 * API endpoints, then the default. Results are
 * (environment, confidence in hundredths, method tag).
 *
 * `urlparse` and the HTTP requests are not modelled: the caller supplies
 * the URL already split into scheme, netloc, path and fragment, and the
 * outcome of a GET for each endpoint URL.
 */
module DetectPy {

  import opened Strings

  // The module-level tables of the script.
  const OrgMapping: seq<(string, string)> := [("d9ee1fd7-868c-4ea0-af89-5b9813db863d", "test")]
  const DrPatterns: seq<string> := [".dr.", "-dr.", "-dr-", "/dr/", "wawanesa-dr"]
  const TestPatterns: seq<string> := [".test.", "-test-", "wawanesa-test", "cac1.pure.cloud"]
  const DrExcludeWords: seq<string> := ["directory", "drive", "drop", "draw"]
  /** Declared by the script next to the DR words, but no step consults it. */
  const TestExcludeWords: seq<string> := ["latest", "contest", "attestation"]

  datatype Classification = Classification(environment: string, confidence: nat, detectionMethod: string)

  /** The components `urlparse` yields for the URL. */
  datatype UrlParts = UrlParts(scheme: string, netloc: string, path: string, fragment: string)

  /** A decoded JSON value, as far as the probe distinguishes it. */
  datatype JsonValue = JStr(s: string) | JNull | JOther

  /** A key of a JSON object: absent, or present with a value. */
  datatype Field = Absent | Present(value: JsonValue)

  /** What `data['res']` is: missing, an object (with or without `guid`), or anything else. */
  datatype ResField = NoRes | ResObject(guid: Field) | ResNotObject

  /** The decoded body: an object with the three keys the probe reads, or a non-object. */
  datatype Body = Object(id: Field, guid: Field, res: ResField) | NotObject

  /** The outcome of one GET: an exception (network error, timeout, undecodable JSON) or a response. */
  datatype ProbeOutcome = Raised | Responded(status: int, body: Body)

  /** The lower-cased components: the script parses `url.lower()`. */
  function Lowered(u: UrlParts): (l: UrlParts)
    ensures IsLower(l.scheme) && IsLower(l.netloc) && IsLower(l.path) && IsLower(l.fragment)
  {
    ToLowerIsLower(u.scheme); ToLowerIsLower(u.netloc); ToLowerIsLower(u.path); ToLowerIsLower(u.fragment);
    UrlParts(ToLower(u.scheme), ToLower(u.netloc), ToLower(u.path), ToLower(u.fragment))
  }

  /** `hostname + path + fragment`. */
  function FullUrl(l: UrlParts): string {
    l.netloc + l.path + l.fragment
  }

  /** Some DR exclusion word occurs in the host, the path or the fragment. */
  predicate DrExcluded(l: UrlParts) {
    exists w :: w in DrExcludeWords && (Contains(l.netloc, w) || Contains(l.path, w) || Contains(l.fragment, w))
  }

  /** The two endpoints the probe tries, in order. */
  function Endpoints(l: UrlParts): seq<string> {
    [l.scheme + "://" + l.netloc + "/api/v2/organizations/me",
     l.scheme + "://" + l.netloc + "/api/v1/org?fl=*"]
  }

  /** `org_id` after the `id` / `guid` / `res.guid` chain; `JNull` when none applies. */
  function ExtractedId(body: Body): JsonValue {
    match body
    case NotObject => JNull
    case Object(id, guid, res) =>
      if id.Present? then id.value
      else if guid.Present? then guid.value
      else if res.ResObject? && res.guid.Present? then res.guid.value
      else JNull
  }

  /** The environment one endpoint's outcome yields, if any. */
  function EndpointMatch(o: ProbeOutcome): (r: Option<string>)
    ensures r.Some? ==> o.Responded? && o.status == 200 && ExtractedId(o.body).JStr?
                        && Truthy(ExtractedId(o.body).s) && Lookup(OrgMapping, ExtractedId(o.body).s) == r
  {
    match o
    case Raised => None
    case Responded(status, body) =>
      if status != 200 then None
      else match ExtractedId(body)
        case JStr(s) => if Truthy(s) then Lookup(OrgMapping, s) else None
        case _ => None
  }

  /** The first endpoint, in order, whose outcome yields an environment. */
  function ProbeMatch(endpoints: seq<string>, fetch: string -> ProbeOutcome): Option<string> {
    if endpoints == [] then None
    else match EndpointMatch(fetch(endpoints[0]))
      case Some(env) => Some(env)
      case None => ProbeMatch(endpoints[1..], fetch)
  }

  /** The content is truthy and contains a key of ORG_MAPPING. */
  function ContentOrgHit(content: Option<string>): Option<(string, string)> {
    if content.Some? && Truthy(content.value) then FirstKeyContained(content.value, OrgMapping) else None
  }

  /** The whole decision chain of `detect_environment`. */
  function Classify(url: UrlParts, content: Option<string>, fetch: string -> ProbeOutcome): Classification {
    match ContentOrgHit(content)
    case Some(hit) => Classification(hit.1, 95, "org_id")
    case None =>
      var l := Lowered(url);
      if Contains(l.netloc, "cac1.pure.cloud") then Classification("test", 80, "hostname")
      else if !DrExcluded(l) && AnyContained(FullUrl(l), DrPatterns) then Classification("dr", 70, "url_pattern")
      else if AnyContained(FullUrl(l), TestPatterns) then Classification("test", 70, "url_pattern")
      else match ProbeMatch(Endpoints(l), fetch)
        case Some(env) => Classification(env, 95, "api_request")
        case None => Classification("unknown", 50, "default")
  }

  /** `detect_environment(url, content)`, step by step as the script runs it. */
  method DetectEnvironment(url: UrlParts, content: Option<string>, fetch: string -> ProbeOutcome)
    returns (r: Classification)
    ensures r == Classify(url, content, fetch)
  {
    if content.Some? && Truthy(content.value) {
      var hit := ScanContent(content.value);
      if hit.Some? {
        return Classification(hit.value.1, 95, "org_id");
      }
    }

    var l := Lowered(url);
    if Contains(l.netloc, "cac1.pure.cloud") {
      return Classification("test", 80, "hostname");
    }

    var shouldSkipDr := ScanDrExclusions(l);
    var fullUrl := FullUrl(l);
    if !shouldSkipDr {
      var dr := ScanPatterns(fullUrl, DrPatterns);
      if dr {
        return Classification("dr", 70, "url_pattern");
      }
    }

    var test := ScanPatterns(fullUrl, TestPatterns);
    if test {
      return Classification("test", 70, "url_pattern");
    }

    var env := Probe(Endpoints(l), fetch);
    if env.Some? {
      return Classification(env.value, 95, "api_request");
    }
    return Classification("unknown", 50, "default");
  }

  /** The loop over ORG_MAPPING: the first entry whose ID occurs in the content. */
  method ScanContent(c: string) returns (hit: Option<(string, string)>)
    ensures hit == FirstKeyContained(c, OrgMapping)
  {
    var i := 0;
    while i < |OrgMapping|
      invariant 0 <= i <= |OrgMapping|
      invariant FirstKeyContained(c, OrgMapping[i..]) == FirstKeyContained(c, OrgMapping)
    {
      if Contains(c, OrgMapping[i].0) {
        return Some(OrgMapping[i]);
      }
      FirstKeyContainedSkip(c, OrgMapping, i);
      i := i + 1;
    }
    return None;
  }

  /** The loop that sets `should_skip_dr` when an exclusion word is in the host, the path or the fragment. */
  method ScanDrExclusions(l: UrlParts) returns (shouldSkipDr: bool)
    ensures shouldSkipDr == DrExcluded(l)
  {
    shouldSkipDr := false;
    var i := 0;
    while i < |DrExcludeWords|
      invariant 0 <= i <= |DrExcludeWords|
      invariant !shouldSkipDr
      invariant forall j :: 0 <= j < i ==>
        !(Contains(l.netloc, DrExcludeWords[j]) || Contains(l.path, DrExcludeWords[j]) || Contains(l.fragment, DrExcludeWords[j]))
    {
      var word := DrExcludeWords[i];
      if Contains(l.netloc, word) || Contains(l.path, word) || Contains(l.fragment, word) {
        shouldSkipDr := true;
        break;
      }
      i := i + 1;
    }
  }

  /** A loop over a pattern list: whether some pattern occurs in the full URL. */
  method ScanPatterns(fullUrl: string, patterns: seq<string>) returns (found: bool)
    ensures found == AnyContained(fullUrl, patterns)
  {
    var i := 0;
    while i < |patterns|
      invariant 0 <= i <= |patterns|
      invariant FirstContained(fullUrl, patterns[i..]) == FirstContained(fullUrl, patterns)
    {
      if Contains(fullUrl, patterns[i]) {
        return true;
      }
      FirstContainedSkip(fullUrl, patterns, i);
      i := i + 1;
    }
    return false;
  }

  /** The loop over the probe endpoints: the environment of the first that answers with a mapped ID. */
  method Probe(endpoints: seq<string>, fetch: string -> ProbeOutcome) returns (env: Option<string>)
    ensures env == ProbeMatch(endpoints, fetch)
  {
    var i := 0;
    while i < |endpoints|
      invariant 0 <= i <= |endpoints|
      invariant ProbeMatch(endpoints[i..], fetch) == ProbeMatch(endpoints, fetch)
    {
      var outcome := fetch(endpoints[i]);
      assert endpoints[i..][1..] == endpoints[i + 1..];
      if outcome.Responded? && outcome.status == 200 {
        var orgId := ExtractedId(outcome.body);
        if orgId.JStr? && Truthy(orgId.s) {
          var found := Lookup(OrgMapping, orgId.s);
          if found.Some? {
            return found;
          }
        }
      }
      i := i + 1;
    }
    return None;
  }

  // ---------------------------------------------------------------------
  // Properties of the decision chain

  /** Every environment ORG_MAPPING yields is "test". */
  lemma OrgMappingValues(id: string)
    ensures Lookup(OrgMapping, id).Some? ==> Lookup(OrgMapping, id).value == "test"
  {
  }

  /** The probe yields only environments of ORG_MAPPING. */
  lemma {:induction false} ProbeMatchIsMapped(endpoints: seq<string>, fetch: string -> ProbeOutcome)
    ensures ProbeMatch(endpoints, fetch).Some? ==> ProbeMatch(endpoints, fetch).value == "test"
  {
    if endpoints != [] {
      var m := EndpointMatch(fetch(endpoints[0]));
      if m.Some? {
        OrgMappingValues(ExtractedId(fetch(endpoints[0]).body).s);
      } else {
        ProbeMatchIsMapped(endpoints[1..], fetch);
      }
    }
  }

  /** An organization ID in truthy content decides the result, whatever the URL and the probe. */
  lemma OrgIdInContentWins(url: UrlParts, content: string, fetch: string -> ProbeOutcome)
    requires Contains(content, OrgMapping[0].0)
    ensures Classify(url, Some(content), fetch) == Classification(OrgMapping[0].1, 95, "org_id")
  {
    ContainsLength(content, OrgMapping[0].0);
  }

  /** A host containing "cac1.pure.cloud" is test at 0.8, even when the URL also carries DR patterns. */
  lemma Cac1HostIsTest(url: UrlParts, content: Option<string>, fetch: string -> ProbeOutcome)
    requires ContentOrgHit(content).None?
    requires Contains(ToLower(url.netloc), "cac1.pure.cloud")
    ensures Classify(url, content, fetch) == Classification("test", 80, "hostname")
  {
  }

  /** A DR exclusion word anywhere in host, path or fragment rules out a DR result altogether. */
  lemma DrExclusionSuppressesDr(url: UrlParts, content: Option<string>, fetch: string -> ProbeOutcome)
    requires DrExcluded(Lowered(url))
    ensures Classify(url, content, fetch).environment != "dr"
  {
    ProbeMatchIsMapped(Endpoints(Lowered(url)), fetch);
    var hit := ContentOrgHit(content);
    if hit.Some? {
      OrgMappingValues(hit.value.0);
    }
  }

  /** With no earlier step firing, a DR pattern in host + path + fragment gives ("dr", 0.7, "url_pattern"). */
  lemma DrPatternIsDr(url: UrlParts, content: Option<string>, fetch: string -> ProbeOutcome)
    requires ContentOrgHit(content).None?
    requires !Contains(ToLower(url.netloc), "cac1.pure.cloud")
    requires !DrExcluded(Lowered(url))
    requires AnyContained(FullUrl(Lowered(url)), DrPatterns)
    ensures Classify(url, content, fetch) == Classification("dr", 70, "url_pattern")
  {
  }

  /**
   * A test pattern that reaches the test step gives ("test", 0.7, "url_pattern"),
   * whether or not a test exclusion word such as "latest" is present: the step has no gate.
   */
  lemma TestPatternIsTest(url: UrlParts, content: Option<string>, fetch: string -> ProbeOutcome)
    requires ContentOrgHit(content).None?
    requires !Contains(ToLower(url.netloc), "cac1.pure.cloud")
    requires DrExcluded(Lowered(url)) || !AnyContained(FullUrl(Lowered(url)), DrPatterns)
    requires AnyContained(FullUrl(Lowered(url)), TestPatterns)
    ensures Classify(url, content, fetch) == Classification("test", 70, "url_pattern")
  {
  }

  /** The extracted ID is `id` when present, whatever `guid` and `res` hold. */
  lemma ProbeReadsIdFirst(status: int, id: JsonValue, guid: Field, res: ResField)
    ensures EndpointMatch(Responded(status, Object(Present(id), guid, res)))
         == EndpointMatch(Responded(status, Object(Present(id), Absent, NoRes)))
  {
  }

  /** Without `id`, the extracted ID is `guid` when present, whatever `res` holds. */
  lemma ProbeReadsGuidSecond(status: int, guid: JsonValue, res: ResField)
    ensures EndpointMatch(Responded(status, Object(Absent, Present(guid), res)))
         == EndpointMatch(Responded(status, Object(Absent, Present(guid), NoRes)))
  {
  }

  /** A probe hit needs status 200 and a truthy string ID that ORG_MAPPING maps. */
  lemma ProbeNeedsMappedId(o: ProbeOutcome)
    requires EndpointMatch(o).Some?
    ensures o.Responded? && o.status == 200
    ensures exists e :: e in OrgMapping && e.0 == ExtractedId(o.body).s && e.1 == EndpointMatch(o).value
  {
    var id := ExtractedId(o.body).s;
    assert (id, EndpointMatch(o).value) in OrgMapping;
  }

  /** An endpoint that raises, or answers without a mapped ID, is passed over and the rest decide. */
  lemma FailedEndpointIsSkipped(first: string, rest: seq<string>, fetch: string -> ProbeOutcome)
    requires EndpointMatch(fetch(first)).None?
    ensures ProbeMatch([first] + rest, fetch) == ProbeMatch(rest, fetch)
  {
    assert ([first] + rest)[0] == first;
    assert ([first] + rest)[1..] == rest;
  }

  /** When no step fires the result is exactly ("unknown", 0.5, "default"). */
  lemma NothingMatchesIsDefault(url: UrlParts, content: Option<string>, fetch: string -> ProbeOutcome)
    requires ContentOrgHit(content).None?
    requires !Contains(ToLower(url.netloc), "cac1.pure.cloud")
    requires DrExcluded(Lowered(url)) || !AnyContained(FullUrl(Lowered(url)), DrPatterns)
    requires !AnyContained(FullUrl(Lowered(url)), TestPatterns)
    requires ProbeMatch(Endpoints(Lowered(url)), fetch).None?
    ensures Classify(url, content, fetch) == Classification("unknown", 50, "default")
  {
  }

  /** Every result is one of the script's five outcomes. */
  lemma ResultShapes(url: UrlParts, content: Option<string>, fetch: string -> ProbeOutcome)
    ensures var r := Classify(url, content, fetch);
      r == Classification("test", 95, "org_id") || r == Classification("test", 80, "hostname")
      || r == Classification("dr", 70, "url_pattern") || r == Classification("test", 70, "url_pattern")
      || r == Classification("test", 95, "api_request") || r == Classification("unknown", 50, "default")
  {
    ProbeMatchIsMapped(Endpoints(Lowered(url)), fetch);
    var hit := ContentOrgHit(content);
    if hit.Some? {
      OrgMappingValues(hit.value.0);
    }
  }

  /** The URL is matched case-insensitively: upper-case letters in it change nothing. */
  lemma CaseInsensitive(url: UrlParts, content: Option<string>, fetch: string -> ProbeOutcome)
    ensures Classify(Lowered(url), content, fetch) == Classify(url, content, fetch)
  {
    ToLowerIdempotent(url.scheme);
    ToLowerIdempotent(url.netloc);
    ToLowerIdempotent(url.path);
    ToLowerIdempotent(url.fragment);
  }
}
