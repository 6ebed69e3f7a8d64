/**
 * The data tables the detectors consult: pattern lists, exclusion words,
 * organization and hostname mappings, detection methods with their
 * confidences. Confidences are integer hundredths (0.95 is 95).
 * Tables that are JavaScript object literals keep their insertion order,
 * which is the order `for ... in` / `Object.entries` visits them.
 */
module Tables {

  import opened Strings

  /** One entry of a DETECTION_METHODS table: its key, its display name and its confidence. */
  datatype MethodInfo = MethodInfo(key: string, name: string, confidence: nat)

  // Method names, as callers pass them.
  const OrgIdName := "Organization ID"
  const HostnameName := "Hostname"
  const ApiEndpointName := "API Endpoint"
  const UrlPatternName := "URL Pattern"
  const TitlePatternName := "Page Title"
  const ManualOverrideName := "Manual Override"
  const DefaultName := "Default"

  // Confidences of the methods, in hundredths.
  const OrgIdConfidence: nat := 95
  const HostnameConfidence: nat := 95
  const ApiEndpointConfidence: nat := 90
  const UrlPatternConfidence: nat := 85
  const TitlePatternConfidence: nat := 80
  const ManualOverrideConfidence: nat := 100
  const DefaultConfidence: nat := 50

  /** The literal 1.0 the current service reports when the DR organization ID is seen. */
  const DrOrgIdConfidence: nat := 100

  /** DETECTION_METHODS of the shared constants, in declaration order (including MANUAL_OVERRIDE). */
  const DetectionMethods: seq<MethodInfo> := [
    MethodInfo("ORG_ID", OrgIdName, OrgIdConfidence),
    MethodInfo("HOSTNAME", HostnameName, HostnameConfidence),
    MethodInfo("API_ENDPOINT", ApiEndpointName, ApiEndpointConfidence),
    MethodInfo("URL_PATTERN", UrlPatternName, UrlPatternConfidence),
    MethodInfo("TITLE_PATTERN", TitlePatternName, TitlePatternConfidence),
    MethodInfo("MANUAL_OVERRIDE", ManualOverrideName, ManualOverrideConfidence),
    MethodInfo("DEFAULT", DefaultName, DefaultConfidence)
  ]

  /** DETECTION_METHODS of the stand-alone background scripts: the same entries without MANUAL_OVERRIDE. */
  const BackgroundDetectionMethods: seq<MethodInfo> := DetectionMethods[..5] + DetectionMethods[6..]

  // Organization IDs with special treatment.
  const ProdOrgId := "f6b247d6-10d1-42e6-99bc-be52827a50f0"
  const DrOrgId := "d6154e9b-1f7a-40a4-9f06-e3a4c73fc4ac"
  const TestOrgId := "d9ee1fd7-868c-4ea0-af89-5b9813db863d"

  /** ORGANIZATION_MAPPINGS of the shared constants (archived refactored extension). */
  const OrgMappings: seq<(string, string)> := [
    (ProdOrgId, "prod"),
    (DrOrgId, "dr"),
    (TestOrgId, "test"),
    ("a7cbe8fc-fe81-47bc-bdd3-05a726c56c5a", "dev")
  ]

  /** ORGANIZATION_MAPPINGS of the current refactored extension, which the org-ID monitor starts from. */
  const MonitorOrgMappings: map<string, string> := map[
    "70af5856-802a-423a-b07a-5f420c8e325d" := "dr",
    TestOrgId := "test",
    "a7cbe8fc-fe81-47bc-bdd3-05a726c56c5a" := "dev"
  ]

  /** ORGANIZATION_MAPPINGS of the version 4 background script. */
  const V4OrgMappings: seq<(string, string)> := [
    ("70af5856-802a-423a-b07a-5f420c8e325d", "dr"),
    (TestOrgId, "test"),
    ("a3fb3658-fd69-4632-89bb-2fe5c9d10d7d", "test"),
    ("b4ff7eec-5c7d-4c34-9f40-d07fb432a1b2", "test"),
    ("e31a8aa5-bdba-4ae1-a91a-9e44f3feaa9d", "test"),
    ("63ba1711-bcf1-4a4b-a101-f458280264b0", "dev")
  ]

  /**
   * HOSTNAME_MAPPINGS, in insertion order; the shared constants and the
   * version 4 and version 8 background scripts all carry these entries.
   */
  const HostnameMappings: seq<(string, string)> := [
    ("cac1.pure.cloud", "test"),
    ("usw2.pure.cloud", "test"),
    ("use2.pure.cloud", "test"),
    ("fra.pure.cloud", "test"),
    ("login.mypurecloud.ca", "test"),
    ("use1.dev.us-east-1.aws.dev.genesys.cloud", "dev"),
    ("dev.genesys.cloud", "dev"),
    ("dr.mypurecloud.com", "dr"),
    ("dr-api.mypurecloud.com", "dr")
  ]

  // ENVIRONMENT_PATTERNS and EXCLUDE_WORDS of the shared pattern file.
  const DrPatterns: seq<string> := [".dr.", "-dr.", "-dr-", "/dr/", "wawanesa-dr", "disaster", "failover", "recovery", "dr-region"]
  const TestPatterns: seq<string> := [".test.", "-test-", "wawanesa-test", "staging", "uat", "testing", "test-region"]
  const DevPatterns: seq<string> := [".dev.", "-dev-", "wawanesa-dev", "development", "dev-region", "sandbox"]
  const StrongDrPatterns: seq<string> := [".dr.", "-dr.", "-dr-", "/dr/", "wawanesa-dr"]
  const StrongTestPatterns: seq<string> := [".test.", "-test-", "wawanesa-test"]
  const DrExcludeWords: seq<string> := ["directory", "drive", "drop", "draw", "drawer", "address"]
  const TestExcludeWords: seq<string> := ["latest", "greatest", "contest", "testimony", "protest", "attestation", "intestate"]

  /** The test list of the version 4 and version 8 background scripts, which also has "qa". */
  const BackgroundTestPatterns: seq<string> := [".test.", "-test-", "wawanesa-test", "staging", "qa", "uat", "testing", "test-region"]

  /** Which field of an entry a lookup compares: its key (`TABLE[key]`) or its display name. */
  datatype Field = Key | Name

  function Label(m: MethodInfo, field: Field): string {
    match field
    case Key => m.key
    case Name => m.name
  }

  /**
   * The first entry whose `field` equals `s`: `TABLE[s]` for keys,
   * `Object.values(TABLE).find(m => m.name === s)` for names.
   */
  function Find(methods: seq<MethodInfo>, field: Field, s: string): (r: Option<MethodInfo>)
    ensures r.Some? ==> exists i :: FirstWithLabel(methods, field, s, i) && methods[i] == r.value
    ensures r.None? ==> forall m :: m in methods ==> Label(m, field) != s
  {
    if methods == [] then None
    else if Label(methods[0], field) == s then
      assert FirstWithLabel(methods, field, s, 0);
      Some(methods[0])
    else
      var rest := Find(methods[1..], field, s);
      assert forall m :: m in methods && m != methods[0] ==> m in methods[1..];
      if rest.Some? then
        var i :| FirstWithLabel(methods[1..], field, s, i) && methods[1..][i] == rest.value;
        assert FirstWithLabel(methods, field, s, i + 1);
        rest
      else rest
  }

  /** Entry `i` is the first whose `field` is `s`. */
  predicate FirstWithLabel(methods: seq<MethodInfo>, field: Field, s: string, i: int) {
    0 <= i < |methods| && Label(methods[i], field) == s
    && forall j :: 0 <= j < i ==> Label(methods[j], field) != s
  }

  /** `getConfidenceLevel`: the confidence of the first entry whose `field` is `s`, DEFAULT's when there is none. */
  function ConfidenceOf(methods: seq<MethodInfo>, field: Field, s: string): (c: nat)
    ensures (exists i :: FirstWithLabel(methods, field, s, i))
            ==> exists i :: FirstWithLabel(methods, field, s, i) && c == methods[i].confidence
    ensures (forall m :: m in methods ==> Label(m, field) != s) ==> c == DefaultConfidence
  {
    match Find(methods, field, s)
    case Some(m) => m.confidence
    case None => DefaultConfidence
  }

  /** The methods a detection comes from when the URL itself decided it. */
  predicate IsUrlMethod(detectionMethod: string) {
    detectionMethod == HostnameName || detectionMethod == UrlPatternName
  }
}
