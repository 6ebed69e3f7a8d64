# Genesys Cloud environment detection, modelled in Dafny

The Genesys Cloud DR browser extension tells a user which Genesys Cloud
environment a page belongs to: dr (disaster recovery), test, dev, prod or
unknown. Over several versions it does this in two ways:

- classifiers turn a URL (and sometimes a title or page content) into an
  environment by fixed-priority rules: organization IDs, a host table,
  exclusion words, substring patterns, API paths and a default;
- a small "current environment" record decides whether a new detection
  may replace the one it holds: a same-environment skip, a test-to-dr
  override, a confidence gate, a force flag and special organization IDs.

This project models both, version by version, and proves what each
version promises and several things it does by accident.

| module (file) | what it models |
|---|---|
| `Strings` (strings.dfy) | substring search, ASCII lower-casing, first-match search over pattern lists and tables |
| `Tables` (tables.dfy) | the pattern lists, organization-ID and host tables and DETECTION_METHODS, with the lookup every `getConfidenceLevel` uses |
| `Detections` (detections.dfy) | detection results, the three-valued JavaScript `orgId` field (absent, `null`, a string), parsed URLs, and the storage write shared by the state machines |
| `DetectPy` (detect_py.dfy) | `detect_environment` of the v4 Python probe script |
| `V9Background` (v9_background.dfy) | `detectEnvironment` of the v9 background script |
| `UrlDetector` (url_detector.dfy) | the v8 content script's URL detector |
| `V4Background` (v4_background.dfy) | `detectEnvironment` and `setOrganizationId` of the v4 background script |
| `V8Background` (v8_background.dfy) | `updateEnvironment` and `checkUrlForEnvironment` of the v8 background script |
| `EnvironmentService` (environment_service.dfy) | the v12 background `EnvironmentService` class |
| `ContentV8` (content_v8.dfy) | the v8 content script's environment-detection module |
| `ContentV12` (content_v12.dfy) | the v12 content script's environment-detection module |
| `OrgIdMonitor` (org_id_monitor.dfy) | the v8 background organization-ID monitor |

Modelling conventions:

- Confidences are whole hundredths: 0.95 is 95. The v12 service reduces
  the host confidence to 0.95 * 0.8, which is exactly 76.
- Code that changes state becomes a class whose fields mirror the
  source's variables. `Snapshot()` reads the fields as one `State` value.
  Each method is proved to produce the state that a pure step function
  computes from the old state (`UpdateStep`, `OrgIdStep`, `ClearStep`, and
  so on). The lemmas about those step functions state the behaviour.
- Storage (`chrome.storage`, `safeStorageSet`) is a `map<string, string>`.
  Writing `null` or `undefined` leaves the key without a value.
- Parsing a URL is outside the model. Its outcome is a parameter: either
  the hostname, path and fragment, or the message of the exception
  `new URL` throws.
- The JavaScript `orgId` field can be absent, `null` or a string. The
  comparisons `orgId === null` and `orgId === detectedOrgId` treat the
  three cases differently, so the model keeps all three (`OrgRef`).

Behaviour modelled as the code has it, where it differs from what its
comments or its design suggest:

- The v8 and v12 background scripts look the cached method up as
  `DETECTION_METHODS[method]`, but they store method names such as
  "Hostname", never the keys such as HOSTNAME. The lookup therefore
  always falls back to DEFAULT. In v8 this means the confidence gate never
  rejects (`V8Background.ConfidenceGateNeverRejects`).
- The v12 content script writes storage through `saveStorageData`, which
  it neither defines nor imports. Every write throws inside its `try`, so
  that module never writes storage and its model has none.
- In the v12 service, `setEnvironmentManually` for the current
  environment passes the current org ID along. The update then meets the
  same-environment skip and changes nothing, although the method returns
  true (`EnvironmentService.ManualOverrideOfCurrentIsNoOp`).
- In the v12 service's login-page test, the alternatives after
  `hostname.includes('login.')` cannot change the outcome
  (`EnvironmentService.LoginPageIsHostTest`).
- In the v8 content script, a result with no `orgId` field never meets
  the same-environment skip, because `undefined` is neither `null` nor a
  stored ID (`ContentV8.AbsentOrgIdNeverSkips`).
- v4 `setOrganizationId` asks `unknownIds.includes(orgId)` of a list of
  records. A string is never one of them, so an ID that is already listed
  is listed again (`V4Background.UnknownIdIsListed`).
- The tables of the v12 service come from
  Genesys/Archive/App2-GenesysCloudDR-Extension/Archive/Extensionv8/RefactoredExtension/src/shared/constants.js,
  which holds the same DR organization ID that the service hard-codes.
  Extensionv12/src/shared/constants.js is not part of this model.
- The monitor's mapping table is the three-entry table of
  Genesys/Archive/App2-GenesysCloudDR-Extension/Extensionv8/RefactoredExtension/src/shared/constants.js.

## Model

| member | source | states |
|---|---|---|
| `DetectPy.Lowered` | Genesys/Archive/App2-GenesysCloudDR-Extension/Archive/Extensionv4/archive/detect.py:48-51 | the host, path and fragment the rules read are lower-case |
| `DetectPy.EndpointMatch` | Genesys/Archive/App2-GenesysCloudDR-Extension/Archive/Extensionv4/archive/detect.py:101-118 | an endpoint yields an environment only for status 200 and a truthy string ID that ORG_MAPPING maps, and then yields that mapping |
| `DetectPy.DetectEnvironment` | Genesys/Archive/App2-GenesysCloudDR-Extension/Archive/Extensionv4/archive/detect.py:31-128 | the loops with early returns and the `should_skip_dr` flag compute exactly the rule chain `Classify` |
| `DetectPy.ScanContent` | Genesys/Archive/App2-GenesysCloudDR-Extension/Archive/Extensionv4/archive/detect.py:41-44 | the loop over ORG_MAPPING finds the first mapping, in table order, whose ID occurs in the content |
| `DetectPy.ScanDrExclusions` | Genesys/Archive/App2-GenesysCloudDR-Extension/Archive/Extensionv4/archive/detect.py:61-66 | `should_skip_dr` is set exactly when a DR exclusion word is in the host, the path or the fragment |
| `DetectPy.ScanPatterns` | Genesys/Archive/App2-GenesysCloudDR-Extension/Archive/Extensionv4/archive/detect.py:70-81 | a pattern loop returns exactly when some pattern of the list occurs in host + path + fragment |
| `DetectPy.Probe` | Genesys/Archive/App2-GenesysCloudDR-Extension/Archive/Extensionv4/archive/detect.py:92-121 | the endpoint loop yields exactly the probe result `ProbeMatch`: the first endpoint answering 200 with a mapped ID |
| `DetectPy.OrgMappingValues` | Genesys/Archive/App2-GenesysCloudDR-Extension/Archive/Extensionv4/archive/detect.py:9-11 | every environment ORG_MAPPING yields is "test" |
| `DetectPy.ProbeMatchIsMapped` | Genesys/Archive/App2-GenesysCloudDR-Extension/Archive/Extensionv4/archive/detect.py:92-118 | whatever the endpoints answer, a probe hit is a value of ORG_MAPPING |
| `DetectPy.OrgIdInContentWins` | Genesys/Archive/App2-GenesysCloudDR-Extension/Archive/Extensionv4/archive/detect.py:39-44 | a mapped ID in truthy content gives (env, 0.95, "org_id") whatever the URL and the probe |
| `DetectPy.Cac1HostIsTest` | Genesys/Archive/App2-GenesysCloudDR-Extension/Archive/Extensionv4/archive/detect.py:56-58 | a host containing "cac1.pure.cloud" gives ("test", 0.8, "hostname") even when DR patterns are present |
| `DetectPy.DrExclusionSuppressesDr` | Genesys/Archive/App2-GenesysCloudDR-Extension/Archive/Extensionv4/archive/detect.py:61-74 | a DR exclusion word in host, path or fragment rules out every "dr" result |
| `DetectPy.DrPatternIsDr` | Genesys/Archive/App2-GenesysCloudDR-Extension/Archive/Extensionv4/archive/detect.py:68-74 | a DR pattern in host + path + fragment, with no exclusion word, gives ("dr", 0.7, "url_pattern") |
| `DetectPy.TestPatternIsTest` | Genesys/Archive/App2-GenesysCloudDR-Extension/Archive/Extensionv4/archive/detect.py:77-81 | a test pattern reaching the test step gives ("test", 0.7, "url_pattern") even next to a test exclusion word |
| `DetectPy.ProbeReadsIdFirst` | Genesys/Archive/App2-GenesysCloudDR-Extension/Archive/Extensionv4/archive/detect.py:106-108 | the extracted ID is `id` when present, whatever `guid` and `res` hold |
| `DetectPy.ProbeReadsGuidSecond` | Genesys/Archive/App2-GenesysCloudDR-Extension/Archive/Extensionv4/archive/detect.py:109-112 | without `id`, the extracted ID is `guid` when present, whatever `res` holds |
| `DetectPy.ProbeNeedsMappedId` | Genesys/Archive/App2-GenesysCloudDR-Extension/Archive/Extensionv4/archive/detect.py:101-118 | an endpoint hit needs status 200 and a truthy ID that ORG_MAPPING maps |
| `DetectPy.FailedEndpointIsSkipped` | Genesys/Archive/App2-GenesysCloudDR-Extension/Archive/Extensionv4/archive/detect.py:92-121 | an endpoint that raises, or answers without a mapped organization ID, is passed over and the remaining endpoints decide |
| `DetectPy.NothingMatchesIsDefault` | Genesys/Archive/App2-GenesysCloudDR-Extension/Archive/Extensionv4/archive/detect.py:127-128 | when no step fires the result is exactly ("unknown", 0.5, "default") |
| `DetectPy.ResultShapes` | Genesys/Archive/App2-GenesysCloudDR-Extension/Archive/Extensionv4/archive/detect.py:31-128 | every result is one of the five outcomes, each with its fixed confidence and method |
| `DetectPy.CaseInsensitive` | Genesys/Archive/App2-GenesysCloudDR-Extension/Archive/Extensionv4/archive/detect.py:48 | upper-case letters in the URL do not change the result |
| `V9Background.FalsyUrlIsNull` | Genesys/Archive/App2-GenesysCloudDR-Extension/Archive/Extensionv9-test-navigation/background.js:3 | an empty URL gives null |
| `V9Background.ResultRange` | Genesys/Archive/App2-GenesysCloudDR-Extension/Archive/Extensionv9-test-navigation/background.js:2-48 | every result is DR, TEST, DEV or null |
| `V9Background.DrOutranksTestAndDev` | Genesys/Archive/App2-GenesysCloudDR-Extension/Archive/Extensionv9-test-navigation/background.js:9-16 | a DR marker gives DR whatever TEST or DEV markers are present |
| `V9Background.TestOutranksDev` | Genesys/Archive/App2-GenesysCloudDR-Extension/Archive/Extensionv9-test-navigation/background.js:18-27 | a TEST marker without a DR marker gives TEST whatever DEV markers are present |
| `V9Background.LoginClauseIsSubsumed` | Genesys/Archive/App2-GenesysCloudDR-Extension/Archive/Extensionv9-test-navigation/background.js:9-14 | the login.mypurecloud.com clause adds nothing: the DR condition holds exactly when a DR marker occurs |
| `V9Background.DevOnlyWithoutDrOrTest` | Genesys/Archive/App2-GenesysCloudDR-Extension/Archive/Extensionv9-test-navigation/background.js:29-36 | DEV needs a DEV marker and neither a DR nor a TEST marker |
| `V9Background.DrNeedsMarker` | Genesys/Archive/App2-GenesysCloudDR-Extension/Archive/Extensionv9-test-navigation/background.js:9-16 | a DR result needs a DR marker in the lower-cased URL |
| `V9Background.CaseInsensitive` | Genesys/Archive/App2-GenesysCloudDR-Extension/Archive/Extensionv9-test-navigation/background.js:6 | the URL and its lower-cased copy give the same result |
| `V9Background.GenesysDomainDefaultsToTest` | Genesys/Archive/App2-GenesysCloudDR-Extension/Archive/Extensionv9-test-navigation/background.js:38-44 | an otherwise unmatched pure.cloud, mypurecloud.com or genesyscloud.com URL is TEST |
| `V9Background.Cac1IsTest` | Genesys/Archive/App2-GenesysCloudDR-Extension/Archive/Extensionv9-test-navigation/background.js:22 | a cac1.pure.cloud URL with no DR marker is TEST |
| `V9Background.NullMeansUnrecognised` | Genesys/Archive/App2-GenesysCloudDR-Extension/Archive/Extensionv9-test-navigation/background.js:46-47 | a null result for a non-empty URL means no marker and no Genesys Cloud domain occurs |
| `UrlDetector.EmptyUrlIsNull` | Genesys/Archive/App2-GenesysCloudDR-Extension/Archive/Extensionv8/RefactoredExtension/src/content/detectors/url-detector.js:20-21 | an empty URL gives null from both detectors |
| `UrlDetector.StrongDrBeforeStrongTest` | Genesys/Archive/App2-GenesysCloudDR-Extension/Archive/Extensionv8/RefactoredExtension/src/content/detectors/url-detector.js:25-38 | a strong DR pattern gives dr even when a strong test pattern is present too, reporting the first DR pattern found |
| `UrlDetector.StrongTestNeedsNoStrongDr` | Genesys/Archive/App2-GenesysCloudDR-Extension/Archive/Extensionv8/RefactoredExtension/src/content/detectors/url-detector.js:40-53 | the strong result is test exactly when a strong test pattern occurs and no strong DR pattern does |
| `UrlDetector.StrongResultIffPattern` | Genesys/Archive/App2-GenesysCloudDR-Extension/Archive/Extensionv8/RefactoredExtension/src/content/detectors/url-detector.js:20-57 | a strong result exists exactly when some strong pattern occurs in the lower-cased URL |
| `UrlDetector.CaseInsensitive` | Genesys/Archive/App2-GenesysCloudDR-Extension/Archive/Extensionv8/RefactoredExtension/src/content/detectors/url-detector.js:23 | both detectors give the same result for the URL and its lower-cased copy |
| `UrlDetector.StrongResultWins` | Genesys/Archive/App2-GenesysCloudDR-Extension/Archive/Extensionv8/RefactoredExtension/src/content/detectors/url-detector.js:68-72 | whenever a strong result exists, `detectEnvironmentFromUrl` returns it |
| `UrlDetector.UnparsableIsNull` | Genesys/Archive/App2-GenesysCloudDR-Extension/Archive/Extensionv8/RefactoredExtension/src/content/detectors/url-detector.js:74-75 | an unparsable URL without strong patterns gives null |
| `UrlDetector.NoRuleIsNull` | Genesys/Archive/App2-GenesysCloudDR-Extension/Archive/Extensionv8/RefactoredExtension/src/content/detectors/url-detector.js:64-152 | if and only if: null exactly when the URL is empty, or no strong pattern occurs and the URL fails to parse or no rule fires (each gated step excluded or without a pattern, no dev pattern, no DR API path) |
| `UrlDetector.DrExclusionLeavesOnlyApiRule` | Genesys/Archive/App2-GenesysCloudDR-Extension/Archive/Extensionv8/RefactoredExtension/src/content/detectors/url-detector.js:79-106 | a DR exclusion word skips the login case and the DR list, so dr can only come from the API rule |
| `UrlDetector.TestExclusionRulesOutPatternTest` | Genesys/Archive/App2-GenesysCloudDR-Extension/Archive/Extensionv8/RefactoredExtension/src/content/detectors/url-detector.js:108-123 | a test exclusion word rules out every test result of the detailed check |
| `UrlDetector.DevIsUngated` | Genesys/Archive/App2-GenesysCloudDR-Extension/Archive/Extensionv8/RefactoredExtension/src/content/detectors/url-detector.js:125-136 | once the DR and test steps pass, a dev pattern gives dev, exclusion words or not |
| `UrlDetector.ApiResultNeedsDrApiPath` | Genesys/Archive/App2-GenesysCloudDR-Extension/Archive/Extensionv8/RefactoredExtension/src/content/detectors/url-detector.js:138-149 | an API-endpoint result needs "/api/" and one of "/dr/", "/dr-api/" in the path, and is dr at 0.90 |
| `UrlDetector.ResultShapes` | Genesys/Archive/App2-GenesysCloudDR-Extension/Archive/Extensionv8/RefactoredExtension/src/content/detectors/url-detector.js:64-157 | every result is dr, test or dev at the URL-pattern or the API-endpoint confidence |
| `V4Background.OrgIdMatchIsId` | Genesys/Archive/App2-GenesysCloudDR-Extension/Archive/Extensionv4/background.js:157 | the captured org ID is 36 characters of `[a-f0-9-]` and occurs in the URL |
| `V4Background.MappedOrgIdInUrl` | Genesys/Archive/App2-GenesysCloudDR-Extension/Archive/Extensionv4/background.js:157-160 | a hit is an ORGANIZATION_MAPPINGS entry whose ID is the regular expression's capture |
| `V4Background.PrependCappedShape` | Genesys/Archive/App2-GenesysCloudDR-Extension/Archive/Extensionv4/background.js:623-635 | the new entry heads the list, at most ten entries remain, and they are the old list's head |
| `V4Background.Background.constructor` | Genesys/Archive/App2-GenesysCloudDR-Extension/Archive/Extensionv4/background.js:62-66 | every global starts null; storage and the stored list are what storage held |
| `V4Background.Background.OnInstalled` | Genesys/Archive/App2-GenesysCloudDR-Extension/Archive/Extensionv4/background.js:77-103 | the new state is the install handler's reload of the old one |
| `V4Background.InstalledStepIdempotent` | Genesys/Archive/App2-GenesysCloudDR-Extension/Archive/Extensionv4/background.js:77-103 | reloading from storage twice gives what reloading once gives |
| `V4Background.MappedIdSurvivesReload` | Genesys/Archive/App2-GenesysCloudDR-Extension/Archive/Extensionv4/background.js:77-103 | after a mapped ID's `setOrganizationId`, the install handler's reload changes nothing: storage holds exactly the globals |
| `V4Background.Background.DetectEnvironment` | Genesys/Archive/App2-GenesysCloudDR-Extension/Archive/Extensionv4/background.js:142-325 | the result is the rule chain, and `detectedOrgId` changes only to a mapped org ID found in the URL |
| `V4Background.Background.SetOrganizationId` | Genesys/Archive/App2-GenesysCloudDR-Extension/Archive/Extensionv4/background.js:581-660 | the new state is the `setOrganizationId` transition |
| `V4Background.OrgIdInUrlWins` | Genesys/Archive/App2-GenesysCloudDR-Extension/Archive/Extensionv4/background.js:157-172 | a mapped org ID in the URL wins at ORG_ID confidence and is the ID recorded |
| `V4Background.HostTableFirstEntryWins` | Genesys/Archive/App2-GenesysCloudDR-Extension/Archive/Extensionv4/background.js:175-185 | a host result comes from the first table entry that occurs in the hostname |
| `V4Background.DrApiPathBeforePatterns` | Genesys/Archive/App2-GenesysCloudDR-Extension/Archive/Extensionv4/background.js:188-197 | a DR API path wins over every pattern and the title once the org-ID and host steps pass |
| `V4Background.TestApiPathBeforePatterns` | Genesys/Archive/App2-GenesysCloudDR-Extension/Archive/Extensionv4/background.js:199-208 | a test API path without a DR marker gives test at API confidence |
| `V4Background.ScanShape` | Genesys/Archive/App2-GenesysCloudDR-Extension/Archive/Extensionv4/background.js:225-245 | a scan result reports a pattern of the list at the URL or the title confidence |
| `V4Background.TitleMatchMeansUrlMissed` | Genesys/Archive/App2-GenesysCloudDR-Extension/Archive/Extensionv4/background.js:225-245 | a title result means its pattern is in the title, not the URL, and no earlier pattern is in either |
| `V4Background.UrlMatchBeforeTitleMatch` | Genesys/Archive/App2-GenesysCloudDR-Extension/Archive/Extensionv4/background.js:226-235 | a pattern in the URL is reported from the URL even when the title has it too |
| `V4Background.DrExclusionGate` | Genesys/Archive/App2-GenesysCloudDR-Extension/Archive/Extensionv4/background.js:211-246 | a DR exclusion word rules out every DR result of the pattern step |
| `V4Background.TestExclusionGate` | Genesys/Archive/App2-GenesysCloudDR-Extension/Archive/Extensionv4/background.js:249-284 | a test exclusion word rules out every test result of the pattern step |
| `V4Background.DevIsUngated` | Genesys/Archive/App2-GenesysCloudDR-Extension/Archive/Extensionv4/background.js:286-307 | with the earlier steps silent, a dev pattern in the URL gives dev, exclusion words or not |
| `V4Background.DevScanFires` | Genesys/Archive/App2-GenesysCloudDR-Extension/Archive/Extensionv4/background.js:287-307 | a scan over patterns one of which is in the URL always reports dev |
| `V4Background.GatedStepShape` | Genesys/Archive/App2-GenesysCloudDR-Extension/Archive/Extensionv4/background.js:211-284 | a gated step only reports its own environment |
| `V4Background.ParseErrorResult` | Genesys/Archive/App2-GenesysCloudDR-Extension/Archive/Extensionv4/background.js:316-324 | a parse failure gives unknown at 0.3 with method "error" and the message as source |
| `V4Background.UnknownIsDefault` | Genesys/Archive/App2-GenesysCloudDR-Extension/Archive/Extensionv4/background.js:309-315 | for a parsed URL, unknown only comes from the default at 0.5 |
| `V4Background.SetOrganizationIdIgnoresRepeats` | Genesys/Archive/App2-GenesysCloudDR-Extension/Archive/Extensionv4/background.js:582 | an empty ID or the ID already recorded changes nothing |
| `V4Background.MappedIdSetsEnvironment` | Genesys/Archive/App2-GenesysCloudDR-Extension/Archive/Extensionv4/background.js:588-613 | a mapped ID sets the environment, the method, the source and the four storage keys |
| `V4Background.UnknownIdIsListed` | Genesys/Archive/App2-GenesysCloudDR-Extension/Archive/Extensionv4/background.js:615-659 | an unknown ID is recorded and prepended to the list, the environment stays, and a stored dr is not overwritten |
| `V4Background.UnknownListStaysCapped` | Genesys/Archive/App2-GenesysCloudDR-Extension/Archive/Extensionv4/background.js:632-635 | the unknown-ID list never grows past ten entries |
| `Tables.ConfidenceOf` | Genesys/Archive/App2-GenesysCloudDR-Extension/Archive/Extensionv12/src/background/environment-service.js:404-411 | the confidence of the first table entry, in table order, whose key (or, for the v8 content script, name) is the argument; DEFAULT's when no entry has it |
| `V8Background.Background.constructor` | Genesys/Archive/App2-GenesysCloudDR-Extension/Archive/Extensionv8/background.js:70-74 | every global starts null; storage is what storage held |
| `V8Background.Background.OnInstalled` | Genesys/Archive/App2-GenesysCloudDR-Extension/Archive/Extensionv8/background.js:85-112 | the new state is the install handler's reload of the old one |
| `V8Background.InstalledStepIdempotent` | Genesys/Archive/App2-GenesysCloudDR-Extension/Archive/Extensionv8/background.js:85-112 | reloading from storage twice gives what reloading once gives |
| `V8Background.AcceptedUpdateSurvivesReload` | Genesys/Archive/App2-GenesysCloudDR-Extension/Archive/Extensionv8/background.js:85-112 | after an accepted `updateEnvironment`, the install handler's reload changes nothing: storage holds exactly the globals |
| `V8Background.Background.UpdateEnvironment` | Genesys/Archive/App2-GenesysCloudDR-Extension/Archive/Extensionv8/background.js:456-521 | the three gates and the writes compute exactly the `updateEnvironment` transition |
| `V8Background.Background.CheckUrlForEnvironment` | Genesys/Archive/App2-GenesysCloudDR-Extension/Archive/Extensionv8/background.js:171-252 | the update that runs is the one the URL check asks for, or none |
| `V8Background.SameEnvironmentIsSkipped` | Genesys/Archive/App2-GenesysCloudDR-Extension/Archive/Extensionv8/background.js:467-471 | the same environment with a null or unchanged org ID leaves the whole state untouched |
| `V8Background.StrongDrOverridesTest` | Genesys/Archive/App2-GenesysCloudDR-Extension/Archive/Extensionv8/background.js:473-481 | test to dr is accepted for Hostname, or for URL Pattern with "wawanesa-dr" or "/dr/" in the source |
| `V8Background.NamesAreNeverKeys` | Genesys/Archive/App2-GenesysCloudDR-Extension/Archive/Extensionv8/background.js:57-64 | no method name is a key of DETECTION_METHODS |
| `V8Background.ConfidenceGateNeverRejects` | Genesys/Archive/App2-GenesysCloudDR-Extension/Archive/Extensionv8/background.js:458-494 | with method names cached, an update happens exactly when it is not a same-environment repeat |
| `V8Background.AcceptOverwrites` | Genesys/Archive/App2-GenesysCloudDR-Extension/Archive/Extensionv8/background.js:498-511 | an accepted update overwrites environment, method and source, and the org ID only when the new one is truthy |
| `V8Background.MethodStaysUnkeyed` | Genesys/Archive/App2-GenesysCloudDR-Extension/Archive/Extensionv8/background.js:501 | an update passing a name keeps the cached method a name |
| `V8Background.StrongDrBeforeStoredState` | Genesys/Archive/App2-GenesysCloudDR-Extension/Archive/Extensionv8/background.js:179-193 | a strong DR pattern asks for a dr update before storage is consulted |
| `V8Background.StoredOrgIdBlocksUrlDetection` | Genesys/Archive/App2-GenesysCloudDR-Extension/Archive/Extensionv8/background.js:195-204 | without a strong DR pattern, a stored organization-ID detection blocks URL detection |
| `V8Background.UrlDecisionRange` | Genesys/Archive/App2-GenesysCloudDR-Extension/Archive/Extensionv8/background.js:171-252 | the URL check asks for test or dev only through the host table |
| `V8Background.StrongDrUrlLands` | Genesys/Archive/App2-GenesysCloudDR-Extension/Archive/Extensionv8/background.js:179-193 | from a state whose cached method is a name, a strong DR URL makes the environment dr |
| `EnvironmentService.StrongDrStep` | Genesys/Archive/App2-GenesysCloudDR-Extension/Archive/Extensionv12/src/background/environment-service.js:111-133 | the strong-pattern step gives dr by URL pattern exactly when a strong DR pattern occurs |
| `EnvironmentService.DrStep` | Genesys/Archive/App2-GenesysCloudDR-Extension/Archive/Extensionv12/src/background/environment-service.js:205-244 | the DR step gives dr by URL pattern, and nothing when a DR exclusion word occurs |
| `EnvironmentService.PatternStep` | Genesys/Archive/App2-GenesysCloudDR-Extension/Archive/Extensionv12/src/background/environment-service.js:247-284 | the test and dev steps report their own environment by URL pattern |
| `EnvironmentService.ApiStep` | Genesys/Archive/App2-GenesysCloudDR-Extension/Archive/Extensionv12/src/background/environment-service.js:287-304 | the API rule gives dr only for "/api/" with "/dr/" or "/dr-api/" |
| `EnvironmentService.UrlRules` | Genesys/Archive/App2-GenesysCloudDR-Extension/Archive/Extensionv12/src/background/environment-service.js:183-304 | every rule result has a null org ID and one of the rules' confidences, and is never unknown |
| `EnvironmentService.Service.constructor` | Genesys/Archive/App2-GenesysCloudDR-Extension/Archive/Extensionv12/src/background/environment-service.js:12-21 | every field starts null, the caches empty, storage as stored |
| `EnvironmentService.Service.NotifyTab` | Genesys/Archive/App2-GenesysCloudDR-Extension/Archive/Extensionv12/src/background/environment-service.js:543-580 | the tab cache after the call is the `notifyTab` cache step |
| `EnvironmentService.Service.NotifyEnvironmentChange` | Genesys/Archive/App2-GenesysCloudDR-Extension/Archive/Extensionv12/src/background/environment-service.js:503-523 | the loop over the reported tabs leaves the cache that notifying each tab in turn gives |
| `EnvironmentService.Service.ClearTabEnvironmentCache` | Genesys/Archive/App2-GenesysCloudDR-Extension/Archive/Extensionv12/src/background/environment-service.js:530-535 | that tab's cache entry is removed and nothing else changes |
| `EnvironmentService.Service.Record` | Genesys/Archive/App2-GenesysCloudDR-Extension/Archive/Extensionv12/src/background/environment-service.js:452-484 | the fields and storage keys an accepted update writes |
| `EnvironmentService.Service.UpdateEnvironment` | Genesys/Archive/App2-GenesysCloudDR-Extension/Archive/Extensionv12/src/background/environment-service.js:395-496 | returns whether the gates pass, and the new state is the `updateEnvironment` transition |
| `EnvironmentService.Service.ProcessOrganizationId` | Genesys/Archive/App2-GenesysCloudDR-Extension/Archive/Extensionv12/src/background/environment-service.js:321-388 | the result and the new state are the `processOrganizationId` transition |
| `EnvironmentService.Service.SetEnvironmentManually` | Genesys/Archive/App2-GenesysCloudDR-Extension/Archive/Extensionv12/src/background/environment-service.js:612-631 | false outside dr, test and dev; otherwise a manual-override update |
| `EnvironmentService.Service.ClearEnvironmentData` | Genesys/Archive/App2-GenesysCloudDR-Extension/Archive/Extensionv12/src/background/environment-service.js:637-666 | the new state is the `clearEnvironmentData` transition |
| `EnvironmentService.Service.CheckUrlForEnvironment` | Genesys/Archive/App2-GenesysCloudDR-Extension/Archive/Extensionv12/src/background/environment-service.js:84-312 | the result and the updates it triggers are those of the URL check |
| `EnvironmentService.NotifyAllCachesEveryTab` | Genesys/Archive/App2-GenesysCloudDR-Extension/Archive/Extensionv12/src/background/environment-service.js:503-523 | after notifying, every reported tab has the new environment cached and other tabs are untouched |
| `EnvironmentService.NotifyAllKeepsEnvironment` | Genesys/Archive/App2-GenesysCloudDR-Extension/Archive/Extensionv12/src/background/environment-service.js:549-555 | a tab already showing the environment keeps showing it |
| `EnvironmentService.NotifyTabSkipsRepeat` | Genesys/Archive/App2-GenesysCloudDR-Extension/Archive/Extensionv12/src/background/environment-service.js:545-555 | `notifyTab` skips a tab that already shows the environment unless the org ID is the DR one |
| `EnvironmentService.NotifyTabRecords` | Genesys/Archive/App2-GenesysCloudDR-Extension/Archive/Extensionv12/src/background/environment-service.js:557-562 | otherwise it records the environment and the org ID, `null` when none was passed, for that tab and no other |
| `Detections.NullByDefault` | Genesys/Archive/App2-GenesysCloudDR-Extension/Archive/Extensionv12/src/background/environment-service.js:543 | an org ID passed to a parameter declared `orgId = null` is never `undefined`, and a given value is kept |
| `EnvironmentService.NotifyAllKeepsOrgIdsDefined` | Genesys/Archive/App2-GenesysCloudDR-Extension/Archive/Extensionv12/src/background/environment-service.js:503-580 | notifying tabs never caches an `undefined` org ID |
| `EnvironmentService.MissingEnvironmentIsIgnored` | Genesys/Archive/App2-GenesysCloudDR-Extension/Archive/Extensionv12/src/background/environment-service.js:396-399 | a result with no environment is refused and changes nothing |
| `EnvironmentService.SameEnvironmentIsSkipped` | Genesys/Archive/App2-GenesysCloudDR-Extension/Archive/Extensionv12/src/background/environment-service.js:415-424 | a same-environment repeat changes nothing, except test or dev with an org ID via Organization ID |
| `EnvironmentService.OrgIdRefreshFacesOnlyConfidence` | Genesys/Archive/App2-GenesysCloudDR-Extension/Archive/Extensionv12/src/background/environment-service.js:415-448 | such an org-ID refresh is accepted exactly when the confidence gate lets it |
| `EnvironmentService.UrlDrOverridesTest` | Genesys/Archive/App2-GenesysCloudDR-Extension/Archive/Extensionv12/src/background/environment-service.js:428-442 | test to dr by Hostname or URL Pattern is accepted whatever the confidences |
| `EnvironmentService.ConfidenceGate` | Genesys/Archive/App2-GenesysCloudDR-Extension/Archive/Extensionv12/src/background/environment-service.js:444-448 | elsewhere a known current environment with a higher cached confidence rejects the update |
| `EnvironmentService.CombinedMethodIsRecorded` | Genesys/Archive/App2-GenesysCloudDR-Extension/Archive/Extensionv12/src/background/environment-service.js:460-471 | test or dev with an org ID from Hostname or URL Pattern is recorded as "URL+OrgID" with the ID in the source |
| `EnvironmentService.PlainMethodIsRecorded` | Genesys/Archive/App2-GenesysCloudDR-Extension/Archive/Extensionv12/src/background/environment-service.js:452-484 | other accepted updates record their own method and source and keep the old org ID when the new one is falsy |
| `EnvironmentService.AcceptedUpdateReachesTabs` | Genesys/Archive/App2-GenesysCloudDR-Extension/Archive/Extensionv12/src/background/environment-service.js:487-493 | after an accepted update every open tab has the new environment cached |
| `EnvironmentService.KeyedConfidenceAtMostManual` | Genesys/Archive/App2-GenesysCloudDR-Extension/Archive/Extensionv12/src/background/environment-service.js:404-411 | no keyed confidence exceeds MANUAL_OVERRIDE's 1.0 |
| `EnvironmentService.UnmappedOrgIdIsIgnored` | Genesys/Archive/App2-GenesysCloudDR-Extension/Archive/Extensionv12/src/background/environment-service.js:321-388 | an empty or unmapped org ID gives null and changes nothing |
| `EnvironmentService.DrOrgIdForcesDr` | Genesys/Archive/App2-GenesysCloudDR-Extension/Archive/Extensionv12/src/background/environment-service.js:328-364 | the DR org ID forces dr at confidence 1.0 whatever the state |
| `EnvironmentService.MappedOrgIdIsDetected` | Genesys/Archive/App2-GenesysCloudDR-Extension/Archive/Extensionv12/src/background/environment-service.js:367-387 | another mapped ID is a 0.95 detection of its environment handed to `updateEnvironment` |
| `EnvironmentService.ManualOverrideRejectsOthers` | Genesys/Archive/App2-GenesysCloudDR-Extension/Archive/Extensionv12/src/background/environment-service.js:613-616 | a manual override outside dr, test and dev changes nothing |
| `EnvironmentService.ManualOverrideLands` | Genesys/Archive/App2-GenesysCloudDR-Extension/Archive/Extensionv12/src/background/environment-service.js:617-631 | a manual override to a different environment lands whatever the cached confidence |
| `EnvironmentService.ManualOverrideOfCurrentIsNoOp` | Genesys/Archive/App2-GenesysCloudDR-Extension/Archive/Extensionv12/src/background/environment-service.js:617-631 | a manual override to the current environment meets the same-environment skip and changes nothing |
| `EnvironmentService.ClearForgetsEverything` | Genesys/Archive/App2-GenesysCloudDR-Extension/Archive/Extensionv12/src/background/environment-service.js:637-666 | clearing nulls every field, empties processedUrls, removes the detection keys and tells every tab "unknown" |
| `EnvironmentService.LoginPageIsHostTest` | Genesys/Archive/App2-GenesysCloudDR-Extension/Archive/Extensionv12/src/background/environment-service.js:93-96 | the login test holds exactly when the lower-cased hostname contains "login." |
| `EnvironmentService.LoginPageIsUnknown` | Genesys/Archive/App2-GenesysCloudDR-Extension/Archive/Extensionv12/src/background/environment-service.js:93-107 | a login page gives unknown at confidence 0 with a null org ID and triggers no update |
| `EnvironmentService.UnparsableIsNull` | Genesys/Archive/App2-GenesysCloudDR-Extension/Archive/Extensionv12/src/background/environment-service.js:84-312 | an unparsable URL gives null |
| `EnvironmentService.StrongDrBeforeStoredState` | Genesys/Archive/App2-GenesysCloudDR-Extension/Archive/Extensionv12/src/background/environment-service.js:111-133 | off a login page a strong DR pattern gives dr by URL pattern whatever storage holds |
| `EnvironmentService.StoredOrgIdBlocksUrlDetection` | Genesys/Archive/App2-GenesysCloudDR-Extension/Archive/Extensionv12/src/background/environment-service.js:136-177 | without a strong DR pattern a stored organization-ID detection blocks URL detection |
| `EnvironmentService.HostnameConfidenceIsReduced` | Genesys/Archive/App2-GenesysCloudDR-Extension/Archive/Extensionv12/src/background/environment-service.js:183-202 | a host-table match is reported at the reduced confidence 0.76 |
| `EnvironmentService.TestIsUngated` | Genesys/Archive/App2-GenesysCloudDR-Extension/Archive/Extensionv12/src/background/environment-service.js:247-264 | a test pattern reached by the chain gives test even next to a test exclusion word |
| `EnvironmentService.DrExclusionLeavesOnlyApiRule` | Genesys/Archive/App2-GenesysCloudDR-Extension/Archive/Extensionv12/src/background/environment-service.js:205-304 | a DR exclusion word leaves only the API path rule able to give dr |
| `EnvironmentService.UrlResultShapes` | Genesys/Archive/App2-GenesysCloudDR-Extension/Archive/Extensionv12/src/background/environment-service.js:84-312 | every URL result has a null org ID and one of the rules' fixed confidences |
| `EnvironmentService.MethodStaysUnkeyed` | Genesys/Archive/App2-GenesysCloudDR-Extension/Archive/Extensionv12/src/background/environment-service.js:452-484 | updates passing method names keep the cached method a name, "URL+OrgID" included |
| `EnvironmentService.StrongDrUrlLands` | Genesys/Archive/App2-GenesysCloudDR-Extension/Archive/Extensionv12/src/background/environment-service.js:111-133 | from a state with a name cached, a strong DR URL off a login page makes the environment dr |
| `ContentV8.Detector.constructor` | Genesys/Archive/App2-GenesysCloudDR-Extension/Archive/Extensionv8/RefactoredExtension/src/content/environment-detection.js:14-18 | every module variable starts null |
| `ContentV8.Detector.UpdateEnvironment` | Genesys/Archive/App2-GenesysCloudDR-Extension/Archive/Extensionv8/RefactoredExtension/src/content/environment-detection.js:90-154 | returns whether the gates pass, and the new state is the `updateEnvironment` transition |
| `ContentV8.Detector.CheckCurrentUrlForEnvironment` | Genesys/Archive/App2-GenesysCloudDR-Extension/Archive/Extensionv8/RefactoredExtension/src/content/environment-detection.js:161-196 | returns the strong result, else the detailed one; only a strong dr result updates, forced |
| `ContentV8.ConfidenceOfKnownName` | Genesys/Archive/App2-GenesysCloudDR-Extension/Archive/Extensionv8/RefactoredExtension/src/content/environment-detection.js:79-82 | every method name of the table gets its own confidence |
| `ContentV8.UnknownNameDefaults` | Genesys/Archive/App2-GenesysCloudDR-Extension/Archive/Extensionv8/RefactoredExtension/src/content/environment-detection.js:81 | a name outside the table gets DEFAULT's confidence |
| `ContentV8.MissingEnvironmentIsIgnored` | Genesys/Archive/App2-GenesysCloudDR-Extension/Archive/Extensionv8/RefactoredExtension/src/content/environment-detection.js:91-94 | a result without an environment is refused and changes nothing |
| `ContentV8.SameEnvironmentIsSkipped` | Genesys/Archive/App2-GenesysCloudDR-Extension/Archive/Extensionv8/RefactoredExtension/src/content/environment-detection.js:105-109 | the same environment with a null or unchanged org ID is refused, even when forced |
| `ContentV8.AbsentOrgIdNeverSkips` | Genesys/Archive/App2-GenesysCloudDR-Extension/Archive/Extensionv8/RefactoredExtension/src/content/environment-detection.js:106 | a result without an `orgId` field never meets the same-environment skip |
| `ContentV8.ConfidenceGateRejects` | Genesys/Archive/App2-GenesysCloudDR-Extension/Archive/Extensionv8/RefactoredExtension/src/content/environment-detection.js:120-132 | an unforced update below the cached confidence is refused, test to dr by URL aside |
| `ContentV8.ForceBypassesConfidence` | Genesys/Archive/App2-GenesysCloudDR-Extension/Archive/Extensionv8/RefactoredExtension/src/content/environment-detection.js:105-132 | a forced update is accepted exactly when it has an environment and is not a same-environment repeat |
| `ContentV8.UrlDrOverridesTest` | Genesys/Archive/App2-GenesysCloudDR-Extension/Archive/Extensionv8/RefactoredExtension/src/content/environment-detection.js:113-119 | test to dr by Hostname or URL Pattern is always accepted |
| `ContentV8.AcceptOverwrites` | Genesys/Archive/App2-GenesysCloudDR-Extension/Archive/Extensionv8/RefactoredExtension/src/content/environment-detection.js:136-150 | an accepted update overwrites environment, method and source and keeps the old org ID when the new one is falsy |
| `ContentV8.StrongDrUrlLands` | Genesys/Archive/App2-GenesysCloudDR-Extension/Archive/Extensionv8/RefactoredExtension/src/content/environment-detection.js:165-177 | a URL with a strong DR pattern leaves the environment dr |
| `ContentV8.StrongTestIsNotRecorded` | Genesys/Archive/App2-GenesysCloudDR-Extension/Archive/Extensionv8/RefactoredExtension/src/content/environment-detection.js:165-177 | a strong test pattern is returned but not recorded |
| `ContentV12.Detector.constructor` | Genesys/Archive/App2-GenesysCloudDR-Extension/Archive/Extensionv12/src/content/environment-detection.js:14-18 | every module variable starts null |
| `ContentV12.Detector.UpdateEnvironment` | Genesys/Archive/App2-GenesysCloudDR-Extension/Archive/Extensionv12/src/content/environment-detection.js:95-213 | the reported result and the new state are the `updateEnvironment` transition |
| `ContentV12.Detector.CheckCurrentUrlForEnvironment` | Genesys/Archive/App2-GenesysCloudDR-Extension/Archive/Extensionv12/src/content/environment-detection.js:220-255 | returns the strong result, else the detailed one; only a strong dr result updates, forced |
| `ContentV12.Detector.DetectEnvironment` | Genesys/Archive/App2-GenesysCloudDR-Extension/Archive/Extensionv12/src/content/environment-detection.js:261-334 | the result is the detectors' choice; a login page leaves the state alone |
| `ContentV12.MissingEnvironmentIsIgnored` | Genesys/Archive/App2-GenesysCloudDR-Extension/Archive/Extensionv12/src/content/environment-detection.js:96-98 | a result without an environment is refused and changes nothing |
| `ContentV12.DrOrgIdForcesDr` | Genesys/Archive/App2-GenesysCloudDR-Extension/Archive/Extensionv12/src/content/environment-detection.js:107-131 | the DR org ID forces dr and reports success, whatever else came with it |
| `ContentV12.ProdOrgIdForcesProd` | Genesys/Archive/App2-GenesysCloudDR-Extension/Archive/Extensionv12/src/content/environment-detection.js:134-157 | the production org ID forces prod and reports success |
| `ContentV12.EnvironmentIsLowercased` | Genesys/Archive/App2-GenesysCloudDR-Extension/Archive/Extensionv12/src/content/environment-detection.js:104 | a result and its lower-cased copy act alike |
| `ContentV12.EnvironmentStaysLower` | Genesys/Archive/App2-GenesysCloudDR-Extension/Archive/Extensionv12/src/content/environment-detection.js:104-212 | a lower-case recorded environment stays lower-case across updates |
| `ContentV12.OrgIdMethodReportsSuccess` | Genesys/Archive/App2-GenesysCloudDR-Extension/Archive/Extensionv12/src/content/environment-detection.js:160-185 | an Organization ID detection always reports success |
| `ContentV12.OrgIdMethodChangesOnlyOnDifference` | Genesys/Archive/App2-GenesysCloudDR-Extension/Archive/Extensionv12/src/content/environment-detection.js:160-185 | it changes the state only when the environment or the org ID differs |
| `ContentV12.OtherUpdatesNeedChangeOrForce` | Genesys/Archive/App2-GenesysCloudDR-Extension/Archive/Extensionv12/src/content/environment-detection.js:188-212 | any other detection applies exactly when the environment changes or the update is forced |
| `ContentV12.LoginPageIsUnknown` | Genesys/Archive/App2-GenesysCloudDR-Extension/Archive/Extensionv12/src/content/environment-detection.js:265-279 | a login page gives unknown at confidence 0 |
| `ContentV12.DrUrlResultWins` | Genesys/Archive/App2-GenesysCloudDR-Extension/Archive/Extensionv12/src/content/environment-detection.js:281-286 | off a login page a dr URL result wins over every other detector |
| `ContentV12.DetectorPriority` | Genesys/Archive/App2-GenesysCloudDR-Extension/Archive/Extensionv12/src/content/environment-detection.js:288-329 | otherwise an org-ID result wins (lower-cased), then the URL result, then the DOM result |
| `ContentV12.StrongDrUrlLands` | Genesys/Archive/App2-GenesysCloudDR-Extension/Archive/Extensionv12/src/content/environment-detection.js:230-234 | a strong dr URL result leaves the environment dr, or prod for the production org ID |
| `OrgIdMonitor.GuidShapeByPosition` | Genesys/Archive/App2-GenesysCloudDR-Extension/Extensionv8/RefactoredExtension/src/background/monitors/org-id-monitor.js:107 | the regular expression read group by group is the same check read character by character |
| `OrgIdMonitor.GuidIgnoresCase` | Genesys/Archive/App2-GenesysCloudDR-Extension/Extensionv8/RefactoredExtension/src/background/monitors/org-id-monitor.js:107 | under the `i` flag a string and its lower-cased copy are equally valid |
| `OrgIdMonitor.MappedIdsAreGuids` | Genesys/Archive/App2-GenesysCloudDR-Extension/Extensionv8/RefactoredExtension/src/background/monitors/org-id-monitor.js:14 | every ID of the initial mapping is a valid GUID |
| `OrgIdMonitor.Monitor.constructor` | Genesys/Archive/App2-GenesysCloudDR-Extension/Extensionv8/RefactoredExtension/src/background/monitors/org-id-monitor.js:11-15 | no tab is tracked and the mappings start as ORGANIZATION_MAPPINGS |
| `OrgIdMonitor.Monitor.ProcessOrganizationId` | Genesys/Archive/App2-GenesysCloudDR-Extension/Extensionv8/RefactoredExtension/src/background/monitors/org-id-monitor.js:52-80 | a non-empty valid mapped GUID is forwarded and its tab tracked; anything else gives null and changes nothing |
| `OrgIdMonitor.Monitor.TrackOrgIdForTab` | Genesys/Archive/App2-GenesysCloudDR-Extension/Extensionv8/RefactoredExtension/src/background/monitors/org-id-monitor.js:88-96 | the tab's record is replaced by the reported ID and source |
| `OrgIdMonitor.Monitor.GetOrgIdForTab` | Genesys/Archive/App2-GenesysCloudDR-Extension/Extensionv8/RefactoredExtension/src/background/monitors/org-id-monitor.js:116-119 | the tracked ID of the tab, null when untracked |
| `OrgIdMonitor.Monitor.GetAllTrackedOrgIds` | Genesys/Archive/App2-GenesysCloudDR-Extension/Extensionv8/RefactoredExtension/src/background/monitors/org-id-monitor.js:125-127 | all tab records |
| `OrgIdMonitor.Monitor.ClearOrgIdForTab` | Genesys/Archive/App2-GenesysCloudDR-Extension/Extensionv8/RefactoredExtension/src/background/monitors/org-id-monitor.js:133-138 | only that tab's record is removed |
| `OrgIdMonitor.Monitor.ClearAllTrackedOrgIds` | Genesys/Archive/App2-GenesysCloudDR-Extension/Extensionv8/RefactoredExtension/src/background/monitors/org-id-monitor.js:143-146 | every tab record is removed; the mappings stay |
| `OrgIdMonitor.Monitor.AddOrgMapping` | Genesys/Archive/App2-GenesysCloudDR-Extension/Extensionv8/RefactoredExtension/src/background/monitors/org-id-monitor.js:181-190 | true and inserted exactly for a valid GUID and dr, test or dev; otherwise false and unchanged |
| `OrgIdMonitor.EmptyIsNotGuid` | Genesys/Archive/App2-GenesysCloudDR-Extension/Extensionv8/RefactoredExtension/src/background/monitors/org-id-monitor.js:104 | the empty string is not a GUID |
| `OrgIdMonitor.GuidVersionAndVariant` | Genesys/Archive/App2-GenesysCloudDR-Extension/Extensionv8/RefactoredExtension/src/background/monitors/org-id-monitor.js:107 | a valid GUID has 36 characters, dashes at 8, 13, 18 and 23, version 1 to 5 and variant 8, 9, a or b |
| `OrgIdMonitor.BadVersionIsRejected` | Genesys/Archive/App2-GenesysCloudDR-Extension/Extensionv8/RefactoredExtension/src/background/monitors/org-id-monitor.js:107 | a version digit outside 1 to 5 is rejected |
| `OrgIdMonitor.RejectedIdTracksNothing` | Genesys/Archive/App2-GenesysCloudDR-Extension/Extensionv8/RefactoredExtension/src/background/monitors/org-id-monitor.js:53-69 | an empty, malformed or unmapped ID is not forwarded and tracks no tab |
| `OrgIdMonitor.ForwardsExactlyMappedGuids` | Genesys/Archive/App2-GenesysCloudDR-Extension/Extensionv8/RefactoredExtension/src/background/monitors/org-id-monitor.js:53-69 | with well-formed mappings exactly the valid mapped GUIDs are forwarded |
| `OrgIdMonitor.InitialMappingsForward` | Genesys/Archive/App2-GenesysCloudDR-Extension/Extensionv8/RefactoredExtension/src/background/monitors/org-id-monitor.js:53-69 | every ID of the initial mapping is forwarded |
| `OrgIdMonitor.TrackingNeedsTab` | Genesys/Archive/App2-GenesysCloudDR-Extension/Extensionv8/RefactoredExtension/src/background/monitors/org-id-monitor.js:73-76 | a tab is tracked only when a tab ID is given, and then reads back the ID |
| `OrgIdMonitor.TrackingIsPerTab` | Genesys/Archive/App2-GenesysCloudDR-Extension/Extensionv8/RefactoredExtension/src/background/monitors/org-id-monitor.js:88-93 | tracking one tab leaves the others' records alone |
| `OrgIdMonitor.ClearOnlyThatTab` | Genesys/Archive/App2-GenesysCloudDR-Extension/Extensionv8/RefactoredExtension/src/background/monitors/org-id-monitor.js:133-138 | a cleared tab reads back null and other tabs are unchanged |
| `OrgIdMonitor.EnvironmentTestsExclusive` | Genesys/Archive/App2-GenesysCloudDR-Extension/Extensionv8/RefactoredExtension/src/background/monitors/org-id-monitor.js:153-173 | at most one of isDrOrgId, isTestOrgId and isDevOrgId holds |
| `OrgIdMonitor.MappedIdHasOneEnvironment` | Genesys/Archive/App2-GenesysCloudDR-Extension/Extensionv8/RefactoredExtension/src/background/monitors/org-id-monitor.js:153-173 | with well-formed mappings a mapped ID passes one of the three tests |
| `OrgIdMonitor.AddedMappingIsUsed` | Genesys/Archive/App2-GenesysCloudDR-Extension/Extensionv8/RefactoredExtension/src/background/monitors/org-id-monitor.js:181-190 | an added mapping replaces any earlier one and the tests then report its environment |
| `OrgIdMonitor.InvalidMappingIsRejected` | Genesys/Archive/App2-GenesysCloudDR-Extension/Extensionv8/RefactoredExtension/src/background/monitors/org-id-monitor.js:182-185 | an invalid GUID or environment leaves the mappings alone |
| `OrgIdMonitor.AddKeepsMappingsWellFormed` | Genesys/Archive/App2-GenesysCloudDR-Extension/Extensionv8/RefactoredExtension/src/background/monitors/org-id-monitor.js:181-190 | the mappings stay dr, test or dev from the initial table through any additions |

## Left out

- Logging, badge and popup updates, and the messages sent to tabs (`chrome.tabs.sendMessage`) are left out: they are output only. The tab-cache updates that go with the messages are kept.
- Timestamps (`lastUpdated`, `lastDetectionTime`, the tracked org's `timestamp`, the unknown entry's `detected`) are left out because they come from a clock.
- Asynchronous ordering is left out. Storage callbacks and `await`s are modelled as if they ran at once and in program order, so interleaving with other events is not captured.
- `chrome.tabs.query` is not modelled. The tabs it reports are a parameter (`openTabs`).
- Parsing a URL (`new URL`, `urlparse`, `parseUrl`) is not modelled. Its outcome is a parameter.
- Lower-casing covers ASCII letters only. Case mapping beyond ASCII is not modelled.
- Floating-point confidences are modelled as whole hundredths, which is exact for every constant in the code.
- `initialize()` of the v12 service and of the monitor, and `initializeDetectionState` of both content scripts, are left out: they load storage, register listeners and start a first detection. The constructors start from the source's initial values and take storage as a parameter. The `chrome.runtime.onInstalled` handlers of the v4 and v8 background scripts are modelled only for their storage reload (`OnInstalled`); the listener registration and the reload of `lastDetectionTime` are left out.
- `detectEnvironment` of the v8 content script is the same function as the v12 content script's, which `ContentV12.DetectResult` models. It is not modelled a second time. The v12 content script's `getConfidenceLevel` serves only `resetAndRedetectEnvironment`, and is left out with it.
- `refreshEnvironmentDetection` of the v12 service is left out: it queries the active tabs, calls the modelled `checkUrlForEnvironment` on each and messages the content scripts.
- `getCurrentState` of the v12 service is left out: it returns the service's own fields (not storage), which `EnvironmentService.Service.Snapshot` already exposes, together with the detection time, which is not modelled.
- `processDetectionResult` of the v12 service (environment-service.js:732-797) is left out, and with it these behaviours of its own: it lower-cases the result's environment; on a prod result with an org ID it clears `currentEnvironment` so that the update goes through; unless forced, it skips a result for the current environment whose org ID is falsy or equals the stored one, and still notifies the result's tab when it skips; and after an accepted `updateEnvironment` it notifies every tab a second time.
- `resetAndRedetectEnvironment` and the badge updates after navigation in the content scripts are left out, because they only reset state and call the modelled detectors.
- The HTTP probe of detect.py (`requests.get`) is left out, and each endpoint's outcome is a parameter (`fetch`). The command-line demonstration at the end of the script is also left out.
- The v12 content script's URL, organization-ID and DOM detectors live in files that are not part of this model. Their results are parameters of `ContentV12.Detector.CheckCurrentUrlForEnvironment` and `ContentV12.Detector.DetectEnvironment`.
- The environment service that the monitor forwards accepted IDs to is not the v12 service modelled here. It is a parameter (`service`) of `OrgIdMonitor.Monitor.ProcessOrganizationId`.
- `OrgIdMonitor.Monitor.constructor`: the source starts `orgMappings` as the shared ORGANIZATION_MAPPINGS object itself, so `addOrgMapping` also mutates that constant for every other importer. The model copies the table, so this aliasing is not captured.
- `OrgIdMonitor.Monitor.GetAllTrackedOrgIds`: the source returns the monitor's live `Map` (org-id-monitor.js:125-127), so a caller that changes it changes the monitor's records. The model returns a copy of the records, so this aliasing is not captured.
- `V4Background.Background.SetOrganizationId`: `ORGANIZATION_MAPPINGS[orgId]` (background.js:588) also finds the keys every object inherits from `Object.prototype` ("constructor", "toString", "hasOwnProperty", "__proto__" and the like), so the source treats such an ID as mapped, with the inherited property as its environment. The model looks the ID up in the table's own entries only, and lists such an ID as unknown.
- `V4Background.UnknownIdIsListed`: for the same reason, an ID that is an inherited `Object.prototype` key is not listed by the source, although the lemma's precondition admits it.
- `EnvironmentService.Service.ProcessOrganizationId`: `ORGANIZATION_MAPPINGS[orgId]` (environment-service.js:367) also finds inherited `Object.prototype` keys, so the source passes such an ID on to `updateEnvironment` with the inherited property as its environment. The model returns null for it.
- `EnvironmentService.UnmappedOrgIdIsIgnored`: for the same reason, an ID that is an inherited `Object.prototype` key is not ignored by the source, although the lemma's precondition admits it.
- Arguments of the wrong JavaScript type (a non-string org ID, a missing detection result, a non-object JSON body in places other than the detect.py probe) are left out. Every argument is a string, an optional value or a detection.
- The `catch` branches that only log and return `null` or `false` are left out. The modelled code does not throw on the inputs the model admits, except for the URL-parse failures, which are modelled.
