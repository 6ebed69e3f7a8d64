/**
 * `detectEnvironment(url)` of the test-navigation background script: one
 * chain of substring tests on the lower-cased URL, DR before TEST before
 * DEV, with a TEST default for other Genesys Cloud domains.
 */
module V9Background {

  import opened Strings

  const DrMarkers: seq<string> := [".dr.", "-dr.", "-dr-", "/dr/", "wawanesa-dr"]
  const TestMarkers: seq<string> := [".test.", "-test-", "wawanesa-test", "cac1.pure.cloud", "usw2.pure.cloud",
                                     "apps.mypurecloud.com.au", "apps.mypurecloud.jp"]
  const DevMarkers: seq<string> := [".dev.", "-dev-", "wawanesa-dev", "apps.inindca.com", "apps.inintca.com"]
  const GenesysDomains: seq<string> := ["pure.cloud", "mypurecloud.com", "genesyscloud.com"]

  /** The DR condition as written, with its login special case. */
  predicate IsDr(u: string) {
    AnyContained(u, DrMarkers) || (Contains(u, "login.mypurecloud.com") && Contains(u, "wawanesa-dr"))
  }

  /** The environment label of a URL, or `None` for `null`. */
  function DetectEnvironment(url: string): Option<string> {
    if !Truthy(url) then None
    else
      var u := ToLower(url);
      if IsDr(u) then Some("DR")
      else if AnyContained(u, TestMarkers) then Some("TEST")
      else if AnyContained(u, DevMarkers) then Some("DEV")
      else if AnyContained(u, GenesysDomains) then Some("TEST")
      else None
  }

  lemma FalsyUrlIsNull()
    ensures DetectEnvironment("") == None
  {
  }

  /** Every result is DR, TEST, DEV or null. */
  lemma ResultRange(url: string)
    ensures var r := DetectEnvironment(url);
      r == None || r == Some("DR") || r == Some("TEST") || r == Some("DEV")
  {
  }

  /** A DR marker decides DR, whatever TEST or DEV markers are also present. */
  lemma DrOutranksTestAndDev(url: string)
    requires AnyContained(ToLower(url), DrMarkers)
    ensures DetectEnvironment(url) == Some("DR")
  {
    var p :| p in DrMarkers && Contains(ToLower(url), p);
    ContainsLength(ToLower(url), p);
  }

  /** A TEST marker without a DR marker decides TEST, whatever DEV markers are present. */
  lemma TestOutranksDev(url: string)
    requires !AnyContained(ToLower(url), DrMarkers)
    requires AnyContained(ToLower(url), TestMarkers)
    ensures DetectEnvironment(url) == Some("TEST")
  {
    var p :| p in TestMarkers && Contains(ToLower(url), p);
    ContainsLength(ToLower(url), p);
  }

  /** The login special case adds nothing: it requires "wawanesa-dr", which is a DR marker on its own. */
  lemma LoginClauseIsSubsumed(u: string)
    ensures IsDr(u) <==> AnyContained(u, DrMarkers)
  {
    if Contains(u, "wawanesa-dr") {
      AnyContainedIndex(u, DrMarkers, 4);
    }
  }

  /** DEV needs a DEV marker and neither a DR nor a TEST marker. */
  lemma DevOnlyWithoutDrOrTest(url: string)
    requires DetectEnvironment(url) == Some("DEV")
    ensures AnyContained(ToLower(url), DevMarkers)
    ensures !IsDr(ToLower(url)) && !AnyContained(ToLower(url), TestMarkers)
  {
  }

  /** A DR result needs a DR marker in the URL. */
  lemma DrNeedsMarker(url: string)
    requires DetectEnvironment(url) == Some("DR")
    ensures AnyContained(ToLower(url), DrMarkers)
  {
    LoginClauseIsSubsumed(ToLower(url));
  }

  /** Matching is on the lower-cased URL. */
  lemma CaseInsensitive(url: string)
    ensures DetectEnvironment(ToLower(url)) == DetectEnvironment(url)
  {
    ToLowerIdempotent(url);
    ToLowerEmpty(url);
  }

  /** An otherwise unmatched Genesys Cloud domain defaults to TEST. */
  lemma GenesysDomainDefaultsToTest(url: string)
    requires !IsDr(ToLower(url)) && !AnyContained(ToLower(url), TestMarkers) && !AnyContained(ToLower(url), DevMarkers)
    requires AnyContained(ToLower(url), GenesysDomains)
    ensures DetectEnvironment(url) == Some("TEST")
  {
    var p :| p in GenesysDomains && Contains(ToLower(url), p);
    ContainsLength(ToLower(url), p);
  }

  /** A cac1.pure.cloud URL with no DR marker is TEST. */
  lemma Cac1IsTest(url: string)
    requires Contains(ToLower(url), "cac1.pure.cloud")
    requires !AnyContained(ToLower(url), DrMarkers)
    ensures DetectEnvironment(url) == Some("TEST")
  {
    AnyContainedIndex(ToLower(url), TestMarkers, 3);
    LoginClauseIsSubsumed(ToLower(url));
    TestOutranksDev(url);
  }

  /** A null result means no marker and no Genesys Cloud domain occurs (or the URL is empty). */
  lemma NullMeansUnrecognised(url: string)
    requires DetectEnvironment(url) == None && Truthy(url)
    ensures !AnyContained(ToLower(url), DrMarkers + TestMarkers + DevMarkers + GenesysDomains)
  {
    LoginClauseIsSubsumed(ToLower(url));
  }
}
