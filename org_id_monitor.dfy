/**
 * The organization-ID monitor of the version 8 refactored background
 * script: GUID validation, the org-ID-to-environment mapping (which
 * `addOrgMapping` extends), and the per-tab record of the last org ID each
 * tab reported. An accepted org ID is forwarded to the environment
 * service, whose answer is a parameter here (`service`).
 */
module OrgIdMonitor {

  import opened Strings
  import opened Tables
  import opened Detections

  // ---------------------------------------------------------------------
  // GUID validation

  /** `[0-9a-f]` under the `i` flag. */
  predicate HexChar(c: char) {
    '0' <= c <= '9' || 'a' <= c <= 'f' || 'A' <= c <= 'F'
  }

  predicate AllHex(s: string) {
    forall i :: 0 <= i < |s| ==> HexChar(s[i])
  }

  /**
   * The regular expression of `isValidGuid`, group by group:
   * 8-4-4-4-12 hexadecimal digits, the version digit 1 to 5 opening the
   * third group and the variant digit 8, 9, a or b opening the fourth.
   */
  predicate GuidShape(s: string) {
    |s| == 36
    && AllHex(s[..8]) && s[8] == '-'
    && AllHex(s[9..13]) && s[13] == '-'
    && '1' <= s[14] <= '5' && AllHex(s[15..18]) && s[18] == '-'
    && s[19] in "89abAB" && AllHex(s[20..23]) && s[23] == '-'
    && AllHex(s[24..])
  }

  /** `isValidGuid(str)`: false for an empty string, the regular expression otherwise. */
  predicate IsValidGuid(s: string) {
    Truthy(s) && GuidShape(s)
  }

  /** What the expression accepts at position `i` of a 36-character string. */
  predicate GuidCharAt(i: int, c: char) {
    if i == 8 || i == 13 || i == 18 || i == 23 then c == '-'
    else if i == 14 then '1' <= c <= '5'
    else if i == 19 then c in "89abAB"
    else HexChar(c)
  }

  /** The same check read character by character. */
  lemma GuidShapeByPosition(s: string)
    ensures GuidShape(s) <==> |s| == 36 && forall i :: 0 <= i < 36 ==> GuidCharAt(i, s[i])
  {
    if |s| == 36 && (forall i :: 0 <= i < 36 ==> GuidCharAt(i, s[i])) {
      assert forall i :: 0 <= i < 8 ==> s[..8][i] == s[i];
      assert forall i :: 0 <= i < 4 ==> s[9..13][i] == s[9 + i];
      assert forall i :: 0 <= i < 3 ==> s[15..18][i] == s[15 + i];
      assert forall i :: 0 <= i < 3 ==> s[20..23][i] == s[20 + i];
      assert forall i :: 0 <= i < 12 ==> s[24..][i] == s[24 + i];
    }
    if GuidShape(s) {
      forall i | 0 <= i < 36
        ensures GuidCharAt(i, s[i])
      {
        if i < 8 { assert s[..8][i] == s[i]; }
        else if 9 <= i < 13 { assert s[9..13][i - 9] == s[i]; }
        else if 15 <= i < 18 { assert s[15..18][i - 15] == s[i]; }
        else if 20 <= i < 23 { assert s[20..23][i - 20] == s[i]; }
        else if 24 <= i { assert s[24..][i - 24] == s[i]; }
      }
    }
  }

  /** The `i` flag makes the check case-insensitive. */
  lemma GuidIgnoresCase(s: string)
    ensures IsValidGuid(ToLower(s)) <==> IsValidGuid(s)
  {
    GuidShapeByPosition(s);
    GuidShapeByPosition(ToLower(s));
    ToLowerEmpty(s);
    forall i | 0 <= i < |s|
      ensures GuidCharAt(i, ToLower(s)[i]) <==> GuidCharAt(i, s[i])
    {
      GuidCharIgnoresCase(i, s[i]);
    }
  }

  lemma GuidCharIgnoresCase(i: int, c: char)
    ensures GuidCharAt(i, LowerChar(c)) <==> GuidCharAt(i, c)
  {
  }

  /** A string that passes the check at every position is a valid GUID. */
  lemma GuidByPositions(s: string)
    requires |s| == 36 && forall i :: 0 <= i < 36 ==> GuidCharAt(i, s[i])
    ensures IsValidGuid(s)
  {
    GuidShapeByPosition(s);
  }

  /** The dr ID of the initial mapping is a valid GUID. */
  lemma DrMappingIsGuid()
    ensures IsValidGuid("70af5856-802a-423a-b07a-5f420c8e325d")
  {
    assert forall i :: 0 <= i < 36 ==> GuidCharAt(i, "70af5856-802a-423a-b07a-5f420c8e325d"[i]);
    GuidByPositions("70af5856-802a-423a-b07a-5f420c8e325d");
  }

  /** The test ID of the initial mapping is a valid GUID. */
  lemma TestMappingIsGuid()
    ensures IsValidGuid(TestOrgId)
  {
    assert forall i :: 0 <= i < 36 ==> GuidCharAt(i, TestOrgId[i]);
    GuidByPositions(TestOrgId);
  }

  /** The dev ID of the initial mapping is a valid GUID. */
  lemma DevMappingIsGuid()
    ensures IsValidGuid("a7cbe8fc-fe81-47bc-bdd3-05a726c56c5a")
  {
    assert forall i :: 0 <= i < 36 ==> GuidCharAt(i, "a7cbe8fc-fe81-47bc-bdd3-05a726c56c5a"[i]);
    GuidByPositions("a7cbe8fc-fe81-47bc-bdd3-05a726c56c5a");
  }

  /** The organization IDs of the initial mapping are valid GUIDs. */
  lemma MappedIdsAreGuids()
    ensures forall id :: id in MonitorOrgMappings ==> IsValidGuid(id)
  {
    DrMappingIsGuid();
    TestMappingIsGuid();
    DevMappingIsGuid();
    assert MonitorOrgMappings.Keys == {"70af5856-802a-423a-b07a-5f420c8e325d", TestOrgId, "a7cbe8fc-fe81-47bc-bdd3-05a726c56c5a"};
  }

  // ---------------------------------------------------------------------
  // Mappings and tab records

  /** What `trackOrgIdForTab` records for a tab (the timestamp is dropped). */
  datatype TrackedOrg = TrackedOrg(orgId: string, source: string)

  /** `orgMappings[orgId]`, when there is an entry. */
  function MappedEnvironment(mappings: map<string, string>, orgId: string): Option<string> {
    if orgId in mappings then Some(mappings[orgId]) else None
  }

  predicate IsDrOrgId(mappings: map<string, string>, orgId: string) {
    MappedEnvironment(mappings, orgId) == Some("dr")
  }

  predicate IsTestOrgId(mappings: map<string, string>, orgId: string) {
    MappedEnvironment(mappings, orgId) == Some("test")
  }

  predicate IsDevOrgId(mappings: map<string, string>, orgId: string) {
    MappedEnvironment(mappings, orgId) == Some("dev")
  }

  /** The environments `addOrgMapping` accepts. */
  predicate KnownEnvironment(environment: string) {
    environment == "dr" || environment == "test" || environment == "dev"
  }

  /** Every mapped environment is dr, test or dev. */
  predicate MappingsWellFormed(mappings: map<string, string>) {
    forall id :: id in mappings ==> KnownEnvironment(mappings[id])
  }

  /** The guards of `processOrganizationId`: a non-empty valid GUID with a truthy mapping. */
  predicate Forwards(mappings: map<string, string>, orgId: string) {
    Truthy(orgId) && IsValidGuid(orgId) && orgId in mappings && Truthy(mappings[orgId])
  }

  /** The tab records after `processOrganizationId`: the tab is tracked when the ID is forwarded and a tab is given. */
  function TrackedAfter(tracked: map<int, TrackedOrg>, mappings: map<string, string>, orgId: string, source: string, tabId: Option<int>): map<int, TrackedOrg> {
    if Forwards(mappings, orgId) && TabTruthy(tabId) then tracked[tabId.value := TrackedOrg(orgId, source)] else tracked
  }

  /** `getOrgIdForTab(tabId)`. */
  function OrgIdForTab(tracked: map<int, TrackedOrg>, tabId: int): Option<string> {
    if tabId in tracked then Some(tracked[tabId].orgId) else None
  }

  /** The mappings after `addOrgMapping(orgId, environment)`. */
  function MappingsAfterAdd(mappings: map<string, string>, orgId: string, environment: string): map<string, string> {
    if IsValidGuid(orgId) && KnownEnvironment(environment) then mappings[orgId := environment] else mappings
  }

  class Monitor {
    var detectedOrgIds: map<int, TrackedOrg>
    var orgMappings: map<string, string>

    /** No tab is tracked; the mappings start as ORGANIZATION_MAPPINGS. */
    constructor ()
      ensures detectedOrgIds == map[] && orgMappings == MonitorOrgMappings
    {
      detectedOrgIds := map[];
      orgMappings := MonitorOrgMappings;
    }

    /** `processOrganizationId(orgId, source, tabId)`, with the environment service's answer given by `service`. */
    method ProcessOrganizationId(orgId: string, source: string, tabId: Option<int>,
                                 service: (string, string, Option<int>) -> Option<Detection>) returns (r: Option<Detection>)
      modifies this
      ensures r == if Forwards(old(orgMappings), orgId) then service(orgId, source, tabId) else None
      ensures detectedOrgIds == TrackedAfter(old(detectedOrgIds), old(orgMappings), orgId, source, tabId)
      ensures orgMappings == old(orgMappings)
    {
      if !Truthy(orgId) {
        return None;
      }
      if !IsValidGuid(orgId) {
        return None;
      }
      var environment := MappedEnvironment(orgMappings, orgId);
      if environment.None? || !Truthy(environment.value) {
        return None;
      }
      if TabTruthy(tabId) {
        TrackOrgIdForTab(tabId.value, orgId, source);
      }
      r := service(orgId, source, tabId);
    }

    /** `trackOrgIdForTab(tabId, orgId, source)`. */
    method TrackOrgIdForTab(tabId: int, orgId: string, source: string)
      modifies this
      ensures detectedOrgIds == old(detectedOrgIds)[tabId := TrackedOrg(orgId, source)]
      ensures orgMappings == old(orgMappings)
    {
      detectedOrgIds := detectedOrgIds[tabId := TrackedOrg(orgId, source)];
    }

    /** `getOrgIdForTab(tabId)`. */
    method GetOrgIdForTab(tabId: int) returns (r: Option<string>)
      ensures r == OrgIdForTab(detectedOrgIds, tabId)
    {
      if tabId in detectedOrgIds {
        return Some(detectedOrgIds[tabId].orgId);
      }
      return None;
    }

    /** `getAllTrackedOrgIds()`. */
    method GetAllTrackedOrgIds() returns (r: map<int, TrackedOrg>)
      ensures r == detectedOrgIds
    {
      r := detectedOrgIds;
    }

    /** `clearOrgIdForTab(tabId)`. */
    method ClearOrgIdForTab(tabId: int)
      modifies this
      ensures detectedOrgIds == old(detectedOrgIds) - {tabId}
      ensures orgMappings == old(orgMappings)
    {
      if tabId in detectedOrgIds {
        detectedOrgIds := detectedOrgIds - {tabId};
      }
    }

    /** `clearAllTrackedOrgIds()`. */
    method ClearAllTrackedOrgIds()
      modifies this
      ensures detectedOrgIds == map[]
      ensures orgMappings == old(orgMappings)
    {
      detectedOrgIds := map[];
    }

    /** `addOrgMapping(orgId, environment)`: false for an invalid GUID or an environment outside dr, test and dev. */
    method AddOrgMapping(orgId: string, environment: string) returns (ok: bool)
      modifies this
      ensures ok == (IsValidGuid(orgId) && KnownEnvironment(environment))
      ensures orgMappings == MappingsAfterAdd(old(orgMappings), orgId, environment)
      ensures detectedOrgIds == old(detectedOrgIds)
    {
      if !IsValidGuid(orgId) || !(environment == "dr" || environment == "test" || environment == "dev") {
        return false;
      }
      orgMappings := orgMappings[orgId := environment];
      return true;
    }
  }

  // ---------------------------------------------------------------------
  // Properties

  /** The empty string is not a GUID. */
  lemma EmptyIsNotGuid()
    ensures !IsValidGuid("")
  {
  }

  /** A valid GUID has 36 characters, a version digit 1 to 5 and a variant digit 8, 9, a or b. */
  lemma GuidVersionAndVariant(s: string)
    requires IsValidGuid(s)
    ensures |s| == 36 && '1' <= s[14] <= '5' && s[19] in "89abAB"
    ensures s[8] == '-' && s[13] == '-' && s[18] == '-' && s[23] == '-'
  {
  }

  /** A version digit outside 1 to 5 is rejected. */
  lemma BadVersionIsRejected(s: string)
    requires |s| == 36 && !('1' <= s[14] <= '5')
    ensures !IsValidGuid(s)
  {
  }

  /** An empty, malformed or unmapped ID is not forwarded and no tab is tracked. */
  lemma RejectedIdTracksNothing(tracked: map<int, TrackedOrg>, mappings: map<string, string>, orgId: string, source: string, tabId: Option<int>)
    requires !Truthy(orgId) || !IsValidGuid(orgId) || orgId !in mappings
    ensures !Forwards(mappings, orgId)
    ensures TrackedAfter(tracked, mappings, orgId, source, tabId) == tracked
  {
  }

  /** With well-formed mappings, exactly the valid mapped GUIDs are forwarded. */
  lemma ForwardsExactlyMappedGuids(mappings: map<string, string>, orgId: string)
    requires MappingsWellFormed(mappings)
    ensures Forwards(mappings, orgId) <==> IsValidGuid(orgId) && orgId in mappings
  {
  }

  /** Every ID of the initial mapping is forwarded. */
  lemma InitialMappingsForward(orgId: string)
    requires orgId in MonitorOrgMappings
    ensures Forwards(MonitorOrgMappings, orgId)
  {
    MappedIdsAreGuids();
  }

  /** A tab is tracked only when a tab ID is given; the record is what was reported. */
  lemma TrackingNeedsTab(tracked: map<int, TrackedOrg>, mappings: map<string, string>, orgId: string, source: string, tabId: Option<int>)
    requires Forwards(mappings, orgId)
    ensures !TabTruthy(tabId) ==> TrackedAfter(tracked, mappings, orgId, source, tabId) == tracked
    ensures TabTruthy(tabId) ==> OrgIdForTab(TrackedAfter(tracked, mappings, orgId, source, tabId), tabId.value) == Some(orgId)
  {
  }

  /** Tracking one tab leaves the others' records alone. */
  lemma TrackingIsPerTab(tracked: map<int, TrackedOrg>, mappings: map<string, string>, orgId: string, source: string, tabId: Option<int>, other: int)
    requires !(TabTruthy(tabId) && tabId.value == other)
    ensures OrgIdForTab(TrackedAfter(tracked, mappings, orgId, source, tabId), other) == OrgIdForTab(tracked, other)
  {
  }

  /** An untracked tab has no org ID; clearing a tab makes it untracked and leaves the others alone. */
  lemma ClearOnlyThatTab(tracked: map<int, TrackedOrg>, tabId: int, other: int)
    requires other != tabId
    ensures OrgIdForTab(tracked - {tabId}, tabId) == None
    ensures OrgIdForTab(tracked - {tabId}, other) == OrgIdForTab(tracked, other)
  {
  }

  /** At most one of isDrOrgId, isTestOrgId and isDevOrgId holds. */
  lemma EnvironmentTestsExclusive(mappings: map<string, string>, orgId: string)
    ensures !(IsDrOrgId(mappings, orgId) && IsTestOrgId(mappings, orgId))
    ensures !(IsDrOrgId(mappings, orgId) && IsDevOrgId(mappings, orgId))
    ensures !(IsTestOrgId(mappings, orgId) && IsDevOrgId(mappings, orgId))
  {
  }

  /** With well-formed mappings, a mapped ID passes exactly one of the three tests. */
  lemma MappedIdHasOneEnvironment(mappings: map<string, string>, orgId: string)
    requires MappingsWellFormed(mappings) && orgId in mappings
    ensures IsDrOrgId(mappings, orgId) || IsTestOrgId(mappings, orgId) || IsDevOrgId(mappings, orgId)
  {
  }

  /** A valid mapping is inserted (replacing any earlier one) and the tests then report its environment. */
  lemma AddedMappingIsUsed(mappings: map<string, string>, orgId: string, environment: string)
    requires IsValidGuid(orgId) && KnownEnvironment(environment)
    ensures var m := MappingsAfterAdd(mappings, orgId, environment);
      MappedEnvironment(m, orgId) == Some(environment)
      && (IsDrOrgId(m, orgId) <==> environment == "dr")
      && (IsTestOrgId(m, orgId) <==> environment == "test")
      && (IsDevOrgId(m, orgId) <==> environment == "dev")
      && Forwards(m, orgId)
  {
  }

  /** An invalid GUID or environment leaves the mappings alone. */
  lemma InvalidMappingIsRejected(mappings: map<string, string>, orgId: string, environment: string)
    requires !IsValidGuid(orgId) || !KnownEnvironment(environment)
    ensures MappingsAfterAdd(mappings, orgId, environment) == mappings
  {
  }

  /** The mappings stay well-formed from the initial table through any additions. */
  lemma AddKeepsMappingsWellFormed(mappings: map<string, string>, orgId: string, environment: string)
    requires MappingsWellFormed(mappings)
    ensures MappingsWellFormed(MappingsAfterAdd(mappings, orgId, environment))
    ensures MappingsWellFormed(MonitorOrgMappings)
  {
  }
}
