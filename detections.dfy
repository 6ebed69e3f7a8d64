/**
 * Values the JavaScript detectors exchange: detection results, organization
 * ID references (which distinguish `undefined` from `null`), and the
 * components of a parsed URL.
 */
module Detections {

  import opened Strings

  /**
   * The `orgId` of a detection result: the field is absent (`undefined`),
   * `null`, or a string. The state machines compare it with `=== null`
   * and `=== detectedOrgId`, which tell the first two apart.
   */
  datatype OrgRef = Missing | NullRef | Ref(id: string)
  {
    /** `if (orgId)`. */
    predicate IsTruthy() {
      Ref? && Truthy(id)
    }

    /** `orgId === stored`, where the stored ID is a string or `null`. */
    predicate SameAs(stored: Option<string>) {
      (NullRef? && stored.None?) || (Ref? && stored == Some(id))
    }

    /** `orgId || fallback`. */
    function OrElse(fallback: Option<string>): (r: Option<string>)
      ensures IsTruthy() ==> r == Some(id)
      ensures !IsTruthy() ==> r == fallback
    {
      if IsTruthy() then Some(id) else fallback
    }
  }

  /** `if (data[key]) field = data[key]`: a truthy stored value replaces the field, anything else keeps it. */
  function Restored(field: Option<string>, stored: map<string, string>, key: string): (r: Option<string>)
    ensures key in stored && Truthy(stored[key]) ==> r == Some(stored[key])
    ensures !(key in stored && Truthy(stored[key])) ==> r == field
  {
    if key in stored && Truthy(stored[key]) then Some(stored[key]) else field
  }

  /** A parameter declared `orgId = null`: an `undefined` argument arrives as `null`. */
  function NullByDefault(o: OrgRef): (r: OrgRef)
    ensures r != Missing
    ensures o != Missing ==> r == o
    ensures r.SameAs(None) <==> !o.Ref?
  {
    if o == Missing then NullRef else o
  }

  /** The `OrgRef` a stored ID is passed on as: the string, or `null`. */
  function RefOf(stored: Option<string>): (r: OrgRef)
    ensures r.SameAs(stored)
  {
    match stored
    case Some(id) => Ref(id)
    case None => NullRef
  }

  /**
   * A detection result `{environment, confidence, method, source, orgId, tabId}`.
   * An empty `environment` stands for a missing or empty one, a `confidence`
   * of 0 for a missing one.
   */
  datatype Detection = Detection(
    environment: string,
    confidence: nat,
    detectionMethod: string,
    source: string,
    orgId: OrgRef,
    tabId: Option<int>)

  /** A detector's result with no org ID and no tab, as the URL detectors build them. */
  function UrlResult(environment: string, confidence: nat, detectionMethod: string, source: string): (d: Detection)
    ensures d.orgId == Missing && d.tabId == None
    ensures d.environment == environment && d.confidence == confidence
    ensures d.detectionMethod == detectionMethod && d.source == source
  {
    Detection(environment, confidence, detectionMethod, source, Missing, None)
  }

  /** `if (tabId)`: a tab ID is present and non-zero. */
  predicate TabTruthy(tabId: Option<int>) {
    tabId.Some? && tabId.value != 0
  }

  /** The parts of `new URL(...)` the detectors read. */
  datatype UrlParts = UrlParts(hostname: string, pathname: string, hash: string)

  /** The outcome of `new URL(...)`: the parts, or the message of the exception it throws. */
  datatype ParseResult = Parsed(parts: UrlParts) | ParseError(message: string)

  /** `${hostname}${pathname}${hash}`. */
  function FullText(p: UrlParts): string {
    p.hostname + p.pathname + p.hash
  }

  /** A storage write of `value` under `key`; writing `null` or `undefined` leaves the key without a value. */
  function Store(m: map<string, string>, key: string, value: Option<string>): (r: map<string, string>)
    ensures value.Some? ==> key in r && r[key] == value.value
    ensures value.None? ==> key !in r
    ensures forall k :: k in m && k != key ==> k in r && r[k] == m[k]
    ensures forall k :: k in r && k != key ==> k in m
  {
    match value
    case Some(v) => m[key := v]
    case None => m - {key}
  }
}
