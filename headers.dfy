/**
 * Header objects: the initial common headers of a connector and the
 * merge-then-drop-undefined rule of `updateHeaders`.
 */
module Headers {
  import opened Js

  /** A header object. A key may be present with the value `undefined`
      (`None`): spreading `{ k: undefined }` keeps the key. */
  type HeaderMap = map<string, Option<string>>

  const JsonType := "application/json"

  /** `DEFAULT_HEADERS`. */
  const DefaultHeaders: HeaderMap := map["Accept" := Some(JsonType), "Content-Type" := Some(JsonType)]

  /** `{ ...DEFAULT_HEADERS, ...(apiKey ? { 'X-ApiKey': apiKey } : undefined), ...inputHeaders }`:
      a custom header wins over the API key, which wins over the defaults. */
  function InitialHeaders(apiKey: Option<string>, custom: HeaderMap): (h: HeaderMap)
    ensures forall k :: k in custom ==> k in h && h[k] == custom[k]
    ensures forall k :: k !in custom ==>
      (k in h <==> k == "Accept" || k == "Content-Type" || (k == "X-ApiKey" && Truthy(apiKey)))
    ensures "Accept" !in custom ==> h["Accept"] == Some(JsonType)
    ensures "Content-Type" !in custom ==> h["Content-Type"] == Some(JsonType)
    ensures "X-ApiKey" !in custom && Truthy(apiKey) ==> h["X-ApiKey"] == apiKey
  {
    var withKey := if Truthy(apiKey) then DefaultHeaders["X-ApiKey" := apiKey] else DefaultHeaders;
    withKey + custom
  }

  /** `{ ...common, ...update }`: every key of either, the update's value winning. */
  function Merged(common: HeaderMap, update: HeaderMap): (m: HeaderMap)
  {
    common + update
  }

  /** The entries of `m` whose value is defined. */
  function Defined(m: HeaderMap): (r: HeaderMap)
    ensures forall k :: k in r <==> k in m && m[k].Some?
    ensures forall k :: k in r ==> r[k] == m[k]
  {
    map k | k in m && m[k].Some? :: m[k]
  }

  /**
   * `Object.keys(h).forEach(key => h[key] === undefined && delete h[key])`:
   * visits each key once and deletes it when its value is undefined.
   */
  method DropUndefined(m: HeaderMap) returns (r: HeaderMap)
    ensures r == Defined(m)
  {
    r := m;
    var keys := m.Keys;
    while keys != {}
      invariant keys <= m.Keys
      invariant forall k :: k in r <==> k in m && (k in keys || m[k].Some?)
      invariant forall k :: k in r ==> r[k] == m[k]
      decreases |keys|
    {
      var k :| k in keys;
      if r[k].None? {
        r := r - {k};
      }
      keys := keys - {k};
    }
    assert r == Defined(m);
  }

  /** The header object `updateHeaders` installs: the merge with its undefined
      entries dropped. */
  function Updated(common: HeaderMap, update: HeaderMap): (r: HeaderMap)
    ensures forall k :: k in update && update[k].Some? ==> k in r && r[k] == update[k]
    ensures forall k :: k in update && update[k].None? ==> k !in r
    ensures forall k :: k !in update ==> (k in r <==> k in common && common[k].Some?)
    ensures forall k :: k !in update && k in r ==> r[k] == common[k]
    ensures forall k :: k in r ==> r[k].Some?
  {
    Defined(Merged(common, update))
  }

  /** Applying the same update twice leaves the headers as applying it once. */
  lemma {:induction false} UpdateIdempotent(common: HeaderMap, update: HeaderMap)
    ensures Updated(Updated(common, update), update) == Updated(common, update)
  {
    var once := Updated(common, update);
    var twice := Updated(once, update);
    assert forall k :: k in twice <==> k in once;
  }

  /** An update that mentions no key only drops the undefined entries, and
      leaves a header object without undefined entries as it is. */
  lemma {:induction false} EmptyUpdateKeepsDefined(common: HeaderMap)
    requires forall k :: k in common ==> common[k].Some?
    ensures Updated(common, map[]) == common
  {
    assert forall k :: k in Updated(common, map[]) <==> k in common;
  }
}
