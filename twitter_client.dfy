/**
 * `with_twitter_client`: the decorator that builds the API client for each
 * invocation of an action. Its `api_version` is a variable of the enclosing
 * scope (`nonlocal`): when the decorator was created without one, the first
 * invocation chooses "1.1" or "2" from the `v2` flag and that choice sticks for
 * every later invocation. Building the client itself is not modelled.
 */
module TwitterClient {
  import opened Wrappers

  datatype ApiVersion = Version1_1 | Version2

  /** `"1.1" if not v2_flag else "2"` */
  function VersionForFlag(v2Flag: bool): ApiVersion {
    if v2Flag then Version2 else Version1_1
  }

  class WithTwitterClient {
    /** The decorator's `api_version`, `None` until it is chosen. */
    var apiVersion: Option<ApiVersion>

    constructor (apiVersion: Option<ApiVersion>)
      ensures this.apiVersion == apiVersion
    {
      this.apiVersion := apiVersion;
    }

    /**
     * One invocation of the wrapped action; `v2Attr` is the `v2` attribute of
     * the arguments, `None` when they have none (`getattr(..., False)`).
     * Returns the version the client is built with.
     */
    method Wrapper(v2Attr: Option<bool>) returns (used: ApiVersion)
      modifies this
      ensures old(apiVersion).Some? ==> used == old(apiVersion).value
      ensures old(apiVersion).None? ==> used == VersionForFlag(v2Attr.GetOr(false))
      ensures apiVersion == Some(used)
    {
      var v2Flag := v2Attr.GetOr(false);
      if apiVersion.None? {
        apiVersion := Some(VersionForFlag(v2Flag));
      }
      used := apiVersion.value;
    }
  }

  /**
   * Invoking one decorated action several times: every invocation uses the
   * version given to the decorator, or else the one chosen by the FIRST
   * invocation's flag; later flags are ignored.
   */
  method Invocations(apiVersion: Option<ApiVersion>, v2Attrs: seq<Option<bool>>) returns (used: seq<ApiVersion>)
    ensures |used| == |v2Attrs|
    ensures forall k :: 0 <= k < |used| ==>
              used[k] == (if apiVersion.Some? then apiVersion.value else VersionForFlag(v2Attrs[0].GetOr(false)))
  {
    var decorated := new WithTwitterClient(apiVersion);
    used := [];
    for k := 0 to |v2Attrs|
      invariant |used| == k
      invariant k > 0 ==> decorated.apiVersion == Some(if apiVersion.Some? then apiVersion.value else VersionForFlag(v2Attrs[0].GetOr(false)))
      invariant k == 0 ==> decorated.apiVersion == apiVersion
      invariant forall j :: 0 <= j < k ==>
                  used[j] == (if apiVersion.Some? then apiVersion.value else VersionForFlag(v2Attrs[0].GetOr(false)))
    {
      var v := decorated.Wrapper(v2Attrs[k]);
      used := used + [v];
    }
  }
}
