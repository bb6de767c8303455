/** Tenants ("apps") as the two filters see them. */
module Apps {
  import opened Wrappers

  /**
   * An app and the three keys the filters read from it: `getId()` (the key of the app
   * object itself and the `appid` claim of its tokens), `getAppid()` (the partition the
   * term queries run in) and `getAppIdentifier()` (the partition users are read from and
   * the `APP_ID` response header).
   */
  datatype App = App(id: string, appid: string, identifier: string)

  /** `App.isRoot`: no app id at all, or the root app's identifier. */
  predicate IsRoot(appid: Option<string>, rootAppIdentifier: string) {
    appid.None? || appid.value == rootAppIdentifier
  }

  /** The first element of `s` that satisfies `p`: `findTerms(…).get(0)`. */
  function First<T>(s: seq<T>, p: T -> bool): (r: Option<T>)
    ensures r.Some? ==> r.value in s && p(r.value)
    ensures r.None? <==> forall k :: 0 <= k < |s| ==> !p(s[k])
  {
    if s == [] then None
    else if p(s[0]) then Some(s[0])
    else First(s[1..], p)
  }
}
