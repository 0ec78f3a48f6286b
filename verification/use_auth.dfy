/** The `useAuth` hook (application/frontend/src/utils/useAuth.js): state
    that starts false and is set once, by a mount effect, from the stored
    token. */
module UseAuth {

  import opened Text
  import opened Api

  /** Whether the mount effect has run, and the hook's value. */
  datatype AuthHook = AuthHook(mounted: bool, isAuthenticated: bool)

  /** The first render, before effects run. */
  const Initial := AuthHook(false, false)

  /** The effect, with an empty dependency list: it runs on the first
      commit only, and reads the store then. */
  function Mount(h: AuthHook, store: TokenStore): (r: AuthHook)
    ensures r.mounted
    ensures !h.mounted ==> (r.isAuthenticated <==> Truthy(store))
    ensures h.mounted ==> r == h
  {
    if h.mounted then h else AuthHook(true, Truthy(store))
  }

  /** The value is false before mount, and a token written or removed
      after mount is not seen. */
  lemma ReadOnce(before: TokenStore, after: TokenStore)
    ensures !Initial.isAuthenticated
    ensures Mount(Mount(Initial, before), after) == Mount(Initial, before)
  {
  }

  /** The hook reports authenticated exactly when the interceptor would
      add an `Authorization` header to a request made at mount. */
  lemma AgreesWithInterceptor(store: TokenStore, req: Request)
    requires Authorization !in req.headers
    ensures Mount(Initial, store).isAuthenticated <==> Authorization in Intercept(req, store).headers
  {
  }
}
