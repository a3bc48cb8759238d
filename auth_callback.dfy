/** The OAuth callback route (`GET /auth/callback`): it exchanges the
    authorization code of section 4.1.2 of RFC 6749 for a session and
    chooses where to send the browser. The exchange, the environment and
    the request headers are inputs. */
module AuthCallback {
  import opened Wrappers
  import opened Text

  const ERROR_PATH := "/auth/auth-code-error"

  /** `next ?? '/'`, then anything that does not start with `/` becomes `/`:
      the target is always a path on this site. */
  function SanitizeNext(next: Option<string>): (r: string)
    ensures StartsWith(r, "/")
    ensures next.None? ==> r == "/"
    ensures next.Some? && StartsWith(next.value, "/") ==> r == next.value
    ensures next.Some? && !StartsWith(next.value, "/") ==> r == "/"
  {
    var next := next.GetOr("/");
    if !StartsWith(next, "/") then "/" else next
  }

  /** The redirect target of the callback.
      `exchangeSucceeds(code)` is whether `exchangeCodeForSession(code)`
      returned no error; it is consulted only when a code is present.
      `nodeEnv` is `NODE_ENV`; `forwardedHost` is the `x-forwarded-host` header. */
  function CallbackRedirect(origin: string, code: Option<string>, next: Option<string>,
                            exchangeSucceeds: string -> bool, nodeEnv: Option<string>,
                            forwardedHost: Option<string>): (r: string)
    ensures !Truthy(code) ==> r == origin + ERROR_PATH
    ensures Truthy(code) && !exchangeSucceeds(code.value) ==> r == origin + ERROR_PATH
    ensures Truthy(code) && exchangeSucceeds(code.value) && nodeEnv == Some("development") ==>
              r == origin + SanitizeNext(next)
    ensures Truthy(code) && exchangeSucceeds(code.value) && nodeEnv != Some("development") ==>
              (Truthy(forwardedHost) ==> r == "https://" + forwardedHost.value + SanitizeNext(next)) &&
              (!Truthy(forwardedHost) ==> r == origin + SanitizeNext(next))
  {
    var next := SanitizeNext(next);
    if Truthy(code) && exchangeSucceeds(code.value) then
      var isLocalEnv := nodeEnv == Some("development");
      if isLocalEnv then origin + next
      else if Truthy(forwardedHost) then "https://" + forwardedHost.value + next
      else origin + next
    else origin + ERROR_PATH
  }

  /** Whatever the inputs, the browser is sent to a path on the request's
      origin or on the forwarded host, never to a host taken from `next`. */
  lemma RedirectStaysOnSite(origin: string, code: Option<string>, next: Option<string>,
                            exchangeSucceeds: string -> bool, nodeEnv: Option<string>,
                            forwardedHost: Option<string>)
    ensures var r := CallbackRedirect(origin, code, next, exchangeSucceeds, nodeEnv, forwardedHost);
            exists path :: StartsWith(path, "/") &&
              (r == origin + path || (forwardedHost.Some? && r == "https://" + forwardedHost.value + path))
  {
    var r := CallbackRedirect(origin, code, next, exchangeSucceeds, nodeEnv, forwardedHost);
    if r == origin + ERROR_PATH {
      assert StartsWith(ERROR_PATH, "/");
    } else {
      assert StartsWith(SanitizeNext(next), "/");
    }
  }
}
