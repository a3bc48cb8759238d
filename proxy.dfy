/** The request proxy: the authentication middleware, then the session
    refresh, then the locale middleware, the first two short-circuiting on
    a redirect (statuses 301, 302, 307 and 308 of sections 15.4.2, 15.4.3,
    15.4.8 and 15.4.9 of RFC 9110). */
module Proxy {

  datatype Handler = Clerk | Supabase | Intl

  /** What one request does: the handlers run, in order, and the one whose
      response is returned. */
  datatype Dispatch = Dispatch(ran: seq<Handler>, returned: Handler)

  /** The statuses the authentication response is passed through on. */
  predicate ClerkRedirects(status: int) {
    status == 307 || status == 308 || status == 301 || status == 302
  }

  /** The statuses the session response is passed through on. */
  predicate SupabaseRedirects(status: int) {
    status == 307 || status == 308
  }

  /** `proxy(request)`, given the statuses the first two handlers answer with.
      `supabaseStatus` is only looked at when the session handler runs. */
  function Proxy(clerkStatus: int, supabaseStatus: int): (d: Dispatch)
    ensures ClerkRedirects(clerkStatus) ==> d == Dispatch([Clerk], Clerk)
    ensures !ClerkRedirects(clerkStatus) && SupabaseRedirects(supabaseStatus) ==>
              d == Dispatch([Clerk, Supabase], Supabase)
    ensures !ClerkRedirects(clerkStatus) && !SupabaseRedirects(supabaseStatus) ==>
              d == Dispatch([Clerk, Supabase, Intl], Intl)
  {
    if ClerkRedirects(clerkStatus) then Dispatch([Clerk], Clerk)
    else if SupabaseRedirects(supabaseStatus) then Dispatch([Clerk, Supabase], Supabase)
    else Dispatch([Clerk, Supabase, Intl], Intl)
  }

  /** The handlers always run as a prefix of Clerk, Supabase, Intl, and the
      response returned is the last handler's. */
  lemma ProxyRunsInOrder(clerkStatus: int, supabaseStatus: int)
    ensures var d := Proxy(clerkStatus, supabaseStatus);
            1 <= |d.ran| <= 3 && d.ran == [Clerk, Supabase, Intl][..|d.ran|] &&
            d.returned == d.ran[|d.ran| - 1]
  {
  }

  /** A permanent or found redirect from the session handler does not stop
      the chain: the locale response is returned. */
  lemma SupabaseMovedFallsThrough(clerkStatus: int, supabaseStatus: int)
    requires !ClerkRedirects(clerkStatus)
    requires supabaseStatus == 301 || supabaseStatus == 302
    ensures Proxy(clerkStatus, supabaseStatus).returned == Intl
  {
  }

  /** Once the authentication handler redirects, the session status is irrelevant. */
  lemma ClerkRedirectIgnoresLaterHandlers(clerkStatus: int, s1: int, s2: int)
    requires ClerkRedirects(clerkStatus)
    ensures Proxy(clerkStatus, s1) == Proxy(clerkStatus, s2)
  {
  }
}
