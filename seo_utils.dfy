/** The site-URL fallbacks used for metadata. Whether `new URL(s)` accepts
    `s` is the input predicate `isValidUrl`. */
module SeoUtils {
  import opened Wrappers
  import opened Text

  const DEFAULT_BASE_URL := "http://localhost:3000"

  /** `getBaseUrl()` given `NEXT_PUBLIC_SITE_URL`: the value itself, not
      trimmed, when it is set, not blank and a valid URL; the development
      address otherwise. */
  function GetBaseUrl(siteUrl: Option<string>, isValidUrl: string -> bool): (r: string)
    ensures siteUrl.None? || IsBlank(siteUrl.value) ==> r == DEFAULT_BASE_URL
    ensures siteUrl.Some? && !IsBlank(siteUrl.value) && isValidUrl(siteUrl.value) ==> r == siteUrl.value
    ensures siteUrl.Some? && !IsBlank(siteUrl.value) && !isValidUrl(siteUrl.value) ==> r == DEFAULT_BASE_URL
  {
    if siteUrl.None? || |siteUrl.value| == 0 || IsBlank(siteUrl.value) then DEFAULT_BASE_URL
    else if isValidUrl(siteUrl.value) then siteUrl.value
    else DEFAULT_BASE_URL
  }

  /** The base URL is always the configured value or the default, and it is
      a valid URL whenever the default is. */
  lemma BaseUrlIsInputOrDefault(siteUrl: Option<string>, isValidUrl: string -> bool)
    ensures var r := GetBaseUrl(siteUrl, isValidUrl);
            r == DEFAULT_BASE_URL || (siteUrl.Some? && r == siteUrl.value && !IsBlank(r))
    ensures isValidUrl(DEFAULT_BASE_URL) ==> isValidUrl(GetBaseUrl(siteUrl, isValidUrl))
  {
  }

  /** `createSafeUrl(url, defaultUrl)`: the URL parsed from `url` when it is
      set, not blank and valid, else the one parsed from `defaultUrl`
      (`http://localhost:3000` when not given). Parsing an invalid default
      throws, which is the `Failure` case. */
  function CreateSafeUrl(url: Option<string>, defaultUrl: Option<string>,
                         isValidUrl: string -> bool): (r: Result<string>)
    ensures var fallback := defaultUrl.GetOr(DEFAULT_BASE_URL);
            (url.None? || IsBlank(url.value) ==>
               r == if isValidUrl(fallback) then Success(fallback) else Failure("Invalid URL")) &&
            (url.Some? && !IsBlank(url.value) && isValidUrl(url.value) ==> r == Success(url.value)) &&
            (url.Some? && !IsBlank(url.value) && !isValidUrl(url.value) ==>
               r == if isValidUrl(fallback) then Success(fallback) else Failure("Invalid URL"))
    ensures r.Success? ==> isValidUrl(r.value)
  {
    var fallback := defaultUrl.GetOr(DEFAULT_BASE_URL);
    if url.None? || |url.value| == 0 || IsBlank(url.value) then ParseUrl(fallback, isValidUrl)
    else if isValidUrl(url.value) then Success(url.value)
    else ParseUrl(fallback, isValidUrl)
  }

  /** `new URL(s)`: succeeds exactly on valid URLs. */
  function ParseUrl(s: string, isValidUrl: string -> bool): (r: Result<string>)
    ensures r.Success? <==> isValidUrl(s)
    ensures r.Success? ==> r.value == s
  {
    if isValidUrl(s) then Success(s) else Failure("Invalid URL")
  }

  /** A safe URL is always the input or the default. */
  lemma SafeUrlIsInputOrDefault(url: Option<string>, defaultUrl: Option<string>, isValidUrl: string -> bool)
    ensures var r := CreateSafeUrl(url, defaultUrl, isValidUrl);
            r.Success? ==> r.value == defaultUrl.GetOr(DEFAULT_BASE_URL) || (url.Some? && r.value == url.value)
  {
  }
}
