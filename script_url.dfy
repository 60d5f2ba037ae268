/** The address of the library script, derived from the configured backend API address. */
module ScriptUrl {

  /** Path of the library script below the backend origin. */
  const AssetPath: string := "/assets/opencv.js"

  /** Number of characters `slice(0, -7)` drops from the end of the backend API address. */
  const ApiSuffixLength: nat := 7

  /**
   * JavaScript's `s.slice(0, -n)` for `n > 0`: all of `s` except its last `n`
   * characters, and the empty string when `s` has fewer than `n` characters.
   */
  function DropLast(s: string, n: nat): (r: string)
    requires n > 0
    ensures |r| == if |s| >= n then |s| - n else 0
    ensures r <= s
  {
    if |s| >= n then s[..|s| - n] else ""
  }

  /** The module constant `baseURL`. */
  function BaseUrl(backendAPI: string): (r: string)
    ensures r <= backendAPI
    ensures |backendAPI| >= ApiSuffixLength ==> r + backendAPI[|r|..] == backendAPI && |backendAPI[|r|..]| == ApiSuffixLength
    ensures |backendAPI| < ApiSuffixLength ==> r == ""
  {
    DropLast(backendAPI, ApiSuffixLength)
  }

  /** The `src` attribute of the injected script element. */
  function Url(backendAPI: string): (url: string)
  {
    BaseUrl(backendAPI) + AssetPath
  }

  /** An API address made of an origin and a seven-character suffix (such as "/api/v1") yields origin + AssetPath. */
  lemma UrlOfApiAddress(origin: string, suffix: string)
    requires |suffix| == ApiSuffixLength
    ensures Url(origin + suffix) == origin + AssetPath
  {
  }

  /** An API address too short to hold the suffix yields the bare asset path. */
  lemma UrlOfShortAddress(backendAPI: string)
    requires |backendAPI| < ApiSuffixLength
    ensures Url(backendAPI) == AssetPath
  {
  }
}
