/** The application configuration (src/config.ts). */
module Config {
  import opened Wrappers

  predicate EndsWithSlash(url: string) {
    |url| > 0 && url[|url| - 1] == '/'
  }

  /** `trimTrailingSlash`: drops exactly one trailing '/', if there is one. */
  function TrimTrailingSlash(url: string): (r: string)
    ensures EndsWithSlash(url) ==> r + "/" == url
    ensures !EndsWithSlash(url) ==> r == url
    ensures r == url[..|r|] && |url| - |r| <= 1
  {
    if EndsWithSlash(url) then url[..|url| - 1] else url
  }

  /** The base address used when `VITE_API_BASE_URL` is not set. */
  const DefaultApiBaseUrl: string := "http://localhost:5000"

  /** `config.apiBaseUrl`, from the value of `VITE_API_BASE_URL` (None when unset). */
  function ApiBaseUrl(env: Option<string>): (r: string)
    ensures env == None ==> r == DefaultApiBaseUrl
    ensures env.Some? ==> r == TrimTrailingSlash(env.value)
  {
    TrimTrailingSlash(env.GetOr(DefaultApiBaseUrl))
  }

  /** A trailing '/' survives only when the input ended with two of them ("x//" becomes "x/"). */
  lemma TrailingSlashSurvivesOnlyDoubled(url: string)
    ensures EndsWithSlash(TrimTrailingSlash(url)) <==> |url| >= 2 && url[|url| - 2..] == "//"
  {
    var r := TrimTrailingSlash(url);
    if |url| >= 2 && url[|url| - 2..] == "//" {
      assert url[|url| - 2] == '/';
    }
    if EndsWithSlash(r) {
      assert url[|url| - 2..] == [url[|url| - 2], url[|url| - 1]];
    }
  }

  /** The default base address has no trailing '/', so it is used as it is. */
  lemma DefaultApiBaseUrlUnchanged()
    ensures ApiBaseUrl(None) == "http://localhost:5000"
    ensures !EndsWithSlash(ApiBaseUrl(None))
  {
  }

  /** A configured base address never keeps a trailing '/' unless it was given two. */
  lemma ApiBaseUrlHasNoSingleTrailingSlash(env: string)
    requires !(|env| >= 2 && env[|env| - 2..] == "//")
    ensures !EndsWithSlash(ApiBaseUrl(Some(env)))
  {
    TrailingSlashSurvivesOnlyDoubled(env);
  }
}
