/** The environment settings the sitemap and robots files read. */
module SiteConfig {
  import opened Wrappers

  const DefaultBaseUrl := "http://localhost:3000"

  /** A JavaScript truthy environment value: set and not empty. */
  predicate Truthy(v: Option<string>) {
    v.Some? && v.value != ""
  }

  /** `process.env.NEXT_PUBLIC_BASE_URL || 'http://localhost:3000'`. */
  function BaseUrl(env: Option<string>): (r: string)
    ensures r != ""
    ensures Truthy(env) ==> r == env.value
    ensures !Truthy(env) ==> r == DefaultBaseUrl
  {
    if Truthy(env) then env.value else DefaultBaseUrl
  }

  /** `||` falls back on an empty value as on a missing one. */
  lemma EmptyBaseUrlFallsBack()
    ensures BaseUrl(Some("")) == BaseUrl(None) == DefaultBaseUrl
  {
  }
}
