/** The robots file: one rule for every crawler, the sitemap address, and the host. */
module Robots {
  import opened Wrappers
  import opened SiteConfig

  datatype Rule = Rule(userAgent: string, allow: seq<string>, disallow: seq<string>)

  datatype RobotsFile = RobotsFile(rules: seq<Rule>, sitemap: string, host: string)

  const AllowPaths := ["/", "/sign-in", "/sign-up", "/u/"]
  const DisallowPaths := ["/dashboard", "/api/", "/verify"]

  /** `url.replace(/^https?:\/\//, '')`: one leading scheme, matched case-sensitively, is removed. */
  function StripScheme(url: string): (r: string)
    ensures "https://" <= url ==> url == "https://" + r
    ensures "http://" <= url ==> url == "http://" + r
    ensures !("http://" <= url) && !("https://" <= url) ==> r == url
  {
    if "https://" <= url then
      assert url[4] == 's' && "http://"[4] == ':';
      assert url == url[..8] + url[8..];
      url[8..]
    else if "http://" <= url then
      assert url == url[..7] + url[7..];
      url[7..]
    else url
  }

  function Robots(baseUrlEnv: Option<string>): (r: RobotsFile)
    ensures |r.rules| == 1 && r.rules[0].userAgent == "*"
    ensures |r.rules[0].allow| == 4 && |r.rules[0].disallow| == 3
    ensures forall p :: p in r.rules[0].allow ==> p !in r.rules[0].disallow
    ensures r.sitemap == BaseUrl(baseUrlEnv) + "/sitemap.xml"
    ensures r.host == StripScheme(BaseUrl(baseUrlEnv))
  {
    var baseUrl := BaseUrl(baseUrlEnv);
    RobotsFile([Rule("*", AllowPaths, DisallowPaths)], baseUrl + "/sitemap.xml", StripScheme(baseUrl))
  }

  /** Only one scheme is stripped, even when the rest starts with another. */
  lemma StripsOneScheme(rest: string)
    ensures StripScheme("https://" + rest) == rest
    ensures StripScheme("http://" + rest) == rest
  {
  }

  /** The match is case-sensitive: an upper-case scheme stays. */
  lemma UpperCaseSchemeKept(rest: string)
    ensures StripScheme("HTTP://" + rest) == "HTTP://" + rest
  {
  }

  /** Without a base URL setting the host is the local development address. */
  lemma DefaultHost()
    ensures Robots(None).host == "localhost:3000"
  {
  }
}
