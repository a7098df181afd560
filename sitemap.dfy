/**
 * The sitemap: four static routes, followed by one profile route per
 * verified account when a database is configured and the query succeeds.
 */
module Sitemap {
  import opened Wrappers
  import opened UserModel
  import opened SiteConfig
  import opened UriComponent

  datatype ChangeFrequency = Daily | Monthly

  /** A `priority` number literal, kept as the tenths it is written in (1 is 10, 0.9 is 9). */
  datatype Priority = Tenths(n: nat)

  datatype Entry = Entry(url: string, lastModified: int, changeFrequency: ChangeFrequency, priority: Priority)

  /** What `find({ isVerified: true })` meets: the collection, or a thrown error. */
  datatype UserQuery = Rows(docs: seq<Account>) | Throws

  /** The static routes; `now` is the `new Date()` of every entry. */
  function StaticRoutes(baseUrl: string, now: int): (r: seq<Entry>)
    ensures |r| == 4
    ensures r[0].url == baseUrl + "/" && r[1].url == baseUrl + "/dashboard"
    ensures r[2].url == baseUrl + "/sign-in" && r[3].url == baseUrl + "/sign-up"
  {
    [ Entry(baseUrl + "/", now, Daily, Tenths(10)),
      Entry(baseUrl + "/dashboard", now, Daily, Tenths(9)),
      Entry(baseUrl + "/sign-in", now, Monthly, Tenths(4)),
      Entry(baseUrl + "/sign-up", now, Monthly, Tenths(4)) ]
  }

  /** The profile entry of one user: the encoded name fills exactly one path segment after "/u/". */
  function ProfileRoute(baseUrl: string, username: string, now: int): (r: Entry)
    ensures |r.url| >= |baseUrl| + 3 + |username|
    ensures r.url[..|baseUrl| + 3] == baseUrl + "/u/"
    ensures forall k :: |baseUrl| + 3 <= k < |r.url| ==> r.url[k] != '/'
  {
    NoSlashAfterEncoding(username);
    Entry(baseUrl + "/u/" + EncodeURIComponent(username), now, Daily, Tenths(7))
  }

  /** `users.map(…)`. */
  function ProfileRoutes(baseUrl: string, users: seq<Account>, now: int): (r: seq<Entry>)
    ensures |r| == |users|
    ensures forall k :: 0 <= k < |r| ==> r[k] == ProfileRoute(baseUrl, users[k].username, now)
  {
    if |users| == 0 then [] else [ProfileRoute(baseUrl, users[0].username, now)] + ProfileRoutes(baseUrl, users[1..], now)
  }

  function IsVerified(d: Account): bool {
    d.isVerified
  }

  /** The verified accounts, in query order. */
  function VerifiedUsers(docs: seq<Account>): (r: seq<Account>)
    ensures forall k :: 0 <= k < |r| ==> r[k].isVerified && r[k] in docs
    ensures forall d :: d in docs && d.isVerified ==> d in r
  {
    Where(docs, IsVerified)
  }

  /** `map` distributes over concatenation. */
  lemma ProfileRoutesAppend(baseUrl: string, users: seq<Account>, more: seq<Account>, now: int)
    ensures ProfileRoutes(baseUrl, users + more, now) == ProfileRoutes(baseUrl, users, now) + ProfileRoutes(baseUrl, more, now)
  {
    var whole := ProfileRoutes(baseUrl, users + more, now);
    var parts := ProfileRoutes(baseUrl, users, now) + ProfileRoutes(baseUrl, more, now);
    assert |whole| == |parts|;
    forall k | 0 <= k < |whole|
      ensures whole[k] == parts[k]
    {
      if k >= |users| {
        assert (users + more)[k] == more[k - |users|];
      }
    }
  }

  /** The sitemap for the settings `baseUrlEnv` and `mongoUri`, built at time `now`. */
  function Sitemap(baseUrlEnv: Option<string>, mongoUri: Option<string>, query: UserQuery, now: int): (r: seq<Entry>)
    ensures |r| >= 4 && r[..4] == StaticRoutes(BaseUrl(baseUrlEnv), now)
    ensures !Truthy(mongoUri) || query.Throws? ==> r == StaticRoutes(BaseUrl(baseUrlEnv), now)
    ensures Truthy(mongoUri) && query.Rows? ==>
      var users := VerifiedUsers(query.docs);
      |r| == 4 + |users| &&
      forall k :: 0 <= k < |users| ==> r[4 + k] == ProfileRoute(BaseUrl(baseUrlEnv), users[k].username, now)
  {
    var baseUrl := BaseUrl(baseUrlEnv);
    var userRoutes :=
      if Truthy(mongoUri) && query.Rows? then ProfileRoutes(baseUrl, VerifiedUsers(query.docs), now) else [];
    StaticRoutes(baseUrl, now) + userRoutes
  }

  /** Profile entry 4 + k belongs to a verified account of the collection. */
  lemma ProfilesAreVerified(baseUrlEnv: Option<string>, mongoUri: Option<string>, docs: seq<Account>, now: int, k: nat)
    requires Truthy(mongoUri) && k < |VerifiedUsers(docs)|
    ensures exists d :: (d in docs && d.isVerified &&
      Sitemap(baseUrlEnv, mongoUri, Rows(docs), now)[4 + k].url == BaseUrl(baseUrlEnv) + "/u/" + EncodeURIComponent(d.username))
  {
    var users := VerifiedUsers(docs);
    assert users[k] in docs && IsVerified(users[k]);
  }

  /**
   * Profiles follow query order: a document added at the end of the
   * collection adds its profile entry at the end of the sitemap if it is
   * verified, and nothing otherwise.
   */
  lemma {:induction false} ProfilesInQueryOrder(baseUrlEnv: Option<string>, mongoUri: Option<string>, docs: seq<Account>,
                                                d: Account, now: int)
    requires Truthy(mongoUri)
    ensures Sitemap(baseUrlEnv, mongoUri, Rows(docs + [d]), now) ==
      Sitemap(baseUrlEnv, mongoUri, Rows(docs), now) +
      (if d.isVerified then [ProfileRoute(BaseUrl(baseUrlEnv), d.username, now)] else [])
  {
    var baseUrl := BaseUrl(baseUrlEnv);
    var last := if d.isVerified then [ProfileRoute(baseUrl, d.username, now)] else [];
    var fixed, before := StaticRoutes(baseUrl, now), ProfileRoutes(baseUrl, VerifiedUsers(docs), now);
    VerifiedProfilesAppend(baseUrl, docs, d, now);
    SitemapOfRows(baseUrlEnv, mongoUri, docs + [d], now);
    SitemapOfRows(baseUrlEnv, mongoUri, docs, now);
    assert fixed + (before + last) == (fixed + before) + last;
  }

  /** The profile entries of a collection with one more document: its entry is added last if it is verified. */
  lemma VerifiedProfilesAppend(baseUrl: string, docs: seq<Account>, d: Account, now: int)
    ensures ProfileRoutes(baseUrl, VerifiedUsers(docs + [d]), now) ==
      ProfileRoutes(baseUrl, VerifiedUsers(docs), now) +
      (if d.isVerified then [ProfileRoute(baseUrl, d.username, now)] else [])
  {
    WhereAppend(docs, [d], IsVerified);
    ProfileRoutesAppend(baseUrl, VerifiedUsers(docs), VerifiedUsers([d]), now);
    LastProfile(baseUrl, d, now);
  }

  /** With a database setting and rows, the sitemap is the static routes, then the verified users' profiles. */
  lemma SitemapOfRows(baseUrlEnv: Option<string>, mongoUri: Option<string>, docs: seq<Account>, now: int)
    requires Truthy(mongoUri)
    ensures Sitemap(baseUrlEnv, mongoUri, Rows(docs), now) ==
      StaticRoutes(BaseUrl(baseUrlEnv), now) + ProfileRoutes(BaseUrl(baseUrlEnv), VerifiedUsers(docs), now)
  {
  }

  /** The profiles of a one-document collection: its entry if verified, none otherwise. */
  lemma LastProfile(baseUrl: string, d: Account, now: int)
    ensures ProfileRoutes(baseUrl, VerifiedUsers([d]), now) ==
      if d.isVerified then [ProfileRoute(baseUrl, d.username, now)] else []
  {
    assert VerifiedUsers([d]) == if d.isVerified then [d] else [];
  }

  /** Every verified account gets a profile entry. */
  lemma EveryVerifiedListed(baseUrlEnv: Option<string>, mongoUri: Option<string>, docs: seq<Account>, now: int, d: Account)
    requires Truthy(mongoUri) && d in docs && d.isVerified
    ensures ProfileRoute(BaseUrl(baseUrlEnv), d.username, now) in Sitemap(baseUrlEnv, mongoUri, Rows(docs), now)
  {
  }

  /** A name of word characters and dots appears in its profile URL as it is. */
  lemma PlainNameUrl(baseUrl: string, username: string, now: int)
    requires forall k :: 0 <= k < |username| ==> IsAsciiAlphanumeric(username[k]) || username[k] in "_."
    ensures ProfileRoute(baseUrl, username, now).url == baseUrl + "/u/" + username
  {
    UnescapedUnchanged(username);
  }

  /** Without settings the routes sit under the local development address. */
  lemma DefaultSitemap(query: UserQuery, now: int)
    ensures Sitemap(None, None, query, now)[0].url == "http://localhost:3000" + "/"
    ensures |Sitemap(None, None, query, now)| == 4
  {
  }
}
