/**
 * The three lookups as the requests they send: the URL `rapidapi_get`
 * builds from a host and a path, the two RapidAPI headers, and the query
 * parameters carrying the Facebook URL built from the username.
 * Sending the request is not modelled.
 */
module Endpoints {
  import opened Wrappers

  const ProfileHost: string := "facebook-pages-scraper3.p.rapidapi.com"
  const ProfilePath: string := "/get-profile-home-page-details"
  const PageHost: string := "social-media-scrape.p.rapidapi.com"
  const PageDetailsPath: string := "/get_facebook_pages_details"
  const PostsDetailsPath: string := "/get_facebook_posts_details"

  const FacebookPrefix: string := "https://www.facebook.com/"
  const HttpsScheme: string := "https://"

  /** A GET request as `rapidapi_get` hands it to the session. */
  datatype Request = Request(url: string, headers: map<string, string>, params: map<string, string>)

  /** The Facebook URL all three lookups send for `username`. */
  function FacebookUrl(username: string): string {
    FacebookPrefix + username
  }

  /** Reads the username back out of a Facebook URL. */
  function UsernameOf(url: string): Option<string> {
    if |FacebookPrefix| <= |url| && url[..|FacebookPrefix|] == FacebookPrefix then
      Some(url[|FacebookPrefix|..])
    else
      None
  }

  /** The Facebook URL determines the username, and every Facebook URL is the URL of its username. */
  lemma FacebookUrlRoundTrip(username: string, url: string)
    ensures UsernameOf(FacebookUrl(username)) == Some(username)
    ensures UsernameOf(url).Some? ==> FacebookUrl(UsernameOf(url).value) == url
  {
    assert FacebookUrl(username)[..|FacebookPrefix|] == FacebookPrefix;
    assert FacebookUrl(username)[|FacebookPrefix|..] == username;
  }

  /** The request URL `https://{host}{path}`. */
  function RequestUrl(host: string, path: string): string {
    HttpsScheme + host + path
  }

  /** Index of the first '/' in `s`, or `|s|` when there is none. */
  function FirstSlash(s: string): (k: nat)
    ensures k <= |s|
    ensures '/' !in s[..k]
    ensures k < |s| ==> s[k] == '/'
  {
    if s == [] || s[0] == '/' then 0
    else
      var k := 1 + FirstSlash(s[1..]);
      assert s[..k] == [s[0]] + s[1..][..k - 1];
      k
  }

  /** Splits an https URL into its host and its path (which is empty or starts with '/'). */
  function SplitUrl(url: string): Option<(string, string)> {
    if |HttpsScheme| <= |url| && url[..|HttpsScheme|] == HttpsScheme then
      var rest := url[|HttpsScheme|..];
      var k := FirstSlash(rest);
      Some((rest[..k], rest[k..]))
    else
      None
  }

  /** A host without '/' and a path that is empty or absolute can be read back from the request URL. */
  lemma {:induction false} RequestUrlRoundTrip(host: string, path: string)
    requires '/' !in host
    requires path == [] || path[0] == '/'
    ensures SplitUrl(RequestUrl(host, path)) == Some((host, path))
  {
    var url := RequestUrl(host, path);
    assert url[..|HttpsScheme|] == HttpsScheme;
    var rest := url[|HttpsScheme|..];
    assert rest == host + path;
    FirstSlashAfter(host, path);
    assert rest[..|host|] == host;
    assert rest[|host|..] == path;
  }

  /** The first '/' of `host + path` is where the path starts. */
  lemma {:induction false} FirstSlashAfter(host: string, path: string)
    requires '/' !in host
    requires path == [] || path[0] == '/'
    ensures FirstSlash(host + path) == |host|
    decreases |host|
  {
    if host != [] {
      assert host[0] in host;
      assert (host + path)[1..] == host[1..] + path;
      assert forall c :: c in host[1..] ==> c in host;
      FirstSlashAfter(host[1..], path);
    }
  }

  /** `rapidapi_get`'s request: URL from host and path, and the two RapidAPI headers. */
  function RapidApiRequest(host: string, path: string, params: map<string, string>, apiKey: string): Request {
    Request(RequestUrl(host, path), map["x-rapidapi-host" := host, "x-rapidapi-key" := apiKey], params)
  }

  /** `get_profile_details`: the Facebook URL goes in both `urlSupplier` and `url`. */
  function ProfileRequest(username: string, apiKey: string): Request {
    var fbUrl := FacebookUrl(username);
    RapidApiRequest(ProfileHost, ProfilePath, map["urlSupplier" := fbUrl, "url" := fbUrl], apiKey)
  }

  /** `get_page_details`: the Facebook URL goes in `link`. */
  function PageRequest(username: string, apiKey: string): Request {
    RapidApiRequest(PageHost, PageDetailsPath, map["link" := FacebookUrl(username)], apiKey)
  }

  /** `get_posts_details`: the same as the page lookup on another path. */
  function PostsRequest(username: string, apiKey: string): Request {
    RapidApiRequest(PageHost, PostsDetailsPath, map["link" := FacebookUrl(username)], apiKey)
  }

  /** The request reaches `host` at `path`, names `host` in its host header and carries `apiKey`. */
  predicate Targets(r: Request, host: string, path: string, apiKey: string) {
    && SplitUrl(r.url) == Some((host, path))
    && "x-rapidapi-host" in r.headers && r.headers["x-rapidapi-host"] == host
    && "x-rapidapi-key" in r.headers && r.headers["x-rapidapi-key"] == apiKey
  }

  /** `rapidapi_get` reaches the host and path it was given, with the host and key headers, and passes the parameters unchanged. */
  lemma RapidApiTargets(host: string, path: string, params: map<string, string>, apiKey: string)
    requires '/' !in host
    requires path == [] || path[0] == '/'
    ensures Targets(RapidApiRequest(host, path, params, apiKey), host, path, apiKey)
    ensures RapidApiRequest(host, path, params, apiKey).params == params
  {
    RequestUrlRoundTrip(host, path);
  }

  /** The profile lookup targets the profile host and path, and both its parameters are the Facebook URL of `username`. */
  lemma ProfileRequestTargets(username: string, apiKey: string)
    ensures var r := ProfileRequest(username, apiKey);
      && Targets(r, ProfileHost, ProfilePath, apiKey)
      && r.params.Keys == {"urlSupplier", "url"}
      && UsernameOf(r.params["urlSupplier"]) == Some(username)
      && UsernameOf(r.params["url"]) == Some(username)
  {
    FacebookUrlRoundTrip(username, "");
    ConstantsWellFormed();
    var fbUrl := FacebookUrl(username);
    RapidApiTargets(ProfileHost, ProfilePath, map["urlSupplier" := fbUrl, "url" := fbUrl], apiKey);
  }

  /** The page lookup targets the page host and details path, and its one parameter is the Facebook URL of `username`. */
  lemma PageRequestTargets(username: string, apiKey: string)
    ensures var r := PageRequest(username, apiKey);
      && Targets(r, PageHost, PageDetailsPath, apiKey)
      && r.params.Keys == {"link"} && UsernameOf(r.params["link"]) == Some(username)
  {
    FacebookUrlRoundTrip(username, "");
    ConstantsWellFormed();
    RapidApiTargets(PageHost, PageDetailsPath, map["link" := FacebookUrl(username)], apiKey);
  }

  /** The posts lookup targets the page host and posts path, and its one parameter is the Facebook URL of `username`. */
  lemma PostsRequestTargets(username: string, apiKey: string)
    ensures var r := PostsRequest(username, apiKey);
      && Targets(r, PageHost, PostsDetailsPath, apiKey)
      && r.params.Keys == {"link"} && UsernameOf(r.params["link"]) == Some(username)
  {
    FacebookUrlRoundTrip(username, "");
    ConstantsWellFormed();
    RapidApiTargets(PageHost, PostsDetailsPath, map["link" := FacebookUrl(username)], apiKey);
  }

  /** The hosts contain no '/' and the paths are absolute. */
  lemma ConstantsWellFormed()
    ensures '/' !in ProfileHost && '/' !in PageHost
    ensures ProfilePath[0] == '/' && PageDetailsPath[0] == '/' && PostsDetailsPath[0] == '/'
  {
  }
}
