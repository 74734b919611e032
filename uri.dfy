/**
 * The API's addresses (ais/uri.go): a record of base URLs and endpoint paths,
 * the documented defaults, and one method per full URL, each the concatenation
 * of a base and an endpoint.
 */
module Uris {
  datatype URLs = URLs(
    oauthBase: string,
    tokenEndpoint: string,
    apiBase: string,
    aisEndpoint: string,
    sseAisEndpoint: string,
    combinedEndpoint: string,
    sseCombinedEndpoint: string,
    latestAisEndpoint: string,
    latestCombinedEndpoint: string,
    openAisAreaEndpoint: string)
  {
    /** The OAuth 2.0 token endpoint, under the OAuth base rather than the API base. */
    function OAuthToken(): string { oauthBase + tokenEndpoint }
    function AIS(): string { apiBase + aisEndpoint }
    function SSEAIS(): string { apiBase + sseAisEndpoint }
    function Combined(): string { apiBase + combinedEndpoint }
    function SSECombined(): string { apiBase + sseCombinedEndpoint }
    function LatestCombined(): string { apiBase + latestCombinedEndpoint }
    function LatestAIS(): string { apiBase + latestAisEndpoint }
    function OpenAISArea(): string { apiBase + openAisAreaEndpoint }
  }

  /** The documented addresses of the live service. */
  const defaultUrls := URLs(
    oauthBase := "https://id.barentswatch.no",
    tokenEndpoint := "/connect/token",
    apiBase := "https://live.ais.barentswatch.no",
    aisEndpoint := "/v1/ais",
    sseAisEndpoint := "/v1/sse/ais",
    combinedEndpoint := "/v1/combined",
    sseCombinedEndpoint := "/v1/sse/combined",
    latestAisEndpoint := "/v1/latest/ais",
    latestCombinedEndpoint := "/v1/latest/combined",
    openAisAreaEndpoint := "/v1/openaisarea")

  /** DefaultURLs: the documented record, whose token and AIS addresses are these. */
  function DefaultURLs(): (r: URLs)
    ensures r.OAuthToken() == "https://id.barentswatch.no/connect/token"
    ensures r.AIS() == "https://live.ais.barentswatch.no/v1/ais"
  {
    defaultUrls
  }

  /** url starts with base and continues with endpoint, and has nothing else. */
  predicate SplitsInto(url: string, base: string, endpoint: string) {
    |url| == |base| + |endpoint| && url[..|base|] == base && url[|base|..] == endpoint
  }

  lemma JoinSplits(base: string, endpoint: string)
    ensures SplitsInto(base + endpoint, base, endpoint)
  {
    assert (base + endpoint)[..|base|] == base;
    assert (base + endpoint)[|base|..] == endpoint;
  }

  /**
   * Every full URL is its base followed by its own endpoint: cutting it after the
   * base gives both back.  The token URL is built on the OAuth base, all the
   * others on the API base.
   */
  lemma UrlsSplitIntoBaseAndEndpoint(r: URLs)
    ensures SplitsInto(r.OAuthToken(), r.oauthBase, r.tokenEndpoint)
    ensures SplitsInto(r.AIS(), r.apiBase, r.aisEndpoint)
    ensures SplitsInto(r.SSEAIS(), r.apiBase, r.sseAisEndpoint)
    ensures SplitsInto(r.Combined(), r.apiBase, r.combinedEndpoint)
    ensures SplitsInto(r.SSECombined(), r.apiBase, r.sseCombinedEndpoint)
    ensures SplitsInto(r.LatestCombined(), r.apiBase, r.latestCombinedEndpoint)
    ensures SplitsInto(r.LatestAIS(), r.apiBase, r.latestAisEndpoint)
    ensures SplitsInto(r.OpenAISArea(), r.apiBase, r.openAisAreaEndpoint)
  {
    JoinSplits(r.oauthBase, r.tokenEndpoint);
    JoinSplits(r.apiBase, r.aisEndpoint);
    JoinSplits(r.apiBase, r.sseAisEndpoint);
    JoinSplits(r.apiBase, r.combinedEndpoint);
    JoinSplits(r.apiBase, r.sseCombinedEndpoint);
    JoinSplits(r.apiBase, r.latestCombinedEndpoint);
    JoinSplits(r.apiBase, r.latestAisEndpoint);
    JoinSplits(r.apiBase, r.openAisAreaEndpoint);
  }

  /**
   * Each URL reads only its two fields: records that agree on them give the same
   * URL, whatever their other fields hold.  In particular the token URL does not
   * depend on the API base.
   */
  lemma UrlsReadOnlyTheirFields(r: URLs, s: URLs)
    ensures r.oauthBase == s.oauthBase && r.tokenEndpoint == s.tokenEndpoint ==> r.OAuthToken() == s.OAuthToken()
    ensures r.apiBase == s.apiBase && r.aisEndpoint == s.aisEndpoint ==> r.AIS() == s.AIS()
    ensures r.apiBase == s.apiBase && r.sseAisEndpoint == s.sseAisEndpoint ==> r.SSEAIS() == s.SSEAIS()
    ensures r.apiBase == s.apiBase && r.combinedEndpoint == s.combinedEndpoint ==> r.Combined() == s.Combined()
    ensures r.apiBase == s.apiBase && r.sseCombinedEndpoint == s.sseCombinedEndpoint ==> r.SSECombined() == s.SSECombined()
    ensures r.apiBase == s.apiBase && r.latestCombinedEndpoint == s.latestCombinedEndpoint ==> r.LatestCombined() == s.LatestCombined()
    ensures r.apiBase == s.apiBase && r.latestAisEndpoint == s.latestAisEndpoint ==> r.LatestAIS() == s.LatestAIS()
    ensures r.apiBase == s.apiBase && r.openAisAreaEndpoint == s.openAisAreaEndpoint ==> r.OpenAISArea() == s.OpenAISArea()
  {
  }

  /** Different endpoints under one base give different URLs: the split is unique. */
  lemma UrlDeterminesEndpoint(r: URLs, s: URLs)
    requires r.apiBase == s.apiBase && r.AIS() == s.AIS()
    ensures r.aisEndpoint == s.aisEndpoint
  {
    UrlsSplitIntoBaseAndEndpoint(r);
    UrlsSplitIntoBaseAndEndpoint(s);
  }

  /**
   * base + endpoint has exactly one "/" where the two meet: the base does not end
   * with one, and the endpoint starts with one that no second "/" follows.
   */
  predicate OneSlashJoin(base: string, endpoint: string) {
    && |base| > 0 && base[|base| - 1] != '/'
    && |endpoint| > 1 && endpoint[0] == '/' && endpoint[1] != '/'
  }

  lemma OneSlashAtJoin(base: string, endpoint: string)
    requires OneSlashJoin(base, endpoint)
    ensures var url := base + endpoint;
      url[|base| - 1] != '/' && url[|base|] == '/' && url[|base| + 1] != '/'
  {
  }

  /** In the default record every base lacks a trailing "/" and every endpoint starts with one. */
  lemma DefaultsJoinWithOneSlash()
    ensures OneSlashJoin(defaultUrls.oauthBase, defaultUrls.tokenEndpoint)
    ensures OneSlashJoin(defaultUrls.apiBase, defaultUrls.aisEndpoint)
    ensures OneSlashJoin(defaultUrls.apiBase, defaultUrls.sseAisEndpoint)
    ensures OneSlashJoin(defaultUrls.apiBase, defaultUrls.combinedEndpoint)
    ensures OneSlashJoin(defaultUrls.apiBase, defaultUrls.sseCombinedEndpoint)
    ensures OneSlashJoin(defaultUrls.apiBase, defaultUrls.latestCombinedEndpoint)
    ensures OneSlashJoin(defaultUrls.apiBase, defaultUrls.latestAisEndpoint)
    ensures OneSlashJoin(defaultUrls.apiBase, defaultUrls.openAisAreaEndpoint)
  {
  }
}
