/** The backend base URL and the URL builder every request goes through. */
module Config {
  import opened Wrappers
  import opened Strings

  const BaseUrl: string := "https://se405-skillexchangebe.onrender.com"
  const ApiVersion: string := "/api/v1"

  /** Everything `BuildApiUrl` puts in front of the endpoint. */
  const ApiPrefix: string := BaseUrl + ApiVersion

  /** The full URL of an endpoint path: the fixed prefix followed by the path itself. */
  function BuildApiUrl(endpoint: string): (url: string)
    ensures StartsWith(url, "https://se405-skillexchangebe.onrender.com/api/v1")
    ensures |url| == |ApiPrefix| + |endpoint|
    ensures url[|ApiPrefix|..] == endpoint
  {
    BaseUrl + ApiVersion + endpoint
  }

  /** The endpoint path of a URL built by `BuildApiUrl`, if it carries the prefix. */
  function EndpointOf(url: string): Option<string> {
    if StartsWith(url, ApiPrefix) then Some(url[|ApiPrefix|..]) else None
  }

  /** Stripping the prefix recovers the endpoint. */
  lemma EndpointRoundTrip(endpoint: string)
    ensures EndpointOf(BuildApiUrl(endpoint)) == Some(endpoint)
  {
    assert BuildApiUrl(endpoint)[..|ApiPrefix|] == ApiPrefix;
  }

  /** Distinct endpoints give distinct URLs. */
  lemma BuildApiUrlInjective(e1: string, e2: string)
    requires BuildApiUrl(e1) == BuildApiUrl(e2)
    ensures e1 == e2
  {
    EndpointRoundTrip(e1);
    EndpointRoundTrip(e2);
  }
}
