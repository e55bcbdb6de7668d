/** `Url`: builds the OpenAI API URLs from a base URL and an API version.
    Both are static properties of the class, so every `Url` object reads
    and writes the same pair; the model keeps that pair in one `UrlConfig`
    object that all `Url` objects of a process share. */
module Url {
  import opened Php

  const DefaultApiBaseUrl := "https://api.openai.com"
  const DefaultApiVersion := "v1"

  /** The static properties `Url::$api_base_url` and `Url::$api_version`. */
  class UrlConfig {
    var apiBaseUrl: string
    var apiVersion: string

    /** The values the class is loaded with. */
    constructor()
      ensures apiBaseUrl == DefaultApiBaseUrl && apiVersion == DefaultApiVersion
    {
      apiBaseUrl := DefaultApiBaseUrl;
      apiVersion := DefaultApiVersion;
    }
  }

  class Url {
    const config: UrlConfig

    constructor(config: UrlConfig)
      ensures this.config == config
    {
      this.config := config;
    }

    /** `set_api_base_url`: changes the base URL for every `Url` object. */
    method SetApiBaseUrl(url: string)
      modifies config
      ensures config.apiBaseUrl == url && config.apiVersion == old(config.apiVersion)
    {
      config.apiBaseUrl := url;
    }

    /** `set_api_version`: changes the version for every `Url` object. */
    method SetApiVersion(version: string)
      modifies config
      ensures config.apiVersion == version && config.apiBaseUrl == old(config.apiBaseUrl)
    {
      config.apiVersion := version;
    }

    /** `get_api_url`: the base URL and the version, each followed by `/`. */
    function ApiUrl(): (r: string)
      reads config
      ensures |r| == |config.apiBaseUrl| + |config.apiVersion| + 2
      ensures r[..|config.apiBaseUrl|] == config.apiBaseUrl && r[|config.apiBaseUrl|] == '/'
      ensures r[|config.apiBaseUrl| + 1..|r| - 1] == config.apiVersion && r[|r| - 1] == '/'
    {
      config.apiBaseUrl + "/" + config.apiVersion + "/"
    }

    /** `get_endpoint_url`: the API URL, then the endpoint, then `/` and the
        additional path when that is a true string (neither "" nor "0"). */
    function EndpointUrl(endpoint: string, additional: string := ""): (r: string)
      reads config
      ensures r == ApiUrl() + EndpointPath(endpoint, additional)
    {
      if Truthy(additional) then ApiUrl() + endpoint + "/" + additional
      else ApiUrl() + endpoint
    }
  }

  /** What `get_endpoint_url` appends to the API URL. */
  function EndpointPath(endpoint: string, additional: string): string
  {
    if Truthy(additional) then endpoint + "/" + additional else endpoint
  }

  /** With the defaults, the API URL is the public OpenAI v1 root. */
  lemma DefaultApiUrl(u: Url)
    requires u.config.apiBaseUrl == DefaultApiBaseUrl && u.config.apiVersion == DefaultApiVersion
    ensures u.ApiUrl() == "https://api.openai.com/v1/"
  {
  }

  /** An additional path of "" or "0" is dropped: the URL is the bare
      endpoint's. */
  lemma FalsyAdditionalPathIsDropped(u: Url, endpoint: string, additional: string)
    requires !Truthy(additional)
    ensures u.EndpointUrl(endpoint, additional) == u.EndpointUrl(endpoint)
  {
  }

  /** For endpoints without `/`, the URL determines the endpoint, whether an
      additional path was appended, and which one. */
  lemma {:induction false} EndpointUrlIsUnambiguous(u: Url, e1: string, a1: string, e2: string, a2: string)
    requires '/' !in e1 && '/' !in e2
    requires u.EndpointUrl(e1, a1) == u.EndpointUrl(e2, a2)
    ensures e1 == e2
    ensures Truthy(a1) <==> Truthy(a2)
    ensures Truthy(a1) ==> a1 == a2
  {
    var base := u.ApiUrl();
    var p1 := EndpointPath(e1, a1);
    var p2 := EndpointPath(e2, a2);
    assert p1 == p2 by {
      assert p1 == (base + p1)[|base|..];
      assert p2 == (base + p2)[|base|..];
    }
    PathIsUnambiguous(e1, a1, e2, a2);
  }

  lemma {:induction false} PathIsUnambiguous(e1: string, a1: string, e2: string, a2: string)
    requires '/' !in e1 && '/' !in e2
    requires EndpointPath(e1, a1) == EndpointPath(e2, a2)
    ensures e1 == e2
    ensures Truthy(a1) <==> Truthy(a2)
    ensures Truthy(a1) ==> a1 == a2
  {
    var p := EndpointPath(e1, a1);
    var n1 := FirstSlash(p, e1, a1);
    var n2 := FirstSlash(p, e2, a2);
    assert e1 == p[..n1] && e2 == p[..n2];
    if Truthy(a1) && Truthy(a2) {
      assert a1 == p[|e1| + 1..] && a2 == p[|e2| + 1..];
    }
  }

  /** The endpoint is everything before the first `/` of the path. */
  lemma FirstSlash(p: string, e: string, a: string) returns (n: nat)
    requires '/' !in e && p == EndpointPath(e, a)
    ensures n == |e| <= |p| && p[..n] == e
    ensures Truthy(a) <==> n < |p|
    ensures n < |p| ==> p[n] == '/'
    ensures forall i :: 0 <= i < n ==> p[i] != '/'
  {
    n := |e|;
    if Truthy(a) {
      assert p[..n] == e;
      assert p[n] == '/';
    }
    forall i | 0 <= i < n ensures p[i] != '/' {
      assert p[i] == e[i];
    }
  }
}
