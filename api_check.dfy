/**
 * Endpoint failover of the bridge (`check_api_connection`): probe the
 * primary API URL, then the alternatives in list order, and keep the first
 * whose base URL answers with status 200.
 */
module ApiCheck {
  import opened Wrappers
  import opened Http
  import opened Search

  const DEFAULT_API_URL: string := "http://api:3001/api/readings"

  const ALTERNATIVE_API_URLS: seq<string> :=
    ["http://localhost:3001/api/readings", "http://127.0.0.1:3001/api/readings"]

  /** The position of the last `/` among the first `n` characters of `url`, or -1. */
  function LastSlash(url: string, n: nat): (i: int)
    requires n <= |url|
    ensures -1 <= i < n
  {
    if n == 0 then -1 else if url[n - 1] == '/' then n - 1 else LastSlash(url, n - 1)
  }

  /**
   * Python's `url.rsplit('/', 1)[0]`: everything before the last `/`, or the
   * whole URL when it has none.
   */
  function BaseUrl(url: string): string {
    var i := LastSlash(url, |url|);
    if i < 0 then url else url[..i]
  }

  lemma {:induction false} LastSlashSpec(url: string, n: nat)
    requires n <= |url|
    ensures var i := LastSlash(url, n);
      && (i < 0 <==> '/' !in url[..n])
      && (i >= 0 ==> url[i] == '/' && '/' !in url[i + 1..n])
  {
    if n > 0 {
      LastSlashSpec(url, n - 1);
      assert url[..n] == url[..n - 1] + [url[n - 1]];
      var i := LastSlash(url, n);
      if url[n - 1] != '/' && i >= 0 {
        assert url[i + 1..n] == url[i + 1..n - 1] + [url[n - 1]];
      }
    }
  }

  lemma BaseUrlSpec(url: string)
    ensures var base := BaseUrl(url);
      && ('/' !in url ==> base == url)
      && ('/' in url ==>
              && |base| < |url|
              && base == url[..|base|]
              && url[|base|] == '/'
              && '/' !in url[|base| + 1..])
  {
    LastSlashSpec(url, |url|);
    assert url[..|url|] == url;
  }

  /** The default API URL is probed at the `/api` base. */
  lemma DefaultBaseUrl()
    ensures BaseUrl(DEFAULT_API_URL) == "http://api:3001/api"
  {
    var u := DEFAULT_API_URL;
    BaseUrlSpec(u);
    assert u[19] == '/';
    assert '/' !in u[20..];
    assert u[20..] == "readings";
  }

  /** The URLs `check_api_connection` tries, in order. */
  function Candidates(url: string): seq<string> {
    [url] + ALTERNATIVE_API_URLS
  }

  /** The probe of `url` passes: a GET of its base URL answers 200. */
  predicate Reachable(get: string -> Reply, url: string) {
    Answers200(get(BaseUrl(url)))
  }

  /** The probe, as a predicate on candidate URLs. */
  function ProbeTest(get: string -> Reply): string -> bool {
    u => Reachable(get, u)
  }

  /** The URL `check_api_connection(url)` returns when the GETs are answered by `get`. */
  function WorkingApiUrl(url: string, get: string -> Reply): Option<string> {
    FirstWhere(Candidates(url), ProbeTest(get))
  }

  /**
   * The primary URL wins when its probe passes; otherwise the first alternative in
   * list order whose probe passes; None exactly when every probe fails. The
   * result is always one of the candidates.
   */
  lemma WorkingApiUrlSpec(url: string, get: string -> Reply)
    ensures var r := WorkingApiUrl(url, get);
      && (r.Some? ==> r.value in Candidates(url) && Reachable(get, r.value))
      && (r.None? <==> forall c :: c in Candidates(url) ==> !Reachable(get, c))
      && (Reachable(get, url) ==> r == Some(url))
      && (!Reachable(get, url) && Reachable(get, ALTERNATIVE_API_URLS[0]) ==>
            r == Some(ALTERNATIVE_API_URLS[0]))
      && (!Reachable(get, url) && !Reachable(get, ALTERNATIVE_API_URLS[0]) ==>
            r == if Reachable(get, ALTERNATIVE_API_URLS[1]) then Some(ALTERNATIVE_API_URLS[1]) else None)
  {
    var cs := Candidates(url);
    var p := ProbeTest(get);
    FirstWhereCons(cs, p);
    FirstWhereCons(cs[1..], p);
    FirstWhereCons(cs[2..], p);
    assert cs[3..] == [];
  }

  /** `check_api_connection`: the primary URL first, then the alternatives, returning at the first pass. */
  method CheckApiConnection(url: string, get: string -> Reply) returns (working: Option<string>)
    ensures working == WorkingApiUrl(url, get)
  {
    var cs := Candidates(url);
    var p := ProbeTest(get);
    if Reachable(get, url) {
      FirstWhereAt(cs, p, 0);
      return Some(url);
    }
    var i := 0;
    while i < |ALTERNATIVE_API_URLS|
      invariant 0 <= i <= |ALTERNATIVE_API_URLS|
      invariant forall j :: 0 <= j < i ==> !Reachable(get, ALTERNATIVE_API_URLS[j])
    {
      var alt := ALTERNATIVE_API_URLS[i];
      if Reachable(get, alt) {
        FirstWhereAt(cs, p, i + 1);
        return Some(alt);
      }
      i := i + 1;
    }
    FirstWhereSpec(cs, p);
    return None;
  }
}
