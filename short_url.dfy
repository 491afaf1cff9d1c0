/**
 * src/short_url_generator.py: the memo cache of `generate_short_url` and the loop of
 * `batch_generate`. The TinyURL request is a parameter: `Some(response)` is what it
 * answered, `None` that it raised or timed out.
 */
module ShortUrl {
  import opened Wrappers
  import opened Text
  import opened Lists

  /** What the shortening service answered. */
  datatype Response = Response(status: int, body: string)

  /** The short link a response carries: status 200 and a stripped body that starts with "http". */
  function Answer(response: Option<Response>): (r: Option<string>)
    ensures r.Some? <==> response.Some? && response.value.status == 200 && StartsWith(Strip(response.value.body), "http")
    ensures r.Some? ==> r.value == Strip(response.value.body) && StartsWith(r.value, "http")
  {
    if response.Some? && response.value.status == 200 then
      var shortUrl := Strip(response.value.body);
      if StartsWith(shortUrl, "http") then Some(shortUrl) else None
    else None
  }

  /** Every cached short link looks like a link. */
  predicate CacheWellFormed(cache: map<string, string>) {
    forall u :: u in cache ==> StartsWith(cache[u], "http")
  }

  /** The link `generate_short_url` returns. */
  function Lookup(cache: map<string, string>, longUrl: string, response: Option<Response>): (r: string)
    ensures longUrl in cache ==> r == cache[longUrl]
    ensures longUrl !in cache && Answer(response).Some? ==> r == Answer(response).value
    ensures longUrl !in cache && Answer(response).None? ==> r == longUrl
  {
    if longUrl in cache then cache[longUrl]
    else Answer(response).GetOr(longUrl)
  }

  /** The cache after `generate_short_url`: only an accepted answer for an unseen link adds an entry. */
  function Remember(cache: map<string, string>, longUrl: string, response: Option<Response>): (r: map<string, string>)
    ensures forall u :: u in cache ==> u in r && r[u] == cache[u]
    ensures forall u :: u in r ==> u in cache || (u == longUrl && Answer(response).Some?)
    ensures Answer(response).Some? ==> longUrl in r
    ensures longUrl in r ==> r[longUrl] == Lookup(cache, longUrl, response)
  {
    if longUrl in cache then cache
    else
      match Answer(response)
      case None => cache
      case Some(shortUrl) => cache[longUrl := shortUrl]
  }

  /** Only links that look like links enter the cache. */
  lemma RememberKeepsWellFormed(cache: map<string, string>, longUrl: string, response: Option<Response>)
    requires CacheWellFormed(cache)
    ensures CacheWellFormed(Remember(cache, longUrl, response))
  {
  }

  /** A link already cached is answered from the cache, whatever the service would have said. */
  lemma CachedIgnoresResponse(cache: map<string, string>, longUrl: string, a: Option<Response>, b: Option<Response>)
    requires longUrl in cache
    ensures Lookup(cache, longUrl, a) == Lookup(cache, longUrl, b)
    ensures Remember(cache, longUrl, a) == cache
  {
  }

  /** Once a link is shortened, asking again returns the same short link without changing the cache. */
  lemma ShortenedIsRemembered(cache: map<string, string>, longUrl: string, first: Option<Response>, again: Option<Response>)
    requires longUrl !in cache && Answer(first).Some?
    ensures var c := Remember(cache, longUrl, first);
      Lookup(c, longUrl, again) == Lookup(cache, longUrl, first) && Remember(c, longUrl, again) == c
  {
  }

  /** The cache and the results map part-way through `batch_generate`. */
  datatype BatchState = BatchState(cache: map<string, string>, results: map<string, string>)

  /** One iteration of `batch_generate`: shorten, then record the answer under the long link. */
  function Step(s: BatchState, url: string, response: Option<Response>): BatchState {
    BatchState(Remember(s.cache, url, response), s.results[url := Lookup(s.cache, url, response)])
  }

  /** `batch_generate` from `cache`, the i-th link answered by the i-th response. */
  function Batch(cache: map<string, string>, urls: seq<string>, responses: seq<Option<Response>>): (r: BatchState)
    requires |responses| == |urls|
    ensures r.results.Keys == Elements(urls)
    ensures forall u :: u in cache ==> u in r.cache && r.cache[u] == cache[u]
    ensures r.cache.Keys <= cache.Keys + Elements(urls)
  {
    if urls == [] then BatchState(cache, map[])
    else
      var n := |urls| - 1;
      assert Elements(urls) == Elements(urls[..n]) + {urls[n]} by {
        assert urls == urls[..n] + [urls[n]];
      }
      Step(Batch(cache, urls[..n], responses[..n]), urls[n], responses[n])
  }

  /** The batch over one more link is one more step. */
  lemma BatchExtends(cache: map<string, string>, urls: seq<string>, responses: seq<Option<Response>>, i: nat)
    requires |responses| == |urls| && i < |urls|
    ensures Batch(cache, urls[..i + 1], responses[..i + 1]) == Step(Batch(cache, urls[..i], responses[..i]), urls[i], responses[i])
  {
    assert urls[..i + 1][..i] == urls[..i];
    assert responses[..i + 1][..i] == responses[..i];
  }

  /**
   * Each link maps either to itself (its last request failed) or to the short link the final
   * cache holds for it; every short link in the cache and the results looks like a link.
   */
  lemma {:induction false} BatchResults(cache: map<string, string>, urls: seq<string>, responses: seq<Option<Response>>)
    requires |responses| == |urls| && CacheWellFormed(cache)
    ensures var r := Batch(cache, urls, responses);
      CacheWellFormed(r.cache)
      && forall u :: u in r.results ==> r.results[u] == u || (u in r.cache && r.results[u] == r.cache[u])
  {
    if urls != [] {
      var n := |urls| - 1;
      BatchResults(cache, urls[..n], responses[..n]);
      RememberKeepsWellFormed(Batch(cache, urls[..n], responses[..n]).cache, urls[n], responses[n]);
    }
  }

  /** A link cached before the batch keeps its short link in the results. */
  lemma {:induction false} BatchKeepsCached(cache: map<string, string>, urls: seq<string>, responses: seq<Option<Response>>, u: string)
    requires |responses| == |urls| && u in cache
    ensures u in Batch(cache, urls, responses).results ==> Batch(cache, urls, responses).results[u] == cache[u]
  {
    if urls != [] {
      var n := |urls| - 1;
      BatchKeepsCached(cache, urls[..n], responses[..n], u);
    }
  }

  class ShortUrlGenerator {
    var cache: map<string, string>

    predicate Valid()
      reads this
    {
      CacheWellFormed(cache)
    }

    constructor ()
      ensures cache == map[] && Valid()
    {
      cache := map[];
    }

    /** `generate_short_url` */
    method GenerateShortUrl(longUrl: string, response: Option<Response>) returns (shortUrl: string)
      requires Valid()
      modifies this`cache
      ensures shortUrl == Lookup(old(cache), longUrl, response)
      ensures cache == Remember(old(cache), longUrl, response)
      ensures Valid()
    {
      RememberKeepsWellFormed(cache, longUrl, response);
      if longUrl in cache {
        return cache[longUrl];
      }
      if response.None? {
        return longUrl;
      }
      var r := response.value;
      if r.status == 200 {
        var s := Strip(r.body);
        if StartsWith(s, "http") {
          assert Answer(response) == Some(s);
          cache := cache[longUrl := s];
          return s;
        } else {
          assert Answer(response).None?;
          return longUrl;
        }
      } else {
        assert Answer(response).None?;
        return longUrl;
      }
    }

    /** `batch_generate`: the i-th link is answered by the i-th response. */
    method BatchGenerate(urls: seq<string>, responses: seq<Option<Response>>) returns (results: map<string, string>)
      requires |responses| == |urls| && Valid()
      modifies this`cache
      ensures BatchState(cache, results) == Batch(old(cache), urls, responses)
      ensures Valid()
    {
      results := map[];
      var i := 0;
      while i < |urls|
        invariant 0 <= i <= |urls| && Valid()
        invariant BatchState(cache, results) == Batch(old(cache), urls[..i], responses[..i])
      {
        BatchExtends(old(cache), urls, responses, i);
        var shortUrl := GenerateShortUrl(urls[i], responses[i]);
        results := results[urls[i] := shortUrl];
        i := i + 1;
      }
      assert urls[..i] == urls && responses[..i] == responses;
    }
  }
}
