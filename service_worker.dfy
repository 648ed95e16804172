/** The offline cache of sw.js: routing of intercepted requests, the
    cache-first and network-first strategies over the browser's cache store,
    and the install and activate steps that fill and purge it. The network is
    an input: the outcome each fetch would have. */
module ServiceWorker {
  import opened Wrappers

  const CacheName: string := "assistant-cache-v1"

  /** The paths `install` pre-caches. */
  const Assets: seq<string> :=
    ["/", "/index.html", "/styles.css", "/script.js", "/bot.jpg", "/user.jfif", "/manifest.webmanifest"]

  datatype Response = Response(status: int, contentType: Option<string>, body: string)

  /** The synthesised reply of `networkFirst` when offline with nothing cached. */
  const OfflineResponse: Response := Response(503, Some("application/json"), "{\"error\":\"offline\"}")

  /** What a `fetch` does: resolve with a response (of any status) or reject. */
  datatype NetworkResult = Fetched(response: Response) | NetworkError

  datatype Strategy = NetworkFirst | CacheFirst | NotIntercepted

  /** What the page gets for an intercepted request: a response, or a rejected
      `respondWith` promise (a network error); or the request is left to the browser. */
  datatype FetchReply = Responded(response: Response) | Rejected | Default

  type Store = map<string, map<string, Response>>

  predicate StartsWith(s: string, prefix: string)
  {
    |prefix| <= |s| && s[..|prefix|] == prefix
  }

  /** The routing of the `fetch` listener. */
  function Route(path: string, verb: string): (r: Strategy)
    ensures r == NetworkFirst <==> StartsWith(path, "/api/")
    ensures r == CacheFirst <==> !StartsWith(path, "/api/") && verb == "GET"
    ensures r == NotIntercepted <==> !StartsWith(path, "/api/") && verb != "GET"
  {
    if StartsWith(path, "/api/") then NetworkFirst
    else if verb == "GET" then CacheFirst
    else NotIntercepted
  }

  /** The cache `name` holds an entry for `url`. */
  predicate Holds(caches: Store, name: string, url: string)
  {
    name in caches && url in caches[name]
  }

  /** The entries of cache `name`; a cache that does not exist reads as empty. */
  function Entries(caches: Store, name: string): map<string, Response>
  {
    if name in caches then caches[name] else map[]
  }

  /** `caches.match`: the entry of the first cache, in creation order, that holds `url`. */
  function MatchIn(names: seq<string>, caches: Store, url: string): (r: Option<Response>)
    ensures r.Some? ==> exists i :: 0 <= i < |names| && Holds(caches, names[i], url) && caches[names[i]][url] == r.value
  {
    if names == [] then None
    else if Holds(caches, names[0], url) then Some(caches[names[0]][url])
    else MatchIn(names[1..], caches, url)
  }

  /** The match fails exactly when no cache holds `url`, and otherwise returns
      the entry of the first cache that does. */
  lemma {:induction false} MatchInFirst(names: seq<string>, caches: Store, url: string)
    ensures MatchIn(names, caches, url).None? <==> forall i :: 0 <= i < |names| ==> !Holds(caches, names[i], url)
    ensures MatchIn(names, caches, url).Some? ==>
      exists i :: 0 <= i < |names| && Holds(caches, names[i], url)
                  && caches[names[i]][url] == MatchIn(names, caches, url).value
                  && forall j :: 0 <= j < i ==> !Holds(caches, names[j], url)
  {
    if names != [] && !Holds(caches, names[0], url) {
      var tail := names[1..];
      MatchInFirst(tail, caches, url);
      assert MatchIn(names, caches, url) == MatchIn(tail, caches, url);
      assert forall i :: 1 <= i < |names| ==> names[i] == tail[i - 1];
      if MatchIn(tail, caches, url).Some? {
        var k :| 0 <= k < |tail| && Holds(caches, tail[k], url)
                 && caches[tail[k]][url] == MatchIn(tail, caches, url).value
                 && forall j :: 0 <= j < k ==> !Holds(caches, tail[j], url);
        assert forall j :: 0 <= j < k + 1 ==> !Holds(caches, names[j], url);
        assert Holds(caches, names[k + 1], url);
      }
    } else if names != [] {
      assert Holds(caches, names[0], url);
    }
  }

  /** A response `cache.addAll` accepts: fetched, with a status in 200..299. */
  predicate IsOk(n: NetworkResult)
  {
    n.Fetched? && 200 <= n.response.status <= 299
  }

  /** The entries `install` adds, keyed by the asset's URL under `origin`. */
  function AssetEntries(origin: string, fetchAsset: string -> NetworkResult): (m: map<string, Response>)
    ensures forall i :: 0 <= i < |Assets| && fetchAsset(origin + Assets[i]).Fetched? ==>
      origin + Assets[i] in m && m[origin + Assets[i]] == fetchAsset(origin + Assets[i]).response
    ensures forall url :: url in m ==>
      && (exists i :: 0 <= i < |Assets| && url == origin + Assets[i])
      && fetchAsset(url).Fetched? && m[url] == fetchAsset(url).response
  {
    map url | url in (set i | 0 <= i < |Assets| :: origin + Assets[i]) && fetchAsset(url).Fetched?
      :: fetchAsset(url).response
  }

  /** A put for a URL no cache holds makes the match return what was put. */
  lemma {:induction false} MatchAfterStore(names: seq<string>, caches: Store, name: string, url: string,
                                            response: Response)
    requires name in names && name in caches
    requires MatchIn(names, caches, url).None?
    ensures MatchIn(names, caches[name := caches[name][url := response]], url) == Some(response)
  {
    var after := caches[name := caches[name][url := response]];
    if names[0] != name {
      assert !Holds(caches, names[0], url);
      assert !Holds(after, names[0], url);
      assert forall i :: 0 <= i < |names[1..]| ==> names[1..][i] == names[i + 1];
      MatchAfterStore(names[1..], caches, name, url, response);
    }
  }

  /** A put into a new cache, created last, for a URL no cache holds makes the
      match return what was put. */
  lemma {:induction false} MatchAfterCreate(names: seq<string>, caches: Store, name: string, url: string,
                                             response: Response)
    requires name !in caches
    requires MatchIn(names, caches, url).None?
    ensures MatchIn(names + [name], caches[name := map[][url := response]], url) == Some(response)
  {
    var after := caches[name := map[][url := response]];
    if names == [] || names[0] == name {
      assert Holds(after, name, url);
    } else {
      assert !Holds(caches, names[0], url);
      assert !Holds(after, names[0], url);
      assert (names + [name])[1..] == names[1..] + [name];
      MatchAfterCreate(names[1..], caches, name, url, response);
    }
  }

  /** A put for one URL into an existing cache leaves the match of every other
      URL as it was. */
  lemma {:induction false} MatchOtherUrl(names: seq<string>, caches: Store, name: string, url: string,
                                          response: Response, other: string)
    requires other != url
    ensures MatchIn(names, caches[name := Entries(caches, name)[url := response]], other)
         == MatchIn(names, caches, other)
  {
    var after := caches[name := Entries(caches, name)[url := response]];
    if names != [] {
      assert Holds(after, names[0], other) == Holds(caches, names[0], other);
      MatchOtherUrl(names[1..], caches, name, url, response, other);
    }
  }

  /** So does a put for one URL into a new cache, created last. */
  lemma {:induction false} MatchOtherUrlCreate(names: seq<string>, caches: Store, name: string, url: string,
                                                response: Response, other: string)
    requires name !in caches
    requires other != url
    ensures MatchIn(names + [name], caches[name := map[][url := response]], other)
         == MatchIn(names, caches, other)
  {
    var after := caches[name := map[][url := response]];
    if names == [] {
      assert !Holds(after, name, other);
      assert MatchIn([name][1..], after, other) == None;
    } else {
      assert Holds(after, names[0], other) == Holds(caches, names[0], other);
      assert (names + [name])[1..] == names[1..] + [name];
      MatchOtherUrlCreate(names[1..], caches, name, url, response, other);
    }
  }

  /** Both of the above, for every other URL at once. */
  lemma {:induction false} OtherUrlsAfterStore(names: seq<string>, caches: Store, name: string, url: string, response: Response)
    ensures forall other :: other != url ==>
      MatchIn(names, caches[name := Entries(caches, name)[url := response]], other) == MatchIn(names, caches, other)
  {
    forall other | other != url
      ensures MatchIn(names, caches[name := Entries(caches, name)[url := response]], other) == MatchIn(names, caches, other)
    {
      MatchOtherUrl(names, caches, name, url, response, other);
    }
  }

  lemma {:induction false} OtherUrlsAfterCreate(names: seq<string>, caches: Store, name: string, url: string, response: Response)
    requires name !in caches
    ensures forall other :: other != url ==>
      MatchIn(names + [name], caches[name := map[][url := response]], other) == MatchIn(names, caches, other)
  {
    forall other | other != url
      ensures MatchIn(names + [name], caches[name := map[][url := response]], other) == MatchIn(names, caches, other)
    {
      MatchOtherUrlCreate(names, caches, name, url, response, other);
    }
  }

  /** Each cache is listed once in the creation order, and the listed names are
      exactly the existing caches. */
  ghost predicate Registry(names: seq<string>, caches: Store)
  {
    && (forall i, j :: 0 <= i < j < |names| ==> names[i] != names[j])
    && (forall n :: n in caches <==> n in names)
  }

  lemma RegistryCreate(names: seq<string>, caches: Store, name: string, entries: map<string, Response>)
    requires Registry(names, caches) && name !in names
    ensures Registry(names + [name], caches[name := entries])
  {
  }

  lemma RegistryStore(names: seq<string>, caches: Store, name: string, entries: map<string, Response>)
    requires Registry(names, caches) && name in names
    ensures Registry(names, caches[name := entries])
  {
  }

  /** The browser's cache store as the worker sees it: caches by name, and the
      names in the order the caches were created. */
  class CacheStore {
    var names: seq<string>
    var caches: Store

    ghost predicate Valid()
      reads this
    {
      Registry(names, caches)
    }

    constructor ()
      ensures Valid() && names == [] && caches == map[]
    {
      names := [];
      caches := map[];
    }

    /** `caches.match(url)`: the entry of the first cache holding `url`. */
    function Match(url: string): (r: Option<Response>)
      reads this
      ensures r.Some? ==> exists n :: n in names && Holds(caches, n, url) && caches[n][url] == r.value
    {
      MatchIn(names, caches, url)
    }

    /** `caches.open(name)` followed by `cache.put(url, response)`: the cache is
        created, last in order, if it did not exist. */
    method Put(name: string, url: string, response: Response)
      requires Valid()
      modifies this
      ensures Valid()
      ensures caches == old(caches)[name := Entries(old(caches), name)[url := response]]
      ensures names == if name in old(names) then old(names) else old(names) + [name]
      ensures old(Match(url)).None? ==> Match(url) == Some(response)
      ensures forall other :: other != url ==> Match(other) == old(Match(other))
    {
      if name !in names {
        PutIntoNew(name, url, response);
      } else {
        PutIntoExisting(name, url, response);
      }
    }

    /** The branch of `Put` that creates the cache. */
    method PutIntoNew(name: string, url: string, response: Response)
      requires Valid() && name !in names
      modifies this
      ensures Valid()
      ensures caches == old(caches)[name := map[][url := response]]
      ensures names == old(names) + [name]
      ensures old(Match(url)).None? ==> Match(url) == Some(response)
      ensures forall other :: other != url ==> Match(other) == old(Match(other))
    {
      if Match(url).None? {
        MatchAfterCreate(names, caches, name, url, response);
      }
      OtherUrlsAfterCreate(names, caches, name, url, response);
      RegistryCreate(names, caches, name, map[][url := response]);
      names := names + [name];
      caches := caches[name := map[][url := response]];
    }

    /** The branch of `Put` that stores into an existing cache. */
    method PutIntoExisting(name: string, url: string, response: Response)
      requires Valid() && name in names
      modifies this
      ensures Valid()
      ensures caches == old(caches)[name := old(caches)[name][url := response]]
      ensures names == old(names)
      ensures old(Match(url)).None? ==> Match(url) == Some(response)
      ensures forall other :: other != url ==> Match(other) == old(Match(other))
    {
      if Match(url).None? {
        MatchAfterStore(names, caches, name, url, response);
      }
      OtherUrlsAfterStore(names, caches, name, url, response);
      RegistryStore(names, caches, name, caches[name][url := response]);
      caches := caches[name := caches[name][url := response]];
    }

    /** `cacheFirst` for a request to `url`; `usedNetwork` tells whether the
        network was asked. */
    method CacheFirstFetch(url: string, network: NetworkResult) returns (r: FetchReply, usedNetwork: bool)
      requires Valid()
      modifies this
      ensures Valid()
      ensures old(Match(url)).Some? ==>
        && r == Responded(old(Match(url)).value) && !usedNetwork
        && caches == old(caches) && names == old(names)
      ensures old(Match(url)).None? && network.NetworkError? ==>
        && r == Rejected && usedNetwork
        && caches == old(caches) && names == old(names)
      ensures old(Match(url)).None? && network.Fetched? ==>
        && r == Responded(network.response) && usedNetwork
        && caches == old(caches)[CacheName := Entries(old(caches), CacheName)[url := network.response]]
        && names == if CacheName in old(names) then old(names) else old(names) + [CacheName]
      ensures r.Responded? ==> Match(url) == Some(r.response)
    {
      var cached := Match(url);
      if cached.Some? {
        return Responded(cached.value), false;
      }
      usedNetwork := true;
      match network {
        case NetworkError =>
          r := Rejected;
        case Fetched(response) =>
          Put(CacheName, url, response);
          r := Responded(response);
      }
    }

    /** `networkFirst` for a request to `url`. */
    method NetworkFirstFetch(url: string, network: NetworkResult) returns (r: Response)
      requires Valid()
      modifies this
      ensures Valid()
      ensures network.Fetched? ==>
        && r == network.response
        && caches == old(caches)[CacheName := Entries(old(caches), CacheName)[url := network.response]]
        && names == if CacheName in old(names) then old(names) else old(names) + [CacheName]
      ensures network.NetworkError? ==>
        && r == old(Match(url)).GetOr(OfflineResponse)
        && caches == old(caches) && names == old(names)
      ensures network.NetworkError? && old(Match(url)).None? ==> r == OfflineResponse
    {
      match network {
        case Fetched(response) =>
          Put(CacheName, url, response);
          r := response;
        case NetworkError =>
          var cached := Match(url);
          r := cached.GetOr(OfflineResponse);
      }
    }

    /** The `fetch` listener for a request with method `verb` to `url`, whose
        pathname is `path`. */
    method HandleFetch(verb: string, url: string, path: string, network: NetworkResult)
      returns (r: FetchReply, usedNetwork: bool)
      requires Valid()
      modifies this
      ensures Valid()
      ensures Route(path, verb) == NotIntercepted ==>
        r == Default && !usedNetwork && caches == old(caches) && names == old(names)
      ensures Route(path, verb) == NetworkFirst ==>
        && usedNetwork
        && (network.Fetched? ==>
              && r == Responded(network.response)
              && caches == old(caches)[CacheName := Entries(old(caches), CacheName)[url := network.response]]
              && names == if CacheName in old(names) then old(names) else old(names) + [CacheName])
        && (network.NetworkError? ==>
              r == Responded(old(Match(url)).GetOr(OfflineResponse)) && caches == old(caches) && names == old(names))
      ensures Route(path, verb) == CacheFirst ==>
        && (usedNetwork <==> old(Match(url)).None?)
        && (old(Match(url)).Some? ==>
              r == Responded(old(Match(url)).value) && caches == old(caches) && names == old(names))
        && (old(Match(url)).None? && network.NetworkError? ==>
              r == Rejected && caches == old(caches) && names == old(names))
        && (old(Match(url)).None? && network.Fetched? ==>
              && r == Responded(network.response)
              && caches == old(caches)[CacheName := Entries(old(caches), CacheName)[url := network.response]]
              && names == if CacheName in old(names) then old(names) else old(names) + [CacheName])
    {
      match Route(path, verb) {
        case NetworkFirst =>
          var response := NetworkFirstFetch(url, network);
          r, usedNetwork := Responded(response), true;
        case CacheFirst =>
          r, usedNetwork := CacheFirstFetch(url, network);
        case NotIntercepted =>
          r, usedNetwork := Default, false;
      }
    }

    /** A static asset fetched once is served from the cache the second time:
        the second request does not reach the network. */
    method CacheFirstTwice(url: string, first: NetworkResult, second: NetworkResult)
      returns (r1: FetchReply, r2: FetchReply, used1: bool, used2: bool)
      requires Valid()
      modifies this
      ensures Valid()
      ensures r1.Responded? ==> !used2 && r2 == r1
    {
      r1, used1 := CacheFirstFetch(url, first);
      r2, used2 := CacheFirstFetch(url, second);
    }

    /** `install`: open the current cache, then `cache.addAll` of the assets under
        `origin`, which stores all of them or, if any fetch fails or is not ok, none. */
    method Install(origin: string, fetchAsset: string -> NetworkResult) returns (ok: bool)
      requires Valid()
      modifies this
      ensures Valid()
      ensures ok <==> forall i :: 0 <= i < |Assets| ==> IsOk(fetchAsset(origin + Assets[i]))
      ensures names == if CacheName in old(names) then old(names) else old(names) + [CacheName]
      ensures ok ==> caches == old(caches)[CacheName := Entries(old(caches), CacheName) + AssetEntries(origin, fetchAsset)]
      ensures !ok ==> caches == old(caches)[CacheName := Entries(old(caches), CacheName)]
      ensures ok ==> forall i :: 0 <= i < |Assets| ==>
        Holds(caches, CacheName, origin + Assets[i])
        && caches[CacheName][origin + Assets[i]] == fetchAsset(origin + Assets[i]).response
    {
      if CacheName !in names {
        names := names + [CacheName];
      }
      var current := Entries(caches, CacheName);
      ok := forall i :: 0 <= i < |Assets| ==> IsOk(fetchAsset(origin + Assets[i]));
      if ok {
        caches := caches[CacheName := current + AssetEntries(origin, fetchAsset)];
      } else {
        caches := caches[CacheName := current];
      }
    }

    /** `activate`: delete every cache whose name is not the current one. */
    method Activate()
      requires Valid()
      modifies this
      ensures Valid()
      ensures caches.Keys <= {CacheName}
      ensures CacheName in old(caches) ==> CacheName in caches && caches[CacheName] == old(caches)[CacheName]
      ensures names == if CacheName in old(names) then [CacheName] else []
      ensures forall url :: Match(url) == (if Holds(old(caches), CacheName, url) then Some(old(caches)[CacheName][url]) else None)
    {
      names := if CacheName in names then [CacheName] else [];
      caches := map n | n in caches && n == CacheName :: caches[n];
      forall url
        ensures Match(url) == (if Holds(old(caches), CacheName, url) then Some(old(caches)[CacheName][url]) else None)
      {
        if CacheName in old(caches) {
          assert names == [CacheName] && names[1..] == [];
          assert CacheName in caches && caches[CacheName] == old(caches)[CacheName];
          assert Holds(caches, CacheName, url) == Holds(old(caches), CacheName, url);
          assert MatchIn(names[1..], caches, url) == None;
        } else {
          assert names == [];
          assert !Holds(old(caches), CacheName, url);
        }
      }
    }
  }
}
