/** The offline service worker (src/app/public/sw.js): install precaches the
    app shell, fetch answers from the caches before the network, and
    activate deletes every cache but the current one. The caches are a map
    from cache name to the set of URLs stored in it. */
module ServiceWorker {
  import opened Common

  const CacheName := "mediassistant-cache-v1"
  const UrlsToCache := ["/", "/manifest.json", "/styles/globals.css",
                        "/icons/icon-192x192.png", "/icons/icon-512x512.png"]
  /** `cacheWhitelist` */
  const Whitelist := [CacheName]

  /** Where a response came from; a rejected `fetch` reaches the page as a
      network error. */
  datatype Served = FromCache(url: string) | FromNetwork(url: string) | NetworkError(url: string)

  /** `caches.match`: some cache holds the URL. */
  predicate Hit(caches: map<string, set<string>>, url: string) {
    exists name :: name in caches && url in caches[name]
  }

  class Worker {
    var caches: map<string, set<string>>
    /** The requests that went to the network, in order. */
    var networkRequests: seq<string>
    /** Whether the install step succeeded. The browser discards a worker
        whose install promise rejects, so its fetch and activate handlers
        never run. */
    var installed: bool

    constructor (caches: map<string, set<string>>)
      ensures this.caches == caches && networkRequests == [] && !installed
    {
      this.caches := caches;
      networkRequests := [];
      installed := false;
    }

    /** The install handler, given whether `addAll` succeeds: `caches.open`
        creates the cache if needed, and `addAll` stores every URL or none.
        The `addAll` promise goes to `waitUntil`, so its rejection fails the
        install and the worker is not kept. */
    method Install(addAllOk: bool) returns (ok: bool)
      modifies this
      ensures ok == addAllOk && installed == addAllOk
      ensures CacheName in caches
      ensures var before := if CacheName in old(caches) then old(caches)[CacheName] else {};
              caches[CacheName] == if addAllOk then before + set u | u in UrlsToCache else before
      ensures forall n :: n in old(caches) && n != CacheName ==> n in caches && caches[n] == old(caches)[n]
      ensures forall n :: n in caches ==> n in old(caches) || n == CacheName
      ensures addAllOk ==> forall u :: u in UrlsToCache ==> Hit(caches, u)
      ensures networkRequests == old(networkRequests)
    {
      var before := if CacheName in caches then caches[CacheName] else {};
      if addAllOk {
        caches := caches[CacheName := before + set u | u in UrlsToCache];
      } else {
        caches := caches[CacheName := before];
      }
      installed := addAllOk;
      ok := addAllOk;
    }

    /** The fetch handler of an installed worker, given whether the network
        answers: a cached URL is answered from the cache without touching the
        network; only a miss is fetched, and a rejected fetch is a network
        error. */
    method Fetch(url: string, networkOk: bool) returns (served: Served)
      requires installed
      modifies this
      ensures Hit(caches, url) ==> served == FromCache(url) && networkRequests == old(networkRequests)
      ensures !Hit(caches, url) ==> networkRequests == old(networkRequests) + [url]
      ensures !Hit(caches, url) ==> served == if networkOk then FromNetwork(url) else NetworkError(url)
      ensures caches == old(caches) && installed
    {
      if Hit(caches, url) {
        return FromCache(url);
      }
      networkRequests := networkRequests + [url];
      if networkOk {
        return FromNetwork(url);
      }
      return NetworkError(url);
    }

    /** The activate handler: goes through the cache names and deletes each
        one missing from the whitelist; returns the names deleted. */
    method Activate() returns (deleted: set<string>)
      requires installed
      modifies this
      ensures deleted == set n | n in old(caches) && n !in Whitelist
      ensures forall n :: n in caches <==> n in old(caches) && n in Whitelist
      ensures forall n :: n in caches ==> caches[n] == old(caches)[n]
      ensures CacheName in old(caches) ==> CacheName in caches
      ensures networkRequests == old(networkRequests) && installed
    {
      var cacheNames := caches.Keys;
      var remaining := cacheNames;
      deleted := {};
      while remaining != {}
        invariant remaining <= cacheNames == old(caches).Keys
        invariant forall n :: n in caches <==> n in cacheNames && (n in remaining || n in Whitelist)
        invariant forall n :: n in caches ==> caches[n] == old(caches)[n]
        invariant deleted == set n | n in cacheNames && n !in remaining && n !in Whitelist
        invariant networkRequests == old(networkRequests) && installed
        decreases |remaining|
      {
        var name :| name in remaining;
        if name !in Whitelist {
          caches := map n | n in caches && n != name :: caches[n];
          deleted := deleted + {name};
        }
        remaining := remaining - {name};
      }
    }
  }

  /** Activation leaves only whitelisted caches, so activating again
      deletes nothing and changes nothing. */
  method ActivateTwice(w: Worker) returns (first: set<string>, second: set<string>)
    requires w.installed
    modifies w
    ensures forall n :: n in w.caches ==> n == CacheName
    ensures second == {}
    ensures first == set n | n in old(w.caches) && n != CacheName
  {
    first := w.Activate();
    var afterFirst := w.caches;
    second := w.Activate();
    assert w.caches == afterFirst;
  }

  /** Only a successful install yields a worker whose handlers run: after
      `addAll` fails the worker is not installed, and after it succeeds
      every precached URL is answered from the cache, even with the network
      down. */
  method InstallThenFetch(w: Worker, addAllOk: bool, url: string) returns (served: Option<Served>)
    requires url in UrlsToCache
    modifies w
    ensures w.installed == addAllOk
    ensures !addAllOk ==> served == None
    ensures addAllOk ==> served == Some(FromCache(url)) && w.networkRequests == old(w.networkRequests)
  {
    var ok := w.Install(addAllOk);
    if !ok {
      return None;
    }
    var s := w.Fetch(url, false);
    return Some(s);
  }
}
