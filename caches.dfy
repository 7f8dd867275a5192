/** The browser's CacheStorage (the global `caches`) as a store of named
    caches, each a map from request URL to response, together with the
    operations the service worker calls on it: open, put, addAll, delete,
    keys and match. */
module Caches {
  import opened Http

  /** One named cache: request URL to stored response. */
  type Store = map<Url, Response>

  predicate Distinct<T(==)>(s: seq<T>) {
    forall i, j :: 0 <= i < j < |s| ==> s[i] != s[j]
  }

  /** Whether `r` is `s` with some elements dropped and the rest in their
      original order. */
  predicate Subsequence<T(==)>(r: seq<T>, s: seq<T>)
    decreases |s|
  {
    if r == [] then true
    else if s == [] then false
    else (r[0] == s[0] && Subsequence(r[1..], s[1..])) || Subsequence(r, s[1..])
  }

  /** `s` with every occurrence of `x` removed, the rest kept in order. */
  function Without(s: seq<string>, x: string): (r: seq<string>)
    ensures forall y :: y in r <==> y in s && y != x
    ensures Distinct(s) ==> Distinct(r)
    ensures x !in s ==> r == s
  {
    if s == [] then []
    else if s[0] == x then Without(s[1..], x)
    else
      var rest := Without(s[1..], x);
      assert s[0] !in s[1..] ==> s[0] !in rest;
      [s[0]] + rest
  }

  /** `Without(s, x)` keeps the order: it is a subsequence of `s` that
      holds every element other than `x` as often as `s` does. */
  lemma {:induction false} WithoutKeepsOrder(s: seq<string>, x: string)
    ensures Subsequence(Without(s, x), s)
    ensures multiset(Without(s, x)) == multiset(s)[x := 0]
  {
    if s != [] {
      WithoutKeepsOrder(s[1..], x);
      assert s == [s[0]] + s[1..];
      if s[0] != x {
        assert ([s[0]] + Without(s[1..], x))[1..] == Without(s[1..], x);
      }
    }
  }

  /** Whether the cache called `name` exists and has an entry for `url`. */
  predicate Holds(stores: map<string, Store>, name: string, url: Url) {
    name in stores && url in stores[name]
  }

  /** `caches.match(url)`: the entry for `url` in the first cache, in
      creation order, that has one; `None` (JavaScript `undefined`) when no
      cache has one. */
  function MatchIn(names: seq<string>, stores: map<string, Store>, url: Url): (r: Option<Response>)
    ensures r.None? <==> forall i :: 0 <= i < |names| ==> !Holds(stores, names[i], url)
    ensures r.Some? ==>
      exists i :: 0 <= i < |names| && Holds(stores, names[i], url) && r.value == stores[names[i]][url]
        && forall j :: 0 <= j < i ==> !Holds(stores, names[j], url)
  {
    if names == [] then None
    else if Holds(stores, names[0], url) then Some(stores[names[0]][url])
    else
      var r := MatchIn(names[1..], stores, url);
      assert forall i :: 0 < i < |names| ==> names[i] == names[1..][i - 1];
      r
  }

  /** The cache names after `caches.open(name)`: a new cache is added last. */
  function Opened(names: seq<string>, name: string): (r: seq<string>)
    ensures name in r
    ensures forall n :: n in r <==> n in names || n == name
    ensures Distinct(names) ==> Distinct(r)
  {
    if name in names then names else names + [name]
  }

  /** The caches after `caches.open(name)` then `cache.put(url, response)`. */
  function Stored(stores: map<string, Store>, name: string, url: Url, response: Response): (r: map<string, Store>)
    ensures r.Keys == stores.Keys + {name}
    ensures Holds(r, name, url) && r[name][url] == response
    ensures forall n, u :: n != name || u != url ==>
      (Holds(r, n, u) <==> Holds(stores, n, u)) && (Holds(stores, n, u) ==> r[n][u] == stores[n][u])
  {
    stores[name := (if name in stores then stores[name] else map[])[url := response]]
  }

  /** What `cache.addAll` requires to succeed: every fetch resolved with an
      ok status. */
  predicate AllOk(results: seq<NetOutcome>) {
    forall i :: 0 <= i < |results| ==> results[i].Ok? && IsOkStatus(results[i].response.status)
  }

  /** `store` after a successful `cache.addAll(urls)` whose fetches gave
      `results`, one per URL. */
  function Seeded(store: Store, urls: seq<Url>, results: seq<NetOutcome>): (r: Store)
    requires |urls| == |results|
    requires forall i :: 0 <= i < |results| ==> results[i].Ok?
    ensures forall u :: u in r <==> u in store || u in urls
    ensures forall u :: u in store && u !in urls ==> r[u] == store[u]
    ensures Distinct(urls) ==> forall i :: 0 <= i < |urls| ==> r[urls[i]] == results[i].response
    decreases |urls|
  {
    if urls == [] then store
    else
      var r := Seeded(store[urls[0] := results[0].response], urls[1..], results[1..]);
      assert forall i :: 0 < i < |urls| ==> urls[i] == urls[1..][i - 1] && results[i] == results[1..][i - 1];
      assert Distinct(urls) ==> urls[0] !in urls[1..];
      r
  }

  class CacheStorage {
    /** The cache names, in creation order, as `caches.keys()` returns them. */
    var names: seq<string>
    /** The contents of each cache. */
    var stores: map<string, Store>

    ghost predicate Valid()
      reads this
    {
      Distinct(names) && forall n :: n in names <==> n in stores
    }

    constructor ()
      ensures Valid() && names == [] && stores == map[]
    {
      names := [];
      stores := map[];
    }

    /** `caches.keys()`. */
    method Keys() returns (keys: seq<string>)
      requires Valid()
      ensures Distinct(keys)
      ensures forall n :: n in keys <==> n in stores
      ensures keys == names
    {
      keys := names;
    }

    /** `caches.open(name)`: creates an empty cache `name` if there is none. */
    method Open(name: string)
      requires Valid()
      modifies this
      ensures Valid() && name in stores
      ensures names == Opened(old(names), name)
      ensures stores == if name in old(stores) then old(stores) else old(stores)[name := map[]]
    {
      if name !in stores {
        names := names + [name];
        stores := stores[name := map[]];
      }
    }

    /** `cache.put(url, response)` on the open cache `name`. */
    method Put(name: string, url: Url, response: Response)
      requires Valid() && name in stores
      modifies this
      ensures Valid() && names == old(names)
      ensures stores == Stored(old(stores), name, url, response)
    {
      stores := stores[name := stores[name][url := response]];
    }

    /** `cache.addAll(urls)` on the open cache `name`, where fetching
        `urls[i]` gave `results[i]`. All or nothing: it stores every entry
        when each fetch resolved with an ok status and no URL repeats, and
        otherwise rejects and stores nothing. */
    method AddAll(name: string, urls: seq<Url>, results: seq<NetOutcome>) returns (ok: bool)
      requires Valid() && name in stores && |urls| == |results|
      modifies this
      ensures Valid() && names == old(names)
      ensures ok == (AllOk(results) && Distinct(urls))
      ensures stores.Keys == old(stores).Keys
      ensures forall n :: n in stores && n != name ==> stores[n] == old(stores)[n]
      ensures stores[name] == if ok then Seeded(old(stores)[name], urls, results) else old(stores)[name]
    {
      ok := AllOk(results) && Distinct(urls);
      if ok {
        stores := stores[name := Seeded(stores[name], urls, results)];
      }
    }

    /** `caches.delete(name)`: removes the cache `name`, if there is one. */
    method Delete(name: string) returns (existed: bool)
      requires Valid()
      modifies this
      ensures Valid()
      ensures existed == (name in old(stores))
      ensures names == Without(old(names), name)
      ensures stores == old(stores) - {name}
    {
      existed := name in stores;
      names := Without(names, name);
      stores := stores - {name};
    }
  }
}
