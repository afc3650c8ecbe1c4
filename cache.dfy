/** The feed cache as UpdateSingleFeed uses it: the cache key of a feed,
    its time to live, the decision between a cached copy and a live fetch,
    and the cache itself, a key-value store whose entries are removed by
    timers scheduled when they are written. */
module Cache {
  import opened Text
  import opened Entities

  predicate IsAlNum(c: char) {
    ('a' <= c <= 'z') || ('A' <= c <= 'Z') || ('0' <= c <= '9')
  }

  /** `s` with every match of [^a-zA-Z0-9]+ replaced by "": the ASCII
      letters and digits of `s`, in order. */
  function AlNumOnly(s: string): (r: string)
    ensures forall i :: 0 <= i < |r| ==> IsAlNum(r[i])
    ensures |r| <= |s|
  {
    if s == [] then [] else (if IsAlNum(s[0]) then [s[0]] else []) + AlNumOnly(s[1..])
  }

  lemma {:induction false} AlNumOnlyKeepsAlNum(s: string)
    requires forall i :: 0 <= i < |s| ==> IsAlNum(s[i])
    ensures AlNumOnly(s) == s
  {
    if s != [] {
      AlNumOnlyKeepsAlNum(s[1..]);
    }
  }

  lemma {:induction false} AlNumOnlyAppend(s: string, t: string)
    ensures AlNumOnly(s + t) == AlNumOnly(s) + AlNumOnly(t)
    decreases |s|
  {
    if s == [] {
      assert s + t == t;
    } else {
      assert (s + t)[0] == s[0] && (s + t)[1..] == s[1..] + t;
      AlNumOnlyAppend(s[1..], t);
    }
  }

  const KeyPrefix: string := "feed-"

  /** The cache entry name of a feed: "feed-" and the letters and digits of its URL. */
  function CacheKey(url: string): (k: string)
    ensures |k| >= |KeyPrefix| && k[..|KeyPrefix|] == KeyPrefix
    ensures k[|KeyPrefix|..] == AlNumOnly(url)
  {
    KeyPrefix + AlNumOnly(url)
  }

  /** Stripping punctuation makes distinct URLs share one cache entry. */
  lemma DistinctUrlsShareKey()
    ensures CacheKey("a.b/c") == CacheKey("ab.c") == "feed-abc"
  {
    assert AlNumOnly("c") == "c";
    assert AlNumOnly("/c") == "c";
    assert AlNumOnly(".c") == "c";
    assert AlNumOnly("b/c") == "bc";
    assert AlNumOnly("b.c") == "bc";
    assert AlNumOnly(".b/c") == "bc";
    assert AlNumOnly("a.b/c") == "abc";
    assert AlNumOnly("ab.c") == "abc";
  }

  /** Minutes a cached copy of the feed lives: its cacheMins, or 60 when that is 0. */
  function CacheTtl(feed: Feed): (mins: int)
    ensures mins != 0
    ensures feed.cacheMins == 0 ==> mins == 60
    ensures feed.cacheMins != 0 ==> mins == feed.cacheMins
  {
    if feed.cacheMins == 0 then 60 else feed.cacheMins
  }

  /** An expiry scheduled by CleanupCacheTime: erase `key` after `mins` minutes. */
  datatype Timer = Timer(key: string, mins: int)

  /** The cache contents and the expiries scheduled so far. */
  datatype CacheState = CacheState(entries: map<string, seq<byte>>, timers: seq<Timer>)

  /** The feed data UpdateSingleFeed goes on with, and the bytes it wrote
      into the cache, if it wrote any. */
  datatype FetchResult = FetchResult(data: FeedData, stored: Option<seq<byte>>)

  /** What UpdateSingleFeed goes on with: with caching off the live feed;
      on a miss the live feed, whose encoding is then stored; on a hit the
      decoded copy, or the live feed when the copy does not decode. */
  function Fetch(feed: Feed, entries: map<string, seq<byte>>, env: Env): (r: FetchResult)
    ensures r.stored.Some? ==> feed.cache && CacheKey(feed.url) !in entries
    ensures || r.data == env.parseUrl(feed.url)
            || (feed.cache && CacheKey(feed.url) in entries && env.decode(entries[CacheKey(feed.url)]) == Some(r.data))
  {
    if !feed.cache then
      FetchResult(env.parseUrl(feed.url), None)
    else
      var key := CacheKey(feed.url);
      if key !in entries then
        var live := env.parseUrl(feed.url);
        FetchResult(live, env.encode(live))
      else
        match env.decode(entries[key])
        case Some(cached) => FetchResult(cached, None)
        case None => FetchResult(env.parseUrl(feed.url), None)
  }

  /** Only a miss whose encoding succeeds writes the cache, and it writes
      the encoding of the data it returns. The feed is fetched live with
      caching off, on a miss, and when the cached copy does not decode;
      otherwise the decoded copy is used. */
  lemma FetchCases(feed: Feed, entries: map<string, seq<byte>>, env: Env)
    ensures var r := Fetch(feed, entries, env);
      && (r.stored.Some? <==>
          feed.cache && CacheKey(feed.url) !in entries && env.encode(env.parseUrl(feed.url)).Some?)
      && (r.stored.Some? ==> env.encode(r.data) == r.stored)
      && (!feed.cache ==> r.data == env.parseUrl(feed.url))
      && (feed.cache && CacheKey(feed.url) !in entries ==> r.data == env.parseUrl(feed.url))
      && (feed.cache && CacheKey(feed.url) in entries ==>
          match env.decode(entries[CacheKey(feed.url)])
          case Some(cached) => r.data == cached
          case None => r.data == env.parseUrl(feed.url))
  {
  }

  /** The cache after a fetch: a written entry, and its expiry scheduled
      with the feed's time to live. */
  function AfterFetch(feed: Feed, st: CacheState, r: FetchResult): (st': CacheState)
    ensures st.entries.Keys <= st'.entries.Keys
    ensures |st.timers| <= |st'.timers| <= |st.timers| + 1 && st'.timers[..|st.timers|] == st.timers
  {
    match r.stored
    case None => st
    case Some(bytes) =>
      var key := CacheKey(feed.url);
      CacheState(st.entries[key := bytes], st.timers + [Timer(key, CacheTtl(feed))])
  }

  /** A fetch that stored nothing leaves the cache alone; one that stored
      bytes adds them under the feed's key, keeps every other entry, and
      schedules the key's expiry with the feed's time to live. */
  lemma AfterFetchSpec(feed: Feed, st: CacheState, r: FetchResult)
    ensures var st' := AfterFetch(feed, st, r);
      && (r.stored.None? ==> st' == st)
      && (r.stored.Some? ==>
        && st'.entries.Keys == st.entries.Keys + {CacheKey(feed.url)}
        && st'.entries[CacheKey(feed.url)] == r.stored.value
        && (forall k :: k in st.entries && k != CacheKey(feed.url) ==> st'.entries[k] == st.entries[k])
        && st'.timers == st.timers + [Timer(CacheKey(feed.url), CacheTtl(feed))])
  {
  }

  /** A scheduled expiry firing: the entry is gone. */
  function Expire(st: CacheState, key: string): (st': CacheState)
    ensures key !in st'.entries && st'.entries.Keys == st.entries.Keys - {key}
    ensures st'.timers == st.timers
  {
    CacheState(st.entries - {key}, st.timers)
  }

  /** When the codec round-trips the feed, the fetch that follows a storing
      miss is served from the cache: it yields the same data and writes
      nothing. */
  lemma SecondFetchHitsCache(feed: Feed, st: CacheState, env: Env)
    requires feed.cache
    requires Fetch(feed, st.entries, env).stored.Some?
    requires var live := env.parseUrl(feed.url);
      env.encode(live).Some? && env.decode(env.encode(live).value) == Some(live)
    ensures var first := Fetch(feed, st.entries, env);
      var second := Fetch(feed, AfterFetch(feed, st, first).entries, env);
      second.data == first.data && second.stored.None?
  {
  }

  /** Once its expiry has fired, a cached feed is fetched live again and
      stored again when it encodes. */
  lemma ExpiredEntryIsFetchedLive(feed: Feed, st: CacheState, env: Env)
    requires feed.cache
    ensures var r := Fetch(feed, Expire(st, CacheKey(feed.url)).entries, env);
      r.data == env.parseUrl(feed.url)
      && (r.stored.Some? <==> env.encode(env.parseUrl(feed.url)).Some?)
  {
  }

  /** The feed cache, a process-wide key-value store. */
  class FeedCache {
    var entries: map<string, seq<byte>>
    var timers: seq<Timer>

    constructor ()
      ensures entries == map[] && timers == []
    {
      entries := map[];
      timers := [];
    }

    function State(): CacheState
      reads this
    {
      CacheState(entries, timers)
    }

    /** feedcache.Read: the stored bytes, or a miss. */
    method Read(key: string) returns (r: Option<seq<byte>>)
      ensures r.Some? <==> key in entries
      ensures r.Some? ==> r.value == entries[key]
    {
      if key in entries {
        r := Some(entries[key]);
      } else {
        r := None;
      }
    }

    /** feedcache.Write. */
    method Write(key: string, bytes: seq<byte>)
      modifies this
      ensures entries == old(entries)[key := bytes] && timers == old(timers)
    {
      entries := entries[key := bytes];
    }

    /** CleanupCacheTime: schedules the erasure of `key` after `mins` minutes. */
    method ScheduleErase(key: string, mins: int)
      modifies this
      ensures timers == old(timers) + [Timer(key, mins)] && entries == old(entries)
    {
      timers := timers + [Timer(key, mins)];
    }

    /** feedcache.Erase, what a scheduled expiry does when it fires. */
    method Erase(key: string)
      modifies this
      ensures State() == Expire(old(State()), key)
    {
      entries := entries - {key};
    }

    /** The cache part of UpdateSingleFeed: read the feed's entry if caching
        is on, fetch live on a miss, a failed decode or with caching off,
        and on a miss store the encoded feed and schedule its expiry. */
    method Load(feed: Feed, env: Env) returns (data: FeedData)
      modifies this
      ensures data == Fetch(feed, old(entries), env).data
      ensures State() == AfterFetch(feed, old(State()), Fetch(feed, old(entries), env))
    {
      if feed.cache {
        var key := CacheKey(feed.url);
        var cached := Read(key);
        if cached.None? {
          data := env.parseUrl(feed.url);
          var mins := CacheTtl(feed);
          var store := env.encode(data);
          if store.Some? {
            Write(key, store.value);
            ScheduleErase(key, mins);
          }
        } else {
          var decoded := env.decode(cached.value);
          if decoded.Some? {
            data := decoded.value;
          } else {
            data := env.parseUrl(feed.url);
          }
        }
      } else {
        data := env.parseUrl(feed.url);
      }
    }
  }
}
