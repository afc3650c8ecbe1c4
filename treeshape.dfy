/** The listings PopulateFeedTree files: a category lists its feeds in
    configuration order, and the root lists the categories first, then the
    standalone feeds. */
module TreeShape {
  import opened Entities
  import opened FileNames
  import opened TreeBuild
  import opened Naming
  import opened Cache

  /** One directory per feed, in order, each pointing back at its feed. */
  predicate FeedEntries(l: seq<IndexedFile>, feeds: seq<Feed>) {
    |l| == |feeds| && forall j :: 0 <= j < |l| ==> l[j].isDirectory && l[j].feed == Some(feeds[j])
  }

  /** One directory per category, in order, named after it and pointing at
      no feed. */
  predicate CategoryEntries(l: seq<IndexedFile>, categories: seq<Category>) {
    && |l| == |categories|
    && forall i :: 0 <= i < |l| ==> l[i].isDirectory && l[i].feed.None? && l[i].filename == Clean(categories[i].name)
  }

  /** One directory per standalone feed, in order, pointing back at its feed
      and named after the title of a live fetch of its URL. */
  predicate LiveFeedEntries(l: seq<IndexedFile>, feeds: seq<Feed>, env: Env) {
    && FeedEntries(l, feeds)
    && forall j :: 0 <= j < |l| ==> l[j].filename == Clean(env.parseUrl(feeds[j].url).title)
  }

  /** The cleaned titles UpdateSingleFeed returns for the feeds of a
      category, in order; each feed is fetched through the cache as the
      earlier ones left it. */
  function CategoryFeedTitles(catName: string, feeds: seq<Feed>, a: Acc, env: Env): (names: seq<string>)
    ensures |names| == |feeds|
  {
    if feeds == [] then []
    else
      var prev := CategoryFeeds(catName, feeds[..|feeds| - 1], a, env);
      var r := SingleFeed(feeds[|feeds| - 1], prev.store, prev.next, env);
      CategoryFeedTitles(catName, feeds[..|feeds| - 1], a, env) + [Clean(r.data.title)]
  }

  /** Entry `j` of `l` is named `names[j]`, and that name under `prefix` is
      a key of `tree`. */
  predicate FiledUnder(l: seq<IndexedFile>, names: seq<string>, prefix: string, tree: Tree) {
    |l| == |names| && forall j :: 0 <= j < |l| ==> l[j].filename == names[j] && prefix + names[j] in tree
  }

  /** A feed of a category appends its directory to the listing. */
  lemma CategoryFeedStepListing(catName: string, feed: Feed, a: Acc, env: Env)
    ensures var b := CategoryFeedStep(catName, feed, a, env);
      && |b.listing| == |a.listing| + 1 && b.listing[..|a.listing|] == a.listing
      && b.listing[|a.listing|].isDirectory && b.listing[|a.listing|].feed == Some(feed)
    ensures var r := SingleFeed(feed, a.store, a.next, env);
      var b := CategoryFeedStep(catName, feed, a, env);
      && b.listing[|a.listing|].filename == Clean(r.data.title)
      && b.tree["/" + catName + "/" + Clean(r.data.title)] == r.files
      && a.tree.Keys <= b.tree.Keys
  {
  }

  /** A standalone feed appends its directory, named from a live fetch, to
      the listing. */
  lemma StandaloneStepListing(feed: Feed, a: Acc, env: Env)
    ensures var b := StandaloneStep(feed, a, env);
      && |b.listing| == |a.listing| + 1 && b.listing[..|a.listing|] == a.listing
      && b.listing[|a.listing|].isDirectory && b.listing[|a.listing|].feed == Some(feed)
      && b.listing[|a.listing|].filename == Clean(env.parseUrl(feed.url).title)
  {
    var d := StandaloneDirStep(feed, a, env);
    assert StandaloneStep(feed, a, env).listing == d.listing;
  }

  /** Appending one entry to a listing that starts with `n` given ones. */
  lemma ListingSnoc(prev: seq<IndexedFile>, r: seq<IndexedFile>, n: nat)
    requires n <= |prev| && |r| == |prev| + 1 && r[..|prev|] == prev
    ensures r[..n] == prev[..n] && r[n..] == prev[n..] + [r[|prev|]]
  {
    assert r == prev + [r[|prev|]];
  }

  lemma FiledUnderSnoc(l: seq<IndexedFile>, x: IndexedFile, names: seq<string>, n: string, prefix: string, tree: Tree, tree': Tree)
    requires FiledUnder(l, names, prefix, tree) && tree.Keys <= tree'.Keys
    requires x.filename == n && prefix + n in tree'
    ensures FiledUnder(l + [x], names + [n], prefix, tree')
  {
  }

  lemma FeedEntriesSnoc(l: seq<IndexedFile>, x: IndexedFile, feeds: seq<Feed>)
    requires feeds != [] && FeedEntries(l, feeds[..|feeds| - 1])
    requires x.isDirectory && x.feed == Some(feeds[|feeds| - 1])
    ensures FeedEntries(l + [x], feeds)
  {
  }

  lemma LiveFeedEntriesSnoc(l: seq<IndexedFile>, x: IndexedFile, feeds: seq<Feed>, env: Env)
    requires feeds != [] && LiveFeedEntries(l, feeds[..|feeds| - 1], env)
    requires x.isDirectory && x.feed == Some(feeds[|feeds| - 1])
    requires x.filename == Clean(env.parseUrl(feeds[|feeds| - 1].url).title)
    ensures LiveFeedEntries(l + [x], feeds, env)
  {
  }

  /** A category appends its own directory, named after it, to the listing. */
  lemma CategoryStepListing(category: Category, a: Acc, env: Env)
    ensures var b := CategoryStep(category, a, env);
      && |b.listing| == |a.listing| + 1 && b.listing[..|a.listing|] == a.listing
      && b.listing[|a.listing|].isDirectory && b.listing[|a.listing|].feed.None?
      && b.listing[|a.listing|].filename == Clean(category.name)
  {
  }

  lemma CategoryEntriesSnoc(l: seq<IndexedFile>, x: IndexedFile, categories: seq<Category>)
    requires categories != [] && CategoryEntries(l, categories[..|categories| - 1])
    requires x.isDirectory && x.feed.None? && x.filename == Clean(categories[|categories| - 1].name)
    ensures CategoryEntries(l + [x], categories)
  {
  }

  /** The feeds of a category append one directory each to the listing. */
  lemma {:induction false} CategoryFeedsListing(catName: string, feeds: seq<Feed>, a: Acc, env: Env)
    ensures var r := CategoryFeeds(catName, feeds, a, env);
      && |a.listing| <= |r.listing| && r.listing[..|a.listing|] == a.listing
      && FeedEntries(r.listing[|a.listing|..], feeds)
      && FiledUnder(r.listing[|a.listing|..], CategoryFeedTitles(catName, feeds, a, env), "/" + catName + "/", r.tree)
      && a.tree.Keys <= r.tree.Keys
  {
    var r := CategoryFeeds(catName, feeds, a, env);
    if feeds != [] {
      var init := feeds[..|feeds| - 1];
      var prev := CategoryFeeds(catName, init, a, env);
      var fr := SingleFeed(feeds[|feeds| - 1], prev.store, prev.next, env);
      CategoryFeedsListing(catName, init, a, env);
      CategoryFeedStepListing(catName, feeds[|feeds| - 1], prev, env);
      ListingSnoc(prev.listing, r.listing, |a.listing|);
      FeedEntriesSnoc(prev.listing[|a.listing|..], r.listing[|prev.listing|], feeds);
      FiledUnderSnoc(prev.listing[|a.listing|..], r.listing[|prev.listing|], CategoryFeedTitles(catName, init, a, env),
        Clean(fr.data.title), "/" + catName + "/", prev.tree, r.tree);
    }
  }

  /** Each category appends its directory to the root listing. */
  lemma {:induction false} CategoriesListing(categories: seq<Category>, a: Acc, env: Env)
    ensures var r := Categories(categories, a, env);
      && |a.listing| <= |r.listing| && r.listing[..|a.listing|] == a.listing
      && CategoryEntries(r.listing[|a.listing|..], categories)
  {
    var r := Categories(categories, a, env);
    if categories != [] {
      var init := categories[..|categories| - 1];
      var prev := Categories(init, a, env);
      CategoriesListing(init, a, env);
      CategoryStepListing(categories[|categories| - 1], prev, env);
      ListingSnoc(prev.listing, r.listing, |a.listing|);
      CategoryEntriesSnoc(prev.listing[|a.listing|..], r.listing[|prev.listing|], categories);
    }
  }

  /** Each standalone feed appends its directory to the root listing. */
  lemma {:induction false} StandalonesListing(feeds: seq<Feed>, a: Acc, env: Env)
    ensures var r := Standalones(feeds, a, env);
      && |a.listing| <= |r.listing| && r.listing[..|a.listing|] == a.listing
      && LiveFeedEntries(r.listing[|a.listing|..], feeds, env)
  {
    var r := Standalones(feeds, a, env);
    if feeds != [] {
      var init := feeds[..|feeds| - 1];
      var prev := Standalones(init, a, env);
      StandalonesListing(init, a, env);
      StandaloneStepListing(feeds[|feeds| - 1], prev, env);
      ListingSnoc(prev.listing, r.listing, |a.listing|);
      LiveFeedEntriesSnoc(prev.listing[|a.listing|..], r.listing[|prev.listing|], feeds, env);
    }
  }

  /** A category's key lists one directory per feed of the category, in
      configuration order. */
  lemma CategoryListing(category: Category, a: Acc, env: Env)
    ensures var b := CategoryStep(category, a, env);
      && "/" + Clean(category.name) in b.tree
      && FeedEntries(b.tree["/" + Clean(category.name)], category.feeds)
    ensures var catName := Clean(category.name);
      var b := CategoryStep(category, a, env);
      var names := CategoryFeedTitles(catName, category.feeds, Acc(a.tree, [], a.next, a.store), env);
      FiledUnder(b.tree["/" + catName], names, "/" + catName + "/", b.tree)
  {
    var catName := Clean(category.name);
    var start := Acc(a.tree, [], a.next, a.store);
    var inner := CategoryFeeds(catName, category.feeds, start, env);
    CategoryFeedsListing(catName, category.feeds, start, env);
    assert inner.listing[0..] == inner.listing;
    var b := CategoryStep(category, a, env);
    assert inner.tree.Keys <= b.tree.Keys;
  }

  /** The root lists the categories, in order, then the standalone feeds, in
      order. */
  lemma RootListing(cfg: Config, store: Cache.CacheState, env: Env)
    ensures var root := BuildTree(cfg, store, env).tree["/"];
      && |root| == |cfg.categories| + |cfg.feeds|
      && CategoryEntries(root[..|cfg.categories|], cfg.categories)
      && LiveFeedEntries(root[|cfg.categories|..], cfg.feeds, env)
  {
    var a0 := Acc(map[], [], FirstInode, store);
    var c := Categories(cfg.categories, a0, env);
    CategoriesListing(cfg.categories, a0, env);
    assert c.listing[0..] == c.listing;
    StandalonesListing(cfg.feeds, c, env);
  }

  /** A standalone feed's directory is named from a live fetch, but its
      files are filed under the title UpdateSingleFeed returned. When that
      title comes from a cached copy whose cleaned title differs, the root
      lists a directory whose path holds no files of this step, and the
      files sit under a path the root does not list for this feed. */
  lemma StandaloneCachedTitleMismatch(feed: Feed, a: Acc, env: Env, cached: FeedData)
    requires feed.cache && CacheKey(feed.url) in a.store.entries
    requires env.decode(a.store.entries[CacheKey(feed.url)]) == Some(cached)
    requires Clean(cached.title) != Clean(env.parseUrl(feed.url).title)
    ensures var b := StandaloneStep(feed, a, env);
      var d := StandaloneDirStep(feed, a, env);
      var r := SingleFeed(feed, d.store, d.next, env);
      var listed := b.listing[|b.listing| - 1].filename;
      && listed == Clean(env.parseUrl(feed.url).title)
      && b.tree["/" + Clean(cached.title)] == r.files
      && "/" + listed != "/" + Clean(cached.title)
      && ("/" + listed in b.tree <==> "/" + listed in a.tree)
  {
    var d := StandaloneDirStep(feed, a, env);
    var r := SingleFeed(feed, d.store, d.next, env);
    var b := StandaloneStep(feed, a, env);
    var listed := Clean(env.parseUrl(feed.url).title);
    var filed := Clean(cached.title);
    CachedTitle(feed, d.store, d.next, env, cached);
    assert b.tree == d.tree["/" + filed := r.files] && d.tree == a.tree;
    assert b.listing == d.listing && d.listing[|d.listing| - 1] == FeedDir(feed, env.parseUrl(feed.url), a.next, env);
    assert ("/" + listed)[1..] == listed;
    assert ("/" + filed)[1..] == filed;
  }

  /** On a cache hit that decodes, UpdateSingleFeed returns the cached copy's title. */
  lemma CachedTitle(feed: Feed, store: CacheState, start: nat, env: Env, cached: FeedData)
    requires feed.cache && CacheKey(feed.url) in store.entries
    requires env.decode(store.entries[CacheKey(feed.url)]) == Some(cached)
    ensures SingleFeed(feed, store, start, env).data.title == cached.title
  {
    assert Fetch(feed, store.entries, env).data == cached;
  }
}
