/** PopulateFeedTree: the whole directory tree built from the configuration,
    with every feed refreshed through UpdateSingleFeed, and the inode
    numbers it hands out. */
module TreeBuild {
  import opened Entities
  import opened FileNames
  import opened Naming
  import opened Cache

  /** The first inode number a build hands out. */
  const FirstInode: nat := 1001

  /** The gap left after each feed directory. */
  const FeedGap: nat := 100

  /** The state of a build between two steps: the tree so far, the listing
      being filled (the root's, or a category's), the next inode number and
      the cache. */
  datatype Acc = Acc(tree: Tree, listing: seq<IndexedFile>, next: nat, store: CacheState)

  /** The directory entry of a feed, named after its title. */
  function FeedDir(feed: Feed, data: FeedData, inode: nat, env: Env): (d: IndexedFile)
    ensures d.isDirectory && d.feed == Some(feed) && d.inode == inode && d.data == []
  {
    IndexedFile(Clean(data.title), true, FeedTimestamp(data, env.now), inode, [], Some(feed))
  }

  /** The directory entry of a category; it is stamped with the current time. */
  function CategoryDir(name: string, inode: nat, env: Env): (d: IndexedFile)
    ensures d.isDirectory && d.feed.None? && d.inode == inode && d.data == []
  {
    IndexedFile(Clean(name), true, env.now, inode, [], None)
  }

  /** One feed of a category: its files first, then its directory, then a gap. */
  function CategoryFeedStep(catName: string, feed: Feed, a: Acc, env: Env): Acc {
    var r := SingleFeed(feed, a.store, a.next, env);
    Acc(a.tree["/" + catName + "/" + Clean(r.data.title) := r.files],
        a.listing + [FeedDir(feed, r.data, r.next, env)],
        r.next + FeedGap,
        r.store)
  }

  function CategoryFeeds(catName: string, feeds: seq<Feed>, a: Acc, env: Env): Acc {
    if feeds == [] then a
    else CategoryFeedStep(catName, feeds[|feeds| - 1], CategoryFeeds(catName, feeds[..|feeds| - 1], a, env), env)
  }

  /** One category: its feeds, its listing, then its own directory in the root. */
  function CategoryStep(category: Category, a: Acc, env: Env): Acc {
    var catName := Clean(category.name);
    var inner := CategoryFeeds(catName, category.feeds, Acc(a.tree, [], a.next, a.store), env);
    Acc(inner.tree["/" + catName := inner.listing],
        a.listing + [CategoryDir(category.name, inner.next, env)],
        inner.next + 1,
        inner.store)
  }

  function Categories(categories: seq<Category>, a: Acc, env: Env): Acc {
    if categories == [] then a
    else CategoryStep(categories[|categories| - 1], Categories(categories[..|categories| - 1], a, env), env)
  }

  /** The directory of a standalone feed, named from a live fetch, then a gap. */
  function StandaloneDirStep(feed: Feed, a: Acc, env: Env): Acc {
    Acc(a.tree, a.listing + [FeedDir(feed, env.parseUrl(feed.url), a.next, env)], a.next + FeedGap, a.store)
  }

  /** The files of a standalone feed, filed under the title UpdateSingleFeed
      returned. */
  function StandaloneFilesStep(feed: Feed, a: Acc, env: Env): Acc {
    var r := SingleFeed(feed, a.store, a.next, env);
    Acc(a.tree["/" + Clean(r.data.title) := r.files], a.listing, r.next, r.store)
  }

  /** One standalone feed: its directory, a gap, then its files. */
  function StandaloneStep(feed: Feed, a: Acc, env: Env): Acc {
    StandaloneFilesStep(feed, StandaloneDirStep(feed, a, env), env)
  }

  function Standalones(feeds: seq<Feed>, a: Acc, env: Env): Acc {
    if feeds == [] then a
    else StandaloneStep(feeds[|feeds| - 1], Standalones(feeds[..|feeds| - 1], a, env), env)
  }

  lemma StandalonesSnoc(feeds: seq<Feed>, i: nat, a: Acc, env: Env)
    requires i < |feeds|
    ensures Standalones(feeds[..i + 1], a, env) == StandaloneStep(feeds[i], Standalones(feeds[..i], a, env), env)
  {
    assert feeds[..i + 1][..i] == feeds[..i];
  }

  /** The tree and cache PopulateFeedTree leaves, with the inode counter it
      reached. */
  datatype Built = Built(tree: Tree, next: nat, store: CacheState)

  /** The categories first, then the standalone feeds, then the root listing
      under "/". */
  function BuildTree(cfg: Config, store: CacheState, env: Env): (b: Built)
    ensures "/" in b.tree
  {
    var a := Standalones(cfg.feeds, Categories(cfg.categories, Acc(map[], [], FirstInode, store), env), env);
    Built(a.tree["/" := a.listing], a.next, a.store)
  }

  /** A feed's directory entry, as both loops of PopulateFeedTree write it. */
  method MakeFeedDir(feed: Feed, data: FeedData, inode: nat, env: Env) returns (dir: IndexedFile)
    ensures dir == FeedDir(feed, data, inode, env)
  {
    var nodeTimestamp := FeedTimestamp(data, env.now);
    var title := FileNameClean(data.title);
    dir := IndexedFile(title, true, nodeTimestamp, inode, [], Some(feed));
  }

  /** UpdateSingleFeed, with its files filed in the tree under `prefix` and
      the cleaned title it returned. */
  method FileFeed(prefix: string, feed: Feed, tree: Tree, start: nat, cache: FeedCache, env: Env)
    returns (retval: Tree, next: nat, data: FeedData)
    modifies cache
    ensures var r := SingleFeed(feed, old(cache.State()), start, env);
      && retval == tree[prefix + Clean(r.data.title) := r.files]
      && next == r.next && data == r.data && cache.State() == r.store
  {
    var feedFiles;
    feedFiles, next, data := UpdateSingleFeed(feed, start, cache, env);
    var title := FileNameClean(data.title);
    retval := tree[prefix + title := feedFiles];
  }

  /** The feeds of one category, in order, as the inner loop of
      PopulateFeedTree adds them: the tree and the counter grow, the
      category listing `catsFeeds` collects their directories. */
  method AddCategoryFeeds(catName: string, feeds: seq<Feed>, tree: Tree, nodeCount: nat, cache: FeedCache, env: Env)
    returns (retval: Tree, catsFeeds: seq<IndexedFile>, next: nat)
    modifies cache
    ensures Acc(retval, catsFeeds, next, cache.State())
         == CategoryFeeds(catName, feeds, Acc(tree, [], nodeCount, old(cache.State())), env)
  {
    retval, catsFeeds, next := tree, [], nodeCount;
    ghost var start := Acc(tree, [], nodeCount, cache.State());
    for j := 0 to |feeds|
      invariant Acc(retval, catsFeeds, next, cache.State()) == CategoryFeeds(catName, feeds[..j], start, env)
    {
      var subfeed := feeds[j];
      var feeddata;
      retval, next, feeddata := FileFeed("/" + catName + "/", subfeed, retval, next, cache, env);
      var dir := MakeFeedDir(subfeed, feeddata, next, env);
      catsFeeds := catsFeeds + [dir];
      next := next + FeedGap;
      assert feeds[..j + 1][..j] == feeds[..j];
    }
    assert feeds[..|feeds|] == feeds;
  }

  /** The category loop of PopulateFeedTree. */
  method AddCategories(categories: seq<Category>, cache: FeedCache, env: Env)
    returns (retval: Tree, rootItems: seq<IndexedFile>, nodeCount: nat)
    modifies cache
    ensures Acc(retval, rootItems, nodeCount, cache.State())
         == Categories(categories, Acc(map[], [], FirstInode, old(cache.State())), env)
  {
    retval, rootItems, nodeCount := map[], [], FirstInode;
    ghost var init := Acc(map[], [], FirstInode, cache.State());
    for i := 0 to |categories|
      invariant Acc(retval, rootItems, nodeCount, cache.State()) == Categories(categories[..i], init, env)
    {
      var category := categories[i];
      var catName := FileNameClean(category.name);
      var catsFeeds;
      retval, catsFeeds, nodeCount := AddCategoryFeeds(catName, category.feeds, retval, nodeCount, cache, env);
      retval := retval["/" + catName := catsFeeds];
      rootItems := rootItems + [IndexedFile(catName, true, env.now, nodeCount, [], None)];
      nodeCount := nodeCount + 1;
      assert categories[..i + 1][..i] == categories[..i];
    }
    assert categories[..|categories|] == categories;
  }

  /** The standalone-feed loop of PopulateFeedTree. */
  method AddStandalones(feeds: seq<Feed>, tree: Tree, rootItems: seq<IndexedFile>, nodeCount: nat, cache: FeedCache, env: Env)
    returns (retval: Tree, items: seq<IndexedFile>, next: nat)
    modifies cache
    ensures Acc(retval, items, next, cache.State())
         == Standalones(feeds, Acc(tree, rootItems, nodeCount, old(cache.State())), env)
  {
    retval, items, next := tree, rootItems, nodeCount;
    ghost var start := Acc(tree, rootItems, nodeCount, cache.State());
    for i := 0 to |feeds|
      invariant Acc(retval, items, next, cache.State()) == Standalones(feeds[..i], start, env)
    {
      var feed := feeds[i];
      ghost var a := Acc(retval, items, next, cache.State());
      var dir := MakeFeedDir(feed, env.parseUrl(feed.url), next, env);
      items := items + [dir];
      next := next + FeedGap;
      assert Acc(retval, items, next, cache.State()) == StandaloneDirStep(feed, a, env);
      var data;
      retval, next, data := FileFeed("/", feed, retval, next, cache, env);
      StandalonesSnoc(feeds, i, start, env);
    }
    assert feeds[..|feeds|] == feeds;
  }

  /** PopulateFeedTree. */
  method PopulateFeedTree(cfg: Config, cache: FeedCache, env: Env) returns (retval: Tree)
    modifies cache
    ensures var b := BuildTree(cfg, old(cache.State()), env);
      retval == b.tree && cache.State() == b.store
  {
    var rootItems, nodeCount;
    retval, rootItems, nodeCount := AddCategories(cfg.categories, cache, env);
    retval, rootItems, nodeCount := AddStandalones(cfg.feeds, retval, rootItems, nodeCount, cache, env);
    retval := retval["/" := rootItems];
  }
}
