/** The tree main builds at start-up, before the filesystem is mounted: every
    feed is fetched live, its items keep the feed's order and their bare
    cleaned titles, and the counter moves on by one for every entry it
    numbers. */
module InlineBuild {
  import opened Text
  import opened Entities
  import opened FileNames
  import opened Naming
  import opened Render
  import opened Cache
  import opened TreeBuild
  import opened TreeInodes

  /** main's build goes through no cache; its build states carry this empty one. */
  const NoCache: CacheState := CacheState(map[], [])

  /** The directory entry main writes for a feed: named after the title of
      the live fetch, stamped with the feed's own time, no feed reference. */
  function LiveFeedDir(data: FeedData, inode: nat, env: Env): (d: IndexedFile)
    ensures d.isDirectory && d.feed.None? && d.inode == inode && d.data == []
  {
    IndexedFile(Clean(data.title), true, FeedTimestamp(data, env.now), inode, [], None)
  }

  /** The files of the first `n` items, in the feed's order, numbered from
      `start`, each named by its key (its cleaned title) and extension with
      no collision number. */
  function PlainFilesUpTo(feed: Feed, items: seq<Item>, ks: seq<string>, start: nat, env: Env, n: nat): (files: seq<IndexedFile>)
    requires n <= |items| == |ks|
    ensures |files| == n
  {
    seq(n, j requires 0 <= j < n => ItemFile(feed, items[j], ks[j], 0, start + j, env))
  }

  function PlainFiles(feed: Feed, items: seq<Item>, start: nat, env: Env): (files: seq<IndexedFile>)
    ensures |files| == |items|
  {
    PlainFilesUpTo(feed, items, Keys(items), start, env, |items|)
  }

  lemma PlainFilesStep(feed: Feed, items: seq<Item>, ks: seq<string>, start: nat, env: Env, n: nat, f: IndexedFile)
    requires n < |items| == |ks|
    requires f == ItemFile(feed, items[n], ks[n], 0, start + n, env)
    ensures PlainFilesUpTo(feed, items, ks, start, env, n + 1) == PlainFilesUpTo(feed, items, ks, start, env, n) + [f]
  {
    var longer := PlainFilesUpTo(feed, items, ks, start, env, n + 1);
    var shorter := PlainFilesUpTo(feed, items, ks, start, env, n);
    forall j | 0 <= j < n + 1
      ensures longer[j] == (shorter + [f])[j]
    {
    }
  }

  /** A feed's directory takes the current inode. */
  function InlineDirStep(feed: Feed, a: Acc, env: Env): Acc {
    Acc(a.tree, a.listing + [LiveFeedDir(env.parseUrl(feed.url), a.next, env)], a.next + 1, a.store)
  }

  /** A feed's files take the following inodes and are filed under `prefix`
      and the cleaned title. */
  function InlineFilesStep(prefix: string, feed: Feed, a: Acc, env: Env): Acc {
    var data := env.parseUrl(feed.url);
    Acc(a.tree[prefix + Clean(data.title) := PlainFiles(feed, data.items, a.next, env)],
        a.listing,
        a.next + |data.items|,
        a.store)
  }

  /** One feed: its directory, then its files. */
  function InlineFeedStep(prefix: string, feed: Feed, a: Acc, env: Env): Acc {
    InlineFilesStep(prefix, feed, InlineDirStep(feed, a, env), env)
  }

  function InlineFeeds(prefix: string, feeds: seq<Feed>, a: Acc, env: Env): Acc {
    if feeds == [] then a
    else InlineFeedStep(prefix, feeds[|feeds| - 1], InlineFeeds(prefix, feeds[..|feeds| - 1], a, env), env)
  }

  /** One category: its feeds under "/<category>/", its listing under
      "/<category>", then its own directory, numbered after all of its
      feeds, in the root listing. */
  function InlineCategoryStep(category: Category, a: Acc, env: Env): Acc {
    var catName := Clean(category.name);
    var inner := InlineFeeds("/" + catName + "/", category.feeds, Acc(a.tree, [], a.next, a.store), env);
    Acc(inner.tree["/" + catName := inner.listing],
        a.listing + [CategoryDir(category.name, inner.next, env)],
        inner.next + 1,
        inner.store)
  }

  function InlineCategories(categories: seq<Category>, a: Acc, env: Env): Acc {
    if categories == [] then a
    else InlineCategoryStep(categories[|categories| - 1], InlineCategories(categories[..|categories| - 1], a, env), env)
  }

  /** The state after the category loop and the standalone-feed loop. */
  function InlineLoops(cfg: Config, env: Env): Acc {
    InlineFeeds("/", cfg.feeds, InlineCategories(cfg.categories, Acc(map[], [], FirstInode, NoCache), env), env)
  }

  /** main's tree, with the root listing under "/", and its final counter. */
  function InlineTree(cfg: Config, env: Env): (b: Built)
    ensures "/" in b.tree
  {
    var a := InlineLoops(cfg, env);
    Built(a.tree["/" := a.listing], a.next, a.store)
  }

  /** How many entries a list of feeds adds: a directory and one file per
      item for each feed. */
  function FeedsCount(feeds: seq<Feed>, env: Env): nat {
    if feeds == [] then 0
    else FeedsCount(feeds[..|feeds| - 1], env) + 1 + |env.parseUrl(feeds[|feeds| - 1].url).items|
  }

  /** How many entries the categories add: their feeds' entries and one
      directory each. */
  function CategoriesCount(categories: seq<Category>, env: Env): nat {
    if categories == [] then 0
    else
      var c := categories[|categories| - 1];
      CategoriesCount(categories[..|categories| - 1], env) + FeedsCount(c.feeds, env) + 1
  }

  // ---------------------------------------------------------------------
  // The loops of main.

  /** The item loop: one file per item, in the feed's order. */
  method AddItems(feed: Feed, items: seq<Item>, nodeCount: nat, env: Env) returns (feedFiles: seq<IndexedFile>, next: nat)
    ensures feedFiles == PlainFiles(feed, items, nodeCount, env)
    ensures next == nodeCount + |items|
  {
    feedFiles, next := [], nodeCount;
    ghost var ks := Keys(items);
    for i := 0 to |items|
      invariant feedFiles == PlainFilesUpTo(feed, items, ks, nodeCount, env, i)
      invariant next == nodeCount + i
    {
      var item := items[i];
      var itemTimestamp := ItemTimestamp(item, env.now);
      var out := GenerateOutputData(feed, item, env.lineBreak, env.toText);
      var name := FileNameClean(item.title);
      var file := IndexedFile(name + "." + out.ext, false, itemTimestamp, next, Utf8(out.content), None);
      AddItemStep(feed, items, nodeCount, env, i, file);
      feedFiles := feedFiles + [file];
      next := next + 1;
    }
  }

  lemma AddItemStep(feed: Feed, items: seq<Item>, start: nat, env: Env, i: nat, file: IndexedFile)
    requires i < |items|
    requires var out := GenerateOutputData(feed, items[i], env.lineBreak, env.toText);
      file == IndexedFile(Clean(items[i].title) + "." + out.ext, false, ItemTimestamp(items[i], env.now), start + i, Utf8(out.content), None)
    ensures var ks := Keys(items);
      PlainFilesUpTo(feed, items, ks, start, env, i + 1) == PlainFilesUpTo(feed, items, ks, start, env, i) + [file]
  {
    KeyAt(items, i);
    PlainFilesStep(feed, items, Keys(items), start, env, i, file);
  }

  /** One feed, as both feed loops of main handle it. */
  method AddFeed(prefix: string, feed: Feed, tree: Tree, listing: seq<IndexedFile>, nodeCount: nat, env: Env)
    returns (tree': Tree, listing': seq<IndexedFile>, next: nat)
    ensures Acc(tree', listing', next, NoCache) == InlineFeedStep(prefix, feed, Acc(tree, listing, nodeCount, NoCache), env)
  {
    ghost var a := Acc(tree, listing, nodeCount, NoCache);
    var feeddata := env.parseUrl(feed.url);
    var nodeTimestamp := FeedTimestamp(feeddata, env.now);
    var title := FileNameClean(feeddata.title);
    listing' := listing + [IndexedFile(title, true, nodeTimestamp, nodeCount, [], None)];
    next := nodeCount + 1;
    assert Acc(tree, listing', next, NoCache) == InlineDirStep(feed, a, env);
    var feedFiles;
    feedFiles, next := AddItems(feed, feeddata.items, next, env);
    tree' := tree[prefix + title := feedFiles];
  }

  /** A feed loop of main over `feeds`, filing under `prefix`. */
  method AddFeeds(prefix: string, feeds: seq<Feed>, tree: Tree, listing: seq<IndexedFile>, nodeCount: nat, env: Env)
    returns (tree': Tree, listing': seq<IndexedFile>, next: nat)
    ensures Acc(tree', listing', next, NoCache) == InlineFeeds(prefix, feeds, Acc(tree, listing, nodeCount, NoCache), env)
  {
    tree', listing', next := tree, listing, nodeCount;
    ghost var start := Acc(tree, listing, nodeCount, NoCache);
    for j := 0 to |feeds|
      invariant Acc(tree', listing', next, NoCache) == InlineFeeds(prefix, feeds[..j], start, env)
    {
      tree', listing', next := AddFeed(prefix, feeds[j], tree', listing', next, env);
      assert feeds[..j + 1][..j] == feeds[..j];
    }
    assert feeds[..|feeds|] == feeds;
  }

  /** The tree building of main: the category loop, the standalone-feed
      loop, then the root listing. */
  method BuildInline(cfg: Config, env: Env) returns (tree: Tree, nodeCount: nat)
    ensures Built(tree, nodeCount, NoCache) == InlineTree(cfg, env)
  {
    var rootItems: seq<IndexedFile> := [];
    tree, nodeCount := map[], FirstInode;
    ghost var init := Acc(map[], [], FirstInode, NoCache);
    for i := 0 to |cfg.categories|
      invariant Acc(tree, rootItems, nodeCount, NoCache) == InlineCategories(cfg.categories[..i], init, env)
    {
      var category := cfg.categories[i];
      var catName := FileNameClean(category.name);
      var catsFeeds;
      tree, catsFeeds, nodeCount := AddFeeds("/" + catName + "/", category.feeds, tree, [], nodeCount, env);
      tree := tree["/" + catName := catsFeeds];
      rootItems := rootItems + [IndexedFile(catName, true, env.now, nodeCount, [], None)];
      nodeCount := nodeCount + 1;
      assert cfg.categories[..i + 1][..i] == cfg.categories[..i];
    }
    assert cfg.categories[..|cfg.categories|] == cfg.categories;
    tree, rootItems, nodeCount := AddFeeds("/", cfg.feeds, tree, rootItems, nodeCount, env);
    tree := tree["/" := rootItems];
  }

  // ---------------------------------------------------------------------
  // What the build promises.

  /** File `i` of a feed is item `i` of the feed, in the feed's order,
      named by its cleaned title and extension with no collision number,
      numbered start + i. */
  lemma PlainFileIs(feed: Feed, items: seq<Item>, start: nat, env: Env, i: nat)
    requires i < |items|
    ensures var f := PlainFiles(feed, items, start, env)[i];
      && !f.isDirectory && f.inode == start + i
      && f.filename == Clean(items[i].title) + "." + GenerateOutputData(feed, items[i], env.lineBreak, env.toText).ext
      && f.timestamp == ItemTimestamp(items[i], env.now)
      && f.data == Utf8(GenerateOutputData(feed, items[i], env.lineBreak, env.toText).content)
  {
    KeyAt(items, i);
    
  }

  lemma PlainFilesNumbered(feed: Feed, items: seq<Item>, start: nat, env: Env)
    ensures var files := PlainFiles(feed, items, start, env);
      InRange(files, start, start + |items|) && ListDistinct(files)
  {
    var files := PlainFiles(feed, items, start, env);
    assert forall i :: 0 <= i < |files| ==> files[i].inode == start + i;
  }

  /** One feed: its directory takes the current inode n, its files n + 1,
      n + 2, ... in the feed's order, and the counter ends one past the
      last of them. */
  lemma InlineFeedStepInodes(prefix: string, feed: Feed, a: Acc, env: Env)
    ensures var data := env.parseUrl(feed.url);
      var d := InlineDirStep(feed, a, env);
      var b := InlineFeedStep(prefix, feed, a, env);
      && d.next == a.next + 1
      && b.listing == a.listing + [LiveFeedDir(data, a.next, env)]
      && b.tree == a.tree[prefix + Clean(data.title) := PlainFiles(feed, data.items, d.next, env)]
      && b.next == a.next + 1 + |data.items|
  {
  }

  /** The counter of a feed loop moves on by one per directory and per file. */
  lemma {:induction false} InlineFeedsCount(prefix: string, feeds: seq<Feed>, a: Acc, env: Env)
    ensures InlineFeeds(prefix, feeds, a, env).next == a.next + FeedsCount(feeds, env)
  {
    if feeds != [] {
      var prev := InlineFeeds(prefix, feeds[..|feeds| - 1], a, env);
      InlineFeedsCount(prefix, feeds[..|feeds| - 1], a, env);
      InlineFeedStepInodes(prefix, feeds[|feeds| - 1], prev, env);
    }
  }

  lemma {:induction false} InlineCategoriesCount(categories: seq<Category>, a: Acc, env: Env)
    ensures InlineCategories(categories, a, env).next == a.next + CategoriesCount(categories, env)
  {
    if categories != [] {
      var c := categories[|categories| - 1];
      var prev := InlineCategories(categories[..|categories| - 1], a, env);
      InlineCategoriesCount(categories[..|categories| - 1], a, env);
      InlineFeedsCount("/" + Clean(c.name) + "/", c.feeds, Acc(prev.tree, [], prev.next, prev.store), env);
    }
  }

  /** main hands out exactly one inode per entry: the counter ends at 1001
      plus the number of directories and files it created. */
  lemma InlineTreeCount(cfg: Config, env: Env)
    ensures InlineTree(cfg, env).next == FirstInode + CategoriesCount(cfg.categories, env) + FeedsCount(cfg.feeds, env)
  {
    var c := InlineCategories(cfg.categories, Acc(map[], [], FirstInode, NoCache), env);
    InlineCategoriesCount(cfg.categories, Acc(map[], [], FirstInode, NoCache), env);
    InlineFeedsCount("/", cfg.feeds, c, env);
  }

  lemma InlineFeedStepNumbered(prefix: string, feed: Feed, a: Acc, env: Env, lo: nat)
    requires Numbered(a, lo)
    ensures var b := InlineFeedStep(prefix, feed, a, env);
      Numbered(b, lo) && Grows(a, b)
  {
    var data := env.parseUrl(feed.url);
    var d := InlineDirStep(feed, a, env);
    AppendEntry(a, d, LiveFeedDir(data, a.next, env), lo);
    PlainFilesNumbered(feed, data.items, d.next, env);
    PutList(d, InlineFeedStep(prefix, feed, a, env), prefix + Clean(data.title), PlainFiles(feed, data.items, d.next, env), lo);
    GrowsTrans(a, d, InlineFeedStep(prefix, feed, a, env));
  }

  lemma {:induction false} InlineFeedsNumbered(prefix: string, feeds: seq<Feed>, a: Acc, env: Env, lo: nat)
    requires Numbered(a, lo)
    ensures var b := InlineFeeds(prefix, feeds, a, env);
      Numbered(b, lo) && Grows(a, b)
  {
    if feeds == [] {
      assert a.listing[|a.listing|..] == [];
    } else {
      var prev := InlineFeeds(prefix, feeds[..|feeds| - 1], a, env);
      InlineFeedsNumbered(prefix, feeds[..|feeds| - 1], a, env, lo);
      InlineFeedStepNumbered(prefix, feeds[|feeds| - 1], prev, env, lo);
      GrowsTrans(a, prev, InlineFeeds(prefix, feeds, a, env));
    }
  }

  lemma InlineCategoryStepNumbered(category: Category, a: Acc, env: Env, lo: nat)
    requires Numbered(a, lo)
    ensures var b := InlineCategoryStep(category, a, env);
      Numbered(b, lo) && Grows(a, b)
  {
    var catName := Clean(category.name);
    var start := Acc(a.tree, [], a.next, a.store);
    var inner := InlineFeeds("/" + catName + "/", category.feeds, start, env);
    InlineFeedsNumbered("/" + catName + "/", category.feeds, start, env, lo);
    CloseCategory(a, inner, InlineCategoryStep(category, a, env), "/" + catName, CategoryDir(category.name, inner.next, env), lo);
  }

  lemma {:induction false} InlineCategoriesNumbered(categories: seq<Category>, a: Acc, env: Env, lo: nat)
    requires Numbered(a, lo)
    ensures var b := InlineCategories(categories, a, env);
      Numbered(b, lo) && Grows(a, b)
  {
    if categories == [] {
      assert a.listing[|a.listing|..] == [];
    } else {
      var prev := InlineCategories(categories[..|categories| - 1], a, env);
      InlineCategoriesNumbered(categories[..|categories| - 1], a, env, lo);
      InlineCategoryStepNumbered(categories[|categories| - 1], prev, env, lo);
      GrowsTrans(a, prev, InlineCategories(categories, a, env));
    }
  }

  /** No two entries of main's tree share an inode, and all of them lie in
      [1001, the final counter). */
  lemma InlineTreeInodesDistinct(cfg: Config, env: Env)
    ensures var b := InlineTree(cfg, env);
      TreeNumbered(b.tree, FirstInode, b.next)
  {
    var a0 := Acc(map[], [], FirstInode, NoCache);
    var c := InlineCategories(cfg.categories, a0, env);
    InlineCategoriesNumbered(cfg.categories, a0, env, FirstInode);
    InlineFeedsNumbered("/", cfg.feeds, c, env, FirstInode);
    FileListing(InlineLoops(cfg, env), "/", FirstInode);
  }
}
