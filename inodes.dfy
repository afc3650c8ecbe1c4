/** The inode numbers PopulateFeedTree hands out: the scheme of each step,
    and the fact that no two entries of one build share an inode. */
module TreeInodes {
  import opened Entities
  import opened FileNames
  import opened Naming
  import opened TreeBuild

  /** Every entry of `files` has an inode in [lo, hi). */
  predicate InRange(files: seq<IndexedFile>, lo: nat, hi: nat) {
    forall i :: 0 <= i < |files| ==> lo <= files[i].inode < hi
  }

  /** No two entries of `files` share an inode. */
  predicate ListDistinct(files: seq<IndexedFile>) {
    forall i, j :: 0 <= i < j < |files| ==> files[i].inode != files[j].inode
  }

  /** No inode of `xs` is an inode of `ys`. */
  predicate Apart(xs: seq<IndexedFile>, ys: seq<IndexedFile>) {
    forall i, j :: 0 <= i < |xs| && 0 <= j < |ys| ==> xs[i].inode != ys[j].inode
  }

  /** Every entry of the tree has an inode in [lo, hi), and no two entries
      of the tree share one. */
  predicate TreeNumbered(t: Tree, lo: nat, hi: nat) {
    && (forall k :: k in t ==> InRange(t[k], lo, hi) && ListDistinct(t[k]))
    && (forall k1, k2 :: k1 in t && k2 in t && k1 != k2 ==> Apart(t[k1], t[k2]))
  }

  /** A build state whose tree and listing use distinct inodes from
      [lo, a.next). */
  predicate Numbered(a: Acc, lo: nat) {
    && lo <= a.next
    && TreeNumbered(a.tree, lo, a.next)
    && InRange(a.listing, lo, a.next) && ListDistinct(a.listing)
    && (forall k :: k in a.tree ==> Apart(a.tree[k], a.listing))
  }

  /** `b` continues `a`: the counter did not go back, the listing was only
      appended to, and every list of the tree is either an old one or uses
      only inodes handed out since `a`. */
  predicate Grows(a: Acc, b: Acc) {
    && a.next <= b.next
    && |a.listing| <= |b.listing| && b.listing[..|a.listing|] == a.listing
    && InRange(b.listing[|a.listing|..], a.next, b.next)
    && Frame(b.tree, a.tree, a.next, b.next)
  }

  /** Every list of `t` is the list of `prev` under the same key, or uses
      only inodes from [lo, hi). */
  predicate Frame(t: Tree, prev: Tree, lo: nat, hi: nat) {
    forall k :: k in t ==> (k in prev && t[k] == prev[k]) || InRange(t[k], lo, hi)
  }

  lemma GrowsTrans(a: Acc, b: Acc, c: Acc)
    requires Grows(a, b) && Grows(b, c)
    ensures Grows(a, c)
  {
    assert c.listing[..|a.listing|] == b.listing[..|b.listing|][..|a.listing|];
    forall i | 0 <= i < |c.listing| - |a.listing|
      ensures a.next <= c.listing[|a.listing|..][i].inode < c.next
    {
      var n := |a.listing| + i;
      if n < |b.listing| {
        assert c.listing[n] == b.listing[n] == b.listing[|a.listing|..][i];
      } else {
        assert c.listing[n] == c.listing[|b.listing|..][n - |b.listing|];
      }
    }
  }

  /** Filing a list of fresh, distinct inodes under a key. */
  lemma PutList(a: Acc, b: Acc, k: string, files: seq<IndexedFile>, lo: nat)
    requires Numbered(a, lo)
    requires a.next <= b.next && InRange(files, a.next, b.next) && ListDistinct(files)
    requires b.tree == a.tree[k := files] && b.listing == a.listing
    ensures Numbered(b, lo) && Grows(a, b)
  {
    assert b.listing[..|a.listing|] == a.listing;
    assert b.listing[|a.listing|..] == [];
    forall k1, k2 | k1 in b.tree && k2 in b.tree && k1 != k2
      ensures Apart(b.tree[k1], b.tree[k2])
    {
    }
  }

  /** Appending an entry with a fresh inode to the listing; the counter may
      move on further. */
  lemma AppendEntry(a: Acc, b: Acc, e: IndexedFile, lo: nat)
    requires Numbered(a, lo)
    requires a.next <= e.inode < b.next
    requires b.tree == a.tree && b.listing == a.listing + [e]
    ensures Numbered(b, lo) && Grows(a, b)
  {
    assert b.listing[..|a.listing|] == a.listing;
    assert b.listing[|a.listing|..] == [e];
  }

  /** UpdateSingleFeed numbers its files start, start+1, ..., and hands
      back the counter after the last one. */
  lemma SingleFeedInodes(feed: Feed, store: Cache.CacheState, start: nat, env: Env)
    ensures var r := SingleFeed(feed, store, start, env);
      && (forall i :: 0 <= i < |r.files| ==> r.files[i].inode == start + i)
      && r.next == start + |r.files|
      && InRange(r.files, start, r.next) && ListDistinct(r.files)
  {
    var r := SingleFeed(feed, store, start, env);
    SingleFeedSpec(feed, store, start, env);
    FeedFileInodes(feed, r.data.items, start, env);
  }

  /** A feed of a category: its files take the next inodes, its directory
      the one after them, and the counter then skips `FeedGap`. */
  lemma CategoryFeedStepInodes(catName: string, feed: Feed, a: Acc, env: Env)
    ensures var r := SingleFeed(feed, a.store, a.next, env);
      var b := CategoryFeedStep(catName, feed, a, env);
      && (forall i :: 0 <= i < |r.files| ==> r.files[i].inode == a.next + i)
      && b.tree["/" + catName + "/" + Clean(r.data.title)] == r.files
      && b.listing[|b.listing| - 1].inode == a.next + |r.files|
      && b.next == a.next + |r.files| + FeedGap
  {
    SingleFeedInodes(feed, a.store, a.next, env);
  }

  /** A standalone feed: its directory takes the current inode, the counter
      skips `FeedGap`, and its files follow. */
  lemma StandaloneStepInodes(feed: Feed, a: Acc, env: Env)
    ensures var d := StandaloneDirStep(feed, a, env);
      var r := SingleFeed(feed, d.store, d.next, env);
      var b := StandaloneStep(feed, a, env);
      && d.store == a.store && d.next == a.next + FeedGap
      && b.listing[|b.listing| - 1].inode == a.next
      && (forall i :: 0 <= i < |r.files| ==> r.files[i].inode == a.next + FeedGap + i)
      && b.tree["/" + Clean(r.data.title)] == r.files
      && b.next == a.next + FeedGap + |r.files|
  {
    var d := StandaloneDirStep(feed, a, env);
    SingleFeedInodes(feed, d.store, d.next, env);
  }

  /** A category: its directory takes the inode after all of its feeds, and
      the counter moves on by one. */
  lemma CategoryStepInodes(category: Category, a: Acc, env: Env)
    ensures var inner := CategoryFeeds(Clean(category.name), category.feeds, Acc(a.tree, [], a.next, a.store), env);
      var b := CategoryStep(category, a, env);
      && b.tree["/" + Clean(category.name)] == inner.listing
      && b.listing[|b.listing| - 1].inode == inner.next
      && b.next == inner.next + 1
  {
  }

  lemma {:induction false} CategoryFeedStepNumbered(catName: string, feed: Feed, a: Acc, env: Env, lo: nat)
    requires Numbered(a, lo)
    ensures var b := CategoryFeedStep(catName, feed, a, env);
      Numbered(b, lo) && Grows(a, b)
  {
    var r := SingleFeed(feed, a.store, a.next, env);
    SingleFeedInodes(feed, a.store, a.next, env);
    var b := CategoryFeedStep(catName, feed, a, env);
    var mid := Acc(b.tree, a.listing, r.next, r.store);
    PutList(a, mid, "/" + catName + "/" + Clean(r.data.title), r.files, lo);
    AppendEntry(mid, b, FeedDir(feed, r.data, r.next, env), lo);
    GrowsTrans(a, mid, b);
  }

  lemma {:induction false} CategoryFeedsNumbered(catName: string, feeds: seq<Feed>, a: Acc, env: Env, lo: nat)
    requires Numbered(a, lo)
    ensures var b := CategoryFeeds(catName, feeds, a, env);
      Numbered(b, lo) && Grows(a, b)
  {
    if feeds == [] {
      assert a.listing[|a.listing|..] == [];
    } else {
      var prev := CategoryFeeds(catName, feeds[..|feeds| - 1], a, env);
      CategoryFeedsNumbered(catName, feeds[..|feeds| - 1], a, env, lo);
      CategoryFeedStepNumbered(catName, feeds[|feeds| - 1], prev, env, lo);
      GrowsTrans(a, prev, CategoryFeeds(catName, feeds, a, env));
    }
  }

  /** Filing a build state's listing under a key keeps the tree's inodes
      distinct. */
  lemma FileListing(a: Acc, key: string, lo: nat)
    requires Numbered(a, lo)
    ensures TreeNumbered(a.tree[key := a.listing], lo, a.next)
  {
    var t := a.tree[key := a.listing];
    forall k1, k2 | k1 in t && k2 in t && k1 != k2
      ensures Apart(t[k1], t[k2])
    {
      if k1 == key {
        assert Apart(a.tree[k2], a.listing);
      } else if k2 == key {
        assert Apart(a.tree[k1], a.listing);
      }
    }
  }

  /** A listing whose entries are older than `mid`, followed by one entry
      numbered `hi`, shares no inode with lists that are older than `mid` and
      apart from it, or numbered from [mid, hi). */
  lemma ListingApart(t: Tree, prev: Tree, listing: seq<IndexedFile>, dir: IndexedFile, lo: nat, mid: nat, hi: nat)
    requires InRange(listing, lo, mid) && dir.inode == hi
    requires forall k :: k in prev ==> Apart(prev[k], listing)
    requires forall k :: k in t ==> InRange(t[k], lo, hi)
    requires Frame(t, prev, mid, hi)
    ensures forall k :: k in t ==> Apart(t[k], listing + [dir])
  {
    forall k | k in t
      ensures Apart(t[k], listing + [dir])
    {
      if k in prev && t[k] == prev[k] {
        assert Apart(prev[k], listing);
      }
    }
  }

  /** Closing a category: its listing is filed under its key and its
      directory, numbered after all of its feeds, joins the outer listing. */
  lemma CloseCategory(a: Acc, inner: Acc, b: Acc, key: string, dir: IndexedFile, lo: nat)
    requires Numbered(a, lo)
    requires Numbered(inner, lo) && Grows(Acc(a.tree, [], a.next, a.store), inner)
    requires dir.inode == inner.next && b.next == inner.next + 1
    requires b.tree == inner.tree[key := inner.listing] && b.listing == a.listing + [dir]
    ensures Numbered(b, lo) && Grows(a, b)
  {
    assert inner.listing[0..] == inner.listing;
    assert b.listing[..|a.listing|] == a.listing;
    assert b.listing[|a.listing|..] == [dir];
    FileListing(inner, key, lo);
    assert Frame(b.tree, a.tree, a.next, inner.next);
    ListingApart(b.tree, a.tree, a.listing, dir, lo, a.next, inner.next);
    assert forall k :: k in b.tree ==> InRange(b.tree[k], lo, b.next);
  }

  lemma CategoryStepNumbered(category: Category, a: Acc, env: Env, lo: nat)
    requires Numbered(a, lo)
    ensures var b := CategoryStep(category, a, env);
      Numbered(b, lo) && Grows(a, b)
  {
    var catName := Clean(category.name);
    var start := Acc(a.tree, [], a.next, a.store);
    var inner := CategoryFeeds(catName, category.feeds, start, env);
    CategoryFeedsNumbered(catName, category.feeds, start, env, lo);
    CloseCategory(a, inner, CategoryStep(category, a, env), "/" + catName, CategoryDir(category.name, inner.next, env), lo);
  }

  lemma {:induction false} CategoriesNumbered(categories: seq<Category>, a: Acc, env: Env, lo: nat)
    requires Numbered(a, lo)
    ensures var b := Categories(categories, a, env);
      Numbered(b, lo) && Grows(a, b)
  {
    if categories == [] {
      assert a.listing[|a.listing|..] == [];
    } else {
      var prev := Categories(categories[..|categories| - 1], a, env);
      CategoriesNumbered(categories[..|categories| - 1], a, env, lo);
      CategoryStepNumbered(categories[|categories| - 1], prev, env, lo);
      GrowsTrans(a, prev, Categories(categories, a, env));
    }
  }

  lemma StandaloneStepNumbered(feed: Feed, a: Acc, env: Env, lo: nat)
    requires Numbered(a, lo)
    ensures var b := StandaloneStep(feed, a, env);
      Numbered(b, lo) && Grows(a, b)
  {
    var d := StandaloneDirStep(feed, a, env);
    AppendEntry(a, d, FeedDir(feed, env.parseUrl(feed.url), a.next, env), lo);
    var r := SingleFeed(feed, d.store, d.next, env);
    SingleFeedInodes(feed, d.store, d.next, env);
    PutList(d, StandaloneStep(feed, a, env), "/" + Clean(r.data.title), r.files, lo);
    GrowsTrans(a, d, StandaloneStep(feed, a, env));
  }

  lemma {:induction false} StandalonesNumbered(feeds: seq<Feed>, a: Acc, env: Env, lo: nat)
    requires Numbered(a, lo)
    ensures var b := Standalones(feeds, a, env);
      Numbered(b, lo) && Grows(a, b)
  {
    if feeds == [] {
      assert a.listing[|a.listing|..] == [];
    } else {
      var prev := Standalones(feeds[..|feeds| - 1], a, env);
      StandalonesNumbered(feeds[..|feeds| - 1], a, env, lo);
      StandaloneStepNumbered(feeds[|feeds| - 1], prev, env, lo);
      GrowsTrans(a, prev, Standalones(feeds, a, env));
    }
  }

  /** PopulateFeedTree never gives two entries of the tree it returns the
      same inode, and all of them lie in [1001, the final counter). */
  lemma BuildTreeInodesDistinct(cfg: Config, store: Cache.CacheState, env: Env)
    ensures var b := BuildTree(cfg, store, env);
      TreeNumbered(b.tree, FirstInode, b.next)
  {
    var a0 := Acc(map[], [], FirstInode, store);
    var c := Categories(cfg.categories, a0, env);
    CategoriesNumbered(cfg.categories, a0, env, FirstInode);
    var s := Standalones(cfg.feeds, c, env);
    StandalonesNumbered(cfg.feeds, c, env, FirstInode);
    FileListing(s, "/", FirstInode);
  }
}
