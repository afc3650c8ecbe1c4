/** How the directories a build lists lead, through the path join the
    adapter uses, to the keys under which the feeds' files were filed. */
module FeedPaths {
  import opened Entities
  import opened FileNames
  import opened Naming
  import opened TreeBuild
  import opened TreeShape
  import opened PathIndex

  /** The path of a category's feed directory, joined as Lookup joins it,
      is the key under which that feed's files were filed, provided the
      category's cleaned name is not empty. */
  lemma CategoryFeedDirLeadsToFiles(catName: string, feed: Feed, a: Acc, env: Env)
    requires catName != ""
    ensures var r := SingleFeed(feed, a.store, a.next, env);
      var b := CategoryFeedStep(catName, feed, a, env);
      b.tree[Join("/" + catName, b.listing[|a.listing|].filename)] == r.files
  {
    CategoryFeedStepListing(catName, feed, a, env);
    assert |"/" + catName| > 1;
  }

  /** Every directory a category lists leads, through Join, to a key of the
      tree. */
  lemma CategoryListedFeedsResolve(category: Category, a: Acc, env: Env, j: nat)
    requires Clean(category.name) != "" && j < |category.feeds|
    ensures var catName := Clean(category.name);
      var b := CategoryStep(category, a, env);
      var l := b.tree["/" + catName];
      j < |l| && Join("/" + catName, l[j].filename) in b.tree
  {
    var catName := Clean(category.name);
    CategoryListing(category, a, env);
    assert |"/" + catName| > 1;
  }
}
