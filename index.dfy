/** The flat path index: its static root entry, the flattening that files
    every child of the tree under its full path, and main's start-up, which
    builds the tree and flattens it into the seeded index. */
module PathIndex {
  import opened Entities
  import opened TreeBuild
  import opened InlineBuild
  import FileNames

  /** The full path of a child: filepath.Join for a parent path that is
      clean and a name that is not empty, "." or "..". */
  function Join(parent: string, name: string): (path: string)
    ensures |path| == |parent| + |name| + (if parent == "/" then 0 else 1)
    ensures path[..|parent|] == parent
  {
    if parent == "/" then parent + name else parent + "/" + name
  }

  /** The entry the index holds for "/" before any build: a directory with
      an empty name and inode 1001, stamped with the start-up time. */
  function RootEntry(now: Time): (e: IndexedFile)
    ensures e.isDirectory && e.inode == FirstInode && e.filename == "" && e.data == []
  {
    IndexedFile("", true, now, FirstInode, [], None)
  }

  function SeedIndex(now: Time): (index: Index)
    ensures index.Keys == {"/"} && index["/"] == RootEntry(now)
  {
    map["/" := RootEntry(now)]
  }

  /** Some child of the tree has full path `k`. */
  predicate Produced(tree: Tree, k: string) {
    exists p, i :: p in tree && 0 <= i < |tree[p]| && Join(p, tree[p][i].filename) == k
  }

  /** `e` is a child of the tree whose full path is `k`. */
  predicate WrittenBy(tree: Tree, k: string, e: IndexedFile) {
    exists p, i :: p in tree && 0 <= i < |tree[p]| && Join(p, tree[p][i].filename) == k && tree[p][i] == e
  }

  /** `r` is `index` with every child of `tree` filed under its full path:
      no key is removed, every child's path is a key, a path some child has
      holds one of the children with that path (the one written last, in an
      order the model leaves open), and every other path keeps its entry. */
  predicate IsFlattening(index: Index, tree: Tree, r: Index) {
    && (forall k :: k in index ==> k in r)
    && (forall p, i :: p in tree && 0 <= i < |tree[p]| ==> Join(p, tree[p][i].filename) in r)
    && (forall k :: k in r ==> if Produced(tree, k) then WrittenBy(tree, k, r[k]) else k in index && r[k] == index[k])
  }

  /** No two children of the tree share a full path. */
  predicate Unambiguous(tree: Tree) {
    forall p, i, q, j ::
      p in tree && 0 <= i < |tree[p]| && q in tree && 0 <= j < |tree[q]|
      && Join(p, tree[p][i].filename) == Join(q, tree[q][j].filename)
      ==> tree[p][i] == tree[q][j]
  }

  /** Where the flattening loop took the entry it wrote under a path. */
  ghost predicate Tracked(index: Index, tree: Tree, r: Index, from: map<string, (string, nat)>) {
    && (forall k :: k in index ==> k in r)
    && (forall k :: k in from ==>
          var p, i := from[k].0, from[k].1;
          && k in r && p in tree && i < |tree[p]| && Join(p, tree[p][i].filename) == k && r[k] == tree[p][i])
    && (forall k :: k in r && k !in from ==> k in index && r[k] == index[k])
  }

  /** The nested loop over the tree's parents, in whatever order the map
      yields them, and over each parent's children, in order. */
  method Flatten(index: Index, tree: Tree) returns (r: Index)
    ensures IsFlattening(index, tree, r)
  {
    r := index;
    var todo := tree.Keys;
    ghost var from: map<string, (string, nat)> := map[];
    while todo != {}
      invariant todo <= tree.Keys
      invariant Tracked(index, tree, r, from)
      invariant forall p, i :: p in tree && p !in todo && 0 <= i < |tree[p]| ==> Join(p, tree[p][i].filename) in from
      decreases |todo|
    {
      var parentPath :| parentPath in todo;
      var children := tree[parentPath];
      ghost var before := from;
      for i := 0 to |children|
        invariant Tracked(index, tree, r, from)
        invariant before.Keys <= from.Keys
        invariant forall j :: 0 <= j < i ==> Join(parentPath, children[j].filename) in from
      {
        var fullPath := Join(parentPath, children[i].filename);
        r := r[fullPath := children[i]];
        from := from[fullPath := (parentPath, i)];
      }
      todo := todo - {parentPath};
    }
    forall k | k in r
      ensures if Produced(tree, k) then WrittenBy(tree, k, r[k]) else k in index && r[k] == index[k]
    {
      if Produced(tree, k) {
        var p, i :| p in tree && 0 <= i < |tree[p]| && Join(p, tree[p][i].filename) == k;
        assert k in from;
        assert tree[from[k].0][from[k].1] == r[k];
      }
    }
  }

  /** When no two children share a full path, the index holds every child
      exactly under its own path. */
  lemma FlattenUnambiguous(index: Index, tree: Tree, r: Index, p: string, i: nat)
    requires IsFlattening(index, tree, r) && Unambiguous(tree)
    requires p in tree && i < |tree[p]|
    ensures Join(p, tree[p][i].filename) in r && r[Join(p, tree[p][i].filename)] == tree[p][i]
  {
    var k := Join(p, tree[p][i].filename);
    assert Produced(tree, k);
    var q, j :| q in tree && 0 <= j < |tree[q]| && Join(q, tree[q][j].filename) == k && tree[q][j] == r[k];
  }

  /** Flattening the same tree twice changes nothing the second time when
      no two children share a path: merging is idempotent. */
  lemma FlattenTwice(index: Index, tree: Tree, r: Index, r2: Index)
    requires IsFlattening(index, tree, r) && IsFlattening(r, tree, r2) && Unambiguous(tree)
    ensures r2 == r
  {
    forall k | k in r2
      ensures k in r && r2[k] == r[k]
    {
      if Produced(tree, k) {
        var p, i :| p in tree && 0 <= i < |tree[p]| && Join(p, tree[p][i].filename) == k;
        FlattenUnambiguous(index, tree, r, p, i);
        FlattenUnambiguous(r, tree, r2, p, i);
      }
    }
  }

  /** main gives two items of one feed with the same cleaned title the same
      file name, so its tree is ambiguous: only one of them can be reached
      through the index. */
  lemma InlineDuplicateTitles(tree: Tree, p: string, feed: Feed, items: seq<Item>, start: nat, env: Env, i: nat, j: nat)
    requires p in tree && tree[p] == PlainFiles(feed, items, start, env)
    requires i < j < |items| && FileNames.Clean(items[i].title) == FileNames.Clean(items[j].title)
    ensures tree[p][i].filename == tree[p][j].filename && tree[p][i] != tree[p][j]
    ensures !Unambiguous(tree)
  {
    PlainFileIs(feed, items, start, env, i);
    PlainFileIs(feed, items, start, env, j);
  }

  /** The first entry main lists in the root when there are no categories:
      the first standalone feed's directory, numbered 1001 like the seeded
      root entry. */
  lemma RootInodeReused(cfg: Config, env: Env)
    requires cfg.categories == [] && cfg.feeds != []
    ensures var root := InlineTree(cfg, env).tree["/"];
      |root| > 0 && root[0].inode == RootEntry(env.now).inode
  {
    var a0 := Acc(map[], [], FirstInode, NoCache);
    assert InlineCategories(cfg.categories, a0, env) == a0;
    FirstListed("/", cfg.feeds, a0, env);
  }

  lemma {:induction false} FirstListed(prefix: string, feeds: seq<Feed>, a: Acc, env: Env)
    requires a.listing == [] && feeds != []
    ensures var r := InlineFeeds(prefix, feeds, a, env);
      |r.listing| > 0 && r.listing[0] == LiveFeedDir(env.parseUrl(feeds[0].url), a.next, env)
  {
    var init := feeds[..|feeds| - 1];
    var prev := InlineFeeds(prefix, init, a, env);
    InlineFeedStepInodes(prefix, feeds[|feeds| - 1], prev, env);
    if init != [] {
      FirstListed(prefix, init, a, env);
    }
  }

  /** main's start-up: the seeded index, the tree built inline, and the
      tree flattened into the index. */
  method Startup(cfg: Config, env: Env) returns (tree: Tree, fileIndex: Index)
    ensures tree == InlineTree(cfg, env).tree
    ensures IsFlattening(SeedIndex(env.now), tree, fileIndex)
  {
    fileIndex := SeedIndex(env.now);
    var nodeCount;
    tree, nodeCount := BuildInline(cfg, env);
    fileIndex := Flatten(fileIndex, tree);
  }
}
