/** UpdateSingleFeed and its helpers: item timestamps, the ByTitle order,
    the collision-numbered file names and the inode numbers of one feed's
    files. */
module Naming {
  import opened Text
  import opened Entities
  import opened FileNames
  import opened Render
  import opened Cache

  /** The updated time when there is one, else the published time, else now. */
  function Fallback(updated: Option<Time>, published: Option<Time>, now: Time): (t: Time)
    ensures updated.Some? ==> t == updated.value
    ensures updated.None? && published.Some? ==> t == published.value
    ensures updated.None? && published.None? ==> t == now
  {
    match updated
    case Some(u) => u
    case None => if published.Some? then published.value else now
  }

  /** getItemTimestamp. */
  function ItemTimestamp(item: Item, now: Time): (t: Time)
    ensures item.updated.Some? ==> t == item.updated.value
    ensures item.updated.None? ==> t == if item.published.Some? then item.published.value else now
  {
    Fallback(item.updated, item.published, now)
  }

  /** The timestamp of a feed directory. */
  function FeedTimestamp(data: FeedData, now: Time): (t: Time)
    ensures data.updated.Some? ==> t == data.updated.value
    ensures data.updated.None? ==> t == if data.published.Some? then data.published.value else now
  {
    Fallback(data.updated, data.published, now)
  }

  /** The cleaned title items are sorted and named by. */
  function Key(item: Item): string {
    Clean(item.title)
  }

  /** The sort keys of `items`, in order. */
  function Keys(items: seq<Item>): (ks: seq<string>)
    ensures |ks| == |items|
  {
    if items == [] then [] else Keys(items[..|items| - 1]) + [Key(items[|items| - 1])]
  }

  lemma {:induction false} KeyAt(items: seq<Item>, i: nat)
    requires i < |items|
    ensures Keys(items)[i] == Key(items[i])
  {
    if i < |items| - 1 {
      KeyAt(items[..|items| - 1], i);
    }
  }

  /** ByTitle.Less. */
  predicate TitleLess(a: Item, b: Item) {
    StrLess(Key(a), Key(b))
  }

  /** ByTitle.Less is a strict weak order whose ties are exactly the items
      with equal cleaned titles, so sorting by it is well defined up to the
      order among such ties. */
  lemma TitleLessIsStrictWeakOrder(a: Item, b: Item, c: Item)
    ensures !TitleLess(a, a)
    ensures TitleLess(a, b) && TitleLess(b, c) ==> TitleLess(a, c)
    ensures !TitleLess(a, b) && !TitleLess(b, a) <==> Key(a) == Key(b)
  {
    StrLessIrreflexive(Key(a));
    if TitleLess(a, b) && TitleLess(b, c) {
      StrLessTransitive(Key(a), Key(b), Key(c));
    }
    StrLessTotal(Key(a), Key(b));
    if Key(a) == Key(b) {
      StrLessIrreflexive(Key(b));
    }
  }

  /** Each string is at most the next one in Go's string order. */
  predicate Ascending(ks: seq<string>) {
    forall i :: 0 < i < |ks| ==> StrLessEq(ks[i - 1], ks[i])
  }

  /** Each item's cleaned title is at most the next item's. */
  predicate SortedByTitle(items: seq<Item>) {
    forall i :: 0 < i < |items| ==> StrLessEq(Key(items[i - 1]), Key(items[i]))
  }

  lemma SortedByTitleAscending(items: seq<Item>)
    requires SortedByTitle(items)
    ensures Ascending(Keys(items))
  {
    var ks := Keys(items);
    forall i | 0 < i < |ks|
      ensures StrLessEq(ks[i - 1], ks[i])
    {
      KeyAt(items, i - 1);
      KeyAt(items, i);
    }
  }

  /** In an ascending sequence every earlier string is at most every later one. */
  lemma {:induction false} AscendingGlobally(ks: seq<string>, i: nat, j: nat)
    requires Ascending(ks) && i <= j < |ks|
    ensures StrLessEq(ks[i], ks[j])
    decreases j
  {
    if i < j {
      AscendingGlobally(ks, i, j - 1);
      StrLessEqTransitive(ks[i], ks[j - 1], ks[j]);
    }
  }

  /** `x` placed after every item whose cleaned title is at most its own. */
  function InsertByTitle(x: Item, s: seq<Item>): (r: seq<Item>)
    ensures |r| == |s| + 1
  {
    if s == [] then [x]
    else if TitleLess(x, s[0]) then [x] + s
    else [s[0]] + InsertByTitle(x, s[1..])
  }

  /** Inserting adds exactly `x`. */
  lemma {:induction false} InsertByTitlePerm(x: Item, s: seq<Item>)
    ensures multiset(InsertByTitle(x, s)) == multiset(s) + multiset{x}
  {
    if s != [] && !TitleLess(x, s[0]) {
      InsertByTitlePerm(x, s[1..]);
      assert s == [s[0]] + s[1..];
    }
  }

  /** Inserting into a sorted sequence keeps it sorted; the first element
      is `x` or the old first element. */
  lemma {:induction false} InsertByTitleSorted(x: Item, s: seq<Item>)
    requires SortedByTitle(s)
    ensures var r := InsertByTitle(x, s);
      && SortedByTitle(r)
      && (r[0] == x || (s != [] && r[0] == s[0]))
  {
    if s != [] && !TitleLess(x, s[0]) {
      StrLessTotal(Key(x), Key(s[0]));
      InsertByTitleSorted(x, s[1..]);
    }
  }

  /** sort.Sort(ByTitle(items)), as an insertion sort; it is stable, which
      is one of the orders sort.Sort may produce. */
  function SortByTitle(items: seq<Item>): (r: seq<Item>)
    ensures |r| == |items|
  {
    if items == [] then []
    else InsertByTitle(items[|items| - 1], SortByTitle(items[..|items| - 1]))
  }

  /** The sorted items are ordered by cleaned title and are a permutation
      of the input. */
  lemma {:induction false} SortByTitleSpec(items: seq<Item>)
    ensures SortedByTitle(SortByTitle(items))
    ensures multiset(SortByTitle(items)) == multiset(items)
  {
    if items != [] {
      var init := items[..|items| - 1];
      SortByTitleSpec(init);
      InsertByTitleSorted(items[|items| - 1], SortByTitle(init));
      InsertByTitlePerm(items[|items| - 1], SortByTitle(init));
      assert items == init + [items[|items| - 1]];
    }
  }

  /** col_cnt once position `i` has been named. prev_fname starts as "",
      so a first item whose cleaned title is empty already counts as a
      repeat. */
  function ColCount(ks: seq<string>, i: nat): nat
    requires i < |ks|
  {
    var prev := if i == 0 then "" else ks[i - 1];
    var before := if i == 0 then 0 else ColCount(ks, i - 1);
    if ks[i] == prev then before + 1 else 0
  }

  /** How many of the first `i` keys are `k`. */
  function CountBefore(ks: seq<string>, i: nat, k: string): nat
    requires i <= |ks|
  {
    if i == 0 then 0 else CountBefore(ks, i - 1, k) + (if ks[i - 1] == k then 1 else 0)
  }

  /** The collision suffix "[n]" for a repeat, nothing for a first occurrence. */
  function FileName(clean: string, colCnt: nat, ext: string): string {
    if colCnt > 0 then clean + " [" + Decimal(colCnt) + "]." + ext else clean + "." + ext
  }

  /** The file one item becomes. */
  function ItemFile(feed: Feed, item: Item, name: string, colCnt: nat, inode: nat, env: Env): (f: IndexedFile)
    ensures !f.isDirectory && f.feed.None? && f.inode == inode
  {
    var out := GenerateOutputData(feed, item, env.lineBreak, env.toText);
    IndexedFile(FileName(name, colCnt, out.ext), false, ItemTimestamp(item, env.now), inode, Utf8(out.content), None)
  }

  /** The files of the first `n` of one feed's (already sorted) items: one
      per item, in item order, numbered from `start`. */
  function FeedFilesUpTo(feed: Feed, items: seq<Item>, ks: seq<string>, start: nat, env: Env, n: nat): (files: seq<IndexedFile>)
    requires n <= |items| == |ks|
    ensures |files| == n
  {
    if n == 0 then []
    else FeedFilesUpTo(feed, items, ks, start, env, n - 1)
         + [ItemFile(feed, items[n - 1], ks[n - 1], ColCount(ks, n - 1), start + n - 1, env)]
  }

  function FeedFiles(feed: Feed, items: seq<Item>, start: nat, env: Env): (files: seq<IndexedFile>)
    ensures |files| == |items|
  {
    FeedFilesUpTo(feed, items, Keys(items), start, env, |items|)
  }

  /** File `i` of a feed is item `i` with its collision count and inode start + i. */
  lemma {:induction false} FeedFileAt(feed: Feed, items: seq<Item>, ks: seq<string>, start: nat, env: Env, n: nat, i: nat)
    requires i < n <= |items| == |ks|
    ensures FeedFilesUpTo(feed, items, ks, start, env, n)[i]
         == ItemFile(feed, items[i], ks[i], ColCount(ks, i), start + i, env)
  {
    var last := ItemFile(feed, items[n - 1], ks[n - 1], ColCount(ks, n - 1), start + n - 1, env);
    var prev := FeedFilesUpTo(feed, items, ks, start, env, n - 1);
    FeedFilesStep(feed, items, ks, start, env, n - 1, last);
    if i < n - 1 {
      FeedFileAt(feed, items, ks, start, env, n - 1, i);
      assert (prev + [last])[i] == prev[i];
    } else {
      assert (prev + [last])[i] == last;
    }
  }

  lemma FeedFilesStep(feed: Feed, items: seq<Item>, ks: seq<string>, start: nat, env: Env, n: nat, f: IndexedFile)
    requires n < |items| == |ks|
    requires f == ItemFile(feed, items[n], ks[n], ColCount(ks, n), start + n, env)
    ensures FeedFilesUpTo(feed, items, ks, start, env, n + 1) == FeedFilesUpTo(feed, items, ks, start, env, n) + [f]
  {
  }

  /** In ascending order, the n-th occurrence (counting from 0) of a key
      gets collision number n; an empty key starts at 1. */
  lemma {:induction false} ColCountIsRank(ks: seq<string>, i: nat)
    requires Ascending(ks) && i < |ks|
    ensures ColCount(ks, i) == CountBefore(ks, i, ks[i]) + (if ks[i] == "" then 1 else 0)
  {
    if i > 0 {
      ColCountIsRank(ks, i - 1);
      if ks[i] != ks[i - 1] {
        forall j | 0 <= j < i
          ensures ks[j] != ks[i]
        {
          AscendingGlobally(ks, j, i - 1);
          if ks[j] == ks[i] {
            StrLessEqAntisymmetric(ks[i - 1], ks[i]);
          }
        }
        CountBeforeAbsent(ks, i, ks[i]);
      }
    }
  }

  lemma {:induction false} CountBeforeAbsent(ks: seq<string>, i: nat, k: string)
    requires i <= |ks|
    requires forall j :: 0 <= j < i ==> ks[j] != k
    ensures CountBefore(ks, i, k) == 0
  {
    if i > 0 {
      CountBeforeAbsent(ks, i - 1, k);
    }
  }

  /** The file names of a sorted feed: the cleaned title, " [n]" for the
      n-th repeat of that title, and the extension. */
  lemma FeedFileNames(feed: Feed, items: seq<Item>, start: nat, env: Env, i: nat)
    requires SortedByTitle(items) && i < |items|
    ensures var ks := Keys(items);
      var ext := GenerateOutputData(feed, items[i], env.lineBreak, env.toText).ext;
      FeedFiles(feed, items, start, env)[i].filename
        == FileName(ks[i], CountBefore(ks, i, ks[i]) + (if ks[i] == "" then 1 else 0), ext)
  {
    var ks := Keys(items);
    KeyAt(items, i);
    SortedByTitleAscending(items);
    ColCountIsRank(ks, i);
    FeedFileAt(feed, items, ks, start, env, |items|, i);
    ItemFileName(feed, items[i], ks[i], ColCount(ks, i), start + i, env);
  }

  lemma ItemFileName(feed: Feed, item: Item, name: string, colCnt: nat, inode: nat, env: Env)
    ensures ItemFile(feed, item, name, colCnt, inode, env).filename
         == FileName(name, colCnt, GenerateOutputData(feed, item, env.lineBreak, env.toText).ext)
  {
  }

  /** The inodes of one feed's files are start, start + 1, ... and so all differ. */
  lemma FeedFileInodes(feed: Feed, items: seq<Item>, start: nat, env: Env)
    ensures var files := FeedFiles(feed, items, start, env);
      forall i :: 0 <= i < |files| ==> files[i].inode == start + i
  {
    forall i | 0 <= i < |items| {
      FeedFileAt(feed, items, Keys(items), start, env, |items|, i);
    }
  }

  /** The naming loop of UpdateSingleFeed over already sorted items. */
  method NameItems(feed: Feed, items: seq<Item>, nodeCount: nat, env: Env) returns (files: seq<IndexedFile>, next: nat)
    ensures files == FeedFiles(feed, items, nodeCount, env)
    ensures next == nodeCount + |items|
  {
    var fname, prevFname := "", "";
    var colCnt := 0;
    files := [];
    next := nodeCount;
    ghost var ks := Keys(items);
    for i := 0 to |items|
      invariant next == nodeCount + i
      invariant files == FeedFilesUpTo(feed, items, ks, nodeCount, env, i)
      invariant prevFname == if i == 0 then "" else ks[i - 1]
      invariant colCnt == if i == 0 then 0 else ColCount(ks, i - 1)
    {
      var item := items[i];
      var itemTimestamp := ItemTimestamp(item, env.now);
      fname := FileNameClean(item.title);
      KeyAt(items, i);
      if fname == prevFname {
        colCnt := colCnt + 1;
      } else {
        colCnt := 0;
      }
      assert colCnt == ColCount(ks, i);
      prevFname := fname;
      var out := GenerateOutputData(feed, item, env.lineBreak, env.toText);
      ghost var clean := fname;
      if colCnt > 0 {
        fname := fname + " [" + Decimal(colCnt) + "]." + out.ext;
      } else {
        fname := fname + "." + out.ext;
      }
      assert fname == FileName(clean, colCnt, out.ext);
      var file := IndexedFile(fname, false, itemTimestamp, next, Utf8(out.content), None);
      NameItemStep(feed, items, ks, nodeCount, env, i, file);
      files := files + [file];
      next := next + 1;
    }
  }

  /** One pass of the naming loop appends the file of item `i`. */
  lemma NameItemStep(feed: Feed, items: seq<Item>, ks: seq<string>, start: nat, env: Env, i: nat, file: IndexedFile)
    requires i < |items| == |ks|
    requires var out := GenerateOutputData(feed, items[i], env.lineBreak, env.toText);
      file == IndexedFile(FileName(ks[i], ColCount(ks, i), out.ext), false, ItemTimestamp(items[i], env.now),
                          start + i, Utf8(out.content), None)
    ensures FeedFilesUpTo(feed, items, ks, start, env, i + 1) == FeedFilesUpTo(feed, items, ks, start, env, i) + [file]
  {
    FeedFilesStep(feed, items, ks, start, env, i, file);
  }

  /** What UpdateSingleFeed returns, and the cache it leaves behind. */
  datatype FeedBuild = FeedBuild(files: seq<IndexedFile>, next: nat, data: FeedData, store: CacheState)

  /** UpdateSingleFeed as a function of the cache it starts from: fetch,
      sort the items by cleaned title, name and number them. */
  function SingleFeed(feed: Feed, store: CacheState, start: nat, env: Env): (r: FeedBuild)
    ensures |r.files| == |r.data.items| && r.next == start + |r.files|
  {
    var f := Fetch(feed, store.entries, env);
    var items := SortByTitle(f.data.items);
    FeedBuild(FeedFiles(feed, items, start, env), start + |items|, f.data.(items := items), AfterFetch(feed, store, f))
  }

  /** UpdateSingleFeed returns the fetched feed with its items sorted by
      cleaned title (a permutation of them), one file per item, and the
      cache as the fetch left it. */
  lemma SingleFeedSpec(feed: Feed, store: CacheState, start: nat, env: Env)
    ensures var r := SingleFeed(feed, store, start, env);
      var fetched := Fetch(feed, store.entries, env).data;
      && r.data == fetched.(items := r.data.items)
      && SortedByTitle(r.data.items)
      && multiset(r.data.items) == multiset(fetched.items)
      && r.files == FeedFiles(feed, r.data.items, start, env)
      && r.store == AfterFetch(feed, store, Fetch(feed, store.entries, env))
  {
    SortByTitleSpec(Fetch(feed, store.entries, env).data.items);
  }

  /** UpdateSingleFeed. */
  method UpdateSingleFeed(feed: Feed, nodeCount: nat, cache: FeedCache, env: Env)
    returns (files: seq<IndexedFile>, next: nat, data: FeedData)
    modifies cache
    ensures var r := SingleFeed(feed, old(cache.State()), nodeCount, env);
      files == r.files && next == r.next && data == r.data && cache.State() == r.store
  {
    var fetched := cache.Load(feed, env);
    var items := SortByTitle(fetched.items);
    data := fetched.(items := items);
    files, next := NameItems(feed, items, nodeCount, env);
  }

  /** Titles x, x and a greater y, fed in as y, x, x: the items are sorted
      to x, x, y and named "x.ext", "x [1].ext" and "y.ext". */
  lemma RepeatedTitleNumbered(feed: Feed, x: Item, y: Item, start: nat, env: Env)
    requires Key(x) != "" && TitleLess(x, y)
    ensures var items := SortByTitle([y, x, x]);
      var files := FeedFiles(feed, items, start, env);
      var ext := if feed.plainText then "txt" else "html";
      && items == [x, x, y]
      && files[0].filename == Key(x) + "." + ext
      && files[1].filename == Key(x) + " [1]." + ext
      && files[2].filename == Key(y) + "." + ext
  {
    TitleLessIsStrictWeakOrder(x, y, y);
    TitleLessIsStrictWeakOrder(x, x, x);
    SortThree(y, x);
    NamesOfThree(feed, x, y, start, env);
  }

  /** A title whose cleaned form is another's plus " [1]" is named like the
      repeat of the other: titles z, x, x with Key(z) == Key(x) + " [1]"
      give two files with the same name. */
  lemma SuffixedTitleClash(feed: Feed, x: Item, z: Item, start: nat, env: Env)
    requires Key(x) != "" && Key(z) == Key(x) + " [1]"
    ensures var items := SortByTitle([z, x, x]);
      var files := FeedFiles(feed, items, start, env);
      items == [x, x, z] && files[1].filename == files[2].filename
  {
    SuffixedTitleLess(x, z);
    TitleLessIsStrictWeakOrder(x, x, x);
    SortThree(z, x);
    NamesOfThree(feed, x, z, start, env);
    SuffixedName(Key(x), if feed.plainText then "txt" else "html");
  }

  lemma SuffixedTitleLess(x: Item, z: Item)
    requires Key(z) == Key(x) + " [1]"
    ensures TitleLess(x, z)
  {
    StrLessPrefix(Key(x), " [1]");
  }

  lemma SuffixedName(k: string, ext: string)
    ensures (k + " [1]") + "." + ext == k + " [1]." + ext
  {
  }

  lemma SortThree(y: Item, x: Item)
    requires TitleLess(x, y) && !TitleLess(x, x)
    ensures SortByTitle([y, x, x]) == [x, x, y]
  {
    var input := [y, x, x];
    assert input[..2] == [y, x] && input[..2][..1] == [y] && [y][..0] == [];
    assert SortByTitle([y]) == [y];
    assert SortByTitle([y, x]) == [x, y];
    assert InsertByTitle(x, [y]) == [x, y];
    assert InsertByTitle(x, [x, y]) == [x] + InsertByTitle(x, [y]);
  }

  lemma NamesOfThree(feed: Feed, x: Item, y: Item, start: nat, env: Env)
    requires Key(x) != "" && Key(x) != Key(y)
    ensures var files := FeedFiles(feed, [x, x, y], start, env);
      var ext := if feed.plainText then "txt" else "html";
      && files[0].filename == Key(x) + "." + ext
      && files[1].filename == Key(x) + " [1]." + ext
      && files[2].filename == Key(y) + "." + ext
  {
    var items := [x, x, y];
    var ext := if feed.plainText then "txt" else "html";
    KeysOfThree(x, y);
    CountsOfThree(Key(x), Key(y));
    FileNameAt(feed, items, start, env, 0);
    FileNameAt(feed, items, start, env, 1);
    FileNameAt(feed, items, start, env, 2);
    FirstRepeatName(Key(x), ext);
  }

  lemma KeysOfThree(x: Item, y: Item)
    ensures Keys([x, x, y]) == [Key(x), Key(x), Key(y)]
  {
    var items := [x, x, y];
    KeyAt(items, 0);
    KeyAt(items, 1);
    KeyAt(items, 2);
  }

  lemma CountsOfThree(a: string, b: string)
    requires a != "" && a != b
    ensures ColCount([a, a, b], 0) == 0 && ColCount([a, a, b], 1) == 1 && ColCount([a, a, b], 2) == 0
  {
  }

  lemma FirstRepeatName(k: string, ext: string)
    ensures FileName(k, 1, ext) == k + " [1]." + ext
    ensures FileName(k, 0, ext) == k + "." + ext
  {
    assert Decimal(1) == "1";
  }

  /** The name of file `i` of a feed, from its key and collision count. */
  lemma FileNameAt(feed: Feed, items: seq<Item>, start: nat, env: Env, i: nat)
    requires i < |items|
    ensures FeedFiles(feed, items, start, env)[i].filename
         == FileName(Keys(items)[i], ColCount(Keys(items), i), if feed.plainText then "txt" else "html")
  {
    FeedFileAt(feed, items, Keys(items), start, env, |items|, i);
  }
}
