# rssfs in Dafny

rssfs mounts RSS and Atom feeds as a read-only file system. The configuration
lists feeds, either on their own or grouped under named categories. Each
category becomes a directory. Each feed becomes a directory holding one file
per item. An item file holds the rendered item, as HTML or as plain text.

This project models the part of rssfs that decides what the file system
contains:

- **Names.** Names are cleaned of path separators and surrounding white space
  (`fileNameClean`). Items are sorted by cleaned title (`ByTitle`). Repeated
  titles get a collision suffix `" [n]"` (`UpdateSingleFeed`).
- **Timestamps and content.** An item's timestamp falls back from the updated
  time to the published time to now. Content is rendered by
  `GenerateOutputData`.
- **Feed cache.** Cache keys are derived from the URL. An entry's lifetime is
  its feed's minutes, or 60 by default. A cached copy that no longer decodes
  falls back to a live fetch.
- **The two tree builders.** `PopulateFeedTree` runs on every directory
  listing. The older inline build in `main` runs at start-up. Both hand out
  inode numbers from a counter that starts at 1001.
- **The path index.** The tree is flattened into a flat map from full paths to
  entries.
- **The FUSE adapter's requests.** Opendir, Readdir, Lookup, Getattr, Read and
  Open, with each entry's size, mode and attributes.

Everything the program takes from outside is a parameter of type
`Entities.Env`:

- the feed parser's result for a URL;
- the HTML-to-text converter;
- the cache's binary encoder and decoder;
- the platform line break;
- the current time.

Modules, one per file:

| file | module | models |
|---|---|---|
| text.dfy | Text | Go's string `<`, Unicode white space, `%d`, UTF-8 conversion |
| entities.dfy | Entities | feeds, categories, configuration, items, indexed files, the environment |
| filenames.dfy | FileNames | `fileNameClean` |
| cache.dfy | Cache | the cache key, time to live, fetch decision and the cache object |
| render.dfy | Render | `GenerateOutputData` |
| naming.dfy | Naming | timestamps, `ByTitle`, collision naming, `UpdateSingleFeed` |
| treebuild.dfy | TreeBuild | `PopulateFeedTree` |
| inodes.dfy | TreeInodes | distinct inode numbers in `PopulateFeedTree`'s tree |
| treeshape.dfy | TreeShape | what the root and category directories list |
| feedpaths.dfy | FeedPaths | how listed feed directories lead to the keys holding their files |
| inlinebuild.dfy | InlineBuild | the tree `main` builds |
| index.dfy | PathIndex | the seeded root entry, flattening the tree into the path index, start-up |
| fuse.dfy | Fuse | size, mode, attributes and the FUSE requests |

Where the design description and the code disagree, the model follows the
code:

- **Standalone feeds.** A feed listed outside any category is not handled
  like a category feed. Its directory entry is named from a separate live
  fetch and takes the current counter value. The counter then advances by
  100, and only then are the feed's files fetched (possibly from the cache)
  and numbered (feed-helpers.go:204-236). `TreeBuild.StandaloneStep` and
  `TreeInodes.StandaloneStepInodes` state this order. Because the listed
  name comes from the live fetch and the key from the second fetch, a cache
  hit whose decoded title cleans differently files the feed's items under a
  path the root does not list (`TreeShape.StandaloneCachedTitleMismatch`).
- **Empty category names.** A category whose cleaned name is empty has the
  key `"/"`, which the root listing overwrites at the end of the build, and
  its feeds' files sit under `"//" + name`, while the path join of `"/"`
  and a name gives `"/" + name`. `FeedPaths` therefore states
  the path link for categories with a non-empty cleaned name.
- **Reads past the end.** A read whose offset lies past the end of the data
  is described as returning nothing. The code slices `Data[off:end]` with
  `end < off`, which panics in Go. `Fuse.Filesystem.Read` therefore requires
  the offset to be within the data.
- **Inode 1001 is used twice.** The root entry seeded into the path index has
  inode 1001. Both builders also start their counters at 1001. So the first
  entry a build creates shares its inode with the root
  (`PathIndex.RootInodeReused`).
- **File names are not always unique within a directory.** The collision
  suffix only compares each cleaned title with the previous one in sorted
  order. An item titled `"A [1]"` therefore gets the same name as the second
  item titled `"A"` (`Naming.SuffixedTitleClash`). The inline build in `main`
  adds no suffix at all, so equal titles give equal names
  (`PathIndex.InlineDuplicateTitles`). An item whose cleaned title is empty
  gets `" [1]"` even when it comes first, because the previous name starts
  out as `""` (`Naming.FeedFileNames`, `Naming.ColCountIsRank`).
- **The path index for ambiguous trees.** The index holds the listed entry
  under each path only when no two children share a full path. Otherwise it
  holds one of them (`PathIndex.FlattenUnambiguous`).
- **Stale paths stay in the index.** A refresh never removes a key from the
  index, so paths from earlier builds stay reachable through Lookup, Getattr,
  Read and Open (`PathIndex.IsFlattening`).
- **File size.** The `Size` field declared in rss.go is never set. The size
  reported is computed from the data (`Fuse.Size`).
- **Entry fields.** The directory entries `PopulateFeedTree` creates carry a
  back reference to their feed. Feeds also have the `Cache` and `CacheMins`
  options read in feed-helpers.go. The model uses these fields throughout,
  and the inline build leaves the back reference empty.

## Model

| member | source | states |
|---|---|---|
| Text.StrLessIrreflexive | feed-helpers.go:20-22 | no cleaned title sorts before itself under Go's string `<` |
| Text.StrLessTransitive | feed-helpers.go:20-22 | the string order `ByTitle.Less` uses is transitive |
| Text.StrLessTotal | feed-helpers.go:20-22 | any two different strings are ordered one way or the other |
| Text.StrLessAsymmetric | feed-helpers.go:20-22 | two strings are never each less than the other |
| Text.StrLessPrefix | feed-helpers.go:20-22 | a string sorts before every longer string it begins, such as itself plus `" [1]"` |
| Text.Decimal | feed-helpers.go:127 | `%d` of a count is a non-empty run of decimal digits without a leading zero |
| Text.DecimalRoundTrip | feed-helpers.go:127 | reading back the digits `%d` prints gives the number |
| Text.Utf8 | feed-helpers.go:136 | `[]byte(content)` is at least as long as the content |
| Text.Utf8Append | feed-helpers.go:136 | converting a concatenation to bytes concatenates the conversions |
| FileNames.TrimSpace | rss.go:67 | trimming never lengthens a string |
| FileNames.TrimSpaceSpec | rss.go:67 | `strings.TrimSpace` returns a contiguous slice of its input with only white space cut off before and after it, and the slice neither starts nor ends with white space |
| FileNames.TrimSpaceSlice | rss.go:67 | the slice starts after the leading white space and is as long as the trimmed result |
| FileNames.Clean | rss.go:59-68 | a cleaned name is never longer than the input |
| FileNames.CleanSpec | rss.go:59-68 | a cleaned name contains none of `/`, `\`, `:`, neither starts nor ends with white space, and is a slice of the dashed input with only white space cut off at either end |
| FileNames.CleanIsDashedSlice | rss.go:59-68 | a cleaned name is a slice of the input in which each `/`, `\`, `:` became `-`, with only white space of the input before and after it |
| FileNames.FileNameClean | rss.go:59-68 | the three replacement passes and the trim compute `Clean`, which is never longer than the input |
| FileNames.CleanKeepsSafeNames | rss.go:59-68 | a name without those characters and without surrounding white space is left unchanged |
| FileNames.CleanIdempotent | rss.go:59-68 | cleaning a cleaned name changes nothing |
| Cache.AlNumOnly | feed-helpers.go:50-55 | removing every `[^a-zA-Z0-9]+` run keeps only ASCII letters and digits |
| Cache.AlNumOnlyKeepsAlNum | feed-helpers.go:50-55 | a URL made only of letters and digits is kept whole |
| Cache.AlNumOnlyAppend | feed-helpers.go:50-55 | the removal works piece by piece over a concatenation |
| Cache.CacheKey | feed-helpers.go:55 | the key is `"feed-"` followed by the URL's letters and digits |
| Cache.DistinctUrlsShareKey | feed-helpers.go:55 | the URLs `a.b/c` and `ab.c` share the key `feed-abc` |
| Cache.CacheTtl | feed-helpers.go:64-69 | the lifetime is the feed's minutes, or 60 when that is 0 |
| Cache.Fetch | feed-helpers.go:56-96 | a fetch stores only when caching is on and the key is missing, and its feed is either the live-fetched one or the decoded cache entry |
| Cache.AfterFetch | feed-helpers.go:71-80 | updating the cache after a fetch keeps every key and at most appends one timer, keeping the earlier ones |
| Cache.FetchCases | feed-helpers.go:47-103 | fetches live when caching is off or the key is missing; stores exactly when the key was missing and encoding succeeds; else decodes the entry, falling back to a live fetch when decoding fails |
| Cache.AfterFetchSpec | feed-helpers.go:71-80 | a successful store writes the encoded feed under the key, keeps every other entry and schedules one erase after the lifetime; otherwise nothing changes |
| Cache.Expire | feed-helpers.go:24-30 | the timer's erase removes exactly that key |
| Cache.SecondFetchHitsCache | feed-helpers.go:56-96 | after a stored fetch, fetching again reads the cache, gets the same feed and stores nothing |
| Cache.ExpiredEntryIsFetchedLive | feed-helpers.go:24-30 | once the entry is erased, the next fetch is live and stores again when encoding succeeds |
| Cache.FeedCache.constructor | feed-helpers.go:56 | a new cache has no entries and no timers |
| Cache.FeedCache.Read | feed-helpers.go:56 | found exactly when the key has an entry, and returns that entry |
| Cache.FeedCache.Write | feed-helpers.go:78 | sets one entry and leaves the timers alone |
| Cache.FeedCache.ScheduleErase | feed-helpers.go:79 | records one erase of the key after the given minutes |
| Cache.FeedCache.Erase | feed-helpers.go:28 | the new state is `Expire` of the old one |
| Cache.FeedCache.Load | feed-helpers.go:47-103 | returns `Fetch`'s feed and leaves the cache as `AfterFetch` describes |
| Render.GenerateOutputData | feed-helpers.go:244-273 | the extension is `txt` for plain-text feeds and `html` otherwise |
| Render.OutputLayout | feed-helpers.go:248-270 | plain text is the title, the link line only when shown, two line breaks and the converted body; HTML is the heading, a line break and the body unchanged |
| Render.RenderingDependsOnlyOnOptions | feed-helpers.go:244-273 | feeds that agree on `PlainText` and `ShowLink` render an item identically |
| Render.HtmlWithLinkExample | feed-helpers.go:263-268 | an HTML item with a link renders as `<h1><a href="L">T</a></h1>` followed by a line break and the body |
| Render.PlainTextWithLinkExample | feed-helpers.go:248-258 | a plain-text item with a link renders as title, link, blank line and converted body |
| Naming.Fallback | feed-helpers.go:32-40 | the updated time if present, else the published time, else now |
| Naming.KeyAt | feed-helpers.go:117 | the key of item i is its cleaned title |
| Naming.TitleLessIsStrictWeakOrder | feed-helpers.go:20-22 | `ByTitle.Less` is irreflexive and transitive, and two items tie exactly when their cleaned titles are equal |
| Naming.SortedByTitleAscending | feed-helpers.go:105 | sorted items have ascending keys |
| Naming.AscendingGlobally | feed-helpers.go:105 | in ascending keys every earlier key is at most every later one |
| Naming.InsertByTitlePerm | feed-helpers.go:105 | inserting an item adds exactly that item |
| Naming.InsertByTitleSorted | feed-helpers.go:105 | inserting into sorted items keeps them sorted |
| Naming.ItemTimestamp | feed-helpers.go:32-40 | an item's timestamp is its update time, else its publication time, else the current time |
| Naming.FeedTimestamp | feed-helpers.go:167-176 | a feed directory's timestamp is the feed's update time, else its publication time, else the current time |
| Naming.SortByTitle | feed-helpers.go:105 | sorting keeps the number of items |
| Naming.SortByTitleSpec | feed-helpers.go:105 | sorting yields items sorted by cleaned title that are a permutation of the input |
| Naming.ItemFile | feed-helpers.go:132-137 | an item's file is a regular file with no feed reference and the given inode |
| Naming.FeedFileAt | feed-helpers.go:113-140 | file i is item i named with its collision count and numbered start + i |
| Naming.ColCountIsRank | feed-helpers.go:116-123 | the collision count is how many earlier items share the key, plus one for the empty key |
| Naming.CountBeforeAbsent | feed-helpers.go:116-123 | a key that no earlier item has counts zero |
| Naming.FeedFileNames | feed-helpers.go:117-130 | file i is named key, then `" [n]"` when n > 0, then `.ext`, where n counts the earlier equal keys |
| Naming.ItemFileName | feed-helpers.go:126-130 | the name is the key with the suffix only for a positive count |
| Naming.FeedFileInodes | feed-helpers.go:135-139 | a feed's files are numbered start, start + 1, ... in order |
| Naming.NameItemStep | feed-helpers.go:109-139 | one pass of the naming loop appends to the named files the file for the next sorted item, named from its cleaned title and collision count |
| Naming.NameItems | feed-helpers.go:107-140 | the naming loop returns `FeedFiles` of the sorted items and advances the counter by their number |
| Naming.SingleFeed | feed-helpers.go:42-143 | one file per fetched item, and the counter advanced by that many |
| Naming.SingleFeedSpec | feed-helpers.go:42-143 | the result is the fetched feed with its items sorted (a permutation), one named file per item, and the cache as the fetch left it |
| Naming.UpdateSingleFeed | feed-helpers.go:42-143 | the files, counter, feed data and cache state are those of `SingleFeed` |
| Naming.RepeatedTitleNumbered | feed-helpers.go:105-130 | items titled y, x, x (x < y) are sorted to x, x, y and named `x.ext`, `x [1].ext`, `y.ext` |
| Naming.SuffixedTitleClash | feed-helpers.go:116-130 | a title cleaning to x + `" [1]"` gets the same file name as the second item titled x |
| TreeBuild.FeedDir | feed-helpers.go:178-184 | a feed directory is a directory with the given inode that points back to its feed |
| TreeBuild.CategoryDir | feed-helpers.go:194-199 | a category directory is a directory with the given inode and no feed |
| TreeBuild.BuildTree | feed-helpers.go:145-242 | the built tree always has a root listing |
| TreeBuild.MakeFeedDir | feed-helpers.go:165-184 | builds the directory entry of a feed |
| TreeBuild.FileFeed | feed-helpers.go:163-188 | files `UpdateSingleFeed`'s files under the prefix and the returned title, and advances the counter and the cache as it does |
| TreeBuild.AddCategoryFeeds | feed-helpers.go:162-189 | the category's feed loop computes the `CategoryFeeds` fold: files, listing, counter and cache |
| TreeBuild.AddCategories | feed-helpers.go:157-202 | the category loop computes the `Categories` fold from inode 1001 |
| TreeBuild.AddStandalones | feed-helpers.go:204-236 | the standalone loop computes the `Standalones` fold |
| TreeBuild.PopulateFeedTree | feed-helpers.go:145-242 | returns `BuildTree`'s tree and leaves the cache in its final state |
| TreeBuild.StandalonesSnoc | feed-helpers.go:204-236 | the standalone fold unrolls one feed at a time |
| TreeInodes.SingleFeedInodes | feed-helpers.go:135-139 | a feed's files are numbered consecutively from the counter, distinct and within its new range |
| TreeInodes.CategoryFeedStepInodes | feed-helpers.go:163-188 | a category feed's files come first, its directory takes the next number, then the counter skips 100 |
| TreeInodes.StandaloneStepInodes | feed-helpers.go:221-235 | a standalone feed's directory takes the counter, and its files start 100 later |
| TreeInodes.CategoryStepInodes | feed-helpers.go:191-201 | a category lists its feeds, and its directory is numbered after all of them |
| TreeInodes.CategoryFeedsNumbered | feed-helpers.go:162-189 | the category feed loop keeps every inode in the tree and listing distinct |
| TreeInodes.CategoriesNumbered | feed-helpers.go:157-202 | the category loop keeps every inode distinct and only appends to the root listing |
| TreeInodes.StandalonesNumbered | feed-helpers.go:204-236 | the standalone loop keeps every inode distinct |
| TreeInodes.BuildTreeInodesDistinct | feed-helpers.go:145-242 | no two entries anywhere in the built tree share an inode, and all lie in [1001, final counter) |
| TreeShape.CategoryFeedsListing | feed-helpers.go:162-188 | the feed loop appends one directory per feed, in order, each pointing to its feed and named by the cleaned title that feed's fetch returned, and that name under the category is a key of the tree; no key is lost |
| TreeShape.CategoriesListing | feed-helpers.go:194-199 | the category loop appends one directory per category, in order, named by its cleaned name |
| TreeShape.StandalonesListing | feed-helpers.go:221-227 | the standalone loop appends one directory per feed, named by the live-fetched title |
| TreeShape.CategoryListing | feed-helpers.go:162-191 | a category's path lists exactly its feeds' directories, in configuration order, each named by the cleaned title its fetch returned, with `"/" + category + "/" + name` a key of the tree |
| TreeShape.StandaloneCachedTitleMismatch | feed-helpers.go:204-236 | when a cached standalone feed's decoded title cleans differently from the live title, the root lists the live name while the files are filed under the cached name |
| TreeShape.CachedTitle | feed-helpers.go:56-96 | on a cache hit whose entry decodes, the feed's title is the cached title |
| FeedPaths.CategoryFeedDirLeadsToFiles | feed-helpers.go:178-188 | the path joined from a non-empty category and a feed directory it lists is the key holding that feed's files |
| FeedPaths.CategoryListedFeedsResolve | feed-helpers.go:178-191 | every directory a category with a non-empty cleaned name lists resolves, through the path join, to a key of the tree |
| TreeShape.RootListing | feed-helpers.go:239 | the root lists the categories, then the standalone feeds, in configuration order |
| InlineBuild.LiveFeedDir | rss.go:111-116 | the inline feed directory is a directory with the given inode and no feed reference |
| InlineBuild.PlainFilesStep | rss.go:121-142 | the item loop appends one file per step |
| InlineBuild.AddItems | rss.go:121-142 | the item loop returns `PlainFiles`: items in feed order, unsorted and without suffix, numbered consecutively |
| InlineBuild.AddItemStep | rss.go:133-139 | one pass of the item loop appends the next plain file |
| InlineBuild.AddFeed | rss.go:94-144 | one feed of the inline build is its directory, then its files |
| InlineBuild.AddFeeds | rss.go:94-145 | the feed loop computes the `InlineFeeds` fold |
| InlineBuild.BuildInline | rss.go:83-215 | `main`'s two loops and the root listing produce `InlineTree` |
| InlineBuild.InlineTree | rss.go:215 | the inline tree always has a root listing |
| InlineBuild.PlainFileIs | rss.go:133-139 | file i is a regular file named cleaned title plus extension, with the item's timestamp, inode start + i and the rendered bytes |
| InlineBuild.PlainFilesNumbered | rss.go:137-141 | a feed's files use distinct consecutive inodes |
| InlineBuild.InlineFeedStepInodes | rss.go:111-144 | the directory takes the counter, the files follow it, and the counter moves past them |
| InlineBuild.InlineFeedsCount | rss.go:94-145 | the feed loop uses one inode per feed plus one per item |
| InlineBuild.InlineCategoriesCount | rss.go:89-158 | the category loop adds its feeds' inodes plus one per category |
| InlineBuild.InlineTreeCount | rss.go:83-212 | the final counter is 1001 plus the number of entries created |
| InlineBuild.InlineFeedsNumbered | rss.go:94-145 | the inline feed loop keeps every inode distinct |
| InlineBuild.InlineCategoriesNumbered | rss.go:89-158 | the inline category loop keeps every inode distinct |
| InlineBuild.InlineTreeInodesDistinct | rss.go:83-215 | no two entries of `main`'s tree share an inode |
| PathIndex.Join | rss.go:219 | a child's path is the parent path followed by the name, with `/` between them except under the root |
| PathIndex.RootEntry | rss.go:17-22 | the seeded root is a directory with an empty name and inode 1001 |
| PathIndex.SeedIndex | rss.go:14-23 | before any build the index holds only `/` |
| PathIndex.Flatten | rss.go:217-222 | every child is filed under its full path, no key is removed, and keys no child has keep their entry |
| PathIndex.FlattenUnambiguous | rss.go:217-222 | when no two children share a path, each path holds exactly its child |
| PathIndex.FlattenTwice | driver-fuse.go:103-109 | flattening the same tree again changes nothing when paths are unambiguous |
| PathIndex.InlineDuplicateTitles | rss.go:135 | two items of one feed with equal cleaned titles get the same file name in `main`'s tree, so the tree is ambiguous |
| PathIndex.RootInodeReused | rss.go:14-23 | with no categories, the first root entry `main` builds has inode 1001, like the seeded root |
| PathIndex.FirstListed | rss.go:177-182 | the first feed of a loop is listed first, numbered with the counter at the loop's start |
| PathIndex.Startup | rss.go:14-222 | `main` builds the inline tree and flattens it into the seeded index |
| Fuse.Size | driver-fuse.go:48-55 | a directory has size 0 and a file the length of its data |
| Fuse.Mode | driver-fuse.go:57-64 | the mode's type bits say directory exactly for directories and regular file otherwise |
| Fuse.Attributes | driver-fuse.go:27-46 | the attributes carry the entry's inode, its size and mode, and its timestamp as access, modification and change time |
| Fuse.ModeBits | driver-fuse.go:57-64 | the mode is a directory exactly for directories and a regular file otherwise, with permissions 0755 or 0644 and no group or other write |
| Fuse.ReadSlice | driver-fuse.go:176-180 | a read returns min(buffer, remaining) bytes, starting at the offset |
| Fuse.ReadWholeFile | driver-fuse.go:48-55 | reading the reported size from offset 0 returns the whole file |
| Fuse.ReadsConcatenate | driver-fuse.go:176-180 | two adjacent reads return what one read over both ranges returns |
| Fuse.Listing | driver-fuse.go:116-123 | one entry per child, in order, with its name, mode and inode |
| Fuse.ListEntries | driver-fuse.go:116-123 | the loop that fills the entry array produces `Listing` |
| Fuse.Filesystem.Mount | driver-fuse.go:211-213 | the configuration is stored alongside the tree and index |
| Fuse.Filesystem.Opendir | driver-fuse.go:86-95 | ENOENT exactly when the path is not a tree key |
| Fuse.Filesystem.Refresh | driver-fuse.go:103-109 | the tree becomes `BuildTree` through the cache, and the index is flattened from it without losing keys |
| Fuse.Filesystem.Readdir | driver-fuse.go:97-128 | refreshes, then ENOENT exactly when the path is not in the new tree, else `Listing` of it |
| Fuse.Filesystem.Lookup | driver-fuse.go:130-152 | ENOENT exactly when the joined path is not indexed, else the entry's attributes and a stable node of generation 1 with its mode and inode |
| Fuse.Filesystem.Getattr | driver-fuse.go:154-165 | ENOENT exactly when the path is not indexed, else the entry's attributes |
| Fuse.Filesystem.Read | driver-fuse.go:167-181 | ENOENT exactly when the path is not indexed, else `ReadSlice` of its data |
| Fuse.Filesystem.Open | driver-fuse.go:188-209 | ENOENT exactly when the path is not indexed, else a handle holding its data |
| Fuse.ListedNamesResolve | driver-fuse.go:116-152 | every name a listing returns can be looked up, and for an unambiguous tree it resolves to the listed inode and mode |

## Left out

- Network access, feed parsing, gob encoding and decoding, and html2text are
  oracles in `Entities.Env`. A fetch that fails is not modelled: the source
  goes on with a nil feed and panics.
- The current time is a single value `now` shared by every `time.Now()` call
  in one build.
- The erase goroutine and its timer are a recorded `Cache.Timer` that
  `Cache.Expire` carries out. Concurrency between timers, refreshes and
  requests is not modelled.
- Logging (emoji.Printf and fmt) is not modelled.
- HCL loading of the configuration and the platform's configuration file path
  are not modelled.
- The WinFsp driver is not modelled.
- Not modelled in the FUSE adapter:
  - the go-fuse mount and server, `currentPath`;
  - node creation (`NewInode`), apart from the stable attributes it is given;
  - the owner's uid and gid;
  - `Flush`, which does nothing and returns OK.
- Inode counters are unbounded naturals. The source's uint64 wrap-around
  cannot be reached by any realistic configuration.
- `PathIndex.Join`: implements `filepath.Join` only for a clean parent path
  and a child name that is not empty, `.` or `..`. Cleaning of other names is
  not modelled.
- `Naming.SortByTitleSpec`: `sort.Sort` is not stable. The model uses one
  order it may produce, a stable insertion sort, and states only what every
  such order shares: sorted by cleaned title and a permutation.
- `Fuse.Filesystem.Read`: requires the offset to be within the data, where
  the source panics. A negative int64 offset is not modelled.
- `Text.StrLess`: compares code points. Go compares UTF-8 bytes, which gives
  the same order for valid strings. Invalid UTF-8 is not modelled.
- `PathIndex.Flatten`: leaves open which of two children with the same path
  is written last, because Go's map iteration order is unspecified.
