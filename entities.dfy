/** The values the feed-to-filesystem projection works on: the configured
    feeds and categories, the parsed feed data the parser hands back, the
    projected entries, and the environment (clock, line break and the
    foreign libraries) that the core only calls into. */
module Entities {
  import opened Text

  datatype Option<T> = None | Some(value: T)

  /** An instant; the model never looks inside one. */
  type Time = int

  /** One configured feed: its URL and its rendering and caching options.
      `cacheMins` is an int32 in the source; 0 means "use the default". */
  datatype Feed = Feed(url: string, plainText: bool, showLink: bool, cache: bool, cacheMins: int)

  /** A category: a name and the feeds filed under it, in configuration order. */
  datatype Category = Category(name: string, feeds: seq<Feed>)

  /** The parts of the configuration the core reads: standalone feeds and categories. */
  datatype Config = Config(feeds: seq<Feed>, categories: seq<Category>)

  /** One item of a parsed feed, with its optional timestamps. */
  datatype Item = Item(title: string, link: string, content: string, updated: Option<Time>, published: Option<Time>)

  /** A parsed feed. */
  datatype FeedData = FeedData(title: string, items: seq<Item>, updated: Option<Time>, published: Option<Time>)

  /** A projected filesystem node. `feed` is the back-reference to the feed
      a feed directory was built from; it is None for items, category
      directories and the root. */
  datatype IndexedFile = IndexedFile(
    filename: string,
    isDirectory: bool,
    timestamp: Time,
    inode: nat,
    data: seq<byte>,
    feed: Option<Feed>)

  /** Directory path to its ordered children. */
  type Tree = map<string, seq<IndexedFile>>

  /** Full path to entry. */
  type Index = map<string, IndexedFile>

  /** What the core takes from outside: the platform line break, the
      current time, the feed parser (URL to parsed feed), the HTML-to-text
      converter and the cache codec, whose encoding and decoding may fail. */
  datatype Env = Env(
    lineBreak: string,
    now: Time,
    parseUrl: string -> FeedData,
    toText: string -> string,
    encode: FeedData -> Option<seq<byte>>,
    decode: seq<byte> -> Option<FeedData>)
}
