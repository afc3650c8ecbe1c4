/** The read surface of the FUSE adapter: entry sizes and modes, the
    attributes it reports, and the directory, lookup, attribute, open and
    read requests it answers from the tree and the path index. */
module Fuse {
  import opened Text
  import opened Entities
  import opened Cache
  import opened TreeBuild
  import opened PathIndex

  /** The file-type bits of a mode and the two types the adapter uses. */
  const TypeMask: bv32 := 0xF000
  const IfDir: bv32 := 0x4000
  const IfReg: bv32 := 0x8000

  /** rwxr-xr-x and rw-r--r--. */
  const DirPerm: bv32 := 0x1ED
  const FilePerm: bv32 := 0x1A4

  /** The size reported for an entry: 0 for a directory, the length of the
      data for a file. */
  function Size(f: IndexedFile): (n: nat)
    ensures n <= |f.data|
    ensures f.isDirectory ==> n == 0
    ensures !f.isDirectory ==> n == |f.data|
  {
    if f.isDirectory then 0 else |f.data|
  }

  /** The mode reported for an entry. */
  function Mode(f: IndexedFile): (m: bv32)
    ensures m & TypeMask == if f.isDirectory then IfDir else IfReg
  {
    if f.isDirectory then DirPerm | IfDir else FilePerm | IfReg
  }

  /** A mode says "directory" exactly for directories and "regular file"
      exactly for files; directories are rwxr-xr-x, files rw-r--r--, and
      neither group nor others may write. */
  lemma ModeBits(f: IndexedFile)
    ensures (Mode(f) & TypeMask == IfDir) <==> f.isDirectory
    ensures (Mode(f) & TypeMask == IfReg) <==> !f.isDirectory
    ensures Mode(f) & 0x1FF == if f.isDirectory then DirPerm else FilePerm
    ensures Mode(f) & 0x12 == 0
  {
  }

  /** The attributes setAttributes fills in; the owner's uid and gid are
      not modelled. */
  datatype Attr = Attr(ino: nat, size: nat, mode: bv32, atime: Time, mtime: Time, ctime: Time)

  function Attributes(f: IndexedFile): (a: Attr)
    ensures a.ino == f.inode && a.size == Size(f) && a.mode == Mode(f)
    ensures a.atime == f.timestamp && a.mtime == f.timestamp && a.ctime == f.timestamp
  {
    Attr(f.inode, Size(f), Mode(f), f.timestamp, f.timestamp, f.timestamp)
  }

  /** The attributes fixed when a node is created by a lookup. */
  datatype StableAttr = StableAttr(mode: bv32, gen: nat, ino: nat)

  datatype EntryOut = EntryOut(attr: Attr, stable: StableAttr)

  /** One directory listing entry. */
  datatype DirEntry = DirEntry(name: string, mode: bv32, ino: nat)

  datatype Errno = OK | ENOENT

  function Min(a: int, b: int): int {
    if a < b then a else b
  }

  /** The bytes a read of `destLen` bytes at `off` returns: as many as fit,
      starting at `off`, and never past the end of the data. */
  function ReadSlice(data: seq<byte>, off: nat, destLen: nat): (r: seq<byte>)
    requires off <= |data|
    ensures |r| == Min(destLen, |data| - off)
    ensures forall i :: 0 <= i < |r| ==> r[i] == data[off + i]
  {
    var end := if off + destLen > |data| then |data| else off + destLen;
    data[off..end]
  }

  /** A read at offset 0 with a buffer of the reported size returns the
      whole file. */
  lemma ReadWholeFile(f: IndexedFile)
    requires !f.isDirectory
    ensures ReadSlice(f.data, 0, Size(f)) == f.data
  {
    assert ReadSlice(f.data, 0, Size(f)) == f.data[0..|f.data|];
  }

  /** Two reads back to back return what one read over both ranges returns. */
  lemma ReadsConcatenate(data: seq<byte>, off: nat, n: nat, m: nat)
    requires off + n <= |data|
    ensures ReadSlice(data, off, n) + ReadSlice(data, off + n, m) == ReadSlice(data, off, n + m)
  {
  }

  /** The directory entries of a listing: one per child, in order, with its
      name, mode and inode. */
  function Listing(files: seq<IndexedFile>): (entries: seq<DirEntry>)
    ensures |entries| == |files|
    ensures forall i :: 0 <= i < |files| ==> entries[i] == DirEntry(files[i].filename, Mode(files[i]), files[i].inode)
  {
    seq(|files|, i requires 0 <= i < |files| => DirEntry(files[i].filename, Mode(files[i]), files[i].inode))
  }

  /** The loop that fills the entry array of a listing. */
  method ListEntries(files: seq<IndexedFile>) returns (entries: seq<DirEntry>)
    ensures entries == Listing(files)
  {
    var a := new DirEntry[|files|](_ => DirEntry("", 0, 0));
    for i := 0 to |files|
      invariant forall j :: 0 <= j < i ==> a[j] == DirEntry(files[j].filename, Mode(files[j]), files[j].inode)
    {
      a[i] := DirEntry(files[i].filename, Mode(files[i]), files[i].inode);
    }
    entries := a[..];
  }

  /** The mounted filesystem: the global tree and path index, the
      configuration stored at mount time and the feed cache. */
  class Filesystem {
    var tree: Tree
    var fileIndex: Index
    const config: Config
    const cache: FeedCache

    /** Mount: the configuration is stored; the tree and the index are the
        ones main built. */
    constructor Mount(cfg: Config, cache: FeedCache, tree: Tree, fileIndex: Index)
      ensures this.config == cfg && this.cache == cache
      ensures this.tree == tree && this.fileIndex == fileIndex
    {
      this.config := cfg;
      this.cache := cache;
      this.tree := tree;
      this.fileIndex := fileIndex;
    }

    /** A directory can be opened exactly when it is a key of the tree. */
    method Opendir(path: string) returns (errno: Errno)
      ensures errno == ENOENT <==> path !in tree
    {
      if path !in tree {
        return ENOENT;
      }
      return OK;
    }

    /** Rebuilds the tree through the cache and merges it into the index
        without removing any key. */
    method Refresh(env: Env)
      modifies this, cache
      ensures var b := BuildTree(config, old(cache.State()), env);
        tree == b.tree && cache.State() == b.store
      ensures IsFlattening(old(fileIndex), tree, fileIndex)
    {
      tree := PopulateFeedTree(config, cache, env);
      fileIndex := Flatten(fileIndex, tree);
    }

    /** Refreshes, then lists the directory: one entry per child, in order,
        with its name, mode and inode. */
    method Readdir(path: string, env: Env) returns (entries: seq<DirEntry>, errno: Errno)
      modifies this, cache
      ensures var b := BuildTree(config, old(cache.State()), env);
        tree == b.tree && cache.State() == b.store
      ensures IsFlattening(old(fileIndex), tree, fileIndex)
      ensures errno == ENOENT <==> path !in tree
      ensures errno == ENOENT ==> entries == []
      ensures errno == OK ==> entries == Listing(tree[path])
    {
      Refresh(env);
      if path !in tree {
        return [], ENOENT;
      }
      entries := ListEntries(tree[path]);
      return entries, OK;
    }

    /** Looks `name` up in the directory `dir`: found exactly when its full
        path is a key of the index, with the entry's attributes and a node
        of generation 1 carrying its mode and inode. */
    method Lookup(dir: string, name: string) returns (errno: Errno, out: Option<EntryOut>)
      ensures errno == ENOENT <==> Join(dir, name) !in fileIndex
      ensures errno == ENOENT ==> out.None?
      ensures errno == OK ==>
        var e := fileIndex[Join(dir, name)];
        out == Some(EntryOut(Attributes(e), StableAttr(Mode(e), 1, e.inode)))
    {
      var childPath := Join(dir, name);
      if childPath !in fileIndex {
        return ENOENT, None;
      }
      var entry := fileIndex[childPath];
      var attr := Attributes(entry);
      return OK, Some(EntryOut(attr, StableAttr(Mode(entry), 1, entry.inode)));
    }

    /** The attributes of `path`, found exactly when it is a key of the index. */
    method Getattr(path: string) returns (errno: Errno, attr: Option<Attr>)
      ensures errno == ENOENT <==> path !in fileIndex
      ensures errno == ENOENT ==> attr.None?
      ensures errno == OK ==> attr == Some(Attributes(fileIndex[path]))
    {
      if path !in fileIndex {
        return ENOENT, None;
      }
      return OK, Some(Attributes(fileIndex[path]));
    }

    /** Reads up to `destLen` bytes at `off`; the offset may not lie past
        the end of the data, which the adapter leaves unchecked. */
    method Read(path: string, destLen: nat, off: nat) returns (errno: Errno, data: seq<byte>)
      requires path in fileIndex ==> off <= |fileIndex[path].data|
      ensures errno == ENOENT <==> path !in fileIndex
      ensures errno == ENOENT ==> data == []
      ensures errno == OK ==> data == ReadSlice(fileIndex[path].data, off, destLen)
    {
      if path !in fileIndex {
        return ENOENT, [];
      }
      var entry := fileIndex[path];
      var end := off + destLen;
      if end > |entry.data| {
        end := |entry.data|;
      }
      return OK, entry.data[off..end];
    }

    /** Opens `path`: the handle holds the entry's data. */
    method Open(path: string) returns (errno: Errno, handle: Option<seq<byte>>)
      ensures errno == ENOENT <==> path !in fileIndex
      ensures errno == ENOENT ==> handle.None?
      ensures errno == OK ==> handle == Some(fileIndex[path].data)
    {
      if path !in fileIndex {
        return ENOENT, None;
      }
      return OK, Some(fileIndex[path].data);
    }
  }

  /** After a listing, looking up any listed name finds an entry, and when
      no two children of the tree share a path, it is the listed entry
      itself: the inode and mode agree with the listing. */
  lemma ListedNamesResolve(index: Index, tree: Tree, r: Index, path: string, i: nat)
    requires IsFlattening(index, tree, r)
    requires path in tree && i < |tree[path]|
    ensures Join(path, tree[path][i].filename) in r
    ensures Unambiguous(tree) ==>
      var e := r[Join(path, tree[path][i].filename)];
      e.inode == tree[path][i].inode && Mode(e) == Mode(tree[path][i])
  {
    if Unambiguous(tree) {
      FlattenUnambiguous(index, tree, r, path, i);
    }
  }
}
