/**
 * The part of a POSIX filesystem the PXE driver relies on: directory
 * entries that name inodes (so hard links share an inode and a file's link
 * count is the number of entries naming it), symbolic links, and the image
 * fetch capability that writes a downloaded image to a path.
 *
 * Symbolic links are never followed: `Exists` is `os.path.lexists` and the
 * link count of a symbolic-link entry is its own, 1.
 */
module Files {
  import opened Exceptions
  import opened PxePaths

  type Inode = nat

  /** What a regular file holds. */
  datatype Content = Empty | Text(text: string) | Image(imageRef: string)

  /** A directory entry: a hard link to an inode, or a symbolic link. */
  datatype Entry = File(inode: Inode) | Symlink(target: string)

  /** A filesystem call either returned or raised. */
  datatype Outcome = Done | Raised(error: OsError)

  /** `st_nlink` of inode `ino`: the number of entries naming it. */
  function LinkCount(m: map<string, Entry>, ino: Inode): nat {
    |set p | p in m && m[p] == File(ino)|
  }

  /** `os.stat(path).st_nlink`, without following a symbolic link. */
  function NLink(m: map<string, Entry>, path: string): nat
    requires path in m
  {
    if m[path].File? then LinkCount(m, m[path].inode) else 1
  }

  /** No other entry names what `path` names. */
  predicate OnlyLink(m: map<string, Entry>, path: string)
    requires path in m
  {
    forall q :: q in m && q != path ==> m[q] != m[path]
  }

  /** What `shutil.rmtree(dir)` leaves: every entry inside `dir` is gone. */
  function WithoutTree(m: map<string, Entry>, dir: string): (r: map<string, Entry>)
    ensures forall p :: p in r <==> p in m && !Under(p, dir)
    ensures forall p :: p in r ==> r[p] == m[p]
  {
    map p | p in m && !Under(p, dir) :: m[p]
  }

  /** Adding an entry for inode `ino` raises its link count by one. */
  lemma LinkCountAdd(m: map<string, Entry>, p: string, ino: Inode)
    requires p !in m
    ensures LinkCount(m[p := File(ino)], ino) == LinkCount(m, ino) + 1
  {
    var before := set q | q in m && m[q] == File(ino);
    var m' := m[p := File(ino)];
    var after := set q | q in m' && m'[q] == File(ino);
    assert after == before + {p};
  }

  /** Adding an entry that names something else leaves the link count of `ino` alone. */
  lemma LinkCountAddOther(m: map<string, Entry>, p: string, e: Entry, ino: Inode)
    requires p !in m && e != File(ino)
    ensures LinkCount(m[p := e], ino) == LinkCount(m, ino)
  {
    var before := set q | q in m && m[q] == File(ino);
    var m' := m[p := e];
    var after := set q | q in m' && m'[q] == File(ino);
    assert after == before;
  }

  /** Removing one of its entries lowers the link count of `ino` by one. */
  lemma LinkCountRemove(m: map<string, Entry>, p: string, ino: Inode)
    requires p in m && m[p] == File(ino)
    ensures LinkCount(m - {p}, ino) == LinkCount(m, ino) - 1
  {
    var before := set q | q in m && m[q] == File(ino);
    var m' := m - {p};
    var after := set q | q in m' && m'[q] == File(ino);
    assert after == before - {p};
  }

  /** A file's link count is 1 exactly when no other entry shares its inode. */
  lemma SoleLink(m: map<string, Entry>, path: string)
    requires path in m && m[path].File?
    ensures LinkCount(m, m[path].inode) >= 1
    ensures LinkCount(m, m[path].inode) == 1 <==> OnlyLink(m, path)
  {
    var ino := m[path].inode;
    var s := set q | q in m && m[q] == File(ino);
    assert path in s;
    if OnlyLink(m, path) {
      assert s == {path};
    } else {
      var q :| q in m && q != path && m[q] == m[path];
      assert {path, q} <= s;
      assert |{path, q}| == 2;
      SubsetCard({path, q}, s);
    }
  }

  lemma SubsetCard<T>(a: set<T>, b: set<T>)
    requires a <= b
    ensures |a| <= |b|
  {
    assert b == a + (b - a);
  }

  /** The filesystem, plus a record of the image fetches made through it. */
  class FileSystem {
    var entries: map<string, Entry>
    var data: map<Inode, Content>
    var nextInode: Inode
    /** The image references fetched so far, in order. */
    var fetchLog: seq<string>

    /** Every file entry names an allocated inode. */
    ghost predicate Valid()
      reads this
    {
      forall p :: p in entries && entries[p].File? ==> entries[p].inode < nextInode && entries[p].inode in data
    }

    constructor ()
      ensures Valid()
      ensures entries == map[] && data == map[] && fetchLog == []
    {
      entries, data, nextInode, fetchLog := map[], map[], 0, [];
    }

    /** `os.path.exists(path)` (without following symbolic links). */
    predicate Exists(path: string)
      reads this
    {
      path in entries
    }

    /** `os.link(src, dst)` */
    method Link(src: string, dst: string) returns (o: Outcome)
      requires Valid()
      modifies this
      ensures Valid()
      ensures src !in old(entries) ==> o == Raised(NotFound(src)) && entries == old(entries)
      ensures src in old(entries) && dst in old(entries) ==>
                o == Raised(AlreadyExists(dst)) && entries == old(entries)
      ensures src in old(entries) && dst !in old(entries) ==>
                o == Done && entries == old(entries)[dst := old(entries)[src]]
      ensures data == old(data) && nextInode == old(nextInode) && fetchLog == old(fetchLog)
    {
      if src !in entries {
        o := Raised(NotFound(src));
      } else if dst in entries {
        o := Raised(AlreadyExists(dst));
      } else {
        entries := entries[dst := entries[src]];
        o := Done;
      }
    }

    /** `os.unlink(path)` */
    method Unlink(path: string) returns (o: Outcome)
      requires Valid()
      modifies this
      ensures Valid()
      ensures o == (if path in old(entries) then Done else Raised(NotFound(path)))
      ensures entries == old(entries) - {path}
      ensures data == old(data) && nextInode == old(nextInode) && fetchLog == old(fetchLog)
    {
      o := if path in entries then Done else Raised(NotFound(path));
      entries := entries - {path};
    }

    /** `utils.unlink_without_raise(path)` and `fileutils.delete_if_exists(path)` */
    method UnlinkWithoutRaise(path: string)
      requires Valid()
      modifies this
      ensures Valid()
      ensures entries == old(entries) - {path}
      ensures data == old(data) && nextInode == old(nextInode) && fetchLog == old(fetchLog)
    {
      entries := entries - {path};
    }

    /** `utils.rmtree_without_raise(dir)` */
    method RemoveTree(dir: string)
      requires Valid()
      modifies this
      ensures Valid()
      ensures entries == WithoutTree(old(entries), dir)
      ensures data == old(data) && nextInode == old(nextInode) && fetchLog == old(fetchLog)
    {
      entries := WithoutTree(entries, dir);
    }

    /**
     * `open(path, 'w')` followed by a write: an existing file is truncated in
     * place (every hard link sees the new content); otherwise a new file is made.
     */
    method WriteFile(path: string, content: Content)
      requires Valid()
      modifies this
      ensures Valid()
      ensures path in old(entries) && old(entries)[path].File? ==>
                && entries == old(entries) && nextInode == old(nextInode)
                && data == old(data)[old(entries)[path].inode := content]
      ensures !(path in old(entries) && old(entries)[path].File?) ==>
                && entries == old(entries)[path := File(old(nextInode))]
                && nextInode == old(nextInode) + 1
                && data == old(data)[old(nextInode) := content]
      ensures fetchLog == old(fetchLog)
    {
      if path in entries && entries[path].File? {
        data := data[entries[path].inode := content];
      } else {
        entries := entries[path := File(nextInode)];
        data := data[nextInode := content];
        nextInode := nextInode + 1;
      }
    }

    /** `utils.create_link_without_raise(target, path)`: `os.symlink`, ignoring an existing `path`. */
    method CreateSymlink(target: string, path: string)
      requires Valid()
      modifies this
      ensures Valid()
      ensures entries == if path in old(entries) then old(entries) else old(entries)[path := Symlink(target)]
      ensures data == old(data) && nextInode == old(nextInode) && fetchLog == old(fetchLog)
    {
      if path !in entries {
        entries := entries[path := Symlink(target)];
      }
    }

    /**
     * `images.fetch_to_raw(ctx, imageRef, path)`: the image service either
     * delivers (`succeeds`) and `path` becomes a new file holding the image,
     * or raises and the filesystem is left as it was.
     */
    method Fetch(imageRef: string, path: string, succeeds: bool) returns (o: Outcome)
      requires Valid()
      modifies this
      ensures Valid()
      ensures fetchLog == old(fetchLog) + [imageRef]
      ensures succeeds ==>
                && o == Done
                && entries == old(entries)[path := File(old(nextInode))]
                && data == old(data)[old(nextInode) := Image(imageRef)]
                && nextInode == old(nextInode) + 1
      ensures !succeeds ==>
                && o == Raised(FetchFailed(imageRef))
                && entries == old(entries) && data == old(data) && nextInode == old(nextInode)
    {
      fetchLog := fetchLog + [imageRef];
      if succeeds {
        entries := entries[path := File(nextInode)];
        data := data[nextInode := Image(imageRef)];
        nextInode := nextInode + 1;
        o := Done;
      } else {
        o := Raised(FetchFailed(imageRef));
      }
    }
  }
}
