/**
 * The hard-link image cache of the PXE driver. A master copy of each image
 * lives in a cache directory under the image's id; every node that uses the
 * image gets a hard link to it, so the master's link count is a reference
 * count. A download marker (`<master>.lock`) tells other callers that a fetch
 * is under way. Each `lockutils.synchronized` function is one atomic step.
 */
module ImageCache {
  import opened Wrappers
  import opened Exceptions
  import opened PxePaths
  import opened Files

  /** The entries after a step, and whether the step returned or raised. */
  datatype Step = Step(outcome: Outcome, entries: map<string, Entry>)

  /** Every entry other than those in `touched` is as it was. */
  ghost predicate SameElsewhere(m: map<string, Entry>, m': map<string, Entry>, touched: set<string>) {
    forall q :: q !in touched ==> (q in m' <==> q in m) && (q in m ==> m'[q] == m[q])
  }

  /** `_link_master_image(path, dest)`: link the master to `dest` if the master exists. */
  function LinkMaster(m: map<string, Entry>, path: string, dest: string): (r: Step)
    ensures r.outcome.Raised? <==> path in m && dest in m
    ensures r.outcome.Raised? ==> r == Step(Raised(AlreadyExists(dest)), m)
    ensures path in m && r.outcome == Done ==> dest in r.entries && r.entries[dest] == m[path]
    ensures path !in m ==> r.entries == m
    ensures SameElsewhere(m, r.entries, {dest})
  {
    if path !in m then Step(Done, m)
    else if dest in m then Step(Raised(AlreadyExists(dest)), m)
    else Step(Done, m[dest := m[path]])
  }

  /**
   * `_unlink_master_image(path)`: the master goes only when it exists and its
   * link count is 1, that is, when no node links to it any more.
   */
  function UnlinkMaster(m: map<string, Entry>, path: string): (r: map<string, Entry>)
    ensures SameElsewhere(m, r, {path})
    ensures path !in m ==> r == m
    ensures path in r ==> path in m && r[path] == m[path]
    ensures path in m && m[path].File? ==> (path !in r <==> OnlyLink(m, path))
  {
    if path !in m then m
    else if m[path].Symlink? then m - {path}
    else
      SoleLink(m, path);
      if LinkCount(m, m[path].inode) == 1 then m - {path} else m
  }

  /**
   * `_create_master_image(tmp, master, path)`: promote the downloaded `tmp`
   * to master unless a master already exists, link the master to `path`, and
   * remove `tmp`. Each of the three calls may raise, leaving what the earlier
   * ones did.
   */
  function CreateMaster(m: map<string, Entry>, tmp: string, master: string, path: string): (r: Step)
    ensures tmp != master && tmp != path && r.outcome == Done ==>
              && master in r.entries && path in r.entries && tmp !in r.entries
              && r.entries[path] == r.entries[master]
              && (master in m ==> r.entries[master] == m[master])
              && (master !in m ==> tmp in m && r.entries[master] == m[tmp])
    ensures tmp in m && path !in m && path != master && path != tmp ==> r.outcome == Done
    ensures r.outcome == Raised(NotFound(tmp)) || r.outcome == Raised(AlreadyExists(path)) || r.outcome == Done
    ensures SameElsewhere(m, r.entries, {master, path, tmp})
  {
    if master !in m && tmp !in m then Step(Raised(NotFound(tmp)), m)
    else
      var m1 := if master !in m then m[master := m[tmp]] else m;
      if path in m1 then Step(Raised(AlreadyExists(path)), m1)
      else
        var m2 := m1[path := m1[master]];
        if tmp !in m2 then Step(Raised(NotFound(tmp)), m2)
        else Step(Done, m2 - {tmp})
  }

  /** `_link_master_image` */
  method LinkMasterImage(fs: FileSystem, path: string, dest: string) returns (o: Outcome)
    requires fs.Valid()
    modifies fs
    ensures fs.Valid()
    ensures Step(o, fs.entries) == LinkMaster(old(fs.entries), path, dest)
    ensures fs.data == old(fs.data) && fs.nextInode == old(fs.nextInode) && fs.fetchLog == old(fs.fetchLog)
  {
    o := Done;
    if fs.Exists(path) {
      o := fs.Link(path, dest);
    }
  }

  /** `_unlink_master_image` */
  method UnlinkMasterImage(fs: FileSystem, path: string)
    requires fs.Valid()
    modifies fs
    ensures fs.Valid()
    ensures fs.entries == UnlinkMaster(old(fs.entries), path)
    ensures fs.data == old(fs.data) && fs.nextInode == old(fs.nextInode) && fs.fetchLog == old(fs.fetchLog)
  {
    if fs.Exists(path) && NLink(fs.entries, path) == 1 {
      fs.UnlinkWithoutRaise(path);
    }
  }

  /** `_create_master_image` */
  method CreateMasterImage(fs: FileSystem, tmp: string, master: string, path: string) returns (o: Outcome)
    requires fs.Valid()
    modifies fs
    ensures fs.Valid()
    ensures Step(o, fs.entries) == CreateMaster(old(fs.entries), tmp, master, path)
    ensures fs.data == old(fs.data) && fs.nextInode == old(fs.nextInode) && fs.fetchLog == old(fs.fetchLog)
  {
    if !fs.Exists(master) {
      o := fs.Link(tmp, master);
      if o.Raised? { return; }
    }
    o := fs.Link(master, path);
    if o.Raised? { return; }
    o := fs.Unlink(tmp);
  }

  /**
   * `_download_in_progress(marker)`: test-and-set. An absent marker is
   * created (an empty file) and False returned; a present one changes nothing.
   */
  method DownloadInProgress(fs: FileSystem, marker: string) returns (inProgress: bool)
    requires fs.Valid()
    modifies fs
    ensures fs.Valid()
    ensures inProgress == (marker in old(fs.entries))
    ensures inProgress ==> fs.entries == old(fs.entries) && fs.data == old(fs.data) && fs.nextInode == old(fs.nextInode)
    ensures !inProgress ==>
              && fs.entries == old(fs.entries)[marker := File(old(fs.nextInode))]
              && fs.data == old(fs.data)[old(fs.nextInode) := Empty]
              && fs.nextInode == old(fs.nextInode) + 1
    ensures fs.fetchLog == old(fs.fetchLog)
  {
    inProgress := fs.Exists(marker);
    if !inProgress {
      fs.WriteFile(marker, Empty);
    }
  }

  /** `_remove_download_in_progress_lock(marker)`: idempotent removal. */
  method RemoveDownloadMarker(fs: FileSystem, marker: string)
    requires fs.Valid()
    modifies fs
    ensures fs.Valid()
    ensures fs.entries == old(fs.entries) - {marker}
    ensures fs.data == old(fs.data) && fs.nextInode == old(fs.nextInode) && fs.fetchLog == old(fs.fetchLog)
  {
    fs.UnlinkWithoutRaise(marker);
  }

  /** How the first part of `_get_image` with a master directory ends. */
  datatype Start =
    | Present                 // `path` exists now: linked to the master, or there already
    | Pending                 // another caller's download marker is present: wait for it
    | Claimed                 // this caller created the marker and must download
    | StartRaised(error: OsError)

  /** `_get_image` up to the marker test: link from the master, else test-and-set the marker. */
  method StartGetImage(fs: FileSystem, path: string, dir: string, imageId: string) returns (s: Start)
    requires fs.Valid()
    modifies fs
    ensures fs.Valid()
    ensures fs.fetchLog == old(fs.fetchLog)
    ensures var master, marker := MasterImagePath(dir, imageId), DownloadMarkerPath(dir, imageId);
      && (master in old(fs.entries) && path in old(fs.entries) ==>
            s == StartRaised(AlreadyExists(path)) && fs.entries == old(fs.entries))
      && (master in old(fs.entries) && path !in old(fs.entries) ==>
            s == Present && fs.entries == old(fs.entries)[path := old(fs.entries)[master]])
      && (master !in old(fs.entries) && path in old(fs.entries) ==>
            s == Present && fs.entries == old(fs.entries))
      && (master !in old(fs.entries) && path !in old(fs.entries) && marker in old(fs.entries) ==>
            s == Pending && fs.entries == old(fs.entries))
      && (master !in old(fs.entries) && path !in old(fs.entries) && marker !in old(fs.entries) ==>
            && s == Claimed
            && fs.entries == old(fs.entries)[marker := File(old(fs.nextInode))]
            && fs.data == old(fs.data)[old(fs.nextInode) := Empty])
    ensures s != Claimed ==> fs.data == old(fs.data)
  {
    var master := MasterImagePath(dir, imageId);
    var marker := DownloadMarkerPath(dir, imageId);
    var linked := LinkMasterImage(fs, master, path);
    if linked.Raised? {
      return StartRaised(linked.error);
    }
    if fs.Exists(path) {
      return Present;
    }
    // fileutils.ensure_tree(dir): directories are implicit in this model
    var busy := DownloadInProgress(fs, marker);
    s := if busy then Pending else Claimed;
  }

  /**
   * The downloading branch of `_get_image`: fetch into a fresh temporary file
   * (mkstemp's name is `tmp`), promote it with `_create_master_image`, and
   * remove the marker; on any exception the marker is removed before it
   * propagates (`remove_path_on_error`), while the temporary file stays.
   */
  method FinishDownload(fs: FileSystem, path: string, imageRef: string, dir: string, imageId: string,
                        tmp: string, fetchOk: bool) returns (o: Outcome)
    requires fs.Valid()
    requires tmp !in fs.entries
    requires tmp != MasterImagePath(dir, imageId) && tmp != DownloadMarkerPath(dir, imageId) && tmp != path
    modifies fs
    ensures fs.Valid()
    ensures fs.fetchLog == old(fs.fetchLog) + [imageRef]
    // the marker never outlives the download
    ensures DownloadMarkerPath(dir, imageId) !in fs.entries
    ensures !fetchOk ==>
              && o == Raised(FetchFailed(imageRef))
              && fs.entries == (old(fs.entries) - {DownloadMarkerPath(dir, imageId)})[tmp := File(old(fs.nextInode))]
    ensures var master, marker := MasterImagePath(dir, imageId), DownloadMarkerPath(dir, imageId);
      fetchOk && path !in old(fs.entries) && path != master && path != marker ==>
        && o == Done
        && master in fs.entries && path in fs.entries && tmp !in fs.entries
        && fs.entries[path] == fs.entries[master]
        && (master in old(fs.entries) ==> fs.entries[master] == old(fs.entries)[master])
        && (master !in old(fs.entries) ==>
              fs.entries[master].File? && fs.data[fs.entries[master].inode] == Image(imageRef))
        && SameElsewhere(old(fs.entries), fs.entries, {master, path, tmp, marker})
  {
    var master := MasterImagePath(dir, imageId);
    var marker := DownloadMarkerPath(dir, imageId);
    fs.WriteFile(tmp, Empty);
    o := fs.Fetch(imageRef, tmp, fetchOk);
    if o.Raised? {
      fs.UnlinkWithoutRaise(marker);
      return;
    }
    ghost var fetched := fs.entries;
    assert fetched[tmp].File? && fs.data[fetched[tmp].inode] == Image(imageRef);
    o := CreateMasterImage(fs, tmp, master, path);
    if o.Raised? {
      fs.UnlinkWithoutRaise(marker);
      return;
    }
    RemoveDownloadMarker(fs, marker);
  }

  /**
   * The waiting branch of `_get_image` once the marker has gone: the poll
   * ends when the marker is absent, then the master is linked.
   */
  method ResumeAfterWait(fs: FileSystem, path: string, dir: string, imageId: string) returns (o: Outcome)
    requires fs.Valid()
    requires DownloadMarkerPath(dir, imageId) !in fs.entries
    modifies fs
    ensures fs.Valid()
    ensures Step(o, fs.entries) == LinkMaster(old(fs.entries), MasterImagePath(dir, imageId), path)
    ensures fs.data == old(fs.data) && fs.nextInode == old(fs.nextInode) && fs.fetchLog == old(fs.fetchLog)
  {
    o := LinkMasterImage(fs, MasterImagePath(dir, imageId), path);
  }

  /** How `_get_image` ends in one sequential run. */
  datatype CacheOutcome = Cached | DownloadPending | CacheRaised(error: OsError)

  /**
   * `_get_image(ctx, path, uuid, master_path)` run without interference.
   * Without a master directory the image is fetched straight to `path`.
   */
  method GetImage(fs: FileSystem, path: string, imageRef: string, imageId: string,
                  masterDir: Option<string>, tmp: string, fetchOk: bool) returns (o: CacheOutcome)
    requires fs.Valid()
    requires masterDir.Some? ==>
               && tmp !in fs.entries && tmp != path
               && tmp != MasterImagePath(masterDir.value, imageId)
               && tmp != DownloadMarkerPath(masterDir.value, imageId)
    modifies fs
    ensures fs.Valid()
    // the image service is asked at most once per call
    ensures fs.fetchLog == old(fs.fetchLog) || fs.fetchLog == old(fs.fetchLog) + [imageRef]
    ensures masterDir.None? ==>
              && fs.fetchLog == old(fs.fetchLog) + [imageRef]
              && (fetchOk ==> o == Cached && path in fs.entries && fs.entries[path].File?
                              && fs.data[fs.entries[path].inode] == Image(imageRef)
                              && SameElsewhere(old(fs.entries), fs.entries, {path}))
              && (!fetchOk ==> o == CacheRaised(FetchFailed(imageRef)) && fs.entries == old(fs.entries))
    ensures masterDir.Some? ==>
      var master, marker := MasterImagePath(masterDir.value, imageId), DownloadMarkerPath(masterDir.value, imageId);
      && (fs.fetchLog != old(fs.fetchLog) ==>
            master !in old(fs.entries) && marker !in old(fs.entries) && path !in old(fs.entries))
      // `path` already there: os.link raises EEXIST when the master exists, otherwise nothing to do
      && (master in old(fs.entries) && path in old(fs.entries) ==>
            o == CacheRaised(AlreadyExists(path)) && fs.entries == old(fs.entries))
      && (master !in old(fs.entries) && path in old(fs.entries) ==>
            o == Cached && fs.entries == old(fs.entries))
      && (master in old(fs.entries) && path !in old(fs.entries) ==>
            o == Cached && fs.entries == old(fs.entries)[path := old(fs.entries)[master]])
      && (master !in old(fs.entries) && path !in old(fs.entries) && marker in old(fs.entries) ==>
            o == DownloadPending && fs.entries == old(fs.entries))
      && (master !in old(fs.entries) && path !in old(fs.entries) && marker !in old(fs.entries) ==>
            && fs.fetchLog == old(fs.fetchLog) + [imageRef]
            && marker !in fs.entries
            && (fetchOk && path != master && path != marker ==>
                  && o == Cached
                  && master in fs.entries && path in fs.entries && tmp !in fs.entries
                  && fs.entries[path] == fs.entries[master]
                  && fs.entries[master].File? && fs.data[fs.entries[master].inode] == Image(imageRef)
                  && SameElsewhere(old(fs.entries), fs.entries, {master, path, tmp, marker}))
            && (!fetchOk ==> o == CacheRaised(FetchFailed(imageRef)) && master !in fs.entries && path !in fs.entries))
  {
    if masterDir.None? {
      var f := fs.Fetch(imageRef, path, fetchOk);
      o := if f.Raised? then CacheRaised(f.error) else Cached;
      return;
    }
    var dir := masterDir.value;
    DownloadMarkerBesideMaster(dir, imageId);
    var s := StartGetImage(fs, path, dir, imageId);
    match s
    case Present => o := Cached;
    case Pending => o := DownloadPending;
    case StartRaised(e) => o := CacheRaised(e);
    case Claimed =>
      var f := FinishDownload(fs, path, imageRef, dir, imageId, tmp, fetchOk);
      o := if f.Raised? then CacheRaised(f.error) else Cached;
  }

  /** What `_destroy_images` leaves: the node's disk file and image directory gone, the master released. */
  function DestroyImagesEffect(m: map<string, Entry>, cfg: Config, node: string, imageId: string): map<string, Entry> {
    UnlinkMaster(WithoutTree(m - {ImageFilePath(cfg, node)}, ImageDirPath(cfg, node)),
                 MasterImagePath(cfg.instanceMasterPath, imageId))
  }

  /** `_destroy_images(d_info, node)`, with the image id parsed from `image_source`. */
  method DestroyImages(fs: FileSystem, cfg: Config, node: string, imageId: string)
    requires fs.Valid()
    modifies fs
    ensures fs.Valid()
    ensures fs.entries == DestroyImagesEffect(old(fs.entries), cfg, node, imageId)
    ensures fs.data == old(fs.data) && fs.nextInode == old(fs.nextInode) && fs.fetchLog == old(fs.fetchLog)
  {
    fs.UnlinkWithoutRaise(ImageFilePath(cfg, node));
    fs.RemoveTree(ImageDirPath(cfg, node));
    UnlinkMasterImage(fs, MasterImagePath(cfg.instanceMasterPath, imageId));
  }

  /**
   * Destroying one node's images releases the shared master exactly when no
   * link to it remains outside that node's disk file and image directory,
   * and removes nothing else outside them.
   */
  lemma DestroyReleasesMaster(m: map<string, Entry>, cfg: Config, node: string, imageId: string)
    requires var master := MasterImagePath(cfg.instanceMasterPath, imageId);
      master in m && m[master].File? && master != ImageFilePath(cfg, node) && !Under(master, ImageDirPath(cfg, node))
    ensures var master, file, dir := MasterImagePath(cfg.instanceMasterPath, imageId), ImageFilePath(cfg, node), ImageDirPath(cfg, node);
      && (master !in DestroyImagesEffect(m, cfg, node, imageId) <==>
            forall q :: q in m && q != master && q != file && !Under(q, dir) ==> m[q] != m[master])
      && (forall q :: q in m && q != master && q != file && !Under(q, dir) ==>
            q in DestroyImagesEffect(m, cfg, node, imageId))
  {
    var master, file, dir := MasterImagePath(cfg.instanceMasterPath, imageId), ImageFilePath(cfg, node), ImageDirPath(cfg, node);
    var m1 := WithoutTree(m - {file}, dir);
    assert master in m1;
    assert OnlyLink(m1, master) <==> forall q :: q in m && q != master && q != file && !Under(q, dir) ==> m[q] != m[master] by {
      if OnlyLink(m1, master) {
        forall q | q in m && q != master && q != file && !Under(q, dir)
          ensures m[q] != m[master]
        {
          assert q in m1;
        }
      }
    }
  }
}
