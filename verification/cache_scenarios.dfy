/**
 * Two nodes using the same image, played through the cache's atomic steps:
 * the image is fetched once, both nodes end with hard links to the one
 * master file, and releasing the nodes deletes the master only with the
 * last link.
 */
module CacheScenarios {
  import opened Wrappers
  import opened PxePaths
  import opened Files
  import opened ImageCache

  /**
   * Node A claims the download, node B finds A's marker and waits, A
   * finishes, B's wait ends and it links: one fetch, three links to one file.
   */
  method InterleavedCallersFetchOnce() returns (fetches: nat, links: nat, shared: bool)
    ensures fetches == 1 && links == 3 && shared
  {
    var fs := new FileSystem();
    var dir := "/var/lib/ironic/master_images";
    var a, b := "/var/lib/ironic/images/node-a/disk", "/var/lib/ironic/images/node-b/disk";
    var tmp := "/var/lib/ironic/master_images/tmpq1w2e3";
    var master, marker := MasterImagePath(dir, "img-1"), DownloadMarkerPath(dir, "img-1");
    assert master == "/var/lib/ironic/master_images/img-1";
    DownloadMarkerBesideMaster(dir, "img-1");
    assert marker == "/var/lib/ironic/master_images/img-1.lock";

    var sa := StartGetImage(fs, a, dir, "img-1");
    assert sa == Claimed;
    var sb := StartGetImage(fs, b, dir, "img-1");
    assert sb == Pending;
    var fa := FinishDownload(fs, a, "img-1", dir, "img-1", tmp, true);
    assert fs.entries.Keys == {master, a};
    var fb := ResumeAfterWait(fs, b, dir, "img-1");
    assert fs.entries.Keys == {master, a, b};

    fetches := |fs.fetchLog|;
    var ino := fs.entries[master].inode;
    assert fs.entries == map[master := File(ino), a := File(ino), b := File(ino)];
    assert (set p | p in fs.entries && fs.entries[p] == File(ino)) == {master, a, b};
    links := LinkCount(fs.entries, ino);
    shared := fs.entries[a] == fs.entries[master] && fs.entries[b] == fs.entries[master];
  }

  /**
   * The same two callers, one synchronized function at a time. B links
   * (no master yet) and finds its path absent; then A claims the marker,
   * downloads, promotes and releases the marker; then B tests the marker,
   * finds it gone and downloads again. Both end linked to A's master, B's
   * copy is discarded, and the image service was asked twice.
   */
  method InterleavedCallersFetchTwice() returns (fetches: nat, shared: bool, spareLeft: bool)
    ensures fetches == 2 && shared && !spareLeft
  {
    var fs := new FileSystem();
    var dir := "/var/lib/ironic/master_images";
    var a, b := "/var/lib/ironic/images/node-a/disk", "/var/lib/ironic/images/node-b/disk";
    var tmpA, tmpB := "/var/lib/ironic/master_images/tmpa", "/var/lib/ironic/master_images/tmpb";
    var master, marker := MasterImagePath(dir, "img-1"), DownloadMarkerPath(dir, "img-1");
    assert master == "/var/lib/ironic/master_images/img-1";
    DownloadMarkerBesideMaster(dir, "img-1");
    assert marker == "/var/lib/ironic/master_images/img-1.lock";

    // B: _link_master_image, then os.path.exists(path)
    var lb := LinkMasterImage(fs, master, b);
    assert !fs.Exists(b);
    // A: the whole first caller, marker claimed and released
    var la := LinkMasterImage(fs, master, a);
    assert !fs.Exists(a);
    var busyA := DownloadInProgress(fs, marker);
    assert !busyA;
    var fa := FinishDownload(fs, a, "img-1", dir, "img-1", tmpA, true);
    assert fs.entries.Keys == {master, a};
    var ino := fs.entries[master].inode;
    // B: _download_in_progress finds no marker, so B downloads too
    var busyB := DownloadInProgress(fs, marker);
    assert !busyB;
    var fb := FinishDownload(fs, b, "img-1", dir, "img-1", tmpB, true);

    fetches := |fs.fetchLog|;
    shared := a in fs.entries && b in fs.entries && master in fs.entries
              && fs.entries[a] == fs.entries[master] && fs.entries[b] == fs.entries[master];
    spareLeft := tmpB in fs.entries;
  }

  lemma ScenarioPaths(cfg: Config)
    requires cfg == DefaultConfig("10.0.0.1")
    ensures ImageFilePath(cfg, "node-a") == "/var/lib/ironic/images/node-a/disk"
    ensures ImageFilePath(cfg, "node-b") == "/var/lib/ironic/images/node-b/disk"
    ensures ImageDirPath(cfg, "node-a") == "/var/lib/ironic/images/node-a"
    ensures ImageDirPath(cfg, "node-b") == "/var/lib/ironic/images/node-b"
    ensures MasterImagePath(cfg.instanceMasterPath, "img-1") == "/var/lib/ironic/master_images/img-1"
    ensures DownloadMarkerPath(cfg.instanceMasterPath, "img-1") == "/var/lib/ironic/master_images/img-1.lock"
    ensures !Under("/var/lib/ironic/master_images/img-1", "/var/lib/ironic/images/node-a")
    ensures !Under("/var/lib/ironic/master_images/img-1", "/var/lib/ironic/images/node-b")
    ensures !Under("/var/lib/ironic/images/node-b/disk", "/var/lib/ironic/images/node-a")
  {
    var images := "/var/lib/ironic/images/";
    assert cfg.imagesPath == images;
    assert ImageDirPath(cfg, "node-a") == images + "node-a";
    assert ImageDirPath(cfg, "node-b") == images + "node-b";
    assert ImageFilePath(cfg, "node-a") == images + "node-a" + "/" + "disk";
    assert ImageFilePath(cfg, "node-b") == images + "node-b" + "/" + "disk";
    DownloadMarkerBesideMaster(cfg.instanceMasterPath, "img-1");
  }

  /** Nodes A and B cache the same instance image one after the other; only A fetches. */
  method CacheForTwoNodes(fs: FileSystem, cfg: Config) returns (ino: Inode)
    requires cfg == DefaultConfig("10.0.0.1")
    requires fs.Valid() && fs.entries == map[] && fs.fetchLog == []
    modifies fs
    ensures fs.Valid() && fs.fetchLog == ["img-1"]
    ensures fs.entries == map["/var/lib/ironic/master_images/img-1" := File(ino),
                              "/var/lib/ironic/images/node-a/disk" := File(ino),
                              "/var/lib/ironic/images/node-b/disk" := File(ino)]
  {
    var dir := cfg.instanceMasterPath;
    var a, b := ImageFilePath(cfg, "node-a"), ImageFilePath(cfg, "node-b");
    var master := MasterImagePath(dir, "img-1");
    ScenarioPaths(cfg);
    var oa := GetImage(fs, a, "img-1", "img-1", Some(dir), "/var/lib/ironic/master_images/tmpa", true);
    assert fs.entries.Keys == {master, a};
    var ob := GetImage(fs, b, "img-1", "img-1", Some(dir), "/var/lib/ironic/master_images/tmpb", true);
    assert fs.entries.Keys == {master, a, b};
    ino := fs.entries[master].inode;
  }

  /**
   * After both nodes cached the image, the master has three links; it
   * survives the release of node A and goes with node B's.
   */
  method LastReleaseRemovesMaster() returns (fetches: nat, linksBefore: nat,
                                            keptAfterFirst: bool, keptAfterSecond: bool)
    ensures fetches == 1 && linksBefore == 3
    ensures keptAfterFirst && !keptAfterSecond
  {
    var cfg := DefaultConfig("10.0.0.1");
    var fs := new FileSystem();
    var master := MasterImagePath(cfg.instanceMasterPath, "img-1");
    ScenarioPaths(cfg);
    var ino := CacheForTwoNodes(fs, cfg);
    fetches := |fs.fetchLog|;
    assert (set p | p in fs.entries && fs.entries[p] == File(ino)) ==
           {master, "/var/lib/ironic/images/node-a/disk", "/var/lib/ironic/images/node-b/disk"};
    linksBefore := LinkCount(fs.entries, ino);

    keptAfterFirst, keptAfterSecond := ReleaseInTurn(fs, cfg, ino);
  }

  /** Destroys node A's images, then node B's, from the state CacheForTwoNodes leaves. */
  method ReleaseInTurn(fs: FileSystem, cfg: Config, ino: Inode) returns (keptAfterFirst: bool, keptAfterSecond: bool)
    requires cfg == DefaultConfig("10.0.0.1")
    requires fs.Valid()
    requires fs.entries == map["/var/lib/ironic/master_images/img-1" := File(ino),
                               "/var/lib/ironic/images/node-a/disk" := File(ino),
                               "/var/lib/ironic/images/node-b/disk" := File(ino)]
    modifies fs
    ensures keptAfterFirst && !keptAfterSecond
  {
    var master := MasterImagePath(cfg.instanceMasterPath, "img-1");
    ScenarioPaths(cfg);
    var a, b := "/var/lib/ironic/images/node-a/disk", "/var/lib/ironic/images/node-b/disk";
    DestroyReleasesMaster(fs.entries, cfg, "node-a", "img-1");
    // node B's link is outside node A's directory and keeps the master alive
    assert b in fs.entries && b != master && b != a && fs.entries[b] == fs.entries[master];
    DestroyImages(fs, cfg, "node-a", "img-1");
    keptAfterFirst := master in fs.entries;
    assert fs.entries.Keys <= {master, b};

    DestroyReleasesMaster(fs.entries, cfg, "node-b", "img-1");
    DestroyImages(fs, cfg, "node-b", "img-1");
    keptAfterSecond := master in fs.entries;
  }
}
