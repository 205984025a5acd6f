/**
 * Where the PXE driver keeps its files: POSIX path joining and the per-node,
 * per-MAC and image-cache paths built from the `[pxe]` configuration.
 */
module PxePaths {
  import opened PyValues

  /** The `[pxe]` configuration options the driver reads. */
  datatype Config = Config(
    tftpRoot: string,
    imagesPath: string,
    tftpMasterPath: string,
    instanceMasterPath: string,
    bootfileName: string,
    tftpServer: string,
    appendParams: string)

  /** The option defaults; `tftp_server` defaults to this host's address. */
  function DefaultConfig(myIp: string): Config {
    Config("/tftpboot", "/var/lib/ironic/images/", "/tftpboot/master_images",
           "/var/lib/ironic/master_images", "pxelinux.0", myIp, "nofb nomodeset vga=normal")
  }

  /** `os.path.join(a, b)` on POSIX: an absolute `b` replaces `a`. */
  function Join(a: string, b: string): (r: string)
    // an absolute second part replaces the first
    ensures |r| >= |b|
    ensures b != [] && b[0] == '/' ==> r == b
    ensures a != [] && a[0] == '/' ==> r != [] && r[0] == '/'
  {
    if b != [] && b[0] == '/' then b
    else if a == [] || a[|a| - 1] == '/' then a + b
    else a + "/" + b
  }

  /** A relative name lands directly inside the directory, as its last component. */
  lemma JoinUnder(dir: string, name: string)
    ensures dir != [] && IsComponent(name) ==>
              Under(Join(dir, name), dir) && Join(dir, name)[|Join(dir, name)| - |name|..] == name
  {
  }

  /** `path` lies inside directory `dir` (what rmtree(dir) would remove). */
  predicate Under(path: string, dir: string) {
    dir != [] && |dir| < |path| && path[..|dir|] == dir && (path[|dir|] == '/' || dir[|dir| - 1] == '/')
  }

  /** A relative, non-empty path component. */
  predicate IsComponent(name: string) {
    name != [] && name[0] != '/'
  }

  // ---------------------------------------------------------------------
  // MAC addresses and their pxelinux.cfg file names

  function DashColons(s: string): (r: string)
    ensures |r| == |s|
    ensures forall i :: 0 <= i < |s| ==> r[i] == if s[i] == ':' then '-' else s[i]
  {
    seq(|s|, i requires 0 <= i < |s| => if s[i] == ':' then '-' else s[i])
  }

  function ColonDashes(s: string): (r: string)
    ensures |r| == |s|
    ensures forall i :: 0 <= i < |s| ==> r[i] == if s[i] == '-' then ':' else s[i]
  {
    seq(|s|, i requires 0 <= i < |s| => if s[i] == '-' then ':' else s[i])
  }

  /** The pxelinux file name of a MAC: "01-", then the MAC with dashes, lower-case. */
  function PxeMacFileName(mac: string): string {
    "01-" + Lower(DashColons(mac))
  }

  /** `_get_pxe_mac_path(mac)` */
  function PxeMacPath(cfg: Config, mac: string): (r: string)
    // one file per MAC, directly inside `<tftp_root>/pxelinux.cfg`
    ensures Under(r, Join(cfg.tftpRoot, "pxelinux.cfg"))
    ensures |r| >= |mac| + 3 && r[|r| - |mac| - 3..] == PxeMacFileName(mac)
  {
    JoinUnder(Join(cfg.tftpRoot, "pxelinux.cfg"), PxeMacFileName(mac));
    Join(Join(cfg.tftpRoot, "pxelinux.cfg"), PxeMacFileName(mac))
  }

  predicate IsHexDigit(c: char) {
    IsDigit(c) || 'a' <= c <= 'f' || 'A' <= c <= 'F'
  }

  /** The `xx:xx:xx:xx:xx:xx` form the driver expects. */
  predicate WellFormedMac(mac: string) {
    |mac| == 17 && forall i :: 0 <= i < 17 ==> if i % 3 == 2 then mac[i] == ':' else IsHexDigit(mac[i])
  }

  /** The MAC a pxelinux.cfg file name stands for (the inverse of PxeMacFileName). */
  function MacOfFileName(name: string): string
    requires |name| >= 3
  {
    ColonDashes(name[3..])
  }

  /**
   * The MAC file lives directly in `<tftp_root>/pxelinux.cfg`, its name is
   * "01-" plus one character per MAC character, and it has no colon and no
   * upper-case letter.
   */
  lemma PxeMacPathShape(cfg: Config, mac: string)
    ensures PxeMacPath(cfg, mac) == Join(cfg.tftpRoot, "pxelinux.cfg") + "/" + PxeMacFileName(mac)
    ensures |PxeMacFileName(mac)| == |mac| + 3 && PxeMacFileName(mac)[..3] == "01-"
    ensures forall i :: 0 <= i < |PxeMacFileName(mac)| ==>
              PxeMacFileName(mac)[i] != ':' && !IsUpper(PxeMacFileName(mac)[i])
  {
    var name := PxeMacFileName(mac);
    forall i | 3 <= i < |name|
      ensures name[i] != ':' && !IsUpper(name[i])
    {
      assert name[i] == LowerChar(DashColons(mac)[i - 3]);
    }
  }

  /** For a well-formed MAC the file name gives back the MAC in lower case. */
  lemma MacFileNameRoundTrip(mac: string)
    requires WellFormedMac(mac)
    ensures MacOfFileName(PxeMacFileName(mac)) == Lower(mac)
  {
    var name := PxeMacFileName(mac);
    var back := MacOfFileName(name);
    forall i | 0 <= i < 17
      ensures back[i] == Lower(mac)[i]
    {
      assert name[3 + i] == LowerChar(DashColons(mac)[i]);
    }
  }

  /** Two well-formed MACs share a pxelinux.cfg file only if they differ in case alone. */
  lemma MacPathInjective(cfg: Config, mac1: string, mac2: string)
    requires WellFormedMac(mac1) && WellFormedMac(mac2)
    requires PxeMacPath(cfg, mac1) == PxeMacPath(cfg, mac2)
    ensures Lower(mac1) == Lower(mac2)
  {
    PxeMacPathShape(cfg, mac1);
    PxeMacPathShape(cfg, mac2);
    var prefix := Join(cfg.tftpRoot, "pxelinux.cfg") + "/";
    var p := PxeMacPath(cfg, mac1);
    assert PxeMacFileName(mac1) == p[|prefix|..] == PxeMacFileName(mac2);
    MacFileNameRoundTrip(mac1);
    MacFileNameRoundTrip(mac2);
  }

  // ---------------------------------------------------------------------
  // Per-node paths

  /** `<tftp_root>/<node>`: the node's kernel, ramdisk and config live here. */
  function NodeTftpDir(cfg: Config, node: string): (r: string)
    ensures cfg.tftpRoot != [] && IsComponent(node) ==> Under(r, cfg.tftpRoot)
  {
    JoinUnder(cfg.tftpRoot, node);
    Join(cfg.tftpRoot, node)
  }

  /** `_get_pxe_config_file_path(node)` */
  function ConfigFilePath(cfg: Config, node: string): (r: string)
    // inside the node's TFTP directory, so removing that directory removes it
    ensures IsComponent(node) ==> Under(r, NodeTftpDir(cfg, node))
  {
    JoinUnder(NodeTftpDir(cfg, node), "config");
    Join(NodeTftpDir(cfg, node), "config")
  }

  /** The path of one of the node's TFTP images (`deploy_kernel`, `kernel`, ...). */
  function TftpImagePath(cfg: Config, node: string, kind: string): (r: string)
    ensures IsComponent(node) && IsComponent(kind) ==> Under(r, NodeTftpDir(cfg, node))
  {
    JoinUnder(NodeTftpDir(cfg, node), kind);
    Join(NodeTftpDir(cfg, node), kind)
  }

  /** `_get_image_dir_path(node)` */
  function ImageDirPath(cfg: Config, node: string): (r: string)
    ensures cfg.imagesPath != [] && IsComponent(node) ==> Under(r, cfg.imagesPath)
  {
    JoinUnder(cfg.imagesPath, node);
    Join(cfg.imagesPath, node)
  }

  /** `_get_image_file_path(node)` */
  function ImageFilePath(cfg: Config, node: string): (r: string)
    // inside the node's image directory, so removing that directory removes it
    ensures IsComponent(node) ==> Under(r, ImageDirPath(cfg, node))
  {
    JoinUnder(ImageDirPath(cfg, node), "disk");
    Join(ImageDirPath(cfg, node), "disk")
  }

  /** `_get_token_file_path(node)` */
  function TokenFilePath(cfg: Config, node: string): (r: string)
    // directly in the TFTP root, named after the node
    ensures cfg.tftpRoot != [] ==> Under(r, cfg.tftpRoot) && |r| >= |node| && r[|r| - |node|..] == node
  {
    JoinUnder(cfg.tftpRoot, "token-" + node);
    Join(cfg.tftpRoot, "token-" + node)
  }

  /** The shared master copy of image `imageId` in cache directory `dir`. */
  function MasterImagePath(dir: string, imageId: string): string { Join(dir, imageId) }

  /**
   * The download marker of `_get_image`: the master path plus ".lock", joined
   * once more onto the cache directory.
   */
  function DownloadMarkerPath(dir: string, imageId: string): string {
    Join(dir, MasterImagePath(dir, imageId) + ".lock")
  }

  /**
   * The marker is never the master itself, and for an absolute cache
   * directory it is the master's path with ".lock" appended.
   */
  lemma DownloadMarkerBesideMaster(dir: string, imageId: string)
    ensures DownloadMarkerPath(dir, imageId) != MasterImagePath(dir, imageId)
    ensures dir != [] && dir[0] == '/' ==>
              DownloadMarkerPath(dir, imageId) == MasterImagePath(dir, imageId) + ".lock"
  {
    var m := MasterImagePath(dir, imageId);
    assert |DownloadMarkerPath(dir, imageId)| >= |m| + 5;
  }
}
