/**
 * The PXE deploy interface (`PXEDeploy`) and the helpers it drives: the
 * keystone token file, the per-node PXE configuration with one symbolic
 * link per MAC address, and the clean-up that releases the cached images.
 */
module PxeDeploy {
  import opened Wrappers
  import opened PyValues
  import opened Exceptions
  import opened DriverInfo
  import opened PxePaths
  import opened Files
  import opened ImageCache
  import opened Neutron
  import opened Provisioning

  /** `_get_node_mac_addresses(task, node)`: the MAC of every port of the node. */
  function Macs(ports: seq<Port>): (r: seq<string>)
    ensures |r| == |ports|
    ensures forall i :: 0 <= i < |ports| ==> r[i] == ports[i].address
  {
    seq(|ports|, i requires 0 <= i < |ports| => ports[i].address)
  }

  /** The PXE config link of each MAC, in order. */
  function MacLinks(cfg: Config, macs: seq<string>): (r: seq<string>)
    ensures |r| == |macs|
    ensures forall i :: 0 <= i < |macs| ==> r[i] == PxeMacPath(cfg, macs[i])
  {
    seq(|macs|, i requires 0 <= i < |macs| => PxeMacPath(cfg, macs[i]))
  }

  function PathSet(paths: seq<string>): set<string> {
    set p | p in paths
  }

  /** `PXEDeploy.validate(task, node)`: the node needs a port, and acceptable driver info. */
  function ValidateDeploy(node: string, ports: seq<Port>, info: map<string, Value>): (r: Option<Error>)
    ensures r.None? <==> ports != [] && Acceptable(info)
    ensures ports == [] ==> r == Some(InvalidParameterValue(NoPorts(node)))
    ensures ports != [] && r.Some? ==> ParseDriverInfo(info).Failure? && r.value == ParseDriverInfo(info).error
  {
    if Macs(ports) == [] then Some(InvalidParameterValue(NoPorts(node)))
    else
      match ParseDriverInfo(info)
      case Failure(e) => Some(e)
      case Success(_) => None
  }

  /** `str(ref).split('/')[-1]`: what follows the last slash, or the whole string. */
  function LastSegment(s: string): (r: string)
    ensures '/' !in r && |r| <= |s|
  {
    if s == [] then []
    else if s[|s| - 1] == '/' then []
    else LastSegment(s[..|s| - 1]) + [s[|s| - 1]]
  }

  /** The segment is the longest slash-free suffix: a suffix, preceded by a slash unless it is everything. */
  lemma {:induction false} LastSegmentIsSuffix(s: string)
    ensures var r := LastSegment(s);
            && r == s[|s| - |r|..]
            && (|r| < |s| ==> s[|s| - |r| - 1] == '/')
  {
    if s != [] && s[|s| - 1] != '/' {
      var r := LastSegment(s[..|s| - 1]);
      LastSegmentIsSuffix(s[..|s| - 1]);
      assert s[..|s| - 1][|s| - 1 - |r|..] + [s[|s| - 1]] == s[|s| - |r| - 1..];
    }
  }

  /** The four images a node boots from TFTP. */
  datatype ImageKind = DeployKernel | DeployRamdisk | Kernel | Ramdisk

  /** The label of each image: its key in the image info and its file name under the node's TFTP directory. */
  function KindName(kind: ImageKind): string {
    match kind
    case DeployKernel => "deploy_kernel"
    case DeployRamdisk => "deploy_ramdisk"
    case Kernel => "kernel"
    case Ramdisk => "ramdisk"
  }

  /** One entry of the TFTP image info: which image, its id and its TFTP path. */
  datatype ImageInfo = ImageInfo(kind: ImageKind, imageId: string, path: string)

  function ImageEntry(cfg: Config, node: string, kind: ImageKind, ref: Value): (r: ImageInfo)
    ensures r.kind == kind && r.path == TftpImagePath(cfg, node, KindName(kind))
    ensures '/' !in r.imageId && r.imageId == LastSegment(StrOf(ref))
  {
    ImageInfo(kind, LastSegment(StrOf(ref)), TftpImagePath(cfg, node, KindName(kind)))
  }

  /**
   * `_get_tftp_image_info(node, ctx)` once `_parse_driver_info` has accepted
   * the node (its error is the function's only one). The kernel and ramdisk
   * references come from the instance image's properties in Glance; they are
   * given here.
   */
  function TftpImageInfo(cfg: Config, node: string, d: Info, kernelRef: Value, ramdiskRef: Value): (r: seq<ImageInfo>)
    // one entry per image, named by the last segment of its reference, stored under the node's TFTP directory
    ensures |r| == 4
    ensures r[0].kind == DeployKernel && r[1].kind == DeployRamdisk && r[2].kind == Kernel && r[3].kind == Ramdisk
    ensures forall e :: e in r ==> e.path == TftpImagePath(cfg, node, KindName(e.kind)) && '/' !in e.imageId
    ensures r[0].imageId == LastSegment(StrOf(d.deployKernel)) && r[1].imageId == LastSegment(StrOf(d.deployRamdisk))
    ensures r[2].imageId == LastSegment(StrOf(kernelRef)) && r[3].imageId == LastSegment(StrOf(ramdiskRef))
  {
    var dk, dr := ImageEntry(cfg, node, DeployKernel, d.deployKernel), ImageEntry(cfg, node, DeployRamdisk, d.deployRamdisk);
    var k, rd := ImageEntry(cfg, node, Kernel, kernelRef), ImageEntry(cfg, node, Ramdisk, ramdiskRef);
    [dk, dr, k, rd]
  }

  /** `_create_token_file(task, node)`: write the token if there is one, otherwise remove any old file. */
  method CreateTokenFile(fs: FileSystem, cfg: Config, node: string, token: string)
    requires fs.Valid()
    modifies fs
    ensures fs.Valid()
    ensures var tp := TokenFilePath(cfg, node);
            && (token != [] ==> tp in fs.entries && fs.entries[tp].File? && fs.data[fs.entries[tp].inode] == Text(token))
            && (token == [] ==> fs.entries == old(fs.entries) - {tp} && fs.data == old(fs.data))
            && SameElsewhere(old(fs.entries), fs.entries, {tp})
    ensures fs.fetchLog == old(fs.fetchLog)
  {
    var tp := TokenFilePath(cfg, node);
    if token != [] {
      fs.WriteFile(tp, Text(token));
    } else {
      fs.UnlinkWithoutRaise(tp);
    }
  }

  /**
   * The loop of `_create_pxe_config` over the links: remove each one
   * (`unlink_without_raise`) and make it a symbolic link to `target`
   * (`create_link_without_raise`).
   */
  method RelinkAll(fs: FileSystem, target: string, links: seq<string>)
    requires fs.Valid()
    modifies fs
    ensures fs.Valid()
    ensures forall l :: l in links ==> l in fs.entries && fs.entries[l] == Symlink(target)
    ensures SameElsewhere(old(fs.entries), fs.entries, PathSet(links))
    ensures fs.data == old(fs.data) && fs.nextInode == old(fs.nextInode) && fs.fetchLog == old(fs.fetchLog)
  {
    var i := 0;
    while i < |links|
      invariant 0 <= i <= |links|
      invariant fs.Valid()
      invariant forall j :: 0 <= j < i ==> links[j] in fs.entries && fs.entries[links[j]] == Symlink(target)
      invariant SameElsewhere(old(fs.entries), fs.entries, PathSet(links[..i]))
      invariant fs.data == old(fs.data) && fs.nextInode == old(fs.nextInode) && fs.fetchLog == old(fs.fetchLog)
    {
      assert PathSet(links[..i + 1]) == PathSet(links[..i]) + {links[i]} by {
        assert links[..i + 1] == links[..i] + [links[i]];
      }
      fs.UnlinkWithoutRaise(links[i]);
      fs.CreateSymlink(target, links[i]);
      i := i + 1;
    }
    assert links[..i] == links;
  }

  /**
   * `_create_pxe_config(task, node, pxe_info)`. `_build_pxe_config` stores a
   * fresh deploy key (`key`) in the node's driver info and renders the
   * template (`rendered`); both are given. The config file is written, and
   * each MAC's link is replaced by a symbolic link to it.
   */
  method CreatePxeConfig(node: Node, fs: FileSystem, cfg: Config, key: string, rendered: string)
    requires fs.Valid()
    modifies node, fs
    ensures fs.Valid()
    ensures node.Record() == old(node.Record()).(driverInfo := old(node.driverInfo)[Param("deploy_key") := VStr(key)])
    ensures var cp, links := ConfigFilePath(cfg, node.uuid), MacLinks(cfg, Macs(node.ports));
            && (forall l :: l in links ==> l in fs.entries && fs.entries[l] == Symlink(cp))
            && (cp !in links ==> cp in fs.entries && fs.entries[cp].File? && fs.data[fs.entries[cp].inode] == Text(rendered))
            && SameElsewhere(old(fs.entries), fs.entries, PathSet(links) + {cp})
    ensures fs.fetchLog == old(fs.fetchLog)
  {
    node.driverInfo := node.driverInfo[Param("deploy_key") := VStr(key)];
    var cp := ConfigFilePath(cfg, node.uuid);
    var links := MacLinks(cfg, Macs(node.ports));
    fs.WriteFile(cp, Text(rendered));
    ghost var written := fs.entries;
    assert cp in written && written[cp].File? && fs.data[written[cp].inode] == Text(rendered);
    RelinkAll(fs, cp, links);
  }

  /** Every port's DHCP update fails, which is when `_update_neutron` raises. */
  predicate AllVifsFail(vifs: map<string, Value>, failingVifs: set<Value>) {
    vifs != map[] && forall p :: p in vifs ==> vifs[p] in failingVifs
  }

  /**
   * `PXEDeploy.deploy(task, node)`, under `require_exclusive_lock`: write the
   * token file, push the DHCP options (the VIFs in `failingVifs` fail), and
   * reboot the node (which succeeds when `rebootOk`). It returns DEPLOYWAIT
   * and leaves the node's provisioning state to the caller.
   */
  method Deploy(node: Node, fs: FileSystem, cfg: Config, exclusive: bool, authToken: string,
                failingVifs: set<Value>, rebootOk: bool, powerError: string) returns (r: Result<ProvisionState, Error>)
    requires fs.Valid()
    modifies node, fs
    ensures fs.Valid()
    ensures !exclusive ==> r == Failure(ExclusiveLockRequired) && node.Record() == old(node.Record()) && fs.entries == old(fs.entries)
    ensures exclusive ==>
              var tp := TokenFilePath(cfg, node.uuid);
              && (authToken != [] ==> tp in fs.entries && fs.entries[tp].File? && fs.data[fs.entries[tp].inode] == Text(authToken))
              && (authToken == [] ==> tp !in fs.entries)
              && SameElsewhere(old(fs.entries), fs.entries, {tp})
    ensures exclusive && AllVifsFail(NodeVifIds(node.ports), failingVifs) ==>
              r == Failure(FailedToUpdateDhcpOptOnPort(node.uuid)) && node.Record() == old(node.Record())
    ensures exclusive && !AllVifsFail(NodeVifIds(node.ports), failingVifs) && !rebootOk ==>
              r == Failure(PowerActionFailed) && node.Record() == old(node.Record()).(lastError := Some(PowerActionFailure(powerError)))
    ensures exclusive && !AllVifsFail(NodeVifIds(node.ports), failingVifs) && rebootOk ==>
              r == Success(DeployWait) && node.Record() == old(node.Record()).(powerState := PowerOn, lastError := None)
    ensures fs.fetchLog == old(fs.fetchLog)
  {
    if !exclusive {
      return Failure(ExclusiveLockRequired);
    }
    CreateTokenFile(fs, cfg, node.uuid, authToken);
    var outcome := UpdateNeutron(NodeVifIds(node.ports), failingVifs);
    if outcome == NoneUpdated {
      return Failure(FailedToUpdateDhcpOptOnPort(node.uuid));
    }
    var ok := node.PowerAction(Reboot, rebootOk, powerError);
    if !ok {
      return Failure(PowerActionFailed);
    }
    r := Success(DeployWait);
  }

  /** `PXEDeploy.tear_down(task, node)`, under `require_exclusive_lock`: power the node off. */
  method TearDown(node: Node, exclusive: bool, powerOffOk: bool, powerError: string) returns (r: Result<ProvisionState, Error>)
    modifies node
    ensures !exclusive ==> r == Failure(ExclusiveLockRequired) && node.Record() == old(node.Record())
    ensures exclusive && powerOffOk ==>
              r == Success(Deleted) && node.Record() == old(node.Record()).(powerState := PowerOff, lastError := None)
    ensures exclusive && !powerOffOk ==>
              r == Failure(PowerActionFailed) && node.Record() == old(node.Record()).(lastError := Some(PowerActionFailure(powerError)))
  {
    if !exclusive {
      return Failure(ExclusiveLockRequired);
    }
    var ok := node.PowerAction(PowerOffRequest, powerOffOk, powerError);
    r := if ok then Success(Deleted) else Failure(PowerActionFailed);
  }

  /** `PXEDeploy.take_over(task, node)`: push the DHCP options again; it raises only when every port fails. */
  method TakeOver(node: Node, failingVifs: set<Value>) returns (r: Option<Error>)
    ensures r.Some? <==> AllVifsFail(NodeVifIds(node.ports), failingVifs)
    ensures r.Some? ==> r.value == FailedToUpdateDhcpOptOnPort(node.uuid)
  {
    var outcome := UpdateNeutron(NodeVifIds(node.ports), failingVifs);
    r := if outcome == NoneUpdated then Some(FailedToUpdateDhcpOptOnPort(node.uuid)) else None;
  }

  /** Every entry of `m'` is an unchanged entry of `m`. */
  ghost predicate Shrunk(m: map<string, Entry>, m': map<string, Entry>) {
    forall p :: p in m' ==> p in m && m'[p] == m[p]
  }

  /** The TFTP image paths and the TFTP masters of `infos`. */
  ghost predicate TftpImageOrMaster(cfg: Config, infos: seq<ImageInfo>, p: string) {
    exists i :: 0 <= i < |infos| && (p == infos[i].path || p == MasterImagePath(cfg.tftpMasterPath, infos[i].imageId))
  }

  /** What the loop of `clean_up` over the image info leaves: each image unlinked and its master released, in order. */
  function ReleaseTftpImages(m: map<string, Entry>, cfg: Config, infos: seq<ImageInfo>): map<string, Entry>
    decreases |infos|
  {
    if infos == [] then m
    else ReleaseTftpImages(UnlinkMaster(m - {infos[0].path}, MasterImagePath(cfg.tftpMasterPath, infos[0].imageId)), cfg, infos[1..])
  }

  /** Releasing the TFTP images only removes entries: the images themselves, and some of their masters. */
  lemma {:induction false} ReleaseTftpImagesRemoves(m: map<string, Entry>, cfg: Config, infos: seq<ImageInfo>)
    ensures var r := ReleaseTftpImages(m, cfg, infos);
            && Shrunk(m, r)
            && (forall e :: e in infos ==> e.path !in r)
            && (forall p :: p in m && p !in r ==> TftpImageOrMaster(cfg, infos, p))
    decreases |infos|
  {
    if infos != [] {
      var master := MasterImagePath(cfg.tftpMasterPath, infos[0].imageId);
      var m1 := UnlinkMaster(m - {infos[0].path}, master);
      ReleaseTftpImagesRemoves(m1, cfg, infos[1..]);
      var r := ReleaseTftpImages(m, cfg, infos);
      assert r == ReleaseTftpImages(m1, cfg, infos[1..]);
      forall p | p in m && p !in r
        ensures TftpImageOrMaster(cfg, infos, p)
      {
        if p in m1 {
          var j :| 0 <= j < |infos[1..]| && (p == infos[1..][j].path || p == MasterImagePath(cfg.tftpMasterPath, infos[1..][j].imageId));
          assert infos[1..][j] == infos[j + 1];
        } else {
          assert p == infos[0].path || p == master;
        }
      }
      forall e | e in infos
        ensures e.path !in r
      {
        if e != infos[0] {
          assert e in infos[1..];
        }
      }
    }
  }

  /**
   * A file still linked from a path outside the node's TFTP images and their
   * masters survives the release, unchanged: a master another node uses is kept.
   */
  lemma {:induction false} ReleaseKeepsLinkedFile(m: map<string, Entry>, cfg: Config, infos: seq<ImageInfo>, p: string, q: string)
    requires p in m && m[p].File? && q in m && q != p && m[q] == m[p]
    requires !TftpImageOrMaster(cfg, infos, q)
    requires forall i :: 0 <= i < |infos| ==> infos[i].path != p
    ensures var r := ReleaseTftpImages(m, cfg, infos);
            p in r && r[p] == m[p] && q in r && r[q] == m[q]
    decreases |infos|
  {
    if infos != [] {
      var master := MasterImagePath(cfg.tftpMasterPath, infos[0].imageId);
      var m0 := m - {infos[0].path};
      assert q != infos[0].path && q != master;
      var m1 := UnlinkMaster(m0, master);
      assert p in m0 && q in m0 && m0[q] == m0[p];
      if p == master {
        assert !OnlyLink(m0, p);
      }
      forall i | 0 <= i < |infos[1..]|
        ensures infos[1..][i].path != p
        ensures q != infos[1..][i].path && q != MasterImagePath(cfg.tftpMasterPath, infos[1..][i].imageId)
      {
        assert infos[1..][i] == infos[i + 1];
      }
      ReleaseKeepsLinkedFile(m1, cfg, infos[1..], p, q);
    }
  }

  /**
   * A master of one of the images whose every other link is an image path of
   * `infos` released with that same master is gone after the release: the
   * last node using a TFTP master frees it.
   */
  lemma {:induction false} ReleaseRemovesUnsharedMaster(m: map<string, Entry>, cfg: Config, infos: seq<ImageInfo>, p: string)
    requires p in m && m[p].File?
    requires exists k :: 0 <= k < |infos| && p == MasterImagePath(cfg.tftpMasterPath, infos[k].imageId)
    requires forall q :: q in m && q != p && m[q] == m[p] ==>
               exists j :: 0 <= j < |infos| && q == infos[j].path && MasterImagePath(cfg.tftpMasterPath, infos[j].imageId) == p
    ensures p !in ReleaseTftpImages(m, cfg, infos)
    decreases |infos|
  {
    var master := MasterImagePath(cfg.tftpMasterPath, infos[0].imageId);
    var m0 := m - {infos[0].path};
    var m1 := UnlinkMaster(m0, master);
    assert ReleaseTftpImages(m, cfg, infos) == ReleaseTftpImages(m1, cfg, infos[1..]);
    ReleaseTftpImagesRemoves(m1, cfg, infos[1..]);
    if p in m1 {
      var rest := infos[1..];
      assert p in m0 && m1[p] == m[p];
      assert exists k :: 0 <= k < |rest| && p == MasterImagePath(cfg.tftpMasterPath, rest[k].imageId) by {
        var k :| 0 <= k < |infos| && p == MasterImagePath(cfg.tftpMasterPath, infos[k].imageId);
        if k == 0 {
          assert !OnlyLink(m0, p);
          var q :| q in m0 && q != p && m0[q] == m0[p];
          var j :| 0 <= j < |infos| && q == infos[j].path && MasterImagePath(cfg.tftpMasterPath, infos[j].imageId) == p;
          assert rest[j - 1] == infos[j];
        } else {
          assert rest[k - 1] == infos[k];
        }
      }
      forall q | q in m1 && q != p && m1[q] == m1[p]
        ensures exists j :: 0 <= j < |rest| && q == rest[j].path && MasterImagePath(cfg.tftpMasterPath, rest[j].imageId) == p
      {
        assert q in m0;
        var j :| 0 <= j < |infos| && q == infos[j].path && MasterImagePath(cfg.tftpMasterPath, infos[j].imageId) == p;
        assert rest[j - 1] == infos[j];
      }
      ReleaseRemovesUnsharedMaster(m1, cfg, rest, p);
    }
  }

  /** The loop of `clean_up` over the image info. */
  method RemoveTftpImages(fs: FileSystem, cfg: Config, infos: seq<ImageInfo>)
    requires fs.Valid()
    modifies fs
    ensures fs.Valid()
    ensures fs.entries == ReleaseTftpImages(old(fs.entries), cfg, infos)
    ensures fs.data == old(fs.data) && fs.nextInode == old(fs.nextInode) && fs.fetchLog == old(fs.fetchLog)
  {
    var i := 0;
    while i < |infos|
      invariant 0 <= i <= |infos|
      invariant fs.Valid()
      invariant ReleaseTftpImages(fs.entries, cfg, infos[i..]) == ReleaseTftpImages(old(fs.entries), cfg, infos)
      invariant fs.data == old(fs.data) && fs.nextInode == old(fs.nextInode) && fs.fetchLog == old(fs.fetchLog)
    {
      assert infos[i..][1..] == infos[i + 1..];
      fs.UnlinkWithoutRaise(infos[i].path);
      UnlinkMasterImage(fs, MasterImagePath(cfg.tftpMasterPath, infos[i].imageId));
      i := i + 1;
    }
  }

  /** The loop of `clean_up` over the MAC links: unlink each one. */
  method UnlinkAll(fs: FileSystem, paths: seq<string>)
    requires fs.Valid()
    modifies fs
    ensures fs.Valid()
    ensures fs.entries == old(fs.entries) - PathSet(paths)
    ensures fs.data == old(fs.data) && fs.nextInode == old(fs.nextInode) && fs.fetchLog == old(fs.fetchLog)
  {
    var k := 0;
    while k < |paths|
      invariant 0 <= k <= |paths|
      invariant fs.Valid()
      invariant fs.entries == old(fs.entries) - PathSet(paths[..k])
      invariant fs.data == old(fs.data) && fs.nextInode == old(fs.nextInode) && fs.fetchLog == old(fs.fetchLog)
    {
      assert PathSet(paths[..k + 1]) == PathSet(paths[..k]) + {paths[k]} by {
        assert paths[..k + 1] == paths[..k] + [paths[k]];
      }
      fs.UnlinkWithoutRaise(paths[k]);
      k := k + 1;
    }
    assert paths[..k] == paths;
  }

  /** What `clean_up` leaves of the filesystem once the driver info is accepted. */
  function CleanUpEffect(m: map<string, Entry>, cfg: Config, node: string, infos: seq<ImageInfo>,
                         macs: seq<string>, imageId: string): map<string, Entry>
  {
    var released := ReleaseTftpImages(m, cfg, infos);
    var unlinked := released - {ConfigFilePath(cfg, node)} - PathSet(MacLinks(cfg, macs));
    var tftpGone := WithoutTree(unlinked, NodeTftpDir(cfg, node));
    DestroyImagesEffect(tftpGone, cfg, node, imageId) - {TokenFilePath(cfg, node)}
  }

  /** The paths `clean_up` may remove for `node`. */
  ghost predicate CleanUpMayRemove(cfg: Config, node: string, infos: seq<ImageInfo>, macs: seq<string>, imageId: string, p: string) {
    || TftpImageOrMaster(cfg, infos, p)
    || p == ConfigFilePath(cfg, node) || p in MacLinks(cfg, macs) || Under(p, NodeTftpDir(cfg, node))
    || p == ImageFilePath(cfg, node) || Under(p, ImageDirPath(cfg, node))
    || p == MasterImagePath(cfg.instanceMasterPath, imageId)
    || p == TokenFilePath(cfg, node)
  }

  /** After `clean_up`, none of the node's files is left. */
  lemma CleanUpRemovesNodeFiles(m: map<string, Entry>, cfg: Config, node: string, infos: seq<ImageInfo>,
                                macs: seq<string>, imageId: string)
    ensures var r := CleanUpEffect(m, cfg, node, infos, macs, imageId);
            && (forall e :: e in infos ==> e.path !in r)
            && ConfigFilePath(cfg, node) !in r
            && (forall l :: l in MacLinks(cfg, macs) ==> l !in r)
            && (forall p :: p in r ==> !Under(p, NodeTftpDir(cfg, node)) && !Under(p, ImageDirPath(cfg, node)))
            && ImageFilePath(cfg, node) !in r
            && TokenFilePath(cfg, node) !in r
  {
    ReleaseTftpImagesRemoves(m, cfg, infos);
  }

  /** `clean_up` adds and changes nothing, and removes only the node's files and the masters it releases. */
  lemma CleanUpRemovesOnlyNodeFiles(m: map<string, Entry>, cfg: Config, node: string, infos: seq<ImageInfo>,
                                    macs: seq<string>, imageId: string)
    ensures var r := CleanUpEffect(m, cfg, node, infos, macs, imageId);
            && Shrunk(m, r)
            && (forall p :: p in m && p !in r ==> CleanUpMayRemove(cfg, node, infos, macs, imageId, p))
  {
    ReleaseTftpImagesRemoves(m, cfg, infos);
    var released := ReleaseTftpImages(m, cfg, infos);
    var unlinked := released - {ConfigFilePath(cfg, node)} - PathSet(MacLinks(cfg, macs));
    var tftpGone := WithoutTree(unlinked, NodeTftpDir(cfg, node));
    var file, dir := ImageFilePath(cfg, node), ImageDirPath(cfg, node);
    var destroyed := DestroyImagesEffect(tftpGone, cfg, node, imageId);
    assert destroyed == UnlinkMaster(WithoutTree(tftpGone - {file}, dir), MasterImagePath(cfg.instanceMasterPath, imageId));
  }

  /** One of the node's own files, which `clean_up` removes whatever links to it. */
  ghost predicate NodeFile(cfg: Config, node: string, infos: seq<ImageInfo>, macs: seq<string>, p: string) {
    || (exists i :: 0 <= i < |infos| && p == infos[i].path)
    || p == ConfigFilePath(cfg, node) || p in MacLinks(cfg, macs) || Under(p, NodeTftpDir(cfg, node))
    || p == ImageFilePath(cfg, node) || Under(p, ImageDirPath(cfg, node))
    || p == TokenFilePath(cfg, node)
  }

  /**
   * `clean_up` keeps every file that is not the node's own and is still linked
   * from a path it may not remove: a TFTP or instance master that another
   * node links to survives, with its contents.
   */
  lemma CleanUpKeepsLinkedFile(m: map<string, Entry>, cfg: Config, node: string, infos: seq<ImageInfo>,
                               macs: seq<string>, imageId: string, p: string, q: string)
    requires p in m && m[p].File? && q in m && q != p && m[q] == m[p]
    requires !CleanUpMayRemove(cfg, node, infos, macs, imageId, q)
    requires !NodeFile(cfg, node, infos, macs, p)
    ensures var r := CleanUpEffect(m, cfg, node, infos, macs, imageId);
            p in r && r[p] == m[p] && q in r && r[q] == m[q]
  {
    ReleaseKeepsLinkedFile(m, cfg, infos, p, q);
    var released := ReleaseTftpImages(m, cfg, infos);
    var unlinked := released - {ConfigFilePath(cfg, node)} - PathSet(MacLinks(cfg, macs));
    var tftpGone := WithoutTree(unlinked, NodeTftpDir(cfg, node));
    var file, dir := ImageFilePath(cfg, node), ImageDirPath(cfg, node);
    var kept := WithoutTree(tftpGone - {file}, dir);
    assert p in kept && kept[p] == m[p] && q in kept && kept[q] == m[q];
    var instanceMaster := MasterImagePath(cfg.instanceMasterPath, imageId);
    if p == instanceMaster {
      assert !OnlyLink(kept, p);
    }
    assert DestroyImagesEffect(tftpGone, cfg, node, imageId) == UnlinkMaster(kept, instanceMaster);
  }

  /** `clean_up` frees a TFTP master that only this node's images link to. */
  lemma CleanUpReleasesUnsharedMaster(m: map<string, Entry>, cfg: Config, node: string, infos: seq<ImageInfo>,
                                      macs: seq<string>, imageId: string, p: string)
    requires p in m && m[p].File?
    requires exists k :: 0 <= k < |infos| && p == MasterImagePath(cfg.tftpMasterPath, infos[k].imageId)
    requires forall q :: q in m && q != p && m[q] == m[p] ==>
               exists j :: 0 <= j < |infos| && q == infos[j].path && MasterImagePath(cfg.tftpMasterPath, infos[j].imageId) == p
    ensures p !in CleanUpEffect(m, cfg, node, infos, macs, imageId)
  {
    ReleaseRemovesUnsharedMaster(m, cfg, infos, p);
    var released := ReleaseTftpImages(m, cfg, infos);
    var unlinked := released - {ConfigFilePath(cfg, node)} - PathSet(MacLinks(cfg, macs));
    var tftpGone := WithoutTree(unlinked, NodeTftpDir(cfg, node));
    var kept := WithoutTree(tftpGone - {ImageFilePath(cfg, node)}, ImageDirPath(cfg, node));
    assert p !in kept;
    assert DestroyImagesEffect(tftpGone, cfg, node, imageId) == UnlinkMaster(kept, MasterImagePath(cfg.instanceMasterPath, imageId));
  }

  /**
   * `PXEDeploy.clean_up(task, node)`: remove the node's TFTP images, PXE config,
   * MAC links, TFTP directory, disk image and token file, releasing each master
   * image it linked. `imageId` is the id Glance's `parse_image_ref` gives for
   * the node's `image_source`.
   */
  method CleanUp(node: Node, fs: FileSystem, cfg: Config, kernelRef: Value, ramdiskRef: Value, imageId: string)
    returns (r: Option<Error>)
    requires fs.Valid()
    modifies fs
    ensures fs.Valid()
    ensures ParseDriverInfo(node.driverInfo).Failure? ==>
              r == Some(ParseDriverInfo(node.driverInfo).error) && fs.entries == old(fs.entries)
    ensures ParseDriverInfo(node.driverInfo).Success? ==>
              && r == None
              && fs.entries == CleanUpEffect(old(fs.entries), cfg, node.uuid,
                   TftpImageInfo(cfg, node.uuid, ParseDriverInfo(node.driverInfo).value, kernelRef, ramdiskRef),
                   Macs(node.ports), imageId)
    ensures fs.data == old(fs.data) && fs.fetchLog == old(fs.fetchLog)
  {
    var parsed := ParseDriverInfo(node.driverInfo);
    if parsed.Failure? {
      return Some(parsed.error);
    }
    var infos := TftpImageInfo(cfg, node.uuid, parsed.value, kernelRef, ramdiskRef);
    RemoveTftpImages(fs, cfg, infos);
    fs.UnlinkWithoutRaise(ConfigFilePath(cfg, node.uuid));
    UnlinkAll(fs, MacLinks(cfg, Macs(node.ports)));
    fs.RemoveTree(NodeTftpDir(cfg, node.uuid));
    DestroyImages(fs, cfg, node.uuid, imageId);
    Provisioning.DestroyTokenFile(fs, cfg, node.uuid);
    r := None;
  }
}
