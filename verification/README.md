# PXE deploy driver of ironic, modelled in Dafny

This project models the PXE deploy driver of OpenStack ironic
(`ironic/drivers/modules/pxe.py`). The driver deploys an image to a bare-metal
node in several steps:

- It validates the node's `driver_info`.
- It writes the per-node PXE configuration and links each MAC address to it.
- It caches the boot and instance images in a hard-link cache. A master copy's
  link count serves as its reference count.
- It pushes the PXE boot options to the node's Neutron ports.
- It reboots the node into a deploy ramdisk. The ramdisk posts back, and the
  callback `_continue_deploy` finishes the deployment or marks it failed.
- Later it tears the node down and cleans up its files, releasing the
  masters no other node uses.

The modules follow the driver's structure:

| module | what it holds |
|---|---|
| `Wrappers` | `Option` and `Result` |
| `PyValues` | Python values stored in `driver_info` and in callback arguments: truthiness, `==`, `int()`, `str()`, strict `bool_from_string` |
| `Exceptions` | the exceptions the driver raises or lets through |
| `DriverInfo` | `_parse_driver_info` |
| `PxePaths` | configuration options, POSIX `os.path.join`, every path the driver builds |
| `Files` | a filesystem class: entries naming inodes, link counts, symbolic links, image fetches |
| `ImageCache` | the master-image cache, `_get_image`, `_destroy_images` |
| `Neutron` | VIF lookup, DHCP options, `_update_neutron` |
| `VendorPassthru` | `_get_deploy_info`, `validate` |
| `Provisioning` | the node as a class, `node_power_action` as the driver relies on it, `_continue_deploy` |
| `PxeDeploy` | `PXEDeploy.validate/deploy/tear_down/clean_up/take_over`, `_create_pxe_config`, `_get_tftp_image_info`, the token file |
| `CacheScenarios`, `DeployScenarios` | concrete scenarios played through the model, with their outcomes proved |

Code that changes state is written as methods on classes:

- `Files.FileSystem` holds the directory entries, the inode contents and the
  log of image fetches.
- `Provisioning.Node` holds the node's provisioning, target and power states,
  its `last_error` and its `driver_info`.

Most methods' postconditions tie the new state to a pure function of the old
state, such as `LinkMaster`, `UnlinkMaster`, `CreateMaster`,
`DestroyImagesEffect`, `CleanUpEffect` and `ContinueDeployEffect`. A few state
the new state directly, entry by entry: `StartGetImage`, `FinishDownload`,
`GetImage`, `CreateTokenFile`, `RelinkAll`, `CreatePxeConfig` and `Deploy`. The
lemmas about the functions state what the driver promises:

- A master is released exactly when no link to it remains.
- Clean-up removes all of the node's files. Besides them it removes only
  masters it releases, and it keeps every master another path still links to.
- A second callback changes nothing.
- A matching callback activates the node.

Code that only computes is written as functions. Examples are
`_parse_driver_info`, `_get_deploy_info`, the paths and the DHCP options.

Outside influences are parameters of the model:

- The outcome of the image service.
- Whether each Neutron port update fails.
- Whether each power action succeeds, and the power driver's error text.
- Whether `deploy_utils.deploy` succeeds.
- The keystone token, the rendered PXE template and the random deploy key.
- The temporary file name `mkstemp` returns.

On one point the code and the driver's own documentation disagree, and the
model follows the code:

- The docstring of `_continue_deploy` says it raises no exceptions
  (`ironic/drivers/modules/pxe.py:700-703`).
- It calls `_get_deploy_info` outside its `try` block, after it has already
  set the node to DEPLOYING and deleted the token file
  (`ironic/drivers/modules/pxe.py:727-732`).
- So a callback with a wrong deploy key, with a missing iSCSI parameter, or on
  a node whose `driver_info` is not acceptable, raises. It leaves the node
  DEPLOYING with its target and `last_error` unchanged
  (`Provisioning.WrongKeyStrandsNode`).
- `VendorPassthru.validate` runs the same `_get_deploy_info` check
  (`ironic/drivers/modules/pxe.py:686-687`). Whether the conductor calls it
  before the callback, and so keeps such a callback away, is not part of this
  model.

The download marker of the image cache avoids downloading the same image
simultaneously (`ironic/drivers/modules/pxe.py:291-293`), and no more: the
code does not guarantee a single fetch across callers. `_get_image` links to
the master and tests whether `path` exists before it takes the marker,
without a lock around the three steps. Two callers can both find no master
and download one after the other
(`CacheScenarios.InterleavedCallersFetchTwice`). Both still end up linked to
one master, and the second download is discarded.

## Model

| member | source | states |
|---|---|---|
| DriverInfo.ParseDriverInfo | ironic/drivers/modules/pxe.py:83-141 | returns exactly when the info is acceptable. The missing-parameter error is raised exactly when a required key is absent or falsy, and names every such key. With every key present, the checks raise in order, each with its own error: a size `int()` refuses gives "not an integer" for that size, except that an explicit None size lets TypeError escape. Next, a truthy ephemeral size without a format gives the ephemeral-format error. Last, a preserve flag that strict parsing refuses gives "not a boolean". On success every field is taken from its `pxe_` key with the defaults swap 1, ephemeral 0 and preserve False, and the preserve flag is the strict boolean of its value |
| DriverInfo.MissingParams | ironic/drivers/modules/pxe.py:101-108 | the reported names are exactly the `pxe_` names of the labels whose value is absent or falsy, at most one per label |
| DriverInfo.NoneMissing | ironic/drivers/modules/pxe.py:101-108 | no name is reported if and only if every required key is present and truthy |
| DriverInfo.EphemeralZeroString | ironic/drivers/modules/pxe.py:126-130 | the ephemeral check reads the raw value: the string "0" demands a format and fails without one, while the integer 0 does not |
| PyValues.ParseIntRoundTrip | ironic/drivers/modules/pxe.py:120-126 | `int(str(n)) == n` for every integer, so a size given as the decimal string of an integer passes the integer check with that value |
| PyValues.ParseIntSpelling | ironic/drivers/modules/pxe.py:120-126 | `int()` accepts surrounding whitespace, an optional sign followed by optional whitespace, and leading zeros. Each such spelling gives the signed decimal value of its digits |
| PyValues.ToInt | ironic/drivers/modules/pxe.py:120-126 | `int(None)` is a TypeError and nothing else is. A string converts exactly when it parses. A bool or an integer converts to a value equal to itself |
| PyValues.StrictBoolOfNonString | ironic/drivers/modules/pxe.py:133-140 | for a value that is not a string, strict parsing accepts exactly the numbers 0 and 1 and the booleans, giving a boolean equal to the value. None is refused |
| PyValues.StrictBoolOfInt | ironic/drivers/modules/pxe.py:133-136 | strict boolean parsing accepts an integer only when it is 1 (True) or 0 (False) |
| PxePaths.Join | ironic/drivers/modules/pxe.py:221-225 | `os.path.join`: an absolute second part replaces the first, the result is at least as long as the second part, and an absolute first part gives an absolute result |
| PxePaths.JoinUnder | ironic/drivers/modules/pxe.py:221-225 | a relative name joined onto a non-empty directory lies inside that directory and ends with the name |
| PxePaths.PxeMacPath | ironic/drivers/modules/pxe.py:216-226 | the MAC's file lies inside `<tftp_root>/pxelinux.cfg` and ends with the MAC's pxelinux file name |
| PxePaths.PxeMacPathShape | ironic/drivers/modules/pxe.py:216-226 | a MAC's config file lies directly in `<tftp_root>/pxelinux.cfg`. Its name is "01-" followed by one character per MAC character, with no colon and no upper-case letter |
| PxePaths.MacFileNameRoundTrip | ironic/drivers/modules/pxe.py:216-226 | for a well-formed MAC, the file name gives back the MAC in lower case |
| PxePaths.MacPathInjective | ironic/drivers/modules/pxe.py:216-226 | two well-formed MACs share a config link only if they differ in case alone |
| PxePaths.NodeTftpDir | ironic/drivers/modules/pxe.py:629 | for a node id that is a relative name, the node's TFTP directory lies inside the TFTP root |
| PxePaths.ConfigFilePath | ironic/drivers/modules/pxe.py:229-231 | the PXE config lies inside the node's TFTP directory, so removing that directory removes it |
| PxePaths.TftpImagePath | ironic/drivers/modules/pxe.py:412-414 | each TFTP image lies inside the node's TFTP directory |
| PxePaths.ImageDirPath | ironic/drivers/modules/pxe.py:239-241 | the node's image directory lies inside `images_path` |
| PxePaths.ImageFilePath | ironic/drivers/modules/pxe.py:244-246 | the disk image lies inside the node's image directory, so removing that directory removes it |
| PxePaths.TokenFilePath | ironic/drivers/modules/pxe.py:249-251 | the token file lies inside the TFTP root and its name ends with the node id |
| PxePaths.DownloadMarkerBesideMaster | ironic/drivers/modules/pxe.py:331-333 | the download marker is never the master itself. For an absolute cache directory it is the master's path plus ".lock" |
| Neutron.DhcpOptions | ironic/drivers/modules/pxe.py:469-477 | exactly the three options bootfile-name, server-ip-address and tftp-server. The boot file comes from `pxe_bootfile_name` and both server options name `tftp_server` |
| Neutron.NodeVifIds | ironic/drivers/modules/pxe.py:200-213 | a port id is a key exactly when some port with that id has a truthy `vif_port_id`, and its value is such a port's VIF |
| Neutron.UpdateNeutron | ironic/drivers/modules/pxe.py:480-511 | no VIFs gives a warning only. It raises exactly when every port's update fails, and updates all when none fails. Otherwise it warns, naming exactly the failed ports, each once: some but not all |
| Files.SoleLink | ironic/drivers/modules/pxe.py:264-275 | a file's link count is at least 1, and it is 1 exactly when no other entry names its inode |
| Files.LinkCountAdd | ironic/drivers/modules/pxe.py:311-317 | each hard link made to a master raises its link count by one |
| Files.LinkCountRemove | ironic/drivers/modules/pxe.py:311-317 | each link removed lowers the master's link count by one |
| Files.FileSystem.Unlink | ironic/drivers/modules/pxe.py:287 | `os.unlink`: the path is gone afterwards, and the call raises NotFound exactly when it was missing. Nothing else changes |
| Files.FileSystem.UnlinkWithoutRaise | ironic/drivers/modules/pxe.py:446 | `unlink_without_raise`: the path is gone afterwards, whether or not it existed. Nothing else changes |
| Files.FileSystem.RemoveTree | ironic/drivers/modules/pxe.py:447 | `rmtree_without_raise`: exactly the entries inside the directory are gone, the rest is untouched |
| Files.FileSystem.Link | ironic/drivers/modules/pxe.py:284-286 | `os.link`: raises when the source is missing or the destination exists, and otherwise adds a second name for the same inode |
| Files.FileSystem.WriteFile | ironic/drivers/modules/pxe.py:456-458 | writing an existing file replaces the content seen through every link. Writing a new path creates a file |
| Files.FileSystem.CreateSymlink | ironic/drivers/modules/pxe.py:529 | `create_link_without_raise`: an existing path is left as it is |
| Files.FileSystem.Fetch | ironic/drivers/modules/pxe.py:342 | a successful fetch makes the path a new file holding the image. A failed fetch changes nothing but the fetch log |
| ImageCache.LinkMaster | ironic/drivers/modules/pxe.py:254-260 | nothing happens without a master. Linking raises exactly when master and destination both exist. Otherwise the destination names the master's inode. Nothing else changes |
| ImageCache.UnlinkMaster | ironic/drivers/modules/pxe.py:263-275 | a master file is removed exactly when no other entry names its inode. Nothing else changes |
| ImageCache.CreateMaster | ironic/drivers/modules/pxe.py:278-287 | on success the master exists, is the old master if there was one and the downloaded file otherwise, and `path` links to it with the temporary file gone. With the temporary file present and `path` free it succeeds. It raises only NotFound(tmp) or AlreadyExists(path) |
| ImageCache.LinkMasterImage | ironic/drivers/modules/pxe.py:254-260 | the filesystem moves as `LinkMaster` says |
| ImageCache.UnlinkMasterImage | ironic/drivers/modules/pxe.py:263-275 | the filesystem moves as `UnlinkMaster` says |
| ImageCache.CreateMasterImage | ironic/drivers/modules/pxe.py:278-287 | the filesystem moves as `CreateMaster` says |
| ImageCache.DownloadInProgress | ironic/drivers/modules/pxe.py:290-300 | a test-and-set: reports whether the marker existed, and creates it empty when it did not |
| ImageCache.RemoveDownloadMarker | ironic/drivers/modules/pxe.py:303-308 | removes the marker whether or not it exists |
| ImageCache.StartGetImage | ironic/drivers/modules/pxe.py:331-339 | links from an existing master, or finds `path` present, or finds another download pending. Otherwise it claims the download by creating the marker. Each case leaves the stated entries |
| ImageCache.FinishDownload | ironic/drivers/modules/pxe.py:339-344 | fetches once. The marker is gone afterwards on every path. On success `path` and the master name one inode holding the image. On a fetch failure only the temporary file is left behind |
| ImageCache.ResumeAfterWait | ironic/drivers/modules/pxe.py:345-350 | once the marker has gone, links the master as `LinkMaster` says |
| ImageCache.GetImage | ironic/drivers/modules/pxe.py:311-350 | asks the image service at most once per call, and only when neither master nor marker nor `path` exists. A cache hit only adds a link. A `path` that already exists is kept: with a master present the link raises AlreadyExists, without one nothing changes. A pending download leaves everything alone. A successful download leaves `path` and the master sharing an inode that holds the image, and no marker. Without a master directory it fetches straight to `path` and touches nothing else |
| ImageCache.DestroyImages | ironic/drivers/modules/pxe.py:444-450 | the filesystem moves as `DestroyImagesEffect` says: disk file and image directory gone, master released |
| ImageCache.DestroyReleasesMaster | ironic/drivers/modules/pxe.py:444-450 | the shared master goes exactly when no link to it remains outside this node's disk file and image directory. Nothing else outside them is removed |
| VendorPassthru.NoneParams | ironic/drivers/modules/pxe.py:673-677 | the names reported missing are exactly the callback parameters whose value, after defaults, is None |
| VendorPassthru.MissingCallbacks | ironic/drivers/modules/pxe.py:673-677 | no parameter is missing if and only if address, port, iqn and lun are all given |
| VendorPassthru.GetDeployInfo | ironic/drivers/modules/pxe.py:653-682 | errors come in order: driver-info error, then key mismatch, then missing callback parameters. With an accepted info and a matching key it succeeds exactly when the callback is complete, and an incomplete callback raises InvalidParameterValue naming exactly the parameters that are None. On success: sizes are root 1024·GB, swap in MB and ephemeral 1024·GB; port defaults to 3260 and lun to 1; image and config paths are this node's; the preserve flag and format come from the info |
| VendorPassthru.Validate | ironic/drivers/modules/pxe.py:684-696 | a missing `method` raises KeyError. `pass_deploy_info` succeeds exactly when `_get_deploy_info` does, with its error otherwise. `set_boot_device` succeeds. Any other method raises "unsupported method". Success is always True |
| Provisioning.Node.PowerAction | ironic/drivers/modules/pxe.py:565 | on success the node reaches the requested power state and `last_error` is cleared. On failure only `last_error` changes, to the power driver's message, and the call raises |
| Provisioning.Node.SetFailedState | ironic/drivers/modules/pxe.py:705-721 | the node moves as `FailedState` says |
| Provisioning.FailedState | ironic/drivers/modules/pxe.py:705-721 | DEPLOYFAIL with target NOSTATE. `last_error` is the given message when the power-off worked and the power-off warning when it did not, never the power driver's text. Powered off only when the power-off worked. `driver_info` is untouched |
| Provisioning.ContinueDeployEffect | ironic/drivers/modules/pxe.py:698-755 | a node not in DEPLOYWAIT is left alone. The callback raises exactly when the parameters fail, leaving the node DEPLOYING. ACTIVE (target NOSTATE) exactly when the parameters succeed, the ramdisk reports no error and the deployment succeeds. Once the parameters succeed, a ramdisk error or a deploy failure ends in the failed state (DEPLOYFAIL, target NOSTATE) with the matching message, nothing raised, and DEPLOYFAIL arises no other way. From DEPLOYWAIT the node always ends DEPLOYING, ACTIVE or DEPLOYFAIL |
| Provisioning.ContinueDeploy | ironic/drivers/modules/pxe.py:698-755 | the node and the exception move as `ContinueDeployEffect` says, given `_get_deploy_info` on the stored info. The token file is deleted exactly when the node was in DEPLOYWAIT |
| Provisioning.DestroyTokenFile | ironic/drivers/modules/pxe.py:463-466 | removes the node's token file and nothing else |
| Provisioning.CallbackOnce | ironic/drivers/modules/pxe.py:723-727 | a node leaves DEPLOYWAIT on every callback, so a second callback changes nothing and raises nothing |
| Provisioning.MatchingCallbackActivates | ironic/drivers/modules/pxe.py:723-755 | with acceptable info, the stored key, every iSCSI parameter, no ramdisk error and a successful deployment, the node becomes ACTIVE with target NOSTATE |
| Provisioning.WrongKeyStrandsNode | ironic/drivers/modules/pxe.py:727-732 | with acceptable info and a wrong key, the callback raises the key mismatch and leaves the node DEPLOYING with its target unchanged |
| PxeDeploy.Macs | ironic/drivers/modules/pxe.py:188-197 | one address per port, in port order |
| PxeDeploy.MacLinks | ironic/drivers/modules/pxe.py:526-527 | one PXE config link per MAC, in order |
| PxeDeploy.ValidateDeploy | ironic/drivers/modules/pxe.py:535-545 | passes exactly when the node has a port and its driver info is acceptable. No port gives the no-port error. Otherwise the error is the driver-info error |
| PxeDeploy.LastSegment | ironic/drivers/modules/pxe.py:413 | the image id taken from a reference contains no slash |
| PxeDeploy.LastSegmentIsSuffix | ironic/drivers/modules/pxe.py:413 | the image id is the reference's longest slash-free suffix: a suffix, preceded by a slash unless it is the whole reference |
| PxeDeploy.ImageEntry | ironic/drivers/modules/pxe.py:412-414 | an entry's id is the last segment of the reference, and its path is the label under the node's TFTP directory |
| PxeDeploy.TftpImageInfo | ironic/drivers/modules/pxe.py:396-425 | exactly four entries: deploy kernel, deploy ramdisk, kernel and ramdisk. Each has the last segment of its reference as id (from the driver info for the deploy images, from the image properties for the others) and its TFTP path |
| PxeDeploy.CreateTokenFile | ironic/drivers/modules/pxe.py:453-460 | a non-empty token is written to the token file. An empty one removes the file. No other entry changes |
| PxeDeploy.RelinkAll | ironic/drivers/modules/pxe.py:526-529 | every listed link ends a symbolic link to the target. No other entry changes |
| PxeDeploy.CreatePxeConfig | ironic/drivers/modules/pxe.py:514-529 | the fresh deploy key is stored in `driver_info` and nothing else of the node changes. The config file holds the rendered text, and each MAC link is a symbolic link to it. No other entry changes |
| PxeDeploy.Deploy | ironic/drivers/modules/pxe.py:547-567 | needs the exclusive lock, else raises and changes nothing. Writes or removes the token file. Raises when every port's DHCP update fails. Raises with `last_error` set when the reboot fails. Otherwise the node is powered on and DEPLOYWAIT is returned |
| PxeDeploy.TearDown | ironic/drivers/modules/pxe.py:569-582 | needs the exclusive lock. Powers the node off and returns DELETED, or raises with the power error recorded |
| PxeDeploy.TakeOver | ironic/drivers/modules/pxe.py:634-635 | raises exactly when every port's DHCP update fails |
| PxeDeploy.ReleaseTftpImagesRemoves | ironic/drivers/modules/pxe.py:616-620 | releasing the TFTP images only removes entries: every image path goes, and what else goes is one of their masters |
| PxeDeploy.ReleaseKeepsLinkedFile | ironic/drivers/modules/pxe.py:616-620 | a file that is not one of the image paths, and is still linked from a path that is neither an image path nor one of their masters, survives the release unchanged. So a TFTP master another node links to is kept |
| PxeDeploy.ReleaseRemovesUnsharedMaster | ironic/drivers/modules/pxe.py:616-620 | a master of one of the images whose every other link is an image path released with that master is gone after the release |
| PxeDeploy.RemoveTftpImages | ironic/drivers/modules/pxe.py:616-620 | the filesystem moves as `ReleaseTftpImages` says |
| PxeDeploy.UnlinkAll | ironic/drivers/modules/pxe.py:624-626 | removes exactly the listed paths |
| PxeDeploy.CleanUp | ironic/drivers/modules/pxe.py:599-632 | an unacceptable driver info raises its error and changes nothing. Otherwise the filesystem moves as `CleanUpEffect` says, over the node's image info and MAC links |
| PxeDeploy.CleanUpRemovesNodeFiles | ironic/drivers/modules/pxe.py:599-632 | after clean-up none of the node's files is left: TFTP images, config, MAC links, TFTP and image directories, disk image, token file |
| PxeDeploy.CleanUpRemovesOnlyNodeFiles | ironic/drivers/modules/pxe.py:599-632 | clean-up adds and changes nothing. It removes only the node's files, the masters of its TFTP images and its instance master |
| PxeDeploy.CleanUpKeepsLinkedFile | ironic/drivers/modules/pxe.py:599-632 | a file that is not the node's own, and is still linked from a path clean-up may not remove, survives clean-up with its contents. This covers a TFTP or instance master that another node uses |
| PxeDeploy.CleanUpReleasesUnsharedMaster | ironic/drivers/modules/pxe.py:599-632 | a TFTP master that only this node's images link to is gone after clean-up |
| CacheScenarios.InterleavedCallersFetchOnce | ironic/drivers/modules/pxe.py:311-350 | two nodes want the same image, and the second arrives while the first downloads. There is one fetch, and both nodes end linked to the master, which then has three links |
| CacheScenarios.InterleavedCallersFetchTwice | ironic/drivers/modules/pxe.py:331-344 | when the second caller's link and `path` test run before the first caller's download, both callers fetch. Both end linked to the one master, and the second temporary file is gone |
| CacheScenarios.CacheForTwoNodes | ironic/drivers/modules/pxe.py:311-350 | two nodes caching the same instance image fetch it once and share the master's inode |
| CacheScenarios.LastReleaseRemovesMaster | ironic/drivers/modules/pxe.py:444-450 | destroying the first of two nodes keeps the master; destroying the second removes it |
| DeployScenarios.ExampleAcceptable | ironic/drivers/modules/pxe.py:83-141 | a driver info with the four required keys and no optional key is acceptable, with root size 10 |
| DeployScenarios.ValidateExample | ironic/drivers/modules/pxe.py:535-545 | the example node passes validation. Without `pxe_root_gb` it fails naming exactly that key |
| DeployScenarios.DeployLeavesToken | ironic/drivers/modules/pxe.py:547-567 | a deploy with a token and a working reboot returns DEPLOYWAIT and leaves the token in the token file |
| DriverInfo.StoringKeyKeepsParse | ironic/drivers/modules/pxe.py:163-166 | storing a deploy key in an acceptable `driver_info` keeps it acceptable, and changes only the parsed key |
| DeployScenarios.ErrorCallbackParameters | ironic/drivers/modules/pxe.py:653-682 | the example callback carries the stored key and every iSCSI parameter, so `_get_deploy_info` succeeds, and it reports a ramdisk error |
| DeployScenarios.RamdiskErrorFails | ironic/drivers/modules/pxe.py:733-739 | a callback reporting a ramdisk error ends DEPLOYFAIL with target NOSTATE and the ramdisk message, with the token file gone |

## Left out

- `_build_pxe_config` is left out: the template rendering (jinja2), the API URL lookup and the random deploy key. The key and the rendered text are parameters of `PxeDeploy.CreatePxeConfig`, and the template is not part of this model.
- The image service (Glance) and `service_utils.parse_image_ref` are left out. The image properties' kernel and ramdisk references, and the image id parsed from `image_source`, are parameters.
- `images.fetch_to_raw` internals are not modelled. A fetch either writes the image to the path or raises, as its `succeeds` parameter says.
- `_cache_tftp_images`, `_cache_instance_image`, `_cache_images` and `PXEDeploy.prepare` are not modelled as members. They only combine `_get_tftp_image_info`, `_create_pxe_config` and `_get_image` with the image service. The cache scenarios show `_get_image` composed for several callers.
- `lockutils.synchronized` locking and real concurrency are not modelled. Each synchronized function, and each step between them, is an atomic method. Interleavings are written out in the scenarios.
- ImageCache.StartGetImage: fuses `_link_master_image`, the unlocked `os.path.exists(path)` test and `_download_in_progress` into one atomic step. The three steps are also modelled separately (`LinkMasterImage`, `DownloadInProgress`), and at that granularity two callers can both fetch, one after the other (`CacheScenarios.InterleavedCallersFetchTwice`). So a single fetch across callers is not a property of the code, and it is not proved; the marker only keeps two downloads from running at once.
- The polling loop of `_get_image` (`FixedIntervalLoopingCall`) is not modelled. `ImageCache.ResumeAfterWait` requires the marker to be gone, which is when the loop ends. A download that never finishes, and so a wait that never ends, is outside the model.
- `tempfile.mkstemp` is not modelled. The temporary name is a parameter required to be fresh.
- ImageCache.GetImage: does not model a concurrent master created between the marker test and the download. Its postcondition for a successful download assumes `path` is neither the master nor the marker.
- The Neutron API is not modelled. Which VIFs fail to update is a set parameter.
- `manager_utils.node_power_action` is not part of this model beyond what the driver relies on: its outcome and error text are parameters, and success clears `last_error`.
- `task_manager.require_exclusive_lock` is modelled as a boolean. `task_manager.acquire` is left out.
- `VendorPassthru.vendor_passthru` and `_set_boot_device` are left out. The first dispatches `set_boot_device` to `_set_boot_device`, and `pass_deploy_info` to `_continue_deploy` inside `task_manager.acquire` (`ironic/drivers/modules/pxe.py:757-767`). `_continue_deploy` is modelled; the dispatch and the lock are not. `_set_boot_device` belongs to another driver interface.
- `PXERescue` is not modelled. Its three methods do nothing.
- `node.save()` persistence, logging and the wording of exception messages are left out. Errors carry structured reasons.
- Dictionary iteration order is not modelled. Missing names are reported in declaration order, but only their membership is stated. The TFTP images are released in the fixed order deploy kernel, deploy ramdisk, kernel, ramdisk.
- Directories are implicit (`fileutils.ensure_tree` is a no-op) and symbolic links are never followed. `os.path.exists` is modelled as `lexists`.
- Floating-point values in `driver_info` are not modelled. Values are None, booleans, integers and strings.
- `oslo strutils.bool_from_string` is not part of this model beyond its strict mode on the words it accepts.
- PyValues.ParseInt: follows Python 2 `int()` on ASCII text only. Unicode digits and Unicode whitespace, which `int()` accepts in a unicode string, are not modelled.
- PyValues.StrictBool: strips ASCII whitespace only, and lower-cases ASCII letters only.
- PxeDeploy.ReleaseRemovesUnsharedMaster: frees a master only when each of its other links is an image path released with that same master. A master linked from an image path of another entry is not covered, because then the outcome depends on the release order.
- Neutron.UpdateNeutron: a failure is keyed by VIF, so ports that share a VIF fail or succeed together.
- PxeDeploy.Macs: `_get_node_mac_addresses` returns None when no task resource belongs to the node (`ironic/drivers/modules/pxe.py:195-197`). The model always has the node's ports, so that case is not modelled.
- Neutron.NodeVifIds: reads the node's ports, where the code reads the ports of `task.resources[0]` (`ironic/drivers/modules/pxe.py:209`). The two agree for a task holding one node.
