/**
 * Worked examples of the deploy interface on concrete nodes: validation of
 * a typical driver info, a deploy that leaves the token file behind, and a
 * callback reporting a ramdisk error.
 */
module DeployScenarios {
  import opened Wrappers
  import opened PyValues
  import opened Exceptions
  import opened DriverInfo
  import opened PxePaths
  import opened Files
  import opened Neutron
  import opened VendorPassthru
  import opened Provisioning
  import opened PxeDeploy

  /** The driver info of a node deploying image "img-1" on a 10 GB root partition. */
  function ExampleInfo(): map<string, Value> {
    map["pxe_image_source" := VStr("img-1"), "pxe_deploy_kernel" := VStr("k-1"),
        "pxe_deploy_ramdisk" := VStr("r-1"), "pxe_root_gb" := VStr("10")]
  }

  const ExamplePort: Port := Port("port-1", "52:54:00:12:34:56", VStr("vif-1"))

  /** The keys of the example are the `pxe_` names of the required labels, and no optional key is set. */
  lemma ExampleKeys()
    ensures ExampleInfo().Keys == {Param("image_source"), Param("deploy_kernel"), Param("deploy_ramdisk"), Param("root_gb")}
    ensures "pxe_swap_mb" !in ExampleInfo() && "pxe_ephemeral_gb" !in ExampleInfo()
    ensures Param("ephemeral_format") !in ExampleInfo() && "pxe_preserve_ephemeral" !in ExampleInfo()
  {
    assert Param("image_source") == "pxe_image_source";
    assert Param("deploy_kernel") == "pxe_deploy_kernel";
    assert Param("deploy_ramdisk") == "pxe_deploy_ramdisk";
    assert Param("root_gb") == "pxe_root_gb";
    ExampleHasNoOptionalKey();
  }

  /** Each optional key differs from the four keys of the example, in length or in its fifth character. */
  lemma ExampleHasNoOptionalKey()
    ensures "pxe_swap_mb" !in ExampleInfo() && "pxe_ephemeral_gb" !in ExampleInfo()
    ensures Param("ephemeral_format") !in ExampleInfo() && "pxe_preserve_ephemeral" !in ExampleInfo()
  {
    assert "pxe_swap_mb"[4] != "pxe_root_gb"[4];
    assert "pxe_ephemeral_gb"[4] != "pxe_image_source"[4];
    assert |Param("ephemeral_format")| == 20;
    assert |"pxe_preserve_ephemeral"| == 22;
  }

  /** The example is acceptable: all required keys, an integer root size and the default sizes. */
  lemma ExampleAcceptable()
    ensures Acceptable(ExampleInfo())
    ensures ToInt(Field(ExampleInfo(), "root_gb")) == Success(10)
  {
    ExampleKeys();
    ParseIntRoundTrip(10);
    assert IntToString(10) == "10";
    assert StrictBool(VBool(false)) == Some(false);
  }

  /** The node with one port passes `validate`; without `root_gb` it fails, naming `pxe_root_gb`. */
  lemma ValidateExample()
    ensures ValidateDeploy("node-1", [ExamplePort], ExampleInfo()) == None
    ensures ValidateDeploy("node-1", [ExamplePort], ExampleInfo() - {Param("root_gb")}) ==
              Some(InvalidParameterValue(MissingParameters([Param("root_gb")])))
  {
    ExampleAcceptable();
    ExampleKeys();
    var short := ExampleInfo() - {Param("root_gb")};
    assert Truthy(Field(short, "image_source")) && Truthy(Field(short, "deploy_kernel")) && Truthy(Field(short, "deploy_ramdisk"));
    assert Field(short, "root_gb") == VNone;
    assert MissingParams(short, ["root_gb"]) == [Param("root_gb")] by {
      assert ["root_gb"][1..] == [];
    }
    assert MissingParams(short, ["deploy_ramdisk", "root_gb"]) == [Param("root_gb")] by {
      assert ["deploy_ramdisk", "root_gb"][1..] == ["root_gb"];
    }
    assert MissingParams(short, ["deploy_kernel", "deploy_ramdisk", "root_gb"]) == [Param("root_gb")] by {
      assert ["deploy_kernel", "deploy_ramdisk", "root_gb"][1..] == ["deploy_ramdisk", "root_gb"];
    }
    assert RequiredLabels[1..] == ["deploy_kernel", "deploy_ramdisk", "root_gb"];
  }

  /**
   * `deploy` on a node with exclusive access, a token and a working network
   * returns DEPLOYWAIT and leaves the token readable at the node's token path.
   */
  method DeployLeavesToken() returns (r: Result<ProvisionState, Error>, token: Option<Content>)
    ensures r == Success(DeployWait)
    ensures token == Some(Text("token-abc"))
  {
    var cfg := DefaultConfig("10.0.0.1");
    var node := new Node("node-1", [ExamplePort], NodeRecord(Deploying, Active, PowerOff, None, ExampleInfo()));
    var fs := new FileSystem();
    r := Deploy(node, fs, cfg, true, "token-abc", {}, true, "");
    var tp := TokenFilePath(cfg, "node-1");
    token := if tp in fs.entries && fs.entries[tp].File? then Some(fs.data[fs.entries[tp].inode]) else None;
  }

  /** The callback of the ramdisk-error example. */
  function ErrorCallback(): map<string, Value> {
    map["key" := VStr("key-1"), "address" := VStr("10.0.0.5"), "iqn" := VStr("iqn-node-1"), "error" := VStr("disk not found")]
  }

  /** The example callback carries a key, a complete target and an error. */
  lemma ErrorCallbackShape()
    ensures Get(ErrorCallback(), "key", VNone) == VStr("key-1")
    ensures CallbackComplete(ErrorCallback()) && RamdiskError(ErrorCallback())
  {
    var cb := ErrorCallback();
    assert Get(cb, "address", VNone) == VStr("10.0.0.5") && Get(cb, "iqn", VNone) == VStr("iqn-node-1");
    assert "port" !in cb && "lun" !in cb;
    assert Truthy(Get(cb, "error", VNone));
  }

  /** With the stored key, the example callback has every parameter `_get_deploy_info` needs. */
  lemma ErrorCallbackParameters(cfg: Config)
    ensures var info := ExampleInfo()[Param("deploy_key") := VStr("key-1")];
            GetDeployInfo(cfg, "node-1", info, ErrorCallback()).Success? && RamdiskError(ErrorCallback())
  {
    var info := ExampleInfo()[Param("deploy_key") := VStr("key-1")];
    ExampleAcceptable();
    StoringKeyKeepsParse(ExampleInfo(), VStr("key-1"));
    assert ParseDriverInfo(info).Success?;
    assert Field(info, "deploy_key") == VStr("key-1");
    ErrorCallbackShape();
    assert KeyMatches(info, ErrorCallback());
  }

  /**
   * A callback carrying the right key and target but reporting a ramdisk
   * error fails the deployment and removes the token file.
   */
  method RamdiskErrorFails() returns (state: ProvisionState, target: ProvisionState, error: Option<Message>, tokenLeft: bool)
    ensures state == DeployFail && target == NoState
    ensures error == Some(RamdiskFailure)
    ensures !tokenLeft
  {
    var cfg := DefaultConfig("10.0.0.1");
    var info := ExampleInfo()[Param("deploy_key") := VStr("key-1")];
    var node := new Node("node-1", [ExamplePort], NodeRecord(DeployWait, Active, PowerOn, None, info));
    var fs := new FileSystem();
    CreateTokenFile(fs, cfg, "node-1", "token-abc");
    ErrorCallbackParameters(cfg);
    var raised := ContinueDeploy(node, fs, cfg, ErrorCallback(), true, true, "");
    state, target, error := node.provisionState, node.targetProvisionState, node.lastError;
    tokenLeft := TokenFilePath(cfg, "node-1") in fs.entries;
  }
}
