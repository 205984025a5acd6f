/**
 * The vendor pass-through checks of the PXE driver: turning the deploy
 * ramdisk's callback into the parameters of the disk deployment
 * (`_get_deploy_info`) and validating a pass-through call (`validate`).
 */
module VendorPassthru {
  import opened Wrappers
  import opened PyValues
  import opened Exceptions
  import opened DriverInfo
  import opened PxePaths

  /** The keyword arguments `deploy_utils.deploy` receives. */
  datatype DeployParams = DeployParams(
    address: Value,
    port: Value,
    iqn: Value,
    lun: Value,
    imagePath: string,
    pxeConfigPath: string,
    rootMb: int,
    swapMb: int,
    ephemeralMb: int,
    preserveEphemeral: bool,
    ephemeralFormat: Value)

  /** The callback parameters that may be None, with the defaults of `port` and `lun`. */
  const CallbackNames: seq<string> := ["address", "port", "iqn", "lun"]

  function CallbackParam(kwargs: map<string, Value>, name: string): Value {
    if name == "port" then Get(kwargs, "port", VStr("3260"))
    else if name == "lun" then Get(kwargs, "lun", VStr("1"))
    else Get(kwargs, name, VNone)
  }

  /** Every callback parameter is given (after the defaults). */
  predicate CallbackComplete(kwargs: map<string, Value>) {
    && Get(kwargs, "address", VNone) != VNone
    && Get(kwargs, "port", VStr("3260")) != VNone
    && Get(kwargs, "iqn", VNone) != VNone
    && Get(kwargs, "lun", VStr("1")) != VNone
  }

  /** The names among `names` whose callback parameter is None, in order. */
  function NoneParams(kwargs: map<string, Value>, names: seq<string>): (r: seq<string>)
    ensures forall n :: n in r <==> n in names && CallbackParam(kwargs, n) == VNone
  {
    if names == [] then []
    else
      var rest := NoneParams(kwargs, names[1..]);
      assert forall n :: n in names <==> n == names[0] || n in names[1..];
      if CallbackParam(kwargs, names[0]) == VNone then [names[0]] + rest else rest
  }

  /** The key the ramdisk reports matches the one stored in `driver_info` (Python `==`). */
  predicate KeyMatches(info: map<string, Value>, kwargs: map<string, Value>) {
    PyEq(Field(info, "deploy_key"), Get(kwargs, "key", VNone))
  }

  /** `VendorPassthru._get_deploy_info(node, **kwargs)` */
  function GetDeployInfo(cfg: Config, node: string, info: map<string, Value>, kwargs: map<string, Value>)
    : (r: Result<DeployParams, Error>)
    // driver_info errors come first, then the key, then the missing callback parameters
    ensures ParseDriverInfo(info).Failure? ==> r == Failure(ParseDriverInfo(info).error)
    ensures ParseDriverInfo(info).Success? && !KeyMatches(info, kwargs) ==>
              r == Failure(InvalidParameterValue(DeployKeyMismatch))
    ensures ParseDriverInfo(info).Success? && KeyMatches(info, kwargs) ==>
              (r.Success? <==> CallbackComplete(kwargs))
    ensures ParseDriverInfo(info).Success? && KeyMatches(info, kwargs) && !CallbackComplete(kwargs) ==>
              r.Failure? && r.error.InvalidParameterValue? && r.error.reason.DeployParametersMissing?
    ensures r.Failure? && r.error.InvalidParameterValue? && r.error.reason.DeployParametersMissing? ==>
              forall n :: n in r.error.reason.names <==> n in CallbackNames && CallbackParam(kwargs, n) == VNone
    // sizes converted from GB to MB, port and LUN defaulted, paths of this node
    ensures r.Success? ==>
              && KeyMatches(info, kwargs)
              && ToInt(Field(info, "root_gb")).Success? && r.value.rootMb == 1024 * ToInt(Field(info, "root_gb")).value
              && ToInt(SwapMb(info)).Success? && r.value.swapMb == ToInt(SwapMb(info)).value
              && ToInt(EphemeralGb(info)).Success? && r.value.ephemeralMb == 1024 * ToInt(EphemeralGb(info)).value
              && Some(r.value.preserveEphemeral) == StrictBool(PreserveEphemeral(info))
              && r.value.ephemeralFormat == EphemeralFormat(info)
              && CallbackComplete(kwargs)
              && r.value.address == Get(kwargs, "address", VNone)
              && r.value.iqn == Get(kwargs, "iqn", VNone)
              && r.value.port == Get(kwargs, "port", VStr("3260"))
              && r.value.lun == Get(kwargs, "lun", VStr("1"))
              && r.value.imagePath == ImageFilePath(cfg, node)
              && r.value.pxeConfigPath == ConfigFilePath(cfg, node)
  {
    var parsed := ParseDriverInfo(info);
    if parsed.Failure? then Failure(parsed.error)
    else if !PyEq(parsed.value.deployKey, Get(kwargs, "key", VNone)) then
      Failure(InvalidParameterValue(DeployKeyMismatch))
    else
      var missing := NoneParams(kwargs, CallbackNames);
      MissingCallbacks(kwargs);
      if missing != [] then
        Failure(InvalidParameterValue(DeployParametersMissing(missing)))
      else
        Success(Assemble(cfg, node, parsed.value, kwargs))
  }

  /** The parameters built from a parsed `driver_info` and a complete callback. */
  function Assemble(cfg: Config, node: string, d: Info, kwargs: map<string, Value>): DeployParams
    requires ToInt(d.rootGb).Success? && ToInt(d.swapMb).Success? && ToInt(d.ephemeralGb).Success?
  {
    DeployParams(
      Get(kwargs, "address", VNone), Get(kwargs, "port", VStr("3260")),
      Get(kwargs, "iqn", VNone), Get(kwargs, "lun", VStr("1")),
      ImageFilePath(cfg, node), ConfigFilePath(cfg, node),
      1024 * ToInt(d.rootGb).value, ToInt(d.swapMb).value, 1024 * ToInt(d.ephemeralGb).value,
      d.preserveEphemeral, d.ephemeralFormat)
  }

  lemma MissingCallbacks(kwargs: map<string, Value>)
    ensures NoneParams(kwargs, CallbackNames) == [] <==> CallbackComplete(kwargs)
  {
    var missing := NoneParams(kwargs, CallbackNames);
    if missing != [] {
      assert missing[0] in missing;
    }
    if !CallbackComplete(kwargs) {
      if Get(kwargs, "address", VNone) == VNone { assert "address" in missing; }
      else if Get(kwargs, "port", VStr("3260")) == VNone { assert "port" in missing; }
      else if Get(kwargs, "iqn", VNone) == VNone { assert "iqn" in missing; }
      else { assert "lun" in missing; }
    }
  }

  /** `VendorPassthru.validate(task, node, **kwargs)` */
  function Validate(cfg: Config, node: string, info: map<string, Value>, kwargs: map<string, Value>)
    : (r: Result<bool, Error>)
    ensures "method" !in kwargs ==> r == Failure(KeyError("method"))
    ensures r.Success? ==> r.value
    ensures "method" in kwargs && kwargs["method"] == VStr("pass_deploy_info") ==>
              (r.Success? <==> GetDeployInfo(cfg, node, info, kwargs).Success?) &&
              (r.Failure? ==> r.error == GetDeployInfo(cfg, node, info, kwargs).error)
    ensures "method" in kwargs && kwargs["method"] == VStr("set_boot_device") ==> r == Success(true)
    ensures "method" in kwargs && kwargs["method"] !in {VStr("pass_deploy_info"), VStr("set_boot_device")} ==>
              r == Failure(InvalidParameterValue(UnsupportedMethod(StrOf(kwargs["method"]))))
  {
    if "method" !in kwargs then Failure(KeyError("method"))
    else
      var m := kwargs["method"];
      if PyEq(m, VStr("pass_deploy_info")) then
        match GetDeployInfo(cfg, node, info, kwargs)
        case Failure(e) => Failure(e)
        case Success(_) => Success(true)
      else if PyEq(m, VStr("set_boot_device")) then Success(true)
      else Failure(InvalidParameterValue(UnsupportedMethod(StrOf(m))))
  }
}
