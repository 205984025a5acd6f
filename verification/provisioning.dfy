/**
 * The node record the PXE driver updates and the deploy callback
 * (`VendorPassthru._continue_deploy`): the provisioning state machine that
 * resumes a deployment when the deploy ramdisk posts back.
 */
module Provisioning {
  import opened Wrappers
  import opened PyValues
  import opened Exceptions
  import opened DriverInfo
  import opened PxePaths
  import opened Files
  import opened Neutron
  import opened VendorPassthru

  /** The provisioning states the driver reads or writes (`ironic.common.states`). */
  datatype ProvisionState = NoState | DeployWait | Deploying | Active | DeployFail | Deleted

  datatype PowerState = PowerOn | PowerOff

  /** The power requests the driver makes. */
  datatype PowerRequest = Reboot | PowerOffRequest

  function PowerAfter(request: PowerRequest): PowerState {
    match request
    case Reboot => PowerOn
    case PowerOffRequest => PowerOff
  }

  /** The messages that end up in `last_error`. */
  datatype Message =
    | RamdiskFailure                 // the ramdisk posted an error
    | DeployFailure                  // `deploy_utils.deploy` raised
    | PowerOffFailure(node: string)  // powering off raised while handling either
    | PowerActionFailure(text: string)  // what `node_power_action` records when it fails

  /** The wording of each message. */
  function MessageText(m: Message): string {
    match m
    case RamdiskFailure => "Failure in PXE deploy ramdisk."
    case DeployFailure => "PXE driver failed to continue deployment."
    case PowerOffFailure(node) =>
      "Node " + node + " failed to power off while handling deploy failure. This may be a serious condition. "
      + "Node should be removed from Ironic or put in maintenance mode until the problem is resolved."
    case PowerActionFailure(text) => text
  }

  /** The node's mutable fields at one moment. */
  datatype NodeRecord = NodeRecord(
    provisionState: ProvisionState,
    targetProvisionState: ProvisionState,
    powerState: PowerState,
    lastError: Option<Message>,
    driverInfo: map<string, Value>)

  class Node {
    const uuid: string
    /** The node's ports, as the task's resources list them. */
    const ports: seq<Port>
    var provisionState: ProvisionState
    var targetProvisionState: ProvisionState
    var powerState: PowerState
    var lastError: Option<Message>
    var driverInfo: map<string, Value>

    function Record(): NodeRecord
      reads this
    {
      NodeRecord(provisionState, targetProvisionState, powerState, lastError, driverInfo)
    }

    constructor (uuid: string, ports: seq<Port>, record: NodeRecord)
      ensures this.uuid == uuid && this.ports == ports && Record() == record
    {
      this.uuid := uuid;
      this.ports := ports;
      provisionState := record.provisionState;
      targetProvisionState := record.targetProvisionState;
      powerState := record.powerState;
      lastError := record.lastError;
      driverInfo := record.driverInfo;
    }

    /**
     * `manager_utils.node_power_action(task, node, request)`: on success the
     * node reaches the requested power state and `last_error` is cleared; on
     * failure `last_error` holds the power driver's message and the call raises.
     */
    method PowerAction(request: PowerRequest, succeeds: bool, failure: string) returns (ok: bool)
      modifies this
      ensures ok == succeeds
      ensures succeeds ==> Record() == old(Record()).(powerState := PowerAfter(request), lastError := None)
      ensures !succeeds ==> Record() == old(Record()).(lastError := Some(PowerActionFailure(failure)))
    {
      if succeeds {
        powerState := PowerAfter(request);
        lastError := None;
      } else {
        lastError := Some(PowerActionFailure(failure));
      }
      ok := succeeds;
    }

    /** `_set_failed_state(msg)` inside `_continue_deploy`. */
    method SetFailedState(msg: Message, powerOffOk: bool, powerError: string)
      modifies this
      ensures Record() == FailedState(old(Record()), uuid, msg, powerOffOk)
    {
      provisionState := DeployFail;
      targetProvisionState := NoState;
      var ok := PowerAction(PowerOffRequest, powerOffOk, powerError);
      lastError := Some(if ok then msg else PowerOffFailure(uuid));
    }
  }

  /** The record `_set_failed_state(msg)` leaves. */
  function FailedState(n: NodeRecord, node: string, msg: Message, powerOffOk: bool): (r: NodeRecord)
    ensures r.provisionState == DeployFail && r.targetProvisionState == NoState
    // last_error is written after the power action, so it is never the power driver's message
    ensures r.lastError == Some(if powerOffOk then msg else PowerOffFailure(node))
    ensures r.powerState == (if powerOffOk then PowerOff else n.powerState)
    ensures r.driverInfo == n.driverInfo
  {
    n.(provisionState := DeployFail, targetProvisionState := NoState,
       powerState := if powerOffOk then PowerOff else n.powerState,
       lastError := Some(if powerOffOk then msg else PowerOffFailure(node)))
  }

  /** The deploy ramdisk reported an error (`kwargs.get('error')` is truthy). */
  predicate RamdiskError(kwargs: map<string, Value>) {
    Truthy(Get(kwargs, "error", VNone))
  }

  /** The node after the callback, and the exception that escapes it, if any. */
  datatype ContinueResult = ContinueResult(node: NodeRecord, raised: Option<Error>)

  /**
   * What `_continue_deploy` does to the node, given what `_get_deploy_info`
   * returns for it (`params`), whether `deploy_utils.deploy` succeeds and
   * whether the power-off of the failure path succeeds.
   */
  function ContinueDeployEffect(n: NodeRecord, node: string, params: Result<DeployParams, Error>,
                                kwargs: map<string, Value>, deployOk: bool, powerOffOk: bool): (r: ContinueResult)
    // a node that is not waiting is left alone
    ensures n.provisionState != DeployWait ==> r == ContinueResult(n, None)
    // the parameters are built outside the try block: their error escapes with the node DEPLOYING
    ensures r.raised.Some? <==> n.provisionState == DeployWait && params.Failure?
    ensures r.raised.Some? ==>
              params.Failure? && r.raised.value == params.error &&
              r.node == n.(provisionState := Deploying)
    // the deployment succeeds exactly when everything it needs goes right
    ensures n.provisionState == DeployWait ==>
              (r.node.provisionState == Active <==>
                 params.Success? && !RamdiskError(kwargs) && deployOk)
    ensures n.provisionState == DeployWait && r.node.provisionState == Active ==> r.node == n.(provisionState := Active, targetProvisionState := NoState)
    // DEPLOYFAIL comes only from a ramdisk error or a deploy failure, and each of
    // them ends there, the error recorded after the power-off
    ensures n.provisionState == DeployWait && r.node.provisionState == DeployFail ==>
              && r.raised.None?
              && r.node == FailedState(n.(provisionState := Deploying), node, if RamdiskError(kwargs) then RamdiskFailure else DeployFailure, powerOffOk)
    ensures n.provisionState == DeployWait && params.Success? && (RamdiskError(kwargs) || !deployOk) ==>
              && r.raised.None?
              && r.node == FailedState(n.(provisionState := Deploying), node, if RamdiskError(kwargs) then RamdiskFailure else DeployFailure, powerOffOk)
    ensures n.provisionState == DeployWait ==>
              r.node.provisionState == Deploying || r.node.provisionState == Active || r.node.provisionState == DeployFail
  {
    if n.provisionState != DeployWait then ContinueResult(n, None)
    else
      var deploying := n.(provisionState := Deploying);
      if params.Failure? then ContinueResult(deploying, Some(params.error))
      else if RamdiskError(kwargs) then
        ContinueResult(FailedState(deploying, node, RamdiskFailure, powerOffOk), None)
      else if !deployOk then
        ContinueResult(FailedState(deploying, node, DeployFailure, powerOffOk), None)
      else
        ContinueResult(deploying.(provisionState := Active, targetProvisionState := NoState), None)
  }

  /** `_destroy_token_file(node)` */
  method DestroyTokenFile(fs: FileSystem, cfg: Config, node: string)
    requires fs.Valid()
    modifies fs
    ensures fs.Valid()
    ensures fs.entries == old(fs.entries) - {TokenFilePath(cfg, node)}
    ensures fs.data == old(fs.data) && fs.nextInode == old(fs.nextInode) && fs.fetchLog == old(fs.fetchLog)
  {
    fs.UnlinkWithoutRaise(TokenFilePath(cfg, node));
  }

  /**
   * `VendorPassthru._continue_deploy(task, node, **kwargs)`: the node moves as
   * `ContinueDeployEffect` says, and the token file goes as soon as the node
   * leaves DEPLOYWAIT.
   */
  method ContinueDeploy(node: Node, fs: FileSystem, cfg: Config, kwargs: map<string, Value>,
                        deployOk: bool, powerOffOk: bool, powerError: string) returns (raised: Option<Error>)
    requires fs.Valid()
    modifies node, fs
    ensures fs.Valid()
    ensures ContinueResult(node.Record(), raised) == ContinueDeployEffect(old(node.Record()), node.uuid,
              GetDeployInfo(cfg, node.uuid, old(node.driverInfo), kwargs), kwargs, deployOk, powerOffOk)
    ensures fs.entries == if old(node.provisionState) == DeployWait then old(fs.entries) - {TokenFilePath(cfg, node.uuid)} else old(fs.entries)
    ensures fs.data == old(fs.data) && fs.nextInode == old(fs.nextInode) && fs.fetchLog == old(fs.fetchLog)
  {
    if node.provisionState != DeployWait {
      return None;
    }
    node.provisionState := Deploying;
    DestroyTokenFile(fs, cfg, node.uuid);
    var params := GetDeployInfo(cfg, node.uuid, node.driverInfo, kwargs);
    if params.Failure? {
      return Some(params.error);
    }
    if RamdiskError(kwargs) {
      node.SetFailedState(RamdiskFailure, powerOffOk, powerError);
      return None;
    }
    if !deployOk {
      node.SetFailedState(DeployFailure, powerOffOk, powerError);
      return None;
    }
    node.provisionState := Active;
    node.targetProvisionState := NoState;
    raised := None;
  }

  /** A node leaves DEPLOYWAIT on every callback, so a second callback changes nothing. */
  lemma CallbackOnce(n: NodeRecord, node: string, params1: Result<DeployParams, Error>, params2: Result<DeployParams, Error>,
                     kwargs1: map<string, Value>, kwargs2: map<string, Value>,
                     deployOk1: bool, powerOffOk1: bool, deployOk2: bool, powerOffOk2: bool)
    requires n.provisionState == DeployWait
    ensures var first := ContinueDeployEffect(n, node, params1, kwargs1, deployOk1, powerOffOk1);
            ContinueDeployEffect(first.node, node, params2, kwargs2, deployOk2, powerOffOk2) == ContinueResult(first.node, None)
  {
    var first := ContinueDeployEffect(n, node, params1, kwargs1, deployOk1, powerOffOk1);
    assert first.node.provisionState != DeployWait;
  }

  /**
   * A callback that reports the stored key and every iSCSI parameter, with no
   * ramdisk error, activates a node whose driver info is acceptable once
   * `deploy_utils.deploy` succeeds.
   */
  lemma MatchingCallbackActivates(n: NodeRecord, cfg: Config, node: string, kwargs: map<string, Value>, powerOffOk: bool)
    requires n.provisionState == DeployWait && Acceptable(n.driverInfo)
    requires KeyMatches(n.driverInfo, kwargs) && CallbackComplete(kwargs)
    requires !RamdiskError(kwargs)
    ensures ContinueDeployEffect(n, node, GetDeployInfo(cfg, node, n.driverInfo, kwargs), kwargs, true, powerOffOk) ==
              ContinueResult(n.(provisionState := Active, targetProvisionState := NoState), None)
  {
    assert GetDeployInfo(cfg, node, n.driverInfo, kwargs).Success?;
  }

  /**
   * With the deploy key stored by `_build_pxe_config`, the callback fails on
   * a wrong key and leaves the node DEPLOYING with its target unchanged.
   */
  lemma WrongKeyStrandsNode(n: NodeRecord, cfg: Config, node: string, kwargs: map<string, Value>,
                            deployOk: bool, powerOffOk: bool)
    requires n.provisionState == DeployWait && Acceptable(n.driverInfo)
    requires !KeyMatches(n.driverInfo, kwargs)
    ensures var r := ContinueDeployEffect(n, node, GetDeployInfo(cfg, node, n.driverInfo, kwargs), kwargs, deployOk, powerOffOk);
            && r.raised == Some(InvalidParameterValue(DeployKeyMismatch))
            && r.node.provisionState == Deploying
            && r.node.targetProvisionState == n.targetProvisionState
  {
    assert ParseDriverInfo(n.driverInfo).Success?;
  }
}
